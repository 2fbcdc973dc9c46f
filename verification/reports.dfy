/** Reading back the positions the tool's text reports name. Each parser is
    the inverse of the report it reads, so a report determines the position
    it was made from. */
module Reports {
  import opened Wrappers
  import opened Strings
  import opened Computer
  import Device

  /** The index of the first `c` in `s`, or `|s|` when there is none. */
  function FirstIndex(s: string, c: char): (i: nat)
    ensures i <= |s|
    ensures forall k :: 0 <= k < i ==> s[k] != c
    ensures i < |s| ==> s[i] == c
  {
    if s == [] then 0
    else if s[0] == c then 0
    else 1 + FirstIndex(s[1..], c)
  }

  /** `s` cut at its first `c`, when it has one. */
  function SplitAt(s: string, c: char): Option<(string, string)> {
    var i := FirstIndex(s, c);
    if i == |s| then None else Some((s[..i], s[i + 1..]))
  }

  /** In `a + [c] + b` with no `c` in `a`, the cut at the first `c` gives
      back `a` and `b`. */
  lemma SplitAtAfter(a: string, c: char, b: string)
    requires c !in a
    ensures SplitAt(a + [c] + b, c) == Some((a, b))
  {
    var s := a + [c] + b;
    assert s[|a|] == c;
    assert forall k :: 0 <= k < |a| ==> s[k] == a[k];
    assert FirstIndex(s, c) == |a|;
    assert s[..|a|] == a;
    assert s[|a| + 1..] == b;
  }

  /** Reads `({x}, {y})` at the start of `s`, returning the point and what
      follows it. */
  function ParsePoint(s: string): Option<(Device.Point, string)> {
    if |s| == 0 || s[0] != '(' then None
    else
      match SplitAt(s[1..], ',')
      case None => None
      case Some((xs, u)) =>
        if |u| == 0 || u[0] != ' ' then None
        else
          match SplitAt(u[1..], ')')
          case None => None
          case Some((ys, rest)) =>
            match (ParseInt(xs), ParseInt(ys))
            case (Some(x), Some(y)) => Some((Device.Point(x, y), rest))
            case _ => None
  }

  /** `({xs}, {ys})` followed by anything is cut into its two fields and the
      rest, when neither field holds the separator after it. */
  lemma ParsePointFields(xs: string, ys: string, rest: string)
    requires ',' !in xs && ')' !in ys
    ensures ParsePoint("(" + xs + ", " + ys + ")" + rest) ==
            match (ParseInt(xs), ParseInt(ys))
            case (Some(x), Some(y)) => Some((Device.Point(x, y), rest))
            case _ => None
  {
    var v := ys + [')'] + rest;
    var u := " " + v;
    var t := xs + [','] + u;
    assert "(" + xs + ", " + ys + ")" + rest == "(" + t;
    assert ("(" + t)[1..] == t;
    SplitAtAfter(xs, ',', u);
    assert u[1..] == v;
    SplitAtAfter(ys, ')', rest);
  }

  /** `ParsePoint` reads back what `PointText` writes, leaving the rest. */
  lemma PointTextRoundTrip(x: int, y: int, rest: string)
    ensures ParsePoint(PointText(x, y) + rest) == Some((Device.Point(x, y), rest))
  {
    ParsePointFields(IntToString(x), IntToString(y), rest);
    ParseIntToString(x);
    ParseIntToString(y);
  }

  const MovePrefix := "Moved mouse to "
  const DragPrefix := "Dragged mouse from "
  const DragMiddle := " to "

  /** The target a `mouse_move` report names. */
  function ParseMoveReport(s: string): Option<Device.Point> {
    if |s| < |MovePrefix| || s[..|MovePrefix|] != MovePrefix then None
    else
      match ParsePoint(s[|MovePrefix|..])
      case Some((p, rest)) => if rest == "" then Some(p) else None
      case None => None
  }

  /** The start and the target a `left_click_drag` report names. */
  function ParseDragReport(s: string): Option<(Device.Point, Device.Point)> {
    if |s| < |DragPrefix| || s[..|DragPrefix|] != DragPrefix then None
    else
      match ParsePoint(s[|DragPrefix|..])
      case None => None
      case Some((from, rest)) =>
        if |rest| < |DragMiddle| || rest[..|DragMiddle|] != DragMiddle then None
        else
          match ParsePoint(rest[|DragMiddle|..])
          case Some((to, tail)) => if tail == "" then Some((from, to)) else None
          case None => None
  }

  /** The position a `cursor_position` report names. */
  function ParseCursorReport(s: string): Option<Device.Point> {
    if |s| < 2 || s[..2] != "X=" then None
    else
      match SplitAt(s[2..], ',')
      case None => None
      case Some((xs, u)) =>
        if |u| < 2 || u[..2] != "Y=" then None
        else
          match (ParseInt(xs), ParseInt(u[2..]))
          case (Some(x), Some(y)) => Some(Device.Point(x, y))
          case _ => None
  }

  /** A `mouse_move` report names exactly the target moved to. */
  lemma MoveReportRoundTrip(x: int, y: int)
    ensures ParseMoveReport(MoveReport(x, y)) == Some(Device.Point(x, y))
  {
    var s := MoveReport(x, y);
    PointTextRoundTrip(x, y, "");
    assert s[..|MovePrefix|] == MovePrefix;
    assert s[|MovePrefix|..] == PointText(x, y) + "";
  }

  lemma Regroup(a: string, b: string, c: string, d: string)
    ensures a + b + c + d == a + (b + (c + d))
  {
  }

  /** A drag report whose two points read back reads back as the pair. */
  lemma ParseDragParts(first: string, second: string, from: Device.Point, to: Device.Point)
    requires ParsePoint(first + (DragMiddle + second)) == Some((from, DragMiddle + second))
    requires ParsePoint(second + "") == Some((to, ""))
    ensures ParseDragReport(DragPrefix + (first + (DragMiddle + second))) == Some((from, to))
  {
    var rest := DragMiddle + second;
    var s := DragPrefix + (first + rest);
    assert s[..|DragPrefix|] == DragPrefix;
    assert s[|DragPrefix|..] == first + rest;
    assert ParsePoint(s[|DragPrefix|..]) == Some((from, rest));
    assert rest[..|DragMiddle|] == DragMiddle;
    assert rest[|DragMiddle|..] == second + "";
    assert ParsePoint(rest[|DragMiddle|..]) == Some((to, ""));
  }

  /** A `left_click_drag` report names exactly where the cursor was and where
      it was dragged. */
  lemma DragReportRoundTrip(from: Device.Point, x: int, y: int)
    ensures ParseDragReport(DragReport(from, x, y)) == Some((from, Device.Point(x, y)))
  {
    var first, second := PointText(from.x, from.y), PointText(x, y);
    PointTextRoundTrip(from.x, from.y, DragMiddle + second);
    PointTextRoundTrip(x, y, "");
    ParseDragParts(first, second, from, Device.Point(x, y));
    Regroup(DragPrefix, first, DragMiddle, second);
  }

  /** `X={xs},Y={ys}` is cut into its two fields when the first holds no
      comma. */
  lemma ParseCursorFields(xs: string, ys: string)
    requires ',' !in xs
    ensures ParseCursorReport("X=" + xs + ",Y=" + ys) ==
            match (ParseInt(xs), ParseInt(ys))
            case (Some(x), Some(y)) => Some(Device.Point(x, y))
            case _ => None
  {
    var u := "Y=" + ys;
    var t := xs + [','] + u;
    assert "X=" + xs + ",Y=" + ys == "X=" + t;
    assert ("X=" + t)[..2] == "X=";
    assert ("X=" + t)[2..] == t;
    SplitAtAfter(xs, ',', u);
    assert u[..2] == "Y=";
    assert u[2..] == ys;
  }

  /** A `cursor_position` report names exactly the position reported. */
  lemma CursorReportRoundTrip(x: int, y: int)
    ensures ParseCursorReport(CursorReport(x, y)) == Some(Device.Point(x, y))
  {
    ParseCursorFields(IntToString(x), IntToString(y));
    ParseIntToString(x);
    ParseIntToString(y);
  }

  /** Different cursor positions give different reports. */
  lemma CursorReportInjective(x1: int, y1: int, x2: int, y2: int)
    ensures CursorReport(x1, y1) == CursorReport(x2, y2) ==> x1 == x2 && y1 == y2
  {
    CursorReportRoundTrip(x1, y1);
    CursorReportRoundTrip(x2, y2);
  }
}
