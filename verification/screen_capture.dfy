/** `get_screenshot`: grab the screen, draw a cursor marker on it, resize it
    on request, and name the file it is saved under. The raster is opaque:
    it is known by its size and by the shapes drawn on it. */
module ScreenCapture {
  import opened Wrappers
  import opened ToolBase
  import opened Device

  /** The directory screenshots are saved in. */
  const OutputDir := "./tmp/outputs"

  /** The radius of the cursor marker's circle, in pixels. */
  const CursorRadius := 10

  /** The default resize target of `get_screenshot`. */
  const DefaultTargetWidth := 1920
  const DefaultTargetHeight := 1080

  /** What every capture failure message starts with. */
  const CaptureFailurePrefix := "Failed to capture screenshot: "

  datatype Size = Size(width: int, height: int)

  /** An axis-aligned bounding box, as PIL's `(x0, y0, x1, y1)`. */
  datatype Box = Box(left: int, top: int, right: int, bottom: int)

  /** A shape drawn onto the raster, with its colour and stroke width. */
  datatype Shape =
    | Ellipse(bounds: Box, outline: string, strokeWidth: nat)
    | Line(start: Point, end: Point, fill: string, strokeWidth: nat)

  /** A raster image: its size and what has been drawn on it, in the order
      drawn. The pixels themselves are not modelled. */
  datatype Raster = Raster(size: Size, drawn: seq<Shape>)

  /** A file path: a directory and a file name inside it. */
  datatype ScreenPath = ScreenPath(dir: string, name: string)

  /** What the host provides to one capture: the grabbed screen, the cursor
      position at that moment, the hex form of a fresh UUID, and, when some
      step of grabbing, drawing, resizing or saving raises, the text of that
      exception. */
  datatype Screen = Screen(grab: Raster, cursor: Point, hex: string, fault: Option<string>)

  /** A saved screenshot: the final raster and where it was written. */
  datatype Shot = Shot(image: Raster, path: ScreenPath)

  /** The bounding box of the cursor circle: a square of side twice the
      radius centred on the cursor. */
  function CursorCircle(c: Point): (b: Box)
    ensures b.right - b.left == 2 * CursorRadius && b.bottom - b.top == 2 * CursorRadius
    ensures b.left + b.right == 2 * c.x && b.top + b.bottom == 2 * c.y
  {
    Box(c.x - CursorRadius, c.y - CursorRadius, c.x + CursorRadius, c.y + CursorRadius)
  }

  /** The horizontal crosshair stroke: on the cursor's row, reaching twice the
      radius to either side of it. */
  function HorizontalHair(c: Point): (l: (Point, Point))
    ensures l.0.y == c.y && l.1.y == c.y
    ensures l.0.x + l.1.x == 2 * c.x && l.1.x - l.0.x == 4 * CursorRadius
  {
    (Point(c.x - CursorRadius * 2, c.y), Point(c.x + CursorRadius * 2, c.y))
  }

  /** The vertical crosshair stroke: on the cursor's column, reaching twice
      the radius above and below it. */
  function VerticalHair(c: Point): (l: (Point, Point))
    ensures l.0.x == c.x && l.1.x == c.x
    ensures l.0.y + l.1.y == 2 * c.y && l.1.y - l.0.y == 4 * CursorRadius
  {
    (Point(c.x, c.y - CursorRadius * 2), Point(c.x, c.y + CursorRadius * 2))
  }

  /** The cursor marker, in drawing order: a red circle outline two pixels
      wide, then the horizontal and vertical red crosshair strokes one pixel
      wide. */
  function CursorMarker(c: Point): seq<Shape> {
    var h := HorizontalHair(c);
    var v := VerticalHair(c);
    [ Ellipse(CursorCircle(c), "red", 2),
      Line(h.0, h.1, "red", 1),
      Line(v.0, v.1, "red", 1) ]
  }

  /** A shape whose centre is `c`. */
  predicate CentredOn(s: Shape, c: Point) {
    match s
    case Ellipse(b, _, _) => b.left + b.right == 2 * c.x && b.top + b.bottom == 2 * c.y
    case Line(p, q, _, _) => p.x + q.x == 2 * c.x && p.y + q.y == 2 * c.y
  }

  /** A stroke that passes through `c`. */
  predicate PassesThrough(s: Shape, c: Point) {
    s.Line? &&
    ((s.start.y == c.y == s.end.y && s.start.x <= c.x <= s.end.x) ||
     (s.start.x == c.x == s.end.x && s.start.y <= c.y <= s.end.y))
  }

  /** Every part of the marker is centred on the cursor; the circle has the
      fixed radius; both strokes pass through the cursor, one horizontal and
      one vertical, each four radii long. */
  lemma MarkerCentredOnCursor(c: Point)
    ensures |CursorMarker(c)| == 3
    ensures forall i :: 0 <= i < 3 ==> CentredOn(CursorMarker(c)[i], c)
    ensures CursorMarker(c)[0].Ellipse?
    ensures CursorMarker(c)[0].bounds.right - CursorMarker(c)[0].bounds.left == 2 * CursorRadius
    ensures forall i :: 1 <= i < 3 ==> PassesThrough(CursorMarker(c)[i], c)
    ensures CursorMarker(c)[1].start.y == CursorMarker(c)[1].end.y
    ensures CursorMarker(c)[2].start.x == CursorMarker(c)[2].end.x
    ensures forall i :: 1 <= i < 3 ==>
      var l := CursorMarker(c)[i];
      (l.end.x - l.start.x) + (l.end.y - l.start.y) == 4 * CursorRadius
  {
  }

  /** The size after the optional resize: when resizing is asked for, the
      result always has the target size (resampled only when the sizes
      differ); otherwise it keeps its own size. */
  function ResizedSize(resize: bool, size: Size, target: Size): (r: Size)
    ensures resize ==> r == target
    ensures !resize ==> r == size
  {
    if resize && size != target then target else size
  }

  /** The file a capture with the given UUID hex is saved to. */
  function ScreenshotPath(hex: string): ScreenPath {
    ScreenPath(OutputDir, "screenshot_" + hex + ".png")
  }

  /** Different UUIDs name different files, all in the output directory. */
  lemma DistinctIdsDistinctPaths(hex1: string, hex2: string)
    ensures ScreenshotPath(hex1).dir == OutputDir
    ensures ScreenshotPath(hex1) == ScreenshotPath(hex2) ==> hex1 == hex2
  {
    var n1, n2 := ScreenshotPath(hex1).name, ScreenshotPath(hex2).name;
    if n1 == n2 {
      assert |hex1| == |hex2|;
      assert hex1 == n1[11..11 + |hex1|];
      assert hex2 == n2[11..11 + |hex2|];
    }
  }

  /** `get_screenshot(resize, target_width, target_height)`. On success the
      raster carries the cursor marker at the host's cursor position on top
      of whatever was grabbed, has the size the resize rule gives, and is
      saved under the fresh UUID's name; on any failure inside the capture
      there is no shot, only one `ToolError` whose message is the fixed prefix
      followed by the exception's text. */
  function GetScreenshot(screen: Screen, resize: bool := false,
                         targetWidth: int := DefaultTargetWidth,
                         targetHeight: int := DefaultTargetHeight): (r: Result<Shot, Failure>)
    ensures r.Success? <==> screen.fault.None?
    ensures r.Failure? ==> r.error == ToolError(CaptureFailurePrefix + screen.fault.value)
    ensures r.Success? ==> r.value.path == ScreenshotPath(screen.hex)
    ensures r.Success? ==> r.value.image.drawn == screen.grab.drawn + CursorMarker(screen.cursor)
    ensures r.Success? && resize ==> r.value.image.size == Size(targetWidth, targetHeight)
    ensures r.Success? && !resize ==> r.value.image.size == screen.grab.size
  {
    var path := ScreenshotPath(screen.hex);
    match screen.fault
    case Some(e) => Failure(ToolError(CaptureFailurePrefix + e))
    case None =>
      var marked := Raster(screen.grab.size, screen.grab.drawn + CursorMarker(screen.cursor));
      var final := Raster(ResizedSize(resize, marked.size, Size(targetWidth, targetHeight)), marked.drawn);
      Success(Shot(final, path))
  }

  /** A failed capture's message always starts with the fixed prefix. */
  lemma FailureMessagePrefixed(screen: Screen, resize: bool, targetWidth: int, targetHeight: int)
    requires GetScreenshot(screen, resize, targetWidth, targetHeight).Failure?
    ensures var m := GetScreenshot(screen, resize, targetWidth, targetHeight).error;
            m.ToolError? && |m.message| >= |CaptureFailurePrefix|
            && m.message[..|CaptureFailurePrefix|] == CaptureFailurePrefix
  {
  }

  /** With the defaults the screenshot keeps the screen's own size. */
  lemma DefaultsKeepSize(screen: Screen)
    requires screen.fault.None?
    ensures GetScreenshot(screen).Success?
    ensures GetScreenshot(screen).value.image.size == screen.grab.size
  {
  }
}
