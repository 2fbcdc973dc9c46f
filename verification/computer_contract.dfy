/** What the dispatcher promises across all actions: which requests it
    refuses (against an independent table of per-action parameter rules),
    when a result carries a screenshot, what a failure leaves behind, and
    that coordinate scaling never changes a call. */
module ComputerContract {
  import opened Wrappers
  import opened ToolBase
  import opened Computer
  import ScreenCapture
  import Device

  /** What an action demands of `text`. */
  datatype TextRule = TextRequired | TextForbidden | TextIgnored

  /** What an action demands of `coordinate`: `CoordRequired` means a list or
      tuple of two integers; `CoordOptional` accepts anything, unchecked. */
  datatype CoordRule = CoordRequired | CoordForbidden | CoordOptional | CoordIgnored

  datatype Rule = Rule(text: TextRule, coordinate: CoordRule)

  /** The parameter rules the tool enforces, per action. */
  function RuleOf(a: Action): Rule {
    match a
    case MouseMove | LeftClickDrag => Rule(TextForbidden, CoordRequired)
    case Key | Type => Rule(TextRequired, CoordForbidden)
    case LeftClick | RightClick | MiddleClick | DoubleClick | Hover => Rule(TextForbidden, CoordOptional)
    case Screenshot | CursorPosition => Rule(TextForbidden, CoordIgnored)
    case ScrollUp | ScrollDown | Wait => Rule(TextIgnored, CoordIgnored)
  }

  predicate TextAdmitted(r: TextRule, text: Option<TextArg>) {
    match r
    case TextRequired => text.Some? && text.value.Str?
    case TextForbidden => text.None?
    case TextIgnored => true
  }

  predicate CoordAdmitted(r: CoordRule, coordinate: Option<CoordArg>) {
    match r
    case CoordRequired => coordinate.Some? && IsIntPair(coordinate.value)
    case CoordForbidden => coordinate.None?
    case CoordOptional => true
    case CoordIgnored => true
  }

  /** The request meets the action's parameter rules. */
  predicate Admits(a: Action, text: Option<TextArg>, coordinate: Option<CoordArg>) {
    TextAdmitted(RuleOf(a).text, text) && CoordAdmitted(RuleOf(a).coordinate, coordinate)
  }

  /** The call raised a `ToolError` without touching the device. */
  predicate Refused(o: Outcome) {
    o.trace == [] && o.response.Raised? && o.response.failure.ToolError?
  }

  /** The actions whose successful result carries a screenshot. */
  predicate Captures(a: Action) {
    a == Type || IsButtonOrHover(a) || a == Screenshot || IsScroll(a)
  }

  /** The tool can take the coordinate apart: the action is not a click or
      `hover`, or there is no coordinate, or it can be indexed and has, when
      scaling, at least two items, and, when not scaling, exactly two. */
  predicate CoordinateTakesApart(tool: Tool, a: Action, coordinate: Option<CoordArg>) {
    !(IsButtonOrHover(a) && coordinate.Some? &&
      (coordinate.value.Scalar? ||
       (tool.isScaling && |coordinate.value.items| < 2) ||
       (!tool.isScaling && |coordinate.value.items| != 2)))
  }

  /** A capturing action whose request is admitted, whose coordinate (if
      any) can be taken apart, on a screen that can be captured. */
  predicate ImageExpected(tool: Tool, a: Action, text: Option<TextArg>, coordinate: Option<CoordArg>,
                          screen: ScreenCapture.Screen) {
    Captures(a) && Admits(a, text, coordinate) && CoordinateTakesApart(tool, a, coordinate) && screen.fault.None?
  }

  /** The result carries a screenshot. */
  predicate HasImage(o: Outcome) {
    o.response.Returned? && o.response.result.image.Some?
  }

  /** An image in `o` is the fresh capture of `screen`, taken last and
      followed only by the settling pause; a failure after device calls is
      the capture's own, raised right after the screenshot attempt. */
  predicate EndsInCapture(o: Outcome, screen: ScreenCapture.Screen) {
    && (HasImage(o) ==>
          && |o.trace| >= 2
          && o.trace[|o.trace| - 2..] == [Device.Screenshot, Device.Sleep(ScreenshotSettleMs)]
          && o.response.result.image.value.path == ScreenCapture.ScreenshotPath(screen.hex))
    && (o.response.Raised? && o.trace != [] ==>
          && o.trace[|o.trace| - 1] == Device.Screenshot
          && screen.fault.Some?
          && o.response.failure == ToolError(ScreenCapture.CaptureFailurePrefix + screen.fault.value))
  }

  /** What running a known action `a` promises about refusals: `o` is
      refused exactly when the request breaks the rules, and it never raises
      the unknown-action error. */
  predicate RefusesByRule(a: Action, text: Option<TextArg>, coordinate: Option<CoordArg>, o: Outcome) {
    && (Refused(o) <==> !Admits(a, text, coordinate))
    && o.response != Raised(ToolError("Invalid action: " + ActionName(a)))
  }

  /** What running a known action `a` promises about screenshots: `o` ends
      in a capture whenever it returns an image or fails after touching the
      device, and it returns an image exactly when one is expected. */
  predicate CapturesByRule(tool: Tool, a: Action, text: Option<TextArg>, coordinate: Option<CoordArg>,
                           screen: ScreenCapture.Screen, o: Outcome) {
    EndsInCapture(o, screen) && (HasImage(o) <==> ImageExpected(tool, a, text, coordinate, screen))
  }

  /** The screenshot step after any prefix of device calls. */
  lemma CaptureEnds(before: seq<Device.Event>, screen: ScreenCapture.Screen, output: Option<string>)
    ensures var o := TakeScreenshot(before, screen, output);
            && EndsInCapture(o, screen)
            && (HasImage(o) <==> screen.fault.None?)
            && o.trace != []
            && (o.response.Raised? ==> o.response.failure.message[0] == 'F')
  {
    var o := TakeScreenshot(before, screen, output);
    if o.response.Returned? {
      assert o.trace[|o.trace| - 2..] == [Device.Screenshot, Device.Sleep(ScreenshotSettleMs)];
    } else {
      assert (ScreenCapture.CaptureFailurePrefix + screen.fault.value)[0] == 'F';
    }
  }

  /** The unknown-action message starts with `I` and ends as the name does. */
  lemma InvalidMessageShape(name: string)
    ensures var m := "Invalid action: " + name;
            m[0] == 'I' && (|name| > 0 ==> m[|m| - 1] == name[|name| - 1])
  {
  }

  lemma PointerRefuses(tool: Tool, a: Action, text: Option<TextArg>,
                       coordinate: Option<CoordArg>, cursor: Device.Point)
    requires IsPointerMotion(a)
    ensures RefusesByRule(a, text, coordinate, MoveOrDrag(tool, a, text, coordinate, cursor))
  {
    var name := ActionName(a);
    InvalidMessageShape(name);
    assert ("coordinate is required for " + name)[0] == 'c';
    assert ("text is not accepted for " + name)[0] == 't';
    if coordinate.Some? {
      var m2 := coordinate.value.repr + " must be a tuple of length 2";
      assert m2[|m2| - 1] == '2';
      var ms := coordinate.value.repr + " must be a tuple of integers";
      assert ms[|ms| - 1] == 's';
    }
  }

  lemma PointerCaptures(tool: Tool, a: Action, text: Option<TextArg>,
                        coordinate: Option<CoordArg>, host: Host)
    requires IsPointerMotion(a)
    ensures CapturesByRule(tool, a, text, coordinate, host.screen, MoveOrDrag(tool, a, text, coordinate, host.cursor))
  {
  }

  /** The keyboard refusal messages all differ from the unknown-action one. */
  lemma KeyboardMessages(name: string, text: Option<TextArg>)
    requires name == "key" || name == "type"
    ensures var invalid := "Invalid action: " + name;
            && "text is required for " + name != invalid
            && "coordinate is not accepted for " + name != invalid
            && (text.Some? && text.value.NonStr? ==> text.value.repr + " must be a string" != invalid)
  {
    InvalidMessageShape(name);
    assert ("text is required for " + name)[0] == 't';
    assert ("coordinate is not accepted for " + name)[0] == 'c';
    if text.Some? && text.value.NonStr? {
      var m := text.value.repr + " must be a string";
      assert m[|m| - 1] == 'g';
    }
  }

  lemma KeyRefuses(text: Option<TextArg>, coordinate: Option<CoordArg>, screen: ScreenCapture.Screen)
    ensures RefusesByRule(Key, text, coordinate, Keyboard(Key, text, coordinate, screen))
  {
    KeyboardMessages("key", text);
  }

  lemma TypeRefuses(text: Option<TextArg>, coordinate: Option<CoordArg>, screen: ScreenCapture.Screen)
    ensures RefusesByRule(Type, text, coordinate, Keyboard(Type, text, coordinate, screen))
  {
    KeyboardMessages("type", text);
    if text.Some? && coordinate.None? && text.value.Str? {
      var s := text.value.s;
      CaptureEnds([Device.Click, Device.Write(s, TypingDelayMs), Device.Press("enter")], screen, Some(s));
    }
  }

  /** An outcome without an image that raises only before any device call
      trivially ends in the capture. */
  lemma NoImageNoLateFailure(o: Outcome, screen: ScreenCapture.Screen)
    requires !HasImage(o) && (o.response.Raised? ==> o.trace == [])
    ensures EndsInCapture(o, screen)
  {
  }

  /** `key` returns text only, and raises only before touching the device. */
  lemma KeyOutcome(text: Option<TextArg>, coordinate: Option<CoordArg>, screen: ScreenCapture.Screen)
    ensures var o := Keyboard(Key, text, coordinate, screen);
            !HasImage(o) && (o.response.Raised? ==> o.trace == [])
  {
  }

  lemma KeyCaptures(tool: Tool, text: Option<TextArg>, coordinate: Option<CoordArg>, screen: ScreenCapture.Screen)
    ensures CapturesByRule(tool, Key, text, coordinate, screen, Keyboard(Key, text, coordinate, screen))
  {
    var o := Keyboard(Key, text, coordinate, screen);
    KeyOutcome(text, coordinate, screen);
    NoImageNoLateFailure(o, screen);
    assert !Captures(Key);
  }

  lemma TypeCaptures(tool: Tool, text: Option<TextArg>, coordinate: Option<CoordArg>, screen: ScreenCapture.Screen)
    ensures CapturesByRule(tool, Type, text, coordinate, screen, Keyboard(Type, text, coordinate, screen))
  {
    if text.Some? && coordinate.None? && text.value.Str? {
      var s := text.value.s;
      CaptureEnds([Device.Click, Device.Write(s, TypingDelayMs), Device.Press("enter")], screen, Some(s));
    }
  }

  lemma ButtonRefuses(tool: Tool, a: Action, coordinate: Option<CoordArg>, host: Host)
    requires IsButtonOrHover(a)
    ensures RefusesByRule(a, None, coordinate, ClickOrQuery(tool, a, None, coordinate, host))
  {
    InvalidMessageShape(ActionName(a));
    var m := MoveFirst(tool, a, coordinate);
    if m.Success? {
      CaptureEnds(m.value + [ButtonEvent(a)], host.screen, Some(Performed(a)));
    }
  }

  lemma ButtonCaptures(tool: Tool, a: Action, coordinate: Option<CoordArg>, host: Host)
    requires IsButtonOrHover(a)
    ensures CapturesByRule(tool, a, None, coordinate, host.screen, ClickOrQuery(tool, a, None, coordinate, host))
  {
    var m := MoveFirst(tool, a, coordinate);
    if m.Success? {
      CaptureEnds(m.value + [ButtonEvent(a)], host.screen, Some(Performed(a)));
    }
  }

  lemma ScreenshotStep(tool: Tool, coordinate: Option<CoordArg>, host: Host)
    ensures ClickOrQuery(tool, Screenshot, None, coordinate, host) == TakeScreenshot([], host.screen, None)
  {
  }

  lemma ScreenshotExpected(tool: Tool, coordinate: Option<CoordArg>, screen: ScreenCapture.Screen)
    ensures Admits(Screenshot, None, coordinate)
    ensures ImageExpected(tool, Screenshot, None, coordinate, screen) <==> screen.fault.None?
  {
  }

  lemma ScreenshotConforms(tool: Tool, coordinate: Option<CoordArg>, host: Host)
    ensures var o := ClickOrQuery(tool, Screenshot, None, coordinate, host);
            RefusesByRule(Screenshot, None, coordinate, o) &&
            CapturesByRule(tool, Screenshot, None, coordinate, host.screen, o)
  {
    InvalidMessageShape(ActionName(Screenshot));
    ScreenshotStep(tool, coordinate, host);
    ScreenshotExpected(tool, coordinate, host.screen);
    CaptureEnds([], host.screen, None);
  }

  lemma TextRefusedConforms(tool: Tool, a: Action, text: Option<TextArg>,
                            coordinate: Option<CoordArg>, host: Host)
    requires IsClickOrQuery(a) && text.Some?
    ensures var o := ClickOrQuery(tool, a, text, coordinate, host);
            RefusesByRule(a, text, coordinate, o) && CapturesByRule(tool, a, text, coordinate, host.screen, o)
  {
    InvalidMessageShape(ActionName(a));
    assert ("text is not accepted for " + ActionName(a))[0] == 't';
  }

  lemma CursorConforms(tool: Tool, coordinate: Option<CoordArg>, host: Host)
    ensures var o := ClickOrQuery(tool, CursorPosition, None, coordinate, host);
            RefusesByRule(CursorPosition, None, coordinate, o) &&
            CapturesByRule(tool, CursorPosition, None, coordinate, host.screen, o)
  {
  }

  /** The text refusal shared by the click family and the queries, and
      `cursor_position`'s plain report. */
  lemma QueryConforms(tool: Tool, a: Action, text: Option<TextArg>,
                      coordinate: Option<CoordArg>, host: Host)
    requires IsClickOrQuery(a) && (text.Some? || a == CursorPosition)
    ensures var o := ClickOrQuery(tool, a, text, coordinate, host);
            RefusesByRule(a, text, coordinate, o) && CapturesByRule(tool, a, text, coordinate, host.screen, o)
  {
    if text.Some? {
      TextRefusedConforms(tool, a, text, coordinate, host);
    } else {
      CursorConforms(tool, coordinate, host);
    }
  }

  lemma ScrollRefuses(a: Action, text: Option<TextArg>, coordinate: Option<CoordArg>,
                      screen: ScreenCapture.Screen)
    requires IsScroll(a)
    ensures RefusesByRule(a, text, coordinate, ScrollBy(a, screen))
  {
    InvalidMessageShape(ActionName(a));
    var o := ScrollBy(a, screen);
    CaptureEnds([o.trace[0]], screen, Some(Performed(a)));
  }

  lemma ScrollCaptures(tool: Tool, a: Action, text: Option<TextArg>, coordinate: Option<CoordArg>,
                       screen: ScreenCapture.Screen)
    requires IsScroll(a)
    ensures CapturesByRule(tool, a, text, coordinate, screen, ScrollBy(a, screen))
  {
    var o := ScrollBy(a, screen);
    CaptureEnds([o.trace[0]], screen, Some(Performed(a)));
  }

  lemma WaitConforms(tool: Tool, text: Option<TextArg>, coordinate: Option<CoordArg>, screen: ScreenCapture.Screen)
    ensures RefusesByRule(Wait, text, coordinate, WaitBriefly())
    ensures CapturesByRule(tool, Wait, text, coordinate, screen, WaitBriefly())
  {
  }

  /** Every known action refuses by its rules, whatever the request. */
  lemma RunRefuses(tool: Tool, a: Action, text: Option<TextArg>,
                   coordinate: Option<CoordArg>, host: Host)
    ensures RefusesByRule(a, text, coordinate, Run(tool, a, text, coordinate, host))
  {
    var o := Run(tool, a, text, coordinate, host);
    if IsPointerMotion(a) {
      assert o == MoveOrDrag(tool, a, text, coordinate, host.cursor);
      PointerRefuses(tool, a, text, coordinate, host.cursor);
    } else if IsKeyboard(a) {
      assert o == Keyboard(a, text, coordinate, host.screen);
      if a == Key {
        KeyRefuses(text, coordinate, host.screen);
      } else {
        TypeRefuses(text, coordinate, host.screen);
      }
    } else if IsClickOrQuery(a) {
      assert o == ClickOrQuery(tool, a, text, coordinate, host);
      if text.Some? || a == CursorPosition {
        QueryConforms(tool, a, text, coordinate, host);
      } else if a == Screenshot {
        ScreenshotConforms(tool, coordinate, host);
      } else {
        ButtonRefuses(tool, a, coordinate, host);
      }
    } else if IsScroll(a) {
      assert o == ScrollBy(a, host.screen);
      ScrollRefuses(a, text, coordinate, host.screen);
    } else {
      assert o == WaitBriefly();
      WaitConforms(tool, text, coordinate, host.screen);
    }
  }

  /** Every known action captures by its rules, whatever the request. */
  lemma RunCaptures(tool: Tool, a: Action, text: Option<TextArg>,
                    coordinate: Option<CoordArg>, host: Host)
    ensures CapturesByRule(tool, a, text, coordinate, host.screen, Run(tool, a, text, coordinate, host))
  {
    var o := Run(tool, a, text, coordinate, host);
    if IsPointerMotion(a) {
      assert o == MoveOrDrag(tool, a, text, coordinate, host.cursor);
      PointerCaptures(tool, a, text, coordinate, host);
    } else if a == Key {
      assert o == Keyboard(Key, text, coordinate, host.screen);
      KeyCaptures(tool, text, coordinate, host.screen);
    } else if a == Type {
      assert o == Keyboard(Type, text, coordinate, host.screen);
      TypeCaptures(tool, text, coordinate, host.screen);
    } else if IsClickOrQuery(a) {
      assert o == ClickOrQuery(tool, a, text, coordinate, host);
      if text.Some? || a == CursorPosition {
        QueryConforms(tool, a, text, coordinate, host);
      } else if a == Screenshot {
        ScreenshotConforms(tool, coordinate, host);
      } else {
        ButtonCaptures(tool, a, coordinate, host);
      }
    } else if IsScroll(a) {
      assert o == ScrollBy(a, host.screen);
      ScrollCaptures(tool, a, text, coordinate, host.screen);
    } else {
      assert o == WaitBriefly();
      WaitConforms(tool, text, coordinate, host.screen);
    }
  }

  /** A known action string runs its action. */
  lemma CallRuns(tool: Tool, action: string, text: Option<TextArg>,
                 coordinate: Option<CoordArg>, host: Host)
    requires ParseAction(action).Some?
    ensures Call(tool, action, text, coordinate, host) == Run(tool, ParseAction(action).value, text, coordinate, host)
  {
  }

  /** The call is refused exactly when the action is unknown or the request
      breaks the action's parameter rules. */
  lemma RefusedIffNotAdmitted(tool: Tool, action: string, text: Option<TextArg>,
                              coordinate: Option<CoordArg>, host: Host)
    ensures Refused(Call(tool, action, text, coordinate, host)) <==>
            ParseAction(action).None? || !Admits(ParseAction(action).value, text, coordinate)
  {
    var p := ParseAction(action);
    if p.Some? {
      CallRuns(tool, action, text, coordinate, host);
      RunRefuses(tool, p.value, text, coordinate, host);
    }
  }

  /** The device is touched only by a known action whose request meets its
      parameter rules. */
  lemma DeviceUntouchedUnlessAdmitted(tool: Tool, action: string, text: Option<TextArg>,
                                      coordinate: Option<CoordArg>, host: Host)
    ensures Call(tool, action, text, coordinate, host).trace != [] ==>
            ParseAction(action).Some? && Admits(ParseAction(action).value, text, coordinate)
  {
    RefusedIffNotAdmitted(tool, action, text, coordinate, host);
  }

  /** `Invalid action: {action}` is raised exactly for the action strings the
      tool does not know. */
  lemma InvalidActionIffUnknown(tool: Tool, action: string, text: Option<TextArg>,
                                coordinate: Option<CoordArg>, host: Host)
    ensures Call(tool, action, text, coordinate, host).response ==
              Raised(ToolError("Invalid action: " + action))
            <==> ParseAction(action).None?
  {
    var p := ParseAction(action);
    if p.Some? {
      CallRuns(tool, action, text, coordinate, host);
      RunRefuses(tool, p.value, text, coordinate, host);
    }
  }

  /** A result carries an image exactly when a capturing action's request is
      admitted, its coordinate (if any) can be indexed, and the capture
      succeeds. */
  lemma ImageIffCaptured(tool: Tool, action: string, text: Option<TextArg>,
                         coordinate: Option<CoordArg>, host: Host)
    ensures var o := Call(tool, action, text, coordinate, host);
            HasImage(o) <==>
              ParseAction(action).Some? && ImageExpected(tool, ParseAction(action).value, text, coordinate, host.screen)
  {
    var p := ParseAction(action);
    if p.Some? {
      CallRuns(tool, action, text, coordinate, host);
      RunCaptures(tool, p.value, text, coordinate, host);
    }
  }

  /** Any screenshot a call returns is the one just captured and saved under
      the host's fresh UUID, after which the call only settles. */
  lemma ImageIsFreshCapture(tool: Tool, action: string, text: Option<TextArg>,
                            coordinate: Option<CoordArg>, host: Host)
    ensures var o := Call(tool, action, text, coordinate, host);
            HasImage(o) ==>
              && |o.trace| >= 2
              && o.trace[|o.trace| - 2..] == [Device.Screenshot, Device.Sleep(ScreenshotSettleMs)]
              && o.response.result.image.value.path == ScreenCapture.ScreenshotPath(host.screen.hex)
  {
    var p := ParseAction(action);
    if p.Some? {
      CallRuns(tool, action, text, coordinate, host);
      RunCaptures(tool, p.value, text, coordinate, host);
    }
  }

  /** Two screenshots taken with different UUIDs are different artifacts. */
  lemma ArtifactsDistinct(tool: Tool, action1: string, action2: string,
                          text1: Option<TextArg>, text2: Option<TextArg>,
                          coordinate1: Option<CoordArg>, coordinate2: Option<CoordArg>,
                          host1: Host, host2: Host)
    requires host1.screen.hex != host2.screen.hex
    ensures var o1, o2 := Call(tool, action1, text1, coordinate1, host1),
                          Call(tool, action2, text2, coordinate2, host2);
            HasImage(o1) && HasImage(o2) ==>
              o1.response.result.image.value.path != o2.response.result.image.value.path
  {
    ImageIsFreshCapture(tool, action1, text1, coordinate1, host1);
    ImageIsFreshCapture(tool, action2, text2, coordinate2, host2);
    ScreenCapture.DistinctIdsDistinctPaths(host1.screen.hex, host2.screen.hex);
  }

  /** A call that raises has either made no device call at all, or has made
      its device calls and then failed in the final screenshot, with the
      capture failure's message; the earlier calls stay done. */
  lemma FailureLeavesNothingButCapture(tool: Tool, action: string, text: Option<TextArg>,
                                       coordinate: Option<CoordArg>, host: Host)
    ensures var o := Call(tool, action, text, coordinate, host);
            o.response.Raised? && o.trace != [] ==>
              && o.trace[|o.trace| - 1] == Device.Screenshot
              && host.screen.fault.Some?
              && o.response.failure == ToolError(ScreenCapture.CaptureFailurePrefix + host.screen.fault.value)
  {
    var p := ParseAction(action);
    if p.Some? {
      CallRuns(tool, action, text, coordinate, host);
      RunCaptures(tool, p.value, text, coordinate, host);
    }
  }

  /** Because both conversions are the identity, whether the tool scales
      changes nothing about a call whose coordinate is absent, cannot be
      indexed, or has exactly two items. */
  lemma ScalingIrrelevantForPairs(tool: Tool, action: string, text: Option<TextArg>,
                                  coordinate: Option<CoordArg>, host: Host)
    requires coordinate.None? || coordinate.value.Scalar? || |coordinate.value.items| == 2
    ensures Call(tool.(isScaling := true), action, text, coordinate, host) ==
            Call(tool.(isScaling := false), action, text, coordinate, host)
  {
  }

  /** For a click with a coordinate of three items, scaling does decide the
      call: a scaling tool indexes the first two and clicks there, while one
      that does not scale fails to unpack it before any device call. */
  lemma ScalingDecidesLongCoordinates(tool: Tool, host: Host)
    ensures var c := Sequence(true, [Device.IntArg(1), Device.IntArg(2), Device.IntArg(3)], "(1, 2, 3)");
            var scaled := Call(tool.(isScaling := true), "left_click", None, Some(c), host);
            var raw := Call(tool.(isScaling := false), "left_click", None, Some(c), host);
            && |scaled.trace| >= 2
            && scaled.trace[..2] == [Device.MoveTo(Device.IntArg(1), Device.IntArg(2)), Device.Click]
            && raw == Outcome([], Raised(Unhandled("ValueError")))
  {
    var c := Sequence(true, [Device.IntArg(1), Device.IntArg(2), Device.IntArg(3)], "(1, 2, 3)");
    CallRuns(tool.(isScaling := true), "left_click", None, Some(c), host);
    CallRuns(tool.(isScaling := false), "left_click", None, Some(c), host);
  }

  /** The capability descriptor of a fresh tool reports the raw display size
      and no display number. */
  lemma OptionsReportRawSize(width: int, height: int, isScaling: bool)
    ensures Options(NewTool(width, height, isScaling)) == ToolOptions(width, height, None)
  {
  }

  /** `left_click` at (50, 50): move there, click, and report with a
      screenshot. */
  lemma LeftClickExample(tool: Tool, host: Host)
    requires host.screen.fault.None?
    ensures var c := Sequence(true, [Device.IntArg(50), Device.IntArg(50)], "(50, 50)");
            var o := Call(tool, "left_click", None, Some(c), host);
            && o.trace == [Device.MoveTo(Device.IntArg(50), Device.IntArg(50)), Device.Click,
                           Device.Screenshot, Device.Sleep(ScreenshotSettleMs)]
            && o.response.Returned?
            && o.response.result.output == Some("Performed left_click")
            && o.response.result.image.Some?
  {
    assert Performed(LeftClick) == "Performed left_click";
  }

  /** `type` with text "hello": focus, write, submit, and return the text with
      a screenshot. */
  lemma TypeExample(tool: Tool, host: Host)
    requires host.screen.fault.None?
    ensures var o := Call(tool, "type", Some(Str("hello")), None, host);
            && o.trace == [Device.Click, Device.Write("hello", TypingDelayMs), Device.Press("enter"),
                           Device.Screenshot, Device.Sleep(ScreenshotSettleMs)]
            && o.response == Returned(ToolResult(Some("hello"), o.response.result.image))
            && o.response.result.image.Some?
  {
  }

  /** An unknown action string is refused by name. */
  lemma BogusActionExample(tool: Tool, host: Host)
    ensures Call(tool, "bogus_action", None, None, host) == Reject("Invalid action: bogus_action")
  {
    assert ParseAction("bogus_action").None? by {
      assert "bogus_action"[0] == 'b';
      assert forall a :: ActionName(a)[0] != 'b';
    }
    assert "Invalid action: " + "bogus_action" == "Invalid action: bogus_action";
  }

  /** `cursor_position` makes no device call and reports the host's cursor
      position as text, with or without a coordinate. */
  lemma CursorPositionExample(tool: Tool, coordinate: Option<CoordArg>, host: Host)
    ensures var o := Call(tool, "cursor_position", None, coordinate, host);
            o.trace == [] && o.response == TextResult(CursorReport(host.cursor.x, host.cursor.y))
  {
    CallRuns(tool, "cursor_position", None, coordinate, host);
  }

  /** `wait` pauses and reports without an image, whatever text or coordinate
      it is given. */
  lemma WaitExample(tool: Tool, text: Option<TextArg>, coordinate: Option<CoordArg>, host: Host)
    ensures var o := Call(tool, "wait", text, coordinate, host);
            o.trace == [Device.Sleep(WaitPauseMs)] && o.response == TextResult("Performed wait")
  {
    CallRuns(tool, "wait", text, coordinate, host);
  }
}
