/** `ComputerTool`: the action dispatcher that turns one agent request into
    calls on the automation library and a textual and/or screenshot result.
    A call is a pure function of the tool, the request and what the host
    reports (the cursor position and the screen), and it returns the
    ordered trace of device calls it makes together with its result or the
    exception it raises. */
module Computer {
  import opened Wrappers
  import opened ToolBase
  import opened Strings
  import opened Scaling
  import Keys
  import ScreenCapture
  import Device

  /** Per-character typing delay of the `type` action, in milliseconds. */
  const TypingDelayMs := 12
  /** Duration of a drag, in milliseconds. */
  const DragDurationMs := 500
  /** Pause of the `hover` action, in milliseconds. */
  const HoverPauseMs := 500
  /** Pause of the `wait` action, in milliseconds. */
  const WaitPauseMs := 1000
  /** Settling delay after every screenshot, in milliseconds. */
  const ScreenshotSettleMs := 700
  /** Wheel clicks of one scroll action. */
  const ScrollClicks := 100
  /** The class-wide `_scaling_enabled` flag. */
  const ScalingEnabled := true

  /** The closed set of actions the tool understands. */
  datatype Action =
    | Key | Type | MouseMove | LeftClick | LeftClickDrag | RightClick
    | MiddleClick | DoubleClick | Screenshot | CursorPosition | Hover
    | Wait | ScrollUp | ScrollDown

  /** The wire name of an action. */
  function ActionName(a: Action): string {
    match a
    case Key => "key"
    case Type => "type"
    case MouseMove => "mouse_move"
    case LeftClick => "left_click"
    case LeftClickDrag => "left_click_drag"
    case RightClick => "right_click"
    case MiddleClick => "middle_click"
    case DoubleClick => "double_click"
    case Screenshot => "screenshot"
    case CursorPosition => "cursor_position"
    case Hover => "hover"
    case Wait => "wait"
    case ScrollUp => "scroll_up"
    case ScrollDown => "scroll_down"
  }

  /** The action an action string names, if any: exactly the inverse of
      `ActionName`. */
  function ParseAction(action: string): (r: Option<Action>)
    ensures r.Some? ==> ActionName(r.value) == action
    ensures forall a :: ActionName(a) == action ==> r == Some(a)
  {
    if action == "key" then Some(Key)
    else if action == "type" then Some(Type)
    else if action == "mouse_move" then Some(MouseMove)
    else if action == "left_click" then Some(LeftClick)
    else if action == "left_click_drag" then Some(LeftClickDrag)
    else if action == "right_click" then Some(RightClick)
    else if action == "middle_click" then Some(MiddleClick)
    else if action == "double_click" then Some(DoubleClick)
    else if action == "screenshot" then Some(Screenshot)
    else if action == "cursor_position" then Some(CursorPosition)
    else if action == "hover" then Some(Hover)
    else if action == "wait" then Some(Wait)
    else if action == "scroll_up" then Some(ScrollUp)
    else if action == "scroll_down" then Some(ScrollDown)
    else None
  }

  predicate IsPointerMotion(a: Action) {
    a == MouseMove || a == LeftClickDrag
  }

  predicate IsKeyboard(a: Action) {
    a == Key || a == Type
  }

  /** The actions that move to an optional coordinate first. */
  predicate IsButtonOrHover(a: Action) {
    a == LeftClick || a == RightClick || a == DoubleClick || a == MiddleClick || a == Hover
  }

  predicate IsClickOrQuery(a: Action) {
    IsButtonOrHover(a) || a == Screenshot || a == CursorPosition
  }

  predicate IsScroll(a: Action) {
    a == ScrollUp || a == ScrollDown
  }

  /** The `text` argument as the agent sent it: a string, or some other
      Python value known by its printed form. */
  datatype TextArg = Str(s: string) | NonStr(repr: string)

  /** The `coordinate` argument as the agent sent it: something indexable
      (noting whether it is a list or tuple) with its items, or a value that
      cannot be indexed; `repr` is its printed form. */
  datatype CoordArg =
    | Sequence(isListOrTuple: bool, items: seq<Device.Arg>, repr: string)
    | Scalar(repr: string)

  /** A list or tuple of length two. */
  predicate IsPair(c: CoordArg) {
    c.Sequence? && c.isListOrTuple && |c.items| == 2
  }

  /** A list or tuple of two integers. */
  predicate IsIntPair(c: CoordArg) {
    IsPair(c) && c.items[0].IntArg? && c.items[1].IntArg?
  }

  /** The tool's configuration: the display size read at construction, the
      display number and the `is_scaling` flag. */
  datatype Tool = Tool(width: int, height: int, displayNum: Option<int>, isScaling: bool)

  /** `ComputerTool(is_scaling)` on a display of the given size. */
  function NewTool(screenWidth: int, screenHeight: int, isScaling: bool := false): Tool {
    Tool(screenWidth, screenHeight, None, isScaling)
  }

  /** What the host reports during one call: the cursor position and the
      screen a screenshot would capture. */
  datatype Host = Host(cursor: Device.Point, screen: ScreenCapture.Screen)

  /** A successful result: optional text and an optional saved screenshot
      (whose file's encoded bytes are what the agent receives). */
  datatype ToolResult = ToolResult(output: Option<string>, image: Option<ScreenCapture.Shot>)

  datatype Response = Returned(result: ToolResult) | Raised(failure: Failure)

  /** The device calls made, in order, and how the call ended. */
  datatype Outcome = Outcome(trace: seq<Device.Event>, response: Response)

  /** A refusal before any device call. */
  function Reject(message: string): Outcome {
    Outcome([], Raised(ToolError(message)))
  }

  /** A result with text and no image. */
  function TextResult(text: string): Response {
    Returned(ToolResult(Some(text), None))
  }

  /** `({x}, {y})` */
  function PointText(x: int, y: int): string {
    "(" + IntToString(x) + ", " + IntToString(y) + ")"
  }

  function MoveReport(x: int, y: int): string {
    "Moved mouse to " + PointText(x, y)
  }

  function DragReport(from: Device.Point, x: int, y: int): string {
    "Dragged mouse from " + PointText(from.x, from.y) + " to " + PointText(x, y)
  }

  function CursorReport(x: int, y: int): string {
    "X=" + IntToString(x) + ",Y=" + IntToString(y)
  }

  /** `Performed {action}` */
  function Performed(a: Action): string {
    "Performed " + ActionName(a)
  }

  /** API space to device space, when the tool scales. */
  function ToDevice<T>(tool: Tool, x: T, y: T): (T, T) {
    if tool.isScaling then ScaleCoordinates(ScalingEnabled, Api, x, y) else (x, y)
  }

  /** Device space to API space, when the tool scales. */
  function ToApi<T>(tool: Tool, x: T, y: T): (T, T) {
    if tool.isScaling then ScaleCoordinates(ScalingEnabled, Computer, x, y) else (x, y)
  }

  /** `ComputerTool.screenshot` after the device calls `before`: capture with
      the default settings, settle, and attach the saved shot to `output`. A
      capture failure propagates, with the earlier device calls already made. */
  function TakeScreenshot(before: seq<Device.Event>, screen: ScreenCapture.Screen,
                          output: Option<string>): (o: Outcome)
    ensures |o.trace| > |before| && o.trace[..|before|] == before
    ensures o.trace[|before|] == Device.Screenshot
    ensures o.response.Returned? <==> screen.fault.None?
    ensures o.response.Returned? ==>
      && o.trace == before + [Device.Screenshot, Device.Sleep(ScreenshotSettleMs)]
      && o.response.result.output == output
      && o.response.result.image.Some?
      && o.response.result.image.value.path == ScreenCapture.ScreenshotPath(screen.hex)
      && o.response.result.image.value.image.size == screen.grab.size
    ensures o.response.Raised? ==>
      && o.trace == before + [Device.Screenshot]
      && o.response.failure == ToolError(ScreenCapture.CaptureFailurePrefix + screen.fault.value)
  {
    match ScreenCapture.GetScreenshot(screen)
    case Success(shot) =>
      Outcome(before + [Device.Screenshot, Device.Sleep(ScreenshotSettleMs)],
              Returned(ToolResult(output, Some(shot))))
    case Failure(e) =>
      Outcome(before + [Device.Screenshot], Raised(e))
  }

  /** `mouse_move` and `left_click_drag`. The coordinate is required (checked
      first), text is refused, and the coordinate must be a list or tuple of
      two integers; any violation raises before the device is touched. A
      valid request makes exactly one device call, to the given coordinate,
      and reports it without an image; a drag also names where the cursor
      was. */
  function MoveOrDrag(tool: Tool, a: Action, text: Option<TextArg>,
                      coordinate: Option<CoordArg>, cursor: Device.Point): (o: Outcome)
    requires IsPointerMotion(a)
    ensures coordinate.None? ==> o == Reject("coordinate is required for " + ActionName(a))
    ensures coordinate.Some? && text.Some? ==>
      o == Reject("text is not accepted for " + ActionName(a))
    ensures coordinate.Some? && text.None? && !IsPair(coordinate.value) ==>
      o == Reject(coordinate.value.repr + " must be a tuple of length 2")
    ensures coordinate.Some? && text.None? && IsPair(coordinate.value) && !IsIntPair(coordinate.value) ==>
      o == Reject(coordinate.value.repr + " must be a tuple of integers")
    ensures o.trace != [] <==> coordinate.Some? && text.None? && IsIntPair(coordinate.value)
    ensures o.trace == [] ==> o.response.Raised? && o.response.failure.ToolError?
    ensures o.trace != [] ==>
      var x, y := coordinate.value.items[0].n, coordinate.value.items[1].n;
      && (a == MouseMove ==>
            o == Outcome([Device.MoveTo(Device.IntArg(x), Device.IntArg(y))], TextResult(MoveReport(x, y))))
      && (a == LeftClickDrag ==>
            o == Outcome([Device.DragTo(x, y, DragDurationMs)], TextResult(DragReport(cursor, x, y))))
  {
    var name := ActionName(a);
    if coordinate.None? then Reject("coordinate is required for " + name)
    else if text.Some? then Reject("text is not accepted for " + name)
    else if !IsPair(coordinate.value) then Reject(coordinate.value.repr + " must be a tuple of length 2")
    else if !IsIntPair(coordinate.value) then Reject(coordinate.value.repr + " must be a tuple of integers")
    else
      var target := ToDevice(tool, coordinate.value.items[0].n, coordinate.value.items[1].n);
      var x, y := target.0, target.1;
      if a == MouseMove then
        Outcome([Device.MoveTo(Device.IntArg(x), Device.IntArg(y))], TextResult(MoveReport(x, y)))
      else
        Outcome([Device.DragTo(x, y, DragDurationMs)], TextResult(DragReport(cursor, x, y)))
  }

  /** `key` and `type`. Text is required (checked first), a coordinate is
      refused, and the text must be a string; any violation raises before
      the device is touched. `key` presses and releases the chord and reports
      the text; `type` clicks for focus, writes the text with the typing
      delay, presses enter, and returns the text with a screenshot. */
  function Keyboard(a: Action, text: Option<TextArg>, coordinate: Option<CoordArg>,
                    screen: ScreenCapture.Screen): (o: Outcome)
    requires IsKeyboard(a)
    ensures text.None? ==> o == Reject("text is required for " + ActionName(a))
    ensures text.Some? && coordinate.Some? ==>
      o == Reject("coordinate is not accepted for " + ActionName(a))
    ensures text.Some? && coordinate.None? && text.value.NonStr? ==>
      o == Reject(text.value.repr + " must be a string")
    ensures o.trace != [] <==> text.Some? && coordinate.None? && text.value.Str?
    ensures o.trace != [] && a == Key ==>
      o == Outcome(Keys.ChordTrace(text.value.s), TextResult("Pressed keys: " + text.value.s))
    ensures o.trace != [] && a == Type ==>
      && |o.trace| >= 4
      && o.trace[..4] == [Device.Click, Device.Write(text.value.s, TypingDelayMs), Device.Press("enter"), Device.Screenshot]
      && (o.response.Returned? ==> o.response.result.output == Some(text.value.s) && o.response.result.image.Some?)
  {
    var name := ActionName(a);
    if text.None? then Reject("text is required for " + name)
    else if coordinate.Some? then Reject("coordinate is not accepted for " + name)
    else if text.value.NonStr? then Reject(text.value.repr + " must be a string")
    else if a == Key then
      Outcome(Keys.ChordTrace(text.value.s), TextResult("Pressed keys: " + text.value.s))
    else
      TakeScreenshot([Device.Click, Device.Write(text.value.s, TypingDelayMs), Device.Press("enter")],
                     screen, Some(text.value.s))
  }

  /** The button (or pause) a click-family action performs. */
  function ButtonEvent(a: Action): Device.Event
    requires IsButtonOrHover(a)
  {
    match a
    case LeftClick => Device.Click
    case RightClick => Device.RightClick
    case MiddleClick => Device.MiddleClick
    case DoubleClick => Device.DoubleClick
    case Hover => Device.Sleep(HoverPauseMs)
  }

  /** The move a click-family action makes before its button. The coordinate
      is taken apart without any shape check: a scaling tool indexes its first
      two items, so a value that cannot be indexed, or one with fewer than two
      items, raises a Python exception; a tool that does not scale unpacks it
      into exactly two names, so any length but two raises. Otherwise the
      first two items, whatever they are, go to the move. Other actions never
      move here, even when given a coordinate. */
  function MoveFirst(tool: Tool, a: Action, coordinate: Option<CoordArg>): (r: Result<seq<Device.Event>, Failure>)
    ensures !IsButtonOrHover(a) || coordinate.None? ==> r == Success([])
    ensures IsButtonOrHover(a) && coordinate.Some? && coordinate.value.Scalar? ==>
      r == Failure(Unhandled("TypeError"))
    ensures IsButtonOrHover(a) && coordinate.Some? && coordinate.value.Sequence? ==>
      var items := coordinate.value.items;
      && (tool.isScaling && |items| < 2 ==> r == Failure(Unhandled("IndexError")))
      && (!tool.isScaling && |items| != 2 ==> r == Failure(Unhandled("ValueError")))
      && (|items| == 2 || (tool.isScaling && |items| > 2) ==> r == Success([Device.MoveTo(items[0], items[1])]))
  {
    if IsButtonOrHover(a) && coordinate.Some? then
      match coordinate.value
      case Scalar(_) => Failure(Unhandled("TypeError"))
      case Sequence(_, items, _) =>
        if tool.isScaling then
          if |items| < 2 then Failure(Unhandled("IndexError"))
          else
            var p := ScaleCoordinates(ScalingEnabled, Api, items[0], items[1]);
            Success([Device.MoveTo(p.0, p.1)])
        else if |items| != 2 then Failure(Unhandled("ValueError"))
        else Success([Device.MoveTo(items[0], items[1])])
    else Success([])
  }

  /** The click family, `hover`, `screenshot` and `cursor_position`. Text is
      refused. `cursor_position` reports the host's cursor position as text,
      with no device call and no image; `screenshot` returns only the
      capture; the others move first when given a coordinate, perform their
      button, and report `Performed {action}` with a screenshot. */
  function ClickOrQuery(tool: Tool, a: Action, text: Option<TextArg>,
                        coordinate: Option<CoordArg>, host: Host): (o: Outcome)
    requires IsClickOrQuery(a)
    ensures text.Some? ==> o == Reject("text is not accepted for " + ActionName(a))
    ensures text.None? && a == CursorPosition ==>
      o == Outcome([], TextResult(CursorReport(host.cursor.x, host.cursor.y)))
    ensures text.None? && a == Screenshot ==> o == TakeScreenshot([], host.screen, None)
    ensures text.None? && IsButtonOrHover(a) && MoveFirst(tool, a, coordinate).Failure? ==>
      o == Outcome([], Raised(MoveFirst(tool, a, coordinate).error))
    ensures text.None? && IsButtonOrHover(a) && MoveFirst(tool, a, coordinate).Success? ==>
      var moves := MoveFirst(tool, a, coordinate).value;
      o == TakeScreenshot(moves + [ButtonEvent(a)], host.screen, Some(Performed(a)))
  {
    if text.Some? then Reject("text is not accepted for " + ActionName(a))
    else
      match MoveFirst(tool, a, coordinate)
      case Failure(e) => Outcome([], Raised(e))
      case Success(moves) =>
        if a == Screenshot then TakeScreenshot([], host.screen, None)
        else if a == CursorPosition then
          var p := ToApi(tool, host.cursor.x, host.cursor.y);
          Outcome([], TextResult(CursorReport(p.0, p.1)))
        else TakeScreenshot(moves + [ButtonEvent(a)], host.screen, Some(Performed(a)))
  }

  /** `scroll_up` and `scroll_down`: neither text nor coordinate is looked
      at; the wheel turns a fixed amount, up positive and down negative, and
      a screenshot follows. */
  function ScrollBy(a: Action, screen: ScreenCapture.Screen): (o: Outcome)
    requires IsScroll(a)
    ensures |o.trace| >= 1 && o.trace[0] == Device.Scroll(if a == ScrollUp then ScrollClicks else -ScrollClicks)
    ensures o == TakeScreenshot([o.trace[0]], screen, Some(Performed(a)))
  {
    var clicks := if a == ScrollUp then ScrollClicks else -ScrollClicks;
    TakeScreenshot([Device.Scroll(clicks)], screen, Some(Performed(a)))
  }

  /** `wait`: neither text nor coordinate is looked at; pause, then report,
      without an image. */
  function WaitBriefly(): (o: Outcome)
    ensures o.trace == [Device.Sleep(WaitPauseMs)]
    ensures o.response == TextResult("Performed wait")
  {
    assert Performed(Wait) == "Performed wait";
    Outcome([Device.Sleep(WaitPauseMs)], TextResult(Performed(Wait)))
  }

  /** One known action, routed to its group. */
  function Run(tool: Tool, a: Action, text: Option<TextArg>,
               coordinate: Option<CoordArg>, host: Host): Outcome
  {
    if IsPointerMotion(a) then MoveOrDrag(tool, a, text, coordinate, host.cursor)
    else if IsKeyboard(a) then Keyboard(a, text, coordinate, host.screen)
    else if IsClickOrQuery(a) then ClickOrQuery(tool, a, text, coordinate, host)
    else if IsScroll(a) then ScrollBy(a, host.screen)
    else WaitBriefly()
  }

  /** `ComputerTool.__call__(action=..., text=..., coordinate=...)`. An action
      string the tool does not know raises `Invalid action: {action}` before
      any device call. */
  function Call(tool: Tool, action: string, text: Option<TextArg>,
                coordinate: Option<CoordArg>, host: Host): (o: Outcome)
    ensures ParseAction(action).None? ==> o == Reject("Invalid action: " + action)
    ensures o.trace != [] ==> ParseAction(action).Some?
  {
    match ParseAction(action)
    case None => Reject("Invalid action: " + action)
    case Some(a) => Run(tool, a, text, coordinate, host)
  }

  /** The capability descriptor `options`. */
  datatype ToolOptions = ToolOptions(displayWidthPx: int, displayHeightPx: int, displayNumber: Option<int>)

  /** `ComputerTool.options`: the display size passed through the
      device-to-API conversion, which reports the raw size. */
  function Options(tool: Tool): (o: ToolOptions)
    ensures o.displayWidthPx == tool.width && o.displayHeightPx == tool.height
    ensures o.displayNumber == tool.displayNum
  {
    var size := ScaleCoordinates(ScalingEnabled, Computer, tool.width, tool.height);
    ToolOptions(size.0, size.1, tool.displayNum)
  }
}
