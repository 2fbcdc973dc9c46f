/** The primitive surface of the host automation library, as trace events. */
module Device {

  /** A screen position in pixels. */
  datatype Point = Point(x: int, y: int)

  /** A Python value handed over as one coordinate component: an `int`, or
      anything else, known only by its printed form. */
  datatype Arg = IntArg(n: int) | OtherArg(repr: string)

  /** One call into the automation library, in the order the tool issues it.
      Durations are whole milliseconds. `Screenshot` is one invocation of the
      screenshot pipeline, whether or not it succeeds. */
  datatype Event =
    | MoveTo(x: Arg, y: Arg)
    | DragTo(toX: int, toY: int, durationMs: nat)
    | KeyDown(key: string)
    | KeyUp(key: string)
    | Click
    | RightClick
    | MiddleClick
    | DoubleClick
    | Write(text: string, intervalMs: nat)
    | Press(name: string)
    | Scroll(clicks: int)
    | Sleep(ms: nat)
    | Screenshot
}
