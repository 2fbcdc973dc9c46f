/** Conversion between the agent's coordinate space and the display's. */
module Scaling {

  /** Which space a coordinate is being converted from. */
  datatype ScalingSource = Computer | Api

  /** `ComputerTool.scale_coordinates`: whether or not scaling is enabled,
      and in either direction, the pair comes back unchanged. Generic in the
      component type, because callers hand it whatever the agent sent. */
  function ScaleCoordinates<T>(enabled: bool, source: ScalingSource, x: T, y: T): (r: (T, T))
    ensures r.0 == x && r.1 == y
  {
    if !enabled then (x, y)
    else (x, y)
  }

  /** Converting from API space to device space and back returns the
      original point, in both orders. */
  lemma ScaleRoundTrip<T>(enabled: bool, x: T, y: T)
    ensures var d := ScaleCoordinates(enabled, Api, x, y);
            ScaleCoordinates(enabled, Computer, d.0, d.1) == (x, y)
    ensures var a := ScaleCoordinates(enabled, Computer, x, y);
            ScaleCoordinates(enabled, Api, a.0, a.1) == (x, y)
  {
  }
}
