/** Values shared by every part of the model: optional values, geographic
    coordinates, screen points and the great-circle distance. */
module Common {

  datatype Option<+T> = None | Some(value: T)

  /** A latitude/longitude pair in degrees. */
  datatype Coordinates = Coordinates(latitude: real, longitude: real)

  /** A point on the drawing surface, in pixels. */
  datatype Point = Point(x: real, y: real)

  /** The central angle, in radians, between two coordinates: the trigonometric
      core of the haversine formula (sin, cos, atan2, sqrt), which the model
      takes as given. */
  type CentralAngle = (Coordinates, Coordinates) -> real

  /** Math.PI, as the decimal literal of the double it denotes. */
  const PI: real := 3.141592653589793

  /** Earth's radius in kilometres used by the haversine distance. */
  const EARTH_RADIUS_KM: real := 6371.0

  /** Great-circle distance: the central angle scaled by Earth's radius in
      kilometres. The result is in kilometres, whatever unit the caller
      compares it with. */
  function Haversine(central: CentralAngle, a: Coordinates, b: Coordinates): (d: real)
    ensures central(a, b) >= 0.0 ==> d >= 0.0
  {
    EARTH_RADIUS_KM * central(a, b)
  }

  function Min(a: real, b: real): (m: real)
    ensures m <= a && m <= b && (m == a || m == b)
  {
    if a <= b then a else b
  }

  /** The end index `Array.prototype.slice(0, end)` stops at on a list of
      length n: a negative end counts from the back, and the result never
      exceeds the list. */
  function SliceEnd(n: nat, end: int): (e: nat)
    ensures e <= n
    ensures end >= 0 ==> e == if end <= n then end else n
    ensures end < 0 ==> e == if n + end >= 0 then n + end else 0
  {
    if end < 0 then (if n + end >= 0 then n + end else 0)
    else if end <= n then end else n
  }

  /** `s.slice(0, end)`. */
  function Slice<T>(s: seq<T>, end: int): (r: seq<T>)
    ensures |r| == SliceEnd(|s|, end)
    ensures forall i :: 0 <= i < |r| ==> r[i] == s[i]
  {
    s[..SliceEnd(|s|, end)]
  }
}
