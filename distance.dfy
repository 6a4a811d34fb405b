/** The distance function `haversine` (app.py), modelled on its fail-open
    path only. */
module Distance {
  import opened Wrappers
  import opened Records

  /** The distance `haversine` returns when any argument fails `float()`. */
  const Sentinel: real := 999.0

  /** The great-circle formula evaluated on four converted coordinates
      (lat1, lon1, lat2, lon2), in kilometres. Its trigonometry is
      floating-point library code and is a parameter of the model. */
  type GreatCircle = (real, real, real, real) -> real

  /** `haversine(lat1, lon1, lat2, lon2)`: it never raises; when any of the
      four arguments does not convert it returns exactly the sentinel,
      otherwise the formula's value on the converted numbers. */
  function Haversine(lat1: Coord, lon1: Coord, lat2: Coord, lon2: Coord, gc: GreatCircle): (km: real)
    ensures lat1.None? || lon1.None? || lat2.None? || lon2.None? ==> km == Sentinel
    ensures lat1.Some? && lon1.Some? && lat2.Some? && lon2.Some? ==>
              km == gc(lat1.value, lon1.value, lat2.value, lon2.value)
  {
    match (lat1, lon1, lat2, lon2)
    case (Some(a), Some(b), Some(c), Some(d)) => gc(a, b, c, d)
    case _ => Sentinel
  }
}
