/** The hard limiter applied to every output sample. */
module Limiter {

  /**
   * Clamp `val` to `[min, max]`: `min` below the range, `max` above it,
   * `val` itself otherwise. No knee, no hysteresis, no look-ahead.
   */
  function Limit(val: real, min: real, max: real): (r: real)
    ensures r == val || r == min || r == max
    ensures min <= max ==> min <= r <= max
    ensures min <= val <= max ==> r == val
    ensures val < min ==> r == min
    ensures min <= max < val ==> r == max
    ensures !(val < min) && val > max ==> r == max
  {
    if val < min then min
    else if val > max then max
    else val
  }

  /** Clamping twice is clamping once. */
  lemma LimitIdempotent(val: real, min: real, max: real)
    requires min <= max
    ensures Limit(Limit(val, min, max), min, max) == Limit(val, min, max)
  {
  }

  /** A hard clip never reorders two samples. */
  lemma LimitMonotone(a: real, b: real, min: real, max: real)
    requires a <= b && min <= max
    ensures Limit(a, min, max) <= Limit(b, min, max)
  {
  }
}
