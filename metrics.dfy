/** The guarded arithmetic the scripts apply to measured durations. */
module Metrics {

  /** `count / seconds if seconds > 0 else 0`: tokens per second. */
  function Rate(count: int, seconds: real): (r: real)
    ensures seconds > 0.0 ==> r * seconds == count as real
    ensures seconds <= 0.0 ==> r == 0.0
    ensures count >= 0 ==> r >= 0.0
  {
    if seconds > 0.0 then count as real / seconds else 0.0
  }

  /** `total / n` for a positive count. */
  function Mean(total: real, n: nat): (r: real)
    requires n > 0
    ensures r * n as real == total
  {
    total / n as real
  }

  /** `max(a, b)` */
  function Max(a: real, b: real): (r: real)
    ensures r >= a && r >= b
    ensures r == a || r == b
  {
    if a >= b then a else b
  }
}
