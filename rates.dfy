/** The percentages the dashboards report, as exact rationals: `part / whole * 100` behind a
    `whole > 0` guard, and 0 otherwise. Python rounds each value to two decimals with
    `round(..., 2)` on floats; the model keeps the exact value. */
module Percent {
  /** `round(part / whole * 100, 2) if whole > 0 else 0.0`, without the rounding. */
  function Rate(part: int, whole: int): (p: real)
    ensures whole <= 0 ==> p == 0.0
    ensures whole > 0 ==> p * (whole as real) == (part as real) * 100.0
  {
    if whole > 0 then (part as real) / (whole as real) * 100.0 else 0.0
  }

  /** A part of a positive whole is between 0 and 100 percent, and the whole is exactly 100. */
  lemma RateBounds(part: int, whole: int)
    requires 0 <= part <= whole
    ensures 0.0 <= Rate(part, whole) <= 100.0
    ensures part == 0 ==> Rate(part, whole) == 0.0
    ensures whole > 0 && part == whole ==> Rate(part, whole) == 100.0
  {
  }

  /** The whole of a positive whole is 100 percent. */
  lemma RateOfWhole(whole: int)
    requires whole > 0
    ensures Rate(whole, whole) == 100.0
  {
  }

  /** Rates over one whole add up: the rates of two parts sum to the rate of their union. */
  lemma RateAdditive(a: int, b: int, whole: int)
    ensures Rate(a, whole) + Rate(b, whole) == Rate(a + b, whole)
  {
  }
}
