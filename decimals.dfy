/** Exact decimal arithmetic as BigDecimal does it: amounts are exact rationals (`real`),
    and a value rounded to a scale is kept as its unscaled integer, as a BigDecimal
    with that scale stores it. */
module Decimals {

  /** Scale of every currency rate stored on a move line. */
  const RATE_SCALE: nat := 5

  /** AppBaseService.DEFAULT_NB_DECIMAL_DIGITS, the scale of amounts in company currency. */
  const AMOUNT_SCALE: nat := 2

  function Pow10(d: nat): (p: nat)
    ensures p >= 1
  {
    if d == 0 then 1 else 10 * Pow10(d - 1)
  }

  function Abs(x: real): (r: real)
    ensures r >= 0.0 && (r == x || r == -x)
  {
    if x < 0.0 then -x else x
  }

  /** The unscaled value of `x` rounded to `scale` decimal places with RoundingMode.HALF_UP:
      to the nearest multiple of 10^-scale, a tie going away from zero. */
  function RoundHalfUp(x: real, scale: nat): int {
    var p := Pow10(scale) as real;
    if x >= 0.0 then (x * p + 0.5).Floor else -((-x) * p + 0.5).Floor
  }

  /** The rounded value is the nearest unscaled integer to x × 10^scale, a tie going away from
      zero, and has the sign of x. */
  lemma {:induction false} RoundHalfUpIsNearest(x: real, scale: nat)
    ensures var n := RoundHalfUp(x, scale);
            (x >= 0.0 ==> -0.5 < n as real - x * Pow10(scale) as real <= 0.5) &&
            (x < 0.0 ==> -0.5 <= n as real - x * Pow10(scale) as real < 0.5) &&
            (x >= 0.0 ==> n >= 0) && (x <= 0.0 ==> n <= 0)
  {
  }

  /** The value of a decimal given by its unscaled integer and its scale. */
  function ValueAt(unscaled: int, scale: nat): real {
    unscaled as real / Pow10(scale) as real
  }

  /** BigDecimal.setScale(scale, HALF_UP), as a value. */
  function SetScale(x: real, scale: nat): real {
    ValueAt(RoundHalfUp(x, scale), scale)
  }

  /** Rounding a value that already has `scale` decimal places leaves it unchanged: the
      source's `divide(..., 5, HALF_UP)` followed by `setScale(5, HALF_UP)` is one rounding. */
  lemma {:induction false} RoundingAtOwnScaleIsExact(n: int, scale: nat)
    ensures RoundHalfUp(ValueAt(n, scale), scale) == n
  {
    var p := Pow10(scale) as real;
    var x := ValueAt(n, scale);
    assert x * p == n as real;
    var m := RoundHalfUp(x, scale);
    RoundHalfUpIsNearest(x, scale);
    assert -0.5 <= m as real - n as real <= 0.5;
  }

  /** HALF_UP is odd-symmetric: it rounds magnitudes, then restores the sign. */
  lemma {:induction false} RoundHalfUpIsSymmetric(x: real, scale: nat)
    ensures RoundHalfUp(-x, scale) == -RoundHalfUp(x, scale)
  {
  }
}
