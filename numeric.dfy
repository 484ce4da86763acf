// Arithmetic helpers shared by the whole model: clamping, Python's
// round-half-to-even `round` and its truncating `int(x)` conversion, all on
// exact reals.
module Numeric {

  function Max(a: int, b: int): int { if a >= b then a else b }
  function Min(a: int, b: int): int { if a <= b then a else b }
  function MaxR(a: real, b: real): real { if a >= b then a else b }
  function MinR(a: real, b: real): real { if a <= b then a else b }

  /** `max(lo, min(hi, x))`: x pulled into [lo, hi]. */
  function Clamp(x: int, lo: int, hi: int): (r: int)
    requires lo <= hi
    ensures lo <= r <= hi
    ensures lo <= x <= hi ==> r == x
    ensures x < lo ==> r == lo
    ensures x > hi ==> r == hi
  {
    Max(lo, Min(hi, x))
  }

  /** The real version of `max(lo, min(hi, x))`. */
  function ClampR(x: real, lo: real, hi: real): (r: real)
    requires lo <= hi
    ensures lo <= r <= hi
    ensures lo <= x <= hi ==> r == x
    ensures x < lo ==> r == lo
    ensures x > hi ==> r == hi
  {
    MaxR(lo, MinR(hi, x))
  }

  function Abs(x: real): real { if x < 0.0 then -x else x }

  /** Python's `round(x)`: the nearest integer, ties going to the even one. */
  function RoundHalfEven(x: real): (r: int)
    ensures r as real - 0.5 <= x <= r as real + 0.5
    ensures (x == r as real - 0.5 || x == r as real + 0.5) ==> r % 2 == 0
  {
    var f := x.Floor;
    var d := x - f as real;
    if d < 0.5 then f
    else if d > 0.5 then f + 1
    else if f % 2 == 0 then f
    else f + 1
  }

  /** Python's `round` is monotone: a larger argument never rounds lower. */
  lemma RoundMonotone(x: real, y: real)
    requires x <= y
    ensures RoundHalfEven(x) <= RoundHalfEven(y)
  {
  }

  /** Rounding an integer-valued real gives that integer back. */
  lemma RoundOfInt(k: int)
    ensures RoundHalfEven(k as real) == k
  {
  }

  /** Scaling by a non-negative factor keeps order. */
  lemma MulMonotone(a: real, b: real, k: real)
    requires a <= b && k >= 0.0
    ensures a * k <= b * k
  {
    assert (b - a) * k >= 0.0;
  }

  /** Python's `int(x)` on a float: truncation toward zero. */
  function Trunc(x: real): (r: int)
    ensures 0.0 <= x ==> 0 <= r && r as real <= x < r as real + 1.0
    ensures x < 0.0 ==> r <= 0 && r as real - 1.0 < x <= r as real
  {
    if x >= 0.0 then x.Floor else -((-x).Floor)
  }

  /** 0 <= d*s <= d for a non-negative d and a fraction s. */
  lemma ScaledFraction(d: real, s: real)
    requires d >= 0.0 && 0.0 <= s <= 1.0
    ensures 0.0 <= d * s <= d
  {
    assert d - d * s == d * (1.0 - s);
    assert d * (1.0 - s) >= 0.0;
  }

  /** `t + (target - t) * s`: the point a fraction s of the way from t to target. */
  function Lerp(t: real, target: real, s: real): real
  {
    t + (target - t) * s
  }

  /** Moving up by a fraction of a non-negative step stays within the step. */
  lemma StepUp(t: real, d: real, s: real)
    requires d >= 0.0 && 0.0 <= s <= 1.0
    ensures t <= t + d * s <= t + d
  {
    ScaledFraction(d, s);
  }

  /** Moving by a fraction of a non-positive step stays within the step. */
  lemma StepDown(t: real, d: real, s: real)
    requires d <= 0.0 && 0.0 <= s <= 1.0
    ensures t + d <= t + d * s <= t
  {
    ScaledFraction(-d, s);
    assert (-d) * s == -(d * s);
  }

  /** For a fraction s in [0, 1], `Lerp` stays between its two ends. */
  lemma LerpBetween(t: real, target: real, s: real)
    requires 0.0 <= s <= 1.0
    ensures t <= target ==> t <= Lerp(t, target, s) <= target
    ensures target <= t ==> target <= Lerp(t, target, s) <= t
  {
    var d := target - t;
    assert Lerp(t, target, s) == t + d * s;
    if d >= 0.0 {
      StepUp(t, d, s);
    } else {
      StepDown(t, d, s);
    }
  }
}
