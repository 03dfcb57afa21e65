/** Arithmetic helpers shared by the scaler and the box transforms. */
module Numeric {

  /** The C# `(int)` cast of a floating value: truncation toward zero
      (not rounding, and not the floor for negative values). */
  function Trunc(x: real): (n: int)
    ensures TruncOf(x, n)
  {
    if x >= 0.0 then x.Floor else -((-x).Floor)
  }

  /** `n` is `x` truncated toward zero: the largest integer at most `x` when
      `x` is non-negative, the smallest integer at least `x` otherwise. Exactly
      one integer satisfies this for each `x`. */
  predicate TruncOf(x: real, n: int)
  {
    (0.0 <= x ==> n as real <= x < n as real + 1.0) &&
    (x < 0.0 ==> n as real - 1.0 < x <= n as real)
  }

  /** A value truncates to a positive integer exactly when it is at least 1. */
  lemma TruncPositive(x: real)
    ensures Trunc(x) > 0 <==> 1.0 <= x
  {
  }

  /** Truncation keeps the order of a value and that value plus a
      non-negative extent, both scaled by a non-negative ratio. */
  lemma TruncSpread(x: real, w: real, ratio: real)
    ensures w >= 0.0 && ratio >= 0.0 ==> Trunc(x * ratio) <= Trunc((x + w) * ratio)
  {
    if w >= 0.0 && ratio >= 0.0 {
      assert (x + w) * ratio == x * ratio + w * ratio;
      assert w * ratio >= 0.0;
      TruncMonotone(x * ratio, (x + w) * ratio);
    }
  }

  /** Truncation never moves a value away from zero, so it is monotone. */
  lemma TruncMonotone(x: real, y: real)
    requires x <= y
    ensures Trunc(x) <= Trunc(y)
  {
  }

  /** `Math.Min` on two values. */
  function Min(a: real, b: real): (m: real)
    ensures m <= a && m <= b
    ensures m == a || m == b
  {
    if a <= b then a else b
  }
}
