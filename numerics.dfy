/**
 * JavaScript number operations used across the application, stated over
 * Dafny's exact `int` and `real`.
 */
module Numerics {

  /** `Math.round`: the nearest integer, with halves rounded up. */
  function Round(x: real): (r: int)
    ensures x - 0.5 < r as real <= x + 0.5
  {
    (x + 0.5).Floor
  }

  /** `Math.floor`. */
  function Floor(x: real): (r: int)
    ensures r as real <= x < r as real + 1.0
  {
    x.Floor
  }

  function Abs(x: int): nat
  {
    if x < 0 then -x else x
  }

  function AbsReal(x: real): real
  {
    if x < 0.0 then -x else x
  }

  function Min(a: int, b: int): int
  {
    if a <= b then a else b
  }

  function Max(a: int, b: int): int
  {
    if a >= b then a else b
  }

  function MinReal(a: real, b: real): real
  {
    if a <= b then a else b
  }

  function MaxReal(a: real, b: real): real
  {
    if a >= b then a else b
  }

  /** Rounding commutes with shifting by a whole number. */
  lemma RoundShift(x: real, k: int)
    ensures Round(x + k as real) == Round(x) + k
  {
    var a, b := Round(x + k as real), Round(x) + k;
    assert x + k as real - 0.5 < a as real <= x + k as real + 0.5;
    assert x + k as real - 0.5 < b as real <= x + k as real + 0.5;
  }

  /** Integer products convert to the product of the conversions. */
  lemma ProductAsReal(a: int, b: int)
    ensures (a * b) as real == a as real * b as real
  {
  }

  /** Scaling by a positive factor preserves the bounds: `lo * n <= x * n <= hi * n` means `lo <= x <= hi`. */
  lemma MeanBetween(x: real, n: real, lo: real, hi: real)
    requires n > 0.0 && lo * n <= x * n <= hi * n
    ensures lo <= x <= hi
  {
    if x < lo {
      MultiplyKeepsOrder(x, lo, n);
    }
    if hi < x {
      MultiplyKeepsOrder(hi, x, n);
    }
  }

  /** A quotient by a positive number lies between the bounds its dividend lies between once scaled. */
  lemma QuotientBetween(c: real, t: real, lo: real, hi: real)
    requires t > 0.0 && lo * t <= c <= hi * t
    ensures lo <= c / t <= hi
  {
    var q := c / t;
    assert q * t == c;
    MeanBetween(q, t, lo, hi);
  }

  /** A quotient of positive numbers is above, below or equal to 1 as the dividend is to the divisor. */
  lemma QuotientVsOne(f: real, t: real)
    requires f > 0.0 && t > 0.0
    ensures f / t > 1.0 <==> f > t
    ensures f / t < 1.0 <==> f < t
    ensures f / t == 1.0 <==> f == t
  {
    var q := f / t;
    assert q * t == f;
    if q > 1.0 {
      MultiplyKeepsOrder(1.0, q, t);
    }
    if q < 1.0 {
      MultiplyKeepsOrder(q, 1.0, t);
    }
  }

  lemma MultiplyKeepsOrder(a: real, b: real, n: real)
    requires n > 0.0 && a < b
    ensures a * n < b * n
  {
  }

  /**
   * JavaScript's `a % b` for a positive divisor: the remainder of the
   * division truncated toward zero, so it takes the sign of `a`.
   */
  function JsRem(a: int, b: int): (r: int)
    requires b > 0
    ensures -b < r < b
    ensures a >= 0 ==> r >= 0
    ensures a <= 0 ==> r <= 0
  {
    if a >= 0 then a % b else -((-a) % b)
  }

  /**
   * `Math.log2`, `Math.pow(2, x)` and `Math.sqrt` are not definable here, so the
   * operations that use them receive them as function values; `Lawful` states
   * the few properties of the real functions that the proofs rely on.
   */
  datatype MathLib = MathLib(log2: real -> real, exp2: real -> real, sqrt: real -> real)
  {
    ghost predicate Lawful()
    {
      && log2(1.0) == 0.0
      && (forall x: real, y: real :: 0.0 < x < y ==> log2(x) < log2(y))
      && (forall x: real, y: real :: 0.0 < x && y == 2.0 * x ==> log2(y) == log2(x) + 1.0)
      && exp2(0.0) == 1.0
      && (forall x: real :: 0.0 < exp2(x))
      && (forall x: real :: 0.0 <= x ==> 0.0 <= sqrt(x) && sqrt(x) * sqrt(x) == x)
    }
  }

  /** Under the laws, `log2` is positive exactly above 1 and negative exactly below 1. */
  lemma Log2Sign(m: MathLib, x: real)
    requires m.Lawful() && x > 0.0
    ensures m.log2(x) > 0.0 <==> x > 1.0
    ensures m.log2(x) < 0.0 <==> x < 1.0
    ensures m.log2(x) == 0.0 <==> x == 1.0
  {
    if x < 1.0 {
      assert m.log2(x) < m.log2(1.0);
    } else if x > 1.0 {
      assert m.log2(1.0) < m.log2(x);
    }
  }
}
