/**
 * Python's `min`, `max` and `round(x, n)` on exact reals.
 *
 * `round` rounds half to even, as Python does; binary floating-point representation
 * error is not modelled, so `Round` is the rounding of the exact decimal value.
 */
module Rounding {

  function Pow10(n: nat): (p: nat)
    ensures p >= 1
  {
    if n == 0 then 1 else 10 * Pow10(n - 1)
  }

  /** Python's `min(a, b)`. */
  function Min(a: real, b: real): (r: real)
    ensures r <= a && r <= b && (r == a || r == b)
  {
    if b < a then b else a
  }

  /** Python's `max(a, b)`. */
  function Max(a: real, b: real): (r: real)
    ensures r >= a && r >= b && (r == a || r == b)
  {
    if b > a then b else a
  }

  /** `max(lo, min(hi, x))`. */
  function Clamp(x: real, lo: real, hi: real): (r: real)
    ensures lo <= hi ==> lo <= r <= hi
    ensures lo <= x <= hi ==> r == x
    ensures x < lo ==> r == lo
    ensures lo <= hi < x ==> r == hi
  {
    Max(lo, Min(hi, x))
  }

  /** The integer nearest to `y`, ties going to the even neighbour. */
  function RoundHalfEven(y: real): (n: int)
    ensures y - 1.0 / 2.0 <= n as real <= y + 1.0 / 2.0
    ensures y - 1.0 / 2.0 == n as real || n as real == y + 1.0 / 2.0 ==> n % 2 == 0
  {
    var f := y.Floor;
    var frac := y - f as real;
    if frac < 1.0 / 2.0 then f
    else if frac > 1.0 / 2.0 then f + 1
    else if f % 2 == 0 then f else f + 1
  }

  lemma {:induction false} RoundHalfEvenMonotone(a: real, b: real)
    requires a <= b
    ensures RoundHalfEven(a) <= RoundHalfEven(b)
  {
    var fa, fb := a.Floor, b.Floor;
    if fa < fb {
      // RoundHalfEven(a) <= fa + 1 <= fb <= RoundHalfEven(b)
    }
  }

  lemma {:induction false} RoundHalfEvenOfInt(k: int)
    ensures RoundHalfEven(k as real) == k
  {
    assert (k as real).Floor == k;
  }

  lemma {:induction false} MulMonotone(x: real, y: real, s: real)
    requires x <= y && s > 0.0
    ensures x * s <= y * s
  {
    assert y * s - x * s == (y - x) * s;
  }

  lemma {:induction false} DivMonotone(a: real, b: real, s: real)
    requires a <= b && s > 0.0
    ensures a / s <= b / s
  {
    assert b / s - a / s == (b - a) / s;
  }

  /** Rounding to the nearest multiple of `1/s`, ties to even. */
  function RoundScaled(x: real, s: real): real
    requires s > 0.0
  {
    RoundHalfEven(x * s) as real / s
  }

  /** Python's `round(x, digits)`. */
  function Round(x: real, digits: nat): real
  {
    RoundScaled(x, Pow10(digits) as real)
  }

  lemma {:induction false} RoundScaledError(x: real, s: real)
    requires s > 0.0
    ensures x - 1.0 / (2.0 * s) <= RoundScaled(x, s) <= x + 1.0 / (2.0 * s)
  {
    var n := RoundHalfEven(x * s);
    DivMonotone(x * s - 1.0 / 2.0, n as real, s);
    DivMonotone(n as real, x * s + 1.0 / 2.0, s);
    assert (x * s - 1.0 / 2.0) / s == x - 1.0 / (2.0 * s);
    assert (x * s + 1.0 / 2.0) / s == x + 1.0 / (2.0 * s);
  }

  lemma {:induction false} RoundScaledMonotone(x: real, y: real, s: real)
    requires x <= y && s > 0.0
    ensures RoundScaled(x, s) <= RoundScaled(y, s)
  {
    MulMonotone(x, y, s);
    RoundHalfEvenMonotone(x * s, y * s);
    DivMonotone(RoundHalfEven(x * s) as real, RoundHalfEven(y * s) as real, s);
  }

  lemma {:induction false} RoundScaledFixes(k: int, s: real)
    requires s > 0.0
    ensures RoundScaled(k as real / s, s) == k as real / s
  {
    var y := k as real / s;
    assert y * s == k as real;
    RoundHalfEvenOfInt(k);
    RoundScaledUnfold(y, s);
  }

  lemma {:induction false} RoundScaledUnfold(x: real, s: real)
    requires s > 0.0
    ensures RoundScaled(x, s) == RoundHalfEven(x * s) as real / s
  {
  }

  /** Rounding moves a number by at most half a unit in the last kept decimal. */
  lemma {:induction false} RoundError(x: real, digits: nat)
    ensures x - 1.0 / (2 * Pow10(digits)) as real <= Round(x, digits) <= x + 1.0 / (2 * Pow10(digits)) as real
  {
    RoundScaledError(x, Pow10(digits) as real);
  }

  /** Rounding never reverses the order of two numbers. */
  lemma {:induction false} RoundMonotone(x: real, y: real, digits: nat)
    requires x <= y
    ensures Round(x, digits) <= Round(y, digits)
  {
    RoundScaledMonotone(x, y, Pow10(digits) as real);
  }

  /** A number that already has `digits` decimals is left unchanged. */
  lemma {:induction false} RoundFixes(k: int, digits: nat)
    ensures Round(k as real / Pow10(digits) as real, digits) == k as real / Pow10(digits) as real
  {
    RoundScaledFixes(k, Pow10(digits) as real);
  }

  /**
   * Rounding to two decimals keeps a number inside any interval whose ends have two decimals;
   * in particular inside [0.1, 10.0], [0, 1] and [1, 10].
   */
  lemma {:induction false} RoundStaysWithin(x: real, lo: int, hi: int)
    requires lo as real / 100.0 <= x <= hi as real / 100.0
    ensures lo as real / 100.0 <= Round(x, 2) <= hi as real / 100.0
  {
    assert Pow10(2) == 100;
    RoundMonotone(lo as real / 100.0, x, 2);
    RoundMonotone(x, hi as real / 100.0, 2);
    RoundFixes(lo, 2);
    RoundFixes(hi, 2);
  }

  /** Rounding to three decimals keeps a number on its side of any bound with three decimals. */
  lemma {:induction false} RoundThreeBetween(x: real, lo: int, hi: int)
    ensures lo as real / 1000.0 <= x ==> lo as real / 1000.0 <= Round(x, 3)
    ensures x <= hi as real / 1000.0 ==> Round(x, 3) <= hi as real / 1000.0
  {
    assert Pow10(3) == 1000;
    RoundFixes(lo, 3);
    RoundFixes(hi, 3);
    if lo as real / 1000.0 <= x {
      RoundMonotone(lo as real / 1000.0, x, 3);
    }
    if x <= hi as real / 1000.0 {
      RoundMonotone(x, hi as real / 1000.0, 3);
    }
  }

  lemma {:induction false} RoundExamples()
    ensures Round(2.675, 2) == 2.68
    ensures Round(0.125, 2) == 0.12
    ensures Round(0.5, 0) == 0.0 && Round(1.5, 0) == 2.0
  {
    assert Pow10(2) == 100;
    assert (267.5).Floor == 267;
    assert (12.5).Floor == 12;
  }
}
