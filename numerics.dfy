/**
 * The parts of System.Math the generators use. Coordinates are exact reals; the
 * transcendental functions are supplied as function values and only the laws
 * that the proofs need are assumed of them, as preconditions.
 */
module Numerics {

  /** System.Math.PI, the double closest to pi, as an exact rational. */
  const PI: real := 3.141592653589793

  /** Math.Min and Math.Max on doubles (NaN is not modelled). */
  function Min(a: real, b: real): real { if a <= b then a else b }

  function Max(a: real, b: real): real { if a >= b then a else b }

  /** The square of a real, kept as one term so that products stay of low degree. */
  function Sq(x: real): real { x * x }

  /** Math.Sqrt, Math.Cos, Math.Sin, Math.Log and Math.Pow. */
  datatype MathLib = MathLib(
    sqrt: real -> real,
    cos: real -> real,
    sin: real -> real,
    log: real -> real,
    pow: (real, real) -> real)
  {
    /** sqrt is the non-negative square root on the non-negative reals. */
    ghost predicate SqrtLaw() {
      forall x :: 0.0 <= x ==> 0.0 <= sqrt(x) && sqrt(x) * sqrt(x) == x
    }

    /** cos and sin of one angle lie on the unit circle. */
    ghost predicate TrigLaw() {
      forall a :: cos(a) * cos(a) + sin(a) * sin(a) == 1.0
    }

    /** A positive power of 0 is 0, of 1 is 1, and of a value in [0,1] stays in [0,1]. */
    ghost predicate PowLaw() {
      && (forall p :: 0.0 < p ==> pow(0.0, p) == 0.0)
      && (forall p :: 0.0 < p ==> pow(1.0, p) == 1.0)
      && (forall t, p :: 0.0 <= t <= 1.0 && 0.0 < p ==> 0.0 <= pow(t, p) <= 1.0)
    }
  }

  /** The square root of a square of a non-negative number is that number. */
  lemma SqrtOfSquare(m: MathLib, t: real)
    requires m.SqrtLaw() && 0.0 <= t
    ensures m.sqrt(t * t) == t
  {
    var r := m.sqrt(t * t);
    SquaresEqual(r, t);
  }

  /** Two non-negative reals with equal squares are equal. */
  lemma SquaresEqual(r: real, t: real)
    requires 0.0 <= r && 0.0 <= t && r * r == t * t
    ensures r == t
  {
    SquaresLess(r, t);
    SquaresLess(t, r);
  }

  /** Between non-negative reals, comparing squares is comparing the reals. */
  lemma SquaresLess(r: real, t: real)
    requires 0.0 <= r && 0.0 <= t
    ensures r < t <==> r * r < t * t
  {
    assert (t - r) * (t + r) == t * t - r * r;
    if r < t {
      MulPositive(t - r, t + r);
    } else {
      MulNonNegative(r - t, r + t);
    }
  }

  lemma MulPositive(a: real, b: real)
    requires 0.0 < a && 0.0 < b
    ensures 0.0 < a * b
  {
  }

  lemma SquarePositive(x: real)
    requires x != 0.0
    ensures 0.0 < x * x
  {
    if 0.0 < x {
      MulPositive(x, x);
    } else {
      MulPositive(-x, -x);
      assert (-x) * (-x) == x * x;
    }
  }

  lemma SquareNonNegative(x: real)
    ensures 0.0 <= x * x
  {
    if x != 0.0 {
      SquarePositive(x);
    }
  }

  /** The same two facts about the square kept as one term. */
  lemma SqSign(x: real)
    ensures 0.0 <= Sq(x)
    ensures x != 0.0 ==> 0.0 < Sq(x)
  {
    SquareNonNegative(x);
    if x != 0.0 {
      calc {
        Sq(x);
      ==
        x * x;
      > { SquarePositive(x); }
        0.0;
      }
    }
  }

  lemma MulNonNegative(a: real, b: real)
    requires 0.0 <= a && 0.0 <= b
    ensures 0.0 <= a * b
  {
  }

  /** A factor times a sum: its sign, and the factors 0 and 1. */
  lemma FactorCases(f: real, s: real)
    ensures 0.0 <= f && 0.0 <= s ==> 0.0 <= f * s
    ensures f == 0.0 ==> f * s == 0.0
    ensures f == 1.0 ==> f * s == s
  {
    if 0.0 <= f && 0.0 <= s {
      MulNonNegative(f, s);
    }
  }

  /** sqrt is strictly monotone: comparing square roots is comparing the squares. */
  lemma SqrtLess(m: MathLib, a: real, b: real)
    requires m.SqrtLaw() && 0.0 <= a && 0.0 <= b
    ensures m.sqrt(a) < m.sqrt(b) <==> a < b
  {
    SquaresLess(m.sqrt(a), m.sqrt(b));
  }

  /** A uniform draw moved to be centred on 0 and spread over `width`: (u - 0.5) * width. */
  function Centered(u: real, width: real): real { (u - 0.5) * width }

  /** A draw u in [0,1) spread over a band lies in [-width/2, width/2). */
  lemma BandBounds(u: real, width: real)
    requires 0.0 <= u < 1.0 && 0.0 < width
    ensures -width / 2.0 <= Centered(u, width) < width / 2.0
  {
    assert (u - 0.5) * width - (-width / 2.0) == u * width;
    assert width / 2.0 - (u - 0.5) * width == (1.0 - u) * width;
    assert 0.0 < (1.0 - u) * width;
  }
}
