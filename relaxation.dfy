/**
 * ApplyRandomDistances, the relaxation pass shared by Generator4, Generator5 and
 * Generator6: for every pair i < j, in row-major order, one target distance is
 * drawn and, when stars i and j are closer than it, star j is pushed away from
 * star i along the line joining them until they are exactly that far apart.
 *
 * Push, Row and Sweep state the pass as functions of the star list and of the
 * draws; the method is proved to compute exactly Sweep. A push between two
 * coincident stars divides by zero in the source (the star becomes NaN); the
 * functions return None there and the method requires that it does not happen.
 */
module Relaxation {
  import opened Wrappers
  import opened Numerics
  import opened Geometry
  import opened Randomness
  import opened Spacing

  /** The distance from star i to star j, Math.Sqrt(dx*dx + dy*dy + dz*dz). */
  function Gap(s: seq<Point3>, i: nat, j: nat, m: MathLib): real
    requires i < |s| && j < |s|
  {
    Norm(Sub(s[j], s[i]), m)
  }

  /** Where star j lands when pushed to `target` from star i, `dist` being their distance. */
  function Pushed(a: Point3, b: Point3, target: real, dist: real): Point3
    requires dist != 0.0
  {
    Add(a, Scale(Sub(b, a), target / dist))
  }

  /** One step (i, j) of the pass with the drawn target. */
  function Push(s: seq<Point3>, i: nat, j: nat, target: real, m: MathLib): (r: Option<seq<Point3>>)
    requires i < j < |s|
    ensures r.None? <==> Gap(s, i, j, m) < target && Gap(s, i, j, m) == 0.0
    ensures r.Some? ==> |r.value| == |s|
    ensures r.Some? ==> forall k :: 0 <= k < |s| && k != j ==> r.value[k] == s[k]
    ensures target <= Gap(s, i, j, m) ==> r == Some(s)
  {
    var dist := Gap(s, i, j, m);
    if dist < target then
      if dist == 0.0 then None else Some(s[j := Pushed(s[i], s[j], target, dist)])
    else
      Some(s)
  }

  /** Steps (i, j), (i, j+1), ..., (i, |s|-1), the k-th draw giving the first target. */
  function Row(s: seq<Point3>, i: nat, j: nat, sp: SpacingParams, src: nat -> real, k: nat, m: MathLib)
    : (r: Option<seq<Point3>>)
    requires i < j <= |s|
    ensures r.Some? ==> |r.value| == |s| && r.value[..j] == s[..j]
    decreases |s| - j
  {
    if j == |s| then
      Some(s)
    else
      match Push(s, i, j, TargetDistance(sp, src(k)), m)
      case None => None
      case Some(s') => Row(s', i, j + 1, sp, src, k + 1, m)
  }

  /** Rows i, i+1, ..., |s|-1 of the pass, the k-th draw giving the first target. */
  function Sweep(s: seq<Point3>, i: nat, sp: SpacingParams, src: nat -> real, k: nat, m: MathLib)
    : (r: Option<seq<Point3>>)
    requires i <= |s|
    ensures r.Some? ==> |r.value| == |s|
    ensures r.Some? ==> forall p :: 0 <= p <= i && p < |s| ==> r.value[p] == s[p]
    decreases |s| - i
  {
    if i == |s| then
      Some(s)
    else
      match Row(s, i, i + 1, sp, src, k, m)
      case None => None
      case Some(s') =>
        assert s'[i] == s'[..i + 1][i] == s[..i + 1][i] == s[i];
        Sweep(s', i + 1, sp, src, k + (|s| - i - 1), m)
  }

  /** The number of pairs (i', j) with i <= i' < j < n, one draw each. */
  function PairCount(n: nat, i: nat): nat
    decreases n - i
  {
    if n <= i then 0 else n - i - 1 + PairCount(n, i + 1)
  }

  /** The pass takes n(n-1)/2 draws from the generator's Random. */
  lemma {:induction false} PairCountClosedForm(n: nat, i: nat)
    requires i <= n
    ensures 2 * PairCount(n, i) == (n - i) * (n - i - 1)
    decreases n - i
  {
    if i < n {
      PairCountClosedForm(n, i + 1);
      ConsecutiveProduct(n - i - 1, PairCount(n, i + 1));
    }
  }

  /** If 2p == q(q-1) then 2(q + p) == (q+1)q. */
  lemma ConsecutiveProduct(q: int, p: int)
    requires 2 * p == q * (q - 1)
    ensures 2 * (q + p) == (q + 1) * q
  {
  }

  /** Unfolding one step of a row that does not hit coincident stars. */
  lemma RowStep(s: seq<Point3>, i: nat, j: nat, sp: SpacingParams, src: nat -> real, k: nat, m: MathLib)
    requires i < j < |s|
    requires Row(s, i, j, sp, src, k, m).Some?
    ensures Push(s, i, j, TargetDistance(sp, src(k)), m).Some?
    ensures Row(Push(s, i, j, TargetDistance(sp, src(k)), m).value, i, j + 1, sp, src, k + 1, m)
            == Row(s, i, j, sp, src, k, m)
  {
  }

  /** The step (i, j) as the loop computes it, from the difference vector and its length. */
  lemma PushComputed(s: seq<Point3>, i: nat, j: nat, target: real, m: MathLib, delta: Point3, dist: real)
    requires i < j < |s|
    requires delta == Sub(s[j], s[i]) && dist == Norm(delta, m)
    requires Push(s, i, j, target, m).Some?
    ensures Push(s, i, j, target, m).value
         == if dist < target then s[j := Add(s[i], Scale(delta, target / dist))] else s
  {
  }

  /** Unfolding one row of a sweep. */
  lemma SweepStep(s: seq<Point3>, r: seq<Point3>, i: nat, sp: SpacingParams, src: nat -> real, k: nat, m: MathLib,
                  k': nat)
    requires i < |s|
    requires Row(s, i, i + 1, sp, src, k, m) == Some(r)
    requires k' == k + (|s| - i - 1)
    ensures |r| == |s|
    ensures Sweep(s, i, sp, src, k, m) == Sweep(r, i + 1, sp, src, k', m)
  {
  }

  /**
   * The relaxation pass itself, on the generator's star list: row by row, every
   * later star j is compared with star i and pushed when too close.
   */
  method ApplyRandomDistances(stars: seq<Point3>, rng: Random, sp: SpacingParams, m: MathLib)
    returns (r: seq<Point3>)
    requires Sweep(stars, 0, sp, rng.source, rng.next, m).Some?
    modifies rng
    ensures Sweep(stars, 0, sp, rng.source, old(rng.next), m) == Some(r)
    ensures rng.next == old(rng.next) + PairCount(|stars|, 0)
  {
    ghost var k0, src, n := rng.next, rng.source, |stars|;
    ghost var total := PairCount(n, 0);
    r := stars;
    var i := 0;
    while i < |r|
      invariant 0 <= i <= |r| == n
      invariant Sweep(r, i, sp, src, rng.next, m) == Sweep(stars, 0, sp, src, k0, m)
      invariant rng.next + PairCount(n, i) == k0 + total
    {
      ghost var rowStart, kRow := r, rng.next;
      assert PairCount(n, i) == n - i - 1 + PairCount(n, i + 1);
      r := RelaxRow(r, i, rng, sp, m);
      SweepStep(rowStart, r, i, sp, src, kRow, m, rng.next);
      i := i + 1;
    }
  }

  /** The inner loop of the pass: star i against every later star, one draw each. */
  method RelaxRow(s: seq<Point3>, i: nat, rng: Random, sp: SpacingParams, m: MathLib) returns (r: seq<Point3>)
    requires i < |s|
    requires Row(s, i, i + 1, sp, rng.source, rng.next, m).Some?
    modifies rng
    ensures Row(s, i, i + 1, sp, rng.source, old(rng.next), m) == Some(r)
    ensures rng.next == old(rng.next) + (|s| - i - 1)
  {
    ghost var kRow, src := rng.next, rng.source;
    r := s;
    var j := i + 1;
    while j < |r|
      invariant i < j <= |r| == |s|
      invariant Row(r, i, j, sp, src, rng.next, m) == Row(s, i, i + 1, sp, src, kRow, m)
      invariant Row(r, i, j, sp, src, rng.next, m).Some?
      invariant rng.next == kRow + (j - i - 1)
    {
      r := RelaxPair(r, i, j, rng, sp, m);
      j := j + 1;
    }
  }

  /** One pair (i, j): draw the target and push star j out to it when the two are closer. */
  method RelaxPair(s: seq<Point3>, i: nat, j: nat, rng: Random, sp: SpacingParams, m: MathLib) returns (r: seq<Point3>)
    requires i < j < |s|
    requires Row(s, i, j, sp, rng.source, rng.next, m).Some?
    modifies rng
    ensures |r| == |s|
    ensures Row(r, i, j + 1, sp, rng.source, rng.next, m) == Row(s, i, j, sp, rng.source, old(rng.next), m)
    ensures rng.next == old(rng.next) + 1
  {
    var delta := Sub(s[j], s[i]);
    var dist := Norm(delta, m);
    ghost var k, src := rng.next, rng.source;
    var target := RandomDistance(rng, sp);
    RowStep(s, i, j, sp, src, k, m);
    PushComputed(s, i, j, target, m, delta, dist);
    r := s;
    if dist < target {
      var factor := target / dist;
      var a := s[i];
      r := s[j := Add(a, Scale(delta, factor))];
    }
  }

  /** Sweeping from row 0 never moves star 0, and keeps the number of stars. */
  lemma FirstStarFixed(s: seq<Point3>, sp: SpacingParams, src: nat -> real, k: nat, m: MathLib)
    requires 0 < |s|
    requires Sweep(s, 0, sp, src, k, m).Some?
    ensures |Sweep(s, 0, sp, src, k, m).value| == |s|
    ensures Sweep(s, 0, sp, src, k, m).value[0] == s[0]
  {
  }

  /**
   * After a push, the two stars are exactly the drawn target apart, and the
   * push happened because they were closer than it.
   */
  lemma PushReachesTarget(s: seq<Point3>, i: nat, j: nat, target: real, m: MathLib)
    requires m.SqrtLaw()
    requires i < j < |s|
    requires Push(s, i, j, target, m).Some?
    ensures Gap(Push(s, i, j, target, m).value, i, j, m) == Max(Gap(s, i, j, m), target)
  {
    var dist := Gap(s, i, j, m);
    if dist < target {
      var r := Push(s, i, j, target, m).value;
      var d := Sub(s[j], s[i]);
      var f := target / dist;
      assert Sub(r[j], r[i]) == Scale(d, f);
      NormSqNonNegative(d);
      assert dist * dist == NormSq(d);
      NormSqScale(d, f);
      RatioSquared(target, dist, NormSq(d));
      assert NormSq(Sub(r[j], r[i])) == target * target;
      SqrtOfSquare(m, target);
    }
  }

  /** (t/d)^2 * q == t^2 when q == d^2. */
  lemma RatioSquared(t: real, d: real, q: real)
    requires d != 0.0 && q == d * d
    ensures (t / d) * (t / d) * q == t * t
  {
    calc {
      (t / d) * (t / d) * q;
    ==
      (t / d) * (t / d) * (d * d);
    ==
      ((t / d) * d) * ((t / d) * d);
    ==
      t * t;
    }
  }

  /**
   * Once row i is done, every later star j is at least its drawn target away
   * from star i: each push reaches its target, and the rest of the row moves
   * neither star i nor star j again.
   */
  lemma {:induction false} RowSeparates(s: seq<Point3>, i: nat, j0: nat, sp: SpacingParams, src: nat -> real, k: nat, m: MathLib)
    requires m.SqrtLaw()
    requires i < j0 <= |s|
    requires Row(s, i, j0, sp, src, k, m).Some?
    ensures forall j :: j0 <= j < |s| ==>
      TargetDistance(sp, src(k + (j - j0))) <= Gap(Row(s, i, j0, sp, src, k, m).value, i, j, m)
    decreases |s| - j0
  {
    if j0 < |s| {
      var r := Row(s, i, j0, sp, src, k, m).value;
      var t := TargetDistance(sp, src(k));
      var s' := Push(s, i, j0, t, m).value;
      RowSeparates(s', i, j0 + 1, sp, src, k + 1, m);
      PushReachesTarget(s, i, j0, t, m);
      assert r[..j0 + 1] == s'[..j0 + 1];
      assert r[j0] == s'[j0] && r[i] == s'[i];
      forall j | j0 <= j < |s|
        ensures TargetDistance(sp, src(k + (j - j0))) <= Gap(r, i, j, m)
      {
        if j > j0 {
          assert k + (j - j0) == k + 1 + (j - (j0 + 1));
        }
      }
    }
  }
}
