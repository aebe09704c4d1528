/**
 * Target spacing and the area-based radius estimate, shared verbatim by
 * Generator4, Generator5 and Generator6 (RandomDistance and the
 * parameterless EstimateRadius).
 */
module Spacing {
  import opened Numerics
  import opened Randomness

  /** MinDistance, MaxDistance, MeanDistance and Variance of a generator. */
  datatype SpacingParams = SpacingParams(
    minDistance: real,
    maxDistance: real,
    meanDistance: real,
    variance: real)

  /**
   * The target distance drawn for one pair: a blend, weighted by Variance,
   * of MeanDistance and a uniform value between MinDistance and MaxDistance.
   */
  function TargetDistance(sp: SpacingParams, u: real): real {
    var randomPart := sp.minDistance + u * (sp.maxDistance - sp.minDistance);
    sp.meanDistance * (1.0 - sp.variance) + randomPart * sp.variance
  }

  /** RandomDistance: one draw from the generator's Random, blended. */
  method RandomDistance(rng: Random, sp: SpacingParams) returns (target: real)
    modifies rng
    ensures rng.next == old(rng.next) + 1
    ensures target == TargetDistance(sp, rng.source(old(rng.next)))
  {
    var u := rng.NextDouble();
    var randomPart := sp.minDistance + u * (sp.maxDistance - sp.minDistance);
    target := sp.meanDistance * (1.0 - sp.variance) + randomPart * sp.variance;
  }

  /**
   * With Variance in [0,1], MinDistance <= MaxDistance and a draw in [0,1),
   * the target lies between the smaller of Mean and Min and the larger of
   * Mean and Max.
   */
  lemma TargetDistanceBounds(sp: SpacingParams, u: real)
    requires 0.0 <= sp.variance <= 1.0
    requires sp.minDistance <= sp.maxDistance
    requires 0.0 <= u < 1.0
    ensures Min(sp.meanDistance, sp.minDistance) <= TargetDistance(sp, u)
    ensures TargetDistance(sp, u) <= Max(sp.meanDistance, sp.maxDistance)
  {
    var v := sp.variance;
    var width := sp.maxDistance - sp.minDistance;
    var randomPart := sp.minDistance + u * width;
    MulNonNegative(u, width);
    MulNonNegative(1.0 - u, width);
    assert sp.minDistance <= randomPart <= sp.maxDistance;
    var lo := Min(sp.meanDistance, sp.minDistance);
    var hi := Max(sp.meanDistance, sp.maxDistance);
    var t := TargetDistance(sp, u);
    assert t - lo == (sp.meanDistance - lo) * (1.0 - v) + (randomPart - lo) * v;
    MulNonNegative(sp.meanDistance - lo, 1.0 - v);
    MulNonNegative(randomPart - lo, v);
    assert hi - t == (hi - sp.meanDistance) * (1.0 - v) + (hi - randomPart) * v;
    MulNonNegative(hi - sp.meanDistance, 1.0 - v);
    MulNonNegative(hi - randomPart, v);
  }

  /**
   * The target is exactly MeanDistance when Variance is 0, whatever the draw,
   * and otherwise only when the uniform part happens to equal MeanDistance.
   */
  lemma TargetDistanceWithoutVariance(sp: SpacingParams, u: real)
    ensures sp.variance == 0.0 ==> TargetDistance(sp, u) == sp.meanDistance
    ensures TargetDistance(sp, u) == sp.meanDistance <==>
              sp.variance == 0.0 || sp.minDistance + u * (sp.maxDistance - sp.minDistance) == sp.meanDistance
  {
    var randomPart := sp.minDistance + u * (sp.maxDistance - sp.minDistance);
    assert TargetDistance(sp, u) - sp.meanDistance == sp.variance * (randomPart - sp.meanDistance);
    ProductZero(sp.variance, randomPart - sp.meanDistance);
  }

  /** A product is zero exactly when a factor is. */
  lemma ProductZero(a: real, b: real)
    ensures a * b == 0.0 <==> a == 0.0 || b == 0.0
  {
    if a != 0.0 && b != 0.0 {
      if 0.0 < a { if 0.0 < b { MulPositive(a, b); } else { MulPositive(a, -b); } }
      else { if 0.0 < b { MulPositive(-a, b); } else { MulPositive(-a, -b); } }
    }
  }

  /**
   * So a target equal to MeanDistance does not imply Variance 0: spacing
   * 5 to 15 around 10 with Variance 0.5 and the draw 0.5 gives 10.
   */
  lemma MeanTargetWithVariance()
    ensures var sp := SpacingParams(5.0, 15.0, 10.0, 0.5);
            sp.variance != 0.0 && TargetDistance(sp, 0.5) == sp.meanDistance
  {
  }

  /** With Variance 1 the target is the uniform part alone, in [Min, Max). */
  lemma TargetDistanceFullVariance(sp: SpacingParams, u: real)
    requires sp.variance == 1.0 && sp.minDistance < sp.maxDistance && 0.0 <= u < 1.0
    ensures sp.minDistance <= TargetDistance(sp, u) < sp.maxDistance
  {
    var width := sp.maxDistance - sp.minDistance;
    var t := TargetDistance(sp, u);
    assert t == sp.meanDistance * 0.0 + (sp.minDistance + u * width) * 1.0;
    MulNonNegative(u, width);
    MulPositive(1.0 - u, width);
    assert (1.0 - u) * width == width - u * width;
  }

  /** The area StarCount * MeanDistance^2 that the stars of a galaxy cover. */
  function DiskArea(starCount: nat, meanDistance: real): real {
    (starCount as real) * Sq(meanDistance)
  }

  /**
   * The parameterless EstimateRadius: the radius of a disk whose area
   * pi R^2 is StarCount * MeanDistance^2.
   */
  function AreaRadius(starCount: nat, meanDistance: real, m: MathLib): real {
    m.sqrt(DiskArea(starCount, meanDistance) / PI)
  }

  lemma AreaRadiusSquared(starCount: nat, meanDistance: real, m: MathLib)
    requires m.SqrtLaw()
    ensures 0.0 <= AreaRadius(starCount, meanDistance, m)
    ensures AreaRadius(starCount, meanDistance, m) * AreaRadius(starCount, meanDistance, m) * PI
            == DiskArea(starCount, meanDistance)
    ensures 0 < starCount && meanDistance != 0.0 ==> 0.0 < AreaRadius(starCount, meanDistance, m)
  {
    DiskAreaSign(starCount, meanDistance);
    OverPi(DiskArea(starCount, meanDistance));
  }

  /** The disk area is non-negative, and positive for stars at a non-zero spacing. */
  lemma DiskAreaSign(starCount: nat, meanDistance: real)
    ensures 0.0 <= DiskArea(starCount, meanDistance)
    ensures 0 < starCount && meanDistance != 0.0 ==> 0.0 < DiskArea(starCount, meanDistance)
  {
    SqSign(meanDistance);
    MulNonNegative(starCount as real, Sq(meanDistance));
    if 0 < starCount && meanDistance != 0.0 {
      MulPositive(starCount as real, Sq(meanDistance));
    }
  }

  /** Dividing by pi keeps the sign, and multiplying back restores the value. */
  lemma OverPi(x: real)
    ensures 0.0 <= x ==> 0.0 <= x / PI
    ensures 0.0 < x ==> 0.0 < x / PI
    ensures x / PI * PI == x
  {
  }
}
