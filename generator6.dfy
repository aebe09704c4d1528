/**
 * Generator6: Generator5's galaxy and plane (the plane twice as thick, its
 * ThicknessOptimizer being 2) and a new collision mode: two galaxies of
 * StarCount/2 and StarCount/2 + StarCount%2 stars, the second rotated about
 * the X axis by CollisionTiltDegrees and moved along X so that the centres
 * are (1 - CollisionStage) times the sum of the two maximum-norm radii apart.
 */
module Generator6 {
  import opened Wrappers
  import opened Geometry
  import opened Numerics
  import opened Randomness
  import opened Spacing
  import opened Compression
  import opened Collision
  import opened Fields
  import opened Text

  /** The factor GeneratePlane applies to Thickness. */
  const ThicknessOptimizer: real := 2.0

  /** Galaxy 1 of the collision: StarCount/2 stars on top of `prefix`. */
  function Galaxy1(prefix: seq<Point3>, n: nat, sp: SpacingParams, thickness: real, profile: CoreProfile,
                   src: nat -> real, k: nat, m: MathLib): Option<seq<Point3>>
  {
    if GalaxyDefined(|prefix|, n / 2, sp, profile, m) then GalaxyField(prefix, n / 2, sp, thickness, profile, src, k, m)
    else None
  }

  /** Galaxy 2 of the collision: StarCount/2 + StarCount%2 stars on a cleared list, after galaxy 1's draws. */
  function Galaxy2(prefix: seq<Point3>, n: nat, sp: SpacingParams, thickness: real, profile: CoreProfile,
                   src: nat -> real, k: nat, m: MathLib): Option<seq<Point3>>
  {
    var k2 := k + GaussianFieldDraws(|prefix|, n / 2);
    if GalaxyDefined(0, n / 2 + n % 2, sp, profile, m) then GalaxyField([], n / 2 + n % 2, sp, thickness, profile, src, k2, m)
    else None
  }

  /** The distance between the two centres. */
  function CollisionDistance(g1: seq<Point3>, g2: seq<Point3>, stage: real, m: MathLib): real {
    Separation(stage, MaxNorm(g1, m), MaxNorm(g2, m))
  }

  /** GenerateCollidingGalaxies on top of `prefix`: galaxy 1, then galaxy 2 rotated and moved. */
  function CollidingField(prefix: seq<Point3>, n: nat, sp: SpacingParams, thickness: real, profile: CoreProfile,
                          stage: real, tiltDegrees: real, src: nat -> real, k: nat, m: MathLib)
    : Option<seq<Point3>>
  {
    match Galaxy1(prefix, n, sp, thickness, profile, src, k, m)
    case None => None
    case Some(g1) =>
      match Galaxy2(prefix, n, sp, thickness, profile, src, k, m)
      case None => None
      case Some(g2) =>
        var tilt := TiltRadians(tiltDegrees);
        Some(g1 + Transformed(g2, CollisionDistance(g1, g2, stage, m), m.cos(tilt), m.sin(tilt)))
  }

  /** What CollidingField being defined says about its parts. */
  lemma CollidingFieldParts(prefix: seq<Point3>, n: nat, sp: SpacingParams, thickness: real, profile: CoreProfile,
                            stage: real, tiltDegrees: real, src: nat -> real, k: nat, m: MathLib)
    requires CollidingField(prefix, n, sp, thickness, profile, stage, tiltDegrees, src, k, m).Some?
    ensures GalaxyDefined(|prefix|, n / 2, sp, profile, m)
    ensures GalaxyField(prefix, n / 2, sp, thickness, profile, src, k, m).Some?
    ensures GalaxyDefined(0, n / 2 + n % 2, sp, profile, m)
    ensures GalaxyField([], n / 2 + n % 2, sp, thickness, profile, src, k + GaussianFieldDraws(|prefix|, n / 2), m).Some?
  {
  }

  /** CollidingField from its two galaxies, of n1 = n/2 and n2 = n/2 + n%2 stars, the second from draw k2. */
  lemma CollidingFieldOf(prefix: seq<Point3>, n: nat, sp: SpacingParams, thickness: real, profile: CoreProfile,
                         stage: real, tiltDegrees: real, src: nat -> real, k: nat, m: MathLib,
                         n1: nat, n2: nat, k2: nat, g1: seq<Point3>, g2: seq<Point3>)
    requires n1 == n / 2 && n2 == n / 2 + n % 2 && k2 == k + GaussianFieldDraws(|prefix|, n1)
    requires GalaxyDefined(|prefix|, n1, sp, profile, m)
    requires GalaxyField(prefix, n1, sp, thickness, profile, src, k, m) == Some(g1)
    requires GalaxyDefined(0, n2, sp, profile, m)
    requires GalaxyField([], n2, sp, thickness, profile, src, k2, m) == Some(g2)
    ensures CollidingField(prefix, n, sp, thickness, profile, stage, tiltDegrees, src, k, m)
            == Some(g1 + Transformed(g2, CollisionDistance(g1, g2, stage, m), m.cos(TiltRadians(tiltDegrees)),
                                     m.sin(TiltRadians(tiltDegrees))))
  {
    assert Galaxy1(prefix, n, sp, thickness, profile, src, k, m) == Some(g1);
    assert Galaxy2(prefix, n, sp, thickness, profile, src, k, m) == Some(g2);
  }

  /** The draws of a collision on top of p stars. */
  function CollidingDraws(p: nat, n: nat): nat {
    GaussianFieldDraws(p, n / 2) + GaussianFieldDraws(0, n / 2 + n % 2)
  }

  /** What Generate of Generator6 leaves in the list, from `prefix`. */
  function MapField6(mode: MapMode, prefix: seq<Point3>, n: nat, sp: SpacingParams, thickness: real,
                     profile: CoreProfile, stage: real, tiltDegrees: real, src: nat -> real, k: nat, m: MathLib)
    : Option<seq<Point3>>
  {
    match mode
    case Galaxy =>
      if GalaxyDefined(|prefix|, n, sp, profile, m) then GalaxyField(prefix, n, sp, thickness, profile, src, k, m)
      else None
    case Plane => PlaneField(prefix, n, sp, thickness * ThicknessOptimizer, src, k, m)
    case CollidingGalaxies => CollidingField(prefix, n, sp, thickness, profile, stage, tiltDegrees, src, k, m)
  }

  /** The draws of each mode on top of p stars. */
  function MapDraws6(mode: MapMode, p: nat, n: nat): nat {
    match mode
    case Galaxy => GaussianFieldDraws(p, n)
    case Plane => PlaneFieldDraws(p, n)
    case CollidingGalaxies => CollidingDraws(p, n)
  }

  /**
   * The collision's layout: galaxy 1 (with the list it started from) comes
   * first and unchanged, galaxy 2 follows transformed, and the two halves
   * together hold exactly StarCount new stars.
   */
  lemma CollidingLayout(prefix: seq<Point3>, n: nat, sp: SpacingParams, thickness: real, profile: CoreProfile,
                        stage: real, tiltDegrees: real, src: nat -> real, k: nat, m: MathLib)
    requires CollidingField(prefix, n, sp, thickness, profile, stage, tiltDegrees, src, k, m).Some?
    ensures Galaxy1(prefix, n, sp, thickness, profile, src, k, m).Some?
    ensures Galaxy2(prefix, n, sp, thickness, profile, src, k, m).Some?
    ensures var r := CollidingField(prefix, n, sp, thickness, profile, stage, tiltDegrees, src, k, m).value;
            var g1 := Galaxy1(prefix, n, sp, thickness, profile, src, k, m).value;
            var g2 := Galaxy2(prefix, n, sp, thickness, profile, src, k, m).value;
            && |g1| == |prefix| + n / 2
            && |g2| == n / 2 + n % 2
            && |r| == |prefix| + n
            && r[..|g1|] == g1
            && |r[|g1|..]| == |g2|
  {
    var g1, g2 := CollidingUnfold(prefix, n, sp, thickness, profile, stage, tiltDegrees, src, k, m);
    GalaxyFieldLength(prefix, n / 2, sp, thickness, profile, src, k, m);
    GalaxyFieldLength([], n / 2 + n % 2, sp, thickness, profile, src, k + GaussianFieldDraws(|prefix|, n / 2), m);
    var tilt := TiltRadians(tiltDegrees);
    var t := Transformed(g2, CollisionDistance(g1, g2, stage, m), m.cos(tilt), m.sin(tilt));
    assert (g1 + t)[..|g1|] == g1;
    assert (g1 + t)[|g1|..] == t;
  }

  /**
   * Every star of galaxy 2 keeps its distance from the X axis and moves by the
   * collision distance along X, and that distance is never negative for a
   * stage up to 1.
   */
  lemma CollidingSecondHalf(prefix: seq<Point3>, n: nat, sp: SpacingParams, thickness: real, profile: CoreProfile,
                            stage: real, tiltDegrees: real, src: nat -> real, k: nat, m: MathLib)
    requires m.TrigLaw()
    requires CollidingField(prefix, n, sp, thickness, profile, stage, tiltDegrees, src, k, m).Some?
    ensures Galaxy1(prefix, n, sp, thickness, profile, src, k, m).Some?
    ensures Galaxy2(prefix, n, sp, thickness, profile, src, k, m).Some?
    ensures var r := CollidingField(prefix, n, sp, thickness, profile, stage, tiltDegrees, src, k, m).value;
            var g1 := Galaxy1(prefix, n, sp, thickness, profile, src, k, m).value;
            var g2 := Galaxy2(prefix, n, sp, thickness, profile, src, k, m).value;
            var d := CollisionDistance(g1, g2, stage, m);
            && (stage <= 1.0 ==> 0.0 <= d)
            && forall i :: 0 <= i < |g2| ==>
                 && r[|g1| + i].x == g2[i].x + d
                 && Sq(r[|g1| + i].y) + Sq(r[|g1| + i].z) == Sq(g2[i].y) + Sq(g2[i].z)
  {
    var g1, g2 := CollidingUnfold(prefix, n, sp, thickness, profile, stage, tiltDegrees, src, k, m);
    var d := CollisionDistance(g1, g2, stage, m);
    MaxNormBounds(g1, m);
    MaxNormBounds(g2, m);
    AppendedTransformed(g1, g2, d, TiltRadians(tiltDegrees), m);
  }

  /** A defined collision is galaxy 1 followed by galaxy 2, rotated and moved. */
  lemma CollidingUnfold(prefix: seq<Point3>, n: nat, sp: SpacingParams, thickness: real, profile: CoreProfile,
                        stage: real, tiltDegrees: real, src: nat -> real, k: nat, m: MathLib)
    returns (g1: seq<Point3>, g2: seq<Point3>)
    requires CollidingField(prefix, n, sp, thickness, profile, stage, tiltDegrees, src, k, m).Some?
    ensures Galaxy1(prefix, n, sp, thickness, profile, src, k, m) == Some(g1)
    ensures Galaxy2(prefix, n, sp, thickness, profile, src, k, m) == Some(g2)
    ensures CollidingField(prefix, n, sp, thickness, profile, stage, tiltDegrees, src, k, m).value
            == g1 + Transformed(g2, CollisionDistance(g1, g2, stage, m), m.cos(TiltRadians(tiltDegrees)),
                                m.sin(TiltRadians(tiltDegrees)))
  {
    g1 := Galaxy1(prefix, n, sp, thickness, profile, src, k, m).value;
    g2 := Galaxy2(prefix, n, sp, thickness, profile, src, k, m).value;
  }

  /** The stars after `g1` in g1 + Transformed(g2, ...) are g2's stars, rotated and moved. */
  lemma AppendedTransformed(g1: seq<Point3>, g2: seq<Point3>, d: real, tilt: real, m: MathLib)
    requires m.TrigLaw()
    ensures var cos, sin := m.cos(tilt), m.sin(tilt);
       forall i :: 0 <= i < |g2| ==>
      && (g1 + Transformed(g2, d, cos, sin))[|g1| + i].x == g2[i].x + d
      && Sq((g1 + Transformed(g2, d, cos, sin))[|g1| + i].y) + Sq((g1 + Transformed(g2, d, cos, sin))[|g1| + i].z)
         == Sq(g2[i].y) + Sq(g2[i].z)
  {
    var cos, sin := m.cos(tilt), m.sin(tilt);
    var t := Transformed(g2, d, cos, sin);
    TransformedProperties(g2, d, cos, sin);
    forall i | 0 <= i < |g2|
      ensures (g1 + t)[|g1| + i] == t[i]
    {
    }
  }

  class Generator6 {
    var starCount: nat
    var minDistance: real
    var maxDistance: real
    var meanDistance: real
    var variance: real
    var thickness: real
    var coreRadiusFraction: real
    var coreScale: real
    var falloffPower: real
    var collisionStage: real
    var collisionTiltDegrees: real
    var mode: MapMode
    /** The star list every generation step appends to or rewrites. */
    var stars: seq<Point3>
    const rng: Random
    const math: MathLib

    /**
     * The defaults: 150 stars, distances 5 to 15 around 10, variance 0.3,
     * thickness 3, core at half the radius scaled to 0.4 with falloff 2.2,
     * collision stage 0.5 and tilt 45 degrees, plane mode.
     */
    constructor (rng: Random, math: MathLib)
      ensures starCount == 150 && minDistance == 5.0 && maxDistance == 15.0 && meanDistance == 10.0
      ensures variance == 0.3 && thickness == 3.0 && mode == Plane && stars == []
      ensures coreRadiusFraction == 0.5 && coreScale == 0.4 && falloffPower == 2.2
      ensures collisionStage == 0.5 && collisionTiltDegrees == 45.0
      ensures this.rng == rng && this.math == math
    {
      starCount := 150;
      minDistance := 5.0;
      maxDistance := 15.0;
      meanDistance := 10.0;
      variance := 0.3;
      thickness := 3.0;
      coreRadiusFraction := 0.5;
      coreScale := 0.4;
      falloffPower := 2.2;
      collisionStage := 0.5;
      collisionTiltDegrees := 45.0;
      mode := Plane;
      stars := [];
      this.rng := rng;
      this.math := math;
    }

    function Spacing(): SpacingParams
      reads this`minDistance, this`maxDistance, this`meanDistance, this`variance
    {
      SpacingParams(minDistance, maxDistance, meanDistance, variance)
    }

    function Profile(): CoreProfile
      reads this`coreRadiusFraction, this`coreScale, this`falloffPower
    {
      Smooth(coreRadiusFraction, coreScale, falloffPower)
    }

    /** GenerateGalaxy: StarCount Gaussian stars appended, the list relaxed, then compressed. */
    method GenerateGalaxy()
      requires GalaxyDefined(|stars|, starCount, Spacing(), Profile(), math)
      requires GalaxyField(stars, starCount, Spacing(), thickness, Profile(), rng.source, rng.next, math).Some?
      modifies this`stars, rng
      ensures GalaxyField(old(stars), starCount, Spacing(), thickness, Profile(), rng.source, old(rng.next), math)
              == Some(stars)
      ensures rng.next == old(rng.next) + GaussianFieldDraws(|old(stars)|, starCount)
    {
      stars := Fields.GenerateGalaxy(stars, rng, starCount, Spacing(), thickness, Profile(), math);
    }

    /** GeneratePlane: StarCount stars in the disk, z over twice the thickness, then the list relaxed. */
    method GeneratePlane()
      requires PlaneField(stars, starCount, Spacing(), thickness * ThicknessOptimizer, rng.source, rng.next, math).Some?
      modifies this`stars, rng
      ensures PlaneField(old(stars), starCount, Spacing(), thickness * ThicknessOptimizer, rng.source, old(rng.next), math)
              == Some(stars)
      ensures rng.next == old(rng.next) + PlaneFieldDraws(|old(stars)|, starCount)
    {
      stars := Fields.GeneratePlane(stars, rng, starCount, Spacing(), thickness * ThicknessOptimizer, math);
    }

    /**
     * GenerateCollidingGalaxies: StarCount is lowered to each galaxy's share
     * while it is generated and restored at the end.
     */
    method GenerateCollidingGalaxies()
      requires CollidingField(stars, starCount, Spacing(), thickness, Profile(), collisionStage, collisionTiltDegrees,
                              rng.source, rng.next, math).Some?
      modifies this`stars, this`starCount, rng
      ensures CollidingField(old(stars), starCount, Spacing(), thickness, Profile(), collisionStage, collisionTiltDegrees,
                             rng.source, old(rng.next), math) == Some(stars)
      ensures starCount == old(starCount)
      ensures rng.next == old(rng.next) + CollidingDraws(|old(stars)|, starCount)
    {
      ghost var prefix, k0 := stars, rng.next;
      var sp, profile := Spacing(), Profile();
      CollidingFieldParts(prefix, starCount, sp, thickness, profile, collisionStage, collisionTiltDegrees,
                          rng.source, k0, math);
      var originalStarCount := starCount;
      var n1, n2 := originalStarCount / 2, originalStarCount / 2 + originalStarCount % 2;

      starCount := n1;
      stars := Fields.GenerateGalaxy(stars, rng, n1, sp, thickness, profile, math);
      var galaxy1 := stars;
      ghost var k1 := rng.next;
      assert k1 == k0 + GaussianFieldDraws(|prefix|, n1);
      assert GalaxyField(prefix, n1, sp, thickness, profile, rng.source, k0, math) == Some(galaxy1);

      stars := [];
      starCount := n2;
      stars := Fields.GenerateGalaxy(stars, rng, n2, sp, thickness, profile, math);
      var galaxy2 := stars;
      assert GalaxyField([], n2, sp, thickness, profile, rng.source, k1, math) == Some(galaxy2);
      assert rng.next == k1 + GaussianFieldDraws(0, n2);

      stars := Combine(galaxy1, galaxy2);
      starCount := originalStarCount;
      CollidingFieldOf(prefix, originalStarCount, sp, thickness, profile, collisionStage, collisionTiltDegrees,
                       rng.source, k0, math, n1, n2, k1, galaxy1, galaxy2);
    }

    /** The end of GenerateCollidingGalaxies: the radii, the distance, the rotation and the two lists joined. */
    method Combine(galaxy1: seq<Point3>, galaxy2: seq<Point3>) returns (r: seq<Point3>)
      ensures r == galaxy1 + Transformed(galaxy2, CollisionDistance(galaxy1, galaxy2, collisionStage, math),
                                         math.cos(TiltRadians(collisionTiltDegrees)),
                                         math.sin(TiltRadians(collisionTiltDegrees)))
    {
      var radius1 := EstimateRadiusOf(galaxy1, math);
      var radius2 := EstimateRadiusOf(galaxy2, math);
      var distanceBetweenCenters := Separation(collisionStage, radius1, radius2);
      var tiltRad := TiltRadians(collisionTiltDegrees);
      var cos := math.cos(tiltRad);
      var sin := math.sin(tiltRad);
      var rotated := RotateGalaxy(galaxy2, distanceBetweenCenters, cos, sin);
      r := [];
      r := r + galaxy1;
      r := r + rotated;
    }

    /**
     * Generate: the list cleared, filled by the mode, and the file name, which
     * carries the StarCount the collision mode has restored.
     */
    method Generate(name: string, number: Option<int>) returns (filePath: string)
      requires MapField6(mode, [], starCount, Spacing(), thickness, Profile(), collisionStage, collisionTiltDegrees,
                         rng.source, rng.next, math).Some?
      modifies this`stars, this`starCount, rng
      ensures starCount == old(starCount)
      ensures MapField6(mode, [], starCount, Spacing(), thickness, Profile(), collisionStage, collisionTiltDegrees,
                        rng.source, old(rng.next), math) == Some(stars)
      ensures rng.next == old(rng.next) + MapDraws6(mode, 0, starCount)
      ensures filePath == FileName(name, starCount, number)
    {
      stars := [];
      GenerateByMode();
      filePath := FileName(name, starCount, number);
    }

    /** The switch of Generate: the mode's generator run on the current list. */
    method GenerateByMode()
      requires MapField6(mode, stars, starCount, Spacing(), thickness, Profile(), collisionStage, collisionTiltDegrees,
                         rng.source, rng.next, math).Some?
      modifies this`stars, this`starCount, rng
      ensures starCount == old(starCount)
      ensures MapField6(mode, old(stars), starCount, Spacing(), thickness, Profile(), collisionStage,
                        collisionTiltDegrees, rng.source, old(rng.next), math) == Some(stars)
      ensures rng.next == old(rng.next) + MapDraws6(mode, |old(stars)|, starCount)
    {
      match mode {
        case Galaxy => GenerateGalaxy();
        case Plane => GeneratePlane();
        case CollidingGalaxies => GenerateCollidingGalaxies();
      }
    }
  }
}
