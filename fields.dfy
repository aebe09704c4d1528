/**
 * The three generation modes shared by Generator4, Generator5 and Generator6,
 * each stated as the star list it produces from the list it starts with and
 * the draws from a given position onwards, and each implemented as the
 * sequence of loops the generators run:
 *
 *   GenerateGalaxy            sample, relax, compress (radius = area radius)
 *   GeneratePlane             sample, relax
 *   GenerateCollidingGalaxies (Generator4/5) sample two offset blobs, relax
 *
 * A result of None means a relaxation push between two coincident stars,
 * where the source divides by zero.
 */
module Fields {
  import opened Wrappers
  import opened Numerics
  import opened Geometry
  import opened Randomness
  import opened Spacing
  import opened Relaxation
  import opened Compression
  import opened Sampling

  /** The draws a galaxy or an offset pair takes on top of p stars: five per new star, one per pair. */
  function GaussianFieldDraws(p: nat, n: nat): nat {
    5 * n + PairCount(p + n, 0)
  }

  /** The draws a plane takes on top of p stars: three per new star, one per pair. */
  function PlaneFieldDraws(p: nat, n: nat): nat {
    3 * n + PairCount(p + n, 0)
  }

  /**
   * What GenerateGalaxy needs to avoid dividing by zero: a non-zero area radius
   * when it samples (dist / radius) and a non-zero core radius when it
   * compresses a non-empty list.
   */
  predicate GalaxyDefined(p: nat, n: nat, sp: SpacingParams, profile: CoreProfile, m: MathLib) {
    && (n > 0 ==> AreaRadius(n, sp.meanDistance, m) != 0.0)
    && (p + n > 0 ==> CoreRadius(profile, AreaRadius(n, sp.meanDistance, m)) != 0.0)
  }

  /** With a non-zero mean distance and core fraction, every star count is safe. */
  lemma GalaxyDefinedWhenPositive(p: nat, n: nat, sp: SpacingParams, profile: CoreProfile, m: MathLib)
    requires m.SqrtLaw() && sp.meanDistance != 0.0 && 0 < n
    requires profile.Smooth? ==> profile.coreRadiusFraction != 0.0
    ensures GalaxyDefined(p, n, sp, profile, m)
  {
    AreaRadiusSquared(n, sp.meanDistance, m);
    var radius := AreaRadius(n, sp.meanDistance, m);
    if profile.Smooth? {
      assert radius * profile.coreRadiusFraction != 0.0 by {
        if profile.coreRadiusFraction < 0.0 {
          MulPositive(radius, -profile.coreRadiusFraction);
        } else {
          MulPositive(radius, profile.coreRadiusFraction);
        }
      }
    }
  }

  /** The list GenerateGalaxy has relaxed, just before compression. */
  function GalaxyRelaxed(prefix: seq<Point3>, n: nat, sp: SpacingParams, thickness: real,
                         src: nat -> real, k: nat, m: MathLib): Option<seq<Point3>>
    requires n > 0 ==> AreaRadius(n, sp.meanDistance, m) != 0.0
  {
    var radius := AreaRadius(n, sp.meanDistance, m);
    Sweep(prefix + GalaxySample(src, k, n, radius, thickness, m), 0, sp, src, k + 5 * n, m)
  }

  /** GenerateGalaxy on top of `prefix`, the first draw being src(k). */
  function GalaxyField(prefix: seq<Point3>, n: nat, sp: SpacingParams, thickness: real, profile: CoreProfile,
                       src: nat -> real, k: nat, m: MathLib): Option<seq<Point3>>
    requires GalaxyDefined(|prefix|, n, sp, profile, m)
  {
    match GalaxyRelaxed(prefix, n, sp, thickness, src, k, m)
    case None => None
    case Some(relaxed) => Some(Compressed(relaxed, profile, AreaRadius(n, sp.meanDistance, m), m))
  }

  /** GeneratePlane on top of `prefix`; `band` is the height of the z slab. */
  function PlaneField(prefix: seq<Point3>, n: nat, sp: SpacingParams, band: real,
                      src: nat -> real, k: nat, m: MathLib): Option<seq<Point3>>
  {
    var radius := AreaRadius(n, sp.meanDistance, m);
    Sweep(prefix + PlaneSample(src, k, n, radius, band, m), 0, sp, src, k + 3 * n, m)
  }

  /** The radius of each blob of the Generator4/5 collision: 0.7 times the area radius. */
  function BlobRadius(n: nat, sp: SpacingParams, m: MathLib): real {
    AreaRadius(n, sp.meanDistance, m) * 0.7
  }

  /** The Generator4/5 collision on top of `prefix`: blobs at -1.5 and +1.5 blob radii, then relaxation only. */
  function OffsetField(prefix: seq<Point3>, n: nat, sp: SpacingParams, thickness: real,
                       src: nat -> real, k: nat, m: MathLib): Option<seq<Point3>>
  {
    var radius := BlobRadius(n, sp, m);
    Sweep(prefix + OffsetSample(src, k, n, n, radius / 3.0, radius * 1.5, thickness, m), 0, sp, src, k + 5 * n, m)
  }

  /** GenerateGalaxy: n Gaussian stars appended, the whole list relaxed, then compressed. */
  method GenerateGalaxy(stars: seq<Point3>, rng: Random, n: nat, sp: SpacingParams, thickness: real,
                        profile: CoreProfile, m: MathLib)
    returns (r: seq<Point3>)
    requires GalaxyDefined(|stars|, n, sp, profile, m)
    requires GalaxyField(stars, n, sp, thickness, profile, rng.source, rng.next, m).Some?
    modifies rng
    ensures GalaxyField(stars, n, sp, thickness, profile, rng.source, old(rng.next), m) == Some(r)
    ensures rng.next == old(rng.next) + GaussianFieldDraws(|stars|, n)
  {
    var radius := AreaRadius(n, sp.meanDistance, m);
    var sampled := SampleGalaxy(stars, rng, n, radius, thickness, m);
    var relaxed := ApplyRandomDistances(sampled, rng, sp, m);
    r := ApplyCoreCompression(relaxed, profile, AreaRadius(n, sp.meanDistance, m), m);
  }

  /** GeneratePlane: n uniform-disk stars appended, then the whole list relaxed. */
  method GeneratePlane(stars: seq<Point3>, rng: Random, n: nat, sp: SpacingParams, band: real, m: MathLib)
    returns (r: seq<Point3>)
    requires PlaneField(stars, n, sp, band, rng.source, rng.next, m).Some?
    modifies rng
    ensures PlaneField(stars, n, sp, band, rng.source, old(rng.next), m) == Some(r)
    ensures rng.next == old(rng.next) + PlaneFieldDraws(|stars|, n)
  {
    var radius := AreaRadius(n, sp.meanDistance, m);
    var sampled := SamplePlane(stars, rng, n, radius, band, m);
    r := ApplyRandomDistances(sampled, rng, sp, m);
  }

  /** The Generator4/5 GenerateCollidingGalaxies: n offset stars appended, then the whole list relaxed. */
  method GenerateOffsetPair(stars: seq<Point3>, rng: Random, n: nat, sp: SpacingParams, thickness: real,
                            m: MathLib)
    returns (r: seq<Point3>)
    requires OffsetField(stars, n, sp, thickness, rng.source, rng.next, m).Some?
    modifies rng
    ensures OffsetField(stars, n, sp, thickness, rng.source, old(rng.next), m) == Some(r)
    ensures rng.next == old(rng.next) + GaussianFieldDraws(|stars|, n)
  {
    var radius := AreaRadius(n, sp.meanDistance, m) * 0.7;
    var offset := radius * 1.5;
    var sigma := radius / 3.0;
    var sampled := SampleOffsetPair(stars, rng, n, sigma, offset, thickness, m);
    r := ApplyRandomDistances(sampled, rng, sp, m);
  }

  /**
   * A galaxy appends exactly n stars, never puts a star further from the centre than relaxation left
   * it, and leaves the relaxed stars beyond the core radius where they are.
   */
  lemma GalaxyFieldCompressed(prefix: seq<Point3>, n: nat, sp: SpacingParams, thickness: real, profile: CoreProfile,
                              src: nat -> real, k: nat, m: MathLib)
    requires m.PowLaw() && m.SqrtLaw() && profile.WellFormed() && 0.0 <= profile.Floor()
    requires GalaxyDefined(|prefix|, n, sp, profile, m)
    requires 0.0 < CoreRadius(profile, AreaRadius(n, sp.meanDistance, m))
    requires GalaxyField(prefix, n, sp, thickness, profile, src, k, m).Some?
    ensures GalaxyRelaxed(prefix, n, sp, thickness, src, k, m).Some?
    ensures |GalaxyField(prefix, n, sp, thickness, profile, src, k, m).value| == |prefix| + n
    ensures forall i :: 0 <= i < |prefix| + n ==>
      NormSq(GalaxyField(prefix, n, sp, thickness, profile, src, k, m).value[i])
        <= NormSq(GalaxyRelaxed(prefix, n, sp, thickness, src, k, m).value[i])
    ensures forall i :: 0 <= i < |prefix| + n ==>
      (CoreRadius(profile, AreaRadius(n, sp.meanDistance, m))
         <= Norm(GalaxyRelaxed(prefix, n, sp, thickness, src, k, m).value[i], m)
       ==> GalaxyField(prefix, n, sp, thickness, profile, src, k, m).value[i]
           == GalaxyRelaxed(prefix, n, sp, thickness, src, k, m).value[i])
  {
    var relaxed := GalaxyRelaxed(prefix, n, sp, thickness, src, k, m).value;
    CompressedProperties(relaxed, profile, AreaRadius(n, sp.meanDistance, m), m);
  }

  /**
   * A plane on an empty list keeps its first star where it was sampled:
   * inside the disk of the area radius, with z in [-band/2, band/2).
   */
  lemma PlaneFieldFirstStar(n: nat, sp: SpacingParams, band: real, src: nat -> real, k: nat, m: MathLib)
    requires Uniform(src) && m.SqrtLaw() && m.TrigLaw() && 0.0 < band && 0 < n
    requires PlaneField([], n, sp, band, src, k, m).Some?
    ensures var p := PlaneField([], n, sp, band, src, k, m).value;
            var radius := AreaRadius(n, sp.meanDistance, m);
            && |p| == n
            && InDisk(p[0], radius)
            && -band / 2.0 <= p[0].z < band / 2.0
  {
    var radius := AreaRadius(n, sp.meanDistance, m);
    var sample := PlaneSample(src, k, n, radius, band, m);
    assert [] + sample == sample;
    FirstStarFixed(sample, sp, src, k + 3 * n, m);
    PlaneStarInDisk(src, k, radius, band, m);
    PlaneStarHeight(src, k, radius, band, m);
  }

  /** The Generator4/5 collision appends exactly n stars. */
  lemma OffsetFieldLength(prefix: seq<Point3>, n: nat, sp: SpacingParams, thickness: real,
                          src: nat -> real, k: nat, m: MathLib)
    requires OffsetField(prefix, n, sp, thickness, src, k, m).Some?
    ensures |OffsetField(prefix, n, sp, thickness, src, k, m).value| == |prefix| + n
  {
  }

  /** The MapMode of Generator4, Generator5 and Generator6. */
  datatype MapMode = Galaxy | Plane | CollidingGalaxies

  /**
   * What Generate of Generator4 and Generator5 leaves in the list, from `prefix`
   * (empty once Generate has cleared it): the mode's field; None where a
   * galaxy would divide by a zero radius or relaxation by a zero distance.
   */
  function MapField(mode: MapMode, prefix: seq<Point3>, n: nat, sp: SpacingParams, thickness: real,
                    profile: CoreProfile, src: nat -> real, k: nat, m: MathLib): Option<seq<Point3>>
  {
    match mode
    case Galaxy =>
      if GalaxyDefined(|prefix|, n, sp, profile, m) then GalaxyField(prefix, n, sp, thickness, profile, src, k, m)
      else None
    case Plane => PlaneField(prefix, n, sp, thickness, src, k, m)
    case CollidingGalaxies => OffsetField(prefix, n, sp, thickness, src, k, m)
  }

  /** The draws each mode takes on top of p stars. */
  function MapDraws(mode: MapMode, p: nat, n: nat): nat {
    match mode
    case Galaxy => GaussianFieldDraws(p, n)
    case Plane => PlaneFieldDraws(p, n)
    case CollidingGalaxies => GaussianFieldDraws(p, n)
  }

  /** A galaxy appends exactly n stars. */
  lemma GalaxyFieldLength(prefix: seq<Point3>, n: nat, sp: SpacingParams, thickness: real, profile: CoreProfile,
                          src: nat -> real, k: nat, m: MathLib)
    requires GalaxyDefined(|prefix|, n, sp, profile, m)
    requires GalaxyField(prefix, n, sp, thickness, profile, src, k, m).Some?
    ensures |GalaxyField(prefix, n, sp, thickness, profile, src, k, m).value| == |prefix| + n
  {
    var relaxed := GalaxyRelaxed(prefix, n, sp, thickness, src, k, m);
    assert relaxed.Some?;
    assert |relaxed.value| == |prefix| + n;
  }

  /** Every mode appends exactly n stars: Generate writes StarCount stars. */
  lemma MapFieldLength(mode: MapMode, prefix: seq<Point3>, n: nat, sp: SpacingParams, thickness: real,
                       profile: CoreProfile, src: nat -> real, k: nat, m: MathLib)
    requires MapField(mode, prefix, n, sp, thickness, profile, src, k, m).Some?
    ensures |MapField(mode, prefix, n, sp, thickness, profile, src, k, m).value| == |prefix| + n
  {
    match mode
    case Galaxy => GalaxyFieldLength(prefix, n, sp, thickness, profile, src, k, m);
    case Plane =>
    case CollidingGalaxies => OffsetFieldLength(prefix, n, sp, thickness, src, k, m);
  }

  /**
   * The Generate of Generator4 and Generator5 after the list is cleared: the
   * mode's generation on the generator's list.
   */
  method GenerateMapField(mode: MapMode, stars: seq<Point3>, rng: Random, n: nat, sp: SpacingParams,
                          thickness: real, profile: CoreProfile, m: MathLib)
    returns (r: seq<Point3>)
    requires MapField(mode, stars, n, sp, thickness, profile, rng.source, rng.next, m).Some?
    modifies rng
    ensures MapField(mode, stars, n, sp, thickness, profile, rng.source, old(rng.next), m) == Some(r)
    ensures rng.next == old(rng.next) + MapDraws(mode, |stars|, n)
  {
    match mode {
      case Galaxy => r := GenerateGalaxy(stars, rng, n, sp, thickness, profile, m);
      case Plane => r := GeneratePlane(stars, rng, n, sp, thickness, m);
      case CollidingGalaxies => r := GenerateOffsetPair(stars, rng, n, sp, thickness, m);
    }
  }
}
