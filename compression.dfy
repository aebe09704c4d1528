/**
 * ApplyCoreCompression: every star is scaled towards the centre by a factor
 * that depends only on its distance from the centre, so the core of a galaxy
 * becomes denser while its rim stays where it was.
 *
 * Generator4 uses the fixed profile 0.5 + 0.5 * Math.Pow(Math.Min(1, r/R), 3),
 * where R is the area radius; Generator5 and Generator6 use
 * CoreScale + (1 - CoreScale) * Math.Pow(Math.Min(1, r/(R*CoreRadiusFraction)), FalloffPower).
 */
module Compression {
  import opened Numerics
  import opened Geometry

  datatype CoreProfile =
    /** Generator4: centre scale 0.5 and exponent 3, Math.Pow(t, 3) taken as t*t*t. */
    | Cubic
    /** Generator5 and Generator6, with their three public properties. */
    | Smooth(coreRadiusFraction: real, coreScale: real, falloffPower: real)
  {
    /** The scale applied at the very centre. */
    function Floor(): real {
      match this
      case Cubic => 0.5
      case Smooth(_, coreScale, _) => coreScale
    }

    /** What the profile needs for its factor to stay in [Floor(), 1]. */
    predicate WellFormed() {
      match this
      case Cubic => true
      case Smooth(_, coreScale, falloffPower) => coreScale <= 1.0 && 0.0 < falloffPower
    }
  }

  /** The distance at which compression stops: R, or R * CoreRadiusFraction. */
  function CoreRadius(profile: CoreProfile, radius: real): real {
    match profile
    case Cubic => radius
    case Smooth(coreRadiusFraction, _, _) => radius * coreRadiusFraction
  }

  /** The factor applied to a star at distance `dist` from the centre. */
  function CompressionScale(profile: CoreProfile, dist: real, radius: real, m: MathLib): real
    requires CoreRadius(profile, radius) != 0.0
  {
    var t := Min(1.0, dist / CoreRadius(profile, radius));
    match profile
    case Cubic => 0.5 + (1.0 - 0.5) * (t * t * t)
    case Smooth(_, coreScale, falloffPower) => coreScale + (1.0 - coreScale) * m.pow(t, falloffPower)
  }

  /** The star list after the pass: each star scaled by the factor for its own norm. */
  function Compressed(s: seq<Point3>, profile: CoreProfile, radius: real, m: MathLib): seq<Point3>
    requires |s| > 0 ==> CoreRadius(profile, radius) != 0.0
  {
    seq(|s|, i requires 0 <= i < |s| => Scale(s[i], CompressionScale(profile, Norm(s[i], m), radius, m)))
  }

  /** The pass over the generator's star list, rewriting each element in place. */
  method ApplyCoreCompression(stars: seq<Point3>, profile: CoreProfile, radius: real, m: MathLib)
    returns (r: seq<Point3>)
    requires |stars| > 0 ==> CoreRadius(profile, radius) != 0.0
    ensures r == Compressed(stars, profile, radius, m)
  {
    r := stars;
    for i := 0 to |r|
      invariant |r| == |stars|
      invariant forall k :: 0 <= k < i ==> r[k] == Compressed(stars, profile, radius, m)[k]
      invariant forall k :: i <= k < |r| ==> r[k] == stars[k]
    {
      var scaled := CompressStar(r[i], profile, radius, m);
      r := r[i := scaled];
    }
  }

  /** One step of the pass: the star scaled by the factor for its own distance from the centre. */
  method CompressStar(s: Point3, profile: CoreProfile, radius: real, m: MathLib) returns (scaled: Point3)
    requires CoreRadius(profile, radius) != 0.0
    ensures scaled == Scale(s, CompressionScale(profile, Norm(s, m), radius, m))
  {
    var dist := Norm(s, m);
    var t := Min(1.0, dist / CoreRadius(profile, radius));
    var scale;
    match profile {
      case Cubic =>
        scale := 0.5 + (1.0 - 0.5) * (t * t * t);
      case Smooth(_, coreScale, falloffPower) =>
        scale := coreScale + (1.0 - coreScale) * m.pow(t, falloffPower);
    }
    scaled := Point3(s.x * scale, s.y * scale, s.z * scale);
  }

  /** A value in [0,1] cubed stays in [0,1]. */
  lemma CubeInUnit(t: real)
    requires 0.0 <= t <= 1.0
    ensures 0.0 <= t * t * t <= 1.0
  {
    MulNonNegative(t, t);
    MulNonNegative(t * t, t);
    MulNonNegative(t, 1.0 - t);
    assert t * t <= t;
    MulNonNegative(t * t, 1.0 - t);
    assert t * t * t <= t * t;
  }

  /**
   * For a non-negative distance and a positive core radius, the factor lies
   * between the profile's floor and 1.
   */
  lemma CompressionScaleBounds(profile: CoreProfile, dist: real, radius: real, m: MathLib)
    requires m.PowLaw() && profile.WellFormed()
    requires 0.0 <= dist && 0.0 < CoreRadius(profile, radius)
    ensures profile.Floor() <= CompressionScale(profile, dist, radius, m) <= 1.0
  {
    var core := CoreRadius(profile, radius);
    DivNonNegative(dist, core);
    var t := Min(1.0, dist / core);
    match profile
    case Cubic =>
      CubeInUnit(t);
    case Smooth(_, coreScale, falloffPower) =>
      var p := m.pow(t, falloffPower);
      assert 0.0 <= p <= 1.0;
      MulNonNegative(1.0 - coreScale, p);
      MulNonNegative(1.0 - coreScale, 1.0 - p);
  }

  lemma DivNonNegative(a: real, b: real)
    requires 0.0 <= a && 0.0 < b
    ensures 0.0 <= a / b
  {
  }

  /** A star at or beyond the core radius is left where it is. */
  lemma CompressionScaleBeyondCore(profile: CoreProfile, dist: real, radius: real, m: MathLib)
    requires m.PowLaw() && profile.WellFormed()
    requires 0.0 < CoreRadius(profile, radius) <= dist
    ensures CompressionScale(profile, dist, radius, m) == 1.0
  {
    var core := CoreRadius(profile, radius);
    assert core / core == 1.0;
    DivMonotone(core, dist, core);
    assert Min(1.0, dist / core) == 1.0;
  }

  lemma DivMonotone(a: real, b: real, c: real)
    requires a <= b && 0.0 < c
    ensures a / c <= b / c
  {
    assert b / c - a / c == (b - a) / c;
    DivNonNegative(b - a, c);
  }

  /** The centre is scaled by exactly the profile's floor. */
  lemma CompressionScaleAtCentre(profile: CoreProfile, radius: real, m: MathLib)
    requires m.PowLaw() && profile.WellFormed()
    requires CoreRadius(profile, radius) != 0.0
    ensures CompressionScale(profile, 0.0, radius, m) == profile.Floor()
  {
    assert 0.0 / CoreRadius(profile, radius) == 0.0;
  }

  /**
   * The pass keeps the number of stars, leaves the stars at or beyond the
   * core radius unchanged, and moves no star away from the centre.
   */
  lemma CompressedProperties(s: seq<Point3>, profile: CoreProfile, radius: real, m: MathLib)
    requires m.PowLaw() && m.SqrtLaw() && profile.WellFormed() && 0.0 <= profile.Floor()
    requires 0.0 < CoreRadius(profile, radius)
    ensures |Compressed(s, profile, radius, m)| == |s|
    ensures forall i :: 0 <= i < |s| && CoreRadius(profile, radius) <= Norm(s[i], m) ==>
      Compressed(s, profile, radius, m)[i] == s[i]
    ensures forall i :: 0 <= i < |s| ==> NormSq(Compressed(s, profile, radius, m)[i]) <= NormSq(s[i])
  {
    var c := Compressed(s, profile, radius, m);
    forall i | 0 <= i < |s|
      ensures CoreRadius(profile, radius) <= Norm(s[i], m) ==> c[i] == s[i]
      ensures NormSq(c[i]) <= NormSq(s[i])
    {
      var dist := Norm(s[i], m);
      NormSqNonNegative(s[i]);
      var f := CompressionScale(profile, dist, radius, m);
      CompressionScaleBounds(profile, dist, radius, m);
      if CoreRadius(profile, radius) <= dist {
        CompressionScaleBeyondCore(profile, dist, radius, m);
        assert c[i] == Scale(s[i], 1.0);
      }
      calc {
        NormSq(c[i]);
      ==
        NormSq(Scale(s[i], f));
      == { NormSqScale(s[i], f); }
        f * f * NormSq(s[i]);
      <= { FactorSquaredAtMostOne(f, NormSq(s[i])); }
        NormSq(s[i]);
      }
    }
  }

  /** With 0 <= f <= 1, f*f*q <= q for a non-negative q. */
  lemma FactorSquaredAtMostOne(f: real, q: real)
    requires 0.0 <= f <= 1.0 && 0.0 <= q
    ensures f * f * q <= q
  {
    MulNonNegative(f, f);
    MulNonNegative(f, 1.0 - f);
    assert f * f <= 1.0;
    MulNonNegative(1.0 - f * f, q);
  }
}
