/**
 * The per-star sampling loops of Generator4, Generator5 and Generator6:
 * GenerateGalaxy (Gaussian x and y, flattened z), GeneratePlane (uniform disk,
 * uniform z band) and the single-field collision of Generator4/5 (two Gaussian
 * blobs at -offset and +offset on the x axis). Each loop appends StarCount stars
 * to the generator's list; star i of a loop uses a fixed block of draws.
 */
module Sampling {
  import opened Numerics
  import opened Geometry
  import opened Randomness

  /** The Box-Muller transform of RandomGaussian, applied to 1 - u for both draws. */
  function Gaussian(u1: real, u2: real, m: MathLib): real {
    m.sqrt(-2.0 * m.log(u1)) * m.cos(2.0 * PI * u2)
  }

  /** RandomGaussian when the next two draws are src(k) and src(k+1). */
  function GaussianAt(src: nat -> real, k: nat, m: MathLib): real {
    Gaussian(1.0 - src(k), 1.0 - src(k + 1), m)
  }

  method RandomGaussian(rng: Random, m: MathLib) returns (g: real)
    modifies rng
    ensures g == GaussianAt(rng.source, old(rng.next), m)
    ensures rng.next == old(rng.next) + 2
  {
    var a := rng.NextDouble();
    var b := rng.NextDouble();
    var u1 := 1.0 - a;
    var u2 := 1.0 - b;
    g := m.sqrt(-2.0 * m.log(u1)) * m.cos(2.0 * PI * u2);
  }

  /** Distance from the galaxy axis, Math.Sqrt(x*x + y*y). */
  function PlanarNorm(x: real, y: real, m: MathLib): real {
    m.sqrt(x * x + y * y)
  }

  lemma PlanarNormNonNegative(x: real, y: real, m: MathLib)
    requires m.SqrtLaw()
    ensures 0.0 <= PlanarNorm(x, y, m)
  {
    SquareNonNegative(x);
    SquareNonNegative(y);
  }

  /** The thinning of a galaxy away from its centre: Math.Max(0.1, 1 - dist/radius). */
  function Flatten(dist: real, radius: real): real
    requires radius != 0.0
  {
    Max(0.1, 1.0 - dist / radius)
  }

  /** The galaxy star built from two Gaussian values and one uniform draw. */
  function GalaxyPoint(gx: real, gy: real, u: real, radius: real, thickness: real, m: MathLib): Point3
    requires radius != 0.0
  {
    var sigma := radius / 3.0;
    var x := gx * sigma;
    var y := gy * sigma;
    var flatten := Flatten(PlanarNorm(x, y, m), radius);
    Point3(x, y, Centered(u, thickness) * flatten)
  }

  /** One star of GenerateGalaxy, from draws k .. k+4. */
  function GalaxyStar(src: nat -> real, k: nat, radius: real, thickness: real, m: MathLib): Point3
    requires radius != 0.0
  {
    GalaxyPoint(GaussianAt(src, k, m), GaussianAt(src, k + 2, m), src(k + 4), radius, thickness, m)
  }

  /** The n stars GenerateGalaxy appends, the first from draw k. */
  function GalaxySample(src: nat -> real, k: nat, n: nat, radius: real, thickness: real, m: MathLib)
    : seq<Point3>
    requires n > 0 ==> radius != 0.0
  {
    seq(n, i requires 0 <= i < n => GalaxyStar(src, k + 5 * i, radius, thickness, m))
  }

  /** The sampling loop of GenerateGalaxy, five draws per star. */
  method SampleGalaxy(stars: seq<Point3>, rng: Random, n: nat, radius: real, thickness: real, m: MathLib)
    returns (r: seq<Point3>)
    requires n > 0 ==> radius != 0.0
    modifies rng
    ensures r == stars + GalaxySample(rng.source, old(rng.next), n, radius, thickness, m)
    ensures rng.next == old(rng.next) + 5 * n
  {
    ghost var k0, src := rng.next, rng.source;
    r := stars;
    for i := 0 to n
      invariant rng.next == k0 + 5 * i
      invariant r == stars + GalaxySample(src, k0, i, radius, thickness, m)
    {
      ghost var k := rng.next;
      var gx := RandomGaussian(rng, m);
      var gy := RandomGaussian(rng, m);
      var u := rng.NextDouble();
      var star := GalaxyPoint(gx, gy, u, radius, thickness, m);
      GalaxySampleSnoc(src, k0, i, radius, thickness, m, k);
      assert star == GalaxyStar(src, k, radius, thickness, m);
      r := r + [star];
    }
  }

  /** One star of GeneratePlane, from draws k .. k+2; `band` is the height of the z slab. */
  function PlaneStar(src: nat -> real, k: nat, radius: real, band: real, m: MathLib): Point3 {
    var angle := src(k) * PI * 2.0;
    var r := m.sqrt(src(k + 1)) * radius;
    Point3(m.cos(angle) * r, m.sin(angle) * r, Centered(src(k + 2), band))
  }

  /** The n stars GeneratePlane appends, the first from draw k. */
  function PlaneSample(src: nat -> real, k: nat, n: nat, radius: real, band: real, m: MathLib): seq<Point3> {
    seq(n, i requires 0 <= i < n => PlaneStar(src, k + 3 * i, radius, band, m))
  }

  /** The sampling loop of GeneratePlane, three draws per star. */
  method SamplePlane(stars: seq<Point3>, rng: Random, n: nat, radius: real, band: real, m: MathLib)
    returns (r: seq<Point3>)
    modifies rng
    ensures r == stars + PlaneSample(rng.source, old(rng.next), n, radius, band, m)
    ensures rng.next == old(rng.next) + 3 * n
  {
    ghost var k0, src := rng.next, rng.source;
    r := stars;
    for i := 0 to n
      invariant rng.next == k0 + 3 * i
      invariant r == stars + PlaneSample(src, k0, i, radius, band, m)
    {
      ghost var k := rng.next;
      var star := DrawPlaneStar(rng, radius, band, m);
      PlaneSampleSnoc(src, k0, i, radius, band, m, k);
      r := r + [star];
    }
  }

  /** The body of the GeneratePlane loop: angle, distance and height of one star. */
  method DrawPlaneStar(rng: Random, radius: real, band: real, m: MathLib) returns (star: Point3)
    modifies rng
    ensures star == PlaneStar(rng.source, old(rng.next), radius, band, m)
    ensures rng.next == old(rng.next) + 3
  {
    var a := rng.NextDouble();
    var angle := a * PI * 2.0;
    var b := rng.NextDouble();
    var dist := m.sqrt(b) * radius;
    var x := m.cos(angle) * dist;
    var y := m.sin(angle) * dist;
    var c := rng.NextDouble();
    var z := Centered(c, band);
    star := Point3(x, y, z);
  }

  /**
   * One star of the Generator4/5 collision, from draws k .. k+4: a Gaussian
   * blob of deviation sigma, moved by -offset in x for the first half of the
   * stars (index below n/2) and by +offset for the rest.
   */
  function OffsetStar(src: nat -> real, k: nat, i: nat, n: nat, sigma: real, offset: real, thickness: real,
                      m: MathLib): Point3
  {
    OffsetPoint(GaussianAt(src, k, m), GaussianAt(src, k + 2, m), src(k + 4), i < n / 2, sigma, offset, thickness)
  }

  /** The collision star built from two Gaussian values and one uniform draw, on the left or the right. */
  function OffsetPoint(gx: real, gy: real, u: real, left: bool, sigma: real, offset: real, thickness: real): Point3 {
    var x := gx * sigma;
    Point3(if left then x - offset else x + offset, gy * sigma, Centered(u, thickness))
  }

  /** The first `count` of the n stars of the Generator4/5 collision. */
  function OffsetSample(src: nat -> real, k: nat, count: nat, n: nat, sigma: real, offset: real,
                        thickness: real, m: MathLib): seq<Point3>
  {
    seq(count, i requires 0 <= i < count => OffsetStar(src, k + 5 * i, i, n, sigma, offset, thickness, m))
  }

  /** The sampling loop of the Generator4/5 collision, five draws per star. */
  method SampleOffsetPair(stars: seq<Point3>, rng: Random, n: nat, sigma: real, offset: real,
                          thickness: real, m: MathLib)
    returns (r: seq<Point3>)
    modifies rng
    ensures r == stars + OffsetSample(rng.source, old(rng.next), n, n, sigma, offset, thickness, m)
    ensures rng.next == old(rng.next) + 5 * n
  {
    ghost var k0, src := rng.next, rng.source;
    r := stars;
    for i := 0 to n
      invariant rng.next == k0 + 5 * i
      invariant r == stars + OffsetSample(src, k0, i, n, sigma, offset, thickness, m)
    {
      ghost var k := rng.next;
      var star := DrawOffsetStar(rng, i, n, sigma, offset, thickness, m);
      OffsetSampleSnoc(src, k0, i, n, sigma, offset, thickness, m, k);
      r := r + [star];
    }
  }

  /** The body of the collision loop: star i of n, on the left for the first half. */
  method DrawOffsetStar(rng: Random, i: nat, n: nat, sigma: real, offset: real, thickness: real, m: MathLib)
    returns (star: Point3)
    modifies rng
    ensures star == OffsetStar(rng.source, old(rng.next), i, n, sigma, offset, thickness, m)
    ensures rng.next == old(rng.next) + 5
  {
    var galaxyA := i < n / 2;
    var gx := RandomGaussian(rng, m);
    var gy := RandomGaussian(rng, m);
    var u := rng.NextDouble();
    star := OffsetPoint(gx, gy, u, galaxyA, sigma, offset, thickness);
  }

  /** Taking one more star appends GalaxyStar for the next block of draws. */
  lemma GalaxySampleSnoc(src: nat -> real, k: nat, n: nat, radius: real, thickness: real, m: MathLib, kn: nat)
    requires radius != 0.0 && kn == k + 5 * n
    ensures GalaxySample(src, k, n + 1, radius, thickness, m)
            == GalaxySample(src, k, n, radius, thickness, m) + [GalaxyStar(src, kn, radius, thickness, m)]
  {
  }

  lemma PlaneSampleSnoc(src: nat -> real, k: nat, n: nat, radius: real, band: real, m: MathLib, kn: nat)
    requires kn == k + 3 * n
    ensures PlaneSample(src, k, n + 1, radius, band, m)
            == PlaneSample(src, k, n, radius, band, m) + [PlaneStar(src, kn, radius, band, m)]
  {
  }

  lemma OffsetSampleSnoc(src: nat -> real, k: nat, count: nat, n: nat, sigma: real, offset: real,
                         thickness: real, m: MathLib, kn: nat)
    requires kn == k + 5 * count
    ensures OffsetSample(src, k, count + 1, n, sigma, offset, thickness, m)
            == OffsetSample(src, k, count, n, sigma, offset, thickness, m)
               + [OffsetStar(src, kn, count, n, sigma, offset, thickness, m)]
  {
  }

  /** For a positive radius and a non-negative distance, the flatten factor lies in [0.1, 1]. */
  lemma FlattenBounds(dist: real, radius: real)
    requires 0.0 < radius && 0.0 <= dist
    ensures 0.1 <= Flatten(dist, radius) <= 1.0
  {
    assert 0.0 <= dist / radius;
  }

  /** Before relaxation a galaxy star's height is at most Thickness/2 either way. */
  lemma GalaxyStarHeight(src: nat -> real, k: nat, radius: real, thickness: real, m: MathLib)
    requires Uniform(src) && m.SqrtLaw()
    requires 0.0 < radius && 0.0 <= thickness
    ensures -thickness / 2.0 <= GalaxyStar(src, k, radius, thickness, m).z <= thickness / 2.0
  {
    GalaxyPointHeight(GaussianAt(src, k, m), GaussianAt(src, k + 2, m), src(k + 4), radius, thickness, m);
  }

  lemma GalaxyPointHeight(gx: real, gy: real, u: real, radius: real, thickness: real, m: MathLib)
    requires m.SqrtLaw() && 0.0 <= u < 1.0
    requires 0.0 < radius && 0.0 <= thickness
    ensures -thickness / 2.0 <= GalaxyPoint(gx, gy, u, radius, thickness, m).z <= thickness / 2.0
  {
    var x := gx * (radius / 3.0);
    var y := gy * (radius / 3.0);
    PlanarNormNonNegative(x, y, m);
    var f := Flatten(PlanarNorm(x, y, m), radius);
    FlattenBounds(PlanarNorm(x, y, m), radius);
    var z := GalaxyPoint(gx, gy, u, radius, thickness, m).z;
    calc {
      z;
    ==
      Centered(u, thickness) * f;
    <= { HeightBounds(u, thickness, f); }
      thickness / 2.0;
    }
    calc {
      z;
    ==
      Centered(u, thickness) * f;
    >= { HeightBounds(u, thickness, f); }
      -thickness / 2.0;
    }
  }

  /** Centered(u, t) * f lies in [-t/2, t/2] for u in [0,1), t >= 0 and f in [0,1]. */
  lemma HeightBounds(u: real, t: real, f: real)
    requires 0.0 <= u < 1.0 && 0.0 <= t && 0.0 <= f <= 1.0
    ensures -t / 2.0 <= Centered(u, t) * f <= t / 2.0
  {
    var h := u - 0.5;
    MulNonNegative(t, f);
    MulNonNegative(t, 1.0 - f);
    assert 0.0 <= t * f <= t;
    MulNonNegative(h + 0.5, t * f);
    MulNonNegative(0.5 - h, t * f);
    assert h * t * f == h * (t * f);
  }

  /** Before relaxation a plane star's height lies in [-band/2, band/2). */
  lemma PlaneStarHeight(src: nat -> real, k: nat, radius: real, band: real, m: MathLib)
    requires Uniform(src) && 0.0 < band
    ensures -band / 2.0 <= PlaneStar(src, k, radius, band, m).z < band / 2.0
  {
    BandBounds(src(k + 2), band);
  }

  /** The projection of p on the XY plane lies in the disk of the given radius. */
  predicate InDisk(p: Point3, radius: real) {
    p.x * p.x + p.y * p.y <= radius * radius
  }

  /** A plane star lies in the disk of the given radius: x^2 + y^2 <= radius^2. */
  lemma PlaneStarInDisk(src: nat -> real, k: nat, radius: real, band: real, m: MathLib)
    requires Uniform(src) && m.SqrtLaw() && m.TrigLaw()
    ensures InDisk(PlaneStar(src, k, radius, band, m), radius)
  {
    var angle := src(k) * PI * 2.0;
    var u := src(k + 1);
    DiskBound(m.cos(angle), m.sin(angle), m.sqrt(u), u, radius);
  }

  /** With c^2 + s^2 == 1 and q^2 == u in [0,1], the point (c q R, s q R) lies within radius R. */
  lemma DiskBound(c: real, s: real, q: real, u: real, radius: real)
    requires c * c + s * s == 1.0 && q * q == u && 0.0 <= u <= 1.0
    ensures (c * (q * radius)) * (c * (q * radius)) + (s * (q * radius)) * (s * (q * radius)) <= radius * radius
  {
    var w := radius * radius;
    SquareNonNegative(radius);
    calc {
      (c * (q * radius)) * (c * (q * radius)) + (s * (q * radius)) * (s * (q * radius));
    ==
      (c * c + s * s) * (q * q) * w;
    ==
      u * w;
    <= { ScaleDown(u, w); }
      w;
    }
  }

  /** u w <= w for u in [0,1] and w >= 0. */
  lemma ScaleDown(u: real, w: real)
    requires 0.0 <= u <= 1.0 && 0.0 <= w
    ensures u * w <= w
  {
    MulNonNegative(1.0 - u, w);
  }

  /**
   * The Generator4/5 collision: star i of n is the Gaussian sample moved by
   * -offset in x when i < n/2 and by +offset otherwise; y is the Gaussian
   * sample itself.
   */
  lemma OffsetSampleSides(src: nat -> real, k: nat, n: nat, sigma: real, offset: real, thickness: real,
                          m: MathLib)
    ensures |OffsetSample(src, k, n, n, sigma, offset, thickness, m)| == n
    ensures forall i :: 0 <= i < n / 2 ==>
      OffsetSample(src, k, n, n, sigma, offset, thickness, m)[i].x == GaussianAt(src, k + 5 * i, m) * sigma - offset
    ensures forall i :: n / 2 <= i < n ==>
      OffsetSample(src, k, n, n, sigma, offset, thickness, m)[i].x == GaussianAt(src, k + 5 * i, m) * sigma + offset
    ensures forall i :: 0 <= i < n ==>
      OffsetSample(src, k, n, n, sigma, offset, thickness, m)[i].y == GaussianAt(src, k + 5 * i + 2, m) * sigma
  {
    var s := OffsetSample(src, k, n, n, sigma, offset, thickness, m);
    forall i | 0 <= i < n
      ensures s[i] == OffsetPoint(GaussianAt(src, k + 5 * i, m), GaussianAt(src, k + 5 * i + 2, m),
                                  src(k + 5 * i + 4), i < n / 2, sigma, offset, thickness)
    {
    }
  }

  /** Before relaxation every star of the Generator4/5 collision lies in [-Thickness/2, Thickness/2) in z. */
  lemma OffsetSampleHeight(src: nat -> real, k: nat, n: nat, sigma: real, offset: real, thickness: real,
                           m: MathLib)
    requires Uniform(src) && 0.0 < thickness
    ensures forall i :: 0 <= i < n ==>
      -thickness / 2.0 <= OffsetSample(src, k, n, n, sigma, offset, thickness, m)[i].z < thickness / 2.0
  {
    forall i | 0 <= i < n
      ensures -thickness / 2.0 <= OffsetSample(src, k, n, n, sigma, offset, thickness, m)[i].z < thickness / 2.0
    {
      BandBounds(src(k + 5 * i + 4), thickness);
    }
  }
}
