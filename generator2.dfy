/**
 * Generator2: rejection placement. The map size follows from the star count
 * and the minimum distance; candidates are drawn in the map shape and kept
 * only when no kept star is closer than MinDistance (compared on squared
 * distances); after at most 50000 attempts the kept stars are saved with a
 * uniform height each.
 */
module Generator2 {
  import opened Wrappers
  import opened Numerics
  import opened Geometry
  import opened Randomness
  import opened Shapes
  import opened Text

  /** The attempt budget of the placement loop. */
  const MaxAttempts: nat := 50000

  datatype Size = Size(width: real, height: real)

  /** MinDistance^2 * 2.2 per star, times the star count. */
  function TotalArea(minDistance: real, starCount: nat): real {
    minDistance * minDistance * 2.2 * (starCount as real)
  }

  /** CalculateMapSize. */
  function MapSize(shape: Shape, minDistance: real, starCount: nat, m: MathLib): Size {
    var total := TotalArea(minDistance, starCount);
    match shape
    case Rectangle =>
      var w := m.sqrt(total);
      Size(w, w)
    case Circle =>
      var radius := m.sqrt(total / PI);
      Size(radius * 2.0, radius * 2.0)
    case Ellipse =>
      var a := m.sqrt(total / (PI * 0.5));
      Size(a * 2.0, a)
    case Undefined => Size(50.0, 50.0)
  }

  lemma TotalAreaNonNegative(minDistance: real, starCount: nat)
    ensures 0.0 <= TotalArea(minDistance, starCount)
  {
    SquareNonNegative(minDistance);
    MulNonNegative(minDistance * minDistance * 2.2, starCount as real);
  }

  /** A square map: its side squared is the total area. */
  lemma SquareSize(minDistance: real, starCount: nat, m: MathLib)
    requires m.SqrtLaw()
    ensures var s := MapSize(Rectangle, minDistance, starCount, m);
            s.width == s.height && s.width * s.width == TotalArea(minDistance, starCount) && 0.0 <= s.width
  {
    TotalAreaNonNegative(minDistance, starCount);
  }

  /** A circle map: the disk of diameter w has the total area. */
  lemma CircleSize(minDistance: real, starCount: nat, m: MathLib)
    requires m.SqrtLaw()
    ensures var s := MapSize(Circle, minDistance, starCount, m);
            s.width == s.height && PI * (s.width / 2.0) * (s.width / 2.0) == TotalArea(minDistance, starCount)
  {
    var total := TotalArea(minDistance, starCount);
    TotalAreaNonNegative(minDistance, starCount);
    var q := total / PI;
    var radius := m.sqrt(q);
    assert radius * radius == q;
    CircleArea(radius, q, total);
  }

  /** An ellipse map, twice as wide as high: the semi-axes w/2 and h/2 enclose the total area. */
  lemma EllipseSize(minDistance: real, starCount: nat, m: MathLib)
    requires m.SqrtLaw()
    ensures var s := MapSize(Ellipse, minDistance, starCount, m);
            s.width == 2.0 * s.height && PI * (s.width / 2.0) * (s.height / 2.0) == TotalArea(minDistance, starCount)
  {
    var total := TotalArea(minDistance, starCount);
    TotalAreaNonNegative(minDistance, starCount);
    var q := total / (PI * 0.5);
    var a := m.sqrt(q);
    assert a * a == q;
    EllipseArea(a, q, total);
  }

  lemma CircleArea(radius: real, q: real, total: real)
    requires q == total / PI && radius * radius == q
    ensures PI * ((radius * 2.0) / 2.0) * ((radius * 2.0) / 2.0) == total
  {
    assert (radius * 2.0) / 2.0 == radius;
    calc {
      PI * radius * radius;
    ==
      PI * q;
    ==
      total;
    }
  }

  lemma EllipseArea(a: real, q: real, total: real)
    requires q == total / (PI * 0.5) && a * a == q
    ensures PI * ((a * 2.0) / 2.0) * (a / 2.0) == total
  {
    assert (a * 2.0) / 2.0 == a;
    calc {
      PI * a * (a / 2.0);
    ==
      (PI * 0.5) * (a * a);
    ==
      (PI * 0.5) * q;
    ==
      total;
    }
  }

  /** A candidate and the number of draws it took. */
  datatype Drawn = Drawn(point: Point2, draws: nat)

  /** GenerateCandidate on the draws from src(k): two per defined shape, none for the default (0, 0). */
  function Candidate(shape: Shape, w: real, h: real, src: nat -> real, k: nat, m: MathLib): Drawn {
    match shape
    case Rectangle => Drawn(RectanglePoint(src(k), src(k + 1), w, h), 2)
    case Circle => Drawn(CirclePoint(src(k), src(k + 1), w / 2.0, m), 2)
    case Ellipse => Drawn(EllipsePoint(src(k), src(k + 1), w / 2.0, h / 2.0, m), 2)
    case Undefined => Drawn(Point2(0.0, 0.0), 0)
  }

  /** A candidate lies in the map: in [-w/2, w/2) x [-h/2, h/2), the disk of radius w/2, or the ellipse of semi-axes w/2, h/2. */
  lemma CandidateInside(shape: Shape, w: real, h: real, src: nat -> real, k: nat, m: MathLib)
    requires Uniform(src) && m.SqrtLaw() && m.TrigLaw() && 0.0 < w && 0.0 < h
    ensures var p := Candidate(shape, w, h, src, k, m).point;
            && (shape == Rectangle ==> InRectangle(p, w, h))
            && (shape == Circle ==> InCircle(p, w / 2.0))
            && (shape == Ellipse ==> InEllipse(p, w / 2.0, h / 2.0))
            && (shape == Undefined ==> p == Point2(0.0, 0.0))
  {
    match shape
    case Rectangle => RectanglePointInside(src(k), src(k + 1), w, h);
    case Circle => CirclePointInside(src(k), src(k + 1), w / 2.0, m);
    case Ellipse => EllipsePointInside(src(k), src(k + 1), w / 2.0, h / 2.0, m);
    case Undefined =>
  }

  /** dx*dx + dy*dy with dx = s.x - x and dy = s.y - y. */
  function SqDist(s: Point2, p: Point2): real {
    (s.x - p.x) * (s.x - p.x) + (s.y - p.y) * (s.y - p.y)
  }

  /** Some kept star is closer to p than minDistance. */
  predicate TooClose(stars: seq<Point2>, p: Point2, minDistance: real) {
    exists i :: 0 <= i < |stars| && SqDist(stars[i], p) < minDistance * minDistance
  }

  /** No two kept stars are closer than minDistance. */
  predicate WellSpaced(stars: seq<Point2>, minDistance: real) {
    forall i, j :: 0 <= i < j < |stars| ==> minDistance * minDistance <= SqDist(stars[i], stars[j])
  }

  /** The state of the placement loop: the kept stars, the attempts made and the next draw. */
  datatype Placed = Placed(stars: seq<Point2>, attempts: nat, next: nat)

  /** The placement loop from a given state to its exit. */
  function Placement(stars: seq<Point2>, attempts: nat, k: nat, target: nat, shape: Shape, w: real, h: real,
                     minDistance: real, src: nat -> real, m: MathLib): Placed
    decreases MaxAttempts - attempts
  {
    if |stars| < target && attempts < MaxAttempts then
      var c := Candidate(shape, w, h, src, k, m);
      if TooClose(stars, c.point, minDistance) then
        Placement(stars, attempts + 1, k + c.draws, target, shape, w, h, minDistance, src, m)
      else
        Placement(stars + [c.point], attempts + 1, k + c.draws, target, shape, w, h, minDistance, src, m)
    else
      Placed(stars, attempts, k)
  }

  /** One round of the placement loop: draw a candidate, keep it unless it is too close. */
  lemma PlacementStep(stars: seq<Point2>, attempts: nat, k: nat, target: nat, shape: Shape, w: real, h: real,
                      minDistance: real, src: nat -> real, m: MathLib, p: Point2, k': nat, kept: seq<Point2>,
                      attempts': nat, placed: Placed)
    requires |stars| < target && attempts < MaxAttempts && attempts' == attempts + 1
    requires p == Candidate(shape, w, h, src, k, m).point && k' == k + Candidate(shape, w, h, src, k, m).draws
    requires kept == if TooClose(stars, p, minDistance) then stars else stars + [p]
    requires Placement(stars, attempts, k, target, shape, w, h, minDistance, src, m) == placed
    ensures Placement(kept, attempts', k', target, shape, w, h, minDistance, src, m) == placed
  {
  }

  /** The loop's exit: with StarCount stars placed or the attempts spent, nothing more happens. */
  lemma PlacementExit(stars: seq<Point2>, attempts: nat, k: nat, target: nat, shape: Shape, w: real, h: real,
                      minDistance: real, src: nat -> real, m: MathLib)
    requires !(|stars| < target && attempts < MaxAttempts)
    ensures Placement(stars, attempts, k, target, shape, w, h, minDistance, src, m) == Placed(stars, attempts, k)
  {
  }

  /** Appending a star that is not too close keeps the stars well spaced. */
  lemma WellSpacedAppend(stars: seq<Point2>, p: Point2, minDistance: real)
    requires WellSpaced(stars, minDistance) && !TooClose(stars, p, minDistance)
    ensures WellSpaced(stars + [p], minDistance)
  {
    var s := stars + [p];
    forall i, j | 0 <= i < j < |s|
      ensures minDistance * minDistance <= SqDist(s[i], s[j])
    {
      if j == |stars| {
        assert s[i] == stars[i] && s[j] == p;
      } else {
        assert s[i] == stars[i] && s[j] == stars[j];
      }
    }
  }

  /** One attempt's effect on the kept stars: still well spaced, extended by at most the candidate. */
  lemma KeptStep(stars: seq<Point2>, p: Point2, minDistance: real, kept: seq<Point2>)
    requires WellSpaced(stars, minDistance)
    requires kept == if TooClose(stars, p, minDistance) then stars else stars + [p]
    ensures WellSpaced(kept, minDistance) && stars <= kept && |kept| <= |stars| + 1
  {
    if !TooClose(stars, p, minDistance) {
      WellSpacedAppend(stars, p, minDistance);
    }
  }

  /**
   * What the placement loop guarantees about the kept stars, from a state it
   * can reach: they stay well spaced, are only ever appended to and never
   * outnumber the target.
   */
  lemma {:induction false} PlacementKeeps(stars: seq<Point2>, attempts: nat, k: nat, target: nat, shape: Shape,
                                          w: real, h: real, minDistance: real, src: nat -> real, m: MathLib,
                                          r: Placed)
    requires WellSpaced(stars, minDistance) && |stars| <= target
    requires r == Placement(stars, attempts, k, target, shape, w, h, minDistance, src, m)
    ensures WellSpaced(r.stars, minDistance)
    ensures stars <= r.stars
    ensures |r.stars| <= target
    decreases MaxAttempts - attempts
  {
    if |stars| < target && attempts < MaxAttempts {
      var c := Candidate(shape, w, h, src, k, m);
      var kept := if TooClose(stars, c.point, minDistance) then stars else stars + [c.point];
      KeptStep(stars, c.point, minDistance, kept);
      PlacementStep(stars, attempts, k, target, shape, w, h, minDistance, src, m, c.point, k + c.draws, kept,
                    attempts + 1, r);
      PlacementKeeps(kept, attempts + 1, k + c.draws, target, shape, w, h, minDistance, src, m, r);
    } else {
      PlacementExit(stars, attempts, k, target, shape, w, h, minDistance, src, m);
    }
  }

  /**
   * What the placement loop guarantees about its counters: no more stars than
   * attempts, the attempts within the budget of 50000, two draws per attempt
   * (none for an undefined shape), and an exit only with all stars placed or
   * the budget spent.
   */
  lemma {:induction false} PlacementCounts(stars: seq<Point2>, attempts: nat, k: nat, target: nat, shape: Shape,
                                           w: real, h: real, minDistance: real, src: nat -> real, m: MathLib,
                                           r: Placed)
    requires |stars| <= attempts <= MaxAttempts && |stars| <= target
    requires r == Placement(stars, attempts, k, target, shape, w, h, minDistance, src, m)
    ensures |r.stars| <= r.attempts <= MaxAttempts
    ensures attempts <= r.attempts
    ensures |r.stars| == target || r.attempts == MaxAttempts
    ensures r.next == k + (if shape == Undefined then 0 else 2 * (r.attempts - attempts))
    decreases MaxAttempts - attempts
  {
    if |stars| < target && attempts < MaxAttempts {
      var c := Candidate(shape, w, h, src, k, m);
      var kept := if TooClose(stars, c.point, minDistance) then stars else stars + [c.point];
      PlacementStep(stars, attempts, k, target, shape, w, h, minDistance, src, m, c.point, k + c.draws, kept,
                    attempts + 1, r);
      PlacementCounts(kept, attempts + 1, k + c.draws, target, shape, w, h, minDistance, src, m, r);
      assert c.draws == if shape == Undefined then 0 else 2;
    } else {
      PlacementExit(stars, attempts, k, target, shape, w, h, minDistance, src, m);
    }
  }

  /** The loop from an empty list: the first candidate is always kept when a star is wanted. */
  lemma FirstCandidateKept(target: nat, shape: Shape, w: real, h: real, minDistance: real, src: nat -> real,
                           k: nat, m: MathLib, p: Point2, k': nat)
    requires 0 < target
    requires p == Candidate(shape, w, h, src, k, m).point && k' == k + Candidate(shape, w, h, src, k, m).draws
    ensures Placement([], 0, k, target, shape, w, h, minDistance, src, m)
            == Placement([p], 1, k', target, shape, w, h, minDistance, src, m)
  {
    var none: seq<Point2> := [];
    assert [p] == if TooClose(none, p, minDistance) then none else none + [p] by {
      assert !TooClose(none, p, minDistance);
      assert none + [p] == [p];
    }
    PlacementStep(none, 0, k, target, shape, w, h, minDistance, src, m, p, k', [p], 1,
                  Placement(none, 0, k, target, shape, w, h, minDistance, src, m));
  }

  /** One saved line: the kept star with z = (u - 0.5) * Thickness. */
  function SavedStar(p: Point2, u: real, thickness: real): Point3 {
    Point3(p.x, p.y, Centered(u, thickness))
  }

  /** The saved stars, one draw each from src(k) on. */
  function Saved(stars: seq<Point2>, thickness: real, src: nat -> real, k: nat): seq<Point3> {
    seq(|stars|, i requires 0 <= i < |stars| => SavedStar(stars[i], src(k + i), thickness))
  }

  lemma SavedSnoc(stars: seq<Point2>, i: nat, thickness: real, src: nat -> real, k: nat)
    requires i < |stars|
    ensures Saved(stars[..i + 1], thickness, src, k)
            == Saved(stars[..i], thickness, src, k) + [SavedStar(stars[i], src(k + i), thickness)]
  {
  }

  /** Every kept star is saved in order, at its own x and y, with z in [-Thickness/2, Thickness/2). */
  lemma SavedLayout(stars: seq<Point2>, thickness: real, src: nat -> real, k: nat)
    requires Uniform(src) && 0.0 < thickness
    ensures |Saved(stars, thickness, src, k)| == |stars|
    ensures forall i :: 0 <= i < |stars| ==>
      var p := Saved(stars, thickness, src, k)[i];
      p.x == stars[i].x && p.y == stars[i].y && -thickness / 2.0 <= p.z < thickness / 2.0
  {
    forall i | 0 <= i < |stars|
      ensures -thickness / 2.0 <= Saved(stars, thickness, src, k)[i].z < thickness / 2.0
    {
      BandBounds(src(k + i), thickness);
    }
  }

  class Generator2 {
    var starCount: nat
    var minDistance: real
    var thickness: real
    var mapShape: Shape
    /** The kept stars of the last Generate. */
    var stars: seq<Point2>
    const rng: Random
    const math: MathLib

    /** The defaults: 60 stars at least 3 apart, thickness 4, a circle. */
    constructor (rng: Random, math: MathLib)
      ensures starCount == 60 && minDistance == 3.0 && thickness == 4.0 && mapShape == Circle
      ensures stars == [] && this.rng == rng && this.math == math
    {
      starCount := 60;
      minDistance := 3.0;
      thickness := 4.0;
      mapShape := Circle;
      stars := [];
      this.rng := rng;
      this.math := math;
    }

    /** GenerateCandidate, drawing from the generator's Random. */
    method GenerateCandidate(w: real, h: real) returns (p: Point2)
      modifies rng
      ensures p == Candidate(mapShape, w, h, rng.source, old(rng.next), math).point
      ensures rng.next == old(rng.next) + Candidate(mapShape, w, h, rng.source, old(rng.next), math).draws
    {
      match mapShape {
        case Rectangle =>
          var u1 := rng.NextDouble();
          var u2 := rng.NextDouble();
          p := RectanglePoint(u1, u2, w, h);
        case Circle =>
          var u1 := rng.NextDouble();
          var u2 := rng.NextDouble();
          p := CirclePoint(u1, u2, w / 2.0, math);
        case Ellipse =>
          var u1 := rng.NextDouble();
          var u2 := rng.NextDouble();
          p := EllipsePoint(u1, u2, w / 2.0, h / 2.0, math);
        case Undefined =>
          p := Point2(0.0, 0.0);
      }
    }

    /** The scan over the kept stars; true at the first one closer than MinDistance. */
    method IsTooClose(x: real, y: real) returns (b: bool)
      ensures b == TooClose(stars, Point2(x, y), minDistance)
      ensures |stars| == 0 ==> !b
    {
      for i := 0 to |stars|
        invariant forall j :: 0 <= j < i ==> !(SqDist(stars[j], Point2(x, y)) < minDistance * minDistance)
      {
        var s := stars[i];
        var dx := s.x - x;
        var dy := s.y - y;
        if dx * dx + dy * dy < minDistance * minDistance {
          assert SqDist(stars[i], Point2(x, y)) < minDistance * minDistance;
          return true;
        }
      }
      return false;
    }

    /** The placement loop of Generate, from an empty list, in a map of the given width and height. */
    method PlaceStars(width: real, height: real)
      modifies this`stars, rng
      ensures var placed := Placement([], 0, old(rng.next), starCount, mapShape, width, height, minDistance,
                                      rng.source, math);
              stars == placed.stars && rng.next == placed.next
    {
      stars := [];
      ghost var k0 := rng.next;
      ghost var target, shape, d, src := starCount, mapShape, minDistance, rng.source;
      ghost var placed := Placement([], 0, k0, target, shape, width, height, d, src, math);
      var attempts := 0;
      while |stars| < starCount && attempts < MaxAttempts
        invariant attempts <= MaxAttempts
        invariant Placement(stars, attempts, rng.next, target, shape, width, height, d, src, math) == placed
        decreases MaxAttempts - attempts
      {
        ghost var k, before, tried := rng.next, stars, attempts;
        TryCandidate(width, height);
        attempts := attempts + 1;
        ghost var c := Candidate(shape, width, height, src, k, math);
        PlacementStep(before, tried, k, target, shape, width, height, d, src, math, c.point, rng.next, stars,
                      attempts, placed);
      }
      PlacementExit(stars, attempts, rng.next, target, shape, width, height, d, src, math);
    }

    /** One attempt of the placement loop: draw a candidate and keep it unless it is too close. */
    method TryCandidate(width: real, height: real)
      modifies this`stars, rng
      ensures var c := Candidate(mapShape, width, height, rng.source, old(rng.next), math);
              && rng.next == old(rng.next) + c.draws
              && stars == if TooClose(old(stars), c.point, minDistance) then old(stars) else old(stars) + [c.point]
    {
      var p := GenerateCandidate(width, height);
      var close := IsTooClose(p.x, p.y);
      if close {
        return;
      }
      stars := stars + [p];
    }

    /** The saving loop of Generate: one height draw per kept star, in order. */
    method SaveStars() returns (lines: seq<Point3>)
      modifies rng
      ensures lines == Saved(stars, thickness, rng.source, old(rng.next))
      ensures rng.next == old(rng.next) + |stars|
    {
      ghost var k1 := rng.next;
      lines := [];
      for i := 0 to |stars|
        invariant rng.next == k1 + i
        invariant lines == Saved(stars[..i], thickness, rng.source, k1)
      {
        var s := stars[i];
        ghost var k := rng.next;
        var u := rng.NextDouble();
        var z := Centered(u, thickness);
        assert k == k1 + i && u == rng.source(k);
        SavedSnoc(stars, i, thickness, rng.source, k1);
        lines := lines + [Point3(s.x, s.y, z)];
      }
      assert stars[..|stars|] == stars;
    }

    /**
     * Generate: the file name, whether the warning is printed, and the saved
     * stars. The kept stars are the exit state of the placement loop from an
     * empty list; then one draw per kept star gives its height.
     */
    method Generate(name: string, number: Option<int>) returns (fileName: string, warning: bool, lines: seq<Point3>)
      modifies this`stars, rng
      ensures var size := MapSize(mapShape, minDistance, starCount, math);
              var placed := Placement([], 0, old(rng.next), starCount, mapShape, size.width, size.height,
                                      minDistance, rng.source, math);
              && stars == placed.stars
              && lines == Saved(stars, thickness, rng.source, placed.next)
              && rng.next == placed.next + |stars|
      ensures fileName == FileName(name, starCount, number)
      ensures warning <==> |stars| < starCount
    {
      fileName := FileName(name, starCount, number);
      var size := MapSize(mapShape, minDistance, starCount, math);
      PlaceStars(size.width, size.height);
      warning := |stars| < starCount;
      lines := SaveStars();
    }
  }
}
