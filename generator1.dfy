/**
 * Generator1: StarCount stars drawn independently in a rectangle, a disk or an
 * ellipse of the given Width and Height, each with a uniform height in
 * [-Thickness/2, Thickness/2). An undefined shape throws "Unknown shape" at
 * the first star.
 */
module Generator1 {
  import opened Wrappers
  import opened Numerics
  import opened Geometry
  import opened Randomness
  import opened Shapes

  /** GenerateXY on the draws src(k) and src(k+1); every defined shape takes exactly two. */
  function XY(shape: Shape, width: real, height: real, src: nat -> real, k: nat, m: MathLib)
    : Result<Point2, string>
  {
    match shape
    case Rectangle => Success(RectanglePoint(src(k), src(k + 1), width, height))
    case Circle => Success(CirclePoint(src(k), src(k + 1), width / 2.0, m))
    case Ellipse => Success(EllipsePoint(src(k), src(k + 1), width / 2.0, height / 2.0, m))
    case Undefined => Failure("Unknown shape")
  }

  /** Star i of the file, from draws k + 3i .. k + 3i + 2. */
  function Star(shape: Shape, width: real, height: real, thickness: real, src: nat -> real, k: nat, m: MathLib)
    : Point3
    requires shape != Undefined
  {
    var xy := XY(shape, width, height, src, k, m).value;
    Point3(xy.x, xy.y, Centered(src(k + 2), thickness))
  }

  /** The first n stars of a defined shape, the first from draw k. */
  function Stars(shape: Shape, width: real, height: real, thickness: real, src: nat -> real, k: nat, n: nat,
                 m: MathLib): seq<Point3>
    requires shape != Undefined
  {
    seq(n, i requires 0 <= i < n => Star(shape, width, height, thickness, src, k + 3 * i, m))
  }

  lemma StarsSnoc(shape: Shape, width: real, height: real, thickness: real, src: nat -> real, k: nat, n: nat,
                  m: MathLib)
    requires shape != Undefined
    ensures Stars(shape, width, height, thickness, src, k, n + 1, m)
            == Stars(shape, width, height, thickness, src, k, n, m) + [Star(shape, width, height, thickness, src, k + 3 * n, m)]
  {
  }

  /** What Generate writes: n stars, or the exception for an undefined shape when there is a star to write. */
  function Emitted(shape: Shape, width: real, height: real, thickness: real, src: nat -> real, k: nat, n: nat,
                   m: MathLib): Result<seq<Point3>, string>
  {
    if shape == Undefined then
      if n == 0 then Success([]) else Failure("Unknown shape")
    else
      Success(Stars(shape, width, height, thickness, src, k, n, m))
  }

  class Generator1 {
    var starCount: nat
    var width: real
    var height: real
    var thickness: real
    var mapShape: Shape
    const rng: Random
    const math: MathLib

    /** The defaults: 60 stars in a circle of width 40 and height 40, thickness 3. */
    constructor (rng: Random, math: MathLib)
      ensures starCount == 60 && width == 40.0 && height == 40.0 && thickness == 3.0
      ensures mapShape == Circle
      ensures this.rng == rng && this.math == math
    {
      starCount := 60;
      width := 40.0;
      height := 40.0;
      thickness := 3.0;
      mapShape := Circle;
      this.rng := rng;
      this.math := math;
    }

    /** GenerateXY, drawing from the generator's Random. */
    method GenerateXY() returns (r: Result<Point2, string>)
      modifies rng
      ensures r == XY(mapShape, width, height, rng.source, old(rng.next), math)
      ensures rng.next == old(rng.next) + (if r.Success? then 2 else 0)
    {
      match mapShape {
        case Rectangle =>
          var u1 := rng.NextDouble();
          var u2 := rng.NextDouble();
          r := Success(RectanglePoint(u1, u2, width, height));
        case Circle =>
          var u1 := rng.NextDouble();
          var u2 := rng.NextDouble();
          r := Success(CirclePoint(u1, u2, width / 2.0, math));
        case Ellipse =>
          var u1 := rng.NextDouble();
          var u2 := rng.NextDouble();
          r := Success(EllipsePoint(u1, u2, width / 2.0, height / 2.0, math));
        case Undefined =>
          r := Failure("Unknown shape");
      }
    }

    /** The loop of Generate: one star per iteration, its x and y first, then its z. */
    method Generate() returns (r: Result<seq<Point3>, string>)
      modifies rng
      ensures r == Emitted(mapShape, width, height, thickness, rng.source, old(rng.next), starCount, math)
      ensures r.Success? ==> rng.next == old(rng.next) + 3 * starCount
    {
      ghost var k0 := rng.next;
      var lines: seq<Point3> := [];
      for i := 0 to starCount
        invariant rng.next == k0 + 3 * i
        invariant mapShape != Undefined || (i == 0 && lines == [])
        invariant mapShape != Undefined ==> lines == Stars(mapShape, width, height, thickness, rng.source, k0, i, math)
      {
        var star := GenerateStar();
        if star.Failure? {
          return Failure(star.error);
        }
        StarsSnoc(mapShape, width, height, thickness, rng.source, k0, i, math);
        lines := lines + [star.value];
      }
      return Success(lines);
    }

    /** One iteration of Generate's loop: x and y from GenerateXY, then z from a third draw. */
    method GenerateStar() returns (r: Result<Point3, string>)
      modifies rng
      ensures r.Success? <==> mapShape != Undefined
      ensures r.Failure? ==> r.error == "Unknown shape" && rng.next == old(rng.next)
      ensures r.Success? ==>
        r.value == Star(mapShape, width, height, thickness, rng.source, old(rng.next), math)
        && rng.next == old(rng.next) + 3
    {
      var xy := GenerateXY();
      if xy.Failure? {
        return Failure(xy.error);
      }
      var u := rng.NextDouble();
      var z := Centered(u, thickness);
      r := Success(Point3(xy.value.x, xy.value.y, z));
    }
  }

  /**
   * Generate writes exactly StarCount stars unless the shape is undefined,
   * in which case it fails as soon as there is a star to write.
   */
  lemma EmittedCount(shape: Shape, width: real, height: real, thickness: real, src: nat -> real, k: nat, n: nat,
                     m: MathLib)
    ensures Emitted(shape, width, height, thickness, src, k, n, m).Success? <==> shape != Undefined || n == 0
    ensures Emitted(shape, width, height, thickness, src, k, n, m).Success? ==>
      |Emitted(shape, width, height, thickness, src, k, n, m).value| == n
    ensures Emitted(shape, width, height, thickness, src, k, n, m).Failure? ==>
      Emitted(shape, width, height, thickness, src, k, n, m).error == "Unknown shape"
  {
  }

  /**
   * Every star of Generator1 lies in its shape: in [-W/2, W/2) x [-H/2, H/2)
   * for a rectangle, in the disk of radius W/2 for a circle, strictly inside
   * the ellipse of semi-axes W/2 and H/2 for an ellipse; and its z lies in
   * [-Thickness/2, Thickness/2).
   */
  lemma EmittedInside(shape: Shape, width: real, height: real, thickness: real, src: nat -> real, k: nat, n: nat,
                      m: MathLib)
    requires Uniform(src) && m.SqrtLaw() && m.TrigLaw()
    requires shape != Undefined && 0.0 < width && 0.0 < height && 0.0 < thickness
    ensures forall i :: 0 <= i < n ==>
      var p := Emitted(shape, width, height, thickness, src, k, n, m).value[i];
      && -thickness / 2.0 <= p.z < thickness / 2.0
      && (shape == Rectangle ==> InRectangle(Point2(p.x, p.y), width, height))
      && (shape == Circle ==> InCircle(Point2(p.x, p.y), width / 2.0))
      && (shape == Ellipse ==> InEllipse(Point2(p.x, p.y), width / 2.0, height / 2.0))
  {
    forall i | 0 <= i < n
      ensures var p := Emitted(shape, width, height, thickness, src, k, n, m).value[i];
        && -thickness / 2.0 <= p.z < thickness / 2.0
        && (shape == Rectangle ==> InRectangle(Point2(p.x, p.y), width, height))
        && (shape == Circle ==> InCircle(Point2(p.x, p.y), width / 2.0))
        && (shape == Ellipse ==> InEllipse(Point2(p.x, p.y), width / 2.0, height / 2.0))
    {
      var j := k + 3 * i;
      var xy := XY(shape, width, height, src, j, m).value;
      BandBounds(src(j + 2), thickness);
      match shape
      case Rectangle => RectanglePointInside(src(j), src(j + 1), width, height);
      case Circle => CirclePointInside(src(j), src(j + 1), width / 2.0, m);
      case Ellipse => EllipsePointInside(src(j), src(j + 1), width / 2.0, height / 2.0, m);
    }
  }
}
