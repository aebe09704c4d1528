/** Points and the squared-distance arithmetic used by every generator. */
module Geometry {
  import opened Numerics

  /** A 2D star position, (double x, double y) in the rejection generator. */
  datatype Point2 = Point2(x: real, y: real)

  /** A 3D star position, (double x, double y, double z). */
  datatype Point3 = Point3(x: real, y: real, z: real)

  function NormSq(p: Point3): real { p.x * p.x + p.y * p.y + p.z * p.z }

  /** The Euclidean norm, Math.Sqrt(x*x + y*y + z*z). */
  function Norm(p: Point3, m: MathLib): real { m.sqrt(NormSq(p)) }

  function Sub(a: Point3, b: Point3): Point3 { Point3(a.x - b.x, a.y - b.y, a.z - b.z) }

  function Add(a: Point3, b: Point3): Point3 { Point3(a.x + b.x, a.y + b.y, a.z + b.z) }

  /** Every coordinate multiplied by the same factor. */
  function Scale(p: Point3, f: real): Point3 { Point3(p.x * f, p.y * f, p.z * f) }

  function DistSq(a: Point3, b: Point3): real { NormSq(Sub(a, b)) }

  lemma NormSqNonNegative(p: Point3)
    ensures 0.0 <= NormSq(p)
  {
  }

  /** Scaling a vector by f scales its squared norm by f*f. */
  lemma NormSqScale(p: Point3, f: real)
    ensures NormSq(Scale(p, f)) == f * f * NormSq(p)
  {
    assert (p.x * f) * (p.x * f) == f * f * (p.x * p.x);
    assert (p.y * f) * (p.y * f) == f * f * (p.y * p.y);
    assert (p.z * f) * (p.z * f) == f * f * (p.z * p.z);
  }
}
