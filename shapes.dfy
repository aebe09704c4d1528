/**
 * The 2D samplers of Generator1 and Generator2: a uniform point in a
 * rectangle, in a disk (square root of a draw times the radius, and a uniform
 * angle) and in an ellipse (the disk sampler stretched by the two semi-axes).
 * Each takes its two draws u1 and u2 in the order the source draws them.
 */
module Shapes {
  import opened Numerics
  import opened Geometry

  /**
   * The map shapes. Undefined stands for an enum value outside the three named
   * ones, which the switch statements send to their default branch.
   */
  datatype Shape = Rectangle | Circle | Ellipse | Undefined

  /** ((u1 - 0.5) * w, (u2 - 0.5) * h), the rectangle candidate. */
  function RectanglePoint(u1: real, u2: real, w: real, h: real): Point2 {
    Point2(Centered(u1, w), Centered(u2, h))
  }

  /** GenerateCircle: r = Math.Sqrt(u1) * radius, angle = u2 * PI * 2, (r cos, r sin). */
  function CirclePoint(u1: real, u2: real, radius: real, m: MathLib): Point2 {
    var r := m.sqrt(u1) * radius;
    var angle := u2 * PI * 2.0;
    Point2(r * m.cos(angle), r * m.sin(angle))
  }

  /** GenerateEllipse: r = Math.Sqrt(u1), angle = u2 * PI * 2, (r a cos, r b sin). */
  function EllipsePoint(u1: real, u2: real, a: real, b: real, m: MathLib): Point2 {
    var r := m.sqrt(u1);
    var angle := u2 * PI * 2.0;
    Point2(r * a * m.cos(angle), r * b * m.sin(angle))
  }

  predicate InRectangle(p: Point2, w: real, h: real) {
    -w / 2.0 <= p.x < w / 2.0 && -h / 2.0 <= p.y < h / 2.0
  }

  predicate InCircle(p: Point2, radius: real) {
    p.x * p.x + p.y * p.y <= radius * radius
  }

  predicate InEllipse(p: Point2, a: real, b: real)
    requires a != 0.0 && b != 0.0
  {
    (p.x / a) * (p.x / a) + (p.y / b) * (p.y / b) < 1.0
  }

  /** A rectangle point lies in [-w/2, w/2) x [-h/2, h/2). */
  lemma RectanglePointInside(u1: real, u2: real, w: real, h: real)
    requires 0.0 <= u1 < 1.0 && 0.0 <= u2 < 1.0 && 0.0 < w && 0.0 < h
    ensures InRectangle(RectanglePoint(u1, u2, w, h), w, h)
  {
    BandBounds(u1, w);
    BandBounds(u2, h);
  }

  /** A circle point lies in the closed disk: x^2 + y^2 <= radius^2. */
  lemma CirclePointInside(u1: real, u2: real, radius: real, m: MathLib)
    requires m.SqrtLaw() && m.TrigLaw() && 0.0 <= u1 < 1.0
    ensures InCircle(CirclePoint(u1, u2, radius, m), radius)
  {
    var angle := u2 * PI * 2.0;
    PolarBound(m.sqrt(u1), m.cos(angle), m.sin(angle), u1, radius);
  }

  /** ((q R) c)^2 + ((q R) s)^2 == u R^2 <= R^2 when c^2 + s^2 == 1 and q^2 == u in [0,1]. */
  lemma PolarBound(q: real, c: real, s: real, u: real, radius: real)
    requires c * c + s * s == 1.0 && q * q == u && 0.0 <= u <= 1.0
    ensures ((q * radius) * c) * ((q * radius) * c) + ((q * radius) * s) * ((q * radius) * s) <= radius * radius
  {
    var w := radius * radius;
    SquareNonNegative(radius);
    calc {
      ((q * radius) * c) * ((q * radius) * c) + ((q * radius) * s) * ((q * radius) * s);
    ==
      (q * q) * (c * c + s * s) * w;
    ==
      u * w;
    <= { MulNonNegative(1.0 - u, w); }
      w;
    }
  }

  /** An ellipse point lies strictly inside the ellipse of semi-axes a and b. */
  lemma EllipsePointInside(u1: real, u2: real, a: real, b: real, m: MathLib)
    requires m.SqrtLaw() && m.TrigLaw() && 0.0 <= u1 < 1.0 && a != 0.0 && b != 0.0
    ensures InEllipse(EllipsePoint(u1, u2, a, b, m), a, b)
  {
    var p := EllipsePoint(u1, u2, a, b, m);
    var angle := u2 * PI * 2.0;
    var q, c, s := m.sqrt(u1), m.cos(angle), m.sin(angle);
    assert p == Point2(q * a * c, q * b * s);
    calc {
      (p.x / a) * (p.x / a) + (p.y / b) * (p.y / b);
    ==
      ((q * a * c) / a) * ((q * a * c) / a) + ((q * b * s) / b) * ((q * b * s) / b);
    < { EllipseBound(q, c, s, u1, a, b); }
      1.0;
    }
  }

  /** ((q a c)/a)^2 + ((q b s)/b)^2 == q^2 == u < 1 when c^2 + s^2 == 1. */
  lemma EllipseBound(q: real, c: real, s: real, u: real, a: real, b: real)
    requires c * c + s * s == 1.0 && q * q == u && 0.0 <= u < 1.0 && a != 0.0 && b != 0.0
    ensures ((q * a * c) / a) * ((q * a * c) / a) + ((q * b * s) / b) * ((q * b * s) / b) < 1.0
  {
    assert (q * a * c) / a == q * c;
    assert (q * b * s) / b == q * s;
    calc {
      ((q * a * c) / a) * ((q * a * c) / a) + ((q * b * s) / b) * ((q * b * s) / b);
    ==
      (q * c) * (q * c) + (q * s) * (q * s);
    ==
      (q * q) * (c * c + s * s);
    ==
      u;
    <
      1.0;
    }
  }
}
