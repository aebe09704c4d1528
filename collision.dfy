/**
 * The pieces of Generator6.GenerateCollidingGalaxies that are not galaxy
 * generation itself: the maximum-norm radius of a generated galaxy
 * (EstimateRadius over a list), the distance between the two centres, and the
 * rotation of the second galaxy about the X axis followed by its shift along X.
 */
module Collision {
  import opened Numerics
  import opened Geometry

  /**
   * EstimateRadius(list): the largest norm, scanning the list in order from
   * 0.0 and keeping a norm only when it is strictly larger.
   */
  function MaxNorm(s: seq<Point3>, m: MathLib): real
  {
    if |s| == 0 then
      0.0
    else
      var prev := MaxNorm(s[..|s| - 1], m);
      var r := Norm(s[|s| - 1], m);
      if r > prev then r else prev
  }

  /** The scan itself. */
  method EstimateRadiusOf(s: seq<Point3>, m: MathLib) returns (maxDist: real)
    ensures maxDist == MaxNorm(s, m)
  {
    maxDist := 0.0;
    for i := 0 to |s|
      invariant maxDist == MaxNorm(s[..i], m)
    {
      var star := s[i];
      var r := Norm(star, m);
      if r > maxDist {
        maxDist := r;
      }
      assert s[..i + 1][..i] == s[..i];
    }
    assert s[..|s|] == s;
  }

  /** The result is at least every star's norm, is never negative, and is 0.0 for an empty list. */
  lemma {:induction false} MaxNormBounds(s: seq<Point3>, m: MathLib)
    ensures 0.0 <= MaxNorm(s, m)
    ensures forall i :: 0 <= i < |s| ==> Norm(s[i], m) <= MaxNorm(s, m)
    ensures |s| == 0 ==> MaxNorm(s, m) == 0.0
  {
    if |s| > 0 {
      var init := s[..|s| - 1];
      MaxNormBounds(init, m);
      forall i | 0 <= i < |s| - 1
        ensures Norm(s[i], m) <= MaxNorm(s, m)
      {
        assert s[i] == init[i];
      }
    }
  }

  /** For a non-empty list, the result is the norm of one of its stars. */
  lemma {:induction false} MaxNormAttained(s: seq<Point3>, m: MathLib)
    requires m.SqrtLaw() && |s| > 0
    ensures exists i :: 0 <= i < |s| && MaxNorm(s, m) == Norm(s[i], m)
  {
    var last := |s| - 1;
    var init := s[..last];
    if Norm(s[last], m) > MaxNorm(init, m) {
      assert MaxNorm(s, m) == Norm(s[last], m);
    } else if |init| == 0 {
      NormSqNonNegative(s[last]);
      assert MaxNorm(s, m) == Norm(s[last], m);
    } else {
      MaxNormAttained(init, m);
      var i :| 0 <= i < |init| && MaxNorm(init, m) == Norm(init[i], m);
      assert init[i] == s[i];
    }
  }

  /**
   * The distance between the two centres, (1 - CollisionStage) * (radius1 + radius2):
   * 0 at stage 1, the sum of the radii at stage 0, and never negative for a
   * stage up to 1 and non-negative radii.
   */
  function Separation(stage: real, radius1: real, radius2: real): (d: real)
    ensures stage == 1.0 ==> d == 0.0
    ensures stage == 0.0 ==> d == radius1 + radius2
    ensures stage <= 1.0 && 0.0 <= radius1 && 0.0 <= radius2 ==> 0.0 <= d
  {
    FactorCases(1.0 - stage, radius1 + radius2);
    (1.0 - stage) * (radius1 + radius2)
  }

  /** CollisionTiltDegrees * Math.PI / 180.0. */
  function TiltRadians(degrees: real): real {
    degrees * PI / 180.0
  }

  /** One star of the second galaxy: rotated about X by (cos, sin), then moved by the collision vector (d, 0, 0). */
  function RotateShift(p: Point3, d: real, cos: real, sin: real): Point3 {
    Add(Point3(p.x, p.y * cos - p.z * sin, p.y * sin + p.z * cos), Point3(d, 0.0, 0.0))
  }

  /** The whole second galaxy after the loop. */
  function Transformed(g: seq<Point3>, d: real, cos: real, sin: real): seq<Point3> {
    seq(|g|, i requires 0 <= i < |g| => RotateShift(g[i], d, cos, sin))
  }

  /** The loop over galaxy2, rewriting each element in place. */
  method RotateGalaxy(g: seq<Point3>, d: real, cos: real, sin: real) returns (r: seq<Point3>)
    ensures r == Transformed(g, d, cos, sin)
  {
    r := g;
    for i := 0 to |r|
      invariant |r| == |g|
      invariant forall k :: 0 <= k < i ==> r[k] == RotateShift(g[k], d, cos, sin)
      invariant forall k :: i <= k < |r| ==> r[k] == g[k]
    {
      var s := r[i];
      var y := s.y * cos - s.z * sin;
      var z := s.y * sin + s.z * cos;
      r := r[i := Add(Point3(s.x, y, z), Point3(d, 0.0, 0.0))];
    }
  }

  /**
   * The rotation keeps a star's distance from the X axis, and x moves by
   * exactly d: y'^2 + z'^2 == y^2 + z^2 whenever cos^2 + sin^2 == 1.
   */
  lemma RotateShiftProperties(p: Point3, d: real, cos: real, sin: real)
    requires cos * cos + sin * sin == 1.0
    ensures RotateShift(p, d, cos, sin).x == p.x + d
    ensures Sq(RotateShift(p, d, cos, sin).y) + Sq(RotateShift(p, d, cos, sin).z) == Sq(p.y) + Sq(p.z)
  {
    var y := p.y;
    var z := p.z;
    calc {
      Sq(RotateShift(p, d, cos, sin).y) + Sq(RotateShift(p, d, cos, sin).z);
    ==
      (y * cos - z * sin) * (y * cos - z * sin) + (y * sin + z * cos) * (y * sin + z * cos);
    ==
      (y * y + z * z) * (cos * cos + sin * sin);
    ==
      y * y + z * z;
    ==
      Sq(y) + Sq(z);
    }
  }

  /** Every star of the transformed galaxy keeps its distance from the X axis and moves by d along X. */
  lemma TransformedProperties(g: seq<Point3>, d: real, cos: real, sin: real)
    requires cos * cos + sin * sin == 1.0
    ensures |Transformed(g, d, cos, sin)| == |g|
    ensures forall i :: 0 <= i < |g| ==> Transformed(g, d, cos, sin)[i].x == g[i].x + d
    ensures forall i :: 0 <= i < |g| ==>
      Sq(Transformed(g, d, cos, sin)[i].y) + Sq(Transformed(g, d, cos, sin)[i].z) == Sq(g[i].y) + Sq(g[i].z)
  {
    forall i | 0 <= i < |g|
      ensures Transformed(g, d, cos, sin)[i].x == g[i].x + d
      ensures Sq(Transformed(g, d, cos, sin)[i].y) + Sq(Transformed(g, d, cos, sin)[i].z) == Sq(g[i].y) + Sq(g[i].z)
    {
      RotateShiftProperties(g[i], d, cos, sin);
    }
  }
}
