/** The curve evaluator: a quadratic Bézier curve through control points p0, p1, p2,
    for positions (Vec3) and for texture coordinates (Vec2).

    Components are modelled as mathematical reals; the single-precision rounding of
    the original arithmetic is not modelled. */
module Curve {

  datatype Vec2 = Vec2(x: real, y: real)

  datatype Vec3 = Vec3(x: real, y: real, z: real)

  /** One component of the blend (1-t)^2 c0 + 2(1-t)t c1 + t^2 c2, grouped as the
      original groups it. */
  function Blend(t: real, c0: real, c1: real, c2: real): (r: real)
    ensures t == 0.0 ==> r == c0
    ensures t == 1.0 ==> r == c2
    ensures c0 == c1 == c2 ==> r == c0
  {
    var a := 1.0 - t;
    var tt := t * t;
    assert a * a + 2.0 * a * t + tt == (a + t) * (a + t) == 1.0;
    a * a * c0 + 2.0 * a * (t * c1) + tt * c2
  }

  /** A point at parameter t on the curve from p0 to p2 pulled towards p1.
      t is not range-checked: values outside [0, 1] extrapolate. */
  function CurvePoint(t: real, p0: Vec3, p1: Vec3, p2: Vec3): (r: Vec3)
    ensures t == 0.0 ==> r == p0
    ensures t == 1.0 ==> r == p2
    ensures p0 == p1 == p2 ==> r == p0
  {
    Vec3(Blend(t, p0.x, p1.x, p2.x), Blend(t, p0.y, p1.y, p2.y), Blend(t, p0.z, p1.z, p2.z))
  }

  /** The same curve over two-dimensional texture coordinates. */
  function CurvePointUV(t: real, p0: Vec2, p1: Vec2, p2: Vec2): (r: Vec2)
    ensures t == 0.0 ==> r == p0
    ensures t == 1.0 ==> r == p2
    ensures p0 == p1 == p2 ==> r == p0
  {
    Vec2(Blend(t, p0.x, p1.x, p2.x), Blend(t, p0.y, p1.y, p2.y))
  }

  /** Component i (0 = x, 1 = y, 2 = z) of a position. */
  function Coord3(p: Vec3, i: int): real
    requires 0 <= i < 3
  {
    if i == 0 then p.x else if i == 1 then p.y else p.z
  }

  /** Component i (0 = x, 1 = y) of a texture coordinate. */
  function Coord2(p: Vec2, i: int): real
    requires 0 <= i < 2
  {
    if i == 0 then p.x else p.y
  }

  /** Evaluates the curve one component at a time into a scratch array. */
  method BezCurve(t: real, p0: Vec3, p1: Vec3, p2: Vec3) returns (bezPoint: Vec3)
    ensures bezPoint == CurvePoint(t, p0, p1, p2)
  {
    var a := 1.0 - t;
    var tt := t * t;
    var tPoints := new real[3];
    for i := 0 to 3
      invariant forall k :: 0 <= k < i ==> tPoints[k] == Blend(t, Coord3(p0, k), Coord3(p1, k), Coord3(p2, k))
    {
      tPoints[i] := a * a * Coord3(p0, i) + 2.0 * a * (t * Coord3(p1, i)) + tt * Coord3(p2, i);
    }
    bezPoint := Vec3(tPoints[0], tPoints[1], tPoints[2]);
  }

  /** The same evaluation for texture coordinates, over two components. */
  method BezCurveUV(t: real, p0: Vec2, p1: Vec2, p2: Vec2) returns (bezPoint: Vec2)
    ensures bezPoint == CurvePointUV(t, p0, p1, p2)
  {
    var a := 1.0 - t;
    var tt := t * t;
    var tPoints := new real[2];
    for i := 0 to 2
      invariant forall k :: 0 <= k < i ==> tPoints[k] == Blend(t, Coord2(p0, k), Coord2(p1, k), Coord2(p2, k))
    {
      tPoints[i] := a * a * Coord2(p0, i) + 2.0 * a * (t * Coord2(p1, i)) + tt * Coord2(p2, i);
    }
    bezPoint := Vec2(tPoints[0], tPoints[1]);
  }

  /** At the middle of the curve the weights are 1/4, 1/2 and 1/4. */
  lemma CurveMidpoint(p0: Vec3, p1: Vec3, p2: Vec3)
    ensures CurvePoint(0.5, p0, p1, p2) ==
      Vec3(0.25 * p0.x + 0.5 * p1.x + 0.25 * p2.x,
           0.25 * p0.y + 0.5 * p1.y + 0.25 * p2.y,
           0.25 * p0.z + 0.5 * p1.z + 0.25 * p2.z)
  {
  }

  lemma CurveMidpointUV(p0: Vec2, p1: Vec2, p2: Vec2)
    ensures CurvePointUV(0.5, p0, p1, p2) ==
      Vec2(0.25 * p0.x + 0.5 * p1.x + 0.25 * p2.x,
           0.25 * p0.y + 0.5 * p1.y + 0.25 * p2.y)
  {
  }

  /** Running the curve backwards is the curve of the reversed control points. */
  lemma CurveReversed(t: real, p0: Vec3, p1: Vec3, p2: Vec3)
    ensures CurvePoint(1.0 - t, p2, p1, p0) == CurvePoint(t, p0, p1, p2)
  {
  }
}
