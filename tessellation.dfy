/** The row tessellator: level + 1 points along one quadratic curve, with both end
    points copied from the control points rather than evaluated. */
module Tessellation {
  import opened Curve

  /** The step between consecutive parameters, 1/level. At level 0 the original's
      single-precision division yields +infinity; that value is never used, because
      no interior point is evaluated at that level, so any value stands for it here. */
  function StepDelta(level: int): real
  {
    if level == 0 then 0.0 else 1.0 / level as real
  }

  /** The parameter of the k-th point: k accumulated steps of StepDelta(level). */
  function StepAt(level: int, k: int): (r: real)
    ensures level != 0 ==> r == k as real / level as real
  {
    k as real * StepDelta(level)
  }

  /** Accumulating one more step moves to the next parameter. */
  lemma StepNext(level: int, k: int)
    ensures StepAt(level, k) + StepDelta(level) == StepAt(level, k + 1)
  {
    assert (k + 1) as real * StepDelta(level) == k as real * StepDelta(level) + StepDelta(level);
  }

  /** The number of interior points: the original's counting loop runs level - 1 times,
      which is no time at all when level <= 1. */
  function InteriorCount(level: int): nat
  {
    if level >= 2 then level - 1 else 0
  }

  /** The points a tessellation of one curve appends: p0 copied, the curve at
      1/level, 2/level, ..., (level-1)/level, then p2 copied. `curve` is the
      evaluator of the channel (CurvePoint for positions, CurvePointUV for UVs). */
  function Row<P>(level: int, p0: P, p1: P, p2: P, curve: (real, P, P, P) -> P): (r: seq<P>)
    ensures |r| == InteriorCount(level) + 2
    ensures r[0] == p0 && r[|r| - 1] == p2
  {
    [p0] + seq(InteriorCount(level), k => curve(StepAt(level, k + 1), p0, p1, p2)) + [p2]
  }

  /** For every valid level the row has exactly level + 1 points. */
  lemma RowLength<P>(level: int, p0: P, p1: P, p2: P, curve: (real, P, P, P) -> P)
    requires level >= 1
    ensures |Row(level, p0, p1, p2, curve)| == level + 1
  {
  }

  /** At level 1 or below no interior point is evaluated and the row is just the two
      copied end points; at level 0 that is two points, not level + 1. */
  lemma RowDegenerate<P>(level: int, p0: P, p1: P, p2: P, curve: (real, P, P, P) -> P)
    requires level <= 1
    ensures Row(level, p0, p1, p2, curve) == [p0, p2]
  {
  }

  /** With an evaluator that meets its end points, the row is the curve sampled at
      k / level for k = 0 .. level: copying the end points agrees with evaluating them. */
  lemma RowSamplesCurve<P>(level: int, p0: P, p1: P, p2: P, curve: (real, P, P, P) -> P)
    requires level >= 1
    requires curve(0.0, p0, p1, p2) == p0 && curve(1.0, p0, p1, p2) == p2
    ensures forall k :: 0 <= k <= level ==>
      Row(level, p0, p1, p2, curve)[k] == curve(k as real / level as real, p0, p1, p2)
  {
    var r := Row(level, p0, p1, p2, curve);
    forall k | 0 <= k <= level
      ensures r[k] == curve(k as real / level as real, p0, p1, p2)
    {
      assert StepAt(level, k) == k as real / level as real;
      if k == level {
        assert k as real / level as real == 1.0;
      }
    }
  }

  /** Appends the tessellated positions of the curve p0, p1, p2 to `appendList`. */
  method Tessellate(level: int, p0: Vec3, p1: Vec3, p2: Vec3, appendList: seq<Vec3>)
    returns (out: seq<Vec3>)
    ensures out == appendList + Row(level, p0, p1, p2, CurvePoint)
    ensures out[..|appendList|] == appendList
    ensures level >= 1 ==> |out| == |appendList| + level + 1
    ensures level <= 1 ==> |out| == |appendList| + 2
    ensures out[|appendList|] == p0 && out[|out| - 1] == p2
  {
    var stepDelta := StepDelta(level);
    var step := stepDelta;
    out := appendList + [p0];
    var i := 0;
    while i < level - 1
      invariant 0 <= i <= InteriorCount(level)
      invariant step == StepAt(level, i + 1)
      invariant out == appendList + [p0] + seq(i, k => CurvePoint(StepAt(level, k + 1), p0, p1, p2))
    {
      var bezPoint := BezCurve(step, p0, p1, p2);
      out := out + [bezPoint];
      StepNext(level, i + 1);
      step := step + stepDelta;
      i := i + 1;
    }
    out := out + [p2];
  }

  /** Appends the tessellated texture coordinates of the curve p0, p1, p2 to `appendList`. */
  method TessellateUV(level: int, p0: Vec2, p1: Vec2, p2: Vec2, appendList: seq<Vec2>)
    returns (out: seq<Vec2>)
    ensures out == appendList + Row(level, p0, p1, p2, CurvePointUV)
    ensures out[..|appendList|] == appendList
    ensures level >= 1 ==> |out| == |appendList| + level + 1
    ensures level <= 1 ==> |out| == |appendList| + 2
    ensures out[|appendList|] == p0 && out[|out| - 1] == p2
  {
    var stepDelta := StepDelta(level);
    var step := stepDelta;
    out := appendList + [p0];
    var i := 0;
    while i < level - 1
      invariant 0 <= i <= InteriorCount(level)
      invariant step == StepAt(level, i + 1)
      invariant out == appendList + [p0] + seq(i, k => CurvePointUV(StepAt(level, k + 1), p0, p1, p2))
    {
      var bezPoint := BezCurveUV(step, p0, p1, p2);
      out := out + [bezPoint];
      StepNext(level, i + 1);
      step := step + stepDelta;
      i := i + 1;
    }
    out := out + [p2];
  }
}
