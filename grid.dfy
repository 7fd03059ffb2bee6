/** The two-pass grid of a 3x3 control patch: the three control columns (flat
    indices j, j+3, j+6 for j = 0, 1, 2) are tessellated into intermediate lists,
    then the i-th points of those lists are tessellated again, row after row. */
module PatchGrid {
  import opened Tessellation

  /** The intermediate list p0s, p1s or p2s (for j = 0, 1, 2): the tessellation of
      the control points at flat indices j, j + 3 and j + 6. */
  function Column<P>(level: int, control: seq<P>, j: int, curve: (real, P, P, P) -> P): (r: seq<P>)
    requires |control| >= 9 && 0 <= j < 3
    ensures |r| == InteriorCount(level) + 2
    ensures r[0] == control[j] && r[|r| - 1] == control[j + 6]
  {
    Row(level, control[j], control[j + 3], control[j + 6], curve)
  }

  /** The first n grid rows, row i being the tessellation of ps0[i], ps1[i], ps2[i]. */
  function GridRows<P>(level: int, ps0: seq<P>, ps1: seq<P>, ps2: seq<P>, n: nat,
                       curve: (real, P, P, P) -> P): (r: seq<P>)
    requires n <= |ps0| && n <= |ps1| && n <= |ps2|
    ensures |r| == n * (InteriorCount(level) + 2)
  {
    if n == 0 then []
    else GridRows(level, ps0, ps1, ps2, n - 1, curve) + Row(level, ps0[n - 1], ps1[n - 1], ps2[n - 1], curve)
  }

  /** The number of rows the assembly loop runs: i = 0 .. level inclusive. */
  function RowCount(level: int): nat
  {
    if level >= 0 then level + 1 else 0
  }

  /** The flat row-major grid of one channel of a patch. */
  function Grid<P>(level: int, control: seq<P>, curve: (real, P, P, P) -> P): (r: seq<P>)
    requires |control| >= 9
    ensures |r| == RowCount(level) * (InteriorCount(level) + 2)
  {
    GridRows(level, Column(level, control, 0, curve), Column(level, control, 1, curve),
             Column(level, control, 2, curve), RowCount(level), curve)
  }

  /** Row-major layout: the point in row i, column j sits at flat index i * (level + 1) + j. */
  lemma {:induction false} GridRowsAt<P>(level: int, ps0: seq<P>, ps1: seq<P>, ps2: seq<P>, n: nat,
                                         curve: (real, P, P, P) -> P, i: nat, j: nat)
    requires level >= 1
    requires n <= |ps0| && n <= |ps1| && n <= |ps2|
    requires i < n && j <= level
    ensures |GridRows(level, ps0, ps1, ps2, n, curve)| == n * (level + 1)
    ensures i * (level + 1) + j < n * (level + 1)
    ensures GridRows(level, ps0, ps1, ps2, n, curve)[i * (level + 1) + j]
            == Row(level, ps0[i], ps1[i], ps2[i], curve)[j]
  {
    RowLength(level, ps0[n - 1], ps1[n - 1], ps2[n - 1], curve);
    var w := level + 1;
    assert (n - 1) * w + w == n * w;
    if i < n - 1 {
      GridRowsAt(level, ps0, ps1, ps2, n - 1, curve, i, j);
    } else {
      assert i * w + j == (n - 1) * w + j;
    }
  }

  /** The grid has (level + 1)^2 points. */
  lemma GridLength<P>(level: int, control: seq<P>, curve: (real, P, P, P) -> P)
    requires level >= 1 && |control| >= 9
    ensures |Grid(level, control, curve)| == (level + 1) * (level + 1)
  {
    var c0, c1, c2 := Column(level, control, 0, curve), Column(level, control, 1, curve), Column(level, control, 2, curve);
    RowLength(level, control[0], control[3], control[6], curve);
    RowLength(level, control[1], control[4], control[7], curve);
    RowLength(level, control[2], control[5], control[8], curve);
  }

  /** The point in row i, column j of the grid is the j-th point of the tessellation
      of the i-th points of the three intermediate lists. */
  lemma GridAt<P>(level: int, control: seq<P>, curve: (real, P, P, P) -> P, i: nat, j: nat)
    requires level >= 1 && |control| >= 9
    requires i <= level && j <= level
    ensures |Column(level, control, 0, curve)| == level + 1
    ensures |Column(level, control, 1, curve)| == level + 1
    ensures |Column(level, control, 2, curve)| == level + 1
    ensures |Grid(level, control, curve)| == (level + 1) * (level + 1)
    ensures i * (level + 1) + j < (level + 1) * (level + 1)
    ensures Grid(level, control, curve)[i * (level + 1) + j]
            == Row(level, Column(level, control, 0, curve)[i], Column(level, control, 1, curve)[i],
                   Column(level, control, 2, curve)[i], curve)[j]
  {
    var c0, c1, c2 := Column(level, control, 0, curve), Column(level, control, 1, curve), Column(level, control, 2, curve);
    RowLength(level, control[0], control[3], control[6], curve);
    RowLength(level, control[1], control[4], control[7], curve);
    RowLength(level, control[2], control[5], control[8], curve);
    GridRowsAt(level, c0, c1, c2, level + 1, curve, i, j);
  }

  /** The first and last rows of the grid are exactly the tessellations of the
      patch's boundary curves through control points 0,1,2 and 6,7,8. */
  lemma GridTopBottom<P>(level: int, control: seq<P>, curve: (real, P, P, P) -> P, k: nat)
    requires level >= 1 && |control| >= 9 && k <= level
    ensures |Grid(level, control, curve)| == (level + 1) * (level + 1)
    ensures level * (level + 1) + k < (level + 1) * (level + 1)
    ensures Grid(level, control, curve)[k] == Row(level, control[0], control[1], control[2], curve)[k]
    ensures Grid(level, control, curve)[level * (level + 1) + k]
            == Row(level, control[6], control[7], control[8], curve)[k]
  {
    var c0, c1, c2 := Column(level, control, 0, curve), Column(level, control, 1, curve), Column(level, control, 2, curve);
    RowLength(level, control[0], control[3], control[6], curve);
    RowLength(level, control[1], control[4], control[7], curve);
    RowLength(level, control[2], control[5], control[8], curve);
    assert c0[0] == control[0] && c1[0] == control[1] && c2[0] == control[2];
    assert c0[level] == control[6] && c1[level] == control[7] && c2[level] == control[8];
    GridAt(level, control, curve, 0, k);
    GridAt(level, control, curve, level, k);
  }

  /** The first and last columns of the grid are exactly the tessellations of the
      patch's boundary curves through control points 0,3,6 and 2,5,8. */
  lemma GridLeftRight<P>(level: int, control: seq<P>, curve: (real, P, P, P) -> P, k: nat)
    requires level >= 1 && |control| >= 9 && k <= level
    ensures |Grid(level, control, curve)| == (level + 1) * (level + 1)
    ensures k * (level + 1) + level < (level + 1) * (level + 1)
    ensures Grid(level, control, curve)[k * (level + 1)] == Row(level, control[0], control[3], control[6], curve)[k]
    ensures Grid(level, control, curve)[k * (level + 1) + level]
            == Row(level, control[2], control[5], control[8], curve)[k]
  {
    var c0, c1, c2 := Column(level, control, 0, curve), Column(level, control, 1, curve), Column(level, control, 2, curve);
    RowLength(level, c0[k], c1[k], c2[k], curve);
    GridAt(level, control, curve, k, 0);
    GridAt(level, control, curve, k, level);
  }

  /** The corners of the grid are the corner control points, copied exactly. */
  lemma GridCorners<P>(level: int, control: seq<P>, curve: (real, P, P, P) -> P)
    requires level >= 1 && |control| >= 9
    ensures |Grid(level, control, curve)| == (level + 1) * (level + 1)
    ensures Grid(level, control, curve)[0] == control[0]
    ensures Grid(level, control, curve)[level] == control[2]
    ensures Grid(level, control, curve)[level * (level + 1)] == control[6]
    ensures Grid(level, control, curve)[(level + 1) * (level + 1) - 1] == control[8]
  {
    GridTopBottom(level, control, curve, 0);
    GridTopBottom(level, control, curve, level);
    RowLength(level, control[0], control[1], control[2], curve);
    RowLength(level, control[6], control[7], control[8], curve);
    assert level * (level + 1) + level == (level + 1) * (level + 1) - 1;
  }

  /** Level 0 is not rejected: each intermediate list still has two points, one grid
      row is built, and the grid is the two copied corners 0 and 2 instead of (0+1)^2 = 1 point. */
  lemma GridLevelZero<P>(control: seq<P>, curve: (real, P, P, P) -> P)
    requires |control| >= 9
    ensures Grid(0, control, curve) == [control[0], control[2]]
  {
    var c0, c1, c2 := Column(0, control, 0, curve), Column(0, control, 1, curve), Column(0, control, 2, curve);
    RowDegenerate(0, control[0], control[3], control[6], curve);
    RowDegenerate(0, control[1], control[4], control[7], curve);
    RowDegenerate(0, control[2], control[5], control[8], curve);
    RowDegenerate(0, c0[0], c1[0], c2[0], curve);
    assert GridRows(0, c0, c1, c2, 1, curve) == [] + Row(0, c0[0], c1[0], c2[0], curve);
  }

  /** Below level 0 the assembly loop does not run and the grid is empty. */
  lemma GridNegativeLevel<P>(level: int, control: seq<P>, curve: (real, P, P, P) -> P)
    requires level < 0 && |control| >= 9
    ensures Grid(level, control, curve) == []
  {
  }
}
