/** The triangle index list of a grid `w` vertices wide, stored row-major.

    The reference definition lists, quad by quad in row-major order, the two
    triangles of each grid quad; the zig-zag loop of the assembler is proved to emit
    exactly this list. */
module TriangleIndices {

  /** The first triangle of the quad whose top-left vertex is `a`: top-left,
      bottom-left, top-right. */
  function LeadingTriangle(a: int, w: int): seq<int>
  {
    [a, a + w, a + 1]
  }

  /** The second triangle of that quad: top-right, bottom-left, bottom-right.
      The two share the diagonal from a + 1 to a + w. */
  function TrailingTriangle(a: int, w: int): seq<int>
  {
    [a + 1, a + w, a + w + 1]
  }

  function QuadTriangles(a: int, w: int): seq<int>
  {
    LeadingTriangle(a, w) + TrailingTriangle(a, w)
  }

  /** The triangles of the first n quads of grid row r. */
  function RowStrip(w: int, r: int, n: nat): seq<int>
  {
    if n == 0 then [] else RowStrip(w, r, n - 1) + QuadTriangles(r * w + n - 1, w)
  }

  /** The triangles of all w - 1 quads of each of the first `rows` grid rows. */
  function QuadStrip(w: int, rows: nat): seq<int>
    requires w >= 1
  {
    if rows == 0 then [] else QuadStrip(w, rows - 1) + RowStrip(w, rows - 1, w - 1)
  }

  /** What the zig-zag loop has emitted when it reaches column c of row r: the full
      rows above, the quads left of column c - 1 in full, and the leading triangle of
      quad c - 1 (whose trailing triangle is emitted at column c). */
  function Emitted(w: int, r: int, c: nat): seq<int>
    requires w >= 1 && r >= 0
  {
    QuadStrip(w, r) + (if c == 0 then [] else RowStrip(w, r, c - 1) + LeadingTriangle(r * w + c - 1, w))
  }

  lemma {:induction false} MulAtLeast(k: int, w: int)
    requires k >= 1 && w >= 1
    ensures k * w >= w
  {
    if k > 1 {
      MulAtLeast(k - 1, w);
      assert k * w == (k - 1) * w + w;
    }
  }

  /** A flat index r * w + c with 0 <= c < w lies in row r, column c. */
  lemma FlatIndex(r: int, c: int, w: int)
    requires w >= 1 && 0 <= c < w
    ensures (r * w + c) / w == r && (r * w + c) % w == c
  {
    var x := r * w + c;
    var q, m := x / w, x % w;
    assert q * w + m == x && 0 <= m < w;
    assert (q - r) * w == c - m;
    if q > r {
      MulAtLeast(q - r, w);
    } else if q < r {
      MulAtLeast(r - q, w);
    }
  }

  /** The left-edge iteration at row r: the leading triangle of the row's first quad. */
  lemma LeftEdgeStep(w: int, r: int, i: int)
    requires w >= 2 && r >= 0 && i == r * w
    ensures i + 1 == r * w + 1 && (i + 1) % w == 1
    ensures Emitted(w, r, 0) + [i, i + w, i + 1] == Emitted(w, r, 1)
  {
    assert Emitted(w, r, 1) == QuadStrip(w, r) + ([] + LeadingTriangle(r * w, w));
    FlatIndex(r, 1, w);
  }

  /** The right-edge iteration at row r: the trailing triangle of the row's last quad
      completes the row. */
  lemma RightEdgeStep(w: int, r: int, i: int)
    requires w >= 2 && r >= 0 && i == r * w + (w - 1)
    ensures i + 1 == (r + 1) * w + 0 && (i + 1) % w == 0
    ensures Emitted(w, r, w - 1) + [i, i + (w - 1), i + w] == Emitted(w, r + 1, 0)
  {
    var a := r * w + w - 2;
    assert [i, i + (w - 1), i + w] == TrailingTriangle(a, w);
    assert RowStrip(w, r, w - 1) == RowStrip(w, r, w - 2) + LeadingTriangle(a, w) + TrailingTriangle(a, w);
    FlatIndex(r + 1, 0, w);
  }

  /** An interior iteration at row r, column c: the trailing triangle of quad c - 1,
      then the leading triangle of quad c. */
  lemma InteriorStep(w: int, r: int, c: int, i: int)
    requires w >= 2 && r >= 0 && 0 < c < w - 1 && i == r * w + c
    ensures i + 1 == r * w + (c + 1) && (i + 1) % w == c + 1
    ensures Emitted(w, r, c) + [i, i + (w - 1), i + w] + [i, i + w, i + 1] == Emitted(w, r, c + 1)
  {
    var a := r * w + c - 1;
    assert [i, i + (w - 1), i + w] == TrailingTriangle(a, w);
    assert [i, i + w, i + 1] == LeadingTriangle(i, w);
    assert RowStrip(w, r, c) == RowStrip(w, r, c - 1) + LeadingTriangle(a, w) + TrailingTriangle(a, w);
    FlatIndex(r, c + 1, w);
  }

  /** The state of the zig-zag loop before the iteration at flat index i: the
      emitted indices extend the caller's list, and for a valid level the cursor
      xStep is one more than the column of i and everything emitted so far is the
      reference strip up to that vertex. */
  ghost predicate ZigZagState(level: int, width: int, indices: seq<int>, out: seq<int>,
                              i: int, xStep: int, row: int, col: int)
  {
    width == level + 1 && 0 <= i &&
    (level >= 0 ==> i <= (level + 1) * (level + 1) - width) &&
    |out| >= |indices| && out[..|indices|] == indices &&
    (i == 0 ==> out == indices) &&
    (level >= 1 ==>
      0 <= row && 0 <= col < width && i == row * width + col &&
      xStep == col + 1 && xStep == i % width + 1 &&
      out == indices + Emitted(width, row, col))
  }

  /** Every iteration keeps the caller's indices as a prefix. */
  lemma PrefixKept(indices: seq<int>, out: seq<int>, more: seq<int>)
    requires |out| >= |indices| && out[..|indices|] == indices
    ensures |out + more| >= |indices| && (out + more)[..|indices|] == indices
  {
    assert (out + more)[..|indices|] == out[..|indices|];
  }

  lemma LeftEdgeState(level: int, width: int, indices: seq<int>, out: seq<int>, i: int, row: int, col: int)
    returns (row': int, col': int)
    requires ZigZagState(level, width, indices, out, i, 1, row, col)
    requires i < (level + 1) * (level + 1) - width
    ensures ZigZagState(level, width, indices, out + [i, i + width, i + 1], i + 1, 2, row', col')
  {
    row', col' := row, col;
    PrefixKept(indices, out, [i, i + width, i + 1]);
    if level >= 1 {
      LeftEdgeStep(width, row, i);
      row', col' := row, 1;
    }
  }

  lemma RightEdgeState(level: int, width: int, indices: seq<int>, out: seq<int>, i: int, row: int, col: int)
    returns (row': int, col': int)
    requires ZigZagState(level, width, indices, out, i, width, row, col) && width != 1
    requires i < (level + 1) * (level + 1) - width
    ensures ZigZagState(level, width, indices, out + [i, i + (width - 1), i + width], i + 1, 1, row', col')
  {
    row', col' := row, col;
    PrefixKept(indices, out, [i, i + (width - 1), i + width]);
    if level >= 1 {
      RightEdgeStep(width, row, i);
      row', col' := row + 1, 0;
    }
  }

  lemma InteriorState(level: int, width: int, indices: seq<int>, out: seq<int>, i: int, xStep: int,
                      row: int, col: int)
    returns (row': int, col': int)
    requires ZigZagState(level, width, indices, out, i, xStep, row, col) && xStep != 1 && xStep != width
    requires i < (level + 1) * (level + 1) - width
    ensures ZigZagState(level, width, indices, out + [i, i + (width - 1), i + width] + [i, i + width, i + 1],
                        i + 1, xStep + 1, row', col')
  {
    row', col' := row, col;
    PrefixKept(indices, out, [i, i + (width - 1), i + width] + [i, i + width, i + 1]);
    assert out + [i, i + (width - 1), i + width] + [i, i + width, i + 1]
        == out + ([i, i + (width - 1), i + width] + [i, i + width, i + 1]);
    if level >= 1 {
      InteriorStep(width, row, col, i);
      row', col' := row, col + 1;
    }
  }

  /** When the loop stops, at the first vertex of the last grid row, every row of
      quads has been emitted. */
  lemma ZigZagDone(level: int, width: int, indices: seq<int>, out: seq<int>, i: int, xStep: int,
                   row: int, col: int)
    requires ZigZagState(level, width, indices, out, i, xStep, row, col)
    requires i >= (level + 1) * (level + 1) - width
    ensures level >= 0 ==> out == indices + QuadStrip(level + 1, level)
  {
    if level == 0 {
      assert QuadStrip(1, 0) == [];
    } else if level >= 1 {
      var w := level + 1;
      assert w * w - w == level * w + 0;
      FlatIndex(row, col, w);
      FlatIndex(level, 0, w);
      assert Emitted(w, row, col) == QuadStrip(w, level) + [];
    }
  }

  /** The loop runs (level + 1)^2 - (level + 1) = level * (level + 1) times, never
      a negative number of times, whatever the level. */
  lemma LoopBound(level: int)
    ensures (level + 1) * (level + 1) - (level + 1) == level * (level + 1) >= 0
  {
    if level < 0 {
      var k := -level;
      assert level * (level + 1) == k * (k - 1);
      if k > 1 {
        MulAtLeast(k, k - 1);
      }
    }
  }

  /** The zig-zag index generator: walks flat vertex index i over every vertex that
      has a row below it, with a column cursor xStep that runs 1 .. width. */
  method AppendTriangleIndices(level: int, indices: seq<int>) returns (out: seq<int>)
    ensures level >= 0 ==> out == indices + PatchIndices(level)
    ensures |out| >= |indices| && out[..|indices|] == indices
  {
    var numVerts := (level + 1) * (level + 1);
    var xStep := 1;
    var width := level + 1;
    out := indices;
    ghost var row, col := 0, 0;
    LoopBound(level);
    for i := 0 to numVerts - width
      invariant ZigZagState(level, width, indices, out, i, xStep, row, col)
      invariant level >= 1 ==> xStep == i % width + 1
    {
      if xStep == 1 {
        // on the left edge
        row, col := LeftEdgeState(level, width, indices, out, i, row, col);
        out := out + [i, i + width, i + 1];
        xStep := xStep + 1;
      } else if xStep == width {
        // on the right edge
        row, col := RightEdgeState(level, width, indices, out, i, row, col);
        out := out + [i, i + (width - 1), i + width];
        xStep := 1;
      } else {
        // not on an edge, so add two
        row, col := InteriorState(level, width, indices, out, i, xStep, row, col);
        out := out + [i, i + (width - 1), i + width];
        out := out + [i, i + width, i + 1];
        xStep := xStep + 1;
      }
    }
    ZigZagDone(level, width, indices, out, numVerts - width, xStep, row, col);
  }

  /* ---- Properties of the reference strip ---- */

  lemma {:induction false} RowStripLength(w: int, r: int, n: nat)
    ensures |RowStrip(w, r, n)| == 6 * n
  {
    if n > 0 {
      RowStripLength(w, r, n - 1);
    }
  }

  /** Each grid row contributes 6 indices per quad, 6 * (w - 1) in all (3 at the left
      edge, 6 at each of the w - 2 interior columns, 3 at the right edge), so the strip
      of `rows` rows holds 6 * rows * (w - 1) indices: two triangles per quad. */
  lemma {:induction false} QuadStripLength(w: int, rows: nat)
    requires w >= 1
    ensures |QuadStrip(w, rows)| == 6 * (rows * (w - 1))
  {
    if rows > 0 {
      QuadStripLength(w, rows - 1);
      RowStripLength(w, rows - 1, w - 1);
      assert (rows - 1) * (w - 1) + (w - 1) == rows * (w - 1);
    }
  }

  /** Every entry of s lies in lo .. hi. */
  ghost predicate AllBetween(s: seq<int>, lo: int, hi: int)
  {
    forall j :: 0 <= j < |s| ==> lo <= s[j] <= hi
  }

  lemma AllBetweenConcat(s: seq<int>, t: seq<int>, lo: int, hi: int, lo': int, hi': int)
    requires AllBetween(s, lo, hi) && AllBetween(t, lo', hi')
    ensures AllBetween(s + t, if lo <= lo' then lo else lo', if hi <= hi' then hi' else hi)
  {
    var u := s + t;
    forall j | 0 <= j < |u|
      ensures (if lo <= lo' then lo else lo') <= u[j] <= (if hi <= hi' then hi' else hi)
    {
      if j < |s| { assert u[j] == s[j]; } else { assert u[j] == t[j - |s|]; }
    }
  }

  /** Every index of the first n quads of row r lies in that row or the next. */
  lemma {:induction false} RowStripBounds(w: int, r: int, n: nat)
    requires w >= 2 && r >= 0 && n <= w - 1
    ensures AllBetween(RowStrip(w, r, n), r * w, r * w + 2 * w - 1)
  {
    if n > 0 {
      RowStripBounds(w, r, n - 1);
      var q := QuadTriangles(r * w + n - 1, w);
      assert AllBetween(q, r * w, r * w + 2 * w - 1);
      AllBetweenConcat(RowStrip(w, r, n - 1), q, r * w, r * w + 2 * w - 1, r * w, r * w + 2 * w - 1);
    }
  }

  /** Every index of the first `rows` grid rows' quads names one of the (rows + 1) * w
      vertices of those rows and the one below. */
  lemma {:induction false} QuadStripBounds(w: int, rows: nat)
    requires w >= 2
    ensures AllBetween(QuadStrip(w, rows), 0, (rows + 1) * w - 1)
  {
    if rows > 0 {
      QuadStripBounds(w, rows - 1);
      RowStripBounds(w, rows - 1, w - 1);
      assert (rows - 1) * w + 2 * w - 1 == (rows + 1) * w - 1;
      assert rows * w - 1 <= (rows + 1) * w - 1;
      assert 0 <= (rows - 1) * w by {
        if rows > 1 { MulAtLeast(rows - 1, w); }
      }
      AllBetweenConcat(QuadStrip(w, rows - 1), RowStrip(w, rows - 1, w - 1),
                       0, rows * w - 1, (rows - 1) * w, (rows + 1) * w - 1);
    }
  }

  /** The index list of a patch: the quads of all `level` rows of a grid level + 1
      vertices wide. */
  function PatchIndices(level: int): seq<int>
    requires level >= 0
  {
    QuadStrip(level + 1, level)
  }

  /** The index list of a patch of a valid level has 6 * level^2 entries, a whole number
      of triangles, and every entry names one of the (level + 1)^2 vertices. */
  lemma PatchIndicesInBounds(level: int)
    requires level >= 1
    ensures |PatchIndices(level)| == 6 * (level * level)
    ensures |PatchIndices(level)| % 3 == 0
    ensures forall v :: v in PatchIndices(level) ==> 0 <= v < (level + 1) * (level + 1)
  {
    var s := QuadStrip(level + 1, level);
    QuadStripLength(level + 1, level);
    var n := level * level;
    assert |s| == 3 * (2 * n);
    QuadStripBounds(level + 1, level);
  }

  /** At level 0 the grid is one vertex wide and has no quads: no triangles. */
  lemma PatchIndicesLevelZero()
    ensures PatchIndices(0) == []
  {
  }

  /** At level 1 the grid is a single quad: two triangles, six indices. */
  lemma PatchIndicesLevelOne()
    ensures PatchIndices(1) == [0, 2, 1, 1, 2, 3]
  {
    assert RowStrip(2, 0, 1) == [] + QuadTriangles(0, 2);
    assert QuadStrip(2, 1) == [] + RowStrip(2, 0, 1);
  }

  /** Twice the signed area of triangle (a, b, c) with each flat index placed at its
      (column, row) position in a grid w vertices wide. */
  function Winding(w: int, a: int, b: int, c: int): int
    requires w >= 1
  {
    (b % w - a % w) * (c / w - a / w) - (b / w - a / w) * (c % w - a % w)
  }

  /** Every triangle of the list, taken three indices at a time, has the same winding
      and covers half a grid cell. */
  ghost predicate UniformWinding(s: seq<int>, w: int)
    requires w >= 1
    decreases |s|
  {
    |s| == 0 || (|s| >= 3 && Winding(w, s[0], s[1], s[2]) == -1 && UniformWinding(s[3..], w))
  }

  lemma {:induction false} UniformWindingConcat(s: seq<int>, t: seq<int>, w: int)
    requires w >= 1 && UniformWinding(s, w) && UniformWinding(t, w)
    ensures UniformWinding(s + t, w)
    decreases |s|
  {
    if |s| > 0 {
      var st := s + t;
      assert st[0] == s[0] && st[1] == s[1] && st[2] == s[2];
      assert st[3..] == s[3..] + t;
      UniformWindingConcat(s[3..], t, w);
      assert |st| >= 3;
      assert Winding(w, st[0], st[1], st[2]) == -1;
      assert UniformWinding(st[3..], w);
    } else {
      assert s + t == t;
    }
  }

  /** Both triangles of a grid quad wind the same way. */
  lemma QuadWinding(w: int, r: int, c: int)
    requires w >= 2 && r >= 0 && 0 <= c < w - 1
    ensures UniformWinding(QuadTriangles(r * w + c, w), w)
  {
    var a := r * w + c;
    FlatIndex(r, c, w);
    FlatIndex(r, c + 1, w);
    FlatIndex(r + 1, c, w);
    FlatIndex(r + 1, c + 1, w);
    assert a + 1 == r * w + (c + 1);
    assert a + w == (r + 1) * w + c;
    assert a + w + 1 == (r + 1) * w + (c + 1);
    var q := QuadTriangles(a, w);
    assert Winding(w, q[0], q[1], q[2]) == -1;
    assert Winding(w, q[3], q[4], q[5]) == -1;
    assert q[3..][3..] == [];
  }

  lemma {:induction false} RowStripWinding(w: int, r: int, n: nat)
    requires w >= 2 && r >= 0 && n <= w - 1
    ensures UniformWinding(RowStrip(w, r, n), w)
  {
    if n > 0 {
      RowStripWinding(w, r, n - 1);
      QuadWinding(w, r, n - 1);
      UniformWindingConcat(RowStrip(w, r, n - 1), QuadTriangles(r * w + n - 1, w), w);
    }
  }

  /** Winding consistency: every triangle of the strip has the same orientation. */
  lemma {:induction false} QuadStripWinding(w: int, rows: nat)
    requires w >= 2
    ensures UniformWinding(QuadStrip(w, rows), w)
  {
    if rows > 0 {
      QuadStripWinding(w, rows - 1);
      RowStripWinding(w, rows - 1, w - 1);
      UniformWindingConcat(QuadStrip(w, rows - 1), RowStrip(w, rows - 1, w - 1), w);
    }
  }
}
