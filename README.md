# BezierMesh: biquadratic patch tessellation

uQuake3 renders the curved surfaces of a Quake III map as biquadratic Bézier
patches. `BezierMesh` turns one patch into a triangle mesh. A patch is given by
3x3 control points, stored flat in row-major order (indices 0..8), plus two
channels of texture coordinates. The tessellation level `level` sets the
density of the output.

The build runs in three parts.

1. **Column pass.** Each control column (points 0/3/6, 1/4/7, 2/5/8) is
   tessellated into `level + 1` points. The results go into the intermediate
   lists `p0s`, `p1s` and `p2s`, one set per channel.
2. **Row pass.** For each `i` in `0 .. level`, the triple `p0s[i]`, `p1s[i]`,
   `p2s[i]` is tessellated again and appended to the output list. This gives a
   row-major grid of `(level + 1)^2` points per channel.
3. **Index pass.** A zig-zag loop walks the flat vertex index with a column
   cursor `xStep`. It emits the two triangles of every grid cell.

A single tessellation of a curve p0, p1, p2 works as follows:

- it copies `p0` exactly;
- it evaluates the quadratic curve at `1/level`, `2/level`, …, `(level-1)/level`;
- it copies `p2` exactly.

All lists are process-wide scratch lists. Every build first pre-sizes the
output lists for `level * level + 2 * level` entries, and only then clears
them. Pre-sizing is skipped when the vertex list already has that much room.

The model has six modules:

- `Curve`: the point types and the curve evaluator.
- `Tessellation`: one row, as the specification function `Row` and as the
  appending methods `Tessellate` and `TessellateUV`.
- `PatchGrid`: the two-pass grid, as the specification functions `Column` and
  `Grid`, with their shape lemmas.
- `TriangleIndices`: the index loop and its reference definition `QuadStrip`.
  `QuadStrip` lists each cell's two triangles, in row-major order. Lemmas give
  its length, bounds and winding.
- `ListCapacity`: the storage of a growable list, which doubles when an
  element is added to a full list.
- `BezierMesh`: the thirteen scratch lists and the vertex list's capacity as
  the fields of class `Caches`, and the build as `Caches.Build`.

Each method is proved against the specification function of the same part. The
properties are proved about those functions.

### Where the model follows the code rather than its comments

The comment at BezierMesh.cs:117 says a build produces `(level + 1)^2`
vertices. That holds only for `level >= 1`. The code never checks the level,
so the model accepts any integer level and states what the code then does:

- At level 0 every tessellation still appends two points, `p0` and `p2`. The
  grid is then `[control[0], control[2]]`, not `(0 + 1)^2 = 1` point
  (`RowDegenerate`, `GridLevelZero`). No triangles are emitted
  (`PatchIndicesLevelZero`).
- Below level 0 the row loop does not run, and the grid is empty
  (`GridNegativeLevel`).
- The properties about lengths, corners, bounds and winding are stated for
  `level >= 1`.

## Model

| member | source | states |
|---|---|---|
| Curve.Blend | Assets/Scripts/uQuake/Types/BezierMesh.cs:199-203 | One component of the curve blend takes the first control value at t = 0 and the last at t = 1, and is constant when all three controls agree. |
| Curve.CurvePoint | Assets/Scripts/uQuake/Types/BezierMesh.cs:195-208 | The position curve passes through p0 at t = 0 and p2 at t = 1, and is constant when p0 = p1 = p2. |
| Curve.CurvePointUV | Assets/Scripts/uQuake/Types/BezierMesh.cs:178-191 | The same end-point and constant-curve facts for texture coordinates. |
| Curve.BezCurve | Assets/Scripts/uQuake/Types/BezierMesh.cs:195-208 | The component loop over a three-entry scratch array yields exactly the curve point CurvePoint. |
| Curve.BezCurveUV | Assets/Scripts/uQuake/Types/BezierMesh.cs:178-191 | The two-component loop yields exactly CurvePointUV. |
| Curve.CurveMidpoint | Assets/Scripts/uQuake/Types/BezierMesh.cs:199-203 | At t = 1/2 the weights of p0, p1, p2 are 1/4, 1/2 and 1/4. |
| Curve.CurveMidpointUV | Assets/Scripts/uQuake/Types/BezierMesh.cs:182-186 | The same midpoint weights for texture coordinates. |
| Curve.CurveReversed | Assets/Scripts/uQuake/Types/BezierMesh.cs:199-203 | Evaluating at 1 - t with p0 and p2 swapped gives the same point. |
| Tessellation.StepAt | Assets/Scripts/uQuake/Types/BezierMesh.cs:219-226 | The parameter reached after k steps is k / level. |
| Tessellation.StepNext | Assets/Scripts/uQuake/Types/BezierMesh.cs:219-226 | Adding stepDelta to the k-th accumulated step gives the (k+1)-th step. |
| Tessellation.Row | Assets/Scripts/uQuake/Types/BezierMesh.cs:214-229 | A tessellated row is p0, then the interior evaluations (level - 1 of them when level >= 2, none otherwise), then p2. The first and last points are the copied end points. |
| Tessellation.RowLength | Assets/Scripts/uQuake/Types/BezierMesh.cs:219-229 | For level >= 1 a row has exactly level + 1 points. |
| Tessellation.RowDegenerate | Assets/Scripts/uQuake/Types/BezierMesh.cs:219-229 | For level <= 1, including level 0 where the step is infinite, the row is exactly [p0, p2]. |
| Tessellation.RowSamplesCurve | Assets/Scripts/uQuake/Types/BezierMesh.cs:219-229 | For level >= 1, point k of the row is the curve at k / level for every k in 0 .. level, the copied end points included. |
| Tessellation.Tessellate | Assets/Scripts/uQuake/Types/BezierMesh.cs:214-230 | The list afterwards is the old list followed by the row, with the old contents unchanged and the first and last appended points p0 and p2. The counting loop runs max(level - 1, 0) times with its step at k / level before the k-th evaluation, so level + 1 points are appended when level >= 1 and exactly two when level <= 1. |
| Tessellation.TessellateUV | Assets/Scripts/uQuake/Types/BezierMesh.cs:233-249 | The same append guarantees for texture coordinates: the row, the unchanged prefix, both copied ends, level + 1 points for level >= 1 and two for level <= 1. |
| PatchGrid.Column | Assets/Scripts/uQuake/Types/BezierMesh.cs:92-102 | An intermediate list has InteriorCount(level) + 2 points, and runs from control point j to control point j + 6. |
| PatchGrid.GridRows | Assets/Scripts/uQuake/Types/BezierMesh.cs:107-115 | n assembled rows hold n times the row length. |
| PatchGrid.Grid | Assets/Scripts/uQuake/Types/BezierMesh.cs:92-115 | A channel's grid holds RowCount(level) rows of one row length each. |
| PatchGrid.GridRowsAt | Assets/Scripts/uQuake/Types/BezierMesh.cs:107-115 | Row-major layout: the point in row i, column j sits at flat index i * (level + 1) + j. |
| PatchGrid.GridLength | Assets/Scripts/uQuake/Types/BezierMesh.cs:92-115 | For level >= 1 each output channel holds (level + 1)^2 points. |
| PatchGrid.GridAt | Assets/Scripts/uQuake/Types/BezierMesh.cs:92-115 | Each intermediate list has level + 1 points, and grid point (i, j) is point j of the row through the i-th points of the three intermediate lists. |
| PatchGrid.GridTopBottom | Assets/Scripts/uQuake/Types/BezierMesh.cs:92-115 | The first grid row is the row through control points 0, 1, 2, and the last is the row through 6, 7, 8. |
| PatchGrid.GridLeftRight | Assets/Scripts/uQuake/Types/BezierMesh.cs:92-115 | The first grid column is the row through control points 0, 3, 6, and the last is the row through 2, 5, 8. |
| PatchGrid.GridCorners | Assets/Scripts/uQuake/Types/BezierMesh.cs:92-115 | Grid points 0, level, level * (level + 1) and (level + 1)^2 - 1 are exactly control points 0, 2, 6 and 8, in every channel. |
| PatchGrid.GridLevelZero | Assets/Scripts/uQuake/Types/BezierMesh.cs:92-115 | At level 0 the grid is [control[0], control[2]]: two points, not one. |
| PatchGrid.GridNegativeLevel | Assets/Scripts/uQuake/Types/BezierMesh.cs:107 | Below level 0 the row loop does not run and the grid is empty. |
| TriangleIndices.LeftEdgeStep | Assets/Scripts/uQuake/Types/BezierMesh.cs:128-135 | The left-edge branch emits the first triangle of the row's first cell and moves the cursor to column 1. |
| TriangleIndices.RightEdgeStep | Assets/Scripts/uQuake/Types/BezierMesh.cs:136-143 | The right-edge branch emits the second triangle of the row's last cell, completes the row, and wraps the cursor to column 0 of the next row. |
| TriangleIndices.InteriorStep | Assets/Scripts/uQuake/Types/BezierMesh.cs:144-156 | An interior branch emits the second triangle of the cell to its left and the first triangle of its own cell. |
| TriangleIndices.LeftEdgeState | Assets/Scripts/uQuake/Types/BezierMesh.cs:128-135 | The left-edge branch (xStep == 1) keeps the loop state: the caller's prefix stays, the cursor moves to 2, and for level >= 1 the output is still the reference strip up to the next vertex. |
| TriangleIndices.RightEdgeState | Assets/Scripts/uQuake/Types/BezierMesh.cs:136-143 | The right-edge branch (xStep == width) keeps the loop state and wraps the cursor to 1 at the first column of the next row. |
| TriangleIndices.InteriorState | Assets/Scripts/uQuake/Types/BezierMesh.cs:144-156 | An interior branch keeps the loop state and advances the cursor by one column. |
| TriangleIndices.AppendTriangleIndices | Assets/Scripts/uQuake/Types/BezierMesh.cs:118-157 | For level >= 0 the loop appends exactly the reference strip PatchIndices(level) (both triangles of every cell, row by row), keeping xStep == i % width + 1 throughout. For any level, the caller's indices stay a prefix. |
| TriangleIndices.RowStripLength | Assets/Scripts/uQuake/Types/BezierMesh.cs:125-157 | Each cell contributes 6 indices, so one grid row contributes 3 + 6 * (width - 2) + 3 = 6 * (width - 1). |
| TriangleIndices.QuadStripLength | Assets/Scripts/uQuake/Types/BezierMesh.cs:118-157 | The strip of `rows` rows has 6 * rows * (width - 1) indices. |
| TriangleIndices.RowStripBounds | Assets/Scripts/uQuake/Types/BezierMesh.cs:125-157 | Every index emitted for grid row r names a vertex of row r or row r + 1. |
| TriangleIndices.QuadStripBounds | Assets/Scripts/uQuake/Types/BezierMesh.cs:125-157 | Every index of the first `rows` rows lies in 0 .. (rows + 1) * width - 1. |
| TriangleIndices.PatchIndicesInBounds | Assets/Scripts/uQuake/Types/BezierMesh.cs:118-157 | For level >= 1 the index list has 6 * level^2 entries, a multiple of 3, and every entry lies in 0 .. numVerts - 1. |
| TriangleIndices.PatchIndicesLevelZero | Assets/Scripts/uQuake/Types/BezierMesh.cs:118-157 | At level 0 the grid is one vertex wide, the loop emits nothing, and the index list is empty. |
| TriangleIndices.PatchIndicesLevelOne | Assets/Scripts/uQuake/Types/BezierMesh.cs:118-157 | At level 1 the index list is the single cell [0, 2, 1, 1, 2, 3]. |
| TriangleIndices.QuadWinding | Assets/Scripts/uQuake/Types/BezierMesh.cs:128-156 | Both triangles of a cell have twice-signed-area -1 in (column, row) coordinates: the same orientation, half a cell each. |
| TriangleIndices.RowStripWinding | Assets/Scripts/uQuake/Types/BezierMesh.cs:125-157 | Every triangle emitted for one grid row winds the same way. |
| TriangleIndices.QuadStripWinding | Assets/Scripts/uQuake/Types/BezierMesh.cs:118-157 | Every triangle of the index list winds the same way. |
| ListCapacity.NextCapacity | Assets/Scripts/uQuake/Types/BezierMesh.cs:222-229 | An `Add` to a full list always enlarges its storage; the body defines the step as 4 slots from none, otherwise twice as many. |
| ListCapacity.GrowCapacity | Assets/Scripts/uQuake/Types/BezierMesh.cs:222-229 | After Adds up to `count` elements the capacity holds them all, never shrinks, and is unchanged while there was room. |
| ListCapacity.AddGrows | Assets/Scripts/uQuake/Types/BezierMesh.cs:222-229 | A single Add keeps the capacity while there is room and grows it exactly once when the list is full. |
| ListCapacity.GrowCompose | Assets/Scripts/uQuake/Types/BezierMesh.cs:107-115 | The capacity after two runs of Adds equals the capacity after one run to the same final count, so the vertex list's capacity after a build depends only on its pre-sized capacity and the final vertex count. |
| BezierMesh.ReservedCapacity | Assets/Scripts/uQuake/Types/BezierMesh.cs:55 | The reserved capacity level^2 + 2 level is (level + 1)^2 - 1, one short of the vertex count. |
| BezierMesh.PresizedCapacity | Assets/Scripts/uQuake/Types/BezierMesh.cs:55-58 | The vertex list's capacity never shrinks in pre-sizing, and is raised to the reserved capacity when it was below it and the list fits. |
| BezierMesh.OnlyIndicesThrow | Assets/Scripts/uQuake/Types/BezierMesh.cs:55-61 | When the vertex list fits its capacity and the UV lists are as long, pre-sizing throws exactly when the capacity is raised to a value below the index count left by the previous build. |
| BezierMesh.PresizeEmptyNeverThrows | Assets/Scripts/uQuake/Types/BezierMesh.cs:55-61 | Pre-sizing empty lists never throws. |
| BezierMesh.RebuildThrows | Assets/Scripts/uQuake/Types/BezierMesh.cs:45-67 | On fresh lists, a build at level low succeeds, and a following build at level high throws whenever 2 * reserved(low) < reserved(high) < 6 * low^2. |
| BezierMesh.SecondBuildThrows | Assets/Scripts/uQuake/Types/BezierMesh.cs:45-67 | On fresh lists, a build at level 3 succeeds and a following build at level 5 throws, for every patch. |
| BezierMesh.Caches.constructor | Assets/Scripts/uQuake/Types/BezierMesh.cs:8-23 | All thirteen scratch lists start empty, with no storage, and the state is valid. |
| BezierMesh.Caches.ClearCaches | Assets/Scripts/uQuake/Types/BezierMesh.cs:25-43 | Afterwards all thirteen scratch lists are new and empty, with no storage, and the state is valid. |
| BezierMesh.Caches.EmptyLists | Assets/Scripts/uQuake/Types/BezierMesh.cs:64-79 | All thirteen lists are empty afterwards, and the capacity is kept. |
| BezierMesh.Caches.Presize | Assets/Scripts/uQuake/Types/BezierMesh.cs:54-61 | Reports failure exactly when PresizeThrows holds for the current capacity and counts, and sets the vertex capacity to PresizedCapacity. |
| BezierMesh.Caches.TessellatePositions | Assets/Scripts/uQuake/Types/BezierMesh.cs:92-102 | p0s, p1s and p2s are extended by the tessellations of control columns 0/3/6, 1/4/7 and 2/5/8. |
| BezierMesh.Caches.TessellateUvs | Assets/Scripts/uQuake/Types/BezierMesh.cs:92-102 | The same column pass for the first texture channel. |
| BezierMesh.Caches.TessellateUv2s | Assets/Scripts/uQuake/Types/BezierMesh.cs:92-102 | The same column pass for the second texture channel. |
| BezierMesh.Caches.AssemblePositions | Assets/Scripts/uQuake/Types/BezierMesh.cs:107-115 | The loop `i <= level` runs level + 1 times (never below level 0) and extends the vertex list by the rows through p0s[i], p1s[i], p2s[i], in order of i. |
| BezierMesh.Caches.AssembleUvs | Assets/Scripts/uQuake/Types/BezierMesh.cs:107-115 | The same row pass into the first texture list. |
| BezierMesh.Caches.AssembleUv2s | Assets/Scripts/uQuake/Types/BezierMesh.cs:107-115 | The same row pass into the second texture list. |
| BezierMesh.Caches.BuildPositions | Assets/Scripts/uQuake/Types/BezierMesh.cs:92-115 | Starting from empty lists, the intermediate lists become the control columns, the vertex list becomes the grid, and its length is RowCount(level) * row length. |
| BezierMesh.Caches.BuildUvs | Assets/Scripts/uQuake/Types/BezierMesh.cs:92-115 | The same for the first texture channel. |
| BezierMesh.Caches.BuildUv2s | Assets/Scripts/uQuake/Types/BezierMesh.cs:92-115 | The same for the second texture channel. |
| BezierMesh.Caches.BuildTextures | Assets/Scripts/uQuake/Types/BezierMesh.cs:92-157 | Starting from empty lists, both texture channels become their columns and grids, and for level >= 0 the index list is PatchIndices(level). |
| BezierMesh.Caches.FillLists | Assets/Scripts/uQuake/Types/BezierMesh.cs:92-157 | On emptied lists every channel is built, the index list is PatchIndices(level) for level >= 0, the vertex capacity has grown by Adds to the vertex count, and the state is valid. |
| BezierMesh.Caches.Build | Assets/Scripts/uQuake/Types/BezierMesh.cs:45-157 | The build succeeds exactly when pre-sizing does not throw. When it throws, the lists are unchanged and only the vertex capacity has moved. When it succeeds, every list is a function of the level and the control lists alone: the columns, the grids and, for level >= 0, PatchIndices(level). The vertex capacity is the pre-sized capacity grown by the Adds, and the state is valid. From a valid state it ends in a valid state, and then it fails exactly when the vertex capacity is below the reserved capacity and that is below the previous build's index count. |
| BezierMesh.Caches.BuildClearedFirst | Assets/Scripts/uQuake/Types/BezierMesh.cs:45-157 | With the lists emptied before pre-sizing, the build always succeeds, ends in the same lists as a successful Build, and keeps the state valid. |

## Left out

- The Unity `Mesh` is not modelled. This covers its creation and name, `SetVertices`, `SetTriangles`, `SetUVs`, `RecalculateNormals`, `Optimize` and the `Mesh` property (BezierMesh.cs:51-52, 160-175). These are engine calls with no visible semantics. The model ends with the four output lists the mesh is filled from.
- The `ProfilerMarker` and its `Auto()` scope (BezierMesh.cs:7, 48) are left out. They are instrumentation only.
- Floating point is not modelled. Components are reals, so the accumulated `step += stepDelta` is exact, and interior points are the ideal curve values at k / level. Single-precision rounding is not modelled.
- The model does not reproduce the value of `1.0f / level` at level 0 (infinity in the original). `StepDelta` returns 0 there instead. Neither value is ever used, because no interior point is evaluated at that level.
- Only the vertex list's capacity is modelled. The capacities of the two UV lists and the index list are set in pre-sizing (BezierMesh.cs:58-61) but never read, so only the throw they can cause is modelled (`PresizeThrows`). The growth rule (none to 4 slots, otherwise doubling) is the behaviour of .NET's `List<T>`; it is taken as given, not derived from the repository's code.
- BezierMesh.Caches.FillLists: the vertex capacity is grown once, after the row pass, to the final vertex count. The original grows it one Add at a time. `GrowCompose` and `AddGrows` show that both end in the same capacity.
- The `appendList == null` path of `Tessellate`/`TessellateUV` (BezierMesh.cs:216-217, 235-236) is left out. It fills a fresh list that is then dropped, so it has no observable effect. Every call in the class passes a list.
- The C# `int` is 32-bit; the model does not wrap `(level + 1) * (level + 1)` and the other level arithmetic. The model uses unbounded integers.
- Control lists shorter than 9 entries make the original throw. In the model, those calls are excluded by preconditions.
- The thirteen lists are static, shared by every instance and every thread. The model has one `Caches` object standing for that shared state. Concurrent builds are not modelled.
- BezierMesh.Caches.Build: when pre-sizing throws part-way, the UV and index capacities already set are not modelled. Only the vertex capacity, which is set first, is tracked.
- BezierMesh.Caches.Build: the build runs its channels one after another, where the original interleaves them. Each channel touches only its own lists, so the final state is the same.
- BezierMesh.Caches.Build: the index list is stated for level >= 0 only. Below 0 the loop runs with a negative width and emits indices the model does not characterise.
- TriangleIndices.AppendTriangleIndices: for level < 0, only the preservation of the caller's indices is stated. The same negative-width behaviour is not characterised.

## Findings

| source | as written | input that shows it | evidently intended | confidence | as-written member | corrected member |
|---|---|---|---|---|---|---|
| Assets/Scripts/uQuake/Types/BezierMesh.cs:54-67 | The four capacities are set before the lists are cleared, so `indiciesCache.Capacity` can be set below the index count left by the previous build, which throws. | A build at level 3 on fresh lists, then a build at level 5: the vertex capacity is 30 (15 reserved, doubled by the 16th vertex), 35 > 30 triggers pre-sizing, and 35 < 54 indices throws. | Pre-size the emptied lists, so that a build never throws and never depends on earlier builds. | high; derived from the code, not executed | BezierMesh.SecondBuildThrows | BezierMesh.Caches.BuildClearedFirst |
