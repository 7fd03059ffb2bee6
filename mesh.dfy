/** The patch assembler and its scratch lists.

    The original keeps thirteen process-wide lists (static fields) that every patch
    build clears and refills: the three intermediate lists per channel (p0s, p1s,
    p2s for positions and for two UV channels) and the four output lists (vertices,
    two UV channels, triangle indices). Here they are the fields of one `Caches`
    object, together with the capacity of the vertex list, which decides whether a
    build pre-sizes the lists. The original's constructor is the method `Build`.
    The engine mesh that the original fills from the output lists is not modelled. */
module BezierMesh {
  import opened Curve
  import opened Tessellation
  import opened PatchGrid
  import opened TriangleIndices
  import opened ListCapacity

  /** The contents of the thirteen scratch lists at one moment. */
  datatype CacheLists = CacheLists(
    vertices: seq<Vec3>, uvs: seq<Vec2>, uv2s: seq<Vec2>, indices: seq<int>,
    p0s: seq<Vec3>, p0suv: seq<Vec2>, p0suv2: seq<Vec2>,
    p1s: seq<Vec3>, p1suv: seq<Vec2>, p1suv2: seq<Vec2>,
    p2s: seq<Vec3>, p2suv: seq<Vec2>, p2suv2: seq<Vec2>)

  /** The capacity a build at `level` reserves, level^2 + 2 level: one slot short of
      the (level + 1)^2 vertices the build then adds. */
  function ReservedCapacity(level: int): (r: int)
    ensures r == (level + 1) * (level + 1) - 1
  {
    level * level + 2 * level
  }

  /** Whether pre-sizing throws. Only when the vertex list's capacity is below the
      reserved capacity are the four capacities set, in the order vertices, second
      UVs, first UVs, indices; setting one below its list's count throws. */
  function PresizeThrows(vertexCapacity: nat, level: int,
                         vertexCount: nat, uv2Count: nat, uvCount: nat, indexCount: nat): bool
  {
    var capacity := ReservedCapacity(level);
    vertexCapacity < capacity &&
    (capacity < vertexCount || capacity < uv2Count || capacity < uvCount || capacity < indexCount)
  }

  /** The vertex list's capacity after pre-sizing: raised to the reserved capacity
      when it was below it, unless setting it threw. */
  function PresizedCapacity(vertexCapacity: nat, level: int, vertexCount: nat): (r: nat)
    ensures r >= vertexCapacity
    ensures vertexCapacity < ReservedCapacity(level) && vertexCount <= ReservedCapacity(level)
            ==> r == ReservedCapacity(level)
  {
    var capacity := ReservedCapacity(level);
    if vertexCapacity < capacity && vertexCount <= capacity then capacity else vertexCapacity
  }

  /** When the vertex list fits its capacity and the UV lists are as long as the vertex
      list, as after every build, only the index list can make pre-sizing throw: it
      throws exactly when the capacity is raised to a value below the number of
      indices left by the previous build. */
  lemma OnlyIndicesThrow(vertexCapacity: nat, level: int,
                         vertexCount: nat, uv2Count: nat, uvCount: nat, indexCount: nat)
    requires vertexCount <= vertexCapacity && uvCount == vertexCount && uv2Count == vertexCount
    ensures PresizeThrows(vertexCapacity, level, vertexCount, uv2Count, uvCount, indexCount)
            <==> vertexCapacity < ReservedCapacity(level) < indexCount
  {
  }

  /** Pre-sizing emptied lists never throws. */
  lemma PresizeEmptyNeverThrows(vertexCapacity: nat, level: int)
    ensures !PresizeThrows(vertexCapacity, level, 0, 0, 0, 0)
  {
  }

  /** One channel's lists as a build leaves them: the intermediate lists are the
      tessellated control columns 0/3/6, 1/4/7, 2/5/8 and the output list is the grid. */
  ghost predicate ChannelBuilt<P>(level: int, control: seq<P>, curve: (real, P, P, P) -> P,
                                  p0s: seq<P>, p1s: seq<P>, p2s: seq<P>, out: seq<P>)
    requires |control| >= 9
  {
    p0s == Column(level, control, 0, curve) &&
    p1s == Column(level, control, 1, curve) &&
    p2s == Column(level, control, 2, curve) &&
    out == Grid(level, control, curve)
  }

  class Caches {
    var vertexCache: seq<Vec3>
    var uvCache: seq<Vec2>
    var uv2Cache: seq<Vec2>
    var indiciesCache: seq<int>

    var p0sCache: seq<Vec3>
    var p0suvCache: seq<Vec2>
    var p0suv2Cache: seq<Vec2>

    var p1sCache: seq<Vec3>
    var p1suvCache: seq<Vec2>
    var p1suv2Cache: seq<Vec2>

    var p2sCache: seq<Vec3>
    var p2suvCache: seq<Vec2>
    var p2suv2Cache: seq<Vec2>

    /** The capacity of vertexCache: the only capacity a build reads. */
    var vertexCapacity: nat

    /** The contents of all thirteen lists. */
    ghost function Lists(): CacheLists
      reads this`vertexCache, this`uvCache, this`uv2Cache, this`indiciesCache
      reads this`p0sCache, this`p0suvCache, this`p0suv2Cache
      reads this`p1sCache, this`p1suvCache, this`p1suv2Cache
      reads this`p2sCache, this`p2suvCache, this`p2suv2Cache
    {
      CacheLists(vertexCache, uvCache, uv2Cache, indiciesCache,
                 p0sCache, p0suvCache, p0suv2Cache,
                 p1sCache, p1suvCache, p1suv2Cache,
                 p2sCache, p2suvCache, p2suv2Cache)
    }

    /** Every scratch list is empty. */
    ghost predicate Empty()
      reads this`vertexCache, this`uvCache, this`uv2Cache, this`indiciesCache
      reads this`p0sCache, this`p0suvCache, this`p0suv2Cache
      reads this`p1sCache, this`p1suvCache, this`p1suv2Cache
      reads this`p2sCache, this`p2suvCache, this`p2suv2Cache
    {
      vertexCache == [] && uvCache == [] && uv2Cache == [] && indiciesCache == [] &&
      p0sCache == [] && p0suvCache == [] && p0suv2Cache == [] &&
      p1sCache == [] && p1suvCache == [] && p1suv2Cache == [] &&
      p2sCache == [] && p2suvCache == [] && p2suv2Cache == []
    }

    /** What every reachable state satisfies: the vertex list fits its capacity and the
        three output channels have the same number of points. */
    ghost predicate Valid()
      reads this`vertexCache, this`uvCache, this`uv2Cache, this`vertexCapacity
    {
      |vertexCache| <= vertexCapacity && |uvCache| == |vertexCache| && |uv2Cache| == |vertexCache|
    }

    /** The lists as the program starts: all new and empty, without storage. */
    constructor ()
      ensures Empty() && vertexCapacity == 0 && Valid()
    {
      vertexCache, uvCache, uv2Cache, indiciesCache := [], [], [], [];
      p0sCache, p0suvCache, p0suv2Cache := [], [], [];
      p1sCache, p1suvCache, p1suv2Cache := [], [], [];
      p2sCache, p2suvCache, p2suv2Cache := [], [], [];
      vertexCapacity := 0;
    }

    /** Empties every list in place; capacities are kept. */
    method EmptyLists()
      modifies this`vertexCache, this`uvCache, this`uv2Cache, this`indiciesCache
      modifies this`p0sCache, this`p0suvCache, this`p0suv2Cache
      modifies this`p1sCache, this`p1suvCache, this`p1suv2Cache
      modifies this`p2sCache, this`p2suvCache, this`p2suv2Cache
      ensures Empty()
    {
      EmptyPositions();
      EmptyUvs();
      EmptyUv2s();
      indiciesCache := [];
    }

    /** Empties the lists of the position channel. */
    method EmptyPositions()
      modifies this`p0sCache, this`p1sCache, this`p2sCache, this`vertexCache
      ensures p0sCache == [] && p1sCache == [] && p2sCache == [] && vertexCache == []
    {
      p0sCache, p1sCache, p2sCache, vertexCache := [], [], [], [];
    }

    /** Empties the lists of the first texture channel. */
    method EmptyUvs()
      modifies this`p0suvCache, this`p1suvCache, this`p2suvCache, this`uvCache
      ensures p0suvCache == [] && p1suvCache == [] && p2suvCache == [] && uvCache == []
    {
      p0suvCache, p1suvCache, p2suvCache, uvCache := [], [], [], [];
    }

    /** Empties the lists of the second texture channel. */
    method EmptyUv2s()
      modifies this`p0suv2Cache, this`p1suv2Cache, this`p2suv2Cache, this`uv2Cache
      ensures p0suv2Cache == [] && p1suv2Cache == [] && p2suv2Cache == [] && uv2Cache == []
    {
      p0suv2Cache, p1suv2Cache, p2suv2Cache, uv2Cache := [], [], [], [];
    }

    /** Replaces every list by a new, empty one, without storage. */
    method ClearCaches()
      modifies this
      ensures Empty() && vertexCapacity == 0 && Valid()
    {
      EmptyLists();
      vertexCapacity := 0;
    }

    /** The pre-sizing of the lists for a build at `level`, run on the lists as the
        previous build left them. Returns false where the original throws. */
    method Presize(level: int) returns (ok: bool)
      modifies this`vertexCapacity
      ensures ok <==> !PresizeThrows(old(vertexCapacity), level, |vertexCache|, |uv2Cache|, |uvCache|, |indiciesCache|)
      ensures vertexCapacity == PresizedCapacity(old(vertexCapacity), level, |vertexCache|)
    {
      var capacity := level * level + (2 * level);
      ok := true;
      if vertexCapacity < capacity {
        if capacity < |vertexCache| {
          return false;
        }
        vertexCapacity := capacity;
        if capacity < |uv2Cache| {
          return false;
        }
        // uvCache's and indiciesCache's capacities are not tracked: no build reads them.
        if capacity < |uvCache| {
          return false;
        }
        if capacity < |indiciesCache| {
          return false;
        }
      }
    }

    /** The first pass for positions: appends the tessellations of the control
        columns 0/3/6, 1/4/7 and 2/5/8 to p0sCache, p1sCache and p2sCache. */
    method TessellatePositions(level: int, control: seq<Vec3>)
      requires |control| >= 9
      modifies this`p0sCache, this`p1sCache, this`p2sCache
      ensures p0sCache == old(p0sCache) + Column(level, control, 0, CurvePoint)
      ensures p1sCache == old(p1sCache) + Column(level, control, 1, CurvePoint)
      ensures p2sCache == old(p2sCache) + Column(level, control, 2, CurvePoint)
    {
      p0sCache := Tessellate(level, control[0], control[3], control[6], p0sCache);
      p1sCache := Tessellate(level, control[1], control[4], control[7], p1sCache);
      p2sCache := Tessellate(level, control[2], control[5], control[8], p2sCache);
    }

    /** The first pass for the first texture channel. */
    method TessellateUvs(level: int, controlUvs: seq<Vec2>)
      requires |controlUvs| >= 9
      modifies this`p0suvCache, this`p1suvCache, this`p2suvCache
      ensures p0suvCache == old(p0suvCache) + Column(level, controlUvs, 0, CurvePointUV)
      ensures p1suvCache == old(p1suvCache) + Column(level, controlUvs, 1, CurvePointUV)
      ensures p2suvCache == old(p2suvCache) + Column(level, controlUvs, 2, CurvePointUV)
    {
      p0suvCache := TessellateUV(level, controlUvs[0], controlUvs[3], controlUvs[6], p0suvCache);
      p1suvCache := TessellateUV(level, controlUvs[1], controlUvs[4], controlUvs[7], p1suvCache);
      p2suvCache := TessellateUV(level, controlUvs[2], controlUvs[5], controlUvs[8], p2suvCache);
    }

    /** The first pass for the second texture channel. */
    method TessellateUv2s(level: int, controlUv2s: seq<Vec2>)
      requires |controlUv2s| >= 9
      modifies this`p0suv2Cache, this`p1suv2Cache, this`p2suv2Cache
      ensures p0suv2Cache == old(p0suv2Cache) + Column(level, controlUv2s, 0, CurvePointUV)
      ensures p1suv2Cache == old(p1suv2Cache) + Column(level, controlUv2s, 1, CurvePointUV)
      ensures p2suv2Cache == old(p2suv2Cache) + Column(level, controlUv2s, 2, CurvePointUV)
    {
      p0suv2Cache := TessellateUV(level, controlUv2s[0], controlUv2s[3], controlUv2s[6], p0suv2Cache);
      p1suv2Cache := TessellateUV(level, controlUv2s[1], controlUv2s[4], controlUv2s[7], p1suv2Cache);
      p2suv2Cache := TessellateUV(level, controlUv2s[2], controlUv2s[5], controlUv2s[8], p2suv2Cache);
    }

    /** The second pass for positions: for i = 0 .. level, appends the tessellation of
        p0sCache[i], p1sCache[i], p2sCache[i] to vertexCache. */
    method AssemblePositions(level: int)
      requires |p0sCache| >= RowCount(level) && |p1sCache| >= RowCount(level) && |p2sCache| >= RowCount(level)
      modifies this`vertexCache
      ensures vertexCache == old(vertexCache) + GridRows(level, p0sCache, p1sCache, p2sCache, RowCount(level), CurvePoint)
    {
      var i := 0;
      while i <= level
        invariant 0 <= i <= RowCount(level)
        invariant vertexCache == old(vertexCache) + GridRows(level, p0sCache, p1sCache, p2sCache, i, CurvePoint)
      {
        vertexCache := Tessellate(level, p0sCache[i], p1sCache[i], p2sCache[i], vertexCache);
        i := i + 1;
      }
    }

    /** The second pass for the first texture channel, into uvCache. */
    method AssembleUvs(level: int)
      requires |p0suvCache| >= RowCount(level) && |p1suvCache| >= RowCount(level) && |p2suvCache| >= RowCount(level)
      modifies this`uvCache
      ensures uvCache == old(uvCache) + GridRows(level, p0suvCache, p1suvCache, p2suvCache, RowCount(level), CurvePointUV)
    {
      var i := 0;
      while i <= level
        invariant 0 <= i <= RowCount(level)
        invariant uvCache == old(uvCache) + GridRows(level, p0suvCache, p1suvCache, p2suvCache, i, CurvePointUV)
      {
        uvCache := TessellateUV(level, p0suvCache[i], p1suvCache[i], p2suvCache[i], uvCache);
        i := i + 1;
      }
    }

    /** The second pass for the second texture channel, into uv2Cache. */
    method AssembleUv2s(level: int)
      requires |p0suv2Cache| >= RowCount(level) && |p1suv2Cache| >= RowCount(level) && |p2suv2Cache| >= RowCount(level)
      modifies this`uv2Cache
      ensures uv2Cache == old(uv2Cache) + GridRows(level, p0suv2Cache, p1suv2Cache, p2suv2Cache, RowCount(level), CurvePointUV)
    {
      var i := 0;
      while i <= level
        invariant 0 <= i <= RowCount(level)
        invariant uv2Cache == old(uv2Cache) + GridRows(level, p0suv2Cache, p1suv2Cache, p2suv2Cache, i, CurvePointUV)
      {
        uv2Cache := TessellateUV(level, p0suv2Cache[i], p1suv2Cache[i], p2suv2Cache[i], uv2Cache);
        i := i + 1;
      }
    }

    /** Both passes for positions, on emptied lists: afterwards the intermediate
        lists hold the control columns and vertexCache holds the grid. */
    method BuildPositions(level: int, control: seq<Vec3>)
      requires |control| >= 9
      requires p0sCache == [] && p1sCache == [] && p2sCache == [] && vertexCache == []
      modifies this`p0sCache, this`p1sCache, this`p2sCache, this`vertexCache
      ensures ChannelBuilt(level, control, CurvePoint, p0sCache, p1sCache, p2sCache, vertexCache)
      ensures |vertexCache| == RowCount(level) * (InteriorCount(level) + 2)
    {
      TessellatePositions(level, control);
      AssemblePositions(level);
    }

    /** Both passes for the first texture channel, on emptied lists. */
    method BuildUvs(level: int, controlUvs: seq<Vec2>)
      requires |controlUvs| >= 9
      requires p0suvCache == [] && p1suvCache == [] && p2suvCache == [] && uvCache == []
      modifies this`p0suvCache, this`p1suvCache, this`p2suvCache, this`uvCache
      ensures ChannelBuilt(level, controlUvs, CurvePointUV, p0suvCache, p1suvCache, p2suvCache, uvCache)
      ensures |uvCache| == RowCount(level) * (InteriorCount(level) + 2)
    {
      TessellateUvs(level, controlUvs);
      AssembleUvs(level);
    }

    /** Both passes for the second texture channel, on emptied lists. */
    method BuildUv2s(level: int, controlUv2s: seq<Vec2>)
      requires |controlUv2s| >= 9
      requires p0suv2Cache == [] && p1suv2Cache == [] && p2suv2Cache == [] && uv2Cache == []
      modifies this`p0suv2Cache, this`p1suv2Cache, this`p2suv2Cache, this`uv2Cache
      ensures ChannelBuilt(level, controlUv2s, CurvePointUV, p0suv2Cache, p1suv2Cache, p2suv2Cache, uv2Cache)
      ensures |uv2Cache| == RowCount(level) * (InteriorCount(level) + 2)
    {
      TessellateUv2s(level, controlUv2s);
      AssembleUv2s(level);
    }

    /** Both texture channels and the triangle indices, on emptied lists. */
    method BuildTextures(level: int, controlUvs: seq<Vec2>, controlUv2s: seq<Vec2>)
      requires |controlUvs| >= 9 && |controlUv2s| >= 9
      requires p0suvCache == [] && p1suvCache == [] && p2suvCache == [] && uvCache == []
      requires p0suv2Cache == [] && p1suv2Cache == [] && p2suv2Cache == [] && uv2Cache == []
      requires indiciesCache == []
      modifies this`p0suvCache, this`p1suvCache, this`p2suvCache, this`uvCache
      modifies this`p0suv2Cache, this`p1suv2Cache, this`p2suv2Cache, this`uv2Cache, this`indiciesCache
      ensures ChannelBuilt(level, controlUvs, CurvePointUV, p0suvCache, p1suvCache, p2suvCache, uvCache)
      ensures ChannelBuilt(level, controlUv2s, CurvePointUV, p0suv2Cache, p1suv2Cache, p2suv2Cache, uv2Cache)
      ensures |uvCache| == |uv2Cache| == RowCount(level) * (InteriorCount(level) + 2)
      ensures level >= 0 ==> indiciesCache == PatchIndices(level)
    {
      BuildUvs(level, controlUvs);
      BuildUv2s(level, controlUv2s);
      indiciesCache := AppendTriangleIndices(level, indiciesCache);
    }

    /** Everything a build does after pre-sizing, on emptied lists: both passes for
        every channel, then the triangle indices of the (level + 1) x (level + 1)
        grid. The vertex appends grow the vertex list's capacity as needed. */
    method FillLists(level: int, control: seq<Vec3>, controlUvs: seq<Vec2>, controlUv2s: seq<Vec2>)
      requires |control| >= 9 && |controlUvs| >= 9 && |controlUv2s| >= 9
      requires Empty()
      modifies this
      ensures ChannelBuilt(level, control, CurvePoint, p0sCache, p1sCache, p2sCache, vertexCache) &&
              ChannelBuilt(level, controlUvs, CurvePointUV, p0suvCache, p1suvCache, p2suvCache, uvCache) &&
              ChannelBuilt(level, controlUv2s, CurvePointUV, p0suv2Cache, p1suv2Cache, p2suv2Cache, uv2Cache)
      ensures level >= 0 ==> indiciesCache == PatchIndices(level)
      ensures vertexCapacity == GrowCapacity(old(vertexCapacity), |vertexCache|)
      ensures Valid()
    {
      BuildPositions(level, control);
      vertexCapacity := GrowCapacity(vertexCapacity, |vertexCache|);
      BuildTextures(level, controlUvs, controlUv2s);
    }

    /** Builds the patch of the 3x3 control points `control` (with texture
        coordinates `controlUvs` and `controlUv2s`) at tessellation level `level`,
        as the original does: the lists are pre-sized while they still hold the
        previous build's contents, and only then emptied. Returns false where the
        original throws, which happens exactly when pre-sizing sets a capacity below
        a list's count; the lists are then left as they were.

        When it succeeds, every list is a function of the arguments alone, whatever
        earlier builds left in it. The original interleaves the three channels
        (first pass of all three, then the second pass of all three); each channel
        reads and writes only its own lists, so running them one channel after
        another ends in the same lists. The level is not checked: levels below 1
        give the degenerate results described by PatchGrid.GridLevelZero,
        PatchGrid.GridNegativeLevel and TriangleIndices.PatchIndicesLevelZero. */
    method Build(level: int, control: seq<Vec3>, controlUvs: seq<Vec2>, controlUv2s: seq<Vec2>)
      returns (ok: bool)
      requires |control| >= 9 && |controlUvs| >= 9 && |controlUv2s| >= 9
      modifies this
      ensures ok <==> !PresizeThrows(old(vertexCapacity), level, |old(vertexCache)|, |old(uv2Cache)|,
                                     |old(uvCache)|, |old(indiciesCache)|)
      ensures !ok ==> Lists() == old(Lists())
      ensures !ok ==> vertexCapacity == PresizedCapacity(old(vertexCapacity), level, |old(vertexCache)|)
      ensures ok ==> (ChannelBuilt(level, control, CurvePoint, p0sCache, p1sCache, p2sCache, vertexCache) &&
                      ChannelBuilt(level, controlUvs, CurvePointUV, p0suvCache, p1suvCache, p2suvCache, uvCache) &&
                      ChannelBuilt(level, controlUv2s, CurvePointUV, p0suv2Cache, p1suv2Cache, p2suv2Cache, uv2Cache))
      ensures ok && level >= 0 ==> indiciesCache == PatchIndices(level)
      ensures ok ==> vertexCapacity == GrowCapacity(PresizedCapacity(old(vertexCapacity), level, |old(vertexCache)|),
                                                    |vertexCache|)
      ensures ok ==> Valid()
      ensures old(Valid()) ==> Valid()
      ensures old(Valid()) ==> (ok <==> !(old(vertexCapacity) < ReservedCapacity(level) < |old(indiciesCache)|))
    {
      if Valid() {
        OnlyIndicesThrow(vertexCapacity, level, |vertexCache|, |uv2Cache|, |uvCache|, |indiciesCache|);
      }
      ok := Presize(level);
      if !ok {
        return;
      }
      EmptyLists();
      FillLists(level, control, controlUvs, controlUv2s);
    }

    /** The build with the lists emptied before they are pre-sized, as evidently
        intended: pre-sizing empty lists cannot throw, so the build always succeeds
        and its result never depends on earlier builds. */
    method BuildClearedFirst(level: int, control: seq<Vec3>, controlUvs: seq<Vec2>, controlUv2s: seq<Vec2>)
      requires |control| >= 9 && |controlUvs| >= 9 && |controlUv2s| >= 9
      modifies this
      ensures ChannelBuilt(level, control, CurvePoint, p0sCache, p1sCache, p2sCache, vertexCache) &&
              ChannelBuilt(level, controlUvs, CurvePointUV, p0suvCache, p1suvCache, p2suvCache, uvCache) &&
              ChannelBuilt(level, controlUv2s, CurvePointUV, p0suv2Cache, p1suv2Cache, p2suv2Cache, uv2Cache)
      ensures level >= 0 ==> indiciesCache == PatchIndices(level)
      ensures vertexCapacity == GrowCapacity(PresizedCapacity(old(vertexCapacity), level, 0), |vertexCache|)
      ensures Valid()
    {
      EmptyLists();
      var ok := Presize(level);
      PresizeEmptyNeverThrows(old(vertexCapacity), level);
      assert ok;
      FillLists(level, control, controlUvs, controlUv2s);
    }
  }

  /** A build at level `low` followed by a build at level `high` on fresh lists, for
      any patch, where the second level reserves more than twice the first (the
      vertex capacity the first build leaves, as its last vertex overflows the
      reserved capacity) but fewer slots than the first build's 6 * (low * low)
      indices: the first build succeeds and the second throws. */
  method RebuildThrows(low: int, high: int, control: seq<Vec3>, controlUvs: seq<Vec2>, controlUv2s: seq<Vec2>)
    returns (first: bool, second: bool)
    requires low >= 1 && 2 * ReservedCapacity(low) < ReservedCapacity(high) < 6 * (low * low)
    requires |control| >= 9 && |controlUvs| >= 9 && |controlUv2s| >= 9
    ensures first && !second
  {
    var caches := new Caches();
    PresizeEmptyNeverThrows(0, low);
    first := caches.Build(low, control, controlUvs, controlUv2s);
    var reserved := ReservedCapacity(low);
    assert |caches.vertexCache| == reserved + 1;
    AddGrows(reserved, reserved);
    assert caches.vertexCapacity == 2 * reserved;
    PatchIndicesInBounds(low);
    assert |caches.indiciesCache| == 6 * (low * low);
    assert PresizeThrows(caches.vertexCapacity, high, |caches.vertexCache|, |caches.uv2Cache|,
                         |caches.uvCache|, |caches.indiciesCache|);
    second := caches.Build(high, control, controlUvs, controlUv2s);
  }

  /** The smallest case: a level 3 build leaves 54 indices and a vertex capacity of
      30 (15 reserved, doubled by the 16th vertex); a level 5 build then raises the
      capacities to 35, below the 54 indices, and throws. */
  method SecondBuildThrows(control: seq<Vec3>, controlUvs: seq<Vec2>, controlUv2s: seq<Vec2>)
    returns (first: bool, second: bool)
    requires |control| >= 9 && |controlUvs| >= 9 && |controlUv2s| >= 9
    ensures first && !second
  {
    first, second := RebuildThrows(3, 5, control, controlUvs, controlUv2s);
  }
}
