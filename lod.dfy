/**
 * LOD generation by vertex clustering. A grid of `resolution` cells spans the
 * longest side of the mesh's bounds. Every vertex falls into one cell, each
 * occupied cell becomes one new vertex, and the triangles are remapped onto the
 * new vertices. Triangles that collapse are dropped.
 */
module LODGenerator {
  import opened Common
  import opened Grouping
  import opened Geometry

  /** The parts of a Unity mesh that the simplifier reads. */
  datatype Mesh = Mesh(vertices: seq<Vec3>, triangles: seq<int>, boundsMin: Vec3, boundsSize: Vec3)

  /**
   * The simplified mesh. New vertex `c` is the average of the original vertices
   * listed in `vertices[c]`. The averaged positions, normals and UVs are not
   * modelled; only which vertices are averaged is.
   */
  datatype SimplifiedMesh = SimplifiedMesh(vertices: seq<seq<nat>>, triangles: seq<nat>, indexFormat: IndexFormat)

  /** Unity keeps a mesh's index list as whole triangles over existing vertices. */
  ghost predicate ValidTriangles(vertexCount: nat, triangles: seq<int>)
  {
    && |triangles| % 3 == 0
    && forall i :: 0 <= i < |triangles| ==> 0 <= triangles[i] < vertexCount
  }

  // ---------------------------------------------------------------------------
  // Grid resolution and cell size

  /**
   * `Mathf.RoundToInt`: the nearest integer, and on a tie the even one
   * (.NET's default midpoint rounding).
   */
  function RoundToInt(x: real): (n: int)
    ensures x - 0.5 <= n as real <= x + 0.5
    ensures (n as real == x - 0.5 || n as real == x + 0.5) ==> n % 2 == 0
  {
    var f := x.Floor;
    var frac := x - f as real;
    if frac < 0.5 then f
    else if frac > 0.5 then f + 1
    else if f % 2 == 0 then f
    else f + 1
  }

  /** Grid resolution for a quality ratio: `max(5, round(50 * quality))`. */
  function Resolution(qualityRatio: real): (r: int)
    ensures r >= 5
    ensures r as real >= 50.0 * qualityRatio - 0.5
    ensures 50.0 * qualityRatio >= 5.0 ==> r as real <= 50.0 * qualityRatio + 0.5
  {
    var rounded := RoundToInt(50.0 * qualityRatio);
    if rounded < 5 then 5 else rounded
  }

  /** The two resolutions the generator uses: LOD1 at quality 0.5, LOD2 at 0.2. */
  lemma LodResolutions()
    ensures Resolution(Lod1Quality) == 25
    ensures Resolution(Lod2Quality) == 10
  {
    assert (50.0 * Lod1Quality).Floor == 25;
    assert (50.0 * Lod2Quality).Floor == 10;
  }

  const Lod1Quality: real := 0.5
  const Lod2Quality: real := 0.2

  /** The longest side of the bounds. */
  function MaxDim(size: Vec3): (d: real)
    ensures d >= size.x && d >= size.y && d >= size.z
    ensures d == size.x || d == size.y || d == size.z
  {
    var yz := if size.y >= size.z then size.y else size.z;
    if size.x >= yz then size.x else yz
  }

  /**
   * Edge length of a grid cell: the longest side of the bounds divided by the
   * resolution, with a side of 1 standing in for bounds that have no extent.
   */
  function CellSize(boundsSize: Vec3, gridResolution: int): (cs: real)
    requires gridResolution > 0
    ensures cs > 0.0
    ensures MaxDim(boundsSize) <= 0.0 ==> cs == 1.0 / gridResolution as real
    ensures MaxDim(boundsSize) > 0.0 ==> cs * gridResolution as real == MaxDim(boundsSize)
  {
    var maxDim := MaxDim(boundsSize);
    (if maxDim <= 0.0 then 1.0 else maxDim) / gridResolution as real
  }

  /** The grid cell of a position: per axis, the floor of the offset over the cell size. */
  function CellOf(p: Vec3, origin: Vec3, cellSize: real): Cell
    requires cellSize > 0.0
  {
    Cell(((p.x - origin.x) / cellSize).Floor,
         ((p.y - origin.y) / cellSize).Floor,
         ((p.z - origin.z) / cellSize).Floor)
  }

  /** Along one axis, cell `k` holds exactly the offsets in `[k * size, (k + 1) * size)`. */
  lemma CellBounds(offset: real, cellSize: real)
    requires cellSize > 0.0
    ensures (offset / cellSize).Floor as real * cellSize <= offset
    ensures offset < ((offset / cellSize).Floor as real + 1.0) * cellSize
  {
    var q := offset / cellSize;
    var k := q.Floor as real;
    assert q * cellSize == offset;
    MulLess(k, q, cellSize);
    MulLess(q, k + 1.0, cellSize);
  }

  lemma MulLess(a: real, b: real, c: real)
    requires a <= b && c > 0.0
    ensures a * c <= b * c
    ensures a < b ==> a * c < b * c
  {
    assert b * c - a * c == (b - a) * c;
  }

  // ---------------------------------------------------------------------------
  // Clustering

  /** The cell key of every vertex. */
  function CellKeys(vertices: seq<Vec3>, origin: Vec3, cellSize: real): (keys: seq<Cell>)
    requires cellSize > 0.0
    ensures |keys| == |vertices|
    ensures forall i :: 0 <= i < |vertices| ==> keys[i] == CellOf(vertices[i], origin, cellSize)
  {
    seq(|vertices|, i requires 0 <= i < |vertices| => CellOf(vertices[i], origin, cellSize))
  }

  /** The cell key of every vertex of `source` on a grid of `gridResolution`. */
  function GridKeys(source: Mesh, gridResolution: int): (keys: seq<Cell>)
    requires gridResolution > 0
    ensures |keys| == |source.vertices|
  {
    CellKeys(source.vertices, source.boundsMin, CellSize(source.boundsSize, gridResolution))
  }

  /** What the grid dictionary is fed: vertex `i` under its cell key. */
  function Entries(keys: seq<Cell>): (e: seq<(Cell, nat)>)
    ensures |e| == |keys|
    ensures forall i :: 0 <= i < |keys| ==> e[i] == (keys[i], i)
  {
    seq(|keys|, i requires 0 <= i < |keys| => (keys[i], i))
  }

  /** The occupied cells in the order the grid dictionary enumerates them. */
  function Occupied(keys: seq<Cell>): seq<Cell>
  {
    Keys(Entries(keys))
  }

  /** The new vertices: for each occupied cell, the original vertices inside it. */
  function Clusters(keys: seq<Cell>): (cl: seq<seq<nat>>)
    ensures |cl| == |Occupied(keys)|
  {
    var order := Occupied(keys);
    seq(|order|, c requires 0 <= c < |order| => Bucket(Entries(keys), order[c]))
  }

  /** The new index of original vertex `i`: the position of its cell among the occupied ones. */
  function ClusterIndex(keys: seq<Cell>, i: nat): (c: nat)
    requires i < |keys|
    ensures c < |Occupied(keys)| && Occupied(keys)[c] == keys[i]
  {
    var e := Entries(keys);
    KeysMembership(e, keys[i]);
    assert e[i].0 == keys[i];
    IndexOf(Keys(e), keys[i])
  }

  /** The old-to-new index table. */
  function ClusterMap(keys: seq<Cell>): (m: seq<nat>)
    ensures |m| == |keys|
  {
    seq(|keys|, i requires 0 <= i < |keys| => ClusterIndex(keys, i))
  }

  /** The list under a cell holds exactly the vertices whose key is that cell. */
  lemma CellMembers(keys: seq<Cell>, k: Cell)
    ensures forall v: nat :: v in Bucket(Entries(keys), k) <==> v < |keys| && keys[v] == k
  {
    var e := Entries(keys);
    forall v: nat | true
      ensures v in Bucket(e, k) <==> v < |keys| && keys[v] == k
    {
      BucketMembership(e, k, v);
      if v < |keys| && keys[v] == k {
        assert e[v] == (k, v);
      }
    }
  }

  /**
   * Every occupied cell is one new vertex and no two new vertices share a
   * cell, so there are at most as many new vertices as original ones. Every
   * original vertex lies in exactly one of them, and the cluster sizes add up
   * to the original vertex count.
   */
  lemma ClustersPartition(keys: seq<Cell>)
    ensures Distinct(Occupied(keys))
    ensures |Clusters(keys)| <= |keys|
    ensures forall c, v: nat :: 0 <= c < |Clusters(keys)| ==>
              (v in Clusters(keys)[c] <==> v < |keys| && ClusterIndex(keys, v) == c)
    ensures TotalSize(Entries(keys), Occupied(keys)) == |keys|
  {
    var e := Entries(keys);
    var order := Occupied(keys);
    KeysDistinct(e);
    BucketsPartition(e);
    forall c, v: nat | 0 <= c < |order|
      ensures v in Clusters(keys)[c] <==> v < |keys| && ClusterIndex(keys, v) == c
    {
      CellMembers(keys, order[c]);
      if v < |keys| && keys[v] == order[c] {
        IndexOfDistinct(order, c);
      }
    }
  }

  /**
   * Two original vertices get the same new index iff they share a cell, and
   * every new index `0 .. cells-1` is used: the new indices are sequential.
   */
  lemma ClusterMapProperties(keys: seq<Cell>)
    ensures forall i, j :: 0 <= i < |keys| && 0 <= j < |keys| ==>
              (ClusterMap(keys)[i] == ClusterMap(keys)[j] <==> keys[i] == keys[j])
    ensures forall i :: 0 <= i < |keys| ==> ClusterMap(keys)[i] < |Occupied(keys)|
    ensures forall c :: 0 <= c < |Occupied(keys)| ==> c in ClusterMap(keys)
  {
    var e := Entries(keys);
    var order := Occupied(keys);
    KeysDistinct(e);
    forall c | 0 <= c < |Occupied(keys)|
      ensures c in ClusterMap(keys)
    {
      var i := CellWitness(keys, c);
      assert ClusterMap(keys)[i] == c;
    }
  }

  /** A vertex inside the `c`-th occupied cell; its new index is `c`. */
  lemma CellWitness(keys: seq<Cell>, c: nat) returns (i: nat)
    requires c < |Occupied(keys)|
    ensures i < |keys| && keys[i] == Occupied(keys)[c] && ClusterMap(keys)[i] == c
  {
    var e := Entries(keys);
    var order := Occupied(keys);
    KeysDistinct(e);
    KeysMembership(e, order[c]);
    i :| 0 <= i < |e| && e[i].0 == order[c];
    IndexOfDistinct(order, c);
    assert ClusterIndex(keys, i) == c;
  }

  // ---------------------------------------------------------------------------
  // Triangle rebuild

  /**
   * The input triangles remapped in input order, keeping a triangle only when
   * its three new indices are pairwise distinct.
   */
  function Rebuild(m: seq<nat>, tris: seq<int>): seq<nat>
    requires ValidTriangles(|m|, tris)
    decreases |tris|
  {
    if tris == [] then []
    else
      var n := |tris|;
      var rest := Rebuild(m, tris[..n - 3]);
      var a, b, c := m[tris[n - 3]], m[tris[n - 2]], m[tris[n - 1]];
      if a != b && b != c && c != a then rest + [a, b, c] else rest
  }

  /** No index is used twice within one triangle. */
  ghost predicate NonDegenerate(tris: seq<int>)
    requires |tris| % 3 == 0
  {
    forall t :: 0 <= t < |tris| / 3 ==>
      tris[3 * t] != tris[3 * t + 1] && tris[3 * t + 1] != tris[3 * t + 2] && tris[3 * t + 2] != tris[3 * t]
  }

  /**
   * The rebuilt list is whole triangles, no longer than the input, every index
   * addresses a new vertex, and no kept triangle is degenerate.
   */
  lemma {:induction false} RebuildShape(m: seq<nat>, tris: seq<int>, bound: nat)
    requires ValidTriangles(|m|, tris)
    requires forall i :: 0 <= i < |m| ==> m[i] < bound
    ensures |Rebuild(m, tris)| % 3 == 0
    ensures |Rebuild(m, tris)| <= |tris|
    ensures forall i :: 0 <= i < |Rebuild(m, tris)| ==> Rebuild(m, tris)[i] < bound
    ensures NonDegenerate(Rebuild(m, tris))
    decreases |tris|
  {
    if tris != [] {
      RebuildShape(m, tris[..|tris| - 3], bound);
    }
  }

  /** Remap every index through `m`, dropping nothing. */
  function RemapAll(m: seq<nat>, tris: seq<int>): (r: seq<nat>)
    requires forall i :: 0 <= i < |tris| ==> 0 <= tris[i] < |m|
    ensures |r| == |tris|
  {
    seq(|tris|, i requires 0 <= i < |tris| => m[tris[i]])
  }

  /**
   * When no two vertices share a cell (an injective table), nothing collapses:
   * every non-degenerate input triangle survives, remapped.
   */
  lemma {:induction false} RebuildInjective(m: seq<nat>, tris: seq<int>)
    requires ValidTriangles(|m|, tris)
    requires Distinct(m)
    requires NonDegenerate(tris)
    ensures Rebuild(m, tris) == RemapAll(m, tris)
    decreases |tris|
  {
    if tris != [] {
      var n := |tris|;
      NonDegenerateInit(tris);
      RebuildInjective(m, tris[..n - 3]);
      RemapAllSnoc(m, tris);
    }
  }

  /** Dropping the last triangle keeps a list non-degenerate, and the last triangle is proper. */
  lemma NonDegenerateInit(tris: seq<int>)
    requires |tris| % 3 == 0 && |tris| >= 3
    requires NonDegenerate(tris)
    ensures NonDegenerate(tris[..|tris| - 3])
    ensures var n := |tris|; tris[n - 3] != tris[n - 2] && tris[n - 2] != tris[n - 1] && tris[n - 1] != tris[n - 3]
  {
    var n := |tris|;
    var init := tris[..n - 3];
    forall t | 0 <= t < |init| / 3
      ensures init[3 * t] != init[3 * t + 1] && init[3 * t + 1] != init[3 * t + 2] && init[3 * t + 2] != init[3 * t]
    {
      assert init[3 * t] == tris[3 * t] && init[3 * t + 1] == tris[3 * t + 1] && init[3 * t + 2] == tris[3 * t + 2];
    }
    var k := n / 3 - 1;
    assert 3 * k == n - 3;
  }

  /** Remapping the whole list is remapping all but the last triangle, then the last one. */
  lemma RemapAllSnoc(m: seq<nat>, tris: seq<int>)
    requires |tris| >= 3
    requires forall i :: 0 <= i < |tris| ==> 0 <= tris[i] < |m|
    ensures var n := |tris|;
            RemapAll(m, tris) == RemapAll(m, tris[..n - 3]) + [m[tris[n - 3]], m[tris[n - 2]], m[tris[n - 1]]]
  {
  }

  // ---------------------------------------------------------------------------
  // The simplifier

  /** Step 1, "Cluster Vertices": fill the grid dictionary from cell key to vertex list. */
  method ClusterVertices(vertices: seq<Vec3>, origin: Vec3, cellSize: real)
    returns (grid: map<Cell, seq<nat>>, order: seq<Cell>)
    requires cellSize > 0.0
    ensures order == Occupied(CellKeys(vertices, origin, cellSize))
    ensures forall k :: k in grid <==> k in order
    ensures forall k :: k in grid ==> grid[k] == Bucket(Entries(CellKeys(vertices, origin, cellSize)), k)
  {
    ghost var entries := Entries(CellKeys(vertices, origin, cellSize));
    grid := map[];
    order := [];  // the grid's enumeration order
    for i := 0 to |vertices|
      invariant Mirrors(grid, order, entries[..i])
    {
      var key := CellOf(vertices[i], origin, cellSize);
      assert entries[i] == (key, i);
      MirrorsStep(grid, order, entries, i);
      if key !in grid {
        grid := grid[key := []];
        order := order + [key];
      }
      grid := grid[key := grid[key] + [i]];
    }
    assert entries[..|vertices|] == entries;
  }

  /**
   * Step 2, "Create Representative Vertices": one new vertex per occupied cell
   * in enumeration order, and every original index mapped to its cell's number.
   */
  method NumberCells(grid: map<Cell, seq<nat>>, order: seq<Cell>, n: nat, ghost keys: seq<Cell>)
    returns (oldToNewIndex: array<nat>, newVertices: seq<seq<nat>>)
    requires |keys| == n
    requires order == Occupied(keys)
    requires forall k :: k in grid <==> k in order
    requires forall k :: k in grid ==> grid[k] == Bucket(Entries(keys), k)
    ensures fresh(oldToNewIndex)
    ensures oldToNewIndex[..] == ClusterMap(keys)
    ensures newVertices == Clusters(keys)
  {
    ghost var entries := Entries(keys);
    KeysDistinct(entries);
    oldToNewIndex := new nat[n];
    newVertices := [];
    var currentNewIndex := 0;
    while currentNewIndex < |order|
      invariant currentNewIndex <= |order|
      invariant newVertices == Clusters(keys)[..currentNewIndex]
      invariant forall j :: 0 <= j < n && keys[j] in order[..currentNewIndex] ==>
                  oldToNewIndex[j] == ClusterIndex(keys, j)
    {
      var cell := order[currentNewIndex];
      var indices := grid[cell];
      newVertices := newVertices + [indices];
      NumberCell(oldToNewIndex, indices, keys, currentNewIndex);
      currentNewIndex := currentNewIndex + 1;
    }
    forall j | 0 <= j < n
      ensures oldToNewIndex[j] == ClusterIndex(keys, j)
    {
      KeysMembership(entries, keys[j]);
      assert entries[j].0 == keys[j];
      assert order[..|order|] == order;
    }
  }

  /** One step of `NumberCells`: the vertices of the `c`-th occupied cell are numbered `c`. */
  method NumberCell(oldToNewIndex: array<nat>, indices: seq<nat>, ghost keys: seq<Cell>, c: nat)
    requires Distinct(Occupied(keys)) && c < |Occupied(keys)|
    requires oldToNewIndex.Length == |keys|
    requires indices == Bucket(Entries(keys), Occupied(keys)[c])
    requires forall j :: 0 <= j < |keys| && keys[j] in Occupied(keys)[..c] ==>
               oldToNewIndex[j] == ClusterIndex(keys, j)
    modifies oldToNewIndex
    ensures forall j :: 0 <= j < |keys| && keys[j] in Occupied(keys)[..c + 1] ==>
              oldToNewIndex[j] == ClusterIndex(keys, j)
  {
    ghost var order := Occupied(keys);
    CellMembers(keys, order[c]);
    IndexOfDistinct(order, c);
    forall s | 0 <= s < |indices|
      ensures indices[s] < |keys| && keys[indices[s]] == order[c]
    {
      assert indices[s] in indices;
    }
    AssignCluster(oldToNewIndex, indices, c);
    assert order[..c + 1] == order[..c] + [order[c]];
    forall j | 0 <= j < |keys| && keys[j] in order[..c + 1]
      ensures oldToNewIndex[j] == ClusterIndex(keys, j)
    {
      if keys[j] == order[c] {
        assert j in indices;
        var s :| 0 <= s < |indices| && indices[s] == j;
      } else {
        assert j !in indices;
      }
    }
  }

  /** Every vertex of one cell gets the cell's new index; every other entry is kept. */
  method AssignCluster(oldToNewIndex: array<nat>, indices: seq<nat>, index: nat)
    requires forall s :: 0 <= s < |indices| ==> indices[s] < oldToNewIndex.Length
    modifies oldToNewIndex
    ensures forall s :: 0 <= s < |indices| ==> oldToNewIndex[indices[s]] == index
    ensures forall j :: 0 <= j < oldToNewIndex.Length && j !in indices ==> oldToNewIndex[j] == old(oldToNewIndex[j])
  {
    for t := 0 to |indices|
      invariant forall s :: 0 <= s < t ==> oldToNewIndex[indices[s]] == index
      invariant forall j :: 0 <= j < oldToNewIndex.Length && j !in indices[..t] ==> oldToNewIndex[j] == old(oldToNewIndex[j])
    {
      oldToNewIndex[indices[t]] := index;
      assert indices[..t + 1] == indices[..t] + [indices[t]];
    }
    assert indices[..|indices|] == indices;
  }

  /** A prefix of whole triangles is a valid triangle list. */
  lemma ValidPrefix(vertexCount: nat, tris: seq<int>, i: nat)
    requires ValidTriangles(vertexCount, tris)
    requires i % 3 == 0 && i <= |tris|
    ensures ValidTriangles(vertexCount, tris[..i])
  {
    forall j | 0 <= j < i
      ensures 0 <= tris[..i][j] < vertexCount
    {
      assert tris[..i][j] == tris[j];
    }
  }

  /** Rebuilding one more triangle of a prefix appends it when it is not degenerate. */
  lemma RebuildStep(m: seq<nat>, tris: seq<int>, i: nat)
    requires ValidTriangles(|m|, tris)
    requires i % 3 == 0 && i + 3 <= |tris|
    ensures ValidTriangles(|m|, tris[..i]) && ValidTriangles(|m|, tris[..i + 3])
    ensures var a, b, c := m[tris[i]], m[tris[i + 1]], m[tris[i + 2]];
            Rebuild(m, tris[..i + 3]) == Rebuild(m, tris[..i]) + (if a != b && b != c && c != a then [a, b, c] else [])
  {
    ValidPrefix(|m|, tris, i);
    ValidPrefix(|m|, tris, i + 3);
    var p := tris[..i + 3];
    assert p[..|p| - 3] == tris[..i];
    assert p[|p| - 3] == tris[i] && p[|p| - 2] == tris[i + 1] && p[|p| - 1] == tris[i + 2];
  }

  /** Step 3, "Rebuild Triangles": remap every triangle and keep the non-degenerate ones. */
  method RebuildTriangles(oldToNewIndex: array<nat>, triangles: seq<int>) returns (newTriangles: seq<nat>)
    requires ValidTriangles(oldToNewIndex.Length, triangles)
    ensures newTriangles == Rebuild(oldToNewIndex[..], triangles)
  {
    ghost var m := oldToNewIndex[..];
    newTriangles := [];
    var i := 0;
    while i < |triangles|
      invariant i <= |triangles| && i % 3 == 0
      invariant newTriangles == Rebuild(m, triangles[..i])
    {
      RebuildStep(m, triangles, i);
      var newIdx0 := oldToNewIndex[triangles[i]];
      var newIdx1 := oldToNewIndex[triangles[i + 1]];
      var newIdx2 := oldToNewIndex[triangles[i + 2]];
      // A triangle with two equal corners is a line or a point.
      if newIdx0 != newIdx1 && newIdx1 != newIdx2 && newIdx2 != newIdx0 {
        newTriangles := newTriangles + [newIdx0, newIdx1, newIdx2];
      }
      i := i + 3;
    }
    assert triangles[..i] == triangles;
  }

  /**
   * What `SimplifyMeshVertexClustering` yields: nothing for a mesh without
   * vertices or when every triangle collapsed, otherwise the clusters, the
   * rebuilt triangles and an index width that can address every new vertex.
   */
  function Simplified(source: Mesh, gridResolution: int): (r: Option<SimplifiedMesh>)
    requires gridResolution > 0
    requires ValidTriangles(|source.vertices|, source.triangles)
    ensures |source.vertices| == 0 ==> r == None
  {
    if |source.vertices| == 0 then None
    else
      var keys := GridKeys(source, gridResolution);
      var tris := Rebuild(ClusterMap(keys), source.triangles);
      if tris == [] then None
      else Some(SimplifiedMesh(Clusters(keys), tris, IndexFormatFor(|Clusters(keys)|)))
  }

  /**
   * A simplified mesh is a well-formed mesh no larger than its source: at least
   * one and at most as many vertices, whole non-degenerate triangles over the
   * new vertices, no more indices than before, and 32-bit indices exactly when
   * 16 bits cannot address every vertex.
   */
  lemma SimplifiedShape(source: Mesh, gridResolution: int)
    requires gridResolution > 0
    requires ValidTriangles(|source.vertices|, source.triangles)
    ensures var r := Simplified(source, gridResolution);
            r.Some? ==>
              && 0 < |r.value.vertices| <= |source.vertices|
              && |r.value.triangles| % 3 == 0
              && 0 < |r.value.triangles| <= |source.triangles|
              && (forall i :: 0 <= i < |r.value.triangles| ==> r.value.triangles[i] < |r.value.vertices|)
              && NonDegenerate(r.value.triangles)
              && (r.value.indexFormat == UInt32 <==> |r.value.vertices| > MaxUInt16VertexCount)
  {
    if |source.vertices| > 0 {
      var keys := GridKeys(source, gridResolution);
      var m := ClusterMap(keys);
      var cl := Clusters(keys);
      assert |cl| <= |keys| by {
        ClustersPartition(keys);
      }
      assert forall i :: 0 <= i < |m| ==> m[i] < |cl| by {
        ClusterMapProperties(keys);
      }
      RebuildShape(m, source.triangles, |cl|);
      if Rebuild(m, source.triangles) != [] {
        assert 0 < |cl| by {
          KeysMembership(Entries(keys), keys[0]);
          assert Entries(keys)[0].0 == keys[0];
        }
      }
    }
  }

  /**
   * `SimplifyMeshVertexClustering`: cluster, number the occupied cells in
   * enumeration order, rebuild the triangles.
   */
  method SimplifyMeshVertexClustering(source: Mesh, gridResolution: int) returns (r: Option<SimplifiedMesh>)
    requires gridResolution > 0
    requires ValidTriangles(|source.vertices|, source.triangles)
    ensures r == Simplified(source, gridResolution)
  {
    if |source.vertices| == 0 {
      return None;
    }

    var maxDim := MaxDim(source.boundsSize);
    if maxDim <= 0.0 {
      maxDim := 1.0;  // flat or empty bounds
    }
    var cellSize := maxDim / gridResolution as real;
    assert cellSize == CellSize(source.boundsSize, gridResolution);
    ghost var keys := GridKeys(source, gridResolution);

    var grid, order := ClusterVertices(source.vertices, source.boundsMin, cellSize);
    var oldToNewIndex, newVertices := NumberCells(grid, order, |source.vertices|, keys);
    var newTriangles := RebuildTriangles(oldToNewIndex, source.triangles);
    if |newTriangles| == 0 {
      return None;  // simplified to nothing
    }
    r := Some(SimplifiedMesh(newVertices, newTriangles, IndexFormatFor(|newVertices|)));
  }

  // ---------------------------------------------------------------------------
  // LOD group generation

  /** Which renderer a LOD level draws. */
  datatype LodRenderer = OriginalRenderer | ChildRenderer(childName: string)

  /** One entry of a `LODGroup`: shown while the object covers more than `screenRelativeHeight` of the screen. */
  datatype Lod = Lod(screenRelativeHeight: real, renderer: LodRenderer)

  /**
   * A child object created for a LOD level: its name, its simplified mesh and
   * the shared materials its renderer draws with.
   */
  datatype LodChild = LodChild(name: string, meshName: string, mesh: SimplifiedMesh, materials: seq<nat>)

  /** How a `GenerateLODs` call ended; the two failures are reported to `onError`. */
  datatype LodOutcome = NoTarget | Cancelled | SkinnedUnsupported | NoValidRenderer | Generated

  /** The error callback is invoked exactly for these outcomes. */
  predicate ReportsError(outcome: LodOutcome)
  {
    outcome == SkinnedUnsupported || outcome == NoValidRenderer
  }

  /** Screen heights of the three levels. */
  const Lod0Height: real := 0.6
  const Lod1Height: real := 0.3
  const Lod2Height: real := 0.1

  /**
   * The target game object. Its components are fixed for the call; the
   * `LODGroup` and the children it gains are what `GenerateLODs` changes.
   * `mesh` is the `MeshFilter`'s shared mesh, `None` when there is no filter
   * or it holds no mesh. `materials` are the renderer's shared materials, each
   * slot an opaque identity.
   */
  class LodTarget {
    const name: string
    const hasMeshRenderer: bool
    const hasSkinnedRenderer: bool
    const mesh: Option<Mesh>
    const meshName: string
    const materials: seq<nat>
    var hasLodGroup: bool
    var lods: seq<Lod>
    var children: seq<LodChild>

    /** Unity keeps a mesh's triangles whole and in range. */
    ghost predicate Valid()
    {
      mesh.Some? ==> ValidTriangles(|mesh.value.vertices|, mesh.value.triangles)
    }

    constructor (name: string, hasMeshRenderer: bool, hasSkinnedRenderer: bool, mesh: Option<Mesh>, meshName: string,
                 materials: seq<nat>, hasLodGroup: bool, lods: seq<Lod>)
      requires mesh.Some? ==> ValidTriangles(|mesh.value.vertices|, mesh.value.triangles)
      ensures Valid()
      ensures this.name == name && this.hasMeshRenderer == hasMeshRenderer
      ensures this.hasSkinnedRenderer == hasSkinnedRenderer && this.mesh == mesh && this.meshName == meshName
      ensures this.materials == materials
      ensures this.hasLodGroup == hasLodGroup && this.lods == lods && children == []
    {
      this.name := name;
      this.hasMeshRenderer := hasMeshRenderer;
      this.hasSkinnedRenderer := hasSkinnedRenderer;
      this.mesh := mesh;
      this.meshName := meshName;
      this.materials := materials;
      this.hasLodGroup := hasLodGroup;
      this.lods := lods;
      children := [];
    }
  }

  /**
   * The child a LOD level gets: named `<object>_<suffix>`, its mesh
   * `<mesh>_<suffix>`, drawn with the original renderer's materials.
   */
  function LodChildFor(objectName: string, meshName: string, materials: seq<nat>, source: Mesh, suffix: string,
                       qualityRatio: real): (c: Option<LodChild>)
    requires ValidTriangles(|source.vertices|, source.triangles)
    ensures c.Some? <==> Simplified(source, Resolution(qualityRatio)).Some?
    ensures c.Some? ==> c.value.name == objectName + "_" + suffix && c.value.meshName == meshName + "_" + suffix
    ensures c.Some? ==> c.value.materials == materials
  {
    match Simplified(source, Resolution(qualityRatio))
    case None => None
    case Some(m) => Some(LodChild(objectName + "_" + suffix, meshName + "_" + suffix, m, materials))
  }

  /** A child's mesh is non-empty and no larger than the original. */
  lemma LodChildBounded(objectName: string, meshName: string, materials: seq<nat>, source: Mesh, suffix: string,
                        qualityRatio: real)
    requires ValidTriangles(|source.vertices|, source.triangles)
    ensures var c := LodChildFor(objectName, meshName, materials, source, suffix, qualityRatio);
            c.Some? ==> 0 < |c.value.mesh.vertices| <= |source.vertices| && |c.value.mesh.triangles| <= |source.triangles|
  {
    SimplifiedShape(source, Resolution(qualityRatio));
  }

  /** The children a successful generation adds: LOD1 then LOD2, each only when its mesh survived. */
  function ExpectedChildren(objectName: string, meshName: string, materials: seq<nat>, source: Mesh): seq<LodChild>
    requires ValidTriangles(|source.vertices|, source.triangles)
  {
    ChildrenOf(LodChildFor(objectName, meshName, materials, source, "LOD1", Lod1Quality),
               LodChildFor(objectName, meshName, materials, source, "LOD2", Lod2Quality))
  }

  /** The LOD levels a successful generation sets: the original first, then the children that exist. */
  function ExpectedLods(objectName: string, meshName: string, materials: seq<nat>, source: Mesh): seq<Lod>
    requires ValidTriangles(|source.vertices|, source.triangles)
  {
    LevelsOf(LodChildFor(objectName, meshName, materials, source, "LOD1", Lod1Quality),
             LodChildFor(objectName, meshName, materials, source, "LOD2", Lod2Quality))
  }

  /** The children that exist, LOD1 first. */
  function ChildrenOf(c1: Option<LodChild>, c2: Option<LodChild>): seq<LodChild>
  {
    (if c1.Some? then [c1.value] else []) + (if c2.Some? then [c2.value] else [])
  }

  /** The original level, then one level per existing child at the LOD1 and LOD2 heights. */
  function LevelsOf(c1: Option<LodChild>, c2: Option<LodChild>): seq<Lod>
  {
    [Lod(Lod0Height, OriginalRenderer)]
    + (if c1.Some? then [Lod(Lod1Height, ChildRenderer(c1.value.name))] else [])
    + (if c2.Some? then [Lod(Lod2Height, ChildRenderer(c2.value.name))] else [])
  }

  /**
   * The generated LOD group is one Unity accepts: it starts with the original
   * renderer, its screen heights strictly decrease and stay in (0, 1], every
   * other level draws a child that was created, and each child's mesh is no
   * larger than the original and is drawn with the original's materials.
   */
  lemma ExpectedLodsWellFormed(objectName: string, meshName: string, materials: seq<nat>, source: Mesh)
    requires ValidTriangles(|source.vertices|, source.triangles)
    ensures var lods := ExpectedLods(objectName, meshName, materials, source);
            var kids := ExpectedChildren(objectName, meshName, materials, source);
            && 1 <= |lods| <= 3
            && lods[0] == Lod(Lod0Height, OriginalRenderer)
            && |lods| == |kids| + 1
            && (forall i :: 0 <= i < |lods| ==> 0.0 < lods[i].screenRelativeHeight <= 1.0)
            && (forall i, j :: 0 <= i < j < |lods| ==> lods[i].screenRelativeHeight > lods[j].screenRelativeHeight)
            && (forall i :: 1 <= i < |lods| ==> lods[i].renderer == ChildRenderer(kids[i - 1].name))
            && (forall k :: 0 <= k < |kids| ==>
                  && 0 < |kids[k].mesh.vertices| <= |source.vertices| && |kids[k].mesh.triangles| <= |source.triangles|
                  && kids[k].materials == materials)
  {
    LodLevelsOrdered(LodChildFor(objectName, meshName, materials, source, "LOD1", Lod1Quality),
                     LodChildFor(objectName, meshName, materials, source, "LOD2", Lod2Quality));
    ChildrenBounded(objectName, meshName, materials, source);
  }

  /** The levels: the original first, heights strictly decreasing in (0, 1], one child per later level. */
  lemma LodLevelsOrdered(c1: Option<LodChild>, c2: Option<LodChild>)
    ensures var lods := LevelsOf(c1, c2);
            var kids := ChildrenOf(c1, c2);
            && 1 <= |lods| <= 3
            && lods[0] == Lod(Lod0Height, OriginalRenderer)
            && |lods| == |kids| + 1
            && (forall i :: 0 <= i < |lods| ==> 0.0 < lods[i].screenRelativeHeight <= 1.0)
            && (forall i, j :: 0 <= i < j < |lods| ==> lods[i].screenRelativeHeight > lods[j].screenRelativeHeight)
            && (forall i :: 1 <= i < |lods| ==> lods[i].renderer == ChildRenderer(kids[i - 1].name))
  {
  }

  /** Every child's mesh is non-empty and no larger than the original, and it keeps the original's materials. */
  lemma ChildrenBounded(objectName: string, meshName: string, materials: seq<nat>, source: Mesh)
    requires ValidTriangles(|source.vertices|, source.triangles)
    ensures var kids := ExpectedChildren(objectName, meshName, materials, source);
            forall k :: 0 <= k < |kids| ==>
              && 0 < |kids[k].mesh.vertices| <= |source.vertices| && |kids[k].mesh.triangles| <= |source.triangles|
              && kids[k].materials == materials
  {
    LodChildBounded(objectName, meshName, materials, source, "LOD1", Lod1Quality);
    LodChildBounded(objectName, meshName, materials, source, "LOD2", Lod2Quality);
  }

  /** `CreateLODObject`: simplify at the level's resolution and, when a mesh survives, add a child holding it. */
  method CreateLODObject(parent: LodTarget, suffix: string, qualityRatio: real) returns (child: Option<LodChild>)
    requires parent.mesh.Some? && parent.Valid()
    modifies parent
    ensures child == LodChildFor(parent.name, parent.meshName, parent.materials, parent.mesh.value, suffix, qualityRatio)
    ensures parent.children == old(parent.children) + (if child.Some? then [child.value] else [])
    ensures parent.hasLodGroup == old(parent.hasLodGroup) && parent.lods == old(parent.lods)
  {
    var resolution := RoundToInt(50.0 * qualityRatio);
    if resolution < 5 {
      resolution := 5;
    }
    var simplified := SimplifyMeshVertexClustering(parent.mesh.value, resolution);
    if simplified.None? {
      return None;
    }
    child := Some(LodChild(parent.name + "_" + suffix, parent.meshName + "_" + suffix, simplified.value, parent.materials));
    parent.children := parent.children + [child.value];
  }

  /**
   * `GenerateLODs`. A target that already has a LOD group is regenerated only
   * when the user confirms the overwrite dialog (`confirmOverwrite`); otherwise
   * a LOD group is added first, before the renderer checks, so a target that
   * then fails them keeps an empty new group. Skinned renderers are refused;
   * so is a target without a mesh renderer and a mesh. On success the group's
   * levels are the original at 0.6 followed by each child that was created.
   */
  method GenerateLODs(target: LodTarget?, confirmOverwrite: bool) returns (outcome: LodOutcome)
    requires target != null ==> target.Valid()
    modifies target
    ensures target == null ==> outcome == NoTarget
    ensures target != null ==>
              && (outcome == Cancelled <==> old(target.hasLodGroup) && !confirmOverwrite)
              && (outcome == Cancelled ==> target.hasLodGroup)
              && (outcome != Cancelled ==> target.hasLodGroup)
              && (outcome == SkinnedUnsupported <==> !(old(target.hasLodGroup) && !confirmOverwrite) && target.hasSkinnedRenderer)
              && (outcome == NoValidRenderer <==>
                    !(old(target.hasLodGroup) && !confirmOverwrite) && !target.hasSkinnedRenderer &&
                    (!target.hasMeshRenderer || target.mesh.None?))
              && (outcome == Generated ==>
                    && target.lods == ExpectedLods(target.name, target.meshName, target.materials, target.mesh.value)
                    && target.children == old(target.children) + ExpectedChildren(target.name, target.meshName, target.materials, target.mesh.value))
              && (outcome != Generated ==> target.lods == old(target.lods) && target.children == old(target.children))
              && outcome != NoTarget
  {
    if target == null {
      return NoTarget;
    }
    if target.hasLodGroup {
      if !confirmOverwrite {
        return Cancelled;
      }
    } else {
      target.hasLodGroup := true;
    }
    if target.hasSkinnedRenderer {
      return SkinnedUnsupported;
    }
    if !target.hasMeshRenderer || target.mesh.None? {
      return NoValidRenderer;
    }
    var lods := [Lod(Lod0Height, OriginalRenderer)];
    var lod1 := CreateLODObject(target, "LOD1", Lod1Quality);
    if lod1.Some? {
      lods := lods + [Lod(Lod1Height, ChildRenderer(lod1.value.name))];
    }
    var lod2 := CreateLODObject(target, "LOD2", Lod2Quality);
    if lod2.Some? {
      lods := lods + [Lod(Lod2Height, ChildRenderer(lod2.value.name))];
    }
    target.lods := lods;
    outcome := Generated;
  }
}
