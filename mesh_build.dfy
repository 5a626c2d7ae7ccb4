/**
 * The pieces of the planet's mesh rebuild that do not belong to the planet
 * itself: the vertex deduplication table filled by the rebuild's addVertex
 * helper, the corners a recursively subdivided triangle emits, and the
 * 9-float vertex record of the published buffer.
 */
module MeshBuild {
  import opened Glm
  import opened PlanetHeader

  /** A raw position pushed onto the sphere of the given radius: normalize(p) * radius. */
  function SurfacePoint(math: MathLib, radius: real, p: Vec3): Vec3 {
    Scale(math.normalize(p), radius)
  }

  function Max(a: int, b: int): int {
    if a < b then b else a
  }

  /** Positions only grow at the end, stored levels only grow. */
  ghost predicate Grows(p0: seq<Vec3>, l0: seq<int>, p1: seq<Vec3>, l1: seq<int>) {
    && |p0| <= |p1|
    && (forall i :: 0 <= i < |p0| ==> p1[i] == p0[i])
    && |l0| <= |l1|
    && (forall i :: 0 <= i < |l0| ==> l0[i] <= l1[i])
  }

  lemma GrowsTransitive(p0: seq<Vec3>, l0: seq<int>, p1: seq<Vec3>, l1: seq<int>, p2: seq<Vec3>, l2: seq<int>)
    requires Grows(p0, l0, p1, l1) && Grows(p1, l1, p2, l2)
    ensures Grows(p0, l0, p2, l2)
  {
  }

  /**
   * The deduplication table of one rebuild: the position -> index map, the list of
   * distinct positions and, beside it, the highest subdivision level that reached
   * each position. Keys are compared exactly; see README for the tolerant equality.
   */
  class VertexTable {
    const math: MathLib
    const radius: real
    var index: map<Vec3, nat>
    var positions: seq<Vec3>
    var levels: seq<int>

    ghost predicate Valid()
      reads this
    {
      && |levels| == |positions|
      && (forall p :: p in index ==> index[p] < |positions| && positions[index[p]] == p)
      && (forall i :: 0 <= i < |positions| ==> positions[i] in index && index[positions[i]] == i)
    }

    constructor (math: MathLib, radius: real)
      ensures Valid()
      ensures this.math == math && this.radius == radius
      ensures index == map[] && positions == [] && levels == []
    {
      this.math := math;
      this.radius := radius;
      index := map[];
      positions := [];
      levels := [];
    }

    /**
     * The rebuild's addVertex: push the position onto the sphere; a key already present
     * returns its index and raises that vertex's level to the larger of the two; a new key
     * appends one position and one level and returns the previous size.
     */
    method AddVertex(pos: Vec3, subdivisionLevel: int) returns (i: nat)
      requires Valid()
      modifies this
      ensures Valid()
      ensures i < |positions| && positions[i] == SurfacePoint(math, radius, pos)
      ensures levels[i] >= subdivisionLevel
      ensures Grows(old(positions), old(levels), positions, levels)
      ensures var key := SurfacePoint(math, radius, pos);
              if key in old(index) then
                && i == old(index)[key]
                && positions == old(positions) && index == old(index)
                && levels == old(levels)[i := Max(old(levels)[i], subdivisionLevel)]
              else
                && i == |old(positions)|
                && positions == old(positions) + [key]
                && levels == old(levels) + [subdivisionLevel]
                && index == old(index)[key := i]
    {
      var normalizedPos := SurfacePoint(math, radius, pos);
      if normalizedPos in index {
        i := index[normalizedPos];
        if subdivisionLevel > levels[i] {
          levels := levels[i := subdivisionLevel];
        }
        return;
      }
      i := |positions|;
      positions := positions + [normalizedPos];
      levels := levels + [subdivisionLevel];
      index := index[normalizedPos := i];
    }
  }

  ghost predicate Distinct(ps: seq<Vec3>) {
    forall i, j :: 0 <= i < j < |ps| ==> ps[i] != ps[j]
  }

  /** No position is stored twice in a valid table. */
  lemma TablePositionsDistinct(t: VertexTable)
    requires t.Valid()
    ensures Distinct(t.positions)
  {
    forall i, j | 0 <= i < j < |t.positions|
      ensures t.positions[i] != t.positions[j]
    {
      assert t.index[t.positions[i]] == i && t.index[t.positions[j]] == j;
    }
  }

  function Pow4(n: int): nat
    decreases n
  {
    if n <= 0 then 1 else 4 * Pow4(n - 1)
  }

  /**
   * The leaf-triangle corners, in emission order, of a triangle split `level` times:
   * each split pushes the three edge midpoints onto the sphere and recurses on the
   * corner triangles (a, m1, m3), (b, m2, m1), (c, m3, m2) and the middle one (m1, m2, m3).
   * A triangle at level L thus contributes 4^L leaf triangles, so 3 * 4^L corners.
   */
  function LeafCorners(math: MathLib, radius: real, a: Vec3, b: Vec3, c: Vec3, level: int): (r: seq<Vec3>)
    ensures |r| == 3 * Pow4(level)
    decreases level
  {
    if level <= 0 then [a, b, c]
    else
      var m1 := SurfacePoint(math, radius, Add(a, b));
      var m2 := SurfacePoint(math, radius, Add(b, c));
      var m3 := SurfacePoint(math, radius, Add(c, a));
      LeafCorners(math, radius, a, m1, m3, level - 1)
      + LeafCorners(math, radius, b, m2, m1, level - 1)
      + LeafCorners(math, radius, c, m3, m2, level - 1)
      + LeafCorners(math, radius, m1, m2, m3, level - 1)
  }

  /** Every triangle's corner indices point into the base vertices. */
  ghost predicate CornersIn(ts: seq<Triangle>, n: nat) {
    forall i :: 0 <= i < |ts| ==> ts[i].v1 < n && ts[i].v2 < n && ts[i].v3 < n
  }

  /** All leaf corners of the mesh, triangle after triangle, as the rebuild emits them. */
  function MeshCorners(math: MathLib, radius: real, vertices: seq<Vec3>, ts: seq<Triangle>): seq<Vec3>
    requires CornersIn(ts, |vertices|)
    decreases |ts|
  {
    if ts == [] then []
    else
      var t := ts[|ts| - 1];
      MeshCorners(math, radius, vertices, ts[..|ts| - 1])
      + LeafCorners(math, radius, vertices[t.v1], vertices[t.v2], vertices[t.v3], t.subdivisionLevel)
  }

  /** Number of leaf triangles of the mesh: the sum of 4^level over the base triangles. */
  function TriangleCount(ts: seq<Triangle>): nat
    decreases |ts|
  {
    if ts == [] then 0 else TriangleCount(ts[..|ts| - 1]) + Pow4(ts[|ts| - 1].subdivisionLevel)
  }

  lemma {:induction false} MeshCornersCount(math: MathLib, radius: real, vertices: seq<Vec3>, ts: seq<Triangle>)
    requires CornersIn(ts, |vertices|)
    ensures |MeshCorners(math, radius, vertices, ts)| == 3 * TriangleCount(ts)
    decreases |ts|
  {
    if ts != [] {
      MeshCornersCount(math, radius, vertices, ts[..|ts| - 1]);
    }
  }

  /** Base triangles that agree on corners and levels, whatever their cached distances, emit the same corners. */
  lemma {:induction false} MeshCornersOnlyDependOnLevels(math: MathLib, radius: real, vertices: seq<Vec3>, ts: seq<Triangle>, us: seq<Triangle>)
    requires CornersIn(ts, |vertices|) && |us| == |ts|
    requires forall i :: 0 <= i < |ts| ==>
               us[i].v1 == ts[i].v1 && us[i].v2 == ts[i].v2 && us[i].v3 == ts[i].v3
               && us[i].subdivisionLevel == ts[i].subdivisionLevel
    ensures CornersIn(us, |vertices|)
    ensures MeshCorners(math, radius, vertices, us) == MeshCorners(math, radius, vertices, ts)
    decreases |ts|
  {
    if ts != [] {
      MeshCornersOnlyDependOnLevels(math, radius, vertices, ts[..|ts| - 1], us[..|us| - 1]);
    }
  }

  /**
   * The emitted index list matches the corner list: one index per corner, each below
   * the number of stored vertices and naming the vertex at that corner's sphere point.
   */
  ghost predicate Emits(math: MathLib, radius: real, indices: seq<nat>, positions: seq<Vec3>, corners: seq<Vec3>) {
    && |indices| == |corners|
    && forall k :: 0 <= k < |indices| ==>
         indices[k] < |positions| && positions[indices[k]] == SurfacePoint(math, radius, corners[k])
  }

  lemma EmitsUnderGrowth(math: MathLib, radius: real, indices: seq<nat>, p0: seq<Vec3>, l0: seq<int>,
                         p1: seq<Vec3>, l1: seq<int>, corners: seq<Vec3>)
    requires Emits(math, radius, indices, p0, corners) && Grows(p0, l0, p1, l1)
    ensures Emits(math, radius, indices, p1, corners)
  {
  }

  /** Every one of the first n vertex numbers occurs in the index list: no stored vertex goes unused. */
  ghost predicate Covers(indices: seq<nat>, n: nat) {
    forall j :: 0 <= j < n ==> j in indices
  }

  /** Emitting an index that is either old or the one just stored keeps every stored vertex used. */
  lemma CoversAppend(indices: seq<nat>, n: nat, i: nat, m: nat)
    requires Covers(indices, n)
    requires m == n || (m == n + 1 && i == n)
    ensures Covers(indices + [i], m)
  {
  }

  /** A sequence without repeats has as many distinct elements as entries. */
  lemma {:induction false} DistinctCount(ps: seq<Vec3>)
    requires Distinct(ps)
    ensures |set x | x in ps| == |ps|
  {
    if ps != [] {
      var init := ps[..|ps| - 1];
      var last := ps[|ps| - 1];
      DistinctCount(init);
      assert last !in init;
      assert ps == init + [last];
      assert (set x | x in ps) == (set x | x in init) + {last};
    }
  }

  /**
   * When an index list matches the corners and uses every one of n distinct stored
   * vertices, those vertices are exactly the corners' sphere points, so n counts the
   * distinct corner points.
   */
  lemma EmittedVertexCount(math: MathLib, radius: real, indices: seq<nat>, positions: seq<Vec3>, corners: seq<Vec3>)
    requires Emits(math, radius, indices, positions, corners)
    requires Covers(indices, |positions|) && Distinct(positions)
    ensures (set x | x in positions) == (set c | c in corners :: SurfacePoint(math, radius, c))
    ensures |positions| == |set c | c in corners :: SurfacePoint(math, radius, c)|
  {
    var points := set c | c in corners :: SurfacePoint(math, radius, c);
    forall x | x in positions
      ensures x in points
    {
      var j :| 0 <= j < |positions| && positions[j] == x;
      assert j in indices;
      var k :| 0 <= k < |indices| && indices[k] == j;
      assert corners[k] in corners;
    }
    forall x | x in points
      ensures x in positions
    {
      var c :| c in corners && x == SurfacePoint(math, radius, c);
      var k :| 0 <= k < |corners| && corners[k] == c;
      assert positions[indices[k]] == x;
    }
    DistinctCount(positions);
  }

  /** The colour factor of a vertex at height y: 0.8 + 0.2 * (y / radius + 1) / 2. */
  function Shade(radius: real, y: real): real {
    var normalizedHeight := (FloatDiv(y, radius) + 1.0) * 0.5;
    0.8 + 0.2 * normalizedHeight
  }

  /**
   * The 9 floats of one output vertex: the position, the planet colour times the
   * vertex's shade, and the normalised position.
   */
  function VertexRecord(math: MathLib, radius: real, color: Vec3, p: Vec3): (r: seq<real>)
    ensures |r| == 9
  {
    var shade := Shade(radius, p.y);
    var normal := math.normalize(p);
    [p.x, p.y, p.z] + [color.x * shade, color.y * shade, color.z * shade] + [normal.x, normal.y, normal.z]
  }

  /** The position stored in the j-th 9-float record of a vertex buffer. */
  function BufferPosition(buffer: seq<real>, j: nat): Vec3
    requires 9 * j + 9 <= |buffer|
  {
    Vec3(buffer[9 * j], buffer[9 * j + 1], buffer[9 * j + 2])
  }

  /** The vertex buffer written for a list of positions: their records, one after another. */
  function Records(math: MathLib, radius: real, color: Vec3, positions: seq<Vec3>): (buffer: seq<real>)
    ensures |buffer| == 9 * |positions|
    decreases |positions|
  {
    if positions == [] then []
    else Records(math, radius, color, positions[..|positions| - 1])
         + VertexRecord(math, radius, color, positions[|positions| - 1])
  }

  /** The buffer holds exactly one record per position, in order. */
  ghost predicate BufferHolds(math: MathLib, radius: real, color: Vec3, buffer: seq<real>, positions: seq<Vec3>) {
    buffer == Records(math, radius, color, positions)
  }

  /** Record j of the buffer is the record of position j. */
  lemma {:induction false} RecordAt(math: MathLib, radius: real, color: Vec3, positions: seq<Vec3>, j: nat)
    requires j < |positions|
    ensures Records(math, radius, color, positions)[9 * j..9 * j + 9] == VertexRecord(math, radius, color, positions[j])
    decreases |positions|
  {
    var n := |positions|;
    var front := Records(math, radius, color, positions[..n - 1]);
    var last := VertexRecord(math, radius, color, positions[n - 1]);
    assert Records(math, radius, color, positions) == front + last;
    if j == n - 1 {
      assert (front + last)[9 * j..9 * j + 9] == last;
    } else {
      RecordAt(math, radius, color, positions[..n - 1], j);
      assert (front + last)[9 * j..9 * j + 9] == front[9 * j..9 * j + 9];
    }
  }

  lemma BufferPositionIsStored(math: MathLib, radius: real, color: Vec3, buffer: seq<real>, positions: seq<Vec3>, j: nat)
    requires BufferHolds(math, radius, color, buffer, positions) && j < |positions|
    ensures BufferPosition(buffer, j) == positions[j]
  {
    var r := VertexRecord(math, radius, color, positions[j]);
    RecordAt(math, radius, color, positions, j);
    assert buffer[9 * j..9 * j + 9] == r;
    assert buffer[9 * j] == r[0] && buffer[9 * j + 1] == r[1] && buffer[9 * j + 2] == r[2];
  }
}
