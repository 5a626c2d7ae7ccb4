/**
 * The standalone icosphere builder: the 12 icosahedron vertices pushed onto a
 * sphere, refinement passes that split every face in four through a cache of
 * edge midpoints keyed by the unordered index pair, the flattened index list,
 * and the banded procedural terrain that recolours and lifts every vertex.
 *
 * The refinement pass is modelled twice. `RefinePassAsWritten` follows the
 * source, and is the pass `CreateIcosphere` and the constructor run: each face
 * appends a fresh vertex for every midpoint on top of the one the cache holds, so
 * neighbouring faces never share a midpoint vertex. `RefinePass` uses the cached
 * index itself, and is the pass the corrected builder `CreateIcosphereShared` runs.
 */
module Icospheres {
  import opened Glm
  import Icosahedron
  import MeshBuild

  datatype Vertex = Vertex(position: Vec3, normal: Vec3, height: real, color: Vec3)

  /** A face as three vertex indices. */
  type Tri = (nat, nat, nat)

  /** An undirected edge as (smaller index, larger index). */
  type EdgeKey = (nat, nat)

  /** The default vertex colour. */
  const White: Vec3 := Vec3(1.0, 1.0, 1.0)

  /** The vertex addVertex makes from a direction: on the sphere, normal along it. */
  function SphereVertex(math: MathLib, radius: real, p: Vec3): (v: Vertex)
    ensures v.normal == math.normalize(p) && v.position == Scale(v.normal, radius)
    ensures v.height == 0.0 && v.color == White
  {
    var n := math.normalize(p);
    Vertex(Scale(n, radius), n, 0.0, White)
  }

  /** The cache key of the edge between p1 and p2: the same pair whichever end comes first. */
  function MidKey(p1: nat, p2: nat): (k: EdgeKey)
    ensures k.0 <= k.1
    ensures (k.0 == p1 && k.1 == p2) || (k.0 == p2 && k.1 == p1)
  {
    if p1 <= p2 then (p1, p2) else (p2, p1)
  }

  lemma MidKeySymmetric(p1: nat, p2: nat)
    ensures MidKey(p1, p2) == MidKey(p2, p1)
  {
  }

  /** The point getMiddlePoint computes for a new edge: the halfway point pushed onto the sphere. */
  function Middle(math: MathLib, radius: real, p: Vec3, q: Vec3): Vec3 {
    Scale(math.normalize(Scale(Add(p, q), 0.5)), radius)
  }

  /** Face t with edge midpoints a (t.0-t.1), b (t.1-t.2), c (t.2-t.0), split in four. */
  function Refined(t: Tri, a: nat, b: nat, c: nat): (fs: seq<Tri>)
    ensures |fs| == 4
  {
    [(t.0, a, c), (t.1, b, a), (t.2, c, b), (a, b, c)]
  }

  /** The middle face of group k of a refined list: the three midpoints of old face k. */
  function Mids(fs: seq<Tri>, k: nat): Tri
    requires 4 * k + 4 <= |fs|
  {
    fs[4 * k + 3]
  }

  /** Every corner of every face is an index below n. */
  predicate Below(fs: seq<Tri>, n: nat) {
    forall k :: 0 <= k < |fs| ==> fs[k].0 < n && fs[k].1 < n && fs[k].2 < n
  }

  /** The index list: the corners of each face in turn. */
  function Flatten(fs: seq<Tri>): (ix: seq<nat>)
    ensures |ix| == 3 * |fs|
    decreases |fs|
  {
    if |fs| == 0 then [] else Flatten(fs[..|fs| - 1]) + [fs[|fs| - 1].0, fs[|fs| - 1].1, fs[|fs| - 1].2]
  }

  lemma {:induction false} FlattenBelow(fs: seq<Tri>, n: nat)
    requires Below(fs, n)
    ensures forall i :: 0 <= i < |Flatten(fs)| ==> Flatten(fs)[i] < n
    decreases |fs|
  {
    if |fs| > 0 {
      var init := fs[..|fs| - 1];
      assert Below(init, n) by {
        forall k | 0 <= k < |init| ensures init[k].0 < n && init[k].1 < n && init[k].2 < n {
          assert init[k] == fs[k];
        }
      }
      FlattenBelow(init, n);
    }
  }

  /** The 20 base faces with plain indices. */
  function BaseFaces(): (fs: seq<Tri>)
    ensures |fs| == 20 && Below(fs, 12)
  {
    seq(|Icosahedron.Faces|, f requires 0 <= f < |Icosahedron.Faces| =>
      (Icosahedron.Faces[f].0 as nat, Icosahedron.Faces[f].1 as nat, Icosahedron.Faces[f].2 as nat))
  }

  // ---------------------------------------------------------------------------
  // One refinement pass as written: indices only.

  /** Faces produced so far, the next free vertex index and the cached edge keys. */
  datatype WrittenState = WrittenState(faces: seq<Tri>, next: nat, keys: set<EdgeKey>)

  /**
   * The pass as written over faces, starting with `base` vertices and an empty cache.
   * For each midpoint, getMiddlePoint appends a vertex only when the edge is new, and
   * addVertex then appends one more, whose index the new faces use.
   */
  function WrittenRun(faces: seq<Tri>, base: nat): WrittenState
    decreases |faces|
  {
    if |faces| == 0 then WrittenState([], base, {})
    else WrittenStep(WrittenRun(faces[..|faces| - 1], base), faces[|faces| - 1])
  }

  /** Split face t as written, after the faces and cache of s. */
  function WrittenStep(s: WrittenState, t: Tri): WrittenState {
    var ka := MidKey(t.0, t.1);
    var a := s.next + (if ka in s.keys then 0 else 1);
    var keys1 := s.keys + {ka};
    var kb := MidKey(t.1, t.2);
    var b := a + 1 + (if kb in keys1 then 0 else 1);
    var keys2 := keys1 + {kb};
    var kc := MidKey(t.2, t.0);
    var c := b + 1 + (if kc in keys2 then 0 else 1);
    WrittenState(s.faces + Refined(t, a, b, c), c + 1, keys2 + {kc})
  }

  /** A written step adds a, b and c, each one past a vertex the cache may have added. */
  lemma WrittenStepIs(s: WrittenState, t: Tri, a: nat, b: nat, c: nat)
    requires a == s.next + (if MidKey(t.0, t.1) in s.keys then 0 else 1)
    requires b == a + 1 + (if MidKey(t.1, t.2) in s.keys + {MidKey(t.0, t.1)} then 0 else 1)
    requires c == b + 1 + (if MidKey(t.2, t.0) in s.keys + {MidKey(t.0, t.1), MidKey(t.1, t.2)} then 0 else 1)
    ensures WrittenStep(s, t) == WrittenState(s.faces + Refined(t, a, b, c), c + 1, s.keys + FaceKeys(t))
  {
  }

  /** The shape of a written pass's result. */
  ghost predicate WrittenShape(faces: seq<Tri>, base: nat, r: WrittenState) {
    && |r.faces| == 4 * |faces|
    && r.next >= base + 3 * |faces|
    && (forall k :: 0 <= k < |faces| ==>
          base <= Mids(r.faces, k).0 < Mids(r.faces, k).1 < Mids(r.faces, k).2 < r.next)
    && (forall j, k :: 0 <= j < k < |faces| ==> Mids(r.faces, j).2 < Mids(r.faces, k).0)
  }

  /**
   * As written, the faces built from different old faces never share a midpoint vertex:
   * the midpoints of every old face are fresh, increasing indices, each group above the last.
   */
  lemma {:induction false} WrittenRunShape(faces: seq<Tri>, base: nat)
    ensures WrittenShape(faces, base, WrittenRun(faces, base))
    decreases |faces|
  {
    if |faces| > 0 {
      var init := faces[..|faces| - 1];
      WrittenRunShape(init, base);
      var s := WrittenRun(init, base);
      var r := WrittenRun(faces, base);
      var n := |init|;
      assert r.faces[..4 * n] == s.faces;
      forall k | 0 <= k < n
        ensures Mids(r.faces, k) == Mids(s.faces, k)
      {
        assert r.faces[4 * k + 3] == s.faces[4 * k + 3];
      }
    }
  }

  /** A written pass over faces below base gives faces below its final vertex count. */
  lemma {:induction false} WrittenRunBelow(faces: seq<Tri>, base: nat)
    requires Below(faces, base)
    ensures WrittenRun(faces, base).next >= base
    ensures Below(WrittenRun(faces, base).faces, WrittenRun(faces, base).next)
    decreases |faces|
  {
    if |faces| > 0 {
      var init := faces[..|faces| - 1];
      var t := faces[|init|];
      BelowPrefix(faces, |init|, base);
      WrittenRunBelow(init, base);
      var s := WrittenRun(init, base);
      var r := WrittenRun(faces, base);
      assert r == WrittenStep(s, t);
      forall k | 0 <= k < |r.faces|
        ensures r.faces[k].0 < r.next && r.faces[k].1 < r.next && r.faces[k].2 < r.next
      {
        if k < |s.faces| {
          assert r.faces[k] == s.faces[k];
        }
      }
    }
  }

  /** A set grows by one with a key it does not hold, and not at all with one it holds. */
  lemma AddKeyCard(keys: set<EdgeKey>, key: EdgeKey)
    ensures |keys + {key}| == |keys| + (if key in keys then 0 else 1)
  {
    if key in keys {
      assert keys + {key} == keys;
    }
  }

  /**
   * A written pass caches every edge of the old faces, and appends one vertex per cached
   * edge plus three fresh vertices per old face: 3 |faces| more than the cache alone needs.
   */
  lemma {:induction false} WrittenRunCount(faces: seq<Tri>, base: nat)
    ensures WrittenRun(faces, base).keys == AllKeys(faces)
    ensures WrittenRun(faces, base).next == base + 3 * |faces| + |AllKeys(faces)|
    decreases |faces|
  {
    if |faces| > 0 {
      var init := faces[..|faces| - 1];
      var t := faces[|faces| - 1];
      WrittenRunCount(init, base);
      var s := WrittenRun(init, base);
      var ka, kb, kc := MidKey(t.0, t.1), MidKey(t.1, t.2), MidKey(t.2, t.0);
      AddKeyCard(s.keys, ka);
      AddKeyCard(s.keys + {ka}, kb);
      AddKeyCard(s.keys + {ka} + {kb}, kc);
      assert AllKeys(faces) == s.keys + {ka} + {kb} + {kc};
    }
  }

  // ---------------------------------------------------------------------------
  // The pass as written, with the vertices it appends.

  /** Faces produced so far, the vertex list and the midpoint cache of a pass as written. */
  datatype WrittenPass = WrittenPass(faces: seq<Tri>, vertices: seq<Vertex>, cache: map<EdgeKey, nat>)

  /** The vertex list and cache after addVertex(getMiddlePoint(..)), and the index it returns. */
  datatype WrittenMid = WrittenMid(vertices: seq<Vertex>, cache: map<EdgeKey, nat>, index: nat)

  /** Every cached index names one of the first n vertices. */
  predicate CacheBelow(cache: map<EdgeKey, nat>, n: nat) {
    forall key :: key in cache ==> cache[key] < n
  }

  /**
   * addVertex(getMiddlePoint(p1, p2)) as written. On a hit, one vertex is pushed along the
   * cached vertex's position. On a miss, the new midpoint is pushed and cached, and then
   * pushed a second time. The index returned is that of the last vertex pushed.
   */
  function AddMidpointAsWritten(math: MathLib, radius: real, vs: seq<Vertex>, cache: map<EdgeKey, nat>,
                                p1: nat, p2: nat): (r: WrittenMid)
    requires p1 < |vs| && p2 < |vs| && CacheBelow(cache, |vs|)
    ensures r.index + 1 == |r.vertices| && CacheBelow(r.cache, |r.vertices|)
    ensures r.cache.Keys == cache.Keys + {MidKey(p1, p2)}
    ensures |r.vertices| == |vs| + (if MidKey(p1, p2) in cache then 1 else 2)
  {
    var key := MidKey(p1, p2);
    if key in cache then
      WrittenMid(vs + [SphereVertex(math, radius, vs[cache[key]].position)], cache, |vs|)
    else
      var m := Middle(math, radius, vs[p1].position, vs[p2].position);
      WrittenMid(vs + [SphereVertex(math, radius, m), SphereVertex(math, radius, m)], cache[key := |vs|], |vs| + 1)
  }

  /**
   * On a miss, the face's midpoint vertex is a copy of the vertex the cache keeps for the
   * edge, which no face uses; on a hit, it is a new vertex along the cached one.
   */
  lemma AddMidpointDuplicates(math: MathLib, radius: real, vs: seq<Vertex>, cache: map<EdgeKey, nat>,
                              p1: nat, p2: nat)
    requires p1 < |vs| && p2 < |vs| && CacheBelow(cache, |vs|)
    ensures var r := AddMidpointAsWritten(math, radius, vs, cache, p1, p2);
            && (MidKey(p1, p2) !in cache ==>
                  && r.cache[MidKey(p1, p2)] == r.index - 1
                  && r.vertices[r.index] == r.vertices[r.index - 1] == MidVertex(math, radius, vs, MidKey(p1, p2)))
            && (MidKey(p1, p2) in cache ==>
                  r.index == |vs| && r.vertices[r.index] == SphereVertex(math, radius, vs[cache[MidKey(p1, p2)]].position))
  {
    var key := MidKey(p1, p2);
    if key !in cache {
      assert MidVertex(math, radius, vs, key) == SphereVertex(math, radius, Middle(math, radius, vs[p1].position, vs[p2].position));
    }
  }

  /** Split face t as written, after the state s. */
  function WrittenFaceStep(math: MathLib, radius: real, s: WrittenPass, t: Tri): (r: WrittenPass)
    requires t.0 < |s.vertices| && t.1 < |s.vertices| && t.2 < |s.vertices|
    requires CacheBelow(s.cache, |s.vertices|) && Below(s.faces, |s.vertices|)
    ensures |s.vertices| <= |r.vertices| && CacheBelow(r.cache, |r.vertices|)
    ensures Below(r.faces, |r.vertices|) && |r.faces| == |s.faces| + 4
  {
    var ma := AddMidpointAsWritten(math, radius, s.vertices, s.cache, t.0, t.1);
    var mb := AddMidpointAsWritten(math, radius, ma.vertices, ma.cache, t.1, t.2);
    var mc := AddMidpointAsWritten(math, radius, mb.vertices, mb.cache, t.2, t.0);
    var fs := Refined(t, ma.index, mb.index, mc.index);
    assert Below(fs, |mc.vertices|);
    BelowAppend(s.faces, fs, |s.vertices|, |mc.vertices|);
    WrittenPass(s.faces + fs, mc.vertices, mc.cache)
  }

  /** Faces below n followed by faces below m >= n are below m. */
  lemma BelowAppend(a: seq<Tri>, b: seq<Tri>, n: nat, m: nat)
    requires Below(a, n) && Below(b, m) && n <= m
    ensures Below(a + b, m)
  {
    forall k | 0 <= k < |a + b| ensures (a + b)[k].0 < m && (a + b)[k].1 < m && (a + b)[k].2 < m {
      if k < |a| {
        assert (a + b)[k] == a[k];
      } else {
        assert (a + b)[k] == b[k - |a|];
      }
    }
  }

  /** The pass as written over faces, from the vertex list vs and an empty cache. */
  function WrittenPassOver(math: MathLib, radius: real, faces: seq<Tri>, vs: seq<Vertex>): (r: WrittenPass)
    requires Below(faces, |vs|)
    ensures |vs| <= |r.vertices| && CacheBelow(r.cache, |r.vertices|)
    ensures Below(r.faces, |r.vertices|) && |r.faces| == 4 * |faces|
    decreases |faces|
  {
    if |faces| == 0 then WrittenPass([], vs, map[])
    else
      BelowPrefix(faces, |faces| - 1, |vs|);
      var s := WrittenPassOver(math, radius, faces[..|faces| - 1], vs);
      WrittenFaceStep(math, radius, s, faces[|faces| - 1])
  }

  /** The index part of a pass state: faces, vertex count and cached edges. */
  function IndexPart(p: WrittenPass): WrittenState {
    WrittenState(p.faces, |p.vertices|, p.cache.Keys)
  }

  /** A face step with vertices has the index step as its index part. */
  lemma WrittenFaceStepIndices(math: MathLib, radius: real, s: WrittenPass, t: Tri)
    requires t.0 < |s.vertices| && t.1 < |s.vertices| && t.2 < |s.vertices|
    requires CacheBelow(s.cache, |s.vertices|) && Below(s.faces, |s.vertices|)
    ensures IndexPart(WrittenFaceStep(math, radius, s, t)) == WrittenStep(IndexPart(s), t)
  {
    var ma := AddMidpointAsWritten(math, radius, s.vertices, s.cache, t.0, t.1);
    var mb := AddMidpointAsWritten(math, radius, ma.vertices, ma.cache, t.1, t.2);
    var mc := AddMidpointAsWritten(math, radius, mb.vertices, mb.cache, t.2, t.0);
    WrittenStepIs(IndexPart(s), t, ma.index, mb.index, mc.index);
  }

  /** A pass with vertices has the index-only pass as its index part. */
  lemma {:induction false} WrittenPassIndices(math: MathLib, radius: real, faces: seq<Tri>, vs: seq<Vertex>)
    requires Below(faces, |vs|)
    ensures IndexPart(WrittenPassOver(math, radius, faces, vs)) == WrittenRun(faces, |vs|)
    decreases |faces|
  {
    if |faces| > 0 {
      var init := faces[..|faces| - 1];
      BelowPrefix(faces, |init|, |vs|);
      WrittenPassIndices(math, radius, init, vs);
      WrittenFaceStepIndices(math, radius, WrittenPassOver(math, radius, init, vs), faces[|init|]);
    }
  }

  /**
   * `k` passes as written (none when k is not positive) over faces and the vertex list vs.
   * The guard holds whenever faces start below |vs| (WrittenPassesShape); it keeps the
   * function total.
   */
  function WrittenPasses(math: MathLib, radius: real, faces: seq<Tri>, vs: seq<Vertex>, k: int): WrittenPass
    decreases k
  {
    if k <= 0 then WrittenPass(faces, vs, map[])
    else
      var p := WrittenPasses(math, radius, faces, vs, k - 1);
      if Below(p.faces, |p.vertices|) then WrittenPassOver(math, radius, p.faces, p.vertices) else p
  }

  /** After k passes as written, the faces number |faces| 4^k and stay below the vertex count. */
  lemma {:induction false} WrittenPassesShape(math: MathLib, radius: real, faces: seq<Tri>, vs: seq<Vertex>, k: int)
    requires Below(faces, |vs|)
    ensures var r := WrittenPasses(math, radius, faces, vs, k);
            |vs| <= |r.vertices| && Below(r.faces, |r.vertices|) && |r.faces| == Grown(|faces|, k)
    decreases k
  {
    if k > 0 {
      WrittenPassesShape(math, radius, faces, vs, k - 1);
      var p := WrittenPasses(math, radius, faces, vs, k - 1);
      var r := WrittenPassOver(math, radius, p.faces, p.vertices);
      assert WrittenPasses(math, radius, faces, vs, k) == r;
      assert |r.faces| == 4 * |p.faces|;
    }
  }

  // ---------------------------------------------------------------------------
  // One refinement pass with shared midpoints.

  /** Faces produced so far, the next free vertex index and the midpoint cache. */
  datatype SharedState = SharedState(faces: seq<Tri>, next: nat, cache: map<EdgeKey, nat>)

  /** The result of a cache lookup: the midpoint's index and the cache and vertex count after it. */
  datatype Alloc = Alloc(index: nat, cache: map<EdgeKey, nat>, next: nat)

  /** The cached midpoint of an edge, allocated at index `next` when the edge is new. */
  function Lookup(cache: map<EdgeKey, nat>, key: EdgeKey, next: nat): Alloc {
    if key in cache then Alloc(cache[key], cache, next) else Alloc(next, cache[key := next], next + 1)
  }

  /** A step is its three lookups, in order. */
  lemma SharedStepIs(s: SharedState, t: Tri, la: Alloc, lb: Alloc, lc: Alloc)
    requires la == Lookup(s.cache, MidKey(t.0, t.1), s.next)
    requires lb == Lookup(la.cache, MidKey(t.1, t.2), la.next)
    requires lc == Lookup(lb.cache, MidKey(t.2, t.0), lb.next)
    ensures SharedStep(s, t) == SharedState(s.faces + Refined(t, la.index, lb.index, lc.index), lc.next, lc.cache)
  {
  }

  /**
   * The cache refers only to the vertices base, ..., next - 1, and there are exactly as
   * many of them as cached edges.
   */
  ghost predicate Numbered(cache: map<EdgeKey, nat>, base: nat, next: nat) {
    && next == base + |cache|
    && (forall key :: key in cache ==> base <= cache[key] < next)
  }

  /** Split face t through the cache: look up (or allocate) its three midpoints in order. */
  function SharedStep(s: SharedState, t: Tri): SharedState {
    var la := Lookup(s.cache, MidKey(t.0, t.1), s.next);
    var lb := Lookup(la.cache, MidKey(t.1, t.2), la.next);
    var lc := Lookup(lb.cache, MidKey(t.2, t.0), lb.next);
    SharedState(s.faces + Refined(t, la.index, lb.index, lc.index), lc.next, lc.cache)
  }

  /** The pass with shared midpoints, starting with `base` vertices and an empty cache. */
  function SharedRun(faces: seq<Tri>, base: nat): SharedState
    decreases |faces|
  {
    if |faces| == 0 then SharedState([], base, map[])
    else SharedStep(SharedRun(faces[..|faces| - 1], base), faces[|faces| - 1])
  }

  /** Extending a prefix of s by one element. */
  lemma PrefixStep<T>(s: seq<T>, i: nat)
    requires i < |s|
    ensures s[..i + 1][..i] == s[..i] && s[..i + 1][i] == s[i]
  {
  }

  /** The three edge keys of a face. */
  function FaceKeys(t: Tri): set<EdgeKey> {
    {MidKey(t.0, t.1), MidKey(t.1, t.2), MidKey(t.2, t.0)}
  }

  /** The edge keys of all faces. */
  function AllKeys(faces: seq<Tri>): set<EdgeKey>
    decreases |faces|
  {
    if |faces| == 0 then {} else AllKeys(faces[..|faces| - 1]) + FaceKeys(faces[|faces| - 1])
  }

  lemma {:induction false} AllKeysHasFaceKeys(faces: seq<Tri>, k: nat)
    requires k < |faces|
    ensures FaceKeys(faces[k]) <= AllKeys(faces)
    decreases |faces|
  {
    if k < |faces| - 1 {
      AllKeysHasFaceKeys(faces[..|faces| - 1], k);
    }
  }

  /**
   * The cache of a shared pass holds exactly the edges of the old faces and numbers
   * the new vertices base, ..., next - 1, one edge each.
   */
  lemma {:induction false} SharedRunNumbered(faces: seq<Tri>, base: nat)
    ensures var r := SharedRun(faces, base);
            |r.faces| == 4 * |faces| && Numbered(r.cache, base, r.next) && r.cache.Keys == AllKeys(faces)
    decreases |faces|
  {
    if |faces| > 0 {
      SharedRunNumbered(faces[..|faces| - 1], base);
      SharedStepNumbered(SharedRun(faces[..|faces| - 1], base), faces[|faces| - 1], base);
      SharedStepKeys(SharedRun(faces[..|faces| - 1], base), faces[|faces| - 1]);
    }
  }

  /** The four faces that replace old face k in a refined list. */
  function Group(fs: seq<Tri>, k: nat): seq<Tri>
    requires 4 * k + 4 <= |fs|
  {
    fs[4 * k..4 * k + 4]
  }

  lemma GroupOfAppend(a: seq<Tri>, b: seq<Tri>, k: nat)
    requires 4 * k + 4 <= |a|
    ensures Group(a + b, k) == Group(a, k)
  {
    assert (a + b)[4 * k..4 * k + 4] == a[4 * k..4 * k + 4];
  }

  lemma GroupLast(a: seq<Tri>, b: seq<Tri>, n: nat)
    requires |a| == 4 * n && |b| == 4
    ensures Group(a + b, n) == b
  {
    assert (a + b)[4 * n..4 * n + 4] == b;
  }

  /**
   * newFaces replaces every old face, in order, by its four faces through the cached
   * midpoints of its edges; so faces that share an edge share its midpoint vertex.
   */
  ghost predicate SplitThrough(faces: seq<Tri>, newFaces: seq<Tri>, cache: map<EdgeKey, nat>) {
    && |newFaces| == 4 * |faces|
    && forall k :: 0 <= k < |faces| ==>
         && FaceKeys(faces[k]) <= cache.Keys
         && Group(newFaces, k) == Refined(faces[k], cache[MidKey(faces[k].0, faces[k].1)],
                                          cache[MidKey(faces[k].1, faces[k].2)],
                                          cache[MidKey(faces[k].2, faces[k].0)])
  }

  /** `k` shared passes (none when k is not positive) over faces, from n vertices. */
  function SharedPasses(faces: seq<Tri>, n: nat, k: int): SharedState
    decreases k
  {
    if k <= 0 then SharedState(faces, n, map[])
    else
      var p := SharedPasses(faces, n, k - 1);
      SharedRun(p.faces, p.next)
  }

  /** After k shared passes, the faces number |faces| 4^k and stay below the vertex count. */
  lemma {:induction false} SharedPassesShape(faces: seq<Tri>, n: nat, k: int)
    requires Below(faces, n)
    ensures var r := SharedPasses(faces, n, k);
            n <= r.next && Below(r.faces, r.next) && |r.faces| == Grown(|faces|, k)
    decreases k
  {
    if k > 0 {
      SharedPassesShape(faces, n, k - 1);
      var p := SharedPasses(faces, n, k - 1);
      SharedRunBelow(p.faces, p.next);
      SharedRunNumbered(p.faces, p.next);
    }
  }

  lemma {:induction false} SharedRunSplits(faces: seq<Tri>, base: nat)
    ensures SplitThrough(faces, SharedRun(faces, base).faces, SharedRun(faces, base).cache)
    decreases |faces|
  {
    if |faces| > 0 {
      var init := faces[..|faces| - 1];
      var n := |init|;
      SharedRunSplits(init, base);
      var s := SharedRun(init, base);
      var r := SharedRun(faces, base);
      assert r == SharedStep(s, faces[n]);
      SharedStepKeys(s, faces[n]);
      SharedStepFaces(s, faces[n]);
      var last := Refined(faces[n], r.cache[MidKey(faces[n].0, faces[n].1)],
                          r.cache[MidKey(faces[n].1, faces[n].2)], r.cache[MidKey(faces[n].2, faces[n].0)]);
      forall k | 0 <= k < |faces|
        ensures FaceKeys(faces[k]) <= r.cache.Keys
        ensures Group(r.faces, k) == Refined(faces[k], r.cache[MidKey(faces[k].0, faces[k].1)],
                                             r.cache[MidKey(faces[k].1, faces[k].2)],
                                             r.cache[MidKey(faces[k].2, faces[k].0)])
      {
        if k < n {
          assert faces[k] == init[k];
          GroupOfAppend(s.faces, last, k);
        } else {
          GroupLast(s.faces, last, n);
        }
      }
    }
  }

  /** A shared pass over faces below base gives faces below the new vertex count. */
  lemma {:induction false} SharedRunBelow(faces: seq<Tri>, base: nat)
    requires Below(faces, base)
    ensures Below(SharedRun(faces, base).faces, SharedRun(faces, base).next)
    decreases |faces|
  {
    if |faces| > 0 {
      var init := faces[..|faces| - 1];
      var s := SharedRun(init, base);
      assert SharedRun(faces, base) == SharedStep(s, faces[|init|]);
      BelowPrefix(faces, |init|, base);
      SharedRunBelow(init, base);
      SharedRunNumbered(init, base);
      SharedStepBelow(s, faces[|init|], base);
    }
  }

  /** The faces before position m of a list below n are below n. */
  lemma BelowPrefix(fs: seq<Tri>, m: nat, n: nat)
    requires Below(fs, n) && m <= |fs|
    ensures Below(fs[..m], n)
  {
    forall k | 0 <= k < m ensures fs[..m][k].0 < n && fs[..m][k].1 < n && fs[..m][k].2 < n {
      assert fs[..m][k] == fs[k];
    }
  }

  /** Splitting a face whose corners are old vertices keeps every face below the vertex count. */
  lemma SharedStepBelow(s: SharedState, t: Tri, base: nat)
    requires Numbered(s.cache, base, s.next)
    requires Below(s.faces, s.next)
    requires t.0 < base && t.1 < base && t.2 < base
    ensures Below(SharedStep(s, t).faces, SharedStep(s, t).next)
  {
    var r := SharedStep(s, t);
    SharedStepNumbered(s, t, base);
    SharedStepFaces(s, t);
    var a, b, c := r.cache[MidKey(t.0, t.1)], r.cache[MidKey(t.1, t.2)], r.cache[MidKey(t.2, t.0)];
    assert a < r.next && b < r.next && c < r.next;
    forall k | 0 <= k < |r.faces|
      ensures r.faces[k].0 < r.next && r.faces[k].1 < r.next && r.faces[k].2 < r.next
    {
      if k < |s.faces| {
        assert r.faces[k] == s.faces[k];
      } else {
        assert r.faces[k] == Refined(t, a, b, c)[k - |s.faces|];
      }
    }
  }

  /** One face's three lookups keep the numbering of the new vertices. */
  lemma SharedStepNumbered(s: SharedState, t: Tri, base: nat)
    requires Numbered(s.cache, base, s.next)
    ensures Numbered(SharedStep(s, t).cache, base, SharedStep(s, t).next)
  {
    var la := Lookup(s.cache, MidKey(t.0, t.1), s.next);
    LookupNumbered(s.cache, MidKey(t.0, t.1), s.next, base);
    var lb := Lookup(la.cache, MidKey(t.1, t.2), la.next);
    LookupNumbered(la.cache, MidKey(t.1, t.2), la.next, base);
    LookupNumbered(lb.cache, MidKey(t.2, t.0), lb.next, base);
  }

  /** One face's three lookups add the face's edges and change no existing entry. */
  lemma SharedStepKeys(s: SharedState, t: Tri)
    ensures var r := SharedStep(s, t);
            && r.cache.Keys == s.cache.Keys + FaceKeys(t)
            && (forall key :: key in s.cache ==> r.cache[key] == s.cache[key])
  {
    var la := Lookup(s.cache, MidKey(t.0, t.1), s.next);
    LookupKeeps(s.cache, MidKey(t.0, t.1), s.next);
    var lb := Lookup(la.cache, MidKey(t.1, t.2), la.next);
    LookupKeeps(la.cache, MidKey(t.1, t.2), la.next);
    LookupKeeps(lb.cache, MidKey(t.2, t.0), lb.next);
  }

  /** The faces a step adds use the cache entries the step leaves for the face's edges. */
  lemma SharedStepFaces(s: SharedState, t: Tri)
    ensures var r := SharedStep(s, t);
            && FaceKeys(t) <= r.cache.Keys
            && r.faces == s.faces + Refined(t, r.cache[MidKey(t.0, t.1)], r.cache[MidKey(t.1, t.2)],
                                            r.cache[MidKey(t.2, t.0)])
  {
    var la := Lookup(s.cache, MidKey(t.0, t.1), s.next);
    LookupKeeps(s.cache, MidKey(t.0, t.1), s.next);
    var lb := Lookup(la.cache, MidKey(t.1, t.2), la.next);
    LookupKeeps(la.cache, MidKey(t.1, t.2), la.next);
    var lc := Lookup(lb.cache, MidKey(t.2, t.0), lb.next);
    LookupKeeps(lb.cache, MidKey(t.2, t.0), lb.next);
    assert lc.cache[MidKey(t.0, t.1)] == la.index;
    assert lc.cache[MidKey(t.1, t.2)] == lb.index;
  }

  /** A lookup keeps every entry, adds its key, and hands back the key's entry. */
  lemma LookupKeeps(cache: map<EdgeKey, nat>, key: EdgeKey, next: nat)
    ensures var l := Lookup(cache, key, next);
            && l.cache.Keys == cache.Keys + {key}
            && (forall k :: k in cache ==> l.cache[k] == cache[k])
            && key in l.cache && l.cache[key] == l.index
            && next <= l.next
  {
  }

  /** A lookup keeps the numbering of the new vertices. */
  lemma LookupNumbered(cache: map<EdgeKey, nat>, key: EdgeKey, next: nat, base: nat)
    requires Numbered(cache, base, next)
    ensures Numbered(Lookup(cache, key, next).cache, base, Lookup(cache, key, next).next)
  {
  }

  // ---------------------------------------------------------------------------
  // What the two passes do to the first two base faces.

  /**
   * As written, the first two base faces share the edge between vertices 0 and 5, yet
   * after one pass they use two different vertices for its midpoint.
   */
  lemma WrittenPassSplitsSharedEdge()
    ensures var fs := BaseFaces();
            var r := WrittenRun(fs, 12);
            && MidKey(fs[0].2, fs[0].0) == MidKey(fs[1].0, fs[1].1)
            && Mids(r.faces, 0).2 != Mids(r.faces, 1).0
  {
    WrittenRunShape(BaseFaces(), 12);
  }

  /**
   * A pass as written ends with three more vertices per old face than the pass with shared
   * midpoints: for the 20 base faces, 60 vertices that only duplicate cached midpoints.
   */
  lemma WrittenPassExtraVertices(faces: seq<Tri>, base: nat)
    ensures WrittenRun(faces, base).next == SharedRun(faces, base).next + 3 * |faces|
  {
    WrittenRunCount(faces, base);
    SharedRunNumbered(faces, base);
    assert |SharedRun(faces, base).cache| == |AllKeys(faces)|;
  }

  /** With the cached index, the same two faces use one vertex for the midpoint of that edge. */
  lemma SharedPassJoinsSharedEdge()
    ensures var fs := BaseFaces();
            var r := SharedRun(fs, 12);
            && MidKey(fs[0].2, fs[0].0) == MidKey(fs[1].0, fs[1].1)
            && Mids(r.faces, 0).2 == Mids(r.faces, 1).0
  {
    var fs := BaseFaces();
    assert fs[0] == (0, 11, 5) && fs[1] == (0, 5, 1);
    SharedRunSplits(fs, 12);
    var r := SharedRun(fs, 12);
    assert Mids(r.faces, 0) == Group(r.faces, 0)[3];
    assert Mids(r.faces, 1) == Group(r.faces, 1)[3];
  }

  // ---------------------------------------------------------------------------
  // Procedural terrain.

  datatype Band = Ocean | Sand | Grass | Rock | Snow

  /** The sea level the terrain uses; the oceanLevel argument is not read. */
  const SeaLevel: real := 0.48

  /** The band of a normalised noise value n. */
  function BandOf(n: real): Band {
    if n < SeaLevel then Ocean
    else if n < SeaLevel + 0.03 then Sand
    else if n < SeaLevel + 0.13 then Grass
    else if n < SeaLevel + 0.23 then Rock
    else Snow
  }

  /** Bands in order of height. */
  function Rank(b: Band): nat {
    match b
    case Ocean => 0
    case Sand => 1
    case Grass => 2
    case Rock => 3
    case Snow => 4
  }

  function BandColor(b: Band): Vec3 {
    match b
    case Ocean => Vec3(0.0, 0.3, 1.0)
    case Sand => Vec3(1.0, 0.95, 0.5)
    case Grass => Vec3(0.1, 0.9, 0.1)
    case Rock => Vec3(0.7, 0.7, 0.7)
    case Snow => Vec3(1.0, 1.0, 1.0)
  }

  /** The band boundaries: 0.48, 0.51, 0.61 and 0.71. */
  lemma BandIntervals(n: real)
    ensures BandOf(n) == Ocean <==> n < 0.48
    ensures BandOf(n) == Sand <==> 0.48 <= n < 0.51
    ensures BandOf(n) == Grass <==> 0.51 <= n < 0.61
    ensures BandOf(n) == Rock <==> 0.61 <= n < 0.71
    ensures BandOf(n) == Snow <==> 0.71 <= n
  {
  }

  /** A higher noise value never gives a lower band. */
  lemma BandMonotone(n: real, m: real)
    requires n <= m
    ensures Rank(BandOf(n)) <= Rank(BandOf(m))
  {
  }

  /** The radial offset of a vertex with noise value n. */
  function TerrainHeight(n: real, mountainHeight: real): real {
    var mountainBoost := mountainHeight * 1.5;
    match BandOf(n)
    case Ocean => -mountainHeight * 0.3 * (SeaLevel - n)
    case Sand => (n - SeaLevel) * mountainHeight * 0.2
    case Grass => (n - SeaLevel) * mountainHeight * 0.7
    case Rock => (n - SeaLevel) * mountainBoost
    case Snow => (n - SeaLevel) * mountainBoost * 1.2
  }

  /** With a non-negative mountain height, oceans sink and every other band rises. */
  lemma TerrainHeightSigns(n: real, mountainHeight: real)
    requires mountainHeight >= 0.0
    ensures BandOf(n) == Ocean ==> TerrainHeight(n, mountainHeight) <= 0.0
    ensures BandOf(n) != Ocean ==> TerrainHeight(n, mountainHeight) >= 0.0
  {
    var d := n - SeaLevel;
    if BandOf(n) == Ocean {
      ProductNonNegative(mountainHeight * 0.3, SeaLevel - n);
    } else {
      ProductNonNegative(d, mountainHeight);
    }
  }

  lemma ProductNonNegative(a: real, b: real)
    requires a >= 0.0 && b >= 0.0
    ensures a * b >= 0.0
  {
  }

  /** A vertex after terrain: raw is the noise sample in [-1, 1] at its direction. */
  function TerrainVertex(math: MathLib, radius: real, mountainHeight: real, v: Vertex, raw: real): Vertex {
    var n := (raw + 1.0) * 0.5;
    var posNorm := math.normalize(v.position);
    Vertex(Scale(posNorm, radius + TerrainHeight(n, mountainHeight)), posNorm, n, BandColor(BandOf(n)))
  }

  /**
   * A terrain vertex keeps its direction and sits at radius plus its band's offset from
   * the centre; its height is the noise mapped into [0, 1].
   */
  lemma TerrainVertexPlaced(math: MathLib, radius: real, mountainHeight: real, v: Vertex, raw: real)
    requires Lawful(math) && v.position != Zero
    requires -1.0 <= raw <= 1.0
    requires radius + TerrainHeight((raw + 1.0) * 0.5, mountainHeight) >= 0.0
    ensures var w := TerrainVertex(math, radius, mountainHeight, v, raw);
            && 0.0 <= w.height <= 1.0
            && w.normal == math.normalize(v.position)
            && math.length(w.position) == radius + TerrainHeight(w.height, mountainHeight)
            && w.color == BandColor(BandOf(w.height))
  {
  }

  /** The terrain vertex of v for the noise field `noise`, sampled at ten times v's direction. */
  function Terrain(math: MathLib, radius: real, mountainHeight: real, noise: Vec3 -> real, v: Vertex): Vertex {
    TerrainVertex(math, radius, mountainHeight, v, noise(Scale(math.normalize(v.position), 10.0)))
  }

  /** Two vertices in one direction become the same terrain vertex. */
  lemma TerrainFollowsDirection(math: MathLib, radius: real, mountainHeight: real, noise: Vec3 -> real,
                                v: Vertex, w: Vertex)
    requires math.normalize(v.position) == math.normalize(w.position)
    ensures Terrain(math, radius, mountainHeight, noise, v) == Terrain(math, radius, mountainHeight, noise, w)
  {
  }

  /** n faces after k passes of four-way splitting (none when k is not positive). */
  function Grown(n: nat, k: int): nat
    decreases k
  {
    if k <= 0 then n else 4 * Grown(n, k - 1)
  }

  lemma {:induction false} GrownIsPow4(n: nat, k: int)
    ensures Grown(n, k) == n * MeshBuild.Pow4(k)
    decreases k
  {
    if k > 0 {
      GrownIsPow4(n, k - 1);
      assert n * MeshBuild.Pow4(k) == 4 * (n * MeshBuild.Pow4(k - 1));
    }
  }

  // ---------------------------------------------------------------------------
  // The builder.

  /**
   * A pass from vertex list before to after added, at every cached index, the midpoint
   * vertex of that cached edge of before.
   */
  ghost predicate AddsMidpoints(math: MathLib, radius: real, before: seq<Vertex>, after: seq<Vertex>,
                                cache: map<EdgeKey, nat>) {
    && (forall key :: key in cache ==> key.0 < |before| && key.1 < |before| && |before| <= cache[key] < |after|)
    && forall key {:trigger MidVertex(math, radius, before, key)} :: key in cache ==>
         after[cache[key]] == MidVertex(math, radius, before, key)
  }

  /** The vertex a pass adds for an edge of the old vertex list vs. */
  function MidVertex(math: MathLib, radius: real, vs: seq<Vertex>, key: EdgeKey): Vertex
    requires key.0 < |vs| && key.1 < |vs|
  {
    SphereVertex(math, radius, Middle(math, radius, vs[key.0].position, vs[key.1].position))
  }

  /** The icosahedron corners for the golden ratio t. */
  function BasePositions(t: real): (ps: seq<Vec3>)
    ensures |ps| == 12
  {
    [Vec3(-1.0, t, 0.0), Vec3(1.0, t, 0.0), Vec3(-1.0, -t, 0.0), Vec3(1.0, -t, 0.0),
     Vec3(0.0, -1.0, t), Vec3(0.0, 1.0, t), Vec3(0.0, -1.0, -t), Vec3(0.0, 1.0, -t),
     Vec3(t, 0.0, -1.0), Vec3(t, 0.0, 1.0), Vec3(-t, 0.0, -1.0), Vec3(-t, 0.0, 1.0)]
  }

  /** The 12 starting vertices on a sphere of the given radius. */
  function BaseVertices(math: MathLib, radius: real): (vs: seq<Vertex>)
    ensures |vs| == 12
  {
    var ps := BasePositions((1.0 + math.sqrt(5.0)) / 2.0);
    seq(12, i requires 0 <= i < 12 => SphereVertex(math, radius, ps[i]))
  }

  class Icosphere {
    const math: MathLib
    var radius: real
    var vertices: seq<Vertex>
    var indices: seq<nat>

    /** Build the sphere at once, as the constructor does: the passes as written. */
    constructor(math: MathLib, radius: real, subdivisions: int)
      ensures this.math == math && this.radius == radius
      ensures var p := WrittenPasses(math, radius, BaseFaces(), BaseVertices(math, radius), subdivisions);
              vertices == p.vertices && indices == Flatten(p.faces)
      ensures |vertices| >= 12 && vertices[..12] == BaseVertices(math, radius)
      ensures |indices| == 60 * MeshBuild.Pow4(subdivisions)
      ensures forall i :: 0 <= i < |indices| ==> indices[i] < |vertices|
    {
      this.math := math;
      this.radius := radius;
      vertices := [];
      indices := [];
      new;
      CreateIcosphere(radius, subdivisions);
    }

    /** Push one vertex on the sphere along `position`; its index is the old vertex count. */
    method AddVertex(position: Vec3) returns (i: nat)
      modifies this`vertices
      ensures vertices == old(vertices) + [SphereVertex(math, radius, position)]
      ensures i == |old(vertices)|
      ensures old(vertices) <= vertices
    {
      var n := math.normalize(position);
      vertices := vertices + [Vertex(Scale(n, radius), n, 0.0, White)];
      i := |vertices| - 1;
    }

    /**
     * The midpoint of edge (p1, p2) as written: on a cache hit the cached vertex's position
     * and nothing added; on a miss the new midpoint, pushed as a vertex and cached.
     */
    method GetMiddlePoint(p1: nat, p2: nat, cache: map<EdgeKey, nat>) returns (middle: Vec3, cache': map<EdgeKey, nat>)
      requires p1 < |vertices| && p2 < |vertices|
      requires CacheBelow(cache, |vertices|)
      modifies this`vertices
      ensures MidKey(p1, p2) in cache ==>
        && vertices == old(vertices) && cache' == cache
        && middle == vertices[cache[MidKey(p1, p2)]].position
      ensures MidKey(p1, p2) !in cache ==>
        && middle == Middle(math, radius, old(vertices)[p1].position, old(vertices)[p2].position)
        && vertices == old(vertices) + [SphereVertex(math, radius, middle)]
        && cache' == cache[MidKey(p1, p2) := |old(vertices)|]
      ensures cache'.Keys == cache.Keys + {MidKey(p1, p2)}
      ensures |vertices| == |old(vertices)| + (if MidKey(p1, p2) in cache then 0 else 1)
      ensures old(vertices) <= vertices
      ensures CacheBelow(cache', |vertices|)
    {
      var key := if p1 <= p2 then (p1, p2) else (p2, p1);
      if key in cache {
        return vertices[cache[key]].position, cache;
      }
      var point1 := vertices[p1].position;
      var point2 := vertices[p2].position;
      middle := Scale(math.normalize(Scale(Add(point1, point2), 0.5)), radius);
      var i := AddVertex(middle);
      cache' := cache[key := i];
    }

    /** addVertex(getMiddlePoint(p1, p2, cache)), the call each face makes per edge. */
    method AddMidpoint(p1: nat, p2: nat, cache: map<EdgeKey, nat>) returns (i: nat, cache': map<EdgeKey, nat>)
      requires p1 < |vertices| && p2 < |vertices|
      requires CacheBelow(cache, |vertices|)
      modifies this`vertices
      ensures AddMidpointAsWritten(math, radius, old(vertices), cache, p1, p2) == WrittenMid(vertices, cache', i)
      ensures old(vertices) <= vertices
    {
      ghost var v0 := vertices;
      var m;
      m, cache' := GetMiddlePoint(p1, p2, cache);
      i := AddVertex(m);
      if MidKey(p1, p2) !in cache {
        assert vertices == v0 + [SphereVertex(math, radius, m), SphereVertex(math, radius, m)];
      }
    }

    /**
     * One refinement pass as written: every face pushes a fresh vertex for each of its
     * three midpoints, after the cache has been consulted, and is replaced by four faces.
     */
    method RefinePassAsWritten(faces: seq<Tri>) returns (newFaces: seq<Tri>, ghost cache: map<EdgeKey, nat>)
      requires Below(faces, |vertices|)
      modifies this`vertices
      ensures WrittenPassOver(math, radius, faces, old(vertices)) == WrittenPass(newFaces, vertices, cache)
      ensures var r := WrittenRun(faces, |old(vertices)|);
              newFaces == r.faces && |vertices| == r.next
      ensures old(vertices) <= vertices
    {
      ghost var base := |vertices|;
      var table: map<EdgeKey, nat> := map[];
      newFaces := [];
      var i := 0;
      BelowPrefix(faces, 0, base);
      while i < |faces|
        invariant 0 <= i <= |faces|
        invariant Below(faces[..i], base)
        invariant old(vertices) <= vertices
        invariant WrittenPassOver(math, radius, faces[..i], old(vertices)) == WrittenPass(newFaces, vertices, table)
      {
        var t := faces[i];
        PrefixStep(faces, i);
        BelowPrefix(faces, i + 1, base);
        assert WrittenPassOver(math, radius, faces[..i + 1], old(vertices))
            == WrittenFaceStep(math, radius, WrittenPass(newFaces, vertices, table), t);
        newFaces, table := SplitFaceAsWritten(t, newFaces, table);
        i := i + 1;
      }
      assert faces[..i] == faces;
      cache := table;
      WrittenPassIndices(math, radius, faces, old(vertices));
    }

    /** The body of the as-written pass for one face t, appending its four faces to done. */
    method SplitFaceAsWritten(t: Tri, done: seq<Tri>, cache: map<EdgeKey, nat>)
      returns (done': seq<Tri>, cache': map<EdgeKey, nat>)
      requires t.0 < |vertices| && t.1 < |vertices| && t.2 < |vertices|
      requires CacheBelow(cache, |vertices|) && Below(done, |vertices|)
      modifies this`vertices
      ensures WrittenFaceStep(math, radius, WrittenPass(done, old(vertices), cache), t) == WrittenPass(done', vertices, cache')
      ensures old(vertices) <= vertices
    {
      var a, b, c;
      a, cache' := AddMidpoint(t.0, t.1, cache);
      b, cache' := AddMidpoint(t.1, t.2, cache');
      c, cache' := AddMidpoint(t.2, t.0, cache');
      done' := done + Refined(t, a, b, c);
    }

    /**
     * The midpoint of edge (p1, p2) by index: the cached vertex on a hit; on a miss the new
     * midpoint pushed as a vertex, whose index is cached.
     */
    method GetMiddleIndex(p1: nat, p2: nat, cache: map<EdgeKey, nat>) returns (i: nat, cache': map<EdgeKey, nat>)
      requires p1 < |vertices| && p2 < |vertices|
      modifies this`vertices
      ensures var l := Lookup(cache, MidKey(p1, p2), |old(vertices)|);
              i == l.index && cache' == l.cache && |vertices| == l.next
      ensures MidKey(p1, p2) in cache ==> vertices == old(vertices)
      ensures MidKey(p1, p2) !in cache ==>
        vertices == old(vertices) + [MidVertex(math, radius, old(vertices), MidKey(p1, p2))]
      ensures old(vertices) <= vertices
    {
      var key := if p1 <= p2 then (p1, p2) else (p2, p1);
      if key in cache {
        return cache[key], cache;
      }
      var point1 := vertices[p1].position;
      var point2 := vertices[p2].position;
      var middle := Scale(math.normalize(Scale(Add(point1, point2), 0.5)), radius);
      i := AddVertex(middle);
      cache' := cache[key := i];
    }

    /**
     * One refinement pass that shares midpoints: every face is replaced by four faces
     * whose new corners are the cached midpoint vertices of its edges.
     */
    method RefinePass(faces: seq<Tri>) returns (newFaces: seq<Tri>, ghost cache: map<EdgeKey, nat>)
      requires Below(faces, |vertices|)
      modifies this`vertices
      ensures SharedRun(faces, |old(vertices)|) == SharedState(newFaces, |vertices|, cache)
      ensures SplitThrough(faces, newFaces, cache) && Below(newFaces, |vertices|)
      ensures cache.Keys == AllKeys(faces) && |vertices| == |old(vertices)| + |cache|
      ensures AddsMidpoints(math, radius, old(vertices), vertices, cache)
      ensures old(vertices) <= vertices
    {
      ghost var base := |vertices|;
      var table: map<EdgeKey, nat> := map[];
      newFaces := [];
      var i := 0;
      while i < |faces|
        invariant 0 <= i <= |faces|
        invariant old(vertices) <= vertices
        invariant SharedRun(faces[..i], base) == SharedState(newFaces, |vertices|, table)
        invariant CacheHolds(table, base)
      {
        var t := faces[i];
        PrefixStep(faces, i);
        assert SharedRun(faces[..i + 1], base) == SharedStep(SharedState(newFaces, |vertices|, table), t);
        newFaces, table := SplitFace(t, newFaces, table, base);
        i := i + 1;
      }
      assert faces[..i] == faces;
      assert vertices[..base] == old(vertices);
      cache := table;
      forall key | key in cache
        ensures vertices[cache[key]] == MidVertex(math, radius, old(vertices), key)
      {
        assert vertices[cache[key]] == MidVertex(math, radius, vertices[..base], key);
      }
      SharedRunSplits(faces, base);
      SharedRunNumbered(faces, base);
      SharedRunBelow(faces, base);
    }

    /**
     * The cache of a pass that started with `base` vertices: every entry is an edge between
     * two of those vertices and indexes the vertex at that edge's midpoint.
     */
    ghost predicate CacheHolds(cache: map<EdgeKey, nat>, base: nat)
      reads this
    {
      && base <= |vertices|
      && (forall key :: key in cache ==> key.0 < base && key.1 < base && cache[key] < |vertices|)
      && forall key {:trigger MidVertex(math, radius, vertices[..base], key)} :: key in cache ==>
           vertices[cache[key]] == MidVertex(math, radius, vertices[..base], key)
    }

    /** The body of the shared pass for one face t, appending its four faces to done. */
    method SplitFace(t: Tri, done: seq<Tri>, cache: map<EdgeKey, nat>, ghost base: nat)
      returns (done': seq<Tri>, cache': map<EdgeKey, nat>)
      requires t.0 < base && t.1 < base && t.2 < base
      requires CacheHolds(cache, base)
      modifies this`vertices
      ensures SharedStep(SharedState(done, |old(vertices)|, cache), t) == SharedState(done', |vertices|, cache')
      ensures old(vertices) <= vertices
      ensures CacheHolds(cache', base)
    {
      ghost var v0 := vertices;
      var a, b, c;
      a, cache' := MidpointStep(t.0, t.1, cache, base);
      ghost var la := Lookup(cache, MidKey(t.0, t.1), |v0|);
      ghost var v1 := vertices;
      b, cache' := MidpointStep(t.1, t.2, cache', base);
      ghost var lb := Lookup(la.cache, MidKey(t.1, t.2), la.next);
      ghost var v2 := vertices;
      c, cache' := MidpointStep(t.2, t.0, cache', base);
      ghost var lc := Lookup(lb.cache, MidKey(t.2, t.0), lb.next);
      done' := done + Refined(t, a, b, c);
      assert v0 <= v1 <= v2 <= vertices;
      SharedStepIs(SharedState(done, |v0|, cache), t, la, lb, lc);
    }

    /** GetMiddleIndex inside a pass that started with `base` vertices: the cache keeps holding. */
    method MidpointStep(p1: nat, p2: nat, cache: map<EdgeKey, nat>, ghost base: nat)
      returns (i: nat, cache': map<EdgeKey, nat>)
      requires p1 < base && p2 < base
      requires CacheHolds(cache, base)
      modifies this`vertices
      ensures var l := Lookup(cache, MidKey(p1, p2), |old(vertices)|);
              i == l.index && cache' == l.cache && |vertices| == l.next
      ensures old(vertices) <= vertices
      ensures CacheHolds(cache', base)
    {
      i, cache' := GetMiddleIndex(p1, p2, cache);
      assert vertices[..base] == old(vertices)[..base];
      forall key | key in cache'
        ensures key.0 < base && key.1 < base && cache'[key] < |vertices|
        ensures vertices[cache'[key]] == MidVertex(math, radius, vertices[..base], key)
      {
        if key in cache {
          assert old(vertices)[cache[key]] == MidVertex(math, radius, old(vertices)[..base], key);
        }
      }
    }

    /** The index list of faces, three corners per face in order. */
    method StoreIndices(faces: seq<Tri>)
      modifies this`indices
      ensures indices == old(indices) + Flatten(faces)
    {
      var i := 0;
      while i < |faces|
        invariant 0 <= i <= |faces|
        invariant indices == old(indices) + Flatten(faces[..i])
      {
        assert faces[..i + 1][..i] == faces[..i];
        indices := indices + [faces[i].0, faces[i].1, faces[i].2];
        i := i + 1;
      }
      assert faces[..i] == faces;
    }

    /** Push the 12 icosahedron corners onto the sphere, in order. */
    method AddBaseVertices()
      modifies this`vertices
      ensures vertices == old(vertices) + BaseVertices(math, radius)
    {
      var t := (1.0 + math.sqrt(5.0)) / 2.0;
      var positions := BasePositions(t);
      var k := 0;
      while k < 12
        invariant 0 <= k <= 12
        invariant vertices == old(vertices) + BaseVertices(math, radius)[..k]
      {
        var _ := AddVertex(positions[k]);
        assert BaseVertices(math, radius)[..k + 1] == BaseVertices(math, radius)[..k] + [BaseVertices(math, radius)[k]];
        k := k + 1;
      }
    }

    /**
     * Build the sphere as written: the 12 base vertices, `subdivisions` passes as written
     * over the 20 base faces (none when it is not positive), and the flattened index list.
     */
    method CreateIcosphere(radius: real, subdivisions: int)
      modifies this`radius, this`vertices, this`indices
      ensures this.radius == radius
      ensures var p := WrittenPasses(math, radius, BaseFaces(), BaseVertices(math, radius), subdivisions);
              vertices == p.vertices && indices == Flatten(p.faces)
      ensures |vertices| >= 12 && vertices[..12] == BaseVertices(math, radius)
      ensures |indices| == 60 * MeshBuild.Pow4(subdivisions)
      ensures forall i :: 0 <= i < |indices| ==> indices[i] < |vertices|
    {
      this.radius := radius;
      vertices := [];
      indices := [];
      AddBaseVertices();
      assert vertices == BaseVertices(math, radius);
      var fs := RefineAll(BaseFaces(), subdivisions);
      WrittenPassesShape(math, radius, BaseFaces(), BaseVertices(math, radius), subdivisions);
      GrownIsPow4(20, subdivisions);
      StoreIndices(fs);
      FlattenBelow(fs, |vertices|);
    }

    /** Run `passes` passes as written (none when it is not positive) over faces. */
    method RefineAll(faces: seq<Tri>, passes: int) returns (fs: seq<Tri>)
      requires Below(faces, |vertices|)
      modifies this`vertices
      ensures var p := WrittenPasses(math, radius, faces, old(vertices), passes);
              fs == p.faces && vertices == p.vertices
      ensures old(vertices) <= vertices
    {
      ghost var vs := vertices;
      ghost var cache: map<EdgeKey, nat> := map[];
      fs := faces;
      var pass := 0;
      while pass < passes
        invariant 0 <= pass && (pass <= passes || pass == 0)
        invariant WrittenPasses(math, radius, faces, vs, pass) == WrittenPass(fs, vertices, cache)
        invariant vs <= vertices
      {
        WrittenPassesShape(math, radius, faces, vs, pass);
        fs, cache := RefinePassAsWritten(fs);
        pass := pass + 1;
      }
    }

    /**
     * The builder with shared midpoints: the same steps as CreateIcosphere, with every pass
     * using the cached midpoint vertex of each edge.
     */
    method CreateIcosphereShared(radius: real, subdivisions: int)
      modifies this`radius, this`vertices, this`indices
      ensures this.radius == radius
      ensures var p := SharedPasses(BaseFaces(), 12, subdivisions);
              indices == Flatten(p.faces) && |vertices| == p.next
      ensures |vertices| >= 12 && vertices[..12] == BaseVertices(math, radius)
      ensures |indices| == 60 * MeshBuild.Pow4(subdivisions)
      ensures forall i :: 0 <= i < |indices| ==> indices[i] < |vertices|
    {
      this.radius := radius;
      vertices := [];
      indices := [];
      AddBaseVertices();
      var fs := RefineAllShared(BaseFaces(), subdivisions);
      SharedPassesShape(BaseFaces(), 12, subdivisions);
      GrownIsPow4(20, subdivisions);
      StoreIndices(fs);
      FlattenBelow(fs, |vertices|);
    }

    /** Run `passes` passes with shared midpoints (none when it is not positive) over faces. */
    method RefineAllShared(faces: seq<Tri>, passes: int) returns (fs: seq<Tri>)
      requires Below(faces, |vertices|)
      modifies this`vertices
      ensures var p := SharedPasses(faces, |old(vertices)|, passes);
              fs == p.faces && |vertices| == p.next
      ensures old(vertices) <= vertices
    {
      ghost var cache: map<EdgeKey, nat> := map[];
      fs := faces;
      var pass := 0;
      while pass < passes
        invariant 0 <= pass && (pass <= passes || pass == 0)
        invariant SharedPasses(faces, |old(vertices)|, pass) == SharedState(fs, |vertices|, cache)
        invariant old(vertices) <= vertices
      {
        SharedPassesShape(faces, |old(vertices)|, pass);
        fs, cache := RefinePass(fs);
        pass := pass + 1;
      }
    }

    /**
     * Recolour and lift every vertex by its band. The noise is sampled at ten times the
     * vertex's direction, so vertices at one place get one sample. The oceanLevel argument
     * is not read.
     */
    method ApplyProceduralTerrain(oceanLevel: real, mountainHeight: real, noise: Vec3 -> real)
      modifies this`vertices
      ensures |vertices| == |old(vertices)|
      ensures forall i :: 0 <= i < |vertices| ==>
                vertices[i] == Terrain(math, radius, mountainHeight, noise, old(vertices)[i])
    {
      var i := 0;
      while i < |vertices|
        invariant 0 <= i <= |vertices| == |old(vertices)|
        invariant forall j :: 0 <= j < i ==>
                    vertices[j] == Terrain(math, radius, mountainHeight, noise, old(vertices)[j])
        invariant forall j :: i <= j < |vertices| ==> vertices[j] == old(vertices)[j]
      {
        var v := vertices[i];
        var posNorm := math.normalize(v.position);
        var n := (noise(Scale(posNorm, 10.0)) + 1.0) * 0.5;
        var h := TerrainHeight(n, mountainHeight);
        var color := BandColor(BandOf(n));
        vertices := vertices[i := Vertex(Scale(posNorm, radius + h), posNorm, n, color)];
        i := i + 1;
      }
    }
  }
}
