/**
 * The value types and helpers declared in the planet header: the tolerant
 * vector equality and the exact-bit vector hash used by the vertex
 * deduplication map, the per-triangle LOD record, the quadtree node and the
 * quadtree LOD defaults.
 */
module PlanetHeader {
  import opened Glm

  /** The tolerance of Vec3Equal (1e-6f). */
  const Epsilon: real := 0.000001

  /** Two positions are "equal" for the map when every component differs by strictly less than Epsilon. */
  predicate Vec3Equal(a: Vec3, b: Vec3) {
    && Abs(a.x - b.x) < Epsilon
    && Abs(a.y - b.y) < Epsilon
    && Abs(a.z - b.z) < Epsilon
  }

  lemma Vec3EqualReflexive(a: Vec3)
    ensures Vec3Equal(a, a)
  {
  }

  lemma Vec3EqualSymmetric(a: Vec3, b: Vec3)
    ensures Vec3Equal(a, b) <==> Vec3Equal(b, a)
  {
  }

  /** The tolerance makes Vec3Equal non-transitive: a ~ b and b ~ c, yet a and c are apart. */
  lemma Vec3EqualNotTransitive()
    ensures var a, b, c := Zero, Vec3(0.0000006, 0.0, 0.0), Vec3(0.0000012, 0.0, 0.0);
            Vec3Equal(a, b) && Vec3Equal(b, c) && !Vec3Equal(a, c)
  {
  }

  /**
   * Vec3Hash over a 64-bit size_t: the per-component float hash (std::hash<float>,
   * a function of the exact bits) combined as h1 ^ (h2 << 1) ^ (h3 << 2).
   */
  function Vec3Hash(floatHash: real -> bv64, v: Vec3): bv64 {
    floatHash(v.x) ^ (floatHash(v.y) << 1) ^ (floatHash(v.z) << 2)
  }

  /**
   * The hash does not respect the tolerant equality: two keys that differ only in x,
   * by less than Epsilon, hash apart whenever their x components hash apart. So the
   * map may keep both as separate vertices.
   */
  lemma EqualKeysCanHashApart(floatHash: real -> bv64, a: Vec3, b: Vec3)
    requires a.y == b.y && a.z == b.z
    requires floatHash(a.x) != floatHash(b.x)
    ensures Vec3Hash(floatHash, a) != Vec3Hash(floatHash, b)
  {
    XorKeepsApart(floatHash(a.x), floatHash(b.x), floatHash(a.y) << 1, floatHash(a.z) << 2);
  }

  lemma XorKeepsApart(p: bv64, q: bv64, s: bv64, t: bv64)
    requires p != q
    ensures p ^ s ^ t != q ^ s ^ t
  {
  }

  lemma NearKeysAreVec3Equal()
    ensures Vec3Equal(Zero, Vec3(0.0000001, 0.0, 0.0))
  {
  }

  /**
   * One base triangle of the LOD mesh: corner indices into the base vertices,
   * its centre, the cached camera distance, its subdivision level and flags.
   * (The per-triangle normal, used only by culling, is not modelled.)
   */
  datatype Triangle = Triangle(
    v1: nat, v2: nat, v3: nat,
    center: Vec3,
    distanceToCamera: real,
    subdivisionLevel: int,
    needsUpdate: bool,
    isVisible: bool)

  datatype Vec2 = Vec2(u: real, v: real)

  /**
   * A cube-sphere quadtree node. `children` stands for the four child pointers
   * (empty when they are null); GPU handles are the integer fields.
   */
  datatype QuadNode = QuadNode(
    minUV: Vec2, maxUV: Vec2,
    level: int, faceIndex: int,
    isLeaf: bool, morphFactor: real,
    vbo: nat, ibo: nat, vao: nat, indexCount: int,
    children: seq<QuadNode>,
    isVisible: bool)

  /** The QuadNode constructor: keeps the bounds, level and face; a leaf with no children and morph factor 0. */
  function NewQuadNode(minUV: Vec2, maxUV: Vec2, level: int, faceIndex: int): (n: QuadNode)
    ensures n.minUV == minUV && n.maxUV == maxUV && n.level == level && n.faceIndex == faceIndex
    ensures n.isLeaf && n.children == [] && n.morphFactor == 0.0
    ensures n.vbo == 0 && n.ibo == 0 && n.vao == 0 && n.indexCount == 0 && n.isVisible
  {
    QuadNode(minUV, maxUV, level, faceIndex, true, 0.0, 0, 0, 0, 0, [], true)
  }

  /** Defaults of the quadtree LOD fields. */
  const MaxLODLevel: int := 10
  const SplitDistance: real := 2.0
}
