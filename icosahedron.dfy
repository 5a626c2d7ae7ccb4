/**
 * The base icosahedron shared by both sphere builders: its 20 faces as triples
 * of corner indices into the 12 base vertices, in the order both builders list
 * them, and the fact that they close up into one consistently oriented surface.
 */
module Icosahedron {

  /** An index of one of the 12 base vertices. */
  type BaseIndex = i: nat | i < 12

  type Face = (BaseIndex, BaseIndex, BaseIndex)

  /** The 20 faces: five around vertex 0, five adjacent, five around vertex 3, five adjacent. */
  const Faces: seq<Face> := [
    (0, 11, 5), (0, 5, 1), (0, 1, 7), (0, 7, 10), (0, 10, 11),
    (1, 5, 9), (5, 11, 4), (11, 10, 2), (10, 7, 6), (7, 1, 8),
    (3, 9, 4), (3, 4, 2), (3, 2, 6), (3, 6, 8), (3, 8, 9),
    (4, 9, 5), (2, 4, 11), (6, 2, 10), (8, 6, 7), (9, 8, 1)]

  /** Corner e (0, 1 or 2) of a face. */
  function Corner(t: Face, e: nat): BaseIndex
    requires e < 3
  {
    if e == 0 then t.0 else if e == 1 then t.1 else t.2
  }

  /** Directed edge e of face f runs from corner e to the next corner. */
  function EdgeFrom(f: nat, e: nat): BaseIndex
    requires f < |Faces| && e < 3
  {
    Corner(Faces[f], e)
  }

  function EdgeTo(f: nat, e: nat): BaseIndex
    requires f < |Faces| && e < 3
  {
    Corner(Faces[f], (e + 1) % 3)
  }

  /** For edge e of face f, the face (first) and edge (second) that run the other way. */
  const Mates: seq<((nat, nat), (nat, nat), (nat, nat))> := [
    ((4, 2), (6, 0), (1, 0)), ((0, 2), (5, 0), (2, 0)), ((1, 2), (9, 0), (3, 0)),
    ((2, 2), (8, 0), (4, 0)), ((3, 2), (7, 0), (0, 0)), ((1, 1), (15, 1), (19, 2)),
    ((0, 1), (16, 1), (15, 2)), ((4, 1), (17, 1), (16, 2)), ((3, 1), (18, 1), (17, 2)),
    ((2, 1), (19, 1), (18, 2)), ((14, 2), (15, 0), (11, 0)), ((10, 2), (16, 0), (12, 0)),
    ((11, 2), (17, 0), (13, 0)), ((12, 2), (18, 0), (14, 0)), ((13, 2), (19, 0), (10, 0)),
    ((10, 1), (5, 1), (6, 2)), ((11, 1), (6, 1), (7, 2)), ((12, 1), (7, 1), (8, 2)),
    ((13, 1), (8, 1), (9, 2)), ((14, 1), (9, 1), (5, 2))]

  function Mate(f: nat, e: nat): (nat, nat)
    requires f < |Mates| && e < 3
  {
    if e == 0 then Mates[f].0 else if e == 1 then Mates[f].1 else Mates[f].2
  }

  /** Edge e of face f is met by its mate, running the other way, in a different face. */
  predicate Mated(f: nat, e: nat)
    requires f < |Faces| && e < 3
  {
    var (g, d) := Mate(f, e);
    && g < |Faces| && d < 3 && g != f
    && EdgeFrom(g, d) == EdgeTo(f, e) && EdgeTo(g, d) == EdgeFrom(f, e)
  }

  /**
   * The faces form a closed, consistently oriented surface: every directed edge (a, b)
   * is met by the reversed edge (b, a) in a different face.
   */
  lemma FacesClosed()
    ensures |Faces| == 20
    ensures forall f, e :: 0 <= f < |Faces| && 0 <= e < 3 ==> Mated(f, e)
  {
  }
}
