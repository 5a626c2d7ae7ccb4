/**
 * Vectors and the parts of the maths library (glm, <cmath>) that the planet
 * code calls. Single-precision floats are modelled as reals; square roots,
 * normalisation, trigonometry and the rotation matrix are opaque functions
 * carried in a MathLib value, so nothing here depends on their exact results.
 */
module Glm {

  datatype Vec3 = Vec3(x: real, y: real, z: real)

  const Zero: Vec3 := Vec3(0.0, 0.0, 0.0)

  function Add(a: Vec3, b: Vec3): Vec3 {
    Vec3(a.x + b.x, a.y + b.y, a.z + b.z)
  }

  function Sub(a: Vec3, b: Vec3): Vec3 {
    Vec3(a.x - b.x, a.y - b.y, a.z - b.z)
  }

  function Scale(v: Vec3, k: real): Vec3 {
    Vec3(v.x * k, v.y * k, v.z * k)
  }

  function Abs(r: real): real {
    if r < 0.0 then -r else r
  }

  /** IEEE division where only the finite case is modelled: a zero divisor gives 0. */
  function FloatDiv(a: real, b: real): real {
    if b == 0.0 then 0.0 else a / b
  }

  /** M_PI as the source defines it. */
  const Pi: real := 3.14159265358979323846

  function Radians(degrees: real): real {
    degrees * Pi / 180.0
  }

  function Degrees(radians: real): real {
    radians * 180.0 / Pi
  }

  /**
   * The library functions whose results the model does not interpret:
   * glm::length, glm::normalize, sqrt, sin, cos, atan2, asin, and the point
   * rotation done by glm::rotate(angle, axis) applied to a point.
   */
  datatype MathLib = MathLib(
    length: Vec3 -> real,
    normalize: Vec3 -> Vec3,
    sqrt: real -> real,
    sin: real -> real,
    cos: real -> real,
    atan2: (real, real) -> real,
    asin: real -> real,
    rotate: (real, Vec3, Vec3) -> Vec3)

  /**
   * The real-number laws of length and normalisation that some lemmas rely
   * on: lengths are never negative, only the zero vector has length zero,
   * and a normalised non-zero vector scaled by k >= 0 has length k.
   */
  ghost predicate Lawful(m: MathLib) {
    && (forall v :: m.length(v) >= 0.0)
    && (forall v :: m.length(v) == 0.0 <==> v == Zero)
    && (forall v, k :: v != Zero && k >= 0.0 ==> m.length(Scale(m.normalize(v), k)) == k)
  }

  lemma SubAddCancels(c: Vec3, w: Vec3)
    ensures Sub(Add(c, w), c) == w
  {
  }
}
