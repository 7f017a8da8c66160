/** Classes/Quaternion4.h: the operations. Their laws are in QuaternionAlgebra and below. */
module Quaternion4 {
  import opened MathLibrary
  import opened Vector3

  datatype Quaternion4f = Quaternion4f(x: real, y: real, z: real, w: real)

  const ZERO := Quaternion4f(0.0, 0.0, 0.0, 0.0)

  /** The returning form of QuatMultiply: the Hamilton product. */
  function QuatMultiply(lhs: Quaternion4f, rhs: Quaternion4f): Quaternion4f {
    Quaternion4f(
      lhs.w * rhs.x + lhs.x * rhs.w + lhs.y * rhs.z - lhs.z * rhs.y,
      lhs.w * rhs.y + lhs.y * rhs.w + lhs.z * rhs.x - lhs.x * rhs.z,
      lhs.w * rhs.z + lhs.z * rhs.w + lhs.x * rhs.y - lhs.y * rhs.x,
      lhs.w * rhs.w - lhs.x * rhs.x - lhs.y * rhs.y - lhs.z * rhs.z)
  }

  function QuatMake(x: real, y: real, z: real, w: real): Quaternion4f {
    Quaternion4f(x, y, z, w)
  }

  /** The table gQuatRot; `sqrt(2) * 0.5` is left to the library. */
  function QuatRot(m: Libm, k: nat): Quaternion4f
    requires k < 4
  {
    var h := m.sqrt(2.0) * 0.5;
    [QuatMake(0.0, 0.0, 0.0, 1.0),
     QuatMake(0.0, 0.0, h, -h),
     QuatMake(0.0, 0.0, 1.0, 0.0),
     QuatMake(0.0, 0.0, -h, -h)][k]
  }

  function QuatIdentity(): Quaternion4f {
    QuatMake(0.0, 0.0, 0.0, 1.0)
  }

  function QuatScale(q: Quaternion4f, s: real): Quaternion4f {
    QuatMake(s * q.x, s * q.y, s * q.z, s * q.w)
  }

  function QuatNormSquared(q: Quaternion4f): real {
    q.x * q.x + q.y * q.y + q.z * q.z + q.w * q.w
  }

  function QuatConjugate(q: Quaternion4f): Quaternion4f {
    QuatMake(-q.x, -q.y, -q.z, q.w)
  }

  function QuatInverse(q: Quaternion4f): Quaternion4f
    requires QuatNormSquared(q) != 0.0
  {
    QuatScale(QuatConjugate(q), 1.0 / QuatNormSquared(q))
  }

  function QuatNorm(m: Libm, q: Quaternion4f): real {
    m.sqrt(QuatNormSquared(q))
  }

  function QuatNormalize(m: Libm, q: Quaternion4f): Quaternion4f
    requires QuatNorm(m, q) != 0.0
  {
    QuatScale(q, 1.0 / QuatNorm(m, q))
  }

  function QuatDifference(a: Quaternion4f, b: Quaternion4f): Quaternion4f
    requires QuatNormSquared(b) != 0.0
  {
    QuatMultiply(QuatInverse(b), a)
  }

  ghost predicate IsUnitQuaternion(q: Quaternion4f) {
    QuatNormSquared(q) == 1.0
  }

  function Negate(q: Quaternion4f): Quaternion4f {
    QuatScale(q, -1.0)
  }

  // ----- What a quaternion means: a rotation of vectors by conjugation -----

  function Pure(v: Vector3f): Quaternion4f {
    Quaternion4f(v.x, v.y, v.z, 0.0)
  }

  function Imaginary(q: Quaternion4f): Vector3f {
    Vector3f(q.x, q.y, q.z)
  }

  function Conjugation(q: Quaternion4f, p: Quaternion4f): Quaternion4f {
    QuatMultiply(QuatMultiply(q, p), QuatConjugate(q))
  }

  /** The image of `v` under the rotation `q` stands for (when `q` is a unit quaternion). */
  function Rotate(q: Quaternion4f, v: Vector3f): Vector3f {
    Imaginary(Conjugation(q, Pure(v)))
  }
}
