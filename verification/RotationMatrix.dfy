/** The rotation of a unit quaternion written out as a matrix. */
module RotationMatrix {
  import opened MathLibrary
  import opened Vector3
  import opened Quaternion4
  import opened QuaternionAlgebra

  const E1 := Vector3f(1.0, 0.0, 0.0)
  const E2 := Vector3f(0.0, 1.0, 0.0)
  const E3 := Vector3f(0.0, 0.0, 1.0)

  // ----- Rotate, coordinate by coordinate -----

  /** The shapes of the coordinates of q * (v, 0). */
  function TwoMinusOne(a0: real, b0: real, a1: real, b1: real, a2: real, b2: real): real {
    a0 * b0 + a1 * b1 - a2 * b2
  }

  function MinusThree(a0: real, b0: real, a1: real, b1: real, a2: real, b2: real): real {
    -(a0 * b0) - a1 * b1 - a2 * b2
  }

  /** `p` is q * (v, 0). */
  ghost predicate IsFirstHalf(q: Quaternion4f, v: Vector3f, p: Quaternion4f) {
    && p.x == TwoMinusOne(q.w, v.x, q.y, v.z, q.z, v.y)
    && p.y == TwoMinusOne(q.w, v.y, q.z, v.x, q.x, v.z)
    && p.z == TwoMinusOne(q.w, v.z, q.x, v.y, q.y, v.x)
    && p.w == MinusThree(q.x, v.x, q.y, v.y, q.z, v.z)
  }

  /** `r` is the vector part of p * conjugate(q). */
  ghost predicate IsSecondHalf(q: Quaternion4f, p: Quaternion4f, r: Vector3f) {
    && r.x == Times(p.x, q.w) - Times(p.w, q.x) + Times(p.z, q.y) - Times(p.y, q.z)
    && r.y == Times(p.y, q.w) - Times(p.w, q.y) + Times(p.x, q.z) - Times(p.z, q.x)
    && r.z == Times(p.z, q.w) - Times(p.w, q.z) + Times(p.y, q.x) - Times(p.x, q.y)
  }

  lemma FirstHalf(q: Quaternion4f, v: Vector3f)
    ensures IsFirstHalf(q, v, QuatMultiply(q, Pure(v)))
  {}

  lemma SecondHalf(q: Quaternion4f, p: Quaternion4f)
    ensures IsSecondHalf(q, p, Imaginary(QuatMultiply(p, QuatConjugate(q))))
  {
    hide QuatMultiply, IsProduct, Times;
    MultiplyIsProduct(p, QuatConjugate(q));
    ProductShapes(QuatMultiply(p, QuatConjugate(q)), p, QuatConjugate(q));
    TimesOpposite(p.w, q.x, q.y, q.z);
    TimesOpposite(p.x, q.x, q.y, q.z);
    TimesOpposite(p.y, q.x, q.y, q.z);
    TimesOpposite(p.z, q.x, q.y, q.z);
  }

  lemma TimesOpposite(a: real, x: real, y: real, z: real)
    ensures Times(a, -x) == -Times(a, x) && Times(a, -y) == -Times(a, y) && Times(a, -z) == -Times(a, z)
  {}

  /** One entry of the image of `v`, as a row of the matrix. */
  function Row1(q: Quaternion4f): Vector3f {
    Vector3f(q.w * q.w + q.x * q.x - q.y * q.y - q.z * q.z,
             2.0 * (q.x * q.y - q.w * q.z),
             2.0 * (q.x * q.z + q.w * q.y))
  }

  function Row2(q: Quaternion4f): Vector3f {
    Vector3f(2.0 * (q.x * q.y + q.w * q.z),
             q.w * q.w - q.x * q.x + q.y * q.y - q.z * q.z,
             2.0 * (q.y * q.z - q.w * q.x))
  }

  function Row3(q: Quaternion4f): Vector3f {
    Vector3f(2.0 * (q.x * q.z - q.w * q.y),
             2.0 * (q.y * q.z + q.w * q.x),
             q.w * q.w - q.x * q.x - q.y * q.y + q.z * q.z)
  }

  /** The first row, given by its axes in order. */
  ghost predicate AreCoefficients(w: real, x: real, y: real, z: real, c0: real, c1: real, c2: real) {
    c0 == w * w + x * x - y * y - z * z && c1 == 2.0 * (x * y - w * z) && c2 == 2.0 * (x * z + w * y)
  }

  lemma FirstRow(q: Quaternion4f)
    ensures AreCoefficients(q.w, q.x, q.y, q.z, Row1(q).x, Row1(q).y, Row1(q).z)
  {}

  lemma SecondRow(q: Quaternion4f)
    ensures AreCoefficients(q.w, q.y, q.z, q.x, Row2(q).y, Row2(q).z, Row2(q).x)
  {}

  lemma ThirdRow(q: Quaternion4f)
    ensures AreCoefficients(q.w, q.z, q.x, q.y, Row3(q).z, Row3(q).x, Row3(q).y)
  {}

  /** One entry of the image, from the coordinates of q * (v, 0). The three entries are this one with
      the axes in cyclic order; `c0`, `c1` and `c2` are the coefficients of the matrix. */
  lemma Entry(w: real, x: real, y: real, z: real, vx: real, vy: real, vz: real,
              pw: real, px: real, py: real, pz: real, c0: real, c1: real, c2: real)
    requires pw == MinusThree(x, vx, y, vy, z, vz) && px == TwoMinusOne(w, vx, y, vz, z, vy)
    requires py == TwoMinusOne(w, vy, z, vx, x, vz) && pz == TwoMinusOne(w, vz, x, vy, y, vx)
    requires AreCoefficients(w, x, y, z, c0, c1, c2)
    ensures Times(px, w) - Times(pw, x) + Times(pz, y) - Times(py, z) == Times(c0, vx) + Times(c1, vy) + Times(c2, vz)
  {
    hide AreCoefficients, TwoMinusOne, MinusThree, Times, Triple;
    HalfTimes(x, vx, y, vy, z, vz, x);
    HalfTimes(w, vx, y, vz, z, vy, w);
    HalfTimes(w, vy, z, vx, x, vz, z);
    HalfTimes(w, vz, x, vy, y, vx, y);
    CoefficientsTimes(w, x, y, z, vx, vy, vz, c0, c1, c2);
    TripleSwaps(x, y, vy);
    TripleSwaps(x, z, vz);
    TripleSwaps(w, y, vz);
    TripleSwaps(w, z, vy);
  }

  lemma HalfTimes(a0: real, b0: real, a1: real, b1: real, a2: real, b2: real, c: real)
    ensures Times(TwoMinusOne(a0, b0, a1, b1, a2, b2), c) == Triple(a0, c, b0) + Triple(a1, c, b1) - Triple(a2, c, b2)
    ensures Times(MinusThree(a0, b0, a1, b1, a2, b2), c) == -Triple(a0, c, b0) - Triple(a1, c, b1) - Triple(a2, c, b2)
  {}

  lemma CoefficientsTimes(w: real, x: real, y: real, z: real, vx: real, vy: real, vz: real,
                          c0: real, c1: real, c2: real)
    requires AreCoefficients(w, x, y, z, c0, c1, c2)
    ensures Times(c0, vx) == Triple(w, w, vx) + Triple(x, x, vx) - Triple(y, y, vx) - Triple(z, z, vx)
    ensures Times(c1, vy) == 2.0 * Triple(x, y, vy) - 2.0 * Triple(w, z, vy)
    ensures Times(c2, vz) == 2.0 * Triple(x, z, vz) + 2.0 * Triple(w, y, vz)
  {}

  lemma TripleSwaps(a: real, b: real, c: real)
    ensures Triple(a, b, c) == Triple(b, a, c)
  {}

  lemma MinusThreeTurns(a0: real, b0: real, a1: real, b1: real, a2: real, b2: real)
    ensures MinusThree(a1, b1, a2, b2, a0, b0) == MinusThree(a0, b0, a1, b1, a2, b2)
    ensures MinusThree(a2, b2, a0, b0, a1, b1) == MinusThree(a0, b0, a1, b1, a2, b2)
  {}

  lemma Entries(q: Quaternion4f, v: Vector3f, p: Quaternion4f, r: Vector3f)
    requires IsFirstHalf(q, v, p) && IsSecondHalf(q, p, r)
    ensures r.x == VecDotProduct(Row1(q), v)
    ensures r.y == VecDotProduct(Row2(q), v)
    ensures r.z == VecDotProduct(Row3(q), v)
  {
    hide AreCoefficients, TwoMinusOne, MinusThree, Times, VecDotProduct, Row1, Row2, Row3;
    FirstRow(q);
    SecondRow(q);
    ThirdRow(q);
    MinusThreeTurns(q.x, v.x, q.y, v.y, q.z, v.z);
    Entry(q.w, q.x, q.y, q.z, v.x, v.y, v.z, p.w, p.x, p.y, p.z, Row1(q).x, Row1(q).y, Row1(q).z);
    Entry(q.w, q.y, q.z, q.x, v.y, v.z, v.x, p.w, p.y, p.z, p.x, Row2(q).y, Row2(q).z, Row2(q).x);
    Entry(q.w, q.z, q.x, q.y, v.z, v.x, v.y, p.w, p.z, p.x, p.y, Row3(q).z, Row3(q).x, Row3(q).y);
    DotOfTimes(Row1(q), v);
    DotOfTimes(Row2(q), v);
    DotOfTimes(Row3(q), v);
  }

  /** Conjugation by any quaternion is multiplication by the matrix with these rows. */
  lemma RotateByRows(q: Quaternion4f, v: Vector3f)
    ensures Rotate(q, v)
            == Vector3f(VecDotProduct(Row1(q), v), VecDotProduct(Row2(q), v), VecDotProduct(Row3(q), v))
  {
    hide QuatMultiply, IsFirstHalf, IsSecondHalf, Row1, Row2, Row3, VecDotProduct;
    var p, r := QuatMultiply(q, Pure(v)), Rotate(q, v);
    FirstHalf(q, v);
    SecondHalf(q, p);
    Entries(q, v, p, r);
  }
}
