/** Classes/Vector3.h. */
module Vector3 {
  import opened MathLibrary

  datatype Vector3f = Vector3f(x: real, y: real, z: real)

  const ORIGIN := Vector3f(0.0, 0.0, 0.0)

  function VecDotProduct(v1: Vector3f, v2: Vector3f): real {
    v1.x * v2.x + v1.y * v2.y + v1.z * v2.z
  }

  function VecMagnitude(m: Libm, v: Vector3f): real {
    m.sqrt(VecDotProduct(v, v))
  }

  function VecMake(x: real, y: real, z: real): Vector3f {
    Vector3f(x, y, z)
  }

  function VecCrossProduct(v1: Vector3f, v2: Vector3f): Vector3f {
    VecMake(
      v1.y * v2.z - v1.z * v2.y,
      v1.z * v2.x - v1.x * v2.z,
      v1.x * v2.y - v1.y * v2.x)
  }

  function VecScale(s: real, v: Vector3f): Vector3f {
    VecMake(s * v.x, s * v.y, s * v.z)
  }

  function VecNormalize(m: Libm, v: Vector3f): Vector3f
    requires VecMagnitude(m, v) != 0.0
  {
    VecScale(1.0 / VecMagnitude(m, v), v)
  }

  /** The sum of two vectors and the squared distance between them; specification only. */
  function VecAdd(v1: Vector3f, v2: Vector3f): Vector3f {
    Vector3f(v1.x + v2.x, v1.y + v2.y, v1.z + v2.z)
  }

  function VecSubtract(v1: Vector3f, v2: Vector3f): Vector3f {
    Vector3f(v1.x - v2.x, v1.y - v2.y, v1.z - v2.z)
  }

  function SquaredDistance(v1: Vector3f, v2: Vector3f): real {
    VecDotProduct(VecSubtract(v1, v2), VecSubtract(v1, v2))
  }

  ghost predicate IsUnit(v: Vector3f) {
    VecDotProduct(v, v) == 1.0
  }

  lemma SameVector(v1: Vector3f, v2: Vector3f)
    requires v1.x == v2.x && v1.y == v2.y && v1.z == v2.z
    ensures v1 == v2
  {}

  // ----- Lengths -----

  /** The radicand of VecMagnitude is never negative. */
  lemma SelfDotIsNonNegative(v: Vector3f)
    ensures VecDotProduct(v, v) >= 0.0
  {}

  lemma MagnitudeSquared(m: Libm, v: Vector3f)
    requires m.LawfulSqrt()
    ensures VecMagnitude(m, v) >= 0.0
    ensures VecMagnitude(m, v) * VecMagnitude(m, v) == VecDotProduct(v, v)
  {
    SelfDotIsNonNegative(v);
  }

  lemma DotScale(s: real, v: Vector3f, t: real, w: Vector3f)
    ensures VecDotProduct(VecScale(s, v), VecScale(t, w)) == (s * t) * VecDotProduct(v, w)
  {
    var a, b := VecScale(s, v), VecScale(t, w);
    assert a.x * b.x == (s * t) * (v.x * w.x);
    assert a.y * b.y == (s * t) * (v.y * w.y);
    assert a.z * b.z == (s * t) * (v.z * w.z);
  }

  lemma DotOfTimes(v: Vector3f, w: Vector3f)
    ensures VecDotProduct(v, w) == Times(v.x, w.x) + Times(v.y, w.y) + Times(v.z, w.z)
  {}

  lemma ScaleByTimes(s: real, v: Vector3f)
    ensures VecScale(s, v) == Vector3f(Times(s, v.x), Times(s, v.y), Times(s, v.z))
  {}

  lemma DotCommutes(v: Vector3f, w: Vector3f)
    ensures VecDotProduct(v, w) == VecDotProduct(w, v)
  {}

  lemma DotAdd(u: Vector3f, v: Vector3f, w: Vector3f)
    ensures VecDotProduct(VecAdd(u, v), w) == VecDotProduct(u, w) + VecDotProduct(v, w)
  {}

  lemma DotScaled(s: real, v: Vector3f, w: Vector3f)
    ensures VecDotProduct(VecScale(s, v), w) == s * VecDotProduct(v, w)
  {
    var a := VecScale(s, v);
    assert a.x * w.x == s * (v.x * w.x);
    assert a.y * w.y == s * (v.y * w.y);
    assert a.z * w.z == s * (v.z * w.z);
  }

  /** Dividing a vector by its magnitude gives a direction, and multiplying back gives the vector. */
  lemma NormalizeIsUnit(m: Libm, v: Vector3f)
    requires m.LawfulSqrt() && VecMagnitude(m, v) != 0.0
    ensures IsUnit(VecNormalize(m, v))
    ensures VecScale(VecMagnitude(m, v), VecNormalize(m, v)) == v
  {
    var n := VecMagnitude(m, v);
    var i := 1.0 / n;
    MagnitudeSquared(m, v);
    DotScale(i, v, i, v);
    assert i * n == 1.0;
    assert (i * i) * (n * n) == (i * n) * (i * n);
    ScaleCancels(n, i, v.x);
    ScaleCancels(n, i, v.y);
    ScaleCancels(n, i, v.z);
  }

  /** A direction is its own direction. */
  lemma UnitIsNormalized(m: Libm, v: Vector3f)
    requires m.LawfulSqrt() && IsUnit(v)
    ensures VecMagnitude(m, v) == 1.0 && VecNormalize(m, v) == v
  {
    SquaresDetermine(m.sqrt(1.0), 1.0);
  }

  lemma ScaleCancels(s: real, t: real, a: real)
    requires t * s == 1.0
    ensures s * (t * a) == a
  {
    assert s * (t * a) == (t * s) * a;
  }

  // ----- Dot and cross product -----

  /** Lagrange's identity; Cauchy-Schwarz follows because the left side is a sum of squares. */
  lemma Lagrange(v1: Vector3f, v2: Vector3f)
    ensures VecDotProduct(VecCrossProduct(v1, v2), VecCrossProduct(v1, v2))
            == VecDotProduct(v1, v1) * VecDotProduct(v2, v2)
               - VecDotProduct(v1, v2) * VecDotProduct(v1, v2)
  {
  }

  lemma CauchySchwarz(v1: Vector3f, v2: Vector3f)
    ensures VecDotProduct(v1, v2) * VecDotProduct(v1, v2)
            <= VecDotProduct(v1, v1) * VecDotProduct(v2, v2)
  {
    Lagrange(v1, v2);
    SelfDotIsNonNegative(VecCrossProduct(v1, v2));
  }

  lemma CrossIsOrthogonal(v1: Vector3f, v2: Vector3f)
    ensures VecDotProduct(VecCrossProduct(v1, v2), v1) == 0.0 && VecDotProduct(VecCrossProduct(v1, v2), v2) == 0.0
  {}

  lemma DistanceOfUnits(v1: Vector3f, v2: Vector3f)
    requires IsUnit(v1) && IsUnit(v2)
    ensures SquaredDistance(v1, v2) == 2.0 - 2.0 * VecDotProduct(v1, v2)
  {
  }
}
