/** Among all rotations that take one direction to the other, QuatRotationFromTo picks the one
    that turns least; swapping its arguments undoes it, and lengths do not matter to it. */
module ShortestArc {
  import opened MathLibrary
  import opened Vector3
  import opened Quaternion4
  import opened QuaternionAlgebra
  import opened Rotation
  import opened RotationMatrix
  import opened RotationFromTo

  // ----- The angle a unit quaternion turns a direction by -----

  /** A direction `v` turned about the axis `u`: the shape of Rodrigues' formula. */
  function Turned(e: real, v: Vector3f, t: real, u: Vector3f, k: real): Vector3f {
    VecAdd(VecAdd(VecScale(e, v), VecScale(t, u)), VecScale(k, VecCrossProduct(u, v)))
  }

  function Minor(a0: real, b0: real, a1: real, b1: real): real {
    a0 * b0 - a1 * b1
  }

  lemma CrossByMinors(u: Vector3f, v: Vector3f)
    ensures VecCrossProduct(u, v)
            == Vector3f(Minor(u.y, v.z, u.z, v.y), Minor(u.z, v.x, u.x, v.z), Minor(u.x, v.y, u.y, v.x))
  {}

  /** The factors of the formula, for the axes in the order x, y, z. */
  ghost predicate AreFactors(w: real, x: real, y: real, z: real, vx: real, vy: real, vz: real, e: real, t: real) {
    e == w * w - x * x - y * y - z * z && t == 2.0 * (x * vx + y * vy + z * vz)
  }

  lemma Rodrigues(q: Quaternion4f, v: Vector3f, e: real, t: real, k: real)
    requires AreFactors(q.w, q.x, q.y, q.z, v.x, v.y, v.z, e, t) && k == 2.0 * q.w
    ensures Rotate(q, v) == Turned(e, v, t, Imaginary(q), k)
  {
    hide Rotate, AreFactors, AreCoefficients, Row1, Row2, Row3, VecDotProduct, VecCrossProduct, VecAdd, VecScale,
      Times, Minor;
    var u := Imaginary(q);
    FactorsAreCyclic(q.w, q.x, q.y, q.z, v.x, v.y, v.z, e, t);
    FirstRow(q);
    SecondRow(q);
    ThirdRow(q);
    RotateByRows(q, v);
    DotOfTimes(Row1(q), v);
    DotOfTimes(Row2(q), v);
    DotOfTimes(Row3(q), v);
    CrossByMinors(u, v);
    SumOfTimes(e, v, t, u, k, VecCrossProduct(u, v));
    TurnedEntry(q.w, q.x, q.y, q.z, v.x, v.y, v.z, e, t, k, Row1(q).x, Row1(q).y, Row1(q).z);
    TurnedEntry(q.w, q.y, q.z, q.x, v.y, v.z, v.x, e, t, k, Row2(q).y, Row2(q).z, Row2(q).x);
    TurnedEntry(q.w, q.z, q.x, q.y, v.z, v.x, v.y, e, t, k, Row3(q).z, Row3(q).x, Row3(q).y);
    SameVector(Rotate(q, v), Turned(e, v, t, u, k));
  }

  lemma FactorsAreCyclic(w: real, x: real, y: real, z: real, vx: real, vy: real, vz: real, e: real, t: real)
    requires AreFactors(w, x, y, z, vx, vy, vz, e, t)
    ensures AreFactors(w, y, z, x, vy, vz, vx, e, t) && AreFactors(w, z, x, y, vz, vx, vy, e, t)
  {}

  lemma SumOfTimes(e: real, v: Vector3f, t: real, u: Vector3f, k: real, c: Vector3f)
    ensures VecAdd(VecAdd(VecScale(e, v), VecScale(t, u)), VecScale(k, c))
            == Vector3f(Times(e, v.x) + Times(t, u.x) + Times(k, c.x),
                        Times(e, v.y) + Times(t, u.y) + Times(k, c.y),
                        Times(e, v.z) + Times(t, u.z) + Times(k, c.z))
  {}

  /** One entry, for all three by the cyclic order of the axes. */
  lemma TurnedEntry(w: real, x: real, y: real, z: real, vx: real, vy: real, vz: real,
                    e: real, t: real, k: real, c0: real, c1: real, c2: real)
    requires AreFactors(w, x, y, z, vx, vy, vz, e, t) && k == 2.0 * w && AreCoefficients(w, x, y, z, c0, c1, c2)
    ensures Times(c0, vx) + Times(c1, vy) + Times(c2, vz) == Times(e, vx) + Times(t, x) + Times(k, Minor(y, vz, z, vy))
  {
    hide AreFactors, AreCoefficients, Times, Triple, Minor;
    CoefficientsTimes(w, x, y, z, vx, vy, vz, c0, c1, c2);
    FactorsTimes(w, x, y, z, vx, vy, vz, e, t);
    CrossTimes(w, k, y, vz, z, vy);
    TripleSwaps(x, y, vy);
    TripleSwaps(x, z, vz);
  }

  lemma FactorsTimes(w: real, x: real, y: real, z: real, vx: real, vy: real, vz: real, e: real, t: real)
    requires AreFactors(w, x, y, z, vx, vy, vz, e, t)
    ensures Times(e, vx) == Triple(w, w, vx) - Triple(x, x, vx) - Triple(y, y, vx) - Triple(z, z, vx)
    ensures Times(t, x) == 2.0 * Triple(x, x, vx) + 2.0 * Triple(y, x, vy) + 2.0 * Triple(z, x, vz)
  {}

  lemma CrossTimes(w: real, k: real, a0: real, b0: real, a1: real, b1: real)
    requires k == 2.0 * w
    ensures Times(k, Minor(a0, b0, a1, b1)) == 2.0 * Triple(w, a0, b0) - 2.0 * Triple(w, a1, b1)
  {}

  /** The cosine of the turn a unit quaternion gives a direction, by the parts of the quaternion
      along that direction and along the real axis. */
  lemma TurnCosine(q: Quaternion4f, v: Vector3f, a: real)
    requires IsUnitQuaternion(q) && IsUnit(v) && a == VecDotProduct(Imaginary(q), v)
    ensures VecDotProduct(v, Rotate(q, v)) == 2.0 * (q.w * q.w) - 1.0 + 2.0 * (a * a)
  {
    hide Rotate, VecDotProduct, VecScale, VecCrossProduct, VecAdd;
    var e, t, k, u := q.w * q.w - q.x * q.x - q.y * q.y - q.z * q.z, 2.0 * a, 2.0 * q.w, Imaginary(q);
    var c := VecCrossProduct(u, v);
    FactorsOfTurn(q, v, e, t);
    Rodrigues(q, v, e, t, k);
    DotAdd(VecAdd(VecScale(e, v), VecScale(t, u)), VecScale(k, c), v);
    DotAdd(VecScale(e, v), VecScale(t, u), v);
    DotScaled(e, v, v);
    DotScaled(t, u, v);
    DotScaled(k, c, v);
    CrossIsOrthogonal(u, v);
    DotCommutes(v, Rotate(q, v));
  }

  lemma FactorsOfTurn(q: Quaternion4f, v: Vector3f, e: real, t: real)
    requires e == q.w * q.w - q.x * q.x - q.y * q.y - q.z * q.z && t == 2.0 * VecDotProduct(Imaginary(q), v)
    ensures AreFactors(q.w, q.x, q.y, q.z, v.x, v.y, v.z, e, t)
  {}

  /** In the last branch, every unit quaternion that takes the source direction to the destination
      direction turns at least as far: its w, the cosine of half its angle, is no larger. */
  lemma ResultTurnsLeast(m: Libm, src: Vector3f, dest: Vector3f, p: Quaternion4f)
    requires m.LawfulSqrt() && BranchOf(m, src, dest) == General
    requires IsUnitQuaternion(p) && Rotate(p, VecNormalize(m, src)) == VecNormalize(m, dest)
    ensures QuatRotationFromTo(m, src, dest).w > 0.0
    ensures p.w <= QuatRotationFromTo(m, src, dest).w && -p.w <= QuatRotationFromTo(m, src, dest).w
  {
    hide Rotate, QuatRotationFromTo, Halfway, VecNormalize, VecDotProduct;
    ResultByBranch(m, src, dest);
    HalfwayTurnsLeast(m, VecNormalize(m, src), VecNormalize(m, dest), p);
  }

  lemma HalfwayTurnsLeast(m: Libm, v0: Vector3f, v1: Vector3f, p: Quaternion4f)
    requires m.LawfulSqrt() && IsUnit(v0) && VecDotProduct(v0, v1) > -1.0
    requires m.sqrt((1.0 + VecDotProduct(v0, v1)) * 2.0) != 0.0
    requires IsUnitQuaternion(p) && Rotate(p, v0) == v1
    ensures Halfway(m, v0, v1).w > 0.0
    ensures p.w <= Halfway(m, v0, v1).w && -p.w <= Halfway(m, v0, v1).w
  {
    hide Rotate, Halfway, VecDotProduct;
    var a := VecDotProduct(Imaginary(p), v0);
    TurnCosine(p, v0, a);
    SquareSign(a, a * a);
    HalfwayRoot(m, v0, v1);
    RealPartOfHalfway(m, v0, v1);
    var s := m.sqrt((1.0 + VecDotProduct(v0, v1)) * 2.0);
    BoundFromSquares(p.w, s * 0.5, VecDotProduct(v0, v1), s);
  }

  lemma RealPartOfHalfway(m: Libm, v0: Vector3f, v1: Vector3f)
    requires m.sqrt((1.0 + VecDotProduct(v0, v1)) * 2.0) != 0.0
    ensures Halfway(m, v0, v1).w == m.sqrt((1.0 + VecDotProduct(v0, v1)) * 2.0) * 0.5
  {}

  lemma BoundFromSquares(w: real, h: real, d: real, s: real)
    requires s > 0.0 && s * s == (1.0 + d) * 2.0 && h == s * 0.5 && d >= 2.0 * (w * w) - 1.0
    ensures -h <= w <= h
  {
    assert h * h == (1.0 + d) * 0.5 by {
      assert (s * 0.5) * (s * 0.5) == (s * s) * 0.25;
    }
    var w' := if w < 0.0 then -w else w;
    assert w' * w' == w * w;
    if w' > h {
      SquaresIncrease(h, w');
    }
  }

  // ----- The shortest turn is the only one -----

  /** A unit quaternion that takes the source direction to the destination direction and turns no
      farther than the result of the last branch is that result, up to sign. */
  lemma ShortestTurnIsUnique(m: Libm, src: Vector3f, dest: Vector3f, p: Quaternion4f)
    requires m.LawfulSqrt() && BranchOf(m, src, dest) == General
    requires IsUnitQuaternion(p) && Rotate(p, VecNormalize(m, src)) == VecNormalize(m, dest)
    ensures p.w == QuatRotationFromTo(m, src, dest).w <==> p == QuatRotationFromTo(m, src, dest)
    ensures -p.w == QuatRotationFromTo(m, src, dest).w <==> p == Negate(QuatRotationFromTo(m, src, dest))
  {
    hide Rotate, QuatRotationFromTo, Halfway, VecNormalize, VecDotProduct, QuatNormSquared;
    var v0, v1, r := VecNormalize(m, src), VecNormalize(m, dest), QuatRotationFromTo(m, src, dest);
    ResultByBranch(m, src, dest);
    if p.w == r.w {
      HalfwayIsUnique(m, v0, v1, p);
    }
    if -p.w == r.w {
      RotateByNegation(p, v0);
      NormOfNegation(p);
      HalfwayIsUnique(m, v0, v1, Negate(p));
      assert Negate(Negate(p)) == p;
    }
  }

  lemma HalfwayIsUnique(m: Libm, v0: Vector3f, v1: Vector3f, p: Quaternion4f)
    requires m.LawfulSqrt() && IsUnit(v0) && VecDotProduct(v0, v1) > -1.0
    requires m.sqrt((1.0 + VecDotProduct(v0, v1)) * 2.0) != 0.0
    requires IsUnitQuaternion(p) && Rotate(p, v0) == v1 && p.w == Halfway(m, v0, v1).w
    ensures p == Halfway(m, v0, v1)
  {
    hide Rotate, Halfway, HalfwayParts, VecDotProduct, VecCrossProduct, VecScale, QuatNormSquared;
    var d, a := VecDotProduct(v0, v1), VecDotProduct(Imaginary(p), v0);
    var s := m.sqrt((1.0 + d) * 2.0);
    HalfwayRoot(m, v0, v1);
    RealPartOfHalfway(m, v0, v1);
    TurnCosine(p, v0, a);
    NothingAlong(p.w, a, d, s);
    CrossOfTurned(p, v0, v1);
    HalfwayByCross(m, v0, v1, s, Imaginary(p));
    SameParts(p, Halfway(m, v0, v1));
  }

  lemma NothingAlong(w: real, a: real, d: real, s: real)
    requires s * s == (1.0 + d) * 2.0 && w == s * 0.5 && d == 2.0 * (w * w) - 1.0 + 2.0 * (a * a)
    ensures a == 0.0
  {
    assert w * w == s * s * 0.25;
    SquareSign(a, a * a);
  }

  /** With nothing of the axis along `v`, the cross product of `v` and its image is along the axis. */
  lemma CrossOfTurned(q: Quaternion4f, v: Vector3f, r: Vector3f)
    requires IsUnit(v) && r == Rotate(q, v) && VecDotProduct(Imaginary(q), v) == 0.0
    ensures VecCrossProduct(v, r) == VecScale(2.0 * q.w, Imaginary(q))
  {
    hide Rotate, VecDotProduct, VecScale, VecCrossProduct, VecAdd, AreFactors;
    var e, k, u := q.w * q.w - q.x * q.x - q.y * q.y - q.z * q.z, 2.0 * q.w, Imaginary(q);
    var c := VecCrossProduct(u, v);
    FactorsOfTurn(q, v, e, 0.0);
    Rodrigues(q, v, e, 0.0, k);
    CrossAdd(v, VecAdd(VecScale(e, v), VecScale(0.0, u)), VecScale(k, c));
    CrossAdd(v, VecScale(e, v), VecScale(0.0, u));
    CrossScaled(v, e, v);
    CrossScaled(v, 0.0, u);
    CrossScaled(v, k, c);
    CrossOfCross(u, v);
    CrossWithSelf(e, v);
    ZeroTimes(VecCrossProduct(v, u));
    OriginAdds(VecScale(k, u));
  }

  lemma CrossAdd(v: Vector3f, a: Vector3f, b: Vector3f)
    ensures VecCrossProduct(v, VecAdd(a, b)) == VecAdd(VecCrossProduct(v, a), VecCrossProduct(v, b))
  {}

  lemma CrossScaled(v: Vector3f, s: real, a: Vector3f)
    ensures VecCrossProduct(v, VecScale(s, a)) == VecScale(s, VecCrossProduct(v, a))
  {
    hide VecCrossProduct, VecScale, Times, Minor;
    ScaleByTimes(s, a);
    ScaleByTimes(s, VecCrossProduct(v, a));
    CrossByMinors(v, VecScale(s, a));
    CrossByMinors(v, a);
    ScaledMinor(v.y, a.z, v.z, a.y, s);
    ScaledMinor(v.z, a.x, v.x, a.z, s);
    ScaledMinor(v.x, a.y, v.y, a.x, s);
  }

  lemma ScaledMinor(a0: real, b0: real, a1: real, b1: real, s: real)
    ensures Minor(a0, Times(s, b0), a1, Times(s, b1)) == Times(s, Minor(a0, b0, a1, b1))
  {}

  lemma CrossOfCross(u: Vector3f, v: Vector3f)
    requires IsUnit(v) && VecDotProduct(u, v) == 0.0
    ensures VecCrossProduct(v, VecCrossProduct(u, v)) == u
  {
    hide VecCrossProduct, Minor;
    CrossByMinors(v, VecCrossProduct(u, v));
    CrossByMinors(u, v);
    MinorOfMinors(u.x, u.y, u.z, v.x, v.y, v.z);
    MinorOfMinors(u.y, u.z, u.x, v.y, v.z, v.x);
    MinorOfMinors(u.z, u.x, u.y, v.z, v.x, v.y);
    SameVector(VecCrossProduct(v, VecCrossProduct(u, v)), u);
  }

  lemma MinorOfMinors(x: real, y: real, z: real, vx: real, vy: real, vz: real)
    requires vx * vx + vy * vy + vz * vz == 1.0 && x * vx + y * vy + z * vz == 0.0
    ensures Minor(vy, Minor(x, vy, y, vx), vz, Minor(z, vx, x, vz)) == x
  {
    var n, m := vy * vy + vz * vz, y * vy + z * vz;
    assert vy * (x * vy - y * vx) - vz * (z * vx - x * vz) == x * n - vx * m;
    assert n == 1.0 - vx * vx && m == -(x * vx);
  }

  lemma CrossWithSelf(s: real, v: Vector3f)
    ensures VecScale(s, VecCrossProduct(v, v)) == ORIGIN
  {
    assert VecCrossProduct(v, v) == ORIGIN;
  }

  lemma ZeroTimes(v: Vector3f)
    ensures VecScale(0.0, v) == ORIGIN
  {}

  lemma OriginAdds(v: Vector3f)
    ensures VecAdd(VecAdd(ORIGIN, ORIGIN), v) == v
  {
    SameVector(VecAdd(VecAdd(ORIGIN, ORIGIN), v), v);
  }

  lemma HalfwayByCross(m: Libm, v0: Vector3f, v1: Vector3f, s: real, u: Vector3f)
    requires s == m.sqrt((1.0 + VecDotProduct(v0, v1)) * 2.0) && s != 0.0 && VecCrossProduct(v0, v1) == VecScale(s, u)
    ensures Imaginary(Halfway(m, v0, v1)) == u
  {
    hide VecDotProduct, VecCrossProduct;
    var i := 1.0 / s;
    assert i * s == 1.0;
    assert s * u.x * i == (i * s) * u.x;
    assert s * u.y * i == (i * s) * u.y;
    assert s * u.z * i == (i * s) * u.z;
  }

  // ----- Swapping and stretching the arguments -----

  lemma BranchSwaps(m: Libm, src: Vector3f, dest: Vector3f)
    ensures BranchOf(m, dest, src) == BranchOf(m, src, dest)
  {
    if BranchOf(m, src, dest) != TooShort {
      DotCommutes(VecNormalize(m, src), VecNormalize(m, dest));
    }
  }

  lemma HalfwaySwaps(m: Libm, v0: Vector3f, v1: Vector3f)
    requires m.sqrt((1.0 + VecDotProduct(v0, v1)) * 2.0) != 0.0
    ensures VecDotProduct(v1, v0) == VecDotProduct(v0, v1)
    ensures Halfway(m, v1, v0) == QuatConjugate(Halfway(m, v0, v1))
  {
    var s := m.sqrt((1.0 + VecDotProduct(v0, v1)) * 2.0);
    DotCommutes(v0, v1);
    assert VecCrossProduct(v1, v0) == VecScale(-1.0, VecCrossProduct(v0, v1));
    PartsOfOpposite(VecCrossProduct(v0, v1), s);
  }

  lemma PartsOfOpposite(c: Vector3f, s: real)
    requires s != 0.0
    ensures HalfwayParts(VecScale(-1.0, c), s) == QuatConjugate(HalfwayParts(c, s))
  {
    var i := 1.0 / s;
    assert (-1.0 * c.x) * i == -(c.x * i);
    assert (-1.0 * c.y) * i == -(c.y * i);
    assert (-1.0 * c.z) * i == -(c.z * i);
  }

  /** Turning from `src` to `dest` and then from `dest` to `src` leaves every vector alone, in
      every branch. */
  lemma SwappingUndoes(m: Libm, src: Vector3f, dest: Vector3f, v: Vector3f)
    requires m.LawfulSqrt()
    ensures Rotate(QuatRotationFromTo(m, dest, src), Rotate(QuatRotationFromTo(m, src, dest), v)) == v
  {
    hide Rotate, QuatRotationFromTo, BranchOf, QuatRot;
    var q := QuatRotationFromTo(m, src, dest);
    BranchSwaps(m, src, dest);
    ResultByBranch(m, src, dest);
    ResultByBranch(m, dest, src);
    match BranchOf(m, src, dest)
    case TooShort => RotateByIdentity(v);
    case SameDirection => RotateByIdentity(v);
    case Opposite =>
      HalfTurnImage(m, v);
      HalfTurnImage(m, Rotate(q, v));
    case General =>
      GeneralSwaps(m, src, dest);
      ResultIsUnit(m, src, dest);
      RotateBack(q, v);
  }

  lemma GeneralSwaps(m: Libm, src: Vector3f, dest: Vector3f)
    requires m.LawfulSqrt() && BranchOf(m, src, dest) == General
    ensures QuatRotationFromTo(m, dest, src) == QuatConjugate(QuatRotationFromTo(m, src, dest))
  {
    hide QuatRotationFromTo, Halfway;
    BranchSwaps(m, src, dest);
    ResultByBranch(m, src, dest);
    ResultByBranch(m, dest, src);
    HalfwaySwaps(m, VecNormalize(m, src), VecNormalize(m, dest));
  }

  lemma MagnitudeScales(m: Libm, v: Vector3f, k: real)
    requires m.LawfulSqrt() && k > 0.0
    ensures VecMagnitude(m, VecScale(k, v)) == k * VecMagnitude(m, v)
  {
    var a, b := VecMagnitude(m, v), VecMagnitude(m, VecScale(k, v));
    MagnitudeSquared(m, v);
    MagnitudeSquared(m, VecScale(k, v));
    DotScale(k, v, k, v);
    ScaledRoot(k, a, b);
  }

  lemma ScaledRoot(k: real, a: real, b: real)
    requires k > 0.0 && a >= 0.0 && b >= 0.0 && b * b == k * k * (a * a)
    ensures b == k * a
  {
    NonNegativeProduct(k, a);
    assert (k * a) * (k * a) == k * k * (a * a);
    SquaresDetermine(b, k * a);
  }

  lemma DirectionIgnoresLength(m: Libm, v: Vector3f, k: real)
    requires m.LawfulSqrt() && k > 0.0 && VecMagnitude(m, v) > 0.0
    ensures VecMagnitude(m, VecScale(k, v)) != 0.0
    ensures VecNormalize(m, VecScale(k, v)) == VecNormalize(m, v)
  {
    hide VecDotProduct, VecMagnitude;
    var a, b := VecMagnitude(m, v), VecMagnitude(m, VecScale(k, v));
    MagnitudeScales(m, v, k);
    PositiveProduct(k, a, b);
    QuotientOfScaled(k, a, b, v.x);
    QuotientOfScaled(k, a, b, v.y);
    QuotientOfScaled(k, a, b, v.z);
  }

  lemma QuotientOfScaled(k: real, a: real, b: real, x: real)
    requires k > 0.0 && a > 0.0 && b > 0.0 && b == k * a
    ensures 1.0 / b * (k * x) == 1.0 / a * x
  {
    var i, j := 1.0 / a, 1.0 / b;
    assert j * k == i by {
      assert i * a == 1.0 && j * b == 1.0;
      assert j * k * a == 1.0;
      assert j * k == j * k * (a * i);
      assert j * k * (a * i) == (j * k * a) * i;
    }
    assert j * (k * x) == (j * k) * x;
  }

  /** Only the directions of the arguments matter, as long as all lengths pass the length test. */
  lemma ResultIgnoresLengths(m: Libm, src: Vector3f, dest: Vector3f, k: real, l: real)
    requires m.LawfulSqrt() && k > 0.0 && l > 0.0
    requires VecMagnitude(m, src) >= FLT_EPSILON && VecMagnitude(m, dest) >= FLT_EPSILON
    requires VecMagnitude(m, VecScale(k, src)) >= FLT_EPSILON && VecMagnitude(m, VecScale(l, dest)) >= FLT_EPSILON
    ensures QuatRotationFromTo(m, VecScale(k, src), VecScale(l, dest)) == QuatRotationFromTo(m, src, dest)
  {
    DirectionIgnoresLength(m, src, k);
    DirectionIgnoresLength(m, dest, l);
    ResultByBranch(m, src, dest);
    ResultByBranch(m, VecScale(k, src), VecScale(l, dest));
  }
}
