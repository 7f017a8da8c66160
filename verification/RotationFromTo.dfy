/** QuatRotationFromTo of Classes/Quaternion4.h, and what it promises: a unit quaternion that turns
    the source direction into the destination direction, by the smallest possible turn. */
module RotationFromTo {
  import opened MathLibrary
  import opened Vector3
  import opened Quaternion4
  import opened QuaternionAlgebra
  import opened Rotation
  import opened RotationMatrix

  const FLT_EPSILON: real := 1.0 / 8388608.0
  const DOT_TOLERANCE: real := 0.000001

  /** The quaternion the last branch builds before it normalises. */
  function Halfway(m: Libm, v0: Vector3f, v1: Vector3f): Quaternion4f
    requires m.sqrt((1.0 + VecDotProduct(v0, v1)) * 2.0) != 0.0
  {
    var d := VecDotProduct(v0, v1);
    var s := m.sqrt((1.0 + d) * 2.0);
    HalfwayParts(VecCrossProduct(v0, v1), s)
  }

  function HalfwayParts(c: Vector3f, s: real): Quaternion4f
    requires s != 0.0
  {
    var i := 1.0 / s;
    QuatMake(c.x * i, c.y * i, c.z * i, s * 0.5)
  }

  function QuatRotationFromTo(m: Libm, src: Vector3f, dest: Vector3f): Quaternion4f
    requires m.LawfulSqrt()
  {
    var mag0 := VecMagnitude(m, src);
    if mag0 < FLT_EPSILON then QuatIdentity() else
    var mag1 := VecMagnitude(m, dest);
    if mag1 < FLT_EPSILON then QuatIdentity() else
    var v0 := VecScale(1.0 / mag0, src);
    var v1 := VecScale(1.0 / mag1, dest);
    var d := VecDotProduct(v0, v1);
    if d >= 1.0 - DOT_TOLERANCE then QuatIdentity() else
    if d < DOT_TOLERANCE - 1.0 then QuatRot(m, 2) else
    NormalizeIsUnit(m, src);
    NormalizeIsUnit(m, dest);
    HalfwayRoot(m, v0, v1);
    HalfwayIsUnit(m, v0, v1);
    NormOfUnit(m, Halfway(m, v0, v1));
    QuatNormalize(m, Halfway(m, v0, v1))
  }

  // ----- The last branch -----

  /** The divisor of the last branch is positive, whatever the thresholds let through. */
  lemma HalfwayRoot(m: Libm, v0: Vector3f, v1: Vector3f)
    requires m.LawfulSqrt() && VecDotProduct(v0, v1) > -1.0
    ensures var s := m.sqrt((1.0 + VecDotProduct(v0, v1)) * 2.0);
            s > 0.0 && s * s == (1.0 + VecDotProduct(v0, v1)) * 2.0
  {}

  /** Halfway before its division: cross product and one plus the dot product. */
  function Unscaled(v0: Vector3f, v1: Vector3f): Quaternion4f {
    UnscaledParts(VecCrossProduct(v0, v1), 1.0 + VecDotProduct(v0, v1))
  }

  function UnscaledParts(c: Vector3f, e: real): Quaternion4f {
    Quaternion4f(c.x, c.y, c.z, e)
  }

  lemma HalfwayIsScaled(m: Libm, v0: Vector3f, v1: Vector3f, s: real, i: real)
    requires m.LawfulSqrt() && VecDotProduct(v0, v1) > -1.0
    requires s == m.sqrt((1.0 + VecDotProduct(v0, v1)) * 2.0) && s > 0.0 && i == 1.0 / s
    ensures Halfway(m, v0, v1) == QuatScale(Unscaled(v0, v1), i)
    ensures i * i * ((1.0 + VecDotProduct(v0, v1)) * 2.0) == 1.0
  {
    HalfwayRoot(m, v0, v1);
    var e := 1.0 + VecDotProduct(v0, v1);
    HalfOfRoot(e, s, i);
    ScaledParts(VecCrossProduct(v0, v1), e, s, i);
  }

  lemma ScaledParts(c: Vector3f, e: real, s: real, i: real)
    requires s != 0.0 && i == 1.0 / s && i * e == s * 0.5
    ensures HalfwayParts(c, s) == QuatScale(UnscaledParts(c, e), i)
  {}

  lemma HalfOfRoot(e: real, s: real, i: real)
    requires s * s == e * 2.0 && s > 0.0 && i == 1.0 / s
    ensures i * e == s * 0.5
    ensures i * i * (e * 2.0) == 1.0
  {
    assert i * s == 1.0;
    assert i * (s * s) == (i * s) * s;
    assert i * i * (s * s) == (i * s) * (i * s);
  }

  lemma UnscaledNorm(v0: Vector3f, v1: Vector3f)
    requires IsUnit(v0) && IsUnit(v1)
    ensures QuatNormSquared(Unscaled(v0, v1)) == (1.0 + VecDotProduct(v0, v1)) * 2.0
  {
    Lagrange(v0, v1);
  }

  lemma NormOfScaled(q: Quaternion4f, i: real)
    ensures QuatNormSquared(QuatScale(q, i)) == i * i * QuatNormSquared(q)
  {}

  /** Halfway already has norm one: QuatNormalize has nothing left to do. */
  lemma HalfwayIsUnit(m: Libm, v0: Vector3f, v1: Vector3f)
    requires m.LawfulSqrt() && IsUnit(v0) && IsUnit(v1) && VecDotProduct(v0, v1) > -1.0
    ensures m.sqrt((1.0 + VecDotProduct(v0, v1)) * 2.0) != 0.0
    ensures IsUnitQuaternion(Halfway(m, v0, v1))
  {
    HalfwayRoot(m, v0, v1);
    var s := m.sqrt((1.0 + VecDotProduct(v0, v1)) * 2.0);
    var i := 1.0 / s;
    HalfwayIsScaled(m, v0, v1, s, i);
    NormOfScaled(Unscaled(v0, v1), i);
    UnscaledNorm(v0, v1);
  }

  /** Normalising gives a unit quaternion, and scaling that by the norm gives the quaternion back. */
  lemma NormalizedIsUnit(m: Libm, q: Quaternion4f)
    requires m.LawfulSqrt() && QuatNorm(m, q) != 0.0
    ensures IsUnitQuaternion(QuatNormalize(m, q))
    ensures QuatScale(QuatNormalize(m, q), QuatNorm(m, q)) == q
  {
    hide QuatNormSquared;
    var n := QuatNorm(m, q);
    NormIsPositive(q);
    NormOfScaled(q, 1.0 / n);
    SquareOfReciprocal(n, 1.0 / n, QuatNormSquared(q));
    ScaleScale(q, 1.0 / n, n);
    ScaleByOne(q);
  }

  lemma SquareOfReciprocal(n: real, i: real, s: real)
    requires n != 0.0 && i == 1.0 / n && n * n == s
    ensures i * i * s == 1.0 && i * n == 1.0
  {
    assert i * n == 1.0;
    assert i * i * (n * n) == (i * n) * (i * n);
  }

  lemma ScaleByOne(q: Quaternion4f)
    ensures QuatScale(q, 1.0) == q
  {}

  lemma NormOfUnit(m: Libm, q: Quaternion4f)
    requires m.LawfulSqrt() && IsUnitQuaternion(q)
    ensures QuatNorm(m, q) == 1.0 && QuatNormalize(m, q) == q
  {
    SquaresDetermine(m.sqrt(1.0), 1.0);
  }

  /** Halfway intertwines the two directions, hence carries one onto the other. */
  lemma UnscaledIntertwines(v0: Vector3f, v1: Vector3f)
    requires IsUnit(v0) && IsUnit(v1)
    ensures QuatMultiply(Unscaled(v0, v1), Pure(v0)) == QuatMultiply(Pure(v1), Unscaled(v0, v1))
  {
    var a, b, ba := Pure(v0), Pure(v1), QuatMultiply(Pure(v1), Pure(v0));
    var one, minus := Scalar(1.0), Scalar(-1.0);
    UnscaledIsSum(v0, v1);
    SquareOfUnit(v0);
    SquareOfUnit(v1);
    ScalarCommutes(a, 1.0);
    ScalarCommutes(b, 1.0);
    ScalarCommutes(a, -1.0);
    ScalarCommutes(b, -1.0);
    calc {
      QuatMultiply(Add(one, Negate(ba)), a);
      { Distributive(a, one, Negate(ba)); }
      Add(QuatMultiply(one, a), QuatMultiply(Negate(ba), a));
      { ScaleMultiply(ba, a, -1.0); Associative(b, a, a); }
      Add(QuatScale(a, 1.0), Negate(Negate(b)));
      { AddSwaps(a, b); }
      Add(QuatScale(b, 1.0), Negate(Negate(a)));
      { ScaleMultiply(b, ba, -1.0); Associative(b, b, a); }
      Add(QuatMultiply(b, one), QuatMultiply(b, Negate(ba)));
      { Distributive(b, one, Negate(ba)); }
      QuatMultiply(b, Add(one, Negate(ba)));
    }
  }

  lemma UnscaledIsSum(v0: Vector3f, v1: Vector3f)
    ensures Unscaled(v0, v1) == Add(Scalar(1.0), Negate(QuatMultiply(Pure(v1), Pure(v0))))
  {}

  lemma SquareOfUnit(v: Vector3f)
    requires IsUnit(v)
    ensures QuatMultiply(Pure(v), Pure(v)) == Scalar(-1.0)
  {}

  lemma AddSwaps(a: Quaternion4f, b: Quaternion4f)
    ensures Add(QuatScale(a, 1.0), Negate(Negate(b))) == Add(QuatScale(b, 1.0), Negate(Negate(a)))
  {}

  lemma HalfwayRotates(m: Libm, v0: Vector3f, v1: Vector3f)
    requires m.LawfulSqrt() && IsUnit(v0) && IsUnit(v1) && VecDotProduct(v0, v1) > -1.0
    ensures m.sqrt((1.0 + VecDotProduct(v0, v1)) * 2.0) != 0.0
    ensures Rotate(Halfway(m, v0, v1), v0) == v1
  {
    HalfwayRoot(m, v0, v1);
    var s := m.sqrt((1.0 + VecDotProduct(v0, v1)) * 2.0);
    var i := 1.0 / s;
    HalfwayIsScaled(m, v0, v1, s, i);
    var p, q := Unscaled(v0, v1), Halfway(m, v0, v1);
    UnscaledIntertwines(v0, v1);
    ScaleMultiply(p, Pure(v0), i);
    ScaleMultiply(Pure(v1), p, i);
    HalfwayIsUnit(m, v0, v1);
    IntertwinerRotates(q, v0, v1);
  }

  lemma IntertwinerRotates(q: Quaternion4f, v0: Vector3f, v1: Vector3f)
    requires IsUnitQuaternion(q) && QuatMultiply(q, Pure(v0)) == QuatMultiply(Pure(v1), q)
    ensures Rotate(q, v0) == v1
  {
    Associative(Pure(v1), q, QuatConjugate(q));
    TimesConjugate(q);
    ScalarCommutes(Pure(v1), 1.0);
  }

  // ----- The whole function -----

  datatype Branch = TooShort | SameDirection | Opposite | General

  /** Which return statement QuatRotationFromTo takes. */
  function BranchOf(m: Libm, src: Vector3f, dest: Vector3f): Branch {
    if VecMagnitude(m, src) < FLT_EPSILON || VecMagnitude(m, dest) < FLT_EPSILON then TooShort else
    var d := VecDotProduct(VecNormalize(m, src), VecNormalize(m, dest));
    if d >= 1.0 - DOT_TOLERANCE then SameDirection else
    if d < DOT_TOLERANCE - 1.0 then Opposite else General
  }

  /** How far the rotated source direction ends from the destination direction, squared. */
  function MissSquared(m: Libm, src: Vector3f, dest: Vector3f): real
    requires m.LawfulSqrt() && VecMagnitude(m, src) != 0.0 && VecMagnitude(m, dest) != 0.0
  {
    SquaredDistance(Rotate(QuatRotationFromTo(m, src, dest), VecNormalize(m, src)), VecNormalize(m, dest))
  }

  lemma ResultByBranch(m: Libm, src: Vector3f, dest: Vector3f)
    requires m.LawfulSqrt()
    ensures match BranchOf(m, src, dest)
            case TooShort => QuatRotationFromTo(m, src, dest) == QuatIdentity()
            case SameDirection => QuatRotationFromTo(m, src, dest) == QuatIdentity()
            case Opposite => QuatRotationFromTo(m, src, dest) == QuatRot(m, 2)
            case General =>
              var v0, v1 := VecNormalize(m, src), VecNormalize(m, dest);
              && IsUnit(v0) && IsUnit(v1) && VecDotProduct(v0, v1) > -1.0
              && m.sqrt((1.0 + VecDotProduct(v0, v1)) * 2.0) != 0.0
              && QuatRotationFromTo(m, src, dest) == Halfway(m, v0, v1)
  {
    if BranchOf(m, src, dest).General? {
      var v0, v1 := VecNormalize(m, src), VecNormalize(m, dest);
      NormalizeIsUnit(m, src);
      NormalizeIsUnit(m, dest);
      HalfwayIsUnit(m, v0, v1);
      NormOfUnit(m, Halfway(m, v0, v1));
    }
  }

  /** The result is a unit quaternion for every pair of vectors. */
  lemma ResultIsUnit(m: Libm, src: Vector3f, dest: Vector3f)
    requires m.LawfulSqrt()
    ensures IsUnitQuaternion(QuatRotationFromTo(m, src, dest))
  {
    ResultByBranch(m, src, dest);
    if BranchOf(m, src, dest).General? {
      HalfwayIsUnit(m, VecNormalize(m, src), VecNormalize(m, dest));
    }
  }

  /** The last branch is exact: the source direction lands on the destination direction, and the
      source itself on a multiple of the destination. */
  lemma GeneralBranchIsExact(m: Libm, src: Vector3f, dest: Vector3f)
    requires m.LawfulSqrt() && BranchOf(m, src, dest) == General
    ensures Rotate(QuatRotationFromTo(m, src, dest), VecNormalize(m, src)) == VecNormalize(m, dest)
    ensures VecScale(VecMagnitude(m, dest), Rotate(QuatRotationFromTo(m, src, dest), src))
            == VecScale(VecMagnitude(m, src), dest)
  {
    var q, v0, v1 := QuatRotationFromTo(m, src, dest), VecNormalize(m, src), VecNormalize(m, dest);
    var mag0, mag1 := VecMagnitude(m, src), VecMagnitude(m, dest);
    ResultByBranch(m, src, dest);
    HalfwayRotates(m, v0, v1);
    NormalizeIsUnit(m, src);
    NormalizeIsUnit(m, dest);
    RotateIsLinear(q, v0, v0, mag0);
    ScalesCommute(mag0, mag1, v1);
  }

  lemma ScalesCommute(s: real, t: real, v: Vector3f)
    ensures VecScale(s, VecScale(t, v)) == VecScale(t, VecScale(s, v))
  {}

  lemma HalfTurnImage(m: Libm, v: Vector3f)
    ensures Rotate(QuatRot(m, 2), v) == Vector3f(-v.x, -v.y, v.z)
  {
    RotateByRows(QuatRot(m, 2), v);
  }

  lemma HalfTurnMiss(v0: Vector3f, v1: Vector3f)
    requires IsUnit(v0) && IsUnit(v1)
    ensures SquaredDistance(Vector3f(-v0.x, -v0.y, v0.z), v1)
            == 2.0 + 2.0 * VecDotProduct(v0, v1) - 4.0 * (v0.z * v1.z)
  {}

  /** Accuracy in numbers. Vectors of magnitude below two to the minus 23 get the identity. For all
      others, with `d` the dot product of their directions, the turn is exact for d from -0.999999 up
      to 0.999999, the identity from there on and a half turn about z below. The squared miss is at
      most 0.000002, below -0.999999 exactly when the z parts of the directions are not too opposed. */
  lemma MissIsSmall(m: Libm, src: Vector3f, dest: Vector3f)
    requires m.LawfulSqrt()
    ensures VecMagnitude(m, src) < 1.0 / 8388608.0 || VecMagnitude(m, dest) < 1.0 / 8388608.0
            ==> QuatRotationFromTo(m, src, dest) == Quaternion4f(0.0, 0.0, 0.0, 1.0)
    ensures VecMagnitude(m, src) >= 1.0 / 8388608.0 && VecMagnitude(m, dest) >= 1.0 / 8388608.0 ==>
              var q, v0, v1 := QuatRotationFromTo(m, src, dest), VecNormalize(m, src), VecNormalize(m, dest);
              var d, r := VecDotProduct(v0, v1), Rotate(q, v0);
              && (-0.999999 <= d < 0.999999 ==> r == v1)
              && (d >= 0.999999 ==> q == Quaternion4f(0.0, 0.0, 0.0, 1.0) && SquaredDistance(r, v1) <= 0.000002)
              && (d < -0.999999 ==> q == Quaternion4f(0.0, 0.0, 1.0, 0.0))
              && (d < -0.999999 ==>
                    (SquaredDistance(r, v1) <= 0.000002 <==> 2.0 * v0.z * v1.z >= 1.0 + d - 0.000001))
  {
    hide Rotate, QuatRotationFromTo, VecMagnitude, VecNormalize, VecDotProduct, SquaredDistance, Halfway;
    ResultByBranch(m, src, dest);
    if BranchOf(m, src, dest) != TooShort {
      MissByBranch(m, src, dest);
      if BranchOf(m, src, dest) == General {
        GeneralBranchIsExact(m, src, dest);
      }
    }
  }

  /** The same by branch. Whenever both vectors are long enough to have a direction, the
      squared miss is at most twice the tolerance, except that in the antiparallel branch, whose
      half turn is about z whatever the vectors are, this holds exactly when the z parts of the
      two directions are not too opposed. */
  lemma MissByBranch(m: Libm, src: Vector3f, dest: Vector3f)
    requires m.LawfulSqrt()
    requires VecMagnitude(m, src) >= FLT_EPSILON && VecMagnitude(m, dest) >= FLT_EPSILON
    ensures var v0, v1 := VecNormalize(m, src), VecNormalize(m, dest);
            MissSquared(m, src, dest) <= 2.0 * DOT_TOLERANCE
            <==> (BranchOf(m, src, dest) == Opposite ==>
                    2.0 * v0.z * v1.z >= 1.0 + VecDotProduct(v0, v1) - DOT_TOLERANCE)
    ensures BranchOf(m, src, dest) == Opposite && src.z * dest.z >= 0.0
            ==> MissSquared(m, src, dest) < 2.0 * DOT_TOLERANCE
  {
    match BranchOf(m, src, dest)
    case TooShort =>
    case SameDirection => MissOfIdentity(m, src, dest);
    case Opposite => MissOfHalfTurn(m, src, dest);
    case General =>
      GeneralBranchIsExact(m, src, dest);
      NoMiss(VecNormalize(m, dest));
  }

  lemma NoMiss(v: Vector3f)
    ensures SquaredDistance(v, v) == 0.0
  {}

  lemma MissOfIdentity(m: Libm, src: Vector3f, dest: Vector3f)
    requires m.LawfulSqrt() && BranchOf(m, src, dest) == SameDirection
    ensures MissSquared(m, src, dest) <= 2.0 * DOT_TOLERANCE
  {
    hide Rotate, QuatRot;
    ResultByBranch(m, src, dest);
    NormalizeIsUnit(m, src);
    NormalizeIsUnit(m, dest);
    RotateByIdentity(VecNormalize(m, src));
    DistanceOfUnits(VecNormalize(m, src), VecNormalize(m, dest));
  }

  lemma MissOfHalfTurn(m: Libm, src: Vector3f, dest: Vector3f)
    requires m.LawfulSqrt() && BranchOf(m, src, dest) == Opposite
    ensures var v0, v1 := VecNormalize(m, src), VecNormalize(m, dest);
            && MissSquared(m, src, dest) == 2.0 + 2.0 * VecDotProduct(v0, v1) - 4.0 * (v0.z * v1.z)
            && (src.z * dest.z >= 0.0 ==> v0.z * v1.z >= 0.0)
  {
    hide Rotate, QuatRot, QuatRotationFromTo;
    var v0, v1 := VecNormalize(m, src), VecNormalize(m, dest);
    SignsOfDirections(m, src, dest);
    ResultByBranch(m, src, dest);
    NormalizeIsUnit(m, src);
    NormalizeIsUnit(m, dest);
    HalfTurnImage(m, v0);
    HalfTurnMiss(v0, v1);
  }

  lemma SignsOfDirections(m: Libm, src: Vector3f, dest: Vector3f)
    requires m.LawfulSqrt() && VecMagnitude(m, src) > 0.0 && VecMagnitude(m, dest) > 0.0
    ensures src.z * dest.z >= 0.0 ==> VecNormalize(m, src).z * VecNormalize(m, dest).z >= 0.0
  {
    hide VecMagnitude, VecDotProduct;
    SameSignAfterScaling(1.0 / VecMagnitude(m, src), 1.0 / VecMagnitude(m, dest), src.z, dest.z,
                         VecNormalize(m, src).z, VecNormalize(m, dest).z);
  }

  lemma SameSignAfterScaling(s: real, t: real, a: real, b: real, a': real, b': real)
    requires s > 0.0 && t > 0.0 && a' == s * a && b' == t * b
    ensures a * b >= 0.0 ==> a' * b' >= 0.0
  {
    var p, ab := s * t, a * b;
    PositiveProduct(s, t, p);
    assert a' * b' == p * ab;
    if ab >= 0.0 {
      NonNegativeProduct(p, ab);
    }
  }

  lemma NonNegativeProduct(a: real, b: real)
    requires a >= 0.0 && b >= 0.0
    ensures a * b >= 0.0
  {}

  /** For exactly opposite vectors the half turn is right up to tolerance only near the xy plane,
      and exactly right only in it. */
  lemma OppositeVectors(m: Libm, src: Vector3f)
    requires m.LawfulSqrt() && VecMagnitude(m, src) >= FLT_EPSILON
    ensures var dest, v0 := VecScale(-1.0, src), VecNormalize(m, src);
            && VecMagnitude(m, dest) == VecMagnitude(m, src)
            && BranchOf(m, src, dest) == Opposite
            && MissSquared(m, src, dest) == 4.0 * v0.z * v0.z
            && (MissSquared(m, src, dest) == 0.0 <==> src.z == 0.0)
  {
    hide Rotate, QuatRotationFromTo, MissSquared, VecNormalize, VecMagnitude, VecDotProduct, BranchOf;
    var v0 := VecNormalize(m, src);
    OppositeDirections(m, src);
    OppositeBranch(m, src);
    MissOfHalfTurn(m, src, VecScale(-1.0, src));
    OppositeMiss(v0, VecScale(-1.0, v0), MissSquared(m, src, VecScale(-1.0, src)));
    SquareSign(v0.z, v0.z * v0.z);
    HeightOfDirection(m, src);
  }

  /** The direction of the opposite is the opposite of the direction. */
  lemma OppositeDirections(m: Libm, src: Vector3f)
    requires m.LawfulSqrt() && VecMagnitude(m, src) != 0.0
    ensures VecMagnitude(m, VecScale(-1.0, src)) == VecMagnitude(m, src)
    ensures VecNormalize(m, VecScale(-1.0, src)) == VecScale(-1.0, VecNormalize(m, src))
    ensures VecDotProduct(VecNormalize(m, src), VecNormalize(m, VecScale(-1.0, src))) == -1.0
  {
    hide VecDotProduct, VecScale;
    DotScale(-1.0, src, -1.0, src);
    ScalesCommute(1.0 / VecMagnitude(m, src), -1.0, src);
    NormalizeIsUnit(m, src);
    DotWithOpposite(VecNormalize(m, src));
  }

  lemma OppositeBranch(m: Libm, src: Vector3f)
    requires m.LawfulSqrt() && VecMagnitude(m, src) >= FLT_EPSILON
    ensures BranchOf(m, src, VecScale(-1.0, src)) == Opposite
  {
    hide VecMagnitude, VecNormalize, VecDotProduct, VecScale;
    OppositeDirections(m, src);
  }

  lemma OppositeIsHalfTurn(m: Libm, src: Vector3f)
    requires m.LawfulSqrt() && VecMagnitude(m, src) >= FLT_EPSILON
    ensures QuatRotationFromTo(m, src, VecScale(-1.0, src)) == QuatRot(m, 2)
  {
    hide VecMagnitude, VecNormalize, VecDotProduct, VecScale, BranchOf, QuatRotationFromTo, QuatRot;
    OppositeBranch(m, src);
    ResultByBranch(m, src, VecScale(-1.0, src));
  }

  lemma OppositeMiss(v0: Vector3f, v1: Vector3f, miss: real)
    requires v1.z == -1.0 * v0.z && miss == 2.0 + 2.0 * -1.0 - 4.0 * (v0.z * v1.z)
    ensures miss == 4.0 * v0.z * v0.z
  {}

  lemma HeightOfDirection(m: Libm, v: Vector3f)
    requires VecMagnitude(m, v) > 0.0
    ensures v.z == 0.0 <==> VecNormalize(m, v).z == 0.0
  {
    hide VecMagnitude;
    ZeroAfterScaling(1.0 / VecMagnitude(m, v), v.z, VecNormalize(m, v).z);
  }

  lemma DotWithOpposite(v: Vector3f)
    ensures VecDotProduct(v, VecScale(-1.0, v)) == -VecDotProduct(v, v)
  {}

  lemma ZeroAfterScaling(s: real, a: real, b: real)
    requires s > 0.0 && b == s * a
    ensures a == 0.0 <==> b == 0.0
  {}

  /** The counterexample a caller would meet: straight up, asked to turn straight down, stays. */
  lemma StraightUpIsMissed(m: Libm, up: Vector3f)
    requires m.LawfulSqrt() && up == Vector3f(0.0, 0.0, 1.0)
    ensures var down := VecScale(-1.0, up);
            && VecMagnitude(m, up) == 1.0 && VecMagnitude(m, down) == 1.0
            && VecNormalize(m, up) == up && up != down
            && Rotate(QuatRotationFromTo(m, up, down), up) == up
  {
    hide Rotate, QuatRot, QuatRotationFromTo, VecNormalize, VecMagnitude, VecDotProduct, VecScale;
    StraightUpIsDirection(m, up);
    OppositeDirections(m, up);
    OppositeIsHalfTurn(m, up);
    HalfTurnImage(m, up);
  }

  lemma StraightUpIsDirection(m: Libm, up: Vector3f)
    requires m.LawfulSqrt() && up == Vector3f(0.0, 0.0, 1.0)
    ensures VecMagnitude(m, up) == 1.0 && VecNormalize(m, up) == up && up != VecScale(-1.0, up)
  {
    hide VecNormalize, VecMagnitude;
    UnitIsNormalized(m, up);
  }
}
