/** QuatToEuler of Classes/Quaternion4.h: its arguments, and the rotation its angles describe. */
module Euler {
  import opened MathLibrary
  import opened Vector3
  import opened Quaternion4
  import opened QuaternionAlgebra
  import opened Rotation
  import opened RotationMatrix
  import opened Products

  /** The five numbers QuatToEuler hands to atan2f, asinf and atan2f. */
  datatype EulerArguments = EulerArguments(yawY: real, yawX: real, pitch: real, rollY: real, rollX: real)

  function ArgumentsOf(q: Quaternion4f): EulerArguments {
    EulerArguments(
      2.0 * (q.w * q.y + q.x * q.z),
      1.0 - 2.0 * (q.y * q.y + q.x * q.x),
      2.0 * (q.w * q.x - q.z * q.y),
      2.0 * (q.w * q.z + q.y * q.x),
      1.0 - 2.0 * (q.x * q.x + q.z * q.z))
  }

  function QuatToEuler(m: Libm, q: Quaternion4f): Vector3f {
    var a := ArgumentsOf(q);
    VecMake(m.atan2(a.yawY, a.yawX), m.asin(a.pitch), m.atan2(a.rollY, a.rollX))
  }

  // ----- The arguments -----

  /** For a unit quaternion the arguments are the coordinates of the image of the z axis, and of
      the vector whose image is the y axis. */
  lemma ArgumentsAreAxes(q: Quaternion4f, a: EulerArguments)
    requires IsUnitQuaternion(q) && a == ArgumentsOf(q)
    ensures Rotate(q, E3) == Vector3f(a.yawY, -a.pitch, a.yawX)
    ensures Rotate(QuatConjugate(q), E2) == Row2(q) == Vector3f(a.rollY, a.rollX, -a.pitch)
  {
    hide Rotate, QuatConjugate;
    ImagesOfAxes(q);
    RowsAreBackwardImages(q);
  }

  /** The rows of the matrix are the axes rotated back. */
  lemma RowsAreBackwardImages(q: Quaternion4f)
    requires IsUnitQuaternion(q)
    ensures Rotate(QuatConjugate(q), E1) == Row1(q)
    ensures Rotate(QuatConjugate(q), E2) == Row2(q)
    ensures Rotate(QuatConjugate(q), E3) == Row3(q)
  {
    hide Rotate, VecDotProduct, Row1, Row2, Row3, QuatConjugate, QuatNormSquared;
    ImagesOfAxes(q);
    BackwardImage(q, E1);
    BackwardImage(q, E2);
    BackwardImage(q, E3);
    AxesWithDot(Rotate(q, E1));
    AxesWithDot(Rotate(q, E2));
    AxesWithDot(Rotate(q, E3));
  }

  lemma ImagesOfAxes(q: Quaternion4f)
    ensures Rotate(q, E1) == Vector3f(Row1(q).x, Row2(q).x, Row3(q).x)
    ensures Rotate(q, E2) == Vector3f(Row1(q).y, Row2(q).y, Row3(q).y)
    ensures Rotate(q, E3) == Vector3f(Row1(q).z, Row2(q).z, Row3(q).z)
  {
    hide Rotate, VecDotProduct, Row1, Row2, Row3;
    RotateByRows(q, E1);
    RotateByRows(q, E2);
    RotateByRows(q, E3);
    DotWithAxes(Row1(q));
    DotWithAxes(Row2(q));
    DotWithAxes(Row3(q));
  }

  lemma AxesWithDot(v: Vector3f)
    ensures VecDotProduct(E1, v) == v.x && VecDotProduct(E2, v) == v.y && VecDotProduct(E3, v) == v.z
  {}

  lemma BackwardImage(q: Quaternion4f, u: Vector3f)
    requires IsUnitQuaternion(q)
    ensures Rotate(QuatConjugate(q), u)
            == Vector3f(VecDotProduct(u, Rotate(q, E1)),
                        VecDotProduct(u, Rotate(q, E2)),
                        VecDotProduct(u, Rotate(q, E3)))
  {
    hide Rotate, VecDotProduct, QuatConjugate, QuatNormSquared;
    var r := Rotate(QuatConjugate(q), u);
    RotateBack(q, u);
    RotateIsRigid(q, r, E1);
    RotateIsRigid(q, r, E2);
    RotateIsRigid(q, r, E3);
    DotWithAxes(r);
  }

  /** For a unit quaternion asinf gets a legal argument, both atan2f pairs lie on the circle whose
      squared radius is one minus the square of that argument, and negating the quaternion, which
      leaves the rotation alone, leaves all five arguments alone. */
  lemma ArgumentsAreLegal(q: Quaternion4f, a: EulerArguments)
    requires IsUnitQuaternion(q) && a == ArgumentsOf(q)
    ensures -1.0 <= a.pitch <= 1.0
    ensures a.yawY * a.yawY + a.yawX * a.yawX == 1.0 - a.pitch * a.pitch
    ensures a.rollY * a.rollY + a.rollX * a.rollX == 1.0 - a.pitch * a.pitch
    ensures ArgumentsOf(Negate(q)) == a
  {
    hide Rotate, ArgumentsOf, Row2, VecDotProduct, QuatNormSquared;
    ArgumentsAreAxes(q, a);
    RotateIsRigid(q, E3, E3);
    TimesConjugate(q);
    RotateIsRigid(QuatConjugate(q), E2, E2);
    AxesAreUnits();
    UnitParts(a.yawY, a.pitch, a.yawX);
    UnitParts(a.rollY, a.pitch, a.rollX);
    ArgumentsOfNegation(q);
  }

  lemma AxesAreUnits()
    ensures IsUnit(E1) && IsUnit(E2) && IsUnit(E3)
  {
    hide VecDotProduct;
    DotWithAxes(E1);
    DotWithAxes(E2);
    DotWithAxes(E3);
  }

  lemma UnitParts(y: real, s: real, x: real)
    ensures IsUnit(Vector3f(y, -s, x)) || IsUnit(Vector3f(y, x, -s))
            ==> -1.0 <= s <= 1.0 && y * y + x * x == 1.0 - s * s
  {
    var t := y * y + x * x;
    assert t >= 0.0;
    if s > 1.0 {
      SquaresIncrease(1.0, s);
    } else if s < -1.0 {
      SquaresIncrease(1.0, -s);
    }
  }

  lemma ArgumentsOfNegation(q: Quaternion4f)
    requires IsUnitQuaternion(q)
    ensures ArgumentsOf(Negate(q)) == ArgumentsOf(q)
  {
    hide Rotate, ArgumentsOf, Row2, QuatNormSquared, QuatMultiply, QuatScale;
    NormOfNegation(q);
    ConjugateOfNegation(q);
    RotateByNegation(q, E3);
    RotateByNegation(QuatConjugate(q), E2);
    ArgumentsAreAxes(q, ArgumentsOf(q));
    ArgumentsAreAxes(Negate(q), ArgumentsOf(Negate(q)));
  }

  lemma ConjugateOfNegation(q: Quaternion4f)
    ensures QuatConjugate(Negate(q)) == Negate(QuatConjugate(q))
  {}

  // ----- The rotation the angles describe -----

  /** Sines and cosines of the three angles, in the order yaw (about y), pitch (x), roll (z). */
  datatype Turns = Turns(sy: real, cy: real, sp: real, cp: real, sz: real, cz: real)

  function TurnsOf(m: Libm, angles: Vector3f): Turns {
    Turns(m.sin(angles.x), m.cos(angles.x), m.sin(angles.y), m.cos(angles.y), m.sin(angles.z), m.cos(angles.z))
  }

  function AboutZ(s: real, c: real, v: Vector3f): Vector3f {
    Vector3f(c * v.x - s * v.y, s * v.x + c * v.y, v.z)
  }

  function AboutX(s: real, c: real, v: Vector3f): Vector3f {
    Vector3f(v.x, c * v.y - s * v.z, s * v.y + c * v.z)
  }

  function AboutY(s: real, c: real, v: Vector3f): Vector3f {
    Vector3f(c * v.x + s * v.z, v.y, -(s * v.x) + c * v.z)
  }

  /** Roll about z, then pitch about x, then yaw about y. */
  function RotateByAngles(m: Libm, angles: Vector3f, v: Vector3f): Vector3f {
    var t := TurnsOf(m, angles);
    AboutY(t.sy, t.cy, AboutX(t.sp, t.cp, AboutZ(t.sz, t.cz, v)))
  }

  function AngleRow1(t: Turns): Vector3f {
    Vector3f(t.cy * t.cz + t.sy * t.sp * t.sz, t.sy * t.sp * t.cz - t.cy * t.sz, t.sy * t.cp)
  }

  function AngleRow2(t: Turns): Vector3f {
    Vector3f(t.cp * t.sz, t.cp * t.cz, -t.sp)
  }

  function AngleRow3(t: Turns): Vector3f {
    Vector3f(t.cy * t.sp * t.sz - t.sy * t.cz, t.sy * t.sz + t.cy * t.sp * t.cz, t.cy * t.cp)
  }

  lemma AnglesByRows(t: Turns, v: Vector3f, a: Vector3f, b: Vector3f)
    requires a == AboutZ(t.sz, t.cz, v) && b == AboutX(t.sp, t.cp, a)
    ensures AboutY(t.sy, t.cy, b)
            == Vector3f(VecDotProduct(AngleRow1(t), v), VecDotProduct(AngleRow2(t), v), VecDotProduct(AngleRow3(t), v))
  {
    hide AngleRow1, AngleRow2, AngleRow3, VecDotProduct;
    AngleEntry1(t, v, a, b);
    AngleEntry2(t, v, a, b);
    AngleEntry3(t, v, a, b);
  }

  lemma AngleEntry1(t: Turns, v: Vector3f, a: Vector3f, b: Vector3f)
    requires a == AboutZ(t.sz, t.cz, v) && b == AboutX(t.sp, t.cp, a)
    ensures t.cy * b.x + t.sy * b.z == VecDotProduct(AngleRow1(t), v)
  {
    assert b.z == t.sp * (t.sz * v.x + t.cz * v.y) + t.cp * v.z;
    assert t.cy * b.x == t.cy * t.cz * v.x - t.cy * t.sz * v.y;
    assert t.sy * b.z == t.sy * t.sp * t.sz * v.x + t.sy * t.sp * t.cz * v.y + t.sy * t.cp * v.z;
  }

  lemma AngleEntry2(t: Turns, v: Vector3f, a: Vector3f, b: Vector3f)
    requires a == AboutZ(t.sz, t.cz, v) && b == AboutX(t.sp, t.cp, a)
    ensures b.y == VecDotProduct(AngleRow2(t), v)
  {
    assert t.cp * a.y == t.cp * t.sz * v.x + t.cp * t.cz * v.y;
  }

  lemma AngleEntry3(t: Turns, v: Vector3f, a: Vector3f, b: Vector3f)
    requires a == AboutZ(t.sz, t.cz, v) && b == AboutX(t.sp, t.cp, a)
    ensures -(t.sy * b.x) + t.cy * b.z == VecDotProduct(AngleRow3(t), v)
  {
    assert b.z == t.sp * (t.sz * v.x + t.cz * v.y) + t.cp * v.z;
    assert t.sy * b.x == t.sy * t.cz * v.x - t.sy * t.sz * v.y;
    assert t.cy * b.z == t.cy * t.sp * t.sz * v.x + t.cy * t.sp * t.cz * v.y + t.cy * t.cp * v.z;
  }

  lemma RowsCross(q: Quaternion4f)
    requires IsUnitQuaternion(q)
    ensures VecCrossProduct(Row1(q), Row2(q)) == Row3(q)
    ensures VecCrossProduct(Row2(q), Row3(q)) == Row1(q)
  {
    hide Rotate, Row1, Row2, Row3, QuatConjugate, QuatNormSquared;
    var c := QuatConjugate(q);
    TimesConjugate(q);
    RowsAreBackwardImages(q);
    RotateIsRigid(c, E1, E2);
    RotateIsRigid(c, E2, E3);
    CrossOfAxes();
  }

  lemma CrossOfAxes()
    ensures VecCrossProduct(E1, E2) == E3
    ensures VecCrossProduct(E2, E3) == E1
  {}

  /** A right-handed orthonormal matrix whose last column and middle row come from angles, and
      whose pitch is not straight up or down, comes from those angles entirely. */
  lemma RowsFromAngles(t: Turns, r1: Vector3f, r2: Vector3f, r3: Vector3f)
    requires t.cp != 0.0 && t.cp * t.cp == 1.0 - t.sp * t.sp
    requires r1.z == t.sy * t.cp && r3.z == t.cy * t.cp && r2 == AngleRow2(t)
    requires VecCrossProduct(r1, r2) == r3 && VecCrossProduct(r2, r3) == r1
    ensures r1 == AngleRow1(t) && r3 == AngleRow3(t)
  {
    hide VecCrossProduct;
    CrossEntries(r1, r2, r3, t.sp);
    var g := t.cp * t.cp;
    SquareSign(t.cp, g);
    FirstPair(t, g, r1.z, r2.x, r2.y, r3.z, r1.x, r3.y);
    SecondPair(t, g, r1.z, r2.x, r2.y, r3.z, r3.x, r1.y);
    EntriesAreRows(t, r1, r3);
  }

  lemma EntriesAreRows(t: Turns, r1: Vector3f, r3: Vector3f)
    requires r1.x == t.cz * t.cy + t.sp * (t.sz * t.sy) && r3.y == t.sz * t.sy + t.sp * (t.cz * t.cy)
    requires r3.x == t.sp * (t.sz * t.cy) - t.cz * t.sy && r1.y == t.sp * (t.cz * t.sy) - t.sz * t.cy
    requires r1.z == t.sy * t.cp && r3.z == t.cy * t.cp
    ensures r1 == AngleRow1(t) && r3 == AngleRow3(t)
  {}

  lemma FirstPair(t: Turns, g: real, yaw0: real, roll0: real, roll1: real, yaw1: real, a: real, b: real)
    requires g != 0.0 && g == t.cp * t.cp && g == 1.0 - t.sp * t.sp
    requires yaw0 == t.sy * t.cp && yaw1 == t.cy * t.cp && roll0 == t.cp * t.sz && roll1 == t.cp * t.cz
    requires a == roll1 * yaw1 + t.sp * b && b == roll0 * yaw0 + t.sp * a
    ensures a == t.cz * t.cy + t.sp * (t.sz * t.sy) && b == t.sz * t.sy + t.sp * (t.cz * t.cy)
  {
    var x, y, gx, gy := t.cz * t.cy, t.sz * t.sy, roll1 * yaw1, roll0 * yaw0;
    assert gx == g * x;
    assert gy == g * y;
    assert IsTimes(gx, g, x) && IsTimes(gy, g, y);
    SolvePair(g, t.sp, x, y, gx, gy, a, b);
  }

  lemma SecondPair(t: Turns, g: real, yaw0: real, roll0: real, roll1: real, yaw1: real, a: real, b: real)
    requires g != 0.0 && g == t.cp * t.cp && g == 1.0 - t.sp * t.sp
    requires yaw0 == t.sy * t.cp && yaw1 == t.cy * t.cp && roll0 == t.cp * t.sz && roll1 == t.cp * t.cz
    requires -a == roll1 * yaw0 + t.sp * b && -b == roll0 * yaw1 + t.sp * a
    ensures a == t.sp * (t.sz * t.cy) - t.cz * t.sy && b == t.sp * (t.cz * t.sy) - t.sz * t.cy
  {
    var x, y, gx, gy := t.cz * t.sy, t.sz * t.cy, roll1 * yaw0, roll0 * yaw1;
    assert gx == g * x;
    assert gy == g * y;
    assert IsTimes(gx, g, x) && IsTimes(gy, g, y);
    SolveNegatedPair(g, t.sp, x, y, gx, gy, a, b);
  }

  /** Four entries of the products, with the middle row's last entry negated. */
  lemma CrossEntries(r1: Vector3f, r2: Vector3f, r3: Vector3f, s: real)
    requires VecCrossProduct(r1, r2) == r3 && VecCrossProduct(r2, r3) == r1 && r2.z == -s
    ensures r1.x == r2.y * r3.z + s * r3.y && r3.y == r2.x * r1.z + s * r1.x
    ensures -r3.x == r2.y * r1.z + s * r1.y && -r1.y == r2.x * r3.z + s * r3.x
  {}

  /** Two linear equations in the two entries a and b, and the same with both entries negated. */
  lemma SolvePair(g: real, s: real, x: real, y: real, gx: real, gy: real, a: real, b: real)
    requires g != 0.0 && g == 1.0 - s * s && IsTimes(gx, g, x) && IsTimes(gy, g, y)
    requires a == gx + s * b && b == gy + s * a
    ensures a == x + s * y && b == y + s * x
  {
    assert s * b == g * (s * y) + (1.0 - g) * a;
    Cancel(g, a, x + s * y);
    assert s * a == g * (s * x) + (1.0 - g) * b;
    Cancel(g, b, y + s * x);
  }

  lemma SolveNegatedPair(g: real, s: real, x: real, y: real, gx: real, gy: real, a: real, b: real)
    requires g != 0.0 && g == 1.0 - s * s && IsTimes(gx, g, x) && IsTimes(gy, g, y)
    requires -a == gx + s * b && -b == gy + s * a
    ensures a == s * y - x && b == s * x - y
  {
    assert s * b == -(g * (s * y)) - (1.0 - g) * a;
    Cancel(g, a, s * y - x);
    assert s * a == -(g * (s * x)) - (1.0 - g) * b;
    Cancel(g, b, s * x - y);
  }

  lemma Cancel(g: real, a: real, b: real)
    requires g != 0.0 && g * a == g * b
    ensures a == b
  {
    assert g * (a - b) == 0.0;
  }

  // ----- Round trip -----

  lemma TurnsOfAngles(m: Libm, q: Quaternion4f, a: EulerArguments, t: Turns)
    requires m.Lawful() && IsUnitQuaternion(q) && a == ArgumentsOf(q) && t == TurnsOf(m, QuatToEuler(m, q))
    ensures t.sp == a.pitch && t.cp >= 0.0 && t.cp * t.cp == 1.0 - t.sp * t.sp
    ensures t.cp * t.sy == a.yawY && t.cp * t.cy == a.yawX
    ensures t.cp * t.sz == a.rollY && t.cp * t.cz == a.rollX
  {
    hide ArgumentsOf, QuatNormSquared;
    ArgumentsAreLegal(q, a);
    PitchParts(m, a.pitch);
    assert IsLength(t.cp, a.yawX, a.yawY);
    assert IsLength(t.cp, a.rollX, a.rollY);
  }

  lemma PitchParts(m: Libm, s: real)
    requires m.LawfulTrig() && -1.0 <= s <= 1.0
    ensures m.sin(m.asin(s)) == s
    ensures m.cos(m.asin(s)) >= 0.0 && m.cos(m.asin(s)) * m.cos(m.asin(s)) == 1.0 - s * s
  {
    var a := m.asin(s);
    OtherSquare(m.sin(a), m.cos(a), s);
  }

  lemma OtherSquare(x: real, y: real, s: real)
    requires x * x + y * y == 1.0 && x == s
    ensures y * y == 1.0 - s * s
  {}

  /** Unless the pitch is straight up or down, rolling, pitching and yawing by the angles that
      QuatToEuler returns is the rotation of the quaternion it was given. */
  lemma AnglesRebuildRotation(m: Libm, q: Quaternion4f, v: Vector3f)
    requires m.Lawful() && IsUnitQuaternion(q) && -1.0 < ArgumentsOf(q).pitch < 1.0
    ensures RotateByAngles(m, QuatToEuler(m, q), v) == Rotate(q, v)
  {
    hide Rotate, ArgumentsOf, QuatToEuler, TurnsOf, Row1, Row2, Row3, AngleRow1, AngleRow3, VecDotProduct,
      VecCrossProduct, QuatNormSquared, AboutX, AboutY, AboutZ;
    var a, t := ArgumentsOf(q), TurnsOf(m, QuatToEuler(m, q));
    ArgumentsAreAxes(q, a);
    ImagesOfAxes(q);
    TurnsOfAngles(m, q, a, t);
    NotStraight(t.sp, t.cp);
    RowsCross(q);
    RowsFromAngles(t, Row1(q), Row2(q), Row3(q));
    RotateByRows(q, v);
    AnglesByRows(t, v, AboutZ(t.sz, t.cz, v), AboutX(t.sp, t.cp, AboutZ(t.sz, t.cz, v)));
  }

  lemma NotStraight(s: real, c: real)
    requires -1.0 < s < 1.0 && c * c == 1.0 - s * s
    ensures c != 0.0
  {
    if s >= 0.0 {
      SquaresIncrease(s, 1.0);
    } else {
      SquaresIncrease(-s, 1.0);
    }
  }

  lemma ZeroSum(x: real, y: real)
    requires x * x + y * y == 0.0
    ensures x == 0.0 && y == 0.0
  {
    var x2, y2 := x * x, y * y;
    SquareSign(x, x2);
    SquareSign(y, y2);
  }

  /** Straight up or down, both atan2f calls see the origin, so yaw and roll are lost. */
  lemma TurnsWhenStraight(m: Libm, q: Quaternion4f, s: real, t: Turns)
    requires m.Lawful() && IsUnitQuaternion(q) && s == ArgumentsOf(q).pitch && s * s == 1.0
    requires t == TurnsOf(m, QuatToEuler(m, q))
    ensures t == Turns(0.0, 1.0, s, 0.0, 0.0, 1.0)
  {
    hide ArgumentsOf, QuatNormSquared;
    var a := ArgumentsOf(q);
    ArgumentsAreLegal(q, a);
    ZeroSum(a.yawY, a.yawX);
    ZeroSum(a.rollY, a.rollX);
    PitchParts(m, s);
    ZeroSum(t.cp, 0.0);
  }

  lemma RowsWhenStraight(t: Turns, s: real)
    requires t == Turns(0.0, 1.0, s, 0.0, 0.0, 1.0)
    ensures AngleRow1(t) == E1
    ensures AngleRow2(t) == Vector3f(0.0, 0.0, -s)
    ensures AngleRow3(t) == Vector3f(0.0, s, 0.0)
  {}

  lemma ImagesWhenStraight(q: Quaternion4f, s: real)
    requires IsUnitQuaternion(q) && s == ArgumentsOf(q).pitch && s * s == 1.0 && Rotate(q, E1) == E1
    ensures Row1(q) == E1 && Row2(q) == Vector3f(0.0, 0.0, -s) && Row3(q) == Vector3f(0.0, s, 0.0)
  {
    hide Rotate, ArgumentsOf, QuatNormSquared, Row1, Row2, Row3;
    var a := ArgumentsOf(q);
    ArgumentsAreAxes(q, a);
    ArgumentsAreLegal(q, a);
    ZeroSum(a.yawY, a.yawX);
    ZeroSum(a.rollY, a.rollX);
    ImagesOfAxes(q);
    RowsCross(q);
    RowsFromCross(Row1(q), Row2(q), Row3(q), s);
  }

  lemma RowsFromCross(r1: Vector3f, r2: Vector3f, r3: Vector3f, s: real)
    requires r1.x == 1.0 && r1.z == 0.0 && r2 == Vector3f(0.0, 0.0, -s) && r3.x == 0.0 && r3.z == 0.0
    requires VecCrossProduct(r1, r2) == r3 && VecCrossProduct(r2, r3) == r1
    ensures r1 == E1 && r3 == Vector3f(0.0, s, 0.0)
  {}

  /** The angles describe the rotation exactly when the pitch is not straight up or down, or the
      rotation keeps the x axis, so that there was no yaw or roll to lose. */
  lemma AnglesRebuildExactly(m: Libm, q: Quaternion4f)
    requires m.Lawful() && IsUnitQuaternion(q)
    ensures (forall v :: RotateByAngles(m, QuatToEuler(m, q), v) == Rotate(q, v))
            <==> -1.0 < ArgumentsOf(q).pitch < 1.0 || Rotate(q, E1) == E1
  {
    hide Rotate, ArgumentsOf, QuatToEuler, TurnsOf, Row1, Row2, Row3, AngleRow1, AngleRow2, AngleRow3,
      VecDotProduct, QuatNormSquared, AboutX, AboutY, AboutZ;
    var s := ArgumentsOf(q).pitch;
    ArgumentsAreLegal(q, ArgumentsOf(q));
    if -1.0 < s < 1.0 {
      forall v ensures RotateByAngles(m, QuatToEuler(m, q), v) == Rotate(q, v) {
        AnglesRebuildRotation(m, q, v);
      }
    } else {
      var t := TurnsOf(m, QuatToEuler(m, q));
      assert s * s == 1.0;
      TurnsWhenStraight(m, q, s, t);
      RowsWhenStraight(t, s);
      forall v ensures RotateByAngles(m, QuatToEuler(m, q), v)
                       == Vector3f(VecDotProduct(E1, v),
                                   VecDotProduct(Vector3f(0.0, 0.0, -s), v),
                                   VecDotProduct(Vector3f(0.0, s, 0.0), v))
      {
        AnglesByRows(t, v, AboutZ(t.sz, t.cz, v), AboutX(t.sp, t.cp, AboutZ(t.sz, t.cz, v)));
      }
      DotWithAxes(E1);
      DotWithAxes(Vector3f(0.0, 0.0, -s));
      DotWithAxes(Vector3f(0.0, s, 0.0));
      assert RotateByAngles(m, QuatToEuler(m, q), E1) == E1;
      if Rotate(q, E1) == E1 {
        ImagesWhenStraight(q, s);
        forall v ensures RotateByAngles(m, QuatToEuler(m, q), v) == Rotate(q, v) {
          RotateByRows(q, v);
        }
      }
    }
  }

  /** The failing input: a third of a turn about a diagonal, whose pitch is straight up. */
  lemma DiagonalTurnIsLost(m: Libm, q: Quaternion4f)
    requires m.Lawful() && q == Quaternion4f(0.5, 0.5, -0.5, 0.5)
    ensures IsUnitQuaternion(q) && ArgumentsOf(q).pitch == 1.0
    ensures !forall v :: RotateByAngles(m, QuatToEuler(m, q), v) == Rotate(q, v)
  {
    hide Rotate, QuatToEuler, RotateByAngles;
    ImagesOfAxes(q);
    AnglesRebuildExactly(m, q);
  }
}
