/** The table gQuatRot of Classes/Quaternion4.h as the quarter turns about the z axis, and the
    sensor reorientation of Classes/iPhone_Sensors.mm that relies on it. */
module QuarterTurns {
  import opened MathLibrary
  import opened Vector3
  import opened Quaternion4
  import opened QuaternionAlgebra
  import opened Rotation
  import opened RotationMatrix

  function Power(q: Quaternion4f, n: nat): Quaternion4f {
    if n == 0 then QuatIdentity() else QuatMultiply(q, Power(q, n - 1))
  }

  function Signed(positive: bool, q: Quaternion4f): Quaternion4f {
    if positive then q else Negate(q)
  }

  /** The sign with which the n-th power of a quarter turn appears in the table; period 8. */
  predicate PowerIsPositive(n: nat) {
    n % 8 == 0 || n % 8 == 1 || n % 8 == 6 || n % 8 == 7
  }

  lemma HalfRoot(m: Libm)
    requires m.LawfulSqrt()
    ensures (m.sqrt(2.0) * 0.5) * (m.sqrt(2.0) * 0.5) == 0.5
  {
    assert m.sqrt(2.0) * m.sqrt(2.0) == 2.0;
  }

  /** Multiplying by entry 1 moves on to the next entry; only the step from entry 1 flips the sign. */
  lemma NextEntry(m: Libm, k: nat)
    requires m.LawfulSqrt() && k < 4
    ensures QuatMultiply(QuatRot(m, 1), QuatRot(m, k)) == Signed(k != 1, QuatRot(m, (k + 1) % 4))
  {
    hide QuatMultiply;
    var h := m.sqrt(2.0) * 0.5;
    HalfRoot(m);
    PlanarProduct(-h, h, 1.0, 0.0);
    PlanarProduct(-h, h, -h, h);
    PlanarProduct(-h, h, 0.0, 1.0);
    PlanarProduct(-h, h, -h, -h);
  }

  /** Products of quaternions about the z axis, given by their w and z parts. */
  lemma PlanarProduct(w: real, z: real, w': real, z': real)
    ensures QuatMultiply(QuatMake(0.0, 0.0, z, w), QuatMake(0.0, 0.0, z', w'))
            == QuatMake(0.0, 0.0, w * z' + z * w', w * w' - z * z')
  {}

  lemma SignedTwice(a: bool, b: bool, q: Quaternion4f)
    ensures Signed(a, Signed(b, q)) == Signed(a == b, q)
  {}

  lemma SignMoves(a: Quaternion4f, b: Quaternion4f, s: bool)
    ensures QuatMultiply(a, Signed(s, b)) == Signed(s, QuatMultiply(a, b)) == QuatMultiply(Signed(s, a), b)
  {
    hide QuatMultiply;
    ScaleMultiply(a, b, -1.0);
  }

  /** Every power of entry 1 is in the table, up to a sign that repeats with period 8. */
  lemma {:induction false} PowersAreEntries(m: Libm, n: nat)
    requires m.LawfulSqrt()
    ensures Power(QuatRot(m, 1), n) == Signed(PowerIsPositive(n), QuatRot(m, n % 4))
  {
    hide QuatMultiply, QuatRot, Signed;
    if n == 0 {
      FirstEntry(m);
    } else {
      var k := (n - 1) % 4;
      PowersAreEntries(m, n - 1);
      SignMoves(QuatRot(m, 1), QuatRot(m, k), PowerIsPositive(n - 1));
      NextEntry(m, k);
      SignedTwice(PowerIsPositive(n - 1), k != 1, QuatRot(m, n % 4));
    }
  }

  lemma FirstEntry(m: Libm)
    ensures QuatIdentity() == Signed(true, QuatRot(m, 0))
  {}

  lemma {:induction false} PowersAdd(q: Quaternion4f, i: nat, j: nat)
    ensures Power(q, i + j) == QuatMultiply(Power(q, i), Power(q, j))
  {
    hide QuatMultiply;
    if i == 0 {
      Identity(Power(q, j));
    } else {
      PowersAdd(q, i - 1, j);
      Associative(q, Power(q, i - 1), Power(q, j));
    }
  }

  /** The table is closed under multiplication up to sign, and its indices add modulo 4. */
  lemma EntriesMultiply(m: Libm, i: nat, j: nat)
    requires m.LawfulSqrt() && i < 4 && j < 4
    ensures QuatMultiply(QuatRot(m, i), QuatRot(m, j))
            == Signed((PowerIsPositive(i) == PowerIsPositive(j)) == PowerIsPositive(i + j), QuatRot(m, (i + j) % 4))
  {
    hide QuatMultiply, QuatRot, Signed, Power;
    var r := QuatRot(m, 1);
    var si, sj, sij := PowerIsPositive(i), PowerIsPositive(j), PowerIsPositive(i + j);
    PowersAreEntries(m, i);
    PowersAreEntries(m, j);
    PowersAreEntries(m, i + j);
    PowersAdd(r, i, j);
    SignMoves(QuatRot(m, i), Signed(sj, QuatRot(m, j)), si);
    SignMoves(QuatRot(m, i), QuatRot(m, j), sj);
    SignedTwice(si, sj, QuatMultiply(QuatRot(m, i), QuatRot(m, j)));
    SignedTwice(si == sj, si == sj, QuatMultiply(QuatRot(m, i), QuatRot(m, j)));
    SignedTwice(si == sj, sij, QuatRot(m, (i + j) % 4));
    TrueSign(QuatMultiply(QuatRot(m, i), QuatRot(m, j)));
  }

  lemma TrueSign(q: Quaternion4f)
    ensures Signed(true, q) == q
  {}

  // ----- What the entries do to vectors -----
  // The comments beside the table call entry 1 a rotation by 90 degrees. Its numbers turn vectors by
  // minus 90 degrees, which is what the sensor code below needs.

  /** A turn by minus 90 degrees about the z axis. */
  function QuarterTurn(v: Vector3f): Vector3f {
    Vector3f(v.y, -v.x, v.z)
  }

  function QuarterTurns(n: nat, v: Vector3f): Vector3f {
    if n == 0 then v else QuarterTurn(QuarterTurns(n - 1, v))
  }

  lemma EntryOneTurns(m: Libm, v: Vector3f)
    requires m.LawfulSqrt()
    ensures Rotate(QuatRot(m, 1), v) == QuarterTurn(v)
  {
    hide Rotate, QuatRot, Row1, Row2, Row3;
    var q := QuatRot(m, 1);
    RotateByRows(q, v);
    EntryOne(m, q, m.sqrt(2.0) * 0.5);
    RowsOfEntryOne(q, m.sqrt(2.0) * 0.5);
    DotWithRows(v);
  }

  lemma EntryOne(m: Libm, q: Quaternion4f, h: real)
    requires m.LawfulSqrt() && q == QuatRot(m, 1) && h == m.sqrt(2.0) * 0.5
    ensures q.x == 0.0 && q.y == 0.0 && q.z == h && q.w == -h && h * h == 0.5
  {
    HalfRoot(m);
  }

  lemma RowsOfEntryOne(q: Quaternion4f, h: real)
    requires q.x == 0.0 && q.y == 0.0 && q.z == h && q.w == -h && h * h == 0.5
    ensures Row1(q) == Vector3f(0.0, 1.0, 0.0)
    ensures Row2(q) == Vector3f(-1.0, 0.0, 0.0)
    ensures Row3(q) == Vector3f(0.0, 0.0, 1.0)
  {}

  lemma DotWithRows(v: Vector3f)
    ensures VecDotProduct(Vector3f(0.0, 1.0, 0.0), v) == v.y
    ensures VecDotProduct(Vector3f(-1.0, 0.0, 0.0), v) == -v.x
    ensures VecDotProduct(Vector3f(0.0, 0.0, 1.0), v) == v.z
  {}

  lemma RotateBySigned(s: bool, q: Quaternion4f, v: Vector3f)
    ensures Rotate(Signed(s, q), v) == Rotate(q, v)
  {
    hide Rotate;
    RotateByNegation(q, v);
  }

  lemma {:induction false} RotateByPower(m: Libm, n: nat, v: Vector3f)
    requires m.LawfulSqrt()
    ensures Rotate(Power(QuatRot(m, 1), n), v) == QuarterTurns(n, v)
  {
    hide Rotate, QuatMultiply, QuatRot, QuarterTurn;
    if n == 0 {
      RotateByIdentity(v);
    } else {
      RotateByPower(m, n - 1, v);
      RotateByProduct(QuatRot(m, 1), Power(QuatRot(m, 1), n - 1), v);
      EntryOneTurns(m, QuarterTurns(n - 1, v));
    }
  }

  /** For every n, entry n mod 4 rotates by n quarter turns. */
  lemma EntriesAreQuarterTurns(m: Libm, n: nat, v: Vector3f)
    requires m.LawfulSqrt()
    ensures Rotate(QuatRot(m, n % 4), v) == QuarterTurns(n, v)
  {
    hide Rotate, QuatRot, Power, QuarterTurns, Signed;
    RotateByPower(m, n, v);
    PowersAreEntries(m, n);
    RotateBySigned(PowerIsPositive(n), QuatRot(m, n % 4), v);
  }

  // ----- Classes/iPhone_Sensors.mm: compensating for the screen orientation -----

  datatype Orientation = Portrait | PortraitUpsideDown | LandscapeLeft | LandscapeRight | OtherOrientation

  function UnityReorientVector3(compensating: bool, o: Orientation, v: Vector3f): Vector3f {
    if compensating then
      match o
      case PortraitUpsideDown => Vector3f(-v.x, -v.y, v.z)
      case LandscapeLeft => Vector3f(-v.y, v.x, v.z)
      case LandscapeRight => Vector3f(v.y, -v.x, v.z)
      case _ => v
    else v
  }

  function UnityReorientQuaternion(m: Libm, compensating: bool, o: Orientation, q: Quaternion4f): Quaternion4f {
    if compensating then
      match o
      case LandscapeLeft => QuatMultiply(q, QuatRot(m, 1))
      case PortraitUpsideDown => QuatMultiply(q, QuatRot(m, 2))
      case LandscapeRight => QuatMultiply(q, QuatRot(m, 3))
      case _ => q
    else q
  }

  /** The two compensations agree: a reoriented attitude applied to a reoriented device vector gives
      the world vector that the raw attitude gives for the raw device vector. */
  lemma ReorientationsAgree(m: Libm, compensating: bool, o: Orientation, q: Quaternion4f, v: Vector3f)
    requires m.LawfulSqrt()
    ensures Rotate(UnityReorientQuaternion(m, compensating, o, q), UnityReorientVector3(compensating, o, v))
            == Rotate(q, v)
  {
    hide Rotate, QuatMultiply, QuatRot;
    var k := match o
      case LandscapeLeft => 1
      case PortraitUpsideDown => 2
      case LandscapeRight => 3
      case _ => 0;
    var u := UnityReorientVector3(compensating, o, v);
    if compensating && k != 0 {
      RotateByProduct(q, QuatRot(m, k), u);
      EntriesAreQuarterTurns(m, k, u);
      ThreeTurns(u);
    }
  }

  /** What the compensation of vectors does: a left turn takes the x axis to the y axis and that to
      the opposite x axis, a right turn undoes a left one, upside down is two of them, the z part
      stays, and all other orientations leave everything alone. */
  lemma ReorientationsOfVectors(v: Vector3f)
    ensures UnityReorientVector3(true, LandscapeLeft, v)
            == VecAdd(VecAdd(VecScale(v.x, Vector3f(0.0, 1.0, 0.0)), VecScale(v.y, Vector3f(-1.0, 0.0, 0.0))),
                      Vector3f(0.0, 0.0, v.z))
    ensures UnityReorientVector3(true, LandscapeRight, UnityReorientVector3(true, LandscapeLeft, v)) == v
    ensures UnityReorientVector3(true, PortraitUpsideDown, v)
            == UnityReorientVector3(true, LandscapeLeft, UnityReorientVector3(true, LandscapeLeft, v))
    ensures forall c, o: Orientation :: !c || o !in {LandscapeLeft, LandscapeRight, PortraitUpsideDown}
                           ==> UnityReorientVector3(c, o, v) == v
  {}

  lemma ThreeTurns(v: Vector3f)
    ensures QuarterTurns(1, v) == Vector3f(v.y, -v.x, v.z)
    ensures QuarterTurns(2, v) == Vector3f(-v.x, -v.y, v.z)
    ensures QuarterTurns(3, v) == Vector3f(-v.y, v.x, v.z)
  {}
}
