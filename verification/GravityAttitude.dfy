/** SimulateAttitudeViaGravityVector of Classes/iPhone_Sensors.mm, the caller that puts
    QuatRotationFromTo, QuatDifference and QuatToEuler together frame after frame. */
module GravityAttitude {
  import opened Options
  import opened MathLibrary
  import opened Vector3
  import opened Quaternion4
  import opened QuaternionAlgebra
  import opened RotationFromTo
  import opened Products
  import opened Euler

  /** The function's static variables, with the values they start from. */
  class AttitudeSimulator {
    var lastAttitude: Quaternion4f
    var lastTime: real

    constructor ()
      ensures lastAttitude == QuatIdentity() && lastTime == 0.0
      ensures Valid()
    {
      lastAttitude, lastTime := QuatIdentity(), 0.0;
    }

    ghost predicate Valid()
      reads this
    {
      IsUnitQuaternion(lastAttitude)
    }

    /** One frame. The attitude handed to QuatDifference is always a unit quaternion, so the
        division there is safe and the arguments of QuatToEuler are legal. */
    method Simulate(m: Libm, gravity: Vector3f, currentTime: real)
      returns (currentAttitude: Quaternion4f, rotationRate: Option<Vector3f>)
      requires m.LawfulSqrt() && Valid()
      modifies this
      ensures Valid() && lastAttitude == currentAttitude && lastTime == currentTime
      ensures currentAttitude == AttitudeFor(m, gravity)
      ensures VecMagnitude(m, gravity) >= 1.0 / 8388608.0 ==>
                var g := VecNormalize(m, gravity);
                SquaredDistance(Rotate(currentAttitude, g), Vector3f(0.0, 0.0, -1.0)) <= 0.000002 <==> g.z <= 0.999999
      ensures IsUnitQuaternion(QuatDifference(currentAttitude, old(lastAttitude)))
      ensures rotationRate == RotationRate(old(lastTime) - currentTime,
                                           QuatToEuler(m, QuatDifference(currentAttitude, old(lastAttitude))))
    {
      hide QuatMultiply, QuatRotationFromTo, QuatToEuler, QuatInverse, RotationRate, VecMagnitude, VecNormalize, Rotate,
        SquaredDistance;
      var deltaTime := lastTime - currentTime;
      currentAttitude := QuatRotationFromTo(m, gravity, VecMake(0.0, 0.0, -1.0));
      ResultIsUnit(m, gravity, DOWN);
      if VecMagnitude(m, gravity) >= 1.0 / 8388608.0 {
        GravityIsTakenDown(m, gravity);
      }
      DifferenceOfUnits(currentAttitude, lastAttitude, gravity);
      rotationRate := RotationRate(deltaTime, QuatToEuler(m, QuatDifference(currentAttitude, lastAttitude)));
      lastAttitude := currentAttitude;
      lastTime := currentTime;
    }
  }

  /** `1.0f / deltaTime` times the angles; None when the quotient is not finite. */
  function RotationRate(deltaTime: real, angles: Vector3f): Option<Vector3f> {
    if deltaTime == 0.0 then None else Some(VecScale(1.0 / deltaTime, angles))
  }

  const DOWN := Vector3f(0.0, 0.0, -1.0)

  function AttitudeFor(m: Libm, gravity: Vector3f): Quaternion4f
    requires m.LawfulSqrt()
  {
    QuatRotationFromTo(m, gravity, DOWN)
  }

  // ----- The attitude -----

  /** The attitude takes the direction of gravity, as the device feels it, straight down, exactly so
      unless the device lies flat up to the tolerance. Lying face down it is the only exception: the
      half turn about z leaves gravity pointing up. */
  lemma GravityIsTakenDown(m: Libm, gravity: Vector3f)
    requires m.LawfulSqrt() && VecMagnitude(m, gravity) >= 1.0 / 8388608.0
    ensures var g, r := VecNormalize(m, gravity), Rotate(AttitudeFor(m, gravity), VecNormalize(m, gravity));
            && (-0.999999 < g.z <= 0.999999 ==> r == Vector3f(0.0, 0.0, -1.0))
            && (g.z > 0.999999 ==> r == Vector3f(-g.x, -g.y, g.z))
            && (SquaredDistance(r, Vector3f(0.0, 0.0, -1.0)) <= 0.000002 <==> g.z <= 0.999999)
  {
    hide Rotate, QuatRotationFromTo, VecMagnitude, VecNormalize, VecDotProduct, SquaredDistance, QuatRot;
    var g := VecNormalize(m, gravity);
    DownIsDirection(m);
    DotWithDown(g);
    MissIsSmall(m, gravity, DOWN);
    NormalizeIsUnit(m, gravity);
    if g.z > 0.999999 {
      HalfTurnImage(m, g);
      HalfTurnMiss(g, DOWN);
      HalfTurnEntry(m);
    } else if g.z > -0.999999 {
      NoMiss(DOWN);
    }
  }

  lemma DownIsDirection(m: Libm)
    requires m.LawfulSqrt()
    ensures VecMagnitude(m, DOWN) == 1.0 && VecNormalize(m, DOWN) == DOWN && IsUnit(DOWN)
  {
    hide VecMagnitude, VecNormalize;
    UnitIsNormalized(m, DOWN);
  }

  lemma DotWithDown(v: Vector3f)
    ensures VecDotProduct(v, DOWN) == -v.z
  {}

  lemma HalfTurnEntry(m: Libm)
    ensures QuatRot(m, 2) == Quaternion4f(0.0, 0.0, 1.0, 0.0)
  {}

  // ----- The sign of the rate -----

  /** When time advances the rate is the opposite of the angles divided by the elapsed time, hence the
      angles divided by the elapsed time only when there is no turn at all. */
  lemma RateIsBackward(lastTime: real, currentTime: real, angles: Vector3f)
    requires currentTime > lastTime
    ensures var forward := VecScale(1.0 / (currentTime - lastTime), angles);
            && RotationRate(lastTime - currentTime, angles) == Some(VecScale(-1.0, forward))
            && (RotationRate(lastTime - currentTime, angles) == Some(forward) <==> angles == ORIGIN)
  {
    hide VecScale;
    OppositeQuotients(currentTime - lastTime, lastTime - currentTime);
    OppositeScales(1.0 / (currentTime - lastTime), 1.0 / (lastTime - currentTime), angles);
  }

  lemma OppositeQuotients(t: real, t': real)
    requires t > 0.0 && t' == -t
    ensures 1.0 / t' == -(1.0 / t) && 1.0 / t != 0.0
  {
    var i, j := 1.0 / t, 1.0 / t';
    assert i * t == 1.0 && j * t' == 1.0;
    assert (i + j) * t == 0.0;
  }

  lemma OppositeScales(i: real, j: real, v: Vector3f)
    requires j == -i && i != 0.0
    ensures VecScale(j, v) == VecScale(-1.0, VecScale(i, v))
    ensures VecScale(j, v) == VecScale(i, v) <==> v == ORIGIN
  {
    hide VecScale, Times;
    ScaleByTimes(i, v);
    ScaleByTimes(j, v);
    ScaleByTimes(-1.0, VecScale(i, v));
    OppositeProducts(i, j, v.x);
    OppositeProducts(i, j, v.y);
    OppositeProducts(i, j, v.z);
    if v.x == 0.0 && v.y == 0.0 && v.z == 0.0 {
      SameVector(v, ORIGIN);
    }
  }

  lemma OppositeProducts(i: real, j: real, a: real)
    requires j == -i && i != 0.0
    ensures Times(j, a) == Times(-1.0, Times(i, a))
    ensures Times(j, a) == Times(i, a) <==> a == 0.0
  {}

  /** The failing frame: a second after the start, a device lying face down has made a half turn, and
      the rate reported is the opposite one. */
  lemma FirstFrameIsBackward(m: Libm, up: Vector3f)
    requires m.Lawful() && up == Vector3f(0.0, 0.0, 1.0)
    ensures var angles := QuatToEuler(m, QuatDifference(AttitudeFor(m, up), QuatIdentity()));
            && angles.z != 0.0 && RotationRate(0.0 - 1.0, angles) != Some(VecScale(1.0, angles))
  {
    hide QuatMultiply, QuatRotationFromTo, QuatToEuler, QuatDifference, RotationRate;
    var q := QuatRot(m, 2);
    UpFacesDown(m, up);
    HalfTurnFromStart(q);
    HalfTurnRolls(m, q);
    RateIsBackward(0.0, 1.0, QuatToEuler(m, q));
    assert 1.0 / (1.0 - 0.0) == 1.0;
  }

  lemma UpFacesDown(m: Libm, up: Vector3f)
    requires m.LawfulSqrt() && up == Vector3f(0.0, 0.0, 1.0)
    ensures AttitudeFor(m, up) == QuatRot(m, 2)
  {
    hide QuatRotationFromTo, VecMagnitude, VecNormalize, QuatRot;
    StraightUpIsDirection(m, up);
    OppositeIsHalfTurn(m, up);
    SameVector(VecScale(-1.0, up), DOWN);
  }

  lemma HalfTurnFromStart(q: Quaternion4f)
    ensures QuatDifference(q, QuatIdentity()) == q
  {
    hide QuatMultiply;
    Identity(q);
    DifferenceIsUnique(q, QuatIdentity(), q);
  }

  lemma HalfTurnRolls(m: Libm, q: Quaternion4f)
    requires m.Lawful() && q == Quaternion4f(0.0, 0.0, 1.0, 0.0)
    ensures QuatToEuler(m, q).z != 0.0
  {
    assert IsLength(1.0, -1.0, 0.0);
    assert m.cos(m.atan2(0.0, -1.0)) == -1.0;
  }

  // ----- Runs -----

  /** The attitude after a run of frames that started from `attitude`. */
  function AttitudeAfter(m: Libm, attitude: Quaternion4f, gravities: seq<Vector3f>): Quaternion4f
    requires m.LawfulSqrt()
  {
    if gravities == [] then attitude else AttitudeFor(m, gravities[|gravities| - 1])
  }

  /** The differences that the frames of a run hand to QuatToEuler. */
  function Differences(m: Libm, attitude: Quaternion4f, gravities: seq<Vector3f>): seq<Quaternion4f>
    requires m.LawfulSqrt() && IsUnitQuaternion(attitude)
    decreases |gravities|
  {
    if gravities == [] then []
    else
      ResultIsUnit(m, gravities[0], DOWN);
      [QuatDifference(AttitudeFor(m, gravities[0]), attitude)]
      + Differences(m, AttitudeFor(m, gravities[0]), gravities[1..])
  }

  /** Over every run the differences are unit quaternions with legal Euler arguments, and their
      product is what takes the first attitude to the last one: no rotation is lost or counted
      twice between frames. */
  lemma {:induction false} DifferencesTelescope(m: Libm, attitude: Quaternion4f, gravities: seq<Vector3f>)
    requires m.LawfulSqrt() && IsUnitQuaternion(attitude)
    ensures QuatMultiply(attitude, Product(Differences(m, attitude, gravities)))
            == AttitudeAfter(m, attitude, gravities)
    ensures forall d :: d in Differences(m, attitude, gravities)
                        ==> IsUnitQuaternion(d) && -1.0 <= ArgumentsOf(d).pitch <= 1.0
    decreases |gravities|
  {
    hide QuatMultiply, QuatRotationFromTo, QuatInverse, QuatDifference, ArgumentsOf, QuatNormSquared, Rotate;
    if gravities == [] {
      Identity(attitude);
    } else {
      var next, rest := AttitudeFor(m, gravities[0]), gravities[1..];
      ResultIsUnit(m, gravities[0], DOWN);
      var d, ds := QuatDifference(next, attitude), Differences(m, next, rest);
      DifferenceOfUnits(next, attitude, DOWN);
      ArgumentsAreLegal(d, ArgumentsOf(d));
      DifferenceIsUnique(next, attitude, d);
      DifferencesTelescope(m, next, rest);
      assert ([d] + ds)[1..] == ds;
      Associative(attitude, d, Product(ds));
    }
  }
}
