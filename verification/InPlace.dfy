/** The three-argument QuatMultiply of Classes/Quaternion4.h, which writes its result field by
    field through a reference that may be one of its own operands. */
module InPlace {
  import opened MathLibrary
  import opened Vector3
  import opened Quaternion4
  import opened QuaternionAlgebra

  class QuaternionCell {
    var x: real
    var y: real
    var z: real
    var w: real

    constructor (q: Quaternion4f)
      ensures Value() == q
    {
      x, y, z, w := q.x, q.y, q.z, q.w;
    }

    function Value(): Quaternion4f
      reads this
    {
      Quaternion4f(x, y, z, w)
    }
  }

  /** What the four assignments leave behind when the result is, or is not, each operand. */
  function AssignedInOrder(isLhs: bool, isRhs: bool, a: Quaternion4f, b: Quaternion4f): Quaternion4f {
    var x := ThreeMinusOne(a.w, b.x, a.x, b.w, a.y, b.z, a.z, b.y);
    var a1, b1 := if isLhs then a.(x := x) else a, if isRhs then b.(x := x) else b;
    var y := ThreeMinusOne(a1.w, b1.y, a1.y, b1.w, a1.z, b1.x, a1.x, b1.z);
    var a2, b2 := if isLhs then a1.(y := y) else a1, if isRhs then b1.(y := y) else b1;
    var z := ThreeMinusOne(a2.w, b2.z, a2.z, b2.w, a2.x, b2.y, a2.y, b2.x);
    var a3, b3 := if isLhs then a2.(z := z) else a2, if isRhs then b2.(z := z) else b2;
    Quaternion4f(x, y, z, OneMinusThree(a3.w, b3.w, a3.x, b3.x, a3.y, b3.y, a3.z, b3.z))
  }

  /** With a result distinct from both operands the in-place form computes the product; in every
      case it computes AssignedInOrder, and touches nothing but the result. */
  method QuatMultiplyInto(result: QuaternionCell, lhs: QuaternionCell, rhs: QuaternionCell)
    modifies result
    ensures result.Value() == AssignedInOrder(result == lhs, result == rhs, old(lhs.Value()), old(rhs.Value()))
    ensures result != lhs && result != rhs ==> result.Value() == QuatMultiply(lhs.Value(), rhs.Value())
  {
    hide ThreeMinusOne, OneMinusThree, QuatMultiply;
    DistinctIsProduct(lhs.Value(), rhs.Value());
    result.x := ThreeMinusOne(lhs.w, rhs.x, lhs.x, rhs.w, lhs.y, rhs.z, lhs.z, rhs.y);
    result.y := ThreeMinusOne(lhs.w, rhs.y, lhs.y, rhs.w, lhs.z, rhs.x, lhs.x, rhs.z);
    result.z := ThreeMinusOne(lhs.w, rhs.z, lhs.z, rhs.w, lhs.x, rhs.y, lhs.y, rhs.x);
    result.w := OneMinusThree(lhs.w, rhs.w, lhs.x, rhs.x, lhs.y, rhs.y, lhs.z, rhs.z);
  }

  lemma DistinctIsProduct(a: Quaternion4f, b: Quaternion4f)
    ensures AssignedInOrder(false, false, a, b) == QuatMultiply(a, b)
  {
    hide QuatMultiply, ThreeMinusOne, OneMinusThree;
    MultiplyIsProduct(a, b);
  }

  /** The returning form calls the in-place form on a fresh result, so it is always the product. */
  method QuatMultiplyFresh(lhs: QuaternionCell, rhs: QuaternionCell) returns (output: QuaternionCell)
    ensures fresh(output) && output.Value() == QuatMultiply(lhs.Value(), rhs.Value())
  {
    output := new QuaternionCell(ZERO);
    QuatMultiplyInto(output, lhs, rhs);
  }

  // ----- Results that alias an operand -----

  /** Squaring in place is right exactly for real quaternions and those with real part 1/2 or -1/2. */
  lemma SquareInPlace(q: Quaternion4f)
    ensures AssignedInOrder(true, true, q, q) == QuatMultiply(q, q)
            <==> (q.x == 0.0 && q.y == 0.0 && q.z == 0.0) || q.w == 0.5 || q.w == -0.5
  {
    hide AssignedInOrder, QuatMultiply;
    var r, s := AssignedInOrder(true, true, q, q), QuatMultiply(q, q);
    var k := 2.0 * q.w;
    var u, t := q.x * q.x + q.y * q.y + q.z * q.z, s.x * s.x + s.y * s.y + s.z * s.z;
    SquareCoordinates(q, r, s, k, u, t);
    StretchedSum(q.x, q.y, q.z, k, s.x, s.y, s.z, u, t);
    ZeroOrHalf(q.x, q.y, q.z, q.w, k, u, t);
    if r.w == s.w {
      SameParts(r, s);
    }
  }

  lemma SquareCoordinates(q: Quaternion4f, r: Quaternion4f, s: Quaternion4f, k: real, u: real, t: real)
    requires r == AssignedInOrder(true, true, q, q) && s == QuatMultiply(q, q)
    requires k == 2.0 * q.w
    requires u == q.x * q.x + q.y * q.y + q.z * q.z && t == s.x * s.x + s.y * s.y + s.z * s.z
    ensures r.x == s.x == k * q.x && r.y == s.y == k * q.y && r.z == s.z == k * q.z
    ensures r.w - s.w == u - t
  {}

  lemma StretchedSum(x: real, y: real, z: real, k: real, x': real, y': real, z': real, u: real, t: real)
    requires x' == k * x && y' == k * y && z' == k * z
    requires u == x * x + y * y + z * z && t == x' * x' + y' * y' + z' * z'
    ensures t == k * k * u
  {
    assert x' * x' == k * k * (x * x);
    assert y' * y' == k * k * (y * y);
    assert z' * z' == k * k * (z * z);
  }

  lemma ZeroOrHalf(x: real, y: real, z: real, w: real, k: real, u: real, t: real)
    requires u == x * x + y * y + z * z && k == 2.0 * w && t == k * k * u
    ensures t == u <==> (x == 0.0 && y == 0.0 && z == 0.0) || w == 0.5 || w == -0.5
  {
    var x2, y2, z2 := x * x, y * y, z * z;
    SquareSign(x, x2);
    SquareSign(y, y2);
    SquareSign(z, z2);
    var e := (k - 1.0) * (k + 1.0);
    assert t - u == e * u;
    if k != 1.0 && k != -1.0 && u != 0.0 {
      NonZeroProduct(k - 1.0, k + 1.0, e);
      NonZeroProduct(e, u, e * u);
    }
  }

  lemma NonZeroProduct(a: real, b: real, p: real)
    requires a != 0.0 && b != 0.0 && p == a * b
    ensures p != 0.0
  {}

  /** What is left in the result that was also the left operand, coordinate by coordinate. */
  ghost predicate IsLeftAssigned(r: Quaternion4f, a: Quaternion4f, b: Quaternion4f) {
    && r.x == ThreeMinusOne(a.w, b.x, a.x, b.w, a.y, b.z, a.z, b.y)
    && r.y == ThreeMinusOne(a.w, b.y, a.y, b.w, a.z, b.x, r.x, b.z)
    && r.z == ThreeMinusOne(a.w, b.z, a.z, b.w, r.x, b.y, r.y, b.x)
    && r.w == OneMinusThree(a.w, b.w, r.x, b.x, r.y, b.y, r.z, b.z)
  }

  ghost predicate IsRightAssigned(r: Quaternion4f, a: Quaternion4f, b: Quaternion4f) {
    && r.x == ThreeMinusOne(a.w, b.x, a.x, b.w, a.y, b.z, a.z, b.y)
    && r.y == ThreeMinusOne(a.w, b.y, a.y, b.w, a.z, r.x, a.x, b.z)
    && r.z == ThreeMinusOne(a.w, b.z, a.z, b.w, a.x, r.y, a.y, r.x)
    && r.w == OneMinusThree(a.w, b.w, a.x, r.x, a.y, r.y, a.z, r.z)
  }

  lemma AssignedToOperand(a: Quaternion4f, b: Quaternion4f)
    ensures IsLeftAssigned(AssignedInOrder(true, false, a, b), a, b)
    ensures IsRightAssigned(AssignedInOrder(false, true, a, b), a, b)
  {
    hide ThreeMinusOne, OneMinusThree;
  }

  /** The vector s * p - t * q + c. */
  function Change(s: real, p: Vector3f, t: real, q: Vector3f, c: Vector3f): Vector3f {
    Vector3f(Shift(s, p.x, t, q.x, c.x), Shift(s, p.y, t, q.y, c.y), Shift(s, p.z, t, q.z, c.z))
  }

  function Shift(s: real, p: real, t: real, q: real, c: real): real {
    s * p - t * q + c
  }

  /** What the product adds to the vector part of the operand `over` that it is written over; `c` is
      the cross product of the operands. */
  function Added(over: Quaternion4f, other: Quaternion4f, c: Vector3f): Vector3f {
    Change(over.w, Imaginary(other), 1.0 - other.w, Imaginary(over), c)
  }

  /** None of the later assignments notices the change `d`; `p` is the other operand's vector part. */
  ghost predicate NothingLeftOver(d: Vector3f, p: Vector3f) {
    d.x * p.z == 0.0 && d.x * p.y == d.y * p.x && VecDotProduct(d, p) == 0.0
  }

  /** When one operand may be the result, as a test on the operands. Unless the other operand is real,
      there are two or more equations, by the coordinates of the other operand that vanish. */
  predicate MayBeResult(over: Quaternion4f, other: Quaternion4f, c: Vector3f) {
    var s, p, t, q := over.w, Imaginary(other), 1.0 - other.w, Imaginary(over);
    if p == ORIGIN then true
    else if p.z == 0.0 then s * p.x + c.x == t * q.x && s * p.y + c.y == t * q.y
    else if p.x == 0.0 then c.x == t * q.x && s * VecDotProduct(p, p) == t * VecDotProduct(q, p)
    else c == ORIGIN && VecScale(s, p) == VecScale(t, q)
  }

  function Cross(a: Quaternion4f, b: Quaternion4f): Vector3f {
    VecCrossProduct(Imaginary(a), Imaginary(b))
  }

  /** For which operands exactly the product may be written over the left one. */
  lemma LeftInPlace(a: Quaternion4f, b: Quaternion4f)
    ensures AssignedInOrder(true, false, a, b) == QuatMultiply(a, b) <==> MayBeResult(a, b, Cross(a, b))
  {
    hide AssignedInOrder, QuatMultiply, IsLeftAssigned, IsProduct, NothingLeftOver, Added, MayBeResult,
      VecCrossProduct, VecDotProduct;
    var r, p := AssignedInOrder(true, false, a, b), QuatMultiply(a, b);
    MultiplyIsProduct(a, b);
    AssignedToOperand(a, b);
    LeftChange(a, b);
    LeftCoordinates(a, b, p, r, Added(a, b, Cross(a, b)));
    CrossIsOrthogonal(Imaginary(a), Imaginary(b));
    TestIsExact(a, b, Cross(a, b));
  }

  /** For which operands exactly it may be written over the right one. */
  lemma RightInPlace(a: Quaternion4f, b: Quaternion4f)
    ensures AssignedInOrder(false, true, a, b) == QuatMultiply(a, b) <==> MayBeResult(b, a, Cross(a, b))
  {
    hide AssignedInOrder, QuatMultiply, IsRightAssigned, IsProduct, NothingLeftOver, Added, MayBeResult,
      VecCrossProduct, VecDotProduct;
    var r, p := AssignedInOrder(false, true, a, b), QuatMultiply(a, b);
    MultiplyIsProduct(a, b);
    AssignedToOperand(a, b);
    RightChange(a, b);
    RightCoordinates(a, b, p, r, Added(b, a, Cross(a, b)));
    CrossIsOrthogonal(Imaginary(a), Imaginary(b));
    TestIsExact(b, a, Cross(a, b));
  }

  /** The imaginary units i and j: their product is k, but writing over either one gives zero. */
  lemma UnitsMayNotBeResult(i: Quaternion4f, j: Quaternion4f)
    requires i == Quaternion4f(1.0, 0.0, 0.0, 0.0) && j == Quaternion4f(0.0, 1.0, 0.0, 0.0)
    ensures QuatMultiply(i, j) == Quaternion4f(0.0, 0.0, 1.0, 0.0)
    ensures AssignedInOrder(true, false, i, j) == AssignedInOrder(false, true, i, j) == ZERO
    ensures !MayBeResult(i, j, Cross(i, j)) && !MayBeResult(j, i, Cross(i, j))
  {
    hide AssignedInOrder, QuatMultiply, MayBeResult, Cross;
    UnitsProduct(i, j);
    UnitsAliased(i, j, AssignedInOrder(true, false, i, j), AssignedInOrder(false, true, i, j));
    LeftInPlace(i, j);
    RightInPlace(i, j);
  }

  lemma UnitsProduct(i: Quaternion4f, j: Quaternion4f)
    requires i == Quaternion4f(1.0, 0.0, 0.0, 0.0) && j == Quaternion4f(0.0, 1.0, 0.0, 0.0)
    ensures QuatMultiply(i, j) == Quaternion4f(0.0, 0.0, 1.0, 0.0)
  {}

  lemma UnitsAliased(i: Quaternion4f, j: Quaternion4f, r: Quaternion4f, r': Quaternion4f)
    requires i == Quaternion4f(1.0, 0.0, 0.0, 0.0) && j == Quaternion4f(0.0, 1.0, 0.0, 0.0)
    requires r == AssignedInOrder(true, false, i, j) && r' == AssignedInOrder(false, true, i, j)
    ensures r == r' == ZERO
  {
    hide AssignedInOrder, ThreeMinusOne, OneMinusThree;
    AssignedToOperand(i, j);
    ShapesVanish(i.w, j.x, i.x, j.w, i.y, j.z, i.z, j.y);
    ShapesVanish(i.w, j.y, i.y, j.w, i.z, j.x, r.x, j.z);
    ShapesVanish(i.w, j.z, i.z, j.w, r.x, j.y, r.y, j.x);
    ShapesVanish(i.w, j.w, r.x, j.x, r.y, j.y, r.z, j.z);
    ShapesVanish(i.w, j.y, i.y, j.w, i.z, r'.x, i.x, j.z);
    ShapesVanish(i.w, j.z, i.z, j.w, i.x, r'.y, i.y, r'.x);
    ShapesVanish(i.w, j.w, i.x, r'.x, i.y, r'.y, i.z, r'.z);
  }

  lemma ShapesVanish(a0: real, b0: real, a1: real, b1: real, a2: real, b2: real, a3: real, b3: real)
    requires (a0 == 0.0 || b0 == 0.0) && (a1 == 0.0 || b1 == 0.0)
    requires (a2 == 0.0 || b2 == 0.0) && (a3 == 0.0 || b3 == 0.0)
    ensures ThreeMinusOne(a0, b0, a1, b1, a2, b2, a3, b3) == OneMinusThree(a0, b0, a1, b1, a2, b2, a3, b3) == 0.0
  {}

  // ----- The change, and when it is noticed -----

  lemma LeftChange(a: Quaternion4f, b: Quaternion4f)
    ensures Imaginary(QuatMultiply(a, b)) == VecAdd(Imaginary(a), Added(a, b, Cross(a, b)))
  {
    hide QuatMultiply, ThreeMinusOne, OneMinusThree, Shift;
    MultiplyIsProduct(a, b);
    ChangedCoordinate(a.w, b.x, a.x, b.w, a.y, b.z, a.z, b.y, Cross(a, b).x);
    ChangedCoordinate(a.w, b.y, a.y, b.w, a.z, b.x, a.x, b.z, Cross(a, b).y);
    ChangedCoordinate(a.w, b.z, a.z, b.w, a.x, b.y, a.y, b.x, Cross(a, b).z);
  }

  lemma RightChange(a: Quaternion4f, b: Quaternion4f)
    ensures Imaginary(QuatMultiply(a, b)) == VecAdd(Imaginary(b), Added(b, a, Cross(a, b)))
  {
    hide QuatMultiply, ThreeMinusOne, OneMinusThree, Shift;
    MultiplyIsProduct(a, b);
    ChangedCoordinate(a.w, b.x, a.x, b.w, a.y, b.z, a.z, b.y, Cross(a, b).x);
    ChangedCoordinate(a.w, b.y, a.y, b.w, a.z, b.x, a.x, b.z, Cross(a, b).y);
    ChangedCoordinate(a.w, b.z, a.z, b.w, a.x, b.y, a.y, b.x, Cross(a, b).z);
  }

  /** One coordinate of the product, as a change of the left and of the right operand's. */
  lemma ChangedCoordinate(s: real, p: real, q: real, t: real, a0: real, b0: real, a1: real, b1: real, c: real)
    requires c == a0 * b0 - a1 * b1
    ensures ThreeMinusOne(s, p, q, t, a0, b0, a1, b1) == q + Shift(s, p, 1.0 - t, q, c)
    ensures ThreeMinusOne(s, p, q, t, a0, b0, a1, b1) == p + Shift(t, q, 1.0 - s, p, c)
  {}

  lemma TestIsExact(over: Quaternion4f, other: Quaternion4f, c: Vector3f)
    requires VecDotProduct(c, Imaginary(over)) == 0.0 && VecDotProduct(c, Imaginary(other)) == 0.0
    ensures NothingLeftOver(Added(over, other, c), Imaginary(other)) <==> MayBeResult(over, other, c)
  {
    hide NothingLeftOver, VecDotProduct, VecScale, Change;
    var s, p, t, q := over.w, Imaginary(other), 1.0 - other.w, Imaginary(over);
    LeftOverByCases(Added(over, other, c), p);
    ChangeCoordinates(s, p, t, q, c);
    ChangeAlong(s, p, t, q, c, p);
    ChangeVanishes(s, p, t, q, c);
  }

  lemma ChangeCoordinates(s: real, p: Vector3f, t: real, q: Vector3f, c: Vector3f)
    ensures var d := Change(s, p, t, q, c);
            && (d.x == 0.0 <==> s * p.x + c.x == t * q.x) && (d.y == 0.0 <==> s * p.y + c.y == t * q.y)
            && (p.x == 0.0 ==> (d.x == 0.0 <==> c.x == t * q.x))
  {}

  lemma LeftOverByCases(d: Vector3f, p: Vector3f)
    ensures NothingLeftOver(d, p)
            <==> if p == ORIGIN then true
                 else if p.z == 0.0 then d.x == 0.0 && d.y == 0.0
                 else if p.x == 0.0 then d.x == 0.0 && VecDotProduct(d, p) == 0.0
                 else d == ORIGIN
  {
    if p == ORIGIN {
    } else if p.z == 0.0 {
      if NothingLeftOver(d, p) {
        OnlyZeroSolves(d.x, d.y, p.x, p.y);
      }
    } else {
      ZeroFactor(d.x, p.z);
      if d.x == 0.0 && p.x != 0.0 {
        ZeroFactor(d.y, p.x);
        ZeroFactor(d.z, p.z);
      }
    }
  }

  lemma ZeroFactor(x: real, k: real)
    requires k != 0.0
    ensures x * k == 0.0 <==> x == 0.0
  {}

  lemma OnlyZeroSolves(x: real, y: real, a: real, b: real)
    requires x * b == y * a && x * a + y * b == 0.0 && (a != 0.0 || b != 0.0)
    ensures x == 0.0 && y == 0.0
  {
    var n, a2, b2 := a * a + b * b, a * a, b * b;
    SquareSign(a, a2);
    SquareSign(b, b2);
    assert x * n == a * (x * a + y * b) + b * (x * b - y * a);
    assert y * n == b * (x * a + y * b) - a * (x * b - y * a);
    ZeroFactor(x, n);
    ZeroFactor(y, n);
  }

  lemma ChangeAlong(s: real, p: Vector3f, t: real, q: Vector3f, c: Vector3f, w: Vector3f)
    ensures VecDotProduct(Change(s, p, t, q, c), w)
            == s * VecDotProduct(p, w) - t * VecDotProduct(q, w) + VecDotProduct(c, w)
  {}

  lemma ChangeVanishes(s: real, p: Vector3f, t: real, q: Vector3f, c: Vector3f)
    requires VecDotProduct(c, q) == 0.0 && VecDotProduct(c, p) == 0.0
    ensures Change(s, p, t, q, c) == ORIGIN <==> c == ORIGIN && VecScale(s, p) == VecScale(t, q)
  {
    hide VecDotProduct;
    if Change(s, p, t, q, c) == ORIGIN {
      ChangeAlong(s, p, t, q, c, c);
      DotCommutes(c, p);
      DotCommutes(c, q);
      DotOfOrigin(c);
      OnlyOriginIsShort(c);
    }
  }

  lemma DotOfOrigin(v: Vector3f)
    ensures VecDotProduct(ORIGIN, v) == 0.0
  {}

  lemma OnlyOriginIsShort(v: Vector3f)
    requires VecDotProduct(v, v) == 0.0
    ensures v == ORIGIN
  {
    var x2, y2, z2 := v.x * v.x, v.y * v.y, v.z * v.z;
    SquareSign(v.x, x2);
    SquareSign(v.y, y2);
    SquareSign(v.z, z2);
  }

  // ----- Coordinates -----

  lemma LeftCoordinates(a: Quaternion4f, b: Quaternion4f, p: Quaternion4f, r: Quaternion4f, d: Vector3f)
    requires IsProduct(p, a, b) && IsLeftAssigned(r, a, b) && Imaginary(p) == VecAdd(Imaginary(a), d)
    ensures r == p <==> NothingLeftOver(d, Imaginary(b))
  {
    hide ThreeMinusOne, OneMinusThree;
    LeftY(a, b, p, r, d);
    if r.y == p.y {
      LeftZ(a, b, p, r, d);
      if r.z == p.z {
        LeftW(a, b, p, r, d);
        if r.w == p.w {
          SameParts(r, p);
        }
      }
    }
  }

  lemma LeftY(a: Quaternion4f, b: Quaternion4f, p: Quaternion4f, r: Quaternion4f, d: Vector3f)
    requires p.y == ThreeMinusOne(a.w, b.y, a.y, b.w, a.z, b.x, a.x, b.z)
    requires r.y == ThreeMinusOne(a.w, b.y, a.y, b.w, a.z, b.x, r.x, b.z)
    requires r.x == a.x + d.x
    ensures r.y == p.y - d.x * b.z
  {}

  lemma LeftZ(a: Quaternion4f, b: Quaternion4f, p: Quaternion4f, r: Quaternion4f, d: Vector3f)
    requires p.z == ThreeMinusOne(a.w, b.z, a.z, b.w, a.x, b.y, a.y, b.x)
    requires r.z == ThreeMinusOne(a.w, b.z, a.z, b.w, r.x, b.y, r.y, b.x)
    requires r.x == a.x + d.x && r.y == a.y + d.y
    ensures r.z == p.z + d.x * b.y - d.y * b.x
  {}

  lemma LeftW(a: Quaternion4f, b: Quaternion4f, p: Quaternion4f, r: Quaternion4f, d: Vector3f)
    requires p.w == OneMinusThree(a.w, b.w, a.x, b.x, a.y, b.y, a.z, b.z)
    requires r.w == OneMinusThree(a.w, b.w, r.x, b.x, r.y, b.y, r.z, b.z)
    requires r.x == a.x + d.x && r.y == a.y + d.y && r.z == a.z + d.z
    ensures r.w == p.w - VecDotProduct(d, Imaginary(b))
  {}

  lemma RightCoordinates(a: Quaternion4f, b: Quaternion4f, p: Quaternion4f, r: Quaternion4f, d: Vector3f)
    requires IsProduct(p, a, b) && IsRightAssigned(r, a, b) && Imaginary(p) == VecAdd(Imaginary(b), d)
    ensures r == p <==> NothingLeftOver(d, Imaginary(a))
  {
    hide ThreeMinusOne, OneMinusThree;
    RightY(a, b, p, r, d);
    if r.y == p.y {
      RightZ(a, b, p, r, d);
      if r.z == p.z {
        RightW(a, b, p, r, d);
        if r.w == p.w {
          SameParts(r, p);
        }
      }
    }
  }

  lemma RightY(a: Quaternion4f, b: Quaternion4f, p: Quaternion4f, r: Quaternion4f, d: Vector3f)
    requires p.y == ThreeMinusOne(a.w, b.y, a.y, b.w, a.z, b.x, a.x, b.z)
    requires r.y == ThreeMinusOne(a.w, b.y, a.y, b.w, a.z, r.x, a.x, b.z)
    requires r.x == b.x + d.x
    ensures r.y == p.y + d.x * a.z
  {}

  lemma RightZ(a: Quaternion4f, b: Quaternion4f, p: Quaternion4f, r: Quaternion4f, d: Vector3f)
    requires p.z == ThreeMinusOne(a.w, b.z, a.z, b.w, a.x, b.y, a.y, b.x)
    requires r.z == ThreeMinusOne(a.w, b.z, a.z, b.w, a.x, r.y, a.y, r.x)
    requires r.x == b.x + d.x && r.y == b.y + d.y
    ensures r.z == p.z + d.y * a.x - d.x * a.y
  {}

  lemma RightW(a: Quaternion4f, b: Quaternion4f, p: Quaternion4f, r: Quaternion4f, d: Vector3f)
    requires p.w == OneMinusThree(a.w, b.w, a.x, b.x, a.y, b.y, a.z, b.z)
    requires r.w == OneMinusThree(a.w, b.w, a.x, r.x, a.y, r.y, a.z, r.z)
    requires r.x == b.x + d.x && r.y == b.y + d.y && r.z == b.z + d.z
    ensures r.w == p.w - VecDotProduct(d, Imaginary(a))
  {}
}
