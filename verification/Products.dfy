/** Finite products, inverses and differences of quaternions. */
module Products {
  import opened MathLibrary
  import opened Vector3
  import opened Quaternion4
  import opened QuaternionAlgebra
  import opened Rotation
  import opened RotationMatrix

  // ----- Products of any length, however they are bracketed -----

  datatype Bracketing = Leaf(q: Quaternion4f) | Join(left: Bracketing, right: Bracketing)

  function Evaluate(t: Bracketing): Quaternion4f {
    match t
    case Leaf(q) => q
    case Join(l, r) => QuatMultiply(Evaluate(l), Evaluate(r))
  }

  function Leaves(t: Bracketing): seq<Quaternion4f> {
    match t
    case Leaf(q) => [q]
    case Join(l, r) => Leaves(l) + Leaves(r)
  }

  function Product(qs: seq<Quaternion4f>): Quaternion4f {
    if qs == [] then QuatIdentity() else QuatMultiply(qs[0], Product(qs[1..]))
  }

  lemma {:induction false} ProductOfConcatenation(ps: seq<Quaternion4f>, qs: seq<Quaternion4f>)
    ensures Product(ps + qs) == QuatMultiply(Product(ps), Product(qs))
  {
    hide QuatMultiply;
    if ps == [] {
      assert ps + qs == qs;
      Identity(Product(qs));
    } else {
      assert (ps + qs)[0] == ps[0] && (ps + qs)[1..] == ps[1..] + qs;
      ProductOfConcatenation(ps[1..], qs);
      Associative(ps[0], Product(ps[1..]), Product(qs));
    }
  }

  /** Every bracketing of the same factors has the same value. */
  lemma {:induction false} BracketingDoesNotMatter(t: Bracketing)
    ensures Evaluate(t) == Product(Leaves(t))
  {
    hide QuatMultiply;
    match t
    case Leaf(q) =>
      assert Leaves(t)[1..] == [];
      Identity(q);
    case Join(l, r) =>
      BracketingDoesNotMatter(l);
      BracketingDoesNotMatter(r);
      ProductOfConcatenation(Leaves(l), Leaves(r));
  }

  function RealProduct(xs: seq<real>): real {
    if xs == [] then 1.0 else xs[0] * RealProduct(xs[1..])
  }

  function NormsSquared(qs: seq<Quaternion4f>): seq<real> {
    seq(|qs|, i requires 0 <= i < |qs| => QuatNormSquared(qs[i]))
  }

  function ConjugatesReversed(qs: seq<Quaternion4f>): seq<Quaternion4f> {
    seq(|qs|, i requires 0 <= i < |qs| => QuatConjugate(qs[|qs| - 1 - i]))
  }

  /** The squared norm of a product is the product of the squared norms. */
  lemma {:induction false} NormOfProduct(qs: seq<Quaternion4f>)
    ensures QuatNormSquared(Product(qs)) == RealProduct(NormsSquared(qs))
  {
    hide QuatMultiply;
    if qs != [] {
      FourSquares(qs[0], Product(qs[1..]));
      NormOfProduct(qs[1..]);
      assert NormsSquared(qs)[1..] == NormsSquared(qs[1..]);
    }
  }

  /** The conjugate of a product is the product of the conjugates in reverse order. */
  lemma {:induction false} ConjugateOfProduct(qs: seq<Quaternion4f>)
    ensures QuatConjugate(Product(qs)) == Product(ConjugatesReversed(qs))
  {
    hide QuatMultiply;
    if qs == [] {
      IdentityConjugate();
    } else {
      var rest, last := ConjugatesReversed(qs[1..]), QuatConjugate(qs[0]);
      ConjugateReverses(qs[0], Product(qs[1..]));
      ConjugateOfProduct(qs[1..]);
      ProductOfConcatenation(rest, [last]);
      assert [last][1..] == [];
      Identity(last);
      assert ConjugatesReversed(qs) == rest + [last];
    }
  }

  /** The vector rotated by each member in turn, the last one first. */
  function RotateInTurn(qs: seq<Quaternion4f>, v: Vector3f): Vector3f {
    if qs == [] then v else Rotate(qs[0], RotateInTurn(qs[1..], v))
  }

  lemma {:induction false} RotateByLongProduct(qs: seq<Quaternion4f>, v: Vector3f)
    ensures Rotate(Product(qs), v) == RotateInTurn(qs, v)
  {
    hide QuatMultiply, Rotate;
    if qs == [] {
      RotateByIdentity(v);
    } else {
      RotateByProduct(qs[0], Product(qs[1..]), v);
      RotateByLongProduct(qs[1..], v);
    }
  }

  // ----- Inverse and difference -----

  /** QuatInverse is a two-sided inverse and its own inverse. */
  lemma InverseLaws(q: Quaternion4f)
    requires QuatNormSquared(q) != 0.0
    ensures QuatMultiply(q, QuatInverse(q)) == QuatIdentity() == QuatMultiply(QuatInverse(q), q)
    ensures QuatNormSquared(QuatInverse(q)) != 0.0
    ensures QuatInverse(QuatInverse(q)) == q
  {
    hide QuatMultiply;
    var n, r := QuatNormSquared(q), QuatInverse(q);
    TimesConjugate(q);
    ScaleMultiply(q, QuatConjugate(q), 1.0 / n);
    ScaleMultiply(QuatConjugate(q), q, 1.0 / n);
    assert QuatScale(Scalar(n), 1.0 / n) == QuatIdentity();
    FourSquares(q, r);
    assert QuatNormSquared(QuatIdentity()) == 1.0;
    assert QuatNormSquared(r) != 0.0;
    UniqueInverse(r, q);
  }

  lemma UniqueInverse(r: Quaternion4f, q: Quaternion4f)
    requires QuatMultiply(q, r) == QuatIdentity() && QuatNormSquared(r) != 0.0
    ensures q == QuatInverse(r)
  {
    hide QuatMultiply;
    var n, r' := QuatNormSquared(r), QuatConjugate(r);
    TimesConjugate(r);
    ScaleMultiply(r, r', 1.0 / n);
    assert QuatScale(Scalar(n), 1.0 / n) == QuatIdentity();
    Associative(q, r, QuatInverse(r));
    Identity(q);
    Identity(QuatInverse(r));
  }

  /** QuatDifference(a, b) is the one and only x with b * x == a. */
  lemma DifferenceIsUnique(a: Quaternion4f, b: Quaternion4f, x: Quaternion4f)
    requires QuatNormSquared(b) != 0.0
    ensures QuatMultiply(b, x) == a <==> x == QuatDifference(a, b)
  {
    hide QuatMultiply, QuatInverse, QuatNormSquared;
    InverseLaws(b);
    Associative(QuatInverse(b), b, x);
    Associative(b, QuatInverse(b), a);
    Identity(x);
    Identity(a);
  }

  lemma InverseOfUnit(q: Quaternion4f)
    requires IsUnitQuaternion(q)
    ensures QuatInverse(q) == QuatConjugate(q)
  {}

  /** The difference of two attitudes is an attitude, and turns the second into the first. */
  lemma DifferenceOfUnits(a: Quaternion4f, b: Quaternion4f, v: Vector3f)
    requires IsUnitQuaternion(a) && IsUnitQuaternion(b)
    ensures IsUnitQuaternion(QuatDifference(a, b))
    ensures Rotate(b, Rotate(QuatDifference(a, b), v)) == Rotate(a, v)
  {
    hide QuatMultiply, Rotate;
    InverseOfUnit(b);
    TimesConjugate(b);
    FourSquares(QuatConjugate(b), a);
    DifferenceIsUnique(a, b, QuatDifference(a, b));
    RotateByProduct(b, QuatDifference(a, b), v);
  }

  // ----- Which quaternions are the same rotation -----

  /** A unit quaternion that leaves two axes alone is the identity or its negation. */
  lemma FixesTwoAxes(q: Quaternion4f)
    requires IsUnitQuaternion(q) && Rotate(q, E1) == E1 && Rotate(q, E2) == E2
    ensures q == QuatIdentity() || q == Negate(QuatIdentity())
  {
    hide Rotate, VecDotProduct;
    RotateByRows(q, E1);
    RotateByRows(q, E2);
    DotWithAxes(Row1(q));
    DotWithAxes(Row2(q));
    OnlyRealPart(q.x, q.y, q.z, q.w);
  }

  lemma DotWithAxes(v: Vector3f)
    ensures VecDotProduct(v, E1) == v.x && VecDotProduct(v, E2) == v.y && VecDotProduct(v, E3) == v.z
  {}

  lemma OnlyRealPart(x: real, y: real, z: real, w: real)
    requires x * x + y * y + z * z + w * w == 1.0
    requires w * w + x * x - y * y - z * z == 1.0 && w * w - x * x + y * y - z * z == 1.0
    ensures x == 0.0 && y == 0.0 && z == 0.0 && (w == 1.0 || w == -1.0)
  {
    var x2, y2, z2, w2 := x * x, y * y, z * z, w * w;
    SquareSign(x, x2);
    SquareSign(y, y2);
    SquareSign(z, z2);
    UnitRoot(w, w2);
  }

  lemma UnitRoot(w: real, s: real)
    requires s == w * w && s == 1.0
    ensures w == 1.0 || w == -1.0
  {
    assert (w - 1.0) * (w + 1.0) == 0.0;
  }

  /** Two unit quaternions rotate all vectors alike exactly when they agree up to sign. */
  lemma SameRotation(p: Quaternion4f, q: Quaternion4f)
    requires IsUnitQuaternion(p) && IsUnitQuaternion(q)
    ensures (forall v :: Rotate(p, v) == Rotate(q, v)) <==> p == q || p == Negate(q)
  {
    hide QuatMultiply, Rotate, QuatDifference;
    if forall v :: Rotate(p, v) == Rotate(q, v) {
      var r := QuatDifference(p, q);
      DifferenceOfUnits(p, q, E1);
      DifferenceOfUnits(p, q, E2);
      RotateBack(q, Rotate(r, E1));
      RotateBack(q, E1);
      RotateBack(q, Rotate(r, E2));
      RotateBack(q, E2);
      FixesTwoAxes(r);
      DifferenceIsUnique(p, q, r);
      Identity(q);
      ScaleMultiply(q, QuatIdentity(), -1.0);
    } else {
      forall v ensures Rotate(Negate(q), v) == Rotate(q, v) {
        RotateByNegation(q, v);
      }
    }
  }
}
