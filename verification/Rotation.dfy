/** Quaternions as rotations: what QuatMultiply means for the vectors of Classes/Vector3.h. */
module Rotation {
  import opened Vector3
  import opened Quaternion4
  import opened QuaternionAlgebra

  // ----- Conjugation by a fixed quaternion -----

  lemma ConjugationAdds(q: Quaternion4f, a: Quaternion4f, b: Quaternion4f)
    ensures Conjugation(q, Add(a, b)) == Add(Conjugation(q, a), Conjugation(q, b))
  {
    Distributive(q, a, b);
    Distributive(QuatConjugate(q), QuatMultiply(q, a), QuatMultiply(q, b));
  }

  lemma ConjugationScales(q: Quaternion4f, a: Quaternion4f, s: real)
    ensures Conjugation(q, QuatScale(a, s)) == QuatScale(Conjugation(q, a), s)
  {
    ScaleMultiply(q, a, s);
    ScaleMultiply(QuatMultiply(q, a), QuatConjugate(q), s);
  }

  lemma ConjugationOfScalar(q: Quaternion4f, s: real)
    ensures Conjugation(q, Scalar(s)) == Scalar(s * QuatNormSquared(q))
  {
    ScalarCommutes(q, s);
    ScaleMultiply(q, QuatConjugate(q), s);
    TimesConjugate(q);
  }

  /** A product inside the conjugation is a product outside it, up to the squared norm. */
  lemma ConjugationMultiplies(q: Quaternion4f, a: Quaternion4f, b: Quaternion4f)
    ensures QuatMultiply(Conjugation(q, a), Conjugation(q, b))
            == QuatScale(Conjugation(q, QuatMultiply(a, b)), QuatNormSquared(q))
  {
    var q', n := QuatConjugate(q), QuatNormSquared(q);
    var qa, qb := QuatMultiply(q, a), QuatMultiply(q, b);
    calc {
      QuatMultiply(QuatMultiply(qa, q'), QuatMultiply(qb, q'));
      { Associative(qa, q', QuatMultiply(qb, q')); Associative(q', qb, q'); Associative(q', q, b); }
      QuatMultiply(qa, QuatMultiply(QuatMultiply(QuatMultiply(q', q), b), q'));
      { TimesConjugate(q); ScalarCommutes(b, n); ScaleMultiply(b, q', n); }
      QuatMultiply(qa, QuatScale(QuatMultiply(b, q'), n));
      { ScaleMultiply(qa, QuatMultiply(b, q'), n); }
      QuatScale(QuatMultiply(qa, QuatMultiply(b, q')), n);
      { Associative(qa, b, q'); Associative(q, a, b); }
      QuatScale(Conjugation(q, QuatMultiply(a, b)), n);
    }
  }

  /** Conjugating a vector gives a vector: the real part stays zero. */
  lemma ConjugationIsPure(q: Quaternion4f, v: Vector3f)
    ensures Conjugation(q, Pure(v)) == Pure(Rotate(q, v))
  {
    var q', x := QuatConjugate(q), Conjugation(q, Pure(v));
    calc {
      QuatConjugate(x);
      { ConjugateReverses(QuatMultiply(q, Pure(v)), q'); ConjugateReverses(q, Pure(v)); TimesConjugate(q); }
      QuatMultiply(q, QuatMultiply(QuatConjugate(Pure(v)), q'));
      { Associative(q, QuatConjugate(Pure(v)), q'); }
      Conjugation(q, QuatConjugate(Pure(v)));
      { assert QuatConjugate(Pure(v)) == Negate(Pure(v)); ConjugationScales(q, Pure(v), -1.0); }
      Negate(x);
    }
    assert x.w == -x.w;
  }

  /** The product of two vectors as quaternions carries both of their products. */
  lemma PureProduct(u: Vector3f, v: Vector3f, c: Vector3f, s: real)
    requires c == VecCrossProduct(u, v) && s == -VecDotProduct(u, v)
    ensures QuatMultiply(Pure(u), Pure(v)) == Add(Pure(c), Scalar(s))
  {}

  lemma PureIsLinear(u: Vector3f, v: Vector3f, s: real)
    ensures Pure(VecAdd(u, v)) == Add(Pure(u), Pure(v))
    ensures Pure(VecScale(s, v)) == QuatScale(Pure(v), s)
  {}

  // ----- Rotations -----

  /** Rotating by a product is rotating by the right factor, then by the left one. */
  lemma RotateByProduct(a: Quaternion4f, b: Quaternion4f, v: Vector3f)
    ensures Rotate(QuatMultiply(a, b), v) == Rotate(a, Rotate(b, v))
  {
    var a', b', p := QuatConjugate(a), QuatConjugate(b), Pure(v);
    calc {
      Conjugation(QuatMultiply(a, b), p);
      { ConjugateReverses(a, b); Associative(a, b, p); }
      QuatMultiply(QuatMultiply(a, QuatMultiply(b, p)), QuatMultiply(b', a'));
      { Associative(QuatMultiply(a, QuatMultiply(b, p)), b', a'); Associative(a, QuatMultiply(b, p), b'); }
      Conjugation(a, Conjugation(b, p));
      { ConjugationIsPure(b, v); }
      Conjugation(a, Pure(Rotate(b, v)));
    }
  }

  /** What conjugation by any quaternion does to the two vector products. */
  lemma RotateProducts(q: Quaternion4f, u: Vector3f, v: Vector3f)
    ensures VecDotProduct(Rotate(q, u), Rotate(q, v))
            == VecDotProduct(u, v) * QuatNormSquared(q) * QuatNormSquared(q)
    ensures VecCrossProduct(Rotate(q, u), Rotate(q, v))
            == VecScale(QuatNormSquared(q), Rotate(q, VecCrossProduct(u, v)))
  {
    var n, ru, rv := QuatNormSquared(q), Rotate(q, u), Rotate(q, v);
    var c, s := VecCrossProduct(u, v), -VecDotProduct(u, v);
    var t := s * n;
    var rc, rs := VecCrossProduct(ru, rv), -VecDotProduct(ru, rv);
    calc {
      Add(Pure(rc), Scalar(rs));
      { PureProduct(ru, rv, rc, rs); ConjugationIsPure(q, u); ConjugationIsPure(q, v); }
      QuatMultiply(Conjugation(q, Pure(u)), Conjugation(q, Pure(v)));
      { ConjugationMultiplies(q, Pure(u), Pure(v)); PureProduct(u, v, c, s); }
      QuatScale(Conjugation(q, Add(Pure(c), Scalar(s))), n);
      { ConjugationOfSum(q, c, s, t); }
      QuatScale(Add(Pure(Rotate(q, c)), Scalar(t)), n);
    }
    PartsOfSum(rc, rs, Rotate(q, c), t, n);
  }

  lemma ConjugationOfSum(q: Quaternion4f, v: Vector3f, s: real, t: real)
    requires t == s * QuatNormSquared(q)
    ensures Conjugation(q, Add(Pure(v), Scalar(s))) == Add(Pure(Rotate(q, v)), Scalar(t))
  {
    ConjugationAdds(q, Pure(v), Scalar(s));
    ConjugationOfScalar(q, s);
    ConjugationIsPure(q, v);
  }

  lemma PartsOfSum(u: Vector3f, s: real, v: Vector3f, t: real, n: real)
    requires Add(Pure(u), Scalar(s)) == QuatScale(Add(Pure(v), Scalar(t)), n)
    ensures u == VecScale(n, v) && s == n * t
  {}

  /** A unit quaternion keeps lengths, angles and orientation. */
  lemma RotateIsRigid(q: Quaternion4f, u: Vector3f, v: Vector3f)
    requires IsUnitQuaternion(q)
    ensures VecDotProduct(Rotate(q, u), Rotate(q, v)) == VecDotProduct(u, v)
    ensures VecCrossProduct(Rotate(q, u), Rotate(q, v)) == Rotate(q, VecCrossProduct(u, v))
  {
    RotateProducts(q, u, v);
  }

  lemma RotateIsLinear(q: Quaternion4f, u: Vector3f, v: Vector3f, s: real)
    ensures Rotate(q, VecAdd(u, v)) == VecAdd(Rotate(q, u), Rotate(q, v))
    ensures Rotate(q, VecScale(s, v)) == VecScale(s, Rotate(q, v))
  {
    PureIsLinear(u, v, s);
    ConjugationAdds(q, Pure(u), Pure(v));
    ConjugationIsPure(q, u);
    ConjugationIsPure(q, v);
    PureIsLinear(Rotate(q, u), Rotate(q, v), s);
    ConjugationScales(q, Pure(v), s);
  }

  lemma RotateByIdentity(v: Vector3f)
    ensures Rotate(QuatIdentity(), v) == v
  {
    IdentityConjugate();
    Identity(Pure(v));
  }

  /** The conjugate of a unit quaternion undoes its rotation. */
  lemma RotateBack(q: Quaternion4f, v: Vector3f)
    requires IsUnitQuaternion(q)
    ensures Rotate(QuatConjugate(q), Rotate(q, v)) == v
    ensures Rotate(q, Rotate(QuatConjugate(q), v)) == v
  {
    TimesConjugate(q);
    assert Scalar(1.0) == QuatIdentity();
    RotateByProduct(QuatConjugate(q), q, v);
    RotateByProduct(q, QuatConjugate(q), v);
    RotateByIdentity(v);
  }

  lemma RotateByNegation(q: Quaternion4f, v: Vector3f)
    ensures Rotate(Negate(q), v) == Rotate(q, v)
  {
    var p := Pure(v);
    ScaleMultiply(q, p, -1.0);
    assert QuatConjugate(Negate(q)) == Negate(QuatConjugate(q));
    ScaleMultiply(QuatMultiply(q, p), QuatConjugate(q), -1.0);
    ScaleMultiply(QuatMultiply(q, p), Negate(QuatConjugate(q)), -1.0);
    ScaleScale(Conjugation(q, p), -1.0, -1.0);
  }
}
