/** Laws of the quaternion operations, for all quaternions. The polynomial identities are proved
    one coordinate at a time; everything else is algebra on whole quaternions. */
module QuaternionAlgebra {
  import opened MathLibrary
  import opened Quaternion4

  function Add(p: Quaternion4f, q: Quaternion4f): Quaternion4f {
    Quaternion4f(p.x + q.x, p.y + q.y, p.z + q.z, p.w + q.w)
  }

  function Scalar(s: real): Quaternion4f {
    Quaternion4f(0.0, 0.0, 0.0, s)
  }

  // ----- Coordinates -----

  lemma SameParts(p: Quaternion4f, q: Quaternion4f)
    requires p.x == q.x && p.y == q.y && p.z == q.z && p.w == q.w
    ensures p == q
  {}

  /** The two shapes a coordinate of a product can have: the first three, and the last. The proofs
      below hide what they are and use only the laws stated here. */
  function ThreeMinusOne(a0: real, b0: real, a1: real, b1: real, a2: real, b2: real, a3: real, b3: real): real {
    a0 * b0 + a1 * b1 + a2 * b2 - a3 * b3
  }

  function OneMinusThree(a0: real, b0: real, a1: real, b1: real, a2: real, b2: real, a3: real, b3: real): real {
    a0 * b0 - a1 * b1 - a2 * b2 - a3 * b3
  }

  /** `p` is the product of `a` and `b`, coordinate by coordinate. */
  ghost predicate IsProduct(p: Quaternion4f, a: Quaternion4f, b: Quaternion4f) {
    && p.x == ThreeMinusOne(a.w, b.x, a.x, b.w, a.y, b.z, a.z, b.y)
    && p.y == ThreeMinusOne(a.w, b.y, a.y, b.w, a.z, b.x, a.x, b.z)
    && p.z == ThreeMinusOne(a.w, b.z, a.z, b.w, a.x, b.y, a.y, b.x)
    && p.w == OneMinusThree(a.w, b.w, a.x, b.x, a.y, b.y, a.z, b.z)
  }

  lemma MultiplyIsProduct(a: Quaternion4f, b: Quaternion4f)
    ensures IsProduct(QuatMultiply(a, b), a, b)
  {
    hide QuatMultiply, ThreeMinusOne, OneMinusThree;
    MultiplyX(a, b);
    MultiplyY(a, b);
    MultiplyZ(a, b);
    MultiplyW(a, b);
  }

  lemma MultiplyX(a: Quaternion4f, b: Quaternion4f)
    ensures QuatMultiply(a, b).x == ThreeMinusOne(a.w, b.x, a.x, b.w, a.y, b.z, a.z, b.y)
  {}

  lemma MultiplyY(a: Quaternion4f, b: Quaternion4f)
    ensures QuatMultiply(a, b).y == ThreeMinusOne(a.w, b.y, a.y, b.w, a.z, b.x, a.x, b.z)
  {}

  lemma MultiplyZ(a: Quaternion4f, b: Quaternion4f)
    ensures QuatMultiply(a, b).z == ThreeMinusOne(a.w, b.z, a.z, b.w, a.x, b.y, a.y, b.x)
  {}

  lemma MultiplyW(a: Quaternion4f, b: Quaternion4f)
    ensures QuatMultiply(a, b).w == OneMinusThree(a.w, b.w, a.x, b.x, a.y, b.y, a.z, b.z)
  {}

  // ----- Associativity: both sides are the same sums of products of three coordinates -----

  /** A product of three coordinates, as an atom of such sums. */
  function Triple(a: real, b: real, c: real): real {
    a * b * c
  }

  lemma Shapes(a0: real, b0: real, a1: real, b1: real, a2: real, b2: real, a3: real, b3: real)
    ensures ThreeMinusOne(a0, b0, a1, b1, a2, b2, a3, b3)
            == Times(a0, b0) + Times(a1, b1) + Times(a2, b2) - Times(a3, b3)
    ensures OneMinusThree(a0, b0, a1, b1, a2, b2, a3, b3)
            == Times(a0, b0) - Times(a1, b1) - Times(a2, b2) - Times(a3, b3)
  {}

  lemma SumTimes(a0: real, b0: real, a1: real, b1: real, a2: real, b2: real, a3: real, b3: real, c: real)
    ensures Times(ThreeMinusOne(a0, b0, a1, b1, a2, b2, a3, b3), c)
            == Triple(a0, b0, c) + Triple(a1, b1, c) + Triple(a2, b2, c) - Triple(a3, b3, c)
    ensures Times(OneMinusThree(a0, b0, a1, b1, a2, b2, a3, b3), c)
            == Triple(a0, b0, c) - Triple(a1, b1, c) - Triple(a2, b2, c) - Triple(a3, b3, c)
  {}

  lemma TimesSum(a: real, b0: real, c0: real, b1: real, c1: real, b2: real, c2: real, b3: real, c3: real)
    ensures Times(a, ThreeMinusOne(b0, c0, b1, c1, b2, c2, b3, c3))
            == Triple(a, b0, c0) + Triple(a, b1, c1) + Triple(a, b2, c2) - Triple(a, b3, c3)
    ensures Times(a, OneMinusThree(b0, c0, b1, c1, b2, c2, b3, c3))
            == Triple(a, b0, c0) - Triple(a, b1, c1) - Triple(a, b2, c2) - Triple(a, b3, c3)
  {}

  lemma ProductTimes(p: Quaternion4f, a: Quaternion4f, b: Quaternion4f, c: real)
    requires IsProduct(p, a, b)
    ensures Times(p.x, c) == Triple(a.w, b.x, c) + Triple(a.x, b.w, c) + Triple(a.y, b.z, c) - Triple(a.z, b.y, c)
    ensures Times(p.y, c) == Triple(a.w, b.y, c) + Triple(a.y, b.w, c) + Triple(a.z, b.x, c) - Triple(a.x, b.z, c)
    ensures Times(p.z, c) == Triple(a.w, b.z, c) + Triple(a.z, b.w, c) + Triple(a.x, b.y, c) - Triple(a.y, b.x, c)
    ensures Times(p.w, c) == Triple(a.w, b.w, c) - Triple(a.x, b.x, c) - Triple(a.y, b.y, c) - Triple(a.z, b.z, c)
  {
    hide ThreeMinusOne, OneMinusThree, Times, Triple;
    SumTimes(a.w, b.x, a.x, b.w, a.y, b.z, a.z, b.y, c);
    SumTimes(a.w, b.y, a.y, b.w, a.z, b.x, a.x, b.z, c);
    SumTimes(a.w, b.z, a.z, b.w, a.x, b.y, a.y, b.x, c);
    SumTimes(a.w, b.w, a.x, b.x, a.y, b.y, a.z, b.z, c);
  }

  lemma TimesProduct(a: real, q: Quaternion4f, b: Quaternion4f, c: Quaternion4f)
    requires IsProduct(q, b, c)
    ensures Times(a, q.x) == Triple(a, b.w, c.x) + Triple(a, b.x, c.w) + Triple(a, b.y, c.z) - Triple(a, b.z, c.y)
    ensures Times(a, q.y) == Triple(a, b.w, c.y) + Triple(a, b.y, c.w) + Triple(a, b.z, c.x) - Triple(a, b.x, c.z)
    ensures Times(a, q.z) == Triple(a, b.w, c.z) + Triple(a, b.z, c.w) + Triple(a, b.x, c.y) - Triple(a, b.y, c.x)
    ensures Times(a, q.w) == Triple(a, b.w, c.w) - Triple(a, b.x, c.x) - Triple(a, b.y, c.y) - Triple(a, b.z, c.z)
  {
    hide ThreeMinusOne, OneMinusThree, Times, Triple;
    TimesSum(a, b.w, c.x, b.x, c.w, b.y, c.z, b.z, c.y);
    TimesSum(a, b.w, c.y, b.y, c.w, b.z, c.x, b.x, c.z);
    TimesSum(a, b.w, c.z, b.z, c.w, b.x, c.y, b.y, c.x);
    TimesSum(a, b.w, c.w, b.x, c.x, b.y, c.y, b.z, c.z);
  }

  lemma ProductShapes(p: Quaternion4f, a: Quaternion4f, b: Quaternion4f)
    requires IsProduct(p, a, b)
    ensures p.x == Times(a.w, b.x) + Times(a.x, b.w) + Times(a.y, b.z) - Times(a.z, b.y)
    ensures p.y == Times(a.w, b.y) + Times(a.y, b.w) + Times(a.z, b.x) - Times(a.x, b.z)
    ensures p.z == Times(a.w, b.z) + Times(a.z, b.w) + Times(a.x, b.y) - Times(a.y, b.x)
    ensures p.w == Times(a.w, b.w) - Times(a.x, b.x) - Times(a.y, b.y) - Times(a.z, b.z)
  {
    hide ThreeMinusOne, OneMinusThree, Times;
    Shapes(a.w, b.x, a.x, b.w, a.y, b.z, a.z, b.y);
    Shapes(a.w, b.y, a.y, b.w, a.z, b.x, a.x, b.z);
    Shapes(a.w, b.z, a.z, b.w, a.x, b.y, a.y, b.x);
    Shapes(a.w, b.w, a.x, b.x, a.y, b.y, a.z, b.z);
  }

  lemma AssociativeCoordinates(a: Quaternion4f, b: Quaternion4f, c: Quaternion4f,
                               p: Quaternion4f, q: Quaternion4f, r: Quaternion4f, s: Quaternion4f)
    requires IsProduct(p, a, b) && IsProduct(q, b, c) && IsProduct(r, p, c) && IsProduct(s, a, q)
    ensures r == s
  {
    hide IsProduct, Times, Triple;
    ProductShapes(r, p, c);
    ProductShapes(s, a, q);
    ProductTimes(p, a, b, c.x);
    ProductTimes(p, a, b, c.y);
    ProductTimes(p, a, b, c.z);
    ProductTimes(p, a, b, c.w);
    TimesProduct(a.x, q, b, c);
    TimesProduct(a.y, q, b, c);
    TimesProduct(a.z, q, b, c);
    TimesProduct(a.w, q, b, c);
    SameParts(r, s);
  }

  // ----- Ring laws -----

  lemma Associative(a: Quaternion4f, b: Quaternion4f, c: Quaternion4f)
    ensures QuatMultiply(QuatMultiply(a, b), c) == QuatMultiply(a, QuatMultiply(b, c))
  {
    hide QuatMultiply, IsProduct;
    var p, q := QuatMultiply(a, b), QuatMultiply(b, c);
    MultiplyIsProduct(a, b);
    MultiplyIsProduct(b, c);
    MultiplyIsProduct(p, c);
    MultiplyIsProduct(a, q);
    AssociativeCoordinates(a, b, c, p, q, QuatMultiply(p, c), QuatMultiply(a, q));
  }

  lemma Identity(q: Quaternion4f)
    ensures QuatMultiply(QuatIdentity(), q) == q == QuatMultiply(q, QuatIdentity())
  {}

  lemma IdentityConjugate()
    ensures QuatConjugate(QuatIdentity()) == QuatIdentity()
  {}

  /** Multiplication distributes over addition on both sides. */
  lemma Distributive(a: Quaternion4f, b: Quaternion4f, c: Quaternion4f)
    ensures QuatMultiply(a, Add(b, c)) == Add(QuatMultiply(a, b), QuatMultiply(a, c))
    ensures QuatMultiply(Add(b, c), a) == Add(QuatMultiply(b, a), QuatMultiply(c, a))
  {
    hide QuatMultiply, ThreeMinusOne, OneMinusThree;
    MultiplyIsProduct(a, Add(b, c));
    MultiplyIsProduct(a, b);
    MultiplyIsProduct(a, c);
    ShapesAdd(a.w, b.x, c.x, a.x, b.w, c.w, a.y, b.z, c.z, a.z, b.y, c.y);
    ShapesAdd(a.w, b.y, c.y, a.y, b.w, c.w, a.z, b.x, c.x, a.x, b.z, c.z);
    ShapesAdd(a.w, b.z, c.z, a.z, b.w, c.w, a.x, b.y, c.y, a.y, b.x, c.x);
    ShapesAdd(a.w, b.w, c.w, a.x, b.x, c.x, a.y, b.y, c.y, a.z, b.z, c.z);
    MultiplyIsProduct(Add(b, c), a);
    MultiplyIsProduct(b, a);
    MultiplyIsProduct(c, a);
    ShapesAdd(a.x, b.w, c.w, a.w, b.x, c.x, a.z, b.y, c.y, a.y, b.z, c.z);
    ShapesAdd(a.y, b.w, c.w, a.w, b.y, c.y, a.x, b.z, c.z, a.z, b.x, c.x);
    ShapesAdd(a.z, b.w, c.w, a.w, b.z, c.z, a.y, b.x, c.x, a.x, b.y, c.y);
    ShapesAdd(a.w, b.w, c.w, a.x, b.x, c.x, a.y, b.y, c.y, a.z, b.z, c.z);
  }

  /** Both shapes are additive in their right factors, and as much in their left ones. */
  lemma ShapesAdd(a0: real, b0: real, c0: real, a1: real, b1: real, c1: real,
                  a2: real, b2: real, c2: real, a3: real, b3: real, c3: real)
    ensures ThreeMinusOne(a0, b0 + c0, a1, b1 + c1, a2, b2 + c2, a3, b3 + c3)
            == ThreeMinusOne(a0, b0, a1, b1, a2, b2, a3, b3) + ThreeMinusOne(a0, c0, a1, c1, a2, c2, a3, c3)
    ensures OneMinusThree(a0, b0 + c0, a1, b1 + c1, a2, b2 + c2, a3, b3 + c3)
            == OneMinusThree(a0, b0, a1, b1, a2, b2, a3, b3) + OneMinusThree(a0, c0, a1, c1, a2, c2, a3, c3)
    ensures ThreeMinusOne(b0 + c0, a0, b1 + c1, a1, b2 + c2, a2, b3 + c3, a3)
            == ThreeMinusOne(b0, a0, b1, a1, b2, a2, b3, a3) + ThreeMinusOne(c0, a0, c1, a1, c2, a2, c3, a3)
    ensures OneMinusThree(b0 + c0, a0, b1 + c1, a1, b2 + c2, a2, b3 + c3, a3)
            == OneMinusThree(b0, a0, b1, a1, b2, a2, b3, a3) + OneMinusThree(c0, a0, c1, a1, c2, a2, c3, a3)
  {}

  /** Scalars move freely through products. */
  lemma ScaleMultiply(a: Quaternion4f, b: Quaternion4f, s: real)
    ensures QuatMultiply(QuatScale(a, s), b) == QuatScale(QuatMultiply(a, b), s)
    ensures QuatMultiply(a, QuatScale(b, s)) == QuatScale(QuatMultiply(a, b), s)
  {
    Associative(Scalar(s), a, b);
    Associative(a, Scalar(s), b);
    Associative(a, b, Scalar(s));
    ScalarCommutes(a, s);
    ScalarCommutes(b, s);
    ScalarCommutes(QuatMultiply(a, b), s);
  }

  lemma ScalarCommutes(q: Quaternion4f, s: real)
    ensures QuatMultiply(Scalar(s), q) == QuatScale(q, s) == QuatMultiply(q, Scalar(s))
  {}

  lemma ScaleScale(a: Quaternion4f, s: real, t: real)
    ensures QuatScale(QuatScale(a, s), t) == QuatScale(a, s * t)
  {}

  lemma ConjugateReverses(a: Quaternion4f, b: Quaternion4f)
    ensures QuatConjugate(QuatMultiply(a, b)) == QuatMultiply(QuatConjugate(b), QuatConjugate(a))
  {
    hide QuatMultiply, ThreeMinusOne, OneMinusThree;
    MultiplyIsProduct(a, b);
    MultiplyIsProduct(QuatConjugate(b), QuatConjugate(a));
    OppositeShapes(a.w, b.x, a.x, b.w, a.y, b.z, a.z, b.y);
    OppositeShapes(a.w, b.y, a.y, b.w, a.z, b.x, a.x, b.z);
    OppositeShapes(a.w, b.z, a.z, b.w, a.x, b.y, a.y, b.x);
    OppositeShapes(a.w, b.w, a.x, b.x, a.y, b.y, a.z, b.z);
  }

  lemma OppositeShapes(a0: real, b0: real, a1: real, b1: real, a2: real, b2: real, a3: real, b3: real)
    ensures ThreeMinusOne(b1, -a1, -b0, a0, -b3, -a3, -b2, -a2) == -ThreeMinusOne(a0, b0, a1, b1, a2, b2, a3, b3)
    ensures OneMinusThree(b0, a0, -b1, -a1, -b2, -a2, -b3, -a3) == OneMinusThree(a0, b0, a1, b1, a2, b2, a3, b3)
  {}

  lemma TimesConjugate(q: Quaternion4f)
    ensures QuatMultiply(q, QuatConjugate(q)) == Scalar(QuatNormSquared(q))
    ensures QuatMultiply(QuatConjugate(q), q) == Scalar(QuatNormSquared(q))
    ensures QuatNormSquared(QuatConjugate(q)) == QuatNormSquared(q)
    ensures QuatConjugate(QuatConjugate(q)) == q
  {}

  /** Euler's four-square identity. */
  lemma FourSquares(a: Quaternion4f, b: Quaternion4f)
    ensures QuatNormSquared(QuatMultiply(a, b)) == QuatNormSquared(a) * QuatNormSquared(b)
  {
    hide QuatMultiply;
    var a', b' := QuatConjugate(a), QuatConjugate(b);
    calc {
      Scalar(QuatNormSquared(QuatMultiply(a, b)));
      { TimesConjugate(QuatMultiply(a, b)); ConjugateReverses(a, b); }
      QuatMultiply(QuatMultiply(a, b), QuatMultiply(b', a'));
      { Associative(a, b, QuatMultiply(b', a')); Associative(b, b', a'); TimesConjugate(b); }
      QuatMultiply(a, QuatMultiply(Scalar(QuatNormSquared(b)), a'));
      { ScalarCommutes(a', QuatNormSquared(b)); ScaleMultiply(a, a', QuatNormSquared(b)); TimesConjugate(a); }
      QuatScale(Scalar(QuatNormSquared(a)), QuatNormSquared(b));
    }
  }

  lemma NormOfNegation(q: Quaternion4f)
    ensures QuatNormSquared(Negate(q)) == QuatNormSquared(q)
  {
    hide QuatMultiply;
    ScalarCommutes(q, -1.0);
    FourSquares(Scalar(-1.0), q);
  }

  lemma NormIsPositive(q: Quaternion4f)
    ensures QuatNormSquared(q) >= 0.0
    ensures q != ZERO ==> QuatNormSquared(q) > 0.0
  {
    if q != ZERO {
      assert q.x != 0.0 || q.y != 0.0 || q.z != 0.0 || q.w != 0.0;
      SumOfSquares(q.x, q.y, q.z, q.w, QuatNormSquared(q));
    }
  }

  lemma SumOfSquares(a: real, b: real, c: real, d: real, n: real)
    requires a != 0.0 || b != 0.0 || c != 0.0 || d != 0.0
    requires n == a * a + b * b + c * c + d * d
    ensures n > 0.0
  {
    var a2, b2, c2, d2 := a * a, b * b, c * c, d * d;
    SquareSign(a, a2);
    SquareSign(b, b2);
    SquareSign(c, c2);
    SquareSign(d, d2);
  }
}
