/** The C mathematics library as the quaternion code sees it: five functions about which nothing
    is known except the laws below. Single precision is modelled by the reals. */
module MathLibrary {

  datatype Libm = Libm(
    sqrt: real -> real,
    sin: real -> real,
    cos: real -> real,
    asin: real -> real,
    atan2: (real, real) -> real)
  {
    /** `sqrt` is the non-negative root of every non-negative argument. */
    ghost predicate LawfulSqrt() {
      forall x: real :: x >= 0.0 ==> sqrt(x) >= 0.0 && sqrt(x) * sqrt(x) == x
    }

    /** `asin` inverts `sin` and lands where `cos` is not negative; `atan2` is the direction of
        a point, so scaling its sine and cosine by the distance gives the point back, and the
        origin is given direction zero. */
    ghost predicate LawfulTrig() {
      && sin(0.0) == 0.0 && cos(0.0) == 1.0 && atan2(0.0, 0.0) == 0.0
      && (forall a: real :: sin(a) * sin(a) + cos(a) * cos(a) == 1.0)
      && (forall s: real :: -1.0 <= s <= 1.0 ==> sin(asin(s)) == s && cos(asin(s)) >= 0.0)
      && (forall y: real, x: real, r: real {:trigger atan2(y, x), IsLength(r, x, y)} ::
            IsLength(r, x, y) ==> r * sin(atan2(y, x)) == y && r * cos(atan2(y, x)) == x)
    }

    ghost predicate Lawful() {
      LawfulSqrt() && LawfulTrig()
    }
  }

  /** `r` is the distance of the point (x, y) from the origin. */
  ghost predicate IsLength(r: real, x: real, y: real) {
    r >= 0.0 && r * r == x * x + y * y
  }

  // ----- Facts about real products, each small enough for the solver -----

  /** A product as an atom: proofs about sums of products hide what it is. */
  function Times(a: real, b: real): real {
    a * b
  }

  /** A product as an opaque fact that lemmas can hand to each other. */
  ghost predicate IsTimes(p: real, a: real, b: real) {
    p == a * b
  }

  lemma PositiveProduct(a: real, b: real, p: real)
    requires a > 0.0 && b > 0.0 && p == a * b
    ensures p > 0.0
  {}

  lemma SquareSign(a: real, s: real)
    requires s == a * a
    ensures s >= 0.0
    ensures a != 0.0 ==> s > 0.0
  {
    if a > 0.0 {
      PositiveProduct(a, a, s);
    } else if a < 0.0 {
      var b := -a;
      assert b * b == s;
      PositiveProduct(b, b, s);
    }
  }

  lemma SquaresIncrease(a: real, b: real)
    requires 0.0 <= a < b
    ensures a * a < b * b
  {
    var p := b * b - a * a;
    assert p == (b - a) * (b + a);
    PositiveProduct(b - a, b + a, p);
  }

  /** Non-negative reals with the same square are the same. */
  lemma SquaresDetermine(a: real, b: real)
    requires a >= 0.0 && b >= 0.0 && a * a == b * b
    ensures a == b
  {
    if a < b {
      SquaresIncrease(a, b);
    } else if b < a {
      SquaresIncrease(b, a);
    }
  }
}
