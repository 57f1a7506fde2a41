/**
 * Facts about real multiplication and division that the solver does not
 * find on its own, and the square root that the geometry calls into. Each
 * fact is stated on plain reals, in the shape in which the geometry
 * modules use it.
 */
module RealArith {

  /**
   * `r` is the value `Math.sqrt(s)` returns: the non-negative root of `s`.
   * The square root itself is not computed here; operations that call it
   * receive its result as an argument constrained by this predicate.
   */
  predicate IsSqrt(r: real, s: real) {
    r >= 0.0 && r * r == s
  }

  lemma ProductNonNegative(a: real, b: real)
    requires a >= 0.0 && b >= 0.0
    ensures a * b >= 0.0
  {
  }

  lemma SquareNonNegative(a: real)
    ensures a * a >= 0.0
  {
    if a >= 0.0 {
      ProductNonNegative(a, a);
    } else {
      ProductNonNegative(-a, -a);
      assert (-a) * (-a) == a * a;
    }
  }

  lemma SquarePositive(a: real)
    requires a != 0.0
    ensures a * a > 0.0
  {
  }

  lemma SumOfSquaresNonNegative(a: real, b: real)
    ensures a * a + b * b >= 0.0
  {
    SquareNonNegative(a);
    SquareNonNegative(b);
  }

  /** A sum of two squares is positive unless both terms vanish. */
  lemma SumOfSquaresPositive(a: real, b: real)
    requires a != 0.0 || b != 0.0
    ensures a * a + b * b > 0.0
  {
    SquareNonNegative(a);
    SquareNonNegative(b);
    if a != 0.0 {
      calc {
        a * a + b * b;
      >= a * a;
      > { SquarePositive(a); }
        0.0;
      }
    } else {
      calc {
        a * a + b * b;
      >= b * b;
      > { SquarePositive(b); }
        0.0;
      }
    }
  }

  /** Lagrange's identity for two terms: (ac + bd)² + (ad - bc)² = (a² + b²)(c² + d²). */
  lemma LagrangeIdentity(a: real, b: real, c: real, d: real)
    ensures (a * c + b * d) * (a * c + b * d) + (a * d - b * c) * (a * d - b * c)
         == (a * a + b * b) * (c * c + d * d)
  {
  }

  /** Math.sqrt is a function: a non-negative root is unique. */
  lemma SqrtUnique(r: real, t: real, s: real)
    requires IsSqrt(r, s) && IsSqrt(t, s)
    ensures r == t
  {
    if r + t != 0.0 {
      calc {
        r - t;
      == (r - t) * (r + t) / (r + t);
      == (r * r - t * t) / (r + t);
      == 0.0;
      }
    }
  }

  /** The root is zero exactly when its square is. */
  lemma SqrtZero(r: real, s: real)
    requires IsSqrt(r, s)
    ensures r == 0.0 <==> s == 0.0
  {
    if r != 0.0 {
      calc {
        s;
      == r * r;
      > { SquarePositive(r); }
        0.0;
      }
    }
  }

  /** Multiplying by `c` and then by `1/c` is the identity. */
  lemma ScaleRoundTrip(a: real, c: real)
    requires c != 0.0
    ensures a * c * (1.0 / c) == a
  {
    assert c * (1.0 / c) == 1.0;
    assert a * c * (1.0 / c) == a * (c * (1.0 / c));
  }

  /** A quotient of two non-zero reals is non-zero. */
  lemma QuotientNonZero(a: real, b: real)
    requires a != 0.0 && b != 0.0
    ensures a / b != 0.0
  {
    assert a / b * b == a;
  }

  /** Multiplying by `a / l` and then by `l` is the identity. */
  lemma MulDivCancel(a: real, l: real)
    requires l != 0.0
    ensures l * (a / l) == a
  {
  }

  /** The square of a scaled pair, factored. */
  lemma ScaledSquares(d: real, x: real, y: real)
    ensures (d * x) * (d * x) + (d * y) * (d * y) == d * d * (x * x + y * y)
  {
  }

  lemma ProductNonZero(a: real, b: real)
    requires a != 0.0 && b != 0.0
    ensures a * b != 0.0
  {
    if a > 0.0 && b > 0.0 {
      assert a * b > 0.0;
    } else if a > 0.0 {
      assert a * b < 0.0;
    } else if b > 0.0 {
      assert a * b < 0.0;
    } else {
      assert a * b > 0.0;
    }
  }

  lemma SquareTimesNonZero(l: real, x: real)
    requires l != 0.0 && x != 0.0
    ensures l * l * x != 0.0
  {
    if x > 0.0 {
      assert l * l * x > 0.0;
    } else {
      assert l * l * x < 0.0;
    }
  }

  /** Dividing both coordinates of a pair by the root of its squared length gives squared length 1. */
  lemma QuotientSquares(a: real, b: real, l: real)
    requires l != 0.0 && l * l == a * a + b * b
    ensures (a / l) * (a / l) + (b / l) * (b / l) == 1.0
  {
    var p, q := a / l, b / l;
    MulDivCancel(a, l);
    MulDivCancel(b, l);
    var x := p * p + q * q - 1.0;
    calc {
      l * l * x;
    == l * l * (p * p + q * q) - l * l;
    == (l * p) * (l * p) + (l * q) * (l * q) - l * l;
    == a * a + b * b - l * l;
    == 0.0;
    }
    if x != 0.0 {
      calc {
        0.0;
      == l * l * x;
      != { SquareTimesNonZero(l, x); }
        0.0;
      }
    }
  }

  /** Two parallel vectors `(a, b)` and `d (a, b) / l` have zero cross product. */
  lemma CrossOfQuotients(a: real, b: real, d: real, l: real)
    requires l != 0.0
    ensures a * (d * (b / l)) - b * (d * (a / l)) == 0.0
  {
    var p, q := a / l, b / l;
    assert a == p * l && b == q * l;
    calc {
      a * (d * q) - b * (d * p);
    == (p * l) * (d * q) - (q * l) * (d * p);
    == 0.0;
    }
  }
}
