/** Facts about real multiplication and division that the solver does not find by itself. */
module RealArith {

  lemma ProductNonNegative(a: real, b: real)
    requires a >= 0.0 && b >= 0.0
    ensures a * b >= 0.0
  {
  }

  lemma ProductPositive(a: real, b: real)
    requires a > 0.0 && b > 0.0
    ensures a * b > 0.0
  {
  }

  /** With a positive factor, a product has the sign of the other factor. */
  lemma SignOfProduct(a: real, b: real)
    requires b > 0.0
    ensures a <= 0.0 <==> a * b <= 0.0
  {
    if a > 0.0 {
      ProductPositive(a, b);
    } else {
      assert (-a) * b >= 0.0;
    }
  }

  lemma ZeroFactor(a: real, b: real)
    requires b != 0.0 && a * b == 0.0
    ensures a == 0.0
  {
  }

  /** Dividing by a positive amount preserves a lower bound: `x / d >= t` exactly when `x >= t * d`. */
  lemma RatioAtLeast(x: real, d: real, t: real)
    requires d > 0.0
    ensures x / d >= t <==> x >= t * d
  {
    var q := x / d;
    assert q * d == x;
    assert q * d - t * d == (q - t) * d;
    if q >= t {
      ProductNonNegative(q - t, d);
    } else {
      ProductPositive(t - q, d);
    }
  }
}
