/** The few facts about products and quotients of reals the proofs need. */
module Reals {
  lemma MulMonotone(x: real, y: real, a: real)
    requires x <= y && a >= 0.0
    ensures x * a <= y * a
  {
  }

  lemma SameProduct(x: real, y: real, a: real)
    requires x == y
    ensures x * a == y * a
  {
  }

  lemma ProductMonotone(a: real, b: real, x: real, y: real)
    requires 0.0 <= a <= b && 0.0 <= x <= y
    ensures 0.0 <= a * x <= b * y
  {
    MulMonotone(a, b, x);
    MulMonotone(x, y, b);
  }

  lemma QuotientMonotone(x: real, y: real, a: real)
    requires x <= y && a > 0.0
    ensures x / a <= y / a
  {
    var p, q := x / a, y / a;
    assert p * a == x && q * a == y;
    if p > q {
      MulStrict(q, p, a);
    }
  }

  lemma MulStrict(x: real, y: real, a: real)
    requires x < y && a > 0.0
    ensures x * a < y * a
  {
  }

  /** A larger divisor gives a smaller quotient. */
  lemma QuotientAntitone(c: real, a: real, b: real)
    requires c >= 0.0 && 0.0 < a <= b
    ensures c / b <= c / a
  {
    var x, y := c / a, c / b;
    assert x * a == c && y * b == c;
    assert y >= 0.0;
    if y > x {
      MulStrict(x, y, a);
      MulMonotone(a, b, y);
    }
  }

  lemma QuotientSelf(a: real)
    requires a > 0.0
    ensures a / a == 1.0
  {
  }

  lemma QuotientDifference(x: real, y: real, a: real)
    requires a != 0.0
    ensures (x - y) / a == x / a - y / a
  {
  }

  lemma QuotientNegated(x: real, a: real)
    requires a != 0.0
    ensures -x / a == -(x / a)
  {
    QuotientDifference(0.0, x, a);
  }

  lemma QuotientByNegative(x: real, y: real, a: real)
    requires x <= y && a < 0.0
    ensures x / a >= y / a
  {
    QuotientMonotone(x, y, -a);
    assert x / a == -(x / -a) && y / a == -(y / -a);
  }

  function Square(x: real): (r: real)
    ensures r >= 0.0
  {
    x * x
  }

  /** `r` is the square root of `x`. */
  ghost predicate IsRoot(r: real, x: real) {
    r >= 0.0 && Square(r) == x
  }

  lemma RootUnique(r: real, r': real, x: real)
    requires IsRoot(r, x) && IsRoot(r', x)
    ensures r == r'
  {
    if r < r' {
      SquareStrict(r, r');
    } else if r' < r {
      SquareStrict(r', r);
    }
  }

  lemma SquareStrict(x: real, y: real)
    requires 0.0 <= x < y
    ensures Square(x) < Square(y)
  {
    var d := y - x;
    assert Square(x + d) == Square(x) + 2.0 * (d * x) + d * d;
    assert d * x >= 0.0 && d * d > 0.0;
  }

  lemma SquareNegated(x: real)
    ensures Square(-x) == Square(x)
  {
  }

  lemma SquareZero(x: real)
    requires Square(x) <= 0.0
    ensures x == 0.0
  {
    if x > 0.0 {
      SquareStrict(0.0, x);
    } else if x < 0.0 {
      SquareNegated(x);
      SquareStrict(0.0, -x);
    }
  }

  lemma PositiveFactor(a: real, b: real)
    requires a > 0.0 && a * b >= 0.0
    ensures b >= 0.0
  {
    if b < 0.0 {
      MulStrict(b, 0.0, a);
    }
  }
}
