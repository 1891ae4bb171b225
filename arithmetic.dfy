/** Facts about integer division and real floors, shared by the damage formula and the average column. */
module Arithmetic {

  /** For a positive integer denominator, the floor of a real quotient is integer division. */
  lemma FloorOfQuotient(p: int, q: int)
    requires q > 0
    ensures (p as real / q as real).Floor == p / q
  {
    var k, rem := p / q, p % q;
    assert p == k * q + rem && 0 <= rem < q;
    var x := p as real / q as real;
    assert x * q as real == p as real;
    assert (k as real) * q as real <= p as real < (k + 1) as real * q as real;
    assert k as real <= x < (k + 1) as real;
  }

  /** Cancelling a positive factor on both sides of an inequality. */
  lemma CancelPositive(a: int, b: int, c: int)
    requires c > 0 && a * c <= b * c
    ensures a <= b
  {
  }

  /** Cancelling a non-zero real factor from an equation. */
  lemma CancelNonZero(a: real, b: real, c: real)
    requires c != 0.0 && a * c == b * c
    ensures a == b
  {
    assert (a - b) * c == 0.0;
  }

  lemma MulMonotone(x: int, y: int, d: int)
    requires x <= y && d > 0
    ensures x * d <= y * d
  {
  }

  /** Integer division with positive divisors is monotone in the rational value p/q. */
  lemma DivMonotone(p1: int, q1: int, p2: int, q2: int)
    requires q1 > 0 && q2 > 0
    requires p1 * q2 <= p2 * q1
    ensures p1 / q1 <= p2 / q2
  {
    var k, j := p1 / q1, p2 / q2;
    assert k * q1 <= p1 by {
      assert p1 == k * q1 + p1 % q1;
    }
    assert p2 < (j + 1) * q2 by {
      assert p2 == j * q2 + p2 % q2;
      assert (j + 1) * q2 == j * q2 + q2;
    }
    MulMonotone(k * q1, p1, q2);
    assert (k * q1) * q2 == (k * q2) * q1;
    CancelPositive(k * q2, p2, q1);
    CancelStrict(k, j + 1, q2);
  }

  /** Cancelling a positive factor on both sides of a strict inequality. */
  lemma CancelStrict(a: int, b: int, c: int)
    requires c > 0 && a * c < b * c
    ensures a < b
  {
  }

  /** The quotient is the only a with a * d <= p < (a + 1) * d. */
  lemma DivUnique(p: int, d: int, a: int)
    requires d > 0 && a * d <= p < (a + 1) * d
    ensures p / d == a
  {
    var q := p / d;
    assert q * d <= p < (q + 1) * d;
    if q < a {
      MulMonotone(q + 1, a, d);
    } else if q > a {
      MulMonotone(a + 1, q, d);
    }
  }
}
