/** Quotients of natural numbers as reals. */
module Fractions {
  function Share(part: nat, whole: nat): real
    requires whole > 0
  {
    part as real / whole as real
  }

  lemma ScaledSum(k: real, a: real, b: real)
    ensures k * (a + b) == k * a + k * b
  {
  }

  lemma ScaleMonotone(p: real, q: real, m: real)
    requires m >= 0.0
    ensures p <= q ==> p * m <= q * m
  {
  }

  /** A quotient is below another one exactly when the numerators are. */
  lemma SameDivisor(x: real, y: real, n: nat)
    requires n > 0
    ensures x / n as real < y / n as real <==> x < y
  {
  }

  /** A larger divisor makes a positive quotient smaller. */
  lemma LargerDivisor(x: real, a: nat, b: nat)
    requires x > 0.0 && 0 < a < b
    ensures x / a as real > x / b as real > 0.0
  {
    var p, q := x / a as real, x / b as real;
    assert p * a as real == x && q * b as real == x;
    assert q > 0.0;
    assert q * b as real == q * a as real + q * (b - a) as real;
    assert q * (b - a) as real > 0.0;
    ScaleMonotone(p, q, a as real);
  }

  lemma QuotientBound(x: real, n: nat)
    requires n > 0 && 0.0 <= x <= n as real
    ensures 0.0 <= x / n as real <= 1.0
    ensures x / n as real == 1.0 <==> x == n as real
    ensures x / n as real == 0.0 <==> x == 0.0
  {
    assert (x / n as real) * n as real == x;
  }
}
