/** Facts about integer division by a positive divisor, each proved from multiplication only. */
module Arith {
  /** A positive multiple of d is at least d. */
  lemma MulAtLeastDivisor(a: int, d: int)
    requires a >= 1 && d > 0
    ensures a * d >= d
  {
    var k := a - 1;
    assert a * d == k * d + d;
    assert k * d >= 0;
  }

  /** The quotient is determined by the remainder's range: n == q * d + p with 0 <= p < d gives q == n / d. */
  lemma DivisionUnique(n: int, d: int, q: int, p: int)
    requires d > 0 && 0 <= p < d && n == q * d + p
    ensures q == n / d
  {
    var q' := n / d;
    var p' := n % d;
    assert n == q' * d + p';
    assert (q - q') * d == p' - p;
    if q > q' {
      MulAtLeastDivisor(q - q', d);
    } else if q < q' {
      MulAtLeastDivisor(q' - q, d);
    }
  }

  /** Division by a positive divisor never decreases as the dividend grows. */
  lemma DivMonotone(a: int, b: int, d: int)
    requires d > 0 && a <= b
    ensures a / d <= b / d
  {
    var qa, qb := a / d, b / d;
    assert a == qa * d + a % d && b == qb * d + b % d;
    if qa > qb {
      assert (qa - qb) * d == qa * d - qb * d;
      MulAtLeastDivisor(qa - qb, d);
    }
  }

  /** A dividend between 16 and 32 divisors has a quotient between 16 and 32. */
  lemma DivInBand(c: int, d: int)
    requires d > 0 && 16 * d <= c < 32 * d
    ensures 16 <= c / d < 32
    ensures (c / d) * d <= c < (c / d) * d + d
  {
    var q := c / d;
    assert c == q * d + c % d;
    if q < 16 {
      assert (16 - q) * d == 16 * d - q * d;
      MulAtLeastDivisor(16 - q, d);
    } else if q >= 32 {
      assert (q - 31) * d == q * d - 31 * d;
      MulAtLeastDivisor(q - 31, d);
    }
  }
}
