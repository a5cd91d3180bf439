/** Decimal rounding as decimal.js and PostgreSQL `numeric` do it: to the nearest, halves away from zero. */
module Rounding {

  function RoundHalfUp(x: real): (r: int)
    ensures x >= 0.0 ==> r as real - 0.5 <= x < r as real + 0.5
    ensures x <= 0.0 ==> r as real - 0.5 < x <= r as real + 0.5
  {
    if x >= 0.0 then (x + 0.5).Floor else -((-x + 0.5).Floor)
  }

  lemma RoundWhole(n: int)
    ensures RoundHalfUp(n as real) == n
  {
  }

  /** Values at least one apart never round to the same number. */
  lemma RoundApart(x: real, y: real)
    requires 0.0 <= x && x + 1.0 <= y
    ensures RoundHalfUp(x) < RoundHalfUp(y)
  {
  }

  /** Rounding a non-negative fraction, in whole numbers. */
  lemma RoundFraction(n: nat, d: nat, r: int)
    requires d > 0
    ensures r == RoundHalfUp(n as real / d as real) <==> 2 * d * r - d <= 2 * n < 2 * d * r + d
  {
    var x := n as real / d as real;
    assert n as real == x * d as real;
    forall q: int
      ensures q as real - 0.5 <= x <==> 2 * d * q - d <= 2 * n
      ensures x < q as real + 0.5 <==> 2 * n < 2 * d * q + d
    {
      ScaledBound(x, n, d, q);
    }
    var q := RoundHalfUp(x);
    assert 2 * d * q - d <= 2 * n < 2 * d * q + d;
  }

  lemma ScaledBound(x: real, n: nat, d: nat, q: int)
    requires d > 0 && n as real == x * d as real
    ensures q as real - 0.5 <= x <==> 2 * d * q - d <= 2 * n
    ensures x < q as real + 0.5 <==> 2 * n < 2 * d * q + d
  {
    var k, dq := d as real, d * q;
    assert dq as real == q as real * k by { WholeProduct(q, d); }
    HalfStep(x, q as real, -0.5, k, n as real, dq as real);
    HalfStep(x, q as real, 0.5, k, n as real, dq as real);
    assert 2 * d * q == 2 * dq;
  }

  lemma WholeProduct(a: int, b: int)
    ensures (a * b) as real == a as real * b as real
  {
  }

  lemma HalfStep(x: real, q: real, h: real, k: real, xk: real, qk: real)
    requires k > 0.0 && xk == x * k && qk == q * k
    ensures x < q + h <==> xk < qk + h * k
  {
    var y := q + h;
    assert y * k == qk + h * k;
    if x < y { ScaleStrict(x, y, k); } else { ScaleMonotone(y, x, k); }
  }

  lemma ScaleMonotone(x: real, y: real, k: real)
    requires x <= y && k >= 0.0
    ensures x * k <= y * k
  {
  }

  lemma ScaleStrict(x: real, y: real, k: real)
    requires x < y && k > 0.0
    ensures x * k < y * k
  {
  }

  function Pow10(n: nat): nat {
    if n == 0 then 1 else 10 * Pow10(n - 1)
  }

  lemma {:induction false} Pow10Positive(n: nat)
    ensures Pow10(n) >= 1
  {
    if n > 0 { Pow10Positive(n - 1); }
  }
}
