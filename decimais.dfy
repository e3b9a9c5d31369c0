/**
 * Exact decimal arithmetic over integers. Amounts of money are integer cents
 * (every BigDecimal column of the model has scale 2); percentages are integer
 * hundredths of a percent.
 */
module Decimais {

  function Abs(x: int): (r: nat)
    ensures r == x || r == -x
  {
    if x < 0 then -x else x
  }

  /**
   * Half-up rounding of a / b for a non-negative numerator: the unique q with
   * q - 1/2 <= a / b < q + 1/2, so that a tie goes up.
   */
  function MeioAcima(a: nat, b: nat): (q: nat)
    requires b > 0
    ensures (2 * q - 1) * b <= 2 * a < (2 * q + 1) * b
  {
    var q := (2 * a + b) / (2 * b);
    var m := (2 * a + b) % (2 * b);
    assert 2 * a + b == q * (2 * b) + m && 0 <= m < 2 * b;
    assert (2 * q - 1) * b == 2 * q * b - b && (2 * q + 1) * b == 2 * q * b + b;
    q
  }

  /**
   * BigDecimal.divide(divisor, scale, ROUND_HALF_UP) on the integer level:
   * the magnitude is rounded half-up and the sign is that of n / d, so a
   * tie rounds away from zero.
   */
  function ArredondaMeioAcima(n: int, d: int): (r: int)
    requires d != 0
    ensures Abs(r) == MeioAcima(Abs(n), Abs(d))
    ensures (n < 0) == (d < 0) ==> r >= 0
    ensures (n < 0) != (d < 0) ==> r <= 0
  {
    var q: int := MeioAcima(Abs(n), Abs(d));
    if (n < 0) == (d < 0) then q else -q
  }

  lemma MultMonotona(a: nat, b: int, c: int)
    requires b <= c
    ensures a * b <= a * c
  {
    var k := c - b;
    assert a * c == a * b + a * k;
  }

  /** Sale discount: subtotal x percentage / 100, rounded half-up to cents. */
  function DescontoDe(subtotal: int, percentual: int): int
  {
    ArredondaMeioAcima(subtotal * percentual, 10000)
  }

  /**
   * With a non-negative subtotal and a percentage in [0%, 100%], the discount
   * lies between zero and the subtotal, so the total never goes negative.
   */
  lemma DescontoLimitado(subtotal: int, percentual: int)
    requires subtotal >= 0 && 0 <= percentual <= 10000
    ensures 0 <= DescontoDe(subtotal, percentual) <= subtotal
  {
    MultMonotona(subtotal, percentual, 10000);
    MultMonotona(subtotal, 0, percentual);
    var p := subtotal * percentual;
    var r := MeioAcima(p, 10000);
    assert (2 * r - 1) * 10000 <= 2 * p <= 2 * subtotal * 10000;
  }
}
