/**
 * Currency arithmetic. Balances are exact reals; the source's Python
 * floats are not modelled bit for bit.
 */
module Money {

  /** A currency amount (a Python float in the source). */
  type Amount = real

  /** Python's `int(x)` for a non-negative real: truncation, which is floor there. */
  function Trunc(x: real): (n: int)
    requires x >= 0.0
    ensures n >= 0
    ensures n as real <= x < n as real + 1.0
  {
    x.Floor
  }

  /**
   * `round(x, 2)`: round to the nearest cent, a tie going to the even cent
   * (Python's rounding mode).
   */
  function Round2(x: real): (r: real)
    ensures x >= 0.0 ==> r >= 0.0
    ensures -0.005 <= r - x <= 0.005
    ensures (r * 100.0).Floor as real == r * 100.0
  {
    var scaled := x * 100.0;
    var n := scaled.Floor;
    var frac := scaled - n as real;
    var cents := if frac > 0.5 then n + 1
                 else if frac < 0.5 then n
                 else if n % 2 == 0 then n else n + 1;
    cents as real / 100.0
  }

  /** `b ** e` for a natural exponent. */
  function Pow(b: real, e: nat): real
  {
    if e == 0 then 1.0 else b * Pow(b, e - 1)
  }

  /** A base of at least one raised to any power is at least one. */
  lemma {:induction false} PowAtLeastOne(b: real, e: nat)
    requires b >= 1.0
    ensures Pow(b, e) >= 1.0
  {
    if e > 0 {
      PowAtLeastOne(b, e - 1);
      assert b * Pow(b, e - 1) >= Pow(b, e - 1) by {
        assert (b - 1.0) * Pow(b, e - 1) >= 0.0;
      }
    }
  }

  /** Raising the real by one unit raises its floor by at least one. */
  lemma FloorStep(x: real, y: real)
    requires y >= x + 1.0
    ensures y.Floor > x.Floor
  {
  }
}
