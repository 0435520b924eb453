/** The integer rounding operations the screens apply to ratios of whole numbers. */
module Rounding {

  function Min(a: int, b: int): (r: int)
    ensures r <= a && r <= b && (r == a || r == b)
  {
    if a <= b then a else b
  }

  function Max(a: int, b: int): (r: int)
    ensures r >= a && r >= b && (r == a || r == b)
  {
    if a >= b then a else b
  }

  /** `Math.floor(p / q)` for a positive divisor: the largest r with q*r <= p. */
  function FloorDiv(p: int, q: int): (r: int)
    requires q > 0
    ensures q * r <= p < q * r + q
  {
    p / q
  }

  /**
   * `Math.round(p / q)` for a positive divisor: the nearest integer to p/q,
   * with halves going up (towards positive infinity, as JavaScript rounds).
   */
  function RoundDiv(p: int, q: int): (r: int)
    requires q > 0
    ensures 2 * q * r - q <= 2 * p < 2 * q * r + q
  {
    var r := (2 * p + q) / (2 * q);
    assert 2 * q * r <= 2 * p + q < 2 * q * r + 2 * q;
    r
  }

  /** Rounding a ratio of non-negative numbers stays within the bounds of the ratio's floor and ceiling. */
  lemma RoundDivBounds(p: int, q: int, hi: int)
    requires q > 0 && 0 <= p <= q * hi
    ensures 0 <= RoundDiv(p, q) <= hi
  {
    var r := RoundDiv(p, q);
    assert 2 * p < 2 * q * r + q;
    assert 2 * q * r - q <= 2 * p;
    assert q * (2 * r + 1) == 2 * q * r + q;
    assert q * (2 * r - 2 * hi - 1) == 2 * q * r - q - 2 * (q * hi);
    PositiveFactor(q, 2 * r + 1);
    NegativeFactor(q, 2 * r - 2 * hi - 1);
  }

  lemma PositiveFactor(q: int, x: int)
    requires q > 0 && q * x > 0
    ensures x > 0
  {
  }

  lemma NegativeFactor(q: int, x: int)
    requires q > 0 && q * x < 0
    ensures x < 0
  {
  }

  /** A whole ratio rounds to itself. */
  lemma RoundDivWhole(k: int, q: int)
    requires q > 0
    ensures RoundDiv(q * k, q) == k
  {
    var r := RoundDiv(q * k, q);
    assert q * (2 * k - 2 * r - 1) == 2 * (q * k) - 2 * q * r - q;
    assert q * (2 * r - 2 * k - 1) == 2 * q * r - q - 2 * (q * k);
    NegativeFactor(q, 2 * k - 2 * r - 1);
    NonPositiveFactor(q, 2 * r - 2 * k - 1);
  }

  lemma NonPositiveFactor(q: int, x: int)
    requires q > 0 && q * x <= 0
    ensures x <= 0
  {
  }
}
