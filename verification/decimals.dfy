/**
  Fixed-scale amounts. Every balance is an integer count of 10^-4 units;
  a transaction amount keeps whatever scale it arrived with until an
  account operation rescales it to DECIMAL_SCALE.
 */
module Decimals {
  import opened Types

  /** The number of decimals tracked for all balances. */
  const DECIMAL_SCALE: nat := 4

  function Pow10(n: nat): (p: nat)
    ensures p >= 1
  {
    if n == 0 then 1 else 10 * Pow10(n - 1)
  }

  lemma {:induction false} Pow10Add(a: nat, b: nat)
    ensures Pow10(a + b) == Pow10(a) * Pow10(b)
  {
    if a > 0 {
      Pow10Add(a - 1, b);
      assert Pow10(a + b) == 10 * Pow10(a - 1 + b);
    }
  }

  /**
    Divides m by p, rounding to the nearest integer and ties away from
    zero. The result is within half a step of the exact quotient.
   */
  function RoundToNearest(m: int, p: int): (q: int)
    requires p >= 1
    ensures -p <= 2 * (q * p - m) <= p
    ensures m >= 0 ==> q >= 0
    ensures m < 0 ==> q <= 0
  {
    if m >= 0 then
      var q := (m + p / 2) / p;
      DivisionBounds(m + p / 2, p);
      q
    else
      var q := (-m + p / 2) / p;
      DivisionBounds(-m + p / 2, p);
      -q
  }

  lemma DivisionBounds(n: int, p: int)
    requires p >= 1
    ensures (n / p) * p <= n < (n / p) * p + p
  {
    assert n == (n / p) * p + n % p;
  }

  /**
    The amount in counts of 10^-DECIMAL_SCALE: exact when the amount has
    at most DECIMAL_SCALE decimals, rounded to the nearest count otherwise.
    (Which way ties go is a detail of the decimal library this model does
    not commit to; no property below depends on it.)
   */
  function Rescale(d: Decimal): (r: int)
    ensures d.mantissa >= 0 ==> r >= 0
    ensures d.mantissa < 0 ==> r <= 0
  {
    if d.scale <= DECIMAL_SCALE then d.mantissa * Pow10(DECIMAL_SCALE - d.scale)
    else RoundToNearest(d.mantissa, Pow10(d.scale - DECIMAL_SCALE))
  }

  /** An amount with at most DECIMAL_SCALE decimals keeps its exact value. */
  lemma RescaleIsExact(d: Decimal)
    requires d.scale <= DECIMAL_SCALE
    ensures Rescale(d) * Pow10(d.scale) == d.mantissa * Pow10(DECIMAL_SCALE)
  {
    Pow10Add(DECIMAL_SCALE - d.scale, d.scale);
    calc {
      Rescale(d) * Pow10(d.scale);
      (d.mantissa * Pow10(DECIMAL_SCALE - d.scale)) * Pow10(d.scale);
      d.mantissa * (Pow10(DECIMAL_SCALE - d.scale) * Pow10(d.scale));
    }
  }

  /** An amount with more decimals is rounded to within half a count. */
  lemma RescaleIsNearest(d: Decimal)
    requires d.scale > DECIMAL_SCALE
    ensures var step: int := Pow10(d.scale - DECIMAL_SCALE);
      -step <= 2 * (Rescale(d) * step - d.mantissa) <= step
  {
  }

  /** An amount already at DECIMAL_SCALE is left as it is. */
  lemma RescaleAtScaleIsIdentity(m: int)
    ensures Rescale(Decimal(m, DECIMAL_SCALE)) == m
  {
  }

  /** Rescaling twice is the same as rescaling once. */
  lemma RescaleIdempotent(d: Decimal)
    ensures Rescale(Decimal(Rescale(d), DECIMAL_SCALE)) == Rescale(d)
  {
    RescaleAtScaleIsIdentity(Rescale(d));
  }
}
