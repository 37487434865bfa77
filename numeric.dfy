/**
 * `Math.round` of a quotient, as the components use it for percentages.
 * The model divides exactly; the source divides in binary floating point.
 */
module Numeric {

  /** `Math.round(p / q)`: the nearest integer, a half rounded up. */
  function RoundDiv(p: int, q: int): (r: int)
    requires q > 0
    ensures 2 * q * r <= 2 * p + q < 2 * q * (r + 1)
  {
    (2 * p + q) / (2 * q)
  }

  /** The integer that `RoundDiv` characterises is unique. */
  lemma {:induction false} RoundDivUnique(p: int, q: int, r: int)
    requires q > 0
    requires 2 * q * r <= 2 * p + q < 2 * q * (r + 1)
    ensures r == RoundDiv(p, q)
  {
    var r0 := RoundDiv(p, q);
    if r < r0 {
      assert 2 * q * (r + 1) <= 2 * q * r0 by {
        MulMonotone(2 * q, r + 1, r0);
      }
    } else if r > r0 {
      assert 2 * q * (r0 + 1) <= 2 * q * r by {
        MulMonotone(2 * q, r0 + 1, r);
      }
    }
  }

  lemma MulMonotone(k: int, a: int, b: int)
    requires k >= 0 && a <= b
    ensures k * a <= k * b
  {
  }

  /** `Math.round(part / whole * 100)`, guarded to 0 for an empty whole. */
  function Percent(part: int, whole: int): int {
    if whole == 0 then 0
    else if whole > 0 then RoundDiv(100 * part, whole)
    else RoundDiv(-100 * part, -whole)
  }

  /** A quotient between two integers rounds to an integer between them. */
  lemma {:induction false} RoundDivBetween(p: int, q: int, lo: int, hi: int)
    requires q > 0 && q * lo <= p <= q * hi
    ensures lo <= RoundDiv(p, q) <= hi
  {
    var r := RoundDiv(p, q);
    if r > hi {
      MulMonotone(2 * q, hi + 1, r);
    }
    if r < lo {
      MulMonotone(2 * q, r + 1, lo);
    }
  }

  /** A share of a whole rounds to a percentage in 0..100. */
  lemma {:induction false} PercentBounds(part: int, whole: int)
    requires 0 <= part <= whole
    ensures 0 <= Percent(part, whole) <= 100
  {
    if whole > 0 {
      var r := Percent(part, whole);
      assert 2 * whole * r <= 200 * part + whole <= 201 * whole;
      if r > 100 {
        MulMonotone(2 * whole, 101, r);
      }
      if r < 0 {
        MulMonotone(2 * whole, r + 1, 0);
      }
    }
  }

  /** The full share is 100 and the empty share 0. */
  lemma PercentEnds(whole: int)
    requires whole > 0
    ensures Percent(whole, whole) == 100 && Percent(0, whole) == 0
  {
    RoundDivUnique(100 * whole, whole, 100);
    RoundDivUnique(0, whole, 0);
  }
}
