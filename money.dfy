/**
 * Fixed-point arithmetic behind `decimal.Round(x, 2)`.
 *
 * A .NET `decimal` is a mantissa scaled by a power of ten; `Decimal(m, s)` stands for
 * m / 10^s. Rounding to two places yields whole cents and, as `decimal.Round` does by
 * default, breaks ties towards the even neighbour (banker's rounding).
 */
module Money {

  datatype Decimal = Decimal(mantissa: int, scale: nat) {
    /** `x > 0` (the sign of the value is the sign of its mantissa). */
    predicate IsPositive() {
      mantissa > 0
    }
  }

  function Pow10(n: nat): (r: nat)
    ensures r >= 1
  {
    if n == 0 then 1 else 10 * Pow10(n - 1)
  }

  /**
   * m / unit rounded to the nearest integer, ties to even. With q the floor of the
   * quotient and rem the remainder, the result stays at q below the midpoint, moves
   * up to q + 1 above it, and on the midpoint takes whichever of the two is even.
   */
  function RoundHalfEven(m: int, unit: nat): (r: int)
    requires unit > 0
    ensures 2 * (m % unit) < unit ==> r == m / unit
    ensures 2 * (m % unit) > unit ==> r == m / unit + 1
    ensures 2 * (m % unit) == unit ==> (r == m / unit || r == m / unit + 1) && r % 2 == 0
  {
    var q, rem := m / unit, m % unit;
    if 2 * rem < unit then q
    else if 2 * rem > unit then q + 1
    else if q % 2 == 0 then q
    else q + 1
  }

  /** The rounded quotient is within half a unit of the exact one. */
  lemma RoundHalfEvenIsNearest(m: int, unit: nat)
    requires unit > 0
    ensures var r := RoundHalfEven(m, unit);
      -(unit as int) <= 2 * (m - r * unit) <= unit
  {
    var q, rem := m / unit, m % unit;
    var r := RoundHalfEven(m, unit);
    assert m == q * unit + rem;
    if r == q {
      assert m - r * unit == rem;
    } else {
      assert r * unit == q * unit + unit;
      assert m - r * unit == rem - unit;
    }
  }

  /** `decimal.Round(x, 2)`, as a whole number of cents. */
  function RoundToHundredths(x: Decimal): (cents: int)
  {
    if x.scale <= 2 then x.mantissa * Pow10(2 - x.scale)
    else RoundHalfEven(x.mantissa, Pow10(x.scale - 2))
  }

  /** Rounding never turns a positive amount negative (but may turn it into zero). */
  lemma RoundToHundredthsOfPositive(x: Decimal)
    requires x.IsPositive()
    ensures RoundToHundredths(x) >= 0
  {
    if x.scale > 2 {
      var unit := Pow10(x.scale - 2);
      assert x.mantissa / unit >= 0;
    } else {
      var k := Pow10(2 - x.scale);
      assert x.mantissa * k >= 0;
    }
  }

  /**
   * Amounts with at most two decimal places are kept exactly: m / 10^s becomes
   * m * 10^(2 - s) cents.
   */
  lemma RoundToHundredthsExact(x: Decimal)
    requires x.scale <= 2
    ensures RoundToHundredths(x) * Pow10(x.scale) == x.mantissa * 100
  {
    var k := Pow10(2 - x.scale);
    if x.scale == 0 {
      assert k == 100;
    } else if x.scale == 1 {
      assert k == 10 && Pow10(1) == 10;
    } else {
      assert k == 1 && Pow10(2) == 100;
    }
  }

  /** 0.004 passes a `> 0` check and still rounds to 0.00; 0.125 and 0.135 round to the even cent. */
  lemma RoundToHundredthsExamples()
    ensures Decimal(4, 3).IsPositive() && RoundToHundredths(Decimal(4, 3)) == 0
    ensures RoundToHundredths(Decimal(125, 3)) == 12
    ensures RoundToHundredths(Decimal(135, 3)) == 14
    ensures RoundToHundredths(Decimal(12000, 0)) == 1200000
  {
    assert Pow10(1) == 10;
    assert Pow10(2) == 100;
  }
}
