/** Money arithmetic of the optimizer.

    Every amount is a whole number of cents (100.00 is 10000). For amounts
    with at most two fractional digits, BigDecimal's HALF_UP rounding to two
    fractional digits becomes integer division with a bias of half a unit. */
module Money {

  /** `calcDiscount`: `value * percent / 100`, rounded half-up to whole cents.
      The result is the nearest cent to the exact discount, a tie going up. */
  function Discount(value: int, percent: nat): (d: int)
    requires value >= 0
    ensures 100 * d - 50 <= value * percent < 100 * d + 50
    ensures 0 <= d
    ensures percent <= 100 ==> d <= value
  {
    (value * percent + 50) / 100
  }

  /** `calcTenPercent`: a tenth of `value`, rounded half-up to whole cents.
      It is always the 10% discount, and never more than the value. */
  function TenPercent(value: int): (t: int)
    requires value >= 0
    ensures t == Discount(value, 10)
    ensures 0 <= t <= value
  {
    (value + 5) / 10
  }

  /** `BigDecimal.min`: the smaller of the two, the first on a tie. */
  function Min(a: int, b: int): (m: int)
    ensures m <= a && m <= b
    ensures m == a || m == b
  {
    if a <= b then a else b
  }
}
