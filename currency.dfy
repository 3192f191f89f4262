/** `calculateDiscount` (src/lib/utils/currency.ts): the price left after a discount. */
module Currency {

  datatype DiscountKind = Percent | Amount

  /**
   * A percentage takes `value` percent off; an amount takes `value` off and never
   * goes below zero.
   */
  function CalculateDiscount(price: real, value: real, kind: DiscountKind): (r: real)
    ensures kind == Percent ==> r == price - price * value / 100.0
    ensures kind == Amount ==> r >= 0.0 && r >= price - value
    ensures kind == Amount && value <= price ==> r == price - value
    ensures kind == Amount && value > price ==> r == 0.0
    ensures kind == Amount && value >= 0.0 && price >= 0.0 ==> r <= price
  {
    if kind == Percent then price * (1.0 - value / 100.0)
    else if price - value >= 0.0 then price - value else 0.0
  }

  /** The two ends of the percentage scale: 0% keeps the price, 100% makes it free. */
  lemma PercentEnds(price: real)
    ensures CalculateDiscount(price, 0.0, Percent) == price
    ensures CalculateDiscount(price, 100.0, Percent) == 0.0
  {
  }

  /** A larger percentage never leaves more to pay on a non-negative price. */
  lemma PercentMonotone(price: real, v1: real, v2: real)
    requires price >= 0.0 && v1 <= v2
    ensures CalculateDiscount(price, v2, Percent) <= CalculateDiscount(price, v1, Percent)
  {
    assert price * v2 - price * v1 == price * (v2 - v1);
    assert price * (v2 - v1) >= 0.0;
    assert CalculateDiscount(price, v2, Percent) == price - price * v2 / 100.0;
    assert CalculateDiscount(price, v1, Percent) == price - price * v1 / 100.0;
  }
}
