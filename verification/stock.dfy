/**
 * The `Stock` generation of the data model: whole-share quantity (a Java
 * `int`) and an allocation expressed in percent of the total, with no guard
 * against a zero total.
 */
module StockModel {
  import opened JavaNumerics

  /** One holding; `targetAllocation` is a percentage of the portfolio value. */
  datatype Stock = Stock(
    symbol: string,
    name: string,
    currentPrice: real,
    quantity: Int32,
    targetAllocation: real)

  /** Market value of the holding: price times the share count. */
  function CurrentValue(s: Stock): (v: real)
    ensures s.currentPrice != 0.0 ==> v / s.currentPrice == s.quantity as real
    ensures s.quantity != 0 ==> v / s.quantity as real == s.currentPrice
    ensures s.quantity == 0 || s.currentPrice == 0.0 ==> v == 0.0
  {
    var q := s.quantity as real;
    MulDiv(q, s.currentPrice);
    MulDiv(s.currentPrice, q);
    assert s.quantity == 0 <==> q == 0.0;
    s.currentPrice * q
  }

  /**
   * Percentage of `totalPortfolioValue` the holding represents. The source
   * divides unconditionally, so a zero total is excluded here.
   */
  function CurrentAllocation(s: Stock, totalPortfolioValue: real): (p: real)
    requires totalPortfolioValue != 0.0
    ensures p * totalPortfolioValue / 100.0 == CurrentValue(s)
    ensures CurrentValue(s) == totalPortfolioValue ==> p == 100.0
    ensures CurrentValue(s) == 0.0 ==> p == 0.0
  {
    var value := CurrentValue(s);
    var q := value / totalPortfolioValue;
    DivMul(value, totalPortfolioValue);
    MulDiv(1.0, totalPortfolioValue);
    assert (q * 100.0) * totalPortfolioValue / 100.0 == q * totalPortfolioValue;
    q * 100.0
  }
}
