/**
 * The `Asset` generation of the data model: a position with fractional
 * quantity, modelled as an immutable value (the generated setters are not
 * modelled). Its allocation is its value as a fraction of a total supplied by
 * the caller, guarded against a non-positive total; nothing bounds it to 0..1.
 */
module AssetModel {

  /** The eight asset classes, in declaration order. */
  datatype AssetType = Stock | Bond | Etf | MutualFund | Cash | Crypto | Commodity | Other

  /**
   * One position. The builder that creates it checks nothing, so every field
   * may hold any value (negative quantities and prices included).
   */
  datatype Asset = Asset(
    symbol: string,
    name: string,
    quantity: real,
    currentPrice: real,
    targetAllocation: real,
    assetType: AssetType)

  /** Market value of the position: quantity times price. */
  function CurrentValue(a: Asset): (v: real)
    ensures a.currentPrice != 0.0 ==> v / a.currentPrice == a.quantity
    ensures a.quantity != 0.0 ==> v / a.quantity == a.currentPrice
    ensures a.quantity == 0.0 || a.currentPrice == 0.0 ==> v == 0.0
  {
    a.quantity * a.currentPrice
  }

  /**
   * Fraction of `totalPortfolioValue` the position represents. A total that is
   * zero or negative yields 0 instead of a division.
   */
  function CurrentAllocation(a: Asset, totalPortfolioValue: real): (r: real)
    ensures totalPortfolioValue > 0.0 ==> r * totalPortfolioValue == CurrentValue(a)
    ensures totalPortfolioValue <= 0.0 ==> r == 0.0
  {
    if totalPortfolioValue > 0.0 then CurrentValue(a) / totalPortfolioValue else 0.0
  }

  /**
   * Signed distance of the allocation from its target: positive when the
   * position is overweight, negative when it is underweight.
   */
  function DeviationFromTarget(a: Asset, totalPortfolioValue: real): (d: real)
    ensures a.targetAllocation + d == CurrentAllocation(a, totalPortfolioValue)
    ensures d > 0.0 <==> CurrentAllocation(a, totalPortfolioValue) > a.targetAllocation
    ensures d < 0.0 <==> CurrentAllocation(a, totalPortfolioValue) < a.targetAllocation
    ensures d == 0.0 <==> CurrentAllocation(a, totalPortfolioValue) == a.targetAllocation
  {
    CurrentAllocation(a, totalPortfolioValue) - a.targetAllocation
  }

  /** The position used throughout the unit tests: 10 AAPL at 150, target 20%. */
  function TestApple(): Asset {
    Asset("AAPL", "Apple Inc.", 10.0, 150.0, 0.2, Stock)
  }

  /**
   * The single-asset unit tests: value 1500, allocation 15% of 10000,
   * allocation 0 against a zero total, and deviation -5% from a 20% target.
   */
  lemma SingleAssetScenario()
    ensures CurrentValue(TestApple()) == 1500.0
    ensures CurrentAllocation(TestApple(), 10000.0) == 0.15
    ensures CurrentAllocation(TestApple(), 0.0) == 0.0
    ensures DeviationFromTarget(TestApple(), 10000.0) == -0.05
  {
  }
}
