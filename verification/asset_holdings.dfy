/**
 * Portfolio-level views over `Asset`s: the total (holdings plus cash), the
 * symbol-to-deviation map and the total absolute deviation.
 *
 * The `Portfolio` class of the Asset generation (cash balance, deviation map)
 * is not part of this model; these definitions are derived from what its unit
 * tests pin down, and are what the threshold strategy consumes.
 */
module AssetHoldings {
  import opened AssetModel
  import JavaNumerics

  /** Sum of the holdings' current values, in insertion order. */
  function HoldingsValue(assets: seq<Asset>): real
  {
    if assets == [] then 0.0
    else HoldingsValue(assets[..|assets| - 1]) + CurrentValue(assets[|assets| - 1])
  }

  /** Total portfolio value: every holding's value plus the cash balance. */
  function PortfolioTotal(assets: seq<Asset>, cashBalance: real): (r: real)
    ensures assets == [] ==> r == cashBalance
  {
    HoldingsValue(assets) + cashBalance
  }

  /** Adding a holding raises the total by exactly that holding's value. */
  lemma AddAssetRaisesTotal(assets: seq<Asset>, a: Asset, cashBalance: real)
    ensures PortfolioTotal(assets + [a], cashBalance) == PortfolioTotal(assets, cashBalance) + CurrentValue(a)
  {
    assert (assets + [a])[..|assets|] == assets;
  }

  /**
   * Symbol to deviation-from-target, filled in insertion order; a later
   * holding with the same symbol overwrites an earlier one.
   */
  function DeviationMap(assets: seq<Asset>, totalValue: real): (m: map<string, real>)
    ensures forall s :: s in m <==> exists i :: 0 <= i < |assets| && assets[i].symbol == s
    ensures forall s :: s in m ==>
      exists i :: 0 <= i < |assets| && assets[i].symbol == s
        && m[s] == DeviationFromTarget(assets[i], totalValue)
  {
    if assets == [] then map[]
    else
      var last := assets[|assets| - 1];
      DeviationMap(assets[..|assets| - 1], totalValue)[last.symbol := DeviationFromTarget(last, totalValue)]
  }

  /** How far out of balance the holdings are: the sum of absolute deviations. */
  function TotalAbsoluteDeviation(assets: seq<Asset>, totalValue: real): (r: real)
    ensures r >= 0.0
    ensures r == 0.0 <==> forall i :: 0 <= i < |assets| ==> DeviationFromTarget(assets[i], totalValue) == 0.0
  {
    if assets == [] then 0.0
    else
      TotalAbsoluteDeviation(assets[..|assets| - 1], totalValue)
        + JavaNumerics.Abs(DeviationFromTarget(assets[|assets| - 1], totalValue))
  }

  /** Apple and Microsoft as the portfolio tests build them. */
  function ScenarioApple(): Asset {
    Asset("AAPL", "Apple Inc.", 10.0, 150.0, 0.6, Stock)
  }

  function ScenarioMicrosoft(): Asset {
    Asset("MSFT", "Microsoft Corp.", 5.0, 300.0, 0.4, Stock)
  }

  function ScenarioHoldings(): seq<Asset> {
    [ScenarioApple(), ScenarioMicrosoft()]
  }

  /**
   * The two-holding portfolio with 1000 in cash: total 2500 after Apple alone
   * and 4000 with both; both allocations 0.375; deviations -0.225 and -0.025;
   * total absolute deviation 0.25.
   */
  lemma TwoHoldingScenario()
    ensures PortfolioTotal([ScenarioApple()], 1000.0) == 2500.0
    ensures PortfolioTotal(ScenarioHoldings(), 1000.0) == 4000.0
    ensures CurrentAllocation(ScenarioApple(), 4000.0) == 0.375
    ensures CurrentAllocation(ScenarioMicrosoft(), 4000.0) == 0.375
    ensures DeviationMap(ScenarioHoldings(), 4000.0) == map["AAPL" := -0.225, "MSFT" := -0.025]
    ensures TotalAbsoluteDeviation(ScenarioHoldings(), 4000.0) == 0.25
  {
    var h := ScenarioHoldings();
    assert h[..1] == [ScenarioApple()];
    assert h[..1][..0] == [];
  }
}
