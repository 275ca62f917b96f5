/**
 * The threshold strategy: every symbol whose deviation from target exceeds the
 * threshold in absolute value gets a trade of `-deviation * totalValue`
 * currency units (positive buys, negative sells); the others are left alone.
 *
 * The source reads the deviation map and the total from its portfolio
 * argument; the model takes those two values directly.
 */
module ThresholdRebalancing {
  import opened JavaNumerics
  import AssetModel
  import AssetHoldings

  const StrategyName: string := "Threshold-Based Rebalancing"
  const StrategyDescription: string :=
    "Rebalances assets when their allocation deviates from target by more than the specified threshold"

  /**
   * The trades the strategy recommends for the symbols in `keys`: one per
   * symbol whose deviation is strictly beyond the threshold.
   */
  function TradesAmong(deviations: map<string, real>, keys: set<string>, totalValue: real, threshold: real): map<string, real>
  {
    map symbol | symbol in keys && symbol in deviations && Abs(deviations[symbol]) > threshold
      :: -deviations[symbol] * totalValue
  }

  /** The trades the strategy recommends for the whole deviation map. */
  function ThresholdTrades(deviations: map<string, real>, totalValue: real, threshold: real): map<string, real>
  {
    TradesAmong(deviations, deviations.Keys, totalValue, threshold)
  }

  /** True when `word` occurs in `text` as a contiguous run of characters. */
  predicate Mentions(text: string, word: string) {
    exists i | 0 <= i <= |text| :: OccursAt(text, word, i)
  }

  /** True when `word` occurs in `text` starting at position `i`. */
  predicate OccursAt(text: string, word: string, i: int) {
    0 <= i && i + |word| <= |text| && text[i..i + |word|] == word
  }

  /** The description names the threshold it depends on. */
  lemma DescriptionMentionsThreshold()
    ensures Mentions(StrategyDescription, "threshold")
  {
    assert OccursAt(StrategyDescription, "threshold", 88);
  }

  class ThresholdRebalancingStrategy {

    /** The strategy keeps no state; Java's implicit no-argument constructor. */
    constructor ()
    {
    }

    /**
     * Visits every entry of the deviation map and records a trade for each
     * one strictly beyond the threshold; a deviation equal to the threshold
     * does not trigger.
     */
    method CalculateRebalancingTrades(deviations: map<string, real>, totalValue: real, threshold: real)
      returns (trades: map<string, real>)
      ensures forall symbol :: symbol in trades <==> symbol in deviations && Abs(deviations[symbol]) > threshold
      ensures forall symbol :: symbol in trades ==> trades[symbol] == -deviations[symbol] * totalValue
      ensures trades == ThresholdTrades(deviations, totalValue, threshold)
    {
      trades := map[];
      var pending := deviations.Keys;
      ghost var visited: set<string> := {};
      while pending != {}
        invariant visited + pending == deviations.Keys && visited !! pending
        invariant trades == TradesAmong(deviations, visited, totalValue, threshold)
        decreases pending
      {
        var symbol :| symbol in pending;
        var deviation := deviations[symbol];
        VisitOne(deviations, visited, symbol, totalValue, threshold);
        if Abs(deviation) > threshold {
          // The lemma states the amount in terms of the map entry itself.
          assert -deviation * totalValue == -deviations[symbol] * totalValue;
          trades := trades[symbol := -deviation * totalValue];
        }
        assert trades == TradesAmong(deviations, visited + {symbol}, totalValue, threshold);
        pending := pending - {symbol};
        visited := visited + {symbol};
      }
    }
  }

  /** Visiting one more entry adds at most that entry's trade. */
  lemma VisitOne(deviations: map<string, real>, visited: set<string>, symbol: string, totalValue: real, threshold: real)
    requires symbol in deviations && symbol !in visited
    ensures Abs(deviations[symbol]) > threshold ==>
      TradesAmong(deviations, visited + {symbol}, totalValue, threshold)
      == TradesAmong(deviations, visited, totalValue, threshold)[symbol := -deviations[symbol] * totalValue]
    ensures Abs(deviations[symbol]) <= threshold ==>
      TradesAmong(deviations, visited + {symbol}, totalValue, threshold)
      == TradesAmong(deviations, visited, totalValue, threshold)
  {
    var before := TradesAmong(deviations, visited, totalValue, threshold);
    var after := TradesAmong(deviations, visited + {symbol}, totalValue, threshold);
    if Abs(deviations[symbol]) > threshold {
      assert after.Keys == before.Keys + {symbol};
    } else {
      assert after.Keys == before.Keys;
    }
  }

  /**
   * With a positive total, an underweight symbol is bought (positive amount)
   * and an overweight one sold (negative amount).
   */
  lemma TradeDirection(deviations: map<string, real>, totalValue: real, threshold: real, symbol: string)
    requires totalValue > 0.0
    requires symbol in ThresholdTrades(deviations, totalValue, threshold)
    ensures deviations[symbol] < 0.0 ==> ThresholdTrades(deviations, totalValue, threshold)[symbol] > 0.0
    ensures deviations[symbol] > 0.0 ==> ThresholdTrades(deviations, totalValue, threshold)[symbol] < 0.0
  {
  }

  /**
   * Raising the threshold keeps a subset of the trades, each with the same
   * amount.
   */
  lemma ThresholdMonotone(deviations: map<string, real>, totalValue: real, low: real, high: real)
    requires low <= high
    ensures forall symbol :: symbol in ThresholdTrades(deviations, totalValue, high) ==>
      symbol in ThresholdTrades(deviations, totalValue, low)
      && ThresholdTrades(deviations, totalValue, high)[symbol] == ThresholdTrades(deviations, totalValue, low)[symbol]
  {
  }

  /**
   * A trade moves its asset exactly back to target: with the deviation taken
   * from the asset, its allocation plus the trade's share of the total equals
   * its target allocation.
   */
  lemma TradeRestoresTarget(a: AssetModel.Asset, deviations: map<string, real>, totalValue: real, threshold: real)
    requires totalValue != 0.0
    requires a.symbol in deviations && deviations[a.symbol] == AssetModel.DeviationFromTarget(a, totalValue)
    requires a.symbol in ThresholdTrades(deviations, totalValue, threshold)
    ensures AssetModel.CurrentAllocation(a, totalValue)
      + ThresholdTrades(deviations, totalValue, threshold)[a.symbol] / totalValue == a.targetAllocation
  {
    var d := deviations[a.symbol];
    RestoreArith(AssetModel.CurrentAllocation(a, totalValue), a.targetAllocation, d,
      ThresholdTrades(deviations, totalValue, threshold)[a.symbol], totalValue);
  }

  /** If allocation = target + d, adding (-d × total) / total lands on target. */
  lemma RestoreArith(allocation: real, target: real, d: real, trade: real, totalValue: real)
    requires totalValue != 0.0 && allocation == target + d && trade == -d * totalValue
    ensures allocation + trade / totalValue == target
  {
    MulDiv(-d, totalValue);
  }

  /**
   * The two-holding portfolio with 1000 in cash (total 4000): threshold 0.3
   * recommends nothing; threshold 0.1 buys 900 of AAPL and leaves MSFT alone.
   */
  lemma TwoHoldingTrades()
    ensures var total := AssetHoldings.PortfolioTotal(AssetHoldings.ScenarioHoldings(), 1000.0);
      ThresholdTrades(AssetHoldings.DeviationMap(AssetHoldings.ScenarioHoldings(), total), total, 0.3) == map[]
    ensures var total := AssetHoldings.PortfolioTotal(AssetHoldings.ScenarioHoldings(), 1000.0);
      ThresholdTrades(AssetHoldings.DeviationMap(AssetHoldings.ScenarioHoldings(), total), total, 0.1)
      == map["AAPL" := 900.0]
  {
    AssetHoldings.TwoHoldingScenario();
    LiteralTrades();
  }

  /** The same trades, computed on the deviation map written out. */
  lemma LiteralTrades()
    ensures ThresholdTrades(map["AAPL" := -0.225, "MSFT" := -0.025], 4000.0, 0.3) == map[]
    ensures ThresholdTrades(map["AAPL" := -0.225, "MSFT" := -0.025], 4000.0, 0.1) == map["AAPL" := 900.0]
  {
    var deviations := map["AAPL" := -0.225, "MSFT" := -0.025];
    assert ThresholdTrades(deviations, 4000.0, 0.3).Keys == {};
    assert ThresholdTrades(deviations, 4000.0, 0.1).Keys == {"AAPL"};
  }
}
