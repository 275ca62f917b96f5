/**
 * The equal-weight strategy: every stock should hold the same share of the
 * cached total, so each stock's target share count is that share's value
 * divided by its price, rounded; the plan maps a symbol to the signed number
 * of shares to buy (positive) or sell (negative).
 */
module EqualWeight {
  import opened JavaNumerics
  import opened StockModel
  import opened PortfolioModel

  const StrategyName: string := "Equal Weight Strategy"

  /** The division by each price is only defined for non-zero prices. */
  predicate PricesNonZero(stocks: seq<Stock>) {
    forall i :: 0 <= i < |stocks| ==> stocks[i].currentPrice != 0.0
  }

  /**
   * Value each of `n` stocks should hold: the equal weight `100 / n` percent
   * of `totalValue`, computed as the source computes it.
   */
  function TargetValue(totalValue: real, n: nat): (v: real)
    requires n > 0
    ensures v * n as real == totalValue
  {
    var equalWeight := 100.0 / n as real;
    (equalWeight / 100.0) * totalValue
  }

  /**
   * Share count `s` should hold: the target value over its price, rounded by
   * `Math.round` and narrowed to `int`.
   */
  function TargetQuantity(s: Stock, totalValue: real, n: nat): Int32
    requires n > 0 && s.currentPrice != 0.0
  {
    Wrap32(MathRound(TargetValue(totalValue, n) / s.currentPrice))
  }

  /** The stock at `i` is not already at its equal-weight share count. */
  predicate Differs(stocks: seq<Stock>, totalValue: real, i: nat)
    requires i < |stocks| && PricesNonZero(stocks)
  {
    TargetQuantity(stocks[i], totalValue, |stocks|) != stocks[i].quantity
  }

  /** Shares to trade for the stock at `i`, in Java `int` arithmetic. */
  function Delta(stocks: seq<Stock>, totalValue: real, i: nat): Int32
    requires i < |stocks| && PricesNonZero(stocks)
  {
    Wrap32(TargetQuantity(stocks[i], totalValue, |stocks|) as int - stocks[i].quantity as int)
  }

  /**
   * The plan after visiting the first `k` stocks in list order: each stock not
   * at its target puts its delta under its symbol, overwriting any earlier one.
   */
  function Plan(stocks: seq<Stock>, totalValue: real, k: nat): map<string, Int32>
    requires k <= |stocks| && PricesNonZero(stocks)
  {
    if k == 0 then map[]
    else
      var m := Plan(stocks, totalValue, k - 1);
      if Differs(stocks, totalValue, k - 1)
      then m[stocks[k - 1].symbol := Delta(stocks, totalValue, k - 1)]
      else m
  }

  /** The whole equal-weight plan for a list of stocks and a total. */
  function EqualWeightPlan(stocks: seq<Stock>, totalValue: real): (m: map<string, Int32>)
    requires PricesNonZero(stocks)
    ensures stocks == [] ==> m == map[]
  {
    Plan(stocks, totalValue, |stocks|)
  }

  /**
   * A symbol is planned exactly when some visited stock carrying it is not at
   * its target share count.
   */
  lemma {:induction false} PlanKeys(stocks: seq<Stock>, totalValue: real, k: nat, symbol: string)
    requires k <= |stocks| && PricesNonZero(stocks)
    ensures symbol in Plan(stocks, totalValue, k) <==>
      exists i :: 0 <= i < k && stocks[i].symbol == symbol && Differs(stocks, totalValue, i)
  {
    if k > 0 {
      PlanKeys(stocks, totalValue, k - 1, symbol);
    }
  }

  /**
   * The stock at `i` is where the plan over the first `k` stocks got its entry
   * for `symbol`: it carries the symbol, is off target, is the last such stock
   * among the first `k`, and its delta is the entry.
   */
  predicate PlannedFrom(stocks: seq<Stock>, totalValue: real, k: nat, symbol: string, i: nat)
    requires k <= |stocks| && PricesNonZero(stocks)
    requires symbol in Plan(stocks, totalValue, k)
  {
    && i < k && stocks[i].symbol == symbol && Differs(stocks, totalValue, i)
    && Plan(stocks, totalValue, k)[symbol] == Delta(stocks, totalValue, i)
    && forall j :: i < j < k && stocks[j].symbol == symbol ==> !Differs(stocks, totalValue, j)
  }

  /**
   * Every planned symbol has its source: the last visited stock carrying it
   * that is not at target (`put` overwrites earlier entries).
   */
  lemma {:induction false} PlanEntry(stocks: seq<Stock>, totalValue: real, k: nat, symbol: string)
    requires k <= |stocks| && PricesNonZero(stocks)
    requires symbol in Plan(stocks, totalValue, k)
    ensures exists i: nat :: PlannedFrom(stocks, totalValue, k, symbol, i)
  {
    var last := k - 1;
    if Differs(stocks, totalValue, last) && stocks[last].symbol == symbol {
      assert PlannedFrom(stocks, totalValue, k, symbol, last);
    } else {
      PlanEntry(stocks, totalValue, last, symbol);
      var i: nat :| PlannedFrom(stocks, totalValue, last, symbol, i);
      PlannedFromExtends(stocks, totalValue, k, symbol, i);
    }
  }

  /** Visiting a stock that does not write `symbol` keeps its source. */
  lemma PlannedFromExtends(stocks: seq<Stock>, totalValue: real, k: nat, symbol: string, i: nat)
    requires 0 < k <= |stocks| && PricesNonZero(stocks)
    requires !(Differs(stocks, totalValue, k - 1) && stocks[k - 1].symbol == symbol)
    requires symbol in Plan(stocks, totalValue, k - 1)
    requires PlannedFrom(stocks, totalValue, k - 1, symbol, i)
    ensures symbol in Plan(stocks, totalValue, k)
    ensures PlannedFrom(stocks, totalValue, k, symbol, i)
  {
    assert Plan(stocks, totalValue, k)[symbol] == Plan(stocks, totalValue, k - 1)[symbol];
  }

  /**
   * A planned delta is never 0, and adding it to its source stock's quantity
   * in `int` arithmetic gives that stock's target share count.
   */
  lemma PlannedDeltaReachesTarget(stocks: seq<Stock>, totalValue: real, k: nat, symbol: string, i: nat)
    requires k <= |stocks| && PricesNonZero(stocks)
    requires symbol in Plan(stocks, totalValue, k)
    requires PlannedFrom(stocks, totalValue, k, symbol, i)
    ensures Plan(stocks, totalValue, k)[symbol] != 0
    ensures Wrap32(stocks[i].quantity as int + Plan(stocks, totalValue, k)[symbol] as int)
      == TargetQuantity(stocks[i], totalValue, |stocks|)
  {
    WrapDifference(TargetQuantity(stocks[i], totalValue, |stocks|), stocks[i].quantity);
  }

  /**
   * When the target and current share counts are both non-negative, the
   * delta is the plain difference (no wrap-around).
   */
  lemma DeltaExact(stocks: seq<Stock>, totalValue: real, i: nat)
    requires i < |stocks| && PricesNonZero(stocks)
    requires TargetQuantity(stocks[i], totalValue, |stocks|) >= 0 && stocks[i].quantity >= 0
    ensures Delta(stocks, totalValue, i) as int
      == TargetQuantity(stocks[i], totalValue, |stocks|) as int - stocks[i].quantity as int
  {
  }

  /**
   * When the rounded quotient fits in an `int`, the target share count is the
   * closest integer to (total / n) / price, ties upwards.
   */
  lemma TargetQuantityRounds(s: Stock, totalValue: real, n: nat)
    requires n > 0 && s.currentPrice != 0.0
    requires MinInt32 <= RoundHalfUp(totalValue / n as real / s.currentPrice) <= MaxInt32
    ensures TargetQuantity(s, totalValue, n) as int == RoundHalfUp(totalValue / n as real / s.currentPrice)
    ensures totalValue / n as real / s.currentPrice - 0.5 < TargetQuantity(s, totalValue, n) as real
    ensures TargetQuantity(s, totalValue, n) as real <= totalValue / n as real / s.currentPrice + 0.5
  {
    var tv := TargetValue(totalValue, n);
    CancelFactor(tv, totalValue / n as real, n as real);
  }

  class EqualWeightStrategy {

    /** The strategy keeps no state; Java's implicit no-argument constructor. */
    constructor ()
    {
    }

    /**
     * Walks the stocks in list order and records, for each one whose target
     * share count differs from its quantity, the shares to trade. Reads the
     * portfolio and changes nothing.
     */
    method CalculateRebalancing(portfolio: Portfolio) returns (actions: map<string, Int32>)
      requires PricesNonZero(portfolio.stocks)
      ensures actions == EqualWeightPlan(portfolio.stocks, portfolio.totalValue)
      ensures forall symbol :: symbol in actions ==> HasSymbol(portfolio.stocks, symbol)
      ensures forall symbol :: symbol in actions ==> actions[symbol] != 0
      ensures forall i :: 0 <= i < |portfolio.stocks| && Differs(portfolio.stocks, portfolio.totalValue, i)
                ==> portfolio.stocks[i].symbol in actions
    {
      var stocks := portfolio.stocks;
      var totalValue := portfolio.totalValue;
      actions := map[];
      // With no stocks `100.0 / 0` is never read; the loop below does not run.
      var equalWeight := if |stocks| > 0 then 100.0 / |stocks| as real else 0.0;
      for k := 0 to |stocks|
        invariant actions == Plan(stocks, totalValue, k)
      {
        var stock := stocks[k];
        var targetValue := (equalWeight / 100.0) * totalValue;
        assert targetValue == TargetValue(totalValue, |stocks|);
        var targetQuantity := Wrap32(MathRound(targetValue / stock.currentPrice));
        var currentQuantity := stock.quantity;
        if targetQuantity != currentQuantity {
          actions := actions[stock.symbol := Wrap32(targetQuantity as int - currentQuantity as int)];
        }
      }
      forall symbol | symbol in actions
        ensures HasSymbol(stocks, symbol) && actions[symbol] != 0
      {
        PlanEntry(stocks, totalValue, |stocks|, symbol);
        var i: nat :| PlannedFrom(stocks, totalValue, |stocks|, symbol, i);
        PlannedDeltaReachesTarget(stocks, totalValue, |stocks|, symbol, i);
      }
      forall i | 0 <= i < |stocks| && Differs(stocks, totalValue, i)
        ensures stocks[i].symbol in actions
      {
        PlanKeys(stocks, totalValue, |stocks|, stocks[i].symbol);
      }
    }
  }
}
