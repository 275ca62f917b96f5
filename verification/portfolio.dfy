/**
 * The mutable `Portfolio` of the Stock generation: an append-only list of
 * stocks and a cached total that `UpdateTotalValue` refreshes.
 *
 * The cache is not an invariant of the class: the source's generated setters
 * let callers replace either field, so `totalValue` may be stale between a
 * change to `stocks` and the next refresh.
 */
module PortfolioModel {
  import opened StockModel

  datatype Option<T> = None | Some(value: T)

  /** Sum of the stocks' current values, in list order. */
  function SumValues(stocks: seq<Stock>): real
  {
    if stocks == [] then 0.0
    else SumValues(stocks[..|stocks| - 1]) + CurrentValue(stocks[|stocks| - 1])
  }

  /** True when some stock in the list carries `symbol`. */
  predicate HasSymbol(stocks: seq<Stock>, symbol: string) {
    exists i :: 0 <= i < |stocks| && stocks[i].symbol == symbol
  }

  /** Index of the first stock carrying `symbol`, if there is one. */
  function FirstWithSymbol(stocks: seq<Stock>, symbol: string): (r: Option<nat>)
    ensures r.None? <==> !HasSymbol(stocks, symbol)
    ensures r.Some? ==>
      r.value < |stocks| && stocks[r.value].symbol == symbol
      && forall j :: 0 <= j < r.value ==> stocks[j].symbol != symbol
  {
    if stocks == [] then None
    else if stocks[0].symbol == symbol then Some(0)
    else
      match FirstWithSymbol(stocks[1..], symbol)
      case None => None
      case Some(i) => Some(i + 1)
  }

  /** Sum of the stocks' percentage allocations against `totalValue`. */
  function SumAllocations(stocks: seq<Stock>, totalValue: real): real
    requires totalValue != 0.0
  {
    if stocks == [] then 0.0
    else SumAllocations(stocks[..|stocks| - 1], totalValue) + CurrentAllocation(stocks[|stocks| - 1], totalValue)
  }

  /** Percentages add up to the share the stocks' value has of the total. */
  lemma {:induction false} SumAllocationsScale(stocks: seq<Stock>, totalValue: real)
    requires totalValue != 0.0
    ensures SumAllocations(stocks, totalValue) * totalValue == SumValues(stocks) * 100.0
  {
    if stocks != [] {
      var init, last := stocks[..|stocks| - 1], stocks[|stocks| - 1];
      SumAllocationsScale(init, totalValue);
      calc {
        SumAllocations(stocks, totalValue) * totalValue;
        (SumAllocations(init, totalValue) + CurrentAllocation(last, totalValue)) * totalValue;
        SumAllocations(init, totalValue) * totalValue + CurrentAllocation(last, totalValue) * totalValue;
        SumValues(init) * 100.0 + CurrentValue(last) * 100.0;
        SumValues(stocks) * 100.0;
      }
    }
  }

  /**
   * Once the total is refreshed and is not zero, the percentage allocations
   * of all stocks add up to 100.
   */
  lemma AllocationsSumTo100(stocks: seq<Stock>)
    requires SumValues(stocks) != 0.0
    ensures SumAllocations(stocks, SumValues(stocks)) == 100.0
  {
    var total := SumValues(stocks);
    SumAllocationsScale(stocks, total);
    CancelFactor(SumAllocations(stocks, total), 100.0, total);
  }

  /** A non-zero factor common to both sides of an equation cancels. */
  lemma CancelFactor(a: real, b: real, t: real)
    requires t != 0.0 && a * t == b * t
    ensures a == b
  {
    assert (a - b) * t == 0.0;
  }

  class Portfolio {
    var stocks: seq<Stock>
    var totalValue: real

    /** A new portfolio holds no stocks and its total is the empty sum, 0. */
    constructor ()
      ensures stocks == [] && totalValue == 0.0
      ensures totalValue == SumValues(stocks)
    {
      stocks := [];
      totalValue := 0.0;
    }

    /**
     * Appends `stock` (no check for a duplicate symbol) and refreshes the
     * cached total.
     */
    method AddStock(stock: Stock)
      modifies this
      ensures stocks == old(stocks) + [stock]
      ensures |stocks| == |old(stocks)| + 1
      ensures totalValue == SumValues(stocks)
      ensures totalValue == SumValues(old(stocks)) + CurrentValue(stock)
    {
      stocks := stocks + [stock];
      UpdateTotalValue();
    }

    /** Recomputes the cached total from the stocks; nothing else changes. */
    method UpdateTotalValue()
      modifies this`totalValue
      ensures stocks == old(stocks)
      ensures totalValue == SumValues(stocks)
    {
      totalValue := SumValues(stocks);
    }

    /**
     * Allocation (percent of the cached total) of the first stock carrying
     * `symbol`, or 0 when no stock does. The zero-total division is excluded
     * only when it would be reached.
     */
    function StockAllocation(symbol: string): (r: real)
      reads this
      requires HasSymbol(stocks, symbol) ==> totalValue != 0.0
      ensures !HasSymbol(stocks, symbol) ==> r == 0.0
      ensures HasSymbol(stocks, symbol) ==>
        exists i :: 0 <= i < |stocks| && stocks[i].symbol == symbol
          && (forall j :: 0 <= j < i ==> stocks[j].symbol != symbol)
          && r == CurrentAllocation(stocks[i], totalValue)
    {
      match FirstWithSymbol(stocks, symbol)
      case None => 0.0
      case Some(i) =>
        var r := CurrentAllocation(stocks[i], totalValue);
        assert stocks[i].symbol == symbol && r == CurrentAllocation(stocks[i], totalValue);
        r
    }
  }

  /** Refreshing the total twice leaves the portfolio as refreshing it once. */
  method RefreshTwice(p: Portfolio)
    modifies p`totalValue
    ensures p.stocks == old(p.stocks)
    ensures p.totalValue == SumValues(old(p.stocks))
  {
    p.UpdateTotalValue();
    var once := p.totalValue;
    p.UpdateTotalValue();
    assert p.totalValue == once;
  }
}
