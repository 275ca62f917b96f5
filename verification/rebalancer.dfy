/**
 * The rebalancing service: it holds one strategy for its whole life, refreshes
 * the portfolio's cached total and hands the portfolio to the strategy.
 *
 * The only strategy with the share-count signature the service calls is the
 * equal-weight one, so that is the type of the strategy it holds.
 */
module RebalancerService {
  import opened JavaNumerics
  import opened PortfolioModel
  import opened EqualWeight

  class PortfolioRebalancer {
    const strategy: EqualWeightStrategy

    constructor (strategy: EqualWeightStrategy)
      ensures this.strategy == strategy
    {
      this.strategy := strategy;
    }

    /**
     * Refreshes the portfolio's total (the only field it changes) and returns
     * the equal-weight plan computed on the refreshed portfolio.
     */
    method Rebalance(portfolio: Portfolio) returns (actions: map<string, Int32>)
      requires PricesNonZero(portfolio.stocks)
      modifies portfolio`totalValue
      ensures portfolio.stocks == old(portfolio.stocks)
      ensures portfolio.totalValue == SumValues(portfolio.stocks)
      ensures actions == EqualWeightPlan(portfolio.stocks, SumValues(portfolio.stocks))
    {
      portfolio.UpdateTotalValue();
      actions := strategy.CalculateRebalancing(portfolio);
    }
  }

  /**
   * Rebalancing twice with no change in between gives the same plan, whatever
   * the cached total was before the first call.
   */
  method RebalanceTwice(rebalancer: PortfolioRebalancer, portfolio: Portfolio)
    returns (first: map<string, Int32>, second: map<string, Int32>)
    requires PricesNonZero(portfolio.stocks)
    modifies portfolio`totalValue
    ensures first == second
    ensures portfolio.stocks == old(portfolio.stocks)
  {
    first := rebalancer.Rebalance(portfolio);
    second := rebalancer.Rebalance(portfolio);
  }
}
