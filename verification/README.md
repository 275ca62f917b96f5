# Portfolio rebalancer: allocation and rebalancing arithmetic in Dafny

This project models the arithmetic core of a Java portfolio rebalancer: what a
holding is worth, what share of the portfolio it holds, how far that share is
from its target, and which trades two rebalancing strategies recommend.

The repository has two generations of the data model that do not fit
together. Each is modelled as written:

- **Asset generation** (`AssetModel`, `AssetHoldings`). An `Asset` has a
  fractional quantity, a price, a target allocation expressed as a fraction
  of the total (nothing bounds it) and one of eight asset types. Its
  allocation against a total is `value / total`, and 0 when the total is zero
  or negative. Its deviation is allocation minus target.
  The `Portfolio` class the tests use with assets (cash balance, deviation map)
  is not part of this model. `AssetHoldings` builds the total (holdings plus
  cash) and the symbol-to-deviation map from `Asset` alone, as the tests pin
  them down (test-derived). The threshold strategy reads this map.
- **Stock generation** (`StockModel`, `PortfolioModel`). A `Stock` has an
  `int` share count and a target given in percent. Its allocation is
  `value / total * 100` with no zero guard, so a zero total is excluded by a
  precondition. `Portfolio` is a class with an append-only `stocks` sequence
  and a cached `totalValue` that `UpdateTotalValue` recomputes.
- **Strategies.** `EqualWeightStrategy` (`EqualWeight`) turns the Stock
  portfolio into per-symbol share deltas. `ThresholdRebalancingStrategy`
  (`ThresholdRebalancing`) turns a deviation map and a total into currency
  trades.
- **Service.** `PortfolioRebalancer` (`RebalancerService`) refreshes the total
  and delegates to its equal-weight strategy.

Numeric conventions (`JavaNumerics`):

- `double` is exact `real`.
- Java `int` is the newtype `Int32`. Subtraction of two `int`s and the
  narrowing cast `(int)` from `long` both keep the low 32 bits (`Wrap32`).
- `Math.round(double)` is `floor(x + 1/2)` saturated to the `long` range
  (`MathRound`). This follows its Java SE contract: closest `long`, ties
  towards positive infinity.

Facts about the code that shape the model:

- The equal-weight strategy computes whole-share deltas and takes no
  threshold.
- `rebalance` calls the strategy unconditionally.
- The `Asset` builder checks nothing.
- The Stock-generation portfolio has no cash balance.
- Duplicate symbols are kept.
- `AssetType` has eight cases; ETF and mutual fund are separate.

The strategy names are the constants `EqualWeight.StrategyName`
("Equal Weight Strategy"), `ThresholdRebalancing.StrategyName`
("Threshold-Based Rebalancing") and `ThresholdRebalancing.StrategyDescription`.

## Model

| member | source | states |
|---|---|---|
| `JavaNumerics.Wrap32` | src/main/java/com/portfolio/strategy/EqualWeightStrategy.java:16-20 | the result is the unique `int` congruent to the input modulo 2^32, equal to the input when it is already in `int` range |
| `JavaNumerics.WrapDifference` | src/main/java/com/portfolio/strategy/EqualWeightStrategy.java:19-20 | adding back `target - current` to `current` in `int` arithmetic gives `target`, with wrap-around; distinct `int`s never have a zero difference |
| `JavaNumerics.RoundHalfUp` | src/main/java/com/portfolio/strategy/EqualWeightStrategy.java:16 | the result is the closest integer to `x`, ties upwards: `x - 1/2 < r <= x + 1/2` |
| `JavaNumerics.MathRound` | src/main/java/com/portfolio/strategy/EqualWeightStrategy.java:16 | `Math.round`: always within the `long` range; the half-up rounding when that fits; saturates at the `long` bounds otherwise |
| `JavaNumerics.Abs` | src/main/java/com/portfolio/strategy/ThresholdRebalancingStrategy.java:15 | `Math.abs`: non-negative, and equal to `x` or `-x` |
| `AssetModel.CurrentValue` | src/main/java/com/portfolio/model/Asset.java:16-18 | value divided by a non-zero price gives back the quantity (and by a non-zero quantity the price); zero quantity or price gives 0 |
| `AssetModel.CurrentAllocation` | src/main/java/com/portfolio/model/Asset.java:20-22 | for a positive total, allocation × total = value; for any total ≤ 0 the allocation is 0, with no division |
| `AssetModel.DeviationFromTarget` | src/main/java/com/portfolio/model/Asset.java:24-26 | target + deviation = allocation; positive exactly when overweight, negative exactly when underweight, 0 exactly at target |
| `AssetModel.SingleAssetScenario` | src/test/java/com/portfolio/model/AssetTest.java:8-64 | 10 × 150 = 1500; allocation 0.15 of 10000; allocation 0 for a zero total; deviation −0.05 from a 0.2 target |
| `AssetHoldings.PortfolioTotal` | src/test/java/com/portfolio/model/PortfolioTest.java:14-18 | (test-derived) a portfolio with no holdings is worth exactly its cash balance |
| `AssetHoldings.AddAssetRaisesTotal` | src/test/java/com/portfolio/model/PortfolioTest.java:39-47 | (test-derived) adding a holding raises the total (holdings plus cash) by exactly that holding's value |
| `AssetHoldings.DeviationMap` | src/test/java/com/portfolio/model/PortfolioTest.java:64-72 | (test-derived) the keys are exactly the holdings' symbols, and each value is the deviation of some holding with that symbol |
| `AssetHoldings.TotalAbsoluteDeviation` | src/test/java/com/portfolio/model/PortfolioTest.java:74-81 | (test-derived) non-negative, and 0 exactly when every holding is at target |
| `AssetHoldings.TwoHoldingScenario` | src/test/java/com/portfolio/model/PortfolioTest.java:39-81 | (test-derived) with cash 1000: total 2500 with AAPL alone, 4000 with AAPL and MSFT; allocations 0.375 each; deviations −0.225 and −0.025; total absolute deviation 0.25 |
| `StockModel.CurrentValue` | src/main/java/com/portfolio/model/Stock.java:17-19 | value divided by a non-zero price gives back the integer share count; zero shares or zero price gives 0 |
| `StockModel.CurrentAllocation` | src/main/java/com/portfolio/model/Stock.java:21-23 | percent scale: allocation × total / 100 = value; 100 when the value is the whole total; 0 when the value is 0; requires a non-zero total |
| `PortfolioModel.FirstWithSymbol` | src/main/java/com/portfolio/model/Portfolio.java:24-26 | returns nothing exactly when no stock has the symbol; otherwise the index of a stock with the symbol that no earlier stock shares |
| `PortfolioModel.SumAllocationsScale` | src/main/java/com/portfolio/model/Stock.java:21-23 | the percent allocations of a list of stocks add up to 100 × (their value sum) / total |
| `PortfolioModel.AllocationsSumTo100` | src/main/java/com/portfolio/model/Portfolio.java:17-21 | after a refresh with a non-zero total, the stocks' percent allocations add up to exactly 100 |
| `PortfolioModel.Portfolio.constructor` | src/main/java/com/portfolio/model/Portfolio.java:9-10 | a new portfolio has no stocks and a total of 0, the empty sum |
| `PortfolioModel.Portfolio.AddStock` | src/main/java/com/portfolio/model/Portfolio.java:12-15 | appends at the end, keeping earlier stocks in order, with no duplicate check (length + 1); the total becomes the sum over all stocks, i.e. the old sum plus the new stock's value |
| `PortfolioModel.Portfolio.UpdateTotalValue` | src/main/java/com/portfolio/model/Portfolio.java:17-21 | changes only `totalValue` (its frame is that one field); the stocks are unchanged and the total equals the sum of their values |
| `PortfolioModel.Portfolio.StockAllocation` | src/main/java/com/portfolio/model/Portfolio.java:23-29 | 0 when no stock has the symbol; otherwise the percent allocation, against the cached total, of the first stock with that symbol; reads state only |
| `PortfolioModel.RefreshTwice` | src/main/java/com/portfolio/model/Portfolio.java:17-21 | refreshing twice leaves the stocks as they were and the total as one refresh does |
| `EqualWeight.TargetValue` | src/main/java/com/portfolio/strategy/EqualWeightStrategy.java:12-15 | the per-stock target value, `(100 / n) / 100 × total`, is one n-th of the total: target × n = total |
| `EqualWeight.TargetQuantityRounds` | src/main/java/com/portfolio/strategy/EqualWeightStrategy.java:16 | when the rounded share count fits in an `int`, the target is the closest integer to (total / n) / price, ties upwards |
| `EqualWeight.EqualWeightPlan` | src/main/java/com/portfolio/strategy/EqualWeightStrategy.java:11-24 | a portfolio with no stocks yields the empty plan |
| `EqualWeight.PlanKeys` | src/main/java/com/portfolio/strategy/EqualWeightStrategy.java:14-21 | a symbol is in the plan exactly when some stock with that symbol has a target share count different from its quantity |
| `EqualWeight.PlanEntry` | src/main/java/com/portfolio/strategy/EqualWeightStrategy.java:19-20 | every planned symbol has a source stock: it carries the symbol, is off target, is the last such stock in list order (`put` overwrites), and its delta is the entry |
| `EqualWeight.PlannedDeltaReachesTarget` | src/main/java/com/portfolio/strategy/EqualWeightStrategy.java:16-20 | a planned delta is never 0, and the source stock's quantity + delta in `int` arithmetic equals its target share count |
| `EqualWeight.DeltaExact` | src/main/java/com/portfolio/strategy/EqualWeightStrategy.java:20 | with non-negative target and quantity, the delta is the exact difference, with no wrap-around |
| `EqualWeight.EqualWeightStrategy.CalculateRebalancing` | src/main/java/com/portfolio/strategy/EqualWeightStrategy.java:10-25 | the loop's map is the equal-weight plan of the portfolio's stocks and cached total; every key is a stock's symbol; no delta is 0; every off-target stock's symbol is present; the portfolio is not modified |
| `ThresholdRebalancing.ThresholdRebalancingStrategy.CalculateRebalancingTrades` | src/main/java/com/portfolio/strategy/ThresholdRebalancingStrategy.java:9-23 | a symbol gets a trade iff it is in the deviation map with \|deviation\| strictly above the threshold (equality does not trigger); its amount is −deviation × total; so the keys are a subset of the map's keys |
| `ThresholdRebalancing.TradeDirection` | src/main/java/com/portfolio/strategy/ThresholdRebalancingStrategy.java:17 | with a positive total, an underweight symbol gets a positive (buy) amount and an overweight one a negative (sell) amount |
| `ThresholdRebalancing.ThresholdMonotone` | src/main/java/com/portfolio/strategy/ThresholdRebalancingStrategy.java:15-18 | raising the threshold keeps a subset of the trades, each with the same amount |
| `ThresholdRebalancing.TradeRestoresTarget` | src/main/java/com/portfolio/strategy/ThresholdRebalancingStrategy.java:16-17 | for a non-zero total and a deviation taken from an `Asset`, allocation + trade / total = target: the trade restores the asset exactly to its target |
| `ThresholdRebalancing.TwoHoldingTrades` | src/test/java/com/portfolio/strategy/ThresholdRebalancingStrategyTest.java:18-61 | on the two-holding portfolio with 1000 in cash, with the deviations and trades both taken against its total (holdings plus cash), threshold 0.3 gives no trades; threshold 0.1 gives exactly {AAPL: 900}, so MSFT is absent |
| `ThresholdRebalancing.DescriptionMentionsThreshold` | src/main/java/com/portfolio/strategy/ThresholdRebalancingStrategy.java:30-33 | the strategy description contains the word "threshold" |
| `RebalancerService.PortfolioRebalancer.constructor` | src/main/java/com/portfolio/service/PortfolioRebalancer.java:8-12 | the strategy is fixed at construction (an immutable `const` field) |
| `RebalancerService.PortfolioRebalancer.Rebalance` | src/main/java/com/portfolio/service/PortfolioRebalancer.java:14-17 | the stocks are unchanged; the total is refreshed to the sum of their values even if it was stale; the result is the equal-weight plan on the refreshed portfolio |
| `RebalancerService.RebalanceTwice` | src/main/java/com/portfolio/service/PortfolioRebalancer.java:14-17 | two rebalances with nothing changed in between return the same map |

## Left out

- The Swing user interface and the program entry point (`PortfolioGUI.java`, `Main.java`). They are presentation only. The interface's direct `getStocks().clear()` bypasses the total refresh. That is caller misuse, so it is not part of the core.
- `printRebalancingPlan`: it writes to the console, in `HashMap` iteration order.
- The `RebalancingStrategy` interface. Its signature (`calculateRebalancingTrades` with a threshold) does not match what `PortfolioRebalancer` calls, and `EqualWeightStrategy` declares the interface but defines neither `calculateRebalancingTrades` nor `getStrategyDescription`. The rebalancer therefore holds an `EqualWeightStrategy` directly.
- The Asset-generation `Portfolio` API (`addAsset`, `removeAsset`, the cash balance, `getCurrentAllocations`, `getDeviationFromTarget`, `getTotalDeviation`, `needsRebalancing`). Its implementation is not part of this model. Only the numbers its tests fix are reproduced, through `AssetHoldings`.
- Setters, `equals`, `hashCode` and `toString` generated by Lombok. Only fields and hand-written methods are modelled.
- IEEE-754 effects: rounding error, NaN and infinities.
  - A Stock allocation against a zero total is excluded by a precondition.
  - A zero price in the equal-weight strategy is excluded by a precondition.
  - With no stocks, `100.0 / 0` is never read. The model computes 0 there instead of infinity.
- The threshold strategy reads its deviation map and total as arguments, not from a portfolio object. The portfolio method that would supply them is not part of this model.
- Iteration order over the deviation map: the threshold strategy's loop visits entries in an arbitrary order, like `HashMap`. The result does not depend on that order because the keys are distinct.
- The strategy names and the description are constants, not getter methods.
