# BybitGo trading-bot control core in Dafny

This project is a Dafny model of the control core of BybitGo, an automated
spot-trading bot for the Bybit exchange. One trading cycle of the bot does
the following:

- skips the cycle while its circuit breaker is open;
- refreshes the six top coins through the breaker;
- fetches klines (candles) for each coin through the breaker;
- classifies each market with the analyzer, producing a volatility, trend
  and volume regime;
- rebuilds the correlation matrix;
- checks stop-loss, take-profit and trailing stops and the per-symbol
  drawdown limits;
- asks the strategy selector for the heaviest of the four strategies
  (market making, momentum, mean reversion, volatility breakout);
- runs that strategy's analysis, then logs a trade and sends an alert for
  every non-HOLD signal;
- folds each signal's strength into a smoothed per-symbol performance figure;
- rebalances the portfolio through the breaker;
- recomputes the performance metrics;
- sends an emergency-stop alert when the risk limits are exceeded.

Dashboard commands ("start", "stop", "rebalance", "emergency_stop") switch
the bot's running flag. A ticker drives one cycle per tick while the bot
runs.

Each Go package of the core becomes one Dafny module:

| module | file | Go source |
|---|---|---|
| `Outcomes`, `Configuration` | `outcomes.dfy`, `configuration.dfy` | `Option`/`Result` and the configuration record |
| `Bybit` | `bybit.dfy` | the exchange types and the pure parts of the client |
| `Strategy` | `strategy.dfy` | strategy identifiers and the window sums and RSI the strategies share |
| `MarketIndicators` | `market_indicators.dfy` | the analyzer's pure indicator functions |
| `MarketAnalysis` | `market_analyzer.dfy` | the `MarketAnalyzer` class, its correlation matrix and diversification score |
| `MomentumStrategy`, `MeanReversionStrategy`, `MarketMakingStrategy`, `VolatilityBreakoutStrategy` | one file each | the four strategies |
| `StrategySelection` | `strategy_ai.dfy` | the regime-driven weight table and the `StrategyAI` class |
| `CircuitBreakers` | `circuit_breaker.dfy` | a pure step function and the `CircuitBreaker` class built on it |
| `RiskManagement` | `risk_manager.dfy` | the `RiskManager` class and its position table |
| `PortfolioManagement` | `portfolio_manager.dfy` | the `PortfolioManager` class: allocations, trade log, metrics |
| `Backtesting` | `backtester.dfy` | the simulated back-test loop |
| `TradingBots` | `bot.dfy` | the `TradingBot` class: commands, the trading cycle, the loop and `Run` |

How the Go code maps onto Dafny:

- Objects that the Go code updates in place are Dafny classes whose methods
  name their frames. These are the breaker, the analyzer, the strategy
  selector, the risk manager, the portfolio manager and the bot.
- Loops are `while` loops with invariants. Each method is proved against a
  specification function.
- Go `float64` is modelled as `real`.
- Go map iteration order is arbitrary, so a loop over a map picks any
  remaining key.
- Inputs on which the Go code panics are excluded by `requires`; for the
  trading cycle this is `TradingBots.Admissible`. Errors the
  Go code returns are `Option`/`Result` values.

The analyzer needs a square root for its correlations. The model takes it
as a parameter `sqrt` and assumes only that it returns positive roots of
positive numbers (`MarketIndicators.PositiveRoot`).

The market-data calls are inputs. Each call's answer is a `Result`, and one
cycle's inputs are bundled as `TradingBots.CycleInputs`:

- the market-data answer for each symbol;
- the clock reading;
- the square-root function;
- the signal each strategy returns.

The top-coin query is not an input: the client answers it with its fixed
list of six symbols and never fails, and the portfolio manager always asks
for six, so every refresh in the bot receives `TradingBots.TopCoinsAnswer`.

The loop's input is a sequence of events: ticks, dashboard commands and a
shutdown.

## Model

| member | source | states |
|---|---|---|
| Bybit.GetTopCoins | internal/bybit/client.go:40-50 | the first `limit` of the six fixed symbols (all six when limit ≥ 6), a prefix of the fixed list, no duplicates |
| Bybit.BuildOrderRequest | internal/bybit/client.go:97-138 | "BUY" becomes a buy and every other side a sell; "MARKET" becomes a market order and every other type a limit order; a price is attached exactly when the type is "LIMIT" |
| Bybit.SplitSymbol | internal/bybit/client.go:155-208 | the quote is always USDT; a symbol longer than five characters ending in USDT splits into base + "USDT", and any other symbol is taken as BTC |
| Bybit.PositionsFromShape | internal/bybit/client.go:155-208 | one LONG position per base-coin balance and one CASH position per quote-coin balance, all for the requested symbol at zero price and PnL |
| Bybit.GetPositions | internal/bybit/client.go:155-208 | a wallet error is returned as an error; otherwise the result is exactly the positions built from the balances in order |
| Strategy.SumClosesBounds | internal/strategy/mean_reversion.go:105-141 | closes within [low, high] give a window sum within [n·low, n·high] |
| Strategy.MeanWithinBounds | internal/strategy/mean_reversion.go:105-141 | the mean close of a non-empty window lies between its lowest and highest close |
| Strategy.GainsLossesNonNegative | internal/strategy/momentum.go:100-130 | the summed gains and the summed losses are never negative |
| Strategy.RsiFrom | internal/strategy/momentum.go:100-130 | RSI lies in [0, 100]; it is 50 when nothing moved, 0 with only losses, 100 with only gains, and below 100 whenever there is a loss |
| Strategy.Rsi | internal/strategy/momentum.go:100-130 | the RSI of a kline series (identical in mean_reversion.go:144-174) lies in [0, 100] |
| Strategy.CalculateRsi | internal/strategy/momentum.go:100-130 | the index loop computes `Rsi`, which is 50 below 14 klines |
| MarketIndicators.Mids | internal/market/analyzer.go:160-200 | one mid price (high + low)/2 per kline |
| MarketIndicators.ChangeCount | internal/market/analyzer.go:203-224 | the number of steps with a non-zero previous price, at most the number of steps |
| MarketIndicators.ChangeSumNonNegative | internal/market/analyzer.go:203-224 | the sum of absolute relative changes is non-negative |
| MarketIndicators.SimpleVol | internal/market/analyzer.go:203-224 | the mean absolute relative change, 0 for fewer than two prices; never negative |
| MarketIndicators.FlatChangeSum | internal/market/analyzer.go:203-224 | a constant series has no relative change |
| MarketIndicators.FlatSeriesHasNoVolatility | internal/market/analyzer.go:203-224 | a constant price series has volatility 0 |
| MarketIndicators.SimpleVolatility | internal/market/analyzer.go:203-224 | the loop computes `SimpleVol` |
| MarketIndicators.VolatilityLevel | internal/market/analyzer.go:160-200 | "high" iff recent > 1.2·long-term, "low" iff recent < 0.8·long-term, "medium" otherwise (three exclusive cases) |
| MarketIndicators.Volatility | internal/market/analyzer.go:160-200 | the volatility record keeps the symbol, has non-negative recent and long-term volatility, and its regime is one of the three levels |
| MarketIndicators.CalculateVolatility | internal/market/analyzer.go:160-200 | computes `Volatility`; fewer than two klines give "low" with zero volatilities |
| MarketIndicators.Closes | internal/market/analyzer.go:227-270 | one close per kline |
| MarketIndicators.LinearRegressionSlope | internal/market/analyzer.go:273-298 | the accumulation loop computes the least-squares slope `Slope` |
| MarketIndicators.SlopeDenominatorPositive | internal/market/analyzer.go:273-298 | for two or more points the regression denominator n·Σx² − (Σx)² is positive |
| MarketIndicators.FlatSums | internal/market/analyzer.go:273-298 | for a constant series Σy = c·n and Σxy = c·Σx |
| MarketIndicators.FlatSeriesHasNoSlope | internal/market/analyzer.go:273-298 | a constant series has slope 0 |
| MarketIndicators.TrendFromSlope | internal/market/analyzer.go:227-270 | "up" iff slope > 0.001, "down" iff slope < −0.001, "sideways" otherwise; strength is min(1, \|slope\|/0.05) |
| MarketIndicators.CalculateTrend | internal/market/analyzer.go:227-270 | computes `Trend`; the direction is one of three and the strength lies in [0, 1] |
| MarketIndicators.VolumeTrend | internal/market/analyzer.go:301-344 | "increasing" iff ratio > 1.2, "decreasing" iff ratio < 0.8, "stable" otherwise |
| MarketIndicators.Volume | internal/market/analyzer.go:301-344 | current volume is the last kline's; average·n is the volume sum; ratio·average = current when average > 0, else ratio 1; empty input gives the zero "stable" profile |
| MarketIndicators.CalculateVolumeProfile | internal/market/analyzer.go:301-344 | the loop computes `Volume` |
| MarketIndicators.VolatilityRegime | internal/market/analyzer.go:347-349 | the regime name is the level followed by "_volatility" |
| MarketIndicators.TrendRegime | internal/market/analyzer.go:352-361 | trending_up / trending_down / ranging exactly for up / down / anything else |
| MarketIndicators.VolumeRegime | internal/market/analyzer.go:364-373 | high_volume / low_volume / normal_volume exactly for increasing / decreasing / anything else |
| MarketIndicators.SquaredDeviationNonNegative | internal/market/analyzer.go:461-493 | the sum of squared deviations is non-negative |
| MarketIndicators.CrossDeviationSymmetric | internal/market/analyzer.go:461-493 | the co-deviation sum is symmetric in its two series |
| MarketIndicators.PearsonSymmetric | internal/market/analyzer.go:461-493 | pearson(x, y) = pearson(y, x) |
| MarketIndicators.CoefficientOfSelf | internal/market/analyzer.go:461-493 | numerator/√(d·d) is 1 for a positive d |
| MarketIndicators.PearsonSelf | internal/market/analyzer.go:461-493 | a non-constant series correlates perfectly (1) with itself |
| MarketIndicators.PearsonCorrelation | internal/market/analyzer.go:461-493 | the summation loop computes `Pearson` |
| MarketIndicators.VolumeConfidence | internal/market/analyzer.go:871-981 | a directional move with volume change > 50% gives 1.0 and a falling volume gives 0.2; for a flat move, 0.7 exactly when volume more than doubled, else 0.3 |
| MarketIndicators.AnalyzeVolumeWeightedSignal | internal/market/analyzer.go:871-981 | BUY iff the last change is above +1% with overall confidence ≥ 0.3, SELL iff below −1% likewise; the overall confidence is 0.6·price + 0.4·volume and lies in [0, 1]; fewer than two klines give HOLD with zero confidences |
| MarketAnalysis.LastN | internal/market/analyzer.go:144-157 | the last min(n, \|s\|) elements, in order |
| MarketAnalysis.Shorter | internal/market/analyzer.go:433-458 | the common length is the smaller of the two lengths |
| MarketAnalysis.SeriesCorrelationSymmetric | internal/market/analyzer.go:433-458 | the correlation of two histories over their common tail is symmetric |
| MarketAnalysis.CorrelationSymmetric | internal/market/analyzer.go:433-458 | calculateCorrelation(a, b) = calculateCorrelation(b, a), including the missing-history cases |
| MarketAnalysis.RowSumBounds | internal/market/analyzer.go:520-555 | with entries of magnitude ≤ 1 a row's \|correlation\| sum lies between 0 and its pair count |
| MarketAnalysis.PairSumBounds | internal/market/analyzer.go:520-555 | the total \|correlation\| lies between 0 and the number of pairs |
| MarketAnalysis.PairCountPositive | internal/market/analyzer.go:520-555 | two or more symbols give at least n−1 pairs |
| MarketAnalysis.DiversificationBounds | internal/market/analyzer.go:520-555 | the diversification score is at most 1, and at least 0 when every correlation has magnitude ≤ 1 |
| MarketAnalysis.InsertByStrength | internal/market/analyzer.go:496-517 | one insertion step keeps the list ordered by decreasing \|correlation\| and adds exactly the new asset |
| MarketAnalysis.SortByStrength | internal/market/analyzer.go:496-517 | the result is ordered by decreasing \|correlation\| and is a permutation of the input |
| MarketAnalysis.DistinctFromMultiset | internal/market/analyzer.go:496-517 | a permutation of a duplicate-free list is duplicate-free with the same members |
| MarketAnalysis.StoreKeepsEntries | internal/market/analyzer.go:397-430 | storing a correctly computed entry keeps every matrix entry correct |
| MarketAnalysis.CoveredPairs | internal/market/analyzer.go:397-430 | once every row is filled, every pair of tracked symbols has an entry |
| MarketAnalysis.SymbolsOf | internal/market/analyzer.go:397-430 | the map's keys as a duplicate-free list |
| MarketAnalysis.FillRow | internal/market/analyzer.go:397-430 | the inner loop fills one row with correct entries |
| MarketAnalysis.BuildMatrix | internal/market/analyzer.go:397-430 | the result is the full correlation matrix of the price history |
| MarketAnalysis.CorrelationMatrixShape | internal/market/analyzer.go:397-430 | the matrix has 1 on its diagonal and is symmetric |
| MarketAnalysis.MarketAnalyzer.constructor | internal/market/analyzer.go:104-112 | all trackers, the history and the matrix start empty |
| MarketAnalysis.MarketAnalyzer.GetMarketRegime | internal/market/analyzer.go:376-394 | the default regime ("unknown" for volatility, trend and volume) unless all three trackers hold the symbol, in which case the three regime names derived from them |
| MarketAnalysis.MarketAnalyzer.UpdatePriceHistory | internal/market/analyzer.go:144-157 | the symbol's history becomes the last 100 closes, in order; nothing else changes |
| MarketAnalysis.MarketAnalyzer.AnalyzeMarketConditions | internal/market/analyzer.go:115-141 | the three trackers and the history are updated for the symbol, the matrix is untouched, and the returned regime is the one `GetMarketRegime` now reports |
| MarketAnalysis.MarketAnalyzer.CalculateCorrelation | internal/market/analyzer.go:433-458 | 0 unless both histories exist, otherwise Pearson over the common tail |
| MarketAnalysis.MarketAnalyzer.GetDiversificationScore | internal/market/analyzer.go:520-555 | computes `Diversification`; at most 1, and exactly 1 for one symbol or none |
| MarketAnalysis.MarketAnalyzer.GetHighlyCorrelatedAssets | internal/market/analyzer.go:496-517 | exactly the other symbols whose \|correlation\| is at least the threshold, duplicate-free and ordered by decreasing \|correlation\|; empty for an unknown symbol |
| MarketAnalysis.MarketAnalyzer.CalculateCorrelations | internal/market/analyzer.go:397-430 | the stored and returned matrix is the correlation matrix of the price history; the trackers are unchanged |
| MomentumStrategy.CalculateEma | internal/strategy/momentum.go:159-176 | the loop computes `Ema` |
| MomentumStrategy.EmaWithinWindow | internal/strategy/momentum.go:159-176 | the EMA of closes within [low, high] lies within [low, high] |
| MomentumStrategy.CalculateMacd | internal/strategy/momentum.go:133-156 | MACD is above its signal line exactly when MACD > 0, and below it exactly when MACD < 0 |
| MomentumStrategy.Analyze | internal/strategy/momentum.go:34-80 | BUY iff RSI < 30 and MACD rising, SELL iff RSI > 70 and MACD falling, with the source's strength formulas, else HOLD at 0.5; an empty series gives HOLD at 0; a non-HOLD strength lies in (0, 1] |
| MomentumStrategy.Execute | internal/strategy/momentum.go:83-92 | never an error; orders would be placed exactly for a non-HOLD signal |
| MeanReversionStrategy.SqDevSumNonNegative | internal/strategy/mean_reversion.go:105-141 | the squared-deviation sum is non-negative |
| MeanReversionStrategy.BandsOrdered | internal/strategy/mean_reversion.go:105-141 | lower ≤ middle ≤ upper, and the bands are symmetric about the middle |
| MeanReversionStrategy.SqDevSumConstant | internal/strategy/mean_reversion.go:105-141 | a window of equal closes has no deviation from them |
| MeanReversionStrategy.FlatWindowCollapses | internal/strategy/mean_reversion.go:105-141 | a flat window gives three equal bands |
| MeanReversionStrategy.CollectCloses | internal/strategy/mean_reversion.go:105-141 | the first loop returns the window's closes and their sum |
| MeanReversionStrategy.SquaredDeviations | internal/strategy/mean_reversion.go:105-141 | the second loop returns the squared-deviation sum |
| MeanReversionStrategy.CalculateBollingerBands | internal/strategy/mean_reversion.go:105-141 | computes `Bands`: the middle is the window mean and the bands are middle ± 2 × the window's variance (the source takes no square root), all three 0 with fewer than 20 klines, with lower ≤ middle ≤ upper |
| MeanReversionStrategy.BuySellExclusive | internal/strategy/mean_reversion.go:33-85 | the buy and sell conditions never hold together |
| MeanReversionStrategy.Analyze | internal/strategy/mean_reversion.go:33-85 | BUY iff the price is below the lower band with RSI < 30, SELL iff above the upper band with RSI > 70, with the source's strengths, else HOLD at 0.5 |
| MeanReversionStrategy.Execute | internal/strategy/mean_reversion.go:88-97 | never an error; orders would be placed exactly for a non-HOLD signal |
| MarketMakingStrategy.OptimalSpread | internal/strategy/market_making.go:33-71 | spread = γ·σ², non-negative for γ ≥ 0 |
| MarketMakingStrategy.Quote | internal/strategy/market_making.go:33-71 | bid and ask are the spread apart and centred on the mid price |
| MarketMakingStrategy.Analyze | internal/strategy/market_making.go:33-71 | PLACE_ORDERS iff there are klines and the spread exceeds the minimum profitable spread, otherwise HOLD; the strength is 1 − spread with klines and 0 without |
| MarketMakingStrategy.DefaultsNeverPlaceOrders | internal/strategy/market_making.go:33-71 | with the default parameters the strategy always holds, with strength 0.99996 when there is data |
| MarketMakingStrategy.Execute | internal/strategy/market_making.go:74-84 | never an error; orders would be placed exactly for PLACE_ORDERS |
| VolatilityBreakoutStrategy.ExtremesOfWindow | internal/strategy/volatility_breakout.go:104-136 | the highest high and lowest low bound every kline of the window and are attained by one |
| VolatilityBreakoutStrategy.ChannelOrdered | internal/strategy/volatility_breakout.go:104-136 | lower ≤ upper, and the channel contains every kline of the window |
| VolatilityBreakoutStrategy.CalculateVolatilityChannel | internal/strategy/volatility_breakout.go:104-136 | the scan computes `Channel` |
| VolatilityBreakoutStrategy.CalculateAverageVolume | internal/strategy/volatility_breakout.go:139-153 | the loop computes `AverageVolume` |
| VolatilityBreakoutStrategy.NoBreakoutOnWellFormedData | internal/strategy/volatility_breakout.go:31-84 | when each kline's low ≤ close ≤ high, neither breakout condition can hold (see below) |
| VolatilityBreakoutStrategy.Analyze | internal/strategy/volatility_breakout.go:31-84 | SELL iff the close falls below the channel with volume confirmation, BUY iff it rises above it (and no sell), with the source's strengths, else HOLD at 0.5 |
| VolatilityBreakoutStrategy.Execute | internal/strategy/volatility_breakout.go:87-96 | never an error; orders would be placed exactly for a non-HOLD signal |
| StrategySelection.Raw | internal/strategy/ai.go:63-124 | the adjusted weight table covers exactly the four strategies |
| StrategySelection.Normalize | internal/strategy/ai.go:63-124 | with a positive total every weight is divided by it; otherwise the table is unchanged |
| StrategySelection.RawTotalIsOne | internal/strategy/ai.go:63-124 | the regime adjustments cancel out, so the raw weights always total 1 |
| StrategySelection.NormalizationIsIdentity | internal/strategy/ai.go:63-124 | normalising the raw table changes nothing |
| StrategySelection.NormalizedSumsToOne | internal/strategy/ai.go:63-124 | any table with a positive total normalises to total 1 |
| StrategySelection.UnmatchedRegimeKeepsBaseWeights | internal/strategy/ai.go:63-124 | a regime matching none of the adjusted names leaves every strategy at 0.25 |
| StrategySelection.WeightsCanBeNegative | internal/strategy/ai.go:63-124 | low volatility, ranging and low volume give volatility breakout the weight −0.45 |
| StrategySelection.SomeWeightPositive | internal/strategy/ai.go:63-124 | every regime leaves some strategy with positive weight |
| StrategySelection.VolatilityScore | internal/strategy/ai.go:135-144 | 0.9 exactly for high volatility, 0.3 exactly for low, else 0.6 |
| StrategySelection.TrendScore | internal/strategy/ai.go:147-156 | 0.9 exactly when trending up or down, 0.3 exactly when ranging, else 0.6 |
| StrategySelection.VolumeScore | internal/strategy/ai.go:159-168 | 0.9 exactly for high volume, 0.3 exactly for low, else 0.6 |
| StrategySelection.MiddleScoreMeansNoAdjustment | internal/strategy/ai.go:135-168 | a regime scoring 0.6 on an axis gets no weight adjustment on that axis |
| StrategySelection.AdjustForVolatility | internal/strategy/ai.go:63-124 | each strategy's weight moves by its volatility delta |
| StrategySelection.AdjustForTrend | internal/strategy/ai.go:63-124 | each strategy's weight moves by its trend delta |
| StrategySelection.AdjustForVolume | internal/strategy/ai.go:63-124 | each strategy's weight moves by its volume delta |
| StrategySelection.SumWeights | internal/strategy/ai.go:63-124 | the loop over the map computes the total |
| StrategySelection.DivideWeights | internal/strategy/ai.go:63-124 | every weight divided by the total, same keys |
| StrategySelection.CalculateStrategyWeights | internal/strategy/ai.go:63-124 | the result is the normalised table, which equals the raw table |
| StrategySelection.StrategyAI.constructor | internal/strategy/ai.go:24-29 | shares the given analyzer and starts with no stored weights |
| StrategySelection.StrategyAI.GetStrategyWeights | internal/strategy/ai.go:127-132 | the stored table for the symbol, or an empty one |
| StrategySelection.StrategyAI.SelectStrategy | internal/strategy/ai.go:32-60 | stores the regime's weights for the symbol and returns a strategy of maximal weight; market making when no weight is positive |
| StrategySelection.CopyWeights | internal/strategy/ai.go:32-60 | the copy loop yields the same table |
| StrategySelection.HighestWeight | internal/strategy/ai.go:32-60 | the running maximum starts at 0: it bounds every weight, is attained by the returned strategy when positive, and defaults to market making |
| CircuitBreakers.NewBreaker | internal/risk/circuit_breaker.go:19-26 | a new breaker is closed, with no failures, the given timeout and the given threshold |
| CircuitBreakers.Step | internal/risk/circuit_breaker.go:29-78 | open within the timeout: the call is refused and nothing changes; open past the timeout, or half-open: the function runs, success closes the breaker and failure reopens it; closed: a failure counts and opens the breaker at the threshold, a success resets the count |
| CircuitBreakers.NewBreakerInv | internal/risk/circuit_breaker.go:19-26 | a new breaker satisfies the breaker invariant |
| CircuitBreakers.StepInv | internal/risk/circuit_breaker.go:29-78 | every call keeps the invariant, with the failure count between 0 and the threshold |
| CircuitBreakers.RunInv | internal/risk/circuit_breaker.go:29-78 | any sequence of calls keeps the invariant and the threshold |
| CircuitBreakers.FailuresAccumulate | internal/risk/circuit_breaker.go:29-78 | fewer failing calls than the threshold leave the breaker closed, counting each failure |
| CircuitBreakers.ThresholdFailuresOpen | internal/risk/circuit_breaker.go:29-78 | exactly `threshold` failing calls open the breaker |
| CircuitBreakers.OpenHoldsWithinTimeout | internal/risk/circuit_breaker.go:29-78 | calls made within the timeout leave an open breaker exactly as it was |
| CircuitBreakers.CircuitBreaker.constructor | internal/risk/circuit_breaker.go:19-26 | the fields are those of `NewBreaker` |
| CircuitBreakers.CircuitBreaker.Call | internal/risk/circuit_breaker.go:29-78 | the fields, the error and whether the function ran are those of `Step` |
| CircuitBreakers.CircuitBreaker.State | internal/risk/circuit_breaker.go:81-85 | the stored state, without consulting the timeout |
| RiskManagement.TotalNonNegative | internal/risk/manager.go:103-109 | a sum of non-negative per-position terms is non-negative |
| RiskManagement.ExposureNonNegative | internal/risk/manager.go:103-109 | positions of non-negative size and price have non-negative exposure |
| RiskManagement.PortfolioWithinLimitsKeepsTrading | internal/risk/manager.go:311-325 | with non-negative limits, a portfolio that passes the portfolio risk check never triggers the stop |
| RiskManagement.UpdatedRisk | internal/risk/manager.go:164-206 | the entry takes size, prices and PnL from the position; stop-loss and take-profit are at the configured percentages from the average price; the peak is the higher of the old peak and the current value; only a new peak with an active trailing stop moves that stop, to the stop-loss level |
| RiskManagement.UpdateLowersTrailingStop | internal/risk/manager.go:164-206 | a new peak whose stop-loss level lies below the active trailing stop lowers the trailing stop |
| RiskManagement.CheckOne | internal/risk/manager.go:222-263 | the price is updated; a position of size ≤ 0 never exits; a trailing-stop, stop-loss or take-profit exit is reported exactly under the source's conditions, first hit wins in that order; without an exit an active trailing stop is ratcheted up to the stop-loss distance below a new peak price, and it never falls |
| RiskManagement.ExitsAmongAdd | internal/risk/manager.go:222-263 | the set of exits over a key set grows by the checked key's exit, if any |
| RiskManagement.CheckAll | internal/risk/manager.go:222-263 | every position is checked once, and the actions are exactly the exits of the priced positions |
| RiskManagement.DrawdownAlertsAdd | internal/risk/manager.go:266-283 | the alert set over a key set grows by the key's alert exactly when it is over the limit |
| RiskManagement.AtPeakNotFlagged | internal/risk/manager.go:266-283 | a position at its peak value is never flagged |
| RiskManagement.RiskManager.constructor | internal/risk/manager.go:41-46 | keeps the configuration, starts with no positions |
| RiskManagement.RiskManager.GetTotalExposure | internal/risk/manager.go:103-109 | the sum of size·current price over all positions |
| RiskManagement.RiskManager.CalculatePortfolioDrawdown | internal/risk/manager.go:112-126 | total unrealised PnL over total cost, or 0 when the cost is 0 |
| RiskManagement.RiskManager.CalculatePortfolioVolatility | internal/risk/manager.go:129-147 | the mean of the fixed 2% per-position proxy: 0.02 with positions, 0 without, so within [0, 0.02] |
| RiskManagement.RiskManager.CalculateRiskMetrics | internal/risk/manager.go:88-100 | exposure, drawdown, volatility and correlation risk of the current positions |
| RiskManagement.RiskManager.CheckPositionRisk | internal/risk/manager.go:49-66 | the per-coin limit is checked first, then the capital limit; no error exactly when both hold |
| RiskManagement.RiskManager.CheckPortfolioRisk | internal/risk/manager.go:69-85 | the drawdown error exactly when the drawdown exceeds its limit, the exposure error exactly when only the exposure exceeds the capital, no error exactly when both are within |
| RiskManagement.RiskManager.UpdatePosition | internal/risk/manager.go:164-206 | only the symbol's entry changes, to `UpdatedRisk` of the previous entry |
| RiskManagement.RiskManager.SetTrailingStop | internal/risk/manager.go:209-219 | an unknown symbol changes nothing; otherwise the trailing stop is activated at the stop-loss distance below the given price; no other entry changes |
| RiskManagement.RiskManager.CheckStopLossTakeProfit | internal/risk/manager.go:222-263 | the same symbols, each checked against its price, and the actions are exactly their exits |
| RiskManagement.RiskManager.CheckSymbolDrawdown | internal/risk/manager.go:266-283 | an alert exactly for each position whose drawdown from its peak exceeds the limit, one per symbol |
| RiskManagement.RiskManager.ShouldStopTrading | internal/risk/manager.go:311-325 | true exactly when the drawdown exceeds twice its limit or the exposure exceeds 1.5 × the capital |
| PortfolioManagement.Clamp | internal/portfolio/manager.go:98-134 | the value when inside [lo, hi], else the nearer bound |
| PortfolioManagement.PerformanceFactor | internal/portfolio/manager.go:98-134 | 1 + performance/100, clamped to [0.1, 2] |
| PortfolioManagement.VolatilityFactor | internal/portfolio/manager.go:137-167 | max(0.1, 1/(1 + 100·volatility)), in [0.1, 1) |
| PortfolioManagement.PerformanceAllocation | internal/portfolio/manager.go:98-134 | between 0.1× and 2× the base allocation; the base itself without performance data |
| PortfolioManagement.VolatilityAllocation | internal/portfolio/manager.go:137-167 | between 0.1× and 1× the base; the base itself without positive volatility data |
| PortfolioManagement.PerformanceAllocationClamped | internal/portfolio/manager.go:98-134 | with performance data the allocation is base × the clamped factor |
| PortfolioManagement.VolatilityAllocationScaled | internal/portfolio/manager.go:137-167 | with volatility data the allocation is base × the volatility factor |
| PortfolioManagement.Smoothed | internal/portfolio/manager.go:182-191 | the first sample is taken as is; later ones move the figure to a value between the old figure and the sample |
| PortfolioManagement.TradePnl | internal/portfolio/manager.go:258-290 | a positive quantity gains exactly when a long's price rose or a short's fell |
| PortfolioManagement.LongShortOpposite | internal/portfolio/manager.go:258-290 | long and short PnL of the same trade are opposite |
| PortfolioManagement.LastIndexOf | internal/portfolio/manager.go:258-290 | the index of the symbol's most recent log entry, or none when it has no entry |
| PortfolioManagement.ForSymbol | internal/portfolio/manager.go:303-311 | exactly the log entries of the symbol |
| PortfolioManagement.RecentTrades | internal/portfolio/manager.go:314-320 | the last `count` entries, or the whole log |
| PortfolioManagement.PeakIsRunningMax | internal/portfolio/manager.go:323-425 | the running peak bounds every cumulative PnL so far and equals one of them |
| PortfolioManagement.DrawdownIsLargestDrop | internal/portfolio/manager.go:323-425 | the maximum drawdown is the largest fall of cumulative PnL from an earlier point, and is attained |
| PortfolioManagement.WinsAndLossesDisjoint | internal/portfolio/manager.go:323-425 | wins, losses and break-even trades partition the log |
| PortfolioManagement.ScanMetrics | internal/portfolio/manager.go:323-425 | counts every trade, with total PnL the log's sum, win rate = wins/trades and a non-negative drawdown |
| PortfolioManagement.RecordTrade | internal/portfolio/manager.go:258-290 | one more trade, PnL added, a win exactly when PnL > 0, otherwise a loss; the win rate and average PnL are recomputed over the new total |
| PortfolioManagement.BreakEvenCountedDifferently | internal/portfolio/manager.go:258-290 | a zero-PnL trade counts as a loss when recorded but as neither when the metrics are recomputed |
| PortfolioManagement.EqualSplitSumsToOne | internal/portfolio/manager.go:68-87 | the equal allocations 1/n, summed over the n listed symbols, total 1 |
| PortfolioManagement.PortfolioManager.constructor | internal/portfolio/manager.go:55-65 | keeps the configuration and analyzer; no symbols, allocations, performance or log; zero metrics |
| PortfolioManagement.PortfolioManager.UpdateTopCoins | internal/portfolio/manager.go:68-87 | on error nothing changes and the error is returned; otherwise the symbols are replaced and each gets the allocation 1/n |
| PortfolioManagement.PortfolioManager.GetOptimalAllocation | internal/portfolio/manager.go:170-179 | the mean of the performance-based and volatility-adjusted allocations, so between 0.1× and 1.5× the base allocation |
| PortfolioManagement.PortfolioManager.UpdatePerformance | internal/portfolio/manager.go:182-191 | only the symbol's performance changes, to the smoothed value |
| PortfolioManagement.PortfolioManager.LogTrade | internal/portfolio/manager.go:240-255 | appends one entry with zero PnL; nothing else changes |
| PortfolioManagement.PortfolioManager.UpdateTradePnL | internal/portfolio/manager.go:258-290 | sets the PnL of the symbol's most recent entry, if any, and records the trade in the metrics |
| PortfolioManagement.PortfolioManager.GetTradeLogForSymbol | internal/portfolio/manager.go:303-311 | the filter loop computes `ForSymbol` |
| PortfolioManagement.PortfolioManager.CalculatePerformanceMetrics | internal/portfolio/manager.go:323-425 | an empty log keeps the stored metrics; otherwise the stored and returned metrics are `ScanMetrics` of the log |
| PortfolioManagement.PortfolioManager.TargetValues | internal/portfolio/manager.go:194-222 | one target per symbol: total capital × optimal allocation |
| PortfolioManagement.PortfolioManager.RebalancePortfolio | internal/portfolio/manager.go:194-222 | a failed top-coin refresh returns an error and changes nothing; otherwise the symbols are refreshed and one target value is computed per symbol |
| Backtesting.TradeTimesShape | internal/backtest/backtester.go:62-137 | at most `budget` trade times (`Run` passes 50), each a visited day whose day number is a multiple of 5, strictly increasing |
| Backtesting.TradeTimesComplete | internal/backtest/backtester.go:62-137 | every qualifying day is traded while the budget lasts |
| Backtesting.Times | internal/backtest/backtester.go:62-137 | the timestamps of the trade history, in order |
| Backtesting.CurveNonDecreasing | internal/backtest/backtester.go:62-137 | an equity curve that rises by the net gain per trade is non-decreasing |
| Backtesting.SimulateDays | internal/backtest/backtester.go:62-137 | the daily loop trades on exactly the qualifying days, each trade wins the fixed net, and the curve records equity after every trade |
| Backtesting.Backtester.Run | internal/backtest/backtester.go:62-137 | every simulated trade wins; the final capital is the initial plus net × trades; the curve runs from start to end and never falls; the return and win rate are undefined without capital or trades |
| TradingBots.OtherCommandsKeepFlag | cmd/bot/main.go:132-156 | "rebalance" and unknown commands leave the running flag alone |
| TradingBots.LastDecisiveCommandWins | cmd/bot/main.go:132-156 | after a command sequence the bot runs exactly when its last start/stop/emergency_stop was "start" |
| TradingBots.OneAlertPerEmergencyStop | cmd/bot/main.go:132-156 | exactly one manual emergency-stop alert per "emergency_stop" command |
| TradingBots.PricesExtend | cmd/bot/main.go:224-276 | recording a fetched symbol's last close keeps the price table in step with the data |
| TradingBots.WithData | cmd/bot/main.go:323-390 | the symbols that had market data, in portfolio order |
| TradingBots.AlertedSymbols | cmd/bot/main.go:373-386 | exactly the symbols named by some trade alert |
| TradingBots.SelectedAll | cmd/bot/main.go:313-321 | after the selection loop every symbol has a heaviest strategy and its stored weights |
| TradingBots.RegimesTracked | internal/market/analyzer.go:376-394 | the analyzer's regimes are those of the tracker snapshot |
| TradingBots.SelectAll | cmd/bot/main.go:313-321 | the selection loop visits every symbol once |
| TradingBots.RegimeOfSummarised | cmd/bot/main.go:224-276 | a symbol analysed this cycle has the regime of its new klines |
| TradingBots.UnfoldEvent | cmd/bot/main.go:172-193 | one loop event's effect on the running flag and the cycle count |
| TradingBots.SelectionAvoidsPanics | cmd/bot/main.go:327-345 | on admissible inputs every symbol with data has a selected strategy, and that strategy's analysis does not panic on the symbol's data (no 14-kline series for momentum or mean reversion, no 1-kline series for volatility breakout) |
| TradingBots.EmptyBookNeverStops | cmd/bot/main.go:423-429 | with no positions and non-negative limits the risk stop is never raised |
| TradingBots.StoppedBotStaysIdle | cmd/bot/main.go:172-193 | a stopped bot that never receives "start" runs no cycle and stays stopped |
| TradingBots.TradingBot.constructor | cmd/bot/main.go:43-103 | a valid, running bot with a closed breaker (10 s timeout, 5 failures), empty portfolio, empty risk table and no weights |
| TradingBots.TradingBot.HandleCommand | cmd/bot/main.go:134-155 | "start" sets the flag, "stop" and "emergency_stop" clear it, the latter with one alert; anything else changes nothing |
| TradingBots.TradingBot.HandleOverrideCommands | cmd/bot/main.go:132-156 | the flag and the alerts after a whole command sequence |
| TradingBots.TradingBot.FetchSymbol | cmd/bot/main.go:224-276 | a fetch through the breaker: data are kept only on success, and a symbol with data is analysed (trackers updated) |
| TradingBots.TradingBot.FetchMarketData | cmd/bot/main.go:216-279 | data only for fetched symbols; all of them while the breaker stays closed; prices are the last closes; each analysed symbol's regime is that of its klines |
| TradingBots.TradingBot.SelectStrategies | cmd/bot/main.go:313-321 | one selection per symbol, each a heaviest strategy for the symbol's regime, with the weights stored |
| TradingBots.TradingBot.ExecuteOne | cmd/bot/main.go:327-390 | one log entry per symbol with data, stamped with the cycle's time and carrying the action, strategy and strength, the last close as price and total capital × optimal allocation ÷ price as quantity; an alert with the same price and quantity exactly for a non-HOLD signal; the performance sample is strength × 100 |
| TradingBots.TradingBot.ExecuteStrategies | cmd/bot/main.go:323-390 | exactly the symbols with data are processed, in order, each logged and sampled, alerts exactly for non-HOLD signals, each at its symbol's last close |
| TradingBots.TradingBot.UpdatePerformances | cmd/bot/main.go:392-396 | every sample is folded into its symbol's smoothed performance |
| TradingBots.TradingBot.TopCoinsStep | cmd/bot/main.go:207-214 | the refresh runs through the closed breaker, never fails and replaces the symbols by the six top coins |
| TradingBots.TradingBot.RiskSteps | cmd/bot/main.go:281-311 | the correlation matrix is rebuilt and every position checked against the fetched prices |
| TradingBots.TradingBot.SelectionStep | cmd/bot/main.go:313-321 | every symbol gets a strategy, heaviest for its analysed regime |
| TradingBots.TradingBot.ExecutionSteps | cmd/bot/main.go:323-396 | execution and performance folding over the symbols with data |
| TradingBots.TradingBot.RebalanceStep | cmd/bot/main.go:398-405 | refused (circuit open) when the breaker is open; otherwise it succeeds and the symbols are the six top coins |
| TradingBots.TradingBot.ReportStep | cmd/bot/main.go:407-431 | metrics recomputed; the "Risk limits exceeded" alert exactly when the risk manager says stop |
| TradingBots.TradingBot.MarketSteps | cmd/bot/main.go:216-396 | steps 2 to 8 of the cycle: the breaker is open afterwards exactly when the fetches opened it |
| TradingBots.TradingBot.CycleSteps | cmd/bot/main.go:216-431 | steps 2 to 10: no error exactly when the fetches did not open the breaker, otherwise the rebalance's circuit-open error; without error the symbols are the six top coins and the risk alert is sent exactly when the stop condition holds |
| TradingBots.TradingBot.RunTradingCycle | cmd/bot/main.go:198-433 | an open breaker skips the cycle changing nothing; otherwise the whole cycle runs on the six top coins, ending with the circuit-open error exactly when the fetches opened the breaker, and no selected strategy is run on data it panics on; from an empty risk table the risk alert is never sent |
| TradingBots.TradingBot.Tick | cmd/bot/main.go:180-188 | a cycle runs exactly when the bot is running; a stopped bot changes nothing |
| TradingBots.TradingBot.HandleEvent | cmd/bot/main.go:172-193 | a tick runs a cycle if running; a command updates the flag |
| TradingBots.TradingBot.InitialCycle | cmd/bot/main.go:163-166 | the first cycle runs without looking at the running flag |
| TradingBots.TradingBot.TradingLoop | cmd/bot/main.go:159-195 | one initial cycle plus one per tick while running, up to the first shutdown; the final flag is that of the commands handled |
| TradingBots.TradingBot.Run | cmd/bot/main.go:106-129 | the initial top-coin refresh never fails, so no error is returned and the loop runs; the running flag and the cycle count follow the events |

## Observations

These contracts and lemmas record behaviour that the code has but that its
names and comments do not suggest. Nothing here was executed; each point
follows from the definitions above.

- `StrategySelection.WeightsCanBeNegative`: the regime adjustments can push
  a weight below zero. Selection still works, because it only looks for a
  weight above the running maximum, which starts at 0.
- `VolatilityBreakoutStrategy.NoBreakoutOnWellFormedData`: the channel
  includes the newest kline. A close therefore never leaves it when every
  kline has low ≤ close ≤ high, so the breakout strategy only ever holds on
  such data.
- `PortfolioManagement.BreakEvenCountedDifferently`: `UpdateTradePnL`
  counts a zero-PnL trade as a loss, but recomputing the metrics counts it
  as neither a win nor a loss.
- `TradingBots.EmptyBookNeverStops` and `TradingBots.TradingBot.RunTradingCycle`:
  nothing in the bot records a position in the risk manager. The
  stop-loss, drawdown and risk-limit checks therefore run on an empty table
  and never fire.
- `TradingBots.TradingBot.InitialCycle`: the first cycle runs even when the
  bot was stopped (main.go line 164 does not check the flag).
- `CircuitBreakers.CircuitBreaker.State` and `TradingBots.TradingBot.RunTradingCycle`:
  the cycle asks `State()`, which does not consult the timeout. Once the
  breaker opens, every later cycle is skipped before any call goes through
  the breaker, so the bot never makes the trial call that would close it
  again. Five failed market-data fetches in one cycle open the
  breaker, and that cycle's rebalance then fails with the circuit-open error.
- `MeanReversionStrategy.CalculateBollingerBands`: the "standard
  deviation" is the variance (no square root is taken), so the bands lie
  at twice the variance from the mean and depend on the price scale.
- `MarketMakingStrategy.DefaultsNeverPlaceOrders`: with the default γ and σ
  the spread is below the minimum profitable spread, so market making
  always holds.

## Left out

- Floating point: `float64` is `real`, with no rounding, NaN or infinity.
  Divisions that Go would let produce ±Inf or NaN are excluded by
  preconditions:
  - the strategies' strength formulas (`StrengthDefined`);
  - the regression denominator;
  - the correlation denominators.
- `MeanReversionStrategy.Analyze`: requires `StrengthDefined`, meaning
  non-zero bands. Go would divide by zero and produce an infinite strength.
- `VolatilityBreakoutStrategy.Analyze`: requires `StrengthDefined`, meaning
  a non-zero channel edge in the branch that fires (the upper edge for a
  buy, the lower edge for a sell), for the same reason.
- `TradingBots.TradingBot.ExecuteOne`: the logged quantity is 0 when the
  last close is 0. Go divides by the price without a check.
- `TradingBots.TradingBot.ExecuteStrategies`: its contract carries each
  alert's price; the quantity is stated per symbol by `ExecuteOne`, since it
  depends on the portfolio's allocation at that moment.
- `PortfolioManagement.PortfolioManager.UpdateTopCoins` and
  `PortfolioManagement.PortfolioManager.RebalancePortfolio`: they keep the
  client's answer as a `Result` parameter and model the error path, although
  the client as written never fails.
- `TradingBots.TradingBot.RunTradingCycle`: its inputs are admissible
  only when no fetched series makes the selected strategy's `Analyze`
  panic (main.go line 344 calls it unguarded). Momentum and mean reversion
  index before the first kline on exactly 14 klines (momentum.go line 112,
  mean_reversion.go line 156). Volatility breakout reads the
  second-to-last kline of a 1-kline series (volatility_breakout.go line
  45). The model does not describe the crash; such inputs are excluded.
- `TradingBots.TradingBot.FetchMarketData`: the inputs exclude series of 2
  to 9 klines (`Analyzable`), on which the analyzer's fixed-size slices
  panic.
- `math.Sqrt` is the parameter `sqrt`. Only its positivity is assumed, so
  properties that need exact roots are proved for positive squares only.
- Sharpe and Sortino ratios in the performance metrics are not modelled
  (they need square roots of variances).
- `GetSymbolPerformanceMetrics` and `GetPerformanceSummary` are not
  modelled; they compute and format report-only figures.
- `GetRiskReport` is not modelled; it only formats text for the log.
- `GetCurrentPositions` is not modelled; it is a network read that the
  cycle never calls.
- The exchange client's network calls are inputs to the model:
  - `GetMarketData`, `PlaceOrder` and `CancelOrder` are represented only by
    the pure request mapping (`Bybit.BuildOrderRequest`) and by `Result`
    answers;
  - HTTP, signing and JSON decoding are not modelled.
- Each strategy's `Analyze` inside the cycle is an input (`w.analyze`). The
  four strategy modules model them separately. The cycle ignores what the
  strategies' `Execute` returns beyond logging, so the bot's model does not
  call it.
- The enhanced analysis that the cycle only logs is not modelled: MACD,
  stochastic RSI, VWAP, the combined signal and the indicator combinations.
  Neither is the logging of highly correlated assets and of the
  diversification score inside the cycle. Both functions are modelled on
  their own in `MarketAnalysis`.
- Concurrency:
  - the dashboard's command goroutine is modelled as commands interleaved
    with ticks in one event sequence;
  - the ticker and the shutdown signals are events;
  - mutexes are not modelled.
- The clock is read once per cycle (`w.now`) and is used by every breaker
  call in that cycle.
- Notifications are recorded as a sequence of alerts; e-mail and webhook
  delivery are not modelled.
- Log output is not modelled.
- Error messages are not modelled: an error is its cause, without Go's
  `fmt.Errorf` wrapping text.
- Configuration loading, environment variables and the web dashboard are
  not modelled.
- `Backtesting.Backtester.Run`:
  - the calendar is the parameter `dayOf` (the day-of-month of a
    timestamp);
  - the stored strategy and market data are kept but unused, as in the
    source;
  - `NewBacktester` is the datatype constructor.
