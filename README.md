# Portfolio analytics core, modelled in Dafny

This project models the analytics and allocation backend of a portfolio-management service:

- **Market data.** A latest-price cache with a fifteen-minute time-to-live sits in front of a primary quote provider (Alpha Vantage) and a fallback provider (Finnhub). The layer also parses daily-history replies, filtering them to a window and sorting them by date, and maps symbol-search replies to records.
- **Risk analysis.**
  - Per-ticker daily returns are collected, skipping tickers that fail.
  - Tickers are aligned on common dates, keeping the code's reset of an empty running intersection.
  - Weights are normalised and the weighted portfolio return series is formed.
  - Annualised mean, Sharpe ratio and the cumulative-return drawdown are computed, and an upper-triangular correlation map is built.
  - Several portfolios can be compared, tolerating failures.
  - A random-weight efficient frontier is ranked by Sharpe ratio, and an "optimal" sample is picked from it.
- **Performance snapshots.** The tracker values allocations at current prices and computes day, month and year changes against the latest earlier snapshot. It also serves windowed and sampled history, and start/end metrics.
- **Allocation generators.**
  - Risk-profile generator: class weights, per-class caps whose excess is spread proportionally over the other classes, normalisation, and the split of classes into funds.
  - Risk-level generator: four bands, proportional stock rescaling and a 70/30 bond split.
  - The stand-alone validated generation endpoint.
- **Allocation endpoints.** The "total allocation at most 100%" admission rule on create and update, listing with a portfolio filter and paging, and lookup and delete by id.

Modelling conventions:

- **Numbers.** Prices, returns and percentages are `real`. Instants are whole seconds (`Time.DAY` = 86400).
- **Replies and time as inputs.** Every provider reply, wall-clock reading, database row set and random draw is an input parameter.
- **Non-finite results.** A Python float division by zero raises, so it is modelled as an error or a skipped item. A numpy/pandas division by zero yields NaN or infinity, so the figure is modelled as `None`.
- **Statistics as parameters.** The sample standard deviation behind the volatility, the Pearson coefficient and the frontier's `sqrt(w' C w)` are function parameters.
- **Dictionaries.** A Python dictionary that is iterated in order is a sequence of pairs in insertion order.
- **Database tables.** A table is a sequence of rows in insertion order.
- **Updated objects.** Objects whose fields are updated in place are classes: the price cache, the snapshot store and the allocation table.

Two behaviours of the code are kept exactly as written, although they differ from what the names suggest:

- **Common-date alignment.**
  - It is not a plain intersection of the tickers' dates.
  - The code replaces an empty running intersection with the next ticker's dates and fills missing dates with a return of 0.
  - `RiskReturns.CommonDateSet` models the code. `RiskReturns.ResetKeepsLaterTickersDates` exhibits the difference.
  - `RiskReturns.CommonIsIntersectionWithoutReset` shows that the two agree when no reset happens.
- **Weights for tickers without a series.** The code assigns the weights to exactly the tickers that produced a series. A ticker whose fetch failed has no column, so its percentage is dropped from the normalisation.

## Model

| member | source | states |
|---|---|---|
| Time.Window | backend/app/services/performance_tracker.py:180-185 | the window end is the given end or now; the start is the given start or exactly `days` days before the end |
| Sorting.SortBy | backend/app/services/market_data.py:135-136 | the result is ascending by the key and a permutation of the input |
| MarketData.ParseAlphaVantageQuote | backend/app/services/market_data.py:50-65 | a price comes back iff the status is 200 and "Global Quote" holds "05. price", and it is that field; a non-200 status gives the status-code error |
| MarketData.ParseFinnhubQuote | backend/app/services/market_data.py:67-85 | an empty API key fails before any request; otherwise a price comes back iff the status is 200 and "c" is present, and it is that field; a non-200 status gives the status-code error |
| MarketData.FetchUncached | backend/app/services/market_data.py:28-48 | the primary's price when it has one; else the fallback's; an error iff both fail, naming the symbol and carrying both errors |
| MarketData.FallbackUnusedAfterPrimarySuccess | backend/app/services/market_data.py:28-35 | once the primary succeeds, the fallback's reply cannot change the outcome |
| MarketData.MarketDataService.constructor | backend/app/services/market_data.py:10-18 | both cache maps start empty and have equal key sets |
| MarketData.MarketDataService.GetLatestPrice | backend/app/services/market_data.py:20-48 | a hit (cached, and now before the stored expiry) returns the cached price and changes nothing; a miss returns the primary-then-fallback outcome and, on success, stores the price with expiry now + 15 minutes; a failure leaves both maps unchanged |
| MarketData.FreshEntryIsHitUntilExpiry | backend/app/services/market_data.py:18-33 | a price stored at `now` is a cache hit at every later instant before now + 15 minutes and at none after |
| MarketData.ToPricePoint | backend/app/services/market_data.py:126-133 | the point is built iff all five fields are present, keeping the date and the close |
| MarketData.WindowIndices | backend/app/services/market_data.py:119-124 | exactly the positions of the entries dated inside the inclusive window, in increasing order |
| MarketData.WindowPoints | backend/app/services/market_data.py:119-134 | succeeds iff every in-window entry converts; then every point lies in [start, end] and the points are exactly the converted in-window entries |
| MarketData.WindowPointsInOrder | backend/app/services/market_data.py:119-134 | on success there is one point per in-window entry, and the k-th point is the conversion of the k-th in-window entry, in reply order; repeated entries stay repeated |
| MarketData.CollectWindow | backend/app/services/market_data.py:119-134 | the loop's result equals WindowPoints, including stopping at the first failing in-window entry |
| MarketData.WindowErrorPersists | backend/app/services/market_data.py:121-133 | once a prefix of the reply raises, the whole reply raises with the same error |
| MarketData.GetHistoricalData | backend/app/services/market_data.py:87-140 | defaults end = now and start = end - 365 days; gives the connection, status and missing-"Time Series (Daily)" errors; on success the points are ascending by date, lie in the inclusive window and are a permutation (as a multiset) of WindowPoints: every converted in-window entry, as often as it occurs |
| MarketData.ToSymbolMatch | backend/app/services/market_data.py:153-161 | the record is built iff the five fields are present, and carries exactly those fields |
| MarketData.MapMatches | backend/app/services/market_data.py:153-162 | succeeds iff every match converts; then one record per match, in order |
| MarketData.SearchSymbols | backend/app/services/market_data.py:142-166 | no response gives the connection error; non-200 gives the status-code error; a missing "bestMatches" gives []; otherwise success iff every match converts, and then the k-th record is the conversion of the k-th match |
| RiskReturns.Returns | backend/app/services/risk_analyzer.py:67-73 | defined iff no divisor price is zero; same length as the prices, 0 first, and r[i] * p[i-1] == p[i] - p[i-1] afterwards |
| RiskReturns.DailyReturns | backend/app/services/risk_analyzer.py:67-73 | the append loop computes Returns, stopping at a zero divisor |
| RiskReturns.ReturnsRecoverPrices | backend/app/services/risk_analyzer.py:69-73 | compounding the returns from the first price reproduces every later price |
| RiskReturns.Put | backend/app/services/risk_analyzer.py:75-78 | dictionary assignment: keys stay distinct, the key set gains the key, an existing key keeps its place, a new key goes last, and other entries are untouched |
| RiskReturns.TickerSeries | backend/app/services/risk_analyzer.py:55-78 | a ticker's series, when there is one, has as many dates as returns and starts with return 0 |
| RiskReturns.TickerSeriesOfHistory | backend/app/services/risk_analyzer.py:55-78 | no series iff the fetch fails, the history is empty, or a zero closing price makes the returns undefined; otherwise its dates are the history's dates in order and its returns are Returns of the closing prices |
| RiskReturns.CollectedWeights | backend/app/services/risk_analyzer.py:48-53 | every ticker-bearing allocation's ticker has a weight, and only those tickers have one; the weight is the percentage of the last allocation carrying that ticker |
| RiskReturns.CollectedReturns | backend/app/services/risk_analyzer.py:48-80 | the collected dictionary has distinct keys and well-formed series |
| RiskReturns.CollectedSeriesIsLastUsable | backend/app/services/risk_analyzer.py:48-80 | the series under a ticker is TickerSeries of the last usable allocation carrying it, as `d[key] = value` overwrites |
| RiskReturns.CollectedKeyOrder | backend/app/services/risk_analyzer.py:48-80 | every key has a usable allocation, and the keys appear in the order of their first usable allocation, as dictionary insertion keeps them |
| RiskReturns.CollectedKeysAreUsableTickers | backend/app/services/risk_analyzer.py:48-80 | the dictionary's keys are exactly the tickers whose fetch and return computation succeed; failing tickers are skipped |
| RiskReturns.CollectedEmptyIffAllSkipped | backend/app/services/risk_analyzer.py:82-83 | the analysis has no data exactly when every allocation is skipped |
| RiskReturns.CollectReturns | backend/app/services/risk_analyzer.py:48-80 | the per-allocation loop produces CollectedWeights and CollectedReturns |
| RiskReturns.IntersectionKept | backend/app/services/risk_analyzer.py:86-91 | a date every ticker has is never dropped by the alignment |
| RiskReturns.CommonIsIntersectionWithoutReset | backend/app/services/risk_analyzer.py:86-91 | when the running set never empties before the last ticker, the common dates are exactly the intersection of all tickers' dates |
| RiskReturns.CommonDateSet | backend/app/services/risk_analyzer.py:86-91 | whatever the resets, every common date is a date of the last ticker |
| RiskReturns.ResetKeepsLaterTickersDates | backend/app/services/risk_analyzer.py:86-91 | with date sets {1}, {2}, {2} the common dates are {2} although the intersection is empty |
| RiskReturns.CommonDates | backend/app/services/risk_analyzer.py:86-91 | the fold loop computes CommonDateSet |
| RiskReturns.SortedDates | backend/app/services/risk_analyzer.py:93 | strictly ascending, with exactly the set's elements |
| RiskReturns.ReturnOn | backend/app/services/risk_analyzer.py:99-101 | 0 for a date the ticker lacks; otherwise a return the ticker has on that date |
| RiskReturns.AlignedColumn | backend/app/services/risk_analyzer.py:97-102 | one entry per common date, 0 where the ticker lacks the date |
| RiskReturns.AlignedTable | backend/app/services/risk_analyzer.py:95-104 | one aligned column per ticker in dictionary order |
| RiskReturns.NoFillWithoutReset | backend/app/services/risk_analyzer.py:86-102 | without a reset, every aligned value is a return the ticker really had on that date |
| RiskAnalyzer.WeightVector | backend/app/services/risk_analyzer.py:110 | one weight per column: the allocation percentage, or 0 for a column without one |
| RiskAnalyzer.NormalisedWeights | backend/app/services/risk_analyzer.py:111 | defined iff the raw sum is nonzero; then the weights sum to 1 and each times the raw sum is the raw weight |
| RiskAnalyzer.NormalisationIgnoresScale | backend/app/services/risk_analyzer.py:110-111 | scaling every percentage by a nonzero factor leaves the normalised weights unchanged |
| RiskAnalyzer.PortfolioReturns | backend/app/services/risk_analyzer.py:114 | one weighted return per common date |
| RiskAnalyzer.UniformDayGivesSameReturn | backend/app/services/risk_analyzer.py:114 | with weights summing to 1, a day on which every ticker returned x is a portfolio return of x |
| RiskAnalyzer.TwoTickerScenario | backend/app/services/risk_analyzer.py:110-114 | weights 60/40 normalise to 0.6/0.4, and the two return columns combine to [0, 0.014, -0.008] |
| RiskAnalyzer.Cumulative | backend/app/services/risk_analyzer.py:130 | the cumulative product: (1 + r[0]) times the compounded growth of days 1..t |
| RiskAnalyzer.CumulativeStep | backend/app/services/risk_analyzer.py:130 | it starts at 1 + r[0], and each day multiplies by 1 + r[t] |
| RiskAnalyzer.CumulativePositive | backend/app/services/risk_analyzer.py:130 | while every daily return exceeds -1, the cumulative value stays positive |
| RiskAnalyzer.RunningMax | backend/app/services/risk_analyzer.py:131 | each entry is the maximum of the values up to that day |
| RiskAnalyzer.RunningMaxIsPeak | backend/app/services/risk_analyzer.py:131 | the running maximum is one of the earlier values and bounds all of them |
| RiskAnalyzer.Drawdowns | backend/app/services/risk_analyzer.py:132 | defined iff no peak is zero; one drawdown per day |
| RiskAnalyzer.MaxDrawdown | backend/app/services/risk_analyzer.py:133 | defined iff the series is non-empty with finite drawdowns; it is one of the drawdowns and at most every one |
| RiskAnalyzer.PeaksPositive | backend/app/services/risk_analyzer.py:130-131 | while every return exceeds -1, each value is positive and at most its peak |
| RiskAnalyzer.DrawdownNonPositive | backend/app/services/risk_analyzer.py:130-133 | while every return exceeds -1, every drawdown is at most 0, the first is 0, and the maximum drawdown is at most 0 |
| RiskAnalyzer.NoDrawdownWithoutLosses | backend/app/services/risk_analyzer.py:130-133 | without a negative day, the maximum drawdown is exactly 0 |
| RiskAnalyzer.ExpectedAnnualReturn | backend/app/services/risk_analyzer.py:119-121 | defined iff the series is non-empty; then it is 252 times the mean |
| RiskAnalyzer.SharpeRatio | backend/app/services/risk_analyzer.py:123-127 | defined iff both inputs exist and the volatility is nonzero; then ratio * volatility == expected - 0.02 |
| RiskAnalyzer.CorrelationRow | backend/app/services/risk_analyzer.py:141-146 | row i holds exactly the tickers at positions >= i, each with the coefficient of the two columns |
| RiskAnalyzer.Correlations | backend/app/services/risk_analyzer.py:140-146 | one row per ticker; ticker b is under ticker a iff a <= b (so the diagonal is present); each entry is the coefficient of the two columns |
| RiskAnalyzer.WeightedReturns | backend/app/services/risk_analyzer.py:113-114 | portfolio returns exist iff the weights are finite, with one return per date, each the weighted sum RowReturn of that date's row |
| RiskAnalyzer.Analysis | backend/app/services/risk_analyzer.py:95-148 | columns in dictionary order; common dates sorted; the table is AlignedTable of the series over those dates; the weights are NormalisedWeights of the percentages in column order and sum to 1 when finite; each portfolio return is the weighted sum of its date's row; the expected return is ExpectedAnnualReturn and the maximum drawdown MaxDrawdown of the portfolio returns; portfolio returns and volatility exist iff the weights do; the volatility exists iff the weights do and there are at least two common dates (a one-value sample deviation is NaN), and it is the annualised deviation of the portfolio returns; the expected return exists iff the weights do and there is a common date; a drawdown only with both; Sharpe as SharpeRatio of the two |
| RiskAnalyzer.AnalysisDrawdownNonPositive | backend/app/services/risk_analyzer.py:130-133 | when every portfolio return exceeds -1, the reported maximum drawdown exists and is at most 0, and exactly 0 when no day loses |
| RiskAnalyzer.AnalysisWeightsAreShares | backend/app/services/risk_analyzer.py:110-111 | each column's weight is its percentage over the total of the collected tickers' percentages |
| RiskAnalyzer.LookbackStart | backend/app/services/risk_analyzer.py:42-43 | the window starts exactly `days` days before now |
| RiskAnalyzer.CalculatePortfolioRiskMetrics | backend/app/services/risk_analyzer.py:15-148 | a missing portfolio, no ticker-bearing allocation, and no usable history are each reported, the last iff every allocation is skipped; when some allocation is usable, the result is a success iff the common-date set is non-empty, and otherwise the empty-series error (the 5th percentile of an empty series raises); on success there is at least one common date, the metrics are the Analysis of the collected series, and the correlation map is upper-triangular with the pairwise coefficients |
| RiskAnalyzer.Compared | backend/app/services/risk_analyzer.py:159-175 | every key is a requested id whose analysis succeeded and whose portfolio exists; every such id is a key |
| RiskAnalyzer.ComparedEntryIsLastSuccess | backend/app/services/risk_analyzer.py:161-171 | an id's entry is built from its last successful analysis; other ids' failures do not affect it |
| RiskAnalyzer.ComparePortfolios | backend/app/services/risk_analyzer.py:150-175 | the loop computes Compared, and its keys are a subset of the requested ids |
| Frontier.AnnualMeans | backend/app/services/risk_analyzer.py:186 | each column's mean times 252 |
| Frontier.WeightMap | backend/app/services/risk_analyzer.py:211 | keyed by exactly the columns, each mapped to its weight |
| Frontier.NormalisedDraw | backend/app/services/risk_analyzer.py:195-196 | a valid random draw divided by its sum is non-negative and sums to 1 |
| Frontier.Sample | backend/app/services/risk_analyzer.py:193-212 | the weights, read in column order, are the draw divided by its sum (non-negative, keyed by the columns, summing to 1); the return is their inner product with the annual means; the volatility is volatilityOf those weights and positive; Sharpe * volatility == return |
| Frontier.Samples | backend/app/services/risk_analyzer.py:193-212 | one sample per draw, in drawing order |
| Frontier.GenerateEfficientFrontier | backend/app/services/risk_analyzer.py:177-217 | exactly one entry per draw; a permutation of the samples; non-increasing Sharpe ratio; every entry's weights valid |
| Frontier.FirstHasMaximumSharpe | backend/app/services/risk_analyzer.py:229-231 | the front of a sorted frontier has the maximum Sharpe ratio |
| Frontier.ClosestIndex | backend/app/services/risk_analyzer.py:234-237 | the first index at the minimum distance from the target return |
| Frontier.SelectOptimal | backend/app/services/risk_analyzer.py:229-237 | entry 0 without a target; otherwise the earliest entry at minimum distance from the target, as `min` picks it; none for an empty frontier |
| Frontier.GetOptimalPortfolio | backend/app/services/risk_analyzer.py:219-237 | over the 1000 samples: the maximum Sharpe sample without a target, the closest return with one, always with valid weights; the choice is SelectOptimal on the generated frontier, a permutation of the samples in non-increasing Sharpe order |
| PerformanceTracker.Latest | backend/app/services/performance_tracker.py:125-133 | found iff some row of the portfolio is dated at or before the bound; then it is such a row and has the greatest date among them |
| PerformanceTracker.LatestMonotone | backend/app/services/performance_tracker.py:124-155 | a later bound finds a snapshot whenever an earlier one does, and never an older one |
| PerformanceTracker.Change | backend/app/services/performance_tracker.py:157-165 | no prior snapshot gives no change; a zero prior total raises; otherwise change * prior == (current - prior) * 100 |
| PerformanceTracker.PriorDay | backend/app/services/performance_tracker.py:124-133 | found iff the portfolio has a snapshot dated at least one day before now; then it is such a snapshot, and no such snapshot is dated later (the latest one) |
| PerformanceTracker.PriorMonth | backend/app/services/performance_tracker.py:135-144 | found iff the portfolio has a snapshot dated at least 30 days before now; then it is such a snapshot, and no such snapshot is dated later (the latest one) |
| PerformanceTracker.PriorYear | backend/app/services/performance_tracker.py:146-155 | found iff the portfolio has a snapshot dated at least 365 days before now; then it is such a snapshot, and no such snapshot is dated later (the latest one) |
| PerformanceTracker.CalculateChanges | backend/app/services/performance_tracker.py:114-167 | fails, with the zero-division error, iff some horizon's prior total is zero; each change exists iff a snapshot at or before now minus 1, 30 or 365 days exists, and it is Change of the current value against that horizon's snapshot |
| PerformanceTracker.NestedHorizons | backend/app/services/performance_tracker.py:124-155 | a yearly change implies a monthly one, which implies a daily one |
| PerformanceTracker.ResolveInvestment | backend/app/services/performance_tracker.py:38-49 | the caller's amount when given (0 included), else the latest snapshot's total, else 10000 |
| PerformanceTracker.AssetEntry | backend/app/services/performance_tracker.py:56-77 | price 0 on a failed fetch; quantity 0 for a non-positive price, and for a positive price quantity * price == percentage * amount; value == percentage * amount for a positive price and 0 otherwise |
| PerformanceTracker.TickerIndices | backend/app/services/performance_tracker.py:52-54 | exactly the positions of the allocations with a non-empty ticker, in increasing order |
| PerformanceTracker.AssetEntries | backend/app/services/performance_tracker.py:52-77 | one entry per ticker-bearing allocation, in allocation order: the k-th entry is AssetEntry of the k-th ticker-bearing allocation with its price |
| PerformanceTracker.ValueAllocations | backend/app/services/performance_tracker.py:52-77 | the loop yields AssetEntries and a total equal to the sum of their values |
| PerformanceTracker.Linked | backend/app/services/performance_tracker.py:96-108 | one asset row per entry, each referencing the snapshot id |
| PerformanceTracker.SnapshotStore.Record | backend/app/services/performance_tracker.py:84-108 | appends the snapshot and its asset rows, advances the id, and keeps ids increasing with every asset row referencing a snapshot |
| PerformanceTracker.SnapshotStore.CreateSnapshot | backend/app/services/performance_tracker.py:15-112 | missing portfolio and no allocations fail first; changes are computed against the earlier snapshots only; on success exactly one snapshot (total = sum of asset values) and the asset rows of AssetEntries (one per ticker-bearing allocation, in order) are added; on failure nothing changes |
| PerformanceTracker.HistoryRows | backend/app/services/performance_tracker.py:187-203 | the portfolio's rows in the window passing the interval rule, each as often as it occurs in the table, and no other row |
| PerformanceTracker.PerformanceHistory | backend/app/services/performance_tracker.py:169-206 | default window of 90 days ending now; weekly keeps day-of-week 1, monthly keeps day 1, any other interval keeps all; a permutation (as a multiset) of HistoryRows, ascending by date |
| PerformanceTracker.PercentChange | backend/app/services/performance_tracker.py:253-254 | for a positive start, p * start == absolute * 100; otherwise 0 |
| PerformanceTracker.CalculateMetrics | backend/app/services/performance_tracker.py:208-263 | fails iff the start or end snapshot is missing; otherwise it reports their dates and totals, absolute = end - start, and the percent change |
| PerformanceTracker.MetricsNeedOnlyAStartSnapshot | backend/app/services/performance_tracker.py:225-248 | for an ordered window, the metrics fail exactly when nothing predates the start, and the period start is never after its end |
| ProfileGenerator.BaseAllocationsAreWeights | backend/app/services/portfolio_generator.py:7-29 | each built-in profile lists the five classes once, with non-negative shares summing to 1 |
| ProfileGenerator.BaseAllocations | backend/app/services/portfolio_generator.py:7-29 | a table exactly for "conservative", "moderate" and "aggressive", each listing the five classes in order |
| ProfileGenerator.ClassDetails | backend/app/services/portfolio_generator.py:32-52 | a fund list exactly for the five classes, each with one to three funds |
| ProfileGenerator.Redistributed | backend/app/services/portfolio_generator.py:101-111 | the capped share is set exactly to the cap |
| ProfileGenerator.CapStep | backend/app/services/portfolio_generator.py:100-111 | a cap on a class not in the table changes nothing; any change happens at the capped class, whose share exceeded the cap and now equals it |
| ProfileGenerator.Capped | backend/app/services/portfolio_generator.py:99-111 | the length is kept, and when no cap names a class of the table the shares are unchanged |
| ProfileGenerator.RedistributionIsProportional | backend/app/services/portfolio_generator.py:106-111 | every other share grows by the common factor (remaining + excess) / remaining, so zero shares stay zero |
| ProfileGenerator.RedistributedIsScaled | backend/app/services/portfolio_generator.py:106-111 | redistribution is scaling by one factor, with the capped share set to the cap |
| ProfileGenerator.RedistributionPreservesTotal | backend/app/services/portfolio_generator.py:101-111 | when the other shares total more than 0, capping leaves the total unchanged |
| ProfileGenerator.CapStepLowersOnlyTheCappedClass | backend/app/services/portfolio_generator.py:100-104 | a cap on an unknown class or one that is not exceeded changes nothing; an exceeded cap lowers its class to the cap |
| ProfileGenerator.CapAsset | backend/app/services/portfolio_generator.py:103-111 | the in-place loop computes Redistributed |
| ProfileGenerator.Normalised | backend/app/services/portfolio_generator.py:113-117 | fails iff the table is non-empty and totals 0; otherwise the same length and, when non-empty, a total of 1 |
| ProfileGenerator.NormalisedIsIdempotent | backend/app/services/portfolio_generator.py:113-117 | normalising a normalised table changes nothing |
| ProfileGenerator.NormalisedKeepsSigns | backend/app/services/portfolio_generator.py:113-117 | normalising non-negative shares keeps them non-negative |
| ProfileGenerator.Constrained | backend/app/services/portfolio_generator.py:84-119 | without constraints, the base table itself; otherwise the same classes, with shares totalling 1 |
| ProfileGenerator.ApplyConstraints | backend/app/services/portfolio_generator.py:84-119 | the caps loop and the normalisation compute Constrained |
| ProfileGenerator.Normalise | backend/app/services/portfolio_generator.py:113-117 | the division loop computes Normalised |
| ProfileGenerator.SubShares | backend/app/services/portfolio_generator.py:134-140 | one sub-share per fund of the class |
| ProfileGenerator.SubSharesSumToShare | backend/app/services/portfolio_generator.py:137-140 | a single fund gets the whole share; a multi-fund class's sub-shares sum to the class share |
| ProfileGenerator.ClassEntries | backend/app/services/portfolio_generator.py:127-152 | nothing for a class with a non-positive share or no funds; otherwise one record per fund in the class's detail order: the k-th carries the class, the k-th fund's name, ticker, sector and region, and the k-th sub-share |
| ProfileGenerator.DetailedTotal | backend/app/services/portfolio_generator.py:125-154 | the records' percentages total the positive shares of the classes that have funds |
| ProfileGenerator.Detailed | backend/app/services/portfolio_generator.py:121-154 | every record comes from a class of the table with a positive share and a fund list |
| ProfileGenerator.EmittedSharesOfCompleteTable | backend/app/services/portfolio_generator.py:127-128 | with non-negative shares and funds for every class, the emitted shares total the table |
| ProfileGenerator.DetailedAllocations | backend/app/services/portfolio_generator.py:121-154 | the class loop produces the records in class order, then fund order |
| ProfileGenerator.AppendFunds | backend/app/services/portfolio_generator.py:128-152 | the fund loop appends exactly the class's records: one per fund when the class is emitted, none otherwise |
| ProfileGenerator.Capitalize | backend/app/services/portfolio_generator.py:77 | the same length, first character upper case, the rest lower case |
| ProfileGenerator.CapitalizeIsIdempotent | backend/app/services/portfolio_generator.py:77 | capitalising twice is capitalising once |
| ProfileGenerator.PortfolioName | backend/app/services/portfolio_generator.py:77 | a non-empty given name is kept; otherwise the capitalised profile followed by " Portfolio" |
| ProfileGenerator.GeneratePortfolio | backend/app/services/portfolio_generator.py:54-82 | an unknown profile is rejected; otherwise the name, the profile and the detailed records of the constrained table, or the normalisation error |
| ProfileGenerator.GeneratedPercentagesSumToOne | backend/app/services/portfolio_generator.py:67-74 | with non-negative constrained shares (always so without constraints), the fund percentages total exactly 1 |
| RiskLevelGenerator.BandStocks | backend/services/portfolio_generator.py:12-58 | levels up to 2, 4, 7 and above (out-of-range ones included) select 2, 3, 3 and 4 stock funds totalling 20, 30, 50 and 70 |
| RiskLevelGenerator.BandOf | backend/services/portfolio_generator.py:9-58 | at least two stock funds; for levels 1 to 10 every class percentage lies in [0, 100] |
| RiskLevelGenerator.Rescaled | backend/services/portfolio_generator.py:64-65 | each fund keeps its name and ticker, with its percentage times the factor |
| RiskLevelGenerator.Entries | backend/services/portfolio_generator.py:77-94 | one entry per fund, in order |
| RiskLevelGenerator.AllocateBand | backend/services/portfolio_generator.py:60-112 | the rescale loop and the append loops compute PlannedFrom |
| RiskLevelGenerator.GenerateAllocations | backend/services/portfolio_generator.py:1-114 | the output is Planned for the level |
| RiskLevelGenerator.Amount | backend/services/portfolio_generator.py:83 | amount * 100 == investment * percentage |
| RiskLevelGenerator.PlannedFrom | backend/services/portfolio_generator.py:60-112 | stock funds + 4 entries, each with amount * 100 == investment * percentage |
| RiskLevelGenerator.Planned | backend/services/portfolio_generator.py:1-114 | stock funds + 4 entries whose percentages total the band's four class percentages |
| RiskLevelGenerator.PlannedLayout | backend/services/portfolio_generator.py:68-112 | stocks, then BND at 70% and BSV at 30% of the bond share, then the ticker-less cash entry, then VNQ; length = stock funds + 4 |
| RiskLevelGenerator.RescaledStocksMakeUpStockShare | backend/services/portfolio_generator.py:60-65 | the rescaled stock funds keep their listed ratios and sum to the band's stock percentage |
| RiskLevelGenerator.PlannedTotal | backend/services/portfolio_generator.py:60-112 | the entries' percentages total the band's four class percentages |
| RiskLevelGenerator.BandTotals | backend/services/portfolio_generator.py:12-51 | the class percentages total 100 - 5f, 100, 100 + 5f and 100 + 15f in the four bands |
| RiskLevelGenerator.PercentagesMissOneHundred | backend/services/portfolio_generator.py:12-58 | as written, level 10 totals 115, level 2 totals less than 100, and level 1 totals 100 |
| RiskLevelGenerator.PlannedBalanced | backend/services/portfolio_generator.py:12-58 | with the class percentages balanced, every level's list has stock funds + 4 entries whose percentages total exactly 100 |
| AllocationsRouter.Find | backend/routers/allocations.py:63 | absent iff no row has the id; otherwise the position of a row with that id |
| AllocationsRouter.OfPortfolio | backend/routers/allocations.py:41 | no more rows than the table, all of the portfolio |
| AllocationsRouter.PortfolioTotal | backend/routers/allocations.py:41-42 | with non-negative percentages the portfolio's total is non-negative |
| AllocationsRouter.OthersTotal | backend/routers/allocations.py:75-79 | with non-negative percentages the total of the portfolio's other rows is non-negative |
| AllocationsRouter.OfPortfolioMembers | backend/routers/allocations.py:41 | the portfolio's rows are exactly the table's rows with that portfolio id |
| AllocationsRouter.WithoutMembers | backend/routers/allocations.py:97 | the remaining rows are exactly those with another id |
| AllocationsRouter.TotalAfterAppend | backend/routers/allocations.py:41-48 | adding a row adds its percentage to its own portfolio's total and to no other |
| AllocationsRouter.TotalAroundRow | backend/routers/allocations.py:75-79 | with unique ids, a portfolio's total is its other rows' total plus the row's own percentage when it belongs |
| AllocationsRouter.OthersIgnoreRewrite | backend/routers/allocations.py:75-85 | rewriting a row in place leaves the total of the portfolio's other rows unchanged |
| AllocationsRouter.RemoveAt | backend/routers/allocations.py:93-97 | with unique ids, cutting out the row at k leaves exactly the rows with other ids, in order |
| AllocationsRouter.Page | backend/routers/allocations.py:58 | the offset/limit slice: at most `limit` rows, empty past the end |
| AllocationsRouter.AllocationTable.CreateAllocation | backend/routers/allocations.py:33-51 | 404 for a missing portfolio; 400 iff total + new > 100; otherwise one row appended under the next id, leaving the portfolio's total at most 100; a failure changes nothing |
| AllocationsRouter.AllocationTable.ReadAllocations | backend/routers/allocations.py:53-59 | a negative offset or limit is refused; at most `limit` rows, all from the table, and all of the portfolio when its id is truthy |
| AllocationsRouter.AllocationTable.ReadAllocation | backend/routers/allocations.py:61-66 | 404 iff no row has the id; otherwise that row |
| AllocationsRouter.AllocationTable.UpdateAllocation | backend/routers/allocations.py:68-89 | 404 for an unknown id; 400 iff the other rows + new > 100; otherwise only the base fields of that row change (id and portfolio kept), leaving the total at most 100 |
| AllocationsRouter.AllocationTable.DeleteAllocation | backend/routers/allocations.py:91-99 | 404 for an unknown id with nothing changed; otherwise exactly that row is removed and the others keep their order |
| GenerateEndpoint.Uniform | backend/main.py:29-31 | `random.uniform(low, high)` lies in [low, high] |
| GenerateEndpoint.GeneratePortfolio | backend/main.py:21-40 | 400 iff the level is outside [1, 10] or the investment is not positive, checked in that order; otherwise the inputs echoed and three allocations with percentages in [40, 60], [20, 30] and [10, 20] and values 0.5, 0.3 and 0.2 of the investment |
| GenerateEndpoint.ValuesSplitTheInvestment | backend/main.py:28-32 | the current values sum to the investment, while the percentages total between 70 and 110 |

## Left out

- I/O and plumbing:
  - Network I/O, aiohttp sessions, environment-variable API keys, `print` logging, FastAPI routing and the SQLAlchemy session calls (`flush`, `commit`, `refresh`) are not modelled.
  - Provider replies, database rows, prices and the current instant are parameters.
- Async suspension and the unsynchronised check-then-update race on the price cache are not modelled; the model is sequential.
- Statistics the model does not compute:
  - The 95% Value at Risk (`np.percentile` interpolation) is not modelled.
  - The sample standard deviation, the Pearson coefficient, the covariance and `sqrt` are not computed; they are function parameters.
  - As a result, the volatility, correlation and frontier-volatility figures are stated only relative to those parameters.
- Provider replies are taken as already-numeric values. The `float(...)` conversions of the quote price, the Finnhub price and the five daily-history fields raise ValueError on a non-numeric string; that error path is not modelled.
- IEEE floating-point rounding, NaN and infinity are not modelled. Arithmetic is exact on reals, and a non-finite pandas/numpy result is `None`.
- Random draws (`np.random.random`, `np.random.dirichlet`, `random.uniform`) are parameters with their stated ranges and sums.
- Day-of-week and day-of-month (PostgreSQL `date_part`) are function parameters of a date.
- Dates and sort order:
  - Provider date strings are modelled as integer instants, relying on "YYYY-MM-DD" strings sorting chronologically.
  - The window comparison is made against the parsed date.
- Rows returned without ORDER BY are taken in insertion order.
- RiskAnalyzer.CalculatePortfolioRiskMetrics: the database lookups become two parameters:
  - whether the portfolio exists;
  - the portfolio's allocation rows (the ticker IS NOT NULL filter is applied to these rows).
- PerformanceTracker.Latest: among several snapshots sharing the greatest date, the earliest inserted is returned; the database's choice among ties is unspecified.
- RiskAnalyzer.SharpeRatio and Frontier.Sample: a zero volatility yields `None` for the portfolio and is excluded by a precondition on the frontier's volatility function, where numpy would produce infinity or NaN.
- Frontier.GenerateEfficientFrontier: the ordering is proved to be non-increasing and a permutation of the samples. Stability among equal Sharpe ratios is not stated.
- ProfileGenerator.Capitalize: only ASCII letters change case, not the full Unicode case mapping of `str.capitalize`.
- ProfileGenerator.GeneratePortfolio: the `constraints` dictionary is reduced to its `max_allocations` entry plus a count of its other keys. Those keys are read by nothing, but they make the dictionary truthy.
- AllocationsRouter.AllocationTable.ReadAllocations: a negative offset or limit is an error value, as the database refuses it. The result is stated as rows of the (filtered) table, not as the exact slice.
- RiskAnalyzer.Compared and RiskAnalyzer.ComparePortfolios: each portfolio's analysis outcome is a parameter rather than a call to CalculatePortfolioRiskMetrics, so the comparison is stated for any outcomes.
- Frontier.AnnualMeans, Frontier.GenerateEfficientFrontier and Frontier.GetOptimalPortfolio: require a non-empty return table; on an empty one pandas gives NaN means and the frontier is not modelled.
- ProfileGenerator.Constrained: the total-of-1 guarantee is stated for non-empty tables; every built-in table has five classes.
- The portfolio-creation routers, ORM models, schemas, the migration and the frontend are not modelled.

## Findings

| source | as written | input that shows it | evidently intended | confidence | as-written member | corrected member |
|---|---|---|---|---|---|---|
| backend/services/portfolio_generator.py:12-58 | the four class percentages of the bands total 100 - 5f, 100, 100 + 5f and 100 + 15f (f = (level - 1) / 9), so the amounts do not add up to the investment | risk_level = 10 gives percentages totalling 115, so amounts total 1.15 times the investment; risk_level = 2 totals about 99.4 | the class percentages of every band total 100, so the amounts make up the investment exactly | medium, not executed | RiskLevelGenerator.PercentagesMissOneHundred | RiskLevelGenerator.PlannedBalanced |

`RiskLevelGenerator.GenerateAllocations` keeps the behaviour as written. `RiskLevelGenerator.PlannedBalanced` is the corrected list: it scales the band's four class percentages to total 100 before the same layout is built.
