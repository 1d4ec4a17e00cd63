# Investment efficiency — a Dafny model

This project models the calculation core of the Investment-Efficiency library. The library computes the performance of an investment portfolio from a daily series of records (date, portfolio value, flow, commission, growth factor). The model covers four parts:

- **Daily series assembly.** `EfficiencyQueryBuilder.GenerateQuery` takes the union of the valuation dates and the flow dates. It totals each date's valuations, signed flows and commissions, fills missing totals with 0 and orders the records by date. The `With*` methods record the selection criteria.
- **Growth rates.** `EfficiencyConfigurer` walks the query once, carrying the previous portfolio value, and gives every day a growth factor. The factor is 1 on the first day, after a zero portfolio, and under the large-flow rule. Otherwise it is `(portfolio − flow − commission) / previous portfolio`.
- **Staged metrics.** A `ushort` flag set records which calculations are queued. Each `Add*` call checks the flags it depends on, registers a deferred handler and adds its own flag. `Calculate` then runs the handlers in a fixed order: life-time, income, average portfolio, MWR, TWR, STD, Sharpe ratio, information ratio.
- **Benchmarks.** A five-slot table holds the index names. `CalculateBenchmarks` runs every index's close prices through the configurer with life-time, TWR and STD staged, and stores a missing result as 0.

Modules, one per file: `Wrappers` (Option, Result, Outcome, the exceptions), `Numerics` (doubles as exact reals plus one non-finite value), `Calendar` (dates as day numbers), `Stages` (the flag enum), `Records` (the record, the query and its details), `BenchmarkSet` (the benchmark values), `QueryBuilder`, `Growth`, `Metrics` (the handler formulas), `Staging` (the staging state machine and what `Calculate` yields), `Results` (the `Efficiency` object), `Configurer` (the configurer class and the two factories) and `Benchmarks`.

Design choices:

- Each `Add*` method of the configurer class is proved to perform `Staging.Apply` for its call. A thrown exception becomes a `Fail` outcome that leaves the configurer unchanged.
- `Staging.Consistent` is the configurer's invariant. Every call preserves it, and it is what lets `Calculate` read each earlier result without a null dereference.
- `Math.Pow` and `Math.Sqrt` are oracle functions passed in as a `FloatOracles` value. The market-data client's answers are passed in as a `MarketData` value.

Three behaviours of the code worth noting:

- **Large-flow rule.** The rule applies from a portfolio of 11,000, because the code tests `floor(p / 1000) > 10` (`Growth.SuppressionThreshold`, `Growth.SuppressedFrom11000`).
- **STD of a single record.** The code divides 0 by 0 and gets NaN (`Metrics.StdOfOneRecord`).
- **TWR with a life-time of 0 days.** The handler raises the growth product to the power `365 / 0`, which is not finite (`Staging.TwrAtZeroLifeTime`).

## Model

| member | source | states |
|---|---|---|
| Stages.BitIsSingle | src/EfficiencyCalculationStage.cs:13-33 | every stage flag, and the added BENCH flag, is a single non-zero bit |
| Stages.BitsDisjoint | src/EfficiencyCalculationStage.cs:13-33 | two stage flags share a bit if and only if they are the same stage |
| Stages.InitializedIsEmpty | src/EfficiencyCalculationStage.cs:9 | `Initialized` records no stage, and every flag set contains it |
| Stages.HasFlagOfUnion | src/EfficiencyConfigurer.cs:122 | `HasFlag(A \| B)` holds exactly when both `HasFlag(A)` and `HasFlag(B)` hold |
| Stages.StagesOfUnion | src/EfficiencyCalculationStage.cs:13-33 | `\|` on flag sets is the union of the stages they record |
| Stages.StagesOfBit | src/EfficiencyCalculationStage.cs:13-33 | each flag records exactly its own stage |
| Records.NewRecord | src/EfficiencyRecord.cs:11-27 | a new record has portfolio, flow and commission 0, growth 1 and the default date |
| Growth.SuppressionThreshold | src/EfficiencyConfigurer.cs:287 | "more than 10 whole thousands" holds exactly for portfolios of at least 11,000 |
| Growth.GrowthFactor | src/EfficiencyConfigurer.cs:285-294 | the factor is 1 with no previous day, after a zero portfolio or under the large-flow rule; otherwise factor × previous portfolio = portfolio − flow − commission |
| Growth.GrowthRates | src/EfficiencyConfigurer.cs:268-283 | the growth series has one record per query record |
| Growth.GrowthRatesAt | src/EfficiencyConfigurer.cs:271-282 | record i of the series is query record i, with date, portfolio, flow and commission kept and its growth computed against record i − 1 |
| Growth.NoSignalGrowth | src/EfficiencyConfigurer.cs:270-289 | the first record, and every record after a zero portfolio, gets growth 1 |
| Growth.SuppressedGrowth | src/EfficiencyConfigurer.cs:287-289 | a day with portfolio ≥ 11,000 whose flow has the same whole thousands gets growth 1 |
| Growth.NetGrowth | src/EfficiencyConfigurer.cs:293 | otherwise the day's growth times the previous portfolio is the day's portfolio net of flow and commission |
| Growth.CalculateGrowthRates | src/EfficiencyConfigurer.cs:268-283 | the loop carrying the previous portfolio yields exactly the growth series |
| Metrics.LifeTime | src/EfficiencyConfigurer.cs:67 | the life-time is the last date minus the first; it is 0 for one record and positive for several records on strictly increasing dates |
| Metrics.LifeTimeCoversSteps | src/EfficiencyConfigurer.cs:67 | on strictly increasing dates, the life-time is at least the number of steps in the series |
| Metrics.Income | src/EfficiencyConfigurer.cs:84-88 | income is the last portfolio minus the first, minus every flow and commission, plus the first day's flow and commission; it is 0 for one record |
| Metrics.IncomeTelescopes | src/EfficiencyConfigurer.cs:84-88 | income equals the sum of the daily net gains of days 1 to n − 1, so the first day's flow and commission do not count |
| Metrics.NonZeroCount | src/EfficiencyConfigurer.cs:104-107 | portfolios that do not sum to 0 include a non-zero one, so the mean over non-zero days exists |
| Metrics.AveragePortfolio | src/EfficiencyConfigurer.cs:104-108 | the average times the number of non-zero days is the portfolio sum, and the average is 0 when the sum is 0 |
| Metrics.ZeroDayKeepsAverage | src/EfficiencyConfigurer.cs:104-107 | a zero-valued day does not move the average |
| Growth.FlowSuppressed | src/EfficiencyConfigurer.cs:287-288 | the large-flow rule: the portfolio has more than 10 whole thousands, and as many whole thousands as the flow |
| Growth.SuppressedFrom11000 | src/EfficiencyConfigurer.cs:287-288 | the large-flow rule holds exactly when the portfolio is at least 11,000 and has the same whole thousands as the flow, so the flow is at least 11,000 too |
| Metrics.NoFlowNotSuppressed | src/EfficiencyConfigurer.cs:287-288 | a day without flow is never under the large-flow rule |
| Metrics.GrowthProductTelescopes | src/EfficiencyConfigurer.cs:127-129 | without flows or commissions, the product of the growth factors takes the first portfolio to the last |
| Metrics.GrowthProduct | src/EfficiencyConfigurer.cs:127-129 | the product of the growth factors in series order |
| Metrics.GrowthProductSign | src/EfficiencyConfigurer.cs:127-129 | the growth product is 1 when every factor is 1, and positive when every factor is positive |
| Metrics.Twr | src/EfficiencyConfigurer.cs:127-131 | TWR is the growth product raised to the power 365 / life-time, minus 1 |
| Metrics.MeanGrowth | src/EfficiencyConfigurer.cs:169 | the mean growth times the number of records is the sum of the growth factors |
| Metrics.Std | src/EfficiencyConfigurer.cs:169-172 | STD is the square root of the squared deviations from the mean over n − 1, times the square root of 252 |
| Metrics.SquaredDeviations | src/EfficiencyConfigurer.cs:171-172 | the sum of squared deviations is never negative |
| Metrics.ConstantGrowthHasNoDeviation | src/EfficiencyConfigurer.cs:169-172 | a constant growth factor is its own mean and has no deviation |
| Metrics.StdOfOneRecord | src/EfficiencyConfigurer.cs:172 | one record gives 0 / 0, so when the square root propagates NaN, STD is NaN |
| Metrics.Mwr | src/EfficiencyConfigurer.cs:149-152 | MWR is finite exactly when the average and the life-time are non-zero; then MWR × average × life-time = 365 × income |
| Metrics.Ratio | src/EfficiencyConfigurer.cs:198-199 | the Sharpe ratio is finite exactly when TWR and STD are finite and STD ≠ 0; then ratio × STD + rate = TWR |
| Staging.StageMetric | src/EfficiencyConfigurer.cs:63-214 | a metric call returns unchanged on an empty series; otherwise it throws when a prerequisite flag is missing, and else registers its handler and ORs in its own flag |
| Staging.Apply | src/EfficiencyConfigurer.cs:63-244 | one configuring call: a metric call as above; `AddSharpeCalculation()` first reads the rate from the attached benchmarks and throws without them; the benchmark calls set BENCH, and `UseBenchmarks` also attaches its benchmarks |
| Staging.InitialConsistent | src/EfficiencyConfigurer.cs:42-49 | a new configurer has only GRR staged and no handler, and it satisfies the invariant |
| Staging.ApplyStage | src/EfficiencyConfigurer.cs:63-244 | after a successful call the flag set is unchanged for a metric call on an empty series, and otherwise is the old set OR the call's own flag |
| Staging.ApplyAddsOwnStage | src/EfficiencyConfigurer.cs:63-244 | a call adds exactly its own stage: none for MWR, Sharpe and the information ratio, and none for a metric call on an empty series |
| Staging.ApplyGrows | src/EfficiencyConfigurer.cs:63-244 | the flag set only grows |
| Staging.PrerequisitesAsStages | src/EfficiencyConfigurer.cs:122-214 | each `HasFlag` prerequisite mask holds exactly when its required stages are present |
| Staging.Gating | src/EfficiencyConfigurer.cs:118-220 | on a non-empty series a metric call succeeds exactly when its required stages are present: TWR needs GRR and LFT, MWR needs INC, AVG and LFT, STD needs GRR, and the ratios need TWR, STD and BENCH; otherwise it throws |
| Staging.RegisterKeepsConsistent | src/EfficiencyConfigurer.cs:118-220 | registering a metric whose required stages are present keeps the invariant, stated over stage sets |
| Staging.MetricPreservesConsistent | src/EfficiencyConfigurer.cs:63-220 | a metric call that passes its gate on a non-empty series keeps the invariant |
| Staging.ApplyPreservesConsistent | src/EfficiencyConfigurer.cs:63-244 | every call keeps the invariant: a flag is set exactly when its handler is registered, and every handler's dependencies are registered |
| Staging.ApplyAllPreservesConsistent | src/EfficiencyConfigurer.cs:63-244 | any chain of calls keeps the invariant |
| Staging.EmptyIsNoOp | src/EfficiencyConfigurer.cs:65-211 | on an empty series every metric call returns without checking, registering or flagging anything |
| Staging.SharpeDefaultNeedsBenchmarks | src/EfficiencyConfigurer.cs:182-185 | `AddSharpeCalculation()` throws without attached benchmarks, even on an empty series |
| Staging.ConstructorBenchmarksDoNotStage | src/EfficiencyConfigurer.cs:55-58 | benchmarks given to the constructor never set BENCH; only `UseBenchmarks` or `AddBenchmarksCalculation` set it |
| Staging.Evaluate | src/EfficiencyConfigurer.cs:252-265 | each of the eight metrics (life-time, income, average, MWR, TWR, STD, Sharpe, information ratio) is present exactly when its handler is registered |
| Staging.TwrAtZeroLifeTime | src/EfficiencyConfigurer.cs:125-131 | with a life-time of 0 days the TWR handler returns the growth product raised to the non-finite power 365 / 0, minus 1 |
| Staging.RunHandlers | src/EfficiencyConfigurer.cs:256-263 | running the handlers in order, each reading the results stored before it, yields exactly the metrics evaluated straight from the series |
| Staging.EmptySeriesYieldsNothing | src/EfficiencyConfigurer.cs:252-265 | on an empty series every metric stays null |
| Staging.IndexChainStages | src/EfficiencyBenchmarks.cs:110-138 | life-time, then TWR, then STD passes every gate and registers exactly those three handlers, or none on an empty series |
| Results.Efficiency.constructor | src/Efficiency.cs:14-64 | a fresh result has every metric, the benchmarks, the details and the series null |
| Configurer.EfficiencyConfigurer.constructor | src/EfficiencyConfigurer.cs:42-49 | the series is the query's records with growth factors; the result carries the query's details; only GRR is staged |
| Configurer.EfficiencyConfigurer.WithBenchmarks | src/EfficiencyConfigurer.cs:55-58 | the same, with the given benchmarks attached and BENCH not set |
| Configurer.EfficiencyConfigurer.AddLifeTimeCalculation | src/EfficiencyConfigurer.cs:63-71 | performs the life-time call of the staging machine and keeps the invariant |
| Configurer.EfficiencyConfigurer.AddIncomeCalculation | src/EfficiencyConfigurer.cs:76-95 | performs the income call and keeps the invariant |
| Configurer.EfficiencyConfigurer.AddAveragePortfolioCalculation | src/EfficiencyConfigurer.cs:100-113 | performs the average call and keeps the invariant |
| Configurer.EfficiencyConfigurer.AddTwrCalculation | src/EfficiencyConfigurer.cs:118-137 | performs the gated TWR call, or throws and changes nothing |
| Configurer.EfficiencyConfigurer.AddMwrCalculation | src/EfficiencyConfigurer.cs:142-155 | performs the gated MWR call, which adds no flag |
| Configurer.EfficiencyConfigurer.AddStdCalculation | src/EfficiencyConfigurer.cs:160-177 | performs the gated STD call |
| Configurer.EfficiencyConfigurer.AddSharpeCalculationFromBenchmarks | src/EfficiencyConfigurer.cs:182-185 | reads the attached benchmarks' risk-free rate, or throws when none are attached |
| Configurer.EfficiencyConfigurer.AddSharpeCalculation | src/EfficiencyConfigurer.cs:191-203 | performs the gated Sharpe call, capturing the rate |
| Configurer.EfficiencyConfigurer.AddInformationRatioCalculation | src/EfficiencyConfigurer.cs:209-220 | performs the gated information-ratio call, capturing the index TWR |
| Configurer.EfficiencyConfigurer.AddBenchmarksCalculation | src/EfficiencyConfigurer.cs:222-237 | sets BENCH whatever the series |
| Configurer.EfficiencyConfigurer.UseBenchmarks | src/EfficiencyConfigurer.cs:239-244 | attaches the benchmarks to the result, sets BENCH and leaves the metrics unchanged |
| Configurer.EfficiencyConfigurer.Calculate | src/EfficiencyConfigurer.cs:252-265 | attaches the series and stores every metric as evaluated straight from the series; benchmarks and details are unchanged, and the result object is returned |
| Configurer.ConfigureEfficiencyCalculation | src/Efficiency.cs:69-70 | a fresh configurer with no benchmarks, only GRR staged, and the query's details |
| Configurer.ConfigureEfficiencyCalculationWithBenchmarks | src/Efficiency.cs:75-76 | a fresh configurer with exactly the given benchmarks and BENCH not set |
| QueryBuilder.SumWhereAbsent | src/EfficiencyQueryBuilder.cs:248-252 | a date without rows totals 0 |
| QueryBuilder.GroupSum | src/EfficiencyQueryBuilder.cs:224-241 | the per-date totals have exactly the dates of the rows as keys, each mapped to that date's total |
| QueryBuilder.OrderedDistinct | src/EfficiencyQueryBuilder.cs:215-221 | the distinct dates are strictly increasing and are exactly the input dates |
| QueryBuilder.OrderedIsUnique | src/EfficiencyQueryBuilder.cs:275 | only one strictly increasing sequence holds a given set of dates, so the ordered series is determined |
| QueryBuilder.DailySeries | src/EfficiencyQueryBuilder.cs:212-278 | dates strictly increase and are the union of the valuation and flow dates; each day's portfolio, signed flow and commission are that day's totals, 0 when the day has no such rows; growth keeps its default |
| QueryBuilder.EfficiencyQueryBuilder.constructor | src/EfficiencyQueryBuilder.cs:16-23 | no filters yet, empty details |
| QueryBuilder.EfficiencyQueryBuilder.WithDates | src/EfficiencyQueryBuilder.cs:30-37 | filters both queries by the window and records start and end in the details |
| QueryBuilder.EfficiencyQueryBuilder.WithAssetManagementCompany | src/EfficiencyQueryBuilder.cs:43-49 | filters both queries and records the company name |
| QueryBuilder.EfficiencyQueryBuilder.WithFundName | src/EfficiencyQueryBuilder.cs:55-61 | filters both queries and records the fund name |
| QueryBuilder.EfficiencyQueryBuilder.WithPensionPropertyType | src/EfficiencyQueryBuilder.cs:67-73 | filters both queries and records the entity type |
| QueryBuilder.EfficiencyQueryBuilder.WithStrategy | src/EfficiencyQueryBuilder.cs:79-85 | filters both queries and records the strategy |
| QueryBuilder.EfficiencyQueryBuilder.WithContract | src/EfficiencyQueryBuilder.cs:91-97 | filters both queries and records the contract |
| QueryBuilder.EfficiencyQueryBuilder.WithIssuerName | src/EfficiencyQueryBuilder.cs:103-109 | filters both queries; the details are unchanged |
| QueryBuilder.EfficiencyQueryBuilder.WithIssuerId | src/EfficiencyQueryBuilder.cs:115-120 | filters both queries; the details are unchanged |
| QueryBuilder.EfficiencyQueryBuilder.WithIsins | src/EfficiencyQueryBuilder.cs:126-132 | filters both queries and records the ISIN list |
| QueryBuilder.EfficiencyQueryBuilder.WithAssetClass | src/EfficiencyQueryBuilder.cs:138-144 | filters both queries and records the asset class |
| QueryBuilder.EfficiencyQueryBuilder.WithAssetType | src/EfficiencyQueryBuilder.cs:150-156 | filters both queries; the details are unchanged |
| QueryBuilder.EfficiencyQueryBuilder.WithRiskType | src/EfficiencyQueryBuilder.cs:162-168 | filters both queries and records the risk type |
| QueryBuilder.EfficiencyQueryBuilder.WithRealPricesUsed | src/EfficiencyQueryBuilder.cs:173-178 | filters only the asset query; the details are unchanged |
| QueryBuilder.EfficiencyQueryBuilder.WithFairPricesUsed | src/EfficiencyQueryBuilder.cs:183-187 | filters only the asset query; the details are unchanged |
| QueryBuilder.EfficiencyQueryBuilder.WithAccountingMethod | src/EfficiencyQueryBuilder.cs:193-197 | filters only the asset query; the details are unchanged |
| QueryBuilder.EfficiencyQueryBuilder.WithTransType | src/EfficiencyQueryBuilder.cs:203-207 | filters only the flow query; the details are unchanged |
| QueryBuilder.EfficiencyQueryBuilder.GenerateQuery | src/EfficiencyQueryBuilder.cs:212-278 | the query's records are the daily series of the filtered rows, and it carries the recorded details |
| Benchmarks.BenchmarkTable.constructor | src/EfficiencyBenchmarks.cs:9-16 | the table starts as RUPCI, RUPMI, RUPAI, IMOEX, RUCBTR3A3YNS |
| Benchmarks.BenchmarkTable.UseBenchmarks | src/EfficiencyBenchmarks.cs:35-42 | more than five names throw and change nothing; otherwise the names overwrite the first slots in order and the other slots are kept |
| Benchmarks.CurveDate | src/EfficiencyBenchmarks.cs:58 | the curve anchor is the last day of the start date's year |
| Benchmarks.Tenor | src/EfficiencyBenchmarks.cs:59 | the tenor times 365 is the window length in days |
| Benchmarks.DefaultCommissionIsZero | src/EfficiencyBenchmarks.cs:95-100 | the fourth index's records, built without a commission, equal the records of the other indices |
| Benchmarks.IndexRecord | src/EfficiencyBenchmarks.cs:71-108 | a history row becomes a record with its date and close, flow 0, commission 0 and growth 1; the fourth index leaves the commission at its default, which is also 0 |
| Benchmarks.IndexRecords | src/EfficiencyBenchmarks.cs:64-108 | the records of the rows of one index, at most one per row |
| Benchmarks.IndexRecordsOfConcat | src/EfficiencyBenchmarks.cs:64-108 | selecting the rows keeps history order: the records of two concatenated row sequences are the two record sequences concatenated |
| Benchmarks.IndexRecordsSelect | src/EfficiencyBenchmarks.cs:64-108 | an index's series has a record for every history row of that index and for no other row, all with flow and commission 0 |
| Benchmarks.IndexMetrics | src/EfficiencyBenchmarks.cs:140-150 | an index without rows gets TWR and STD 0; otherwise it gets the TWR and STD of its growth series |
| Benchmarks.RunIndex | src/EfficiencyBenchmarks.cs:71-150 | one index's records, run through a fresh configurer with life-time, TWR and STD staged, pass every gate and yield the index's TWR and STD with null replaced by 0 |
| Benchmarks.CalculateBenchmarks | src/EfficiencyBenchmarks.cs:44-152 | names come from table slots 0 to 4; the risk-free rate is the curve at the anchor and tenor; each index's TWR and STD come from its own history rows |

## Left out

- I/O and foreign code are not modelled. This covers the Entity Framework query wrapper (`EfficiencyQuery`), the SQL translation, the CSV mapping, the cast extension and `Efficiency.ToString`.
- The data layer's asset and flow query builders are a `DataSource` value. The model records each filter as a `Filter` entry in the order it was applied. The SQL flow-direction function is a parameter.
- The market-data client is a `MarketData` value: the login, the yield-curve call and the index-history call. The model takes their answers as inputs.
- `AddBenchmarksCalculation` builds a `Task` that is never started, so `Calculate` would block forever in `Wait()`. The model keeps only the BENCH flag. Its `Calculate` does not wait, and it does not download benchmarks.
- Concurrency and asynchronous calls are not modelled.
- Metrics.Twr: `Math.Pow` is an uninterpreted oracle. No numeric TWR value is proved.
- Metrics.Std: `Math.Sqrt` is an uninterpreted oracle, and `Math.Pow(x, 2)` is exact squaring. No numeric STD value is proved.
- Numerics.Div: IEEE rounding is not modelled. Finite doubles are exact reals. +Inf, −Inf and NaN are one `NonFinite` value, so their signs and the rules that tell them apart are lost.
- An exception is a `Fail` outcome carrying a `PrerequisitesMissing`, `NullValue` or `TooManyBenchmarks` error. Exception types and messages are not modelled.
- The fluent `return this` of the configurer methods is modelled as consecutive calls on the same object. Those methods return the outcome instead.
- Record portfolio, flow and commission are never null. Every producer in the core fills them. A null index close price from the market client is not modelled.
- Record fields are immutable in the model. The difference between init-only fields (date, portfolio, flow) and settable ones (commission, growth) is not captured.
- Dates are day numbers without a time of day.
- Values are copied where the source shares references. The query details shared between the builder, the query and the result, the result's series list, and the `EfficiencyBenchmarks` object are all copied.
- The static benchmark table is one `BenchmarkTable` object that the caller passes in.
- The connection string of the builder's constructor only configures the data layer, so it is ignored.
