# Trading-Algorithm core in Dafny

This project models the computational core of a C++ backtesting and strategy-evolution
toolkit:

- **Indicators**: simple moving average, RSI and fair-value-gap detection over a bar
  series (`indicators.dfy`).
- **Strategies**:
  - the fixed-rule strategy (`golden_foundation.dfy`);
  - the dual-path strategy, which precomputes its signal arrays on an accelerator or
    falls back to the CPU (`gpu_strategy.dfy`);
  - the gene-driven strategy (`evolved_strategy.dfy`).
- **Backtester**: the single-position backtester, with its equity, per-year P&L map and
  equity curve (`backtester.dfy`), and how the per-year map adds up to the equity gained
  (`yearly_totals.dfy`).
- **Genetic optimiser**:
  - the strategy gene and its random operators (`genes.dfy`);
  - the fitness evaluation and its metrics (`fitness.dfy`);
  - the population loop: selection, crossover, mutation and elitism
    (`genetic_algorithm.dfy`).
- **Data input**: the CSV loader (`data_loader.dfy`) and the data-file lookup
  (`file_utils.dfy`).
- **Shared types**: bars, signals and character classes (`common.dfy`).

Code that changes state step by step is modelled as imperative Dafny:

- the backtester, the dual-path strategy, the evolved strategy and the optimiser are
  classes whose methods update their fields;
- the loops are `while`/`for` loops with invariants.

Each deterministic method is proved equal to a specification function over the inputs or
the old state, for example:

- `RunAll` is a fold of `BarStep` over the bars;
- `Simulate` is the fitness simulation;
- `ParsedRows` gives the loaded bars.

The properties are then proved about those functions. The other methods are specified by a
relation instead, because they call code this model does not contain:

- the dual-path `PrecomputeSignals` and `StoreCpuFallback` depend on the accelerator and the
  batch-indicator calls. They are specified by the predicate `Computed`, which fixes the
  path choice and ties each path's arrays to that path's output;
- `InitializePopulation`, `Tournament`, `SelectParents`, `Crossover` and `Mutate` depend on
  random draws. They are specified by what holds for every draw;
- `EvaluatePopulation` depends on the square root. It is specified by what it leaves
  unchanged.

Doubles are modelled as mathematical reals, and `int`/`size_t` as unbounded integers.
Random draws come from an `Rng` object whose methods promise only that each draw lies in
its range, so every property proved about a random operator holds for every sequence of
draws.

Behaviour of the code worth knowing:

- **Gap detection.** `detectFVG` (src/MovingAverage.cpp:36-46) flags a gap whenever the
  current low is above the previous high, or the current high is below the previous low.
  It has no relative threshold. The only 1% threshold is in the CPU fallback of
  src/GPUStrategy.cpp:103-107, and it compares consecutive closes, not lows and highs.
- **Fixed-rule stop.** The fixed-rule stop is `entry - entry * 0.005 * risk`: it grows
  with `risk` (src/Strategy.cpp:40). Only the dual-path strategy divides by the
  risk-reward ratio (src/GPUStrategy.cpp:111).
- **Backtester P&L.** The backtester's realised P&L is `exit level - entry price`, with no
  position size (src/Backtester.cpp:31, 36, 46).
- **Unreadable year.** A trade whose timestamp has no leading number is booked to year 0.
- **Forced close.** The forced close at the end is booked to the last bar's year, while
  every other exit is booked to the entry year (src/Backtester.cpp:48-51).
- **Trade counters.** The backtester never increments its trade counters, so
  `getTotalTrades` and `getWinRate` always report 0 (include/Backtester.hpp:16-17, 28-29).
- **RSI floor.** RSI floors a zero loss at 1e-10, so its value stays below 100
  (src/MovingAverage.cpp:32).

## Model

| member | source | states |
|---|---|---|
| Chars.DigitRun | src/Backtester.cpp:16-18 | The leading digit run is all digits, is bounded by the string, and is followed by a non-digit. |
| Chars.DigitRunOfDigits | src/Backtester.cpp:16-18 | An all-digit string is one digit run. |
| Indicators.Sma | src/MovingAverage.cpp:7-17 | The loop returns the mean of the `period` closes ending at `endIndex`, and 0 when fewer bars exist. |
| Indicators.SumClosesBounds | src/MovingAverage.cpp:12-16 | The window sum lies between count·low and count·high of the closes. |
| Indicators.SmaWithinWindow | src/MovingAverage.cpp:12-16 | The moving average lies between the lowest and the highest close of its window. |
| Indicators.SmaOfConstantWindow | src/MovingAverage.cpp:12-16 | A window of equal closes averages to that close. |
| Indicators.Gains | src/MovingAverage.cpp:24-30 | The summed positive changes are non-negative. |
| Indicators.Losses | src/MovingAverage.cpp:24-30 | The summed negative changes, negated, are non-negative. |
| Indicators.Rsi | src/MovingAverage.cpp:19-34 | The loop computes the RSI function; it returns 50 when `endIndex < period`. |
| Indicators.RsiFromSumsRange | src/MovingAverage.cpp:31-33 | From non-negative sums, RSI lies in [0, 100); only losses give 0. |
| Indicators.RsiRange | src/MovingAverage.cpp:19-34 | RSI always lies in [0, 100). |
| Indicators.RsiDegenerateWindows | src/MovingAverage.cpp:24-33 | A window with losses but no gains gives 0; a flat window gives the neutral 50. |
| Indicators.DetectFvg | src/MovingAverage.cpp:36-40 | No gap is reported before bar 2. |
| Indicators.FvgIffDisjointRanges | src/MovingAverage.cpp:41-45 | For bars with low ≤ high, a gap is reported iff the two bars' [low, high] ranges share no price. |
| Indicators.SumClosesOfPrefix | src/MovingAverage.cpp:12-16 | The window sum reads no bar past the window. |
| Indicators.GainsLossesOfPrefix | src/MovingAverage.cpp:24-30 | The RSI sums read no bar past the window. |
| Indicators.IndicatorsHaveNoLookAhead | src/MovingAverage.cpp:7-46 | SMA, RSI and gap at bar i are unchanged when every later bar is dropped. |
| GoldenFoundation.GoldenFoundationStrategy.GenerateSignal | src/Strategy.cpp:8-45 | The signal is BUY iff the 50-bar warm-up has passed and close > SMA50, RSI14 < 30 and a gap all hold. A buy has stop entry − 0.5%·risk·entry and target − entry = 3·(entry − stop); anything else is NONE with zero levels. |
| GoldenFoundation.BuyBracketsEntry | src/Strategy.cpp:38-43 | With a positive close and positive risk, a buy's stop is below the entry and its target above. |
| GoldenFoundation.NoSignalDuringWarmUp | src/Strategy.cpp:16-17 | Before bar 50 the answer is "Not enough data", whatever the bars hold. |
| GoldenFoundation.SignalHasNoLookAhead | src/Strategy.cpp:16-44 | The signal at bar i depends on bars 0..i only. |
| GpuStrategies.AcceleratorKernel | src/GPUStrategy.cpp:65-70 | The kernel stand-in promises only five outputs of the input length. |
| GpuStrategies.CalculateBatchIndicators | src/GPUStrategy.cpp:92 | The batch-indicator stand-in promises only two outputs of the bar count. |
| GpuStrategies.CountBuys | src/GPUStrategy.cpp:72-76 | The number of buy flags is at most the length. |
| GpuStrategies.CountBuysPositive | src/GPUStrategy.cpp:72-84 | A buy flag anywhere makes the count positive. |
| GpuStrategies.CpuSlotWarmUp | src/GPUStrategy.cpp:93-99 | Indices below max(smaPeriod, rsiPeriod) get signal 0, stop 0 and target 0. |
| GpuStrategies.CpuSlotBuyIff | src/GPUStrategy.cpp:100-118 | An index is a buy iff it is past the warm-up, its close > SMA, RSI < 30 and the close moved more than 1%. A buy has stop close·(1 − 0.005/rr) and target entry + (entry − stop)·rr; every other index is 0/0/0. |
| GpuStrategies.CpuBuyBracketsEntry | src/GPUStrategy.cpp:108-113 | With a positive close and rr > 0, a fallback buy's stop is below the entry and its target above. |
| GpuStrategies.CountSignals | src/GPUStrategy.cpp:72-76 | The counting loop returns the number of buy flags. |
| GpuStrategies.CpuFallbackSignals | src/GPUStrategy.cpp:89-119 | The fallback loop writes the CPU rule's slot at every index. |
| GpuStrategies.GpuGoldenFoundationStrategy.constructor | src/GPUStrategy.cpp:14-16 | A new strategy is not precomputed, has empty arrays, and keeps its risk-reward ratio (default 3). |
| GpuStrategies.GpuGoldenFoundationStrategy.PrecomputeSignals | src/GPUStrategy.cpp:21-127 | Empty data changes nothing. Otherwise the accelerator is launched iff the periods lie in [2, n]. Its output is kept iff it holds at least one buy, and the five arrays are then exactly that output. In every other case the arrays are the CPU rule's output. |
| GpuStrategies.GpuGoldenFoundationStrategy.StoreKernelOutput | src/GPUStrategy.cpp:65-87 | The accelerator's five outputs become the arrays and are recorded as the kept output. |
| GpuStrategies.GpuGoldenFoundationStrategy.StoreCpuFallback | src/GPUStrategy.cpp:89-126 | Reached without a launch, or after a launch with no buy. The arrays become the batch indicators and the CPU rule's signals over them. |
| GpuStrategies.GpuGoldenFoundationStrategy.GenerateSignal | src/GPUStrategy.cpp:129-146 | The first call precomputes. The answer is BUY iff the index is inside the arrays and flagged 1, carrying that index's stop and target; out of range it is NONE with zero levels. |
| GpuStrategies.ComputedBuyFollowsRule | src/GPUStrategy.cpp:53-119 | An accelerator output with a buy is what the signal array holds. Zero buys can only come from the CPU path, and a CPU-path buy satisfies the entry rule. |
| EvolvedStrategies.IndicatorValue | src/GeneticStrategy.cpp:462-471 | Only SMA and RSI are computed; every other indicator type is 0. |
| EvolvedStrategies.IndicatorSeries | src/GeneticStrategy.cpp:450-457 | The precomputed vector has one value per bar. |
| EvolvedStrategies.EvolvedSignal | src/GeneticStrategy.cpp:425-501 | The signal is BUY iff the index is at least max(periods) and the entry condition holds on the indicators at the bar (and the bar before, for crossings). A buy has stop close·(1 − slPct) and target close·(1 + tpPct); the Bollinger conditions never buy. |
| EvolvedStrategies.EvolvedBuyBracketsEntry | src/GeneticStrategy.cpp:496-501 | With a positive close and positive percentages, the stop is below the entry and the target above. |
| EvolvedStrategies.IndicatorValueOfPrefix | src/GeneticStrategy.cpp:462-471 | An indicator at bar j reads no bar after j. |
| EvolvedStrategies.EvolvedSignalHasNoLookAhead | src/GeneticStrategy.cpp:425-494 | The evolved signal at bar i depends on bars 0..i only. |
| EvolvedStrategies.CalculateIndicator | src/GeneticStrategy.cpp:462-471 | The method calling the SMA/RSI loops returns the indicator value. |
| EvolvedStrategies.EvolvedStrategy.constructor | src/GeneticStrategy.cpp:423 | A new strategy holds its gene and is not precomputed. |
| EvolvedStrategies.EvolvedStrategy.PrecomputeIndicators | src/GeneticStrategy.cpp:450-460 | Both vectors hold the gene's indicators at every bar of the data. |
| EvolvedStrategies.EvolvedStrategy.GenerateSignal | src/GeneticStrategy.cpp:425-448 | The first call precomputes and later calls change nothing. On the bars the vectors came from, the answer is `EvolvedSignal`. |
| Backtesting.SkipSpaces | src/Backtester.cpp:16-18 | Stream extraction skips leading whitespace and keeps the rest as a suffix. |
| Backtesting.FourDigitsValue | src/Backtester.cpp:16-18 | Four digits read as their decimal value. |
| Backtesting.YearOfDatedTimestamp | src/Backtester.cpp:15-18 | A timestamp starting with four digits is attributed to exactly that year. |
| Backtesting.YearWithoutDigits | src/Backtester.cpp:16-18 | A timestamp with no digit in its first four characters is attributed to year 0. |
| Backtesting.AddPnl | src/Backtester.cpp:33-38 | `yearly_pnl_[y] += pnl` raises y's entry (0 if missing) by pnl, leaves every other year unchanged, and adds y as a key. |
| Backtesting.HoldingStep | src/Backtester.cpp:29-40 | While holding, the stop is checked first; exits book level − entry to the entry year; otherwise only the equity point is appended. |
| Backtesting.EntryStep | src/Backtester.cpp:19-27 | A buy while flat opens at the close with the signal's levels; equity does not change on the entry bar. |
| Backtesting.CurveOnePointPerBar | src/Backtester.cpp:14-43 | Bars 1..k−1 append exactly k−1 points, keep the earlier curve, and end with the current equity. |
| Backtesting.RealiseKeepsAccounts | src/Backtester.cpp:31-34 | Closing a trade keeps equity and the yearly map equal to the start plus every realised P&L. |
| Backtesting.BarStepKeepsAccounts | src/Backtester.cpp:19-42 | One bar keeps that accounting invariant. |
| Backtesting.RunBarsAccounting | src/Backtester.cpp:14-43 | The bar loop keeps that accounting invariant. |
| Backtesting.ForceCloseKeepsAccounts | src/Backtester.cpp:45-52 | The forced close keeps that accounting invariant. |
| Backtesting.RunAccounting | src/Backtester.cpp:8-53 | Final equity is the initial equity plus the sum of realised P&L; each year's entry grew by the P&L of the trades booked to that year. |
| YearlyTotals.SumOverYearsSnoc | src/Backtester.cpp:29-51 | One more trade adds its P&L to the year-by-year sum exactly when its year is listed. |
| YearlyTotals.YearsAddUp | src/Backtester.cpp:29-51 | With every traded year listed once, the year-by-year P&L sums to the total P&L. |
| YearlyTotals.MapTotalOfAccounted | src/Backtester.cpp:29-51 | Starting from an empty map, the map's entries for the listed years equal those years' realised P&L. |
| YearlyTotals.RunBooked | src/Backtester.cpp:29-40 | Every year a trade of the bar loop is booked to becomes a key of the P&L map. |
| YearlyTotals.YearlyPnlAddsUp | src/Backtester.cpp:8-53 | On a run from an empty P&L map, the map's entries add up to the final equity minus the initial equity. |
| Backtesting.ForcedCloseAtLastBar | src/Backtester.cpp:45-52 | An open position is closed at the last close, booked to the last bar's year, and adds no curve point. |
| Backtesting.BarZeroNeverQueried | src/Backtester.cpp:14-20 | Strategies that agree on bars 1..n−1 give identical runs. |
| Backtesting.StrategyIgnoredWhileHolding | src/Backtester.cpp:19-41 | While holding, the strategy's answer has no effect. |
| Backtesting.Backtester.constructor | src/Backtester.cpp:5-6 | Equity starts at the initial equity (default 1000); the map and the curve start empty; the counters start at 0. |
| Backtesting.Backtester.ProcessBar | src/Backtester.cpp:16-42 | One iteration updates position, equity, yearly map and curve as `BarStep`. |
| Backtesting.Backtester.ProcessBars | src/Backtester.cpp:14-43 | The loop leaves the fields as `RunBars` over bars 1..n−1. |
| Backtesting.Backtester.CloseAtEnd | src/Backtester.cpp:45-52 | The fields become `ForceClose` of the loop's state. |
| Backtesting.Backtester.Run | src/Backtester.cpp:8-53 | Equity, yearly map and curve become `RunAll` from the old fields; the trade counters are unchanged. |
| Backtesting.Backtester.WinRate | include/Backtester.hpp:17 | 0 without trades; a fraction in [0, 1] when 0 ≤ wins ≤ trades. |
| Backtesting.NoTradesCounted | include/Backtester.hpp:16-29 | A backtester always reports 0 trades and a 0 win rate. |
| CsvLoading.LeadingSpaces | src/DataLoader.cpp:14-16 | The count of leading whitespace is followed by a non-space. |
| CsvLoading.TrailingSpaces | src/DataLoader.cpp:17-19 | The count of trailing whitespace is preceded by a non-space. |
| CsvLoading.LeadingSpacesAt | src/DataLoader.cpp:14-16 | The first non-space position determines the leading count. |
| CsvLoading.TrailingSpacesAt | src/DataLoader.cpp:17-19 | The last non-space position determines the trailing count. |
| CsvLoading.Trim | src/DataLoader.cpp:12-21 | The two scans return `Trimmed(s)`. |
| CsvLoading.TrimmedIsCore | src/DataLoader.cpp:12-21 | The result is the slice of s between all-whitespace ends, and it neither starts nor ends with whitespace. |
| CsvLoading.TrimmedSlice | src/DataLoader.cpp:12-21 | The result is a slice of s followed only by whitespace. |
| CsvLoading.TrimmedEnds | src/DataLoader.cpp:12-21 | A non-empty result has no whitespace at either end. |
| CsvLoading.TrimIdempotent | src/DataLoader.cpp:12-21 | Trimming twice equals trimming once. |
| CsvLoading.TrimmedEmptyIffAllSpace | src/DataLoader.cpp:12-21 | The result is empty iff s is all whitespace. |
| CsvLoading.Pow10 | src/DataLoader.cpp:52 | Powers of ten used by the decimal reader are at least 1. |
| CsvLoading.DigitRunStops | src/DataLoader.cpp:52 | A digit run stops at the first non-digit. |
| CsvLoading.StodUnsigned | src/DataLoader.cpp:52 | A field starting with a digit always parses, as its unsigned magnitude. |
| CsvLoading.UnsignedWithPoint | src/DataLoader.cpp:52 | Digits, a point and digits split into integer part, fraction and remainder. |
| CsvLoading.UnsignedWithoutPoint | src/DataLoader.cpp:52 | Digits without a point give their value and the remainder. |
| CsvLoading.StodOfDecimal | src/DataLoader.cpp:52-64 | "ddd.ddd" parses to integer part + fraction. |
| CsvLoading.StodOfInteger | src/DataLoader.cpp:52-64 | A digit string parses to its value. |
| CsvLoading.UnsignedOfDigits | src/DataLoader.cpp:52 | A digit string is one unsigned decimal with nothing left over. |
| CsvLoading.StodOfNegative | src/DataLoader.cpp:52-68 | A leading minus negates the parsed value. |
| CsvLoading.StodRejectsNonNumeric | src/DataLoader.cpp:52-68 | A field not starting with a digit, sign or point is rejected, so the line is skipped. |
| CsvLoading.CommaAt | src/DataLoader.cpp:47-67 | This is the position of the first comma, or the length. |
| CsvLoading.NextField | src/DataLoader.cpp:47-67 | `getline(ss, item, ',')` fails iff nothing is left. Otherwise the line is item + ',' + rest, or the item is the whole remainder; the item holds no comma. |
| CsvLoading.FieldsOfJoin | src/DataLoader.cpp:47-67 | A comma-free field followed by a comma is the first field. |
| CsvLoading.FieldsOfLast | src/DataLoader.cpp:47-67 | A non-empty comma-free tail is the last field. |
| CsvLoading.ReadNumberFields | src/DataLoader.cpp:51-68 | Reading a number consumes exactly the next field and parses its trimmed text. |
| CsvLoading.ParseRowFromFields | src/DataLoader.cpp:45-75 | A line gives a bar iff it has at least six fields whose last five parse; the bar is the trimmed timestamp and those five numbers. |
| CsvLoading.ExtraFieldsIgnored | src/DataLoader.cpp:47-70 | Fields after the sixth never change the row. |
| CsvLoading.TimestampIsTrimmed | src/DataLoader.cpp:47-48 | A stored timestamp is already trimmed. |
| CsvLoading.NumberField | src/DataLoader.cpp:51-52 | `stod(trim(item))` after `getline` gives `ReadNumber`. |
| CsvLoading.ParseLine | src/DataLoader.cpp:42-75 | The body of the try block gives `ParseRow`. |
| CsvLoading.RowsAccountedFor | src/DataLoader.cpp:40-82 | Every data line becomes a bar or a bad line. |
| CsvLoading.ParsedRowsAppend | src/DataLoader.cpp:40-82 | Lines are parsed independently, in file order. |
| CsvLoading.BarsComeFromLines | src/DataLoader.cpp:40-82 | Each loaded bar is the parse of some data line. |
| CsvLoading.LoadCsv | src/DataLoader.cpp:23-88 | No file or no header gives no bars and no bad lines. Otherwise the result is the bars of every line after the header, and bars + bad lines = data lines. |
| DataFiles.Candidates | include/FileUtils.hpp:10-18 | There are seven candidate paths: the seven prefixes in order, the bare name first. |
| DataFiles.FirstExisting | include/FileUtils.hpp:20-25 | The result is the first existing path, or none when no path exists. |
| DataFiles.FindDataFile | include/FileUtils.hpp:8-29 | The result is always one of the candidates. |
| DataFiles.FoundIsFirstExisting | include/FileUtils.hpp:20-25 | The k-th candidate is returned when it exists and no earlier one does; anything but the bare name exists. |
| DataFiles.NothingFoundGivesName | include/FileUtils.hpp:27-28 | With no candidate on disk, the name comes back unchanged. |
| Randomness.Rng.NextInt | src/GeneticStrategy.cpp:13-20 | An integer draw lies in [lo, hi]. |
| Randomness.Rng.NextReal | src/GeneticStrategy.cpp:17-21 | A real draw lies in [lo, hi). |
| Genes.EnumRangesMatchMembers | include/GeneticStrategy.hpp:12-24 | The drawn ranges 0..7, 0..5 and 0..3 name each enum member exactly once (both directions). |
| Genes.DefaultGeneInDomain | include/GeneticStrategy.hpp:27-42 | The default gene lies in the sampling domain and has fitness 0. |
| Genes.RandomGene | src/GeneticStrategy.cpp:10-38 | A random gene lies in the domain and has fitness 0. |
| Genes.MaybeRedrawInt | src/GeneticStrategy.cpp:54-63 | A field is kept or redrawn in [lo, hi]; a rate ≤ 0 keeps it. |
| Genes.MaybeRedrawReal | src/GeneticStrategy.cpp:56-64 | A field is kept or redrawn in [lo, hi); a rate ≤ 0 keeps it. |
| Genes.MaybeRedrawIndicator | src/GeneticStrategy.cpp:52-53 | A rate ≤ 0 keeps the indicator. |
| Genes.MaybeRedrawEntry | src/GeneticStrategy.cpp:58 | A rate ≤ 0 keeps the entry condition. |
| Genes.MaybeRedrawExit | src/GeneticStrategy.cpp:59 | A rate ≤ 0 keeps the exit condition. |
| Genes.MutateGene | src/GeneticStrategy.cpp:40-65 | Every numeric field is kept or redrawn from its domain and the fitness is kept; a rate ≤ 0 changes nothing. |
| Genes.Pick | src/GeneticStrategy.cpp:71-83 | Each child field comes from one of the two parents. |
| Genes.CrossoverGene | src/GeneticStrategy.cpp:67-86 | Every field of the child is one parent's, and its fitness is 0. |
| Genes.MutationPreservesDomain | src/GeneticStrategy.cpp:40-65 | Mutating an in-domain gene stays in the domain. |
| Genes.CrossoverPreservesDomain | src/GeneticStrategy.cpp:67-86 | A child of in-domain parents is in the domain. |
| Genes.CrossoverWithSelf | src/GeneticStrategy.cpp:67-86 | Crossing a gene with itself reproduces it, with fitness 0. |
| Fitness.SumNonNegative | src/GeneticStrategy.cpp:416-418 | Sums of non-negative amounts are non-negative, and zero only when every amount is. |
| Fitness.FirstExit | src/GeneticStrategy.cpp:288-304 | The exit bar is the first bar after entry that reaches stop or target; none when no bar does. |
| Fitness.DomainIsEvaluable | src/GeneticStrategy.cpp:291-301 | Every in-domain gene can be evaluated on positive closes, because its sizing keeps equity positive. |
| Fitness.ReturnAtLevel | src/GeneticStrategy.cpp:290-291 | Leaving at close·(1+f) is a return of exactly f. |
| Fitness.TradeAt | src/GeneticStrategy.cpp:281-304 | A booked trade follows a BUY, and its return is −slPct (stop) or +tpPct (target). |
| Fitness.Compound | src/GeneticStrategy.cpp:301 | Compounding a positive equity by a positive factor keeps it positive. |
| Fitness.FactorIsPositive | src/GeneticStrategy.cpp:301 | With the sizing bounds, the factor 1 + return·size is positive. |
| Fitness.AfterTrade | src/GeneticStrategy.cpp:293-302 | Booking keeps equity positive and leaves curve and returns unchanged. |
| Fitness.Simulate | src/GeneticStrategy.cpp:280-311 | After k bars there are k curve points and k−1 returns, every equity is positive, and the last point is the current equity. |
| Fitness.SimulateCountsConsistent | src/GeneticStrategy.cpp:293-300 | wins ≤ trades; profits = wins; profits + losses = trades. Profits are +tpPct (or −slPct when it is positive); losses are slPct or −tpPct. |
| Fitness.BookKeepsCounts | src/GeneticStrategy.cpp:293-301 | Booking one trade keeps those counts consistent. |
| Fitness.TradeCountedOnlyOnExit | src/GeneticStrategy.cpp:288-304 | A bar adds one trade iff its BUY finds a later exit, however many trades are open; otherwise equity is unchanged. |
| Fitness.WinRateIsFraction | src/GeneticStrategy.cpp:317 | The win rate lies in [0, 1] and is 0 without trades. |
| Fitness.ProfitFactorCases | src/GeneticStrategy.cpp:416-421 | The profit factor is ≥ 0, is profit/loss when there are losses, is 1000 with profits only, and is 0 with neither. |
| Fitness.Peak | src/GeneticStrategy.cpp:401-406 | The running peak is at least every value up to k. |
| Fitness.MaxDrawdownUpTo | src/GeneticStrategy.cpp:397-414 | The result is ≥ 0, at least every drawdown seen, and equal to one of them (or 0). |
| Fitness.MaxDrawdown | src/GeneticStrategy.cpp:397-414 | The one-pass loop returns the maximum drawdown, and 0 for an empty curve. |
| Fitness.DrawdownBelowOne | src/GeneticStrategy.cpp:407 | On a positive curve every drawdown is below 1. |
| Fitness.MaxDrawdownBelowOne | src/GeneticStrategy.cpp:397-414 | On a positive curve the maximum drawdown lies in [0, 1). |
| Fitness.SquaredDeviations | src/GeneticStrategy.cpp:387-390 | The sum of squared deviations is non-negative. |
| Fitness.Variance | src/GeneticStrategy.cpp:386-391 | The variance is non-negative. |
| Fitness.SquareRoot | src/GeneticStrategy.cpp:393 | The square root is non-negative, and zero exactly at 0. |
| Fitness.SharpeRatio | src/GeneticStrategy.cpp:383-395 | The ratio is 0 for no returns or zero variance; otherwise it has the sign of the mean return. |
| Fitness.ConstantReturnsHaveNoVariance | src/GeneticStrategy.cpp:383-395 | Equal returns have that mean and zero variance, so Sharpe 0. |
| Fitness.SumOfConstant | src/GeneticStrategy.cpp:386 | n equal values sum to n·c. |
| Fitness.SquaredDeviationsOfConstant | src/GeneticStrategy.cpp:387-390 | Equal values deviate by 0 from themselves. |
| Fitness.CalmarCases | src/GeneticStrategy.cpp:320 | With a drawdown d > 0, Calmar·d = return and Calmar has the return's sign; otherwise Calmar is 0. |
| Fitness.FindExit | src/GeneticStrategy.cpp:288-304 | The search loop returns `FirstExit`. |
| Fitness.CloseTrade | src/GeneticStrategy.cpp:283-302 | A BUY's exit search gives `TradeAt`. |
| Fitness.TradeAtBar | src/GeneticStrategy.cpp:281-305 | Asking the strategy object and searching the exit gives `TradeAt`. |
| Fitness.Record | src/GeneticStrategy.cpp:293-301 | The booking statements give `AfterTrade`. |
| Fitness.RunTrades | src/GeneticStrategy.cpp:280-311 | The trade loop's accumulators equal `Simulate` over all bars. |
| Fitness.EvaluateFitness | src/GeneticStrategy.cpp:269-327 | Every field of the result is its metric over `Simulate`. The score is 0.4·Sharpe + 0.3·return + 0.2·win rate + 0.1·PF − 0.5·DD, and Sharpe is 0 without spread. |
| Fitness.EvaluationBounds | src/GeneticStrategy.cpp:313-320 | Every evaluation has: win rate in [0, 1], drawdown in [0, 1), return above −100%, PF ≥ 0, and wins ≤ trades. |
| Evolution.BestIndex | src/GeneticStrategy.cpp:235-236 | The index is of a fittest gene, the first one. |
| Evolution.MaxElement | src/GeneticStrategy.cpp:367-368 | The scan returns `BestIndex`. |
| Evolution.PairedPrefix | src/GeneticStrategy.cpp:350 | The pairs cover the population rounded down to an even count. |
| Evolution.PairStepsCarryOver | src/GeneticStrategy.cpp:350-357 | Rewriting pair i keeps every earlier pair a step from the original population. |
| Evolution.GeneticAlgorithm.constructor | src/GeneticStrategy.cpp:215-223 | The defaults are 50/100/0.1/0.8; the population is empty; the best is the default gene. |
| Evolution.GeneticAlgorithm.InitializePopulation | src/GeneticStrategy.cpp:255-260 | The population is the configured number of in-domain genes with fitness 0. |
| Evolution.GeneticAlgorithm.EvaluatePopulation | src/GeneticStrategy.cpp:262-267 | Only each gene's fitness changes. |
| Evolution.DrawnSnoc | src/GeneticStrategy.cpp:335-340 | A further draw becomes the leader only when it is strictly fitter than the current leader. |
| Evolution.GeneticAlgorithm.Tournament | src/GeneticStrategy.cpp:333-341 | Three indices are drawn in the population range. The winner is the fittest of them, and the earliest draw wins a tie. |
| Evolution.GeneticAlgorithm.SelectParents | src/GeneticStrategy.cpp:329-345 | The new population has the configured size, and every member is a copy of an old member. |
| Evolution.GeneticAlgorithm.CrossoverPair | src/GeneticStrategy.cpp:351-356 | The pair is unchanged or replaced by its two children; nothing else changes. |
| Evolution.GeneticAlgorithm.Crossover | src/GeneticStrategy.cpp:347-358 | Every even pair is unchanged or replaced by its children; an unpaired last gene is untouched. |
| Evolution.GeneticAlgorithm.Mutate | src/GeneticStrategy.cpp:360-364 | Every gene is a mutation of its old self and stays in the domain; a rate ≤ 0 changes nothing. |
| Evolution.GeneticAlgorithm.Elitism | src/GeneticStrategy.cpp:366-373 | The first fittest gene is replaced by the best-so-far iff that one is strictly fitter; afterwards the population is at least as fit as the best. |
| Evolution.GeneticAlgorithm.Generation | src/GeneticStrategy.cpp:230-249 | The best fitness never drops, and the population ends at least as fit as the best. |
| Evolution.GeneticAlgorithm.Evolve | src/GeneticStrategy.cpp:225-253 | The population has the configured size and stays in the domain. The best fitness never drops; after one round or more, the population holds a gene at least as fit as the best. |

## Left out

- **Side effects and reporting.**
  - Console and error logging, timing (`std::chrono`), the GUI, the entry points, the
    benchmark, and the data-fetching scripts are not modelled.
  - `printYearlyPnL`, `printTotalGain`, `toString`, `toPineScript` and
    `exportBestToPineScript` produce text only and are not modelled.
- **Floating point.** Doubles are exact reals: rounding, NaN and infinity are not modelled.
- **Division by zero.** Where the C++ could divide by zero, the model asks for the input
  that avoids it:
  - `Indicators.Sma` requires `period > 0`;
  - `GpuStrategies.GpuGoldenFoundationStrategy.constructor` requires a non-zero
    risk-reward ratio;
  - `Fitness.EvaluateFitness` requires positive closes, positive indicator periods, and
    sizing with `1 + return·size > 0`. `Fitness.DomainIsEvaluable` shows that every gene
    the optimiser can produce meets this;
  - `Evolution.GeneticAlgorithm.EvaluatePopulation` and `Evolve` require positive closes;
  - `Fitness.MaxDrawdown` requires a positive first equity point, because it divides by the
    running peak. `Fitness.EvaluateFitness` only passes it positive curves.
- **Calls whose code is not part of this model.** They are methods that promise only the
  shape of their results, so everything proved about their callers holds whatever they
  compute:
  - the accelerator kernel `gpu_calculate_all_indicators_and_signals`;
  - `Strategy::calculateDynamicPeriods`;
  - `Indicators::calculateBatchIndicators`;
  - `std::sqrt`.
- **Random numbers.** `std::mt19937` and `std::random_device` are replaced by an `Rng`
  object seeded from a constructor parameter. Its draws promise only their range, not
  their distribution.
- **File system.** The file read by `loadCSV` is its list of lines, or `None` when it
  cannot be opened. `std::filesystem::exists` is a predicate parameter.
- **stod coverage.** `std::stod` is modelled for decimal text: optional sign, digits,
  optional fraction, optional exponent. Hexadecimal, `inf`/`nan` and the `out_of_range`
  exception are not modelled.
- Genes.MutateGene: returns the mutated gene instead of updating it in place. The
  population's `Mutate` writes it back.
- Evolution.GeneticAlgorithm.EvaluatePopulation: states that only the fitness field
  changes, not its value. The value is given by `Fitness.EvaluateFitness`, whose Sharpe
  ratio depends on the square root, which is not modelled.
- Evolution.GeneticAlgorithm.Evolve: requires a positive population size when
  generations run, because the C++ would dereference `max_element` of an empty population.
- EvolvedStrategies.EvolvedStrategy.GenerateSignal: requires that a later call's
  index is within the bars of the first call. Past them the C++ would index its vectors out of bounds.
- EvolvedStrategies.EvolvedStrategy.constructor: requires positive indicator periods,
  which every gene from the domain has.
- **Stateful strategies in the backtester.** The backtester's `Strategy*` is a function from
  the bars and an index to a signal. The dual-path and evolved strategies precompute on their
  first call, and a run over them is modelled only through the answer each gives at each index.
- **Backtester helpers.** `calculateDaysInDataset`, `calculateAdditionalMetrics` and
  `addToYearlyPnL` are declared in include/Backtester.hpp but have no code, so they are not
  modelled.
- **Fixed-rule `risk_` member.** The fixed-rule strategy reads a `risk_` member that
  src/Strategy.cpp does not declare. It is the field `risk` of the strategy value, with the
  documented default 1.0.
