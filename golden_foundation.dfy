/**
 * The fixed-rule strategy of src/Strategy.cpp: buy when the close is above its
 * 50-bar average, the 14-bar RSI is oversold and the bar opens a fair value gap.
 * The stop scales with the strategy's `risk` (the C++ `risk_`, 1.0 by default).
 */
module GoldenFoundation {
  import opened MarketData
  import opened Signals
  import opened Indicators

  const SmaPeriod: nat := 50
  const RsiPeriod: nat := 14
  const RsiOversold: real := 30.0
  const RiskReward: real := 3.0
  const DefaultRisk: real := 1.0

  /** Bars needed before the rule is evaluated: max(SmaPeriod, RsiPeriod). */
  const WarmUp: nat := if SmaPeriod < RsiPeriod then RsiPeriod else SmaPeriod

  /** The three entry filters at a bar with enough history. */
  predicate EntrySetup(data: seq<Bar>, i: nat)
    requires WarmUp <= i < |data|
  {
    && data[i].close > SmaValue(data, i, SmaPeriod)
    && RsiValue(data, i, RsiPeriod) < RsiOversold
    && DetectFvg(data, i)
  }

  datatype GoldenFoundationStrategy = GoldenFoundationStrategy(risk: real)
  {
    /** `GoldenFoundationStrategy::generateSignal`. */
    function GenerateSignal(data: seq<Bar>, currentIndex: nat): (s: TradeSignal)
      requires currentIndex < |data|
      ensures s.barIndex == currentIndex
      ensures s.kind == Buy <==> currentIndex >= WarmUp && EntrySetup(data, currentIndex)
      ensures s.kind != Buy ==> s.kind == NoSignal && s.stopLoss == 0.0 && s.takeProfit == 0.0
      ensures s.kind == Buy ==>
        var entry := data[currentIndex].close;
        && s.stopLoss == entry - entry * 0.005 * risk
        && s.takeProfit - entry == RiskReward * (entry - s.stopLoss)
    {
      if currentIndex < WarmUp then
        Nothing(currentIndex, "Not enough data")
      else if EntrySetup(data, currentIndex) then
        var entry := data[currentIndex].close;
        var stop := entry - entry * 0.005 * risk;
        var target := entry + (entry - stop) * RiskReward;
        TradeSignal(Buy, currentIndex, stop, target, "Uptrend, RSI<30, FVG")
      else
        Nothing(currentIndex, "No setup")
    }
  }

  /** A buy at a positive price with positive risk has its stop below and its target above the entry. */
  lemma BuyBracketsEntry(strategy: GoldenFoundationStrategy, data: seq<Bar>, i: nat)
    requires i < |data| && data[i].close > 0.0 && strategy.risk > 0.0
    requires strategy.GenerateSignal(data, i).kind == Buy
    ensures var s := strategy.GenerateSignal(data, i);
      s.stopLoss < data[i].close < s.takeProfit
  {
    var entry := data[i].close;
    assert entry * 0.005 * strategy.risk > 0.0;
  }

  /** Before the warm-up no signal is produced, whatever the bars hold. */
  lemma NoSignalDuringWarmUp(strategy: GoldenFoundationStrategy, data: seq<Bar>, i: nat)
    requires i < |data| && i < WarmUp
    ensures strategy.GenerateSignal(data, i) == Nothing(i, "Not enough data")
  {
  }

  /** The signal at bar i is unchanged when every later bar is dropped. */
  lemma SignalHasNoLookAhead(strategy: GoldenFoundationStrategy, data: seq<Bar>, i: nat)
    requires i < |data|
    ensures strategy.GenerateSignal(data[..i + 1], i) == strategy.GenerateSignal(data, i)
  {
    IndicatorsHaveNoLookAhead(data, i, SmaPeriod);
    IndicatorsHaveNoLookAhead(data, i, RsiPeriod);
  }
}
