/**
 * `EvolvedStrategy` (src/GeneticStrategy.cpp): a strategy driven by a `StrategyGene`.
 * On its first call it evaluates the gene's two indicators at every bar into two
 * member vectors; each signal then reads those vectors. `EvolvedSignal` states the
 * signal directly over the bars, and the object's `GenerateSignal` is proved to agree
 * with it whenever the vectors were computed from the same bars.
 */
module EvolvedStrategies {
  import opened MarketData
  import opened Signals
  import opened Genes
  import Ind = Indicators

  /** The indicators are evaluated with periods of at least one bar. */
  predicate PositivePeriods(g: StrategyGene)
  {
    g.primaryPeriod >= 1 && g.secondaryPeriod >= 1
  }

  /** `std::max(primary_period, secondary_period)`. */
  function MaxPeriod(g: StrategyGene): nat
    requires PositivePeriods(g)
  {
    if g.primaryPeriod < g.secondaryPeriod then g.secondaryPeriod else g.primaryPeriod
  }

  /** `EvolvedStrategy::calculateIndicator`: only SMA and RSI are implemented; every other
      indicator type evaluates to 0. */
  function IndicatorValue(data: seq<Bar>, index: nat, t: IndicatorType, period: int): (v: real)
    requires index < |data| && period >= 1
    ensures t != SmaIndicator && t != RsiIndicator ==> v == 0.0
  {
    match t
    case SmaIndicator => Ind.SmaValue(data, index, period)
    case RsiIndicator => Ind.RsiValue(data, index, period)
    case _ => 0.0
  }

  /** The vector `precomputeIndicators` fills for one indicator. */
  function IndicatorSeries(data: seq<Bar>, t: IndicatorType, period: int): (s: seq<real>)
    requires period >= 1
    ensures |s| == |data|
  {
    seq(|data|, i requires 0 <= i < |data| => IndicatorValue(data, i, t, period))
  }

  /** `EvolvedStrategy::checkEntryCondition` over the precomputed vectors. The two crossing
      conditions also read the previous bar's primary value. */
  predicate EntryHolds(g: StrategyGene, primary: seq<real>, secondary: seq<real>, index: nat)
    requires 1 <= index < |primary| && index < |secondary|
  {
    match g.entryCondition
    case CrossAbove => primary[index] > g.primaryThreshold && primary[index - 1] <= g.primaryThreshold
    case CrossBelow => primary[index] < g.primaryThreshold && primary[index - 1] >= g.primaryThreshold
    case Above => primary[index] > g.primaryThreshold && secondary[index] > g.secondaryThreshold
    case Below => primary[index] < g.primaryThreshold && secondary[index] < g.secondaryThreshold
    case InsideBb => false
    case OutsideBb => false
  }

  /** The buy the strategy emits at a bar: stop and target are the close scaled by the gene's
      percentages. */
  function EvolvedBuy(g: StrategyGene, index: nat, close: real): TradeSignal
  {
    TradeSignal(Buy, index, close * (1.0 - g.stopLossPct), close * (1.0 + g.takeProfitPct), "Evolved Strategy Signal")
  }

  /** `EvolvedStrategy::generateSignal` once the vectors exist. */
  function SignalFromValues(g: StrategyGene, data: seq<Bar>, primary: seq<real>, secondary: seq<real>, index: nat): TradeSignal
    requires PositivePeriods(g) && index < |data|
    requires index >= MaxPeriod(g) ==> index < |primary| && index < |secondary|
  {
    if index < MaxPeriod(g) then
      Nothing(index, "Not enough data")
    else if EntryHolds(g, primary, secondary, index) then
      EvolvedBuy(g, index, data[index].close)
    else
      Nothing(index, "No signal")
  }

  /** The entry rule stated directly on the indicators at the bar and the bar before. */
  predicate EntryAt(g: StrategyGene, data: seq<Bar>, index: nat)
    requires PositivePeriods(g) && 1 <= index < |data|
  {
    var p, q := IndicatorValue(data, index, g.primaryIndicator, g.primaryPeriod),
                IndicatorValue(data, index, g.secondaryIndicator, g.secondaryPeriod);
    var before := IndicatorValue(data, index - 1, g.primaryIndicator, g.primaryPeriod);
    match g.entryCondition
    case CrossAbove => p > g.primaryThreshold && before <= g.primaryThreshold
    case CrossBelow => p < g.primaryThreshold && before >= g.primaryThreshold
    case Above => p > g.primaryThreshold && q > g.secondaryThreshold
    case Below => p < g.primaryThreshold && q < g.secondaryThreshold
    case _ => false
  }

  /** The signal the strategy gives at `index` when its vectors were computed from `data`. */
  function EvolvedSignal(g: StrategyGene, data: seq<Bar>, index: nat): (s: TradeSignal)
    requires PositivePeriods(g) && index < |data|
    ensures s.barIndex == index
    ensures index < MaxPeriod(g) ==> s == Nothing(index, "Not enough data")
    ensures s.kind == Buy <==> index >= MaxPeriod(g) && EntryAt(g, data, index)
    ensures s.kind == Buy ==>
      && s.stopLoss == data[index].close * (1.0 - g.stopLossPct)
      && s.takeProfit == data[index].close * (1.0 + g.takeProfitPct)
    ensures s.kind != Buy ==> s.kind == NoSignal && s.stopLoss == 0.0 && s.takeProfit == 0.0
    ensures g.entryCondition == InsideBb || g.entryCondition == OutsideBb ==> s.kind != Buy
  {
    SignalFromValues(g, data, IndicatorSeries(data, g.primaryIndicator, g.primaryPeriod),
                     IndicatorSeries(data, g.secondaryIndicator, g.secondaryPeriod), index)
  }

  /** A buy at a positive close with positive stop and target percentages has its stop below
      and its target above the entry. */
  lemma EvolvedBuyBracketsEntry(g: StrategyGene, data: seq<Bar>, index: nat)
    requires PositivePeriods(g) && index < |data| && EvolvedSignal(g, data, index).kind == Buy
    requires data[index].close > 0.0 && g.stopLossPct > 0.0 && g.takeProfitPct > 0.0
    ensures var s := EvolvedSignal(g, data, index);
      s.stopLoss < data[index].close < s.takeProfit
  {
    var close := data[index].close;
    assert close * g.stopLossPct > 0.0;
    assert close * g.takeProfitPct > 0.0;
    assert close * (1.0 - g.stopLossPct) == close - close * g.stopLossPct;
    assert close * (1.0 + g.takeProfitPct) == close + close * g.takeProfitPct;
  }

  /** An indicator at bar j reads no bar after j. */
  lemma IndicatorValueOfPrefix(data: seq<Bar>, j: nat, m: nat, t: IndicatorType, period: int)
    requires j < m <= |data| && period >= 1
    ensures IndicatorValue(data[..m], j, t, period) == IndicatorValue(data, j, t, period)
  {
    if period <= j + 1 {
      Ind.SumClosesOfPrefix(data, j + 1 - period, j + 1, m);
    }
    if period <= j {
      Ind.GainsLossesOfPrefix(data, j - period + 1, j + 1, m);
    }
  }

  /** The evolved signal at bar i is unchanged when every later bar is dropped. */
  lemma EvolvedSignalHasNoLookAhead(g: StrategyGene, data: seq<Bar>, index: nat)
    requires PositivePeriods(g) && index < |data|
    ensures EvolvedSignal(g, data[..index + 1], index) == EvolvedSignal(g, data, index)
  {
    var prefix := data[..index + 1];
    IndicatorValueOfPrefix(data, index, index + 1, g.primaryIndicator, g.primaryPeriod);
    IndicatorValueOfPrefix(data, index, index + 1, g.secondaryIndicator, g.secondaryPeriod);
    if index >= 1 {
      IndicatorValueOfPrefix(data, index - 1, index + 1, g.primaryIndicator, g.primaryPeriod);
      assert EntryAt(g, prefix, index) == EntryAt(g, data, index);
    }
  }

  /** `EvolvedStrategy::calculateIndicator`, calling the looping indicator methods. */
  method CalculateIndicator(data: seq<Bar>, index: nat, t: IndicatorType, period: int) returns (v: real)
    requires index < |data| && period >= 1
    ensures v == IndicatorValue(data, index, t, period)
  {
    match t {
      case SmaIndicator =>
        v := Ind.Sma(data, index, period);
      case RsiIndicator =>
        v := Ind.Rsi(data, index, period);
      case _ =>
        v := 0.0;
    }
  }

  class EvolvedStrategy {
    const gene: StrategyGene
    var primaryValues: seq<real>
    var secondaryValues: seq<real>
    var precomputed: bool
    /** The bars the vectors were computed from. */
    ghost var source: seq<Bar>

    ghost predicate Valid()
      reads this
    {
      && PositivePeriods(gene)
      && (precomputed ==>
            && primaryValues == IndicatorSeries(source, gene.primaryIndicator, gene.primaryPeriod)
            && secondaryValues == IndicatorSeries(source, gene.secondaryIndicator, gene.secondaryPeriod))
    }

    constructor (gene: StrategyGene)
      requires PositivePeriods(gene)
      ensures Valid() && this.gene == gene && !precomputed
      ensures primaryValues == [] && secondaryValues == []
    {
      this.gene := gene;
      primaryValues, secondaryValues := [], [];
      precomputed := false;
      source := [];
    }

    /** `EvolvedStrategy::precomputeIndicators`: both vectors resized to the bar count and
        filled bar by bar. */
    method PrecomputeIndicators(data: seq<Bar>)
      requires PositivePeriods(gene)
      modifies this
      ensures Valid() && precomputed && source == data
    {
      primaryValues := seq(|data|, _ => 0.0);
      secondaryValues := seq(|data|, _ => 0.0);
      for i := 0 to |data|
        invariant |primaryValues| == |data| && |secondaryValues| == |data|
        invariant forall k :: 0 <= k < i ==>
          primaryValues[k] == IndicatorValue(data, k, gene.primaryIndicator, gene.primaryPeriod)
        invariant forall k :: 0 <= k < i ==>
          secondaryValues[k] == IndicatorValue(data, k, gene.secondaryIndicator, gene.secondaryPeriod)
      {
        var p := CalculateIndicator(data, i, gene.primaryIndicator, gene.primaryPeriod);
        var q := CalculateIndicator(data, i, gene.secondaryIndicator, gene.secondaryPeriod);
        primaryValues := primaryValues[i := p];
        secondaryValues := secondaryValues[i := q];
      }
      precomputed := true;
      source := data;
    }

    /** `EvolvedStrategy::generateSignal`: computes the vectors on the first call only, then
        reads them. The vectors must cover `currentIndex`. */
    method GenerateSignal(data: seq<Bar>, currentIndex: nat) returns (s: TradeSignal)
      requires Valid() && currentIndex < |data|
      requires precomputed ==> currentIndex < |source|
      modifies this
      ensures Valid() && precomputed
      ensures old(precomputed) ==> unchanged(this)
      ensures !old(precomputed) ==> source == data
      ensures s == SignalFromValues(gene, data, primaryValues, secondaryValues, currentIndex)
      ensures source == data ==> s == EvolvedSignal(gene, data, currentIndex)
    {
      if !precomputed {
        PrecomputeIndicators(data);
      }
      if currentIndex < MaxPeriod(gene) {
        return Nothing(currentIndex, "Not enough data");
      }
      if EntryHolds(gene, primaryValues, secondaryValues, currentIndex) {
        return EvolvedBuy(gene, currentIndex, data[currentIndex].close);
      }
      return Nothing(currentIndex, "No signal");
    }
  }
}
