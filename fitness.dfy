/**
 * Fitness of a gene (`GeneticAlgorithm::evaluateFitness` and its metric helpers in
 * src/GeneticStrategy.cpp). The evaluation is its own small trade simulation: on every
 * bar where the gene's strategy says BUY it looks ahead for the first later bar that
 * reaches the stop or the target, and if there is one it books the trade at once,
 * compounding equity at the entry bar. Trades overlap freely, and a trade that never
 * reaches either level is not counted.
 */
module Fitness {
  import opened Options
  import opened MarketData
  import opened Signals
  import opened Genes
  import opened EvolvedStrategies

  const InitialEquity: real := 10000.0
  /** The profit factor reported when there are profits but no losses. */
  const ProfitFactorCap: real := 1000.0

  datatype FitnessResult = FitnessResult(
    totalReturn: real,
    sharpeRatio: real,
    maxDrawdown: real,
    winRate: real,
    totalTrades: int,
    profitFactor: real,
    calmarRatio: real,
    fitnessScore: real)

  /** A default-constructed `FitnessResult`: every field 0. */
  const DefaultFitnessResult: FitnessResult := FitnessResult(0.0, 0.0, 0.0, 0.0, 0, 0.0, 0.0, 0.0)

  // ---------------------------------------------------------------------------
  // Sums (std::accumulate from 0.0)
  // ---------------------------------------------------------------------------

  function Sum(xs: seq<real>): real
  {
    if xs == [] then 0.0 else Sum(xs[..|xs| - 1]) + xs[|xs| - 1]
  }

  lemma {:induction false} SumNonNegative(xs: seq<real>)
    requires forall k :: 0 <= k < |xs| ==> xs[k] >= 0.0
    ensures Sum(xs) >= 0.0
    ensures Sum(xs) == 0.0 ==> forall k :: 0 <= k < |xs| ==> xs[k] == 0.0
  {
    if xs != [] {
      SumNonNegative(xs[..|xs| - 1]);
    }
  }

  // ---------------------------------------------------------------------------
  // The trade simulation
  // ---------------------------------------------------------------------------

  /** The bar reaches the stop or the target. */
  predicate Hits(b: Bar, stop: real, target: real)
  {
    b.low <= stop || b.high >= target
  }

  /** The first bar at or after `from` that reaches the stop or the target. */
  function FirstExit(data: seq<Bar>, from: nat, stop: real, target: real): (j: Option<nat>)
    requires from <= |data|
    ensures j.Some? ==> from <= j.value < |data| && Hits(data[j.value], stop, target)
    ensures j.Some? ==> forall k :: from <= k < j.value ==> !Hits(data[k], stop, target)
    ensures j.None? ==> forall k :: from <= k < |data| ==> !Hits(data[k], stop, target)
    decreases |data| - from
  {
    if from == |data| then None
    else if Hits(data[from], stop, target) then Some(from)
    else FirstExit(data, from + 1, stop, target)
  }

  /** The stop when the bar reaches it (checked first), otherwise the target. */
  function ExitPrice(b: Bar, stop: real, target: real): real
  {
    if b.low <= stop then stop else target
  }

  /** Preconditions of the evaluation: positive closes (each trade divides by its entry close),
      positive indicator periods, and position sizes that keep the equity positive (each return
      divides by the previous equity). */
  predicate Evaluable(g: StrategyGene, data: seq<Bar>)
  {
    && PositiveCloses(data)
    && PositivePeriods(g)
    && g.stopLossPct * g.positionSizePct < 1.0
    && g.takeProfitPct * g.positionSizePct > -1.0
  }

  /** Every gene of the domain can be evaluated on bars with positive closes. */
  lemma DomainIsEvaluable(g: StrategyGene, data: seq<Bar>)
    requires InDomain(g) && PositiveCloses(data)
    ensures Evaluable(g, data)
  {
    assert g.stopLossPct * g.positionSizePct <= 0.1 * g.positionSizePct;
  }

  /** The close-to-level return of a position entered at `close` and left at `close·(1+f)`. */
  lemma ReturnAtLevel(close: real, f: real)
    requires close > 0.0
    ensures (close * (1.0 + f) - close) / close == f
  {
    assert close * (1.0 + f) - close == close * f;
  }

  /** The return of the trade opened at bar i, if a later bar closes it. */
  function TradeAt(g: StrategyGene, data: seq<Bar>, i: nat): (r: Option<real>)
    requires Evaluable(g, data) && i < |data|
    ensures r.Some? ==> EvolvedSignal(g, data, i).kind == Buy
    ensures r.Some? ==> r.value == -g.stopLossPct || r.value == g.takeProfitPct
  {
    var signal := EvolvedSignal(g, data, i);
    if signal.kind != Buy then None
    else
      match FirstExit(data, i + 1, signal.stopLoss, signal.takeProfit)
      case None => None
      case Some(j) =>
        var entry := data[i].close;
        ReturnAtLevel(entry, -g.stopLossPct);
        ReturnAtLevel(entry, g.takeProfitPct);
        assert entry * (1.0 - g.stopLossPct) == entry * (1.0 + -g.stopLossPct);
        Some((ExitPrice(data[j], signal.stopLoss, signal.takeProfit) - entry) / entry)
  }

  /** The loop's accumulators. */
  datatype Tally = Tally(equity: real, wins: nat, total: nat, curve: seq<real>, barReturns: seq<real>,
                         profits: seq<real>, losses: seq<real>)

  /** The growth factor of one trade: `1.0 + trade_return * position_size_pct`. */
  function Factor(r: real, size: real): real
  {
    1.0 + r * size
  }

  /** `equity *= Factor(r, size)`: positive while the factor is. */
  function Compound(equity: real, r: real, size: real): (e: real)
    requires equity > 0.0 && Factor(r, size) > 0.0
    ensures e > 0.0
  {
    var f := Factor(r, size);
    ProductIsPositive(equity, f);
    equity * f
  }

  /** Book a closed trade with return r: counted, sorted into profits or losses, compounded. */
  function Book(t: Tally, r: real, size: real): Tally
    requires t.equity > 0.0 && Factor(r, size) > 0.0
  {
    if r > 0.0 then t.(wins := t.wins + 1, total := t.total + 1, profits := t.profits + [r], equity := Compound(t.equity, r, size))
    else t.(total := t.total + 1, losses := t.losses + [-r], equity := Compound(t.equity, r, size))
  }

  lemma ProductIsPositive(a: real, b: real)
    requires a > 0.0 && b > 0.0
    ensures a * b > 0.0
  {
  }

  lemma ProductNotPositive(a: real, b: real)
    requires a <= 0.0 && b > 0.0
    ensures a * b <= 0.0
  {
  }

  lemma FactorIsPositive(r: real, g: StrategyGene)
    requires g.stopLossPct * g.positionSizePct < 1.0 && g.takeProfitPct * g.positionSizePct > -1.0
    requires r == -g.stopLossPct || r == g.takeProfitPct
    ensures Factor(r, g.positionSizePct) > 0.0
  {
    FactorBound(r, g.stopLossPct, g.takeProfitPct, g.positionSizePct);
  }

  lemma FactorBound(r: real, sl: real, tp: real, z: real)
    requires sl * z < 1.0 && tp * z > -1.0
    requires r == -sl || r == tp
    ensures Factor(r, z) > 0.0
  {
    if r == -sl {
      assert r + sl == 0.0;
      assert (r + sl) * z == 0.0;
      assert (r + sl) * z == r * z + sl * z;
    } else {
      assert r - tp == 0.0;
      assert (r - tp) * z == 0.0;
      assert (r - tp) * z == r * z - tp * z;
    }
  }

  /** The accumulators after the trade opened at a bar, if it closed; the equity stays positive
      because the sizing keeps each factor `1 + r·size` positive. */
  function AfterTrade(t: Tally, trade: Option<real>, size: real, g: StrategyGene): (u: Tally)
    requires t.equity > 0.0 && size == g.positionSizePct
    requires g.stopLossPct * g.positionSizePct < 1.0 && g.takeProfitPct * g.positionSizePct > -1.0
    requires trade.Some? ==> trade.value == -g.stopLossPct || trade.value == g.takeProfitPct
    ensures u.equity > 0.0 && u.curve == t.curve && u.barReturns == t.barReturns
  {
    if trade.None? then t
    else
      var r := trade.value;
      FactorIsPositive(r, g);
      Book(t, r, g.positionSizePct)
  }

  /** The accumulators after bars 0 .. k-1: one equity point per bar, one return per bar after
      the first, and a positive equity throughout. */
  function Simulate(g: StrategyGene, data: seq<Bar>, k: nat): (t: Tally)
    requires Evaluable(g, data) && k <= |data|
    ensures |t.curve| == k && |t.barReturns| == if k == 0 then 0 else k - 1
    ensures t.equity > 0.0 && forall j :: 0 <= j < k ==> t.curve[j] > 0.0
    ensures k > 0 ==> t.curve[k - 1] == t.equity
  {
    if k == 0 then Tally(InitialEquity, 0, 0, [], [], [], [])
    else
      var prev := Simulate(g, data, k - 1);
      var i := k - 1;
      var booked := AfterTrade(prev, TradeAt(g, data, i), g.positionSizePct, g);
      var curve := prev.curve + [booked.equity];
      var barReturns := if i > 0 then prev.barReturns + [(booked.equity - prev.curve[i - 1]) / prev.curve[i - 1]] else prev.barReturns;
      booked.(curve := curve, barReturns := barReturns)
  }

  /** Counters agree with the lists: every win is a profit, every other closed trade a loss;
      profits are positive and are the take-profit or (if negative) the stop fraction. */
  ghost predicate CountsConsistent(g: StrategyGene, t: Tally)
  {
    && t.wins <= t.total
    && |t.profits| == t.wins
    && |t.profits| + |t.losses| == t.total
    && (forall k :: 0 <= k < |t.profits| ==> t.profits[k] > 0.0 && (t.profits[k] == g.takeProfitPct || t.profits[k] == -g.stopLossPct))
    && (forall k :: 0 <= k < |t.losses| ==> t.losses[k] >= 0.0 && (t.losses[k] == g.stopLossPct || t.losses[k] == -g.takeProfitPct))
  }

  lemma {:induction false} SimulateCountsConsistent(g: StrategyGene, data: seq<Bar>, k: nat)
    requires Evaluable(g, data) && k <= |data|
    ensures CountsConsistent(g, Simulate(g, data, k))
  {
    if k > 0 {
      SimulateCountsConsistent(g, data, k - 1);
      var prev := Simulate(g, data, k - 1);
      var trade := TradeAt(g, data, k - 1);
      if trade.Some? {
        FactorIsPositive(trade.value, g);
        BookKeepsCounts(g, prev, trade.value);
      }
    }
  }

  lemma BookKeepsCounts(g: StrategyGene, t: Tally, r: real)
    requires CountsConsistent(g, t) && (r == -g.stopLossPct || r == g.takeProfitPct)
    requires t.equity > 0.0 && Factor(r, g.positionSizePct) > 0.0
    ensures CountsConsistent(g, Book(t, r, g.positionSizePct))
  {
    var u := Book(t, r, g.positionSizePct);
    if r > 0.0 {
      assert u.profits == t.profits + [r];
    } else {
      assert u.losses == t.losses + [-r];
    }
  }

  /** Each bar adds one closed trade exactly when its BUY finds a later exit, whether or not
      earlier trades are still open; a BUY that never reaches stop or target is not counted. */
  lemma TradeCountedOnlyOnExit(g: StrategyGene, data: seq<Bar>, i: nat)
    requires Evaluable(g, data) && i < |data|
    ensures Simulate(g, data, i + 1).total == Simulate(g, data, i).total + (if TradeAt(g, data, i).Some? then 1 else 0)
    ensures TradeAt(g, data, i).None? ==> Simulate(g, data, i + 1).equity == Simulate(g, data, i).equity
  {
  }

  // ---------------------------------------------------------------------------
  // Metrics
  // ---------------------------------------------------------------------------

  /** `total > 0 ? wins / total : 0`. */
  function WinRate(wins: int, total: int): (r: real)
  {
    if total > 0 then wins as real / total as real else 0.0
  }

  lemma WinRateIsFraction(wins: int, total: int)
    requires 0 <= wins <= total
    ensures 0.0 <= WinRate(wins, total) <= 1.0
    ensures total == 0 ==> WinRate(wins, total) == 0.0
  {
    if total > 0 {
      assert wins as real <= total as real;
    }
  }

  /** `calculateProfitFactor`. */
  function ProfitFactor(profits: seq<real>, losses: seq<real>): real
  {
    var totalProfit, totalLoss := Sum(profits), Sum(losses);
    if totalLoss > 0.0 then totalProfit / totalLoss
    else if totalProfit > 0.0 then ProfitFactorCap
    else 0.0
  }

  /** With non-negative amounts the profit factor is non-negative, is the profit-to-loss ratio
      when there are losses, and is the cap when there are only profits. */
  lemma ProfitFactorCases(profits: seq<real>, losses: seq<real>)
    requires forall k :: 0 <= k < |profits| ==> profits[k] >= 0.0
    requires forall k :: 0 <= k < |losses| ==> losses[k] >= 0.0
    ensures ProfitFactor(profits, losses) >= 0.0
    ensures Sum(losses) > 0.0 ==> ProfitFactor(profits, losses) * Sum(losses) == Sum(profits)
    ensures Sum(losses) == 0.0 && Sum(profits) > 0.0 ==> ProfitFactor(profits, losses) == ProfitFactorCap
    ensures Sum(losses) == 0.0 && Sum(profits) == 0.0 ==> ProfitFactor(profits, losses) == 0.0
  {
    SumNonNegative(profits);
    SumNonNegative(losses);
    var p, l := Sum(profits), Sum(losses);
    if l > 0.0 {
      Ratio(p, l);
    }
  }

  lemma Ratio(p: real, l: real)
    requires p >= 0.0 && l > 0.0
    ensures p / l >= 0.0 && (p / l) * l == p
  {
  }

  /** The running peak of the curve up to index k. */
  function Peak(curve: seq<real>, k: nat): (p: real)
    requires k < |curve|
    ensures p >= curve[0] && p >= curve[k]
    ensures forall j :: 0 <= j <= k ==> curve[j] <= p
  {
    if k == 0 then curve[0]
    else var before := Peak(curve, k - 1); if curve[k] > before then curve[k] else before
  }

  /** The fall from a peak to a value, relative to the peak. */
  function Drawdown(peak: real, value: real): real
    requires peak > 0.0
  {
    (peak - value) / peak
  }

  /** The drawdown at index k, from the running peak. */
  function DrawdownAt(curve: seq<real>, k: nat): real
    requires k < |curve| && curve[0] > 0.0
  {
    Drawdown(Peak(curve, k), curve[k])
  }

  /** The largest drawdown over indices 0 .. k-1, or 0. */
  function MaxDrawdownUpTo(curve: seq<real>, k: nat): (d: real)
    requires k <= |curve| && (|curve| > 0 ==> curve[0] > 0.0)
    ensures d >= 0.0
    ensures forall j :: 0 <= j < k ==> DrawdownAt(curve, j) <= d
    ensures d == 0.0 || exists j :: 0 <= j < k && d == DrawdownAt(curve, j)
  {
    if k == 0 then 0.0
    else
      var before := MaxDrawdownUpTo(curve, k - 1);
      var dd := DrawdownAt(curve, k - 1);
      if dd > before then dd else before
  }

  /** The value `calculateMaxDrawdown` returns. */
  function MaxDrawdownOf(curve: seq<real>): real
    requires |curve| > 0 ==> curve[0] > 0.0
  {
    MaxDrawdownUpTo(curve, |curve|)
  }

  /** `calculateMaxDrawdown`: one pass keeping the running peak and the largest drawdown. */
  method MaxDrawdown(curve: seq<real>) returns (maxDd: real)
    requires |curve| > 0 ==> curve[0] > 0.0
    ensures maxDd == MaxDrawdownOf(curve)
    ensures |curve| == 0 ==> maxDd == 0.0
  {
    if |curve| == 0 {
      return 0.0;
    }
    maxDd := 0.0;
    var peak := curve[0];
    for i := 0 to |curve|
      invariant peak == Peak(curve, if i == 0 then 0 else i - 1)
      invariant maxDd == MaxDrawdownUpTo(curve, i)
    {
      if curve[i] > peak {
        peak := curve[i];
      }
      assert peak == Peak(curve, i);
      var dd := Drawdown(peak, curve[i]);
      if dd > maxDd {
        maxDd := dd;
      }
    }
  }

  /** Every drawdown of a positive curve is below 1. */
  lemma DrawdownBelowOne(curve: seq<real>, k: nat)
    requires k < |curve| && forall j :: 0 <= j < |curve| ==> curve[j] > 0.0
    ensures DrawdownAt(curve, k) < 1.0
  {
    assert curve[0] > 0.0;
    DivBelowOne(Peak(curve, k) - curve[k], Peak(curve, k));
  }

  lemma DivBelowOne(x: real, p: real)
    requires p > 0.0 && x < p
    ensures x / p < 1.0
  {
    var d := x / p;
    assert d * p == x;
    if d >= 1.0 {
      var e := d - 1.0;
      assert e * p >= 0.0;
      assert d * p == e * p + p;
    }
  }

  /** The maximum drawdown of a positive curve lies in [0, 1). */
  lemma MaxDrawdownBelowOne(curve: seq<real>)
    requires forall j :: 0 <= j < |curve| ==> curve[j] > 0.0
    ensures 0.0 <= MaxDrawdownOf(curve) < 1.0
  {
    var d := MaxDrawdownOf(curve);
    if d != 0.0 {
      var j :| 0 <= j < |curve| && d == DrawdownAt(curve, j);
      DrawdownBelowOne(curve, j);
    }
  }

  function Mean(xs: seq<real>): real
    requires |xs| > 0
  {
    Sum(xs) / |xs| as real
  }

  lemma SquareNonNegative(x: real)
    ensures x * x >= 0.0
  {
    if x < 0.0 {
      assert x * x == (-x) * (-x);
    }
  }

  /** The sum of squared deviations from m. */
  function SquaredDeviations(xs: seq<real>, m: real): (s: real)
    ensures s >= 0.0
  {
    if xs == [] then 0.0
    else
      var d := xs[|xs| - 1] - m;
      SquareNonNegative(d);
      SquaredDeviations(xs[..|xs| - 1], m) + d * d
  }

  function Variance(xs: seq<real>): (v: real)
    requires |xs| > 0
    ensures v >= 0.0
  {
    SquaredDeviations(xs, Mean(xs)) / |xs| as real
  }

  /** `std::sqrt`, constrained only to be non-negative and to vanish exactly at 0; its body is a
      stand-in that callers cannot see through. */
  method SquareRoot(x: real) returns (r: real)
    requires x >= 0.0
    ensures r >= 0.0 && (r == 0.0 <==> x == 0.0)
  {
    r := x;
  }

  /** `calculateSharpeRatio`: 0 for no returns or zero spread; otherwise the mean over the
      standard deviation, which has the sign of the mean. */
  method SharpeRatio(rets: seq<real>) returns (r: real)
    ensures |rets| == 0 ==> r == 0.0
    ensures |rets| > 0 && Variance(rets) == 0.0 ==> r == 0.0
    ensures |rets| > 0 && Variance(rets) > 0.0 ==> (r > 0.0 <==> Mean(rets) > 0.0) && (r < 0.0 <==> Mean(rets) < 0.0)
  {
    if |rets| == 0 {
      return 0.0;
    }
    var mean := Sum(rets) / |rets| as real;
    var variance := 0.0;
    for i := 0 to |rets|
      invariant variance == SquaredDeviations(rets[..i], mean)
    {
      assert rets[..i + 1][..i] == rets[..i];
      variance := variance + (rets[i] - mean) * (rets[i] - mean);
    }
    assert rets[..|rets|] == rets;
    variance := variance / |rets| as real;
    var stdDev := SquareRoot(variance);
    r := if stdDev > 0.0 then mean / stdDev else 0.0;
  }

  /** Equal returns have no spread, so their Sharpe ratio is 0. */
  lemma {:induction false} ConstantReturnsHaveNoVariance(xs: seq<real>, c: real)
    requires |xs| > 0 && forall k :: 0 <= k < |xs| ==> xs[k] == c
    ensures Mean(xs) == c && Variance(xs) == 0.0
  {
    SumOfConstant(xs, c);
    SquaredDeviationsOfConstant(xs, c);
  }

  lemma {:induction false} SumOfConstant(xs: seq<real>, c: real)
    requires forall k :: 0 <= k < |xs| ==> xs[k] == c
    ensures Sum(xs) == |xs| as real * c
  {
    if xs != [] {
      SumOfConstant(xs[..|xs| - 1], c);
    }
  }

  lemma {:induction false} SquaredDeviationsOfConstant(xs: seq<real>, c: real)
    requires forall k :: 0 <= k < |xs| ==> xs[k] == c
    ensures SquaredDeviations(xs, c) == 0.0
  {
    if xs != [] {
      SquaredDeviationsOfConstant(xs[..|xs| - 1], c);
    }
  }

  /** `result.fitness_score`: the weighted combination of the metrics. */
  function Score(sharpe: real, totalReturn: real, winRate: real, profitFactor: real, maxDrawdown: real): real
  {
    sharpe * 0.4 + totalReturn * 0.3 + winRate * 0.2 + profitFactor * 0.1 - maxDrawdown * 0.5
  }

  /** `total_return / max_drawdown` when the drawdown is positive, else 0. */
  function Calmar(totalReturn: real, maxDrawdown: real): real
  {
    if maxDrawdown > 0.0 then totalReturn / maxDrawdown else 0.0
  }

  /** With a drawdown the Calmar ratio is the return per unit of drawdown and shares the
      return's sign; without one it is 0. */
  lemma CalmarCases(totalReturn: real, maxDrawdown: real)
    ensures maxDrawdown > 0.0 ==> Calmar(totalReturn, maxDrawdown) * maxDrawdown == totalReturn
    ensures maxDrawdown > 0.0 ==> (Calmar(totalReturn, maxDrawdown) > 0.0 <==> totalReturn > 0.0)
    ensures maxDrawdown <= 0.0 ==> Calmar(totalReturn, maxDrawdown) == 0.0
  {
    if maxDrawdown > 0.0 {
      var c := totalReturn / maxDrawdown;
      assert c * maxDrawdown == totalReturn;
      if c > 0.0 {
        ProductIsPositive(c, maxDrawdown);
      } else {
        ProductNotPositive(c, maxDrawdown);
      }
    }
  }

  // ---------------------------------------------------------------------------
  // evaluateFitness
  // ---------------------------------------------------------------------------

  /** The inner loop of `evaluateFitness`: the first bar from `from` on that reaches a level. */
  method FindExit(data: seq<Bar>, from: nat, stop: real, target: real) returns (exit: Option<nat>)
    requires from <= |data|
    ensures exit == FirstExit(data, from, stop, target)
  {
    var j := from;
    while j < |data|
      invariant from <= j <= |data|
      invariant FirstExit(data, from, stop, target) == FirstExit(data, j, stop, target)
    {
      if data[j].low <= stop || data[j].high >= target {
        return Some(j);
      }
      j := j + 1;
    }
    return None;
  }

  /** The body of the search for a BUY's exit: the return of the trade, if a later bar closes it. */
  method CloseTrade(g: StrategyGene, data: seq<Bar>, i: nat, signal: TradeSignal) returns (trade: Option<real>)
    requires Evaluable(g, data) && i < |data|
    requires signal == EvolvedSignal(g, data, i) && signal.kind == Buy
    ensures trade == TradeAt(g, data, i)
  {
    var entryPrice := data[i].close;
    var stopLoss, takeProfit := signal.stopLoss, signal.takeProfit;
    var exit := FindExit(data, i + 1, stopLoss, takeProfit);
    if exit.None? {
      return None;
    }
    var j := exit.value;
    var exitPrice := if data[j].low <= stopLoss then stopLoss else takeProfit;
    trade := Some((exitPrice - entryPrice) / entryPrice);
  }

  /** One bar of the trade loop up to the booking: ask the strategy for its signal and, on a BUY,
      search the later bars for the exit. */
  method TradeAtBar(strategy: EvolvedStrategy, g: StrategyGene, data: seq<Bar>, i: nat) returns (trade: Option<real>)
    requires Evaluable(g, data) && i < |data|
    requires strategy.Valid() && strategy.gene == g && (strategy.precomputed ==> strategy.source == data)
    modifies strategy
    ensures strategy.Valid() && strategy.precomputed && strategy.source == data
    ensures trade == TradeAt(g, data, i)
  {
    var signal := strategy.GenerateSignal(data, i);
    if signal.kind == Buy {
      trade := CloseTrade(g, data, i, signal);
    } else {
      trade := None;
    }
  }

  /** The booking of a closed trade in `evaluateFitness`: count it, file its return as a profit
      or a loss, and compound the equity by `1 + return·size`. */
  method Record(t: Tally, trade: Option<real>, g: StrategyGene) returns (u: Tally)
    requires t.equity > 0.0
    requires g.stopLossPct * g.positionSizePct < 1.0 && g.takeProfitPct * g.positionSizePct > -1.0
    requires trade.Some? ==> trade.value == -g.stopLossPct || trade.value == g.takeProfitPct
    ensures u == AfterTrade(t, trade, g.positionSizePct, g)
  {
    u := t;
    if trade.Some? {
      var tradeReturn := trade.value;
      FactorIsPositive(tradeReturn, g);
      if tradeReturn > 0.0 {
        u := u.(wins := u.wins + 1, profits := u.profits + [tradeReturn]);
      } else {
        u := u.(losses := u.losses + [-tradeReturn]);
      }
      u := u.(total := u.total + 1, equity := Compound(u.equity, tradeReturn, g.positionSizePct));
    }
  }

  /** The trade loop of `evaluateFitness`, asking one `EvolvedStrategy` for each bar's signal. */
  method RunTrades(g: StrategyGene, data: seq<Bar>) returns (t: Tally)
    requires Evaluable(g, data)
    ensures t == Simulate(g, data, |data|)
  {
    var strategy := new EvolvedStrategy(g);
    t := Tally(InitialEquity, 0, 0, [], [], [], []);
    for i := 0 to |data|
      invariant strategy.Valid() && strategy.gene == g
      invariant strategy.precomputed ==> strategy.source == data
      invariant t == Simulate(g, data, i)
    {
      var trade := TradeAtBar(strategy, g, data, i);
      t := Record(t, trade, g);
      var curve := t.curve + [t.equity];
      if i > 0 {
        t := t.(barReturns := t.barReturns + [(t.equity - curve[i - 1]) / curve[i - 1]]);
      }
      t := t.(curve := curve);
    }
  }

  /** `GeneticAlgorithm::evaluateFitness`. */
  method EvaluateFitness(g: StrategyGene, data: seq<Bar>) returns (result: FitnessResult)
    requires Evaluable(g, data)
    ensures var t := Simulate(g, data, |data|);
      && result.totalReturn == (t.equity - InitialEquity) / InitialEquity
      && result.maxDrawdown == MaxDrawdownOf(t.curve)
      && result.winRate == WinRate(t.wins, t.total)
      && result.totalTrades == t.total
      && result.profitFactor == ProfitFactor(t.profits, t.losses)
      && result.calmarRatio == Calmar(result.totalReturn, result.maxDrawdown)
      && result.fitnessScore == Score(result.sharpeRatio, result.totalReturn, result.winRate, result.profitFactor, result.maxDrawdown)
      && (|t.barReturns| == 0 || Variance(t.barReturns) == 0.0 ==> result.sharpeRatio == 0.0)
  {
    var t := RunTrades(g, data);
    var totalReturn := (t.equity - InitialEquity) / InitialEquity;
    var sharpe := SharpeRatio(t.barReturns);
    var maxDrawdown := MaxDrawdown(t.curve);
    var winRate := WinRate(t.wins, t.total);
    var profitFactor := ProfitFactor(t.profits, t.losses);
    var calmar := Calmar(totalReturn, maxDrawdown);
    result := FitnessResult(totalReturn, sharpe, maxDrawdown, winRate, t.total, profitFactor, calmar,
                            Score(sharpe, totalReturn, winRate, profitFactor, maxDrawdown));
  }

  /** Bounds of every evaluation: the win rate is a fraction, the drawdown lies in [0, 1), the
      return exceeds -100%, the profit factor is non-negative, and wins never exceed trades. */
  lemma EvaluationBounds(g: StrategyGene, data: seq<Bar>)
    requires Evaluable(g, data)
    ensures var t := Simulate(g, data, |data|);
      && 0 <= t.wins <= t.total
      && 0.0 <= WinRate(t.wins, t.total) <= 1.0
      && 0.0 <= MaxDrawdownOf(t.curve) < 1.0
      && (t.equity - InitialEquity) / InitialEquity > -1.0
      && ProfitFactor(t.profits, t.losses) >= 0.0
  {
    var t := Simulate(g, data, |data|);
    SimulateCountsConsistent(g, data, |data|);
    WinRateIsFraction(t.wins, t.total);
    MaxDrawdownBelowOne(t.curve);
    ProfitFactorCases(t.profits, t.losses);
  }
}
