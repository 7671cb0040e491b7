/**
 * The dual-path strategy of src/GPUStrategy.cpp. `PrecomputeSignals` fills five
 * parallel arrays (average, oscillator, signal flag, stop, target) once, on the
 * accelerator when its arguments are valid, and on the CPU when they are not or
 * when the accelerator marks no signal at all. `GenerateSignal` precomputes lazily
 * and then only reads the arrays.
 *
 * The accelerator kernel, `Strategy::calculateDynamicPeriods` and
 * `Indicators::calculateBatchIndicators` have no body in this model: they are
 * methods whose contracts promise only the lengths of what they produce, so every
 * property below holds whatever they compute.
 */
module GpuStrategies {
  import opened Options
  import opened MarketData
  import opened Signals

  const RsiOversold: real := 30.0
  const GapThreshold: real := 0.01
  const DefaultRiskReward: real := 3.0

  /** What the fused accelerator kernel writes into the five arrays. */
  datatype KernelOutput = KernelOutput(sma: seq<real>, rsi: seq<real>, signals: seq<int>, stops: seq<real>, targets: seq<real>)

  /** Each of the five outputs has one entry per bar. */
  predicate KernelShaped(out: KernelOutput, n: nat)
  {
    |out.sma| == n && |out.rsi| == n && |out.signals| == n && |out.stops| == n && |out.targets| == n
  }

  /** One index of the three signal arrays. */
  datatype Slot = Slot(signal: int, stop: real, target: real)

  const EmptySlot := Slot(0, 0.0, 0.0)

  // ---------------------------------------------------------------------------
  // Calls whose code is not part of this model
  // ---------------------------------------------------------------------------

  /** `Strategy::calculateDynamicPeriods`: window sizes derived from the data. The
      stand-in body returns the fixed-rule periods; callers see no contract. */
  method CalculateDynamicPeriods(data: seq<Bar>) returns (smaPeriod: nat, rsiPeriod: nat)
  {
    smaPeriod, rsiPeriod := 50, 14;
  }

  /** `gpu_calculate_all_indicators_and_signals`: only the output lengths are promised. */
  method AcceleratorKernel(prices: seq<real>, smaPeriod: nat, rsiPeriod: nat, rsiOversold: real, riskReward: real)
    returns (out: KernelOutput)
    ensures KernelShaped(out, |prices|)
  {
    var zeros := seq(|prices|, _ => 0.0);
    out := KernelOutput(zeros, zeros, seq(|prices|, _ => 0), zeros, zeros);
  }

  /** `Indicators::calculateBatchIndicators`: only the output lengths are promised. */
  method CalculateBatchIndicators(data: seq<Bar>, smaPeriod: nat, rsiPeriod: nat)
    returns (sma: seq<real>, rsi: seq<real>)
    ensures |sma| == |data| && |rsi| == |data|
  {
    sma := seq(|data|, _ => 0.0);
    rsi := seq(|data|, _ => 50.0);
  }

  // ---------------------------------------------------------------------------
  // Specification of the CPU fallback and of the path choice
  // ---------------------------------------------------------------------------

  /** The price vector the accelerator and the CPU fallback read: each bar's close. */
  function Closes(data: seq<Bar>): seq<real>
  {
    seq(|data|, i requires 0 <= i < |data| => data[i].close)
  }

  function Max(a: nat, b: nat): nat
  {
    if a < b then b else a
  }

  /** The accelerator is only launched with periods in [2, n]. */
  predicate KernelArgsValid(n: nat, smaPeriod: nat, rsiPeriod: nat)
  {
    n > 0 && 2 <= smaPeriod <= n && 2 <= rsiPeriod <= n
  }

  /** The close moved by more than 1% from the previous close. */
  predicate PriceGap(prices: seq<real>, i: nat)
    requires i < |prices|
  {
    i >= 1 && (prices[i] > prices[i - 1] * (1.0 + GapThreshold) || prices[i] < prices[i - 1] * (1.0 - GapThreshold))
  }

  /** What the CPU fallback writes at index i. */
  function CpuSlot(prices: seq<real>, sma: seq<real>, rsi: seq<real>, i: nat, warmUp: nat, riskReward: real): Slot
    requires i < |prices| && |sma| == |prices| && |rsi| == |prices| && riskReward != 0.0
  {
    if i < warmUp then EmptySlot
    else if prices[i] > sma[i] && rsi[i] < RsiOversold && PriceGap(prices, i) then
      var entry := prices[i];
      var stop := entry * (1.0 - 0.005 / riskReward);
      Slot(1, stop, entry + (entry - stop) * riskReward)
    else EmptySlot
  }

  /** The three signal arrays are exactly the CPU rule's output over the given indicator arrays. */
  ghost predicate CpuRuleHolds(prices: seq<real>, sma: seq<real>, rsi: seq<real>,
                               signals: seq<int>, stops: seq<real>, targets: seq<real>,
                               warmUp: nat, riskReward: real)
  {
    && |sma| == |prices| && |rsi| == |prices| && |signals| == |prices| && |stops| == |prices| && |targets| == |prices|
    && riskReward != 0.0
    && forall i :: 0 <= i < |prices| ==>
         Slot(signals[i], stops[i], targets[i]) == CpuSlot(prices, sma, rsi, i, warmUp, riskReward)
  }

  /** Number of indices flagged 1 (a buy). */
  function CountBuys(signals: seq<int>): (c: nat)
    ensures c <= |signals|
  {
    if signals == [] then 0
    else CountBuys(signals[..|signals| - 1]) + (if signals[|signals| - 1] == 1 then 1 else 0)
  }

  lemma {:induction false} CountBuysPositive(signals: seq<int>, k: nat)
    requires k < |signals| && signals[k] == 1
    ensures CountBuys(signals) > 0
    decreases |signals|
  {
    if k < |signals| - 1 {
      CountBuysPositive(signals[..|signals| - 1], k);
    }
  }

  // ---------------------------------------------------------------------------
  // Properties of the CPU rule
  // ---------------------------------------------------------------------------

  /** Every index before max(smaPeriod, rsiPeriod) gets signal 0, stop 0 and target 0. */
  lemma CpuSlotWarmUp(prices: seq<real>, sma: seq<real>, rsi: seq<real>, i: nat, smaPeriod: nat, rsiPeriod: nat, riskReward: real)
    requires i < |prices| && |sma| == |prices| && |rsi| == |prices| && riskReward != 0.0
    requires i < Max(smaPeriod, rsiPeriod)
    ensures CpuSlot(prices, sma, rsi, i, Max(smaPeriod, rsiPeriod), riskReward) == EmptySlot
  {
  }

  /** A buy is marked exactly when close > average, oscillator < 30 and the close gapped by over 1%;
      every other index is 0/0/0, and a buy's target is entry + (entry - stop) * riskReward. */
  lemma CpuSlotBuyIff(prices: seq<real>, sma: seq<real>, rsi: seq<real>, i: nat, warmUp: nat, riskReward: real)
    requires i < |prices| && |sma| == |prices| && |rsi| == |prices| && riskReward != 0.0
    ensures var slot := CpuSlot(prices, sma, rsi, i, warmUp, riskReward);
      && (slot.signal == 1 <==> i >= warmUp && prices[i] > sma[i] && rsi[i] < RsiOversold && PriceGap(prices, i))
      && (slot.signal != 1 ==> slot == EmptySlot)
      && (slot.signal == 1 ==>
            slot.stop == prices[i] * (1.0 - 0.005 / riskReward) && slot.target == prices[i] + (prices[i] - slot.stop) * riskReward)
  {
  }

  /** With a positive entry and a positive risk-reward ratio a fallback buy brackets its entry. */
  lemma CpuBuyBracketsEntry(prices: seq<real>, sma: seq<real>, rsi: seq<real>, i: nat, warmUp: nat, riskReward: real)
    requires i < |prices| && |sma| == |prices| && |rsi| == |prices| && riskReward > 0.0
    requires prices[i] > 0.0
    requires CpuSlot(prices, sma, rsi, i, warmUp, riskReward).signal == 1
    ensures var slot := CpuSlot(prices, sma, rsi, i, warmUp, riskReward);
      slot.stop < prices[i] < slot.target
  {
    var entry := prices[i];
    var pct := 0.005 / riskReward;
    assert pct * riskReward == 0.005;
    assert pct > 0.0;
    assert entry * pct > 0.0;
    var stop := entry * (1.0 - pct);
    assert entry - stop == entry * pct;
    assert (entry - stop) * riskReward > 0.0;
  }

  // ---------------------------------------------------------------------------
  // The two loops of `precomputeSignals`
  // ---------------------------------------------------------------------------

  /** The signal-counting loop that decides whether the accelerator output is kept. */
  method CountSignals(signals: seq<int>) returns (count: nat)
    ensures count == CountBuys(signals)
  {
    count := 0;
    var i := 0;
    while i < |signals|
      invariant 0 <= i <= |signals|
      invariant count == CountBuys(signals[..i])
    {
      assert signals[..i + 1][..i] == signals[..i];
      if signals[i] == 1 {
        count := count + 1;
      }
      i := i + 1;
    }
    assert signals[..|signals|] == signals;
  }

  /** The CPU fallback loop: overwrites every index of the three signal arrays. */
  method CpuFallbackSignals(prices: seq<real>, sma: seq<real>, rsi: seq<real>, warmUp: nat, riskReward: real)
    returns (signals: seq<int>, stops: seq<real>, targets: seq<real>)
    requires |sma| == |prices| && |rsi| == |prices| && riskReward != 0.0
    ensures CpuRuleHolds(prices, sma, rsi, signals, stops, targets, warmUp, riskReward)
  {
    var n := |prices|;
    signals, stops, targets := seq(n, _ => 0), seq(n, _ => 0.0), seq(n, _ => 0.0);
    var i := 0;
    while i < n
      invariant 0 <= i <= n
      invariant |signals| == n && |stops| == n && |targets| == n
      invariant forall k :: 0 <= k < i ==>
        Slot(signals[k], stops[k], targets[k]) == CpuSlot(prices, sma, rsi, k, warmUp, riskReward)
    {
      if i < warmUp {
        signals, stops, targets := signals[i := 0], stops[i := 0.0], targets[i := 0.0];
      } else {
        var uptrend := prices[i] > sma[i];
        var oversold := rsi[i] < RsiOversold;
        var fvg := false;
        if i >= 1 {
          fvg := prices[i] > prices[i - 1] * (1.0 + GapThreshold) || prices[i] < prices[i - 1] * (1.0 - GapThreshold);
        }
        if uptrend && oversold && fvg {
          var entry := prices[i];
          var stopLossPct := 0.005 / riskReward;
          signals := signals[i := 1];
          stops := stops[i := entry * (1.0 - stopLossPct)];
          targets := targets[i := entry + (entry - stops[i]) * riskReward];
        } else {
          signals, stops, targets := signals[i := 0], stops[i := 0.0], targets[i := 0.0];
        }
      }
      i := i + 1;
    }
  }

  // ---------------------------------------------------------------------------
  // The strategy object
  // ---------------------------------------------------------------------------

  class GpuGoldenFoundationStrategy {
    const riskReward: real
    var smaValues: seq<real>
    var rsiValues: seq<real>
    var signals: seq<int>
    var stops: seq<real>
    var targets: seq<real>
    var precomputed: bool

    // What the last precomputation used and which path it took.
    ghost var prices: seq<real>
    ghost var smaPeriod: nat
    ghost var rsiPeriod: nat
    ghost var fellBack: bool
    // What the accelerator wrote, or None when it was not launched.
    ghost var kernelOut: Option<KernelOutput>

    ghost predicate Valid()
      reads this
    {
      && riskReward != 0.0
      && |rsiValues| == |smaValues| && |signals| == |smaValues| && |stops| == |smaValues| && |targets| == |smaValues|
    }

    /** The arrays hold the result of a precomputation over `data`. The accelerator is
        launched exactly when its arguments are valid; its output is kept exactly when it
        marks at least one buy, and otherwise the arrays are the CPU rule's output. */
    ghost predicate Computed(data: seq<Bar>)
      reads this
    {
      && Valid()
      && |data| > 0 && prices == Closes(data) && |signals| == |data|
      && (kernelOut.Some? <==> KernelArgsValid(|data|, smaPeriod, rsiPeriod))
      && (kernelOut.Some? ==> KernelShaped(kernelOut.value, |data|))
      && (fellBack <==> kernelOut.None? || CountBuys(kernelOut.value.signals) == 0)
      && (fellBack ==> CpuRuleHolds(prices, smaValues, rsiValues, signals, stops, targets, Max(smaPeriod, rsiPeriod), riskReward))
      && (!fellBack ==> KernelKept(kernelOut.value))
    }

    /** The five arrays are the accelerator's five outputs. */
    ghost predicate KernelKept(out: KernelOutput)
      reads this
    {
      smaValues == out.sma && rsiValues == out.rsi && signals == out.signals && stops == out.stops && targets == out.targets
    }

    constructor (riskReward: real := DefaultRiskReward)
      requires riskReward != 0.0
      ensures Valid() && this.riskReward == riskReward && !precomputed
      ensures signals == [] && stops == [] && targets == [] && smaValues == [] && rsiValues == []
    {
      this.riskReward := riskReward;
      smaValues, rsiValues, signals, stops, targets := [], [], [], [], [];
      precomputed := false;
    }

    /** `precomputeSignals`. */
    method PrecomputeSignals(data: seq<Bar>)
      requires Valid()
      modifies this
      ensures Valid()
      ensures |data| == 0 ==> unchanged(this)
      ensures |data| > 0 ==> precomputed && Computed(data)
    {
      if |data| == 0 {
        return;
      }
      var n := |data|;
      var sp, rp := CalculateDynamicPeriods(data);
      var closes := Closes(data);
      // The five arrays are resized to n here; both paths below overwrite every entry.
      if KernelArgsValid(n, sp, rp) {
        var out := AcceleratorKernel(closes, sp, rp, RsiOversold, riskReward);
        var signalCount := CountSignals(out.signals);
        if signalCount > 0 {
          StoreKernelOutput(data, sp, rp, out);
          return;
        }
        StoreCpuFallback(data, sp, rp, Some(out));
      } else {
        StoreCpuFallback(data, sp, rp, None);
      }
    }

    /** The accelerator path of `precomputeSignals`: its five outputs become the arrays. */
    method StoreKernelOutput(data: seq<Bar>, sp: nat, rp: nat, out: KernelOutput)
      requires Valid() && KernelArgsValid(|data|, sp, rp) && CountBuys(out.signals) > 0
      requires KernelShaped(out, |data|)
      modifies this
      ensures precomputed && Computed(data) && !fellBack && smaPeriod == sp && rsiPeriod == rp
      ensures kernelOut == Some(out) && KernelKept(out)
    {
      smaValues, rsiValues, signals, stops, targets := out.sma, out.rsi, out.signals, out.stops, out.targets;
      prices, smaPeriod, rsiPeriod, fellBack, kernelOut := Closes(data), sp, rp, false, Some(out);
      precomputed := true;
      assert KernelKept(out) && Valid();
    }

    /** The CPU fallback of `precomputeSignals`: batch indicators, then the CPU entry rule. */
    method StoreCpuFallback(data: seq<Bar>, sp: nat, rp: nat, ghost launched: Option<KernelOutput>)
      requires Valid() && |data| > 0
      requires launched.Some? <==> KernelArgsValid(|data|, sp, rp)
      requires launched.Some? ==> KernelShaped(launched.value, |data|) && CountBuys(launched.value.signals) == 0
      modifies this
      ensures precomputed && Computed(data) && fellBack && smaPeriod == sp && rsiPeriod == rp
      ensures kernelOut == launched
      ensures CpuRuleHolds(Closes(data), smaValues, rsiValues, signals, stops, targets, Max(sp, rp), riskReward)
    {
      var closes := Closes(data);
      var sma, rsi := CalculateBatchIndicators(data, sp, rp);
      var sig, st, tg := CpuFallbackSignals(closes, sma, rsi, Max(sp, rp), riskReward);
      smaValues, rsiValues, signals, stops, targets := sma, rsi, sig, st, tg;
      prices, smaPeriod, rsiPeriod, fellBack, kernelOut := closes, sp, rp, true, launched;
      precomputed := true;
    }

    /** `generateSignal`: precomputes on the first call, then reads the arrays; an index
        outside them yields no signal. */
    method GenerateSignal(data: seq<Bar>, currentIndex: nat) returns (s: TradeSignal)
      requires Valid()
      modifies this
      ensures Valid()
      ensures old(precomputed) || |data| == 0 ==> unchanged(this)
      ensures !old(precomputed) && |data| > 0 ==> precomputed && Computed(data)
      ensures s.barIndex == currentIndex
      ensures s.kind == Buy <==> currentIndex < |signals| && signals[currentIndex] == 1
      ensures s.kind == Buy ==> s.stopLoss == stops[currentIndex] && s.takeProfit == targets[currentIndex]
      ensures s.kind != Buy ==> s.kind == NoSignal && s.stopLoss == 0.0 && s.takeProfit == 0.0
    {
      if !precomputed {
        PrecomputeSignals(data);
      }
      if currentIndex >= |signals| {
        return Nothing(currentIndex, "Index out of range");
      }
      if signals[currentIndex] == 1 {
        return TradeSignal(Buy, currentIndex, stops[currentIndex], targets[currentIndex],
                           "GPU+CPU: Uptrend, RSI<30, FVG (Dynamic periods)");
      }
      return Nothing(currentIndex, "GPU+CPU: No setup");
    }
  }

  /** After a precomputation, an accelerator output with a buy is what the arrays hold; a buy
      at index i that came from the CPU path satisfies the CPU entry rule; and zero buys in the
      arrays can only mean the CPU path produced them. */
  lemma ComputedBuyFollowsRule(g: GpuGoldenFoundationStrategy, data: seq<Bar>, i: nat)
    requires g.Computed(data) && i < |data|
    ensures g.kernelOut.Some? && CountBuys(g.kernelOut.value.signals) > 0 ==> g.signals == g.kernelOut.value.signals
    ensures CountBuys(g.signals) == 0 ==> g.fellBack
    ensures g.fellBack && g.signals[i] == 1 ==>
      && i >= Max(g.smaPeriod, g.rsiPeriod)
      && data[i].close > g.smaValues[i] && g.rsiValues[i] < RsiOversold && PriceGap(g.prices, i)
  {
    if g.fellBack {
      CpuSlotBuyIff(g.prices, g.smaValues, g.rsiValues, i, Max(g.smaPeriod, g.rsiPeriod), g.riskReward);
    }
  }
}
