/**
 * The single-position backtester of src/Backtester.cpp and include/Backtester.hpp.
 *
 * `Run` walks the bars from index 1, asking the strategy for a signal only while
 * flat, opening at the bar's close on a buy, and closing at the stop level (checked
 * first) or the target level; a position still open after the last bar is closed at
 * that bar's close. Equity, the per-year P&L map and the equity curve are fields the
 * method updates. It is proved equal to `RunAll`, a fold of `BarStep` over the bars,
 * about which the accounting lemmas are stated.
 *
 * The C++ strategy is a virtual `Strategy*`; here it is a partial function from the
 * bars and an index to a signal.
 */
module Backtesting {
  import opened MarketData
  import opened Signals
  import opened Chars

  type SignalSource = (seq<Bar>, nat) --> TradeSignal

  /** The strategy can be asked about every bar the run visits. */
  ghost predicate Queryable(strategy: SignalSource, data: seq<Bar>)
  {
    forall i :: 1 <= i < |data| ==> strategy.requires(data, i)
  }

  // ---------------------------------------------------------------------------
  // Year of a timestamp: `std::istringstream(ts.substr(0, 4)) >> year`
  // ---------------------------------------------------------------------------

  function SkipSpaces(s: string): (t: string)
    ensures |t| <= |s| && t == s[|s| - |t|..]
    ensures |t| > 0 ==> !IsSpace(t[0])
  {
    if |s| > 0 && IsSpace(s[0]) then SkipSpaces(s[1..]) else s
  }

  /** `operator>>` into an int: leading blanks, an optional sign, then at least one
      digit; anything else leaves the value 0. */
  function ParseLeadingInt(s: string): int
  {
    var t := SkipSpaces(s);
    var negative := |t| > 0 && t[0] == '-';
    var u := if |t| > 0 && (t[0] == '-' || t[0] == '+') then t[1..] else t;
    var n := DigitRun(u);
    if n == 0 then 0
    else if negative then -(DigitsValue(u[..n]) as int)
    else DigitsValue(u[..n])
  }

  /** The year the backtester attributes to a bar: parsed from the first four characters. */
  function ParseYear(timestamp: string): int
  {
    ParseLeadingInt(if |timestamp| <= 4 then timestamp else timestamp[..4])
  }

  lemma FourDigitsValue(p: string)
    requires |p| == 4 && forall k :: 0 <= k < 4 ==> IsDigit(p[k])
    ensures DigitsValue(p) == 1000 * DigitValue(p[0]) + 100 * DigitValue(p[1]) + 10 * DigitValue(p[2]) + DigitValue(p[3])
  {
    assert p[..3][..2] == p[..2];
    assert p[..2][..1] == p[..1];
    assert DigitsValue(p[..1]) == DigitValue(p[0]) by {
      assert p[..1][..0] == [];
    }
  }

  /** A timestamp that starts with four digits (YYYY-MM-DD ...) yields exactly that year. */
  lemma YearOfDatedTimestamp(timestamp: string)
    requires |timestamp| >= 4 && forall k :: 0 <= k < 4 ==> IsDigit(timestamp[k])
    ensures ParseYear(timestamp) == 1000 * DigitValue(timestamp[0]) + 100 * DigitValue(timestamp[1])
                                    + 10 * DigitValue(timestamp[2]) + DigitValue(timestamp[3])
  {
    var p := if |timestamp| <= 4 then timestamp else timestamp[..4];
    assert p == timestamp[..4];
    assert !IsSpace(p[0]);
    assert SkipSpaces(p) == p;
    DigitRunOfDigits(p);
    assert p[..4] == p;
    FourDigitsValue(p);
  }

  /** A timestamp whose first four characters hold no digit yields year 0. */
  lemma YearWithoutDigits(timestamp: string)
    requires forall k :: 0 <= k < |timestamp| && k < 4 ==> !IsDigit(timestamp[k])
    ensures ParseYear(timestamp) == 0
  {
    var p := if |timestamp| <= 4 then timestamp else timestamp[..4];
    var t := SkipSpaces(p);
    var u := if |t| > 0 && (t[0] == '-' || t[0] == '+') then t[1..] else t;
    if |u| > 0 {
      assert u[0] == p[|p| - |u|];
    }
  }

  // ---------------------------------------------------------------------------
  // The state machine
  // ---------------------------------------------------------------------------

  /** At most one position is open: the simulator is either flat or holds one. */
  datatype Position = Flat | Holding(entryPrice: real, stopLoss: real, takeProfit: real, entryYear: int)

  /** A realised trade: the year it is booked to and its P&L. */
  datatype Realised = Realised(year: int, pnl: real)

  /** The run's state after some bars; `closed` logs the realised trades (for the proofs only). */
  datatype RunState = RunState(position: Position, equity: real, yearlyPnl: map<int, real>, curve: seq<real>, closed: seq<Realised>)

  function Start(equity: real, yearlyPnl: map<int, real>, curve: seq<real>): RunState
  {
    RunState(Flat, equity, yearlyPnl, curve, [])
  }

  /** `std::map<int, double>::operator[]` reads a missing year as 0. */
  function PnlOf(m: map<int, real>, year: int): real
  {
    if year in m then m[year] else 0.0
  }

  /** `yearly_pnl_[year] += pnl`. */
  function AddPnl(m: map<int, real>, year: int, pnl: real): (m': map<int, real>)
    ensures m'.Keys == m.Keys + {year}
    ensures PnlOf(m', year) == PnlOf(m, year) + pnl
    ensures forall y :: y != year ==> PnlOf(m', y) == PnlOf(m, y)
  {
    m[year := PnlOf(m, year) + pnl]
  }

  /** Close the position, booking `pnl` to `year`. */
  function Realise(s: RunState, year: int, pnl: real): RunState
  {
    s.(position := Flat, equity := s.equity + pnl, yearlyPnl := AddPnl(s.yearlyPnl, year, pnl),
       closed := s.closed + [Realised(year, pnl)])
  }

  /** One iteration of the bar loop at index i, ending with the equity point. */
  function BarStep(data: seq<Bar>, strategy: SignalSource, s: RunState, i: nat): RunState
    requires 1 <= i < |data| && strategy.requires(data, i)
  {
    var s' :=
      match s.position
      case Flat =>
        var signal := strategy(data, i);
        if signal.kind == Buy then
          s.(position := Holding(data[i].close, signal.stopLoss, signal.takeProfit, ParseYear(data[i].timestamp)))
        else s
      case Holding(entry, stop, target, year) =>
        if data[i].low <= stop then Realise(s, year, stop - entry)
        else if data[i].high >= target then Realise(s, year, target - entry)
        else s;
    s'.(curve := s'.curve + [s'.equity])
  }

  /** The state after the loop has processed bars 1 .. k-1. */
  function RunBars(data: seq<Bar>, strategy: SignalSource, s0: RunState, k: nat): RunState
    requires 1 <= k <= |data| && Queryable(strategy, data)
    decreases k
  {
    if k == 1 then s0 else BarStep(data, strategy, RunBars(data, strategy, s0, k - 1), k - 1)
  }

  /** After the loop: an open position is closed at the last close, booked to the last bar's year. */
  function ForceClose(data: seq<Bar>, s: RunState): RunState
    requires |data| > 0
  {
    match s.position
    case Flat => s
    case Holding(entry, _, _, _) =>
      Realise(s, ParseYear(data[|data| - 1].timestamp), data[|data| - 1].close - entry)
  }

  /** The whole of `Backtester::run` from state s0. */
  function RunAll(data: seq<Bar>, strategy: SignalSource, s0: RunState): RunState
    requires Queryable(strategy, data)
  {
    if |data| == 0 then s0 else ForceClose(data, RunBars(data, strategy, s0, |data|))
  }

  function SumPnl(trades: seq<Realised>): real
  {
    if trades == [] then 0.0 else SumPnl(trades[..|trades| - 1]) + trades[|trades| - 1].pnl
  }

  function SumPnlOfYear(trades: seq<Realised>, year: int): real
  {
    if trades == [] then 0.0
    else SumPnlOfYear(trades[..|trades| - 1], year) + (if trades[|trades| - 1].year == year then trades[|trades| - 1].pnl else 0.0)
  }

  // ---------------------------------------------------------------------------
  // Properties of the run
  // ---------------------------------------------------------------------------

  /** While holding, the stop is checked first; exits happen at the stop or target level,
      never at the bar's close, and the P&L is booked to the entry year. */
  lemma HoldingStep(data: seq<Bar>, strategy: SignalSource, s: RunState, i: nat)
    requires 1 <= i < |data| && strategy.requires(data, i) && s.position.Holding?
    ensures var p, s' := s.position, BarStep(data, strategy, s, i);
      && (data[i].low <= p.stopLoss ==>
            s' == Realise(s, p.entryYear, p.stopLoss - p.entryPrice).(curve := s.curve + [s.equity + p.stopLoss - p.entryPrice]))
      && (data[i].low > p.stopLoss && data[i].high >= p.takeProfit ==>
            s' == Realise(s, p.entryYear, p.takeProfit - p.entryPrice).(curve := s.curve + [s.equity + p.takeProfit - p.entryPrice]))
      && (data[i].low > p.stopLoss && data[i].high < p.takeProfit ==> s' == s.(curve := s.curve + [s.equity]))
  {
  }

  /** A buy while flat opens at the bar's close with the signal's levels; no exit is checked on the
      entry bar and the equity is unchanged. */
  lemma EntryStep(data: seq<Bar>, strategy: SignalSource, s: RunState, i: nat)
    requires 1 <= i < |data| && strategy.requires(data, i) && s.position.Flat?
    requires strategy(data, i).kind == Buy
    ensures var sig := strategy(data, i);
      BarStep(data, strategy, s, i) ==
        s.(position := Holding(data[i].close, sig.stopLoss, sig.takeProfit, ParseYear(data[i].timestamp)),
           curve := s.curve + [s.equity])
  {
  }

  /** Every bar from 1 to n-1 appends exactly one equity point: the equity after that bar. */
  lemma {:induction false} CurveOnePointPerBar(data: seq<Bar>, strategy: SignalSource, s0: RunState, k: nat)
    requires 1 <= k <= |data| && Queryable(strategy, data)
    ensures var s := RunBars(data, strategy, s0, k);
      && |s.curve| == |s0.curve| + k - 1
      && s.curve[..|s0.curve|] == s0.curve
      && (k > 1 ==> s.curve[|s.curve| - 1] == s.equity)
  {
    if k > 1 {
      CurveOnePointPerBar(data, strategy, s0, k - 1);
      var prev := RunBars(data, strategy, s0, k - 1);
      assert RunBars(data, strategy, s0, k).curve[..|prev.curve|] == prev.curve;
    }
  }

  /** Equity and the P&L map of s account for every trade s has realised since s0. */
  ghost predicate Accounted(s0: RunState, s: RunState)
  {
    && s.equity == s0.equity + SumPnl(s.closed)
    && forall y :: PnlOf(s.yearlyPnl, y) == PnlOf(s0.yearlyPnl, y) + SumPnlOfYear(s.closed, y)
  }

  lemma RealiseKeepsAccounts(s0: RunState, s: RunState, year: int, pnl: real)
    requires Accounted(s0, s)
    ensures Accounted(s0, Realise(s, year, pnl))
  {
    var s' := Realise(s, year, pnl);
    assert s'.closed[..|s'.closed| - 1] == s.closed;
  }

  lemma BarStepKeepsAccounts(data: seq<Bar>, strategy: SignalSource, s0: RunState, s: RunState, i: nat)
    requires 1 <= i < |data| && strategy.requires(data, i) && Accounted(s0, s)
    ensures Accounted(s0, BarStep(data, strategy, s, i))
  {
    match s.position
    case Flat =>
    case Holding(entry, stop, target, year) =>
      if data[i].low <= stop {
        RealiseKeepsAccounts(s0, s, year, stop - entry);
      } else if data[i].high >= target {
        RealiseKeepsAccounts(s0, s, year, target - entry);
      }
  }

  lemma {:induction false} RunBarsAccounting(data: seq<Bar>, strategy: SignalSource, s0: RunState, k: nat)
    requires 1 <= k <= |data| && Queryable(strategy, data) && s0.closed == []
    ensures Accounted(s0, RunBars(data, strategy, s0, k))
  {
    if k > 1 {
      RunBarsAccounting(data, strategy, s0, k - 1);
      BarStepKeepsAccounts(data, strategy, s0, RunBars(data, strategy, s0, k - 1), k - 1);
    }
  }

  /** Final equity is the starting equity plus every realised P&L, and each year's entry of the
      P&L map grew by exactly the P&L of the trades booked to that year. */
  lemma RunAccounting(data: seq<Bar>, strategy: SignalSource, s0: RunState)
    requires Queryable(strategy, data) && s0.closed == []
    ensures var s := RunAll(data, strategy, s0);
      && s.equity == s0.equity + SumPnl(s.closed)
      && forall y :: PnlOf(s.yearlyPnl, y) == PnlOf(s0.yearlyPnl, y) + SumPnlOfYear(s.closed, y)
  {
    if |data| > 0 {
      RunBarsAccounting(data, strategy, s0, |data|);
      ForceCloseKeepsAccounts(data, s0, RunBars(data, strategy, s0, |data|));
    }
    assert Accounted(s0, RunAll(data, strategy, s0));
  }

  lemma ForceCloseKeepsAccounts(data: seq<Bar>, s0: RunState, s: RunState)
    requires |data| > 0 && Accounted(s0, s)
    ensures Accounted(s0, ForceClose(data, s))
  {
    if s.position.Holding? {
      RealiseKeepsAccounts(s0, s, ParseYear(data[|data| - 1].timestamp), data[|data| - 1].close - s.position.entryPrice);
    }
  }

  /** A position still open after the loop is closed at the last bar's close and booked to the
      last bar's year; the forced close adds no equity point. */
  lemma ForcedCloseAtLastBar(data: seq<Bar>, strategy: SignalSource, s0: RunState)
    requires Queryable(strategy, data) && |data| > 0
    requires RunBars(data, strategy, s0, |data|).position.Holding?
    ensures var last, s := RunBars(data, strategy, s0, |data|), RunAll(data, strategy, s0);
      && s.closed == last.closed + [Realised(ParseYear(data[|data| - 1].timestamp), data[|data| - 1].close - last.position.entryPrice)]
      && s.curve == last.curve
      && s.position.Flat?
  {
  }

  /** Two strategies that agree on bars 1 .. n-1 give the same run: bar 0 is never queried. */
  lemma {:induction false} BarZeroNeverQueried(data: seq<Bar>, st1: SignalSource, st2: SignalSource, s0: RunState, k: nat)
    requires Queryable(st1, data) && Queryable(st2, data) && 1 <= k <= |data|
    requires forall i :: 1 <= i < |data| ==> st1(data, i) == st2(data, i)
    ensures RunBars(data, st1, s0, k) == RunBars(data, st2, s0, k)
  {
    if k > 1 {
      BarZeroNeverQueried(data, st1, st2, s0, k - 1);
    }
  }

  /** While holding, the strategy's answer does not matter: it is only queried while flat. */
  lemma StrategyIgnoredWhileHolding(data: seq<Bar>, st1: SignalSource, st2: SignalSource, s: RunState, i: nat)
    requires 1 <= i < |data| && st1.requires(data, i) && st2.requires(data, i) && s.position.Holding?
    ensures BarStep(data, st1, s, i) == BarStep(data, st2, s, i)
  {
  }

  // ---------------------------------------------------------------------------
  // The Backtester object
  // ---------------------------------------------------------------------------

  const DefaultInitialEquity: real := 1000.0

  class Backtester {
    const data: seq<Bar>
    const strategy: SignalSource
    const initialEquity: real
    var equity: real
    var yearlyPnl: map<int, real>
    var equityCurve: seq<real>
    var totalTrades: int
    var winningTrades: int

    /** Nothing in the class ever increments the trade counters. */
    ghost predicate Valid()
      reads this
    {
      Queryable(strategy, data) && totalTrades == 0 && winningTrades == 0
    }

    constructor (data: seq<Bar>, strategy: SignalSource, initialEquity: real := DefaultInitialEquity)
      requires Queryable(strategy, data)
      ensures Valid()
      ensures this.data == data && this.strategy == strategy && this.initialEquity == initialEquity
      ensures equity == initialEquity && yearlyPnl == map[] && equityCurve == []
      ensures totalTrades == 0 && winningTrades == 0
    {
      this.data, this.strategy, this.initialEquity := data, strategy, initialEquity;
      equity := initialEquity;
      yearlyPnl := map[];
      equityCurve := [];
      totalTrades, winningTrades := 0, 0;
    }

    /** One iteration of the bar loop of `Backtester::run`: the loop's position variables
        come in as `position` and leave as `position'`. */
    method ProcessBar(i: nat, position: Position, ghost st: RunState) returns (position': Position)
      requires Valid() && 1 <= i < |data|
      requires st.position == position && st.equity == equity && st.yearlyPnl == yearlyPnl && st.curve == equityCurve
      modifies this
      ensures Valid()
      ensures var next := BarStep(data, strategy, st, i);
        next.position == position' && next.equity == equity && next.yearlyPnl == yearlyPnl && next.curve == equityCurve
    {
      var e, m := equity, yearlyPnl;
      position' := position;
      match position {
        case Flat =>
          var signal := strategy(data, i);
          if signal.kind == Buy {
            EntryStep(data, strategy, st, i);
            position' := Holding(data[i].close, signal.stopLoss, signal.takeProfit, ParseYear(data[i].timestamp));
          }
        case Holding(entryPrice, stopLoss, takeProfit, entryYear) =>
          HoldingStep(data, strategy, st, i);
          if data[i].low <= stopLoss {
            var pnl := stopLoss - entryPrice;
            e, m := e + pnl, AddPnl(m, entryYear, pnl);
            position' := Flat;
          } else if data[i].high >= takeProfit {
            var pnl := takeProfit - entryPrice;
            e, m := e + pnl, AddPnl(m, entryYear, pnl);
            position' := Flat;
          }
      }
      equity, yearlyPnl, equityCurve := e, m, equityCurve + [e];
    }

    /** `Backtester::run`. */
    method Run()
      requires Valid()
      modifies this
      ensures Valid()
      ensures var s := RunAll(data, strategy, Start(old(equity), old(yearlyPnl), old(equityCurve)));
        equity == s.equity && yearlyPnl == s.yearlyPnl && equityCurve == s.curve
      ensures totalTrades == old(totalTrades) && winningTrades == old(winningTrades)
    {
      if |data| == 0 {
        return;
      }
      ghost var s0 := Start(equity, yearlyPnl, equityCurve);
      var position;
      ghost var st;
      position, st := ProcessBars(s0);
      CloseAtEnd(position, st);
    }

    /** The bar loop of `Backtester::run`, bars 1 .. n-1, from the state `s0`. */
    method ProcessBars(ghost s0: RunState) returns (position: Position, ghost st: RunState)
      requires Valid() && |data| > 0
      requires s0.position == Flat && s0.equity == equity && s0.yearlyPnl == yearlyPnl && s0.curve == equityCurve
      modifies this
      ensures Valid() && st == RunBars(data, strategy, s0, |data|)
      ensures st.position == position && st.equity == equity && st.yearlyPnl == yearlyPnl && st.curve == equityCurve
    {
      position := Flat;
      st := s0;
      var i := 1;
      while i < |data|
        invariant Valid() && 1 <= i <= |data|
        invariant st == RunBars(data, strategy, s0, i)
        invariant st.position == position && st.equity == equity && st.yearlyPnl == yearlyPnl && st.curve == equityCurve
      {
        position := ProcessBar(i, position, st);
        st := BarStep(data, strategy, st, i);
        i := i + 1;
      }
    }

    /** The end of `Backtester::run`: a position still open is closed at the last bar's close. */
    method CloseAtEnd(position: Position, ghost st: RunState)
      requires Valid() && |data| > 0
      requires st.position == position && st.equity == equity && st.yearlyPnl == yearlyPnl && st.curve == equityCurve
      modifies this
      ensures Valid()
      ensures var s := ForceClose(data, st);
        s.equity == equity && s.yearlyPnl == yearlyPnl && s.curve == equityCurve
    {
      if position.Holding? {
        var pnl := data[|data| - 1].close - position.entryPrice;
        var year := ParseYear(data[|data| - 1].timestamp);
        assert ForceClose(data, st) == Realise(st, year, pnl);
        equity, yearlyPnl := equity + pnl, AddPnl(yearlyPnl, year, pnl);
      }
    }

    /** `getFinalEquity`. */
    function FinalEquity(): real
      reads this
    {
      equity
    }

    /** `getTotalTrades`. */
    function TotalTrades(): int
      reads this
    {
      totalTrades
    }

    /** `getWinRate`: winning over total trades, 0 without trades. */
    function WinRate(): (r: real)
      reads this
      ensures totalTrades <= 0 ==> r == 0.0
      ensures 0 <= winningTrades <= totalTrades ==> 0.0 <= r <= 1.0
    {
      if totalTrades > 0 then winningTrades as real / totalTrades as real else 0.0
    }
  }

  /** No member increments the counters, so a backtester always reports zero trades and a
      zero win rate, however many positions `Run` opened and closed. */
  lemma NoTradesCounted(b: Backtester)
    requires b.Valid()
    ensures b.TotalTrades() == 0 && b.WinRate() == 0.0
  {
  }
}
