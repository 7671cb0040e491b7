/**
 * How the backtester's per-year P&L map relates to its equity (src/Backtester.cpp): every
 * realised trade is booked to exactly one year, so on a run that starts with an empty map
 * the map's entries add up to the equity gained.
 */
module YearlyTotals {
  import opened MarketData
  import opened Backtesting

  /** No year is listed twice. */
  predicate DistinctYears(ys: seq<int>)
  {
    forall i, j :: 0 <= i < j < |ys| ==> ys[i] != ys[j]
  }

  /** The realised P&L of the listed years, year by year. */
  function SumOverYears(trades: seq<Realised>, ys: seq<int>): real
  {
    if ys == [] then 0.0 else SumOverYears(trades, ys[..|ys| - 1]) + SumPnlOfYear(trades, ys[|ys| - 1])
  }

  /** The P&L map's entries for the listed years, added up. */
  function MapTotal(m: map<int, real>, ys: seq<int>): real
  {
    if ys == [] then 0.0 else MapTotal(m, ys[..|ys| - 1]) + PnlOf(m, ys[|ys| - 1])
  }

  /** One more trade adds its P&L to the year-by-year sum iff its year is listed. */
  lemma {:induction false} SumOverYearsSnoc(trades: seq<Realised>, t: Realised, ys: seq<int>)
    requires DistinctYears(ys)
    ensures SumOverYears(trades + [t], ys) == SumOverYears(trades, ys) + (if t.year in ys then t.pnl else 0.0)
  {
    assert (trades + [t])[..|trades|] == trades;
    if ys != [] {
      var init := ys[..|ys| - 1];
      assert DistinctYears(init);
      SumOverYearsSnoc(trades, t, init);
      assert ys == init + [ys[|ys| - 1]];
      assert t.year in ys <==> t.year in init || t.year == ys[|ys| - 1];
      assert ys[|ys| - 1] !in init;
    }
  }

  /** Summing each listed year's P&L gives the total P&L, once every traded year is listed once. */
  lemma {:induction false} YearsAddUp(trades: seq<Realised>, ys: seq<int>)
    requires DistinctYears(ys) && forall k :: 0 <= k < |trades| ==> trades[k].year in ys
    ensures SumPnl(trades) == SumOverYears(trades, ys)
  {
    if trades == [] {
      EmptyYears(ys);
    } else {
      var init := trades[..|trades| - 1];
      YearsAddUp(init, ys);
      assert trades == init + [trades[|trades| - 1]];
      SumOverYearsSnoc(init, trades[|trades| - 1], ys);
    }
  }

  lemma {:induction false} EmptyYears(ys: seq<int>)
    ensures SumOverYears([], ys) == 0.0
  {
    if ys != [] {
      EmptyYears(ys[..|ys| - 1]);
    }
  }

  /** Every year a realised trade was booked to is a key of the P&L map. */
  ghost predicate Booked(s: RunState)
  {
    forall k :: 0 <= k < |s.closed| ==> s.closed[k].year in s.yearlyPnl
  }

  lemma RealiseKeepsBooked(s: RunState, year: int, pnl: real)
    requires Booked(s)
    ensures Booked(Realise(s, year, pnl))
  {
    var s' := Realise(s, year, pnl);
    forall k | 0 <= k < |s'.closed|
      ensures s'.closed[k].year in s'.yearlyPnl
    {
      if k < |s.closed| {
        assert s'.closed[k] == s.closed[k];
      }
    }
  }

  lemma BarStepKeepsBooked(data: seq<Bar>, strategy: SignalSource, s: RunState, i: nat)
    requires 1 <= i < |data| && strategy.requires(data, i) && Booked(s)
    ensures Booked(BarStep(data, strategy, s, i))
  {
    match s.position
    case Flat =>
    case Holding(entry, stop, target, year) =>
      if data[i].low <= stop {
        RealiseKeepsBooked(s, year, stop - entry);
      } else if data[i].high >= target {
        RealiseKeepsBooked(s, year, target - entry);
      }
  }

  /** A run that starts with no realised trade has a P&L-map key for every trade it realises. */
  lemma {:induction false} RunBooked(data: seq<Bar>, strategy: SignalSource, s0: RunState, k: nat)
    requires 1 <= k <= |data| && Queryable(strategy, data) && s0.closed == []
    ensures Booked(RunBars(data, strategy, s0, k))
  {
    if k > 1 {
      RunBooked(data, strategy, s0, k - 1);
      BarStepKeepsBooked(data, strategy, RunBars(data, strategy, s0, k - 1), k - 1);
    }
  }

  lemma ForceCloseKeepsBooked(data: seq<Bar>, s: RunState)
    requires |data| > 0 && Booked(s)
    ensures Booked(ForceClose(data, s))
  {
    if s.position.Holding? {
      RealiseKeepsBooked(s, ParseYear(data[|data| - 1].timestamp), data[|data| - 1].close - s.position.entryPrice);
    }
  }

  /** On a run that starts with an empty P&L map, the map's entries add up to the equity gained:
      for any list of distinct years that holds every year of the map, the listed entries sum
      to the final equity minus the initial equity. */
  lemma YearlyPnlAddsUp(data: seq<Bar>, strategy: SignalSource, s0: RunState, ys: seq<int>)
    requires Queryable(strategy, data) && s0.closed == [] && s0.yearlyPnl == map[]
    requires DistinctYears(ys) && forall y :: y in RunAll(data, strategy, s0).yearlyPnl ==> y in ys
    ensures var s := RunAll(data, strategy, s0);
      s.equity == s0.equity + MapTotal(s.yearlyPnl, ys)
  {
    var s := RunAll(data, strategy, s0);
    if |data| > 0 {
      RunBarsAccounting(data, strategy, s0, |data|);
      ForceCloseKeepsAccounts(data, s0, RunBars(data, strategy, s0, |data|));
    }
    assert Accounted(s0, s);
    if |data| > 0 {
      RunBooked(data, strategy, s0, |data|);
      ForceCloseKeepsBooked(data, RunBars(data, strategy, s0, |data|));
    }
    assert Booked(s);
    MapTotalOfAccounted(s0, s, ys);
    YearsAddUp(s.closed, ys);
  }

  lemma {:induction false} MapTotalOfAccounted(s0: RunState, s: RunState, ys: seq<int>)
    requires Accounted(s0, s) && s0.yearlyPnl == map[]
    ensures MapTotal(s.yearlyPnl, ys) == SumOverYears(s.closed, ys)
  {
    if ys != [] {
      MapTotalOfAccounted(s0, s, ys[..|ys| - 1]);
      assert PnlOf(s0.yearlyPnl, ys[|ys| - 1]) == 0.0;
    }
  }
}
