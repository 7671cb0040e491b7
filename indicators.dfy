/**
 * Rolling indicators over a bar series (src/MovingAverage.cpp): the simple moving
 * average, the relative strength index and the fair-value-gap detector.
 * Each looping indicator is a method proved against a specification function; the
 * functions are what the pure strategies and the lemmas use.
 */
module Indicators {
  import opened MarketData

  // ---------------------------------------------------------------------------
  // Simple moving average
  // ---------------------------------------------------------------------------

  /** Sum of the closes at indices lo .. hi-1. */
  function SumCloses(data: seq<Bar>, lo: nat, hi: nat): real
    requires lo <= hi <= |data|
    decreases hi - lo
  {
    if lo == hi then 0.0 else SumCloses(data, lo, hi - 1) + data[hi - 1].close
  }

  /**
   * The value `SMA` returns: the sentinel 0 when fewer than `period` bars end at
   * `endIndex`, otherwise the mean close of the `period` bars ending there.
   */
  function SmaValue(data: seq<Bar>, endIndex: nat, period: nat): real
    requires period > 0 && endIndex < |data|
  {
    if endIndex + 1 < period then 0.0
    else SumCloses(data, endIndex + 1 - period, endIndex + 1) / period as real
  }

  /** `Indicators::SMA`: accumulates the window's closes in a loop. */
  method Sma(data: seq<Bar>, endIndex: nat, period: nat) returns (r: real)
    requires period > 0 && endIndex < |data|
    ensures endIndex + 1 < period ==> r == 0.0
    ensures r == SmaValue(data, endIndex, period)
  {
    if endIndex + 1 < period {
      return 0.0;
    }
    var sum := 0.0;
    var i := endIndex + 1 - period;
    while i <= endIndex
      invariant endIndex + 1 - period <= i <= endIndex + 1
      invariant sum == SumCloses(data, endIndex + 1 - period, i)
    {
      sum := sum + data[i].close;
      i := i + 1;
    }
    r := sum / period as real;
  }

  lemma {:induction false} SumClosesBounds(data: seq<Bar>, lo: nat, hi: nat, low: real, high: real)
    requires lo <= hi <= |data|
    requires forall k :: lo <= k < hi ==> low <= data[k].close <= high
    ensures (hi - lo) as real * low <= SumCloses(data, lo, hi) <= (hi - lo) as real * high
    decreases hi - lo
  {
    if lo < hi {
      SumClosesBounds(data, lo, hi - 1, low, high);
    }
  }

  /** With enough data the average lies between any lower and upper bound of the window's closes
      (in particular between the window's minimum and maximum close). */
  lemma SmaWithinWindow(data: seq<Bar>, endIndex: nat, period: nat, low: real, high: real)
    requires period > 0 && endIndex < |data| && period <= endIndex + 1
    requires forall k :: endIndex + 1 - period <= k <= endIndex ==> low <= data[k].close <= high
    ensures low <= SmaValue(data, endIndex, period) <= high
  {
    var lo := endIndex + 1 - period;
    SumClosesBounds(data, lo, endIndex + 1, low, high);
    var p := period as real;
    var s := SumCloses(data, lo, endIndex + 1);
    assert p * low <= s <= p * high;
    assert s / p * p == s;
  }

  /** A window of equal closes `c` averages to `c`. */
  lemma SmaOfConstantWindow(data: seq<Bar>, endIndex: nat, period: nat, c: real)
    requires period > 0 && endIndex < |data| && period <= endIndex + 1
    requires forall k :: endIndex + 1 - period <= k <= endIndex ==> data[k].close == c
    ensures SmaValue(data, endIndex, period) == c
  {
    SmaWithinWindow(data, endIndex, period, c, c);
  }

  // ---------------------------------------------------------------------------
  // Relative strength index
  // ---------------------------------------------------------------------------

  /** Loss denominator floor used when the window has no losses. */
  const LossFloor: real := 0.0000000001

  /** The close-to-close change at bar i. */
  function Change(data: seq<Bar>, i: nat): real
    requires 1 <= i < |data|
  {
    data[i].close - data[i - 1].close
  }

  /** Sum of the positive changes at bars lo .. hi-1. */
  function Gains(data: seq<Bar>, lo: nat, hi: nat): (g: real)
    requires 1 <= lo <= hi <= |data|
    ensures g >= 0.0
    decreases hi - lo
  {
    if lo == hi then 0.0
    else Gains(data, lo, hi - 1) + (if Change(data, hi - 1) > 0.0 then Change(data, hi - 1) else 0.0)
  }

  /** Sum of the magnitudes of the non-positive changes at bars lo .. hi-1. */
  function Losses(data: seq<Bar>, lo: nat, hi: nat): (l: real)
    requires 1 <= lo <= hi <= |data|
    ensures l >= 0.0
    decreases hi - lo
  {
    if lo == hi then 0.0
    else Losses(data, lo, hi - 1) + (if Change(data, hi - 1) > 0.0 then 0.0 else -Change(data, hi - 1))
  }

  /** The oscillator from a window's total gain and loss. */
  function RsiFromSums(gain: real, loss: real): real
    requires gain >= 0.0 && loss >= 0.0
  {
    if gain + loss == 0.0 then 50.0
    else 100.0 - 100.0 / (1.0 + gain / (if loss == 0.0 then LossFloor else loss))
  }

  /**
   * The value `RSI` returns: neutral 50 when `endIndex < period`, otherwise the
   * oscillator over the `period` changes at bars endIndex-period+1 .. endIndex.
   */
  function RsiValue(data: seq<Bar>, endIndex: nat, period: nat): real
    requires endIndex < |data|
  {
    if endIndex < period then 50.0
    else RsiFromSums(Gains(data, endIndex - period + 1, endIndex + 1), Losses(data, endIndex - period + 1, endIndex + 1))
  }

  /** `Indicators::RSI`: accumulates gains and losses in a loop. The loop's `i == 0`
      guard is shown unreachable: the window starts at bar 1 or later. */
  method Rsi(data: seq<Bar>, endIndex: nat, period: nat) returns (r: real)
    requires endIndex < |data|
    ensures endIndex < period ==> r == 50.0
    ensures r == RsiValue(data, endIndex, period)
  {
    if endIndex < period {
      return 50.0;
    }
    var gain, loss := 0.0, 0.0;
    var start := endIndex - period + 1;
    var i := start;
    while i <= endIndex
      invariant start <= i <= endIndex + 1
      invariant gain == Gains(data, start, i)
      invariant loss == Losses(data, start, i)
    {
      if i == 0 {
        assert false;
      }
      var change := data[i].close - data[i - 1].close;
      if change > 0.0 {
        gain := gain + change;
      } else {
        loss := loss - change;
      }
      i := i + 1;
    }
    if gain + loss == 0.0 {
      return 50.0;
    }
    var rs := gain / (if loss == 0.0 then LossFloor else loss);
    r := 100.0 - 100.0 / (1.0 + rs);
  }

  lemma RsiFromSumsRange(gain: real, loss: real)
    requires gain >= 0.0 && loss >= 0.0
    ensures 0.0 <= RsiFromSums(gain, loss) < 100.0
    ensures gain == 0.0 && loss > 0.0 ==> RsiFromSums(gain, loss) == 0.0
  {
    if gain + loss != 0.0 {
      var denom := if loss == 0.0 then LossFloor else loss;
      assert denom > 0.0;
      var rs := gain / denom;
      assert rs * denom == gain;
      assert rs >= 0.0;
      var d := 1.0 + rs;
      var q := 100.0 / d;
      assert q * d == 100.0;
      assert q > 0.0;
      assert q * 1.0 <= q * d;
    }
  }

  /** The oscillator lies in [0, 100) for every series, index and period. */
  lemma RsiRange(data: seq<Bar>, endIndex: nat, period: nat)
    requires endIndex < |data|
    ensures 0.0 <= RsiValue(data, endIndex, period) < 100.0
  {
    if endIndex >= period {
      var lo := endIndex - period + 1;
      RsiFromSumsRange(Gains(data, lo, endIndex + 1), Losses(data, lo, endIndex + 1));
    }
  }

  /** A window without gains but with losses gives 0; one with neither gives the neutral 50. */
  lemma RsiDegenerateWindows(data: seq<Bar>, endIndex: nat, period: nat)
    requires endIndex < |data| && period <= endIndex
    ensures var g, l := Gains(data, endIndex - period + 1, endIndex + 1), Losses(data, endIndex - period + 1, endIndex + 1);
      && (g == 0.0 && l > 0.0 ==> RsiValue(data, endIndex, period) == 0.0)
      && (g + l == 0.0 ==> RsiValue(data, endIndex, period) == 50.0)
  {
    var lo := endIndex - period + 1;
    RsiFromSumsRange(Gains(data, lo, endIndex + 1), Losses(data, lo, endIndex + 1));
  }

  // ---------------------------------------------------------------------------
  // Fair value gap
  // ---------------------------------------------------------------------------

  /** `Indicators::detectFVG`: the current bar's range lies entirely above or below the previous bar's. */
  function DetectFvg(data: seq<Bar>, endIndex: nat): (gap: bool)
    requires endIndex < |data|
    ensures endIndex < 2 ==> !gap
  {
    if endIndex < 2 then false
    else
      var prev, curr := data[endIndex - 1], data[endIndex];
      curr.low > prev.high || curr.high < prev.low
  }

  /** The price p lies in the bar's range [low, high]. */
  predicate PriceInRange(p: real, b: Bar)
  {
    b.low <= p <= b.high
  }

  /** For well-formed bars (low <= high) a gap is reported exactly when the price ranges
      [low, high] of the previous and the current bar share no price. */
  lemma FvgIffDisjointRanges(data: seq<Bar>, endIndex: nat)
    requires 2 <= endIndex < |data|
    requires data[endIndex - 1].low <= data[endIndex - 1].high && data[endIndex].low <= data[endIndex].high
    ensures DetectFvg(data, endIndex) <==>
      !exists p: real :: PriceInRange(p, data[endIndex - 1]) && PriceInRange(p, data[endIndex])
  {
    var prev, curr := data[endIndex - 1], data[endIndex];
    if !DetectFvg(data, endIndex) {
      var p := if curr.low < prev.low then prev.low else curr.low;
      assert PriceInRange(p, prev) && PriceInRange(p, curr);
    }
  }

  // ---------------------------------------------------------------------------
  // No look-ahead: each indicator reads only bars at or before its index
  // ---------------------------------------------------------------------------

  lemma {:induction false} SumClosesOfPrefix(data: seq<Bar>, lo: nat, hi: nat, m: nat)
    requires lo <= hi <= m <= |data|
    ensures SumCloses(data[..m], lo, hi) == SumCloses(data, lo, hi)
    decreases hi - lo
  {
    if lo < hi {
      SumClosesOfPrefix(data, lo, hi - 1, m);
    }
  }

  lemma {:induction false} GainsLossesOfPrefix(data: seq<Bar>, lo: nat, hi: nat, m: nat)
    requires 1 <= lo <= hi <= m <= |data|
    ensures Gains(data[..m], lo, hi) == Gains(data, lo, hi)
    ensures Losses(data[..m], lo, hi) == Losses(data, lo, hi)
    decreases hi - lo
  {
    if lo < hi {
      GainsLossesOfPrefix(data, lo, hi - 1, m);
      assert Change(data[..m], hi - 1) == Change(data, hi - 1);
    }
  }

  /** The three indicators at `endIndex` are unchanged when every later bar is dropped. */
  lemma IndicatorsHaveNoLookAhead(data: seq<Bar>, endIndex: nat, period: nat)
    requires period > 0 && endIndex < |data|
    ensures SmaValue(data[..endIndex + 1], endIndex, period) == SmaValue(data, endIndex, period)
    ensures RsiValue(data[..endIndex + 1], endIndex, period) == RsiValue(data, endIndex, period)
    ensures DetectFvg(data[..endIndex + 1], endIndex) == DetectFvg(data, endIndex)
  {
    if period <= endIndex + 1 {
      SumClosesOfPrefix(data, endIndex + 1 - period, endIndex + 1, endIndex + 1);
    }
    if period <= endIndex {
      GainsLossesOfPrefix(data, endIndex - period + 1, endIndex + 1, endIndex + 1);
    }
  }
}
