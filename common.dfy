/** Optional values, used where the C++ returns "nothing found" or throws. */
module Options {
  datatype Option<+T> = None | Some(value: T)
}

/** The OHLCV bar of include/DataLoader.hpp: one observation per time interval. */
module MarketData {
  datatype Bar = Bar(timestamp: string, open: real, high: real, low: real, close: real, volume: real)

  /** Every close is strictly positive: the core divides by closes and by equities derived from them. */
  predicate PositiveCloses(data: seq<Bar>)
  {
    forall i :: 0 <= i < |data| ==> data[i].close > 0.0
  }
}

/** The signal record every strategy returns (include/Strategy.hpp). */
module Signals {
  datatype SignalType = NoSignal | Buy | Sell

  datatype TradeSignal = TradeSignal(kind: SignalType, barIndex: nat, stopLoss: real, takeProfit: real, reason: string)

  /** The "no trade" signal every strategy returns with zero stop and target. */
  function Nothing(index: nat, reason: string): TradeSignal
  {
    TradeSignal(NoSignal, index, 0.0, 0.0, reason)
  }
}

/** Character classes of the C locale, as `std::isspace` and `std::isdigit` see them. */
module Chars {
  predicate IsSpace(c: char)
  {
    c == ' ' || c == '\t' || c == '\n' || c == '\r' || c == '\U{000C}' || c == '\U{000B}'
  }

  predicate IsDigit(c: char)
  {
    '0' <= c <= '9'
  }

  function DigitValue(c: char): (d: nat)
    requires IsDigit(c)
    ensures d <= 9
  {
    (c as int - '0' as int) as nat
  }

  /** Number of leading decimal digits. */
  function DigitRun(s: string): (n: nat)
    ensures n <= |s| && forall k :: 0 <= k < n ==> IsDigit(s[k])
    ensures n < |s| ==> !IsDigit(s[n])
  {
    if |s| > 0 && IsDigit(s[0]) then 1 + DigitRun(s[1..]) else 0
  }

  /** Value of a string of decimal digits. */
  function DigitsValue(d: string): nat
    requires forall k :: 0 <= k < |d| ==> IsDigit(d[k])
  {
    if d == [] then 0 else DigitsValue(d[..|d| - 1]) * 10 + DigitValue(d[|d| - 1])
  }

  lemma {:induction false} DigitRunOfDigits(s: string)
    requires forall k :: 0 <= k < |s| ==> IsDigit(s[k])
    ensures DigitRun(s) == |s|
  {
    if |s| > 0 {
      DigitRunOfDigits(s[1..]);
    }
  }
}
