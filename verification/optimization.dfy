/**
 * Signal, position and return series of the parameter optimisers:
 * `run_optimization_backtest` (crossover of two moving averages) and
 * `run_indicator_optimization_backtest` (threshold crossings of an
 * oscillator, or price against its rolling median) in
 * backtest_api/components/backtest_engine.py, and the EMA optimiser of
 * backtest_api.py. A signal is +1 (long), -1 (short) or 0 (none); series
 * values that pandas holds as NaN are `None`.
 */
module Optimization {
  import opened Common
  import opened Dsl

  /** The `position_type` argument; any other string is `OtherType`. */
  datatype PositionType = LongOnlyType | ShortOnlyType | BothType | OtherType

  function ParsePositionType(s: string): (t: PositionType)
    ensures t == OtherType <==> !(s == "long_only" || s == "short_only" || s == "both")
    ensures t == LongOnlyType <==> s == "long_only"
    ensures t == ShortOnlyType <==> s == "short_only"
  {
    if s == "long_only" then LongOnlyType
    else if s == "short_only" then ShortOnlyType
    else if s == "both" then BothType
    else OtherType
  }

  /** A `long_only` or `short_only` strategy mode overrides the position type. */
  function EffectiveType(mode: Mode, t: PositionType): (r: PositionType)
    ensures mode == LongOnly ==> r == LongOnlyType
    ensures mode == ShortOnly ==> r == ShortOnlyType
    ensures mode != LongOnly && mode != ShortOnly ==> r == t
  {
    match mode
    case LongOnly => LongOnlyType
    case ShortOnly => ShortOnlyType
    case _ => t
  }

  predicate IsSignal(s: int) {
    s == -1 || s == 0 || s == 1
  }

  // ---------------------------------------------------------------------
  // Moving-average crossover

  /**
   * The signal of one bar: long while the short average is above the long
   * one, short while it is below, none when they are equal or either is
   * NaN; long-only never shorts and short-only never goes long. Any other
   * position type is treated as 'both'.
   */
  function CrossSignal(t: PositionType, short: Option<real>, long: Option<real>): (s: int)
    ensures IsSignal(s)
    ensures s == 1 <==> t != ShortOnlyType && short.Some? && long.Some? && short.value > long.value
    ensures s == -1 <==> t != LongOnlyType && short.Some? && long.Some? && short.value < long.value
  {
    if short.None? || long.None? then 0
    else if t == LongOnlyType then (if short.value > long.value then 1 else 0)
    else if t == ShortOnlyType then (if short.value < long.value then -1 else 0)
    else if short.value > long.value then 1
    else if short.value < long.value then -1
    else 0
  }

  function CrossSignals(t: PositionType, shorts: seq<Option<real>>, longs: seq<Option<real>>): (r: seq<int>)
    requires |shorts| == |longs|
    ensures |r| == |shorts|
  {
    seq(|shorts|, i requires 0 <= i < |shorts| => CrossSignal(t, shorts[i], longs[i]))
  }

  // ---------------------------------------------------------------------
  // Threshold and median crossings

  /** Position types the crossing loops accept for a long (`in ['both', 'long_only']`) or a short signal. */
  predicate AllowsLong(t: PositionType) {
    t == BothType || t == LongOnlyType
  }

  predicate AllowsShort(t: PositionType) {
    t == BothType || t == ShortOnlyType
  }

  /** `(oscillator_strategy or 'mean_reversion').lower() == 'momentum'`. */
  predicate IsMomentum(strategy: Option<string>) {
    var key := if strategy.None? || strategy.value == "" then "mean_reversion" else strategy.value;
    ToLower(key) == "momentum"
  }

  predicate CrossesUp(prev: real, cur: real, level: real) {
    prev <= level && cur > level
  }

  predicate CrossesDown(prev: real, cur: real, level: real) {
    prev >= level && cur < level
  }

  /**
   * Long on an upward crossing of `up`; otherwise short on a downward
   * crossing of `down`; a signal the position type does not accept is 0.
   */
  function LevelCross(t: PositionType, prev: real, cur: real, up: real, down: real): (s: int)
    ensures IsSignal(s)
    ensures s == 1 <==> AllowsLong(t) && CrossesUp(prev, cur, up)
    ensures s == -1 <==> AllowsShort(t) && !CrossesUp(prev, cur, up) && CrossesDown(prev, cur, down)
  {
    if CrossesUp(prev, cur, up) then (if AllowsLong(t) then 1 else 0)
    else if CrossesDown(prev, cur, down) then (if AllowsShort(t) then -1 else 0)
    else 0
  }

  /**
   * The oscillator signal of one bar. Momentum goes long when the value
   * breaks above the top threshold and short when it breaks below the
   * bottom one; mean reversion goes long when it climbs back above the
   * bottom threshold and short when it falls back below the top one.
   */
  function ThresholdSignal(momentum: bool, t: PositionType, prev: Option<real>, cur: Option<real>,
                           top: real, bottom: real): (s: int)
    ensures IsSignal(s)
    ensures prev.None? || cur.None? ==> s == 0
  {
    if prev.None? || cur.None? then 0
    else if momentum then LevelCross(t, prev.value, cur.value, top, bottom)
    else LevelCross(t, prev.value, cur.value, bottom, top)
  }

  /** The `Signal` column the threshold loop leaves: 0 up to bar `length`, then the bar's crossing. */
  function ThresholdSignals(values: seq<Option<real>>, length: nat, momentum: bool, t: PositionType,
                            top: real, bottom: real): (r: seq<int>)
    ensures |r| == |values|
  {
    seq(|values|, i requires 0 <= i < |values| =>
      if i >= length + 1 then ThresholdSignal(momentum, t, values[i - 1], values[i], top, bottom) else 0)
  }

  /**
   * Price against its rolling median: long when the close crosses above the
   * median, otherwise short when it crosses below; 0 while the median is NaN.
   */
  function MedianSignal(t: PositionType, prevClose: real, close: real, prevMedian: Option<real>,
                        median: Option<real>): (s: int)
    ensures IsSignal(s)
    ensures s == 1 <==> AllowsLong(t) && prevMedian.Some? && median.Some?
                        && prevClose <= prevMedian.value && close > median.value
    ensures s == -1 <==> AllowsShort(t) && prevMedian.Some? && median.Some?
                         && !(prevClose <= prevMedian.value && close > median.value)
                         && prevClose >= prevMedian.value && close < median.value
  {
    if prevMedian.None? || median.None? then 0
    else if prevClose <= prevMedian.value && close > median.value then (if AllowsLong(t) then 1 else 0)
    else if prevClose >= prevMedian.value && close < median.value then (if AllowsShort(t) then -1 else 0)
    else 0
  }

  function MedianSignals(closes: seq<real>, medians: seq<Option<real>>, length: nat, t: PositionType): (r: seq<int>)
    requires |closes| == |medians|
    ensures |r| == |closes|
  {
    seq(|closes|, i requires 0 <= i < |closes| =>
      if i >= length + 1 then MedianSignal(t, closes[i - 1], closes[i], medians[i - 1], medians[i]) else 0)
  }

  /** The threshold loop: a zero `Signal` column, then one write per bar from `length + 1` on. */
  method ThresholdSignalColumn(values: seq<Option<real>>, length: nat, momentum: bool, t: PositionType,
                               top: real, bottom: real) returns (signal: array<int>)
    ensures fresh(signal)
    ensures signal[..] == ThresholdSignals(values, length, momentum, t, top, bottom)
  {
    signal := new int[|values|](_ => 0);
    ghost var spec := ThresholdSignals(values, length, momentum, t, top, bottom);
    var idx := length + 1;
    while idx < |values|
      invariant length + 1 <= idx && signal.Length == |values|
      invariant forall i :: 0 <= i < |values| && i < idx ==> signal[i] == spec[i]
      invariant forall i :: idx <= i < |values| ==> signal[i] == 0
    {
      var cur, prev := values[idx], values[idx - 1];
      if cur.Some? && prev.Some? {
        var s := 0;
        var up, down := if momentum then top else bottom, if momentum then bottom else top;
        if prev.value <= up && cur.value > up {
          if t == BothType || t == LongOnlyType {
            s := 1;
          }
        } else if prev.value >= down && cur.value < down {
          if t == BothType || t == ShortOnlyType {
            s := -1;
          }
        }
        assert s == spec[idx];
        signal[idx] := s;
      }
      idx := idx + 1;
    }
  }

  /** The median loop of the same shape. */
  method MedianSignalColumn(closes: seq<real>, medians: seq<Option<real>>, length: nat, t: PositionType)
    returns (signal: array<int>)
    requires |closes| == |medians|
    ensures fresh(signal)
    ensures signal[..] == MedianSignals(closes, medians, length, t)
  {
    signal := new int[|closes|](_ => 0);
    ghost var spec := MedianSignals(closes, medians, length, t);
    var idx := length + 1;
    while idx < |closes|
      invariant length + 1 <= idx && signal.Length == |closes|
      invariant forall i :: 0 <= i < |closes| && i < idx ==> signal[i] == spec[i]
      invariant forall i :: idx <= i < |closes| ==> signal[i] == 0
    {
      var price, prevPrice := closes[idx], closes[idx - 1];
      var median, prevMedian := medians[idx], medians[idx - 1];
      if median.Some? && prevMedian.Some? {
        var s := 0;
        if prevPrice <= prevMedian.value && price > median.value {
          if t == BothType || t == LongOnlyType {
            s := 1;
          }
        } else if prevPrice >= prevMedian.value && price < median.value {
          if t == BothType || t == ShortOnlyType {
            s := -1;
          }
        }
        assert s == spec[idx];
        signal[idx] := s;
      }
      idx := idx + 1;
    }
  }

  /** The crossing loops accept signals only for the three named position types. */
  lemma OtherTypeNeverSignals(values: seq<Option<real>>, length: nat, momentum: bool, top: real, bottom: real, i: nat)
    requires i < |values|
    ensures ThresholdSignals(values, length, momentum, OtherType, top, bottom)[i] == 0
  {
  }

  /**
   * Crossing signals are edges: the value that crossed a level on one bar is
   * already past it on the next, so neither a long nor a short signal is
   * repeated on consecutive bars.
   */
  lemma ThresholdSignalsNotRepeated(values: seq<Option<real>>, length: nat, momentum: bool, t: PositionType,
                                    top: real, bottom: real, i: nat)
    requires i + 1 < |values|
    ensures var s := ThresholdSignals(values, length, momentum, t, top, bottom);
      (s[i] == 1 ==> s[i + 1] != 1) && (s[i] == -1 ==> s[i + 1] != -1)
  {
  }

  // ---------------------------------------------------------------------
  // Positions, returns and trade count

  /** `Signal.replace(0, NaN).ffill().fillna(0)` at bar i: the last non-zero signal so far. */
  function Filled(signal: seq<int>, i: nat): int
    requires i < |signal|
  {
    if signal[i] != 0 then signal[i]
    else if i == 0 then 0
    else Filled(signal, i - 1)
  }

  /** The `Position` column: the signal itself when waiting for the next signal, the held signal otherwise. */
  function Positions(signal: seq<int>, waitForNext: bool): (p: seq<int>)
    ensures |p| == |signal|
  {
    if waitForNext then signal
    else seq(|signal|, i requires 0 <= i < |signal| => Filled(signal, i))
  }

  /**
   * A held position is the most recent non-zero signal, and it is 0 exactly
   * when no signal has fired yet.
   */
  lemma {:induction false} FilledIsLastSignal(signal: seq<int>, i: nat)
    requires i < |signal|
    ensures Filled(signal, i) == 0 <==> forall j :: 0 <= j <= i ==> signal[j] == 0
    ensures Filled(signal, i) != 0 ==>
      exists j :: 0 <= j <= i && signal[j] == Filled(signal, i) && forall k :: j < k <= i ==> signal[k] == 0
  {
    if signal[i] == 0 && i > 0 {
      FilledIsLastSignal(signal, i - 1);
      if Filled(signal, i) != 0 {
        var j :| 0 <= j <= i - 1 && signal[j] == Filled(signal, i - 1) && forall k :: j < k <= i - 1 ==> signal[k] == 0;
        assert forall k :: j < k <= i ==> signal[k] == 0;
      }
    }
  }

  /** The held position at bar i depends on the signals up to bar i only. */
  lemma {:induction false} FilledIgnoresFuture(signal: seq<int>, signal': seq<int>, i: nat)
    requires i < |signal| && i < |signal'|
    requires forall j :: 0 <= j <= i ==> signal[j] == signal'[j]
    ensures Filled(signal, i) == Filled(signal', i)
  {
    if signal[i] == 0 && i > 0 {
      FilledIgnoresFuture(signal, signal', i - 1);
    }
  }

  /** `Position.shift(1) * Close.pct_change()` at bar i >= 1: yesterday's position earns today's move. */
  function StrategyReturn(pos: seq<int>, closes: seq<real>, i: nat): real
    requires 1 <= i < |closes| && |pos| == |closes| && closes[i - 1] != 0.0
  {
    pos[i - 1] as real * (closes[i] / closes[i - 1] - 1.0)
  }

  /**
   * A long earns when the close rises, a short when it falls, and a flat
   * position earns nothing.
   */
  lemma ReturnFollowsPosition(pos: seq<int>, closes: seq<real>, i: nat)
    requires 1 <= i < |closes| && |pos| == |closes| && closes[i - 1] > 0.0
    ensures pos[i - 1] == 0 ==> StrategyReturn(pos, closes, i) == 0.0
    ensures pos[i - 1] == 1 ==> (StrategyReturn(pos, closes, i) > 0.0 <==> closes[i] > closes[i - 1])
    ensures pos[i - 1] == -1 ==> (StrategyReturn(pos, closes, i) > 0.0 <==> closes[i] < closes[i - 1])
  {
    var q := closes[i] / closes[i - 1];
    assert q * closes[i - 1] == closes[i];
    if closes[i] > closes[i - 1] && q <= 1.0 { assert false; }
    if closes[i] <= closes[i - 1] && q > 1.0 { assert false; }
    if closes[i] < closes[i - 1] && q >= 1.0 { assert false; }
    if closes[i] >= closes[i - 1] && q < 1.0 { assert false; }
  }

  /**
   * No look-ahead: the strategy return of bar i is decided by the signals of
   * bars before i and the closes up to bar i.
   */
  lemma ReturnIgnoresFuture(signal: seq<int>, signal': seq<int>, closes: seq<real>, closes': seq<real>,
                            waitForNext: bool, i: nat)
    requires 1 <= i < |closes| && |signal| == |closes| && 1 <= i < |closes'| && |signal'| == |closes'|
    requires closes[i - 1] != 0.0
    requires forall j :: 0 <= j < i ==> signal[j] == signal'[j]
    requires forall j :: 0 <= j <= i ==> closes[j] == closes'[j]
    ensures StrategyReturn(Positions(signal, waitForNext), closes, i)
         == StrategyReturn(Positions(signal', waitForNext), closes', i)
  {
    if !waitForNext {
      FilledIgnoresFuture(signal, signal', i - 1);
    }
  }

  /** Whether two consecutive positions differ (`diff().abs() > 0.5`). */
  function Changed(before: int, after: int): bool {
    (if after >= before then after - before else before - after) as real > 0.5
  }

  function PositionChanges(ps: seq<int>): nat {
    if |ps| <= 1 then 0
    else PositionChanges(ps[..|ps| - 1]) + (if Changed(ps[|ps| - 2], ps[|ps| - 1]) then 1 else 0)
  }

  /**
   * A column restricted to the rows `dropna` keeps: bar 0 has no return, and
   * bars whose indicator is NaN are dropped.
   */
  function KeptRows(pos: seq<int>, values: seq<Option<real>>): (r: seq<int>)
    requires |pos| == |values|
    ensures |r| < |pos| || |pos| == 0
  {
    if |pos| <= 1 then []
    else
      var n := |pos| - 1;
      KeptRows(pos[..n], values[..n]) + (if values[n].Some? then [pos[n]] else [])
  }

  /** The number of bars after bar 0 whose indicator is defined. */
  function DefinedAfterFirst(values: seq<Option<real>>): nat {
    if |values| <= 1 then 0
    else DefinedAfterFirst(values[..|values| - 1]) + (if values[|values| - 1].Some? then 1 else 0)
  }

  /**
   * `dropna` keeps exactly the bars after bar 0 whose indicator is defined,
   * in their order: one row per such bar, and the bar j lands after the kept
   * bars before it.
   */
  lemma {:induction false} KeptRowsExact(pos: seq<int>, values: seq<Option<real>>)
    requires |pos| == |values|
    ensures |KeptRows(pos, values)| == DefinedAfterFirst(values)
    ensures forall j :: 1 <= j < |pos| && values[j].Some? ==>
      DefinedAfterFirst(values[..j]) < |KeptRows(pos, values)| && KeptRows(pos, values)[DefinedAfterFirst(values[..j])] == pos[j]
  {
    if |pos| > 1 {
      var n := |pos| - 1;
      var r', r := KeptRows(pos[..n], values[..n]), KeptRows(pos, values);
      KeptRowsExact(pos[..n], values[..n]);
      forall j | 1 <= j < |pos| && values[j].Some?
        ensures DefinedAfterFirst(values[..j]) < |r| && r[DefinedAfterFirst(values[..j])] == pos[j]
      {
        if j < n {
          assert values[..n][..j] == values[..j];
          assert pos[..n][j] == pos[j] && values[..n][j] == values[j];
        } else {
          assert values[..n] == values[..j];
        }
      }
    }
  }

  /** The trade count of the indicator optimiser: position changes between consecutive kept rows. */
  function TradeCount(pos: seq<int>, values: seq<Option<real>>): nat
    requires |pos| == |values|
  {
    PositionChanges(KeptRows(pos, values))
  }

  /**
   * The trade count of the crossover optimiser, `(Signal.diff() != 0).sum()`
   * over the kept rows: the first kept row has no previous row, and its NaN
   * difference counts as a change.
   */
  function CrossTradeCount(signal: seq<int>, shorts: seq<Option<real>>, longs: seq<Option<real>>): nat
    requires |signal| == |shorts| == |longs|
  {
    var kept := KeptRows(signal, BothDefined(shorts, longs));
    (if |kept| > 0 then 1 else 0) + PositionChanges(kept)
  }

  /** The rows on which both moving averages are defined, the rest NaN. */
  function BothDefined(shorts: seq<Option<real>>, longs: seq<Option<real>>): (d: seq<Option<real>>)
    requires |shorts| == |longs|
    ensures |d| == |shorts|
    ensures forall i :: 0 <= i < |d| ==> (d[i].Some? <==> shorts[i].Some? && longs[i].Some?)
  {
    seq(|shorts|, i requires 0 <= i < |shorts| => if longs[i].Some? then shorts[i] else None)
  }

  predicate AllZero(s: seq<int>) {
    forall j :: 0 <= j < |s| ==> s[j] == 0
  }

  lemma {:induction false} ChangesOfConstant(ps: seq<int>)
    requires AllZero(ps)
    ensures PositionChanges(ps) == 0
  {
    if |ps| > 1 {
      ChangesOfConstant(ps[..|ps| - 1]);
    }
  }

  lemma {:induction false} KeptOfZero(pos: seq<int>, values: seq<Option<real>>)
    requires |pos| == |values| && AllZero(pos)
    ensures AllZero(KeptRows(pos, values))
  {
    if |pos| > 1 {
      KeptOfZero(pos[..|pos| - 1], values[..|pos| - 1]);
    }
  }

  /** Two consecutive kept rows with different positions count as one trade each time they differ. */
  lemma {:induction false} ChangesBounded(ps: seq<int>)
    ensures PositionChanges(ps) <= if |ps| == 0 then 0 else |ps| - 1
    ensures PositionChanges(ps) > 0 ==> exists j :: 0 < j < |ps| && ps[j] != ps[j - 1]
  {
    if |ps| > 1 {
      var n := |ps| - 1;
      ChangesBounded(ps[..n]);
      if PositionChanges(ps[..n]) > 0 {
        var j :| 0 < j < n && ps[..n][j] != ps[..n][j - 1];
        assert ps[j] != ps[j - 1];
      }
    }
  }

  /** Without any signal the optimiser holds no position and counts no trade. */
  lemma NoSignalNoTrades(signal: seq<int>, values: seq<Option<real>>, waitForNext: bool)
    requires |signal| == |values| && AllZero(signal)
    ensures AllZero(Positions(signal, waitForNext))
    ensures TradeCount(Positions(signal, waitForNext), values) == 0
  {
    var pos := Positions(signal, waitForNext);
    forall i | 0 <= i < |signal|
      ensures pos[i] == 0
    {
      FilledIsLastSignal(signal, i);
    }
    KeptOfZero(pos, values);
    ChangesOfConstant(KeptRows(pos, values));
  }

  /**
   * The crossover optimiser's count is at most the number of kept rows and
   * at least one whenever a row is kept: even without any signal it reports
   * one trade, the first row's NaN difference.
   */
  lemma CrossTradeCountRange(signal: seq<int>, shorts: seq<Option<real>>, longs: seq<Option<real>>)
    requires |signal| == |shorts| == |longs|
    ensures var kept := DefinedAfterFirst(BothDefined(shorts, longs));
      CrossTradeCount(signal, shorts, longs) <= kept
      && (kept > 0 ==> CrossTradeCount(signal, shorts, longs) >= 1)
      && (AllZero(signal) ==> CrossTradeCount(signal, shorts, longs) == if kept > 0 then 1 else 0)
  {
    var d := BothDefined(shorts, longs);
    KeptRowsExact(signal, d);
    ChangesBounded(KeptRows(signal, d));
    if AllZero(signal) {
      KeptOfZero(signal, d);
      ChangesOfConstant(KeptRows(signal, d));
    }
  }
}
