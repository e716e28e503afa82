/**
 * Entry signals, exit checks, stop-loss placement and support/resistance
 * (backtest_api/components/strategy.py).
 */
module Strategy {
  import opened Common

  /** The indicator families the signal dispatcher knows; any other type name is `OtherKind`. */
  datatype IndicatorKind = EmaKind | MaKind | RsiKind | CciKind | ZScoreKind | OtherKind

  /**
   * The `indicator_params` dictionary. A field is `None` when its key is absent;
   * the period keys hold whole numbers, the thresholds real numbers.
   */
  datatype IndicatorParams = IndicatorParams(
    fast: Option<int>,
    slow: Option<int>,
    length: Option<int>,
    period: Option<int>,
    top: Option<real>,
    bottom: Option<real>,
    overbought: Option<real>,
    oversold: Option<real>,
    upper: Option<real>,
    lower: Option<real>)

  const NoParams := IndicatorParams(None, None, None, None, None, None, None, None, None, None)

  /** `params.get(first, params.get(second, default))`. */
  function Lookup<T>(first: Option<T>, second: Option<T>, default: T): (v: T)
    ensures first.Some? ==> v == first.value
    ensures first.None? && second.Some? ==> v == second.value
    ensures first.None? && second.None? ==> v == default
  {
    first.GetOr(second.GetOr(default))
  }

  // ---------------------------------------------------------------------
  // Support and resistance

  /** The candles `data.iloc[lo .. idx]` (both ends included), as a low and a high series. */
  function Lows(rows: seq<Row>, lo: nat, hi: nat): seq<real>
    requires lo <= hi < |rows|
  {
    seq(hi - lo + 1, j requires 0 <= j < hi - lo + 1 => rows[lo + j].low)
  }

  function Highs(rows: seq<Row>, lo: nat, hi: nat): seq<real>
    requires lo <= hi < |rows|
  {
    seq(hi - lo + 1, j requires 0 <= j < hi - lo + 1 => rows[lo + j].high)
  }

  /** Lowest Low and highest High of the bars `lo .. hi`, both ends included. */
  function WindowLevels(rows: seq<Row>, lo: nat, hi: nat): (real, real)
    requires lo <= hi < |rows|
  {
    (MinOf(Lows(rows, lo, hi)), MaxOf(Highs(rows, lo, hi)))
  }

  /** Support is the lowest Low of the window and resistance the highest High, each attained by some bar. */
  lemma WindowLevelsBounds(rows: seq<Row>, lo: nat, hi: nat)
    requires lo <= hi < |rows|
    ensures var r := WindowLevels(rows, lo, hi);
      (forall j :: lo <= j <= hi ==> r.0 <= rows[j].low && rows[j].high <= r.1)
      && (exists j :: lo <= j <= hi && r.0 == rows[j].low)
      && (exists j :: lo <= j <= hi && r.1 == rows[j].high)
  {
    var lows := Lows(rows, lo, hi);
    var highs := Highs(rows, lo, hi);
    assert forall j :: lo <= j <= hi ==> rows[j].low == lows[j - lo] && rows[j].high == highs[j - lo];
    var k :| 0 <= k < |lows| && MinOf(lows) == lows[k];
    assert rows[lo + k].low == MinOf(lows);
    var m :| 0 <= m < |highs| && MaxOf(highs) == highs[m];
    assert rows[lo + m].high == MaxOf(highs);
  }

  /**
   * Support (lowest Low) and resistance (highest High) over the last
   * `lookback` bars before `idx` together with bar `idx` itself; the window
   * shrinks to the bars that exist, and there is no level at bar 0.
   */
  function SupportResistance(rows: seq<Row>, idx: nat, lookback: int): (r: Option<(real, real)>)
    requires idx < |rows|
    ensures r.Some? <==> idx > 0 && lookback > 0
  {
    var lb := if idx < lookback then idx else lookback;
    if lb == 0 then None
    else
      var start := if idx - lb < 0 then 0 else idx - lb;
      if start > idx then None  // negative lookback: the window is empty
      else Some(WindowLevels(rows, start, idx))
  }

  /**
   * A level exists from bar 1 on: the lowest Low and highest High of the bars
   * from `idx - lookback` (or 0) up to `idx`, each attained by one of them.
   */
  lemma SupportResistanceWindow(rows: seq<Row>, idx: nat, lookback: int)
    requires idx < |rows| && idx > 0 && lookback > 0
    ensures var lo := if idx < lookback then 0 else idx - lookback;
      var r := SupportResistance(rows, idx, lookback).value;
      (forall j :: lo <= j <= idx ==> r.0 <= rows[j].low && rows[j].high <= r.1)
      && (exists j :: lo <= j <= idx && r.0 == rows[j].low)
      && (exists j :: lo <= j <= idx && r.1 == rows[j].high)
  {
    WindowLevelsBounds(rows, if idx < lookback then 0 else idx - lookback, idx);
  }

  // ---------------------------------------------------------------------
  // Entry signals

  /**
   * Crossover of a fast line over a slow line between the previous and the
   * current bar: Long on a cross from at-or-below to above, Short on a cross
   * from at-or-above to below. The two cannot both hold.
   */
  function Crossover(fastPrev: real, slowPrev: real, fastCur: real, slowCur: real): (s: Option<Side>)
    ensures s == Some(Long) <==> fastPrev <= slowPrev && fastCur > slowCur
    ensures s == Some(Short) <==> fastPrev >= slowPrev && fastCur < slowCur
  {
    if fastPrev <= slowPrev && fastCur > slowCur then Some(Long)
    else if fastPrev >= slowPrev && fastCur < slowCur then Some(Short)
    else None
  }

  /** Crossover of two columns, a missing or NaN value reading as 0.0. */
  function ColumnCross(row: Row, prev: Row, fastCol: Column, slowCol: Column): Option<Side> {
    Crossover(ValueOr(prev, fastCol, 0.0), ValueOr(prev, slowCol, 0.0),
              ValueOr(row, fastCol, 0.0), ValueOr(row, slowCol, 0.0))
  }

  /**
   * Oscillator zones (mean reversion): Long while the value is at or below the
   * oversold level, otherwise Short while it is at or above the overbought
   * level. The signal depends on the current bar only.
   */
  function ZoneSignal(value: real, oversold: real, overbought: real): (s: Option<Side>)
    ensures s == Some(Long) <==> value <= oversold
    ensures s == Some(Short) <==> oversold < value && value >= overbought
  {
    if value <= oversold then Some(Long)
    else if value >= overbought then Some(Short)
    else None
  }

  /** The crossover of the fast and slow EMA columns (default 12 and 26), NaN reading as 0. */
  function EmaSignal(row: Row, prev: Row, p: IndicatorParams): (s: Option<Side>)
    ensures var f, sl := EmaCol(p.fast.GetOr(12)), EmaCol(p.slow.GetOr(26));
      (s == Some(Long) <==> ValueOr(prev, f, 0.0) <= ValueOr(prev, sl, 0.0) && ValueOr(row, f, 0.0) > ValueOr(row, sl, 0.0))
      && (s == Some(Short) <==> ValueOr(prev, f, 0.0) >= ValueOr(prev, sl, 0.0) && ValueOr(row, f, 0.0) < ValueOr(row, sl, 0.0))
  {
    ColumnCross(row, prev, EmaCol(p.fast.GetOr(12)), EmaCol(p.slow.GetOr(26)))
  }

  /** The crossover of the fast and slow MA columns (default 12 and 26), NaN reading as 0. */
  function MaSignal(row: Row, prev: Row, p: IndicatorParams): (s: Option<Side>)
    ensures var f, sl := MaCol(p.fast.GetOr(12)), MaCol(p.slow.GetOr(26));
      (s == Some(Long) <==> ValueOr(prev, f, 0.0) <= ValueOr(prev, sl, 0.0) && ValueOr(row, f, 0.0) > ValueOr(row, sl, 0.0))
      && (s == Some(Short) <==> ValueOr(prev, f, 0.0) >= ValueOr(prev, sl, 0.0) && ValueOr(row, f, 0.0) < ValueOr(row, sl, 0.0))
  {
    ColumnCross(row, prev, MaCol(p.fast.GetOr(12)), MaCol(p.slow.GetOr(26)))
  }

  /** RSI (NaN reading as 50) zones: Long at or below the bottom level, else Short at or above the top level. */
  function RsiSignal(row: Row, p: IndicatorParams): (s: Option<Side>)
    ensures var v := ValueOr(row, RsiCol(Lookup(p.length, p.period, 14)), 50.0);
      var bottom, top := Lookup(p.bottom, p.oversold, 30.0), Lookup(p.top, p.overbought, 70.0);
      (s == Some(Long) <==> v <= bottom) && (s == Some(Short) <==> bottom < v && v >= top)
  {
    var period := Lookup(p.length, p.period, 14);
    ZoneSignal(ValueOr(row, RsiCol(period), 50.0),
               Lookup(p.bottom, p.oversold, 30.0), Lookup(p.top, p.overbought, 70.0))
  }

  /** CCI (NaN reading as 0) zones: Long at or below the bottom level, else Short at or above the top level. */
  function CciSignal(row: Row, p: IndicatorParams): (s: Option<Side>)
    ensures var v := ValueOr(row, CciCol(Lookup(p.length, p.period, 20)), 0.0);
      var bottom, top := Lookup(p.bottom, p.oversold, -100.0), Lookup(p.top, p.overbought, 100.0);
      (s == Some(Long) <==> v <= bottom) && (s == Some(Short) <==> bottom < v && v >= top)
  {
    var period := Lookup(p.length, p.period, 20);
    ZoneSignal(ValueOr(row, CciCol(period), 0.0),
               Lookup(p.bottom, p.oversold, -100.0), Lookup(p.top, p.overbought, 100.0))
  }

  /** Z-score (NaN reading as 0) zones: Long at or below the bottom level, else Short at or above the top level. */
  function ZScoreSignal(row: Row, p: IndicatorParams): (s: Option<Side>)
    ensures var v := ValueOr(row, ZScoreCol(Lookup(p.length, p.period, 20)), 0.0);
      var bottom, top := Lookup(p.bottom, p.lower, -2.0), Lookup(p.top, p.upper, 2.0);
      (s == Some(Long) <==> v <= bottom) && (s == Some(Short) <==> bottom < v && v >= top)
  {
    var period := Lookup(p.length, p.period, 20);
    ZoneSignal(ValueOr(row, ZScoreCol(period), 0.0),
               Lookup(p.bottom, p.lower, -2.0), Lookup(p.top, p.upper, 2.0))
  }

  /**
   * The dispatcher: no signal without a previous bar or for an unknown
   * indicator type; otherwise the signal of the chosen family.
   */
  function IndicatorSignal(row: Row, prev: Option<Row>, kind: IndicatorKind, p: IndicatorParams): (s: Option<Side>)
    ensures prev.None? || kind == OtherKind ==> s.None?
    ensures prev.Some? && kind == EmaKind ==> s == EmaSignal(row, prev.value, p)
    ensures prev.Some? && kind == MaKind ==> s == MaSignal(row, prev.value, p)
    ensures prev.Some? && kind == RsiKind ==> s == RsiSignal(row, p)
    ensures prev.Some? && kind == CciKind ==> s == CciSignal(row, p)
    ensures prev.Some? && kind == ZScoreKind ==> s == ZScoreSignal(row, p)
  {
    match prev
    case None => None
    case Some(pr) =>
      match kind
      case EmaKind => EmaSignal(row, pr, p)
      case MaKind => MaSignal(row, pr, p)
      case RsiKind => RsiSignal(row, p)
      case CciKind => CciSignal(row, p)
      case ZScoreKind => ZScoreSignal(row, p)
      case OtherKind => None
  }

  /** The older entry check: an EMA12 / EMA26 crossover. */
  function LegacyEntrySignal(row: Row, prev: Option<Row>): (s: Option<Side>)
    ensures s == IndicatorSignal(row, prev, EmaKind, NoParams)
  {
    match prev
    case None => None
    case Some(pr) => ColumnCross(row, pr, EmaCol(12), EmaCol(26))
  }

  // ---------------------------------------------------------------------
  // Stop loss

  /**
   * Initial stop for a new position: a long uses the support when it lies
   * below the entry, else 5% below the entry; a short uses the resistance
   * when it lies above the entry, else 5% above.
   */
  function StopLoss(side: Side, entry: real, levels: Option<(real, real)>): (stop: real)
    ensures entry > 0.0 && side == Long ==> stop < entry
    ensures entry > 0.0 && side == Short ==> stop > entry
    ensures side == Long ==>
      stop == (if levels.Some? && levels.value.0 < entry then levels.value.0 else entry * 0.95)
    ensures side == Short ==>
      stop == (if levels.Some? && levels.value.1 > entry then levels.value.1 else entry * 1.05)
  {
    match side
    case Long =>
      if levels.Some? && levels.value.0 < entry then levels.value.0 else entry * 0.95
    case Short =>
      if levels.Some? && levels.value.1 > entry then levels.value.1 else entry * 1.05
  }

  // ---------------------------------------------------------------------
  // Exit checks

  /** Outcome of an exit check: whether to close, at what price, and whether the stop caused it. */
  datatype ExitDecision = ExitDecision(shouldExit: bool, price: real, stopLossHit: bool)

  /** A long is stopped when the bar's low reaches the stop, a short when its high does. */
  predicate StopTouched(side: Side, stop: real, high: real, low: real) {
    if side == Long then low <= stop else high >= stop
  }

  /**
   * The exit check of the indicator path: first the stop (when there is one),
   * then a signal against the position. Either way the fill is at the close.
   */
  function ExitCheck(side: Side, stop: Option<real>, row: Row, signal: Option<Side>): (d: ExitDecision)
    ensures d.price == row.close
    ensures d.stopLossHit <==> stop.Some? && StopTouched(side, stop.value, row.high, row.low)
    ensures d.shouldExit <==> d.stopLossHit || signal == Some(Opposite(side))
  {
    if stop.Some? && StopTouched(side, stop.value, row.high, row.low) then
      ExitDecision(true, row.close, true)
    else if signal == Some(Opposite(side)) then
      ExitDecision(true, row.close, false)
    else
      ExitDecision(false, row.close, false)
  }

  /** `check_exit_condition_indicator`: the opposite signal is the dispatcher's signal on this bar. */
  function IndicatorExitCheck(side: Side, stop: Option<real>, row: Row, prev: Option<Row>,
                              kind: IndicatorKind, p: IndicatorParams): ExitDecision {
    ExitCheck(side, stop, row, IndicatorSignal(row, prev, kind, p))
  }

  /**
   * The older exit check with fixed EMA12 / EMA26 columns: a long leaves on a
   * death cross, a short on a golden cross. It decides exactly as the
   * indicator exit check for EMA crossovers with default periods.
   */
  function LegacyExitCheck(side: Side, stop: Option<real>, row: Row, prev: Option<Row>): (d: ExitDecision)
    ensures d == IndicatorExitCheck(side, stop, row, prev, EmaKind, NoParams)
  {
    if stop.Some? && StopTouched(side, stop.value, row.high, row.low) then
      ExitDecision(true, row.close, true)
    else if prev.Some? then
      var fc, sc := ValueOr(row, EmaCol(12), 0.0), ValueOr(row, EmaCol(26), 0.0);
      var fp, sp := ValueOr(prev.value, EmaCol(12), 0.0), ValueOr(prev.value, EmaCol(26), 0.0);
      var cross := if side == Long then fp >= sp && fc < sc else fp <= sp && fc > sc;
      ExitDecision(cross, row.close, false)
    else
      ExitDecision(false, row.close, false)
  }
}
