/**
 * The older, single-file backtester (`run_backtest` and its signal and exit
 * checks in backtest_api.py).
 *
 * Its loop has the shape of the component engine with no entry or exit
 * delay, stops always placed and no saved strategy, so it is written with
 * the engine's own blocks (`Engine.ApplyExit`, `Engine.EntryPhase`,
 * `Engine.Settle`) and keeps the engine's invariant. What differs is the
 * signal: RSI, CCI and Z-score fire when the value crosses a threshold
 * rather than while it lies beyond it.
 */
module Legacy {
  import opened Common
  import opened Strategy
  import opened Engine
  import opened EngineProps
  import opened EngineFacts
  import opened EngineBars

  // ---------------------------------------------------------------------
  // Signals

  /**
   * A threshold crossing: Long when the value rises through the bottom
   * level, otherwise Short when it falls through the top level.
   */
  function EdgeSignal(prev: real, cur: real, bottom: real, top: real): (s: Option<Side>)
    ensures s == Some(Long) <==> prev <= bottom && cur > bottom
    ensures s == Some(Short) <==> !(prev <= bottom && cur > bottom) && prev >= top && cur < top
  {
    if prev <= bottom && cur > bottom then Some(Long)
    else if prev >= top && cur < top then Some(Short)
    else None
  }

  /**
   * With the bottom level below the top one, a crossing is the moment the
   * value leaves a zone: a Long when it leaves the oversold zone, a Short
   * when it leaves the overbought zone.
   */
  lemma EdgeLeavesZone(prev: real, cur: real, bottom: real, top: real)
    requires bottom < top
    ensures EdgeSignal(prev, cur, bottom, top) == Some(Long) <==>
      ZoneSignal(prev, bottom, top) == Some(Long) && ZoneSignal(cur, bottom, top) != Some(Long)
    ensures EdgeSignal(prev, cur, bottom, top) == Some(Short) <==>
      ZoneSignal(prev, bottom, top) == Some(Short) && ZoneSignal(cur, bottom, top) != Some(Short)
  {
  }

  /** RSI (NaN reading as 50) level crossings: Long rising through the bottom level, else Short falling through the top. */
  function RsiEdge(row: Row, prev: Row, p: IndicatorParams): (s: Option<Side>)
    ensures var col := RsiCol(Lookup(p.length, p.period, 14));
      var v0, v1 := ValueOr(prev, col, 50.0), ValueOr(row, col, 50.0);
      var bottom, top := Lookup(p.bottom, p.oversold, 30.0), Lookup(p.top, p.overbought, 70.0);
      (s == Some(Long) <==> v0 <= bottom && v1 > bottom)
      && (s == Some(Short) <==> !(v0 <= bottom && v1 > bottom) && v0 >= top && v1 < top)
  {
    var col := RsiCol(Lookup(p.length, p.period, 14));
    EdgeSignal(ValueOr(prev, col, 50.0), ValueOr(row, col, 50.0),
               Lookup(p.bottom, p.oversold, 30.0), Lookup(p.top, p.overbought, 70.0))
  }

  /** CCI (NaN reading as 0) level crossings: Long rising through the bottom level, else Short falling through the top. */
  function CciEdge(row: Row, prev: Row, p: IndicatorParams): (s: Option<Side>)
    ensures var col := CciCol(Lookup(p.length, p.period, 20));
      var v0, v1 := ValueOr(prev, col, 0.0), ValueOr(row, col, 0.0);
      var bottom, top := Lookup(p.bottom, p.oversold, -100.0), Lookup(p.top, p.overbought, 100.0);
      (s == Some(Long) <==> v0 <= bottom && v1 > bottom)
      && (s == Some(Short) <==> !(v0 <= bottom && v1 > bottom) && v0 >= top && v1 < top)
  {
    var col := CciCol(Lookup(p.length, p.period, 20));
    EdgeSignal(ValueOr(prev, col, 0.0), ValueOr(row, col, 0.0),
               Lookup(p.bottom, p.oversold, -100.0), Lookup(p.top, p.overbought, 100.0))
  }

  /** Z-score (NaN reading as 0) level crossings: Long rising through the bottom level, else Short falling through the top. */
  function ZScoreEdge(row: Row, prev: Row, p: IndicatorParams): (s: Option<Side>)
    ensures var col := ZScoreCol(Lookup(p.length, p.period, 20));
      var v0, v1 := ValueOr(prev, col, 0.0), ValueOr(row, col, 0.0);
      var bottom, top := Lookup(p.bottom, p.lower, -2.0), Lookup(p.top, p.upper, 2.0);
      (s == Some(Long) <==> v0 <= bottom && v1 > bottom)
      && (s == Some(Short) <==> !(v0 <= bottom && v1 > bottom) && v0 >= top && v1 < top)
  {
    var col := ZScoreCol(Lookup(p.length, p.period, 20));
    EdgeSignal(ValueOr(prev, col, 0.0), ValueOr(row, col, 0.0),
               Lookup(p.bottom, p.lower, -2.0), Lookup(p.top, p.upper, 2.0))
  }

  /** The dispatcher's outcome: a signal (or none), or the NameError of a call to a missing function. */
  datatype Dispatch = Decided(signal: Option<Side>) | NameError

  /**
   * The dispatcher as written: no signal without a previous bar or for an
   * unknown type; an MA strategy calls a signal function that does not
   * exist and raises.
   */
  function DispatchAsWritten(row: Row, prev: Option<Row>, kind: IndicatorKind, p: IndicatorParams): (d: Dispatch)
    ensures d == NameError <==> prev.Some? && kind == MaKind
    ensures prev.None? || kind == OtherKind ==> d == Decided(None)
  {
    match prev
    case None => Decided(None)
    case Some(pr) =>
      match kind
      case EmaKind => Decided(EmaSignal(row, pr, p))
      case MaKind => NameError
      case RsiKind => Decided(RsiEdge(row, pr, p))
      case CciKind => Decided(CciEdge(row, pr, p))
      case ZScoreKind => Decided(ZScoreEdge(row, pr, p))
      case OtherKind => Decided(None)
  }

  /**
   * The dispatcher with the MA branch reading the moving-average crossover,
   * as the component dispatcher does; every other branch is unchanged.
   */
  function LegacySignal(row: Row, prev: Option<Row>, kind: IndicatorKind, p: IndicatorParams): (s: Option<Side>)
    ensures DispatchAsWritten(row, prev, kind, p).Decided? ==> s == DispatchAsWritten(row, prev, kind, p).signal
    ensures prev.Some? && kind == MaKind ==> s == IndicatorSignal(row, prev, MaKind, p)
    ensures prev.Some? && (kind == EmaKind || kind == MaKind) ==> s == IndicatorSignal(row, prev, kind, p)
  {
    match prev
    case None => None
    case Some(pr) =>
      match kind
      case EmaKind => EmaSignal(row, pr, p)
      case MaKind => MaSignal(row, pr, p)
      case RsiKind => RsiEdge(row, pr, p)
      case CciKind => CciEdge(row, pr, p)
      case ZScoreKind => ZScoreEdge(row, pr, p)
      case OtherKind => None
  }

  // ---------------------------------------------------------------------
  // The loop

  /** The keyword arguments of the older `run_backtest` that influence trading. */
  datatype Args = Args(
    initialCapital: real,
    enableShort: bool,
    mode: Mode,
    emaFast: int,
    emaSlow: int,
    indicatorType: IndicatorKind,
    indicatorParams: Option<IndicatorParams>)

  /** The same run as an engine configuration: no delays, stops always placed, no saved strategy. */
  function Settings(a: Args): (cfg: Config)
    ensures cfg.entryDelay <= 1 && cfg.exitDelay <= 1 && cfg.useStopLoss && !UsesDsl(cfg)
    ensures cfg.initialCapital == a.initialCapital && cfg.mode == a.mode && cfg.enableShort == a.enableShort
  {
    Config(a.initialCapital, a.enableShort, a.mode, a.emaFast, a.emaSlow,
           a.indicatorType, a.indicatorParams, 0, 0, true, None)
  }

  /** The signal of bar `i`, from the indicator left after defaults (an unknown type reads as EMA). */
  function SignalAt(a: Args, rows: seq<Row>, i: nat): Option<Side>
    requires 1 <= i < |rows|
  {
    var ind := Resolved(Settings(a));
    LegacySignal(rows[i], Some(rows[i - 1]), ind.kind, ind.params)
  }

  /**
   * The exit block: an open position is checked (stop first, then the
   * opposite signal, both filling at the close) and closed at once when the
   * check says so.
   */
  function LegacyExitPhase(cfg: Config, rows: seq<Row>, i: nat, st: State, fired: Option<Side>): State
    requires i < |rows|
  {
    if st.position.Some? then
      ApplyExit(cfg, i, st, ExitCheck(st.position.value.side, st.position.value.stop, rows[i], fired), fired.Some?)
    else st
  }

  /**
   * One iteration: the exit block, then an admitted entry when flat, then
   * the clearing of the just-exited flag on a quiet bar.
   */
  function LegacyStep(a: Args, rows: seq<Row>, i: nat, st: State): State
    requires 1 <= i < |rows| && ValidRows(rows)
  {
    var cfg := Settings(a);
    var sig := Signal(SignalAt(a, rows, i), false, false, false, false);
    Settle(EntryPhase(cfg, rows, i, LegacyExitPhase(cfg, rows, i, st, sig.fired), sig), sig)
  }

  function LegacyRun(a: Args, rows: seq<Row>, k: nat, n: nat, st: State): State
    requires 1 <= k <= n <= |rows| && ValidRows(rows)
    decreases n - k
  {
    if k == n then st else LegacyRun(a, rows, k + 1, n, LegacyStep(a, rows, k, st))
  }

  function LegacyFinal(a: Args, rows: seq<Row>): State
    requires |rows| > 0 && ValidRows(rows)
  {
    LegacyRun(a, rows, 1, |rows|, Init(Settings(a)))
  }

  /** What the older `run_backtest` returns (all empty on empty data). */
  function LegacyBacktest(a: Args, rows: seq<Row>): Report
    requires ValidRows(rows) && a.initialCapital > 0.0
  {
    if |rows| == 0 then Report([], None, None)
    else
      var st := LegacyFinal(a, rows);
      Report(st.trades, Some(Summarize(a.initialCapital, st.capital, st.trades)),
             if st.position.Some? then Some(ReportOpen(st.position.value, st.capital, rows[|rows| - 1].close)) else None)
  }

  /** The outcome of a run: a report, or the error raised by the dispatcher. */
  datatype Outcome = Completed(report: Report) | Raised

  /**
   * The older `run_backtest` as written: the dispatcher runs on bar 1
   * before anything else, so an MA strategy with two or more candles raises
   * there; every other run reports what `LegacyBacktest` does.
   */
  function BacktestAsWritten(a: Args, rows: seq<Row>): (o: Outcome)
    requires ValidRows(rows) && a.initialCapital > 0.0
    ensures o == Raised <==> |rows| >= 2 && a.indicatorType == MaKind
    ensures o.Completed? ==> o.report == LegacyBacktest(a, rows)
  {
    if |rows| >= 2 then
      var ind := Resolved(Settings(a));
      match DispatchAsWritten(rows[1], Some(rows[0]), ind.kind, ind.params)
      case NameError => Raised
      case Decided(_) => Completed(LegacyBacktest(a, rows))
    else Completed(LegacyBacktest(a, rows))
  }

  /** The exit block of the older loop. */
  method LegacyExitBar(cfg: Config, rows: seq<Row>, i: nat, st: State, fired: Option<Side>) returns (r: State)
    requires i < |rows| && cfg.exitDelay <= 1
    ensures r == LegacyExitPhase(cfg, rows, i, st, fired)
  {
    r := st;
    if st.position.Some? {
      var p := st.position.value;
      var d := ExitCheck(p.side, p.stop, rows[i], fired);
      if d.shouldExit {
        var t := CloseTrade(p, st.capital, d.price, i, d.stopLossHit);
        r := r.(trades := st.trades + [t]);
        r := r.(capital := if p.side == Long then t.exitValue else st.capital + t.pnl);
        r := r.(justExited := !d.stopLossHit && fired.Some?);
        r := r.(position := None);
      }
    }
  }

  /**
   * The loop of the older `run_backtest`. It computes exactly
   * `LegacyBacktest`.
   */
  method RunLegacyBacktest(a: Args, rows: seq<Row>)
    returns (trades: seq<Trade>, performance: Option<Performance>, openPosition: Option<OpenReport>)
    requires ValidRows(rows) && a.initialCapital > 0.0
    ensures trades == LegacyBacktest(a, rows).trades
    ensures performance == LegacyBacktest(a, rows).performance
    ensures openPosition == LegacyBacktest(a, rows).openPosition
    ensures |rows| == 0 ==> trades == [] && performance.None? && openPosition.None?
  {
    if |rows| == 0 {
      return [], None, None;
    }
    var cfg := Settings(a);
    var ind := Resolved(cfg);
    var st := Init(cfg);
    var i := 1;
    while i < |rows|
      invariant 1 <= i <= |rows|
      invariant LegacyRun(a, rows, i, |rows|, st) == LegacyFinal(a, rows)
    {
      ghost var before := st;
      var fired := LegacySignal(rows[i], Some(rows[i - 1]), ind.kind, ind.params);
      var sig := Signal(fired, false, false, false, false);
      st := LegacyExitBar(cfg, rows, i, st, fired);
      st := EntryBar(cfg, rows, i, st, sig);
      if fired.None? {
        st := st.(justExited := false);
      }
      assert st == LegacyStep(a, rows, i, before);
      i := i + 1;
    }
    trades := st.trades;
    var last := rows[|rows| - 1].close;
    openPosition := if st.position.Some? then Some(ReportOpen(st.position.value, st.capital, last)) else None;
    performance := Some(Summarize(a.initialCapital, st.capital, st.trades));
  }

  // ---------------------------------------------------------------------
  // Properties

  /** The state of a run without delays: nothing is ever pending. */
  predicate NothingPending(st: State) {
    st.pendingEntry.None? && st.pendingExit.None?
  }

  /** The engine invariant, with nothing ever pending (the older loop has no delays). */
  predicate LegacyConsistent(a: Args, rows: seq<Row>, st: State, k: nat) {
    Consistent(Settings(a), rows, st, k) && NothingPending(st)
  }

  lemma LegacyStepKeeps(a: Args, rows: seq<Row>, i: nat, st: State)
    requires 1 <= i < |rows| && ValidRows(rows)
    requires LegacyConsistent(a, rows, st, i)
    ensures LegacyConsistent(a, rows, LegacyStep(a, rows, i, st), i + 1)
  {
    PhasesKeepNothingPending(Settings(a), rows, i, st, Signal(SignalAt(a, rows, i), false, false, false, false));
  }

  /** Without delays the three blocks of the older loop keep the invariant, for any signal, and schedule nothing. */
  lemma PhasesKeepNothingPending(cfg: Config, rows: seq<Row>, i: nat, st: State, sig: Signal)
    requires 1 <= i < |rows| && ValidRows(rows) && cfg.entryDelay <= 1 && cfg.exitDelay <= 1
    requires Consistent(cfg, rows, st, i) && NothingPending(st)
    ensures var r := Settle(EntryPhase(cfg, rows, i, LegacyExitPhase(cfg, rows, i, st, sig.fired), sig), sig);
      Consistent(cfg, rows, r, i + 1) && NothingPending(r)
  {
    var st1 := LegacyExitPhase(cfg, rows, i, st, sig.fired);
    ExitKeepsNothingPending(cfg, rows, i, st, sig.fired);
    var st2 := EntryPhase(cfg, rows, i, st1, sig);
    EntryPhaseKeeps(cfg, rows, i, st1, sig);
    EntryKeepsNothingPending(cfg, rows, i, st1, sig);
    SettleKeeps(cfg, rows, i + 1, st2, sig);
  }

  lemma EntryKeepsNothingPending(cfg: Config, rows: seq<Row>, i: nat, st: State, sig: Signal)
    requires 1 <= i < |rows| && ValidRows(rows) && cfg.entryDelay <= 1
    requires NothingPending(st)
    ensures NothingPending(EntryPhase(cfg, rows, i, st, sig))
  {
  }

  lemma ExitKeepsNothingPending(cfg: Config, rows: seq<Row>, i: nat, st: State, fired: Option<Side>)
    requires 1 <= i < |rows| && ValidRows(rows) && cfg.exitDelay <= 1
    requires Consistent(cfg, rows, st, i) && NothingPending(st)
    ensures var r := LegacyExitPhase(cfg, rows, i, st, fired);
      Invariant(cfg, rows, r, i + 1, i) && NothingPending(r)
  {
    if st.position.Some? {
      ApplyExitKeeps(cfg, rows, i, st, ExitCheck(st.position.value.side, st.position.value.stop, rows[i], fired), fired.Some?);
    } else {
      TradesOkGrow(cfg, rows, st.trades, i, i + 1);
    }
  }

  lemma {:induction false} LegacyRunKeeps(a: Args, rows: seq<Row>, k: nat, n: nat, st: State)
    requires 1 <= k <= n <= |rows| && ValidRows(rows)
    requires LegacyConsistent(a, rows, st, k)
    ensures LegacyConsistent(a, rows, LegacyRun(a, rows, k, n, st), n)
    decreases n - k
  {
    if k < n {
      LegacyStepKeeps(a, rows, k, st);
      LegacyRunKeeps(a, rows, k + 1, n, LegacyStep(a, rows, k, st));
    }
  }

  lemma LegacyFinalConsistent(a: Args, rows: seq<Row>)
    requires |rows| > 0 && ValidRows(rows)
    ensures LegacyConsistent(a, rows, LegacyFinal(a, rows), |rows|)
  {
    LegacyRunKeeps(a, rows, 1, |rows|, Init(Settings(a)));
  }

  /**
   * Every trade of the older engine entered after bar 0 and closed on a
   * later bar without overlapping the next, carries a stop on the losing
   * side of its entry, follows the strategy mode (long-only only longs,
   * short-only only shorts, shorts only when enabled), and books shares
   * times the favourable move; the final capital is the initial capital
   * plus the booked profits.
   */
  lemma LegacyTradesWellFormed(a: Args, rows: seq<Row>)
    requires ValidRows(rows) && a.initialCapital > 0.0 && |rows| > 0
    ensures TradesOk(Settings(a), rows, LegacyBacktest(a, rows).trades, |rows|)
    ensures LegacyBacktest(a, rows).performance.Some?
    ensures LegacyBacktest(a, rows).performance.value.finalCapital
            == a.initialCapital + SumPnl(LegacyBacktest(a, rows).trades)
  {
    LegacyFinalConsistent(a, rows);
  }

  /** Each trade has a stop, follows the mode, and shorts need `enable_short`. */
  lemma LegacyTradesFollowMode(a: Args, rows: seq<Row>, j: nat)
    requires ValidRows(rows) && a.initialCapital > 0.0
    requires j < |LegacyBacktest(a, rows).trades|
    ensures var t := LegacyBacktest(a, rows).trades[j];
      t.stop.Some?
      && (a.mode == LongOnly ==> t.side == Long)
      && (a.mode == ShortOnly ==> t.side == Short)
      && (!a.enableShort ==> t.side == Long)
      && a.mode != UnknownMode
  {
    LegacyFinalConsistent(a, rows);
    assert TradeOk(Settings(a), rows, LegacyBacktest(a, rows).trades[j], |rows|);
  }

  /**
   * The performance summary of the older engine: the summed profit equals
   * the change in capital, wins and losses are counted among the trades,
   * the win rate is a percentage, and without trades the capital is
   * untouched and every figure is 0.
   */
  lemma LegacyPerformance(a: Args, rows: seq<Row>)
    requires ValidRows(rows) && a.initialCapital > 0.0 && |rows| > 0
    ensures var r := LegacyBacktest(a, rows);
      var perf := r.performance.value;
      r.performance.Some?
      && perf.initialCapital == a.initialCapital
      && perf.totalReturn == perf.finalCapital - perf.initialCapital
      && perf.totalTrades == |r.trades|
      && perf.winningTrades + perf.losingTrades <= perf.totalTrades
      && 0.0 <= perf.winRate <= 100.0
      && (|r.trades| == 0 ==> perf.finalCapital == a.initialCapital && perf.winRate == 0.0 && perf.totalReturnPct == 0.0)
  {
    LegacyFinalConsistent(a, rows);
    SummaryFacts(Settings(a), rows, LegacyFinal(a, rows), |rows|);
  }

  /** A position still open after the last bar is reported at the last close with its unrealised profit. */
  lemma LegacyOpenPositionUnrealised(a: Args, rows: seq<Row>)
    requires ValidRows(rows) && a.initialCapital > 0.0
    requires LegacyBacktest(a, rows).openPosition.Some?
    ensures UnrealisedOk(rows, LegacyBacktest(a, rows).openPosition.value, rows[|rows| - 1].close, |rows|)
    ensures LegacyBacktest(a, rows).openPosition.value.stop.Some?
  {
    var st := LegacyFinal(a, rows);
    LegacyFinalConsistent(a, rows);
    OpenReportFacts(Settings(a), rows, st, |rows|, rows[|rows| - 1].close);
  }

  /** Every trade left at the close of its exit bar. */
  predicate FillsAtClose(rows: seq<Row>, ts: seq<Trade>) {
    forall j :: 0 <= j < |ts| ==> ts[j].exitIndex < |rows| && ts[j].exitPrice == rows[ts[j].exitIndex].close
  }

  lemma ExitFillsAtClose(cfg: Config, rows: seq<Row>, i: nat, st: State, fired: Option<Side>)
    requires i < |rows| && FillsAtClose(rows, st.trades)
    ensures FillsAtClose(rows, LegacyExitPhase(cfg, rows, i, st, fired).trades)
  {
    if st.position.Some? {
      var p := st.position.value;
      var d := ExitCheck(p.side, p.stop, rows[i], fired);
      if d.shouldExit && (cfg.exitDelay <= 1 || d.stopLossHit) {
        var r := LegacyExitPhase(cfg, rows, i, st, fired);
        assert r.trades == st.trades + [CloseTrade(p, st.capital, d.price, i, d.stopLossHit)];
      }
    }
  }

  lemma {:induction false} RunFillsAtClose(a: Args, rows: seq<Row>, k: nat, n: nat, st: State)
    requires 1 <= k <= n <= |rows| && ValidRows(rows)
    requires FillsAtClose(rows, st.trades)
    ensures FillsAtClose(rows, LegacyRun(a, rows, k, n, st).trades)
    decreases n - k
  {
    if k < n {
      StepFillsAtClose(a, rows, k, st);
      RunFillsAtClose(a, rows, k + 1, n, LegacyStep(a, rows, k, st));
    }
  }

  lemma StepFillsAtClose(a: Args, rows: seq<Row>, k: nat, st: State)
    requires 1 <= k < |rows| && ValidRows(rows)
    requires FillsAtClose(rows, st.trades)
    ensures FillsAtClose(rows, LegacyStep(a, rows, k, st).trades)
  {
    var cfg := Settings(a);
    var sig := Signal(SignalAt(a, rows, k), false, false, false, false);
    var st1 := LegacyExitPhase(cfg, rows, k, st, sig.fired);
    ExitFillsAtClose(cfg, rows, k, st, sig.fired);
    EntryPhaseKeepsTrades(cfg, rows, k, st1, sig);
  }

  /**
   * The older engine fills every exit at the close of the exit bar, a
   * stop-loss exit included: the stop only decides whether to leave.
   */
  lemma LegacyExitsAtClose(a: Args, rows: seq<Row>, j: nat)
    requires ValidRows(rows) && a.initialCapital > 0.0
    requires j < |LegacyBacktest(a, rows).trades|
    ensures var t := LegacyBacktest(a, rows).trades[j];
      t.exitIndex < |rows| && t.exitPrice == rows[t.exitIndex].close
  {
    RunFillsAtClose(a, rows, 1, |rows|, Init(Settings(a)));
  }

  // ---------------------------------------------------------------------
  // Against the component engine

  /**
   * For a crossover strategy (EMA or MA, or an unknown type, which reads as
   * EMA) one bar of the older loop is one bar of the component engine.
   */
  lemma StepMatchesEngine(a: Args, rows: seq<Row>, i: nat, st: State)
    requires 1 <= i < |rows| && ValidRows(rows)
    requires Resolved(Settings(a)).kind == EmaKind || Resolved(Settings(a)).kind == MaKind
    requires NothingPending(st)
    ensures LegacyStep(a, rows, i, st) == Step(Settings(a), rows, i, st)
    ensures NothingPending(LegacyStep(a, rows, i, st))
  {
    var cfg := Settings(a);
    var sig := DetectSignal(cfg, rows, i, st);
    assert sig == Signal(SignalAt(a, rows, i), false, false, false, false);
    assert Remember(cfg, st, sig) == st;
  }

  lemma {:induction false} RunMatchesEngine(a: Args, rows: seq<Row>, k: nat, n: nat, st: State)
    requires 1 <= k <= n <= |rows| && ValidRows(rows)
    requires Resolved(Settings(a)).kind == EmaKind || Resolved(Settings(a)).kind == MaKind
    requires NothingPending(st)
    ensures LegacyRun(a, rows, k, n, st) == Run(Settings(a), rows, k, n, st)
    decreases n - k
  {
    if k < n {
      StepMatchesEngine(a, rows, k, st);
      RunMatchesEngine(a, rows, k + 1, n, LegacyStep(a, rows, k, st));
    }
  }

  /**
   * For crossover strategies the older backtester and the component engine
   * run without delays, with stops and without a saved strategy report the
   * same trades, performance and open position.
   */
  lemma CrossoverBacktestsAgree(a: Args, rows: seq<Row>)
    requires ValidRows(rows) && a.initialCapital > 0.0
    requires Resolved(Settings(a)).kind == EmaKind || Resolved(Settings(a)).kind == MaKind
    ensures LegacyBacktest(a, rows) == Backtest(Settings(a), rows)
  {
    if |rows| > 0 {
      RunMatchesEngine(a, rows, 1, |rows|, Init(Settings(a)));
    }
  }
}
