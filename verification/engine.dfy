/**
 * The bar-by-bar backtest engine (`run_backtest` in
 * backtest_api/components/backtest_engine.py).
 *
 * The specification is a fold: `Step` is what one iteration of the loop does
 * to the engine state, `Run(k, n, st)` runs bars k .. n-1 from `st`, `Final`
 * is the state after the whole loop, and `Backtest` the triple the engine
 * returns. `RunBacktest` is the loop itself,
 * proved equal to `Backtest`.
 */
module Engine {
  import opened Common
  import opened Strategy
  import opened Dsl

  // ---------------------------------------------------------------------
  // Configuration

  /** A saved strategy: indicator aliases and entry / exit conditions. */
  datatype DslStrategy = DslStrategy(indicators: map<string, IndicatorConfig>, entry: Node, exit: Node)

  /** The keyword arguments of `run_backtest` that influence trading. */
  datatype Config = Config(
    initialCapital: real,
    enableShort: bool,
    mode: Mode,
    emaFast: int,
    emaSlow: int,
    indicatorType: IndicatorKind,
    indicatorParams: Option<IndicatorParams>,
    entryDelay: int,
    exitDelay: int,
    useStopLoss: bool,
    dsl: Option<DslStrategy>)

  /** The indicator the signal is read from once defaults have been applied. */
  datatype Indicator = Indicator(kind: IndicatorKind, params: IndicatorParams)

  function FastSlow(fast: int, slow: int): IndicatorParams {
    NoParams.(fast := Some(fast), slow := Some(slow))
  }

  /**
   * Indicator defaults: EMA / MA without parameters take the fast and slow
   * periods, in ascending order; RSI, CCI and Z-score without parameters take
   * their standard thresholds; an unknown type falls back to an EMA crossover
   * of the raw (unswapped) periods, whatever parameters were given.
   */
  function ResolveIndicator(kind: IndicatorKind, params: Option<IndicatorParams>, emaFast: int, emaSlow: int): (r: Indicator)
    ensures r.kind != OtherKind
    ensures kind != OtherKind ==> r.kind == kind
    ensures kind != OtherKind && params.Some? ==> r.params == params.value
    ensures (kind == EmaKind || kind == MaKind) && params.None? ==>
      r.params.fast.Some? && r.params.slow.Some? && r.params.fast.value <= r.params.slow.value
      && multiset{r.params.fast.value, r.params.slow.value} == multiset{emaFast, emaSlow}
    ensures kind == RsiKind && params.None? ==>
      r.params.length == Some(14) && r.params.top == Some(70.0) && r.params.bottom == Some(30.0)
    ensures kind == CciKind && params.None? ==>
      r.params.length == Some(20) && r.params.top == Some(100.0) && r.params.bottom == Some(-100.0)
    ensures kind == ZScoreKind && params.None? ==>
      r.params.length == Some(20) && r.params.top == Some(2.0) && r.params.bottom == Some(-2.0)
    ensures kind == OtherKind ==> r == Indicator(EmaKind, FastSlow(emaFast, emaSlow))
  {
    match kind
    case EmaKind | MaKind =>
      if params.Some? then Indicator(kind, params.value)
      else if emaFast >= emaSlow then Indicator(kind, FastSlow(emaSlow, emaFast))
      else Indicator(kind, FastSlow(emaFast, emaSlow))
    case RsiKind =>
      Indicator(kind, params.GetOr(NoParams.(length := Some(14), top := Some(70.0), bottom := Some(30.0))))
    case CciKind =>
      Indicator(kind, params.GetOr(NoParams.(length := Some(20), top := Some(100.0), bottom := Some(-100.0))))
    case ZScoreKind =>
      Indicator(kind, params.GetOr(NoParams.(length := Some(20), top := Some(2.0), bottom := Some(-2.0))))
    case OtherKind => Indicator(EmaKind, FastSlow(emaFast, emaSlow))
  }

  function Resolved(cfg: Config): Indicator {
    ResolveIndicator(cfg.indicatorType, cfg.indicatorParams, cfg.emaFast, cfg.emaSlow)
  }

  /** The strategy is a saved one: it has indicators and an entry or exit condition. */
  predicate UsesDsl(cfg: Config) {
    cfg.dsl.Some? && |cfg.dsl.value.indicators| > 0
    && (Truthy(cfg.dsl.value.entry) || Truthy(cfg.dsl.value.exit))
  }

  /** Signals come from the conditions only when there is an entry condition. */
  predicate DslDrivesSignal(cfg: Config) {
    UsesDsl(cfg) && Truthy(cfg.dsl.value.entry)
  }

  /**
   * The columns the conditions of a saved strategy can name: the alias table
   * as the source builds it, so an alias whose type no family matches reads
   * as NaN.
   */
  function Aliases(cfg: Config): map<string, Column> {
    if UsesDsl(cfg) then DslColumnsAsWritten(cfg.dsl.value.indicators) else map[]
  }

  /** Candles the engine can size positions on. */
  predicate ValidRows(rows: seq<Row>) {
    forall j :: 0 <= j < |rows| ==> rows[j].close > 0.0
  }

  // ---------------------------------------------------------------------
  // State

  datatype Position = Position(entryIndex: nat, side: Side, entryPrice: real, shares: real, stop: Option<real>)
  datatype PendingEntry = PendingEntry(executeAt: int, side: Side)
  datatype PendingExit = PendingExit(executeAt: int, stopLossHit: bool)

  /** A closed trade; its dates are those of rows `entryIndex` and `exitIndex`. */
  datatype Trade = Trade(
    entryIndex: nat,
    exitIndex: nat,
    side: Side,
    entryPrice: real,
    exitPrice: real,
    stop: Option<real>,
    stopLossHit: bool,
    shares: real,
    entryValue: real,
    exitValue: real,
    pnl: real)

  datatype State = State(
    capital: real,
    position: Option<Position>,
    pendingEntry: Option<PendingEntry>,
    pendingExit: Option<PendingExit>,
    justExited: bool,
    prevEntryMet: bool,
    prevExitMet: bool,
    trades: seq<Trade>)

  function Init(cfg: Config): State {
    State(cfg.initialCapital, None, None, None, false, false, false, [])
  }

  // ---------------------------------------------------------------------
  // One bar

  /**
   * The signal of bar `i`. With an entry condition, a Long fires when the
   * entry condition becomes true and otherwise a Short when the exit
   * condition becomes true; without one, the indicator's signal.
   */
  datatype Signal = Signal(fired: Option<Side>, entryMet: bool, exitMet: bool, entryEdge: bool, exitEdge: bool)

  function DetectSignal(cfg: Config, rows: seq<Row>, i: nat, st: State): Signal
    requires 1 <= i < |rows|
  {
    if DslDrivesSignal(cfg) then
      var s := cfg.dsl.value;
      var entryMet := Evaluate(s.entry, rows[i], Some(rows[i - 1]), Aliases(cfg));
      var exitMet := Truthy(s.exit) && Evaluate(s.exit, rows[i], Some(rows[i - 1]), Aliases(cfg));
      var entryEdge := entryMet && !st.prevEntryMet;
      var exitEdge := exitMet && !st.prevExitMet;
      Signal(if entryEdge then Some(Long) else if exitEdge then Some(Short) else None,
             entryMet, exitMet, entryEdge, exitEdge)
    else
      var ind := Resolved(cfg);
      Signal(IndicatorSignal(rows[i], Some(rows[i - 1]), ind.kind, ind.params), false, false, false, false)
  }

  /**
   * The exit check for an open position. For a saved strategy: the stop
   * (only when stops are enabled and the stop is non-zero) fills at the stop
   * price; otherwise a long leaves on an exit-condition edge and a short on an
   * entry-condition edge, at the close. For indicator strategies: the
   * indicator exit check, which fills at the close.
   */
  function ExitDecisionAt(cfg: Config, rows: seq<Row>, i: nat, p: Position, sig: Signal): ExitDecision
    requires 1 <= i < |rows|
  {
    if UsesDsl(cfg) then
      var hit := cfg.useStopLoss && p.stop.Some? && p.stop.value != 0.0
                 && StopTouched(p.side, p.stop.value, rows[i].high, rows[i].low);
      if hit then ExitDecision(true, p.stop.value, true)
      else ExitDecision((p.side == Long && sig.exitEdge) || (p.side == Short && sig.entryEdge), rows[i].close, false)
    else
      var ind := Resolved(cfg);
      IndicatorExitCheck(p.side, p.stop, rows[i], Some(rows[i - 1]), ind.kind, ind.params)
  }

  /** Profit of closing `p` at `price`: a long is measured against the capital it was bought with. */
  function PnlAt(p: Position, capital: real, price: real): real {
    if p.side == Long then p.shares * price - capital
    else p.shares * p.entryPrice - p.shares * price
  }

  function CloseTrade(p: Position, capital: real, price: real, i: nat, stopLossHit: bool): Trade {
    Trade(p.entryIndex, i, p.side, p.entryPrice, price, p.stop, stopLossHit,
          p.shares, capital, p.shares * price, PnlAt(p, capital, price))
  }

  /** Close the open position at `price` on bar `i`; a long's capital becomes its exit value. */
  function Close(st: State, price: real, i: nat, stopLossHit: bool, hadSignal: bool): State
    requires st.position.Some?
  {
    var p := st.position.value;
    var t := CloseTrade(p, st.capital, price, i, stopLossHit);
    st.(capital := if p.side == Long then t.exitValue else st.capital + t.pnl,
        position := None,
        trades := st.trades + [t],
        justExited := !stopLossHit && hadSignal)
  }

  /**
   * Exits of bar `i`: a due pending exit fills at the close; otherwise, with
   * no exit pending, the exit check runs, and a positive check closes at once
   * when the delay is at most 1 or the stop was hit, and is scheduled for bar
   * i + delay - 1 otherwise.
   */
  function ExitPhase(cfg: Config, rows: seq<Row>, i: nat, st: State, sig: Signal): State
    requires 1 <= i < |rows|
  {
    if st.pendingExit.Some? && i >= st.pendingExit.value.executeAt && st.position.Some? then
      Close(st, rows[i].close, i, st.pendingExit.value.stopLossHit, sig.fired.Some?).(pendingExit := None)
    else if st.position.Some? && st.pendingExit.None? then
      ApplyExit(cfg, i, st, ExitDecisionAt(cfg, rows, i, st.position.value, sig), sig.fired.Some?)
    else st
  }

  /** Acting on an exit check: close now, schedule the exit, or keep the position. */
  function ApplyExit(cfg: Config, i: nat, st: State, d: ExitDecision, hadSignal: bool): State
    requires st.position.Some?
  {
    if !d.shouldExit then st
    else if cfg.exitDelay <= 1 || d.stopLossHit then Close(st, d.price, i, d.stopLossHit, hadSignal)
    else st.(pendingExit := Some(PendingExit(i + cfg.exitDelay - 1, d.stopLossHit)))
  }

  /** A new position at bar `i`'s close, sized with all the capital, with its stop when stops are enabled. */
  function OpenAt(cfg: Config, rows: seq<Row>, i: nat, side: Side, capital: real): Position
    requires i < |rows| && ValidRows(rows)
  {
    var price := rows[i].close;
    var stop := if cfg.useStopLoss then Some(StopLoss(side, price, SupportResistance(rows, i, 50))) else None;
    Position(i, side, price, capital / price, stop)
  }

  /**
   * Whether the strategy mode takes a signal: reversal always; wait-for-next
   * unless the position was just closed on this signal; long-only and
   * short-only their own side; an unknown mode never. Shorts also need to be
   * enabled.
   */
  predicate Admits(cfg: Config, side: Side, justExited: bool) {
    var byMode := match cfg.mode
      case Reversal => true
      case WaitForNext => !justExited
      case LongOnly => side == Long
      case ShortOnly => side == Short
      case UnknownMode => false;
    byMode && !(side == Short && !cfg.enableShort)
  }

  /**
   * Entries of bar `i`: a due pending entry opens when flat; then, when flat
   * with nothing pending, an admitted signal opens at once (delay at most 1)
   * or is scheduled for bar i + delay - 1.
   */
  function EntryPhase(cfg: Config, rows: seq<Row>, i: nat, st: State, sig: Signal): State
    requires 1 <= i < |rows| && ValidRows(rows)
  {
    var st1 :=
      if st.pendingEntry.Some? && i >= st.pendingEntry.value.executeAt && st.position.None? then
        st.(position := Some(OpenAt(cfg, rows, i, st.pendingEntry.value.side, st.capital)), pendingEntry := None)
      else st;
    if st1.position.None? && st1.pendingEntry.None? && sig.fired.Some? && Admits(cfg, sig.fired.value, st1.justExited) then
      if cfg.entryDelay <= 1 then st1.(position := Some(OpenAt(cfg, rows, i, sig.fired.value, st1.capital)))
      else st1.(pendingEntry := Some(PendingEntry(i + cfg.entryDelay - 1, sig.fired.value)))
    else st1
  }

  /** With an entry condition, the loop remembers whether each condition held on this bar. */
  function Remember(cfg: Config, st: State, sig: Signal): State {
    if DslDrivesSignal(cfg) then st.(prevEntryMet := sig.entryMet, prevExitMet := sig.exitMet) else st
  }

  /** A bar without a signal clears the "just exited on this signal" flag. */
  function Settle(st: State, sig: Signal): State {
    if sig.fired.None? then st.(justExited := false) else st
  }

  /** One iteration of the loop, on bar `i`. */
  function Step(cfg: Config, rows: seq<Row>, i: nat, st: State): State
    requires 1 <= i < |rows| && ValidRows(rows)
  {
    var sig := DetectSignal(cfg, rows, i, st);
    Settle(EntryPhase(cfg, rows, i, ExitPhase(cfg, rows, i, Remember(cfg, st, sig), sig), sig), sig)
  }

  /** Bars k .. n-1 of the loop, run from state `st`. */
  function Run(cfg: Config, rows: seq<Row>, k: nat, n: nat, st: State): State
    requires 1 <= k <= n <= |rows| && ValidRows(rows)
    decreases n - k
  {
    if k == n then st else Run(cfg, rows, k + 1, n, Step(cfg, rows, k, st))
  }

  /** The state after the loop: bars 1 .. |rows|-1 from the initial state (bar 0 only seeds the previous row). */
  function Final(cfg: Config, rows: seq<Row>): State
    requires |rows| > 0 && ValidRows(rows)
  {
    Run(cfg, rows, 1, |rows|, Init(cfg))
  }

  // ---------------------------------------------------------------------
  // Results

  datatype Performance = Performance(
    initialCapital: real,
    finalCapital: real,
    totalReturn: real,
    totalReturnPct: real,
    totalTrades: nat,
    winningTrades: nat,
    losingTrades: nat,
    winRate: real)

  /** A position still open after the last bar, valued at the last close. */
  datatype OpenReport = OpenReport(
    entryIndex: nat,
    side: Side,
    entryPrice: real,
    currentPrice: real,
    stop: Option<real>,
    shares: real,
    unrealizedPnl: real,
    unrealizedPnlPct: real)

  datatype Report = Report(trades: seq<Trade>, performance: Option<Performance>, openPosition: Option<OpenReport>)

  function SumPnl(ts: seq<Trade>): real {
    if |ts| == 0 then 0.0 else SumPnl(ts[..|ts| - 1]) + ts[|ts| - 1].pnl
  }

  function CountWins(ts: seq<Trade>): nat {
    if |ts| == 0 then 0 else CountWins(ts[..|ts| - 1]) + (if ts[|ts| - 1].pnl > 0.0 then 1 else 0)
  }

  function CountLosses(ts: seq<Trade>): nat {
    if |ts| == 0 then 0 else CountLosses(ts[..|ts| - 1]) + (if ts[|ts| - 1].pnl < 0.0 then 1 else 0)
  }

  function Summarize(initial: real, capital: real, ts: seq<Trade>): Performance
    requires initial > 0.0
  {
    if |ts| > 0 then
      var wins := CountWins(ts);
      Performance(initial, capital, SumPnl(ts), (capital - initial) / initial * 100.0,
                  |ts|, wins, CountLosses(ts), wins as real / |ts| as real * 100.0)
    else
      Performance(initial, capital, 0.0, 0.0, 0, 0, 0, 0.0)
  }

  function ReportOpen(p: Position, capital: real, price: real): OpenReport {
    var pnl := PnlAt(p, capital, price);
    OpenReport(p.entryIndex, p.side, p.entryPrice, price, p.stop, p.shares, pnl,
               if capital > 0.0 then pnl / capital * 100.0 else 0.0)
  }

  /** What `run_backtest` returns: trades, performance and the open position (all empty on empty data). */
  function Backtest(cfg: Config, rows: seq<Row>): Report
    requires ValidRows(rows) && cfg.initialCapital > 0.0
  {
    if |rows| == 0 then Report([], None, None)
    else
      var st := Final(cfg, rows);
      Report(st.trades, Some(Summarize(cfg.initialCapital, st.capital, st.trades)),
             if st.position.Some? then Some(ReportOpen(st.position.value, st.capital, rows[|rows| - 1].close)) else None)
  }

  // ---------------------------------------------------------------------
  // The loop

  /** The signal block of the loop body. */
  method BarSignal(cfg: Config, rows: seq<Row>, i: nat, st: State) returns (sig: Signal)
    requires 1 <= i < |rows|
    ensures sig == DetectSignal(cfg, rows, i, st)
  {
    var row, prev := rows[i], rows[i - 1];
    if DslDrivesSignal(cfg) {
      var aliases := Aliases(cfg);
      var entryMet := Evaluate(cfg.dsl.value.entry, row, Some(prev), aliases);
      var exitMet := if Truthy(cfg.dsl.value.exit) then Evaluate(cfg.dsl.value.exit, row, Some(prev), aliases) else false;
      var entryEdge := entryMet && !st.prevEntryMet;
      var exitEdge := exitMet && !st.prevExitMet;
      var fired := if entryEdge then Some(Long) else if exitEdge then Some(Short) else None;
      sig := Signal(fired, entryMet, exitMet, entryEdge, exitEdge);
    } else {
      var ind := Resolved(cfg);
      sig := Signal(IndicatorSignal(row, Some(prev), ind.kind, ind.params), false, false, false, false);
    }
  }

  /** The exit block of the loop body. */
  method ExitBar(cfg: Config, rows: seq<Row>, i: nat, st: State, sig: Signal) returns (r: State)
    requires 1 <= i < |rows|
    ensures r == ExitPhase(cfg, rows, i, st, sig)
  {
    r := st;
    var position, pendingExit := st.position, st.pendingExit;
    if pendingExit.Some? && i >= pendingExit.value.executeAt && position.Some? {
      var t := CloseTrade(position.value, st.capital, rows[i].close, i, pendingExit.value.stopLossHit);
      r := r.(trades := st.trades + [t]);
      r := r.(capital := if position.value.side == Long then t.exitValue else st.capital + t.pnl);
      r := r.(justExited := !pendingExit.value.stopLossHit && sig.fired.Some?);
      r := r.(position := None, pendingExit := None);
    } else if position.Some? && pendingExit.None? {
      var d := ExitDecisionAt(cfg, rows, i, position.value, sig);
      if d.shouldExit {
        if cfg.exitDelay <= 1 || d.stopLossHit {
          var t := CloseTrade(position.value, st.capital, d.price, i, d.stopLossHit);
          r := r.(trades := st.trades + [t]);
          r := r.(capital := if position.value.side == Long then t.exitValue else st.capital + t.pnl);
          r := r.(justExited := !d.stopLossHit && sig.fired.Some?);
          r := r.(position := None);
        } else {
          r := r.(pendingExit := Some(PendingExit(i + cfg.exitDelay - 1, d.stopLossHit)));
        }
      }
    }
  }

  /** The entry blocks of the loop body. */
  method EntryBar(cfg: Config, rows: seq<Row>, i: nat, st: State, sig: Signal) returns (r: State)
    requires 1 <= i < |rows| && ValidRows(rows)
    ensures r == EntryPhase(cfg, rows, i, st, sig)
  {
    r := st;
    if r.pendingEntry.Some? && i >= r.pendingEntry.value.executeAt && r.position.None? {
      r := r.(position := Some(OpenAt(cfg, rows, i, r.pendingEntry.value.side, r.capital)), pendingEntry := None);
    }
    if r.position.None? && r.pendingEntry.None? && sig.fired.Some? && Admits(cfg, sig.fired.value, r.justExited) {
      if cfg.entryDelay <= 1 {
        r := r.(position := Some(OpenAt(cfg, rows, i, sig.fired.value, r.capital)));
      } else {
        r := r.(pendingEntry := Some(PendingEntry(i + cfg.entryDelay - 1, sig.fired.value)));
      }
    }
  }

  /**
   * The engine loop. It computes exactly `Backtest`: the same trades, the
   * same performance summary and the same open position.
   */
  method RunBacktest(cfg: Config, rows: seq<Row>)
    returns (trades: seq<Trade>, performance: Option<Performance>, openPosition: Option<OpenReport>)
    requires ValidRows(rows) && cfg.initialCapital > 0.0
    ensures trades == Backtest(cfg, rows).trades
    ensures performance == Backtest(cfg, rows).performance
    ensures openPosition == Backtest(cfg, rows).openPosition
    ensures |rows| == 0 ==> trades == [] && performance.None? && openPosition.None?
  {
    if |rows| == 0 {
      return [], None, None;
    }
    var st := Init(cfg);
    var i := 1;
    while i < |rows|
      invariant 1 <= i <= |rows|
      invariant Run(cfg, rows, i, |rows|, st) == Final(cfg, rows)
    {
      ghost var before := st;
      var sig := BarSignal(cfg, rows, i, st);
      if DslDrivesSignal(cfg) {
        st := st.(prevEntryMet := sig.entryMet, prevExitMet := sig.exitMet);
      }
      assert st == Remember(cfg, before, sig);
      st := ExitBar(cfg, rows, i, st, sig);
      st := EntryBar(cfg, rows, i, st, sig);
      if sig.fired.None? {
        st := st.(justExited := false);
      }
      assert st == Step(cfg, rows, i, before);
      i := i + 1;
    }
    trades := st.trades;
    var last := rows[|rows| - 1].close;
    openPosition := if st.position.Some? then Some(ReportOpen(st.position.value, st.capital, last)) else None;
    performance := Some(Summarize(cfg.initialCapital, st.capital, st.trades));
  }
}
