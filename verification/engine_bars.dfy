/**
 * Bar-level rules of `run_backtest` (backtest_api/components/backtest_engine.py):
 * stop-loss exits, delayed exits and entries, the strategy modes and the
 * edge-triggered signals of saved strategies.
 */
module EngineBars {
  import opened Common
  import opened Strategy
  import opened Dsl
  import opened Engine
  import opened EngineProps

  // ---------------------------------------------------------------------
  // Exits

  /**
   * A stop-loss hit closes the position on the same bar whatever the exit
   * delay: a saved strategy fills at the stop, an indicator strategy at the
   * bar's close.
   */
  lemma StopLossExitImmediate(cfg: Config, rows: seq<Row>, i: nat, st: State, sig: Signal)
    requires 1 <= i < |rows|
    requires st.position.Some? && st.pendingExit.None?
    requires ExitDecisionAt(cfg, rows, i, st.position.value, sig).stopLossHit
    ensures var p := st.position.value;
      var price := if UsesDsl(cfg) then p.stop.value else rows[i].close;
      p.stop.Some?
      && ExitPhase(cfg, rows, i, st, sig) == Close(st, price, i, true, sig.fired.Some?)
  {
  }

  /**
   * Any other exit with a delay d > 1 is not taken now: it is scheduled for
   * bar i + d - 1 and nothing else changes.
   */
  lemma DelayedExitScheduled(cfg: Config, rows: seq<Row>, i: nat, st: State, sig: Signal)
    requires 1 <= i < |rows|
    requires st.position.Some? && st.pendingExit.None? && cfg.exitDelay > 1
    requires ExitDecisionAt(cfg, rows, i, st.position.value, sig).shouldExit
    requires !ExitDecisionAt(cfg, rows, i, st.position.value, sig).stopLossHit
    ensures ExitPhase(cfg, rows, i, st, sig) == st.(pendingExit := Some(PendingExit(i + cfg.exitDelay - 1, false)))
  {
  }

  /** While an exit waits, the bar changes neither the position, nor the trades, nor the capital. */
  lemma PendingExitWaits(cfg: Config, rows: seq<Row>, i: nat, st: State)
    requires 1 <= i < |rows| && ValidRows(rows)
    requires st.position.Some? && st.pendingEntry.None?
    requires st.pendingExit.Some? && i < st.pendingExit.value.executeAt
    ensures var r := Step(cfg, rows, i, st);
      r.position == st.position && r.pendingExit == st.pendingExit && r.pendingEntry.None?
      && r.trades == st.trades && r.capital == st.capital
  {
    var sig := DetectSignal(cfg, rows, i, st);
    var st0 := Remember(cfg, st, sig);
    ExitPhaseUntouched(cfg, rows, i, st0, sig);
    EntryPhaseUntouched(cfg, rows, i, st0, sig);
  }

  /** On its bar a pending exit fills at the close, whatever the signals say. */
  lemma PendingExitDue(cfg: Config, rows: seq<Row>, i: nat, st: State)
    requires 1 <= i < |rows| && ValidRows(rows)
    requires st.position.Some?
    requires st.pendingExit.Some? && i >= st.pendingExit.value.executeAt
    ensures var r := Step(cfg, rows, i, st);
      r.pendingExit.None?
      && r.trades == st.trades + [CloseTrade(st.position.value, st.capital, rows[i].close, i, st.pendingExit.value.stopLossHit)]
  {
    var sig := DetectSignal(cfg, rows, i, st);
    var st0 := Remember(cfg, st, sig);
    DueExitCloses(cfg, rows, i, st0, sig);
    EntryPhaseKeepsTrades(cfg, rows, i, ExitPhase(cfg, rows, i, st0, sig), sig);
  }

  /** The exit block leaves the state alone when flat or while an exit waits. */
  lemma ExitPhaseUntouched(cfg: Config, rows: seq<Row>, i: nat, st: State, sig: Signal)
    requires 1 <= i < |rows|
    requires st.position.None? || (st.pendingExit.Some? && i < st.pendingExit.value.executeAt)
    ensures ExitPhase(cfg, rows, i, st, sig) == st
  {
  }

  /** The entry block leaves the state alone while a position is open or an entry waits. */
  lemma EntryPhaseUntouched(cfg: Config, rows: seq<Row>, i: nat, st: State, sig: Signal)
    requires 1 <= i < |rows| && ValidRows(rows)
    requires (st.position.Some? && st.pendingEntry.None?)
             || (st.pendingEntry.Some? && i < st.pendingEntry.value.executeAt)
    ensures EntryPhase(cfg, rows, i, st, sig) == st
  {
  }

  /** The entry block never books a trade or changes the capital. */
  lemma EntryPhaseKeepsTrades(cfg: Config, rows: seq<Row>, i: nat, st: State, sig: Signal)
    requires 1 <= i < |rows| && ValidRows(rows)
    ensures var r := EntryPhase(cfg, rows, i, st, sig);
      r.trades == st.trades && r.capital == st.capital && r.pendingExit == st.pendingExit
  {
  }

  lemma DueExitCloses(cfg: Config, rows: seq<Row>, i: nat, st: State, sig: Signal)
    requires 1 <= i < |rows|
    requires st.position.Some? && st.pendingExit.Some? && i >= st.pendingExit.value.executeAt
    ensures var r := ExitPhase(cfg, rows, i, st, sig);
      r.pendingExit.None?
      && r.trades == st.trades + [CloseTrade(st.position.value, st.capital, rows[i].close, i, st.pendingExit.value.stopLossHit)]
  {
  }

  /**
   * An exit scheduled for bar t is filled on bar t at that bar's close, with
   * the position and capital it was scheduled with; in every state the loop
   * reaches, a scheduled exit was not a stop-loss (see `Consistent`).
   */
  lemma {:induction false} PendingExitFills(cfg: Config, rows: seq<Row>, k: nat, st: State)
    requires 1 <= k && ValidRows(rows)
    requires st.position.Some? && st.pendingEntry.None? && st.pendingExit.Some?
    requires k <= st.pendingExit.value.executeAt < |rows|
    ensures var t := st.pendingExit.value.executeAt;
      Run(cfg, rows, k, t + 1, st).trades
      == st.trades + [CloseTrade(st.position.value, st.capital, rows[t].close, t, st.pendingExit.value.stopLossHit)]
    decreases |rows| - k
  {
    var t := st.pendingExit.value.executeAt;
    var next := Step(cfg, rows, k, st);
    assert Run(cfg, rows, k, t + 1, st) == Run(cfg, rows, k + 1, t + 1, next);
    if k == t {
      PendingExitDue(cfg, rows, k, st);
    } else {
      PendingExitWaits(cfg, rows, k, st);
      PendingExitFills(cfg, rows, k + 1, next);
    }
  }

  // ---------------------------------------------------------------------
  // Entries

  /** While an entry waits, the engine stays flat and keeps the entry pending. */
  lemma PendingEntryWaits(cfg: Config, rows: seq<Row>, i: nat, st: State)
    requires 1 <= i < |rows| && ValidRows(rows)
    requires st.position.None?
    requires st.pendingEntry.Some? && i < st.pendingEntry.value.executeAt
    ensures var r := Step(cfg, rows, i, st);
      r.position.None? && r.pendingEntry == st.pendingEntry && r.capital == st.capital
      && r.pendingExit == st.pendingExit
  {
    var sig := DetectSignal(cfg, rows, i, st);
    var st0 := Remember(cfg, st, sig);
    ExitPhaseUntouched(cfg, rows, i, st0, sig);
    EntryPhaseUntouched(cfg, rows, i, st0, sig);
  }

  /** On its bar a pending entry opens, at that bar's close and with all the capital. */
  lemma PendingEntryDue(cfg: Config, rows: seq<Row>, i: nat, st: State)
    requires 1 <= i < |rows| && ValidRows(rows)
    requires st.position.None?
    requires st.pendingEntry.Some? && i >= st.pendingEntry.value.executeAt
    ensures var r := Step(cfg, rows, i, st);
      r.pendingEntry.None? && Entered(rows, r, i, st.pendingEntry.value.side, st.capital)
  {
    DueEntryPhases(cfg, rows, i, st, DetectSignal(cfg, rows, i, st));
  }

  lemma DueEntryPhases(cfg: Config, rows: seq<Row>, i: nat, st: State, sig: Signal)
    requires 1 <= i < |rows| && ValidRows(rows)
    requires st.position.None?
    requires st.pendingEntry.Some? && i >= st.pendingEntry.value.executeAt
    ensures var r := Settle(EntryPhase(cfg, rows, i, ExitPhase(cfg, rows, i, Remember(cfg, st, sig), sig), sig), sig);
      r.pendingEntry.None? && Entered(rows, r, i, st.pendingEntry.value.side, st.capital)
  {
    var st0 := Remember(cfg, st, sig);
    RememberKeepsEntry(cfg, st, sig);
    ExitPhaseUntouched(cfg, rows, i, st0, sig);
    DueEntryOpens(cfg, rows, i, st0, sig);
    SettleKeepsEntry(EntryPhase(cfg, rows, i, st0, sig), sig);
  }

  lemma RememberKeepsEntry(cfg: Config, st: State, sig: Signal)
    ensures var r := Remember(cfg, st, sig);
      r.position == st.position && r.pendingEntry == st.pendingEntry && r.capital == st.capital
      && r.justExited == st.justExited
  {
  }

  lemma SettleKeepsEntry(st: State, sig: Signal)
    ensures Settle(st, sig).position == st.position && Settle(st, sig).pendingEntry == st.pendingEntry
  {
  }

  lemma DueEntryOpens(cfg: Config, rows: seq<Row>, i: nat, st: State, sig: Signal)
    requires 1 <= i < |rows| && ValidRows(rows)
    requires st.position.None? && st.pendingEntry.Some? && i >= st.pendingEntry.value.executeAt
    ensures var r := EntryPhase(cfg, rows, i, st, sig);
      r.pendingEntry.None? && r.justExited == st.justExited && Entered(rows, r, i, st.pendingEntry.value.side, st.capital)
  {
    SizedWithAllCapital(st.capital, rows[i].close);
  }

  /** An entry scheduled for bar t opens on bar t, on the side that was signalled. */
  lemma {:induction false} PendingEntryFills(cfg: Config, rows: seq<Row>, k: nat, st: State)
    requires 1 <= k && ValidRows(rows)
    requires st.position.None? && st.pendingEntry.Some?
    requires k <= st.pendingEntry.value.executeAt < |rows|
    ensures Entered(rows, Run(cfg, rows, k, st.pendingEntry.value.executeAt + 1, st),
                    st.pendingEntry.value.executeAt, st.pendingEntry.value.side, st.capital)
    decreases |rows| - k
  {
    var t := st.pendingEntry.value.executeAt;
    var next := Step(cfg, rows, k, st);
    assert Run(cfg, rows, k, t + 1, st) == Run(cfg, rows, k + 1, t + 1, next);
    if k == t {
      PendingEntryDue(cfg, rows, k, st);
    } else {
      PendingEntryWaits(cfg, rows, k, st);
      PendingEntryFills(cfg, rows, k + 1, next);
    }
  }

  /**
   * Flat, nothing pending, and the bar signals `side`: when the mode admits
   * the signal, the entry block opens at this bar's close with all of the
   * capital (delay at most 1) or schedules the entry for bar i + delay - 1;
   * when it does not, the state is left alone.
   */
  lemma FlatSignalEntry(cfg: Config, rows: seq<Row>, i: nat, st: State, sig: Signal, side: Side)
    requires 1 <= i < |rows| && ValidRows(rows)
    requires st.position.None? && st.pendingEntry.None? && sig.fired == Some(side)
    ensures EntryPhase(cfg, rows, i, st, sig) ==
      (if !Admits(cfg, side, st.justExited) then st
       else if cfg.entryDelay <= 1 then st.(position := Some(OpenAt(cfg, rows, i, side, st.capital)))
       else st.(pendingEntry := Some(PendingEntry(i + cfg.entryDelay - 1, side))))
    ensures Admits(cfg, side, st.justExited) && cfg.entryDelay <= 1 ==>
      Entered(rows, EntryPhase(cfg, rows, i, st, sig), i, side, st.capital)
  {
    SizedWithAllCapital(st.capital, rows[i].close);
  }

  /** Which signals each strategy mode lets in; a short one only when shorting is enabled. */
  lemma ModeGate(cfg: Config, side: Side, justExited: bool)
    ensures cfg.mode == Reversal ==> (Admits(cfg, side, justExited) <==> side == Long || cfg.enableShort)
    ensures cfg.mode == WaitForNext ==>
      (Admits(cfg, side, justExited) <==> !justExited && (side == Long || cfg.enableShort))
    ensures cfg.mode == LongOnly ==> (Admits(cfg, side, justExited) <==> side == Long)
    ensures cfg.mode == ShortOnly ==> (Admits(cfg, side, justExited) <==> side == Short && cfg.enableShort)
    ensures cfg.mode == UnknownMode ==> !Admits(cfg, side, justExited)
  {
  }

  /**
   * A signal admitted on bar i while flat with nothing pending, with an
   * entry delay d > 1, opens the position on bar i + d - 1 at that bar's
   * close with all of the capital held on bar i.
   */
  lemma ScheduledEntryFills(cfg: Config, rows: seq<Row>, i: nat, st: State, side: Side)
    requires 1 <= i && ValidRows(rows) && cfg.entryDelay > 1 && i + cfg.entryDelay - 1 < |rows|
    requires st.position.None? && st.pendingEntry.None?
    requires DetectSignal(cfg, rows, i, st).fired == Some(side) && Admits(cfg, side, st.justExited)
    ensures Entered(rows, Run(cfg, rows, i, i + cfg.entryDelay, st), i + cfg.entryDelay - 1, side, st.capital)
  {
    var sig := DetectSignal(cfg, rows, i, st);
    var st0 := Remember(cfg, st, sig);
    RememberKeepsEntry(cfg, st, sig);
    ExitPhaseUntouched(cfg, rows, i, st0, sig);
    FlatSignalEntry(cfg, rows, i, st0, sig, side);
    SettleKeepsEntry(EntryPhase(cfg, rows, i, st0, sig), sig);
    var next := Step(cfg, rows, i, st);
    assert next.pendingEntry == Some(PendingEntry(i + cfg.entryDelay - 1, side));
    assert Run(cfg, rows, i, i + cfg.entryDelay, st) == Run(cfg, rows, i + 1, i + cfg.entryDelay, next);
    PendingEntryFills(cfg, rows, i + 1, next);
  }

  /** `s` holds a position opened on bar t on `side`, at that bar's close, with all of `capital`. */
  predicate Entered(rows: seq<Row>, s: State, t: nat, side: Side, capital: real) {
    s.position.Some? && t < |rows|
    && var p := s.position.value;
    p.entryIndex == t && p.side == side && p.entryPrice == rows[t].close
    && p.shares * p.entryPrice == capital
  }

  // ---------------------------------------------------------------------
  // Strategy modes

  /** For an indicator strategy the exit check sees the bar's own signal. */
  lemma IndicatorExitOnOpposite(cfg: Config, rows: seq<Row>, i: nat, st: State, p: Position)
    requires 1 <= i < |rows| && !UsesDsl(cfg)
    requires DetectSignal(cfg, rows, i, st).fired == Some(Opposite(p.side))
    ensures ExitDecisionAt(cfg, rows, i, p, DetectSignal(cfg, rows, i, st)).shouldExit
  {
  }

  /** Closing on bar i and then, on the same bar, opening the other side. */
  predicate Reversed(rows: seq<Row>, st: State, r: State, i: nat, side: Side) {
    |r.trades| == |st.trades| + 1 && r.trades[..|st.trades|] == st.trades
    && r.trades[|st.trades|].exitIndex == i
    && r.position.Some? && r.position.value.entryIndex == i && r.position.value.side == side
  }

  /**
   * Reversal mode, indicator strategy, no delays: an opposite signal closes
   * the open position and opens the other side on the same bar, because the
   * entry block runs after the exit block has cleared the position.
   */
  lemma ReversalReentersSameBar(cfg: Config, rows: seq<Row>, i: nat, st: State)
    requires 1 <= i < |rows| && ValidRows(rows)
    requires !UsesDsl(cfg) && cfg.mode == Reversal && cfg.exitDelay <= 1 && cfg.entryDelay <= 1
    requires st.position.Some? && st.pendingExit.None? && st.pendingEntry.None?
    requires DetectSignal(cfg, rows, i, st).fired == Some(Opposite(st.position.value.side))
    requires Opposite(st.position.value.side) == Short ==> cfg.enableShort
    ensures Reversed(rows, st, Step(cfg, rows, i, st), i, Opposite(st.position.value.side))
  {
    var sig := DetectSignal(cfg, rows, i, st);
    var p := st.position.value;
    IndicatorExitOnOpposite(cfg, rows, i, st, p);
    var d := ExitDecisionAt(cfg, rows, i, p, sig);
    var st1 := ExitPhase(cfg, rows, i, st, sig);
    assert st1 == Close(st, d.price, i, d.stopLossHit, true);
    assert st1.trades[..|st.trades|] == st.trades;
    var st2 := EntryPhase(cfg, rows, i, st1, sig);
    assert st2 == st1.(position := Some(OpenAt(cfg, rows, i, Opposite(p.side), st1.capital)));
  }

  /**
   * Wait-for-next mode: after leaving on a signal (not a stop) the engine
   * does not enter on that same signal; it stays flat with nothing pending,
   * and remembers that it just exited.
   */
  lemma WaitForNextSkipsSameBar(cfg: Config, rows: seq<Row>, i: nat, st: State)
    requires 1 <= i < |rows| && ValidRows(rows)
    requires cfg.mode == WaitForNext && cfg.exitDelay <= 1
    requires st.position.Some? && st.pendingExit.None? && st.pendingEntry.None?
    requires DetectSignal(cfg, rows, i, st).fired.Some?
    requires var sig := DetectSignal(cfg, rows, i, st);
      var d := ExitDecisionAt(cfg, rows, i, st.position.value, sig);
      d.shouldExit && !d.stopLossHit
    ensures var r := Step(cfg, rows, i, st);
      r.position.None? && r.pendingEntry.None? && r.justExited && |r.trades| == |st.trades| + 1
  {
  }

  /** A bar without a signal clears the just-exited flag, so the next signal is taken again. */
  lemma QuietBarClearsJustExited(cfg: Config, rows: seq<Row>, i: nat, st: State)
    requires 1 <= i < |rows| && ValidRows(rows)
    requires DetectSignal(cfg, rows, i, st).fired.None?
    ensures !Step(cfg, rows, i, st).justExited
  {
  }

  // ---------------------------------------------------------------------
  // Saved strategies: edge-triggered signals

  function EntryMet(cfg: Config, rows: seq<Row>, i: nat): bool
    requires 1 <= i < |rows| && UsesDsl(cfg)
  {
    Evaluate(cfg.dsl.value.entry, rows[i], Some(rows[i - 1]), Aliases(cfg))
  }

  function ExitMet(cfg: Config, rows: seq<Row>, i: nat): bool
    requires 1 <= i < |rows| && UsesDsl(cfg)
  {
    Truthy(cfg.dsl.value.exit) && Evaluate(cfg.dsl.value.exit, rows[i], Some(rows[i - 1]), Aliases(cfg))
  }

  /**
   * With an entry condition, a Long fires exactly when the entry condition
   * turns true, and a Short exactly when it does not but the exit condition
   * turns true.
   */
  lemma DslSignalIsEdge(cfg: Config, rows: seq<Row>, i: nat, st: State)
    requires 1 <= i < |rows| && DslDrivesSignal(cfg)
    ensures var s := DetectSignal(cfg, rows, i, st);
      var up := EntryMet(cfg, rows, i) && !st.prevEntryMet;
      (s.fired == Some(Long) <==> up)
      && (s.fired == Some(Short) <==> !up && ExitMet(cfg, rows, i) && !st.prevExitMet)
  {
  }

  /** After bar i the loop remembers whether each condition held on bar i. */
  lemma DslFlagsRecordBar(cfg: Config, rows: seq<Row>, i: nat, st: State)
    requires 1 <= i < |rows| && ValidRows(rows) && DslDrivesSignal(cfg)
    ensures Step(cfg, rows, i, st).prevEntryMet == EntryMet(cfg, rows, i)
    ensures Step(cfg, rows, i, st).prevExitMet == ExitMet(cfg, rows, i)
  {
    var sig := DetectSignal(cfg, rows, i, st);
    PhasesKeepFlags(cfg, rows, i, Remember(cfg, st, sig), sig);
  }

  lemma PhasesKeepFlags(cfg: Config, rows: seq<Row>, i: nat, st: State, sig: Signal)
    requires 1 <= i < |rows| && ValidRows(rows)
    ensures var r := Settle(EntryPhase(cfg, rows, i, ExitPhase(cfg, rows, i, st, sig), sig), sig);
      r.prevEntryMet == st.prevEntryMet && r.prevExitMet == st.prevExitMet
  {
    var st1 := ExitPhase(cfg, rows, i, st, sig);
    ExitPhaseKeepsFlags(cfg, rows, i, st, sig);
    EntryPhaseKeepsFlags(cfg, rows, i, st1, sig);
  }

  lemma ExitPhaseKeepsFlags(cfg: Config, rows: seq<Row>, i: nat, st: State, sig: Signal)
    requires 1 <= i < |rows|
    ensures var r := ExitPhase(cfg, rows, i, st, sig);
      r.prevEntryMet == st.prevEntryMet && r.prevExitMet == st.prevExitMet
  {
  }

  lemma EntryPhaseKeepsFlags(cfg: Config, rows: seq<Row>, i: nat, st: State, sig: Signal)
    requires 1 <= i < |rows| && ValidRows(rows)
    ensures var r := EntryPhase(cfg, rows, i, st, sig);
      r.prevEntryMet == st.prevEntryMet && r.prevExitMet == st.prevExitMet
  {
  }

  /** An entry condition that stays true fires once: not again on the following bar. */
  lemma PersistentEntryFiresOnce(cfg: Config, rows: seq<Row>, i: nat, st: State)
    requires 1 <= i && i + 1 < |rows| && ValidRows(rows) && DslDrivesSignal(cfg)
    requires EntryMet(cfg, rows, i)
    ensures DetectSignal(cfg, rows, i + 1, Step(cfg, rows, i, st)).fired != Some(Long)
  {
    DslFlagsRecordBar(cfg, rows, i, st);
    DslSignalIsEdge(cfg, rows, i + 1, Step(cfg, rows, i, st));
  }

  /**
   * Both remembered flags start false, so an entry condition that already
   * holds on bar 1 counts as a fresh transition and fires a Long there.
   */
  lemma DslFirstBarFires(cfg: Config, rows: seq<Row>)
    requires 2 <= |rows| && DslDrivesSignal(cfg) && EntryMet(cfg, rows, 1)
    ensures DetectSignal(cfg, rows, 1, Init(cfg)).fired == Some(Long)
  {
  }

  /**
   * An entry condition that compares an alias declared as "z-score" never
   * holds: the alias has no column, so it reads as NaN, and the strategy
   * never goes long on its own entry condition.
   */
  lemma DashedZScoreNeverEnters(cfg: Config, rows: seq<Row>, i: nat, st: State, op: Option<string>, a: string, right: Operand)
    requires 1 <= i < |rows| && DslDrivesSignal(cfg)
    requires cfg.dsl.value.entry == Compare(op, Name(a), right)
    requires a in cfg.dsl.value.indicators && cfg.dsl.value.indicators[a].typeName == Some("z-score")
    requires !IsPriceKeyword(ToLower(a))
    ensures !EntryMet(cfg, rows, i)
    ensures DetectSignal(cfg, rows, i, st).fired == if ExitMet(cfg, rows, i) && !st.prevExitMet then Some(Short) else None
  {
    DashedZScoreIsDropped(cfg.dsl.value.indicators, a);
  }

  // ---------------------------------------------------------------------
  // No look-ahead

  /** Bar i of the loop reads no candle after bar i. */
  lemma StepIgnoresFuture(cfg: Config, rows: seq<Row>, rows': seq<Row>, i: nat, st: State)
    requires 1 <= i < |rows| && i < |rows'| && ValidRows(rows) && ValidRows(rows')
    requires forall j :: 0 <= j <= i ==> rows[j] == rows'[j]
    ensures Step(cfg, rows, i, st) == Step(cfg, rows', i, st)
  {
    SupportResistanceIgnoresFuture(rows, rows', i, 50);
    var sig := DetectSignal(cfg, rows, i, st);
    assert DetectSignal(cfg, rows', i, st) == sig;
    var st0 := Remember(cfg, st, sig);
    ExitPhaseIgnoresFuture(cfg, rows, rows', i, st0, sig);
    EntryPhaseIgnoresFuture(cfg, rows, rows', i, ExitPhase(cfg, rows, i, st0, sig), sig);
  }

  lemma ExitPhaseIgnoresFuture(cfg: Config, rows: seq<Row>, rows': seq<Row>, i: nat, st: State, sig: Signal)
    requires 1 <= i < |rows| && i < |rows'|
    requires rows[i] == rows'[i] && rows[i - 1] == rows'[i - 1]
    ensures ExitPhase(cfg, rows, i, st, sig) == ExitPhase(cfg, rows', i, st, sig)
  {
    if st.position.Some? {
      assert ExitDecisionAt(cfg, rows, i, st.position.value, sig) == ExitDecisionAt(cfg, rows', i, st.position.value, sig);
    }
  }

  lemma EntryPhaseIgnoresFuture(cfg: Config, rows: seq<Row>, rows': seq<Row>, i: nat, st: State, sig: Signal)
    requires 1 <= i < |rows| && i < |rows'| && ValidRows(rows) && ValidRows(rows')
    requires rows[i] == rows'[i] && SupportResistance(rows, i, 50) == SupportResistance(rows', i, 50)
    ensures EntryPhase(cfg, rows, i, st, sig) == EntryPhase(cfg, rows', i, st, sig)
  {
    if st.pendingEntry.Some? && i >= st.pendingEntry.value.executeAt && st.position.None? {
      OpenAtIgnoresFuture(cfg, rows, rows', i, st.pendingEntry.value.side, st.capital);
    } else if st.position.None? && st.pendingEntry.None? && sig.fired.Some? && cfg.entryDelay <= 1 {
      OpenAtIgnoresFuture(cfg, rows, rows', i, sig.fired.value, st.capital);
    }
  }

  lemma OpenAtIgnoresFuture(cfg: Config, rows: seq<Row>, rows': seq<Row>, i: nat, side: Side, capital: real)
    requires i < |rows| && i < |rows'| && ValidRows(rows) && ValidRows(rows')
    requires rows[i] == rows'[i] && SupportResistance(rows, i, 50) == SupportResistance(rows', i, 50)
    ensures OpenAt(cfg, rows, i, side, capital) == OpenAt(cfg, rows', i, side, capital)
  {
  }

  lemma SupportResistanceIgnoresFuture(rows: seq<Row>, rows': seq<Row>, i: nat, lookback: int)
    requires i < |rows| && i < |rows'| && forall j :: 0 <= j <= i ==> rows[j] == rows'[j]
    ensures SupportResistance(rows, i, lookback) == SupportResistance(rows', i, lookback)
  {
    var lo := if i < lookback then 0 else i - lookback;
    if i > 0 && lookback > 0 {
      assert Lows(rows, lo, i) == Lows(rows', lo, i);
      assert Highs(rows, lo, i) == Highs(rows', lo, i);
    }
  }
}
