/**
 * Properties of the backtest engine (backtest_api/components/backtest_engine.py),
 * stated about the fold `Engine.Run` and the result `Engine.Backtest`.
 */
module EngineProps {
  import opened Common
  import opened Strategy
  import opened Dsl
  import opened Engine

  // ---------------------------------------------------------------------
  // The state invariant

  /** The sides the configuration may ever hold: the mode's side, shorts only when enabled, none in an unknown mode. */
  predicate Allowed(cfg: Config, side: Side) {
    cfg.mode != UnknownMode
    && (cfg.mode == LongOnly ==> side == Long)
    && (cfg.mode == ShortOnly ==> side == Short)
    && (side == Short ==> cfg.enableShort)
  }

  /** A stop always lies on the losing side of the entry. */
  predicate StopBelowOrAbove(side: Side, entry: real, stop: Option<real>) {
    stop.Some? ==> (if side == Long then stop.value < entry else stop.value > entry)
  }

  /** An open position: entered on an earlier bar at its close with all the capital. */
  predicate PositionOk(cfg: Config, rows: seq<Row>, p: Position, capital: real, k: nat) {
    1 <= p.entryIndex < k && p.entryIndex < |rows|
    && p.entryPrice == rows[p.entryIndex].close
    && p.shares * p.entryPrice == capital
    && (p.stop.Some? <==> cfg.useStopLoss)
    && StopBelowOrAbove(p.side, p.entryPrice, p.stop)
    && Allowed(cfg, p.side)
  }

  /**
   * A closed trade: it exits on a later bar than it entered; its profit is
   * shares times the price move in its favour; it fills at the exit bar's
   * close, or at its stop when a saved strategy's stop was hit.
   */
  predicate TradeOk(cfg: Config, rows: seq<Row>, t: Trade, k: nat) {
    1 <= t.entryIndex < t.exitIndex < k && t.exitIndex < |rows|
    && t.entryPrice == rows[t.entryIndex].close
    && t.shares * t.entryPrice == t.entryValue
    && t.exitValue == t.shares * t.exitPrice
    && t.pnl == (if t.side == Long then t.shares * (t.exitPrice - t.entryPrice)
                 else t.shares * (t.entryPrice - t.exitPrice))
    && (t.exitPrice == rows[t.exitIndex].close || (t.stopLossHit && t.stop == Some(t.exitPrice)))
    && (t.stopLossHit ==> t.stop.Some?)
    && (t.stop.Some? <==> cfg.useStopLoss)
    && StopBelowOrAbove(t.side, t.entryPrice, t.stop)
    && Allowed(cfg, t.side)
  }

  /** Trades are well formed and do not overlap in time. */
  predicate TradesOk(cfg: Config, rows: seq<Row>, ts: seq<Trade>, k: nat) {
    (forall j :: 0 <= j < |ts| ==> TradeOk(cfg, rows, ts[j], k))
    && (forall j :: 0 < j < |ts| ==> ts[j - 1].exitIndex <= ts[j].entryIndex)
  }

  /**
   * What holds of the state once bars 1 .. k-1 have been processed, except
   * that a pending entry is only known to be due at `entryDue` or later.
   */
  predicate Invariant(cfg: Config, rows: seq<Row>, st: State, k: nat, entryDue: int) {
    && (st.pendingExit.Some? ==>
          st.position.Some? && !st.pendingExit.value.stopLossHit && st.pendingExit.value.executeAt >= k)
    && (st.pendingEntry.Some? ==>
          st.position.None? && st.pendingEntry.value.executeAt >= entryDue && Allowed(cfg, st.pendingEntry.value.side))
    && (st.position.Some? ==> PositionOk(cfg, rows, st.position.value, st.capital, k))
    && TradesOk(cfg, rows, st.trades, k)
    && (st.position.Some? && |st.trades| > 0 ==> st.trades[|st.trades| - 1].exitIndex <= st.position.value.entryIndex)
    && st.capital == cfg.initialCapital + SumPnl(st.trades)
  }

  predicate Consistent(cfg: Config, rows: seq<Row>, st: State, k: nat) {
    Invariant(cfg, rows, st, k, k)
  }

  lemma SizedWithAllCapital(capital: real, price: real)
    requires price > 0.0
    ensures (capital / price) * price == capital
  {
  }

  lemma TradesOkGrow(cfg: Config, rows: seq<Row>, ts: seq<Trade>, k: nat, k': nat)
    requires TradesOk(cfg, rows, ts, k) && k <= k'
    ensures TradesOk(cfg, rows, ts, k')
  {
  }

  /** Closing the position keeps the invariant and books exactly its profit. */
  lemma CloseKeeps(cfg: Config, rows: seq<Row>, st: State, i: nat, price: real, slh: bool, hadSignal: bool)
    requires 1 <= i < |rows| && ValidRows(rows)
    requires Invariant(cfg, rows, st, i, i) && st.position.Some?
    requires price == rows[i].close || (slh && st.position.value.stop == Some(price))
    requires slh ==> st.position.value.stop.Some?
    ensures var r := Close(st, price, i, slh, hadSignal);
      r.position.None? && r.pendingEntry == st.pendingEntry && r.pendingExit == st.pendingExit
      && TradesOk(cfg, rows, r.trades, i + 1)
      && r.capital == cfg.initialCapital + SumPnl(r.trades)
  {
    var p := st.position.value;
    var t := CloseTrade(p, st.capital, price, i, slh);
    var r := Close(st, price, i, slh, hadSignal);
    assert r.trades == st.trades + [t];
    assert r.capital == st.capital + t.pnl by {
      if p.side == Long {
        assert r.capital == t.exitValue;
        assert t.pnl == t.exitValue - st.capital;
      }
    }
    ClosedTradeOk(cfg, rows, p, st.capital, i, price, slh);
    TradesOkGrow(cfg, rows, st.trades, i, i + 1);
    if |st.trades| > 0 {
      assert st.trades[|st.trades| - 1].exitIndex <= p.entryIndex;
    }
    AppendTradeOk(cfg, rows, st.trades, t, i + 1);
    SumPnlAppend(st.trades, t);
  }

  lemma ClosedTradeOk(cfg: Config, rows: seq<Row>, p: Position, capital: real, i: nat, price: real, slh: bool)
    requires 1 <= i < |rows|
    requires PositionOk(cfg, rows, p, capital, i)
    requires price == rows[i].close || (slh && p.stop == Some(price))
    requires slh ==> p.stop.Some?
    ensures TradeOk(cfg, rows, CloseTrade(p, capital, price, i, slh), i + 1)
  {
    PnlIsShareMove(p, capital, price);
  }

  lemma AppendTradeOk(cfg: Config, rows: seq<Row>, ts: seq<Trade>, t: Trade, k: nat)
    requires TradesOk(cfg, rows, ts, k) && TradeOk(cfg, rows, t, k)
    requires |ts| > 0 ==> ts[|ts| - 1].exitIndex <= t.entryIndex
    ensures TradesOk(cfg, rows, ts + [t], k)
  {
    var r := ts + [t];
    forall j | 0 <= j < |r| ensures TradeOk(cfg, rows, r[j], k) {
      if j < |ts| { assert r[j] == ts[j]; }
    }
  }

  lemma SumPnlAppend(ts: seq<Trade>, t: Trade)
    ensures SumPnl(ts + [t]) == SumPnl(ts) + t.pnl
  {
    assert (ts + [t])[..|ts|] == ts;
  }

  /** With the position sized on all the capital, its profit is shares times the favourable price move. */
  lemma PnlIsShareMove(p: Position, capital: real, price: real)
    requires p.shares * p.entryPrice == capital
    ensures PnlAt(p, capital, price) == (if p.side == Long then p.shares * (price - p.entryPrice)
                                          else p.shares * (p.entryPrice - price))
  {
    if p.side == Long {
      calc {
        PnlAt(p, capital, price);
        p.shares * price - capital;
        p.shares * price - p.shares * p.entryPrice;
        p.shares * (price - p.entryPrice);
      }
    } else {
      calc {
        PnlAt(p, capital, price);
        p.shares * p.entryPrice - p.shares * price;
        p.shares * (p.entryPrice - price);
      }
    }
  }

  /** The exit block keeps the invariant, moving it from bar i to bar i + 1 (pending entries aside). */
  lemma ExitPhaseKeeps(cfg: Config, rows: seq<Row>, i: nat, st: State, sig: Signal)
    requires 1 <= i < |rows| && ValidRows(rows)
    requires Consistent(cfg, rows, st, i)
    ensures Invariant(cfg, rows, ExitPhase(cfg, rows, i, st, sig), i + 1, i)
  {
    if st.pendingExit.Some? && i >= st.pendingExit.value.executeAt && st.position.Some? {
      DueExitKeeps(cfg, rows, i, st, sig);
    } else if st.position.Some? && st.pendingExit.None? {
      ExitCheckKeeps(cfg, rows, i, st, sig);
    } else {
      TradesOkGrow(cfg, rows, st.trades, i, i + 1);
    }
  }

  /** A due pending exit fills at the close. */
  lemma DueExitKeeps(cfg: Config, rows: seq<Row>, i: nat, st: State, sig: Signal)
    requires 1 <= i < |rows| && ValidRows(rows)
    requires Consistent(cfg, rows, st, i)
    requires st.pendingExit.Some? && i >= st.pendingExit.value.executeAt && st.position.Some?
    ensures Invariant(cfg, rows, ExitPhase(cfg, rows, i, st, sig), i + 1, i)
  {
    CloseKeeps(cfg, rows, st, i, rows[i].close, st.pendingExit.value.stopLossHit, sig.fired.Some?);
  }

  /** The exit check closes, schedules an exit or does nothing; each keeps the invariant. */
  lemma ExitCheckKeeps(cfg: Config, rows: seq<Row>, i: nat, st: State, sig: Signal)
    requires 1 <= i < |rows| && ValidRows(rows)
    requires Consistent(cfg, rows, st, i)
    requires st.position.Some? && st.pendingExit.None?
    ensures Invariant(cfg, rows, ExitPhase(cfg, rows, i, st, sig), i + 1, i)
  {
    ExitFillPrice(cfg, rows, i, st.position.value, sig);
    ApplyExitKeeps(cfg, rows, i, st, ExitDecisionAt(cfg, rows, i, st.position.value, sig), sig.fired.Some?);
  }

  lemma ApplyExitKeeps(cfg: Config, rows: seq<Row>, i: nat, st: State, d: ExitDecision, hadSignal: bool)
    requires 1 <= i < |rows| && ValidRows(rows)
    requires Consistent(cfg, rows, st, i)
    requires st.position.Some? && st.pendingExit.None?
    requires d.price == rows[i].close || (d.stopLossHit && st.position.value.stop == Some(d.price))
    requires d.stopLossHit ==> st.position.value.stop.Some?
    ensures Invariant(cfg, rows, ApplyExit(cfg, i, st, d, hadSignal), i + 1, i)
  {
    if d.shouldExit && (cfg.exitDelay <= 1 || d.stopLossHit) {
      CloseKeeps(cfg, rows, st, i, d.price, d.stopLossHit, hadSignal);
    } else {
      TradesOkGrow(cfg, rows, st.trades, i, i + 1);
    }
  }

  /** An exit check fills at the close, or at the stop when the stop was hit. */
  lemma ExitFillPrice(cfg: Config, rows: seq<Row>, i: nat, p: Position, sig: Signal)
    requires 1 <= i < |rows|
    ensures var d := ExitDecisionAt(cfg, rows, i, p, sig);
      (d.price == rows[i].close || (d.stopLossHit && p.stop == Some(d.price)))
      && (d.stopLossHit ==> p.stop.Some?)
  {
  }

  /** Opening a position on bar i keeps the invariant at bar i + 1. */
  lemma OpenKeeps(cfg: Config, rows: seq<Row>, i: nat, st: State, side: Side)
    requires 1 <= i < |rows| && ValidRows(rows)
    requires Invariant(cfg, rows, st, i + 1, i) && st.position.None? && st.pendingExit.None?
    requires Allowed(cfg, side)
    ensures PositionOk(cfg, rows, OpenAt(cfg, rows, i, side, st.capital), st.capital, i + 1)
    ensures |st.trades| > 0 ==> st.trades[|st.trades| - 1].exitIndex <= i
  {
    var p := OpenAt(cfg, rows, i, side, st.capital);
    var price := rows[i].close;
    assert price > 0.0;
    assert p.entryPrice == price && p.shares == st.capital / price;
    SizedWithAllCapital(st.capital, price);
    assert p.shares * p.entryPrice == st.capital;
    assert StopBelowOrAbove(p.side, p.entryPrice, p.stop);
    if |st.trades| > 0 {
      assert TradeOk(cfg, rows, st.trades[|st.trades| - 1], i + 1);
    }
  }

  lemma {:induction false} EntryPhaseKeeps(cfg: Config, rows: seq<Row>, i: nat, st: State, sig: Signal)
    requires 1 <= i < |rows| && ValidRows(rows)
    requires Invariant(cfg, rows, st, i + 1, i)
    ensures Consistent(cfg, rows, EntryPhase(cfg, rows, i, st, sig), i + 1)
  {
    var st1 :=
      if st.pendingEntry.Some? && i >= st.pendingEntry.value.executeAt && st.position.None? then
        st.(position := Some(OpenAt(cfg, rows, i, st.pendingEntry.value.side, st.capital)), pendingEntry := None)
      else st;
    if st.pendingEntry.Some? && i >= st.pendingEntry.value.executeAt && st.position.None? {
      OpenKeeps(cfg, rows, i, st, st.pendingEntry.value.side);
    }
    assert Consistent(cfg, rows, st1, i + 1);
    if st1.position.None? && st1.pendingEntry.None? && sig.fired.Some? && Admits(cfg, sig.fired.value, st1.justExited) {
      assert Allowed(cfg, sig.fired.value);
      if cfg.entryDelay <= 1 {
        OpenKeeps(cfg, rows, i, st1, sig.fired.value);
      }
    }
  }

  lemma StepKeeps(cfg: Config, rows: seq<Row>, i: nat, st: State)
    requires 1 <= i < |rows| && ValidRows(rows)
    requires Consistent(cfg, rows, st, i)
    ensures Consistent(cfg, rows, Step(cfg, rows, i, st), i + 1)
  {
    PhasesKeep(cfg, rows, i, st, DetectSignal(cfg, rows, i, st));
  }

  /** The four blocks of the loop body, run in order for any signal, keep the invariant. */
  lemma PhasesKeep(cfg: Config, rows: seq<Row>, i: nat, st: State, sig: Signal)
    requires 1 <= i < |rows| && ValidRows(rows)
    requires Consistent(cfg, rows, st, i)
    ensures Consistent(cfg, rows, Settle(EntryPhase(cfg, rows, i, ExitPhase(cfg, rows, i, Remember(cfg, st, sig), sig), sig), sig), i + 1)
  {
    var st0 := Remember(cfg, st, sig);
    RememberKeeps(cfg, rows, i, st, sig);
    var st1 := ExitPhase(cfg, rows, i, st0, sig);
    ExitPhaseKeeps(cfg, rows, i, st0, sig);
    var st2 := EntryPhase(cfg, rows, i, st1, sig);
    EntryPhaseKeeps(cfg, rows, i, st1, sig);
    SettleKeeps(cfg, rows, i + 1, st2, sig);
  }

  lemma RememberKeeps(cfg: Config, rows: seq<Row>, i: nat, st: State, sig: Signal)
    requires Consistent(cfg, rows, st, i)
    ensures Consistent(cfg, rows, Remember(cfg, st, sig), i)
  {
    FlagsIrrelevant(cfg, rows, st, Remember(cfg, st, sig), i, i);
  }

  lemma SettleKeeps(cfg: Config, rows: seq<Row>, k: nat, st: State, sig: Signal)
    requires Consistent(cfg, rows, st, k)
    ensures Consistent(cfg, rows, Settle(st, sig), k)
  {
    FlagsIrrelevant(cfg, rows, st, Settle(st, sig), k, k);
  }

  lemma FlagsIrrelevant(cfg: Config, rows: seq<Row>, st: State, st': State, k: nat, due: int)
    requires Invariant(cfg, rows, st, k, due)
    requires st'.capital == st.capital && st'.position == st.position && st'.trades == st.trades
    requires st'.pendingEntry == st.pendingEntry && st'.pendingExit == st.pendingExit
    ensures Invariant(cfg, rows, st', k, due)
  {
  }

  /** Running any number of bars keeps the invariant. */
  lemma {:induction false} RunKeeps(cfg: Config, rows: seq<Row>, k: nat, n: nat, st: State)
    requires 1 <= k <= n <= |rows| && ValidRows(rows)
    requires Consistent(cfg, rows, st, k)
    ensures Consistent(cfg, rows, Run(cfg, rows, k, n, st), n)
    decreases n - k
  {
    if k < n {
      StepKeeps(cfg, rows, k, st);
      RunKeeps(cfg, rows, k + 1, n, Step(cfg, rows, k, st));
    }
  }

  /** The invariant holds of the state after the loop. */
  lemma FinalConsistent(cfg: Config, rows: seq<Row>)
    requires |rows| > 0 && ValidRows(rows)
    ensures Consistent(cfg, rows, Final(cfg, rows), |rows|)
  {
    RunKeeps(cfg, rows, 1, |rows|, Init(cfg));
  }
}
