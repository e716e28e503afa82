/**
 * What `run_backtest` (backtest_api/components/backtest_engine.py) promises
 * about its result and about individual bars, derived from the fold
 * `Engine.Run` and the invariant of `EngineProps`.
 */
module EngineFacts {
  import opened Common
  import opened Strategy
  import opened Dsl
  import opened Engine
  import opened EngineProps

  // ---------------------------------------------------------------------
  // The result as a whole

  /**
   * Every reported trade entered after bar 0 and closed on a later bar,
   * trades follow each other without overlap, each books shares times the
   * favourable price move, and the final capital is the initial capital
   * plus the booked profits.
   */
  lemma BacktestTradesWellFormed(cfg: Config, rows: seq<Row>)
    requires ValidRows(rows) && cfg.initialCapital > 0.0 && |rows| > 0
    ensures TradesOk(cfg, rows, Backtest(cfg, rows).trades, |rows|)
    ensures Backtest(cfg, rows).performance.Some?
    ensures Backtest(cfg, rows).performance.value.finalCapital
            == cfg.initialCapital + SumPnl(Backtest(cfg, rows).trades)
  {
    FinalConsistent(cfg, rows);
  }

  lemma {:induction false} WinsAndLosses(ts: seq<Trade>)
    ensures CountWins(ts) + CountLosses(ts) <= |ts|
    ensures CountWins(ts) == 0 || |ts| > 0
  {
    if |ts| > 0 {
      WinsAndLosses(ts[..|ts| - 1]);
    }
  }

  /** The summary of any consistent final state. */
  lemma SummaryFacts(cfg: Config, rows: seq<Row>, st: State, k: nat)
    requires cfg.initialCapital > 0.0 && Consistent(cfg, rows, st, k)
    ensures var perf := Summarize(cfg.initialCapital, st.capital, st.trades);
      perf.initialCapital == cfg.initialCapital
      && perf.totalReturn == perf.finalCapital - perf.initialCapital
      && perf.totalTrades == |st.trades|
      && perf.winningTrades + perf.losingTrades <= perf.totalTrades
      && 0.0 <= perf.winRate <= 100.0
      && (|st.trades| == 0 ==> perf.finalCapital == cfg.initialCapital && perf.winRate == 0.0 && perf.totalReturnPct == 0.0)
  {
    WinsAndLosses(st.trades);
    if |st.trades| > 0 {
      var w := CountWins(st.trades) as real;
      var n := |st.trades| as real;
      assert 0.0 <= w <= n;
      assert w / n <= 1.0;
    }
  }

  /**
   * The performance summary: the summed profit equals the change in capital,
   * wins and losses are counted among the trades, the win rate is a
   * percentage, and without trades the capital is untouched and the win rate
   * is 0.
   */
  lemma BacktestPerformance(cfg: Config, rows: seq<Row>)
    requires ValidRows(rows) && cfg.initialCapital > 0.0 && |rows| > 0
    ensures var r := Backtest(cfg, rows);
      var perf := r.performance.value;
      r.performance.Some?
      && perf.initialCapital == cfg.initialCapital
      && perf.totalReturn == perf.finalCapital - perf.initialCapital
      && perf.totalTrades == |r.trades|
      && perf.winningTrades + perf.losingTrades <= perf.totalTrades
      && 0.0 <= perf.winRate <= 100.0
      && (|r.trades| == 0 ==> perf.finalCapital == cfg.initialCapital && perf.winRate == 0.0 && perf.totalReturnPct == 0.0)
  {
    var st := Final(cfg, rows);
    FinalConsistent(cfg, rows);
    SummaryFacts(cfg, rows, st, |rows|);
  }

  /** An unknown strategy mode never enters: no trades and no open position. */
  lemma UnknownModeNeverTrades(cfg: Config, rows: seq<Row>)
    requires ValidRows(rows) && cfg.initialCapital > 0.0 && cfg.mode == UnknownMode
    ensures Backtest(cfg, rows).trades == [] && Backtest(cfg, rows).openPosition.None?
  {
    if |rows| > 0 {
      var st := Final(cfg, rows);
      FinalConsistent(cfg, rows);
      FirstTradeAllowed(cfg, rows, st.trades, |rows|);
    }
  }

  lemma FirstTradeAllowed(cfg: Config, rows: seq<Row>, ts: seq<Trade>, k: nat)
    requires TradesOk(cfg, rows, ts, k)
    ensures |ts| > 0 ==> Allowed(cfg, ts[0].side)
  {
  }

  /** Long-only backtests hold only longs, short-only only shorts, and shorts need `enable_short`. */
  lemma TradesFollowMode(cfg: Config, rows: seq<Row>, j: nat)
    requires ValidRows(rows) && cfg.initialCapital > 0.0
    requires j < |Backtest(cfg, rows).trades|
    ensures var t := Backtest(cfg, rows).trades[j];
      (cfg.mode == LongOnly ==> t.side == Long)
      && (cfg.mode == ShortOnly ==> t.side == Short)
      && (!cfg.enableShort ==> t.side == Long)
  {
    FinalConsistent(cfg, rows);
  }

  /**
   * An open position as reported: entered on an earlier bar at its close,
   * valued at `price`, with the profit it would make if closed there.
   */
  predicate UnrealisedOk(rows: seq<Row>, o: OpenReport, price: real, k: nat) {
    o.currentPrice == price
    && 1 <= o.entryIndex < k && o.entryIndex < |rows|
    && o.entryPrice == rows[o.entryIndex].close
    && o.unrealizedPnl == (if o.side == Long then o.shares * (o.currentPrice - o.entryPrice)
                           else o.shares * (o.entryPrice - o.currentPrice))
  }

  /** The report of a consistent open position. */
  lemma OpenReportFacts(cfg: Config, rows: seq<Row>, st: State, k: nat, price: real)
    requires Consistent(cfg, rows, st, k) && st.position.Some?
    ensures UnrealisedOk(rows, ReportOpen(st.position.value, st.capital, price), price, k)
  {
    PnlIsShareMove(st.position.value, st.capital, price);
  }

  /**
   * A position still open after the last bar is reported, not closed: at the
   * last close, with the profit it would have made.
   */
  lemma OpenPositionUnrealised(cfg: Config, rows: seq<Row>)
    requires ValidRows(rows) && cfg.initialCapital > 0.0
    requires Backtest(cfg, rows).openPosition.Some?
    ensures UnrealisedOk(rows, Backtest(cfg, rows).openPosition.value, rows[|rows| - 1].close, |rows|)
  {
    var st := Final(cfg, rows);
    FinalConsistent(cfg, rows);
    var last := rows[|rows| - 1].close;
    OpenReportFacts(cfg, rows, st, |rows|, last);
    assert Backtest(cfg, rows).openPosition.value == ReportOpen(st.position.value, st.capital, last);
  }
}
