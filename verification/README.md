# A verified model of the alphslabs backtesting core

This project models the trading core of the alphslabs backtesting service in Dafny. It covers:

- the bar-by-bar backtest engine and its saved-strategy conditions (the "DSL");
- the entry and exit signals of the indicator strategies, support and resistance, and stop-loss placement;
- the indicator series and the summary metrics;
- the signal, position and return series of the parameter optimisers;
- the older single-file backtester;
- the request normalisation, optimisation grid and equity segments of the HTTP routes;
- the market-data cache and the request parameters of the data fetcher.

Modules:

- `Common`: candles (`Row`) with typed indicator columns, sides, strategy modes and small sequence helpers.
- `Indicators`: moving average, EMA, DEMA, RSI, CCI, rolling median and rolling percentile, as functions of the closes.
- `Strategy`: support and resistance, crossover and zone signals, the dispatcher, stop loss, and the exit checks.
- `Dsl`: operand resolution, condition evaluation and the alias-to-column table of saved strategies. The engine reads the alias table as the source builds it (`DslColumnsAsWritten`); the corrected table `DslColumns` is stated beside it (see Findings).
- `Engine`: the engine as a specification, then the imperative loop proved equal to it.
  - The specification `Step` runs one bar: remember the condition flags, the exit block, the entry block, then clear the just-exited flag. `Run` folds `Step` over the bars and `Backtest` builds the report.
  - The method `RunBacktest` is the loop; `BarSignal`, `ExitBar` and `EntryBar` are its blocks.
- `EngineProps`: the invariant every loop state keeps. It says:
  - trades do not overlap;
  - each trade books shares times its favourable move;
  - the capital is the initial capital plus the booked profits;
  - pending orders are consistent with the position.
- `EngineFacts`: what a finished backtest promises (trades, performance summary, open position).
- `EngineBars`: bar-level rules: stop-loss exits, delayed exits and entries, reversal and wait-for-next modes, DSL edges, and no look-ahead on one bar.
- `Metrics`: Sharpe ratio, maximum drawdown, win rate and total return.
- `Optimization`: the crossover and threshold signal columns, held positions, strategy returns, the rows `dropna` keeps, and the trade counts of the indicator optimiser (`TradeCount`) and the crossover optimiser (`CrossTradeCount`).
- `Legacy`: the older `run_backtest` of `backtest_api.py`. It is built from the same blocks as `Engine`, with no delays and stops always placed. It is proved equal to the component engine for crossover strategies.
- `Routes`: the normalisation of a backtest request, the EMA optimisation grid, and the in-sample / out-of-sample segments.
- `DataFetcher`: the time-limited, size-limited cache as a class over two maps, the history period ladder, and the interval table.
- `Arith`: real-number lemmas used by the proofs.

Prices and indicator values are real numbers. A value that pandas holds as NaN is `None`. The clock of the cache is a parameter. The engine takes candles that already carry their indicator columns; the indicator recurrences are modelled separately in `Indicators`.

## Model

| member | source | states |
|---|---|---|
| Strategy.Lookup | backtest_api/components/strategy.py:88-90 | A parameter is read from its first key, else its second key, else the default. |
| Common.ParseMode | backtest_api/components/backtest_engine.py:605-620 | A name other than the four mode names is an unknown mode; `long_only` and `short_only` are recognised exactly. |
| Strategy.SupportResistance | backtest_api/components/strategy.py:10-29 | There is a level exactly when the bar index and the lookback are both positive. |
| Strategy.SupportResistanceWindow | backtest_api/components/strategy.py:15-27 | Support is the lowest low and resistance the highest high of bars idx-lookback (or 0) to idx. Each bounds every bar of the window and is attained by one of them. |
| Strategy.Crossover | backtest_api/components/strategy.py:74-81 | Long iff fast was at or below slow and is now above. Short iff fast was at or above and is now below. |
| Strategy.ZoneSignal | backtest_api/components/strategy.py:95-103 | Long iff the value is at or below oversold. Short iff it is above oversold and at or above overbought. |
| Strategy.IndicatorSignal | backtest_api/components/strategy.py:149-181 | No signal without a previous bar or for an unknown type. With a previous bar each of EMA, MA, RSI, CCI and Z-score gives its own family's signal, whose iffs the `*Signal` functions state. |
| Strategy.MaSignal | backtest_api/components/strategy.py:31-55 | Long iff the fast MA column (period `fast`, default 12; NaN reading as 0) was at or below the slow one (`slow`, default 26) and is now above it. Short iff it was at or above and is now below. |
| Strategy.EmaSignal | backtest_api/components/strategy.py:57-81 | Long iff the fast EMA column (period `fast`, default 12; NaN reading as 0) was at or below the slow one (`slow`, default 26) and is now above it. Short iff it was at or above and is now below. |
| Strategy.RsiSignal | backtest_api/components/strategy.py:83-103 | With the period from `length`, else `period`, else 14, and NaN reading as 50: Long iff the RSI is at or below the bottom level (`bottom`, else `oversold`, else 30). Short iff it is above the bottom and at or above the top level (`top`, else `overbought`, else 70). |
| Strategy.CciSignal | backtest_api/components/strategy.py:105-125 | With the period from `length`, else `period`, else 20, and NaN reading as 0: Long iff the CCI is at or below the bottom level (default -100). Short iff it is above the bottom and at or above the top level (default 100). |
| Strategy.ZScoreSignal | backtest_api/components/strategy.py:127-147 | With the period from `length`, else `period`, else 20, and NaN reading as 0: Long iff the Z-score is at or below `bottom`, else `lower`, else -2. Short iff it is above that and at or above `top`, else `upper`, else 2. |
| Strategy.LegacyEntrySignal | backtest_api/components/strategy.py:184-202 | The fixed EMA12/EMA26 check equals the dispatcher's EMA signal with default parameters. |
| Strategy.StopLoss | backtest_api/components/strategy.py:204-220 | A long uses support when it lies below the entry, else 5% below the entry. A short uses resistance when it lies above the entry, else 5% above. For a positive entry, a long's stop is below the entry and a short's above. |
| Strategy.ExitCheck | backtest_api/components/strategy.py:222-259 | The fill is always at the close. The stop is hit iff a stop exists and the low (long) or high (short) touches it. The check exits iff the stop is hit or the signal opposes the position. |
| Strategy.LegacyExitCheck | backtest_api/components/strategy.py:262-302 | The fixed EMA12/EMA26 exit check decides exactly as the indicator exit check for a default EMA crossover. |
| Indicators.MaAt | backtest_api/components/indicators.py:48 | The rolling mean is NaN exactly before a full window exists. |
| Indicators.MaWithinWindow | backtest_api/components/indicators.py:48 | The moving average lies between the lowest and highest close of its window. |
| Indicators.AlphaRange | backtest_api/components/indicators.py:66 | The smoothing factor 2/(span+1) lies in (0, 1]. |
| Indicators.EmaAt | backtest_api/components/indicators.py:66 | The `adjust=False` recurrence starting from the first close. Its meaning is stated by Indicators.EmaWithinCloses: each value lies between the lowest and highest close so far. |
| Indicators.EmaWithinCloses | backtest_api/components/indicators.py:66 | The EMA of bar i lies between the lowest and highest close up to bar i. |
| Indicators.DemaAt | backtest_api/components/indicators.py:166-168 | Twice the EMA minus the EMA of the EMA. Its meaning is stated by Indicators.DemaOfConstant: on a flat series it equals the price. |
| Indicators.DemaOfConstant | backtest_api/components/indicators.py:166-168 | On a flat series the EMA and the DEMA equal the price. |
| Indicators.Gain | backtest_api/components/indicators.py:84-85 | The gain of a bar is non-negative. |
| Indicators.Loss | backtest_api/components/indicators.py:84-86 | The loss of a bar is non-negative. |
| Indicators.MovesNonNegative | backtest_api/components/indicators.py:85-86 | The rolling mean gain and mean loss are non-negative. |
| Indicators.RsiAt | backtest_api/components/indicators.py:84-88 | The RSI is NaN before a full window. |
| Indicators.RsiIsGainShare | backtest_api/components/indicators.py:84-88 | The RSI lies in [0, 100]. With a loss, RSI times (gain + loss) equals 100 times gain, and RSI is below 100. Without a loss, it is defined iff there was a gain. |
| Indicators.CciAt | backtest_api/components/indicators.py:111-119 | The CCI is NaN before a full window. |
| Indicators.ZeroDeviationFlat | backtest_api/components/indicators.py:115-117 | A zero mean deviation means every value equals the mean. |
| Indicators.CciUndefinedOnlyWhenFlat | backtest_api/components/indicators.py:111-119 | After warm-up the CCI is NaN only when every typical price of the window equals its average. |
| Indicators.CciSign | backtest_api/components/indicators.py:111-119 | The CCI is positive iff the typical price is above its moving average, and negative iff below. |
| Indicators.SortFacts | backtest_api/components/indicators.py:206 | Sorting the window yields a sorted permutation of it. |
| Indicators.Median | backtest_api/components/indicators.py:206 | The middle value of the sorted window, or the mean of the two middle values. Its meaning is stated by Indicators.MedianWithinWindow: it lies between the window's extremes. |
| Indicators.MedianAt | backtest_api/components/indicators.py:206 | The rolling median is NaN exactly before a full window. |
| Indicators.MedianWithinWindow | backtest_api/components/indicators.py:206 | The rolling median lies between the lowest and highest close of its window. |
| Indicators.PercentileAt | backtest_api/components/indicators.py:225-227 | The rolling percentile is NaN exactly before a full window. |
| Indicators.PercentileRange | backtest_api/components/indicators.py:225-227 | The percentile lies in [0, 100]. It is 50 on a flat window, 0 iff the close is the window's low, and 100 iff it is the high. It does not depend on the `percentile` argument. |
| Dsl.Resolve | backtest_api/components/backtest_engine.py:28-69 | A price keyword in any case gives that price ("price" is the close). Otherwise an alias gives its column, a number gives itself, and anything else is NaN. |
| Dsl.Evaluate | backtest_api/components/backtest_engine.py:72-153 | A missing or empty condition is false. A risk operator, an unknown operator or a NaN operand makes a comparison false. |
| Dsl.EvaluateCompare | backtest_api/components/backtest_engine.py:101-153 | A true comparison has both operands defined. `>`/`gt`, `<`/`lt`, `>=`/`gte`, `<=`/`lte` and `==`/`equals`/`eq` hold iff both values on this row are defined and compare so. `crossesAbove` holds iff there is a previous row, all four values are defined, left <= right before and left > right now; `crossesBelow` mirrors it. Risk operators and unknown operators are false. |
| Dsl.AllIsConjunction | backtest_api/components/backtest_engine.py:94-95 | An `all` group holds iff every child holds. |
| Dsl.AnyIsDisjunction | backtest_api/components/backtest_engine.py:98-99 | An `any` group holds iff some child holds. |
| Dsl.CrossesAboveIsEdge | backtest_api/components/backtest_engine.py:132-141 | `crossesAbove` on a row is `<=` on the previous row together with `>` on this one. |
| Dsl.DslColumnsAsWritten | backtest_api/components/backtest_engine.py:215-267 | The alias table as written: only declared aliases get columns. |
| Dsl.NormaliseZScore | backtest_api/components/backtest_engine.py:222 | The type name "z-score" normalises to "z_score". |
| Dsl.DashedZScoreIsDropped | backtest_api/components/backtest_engine.py:220-253 | In any set of declared indicators, an alias of type "z-score" gets no column in the table as written. |
| Dsl.CanonicalKind | backtest_api/components/backtest_engine.py:250 | "z_score" reads as the Z-score family; every other name is unchanged. |
| Dsl.DslColumns | backtest_api/components/backtest_engine.py:215-267 | The corrected alias table, not used by the engine: only declared aliases get columns. |
| Dsl.DslColumnsExtendsAsWritten | backtest_api/components/backtest_engine.py:215-267 | The corrected table keeps every alias of the table as written, with the same column. It also maps "z-score" aliases to Z-score columns of their length (default 20). |
| Engine.ResolveIndicator | backtest_api/components/backtest_engine.py:270-320 | The kind is never unknown, and a known kind is kept with its given parameters. EMA/MA defaults are the two periods in ascending order. RSI, CCI and Z-score take their standard length and thresholds. An unknown type becomes an EMA of the unswapped periods. |
| Engine.DetectSignal | backtest_api/components/backtest_engine.py:352-396 | The signal of a bar. Its meaning is stated by EngineBars.DslSignalIsEdge: with an entry condition, Long exactly on an entry edge, else Short exactly on an exit edge. Without one it is the indicator dispatcher's signal. |
| Engine.ExitPhase | backtest_api/components/backtest_engine.py:399-556 | The exit block. Its meaning is stated by EngineBars.StopLossExitImmediate, DelayedExitScheduled, PendingExitDue and PendingExitWaits, and by EngineProps.ExitPhaseKeeps, which shows it keeps the loop invariant. |
| Engine.EntryPhase | backtest_api/components/backtest_engine.py:559-689 | The entry blocks. Their meaning is stated by EngineBars.DueEntryOpens, PendingEntryDue, FlatSignalEntry, ModeGate, ScheduledEntryFills, ReversalReentersSameBar and WaitForNextSkipsSameBar, and by EngineProps.EntryPhaseKeeps. |
| Engine.Step | backtest_api/components/backtest_engine.py:342-692 | One iteration of the loop. EngineProps.StepKeeps shows it keeps the invariant, and EngineBars.StepIgnoresFuture that it reads no later candle. |
| Engine.Summarize | backtest_api/components/backtest_engine.py:729-756 | The performance summary. Its meaning is stated by EngineFacts.SummaryFacts and BacktestPerformance. |
| Engine.Backtest | backtest_api/components/backtest_engine.py:191-773 | The trades, performance and open position of a run. Its meaning is stated by EngineFacts.BacktestTradesWellFormed, BacktestPerformance, TradesFollowMode and OpenPositionUnrealised. |
| Engine.BarSignal | backtest_api/components/backtest_engine.py:352-396 | The signal block computes `DetectSignal`: a Long on an entry-condition edge, else a Short on an exit-condition edge, else the indicator's signal. |
| Engine.ExitBar | backtest_api/components/backtest_engine.py:399-556 | The exit block computes `ExitPhase`. |
| Engine.EntryBar | backtest_api/components/backtest_engine.py:559-689 | The entry blocks compute `EntryPhase`. |
| Engine.RunBacktest | backtest_api/components/backtest_engine.py:191-773 | The loop returns exactly the trades, performance and open position of `Backtest`. Empty data gives no trades, no performance and no position. |
| EngineProps.CloseKeeps | backtest_api/components/backtest_engine.py:405-455 | Closing keeps the trades well formed, books exactly the trade's profit into the capital, and leaves no position. |
| EngineProps.PnlIsShareMove | backtest_api/components/backtest_engine.py:405-413 | For a position bought with all the capital, the profit is shares times the favourable price move. |
| EngineProps.ExitFillPrice | backtest_api/components/backtest_engine.py:461-493 | An exit check fills at the close, or at the stop when the stop was hit. |
| EngineProps.DueExitKeeps | backtest_api/components/backtest_engine.py:399-455 | A due pending exit keeps the invariant. |
| EngineProps.ApplyExitKeeps | backtest_api/components/backtest_engine.py:495-556 | Closing now, scheduling an exit, or holding each keep the invariant. |
| EngineProps.ExitPhaseKeeps | backtest_api/components/backtest_engine.py:399-556 | The exit block keeps the invariant from bar i to bar i+1. |
| EngineProps.OpenKeeps | backtest_api/components/backtest_engine.py:636-675 | A new position opens at the bar's close with all the capital and its stop on the losing side. It does not overlap the last trade. |
| EngineProps.EntryPhaseKeeps | backtest_api/components/backtest_engine.py:559-689 | The entry blocks keep the invariant. |
| EngineProps.RememberKeeps | backtest_api/components/backtest_engine.py:390-391 | Recording the condition flags keeps the invariant. |
| EngineProps.SettleKeeps | backtest_api/components/backtest_engine.py:691-692 | Clearing the just-exited flag keeps the invariant. |
| EngineProps.StepKeeps | backtest_api/components/backtest_engine.py:342-692 | One iteration of the loop keeps the invariant. |
| EngineProps.RunKeeps | backtest_api/components/backtest_engine.py:342-692 | Any number of iterations keeps the invariant. |
| EngineProps.FinalConsistent | backtest_api/components/backtest_engine.py:322-692 | The state after the loop satisfies the invariant. |
| EngineFacts.WinsAndLosses | backtest_api/components/backtest_engine.py:730-732 | Winning plus losing trades are at most all trades. |
| EngineFacts.SummaryFacts | backtest_api/components/backtest_engine.py:729-756 | The summary of a consistent state is well formed (as in BacktestPerformance). |
| EngineFacts.BacktestTradesWellFormed | backtest_api/components/backtest_engine.py:322-756 | Every trade entered after bar 0 and exits on a later bar. Trades do not overlap and each books shares times its move. The final capital is the initial capital plus the summed profits. |
| EngineFacts.BacktestPerformance | backtest_api/components/backtest_engine.py:729-756 | The total return is the change in capital and the trade count is the number of trades. Wins plus losses are at most the trades, and the win rate lies in [0, 100]. Without trades, the capital is unchanged and the rates are 0. |
| EngineFacts.UnknownModeNeverTrades | backtest_api/components/backtest_engine.py:601-629 | An unknown strategy mode never trades and holds no position. |
| EngineFacts.TradesFollowMode | backtest_api/components/backtest_engine.py:605-629 | Long-only holds only longs and short-only only shorts. Without `enable_short`, every trade is long. |
| EngineFacts.OpenReportFacts | backtest_api/components/backtest_engine.py:695-726 | An open position is reported at the given price with its unrealised profit. |
| EngineFacts.OpenPositionUnrealised | backtest_api/components/backtest_engine.py:695-726 | A position still open at the end is reported, not closed: at the last close, with shares times the favourable move as profit. |
| EngineBars.StopLossExitImmediate | backtest_api/components/backtest_engine.py:463-547 | A stop-loss hit closes on the same bar whatever the exit delay. A saved strategy fills at the stop, an indicator strategy at the close. |
| EngineBars.DelayedExitScheduled | backtest_api/components/backtest_engine.py:549-555 | Any other exit with delay d > 1 is scheduled for bar i+d-1 and nothing else changes. |
| EngineBars.DueExitCloses | backtest_api/components/backtest_engine.py:399-455 | A due pending exit fills at the bar's close and clears the pending exit. |
| EngineBars.PendingExitWaits | backtest_api/components/backtest_engine.py:399-459 | While an exit waits, the position, trades and capital are unchanged. |
| EngineBars.PendingExitDue | backtest_api/components/backtest_engine.py:399-455 | On its bar, a pending exit books its trade at the close whatever the signals say. |
| EngineBars.PendingExitFills | backtest_api/components/backtest_engine.py:399-455 | An exit scheduled for bar t fills on bar t at that bar's close. |
| EngineBars.ExitPhaseUntouched | backtest_api/components/backtest_engine.py:399-459 | The exit block changes nothing when flat or while an exit waits. |
| EngineBars.EntryPhaseUntouched | backtest_api/components/backtest_engine.py:559-601 | The entry blocks change nothing while a position is open or an entry waits. |
| EngineBars.EntryPhaseKeepsTrades | backtest_api/components/backtest_engine.py:559-689 | The entry blocks never book a trade or change the capital. |
| EngineBars.DueEntryOpens | backtest_api/components/backtest_engine.py:559-594 | A due pending entry opens on its signalled side at the close with all the capital. |
| EngineBars.PendingEntryWaits | backtest_api/components/backtest_engine.py:559-601 | While an entry waits, the engine stays flat with the entry still pending. |
| EngineBars.PendingEntryDue | backtest_api/components/backtest_engine.py:559-594 | On its bar a pending entry opens at the close with all the capital. |
| EngineBars.PendingEntryFills | backtest_api/components/backtest_engine.py:559-594 | An entry scheduled for bar t opens on bar t on the signalled side. |
| EngineBars.FlatSignalEntry | backtest_api/components/backtest_engine.py:600-689 | When the engine is flat with nothing pending and the bar signals a side, the entry block does one of three things. If the mode refuses the signal, it leaves the state alone. If the entry delay is at most 1, it opens at this bar's close with all of the capital. Otherwise, it schedules the entry for bar i + delay - 1. |
| EngineBars.ModeGate | backtest_api/components/backtest_engine.py:604-629 | Reversal admits every signal. Wait-for-next admits a signal only when the engine did not just exit on one. Long-only admits only Long, and short-only admits only Short. An unknown mode admits nothing. A Short signal is admitted only when shorting is enabled. |
| EngineBars.ScheduledEntryFills | backtest_api/components/backtest_engine.py:683-689 | With a delay d > 1, an admitted signal on bar i while flat opens the position on bar i + d - 1. It opens on the signalled side, at that bar's close, with all of the capital held on bar i. |
| EngineBars.IndicatorExitOnOpposite | backtest_api/components/backtest_engine.py:491-493 | For an indicator strategy, a signal against the position makes the exit check exit. |
| EngineBars.ReversalReentersSameBar | backtest_api/components/backtest_engine.py:601-607 | In reversal mode with no delays, an opposite signal closes the position and opens the other side on the same bar. |
| EngineBars.WaitForNextSkipsSameBar | backtest_api/components/backtest_engine.py:608-613 | In wait-for-next mode, after leaving on a signal the engine does not re-enter on it and remembers that it just exited. |
| EngineBars.QuietBarClearsJustExited | backtest_api/components/backtest_engine.py:691-692 | A bar without a signal clears the just-exited flag. |
| EngineBars.DslSignalIsEdge | backtest_api/components/backtest_engine.py:368-387 | Long iff the entry condition turns true. Short iff it does not and the exit condition turns true. |
| EngineBars.DslFlagsRecordBar | backtest_api/components/backtest_engine.py:390-391 | After bar i, the remembered flags are the conditions' values on bar i. |
| EngineBars.PersistentEntryFiresOnce | backtest_api/components/backtest_engine.py:368-391 | An entry condition that stays true does not fire a Long on the next bar. |
| EngineBars.DslFirstBarFires | backtest_api/components/backtest_engine.py:333-334 | The flags start false, so an entry condition already true on bar 1 fires a Long there. |
| EngineBars.DashedZScoreNeverEnters | backtest_api/components/backtest_engine.py:220-253 | An entry condition comparing an alias declared as "z-score" never holds, because the alias reads as NaN. The bar then signals at most a Short from the exit condition. |
| EngineBars.SupportResistanceIgnoresFuture | backtest_api/components/strategy.py:21 | Support and resistance at bar i read no candle after bar i. |
| EngineBars.StepIgnoresFuture | backtest_api/components/backtest_engine.py:342-692 | One iteration of the loop reads no candle after its bar. |
| Metrics.MeanShifted | backtest_api/components/metrics.py:23 | Subtracting the daily risk-free rate lowers the mean return by that rate. |
| Metrics.Peak | backtest_api/components/metrics.py:42 | The expanding maximum. Its meaning is stated by Metrics.PeakIsRunningMax. |
| Metrics.SharpeRatio | backtest_api/components/metrics.py:20-24 | An empty series or a zero deviation gives 0. An undefined deviation gives NaN. |
| Metrics.SharpeSign | backtest_api/components/metrics.py:20-24 | With a positive deviation, the ratio is positive iff the mean return beats the daily risk-free rate, and 0 iff it equals it. |
| Metrics.PeakIsRunningMax | backtest_api/components/metrics.py:42 | The running peak bounds every earlier value and is one of them. |
| Metrics.MaxDrawdown | backtest_api/components/metrics.py:35-44 | The maximum drawdown is non-negative, and 0 for an empty curve. |
| Metrics.PositivePeaks | backtest_api/components/metrics.py:42-43 | On a positive curve every peak is positive, so every drawdown is defined. |
| Metrics.DrawdownRange | backtest_api/components/metrics.py:42-43 | On a positive curve every drawdown lies in (-1, 0]. |
| Metrics.MaxDrawdownAtMostOne | backtest_api/components/metrics.py:42-44 | On a positive curve the maximum drawdown is below 1. |
| Metrics.NonDecreasingNoDrawdown | backtest_api/components/metrics.py:42-44 | A curve that never falls has no drawdown. |
| Metrics.DropWithinDrawdown | backtest_api/components/metrics.py:42-43 | The relative fall from any value to a later one is at most the later value's drawdown. |
| Metrics.MaxDrawdownIsLargestDrop | backtest_api/components/metrics.py:42-44 | The maximum drawdown bounds the relative fall from any value to any later one, and is attained below some peak. |
| Metrics.WinsAmongNonZero | backtest_api/components/metrics.py:58-59 | There are at most as many positive returns as non-zero ones. |
| Metrics.WinRate | backtest_api/components/metrics.py:55-60 | The win rate is 0 without non-zero returns and lies in [0, 100]. It times the non-zero count equals 100 times the winning count. |
| Metrics.CalculateTotalReturn | backtest_api/components/metrics.py:74-76 | Initial plus the absolute return is the final capital. The percentage is 0 for a non-positive initial capital, and otherwise final = initial * (1 + pct/100). |
| Optimization.EffectiveType | backtest_api/components/backtest_engine.py:867 | A long-only or short-only strategy mode overrides the position type; otherwise the position type is kept. |
| Optimization.ParsePositionType | backtest_api/components/backtest_engine.py:867-874 | A position type other than the three names is `OtherType`; `long_only` and `short_only` are recognised exactly. |
| Optimization.CrossSignal | backtest_api/components/backtest_engine.py:866-874 | Every value is -1, 0 or 1. 1 iff not short-only and short > long (both defined). -1 iff not long-only and short < long. |
| Optimization.CrossSignals | backtest_api/components/backtest_engine.py:866-874 | The signal column has one entry per bar. |
| Optimization.LevelCross | backtest_api/components/backtest_engine.py:998-1011 | 1 iff longs are allowed and the value crosses up through the upper level. -1 iff shorts are allowed, there is no up-cross, and it crosses down through the lower level. |
| Optimization.ThresholdSignal | backtest_api/components/backtest_engine.py:987-1013 | Every value is -1, 0 or 1, and 0 when either value is NaN. |
| Optimization.ThresholdSignals | backtest_api/components/backtest_engine.py:957-1013 | The signal column has one entry per bar. |
| Optimization.MedianSignal | backtest_api/components/backtest_engine.py:962-984 | 1 iff longs are allowed and the close crosses above its median. -1 iff shorts are allowed, there is no up-cross, and the close crosses below. 0 while a median is NaN. |
| Optimization.MedianSignals | backtest_api/components/backtest_engine.py:962-984 | The signal column has one entry per bar. |
| Optimization.ThresholdSignalColumn | backtest_api/components/backtest_engine.py:957-1013 | The loop writes exactly the column `ThresholdSignals` into a fresh array. |
| Optimization.MedianSignalColumn | backtest_api/components/backtest_engine.py:962-984 | The loop writes exactly the column `MedianSignals` into a fresh array. |
| Optimization.OtherTypeNeverSignals | backtest_api/components/backtest_engine.py:999-1011 | A position type other than the three named ones never signals in the crossing loops. |
| Optimization.ThresholdSignalsNotRepeated | backtest_api/components/backtest_engine.py:987-1013 | Neither a long nor a short signal repeats on consecutive bars. |
| Optimization.Positions | backtest_api/components/backtest_engine.py:1017-1020 | The position column has one entry per bar. |
| Optimization.FilledIsLastSignal | backtest_api/components/backtest_engine.py:1020 | A held position is the most recent non-zero signal, and 0 iff no signal has fired yet. |
| Optimization.FilledIgnoresFuture | backtest_api/components/backtest_engine.py:1020 | The held position at bar i depends only on signals up to bar i. |
| Optimization.Filled | backtest_api/components/backtest_engine.py:1020 | The forward-filled signal. Its meaning is stated by Optimization.FilledIsLastSignal: the most recent non-zero signal, and 0 iff none fired. |
| Optimization.StrategyReturn | backtest_api/components/backtest_engine.py:1022-1023 | Yesterday's position times today's relative move. Its meaning is stated by Optimization.ReturnFollowsPosition. |
| Optimization.ReturnFollowsPosition | backtest_api/components/backtest_engine.py:1022-1023 | A flat position earns 0. A long earns a positive return iff the close rises, a short iff it falls. |
| Optimization.ReturnIgnoresFuture | backtest_api/components/backtest_engine.py:1017-1023 | The return of bar i depends only on signals before bar i and closes up to bar i. |
| Optimization.KeptRows | backtest_api/components/backtest_engine.py:1024 | `dropna` drops bar 0, so fewer rows are kept than exist. |
| Optimization.KeptRowsExact | backtest_api/components/backtest_engine.py:1024 | `dropna` keeps exactly the bars after bar 0 whose indicator is defined, in order. There is one kept row per such bar, and bar j lands just after the kept bars before it. |
| Optimization.TradeCount | backtest_api/components/backtest_engine.py:1037 | The indicator optimiser counts position changes between neighbouring kept rows. Its meaning is stated by Optimization.ChangesBounded and NoSignalNoTrades. |
| Optimization.CrossTradeCount | backtest_api/components/backtest_engine.py:882-896 | The crossover optimiser counts the rows where the signal differs from the previous kept row, over the rows with both averages defined. The first kept row's NaN difference counts too. |
| Optimization.CrossTradeCountRange | backtest_api/components/backtest_engine.py:882-896 | The crossover count is at most the number of kept rows and at least 1 when a row is kept. With no signal at all it is exactly 1 when a row is kept. |
| Optimization.ChangesBounded | backtest_api/components/backtest_engine.py:1037 | The trade count is below the number of kept rows, and a positive count means two neighbours differ. |
| Optimization.NoSignalNoTrades | backtest_api/components/backtest_engine.py:1017-1037 | Without any signal the optimiser holds nothing and counts no trade. |
| Legacy.EdgeSignal | backtest_api.py:213-219 | Long iff the value rises through the bottom level. Short iff not that and it falls through the top level. |
| Legacy.EdgeLeavesZone | backtest_api.py:213-219 | With bottom < top, a Long is leaving the oversold zone and a Short is leaving the overbought zone. |
| Legacy.RsiEdge | backtest_api.py:201-221 | With the period from `length`, else `period`, else 14, and NaN reading as 50: Long iff the RSI rises through the bottom level (default 30). Short iff not that and it falls through the top level (default 70). |
| Legacy.CciEdge | backtest_api.py:223-243 | With the period from `length`, else `period`, else 20, and NaN reading as 0: Long iff the CCI rises through the bottom level (default -100). Short iff not that and it falls through the top level (default 100). |
| Legacy.ZScoreEdge | backtest_api.py:245-265 | With the period from `length`, else `period`, else 20, and NaN reading as 0: Long iff the Z-score rises through `bottom`/`lower` (default -2). Short iff not that and it falls through `top`/`upper` (default 2). |
| Legacy.DispatchAsWritten | backtest_api.py:142-173 | The dispatcher raises iff there is a previous bar and the type is 'ma'. Without a previous bar, or for an unknown type, there is no signal. |
| Legacy.LegacySignal | backtest_api.py:142-173 | The corrected dispatcher agrees with the one as written wherever that one decides. For EMA and MA it equals the component dispatcher. |
| Legacy.Settings | backtest_api.py:622-623 | The older run is an engine run without delays, with stops, without a saved strategy, and with the same capital, mode and shorting. |
| Legacy.BacktestAsWritten | backtest_api.py:708-720 | The run raises iff there are at least two candles and the type is 'ma'. Otherwise it reports `LegacyBacktest`. |
| Legacy.LegacyExitBar | backtest_api.py:723-781 | The exit block computes `LegacyExitPhase`. |
| Legacy.RunLegacyBacktest | backtest_api.py:643-943 | The loop returns exactly the report of `LegacyBacktest`, all empty on empty data. |
| Legacy.LegacyBacktest | backtest_api.py:622-943 | The older run's report, all empty on empty data. Its meaning is stated by Legacy.LegacyTradesWellFormed, LegacyPerformance and CrossoverBacktestsAgree. |
| Legacy.LegacyStepKeeps | backtest_api.py:708-871 | One iteration keeps the engine invariant and never leaves anything pending. |
| Legacy.PhasesKeepNothingPending | backtest_api.py:723-871 | The exit, entry and flag blocks keep the invariant for any signal and schedule nothing. |
| Legacy.LegacyRunKeeps | backtest_api.py:708-871 | Any number of iterations keeps the invariant. |
| Legacy.LegacyFinalConsistent | backtest_api.py:702-871 | The state after the loop satisfies the invariant. |
| Legacy.LegacyTradesWellFormed | backtest_api.py:702-871 | Trades are well formed and do not overlap. The final capital is the initial capital plus the summed profits. |
| Legacy.LegacyTradesFollowMode | backtest_api.py:785-833 | Every trade carries a stop. Long-only holds only longs and short-only only shorts. Shorts need `enable_short`. An unknown mode never trades. |
| Legacy.LegacyPerformance | backtest_api.py:908-935 | The summary is well formed: the return is the change in capital, trades are counted, and the win rate is a percentage. Without trades every figure is 0. |
| Legacy.LegacyOpenPositionUnrealised | backtest_api.py:874-905 | An open position is reported at the last close with its unrealised profit and its stop. |
| Legacy.LegacyExitsAtClose | backtest_api.py:723-738 | Every exit, a stop-loss exit included, fills at the close of its exit bar. |
| Legacy.StepMatchesEngine | backtest_api.py:708-871 | For crossover strategies, one older iteration equals one iteration of the component engine. |
| Legacy.RunMatchesEngine | backtest_api.py:708-871 | For crossover strategies, the older loop equals the component loop over any bars. |
| Legacy.CrossoverBacktestsAgree | backtest_api.py:622-943 | For crossover strategies, the older backtester reports the same trades, performance and open position as the component engine without delays. |
| Routes.PeriodOr | backtest_api/routes.py:174-177 | A period in 2..500 is kept; any other is replaced by the default. |
| Routes.Normalised | backtest_api/routes.py:167-188 | Delays lie in 1..5 and are kept when already in range. The periods satisfy 2 <= fast < slow, fast <= 500 and slow <= 514. Equal periods f become (f, f+14); otherwise the two periods are kept. The mode is valid, and kept when valid. |
| Routes.NormaliseRequest | backtest_api/routes.py:167-188 | The handler's step-by-step corrections compute `Normalised`. |
| Routes.NormalisedStable | backtest_api/routes.py:174-182 | Normalising twice equals normalising once iff the periods were not equal and above 486. |
| Routes.BoundOr | backtest_api/routes.py:636-637 | A missing or zero bound reads as the default. |
| Routes.EmaGrid | backtest_api/routes.py:643-652 | Every pair tested is in the grid, and every grid pair is tested. The pairs come in loop order (by short, then long) without repeats. The count is the number of pairs. |
| Routes.Segments | backtest_api/routes.py:886-895 | The segments tile the curve in order, each non-empty. Each segment carries the type of every point it spans, and neighbours differ. |
| DataFetcher.Cache.constructor | backtest_api/components/data_fetcher.py:17-18 | The cache starts empty with both tables on the same keys. |
| DataFetcher.Cache.Get | backtest_api/components/data_fetcher.py:33-45 | An entry younger than the TTL is returned unchanged. An expired entry is removed from both tables and reads as missing. A missing key reads as missing. |
| DataFetcher.Cache.Set | backtest_api/components/data_fetcher.py:47-59 | The key is stored with stamp `now`. The size becomes min(size, 100). Kept entries are untouched and dropped ones are no newer than kept ones. With no eviction the tables are exactly the update. |
| DataFetcher.StoreThenLookup | backtest_api/components/data_fetcher.py:33-59 | A lookup within the TTL of a store, with every other stamp older, returns the stored data. |
| DataFetcher.OldestKey | backtest_api/components/data_fetcher.py:55-56 | It returns a key with the smallest stamp. |
| DataFetcher.PeriodFor | backtest_api/components/data_fetcher.py:216-232 | The chosen period spans the requested days (730 when absent), and the next shorter one does not. |
| DataFetcher.PeriodMonotone | backtest_api/components/data_fetcher.py:220-231 | Asking for more days never fetches a shorter period. |
| DataFetcher.FetchPeriod | backtest_api/components/data_fetcher.py:197-232 | There is no period iff an explicit date range is given; otherwise the ladder decides. |
| DataFetcher.ServiceIntervalFor | backtest_api/components/data_fetcher.py:188-194 | The result is an interval the market-data service knows. Unknown intervals give "1d", and 1h/2h/4h give "60m". |

## Left out

- Network access, the market-data and CoinGecko clients, retries, resampling of hourly data, the Flask routes' JSON parsing and responses, logging, and all reason and date strings are not modelled.
- The background position updater, threads and the in-memory stores are not modelled (concurrency).
- Floating point is modelled as exact real arithmetic. NaN is `None`; infinities are excluded by the requirements below.
- The engine requires positive closes (`ValidRows`): every entry divides the capital by the close (backtest_engine.py:642). It also requires a positive initial capital (`initialCapital > 0`). The source does not check this (routes.py:157 passes any number through). A zero capital is excluded because the total return divides by it (backtest_engine.py:734). A negative capital is excluded because it is meaningless: it would buy a negative number of shares.
- Metrics.MaxDrawdown requires every running peak to be non-zero, because numpy divides by the peak.
- Metrics.SharpeRatio: square roots are not modelled. The sample standard deviation and the annualiser sqrt(365) are parameters.
- Z-score and rolling standard deviation need a square root: their series are inputs of the engine and are not computed in `Indicators`.
- The indicator cache keys (MD5 of the data) and the cached copies of indicator series are not modelled; they do not change values.
- The optimisers' equity curve (cumulative product), total return, result sorting and length guards (`len(data) < length + 10`) are not modelled. The signal, position and return series, the kept rows and both trade counts are.
- Optimization.CrossSignals, Optimization.ThresholdSignals, Optimization.MedianSignals and Optimization.Positions state only their length in their own contract. Their meaning is stated per bar by CrossSignal, ThresholdSignal, MedianSignal, FilledIsLastSignal and the lemmas after them.
- Optimization.KeptRows bounds only the number of rows in its own contract. Which rows are kept, and in which order, is stated by Optimization.KeptRowsExact.
- The older `run_backtest`'s own column computation (backtest_api.py:666-700) is modelled by `Engine.ResolveIndicator`, which it matches. This includes the swap of unordered EMA/MA periods and the EMA fallback for unknown types.
- The older optimiser of backtest_api.py:1508-1578 is the component crossover optimiser with positions equal to signals. It is not a separate member.
- Routes.EmaGrid enumerates the pairs only. The backtest run for each pair and the RSI/CCI/Z-score grids of the optimise route are not modelled.
- Run-level no look-ahead (a whole run over a prefix of the candles) is not stated; EngineBars.StepIgnoresFuture states it for one bar.
- DataFetcher.Cache.Set: when several entries share the oldest stamp, Python evicts them in insertion order. The model evicts any one of them.
- `analyze_current_market` and the combined in-sample / out-of-sample equity backtests are not modelled beyond their segment labelling.

## Findings

| source | as written | input that shows it | evidently intended | confidence | as-written member | corrected member |
|---|---|---|---|---|---|---|
| backtest_api/components/backtest_engine.py:220-253 | Type names are lower-cased and '-' and ' ' become '_', but only 'zscore' is matched. | A saved strategy declaring an indicator of type "z-score" (or "Z Score"): the alias gets no column, so every comparison on it is NaN and false (Dsl.DashedZScoreIsDropped), and an entry condition on it never fires in the engine (EngineBars.DashedZScoreNeverEnters). | The dash-normalised spelling "z_score" is read as the Z-score family; the corrected table keeps every other alias as it was (Dsl.DslColumnsExtendsAsWritten). | not executed | Dsl.DslColumnsAsWritten | Dsl.DslColumns |
| backtest_api.py:164-165 | The 'ma' branch calls `check_entry_signal_ma`, which backtest_api.py neither defines nor imports. | `indicator_type='ma'` with two or more candles: the dispatcher raises NameError on bar 1, so the whole run fails (Legacy.BacktestAsWritten). | An MA crossover, as the component dispatcher does at backtest_api/components/strategy.py:172-173; with it the older run reports what the component engine does (Legacy.CrossoverBacktestsAgree). | not executed | Legacy.DispatchAsWritten | Legacy.LegacySignal |
