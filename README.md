# Divergence paper-trading engine: a Dafny model

This project models the trading core of a NIFTY options monitor. It also proves properties of that model. The core has four parts.

- **The divergence strategy** is a paper-trading state machine.
  - It keeps the last ten completed 5-minute candles per symbol.
  - It writes a pending BUY signal when the spot candle and an option candle diverge in colour. A put signal needs spot green and the put green. A call signal needs spot red and the call green.
  - On each price tick it does two things in order. First it closes the symbol's OPEN trades at their stop or target. Then it invalidates or triggers the pending signal.
  - A triggered signal opens a pair of trades, one for the "1:1" journal and one for the "1:3" journal.
  - Closed pnl is booked into the day's pnl and into the running capital.
  - It also produces the end-of-day report, rotates to the at-the-money strike (throttled to once per 30 seconds), resets for a new day and restores the saved capital.
- **The EMA monitor's helpers:**
  - tick-to-candle aggregation into 5-minute buckets, with warm-up suppression up to a configured time of day;
  - the exchange calendar: weekends, the 2025 holiday list, the inclusive 09:15–15:30 session and the search for the next opening;
  - the EMA smoothing step.
- **The live straddle chart.** Its message handler sums the last call and put prices and folds the sum into 1-minute OHLC candles. The chart also picks the at-the-money strike and symbols from the option chain.
- **The one-day backtest.**
  - It resamples 1-minute bars to 5-minute candles.
  - It replays the merged minute rows through the strategy. Completed candles are handed over when a row lies in a later bucket. Each bar becomes ticks in the order open, low, an optional breakout tick, high, close.

## How the model is built

Pure logic is written as datatypes and functions over values:
- `StrategyModel.Snapshot` and its transitions;
- `CandleManager.Advance`;
- `Straddle.OnMessage`;
- `Backtest.StepRow`;
- the calendar predicates and the strike choice.

The properties are lemmas about those functions.

Where the source updates an object in place, the model is a class whose fields mirror the source's attributes:
- `DivergenceStrategy`, `CandleManager`, `EmaCalculator` and `StraddleFeed`;
- the module globals of the chart become the fields of `StraddleFeed`.

Each method's `ensures` pins the new state (usually `State() == F(old(State()))`) to the function that specifies it. A loop in the source is a `while` loop with its invariants, as in:
- the trade walk of `update_ltp`;
- the seven-day search;
- the key search;
- the backtest's row loop.

Other modelling decisions:
- **Clock.** The wall clock is never read. Every "now" is a parameter.
- **Time.** Times are `Clock.DateTime` readings in local India time, compared through their microsecond ordinal. India has no daylight saving.
- **Prices.** Prices are `real`. Share quantity is Python's `int()` of 10000 / entry, which truncates toward zero.
- **Option-chain queries.** Their results are inputs:
  - `Option<AtmQuote>` for the rotation check;
  - `Option<seq<ChainOption>>` for the chart.
- **Saved capital file.** What the file held is an input, `CapitalFile`.

## Model

| member | source | states |
|---|---|---|
| Clock.Bucket | main.py:1077-1081 | the bucket of a valid reading is a valid reading on a 5-minute boundary, at most five minutes before it |
| Clock.BucketIdempotent | main.py:1080-1081 | flooring an already floored reading changes nothing |
| Clock.SameBucketIffSameWindow | main.py:1077-1081 | two readings share a bucket exactly when they lie in the same aligned 5-minute window of the time line |
| Clock.MinuteOf | samplecode.py:207-208 | the minute of a valid reading is valid, on a whole-minute boundary, and lies at most one minute before it: the reading with seconds and microseconds zeroed |
| MarketScheduler.HolidaysAreTheListedDates | main.py:1184-1199 | the holiday day numbers are exactly the fourteen listed 2025 calendar dates |
| MarketScheduler.MarketHours | main.py:1201-1228 | open iff a non-weekend, non-holiday day between 09:15:00 and 15:30:00 with both ends included; weekends never open |
| MarketScheduler.IsMarketHoliday | main.py:1201-1215 | no contract; characterised by `MarketScheduler.MarketHours`: Saturday, Sunday and the listed dates |
| MarketScheduler.IsMarketOpen | main.py:1217-1228 | no contract; characterised by `MarketScheduler.MarketHours` |
| MarketScheduler.SecondsUntilMarketOpen | main.py:1230-1256 | 0 when open; otherwise positive and equal to the gap to 09:15 on the first of the next seven days (today included) that trades and opens after now; 86400 if there is none |
| MarketScheduler.HolidaysAreSpread | main.py:1184-1199 | no two listed holidays are fewer than four days apart |
| MarketScheduler.SearchNeverExhausted | main.py:1239-1256 | for every valid reading some day 1 to 6 days ahead opens after it, so the 86400 fallback is unreachable |
| MarketScheduler.NoHolidayPair | main.py:1184-1199 | no two consecutive days are both listed holidays |
| MarketScheduler.LmtOpeningSleepsThroughSession | main.py:1243-1252 | at 09:00 on Tuesday 2025-11-18 the intended answer is 900 s; the search as written answers 85920 s |
| MarketScheduler.SearchAsWritten | main.py:1239-1256 | no contract; characterised by `MarketScheduler.LmtOpeningSleepsThroughSession`: the seven-day search with the opening built at 08:52 |
| MarketScheduler.SecondsUntilMarketOpenAsWritten | main.py:1230-1256 | no contract; characterised by `MarketScheduler.LmtOpeningSleepsThroughSession` |
| EmaCalculator.Multiplier | main.py:987-988 | for a period of at least 1 the multiplier 2/(period+1) lies in (0, 1] |
| EmaCalculator.Smooth | main.py:1046-1051 | no contract; characterised by `EmaCalculator.SmoothStaysBetween` and `EmaCalculator.PeriodOneFollowsClose` |
| EmaCalculator.SmoothStaysBetween | main.py:1046-1051 | the new EMA lies between the previous EMA and the close, and moves off the previous value whenever the close differs |
| EmaCalculator.PeriodOneFollowsClose | main.py:988 | with period 1 the new EMA is the close |
| EmaCalculator.EmaCalculator.constructor | main.py:979-990 | each configured symbol gets multiplier 2/(period+1); the starting EMAs are the loaded ones |
| EmaCalculator.EmaCalculator.UpdateEma | main.py:1046-1051 | returns the previous EMA and the smoothed new one, stores the new one for that symbol only, multipliers unchanged |
| CandleManager.Cutoff | main.py:1091-1116 | a cutoff exists iff the setting parsed and names an hour 0-23 and a minute 0-59; it is then that hour and minute on the day of now, with seconds and microseconds zeroed |
| CandleManager.Advance | main.py:1118-1166 | no contract; characterised by `CandleManager.AdvanceSilentWhileSkipping`, `AdvanceEmitsOnBucketChange`, `AdvanceWithinBucket`, `AdvanceKeepsWellFormed` and `FeedBucketIsOhlc` |
| CandleManager.AdvanceSilentWhileSkipping | main.py:1123-1139 | a suppressed tick never hands out a candle and leaves a candle for the current bucket |
| CandleManager.AdvanceEmitsOnBucketChange | main.py:1142-1158 | outside warm-up a candle is handed out iff the tick opens a different bucket and the previous candle was not a warm-up one; the previous candle is what is handed out, and the new candle starts at the tick price |
| CandleManager.AdvanceWithinBucket | main.py:1159-1166 | a same-bucket tick hands out nothing, keeps open, widens high/low, sets close, and keeps low ≤ open, close ≤ high |
| CandleManager.AdvanceKeepsWellFormed | main.py:1118-1166 | the slot and any handed-out candle always satisfy low ≤ open, close ≤ high |
| CandleManager.FeedBucketIsOhlc | main.py:1142-1166 | ticks within one bucket leave open = first price, close = last, high = maximum, low = minimum |
| CandleManager.CandleManager.constructor | main.py:1065-1075 | no candles; every configured symbol starts in warm-up with no first complete time |
| CandleManager.CandleManager.ShouldSkipCandle | main.py:1083-1116 | out of warm-up never skips and changes nothing; in warm-up skips iff the bucket is at or before the cutoff; the first later bucket ends warm-up and is recorded; an unusable cutoff ends warm-up without a time |
| CandleManager.CandleManager.UpdateCandle | main.py:1118-1166 | returns and stores exactly what `Advance` gives for the bucket of now under the warm-up decision; the first bucket after the cutoff ends warm-up and is recorded as the first complete one, an unusable setting ends warm-up without a time, otherwise the flags stay; only this symbol is affected |
| CandleManager.CandleManager.ResetForNewDay | main.py:1168-1173 | drops all candles and puts every configured symbol back into warm-up |
| StrategyModel.PushBoundedKeepsNewest | divergence_strategy.py:98-104 | the history stays within ten with the new candle last; below ten nothing is dropped, at ten exactly the oldest is |
| StrategyModel.PushBounded | divergence_strategy.py:98-104 | no contract; characterised by `StrategyModel.PushBoundedKeepsNewest` and `StrategyModel.HistoryIsLatestTen` |
| StrategyModel.AfterCandle | divergence_strategy.py:93-107 | no contract; characterised by `StrategyModel.HistoryIsLatestTen`, `StrategyModel.SignalDetection` and `StrategyModel.InvAfterCandle` |
| StrategyModel.HistoryIsLatestTen | divergence_strategy.py:98-104 | from an empty history, any run of candles leaves exactly the latest ten |
| StrategyModel.FindCandle | divergence_strategy.py:162-168 | none iff no candle has the timestamp; otherwise the newest candle with it |
| StrategyModel.SignalDetection | divergence_strategy.py:109-160 | no spot candle means no change; the put signal is written iff spot and put are green, the call signal iff spot is red and the call green; each write counts one detection and overwrites what was pending; written signals copy their candle's high and low |
| StrategyModel.CheckSignalsAt | divergence_strategy.py:109-160 | no contract; characterised by `StrategyModel.SignalDetection` |
| StrategyModel.PlaceOrderOpensPair | divergence_strategy.py:170-227 | refused (no change) while an OPEN trade exists for the symbol or risk ≤ 0; otherwise exactly two OPEN trades appended with the same entry, stop low − 0.25 and quantity, targets one and three risks above entry |
| StrategyModel.PlaceOrder | divergence_strategy.py:170-227 | no contract; characterised by `StrategyModel.PlaceOrderOpensPair`, `StrategyModel.WorkedTrade` and `StrategyModel.InvPlaceOrder` |
| StrategyModel.OpenCountPositive | divergence_strategy.py:176 | the OPEN count of a symbol is positive iff some trade on it is OPEN |
| StrategyModel.TickTradeOutcome | divergence_strategy.py:241-248 | CLOSED trades and other symbols are untouched; stop wins over target; a closing trade gets exit price, time and reason, and pnl (exit − entry)·quantity |
| StrategyModel.TickTradesOpenCount | divergence_strategy.py:241-248 | a tick never increases any symbol's OPEN count |
| StrategyModel.ExitsAreTheClosedOpenTrades | divergence_strategy.py:241-248 | the trades a tick closes number exactly the drop in the symbol's OPEN count, so no trade closes twice |
| StrategyModel.WalkStep | divergence_strategy.py:239-248 | checking the next trade of the copy in place advances the walk by exactly that trade: its tick applied, its exit and pnl booked if it closes |
| StrategyModel.WalkDone | divergence_strategy.py:239-248 | the walk starts at the unchanged state and, over all trades, ends at the settled state |
| StrategyModel.Settle | divergence_strategy.py:239-248 | no contract; characterised by `StrategyModel.ExitsAreTheClosedOpenTrades`, `StrategyModel.TickTradesOpenCount`, `StrategyModel.WalkDone` and `StrategyModel.InvSettle` |
| StrategyModel.PendingResolution | divergence_strategy.py:250-270 | below the low the signal is deleted and nothing opens; inside [low, high] nothing changes; above the high the signal is consumed and a pair opens at the tick price unless an OPEN trade exists |
| StrategyModel.ResolvePending | divergence_strategy.py:250-270 | no contract; characterised by `StrategyModel.PendingResolution` and `StrategyModel.InvResolvePending` |
| StrategyModel.TickOrder | divergence_strategy.py:233-270 | trades are settled before the signal is resolved, so trades opened by the tick stay OPEN; closed trades are appended to the history and pnl and capital move by the same sum |
| StrategyModel.AfterTick | divergence_strategy.py:233-270 | no contract; characterised by `StrategyModel.TickOrder` and `StrategyModel.InvAfterTick` |
| StrategyModel.WorkedTrade | divergence_strategy.py:185-227 | entry 23.5 on a candle with low 19 gives stop 18.75, targets 28.25 and 37.75 and 425 shares; a tick at 28.25 books 2018.75 on the 1:1 trade only |
| StrategyModel.RotationCooldown | divergence_strategy.py:293-343 | within 30 s nothing changes and nothing is returned; otherwise the check time is recorded whatever the query gave, and a pair is returned and stored iff the query succeeded with a different call or put |
| StrategyModel.NoSecondQueryWithinCooldown | divergence_strategy.py:301-307 | after a check goes through, every check within 30 s is throttled, even after a failed query |
| StrategyModel.Rotate | divergence_strategy.py:293-343 | no contract; characterised by `StrategyModel.RotationCooldown`, `StrategyModel.NoSecondQueryWithinCooldown` and `StrategyModel.InvRotate` |
| StrategyModel.LoadCapital | divergence_strategy.py:495-507 | no file keeps the capital; an unreadable file or a missing value gives 10000; a stored value is used; nothing else changes |
| StrategyModel.OutcomesPartition | divergence_strategy.py:373-375 | wins, losses and breakevens partition the history |
| StrategyModel.VariantsPartition | divergence_strategy.py:378-401 | the two journals partition the history and their pnl sums to the history's |
| StrategyModel.ReportPartition | divergence_strategy.py:364-433 | counts partition the trades; the win rate is a percentage present iff a trade was taken; the no-trade message appears iff none was, naming signals when some were detected |
| StrategyModel.Report | divergence_strategy.py:364-433 | no contract; characterised by `StrategyModel.OutcomesPartition`, `StrategyModel.VariantsPartition` and `StrategyModel.ReportPartition` |
| StrategyModel.InvInitial | divergence_strategy.py:25-52 | the fresh strategy satisfies the invariant with capital 10000 |
| StrategyModel.InvPlaceOrder | divergence_strategy.py:170-227 | an order keeps at most two OPEN trades per symbol and every other invariant, and leaves money untouched |
| StrategyModel.InvSettle | divergence_strategy.py:239-248 | settling keeps the invariant (daily pnl equals the history's pnl) and moves capital with daily pnl |
| StrategyModel.InvResolvePending | divergence_strategy.py:250-270 | resolving a signal keeps the invariant and leaves money untouched |
| StrategyModel.InvAfterTick | divergence_strategy.py:233-270 | a tick keeps the invariant; capital minus daily pnl is unchanged |
| StrategyModel.InvAfterCandle | divergence_strategy.py:93-107 | a candle keeps the invariant, stores the bounded history and touches neither trades nor money |
| StrategyModel.InvRotate | divergence_strategy.py:293-343 | a rotation check keeps the invariant |
| StrategyModel.InvResetDay | divergence_strategy.py:457-483 | the reset empties the day, keeps capital and symbols, and the invariant holds whatever state the day ended in |
| StrategyModel.ResetDay | divergence_strategy.py:457-483 | no contract; characterised by `StrategyModel.InvResetDay` |
| StrategyModel.RunKeepsInv | divergence_strategy.py:233-291 | any stream of candles, ticks and rotation checks keeps the invariant, only appends to the history and keeps capital minus daily pnl |
| StrategyModel.DayLedger | divergence_strategy.py:272-288 | after the reset and any events, capital equals the day's starting capital plus the history's pnl, which is also daily pnl and the journals' pnl sum |
| DivergenceStrategy.DivergenceStrategy.constructor | divergence_strategy.py:25-52 | the fields start as the initial snapshot: no symbols, trades, signals or candles, capital 10000 |
| DivergenceStrategy.DivergenceStrategy.ProcessCandle | divergence_strategy.py:93-107 | the new state is the candle stored and signals checked at its time |
| DivergenceStrategy.DivergenceStrategy.CheckSignals | divergence_strategy.py:109-160 | the new state is detection at the timestamp |
| DivergenceStrategy.DivergenceStrategy.PlaceDummyOrder | divergence_strategy.py:170-231 | the new state is the order placed or refused |
| DivergenceStrategy.DivergenceStrategy.CloseTrade | divergence_strategy.py:272-291 | the trade is closed in place with its pnl, a copy is appended to the history, pnl and capital grow by the pnl, nothing else changes |
| DivergenceStrategy.DivergenceStrategy.UpdateLtp | divergence_strategy.py:233-270 | the new state is the tick applied: settle, then resolve |
| DivergenceStrategy.DivergenceStrategy.SettleTrades | divergence_strategy.py:239-248 | walking a copy of the trades closes exactly the tick's exits and books their pnl |
| DivergenceStrategy.DivergenceStrategy.CheckTrade | divergence_strategy.py:241-248 | one trade checked: closed on stop or target, history and money updated by it alone |
| DivergenceStrategy.DivergenceStrategy.ResolveSignal | divergence_strategy.py:250-270 | the new state is the pending signal resolved |
| DivergenceStrategy.DivergenceStrategy.CheckStrikeRotation | divergence_strategy.py:293-343 | state and returned pair are those of the throttled rotation |
| DivergenceStrategy.DivergenceStrategy.GenerateDailyReport | divergence_strategy.py:364-455 | the report of the current state, whose outcome and journal counts partition the trades |
| DivergenceStrategy.DivergenceStrategy.ResetForNewDay | divergence_strategy.py:457-483 | the new state is the day reset |
| DivergenceStrategy.DivergenceStrategy.LoadCapitalState | divergence_strategy.py:495-508 | the new state is the capital restored by the fallback rule |
| Backtest.AggIsOhlc | backtest_divergence.py:135-142 | the aggregate opens with the first bar, closes with the last, and its high and low are the bars' extremes |
| Backtest.ResampleIsPerBucket | backtest_divergence.py:135-142 | a bucket is present iff some minute falls in it, and holds the aggregate of exactly its minutes |
| Backtest.Resample | backtest_divergence.py:135-142 | no contract; characterised by `Backtest.ResampleIsPerBucket` and `Backtest.AggIsOhlc` |
| Backtest.TicksKeepCandles | divergence_strategy.py:233-270 | ticks change neither stored candles nor the signal count |
| Backtest.FeedLegOrder | backtest_divergence.py:237-255 | a bar is fed as open, low, then a breakout tick one step above the signal's high exactly when a signal pending after the low has its high in [low, high), then high, close |
| Backtest.FeedLegKeepsCandles | backtest_divergence.py:237-255 | feeding a bar as ticks stores no candle and detects no signal |
| Backtest.Injection | backtest_divergence.py:246-252 | no contract; characterised by `Backtest.FeedLegOrder` and `Backtest.InjectedTickTriggers` |
| Backtest.FeedLeg | backtest_divergence.py:237-255 | no contract; characterised by `Backtest.FeedLegOrder` and `Backtest.FeedLegKeepsCandles` |
| Backtest.InjectedTickTriggers | backtest_divergence.py:246-252 | the injected tick is above the signal's high (and not below a low that is at most the high); it always consumes the signal, and when not below the low it opens a pair unless an OPEN trade remains |
| Backtest.FirstRowNeverHandsOff | backtest_divergence.py:175-185 | the first row hands over no candle and sets the current bucket |
| Backtest.NoHandOffUnlessLater | backtest_divergence.py:182-185 | a row in the current or an earlier bucket stores no candle, counts no signal, and makes its own bucket the current one |
| Backtest.BucketMonotone | backtest_divergence.py:182 | later readings never fall in an earlier bucket |
| Backtest.LastBucketNeverHanded | backtest_divergence.py:177-232 | over time-ordered rows every stored candle predates the final bucket: the last bucket is never handed over |
| Backtest.HandOff | backtest_divergence.py:185-230 | no contract; characterised by `Backtest.LastBucketNeverHanded`: it stores only the handed bucket's candles |
| Backtest.StepRow | backtest_divergence.py:177-270 | no contract; characterised by `Backtest.FirstRowNeverHandsOff`, `Backtest.NoHandOffUnlessLater` and `Backtest.LastBucketNeverHanded` |
| Backtest.ReplayRows | backtest_divergence.py:177-270 | no contract; characterised by `Backtest.LastBucketNeverHanded` |
| Backtest.FeedLegInto | backtest_divergence.py:237-255 | the strategy's new state is the leg's bar fed as ticks |
| Backtest.InjectBreakout | backtest_divergence.py:246-252 | the strategy receives the breakout tick exactly when a signal is pending with its high in [low, high) of the bar |
| Backtest.HandOffInto | backtest_divergence.py:185-230 | the strategy's new state is spot, call and put candles of the bucket handed over where present |
| Backtest.ReplayRow | backtest_divergence.py:177-270 | state and returned bucket are one replay step of the row |
| Backtest.RunBacktest | backtest_divergence.py:42-270 | no result iff spot candles or either leg's minutes are missing; otherwise a fresh strategy whose state is the replay of all rows |
| Straddle.FirstKey | samplecode.py:179-190 | none iff no key is present; otherwise the first key of the list that is present |
| Straddle.QuoteOf | samplecode.py:173-195 | no contract; characterised by `Straddle.FirstKey` and `Straddle.PriceRouting` |
| Straddle.PriceRouting | samplecode.py:173-202 | a message without a dictionary, symbol key or price key changes nothing; the call price takes the message's value (number, null or text) only for the call symbol, the put price only for the put symbol; other symbols re-fold the straddle whatever their price field holds |
| Straddle.Route | samplecode.py:196-202 | no contract; characterised by `Straddle.PriceRouting` |
| Straddle.OnQuote | samplecode.py:196-233 | no contract; characterised by `Straddle.PriceRouting`, `Straddle.StraddleIsSum` and `Straddle.InvOnQuote` |
| Straddle.StraddleIsSum | samplecode.py:204-210 | no candle state changes unless both stored prices are numbers; when they are, every quote folds in their sum as the running close |
| Straddle.FoldShape | samplecode.py:213-233 | a strictly later minute seals the running candle and starts one at the price; any other minute widens it; the list grows by at most one and keeps its prefix |
| Straddle.Fold | samplecode.py:207-233 | no contract; characterised by `Straddle.FoldShape` and `Straddle.InvFold` |
| Straddle.OnMessage | samplecode.py:166-237 | no contract; characterised by `Straddle.PriceRouting`, `Straddle.StraddleIsSum` and `Straddle.InvOnMessage` |
| Straddle.InvInitial | samplecode.py:27-33 | the initial state satisfies the candle-order invariant |
| Straddle.InvOnMessage | samplecode.py:166-237 | every message keeps completed candles in increasing minute order, before the running minute, and well formed |
| Straddle.InvOnQuote | samplecode.py:196-210 | routing a price leaves the candles alone, so a quote keeps the candle invariant |
| Straddle.InvFold | samplecode.py:213-233 | folding a price at any minute keeps the candle invariant |
| Straddle.StraddleFeed.constructor | samplecode.py:27-33 | the globals start unset with no candles |
| Straddle.StraddleFeed.FindKey | samplecode.py:182-190 | the key loop returns the first present key |
| Straddle.StraddleFeed.ProcessWebsocketMessage | samplecode.py:166-237 | the new state is the message handled |
| Straddle.StraddleFeed.RecordQuote | samplecode.py:196-210 | the new state is the quote routed and the straddle folded |
| Straddle.StraddleFeed.FoldStraddle | samplecode.py:207-233 | the new state is the straddle price folded at its minute |
| AtmStrikes.ValidStrikes | samplecode.py:74-75 | exactly the strikes present and strictly positive |
| AtmStrikes.Nearest | samplecode.py:80-83 | a listed strike of least distance to the price, the lowest among equally near ones |
| AtmStrikes.NearestIsUnique | samplecode.py:80-83 | any strike with those two properties is the one chosen |
| AtmStrikes.FirstSymbol | samplecode.py:85-90 | not listed iff no option of that type is listed at the strike; otherwise the first one's symbol, or the missing-symbol failure when it has none |
| AtmStrikes.FindAtmOptions | samplecode.py:60-98 | nothing iff there is no chain, a strike that cannot be compared with 0, no positive strike, or a first matching call or put without a symbol; otherwise a positive listed strike beating every other, with the first call and put at it |

## Left out

- Logging, printing, the CSV trade log, the report's JSON file and its per-trade details, rounding and win-rate string formatting, and `save_capital_state` are not modelled. They are output only.
- `get_best_strikes` and the option-chain calls are not modelled; they call the broker's API. Their results are inputs: `Option<AtmQuote>` for the rotation check and `Option<seq<ChainOption>>` for the chart. A failed call, a missing CE or PE side, or no nearest expiry becomes `None`.
- Not modelled in `main.py` because they are network, file or service code: broker login, `EmailNotifier`, EMA file persistence (`load_emas`/`save_emas`), `check_ema_touch`, the `EMAMonitor` driver and `main()`. The commented-out first copy of the program is also not modelled. `EmaCalculator.EmaCalculator.constructor` takes the loaded EMAs as a parameter.
- Not modelled in `samplecode.py`: plotting, websocket setup, the lock, quote and history fetches with retries, and the client set up at import. `test_whatsapp.py` is only messaging and is not part of this model.
- Not modelled in `backtest_divergence.py`: login, `fetch_data`, `fetch_1min_data`, `MockFyers`, and the pandas join and indexing. The merged 1-minute rows are a sequence of `MinuteRow` with one optional OHLC per leg. Spot candles are a map from bucket to OHLC, so duplicate spot index rows (where the source takes the first) cannot occur.
- Every clock read (`datetime.now`, `time.time`) is a parameter. `update_candle` reads the clock twice, once for the bucket and once for the cutoff, and `seconds_until_market_open` reads it twice, once inside `is_market_open` and once for the search; the model uses one reading for each pair, so a call that straddles a boundary (midnight, 09:15, 15:30) between the two reads is not captured.
- Prices are real numbers; IEEE float rounding is not captured.
- EmaCalculator.EmaCalculator.constructor requires that no period is -1, as does `EmaCalculator.Multiplier`: for EMA_PERIOD = -1 the source raises ZeroDivisionError computing 2/(period+1), and the model does not represent that error.
- StrategyModel.AfterTick requires a non-zero tick price. The source raises ZeroDivisionError only when a breakout triggers at price 0.
- DivergenceStrategy.DivergenceStrategy.UpdateLtp requires a non-zero tick price, for the same reason as `StrategyModel.AfterTick`: a breakout at price 0 divides by zero in the source.
- StrategyModel.ResolvePending requires a non-zero tick price: the pair it opens on a breakout divides the risk by the price, which raises ZeroDivisionError at 0.
- StrategyModel.PendingResolution requires a non-zero tick price, as `StrategyModel.ResolvePending` does, so the breakout at price 0 that raises in the source is not described.
- Backtest.RunBacktest requires strictly positive prices in every fed bar, so that no tick has price 0 (see the previous line).
- Straddle.OnQuote stores a text price and then folds nothing while a text is stored, as the source does when the sum raises TypeError. When both stored prices are text the source instead concatenates them. It then starts a candle of text values if the minute has advanced. The model does not represent text-valued candles, and in this case it folds nothing.
- StrategyModel.ResetDay does not model the carry-over close of stale OPEN trades. The source marks them CLOSED and then discards the list on the next line, so neither pnl, capital nor history sees them.
- A signal's free-text reason is modelled as the pair of candles it was built from. The order `side` argument, always BUY, is dropped.

## Findings

| source | as written | input that shows it | evidently intended | confidence | as-written member | corrected member |
|---|---|---|---|---|---|---|
| main.py:1243-1252 | `datetime.combine(check_date, 09:15, tzinfo=pytz.timezone('Asia/Kolkata'))` attaches the zone's first offset, local mean time +05:53, so the opening it builds is 08:52 IST | now = Tuesday 2025-11-18 09:00 IST: the market is closed and opens at 09:15, but today's "opening" (08:52) has passed, so the search returns 85920 s (the next day's 08:52) | the first 09:15 IST opening after now, here 900 s | medium, not executed | MarketScheduler.LmtOpeningSleepsThroughSession | MarketScheduler.SecondsUntilMarketOpen |
