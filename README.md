# lighter-quant core, modelled in Dafny

lighter-quant is a small quantitative-trading toolkit. A collector keeps a local copy of
a venue's order book from a REST snapshot plus a websocket stream of depth diffs, and
turns every book state into a flat CSV row. A classifier turns book features into an
"up" probability. A backtest loop and a live execution loop trade on that probability.
This project models the parts of that pipeline that make decisions:

- `binance_client.dfy` (module `BinanceClient`) is the local order book.
  - Snapshot parsing and in-place diff application use the class `LocalBook`, whose
    fields are maps.
  - It models the three-way sequence check on `U`/`u` (stale, bridging, gap), the
    reconnect loop that rebuilds the book from a fresh snapshot, and the stream of
    emitted book states.
- `live_trading.dfy` (module `LiveTrading`) is the per-book state machine of the live
  loop: daily-loss breaker, opening when flat, closing on thresholds. The class `Trader`
  holds the engine's variables and the log of issued orders.
- `backtest.dfy` (module `Backtest`) is the backtest strategy loop over prices and
  probabilities, with slippage, fees, a holding period and trade records.
- `retry.dfy` (module `Retry`) is the bounded retry wrapper with geometric back-off. It
  covers both the blocking and the asynchronous form.
- `data_collector.dfy` (module `DataCollector`) covers:
  - row formatting: top-k sorted levels, best bid/ask, mid, and aggregated volumes;
  - the collector's buffer, which is written out every 50 rows.
- `metrics.dfy` (module `Metrics`) is total return, maximum drawdown, and the guards of
  annualized return and Sharpe ratio.
- `model_split.dfy` (module `ModelSplit`) is the train/validation prefix split.
- `wrappers.dfy` (module `Wrappers`) holds shared helpers:
  - `Option`;
  - Python's slicing rules for `s[:k]`/`s[k:]` with any integer `k`;
  - `max`/`min` over the keys of a dictionary.

Prices, quantities and money are `real`. Integers are unbounded. The network, the clock,
the signal model and the real-valued `sqrt`/`**` are parameters or input sequences.

Three behaviours of the code that a reader might not expect, which the model keeps:

- A permanent sequence gap stalls the stream. The code keeps no gap counter and forces
  no resync.
- The live loop's unrealised return is multiplied by the signed position size, not by
  its sign.
- An empty book side in the live loop ends the loop (the `ValueError` from `max`/`min`
  propagates), rather than skipping that book.

## Model

| member | source | states |
|---|---|---|
| BinanceClient.LastQty | src/exchange/binance_client.py:29-30 | absent exactly when no entry names the price; otherwise the quantity of the last entry for it |
| BinanceClient.ParseLevelsAt | src/exchange/binance_client.py:27-31 | the parsed side holds a price iff the snapshot lists it, with the quantity of its last occurrence (a duplicate price keeps the last quantity) |
| BinanceClient.ParseLevels | src/exchange/binance_client.py:29-30 | definition (no contract); the dict comprehension over the snapshot's levels, stated by `ParseLevelsAt` |
| BinanceClient.Bootstrap | src/exchange/binance_client.py:55-57 | a book built from a snapshot takes the snapshot's `lastUpdateId` as its frontier |
| BinanceClient.RemoveAbsentIsNoop | src/exchange/binance_client.py:46-47 | removing (quantity 0) a price that is not on the side leaves the side unchanged |
| BinanceClient.ApplyLevel | src/exchange/binance_client.py:43-49 | definition (no contract); one update: quantity 0 pops the price, any other sets it; stated by `RemoveAbsentIsNoop` and `ApplyChangesAt` |
| BinanceClient.ApplyChanges | src/exchange/binance_client.py:42-49 | definition (no contract); one side's updates in order, stated by `ApplyChangesAt` and `ApplyChangesKeepsNoZero` |
| BinanceClient.ApplyChangesAt | src/exchange/binance_client.py:40-49 | after applying one side's updates, for every price: unnamed prices keep presence and quantity; a last update of 0 removes; a last non-zero update sets exactly that quantity (later entries override earlier ones) |
| BinanceClient.ApplyChangesKeepsNoZero | src/exchange/binance_client.py:46-49 | a side that never stores quantity 0 still has none after any diff |
| BinanceClient.Classify | src/exchange/binance_client.py:61-67 | iff characterisations: incomplete exactly when `U` or `u` is missing, bridging exactly when `U <= last+1 <= u`, gap exactly when `u > last` and `U > last+1` |
| BinanceClient.Step | src/exchange/binance_client.py:61-74 | the frontier never decreases; a state is emitted iff the frontier increases iff the event bridges; no emission leaves book and frontier unchanged; the emitted state is the new book |
| BinanceClient.StaleIsIgnored | src/exchange/binance_client.py:65-66 | an event with `u <= last` changes nothing and emits nothing |
| BinanceClient.GapOrIncompleteIsDropped | src/exchange/binance_client.py:61-67 | an event missing `U` or `u`, or with `U > last+1`, changes nothing and emits nothing |
| BinanceClient.BridgingIsApplied | src/exchange/binance_client.py:67-74 | a bridging event applies both sides' updates, sets the frontier to `u`, and emits one state carrying the event's `E` and the new book |
| BinanceClient.Run | src/exchange/binance_client.py:59-74 | over one connection the frontier never decreases, at most one state is emitted per message, and a connection that emits nothing leaves the book untouched |
| BinanceClient.Frontiers | src/exchange/binance_client.py:65-69 | the frontiers at successive emissions strictly increase, all lie above the starting frontier, and the last is the final frontier |
| BinanceClient.PermanentGapStalls | src/exchange/binance_client.py:61-67 | if no message bridges the current frontier, the connection emits nothing and the book stays as it is (no resync) |
| BinanceClient.CycleOutput | src/exchange/binance_client.py:53-77 | definition (no contract); one pass of the reconnect loop: nothing for a failed fetch, otherwise `Run` from the fresh snapshot; stated by `ConnectionFrontiers` |
| BinanceClient.StreamOutput | src/exchange/binance_client.py:53-77 | definition (no contract); the passes' outputs in order, stated by `ReconnectStartsFresh` and `DepthStream` |
| BinanceClient.RunKeepsNoZero | src/exchange/binance_client.py:46-49 | starting from a book without zero quantities, neither the final book nor any emitted state holds a zero quantity |
| BinanceClient.ReconnectStartsFresh | src/exchange/binance_client.py:53-57 | the stream over later passes of the reconnect loop does not depend on earlier passes: output of a concatenation is the concatenation of outputs |
| BinanceClient.ConnectionFrontiers | src/exchange/binance_client.py:55-69 | after a (re)connection every frontier reached lies above the fresh snapshot's `lastUpdateId` |
| BinanceClient.BridgingExample | src/exchange/binance_client.py:67-74 | snapshot at 100 with bid 10.0; diff `U`=95, `u`=105 removing 10.0 is applied, frontier 105, one state with `E`=7 emitted |
| BinanceClient.GapExample | src/exchange/binance_client.py:67 | at frontier 100 a diff with `U`=110 is dropped |
| BinanceClient.LocalBook.FromSnapshot | src/exchange/binance_client.py:55-57 | the local book is built from the snapshot alone |
| BinanceClient.LocalBook.ApplyDiff | src/exchange/binance_client.py:39-49 | `_apply_diff` in place: each side becomes the pure application of its updates, the frontier is untouched |
| BinanceClient.LocalBook.OnMessage | src/exchange/binance_client.py:61-74 | the loop body on one message: new book, frontier and emission are exactly those of `Step` |
| BinanceClient.Connection | src/exchange/binance_client.py:55-74 | the inner loop over one connection's messages, on a book built from the snapshot, emits exactly what `Run` emits |
| BinanceClient.DepthStream | src/exchange/binance_client.py:50-77 | the reconnect loop over passes emits exactly `StreamOutput` of the passes |
| LiveTrading.CloseOrder | src/exchange/lighter_client.py:76-78 | SELL iff the position is positive, size is the absolute position |
| LiveTrading.BestBid | src/live_trading.py:25 | the highest bid price: on the side and at least every other bid |
| LiveTrading.BestAsk | src/live_trading.py:26 | the lowest ask price: on the side and at most every other ask |
| LiveTrading.Mid | src/live_trading.py:27 | equidistant from the best bid and the best ask |
| LiveTrading.Step | src/live_trading.py:25-58 | definition (no contract); one loop iteration, stated by `OpenLong`, `OpenShortOrStay`, `CloseOnThresholds`, `BreakerOnlyFlattens` and `StepKeepsPositionInRange` |
| LiveTrading.Run | src/live_trading.py:21-60 | at most one order per book |
| LiveTrading.StepKeepsPositionInRange | src/live_trading.py:36-58 | a step keeps the position in {0, `max_position`, `-max_position`} |
| LiveTrading.BreakerOnlyFlattens | src/live_trading.py:32-38 | with `daily_pnl <= max_daily_loss`: no opening order; an open position is closed by the opposite order and flattened; `daily_pnl` and entry price unchanged |
| LiveTrading.OpenLong | src/live_trading.py:40-45 | flat, breaker off, `prob > p_buy`: exactly one BUY of `max_position`, position `max_position`, entry at mid |
| LiveTrading.OpenShortOrStay | src/live_trading.py:40-50 | flat, breaker off, not buying: one SELL of `max_position` and entry at mid when `prob < 1 - p_sell`, otherwise no order and no change |
| LiveTrading.CloseOnThresholds | src/live_trading.py:51-58 | open: `pnl = (mid-entry)/entry*position`; closed iff `pnl <= max_single_loss` or `pnl >= take_profit`, with the opposite order, `pnl` added to `daily_pnl`, position 0; otherwise nothing |
| LiveTrading.StopLossExample | src/live_trading.py:51-58 | long 1 at 100, mid 97: pnl -0.03 hits the stop, SELL 1, `daily_pnl` becomes -0.03 |
| LiveTrading.RunSnoc | src/live_trading.py:24-60 | one more book appends at most one order and changes nothing once the loop has stopped |
| LiveTrading.RunExtends | src/live_trading.py:24-60 | orders only accumulate as books arrive, and once the loop has stopped nothing more happens |
| LiveTrading.RunKeepsPositionInRange | src/live_trading.py:21-58 | starting flat, the position is always 0, `max_position` or `-max_position` |
| LiveTrading.BreakerIsAbsorbing | src/live_trading.py:32-38 | once `daily_pnl <= max_daily_loss` it never changes again, at most one closing order follows, and after any further book the position is flat |
| LiveTrading.Trader.constructor | src/live_trading.py:21-23 | the engine starts flat with `daily_pnl = 0` and no orders |
| LiveTrading.Trader.PlaceOrder | src/live_trading.py:42-55 | issuing an order appends it to the log and changes no engine variable |
| LiveTrading.Trader.OnBook | src/live_trading.py:25-58 | one iteration: the engine's variables and the order log move exactly as `Step` says, or nothing changes when the iteration raises |
| LiveTrading.RunLiveTrading | src/live_trading.py:21-60 | the loop over books computes `Run` |
| Backtest.ExitKeepsValid | src/backtest.py:35-41 | an exit keeps the loop invariant |
| Backtest.TickKeepsValid | src/backtest.py:22-42 | every tick keeps the loop invariant |
| Backtest.TickKeepsOpen | src/backtest.py:22-42 | every tick keeps an open position priced and recorded, and adds one equity point |
| Backtest.Tick | src/backtest.py:23-42 | definition (no contract); one loop iteration, stated by `TickRules`, `TickKeepsValid` and `TickKeepsOpen` |
| Backtest.Simulate | src/backtest.py:11-43 | after `n` ticks the curve has `n` points |
| Backtest.SimulateValid | src/backtest.py:25-41 | after every tick: position in {-1, 0, 1}, trade entry indices strictly increase, all trades but the last closed with exit and pnl, the last open exactly when a position is held, at the recorded entry |
| Backtest.EquityIsCashAfterEachTick | src/backtest.py:22-42 | the curve has one point per price, the cash after that tick |
| Backtest.TickRules | src/backtest.py:23-42 | long above `p_buy` at `p*(1+slippage)`, else short below `1-p_sell` at `p*(1-slippage)`, each `-fee` with a new trade; when open exit iff holding period or a threshold is reached, booking `pnl - fee` and closing the last trade; never open and close on one tick; cash moves only on these |
| Backtest.TickVars | src/backtest.py:23-41 | the loop body on the loop's variables computes one `Tick` |
| Backtest.RunStrategy | src/backtest.py:11-43 | `_run_strategy` returns exactly the equity curve and trades of `Simulate` over all prices |
| Retry.DelayIsGeometric | src/utils/retry.py:13-21 | the delay slept after failure k, `delay` multiplied by `backoff` once per earlier failure, is `delay*backoff^k` |
| Retry.Retry | src/utils/retry.py:9-39 | at most `retries` calls; none and None returned when `retries <= 0`; every earlier call failed; the first success is returned; a final failure happens on call `retries` and is re-raised; one sleep between attempts, none after the last; sleep k lasts `delay` multiplied k times by `backoff` |
| DataCollector.SortedPrices | src/data_collector.py:51-52 | the sorted prices of a side: each price once, strictly decreasing for bids, strictly increasing for asks |
| DataCollector.Sorted | src/data_collector.py:51-52 | the sorted levels carry the sorted prices, each with its quantity on that side |
| DataCollector.WithQuantities | src/data_collector.py:51-52 | pairing prices with a side's quantities keeps the prices in order, each with its quantity |
| DataCollector.Retained | src/data_collector.py:51-52 | definition (no contract); `sorted(...)[:top_levels]`, stated by `RetainedCount` and `RetainedAreBest` |
| DataCollector.RetainedCount | src/data_collector.py:51-52 | with non-negative `top_levels`, `min(top_levels, size)` levels are kept: all of them when `top_levels` covers the side, none for 0 |
| DataCollector.RetainedAreBest | src/data_collector.py:51-52 | every retained bid is above and every retained ask below every level cut off |
| DataCollector.SumVolAppend | src/data_collector.py:70-71 | volume sums add over concatenation |
| DataCollector.SumVol | src/data_collector.py:70-71 | definition (no contract); `sum(v for _, v in levels)`, stated by `SumVolAppend`, `SumVolNonNegative` and `SumVolTop` |
| DataCollector.SumVolNonNegative | src/data_collector.py:69-71 | a volume sum over levels with non-negative quantities is non-negative |
| DataCollector.SumVolTop | src/data_collector.py:69-71 | with non-negative volumes the aggregate over the first `d` levels is at most the total, and equals it once `d` covers all levels |
| DataCollector.MidOf | src/data_collector.py:55 | mid is equidistant from both best prices when both are non-zero, and 0.0 otherwise |
| DataCollector.PutLevels | src/data_collector.py:63-68 | adds one price and one volume column per retained level of one side, numbered from 1, with that level's values |
| DataCollector.PutVolTops | src/data_collector.py:69-71 | adds `bid_vol_top_d` and `ask_vol_top_d` for every configured depth, each the volume sum over `levels[:d]` |
| DataCollector.FormatRow | src/data_collector.py:50-72 | the row copies event and local time, holds best bid/ask (0.0 for an empty side), mid, and exactly the level and aggregate columns with their values |
| DataCollector.Collector.constructor | src/data_collector.py:39 | the buffer starts empty |
| DataCollector.Collector.OnRow | src/data_collector.py:45-48 | append, and write a batch and clear once 50 rows are buffered; all received rows stay written or buffered in order |
| DataCollector.Run | src/data_collector.py:35-49 | one row per book; written batches followed by the buffer are exactly the rows in arrival order; each batch holds 50 rows; the buffer holds fewer than 50 |
| Metrics.TotalReturn | src/utils/metrics.py:4-5 | the last point, or 0.0 for an empty curve |
| Metrics.SeqMaxIsMax | src/utils/metrics.py:11 | the largest of a non-empty sequence bounds every element and is one of them |
| Metrics.HighWater | src/utils/metrics.py:11 | one running-maximum point per curve point; its values are stated by `HighWaterIsPrefixMax` |
| Metrics.Drawdowns | src/utils/metrics.py:12 | one drawdown per curve point; its values are stated by `MaxDrawdownIsLowestDrawdown` |
| Metrics.HighWaterIsPrefixMax | src/utils/metrics.py:11 | the running maximum at `i` is the largest of the first `i+1` points |
| Metrics.MaxDrawdown | src/utils/metrics.py:8-10 | 0.0 for an empty curve |
| Metrics.MinOf | src/utils/metrics.py:13 | `min()` of a non-empty array is at most every element and equal to one of them |
| Metrics.MaxDrawdownIsLowestDrawdown | src/utils/metrics.py:11-13 | the maximum drawdown is the minimum over `i` of `equity[i] - max(equity[..i+1])` |
| Metrics.MaxDrawdownNonPositive | src/utils/metrics.py:11-13 | a non-empty curve has maximum drawdown at most 0 |
| Metrics.NonDecreasingHasNoDrawdown | src/utils/metrics.py:11-13 | a non-decreasing curve has maximum drawdown 0 |
| Metrics.AnnualizedReturn | src/utils/metrics.py:15-20 | 0.0 for fewer than two points; otherwise `(1 + total_return)^(periods/len) - 1` |
| Metrics.Diff | src/utils/metrics.py:26 | `np.diff`: one step fewer than points, step k is `equity[k+1] - equity[k]` |
| Metrics.SharpeRatio | src/utils/metrics.py:23-30 | 0.0 for fewer than two points and for zero standard deviation of the steps; otherwise mean over std times `sqrt(periods)` |
| Metrics.Mean | src/utils/metrics.py:29 | definition (no contract); numpy's `mean`, stated by `MeanConstant` |
| Metrics.Variance | src/utils/metrics.py:27-29 | definition (no contract); numpy's default population variance behind `std`, stated by `VarianceConstant` |
| Metrics.MeanConstant | src/utils/metrics.py:29 | the mean of a constant series is that constant |
| Metrics.VarianceConstant | src/utils/metrics.py:27 | a constant series has zero variance |
| Metrics.ConstantStepsHaveZeroSharpe | src/utils/metrics.py:26-28 | a curve with constant steps has zero spread and (with `sqrt(0) = 0`) Sharpe ratio 0.0 |
| ModelSplit.Trunc | src/model.py:11 | `int()` truncates toward zero |
| ModelSplit.SplitIndex | src/model.py:11 | definition (no contract); `int(len(X) * ratio)`, stated by `TrainLength` and `OutOfRangeRatio` |
| ModelSplit.TrainValSplit | src/model.py:10-12 | train followed by validation is the original sequence, for both features and labels |
| ModelSplit.PairedLengthsAgree | src/model.py:11-12 | equal-length features and labels give equal-length training parts and validation parts |
| ModelSplit.TrainLength | src/model.py:11 | for a ratio in [0, 1] the training part has `floor(n*ratio)` rows, between 0 and n |
| ModelSplit.OutOfRangeRatio | src/model.py:11-12 | a ratio of 1 or more keeps everything for training; a negative ratio cuts at or below 0; a cut at 0 trains on nothing; a negative cut counts from the end |

## Left out

- Transport and I/O are not modelled. This covers the REST call, the websocket, JSON
  decoding, `raise_for_status`, the reconnect sleep, CSV writing, file naming, the
  logger, pacing sleeps, configuration loading, the CLI, and `src/utils/logging.py`.
  - A snapshot fetch after its retries is an input per reconnect pass (fetched or
    failed).
  - A connection's messages are an input sequence.
  - The clock of the collector is a function from row number to time.
- Emitted book states are immutable values. In the source, later diffs also mutate
  states that were already yielded, because those are aliases of the local book.
- Async structure is not modelled. The blocking and asynchronous retry wrappers share
  one model, up to the negative-delay case below. The loops are sequential.
- Retry.Retry treats every failure as retryable. The wrappers catch only `Exception`
  subclasses. A `BaseException` such as `KeyboardInterrupt` or `asyncio.CancelledError`
  leaves at once, with no sleep and no further attempt, and that path is not modelled.
- Retry.Retry is the asynchronous form, whose `asyncio.sleep` returns at once for a
  delay of zero or less. The blocking form's `time.sleep` raises `ValueError` on a
  negative delay, so with `delay < 0` or `backoff < 0` it stops at its first negative
  sleep, where the model calls again. The model does not capture that path. The one use
  in the repository is the asynchronous form with `delay = 1.0` and `backoff = 2.0`.
- Model inference, training, feature building (`src/features.py`) and `run_backtest`
  (random prices, plotting, grid search) are not modelled. The probability is an
  opaque function of the features (`score`) or an input sequence.
- The trading venue client is not modelled. It is an order log, and order results are
  never read. Only `close_position`'s side and size rule is kept, as `CloseOrder`.
- Floating-point rounding is not modelled. Prices and money are `real`.
  - `sqrt` and `**` are parameters of `SharpeRatio` and `AnnualizedReturn`.
  - `int()` is exact truncation.
- The live loop stops (`Halted`) at the first book where the source raises: an empty
  side, a zero mid, a missing event time, or a zero entry price while open. Nothing
  after that book is modelled.
- `event_time` is copied into the collector row as it is, possibly absent. The stream
  always yields the key, so the `0` default of `ob.get` is never used.
- The collector row is a map. The insertion order of its columns, which the CSV header
  takes from the first row, is not modelled.
- `Collector.written` records the batches handed to `_write_csv`. That function takes its
  columns from the batch's first row; `csv.DictWriter` raises `ValueError` on a later row
  with extra level columns, nothing in `run` catches it, and this failure path is outside
  the model.
- Backtest.RunStrategy requires positive prices, `-1 < slippage < 1` and at least as
  many probabilities as prices. With a zero entry price or a short probability array
  numpy yields inf/nan or an index error, and the model does not follow those paths.
- Backtest.Simulate states only the curve length and that an open position is priced.
  The invariant and the per-tick rules are the lemmas `SimulateValid` and `TickRules`.
- LiveTrading.Run states only the bound on orders. The per-book behaviour is in the
  lemmas about `Step`.
- BinanceClient.Bootstrap states only the frontier. The parsed sides are described by
  `ParseLevelsAt`.
- Metrics.MaxDrawdown states only the empty case. The rest is in the lemmas that
  follow it.
- Metrics.SharpeRatio ignores `risk_free`, as the source does. Variance is numpy's
  default population variance.
- `label_func` and the unused live-config fields `stop_loss` and `hold_ticks` are not
  modelled.
