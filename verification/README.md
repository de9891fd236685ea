# A verified model of the momentum scalping hunter

The program listens to exchange market data, keeps rolling features per symbol, decides on long entries, trades them on
paper and can replay the same decision logic over historical bars. This project models its stateful core in Dafny and
proves what holds over every run of it. Arithmetic is over `real`; one call under the program's lock is one step.

How the files fit together:

- `Events.dfy`, `RingBufferModel.dfy`, `RingBuffer.dfy`, `Hysteresis.dfy`: typed events and their priority classes, the
  bounded four-class buffer with its eviction policy, counters and pressure state. `RingBufferModel` is the state
  machine over values with the books an observer of the run keeps; `RingBuffer.PriorityRingBuffer` is the mutable object, proved
  to take exactly those steps, so every theorem about runs is a theorem about the object.
- `FeatureStore.dfy`, `Statistics.dfy`, `FeatureEngine.dfy`, `Feed.dfy`: the rolling candle window per symbol, the
  feature formulas over it, and the composition: buffer, store and formulas together see the complete candle history.
- `ShardModel.dfy`, `Shard.dfy`: one WebSocket connection's subscriptions across updates, connects, disconnects and
  scheduled reconnects, with the set of streams the server sends as part of the state.
- `AdapterModel.dfy`, `Adapter.dfy`: how symbols are dealt to connections at start and placed one by one afterwards.
- `Risk.dfy`, `Paper.dfy`, `PaperEngine.dfy`, `Lifecycle.dfy`, `Pipeline.dfy`: the risk engine, the paper engine, and
  the pipeline that drives both while an auditor's answer is being awaited. `Pipeline` joins buffer, store and both
  engines in one run.
- `TradeMath.dfy`, `SignalEngine.dfy`: exit levels, position size, friction, and the ordered gate chain over them.
- `BacktestModel.dfy`, `Metrics.dfy`, `Capital.dfy`, `CapitalExact.dfy`, `Backtest.dfy`: the bar-by-bar backtest, its
  report figures, and how much a day of it can lose.
- `Prelude.dfy`: optional values, the bounded deque, sums, and a few laws of real arithmetic.

Each stateful component comes twice, on purpose: a specification function on values, and a class whose methods are
proved to compute it (`ensures View() == Step(old(View()), ...)`). The main results are lemmas about runs of the
specification.

## Where the code and its documentation part

The model follows the code. Reading it closely, these points differ from what the comments say; each is a lemma.

- The eviction loop of the buffer is described as dropping only events of strictly lower priority, but never looks at
  the incoming class: a P3 arriving at a full buffer without P3 evicts a P2. `RingBufferModel.PriorityInversion` says
  exactly when a less urgent event displaces a more urgent one; `RingBufferModel.InversionHappens` is the smallest run.
- P0 is documented as never silently dropped. The buffer keeps that promise by raising an exception, but the sink in
  front of it (`app/buffer/sink.py:22-33`) swallows the exception and returns False. `Feed.NoClosedKlineLost` therefore
  says when a candle is missing: iff one of its key met that exception, as in `Feed.CandleCanBeLost`.
- The prior high is documented as taken strictly before the decision point, but the window ends with the latest closed
  candle. `FeatureEngine.CloseNeverBreaksOut` shows what that means for a candle judged at its own close,
  `BacktestModel.OwnCloseNeverTrades` for a backtest, which judges every candle so.
- A connection that comes up is documented to restore the shard's subscriptions. A symbol removed and added back during
  one outage stays wanted but is dropped (`ShardModel.ReaddedSymbolIsLost`). An update that lands between applying the
  parked changes and the healthy state is only parked, so its streams never come
  (`ShardModel.ParkedUpdateStaysMissing`); and it stays parked while later updates are sent, so a symbol removed since comes back at the next reconnect
  (`ShardModel.RemovedSymbolComesBack`). `ShardModel.SymbolsAccounted` and `ShardModel.ServerAccounted` say exactly what
  is local and what is served after every run, whenever updates land.
- The adapter assumes without checking that added symbols are unowned. `AdapterModel.UpdateKeepsDisjointIff` gives the
  exact condition under which an update keeps ownership disjoint, `AdapterModel.OwnedTwice` one after start that
  does not.
- The risk check precedes the wait for the auditor, so a position can open while trading is frozen
  (`Lifecycle.FreezeDuringWait`). `Lifecycle.LateOpensExactly` says when: a freeze comes while a verdict is awaited and
  the first verdict after it approves while trading is still frozen. `Lifecycle.LateOpensAfterFreeze`: then exactly one
  position opens late that day.
- Ticker events drive the paper exits but are never P0, so the buffer may drop the one that crosses a stop
  (`Pipeline.CrossingCanBeMissed`). `Pipeline.OpenIffNoCrossingPassed` says exactly when a position outlives a crossing:
  since it was opened no event through its levels passed the buffer, however often one was offered.
- Position size is documented as bounding the loss by the risk budget. The minimum size can lift it above;
  `SignalEngine.StopCostsAtMostBudget` says exactly when, `PositionSizing.LiftedSizeBreaksBudget` gives the numbers.
  `CapitalExact.CapitalBoundExactly` says for which size limits a day's loss stays bounded in every run.
- The backtest's breakout fill is documented as never better than what a stop order could achieve. It looks at the bar's
  high only: on a bar that opens above the fill price it buys below the open, and if the whole bar lies above, at a
  price the bar never traded. `BacktestModel.FillIsTradedIff` has both exact conditions for one fill,
  `BacktestModel.EntriesTradedIff` for the entries of a run; `BacktestModel.GapFillsBelowTheBar` and
  `BacktestModel.EagerEntry` are such a bar and such a trade.
- The backtest is documented to share the live signal engine. It ingests candles only, while the quant score is not
  computable without the 24h volume of a ticker, so with that score every bar counts as no-trade
  (`BacktestModel.CandlesAloneNeverTrade`, `Backtest.SignalEngineNeedsTicker`).

## Model

| member | source | states |
|---|---|---|
| RingBufferModel.Accounting | app/buffer/ring_buffer.py:108-219 | In every run the buffer stays within capacity; per class the accepted events are those that left, in order, followed by those queued; every pushed event has exactly one fate; the drop counters count evictions and refusals and stay 0 for P0; overflows count the P0 events turned away by exception |
| RingBufferModel.RunSound | app/buffer/ring_buffer.py:108-180 | Reachable buffers: size within capacity, each queue holds its own class only, the total drop counter is the sum of the per-class ones, no P0 drop |
| RingBufferModel.DropOrder | app/buffer/ring_buffer.py:116-180 | In any reachable state: overload is raised iff a P0 meets a buffer full of P0; an event is refused iff it is not P0 and the buffer is full of P0 and P1; an evicted event is the oldest of its class, never P0, P1 only for a P0 with P2 and P3 empty, P2 only with P3 empty |
| RingBufferModel.PriorityInversion | app/buffer/ring_buffer.py:153-169 | A push evicts a more urgent event than itself iff a P3 arrives at a full buffer holding no P3 but some P2 |
| RingBufferModel.InversionHappens | app/buffer/ring_buffer.py:153-169 | A run of two pushes in which that happens |
| RingBufferModel.BatchIsPrefix | app/buffer/ring_buffer.py:209-219 | A batch of n is the first n of the four queues laid end to end, and the rest stays in the same order; negative sizes take nothing |
| RingBufferModel.PopsCompose | app/buffer/ring_buffer.py:209-219 | Two batches in a row deliver what one batch of the combined size delivers and leave the same queues |
| RingBufferModel.DeliveredOfClass | app/buffer/ring_buffer.py:209-219 | The events of one class among everything delivered in a run are the popped events of that class's ledger, in order |
| RingBuffer.PriorityRingBuffer.Push | app/buffer/ring_buffer.py:108-151 | The object's push is the step of the machine, with its three outcomes and the displaced event |
| RingBuffer.PriorityRingBuffer.DropLowerPriority | app/buffer/ring_buffer.py:153-180 | Frees one slot iff there is a victim, takes the oldest of the victim class, counts it, changes nothing otherwise |
| RingBuffer.PriorityRingBuffer.UpdateState | app/buffer/ring_buffer.py:182-194 | The pressure state after an operation, a function of the old state and of the share of the capacity that all four queues fill together |
| RingBuffer.PriorityRingBuffer.PopBatch | app/buffer/ring_buffer.py:209-219 | The nested drain loops deliver the batch of the machine and leave its queues and state |
| RingBuffer.PriorityRingBuffer.AcknowledgeRecovery | app/buffer/ring_buffer.py:196-205 | Acknowledging recovery is the step of the machine: back to normal iff the fill of all four queues is at or below the recovery watermark |
| Hysteresis.StatusIsHistory | app/buffer/ring_buffer.py:131-145 | With separated levels: DATA_OVERLOAD iff an overflow happened with no later acknowledgement at or below recovery; otherwise lossy iff the load once reached a high watermark and stayed above recovery after every operation since. The load is counted from the ledgers: accepted less removed, over all four classes, as a share of the capacity |
| Hysteresis.UtilizationIsLoad | app/buffer/ring_buffer.py:98-99 | After every run the utilisation is that share, and times the capacity it is the total length of the four queues |
| Hysteresis.HistoryNeedsSeparation | app/buffer/ring_buffer.py:182-194 | The state tells that history on all runs iff no fill level of the buffer counts as high and as recovered at once |
| Hysteresis.DistinctWatermarksSeparate | app/buffer/ring_buffer.py:66-78 | A recovery watermark below both upper ones separates the levels |
| Hysteresis.AcknowledgeOnlyLeavesOverload | app/buffer/ring_buffer.py:196-205 | Outside DATA_OVERLOAD, acknowledging recovery changes nothing in any run |
| Events.ClosedKlinesAreP0 | app/ingestion/priority.py:17-64 | Among normalized events the closed candles of a key are exactly those of the P0 events, in order |
| Events.PriorityByKind | app/ingestion/priority.py:17-64 | Per class, exactly which payloads get it, and which ones the candidate flag lifts to P1 |
| FeatureStore.StoreIsHistory | app/features/store.py:46-73 | After any events: a symbol is known iff a tracked event named it, its window is the last n closed candles of its key, each snapshot is the newest event of its kind |
| Prelude.LastIs | app/features/store.py:28 | The bounded window of a sequence holds its last items, at most n, in order |
| FeatureStore.FeatureStore.Ingest | app/features/store.py:57-70 | Ingesting into the dictionary of mutable states changes the addressed symbol as specified and no other |
| FeatureStore.FeatureStore.GetOrCreate | app/features/store.py:46-55 | Finds the state of a key or adds a fresh empty one, leaving the others alone |
| Feed.NoClosedKlineLost | app/buffer/ring_buffer.py:108-219 | In every run the accepted closed candles of a key are those delivered followed by those queued, in order; all offered ones are, iff none of the key met the overload exception |
| Feed.CandleCanBeLost | app/buffer/sink.py:22-33 | A normalized run in which a second closed candle meets a buffer full of P0 and is not accepted |
| Feed.SystemIsFeed | app/signals/pipeline.py:95-108 | However a run of pushes and drains is cut into batches, the store ends as one ingestion of everything delivered leaves it |
| FeatureStore.IngestedConcat | app/features/store.py:57-70 | Ingesting in two portions is ingesting in one |
| Feed.WindowIsHistory | app/signals/pipeline.py:95-108 | In every joint run of buffer and store the stored window of a key is the last n closed candles among all accepted ones short of those still waiting in the P0 queue |
| Feed.FeaturesSeeFullHistory | app/features/store.py:21-70 | With nothing of a key waiting or turned away, every feature of the bounded window equals the feature of the whole offered history, None included |
| Feed.DefaultWindowSuffices | app/features/store.py:21 | At default periods the formulas reach back 23 candles, within the 60 kept by default |
| Feed.DeliveredInFull | app/buffer/ring_buffer.py:147-151 | Nothing of a class was missed by the consumer iff its drop counter is 0 and nothing of it is queued (for P0: and no overflow was raised) |
| Feed.DeliveredAsOftenAsPassed | app/buffer/ring_buffer.py:116-219 | An event reaches the consumer exactly as often as it was offered and neither evicted, refused, turned away nor is queued |
| Feed.PassedByCounters | app/buffer/ring_buffer.py:147-180 | If nothing of a class was dropped over a stretch and none waits at its end, all of it that waited or was offered passed |
| Feed.DeliveredWasOffered | app/buffer/ring_buffer.py:209-219 | Every delivered event was offered |
| FeatureEngine.WindowSuffices | app/features/feature_engine.py:36-211 | Every reading on the last w candles equals the reading on the whole history once w covers the reach of the periods |
| FeatureEngine.WindowMustReach | app/features/feature_engine.py:36-211 | With a positive ATR period that reach is exact: the readings agree on all histories iff w is at least the reach |
| FeatureEngine.RvolLaw | app/features/feature_engine.py:50-64 | RVOL exists iff the median volume of the baseline candles right before the latest exceeds 1e-9, and times that median it is the volume of the latest candle, on the candles by position |
| FeatureEngine.AccelerationLaw | app/features/feature_engine.py:67-96 | Likewise acceleration times the median of the baseline candles right before the recent ones, times their number, is the sum of the recent volumes |
| FeatureEngine.RvolIsRobust | app/features/feature_engine.py:50-64 | If more than half of the baseline volumes lie in [lo, hi], RVOL exists for lo above epsilon and lies between current/hi and current/lo, whatever the other volumes are |
| FeatureEngine.AccelerationIsRobust | app/features/feature_engine.py:67-96 | Trade acceleration lies between (least recent volume)/hi and (largest recent volume)/lo under the same condition on its baseline |
| Statistics.MajorityBoundsMedian | app/features/feature_engine.py:61 | If more than half of the values lie in a range, so does the median |
| Statistics.MedianIsMiddle | app/features/feature_engine.py:61 | For every ascending rearrangement t of n values, twice the median is t[(n-1)/2] + t[n/2] |
| Statistics.MedianOfNegated | app/features/feature_engine.py:61 | The median of the negated values is minus the median |
| Statistics.MedianOfPermutation | app/features/feature_engine.py:61 | The median depends on the values only, not on their order |
| FeatureEngine.TrueRangeIsHull | app/features/feature_engine.py:28-33 | The true range is the length of the smallest interval holding the candle and the previous close, never negative |
| FeatureEngine.Telescoping | app/features/feature_engine.py:28-33 | The move between any two closes is at most the sum of the true ranges between them |
| FeatureEngine.AtrLaw | app/features/feature_engine.py:36-47 | The ATR exists iff there are period + 1 candles, and times the period it is the sum of the true ranges of the last period candles |
| FeatureEngine.AtrBoundsMove | app/features/feature_engine.py:36-47 | Inside the ATR window the price moved by at most period * ATR |
| FeatureEngine.MomentumLaw | app/features/feature_engine.py:149-173 | The momentum ratio exists iff enough candles do and no denominator is at most 1e-9; then ratio * ATR * earlier close is the size of the move times the latest close, both closes named by position |
| FeatureEngine.MomentumIsBounded | app/features/feature_engine.py:149-173 | The momentum ratio is at most atr_period * current / earlier price |
| FeatureEngine.MaxHighIsHighest | app/features/feature_engine.py:198-199 | The prior high is attained in the window and no candle of it is higher |
| FeatureEngine.BreakoutLaw | app/features/feature_engine.py:184-211 | The prior high is the largest high of the last lookback candles, the level lies the multiplier times the ATR above it, and the distance times the ATR is price less prior high |
| FeatureEngine.FloorIsTrigger | app/features/feature_engine.py:203-205 | The breakout distance in ATRs reaches the multiplier exactly when the price reaches the breakout level |
| FeatureEngine.CloseNeverBreaksOut | app/features/feature_engine.py:195-211 | A candle whose close is not above its high is below the breakout level at its own close whenever the buffer is positive, because its own high is in the window |
| ShardModel.SymbolsAccounted | app/exchanges/binance/shard.py:111-183 | Over every run, whenever updates land, the local symbols are the wanted ones without the lost and with the returned ones, both kept from the requests and connection events alone; they are the wanted ones iff there are none of either |
| ShardModel.Reconciliation | app/exchanges/binance/shard.py:111-183 | Corollary with connecting as one step: the local symbols are the wanted ones minus those removed and re-added within one outage and not touched since |
| ShardModel.ServerAccounted | app/exchanges/binance/shard.py:111-219 | Over every run, while the connection is up the server sends the streams of the local symbols without the missing and with the stale ones tracked since it came up; it is in step iff there are none of either |
| ShardModel.HealthyMeansSynced | app/exchanges/binance/shard.py:151-219 | Corollary with connecting as one step: whenever the connection is up the server sends exactly local symbols times stream types |
| ShardModel.ReaddedSymbolIsLost | app/exchanges/binance/shard.py:161-164 | A run after which a wanted symbol is not subscribed on a healthy connection |
| ShardModel.ParkedUpdateStaysMissing | app/exchanges/binance/shard.py:116-120 | A run ending healthy with a local symbol whose streams the server does not send |
| ShardModel.RemovedSymbolComesBack | app/exchanges/binance/shard.py:116-164 | A run ending healthy with a symbol local and subscribed that was removed while healthy and is wanted by nobody |
| ShardModel.UnsubscribeNeedsDistinctNames | app/exchanges/binance/shard.py:204-214 | Unsubscribing any symbols leaves exactly the streams of the others iff stream names identify symbols |
| ShardModel.PlainSymbolsAreDistinct | app/exchanges/binance/shard.py:210-214 | Symbols without '@' that differ after lower-casing have distinct stream names |
| ShardModel.NameIsSpelled | app/exchanges/binance/shard.py:210-214 | The stream name of x and t is the one string of length len(x) + 1 + len(t) that has the characters of x with A-Z raised by 32, then @, then t |
| Shard.ReplayChunks | app/exchanges/binance/shard.py:207-219 | A server replaying messages of one kind ends with the old streams plus, or minus, all their parameters |
| Shard.BinanceShard.SendSubMessage | app/exchanges/binance/shard.py:207-219 | Without a socket nothing is sent; otherwise consecutively numbered, non-empty messages of at most 200 parameters, all but the last full. Each parameter spells a symbol and a stream type character by character, every pair is spelled, there are as many as pairs, and the server's set changes by exactly those |
| Shard.BinanceShard.UpdateSubscriptions | app/exchanges/binance/shard.py:111-124 | An update is the step of the machine, on the fields and on the wire |
| Shard.BinanceShard.OnOpen | app/exchanges/binance/shard.py:154-166 | Coming up applies the parked changes, clears them, and subscribes to everything owned |
| Shard.BinanceShard.OnLost | app/exchanges/binance/shard.py:172-183 | Losing a connection: reconnecting, both counters up by one, the socket field kept unless the stream ended cleanly |
| Shard.BinanceShard.OnSoftReconnect | app/exchanges/binance/shard.py:223-233 | A scheduled reconnect closes the socket but keeps symbols and parked changes |
| AdapterModel.DealtIsPartition | app/exchanges/binance/adapter.py:154-159 | Symbol i sits at place i div k of bucket i mod k, and the bucket lengths leave room for nothing else |
| AdapterModel.BucketsAreBalanced | app/exchanges/binance/adapter.py:154-159 | Bucket sizes differ by at most one and none exceeds the ceiling of n / k |
| AdapterModel.EmptyBucketsAreLast | app/exchanges/binance/adapter.py:159 | Dropping empty buckets drops exactly those beyond the number of symbols |
| AdapterModel.StartOwnership | app/exchanges/binance/adapter.py:47-62 | After start the shards own every listed symbol and nothing else, each once if the list has no duplicates |
| AdapterModel.ShardsFitTheirConnection | app/exchanges/binance/adapter.py:148-159 | Never more connections than allowed; if the cap does not bind, no connection carries more than types * ceil(M / types) streams, which is M when types divides M; one connection fewer could not carry them all |
| AdapterModel.DisjointNeedsUnowned | app/exchanges/binance/adapter.py:92-100 | Placing a symbol keeps ownership disjoint iff no shard other than its target owns it |
| AdapterModel.OwnedTwice | app/exchanges/binance/adapter.py:92-100 | From the shards of a start with two symbols, adding an owned one makes two shards own it |
| AdapterModel.PlacementIsExact | app/exchanges/binance/adapter.py:90-100 | For any order of adding distinct unowned symbols: exactly as many go in, from the front, as there are free slots; the rest is refused; no shard loses a symbol or is pushed past capacity |
| AdapterModel.PlacementKeepsDisjoint | app/exchanges/binance/adapter.py:90-100 | Placing unowned symbols keeps ownership disjoint |
| AdapterModel.PlacementKeepsDisjointIff | app/exchanges/binance/adapter.py:92-100 | A series of distinct additions keeps ownership disjoint iff each placed one goes to a shard such that no other owned it at the start |
| AdapterModel.UpdateKeepsDisjointIff | app/exchanges/binance/adapter.py:77-100 | The same for a whole update, with the removals out first |
| AdapterModel.PlacementKeepsSpread | app/exchanges/binance/adapter.py:161-165 | Additions never raise the load spread above max(1, what it was) |
| AdapterModel.RemovalIsExact | app/exchanges/binance/adapter.py:84-88 | Removals take exactly the named symbols out of the owned set and keep it disjoint |
| AdapterModel.UpdateIsExact | app/exchanges/binance/adapter.py:77-100 | One update: the owned set becomes old minus removed plus the placed additions, disjoint, within capacity; an addition is refused only when every shard is at capacity |
| AdapterModel.LeastLoaded | app/exchanges/binance/adapter.py:161-165 | None iff every shard is at or over capacity; otherwise the first shard with the fewest symbols, and it has room |
| Adapter.ShardSymbols | app/exchanges/binance/adapter.py:154-159 | The dealing loop and the filter produce the first min(k, n) round-robin buckets |
| Adapter.BinanceAdapter.Start | app/exchanges/binance/adapter.py:47-62 | Start creates one fresh shard per non-empty bucket, started with that bucket |
| Adapter.BinanceAdapter.RouteRemovals | app/exchanges/binance/adapter.py:84-88 | Removals reach every owner and leave shards owning none of them untouched |
| Adapter.BinanceAdapter.Capacity | app/exchanges/binance/adapter.py:91 | How many symbols one connection takes: at least one; more than one only within its streams; and one more would not fit |
| Adapter.BinanceAdapter.PlaceSymbol | app/exchanges/binance/adapter.py:92-100 | One addition changes only the least-loaded shard with room, or nothing |
| Adapter.BinanceAdapter.UpdateSubscriptions | app/exchanges/binance/adapter.py:77-100 | An adapter update is removals, then placement of the distinct additions in some order |
| Risk.FrozenIsHistory | app/risk/risk_engine.py:40-88 | In every run the daily figure is the sum of the results closed since the date last changed, and trading is frozen iff some non-empty prefix of them summed to at most minus the limit |
| Risk.HeatIsCount | app/risk/risk_engine.py:48-50 | The heat of positions opened under one configuration is their number times the risk per trade |
| Risk.AllowedIffRoom | app/risk/risk_engine.py:48-72 | Under one configuration a trade is allowed iff trading is neither frozen nor paused, a slot is free, and (open + 1) * risk per trade is within the heat limit |
| Risk.RiskEngine.CheckTradeAllowed | app/risk/risk_engine.py:56-72 | The check rolls the day and reports exactly the applicable reasons, in order |
| Risk.RiskEngine.PortfolioHeat | app/risk/risk_engine.py:48-50 | The summing loop computes the heat |
| Risk.RiskEngine.RegisterClosedPosition | app/risk/risk_engine.py:79-88 | Closing rolls the day, forgets the id if known, books the result and latches the freeze |
| Paper.FirstCrossing | app/execution/paper_engine.py:43-84 | Over any ticks and openings a position is open and unchanged iff no tick of its symbol and exchange reached stop or target; otherwise it is closed exactly once, with price, state and result of the first that did |
| Paper.TickConserves | app/execution/paper_engine.py:56-84 | A tick moves each position it hits from the open book to the closed list, one for one |
| Paper.RepeatedTickClosesNothing | app/execution/paper_engine.py:56-74 | Repeating a tick changes nothing |
| Paper.ExitSign | app/execution/paper_engine.py:68-82 | For levels around the entry, take profit means a gain and stop loss a loss; the exit carries the price and time of the tick, and its fraction and dollar result times the entry are the price move and size times it |
| PaperEngine.PaperTradingEngine.OnPriceUpdate | app/execution/paper_engine.py:56-74 | The loop over a snapshot of the open dictionary, which shrinks underneath it, closes exactly the hit positions, in order, and returns them |
| PaperEngine.PaperTradingEngine.OpenPosition | app/execution/paper_engine.py:43-54 | Opening stores a fresh record under its id, replacing an older one in place |
| PaperEngine.PaperTradingEngine.ForceClose | app/execution/paper_engine.py:86-94 | Closing by id settles that position at the given price and state; unknown ids change nothing |
| Lifecycle.BooksAgree | app/signals/pipeline.py:110-209 | In every interleaving the risk engine and the paper engine hold the same ids in the same order; the open positions plus the one awaiting its verdict stay within the position and heat limits; entries opened = open + closed |
| Lifecycle.HeatStaysWithinLimit | app/signals/pipeline.py:165-209 | Position count and computed heat stay within their limits although the check precedes the wait |
| Lifecycle.ResultsAgree | app/signals/pipeline.py:110-115 | Within a day the figure the freeze acts on is the sum of all closed results in percent of the account |
| Lifecycle.DailyPnlInDollars | app/signals/pipeline.py:110-115 | Times the account equity that figure is 100 times the dollars of all positions closed that day |
| Lifecycle.FreezeFollowsReports | app/signals/pipeline.py:110-209 | Over any number of days the desk's risk state is that of the checks, openings and closings it reported, with their dates: the daily figure sums the results reported since their date last changed, and trading is frozen iff some non-empty prefix of them reached minus the limit |
| Lifecycle.AtMostOneLateOpen | app/signals/pipeline.py:188-209 | Within a day at most one position opens while frozen |
| Lifecycle.LateOpensAfterFreeze | app/signals/pipeline.py:188-209 | From any frozen state of any run, the rest of that day opens exactly one more position if a verdict was awaited and the next one approves, and none otherwise |
| Lifecycle.LateOpensExactly | app/signals/pipeline.py:188-209 | Over any number of days nothing ever opens while frozen iff no freeze comes during a wait whose next verdict approves with trading still frozen |
| Lifecycle.FreezeDuringWait | app/signals/pipeline.py:195-207 | A run in which that one position does open |
| Lifecycle.SignalPipeline.CheckExits | app/signals/pipeline.py:110-125 | A ticker closes positions in the paper engine and reports each closing to the risk engine |
| Lifecycle.SignalPipeline.OnVerdict | app/signals/pipeline.py:195-209 | Only an approved signal is opened, in both engines, and counted; what is opened is `Lifecycle.ApprovalOpensTheSignal` |
| Lifecycle.ApprovalOpensTheSignal | app/signals/pipeline.py:202-209 | Approving a signal whose id is in neither engine appends one open position with the signal's own symbol, exchange, entry, stop, target and size, and one risk entry; nothing else changes |
| Lifecycle.SignalPipeline.EvaluateSignal | app/signals/pipeline.py:175-186 | The risk gate of one evaluation decides whether a verdict is awaited |
| Pipeline.OpenIffNothingCrossed | app/signals/pipeline.py:103-111 | Over any events consumed a position stays open iff no ticker among them crosses its levels |
| Pipeline.JointIsSystem | app/signals/pipeline.py:95-108 | The joint run of buffer, store and desk from start-up contains the run of buffer and store |
| Pipeline.JointIsDesk | app/signals/pipeline.py:95-209 | And the run of the desk, with one ticker step per drained ticker, in order |
| Pipeline.JointBooksAgree | app/signals/pipeline.py:95-209 | So with fresh ids the books agree and the limits hold throughout the joint run |
| Pipeline.OpenIffNothingDeliveredCrosses | app/signals/pipeline.py:95-209 | From any moment with a position open, through any interleaving of pushes, drains, evaluations and verdicts, it stays open iff no event delivered since crosses its levels |
| Pipeline.OpenIffNoCrossingPassed | app/signals/pipeline.py:95-209 | A position open after any part of a run is open after the rest iff no event through its levels passed the buffer any more often in between |
| Pipeline.FreshMeansNotReissued | app/signals/signal_engine.py:67 | The hypothesis those results make about ids follows from fresh signal ids for every open position |
| Pipeline.ApprovedUntilReached | app/signals/pipeline.py:95-209 | From any state with a verdict awaited, on the signal's fields alone: after an approval its position is open iff no ticker of its symbol and exchange delivered since has a price at or below its stop or at or above its target; the first such ticker closes it, once, at its price and processing time, with the matching state and result |
| Pipeline.SignalOpenUntilReached | app/signals/pipeline.py:95-209 | The same for every approved signal of every run from start-up with fresh ids |
| Pipeline.NoCrossingMissed | app/signals/pipeline.py:95-111 | Corollary on the counters: if since the opening neither ticker class was dropped from and none waits, the position is open iff no ticker waiting then or offered since crosses its levels |
| Pipeline.CrossingCanBeMissed | app/ingestion/priority.py:43-44 | A run from start-up that opens a position after a drain, is offered the ticker through its stop, and ends with the position open |
| Pipeline.ConsumeBatch | app/signals/pipeline.py:95-108 | One turn of the consumer loop over the three objects is one drain step of the joint run, of at most 500 events |
| PositionSizing.ApplyPositionConstraints | app/risk/position_sizing.py:33-53 | The clamps in order: the final size is the maximum, the minimum or the raw size according to the flags, never exceeds the maximum, which wins over the minimum, and each flag says whether its clamp acted |
| PositionSizing.RawSizeRisksBudget | app/risk/position_sizing.py:21-30 | At the raw size the stop costs exactly the risk amount |
| PositionSizing.RaisedExactlyBelowBoth | app/risk/position_sizing.py:38-46 | The clamps raise the size iff the raw size is below both limits |
| PositionSizing.LiftedSizeBreaksBudget | app/risk/position_sizing.py:38-43 | A size lifted to the minimum that risks five times the risk amount |
| Friction.FrictionIsMonotone | app/signals/friction.py:16-44 | A smaller order never costs more, nor does an order in a deeper market or over a narrower candle |
| Friction.RoundTripFloor | app/signals/friction.py:32-44 | Friction is at least two taker fees plus the spread, and exactly the base slippage more for an order of size zero |
| Friction.FrictionLaw | app/signals/friction.py:16-44 | Friction is the one figure that is at least fees plus spread and, where above, exceeds them and the base slippage by an amount that times max(ATR, 1e-9) is gamma * range * root(size / max(volume, 1)) |
| Friction.FrictionIsScaleFree | app/signals/friction.py:34-37 | Scaling range and a non-negligible ATR by one positive factor leaves friction unchanged |
| Friction.CoverageIsGate | app/signals/friction.py:47-56 | Coverage ratio and gate are one test wherever friction is at least epsilon |
| Friction.GateSurvivesSmallerSize | app/signals/friction.py:16-56 | A gate passed at one size is passed at every smaller one |
| SignalEngine.FirstFailureIsReported | app/signals/signal_engine.py:76-141 | The gates pass iff all eight conditions, stated on the inputs alone, hold; otherwise they report the first that fails in the documented order. The friction condition compares the reward with the figure of `Friction.FrictionLaw`, characterised without the formula |
| SignalEngine.DecisionByCondition | app/signals/signal_engine.py:58-162 | The decision by the same conditions: NO_TRADE for the first of the first seven that fails, a friction rejection iff only the last fails, and past all of them an entry iff the rolled risk engine allows it |
| SignalEngine.GatesMakeSoundPlans | app/signals/signal_engine.py:91-144 | Whatever the inputs, a plan that passes the gates has its stop the configured multiple of the ATR below the entry, its target at the configured reward-to-risk, a raw size that risks exactly the budget, and the clamped final size |
| SignalEngine.PendingIsSound | app/signals/signal_engine.py:58-162 | An entry is pending only with a sound plan (stop < entry < target for positive reward-to-risk) that the rolled risk engine allows; no outcome changes the risk engine beyond rolling its day |
| SignalEngine.StopCostsAtMostBudget | app/signals/signal_engine.py:107-144 | The dollar loss at the stop is within equity * risk% iff the minimum did not lift the size |
| SignalEngine.GateHoldsAtFinalSize | app/signals/signal_engine.py:117-144 | The friction gate passed at the raw size, and passes at the traded size whenever that is not larger |
| SignalEngine.ConcludeWith | app/signals/signal_engine.py:146-162 | The last gate against the risk engine object |
| BacktestModel.BarsAreAccounted | app/backtest/engine.py:130-203 | Over every bar list each bar is no-trade, rejected, or part of one trade; trades are strictly separated; the risk engine holds exactly the open trade or nothing |
| BacktestModel.TradesAreSound | app/backtest/engine.py:130-225 | Every trade entered not above its entry bar's high, with its levels at the configured reward-to-risk, and left at the first later bar touching a level, the stop winning ties; an open trade has been touched by no bar since |
| BacktestModel.EntriesAreAnnounced | app/backtest/engine.py:162-201 | Over every bar list, for every entry the gates passed at the close of its bar, the entry is the pessimistic fill of the level they announced there, and they passed again at that price |
| BacktestModel.AnnouncedEntriesAreTaken | app/backtest/engine.py:162-201 | The converse: an entry announced and passing again at its fill on a bar that finds no open trade, with the limits admitting one position and no prefix of the results at the loss limit, is in the books ever after |
| BacktestModel.RejectedAreCounted | app/backtest/engine.py:168-173 | Over every bar list the rejected count is the number of bars without an open trade at whose close the friction gate fails, or all gates pass and the risk engine does not admit |
| BacktestModel.EntriesTradedIff | app/backtest/engine.py:162-212 | A run enters only at prices its bars reached iff every entry bar comes down to the fill price of the level announced on it |
| BacktestModel.TradeIsMinusOneOrReward | app/backtest/engine.py:143-152 | A trade is worth exactly -1 R at the stop and the configured ratio at the target, with the matching sign; its percentage times the entry is 100 times the move |
| BacktestModel.FreezeFollowsResults | app/backtest/engine.py:153 | The backtest's freeze: some non-empty prefix of its closed results summed to at most minus the daily limit |
| BacktestModel.FillIsBeyondLevel | app/backtest/engine.py:205-212 | A fill is beyond the level by the penetration buffer and not above the high; no fill means the bar stayed short of it |
| BacktestModel.FillIsTradedIff | app/backtest/engine.py:205-212 | The fill happens within the bar's range iff low <= level * (1 + percent/100) <= high, and is no better than a stop order's price iff the bar does not open above it |
| BacktestModel.GapFillsBelowTheBar | app/backtest/engine.py:205-212 | A gapping bar filled below its low and its open |
| BacktestModel.EagerEntry | app/backtest/engine.py:178-201 | A backtest over that bar with sound gates that enters below everything the bar traded |
| BacktestModel.CandlesBringNoTicker | app/backtest/engine.py:133-138 | After any bars no symbol has a ticker or a book ticker |
| BacktestModel.CandlesAloneNeverTrade | app/backtest/engine.py:156-175 | With gates that need a ticker a run trades nothing, rejects nothing and counts every bar as no-trade |
| BacktestModel.OwnCloseNeverTrades | app/features/feature_engine.py:195-211 | Over closed bars of the key with close <= high, gates that need a breakout with a positive buffer never pass: a run trades nothing and rejects nothing, whatever the ticker |
| Metrics.ExpectancyFollowsWinRate | app/backtest/engine.py:79-90 | For every run with a trade, expectancy = win rate * (reward-to-risk + 1) - 1 |
| Metrics.RatesAreShares | app/backtest/engine.py:78-90 | Times the number of trades, the win rate counts the trades with a positive result and the expectancy sums their multiples of risk |
| Metrics.FiguresAreTotals | app/backtest/engine.py:92-98 | Gains less losses is the sum of all results, gains plus losses the sum of their magnitudes |
| Metrics.CurveLaw | app/backtest/engine.py:104-108 | The equity curve starts at 100 and each trade changes it by its result in percent |
| Metrics.MaxDrawdownPercent | app/backtest/engine.py:100-112 | The one-pass loop returns the d for which every point of the equity curve is at most d percent of the running peak below it and some point exactly so; None iff there are no trades |
| Metrics.PeakFallIsLargestFall | app/backtest/engine.py:104-112 | On a positive curve that is the largest percentage fall over all pairs in time order, within [0, 100) |
| Metrics.DrawdownOfRun | app/backtest/engine.py:100-225 | It is so for every run over bars with positive lows, since every exit price is positive |
| Metrics.LossesVanish | app/backtest/engine.py:92-98 | The profit factor is undefined iff no trade lost |
| Capital.CapitalBound | app/backtest/engine.py:130-203 | Over every bar list with positive lows, if the minimum or the maximum size is within the risk budget, the day's result never reaches minus (loss limit + risk per trade), and nothing is open while frozen |
| CapitalExact.CapitalBoundExactly | app/backtest/engine.py:130-203 | For sensible settings that bound holds over all bars with positive lows and all sound gates iff the smaller of the two sizes is within the risk budget |
| Capital.CloseCostsAtMostRisk | app/backtest/engine.py:140-153 | One close costs the account at most the risk per trade, since a stop that can be hit was not lifted by the minimum size |
| Capital.LiftedStopBreaksBound | app/risk/position_sizing.py:38-43 | A run with a minimum size beyond the risk budget whose day loses far more than the bound |
| Capital.FrozenHasNothingOpen | app/backtest/engine.py:140-155 | In every run nothing is open while trading is frozen |
| Capital.FrozenStopsTrading | app/backtest/engine.py:130-203 | After the freeze no further bar opens or closes anything |
| Backtest.BacktestEngine.Run | app/backtest/engine.py:130-203 | The loop over store, risk engine and counters reports exactly the state of the machine |
| Backtest.SignalEngineGatesAreSound | app/backtest/engine.py:162-166 | The signal engine's gate chain is an instance of the gates the run theorems are about |
| Backtest.SignalEngineNeedsTicker | app/signals/quant_score.py:98-124 | If a score needs the 24h volume of a ticker, the signal engine's gates need a ticker |
| Backtest.SignalEngineNeedsBreakout | app/signals/breakout.py:40-75 | If the trigger asks for a price at or above the level, the signal engine's gates need a breakout |

## Left out

- WebSocket transport, JSON decoding, pings, REST open-interest polling, stopping of tasks: library behaviour; connecting, losing and closing a connection are steps of the model.
- A subscribe message that fails to send, and the time between a socket dying and the loop noticing it: a step of the shard model sees the socket and the state change together.
- Updates that overlap inside one shard or adapter call: each call is one step. The one overlap that matters, an update while subscribing, is a step of the shard runs.
- ShardModel.SymbolsAccounted: assumes that no single request adds and removes the same symbol; the adapter never sends such a request.
- ShardModel.PlainSymbolsAreDistinct: lower-casing is modelled for ASCII letters.
- The Bybit shard and adapter: the same reconciliation and placement with other stream names and message sizes.
- The candidate book-ticker connection: one more shard, fed with set differences.
- Quant score, breakout trigger, absorption, Stage 1 screening, candidate ranking: threshold checks whose outcomes are inputs of the gate chain.
- The auditor: any sequence of verdicts; its cooldown and an unwired auditor are the verdict "declined".
- SQLite storage, API, dashboard, notifications, experiments, logging, settings: plumbing.
- Clocks, dates, random ids and backoff delays: dates and times are parameters, ids are assumed fresh in `Lifecycle.BooksAgree` and `Pipeline.JointBooksAgree`, and the backtest's date is fixed for a run.
- Floating-point rounding: all numbers are reals.
- Friction.FrictionIsMonotone: the square root is any monotone function that is not negative; no other property of it is used.
- Order of iteration over Python sets: any order; the theorems hold for each.
- Non-positive buffer capacity, which the constructor refuses: a precondition. Zero baseline or recent window, for which the formulas raise: a precondition (`Periods.Valid`).
- FeatureEngine.Breakout: a zero lookback, for which the slice is the whole window rather than empty, is excluded; nothing calls it so.
- An entry price of zero, which would divide by zero when a paper position closes: excluded by type; the gate chain never produces one.
- Lifecycle.BooksAgree: forced closes are not steps of the run, since the pipeline never issues one; `PaperTradingEngine.ForceClose` is verified on its own.
- Capital.CapitalBound: assumes positive lows, and a size limit within the risk budget, which `CapitalExact.CapitalBoundExactly` shows to be necessary.
- The backtest gates: any function of store snapshot and price that only lets sound plans through, which `Backtest.SignalEngineGatesAreSound` shows the signal engine's chain to be. The run theorems are not tied to the real quant score, with which nothing trades (`BacktestModel.CandlesAloneNeverTrade`, `BacktestModel.OwnCloseNeverTrades`).
- Metrics getters, `pop_one`, `price_change_percent`, `net_taker_delta`, `pde`, `volume_1m_usd`: single expressions.
