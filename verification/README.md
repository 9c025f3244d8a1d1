# The trade pipeline, verified

This project models how the trade journal ingests trades and turns them into behavioural metrics, and
proves what holds over whole runs of it: many requests and their goroutines, the event stream and its
consumer group, the worker that folds events into two metrics tables, the sorted sets of the
overtrading window, and the cached read path. `dafny verify dfyconfig.toml` checks everything.

## How the model is laid out

| file | what it holds |
|---|---|
| `Timeline`, `Domain`, `EventCodec` | instants and truncations; trades, decimals, P&L and the indicators; the stream event |
| `MetricsTable`, `Batch`, `Incremental`, `Conservation` | upserts as a merge; the GROUP BY statements and the fold over events; the agreement of the two; sums across the two tables |
| `WritePath`, `Requests`, `RevengeRuns`, `ConsumerGroup`, `Pipeline`, `WindowRuns`, `CacheRuns` | state machines: requests and goroutines; one request as a path of them, and what it stores and starts; revenge flags from the losing close on; the consumer group; both with the worker, statement by statement; all of it with the sorted sets and the overtrading events; cached responses |
| `EndToEnd`, `WorkerRuns`, `Witnesses` | from the actions of a run to the batch statements; from the worker's loop to them; runs where the code and its documents disagree |
| `SlidingWindow`, `TradeQueries`, `RollUp`, `MetricsResponse`, `MetricsAnswer`, `Profile`, `QueueLag`, `MetricsCache`, `EventStream` | one component each |
| `TradeHandler`, `Rounds`, `Worker`, `MetricsStore`, `MetricsHandler` | the imperative code as classes, proved against the functions and machines above; `Rounds` is what an iteration of the worker's loop does, on values |
| `Sums`, `Query`, `Prelude` | sums over sets, COUNT and SUM over relations, WHERE and ORDER BY, shared types |

Incremental and batch meet in `Incremental.IncrementalEqualsBatch`, on lists of processed events with the
statements that took effect, on top of the tables that the seed statements made of some trades; empty
tables are the batch over none. `Pipeline` shows that every reachable state of the composed machine, also
between two statements of one message, is such a list, `EndToEnd` when that list is the new trades once
each, and `WorkerRuns` that `Worker.Worker.Run`, the loop as written, makes such a list. `TradeHandler`
runs requests and their goroutines as steps of `WritePath`, and `MetricsHandler` runs requests and cache
writes as steps of `CacheRuns`; `CacheRuns.PipelineChanges` says that the pipeline changes the tables only
as that machine allows.

## How the source is represented

- Instants are nanoseconds since the Unix epoch, and a column keeps microseconds. A NUMERIC(18,8) is a
  whole number of 1e-8 units and a NUMERIC(5,4) of 1e-4 units, rounded half away from zero; Go decimals
  in flight are exact, so they are `real`, and so are floats. int64 wraps around in the queue-lag parser.
- Processes and database sessions run in UTC, which `date_trunc`, `::date`, `EXTRACT(HOUR ...)` and the
  event's entry time depend on. A client's timestamp keeps its own offset: as a DATE parameter it is
  its own calendar date (`Timeline.CivilDay`). Identifiers are in the form in which the database
  prints them.
- Every Redis command and SQL statement is one atomic step. The statements of one message are separate
  steps, and so are pipelined ZSET commands, because the pipeline is not a transaction: after an error
  some prefix of them has run.
- A store call that fails, overflows a column or is cut off by a crash leaves no trace; these choices
  are parameters or actions. An INSERT reported as failed may have been committed, and a reply of
  XREADGROUP may be lost after the entries were delivered.
- An event field is kept as the value that its text denotes; the text forms of decimals, integers and
  RFC 3339 times are library codecs. The flag is the text "1" or "0". A time outside the years 0 to
  9999 has a text that time.Parse refuses, and the worker then goes on with the zero time.
- AVG over NUMERIC is a rounded quotient, known up to half a unit of the eighth place.
- A relation is a sequence of rows, and `ORDER BY` gives any listing sorted by its key; `Batch.SeedBag`
  and the lemmas about listings show what does not depend on the order.
- Clocks, scheduling, failures, the JWT subject and time.Parse are inputs.
- No statement of the worker touches the cache: the frame of `Worker.Worker.Run` names none, and in
  `CacheRuns` a change of the tables leaves every entry as it is.

## Where the code and its documents disagree

The model follows the code.

- Delivery is at most once, not at least once (DECISIONS.md:31): the worker reads only new entries and
  acknowledges whatever the outcome. `ConsumerGroup.DeliveryCanBeLost` gives a run that loses an entry;
  `ConsumerGroup.ProcessedAfterDrain` says exactly which entries are still processed.
- The pipeline does not invalidate the metrics cache (DECISIONS.md:51).
- The overtrading count is not exactly the trades of the last 30 minutes: ZCOUNT includes its bound and
  a goroutine can add between the prune and the count. `Witnesses.TradeAtCutCounted` is such a check,
  and `SlidingWindow.WindowRefinement` says exactly which trades at the bound are counted. Checks out of
  time order can also miss trades: `Witnesses.OutOfOrderUndercounts`, and `SlidingWindow.ExactCount`
  for when.
- A closed trade without an outcome is a loss to the worker and nothing to the seed statements, and such
  trades are accepted (`Batch.ClosedWithoutExit`). An entry time beyond the years 0 to 9999, which an
  offset can bring about (`EventCodec.UnprintableAccepted`), is counted in the bucket of the zero time.
  `Incremental.IncrementalEqualsBatch` and `Incremental.IncrementalTallies` give the exact condition for
  agreement.
- The emotion totals of a day equal its hourly totals only when no message is between its statements:
  `Witnesses.UnequalMidMessage`, and `Pipeline.ConservedInEveryRun` for exactly when.
- The revenge window is not exactly the 90 seconds after the exit (internal/domain/revenge.go:5),
  because the exit time is remembered in whole seconds: `WritePath.WindowShift` gives the exact condition.
- Submission is idempotent for the trades table and not for the metrics (the repository's README.md:29): a repeated
  submission publishes the event again (`Witnesses.ResubmittedCountsTwice`). When nothing is lost or fails
  a trade is counted once for each answer (`EndToEnd.ProcessedPerAnswer`), and so each new trade once
  exactly when each was answered once (`EndToEnd.ProcessedAreNew`).
- `ORDER BY exit_at DESC` puts closed trades without an exit time first, and such trades are accepted
  (`TradeQueries.RatedWithoutExit`): the averaged ratings are those of the latest exits exactly when the
  user has no rated closed trade without one (`TradeQueries.LatestHaveExits`).

## Model

| member | source | states |
|---|---|---|
| EndToEnd.EveryTradeOnce | migrations/005_seed.sql:145-179 | After a run from seeded tables in which no publishing goroutine is dropped, no reply lost, no crash happens and no counts or emotion statement fails, with nothing left over and each new trade answered once, both metrics tables are the seed statements over the whole trades table if and only if each new closed trade has an outcome and a printable year |
| EndToEnd.ProcessedPerAnswer | internal/api/handler/trade.go:94-134 | In such a run each stored trade is processed exactly as often as a request was answered with it |
| EndToEnd.ProcessedAreNew | internal/api/handler/trade.go:94-134 | The bag of processed trades is that of the new trades if and only if each new trade was answered once and no seeded one was |
| Pipeline.MetricsAreBatchOfProcessed | internal/pipeline/worker.go:95-167 | In every reachable state of requests, goroutines, stream, group and worker, from seeded tables, also between two statements of a message and whatever failed: every processed event belongs to a stored trade, and each metrics table equals its GROUP BY over the bag of seeded trades and trades whose statement took effect if and only if the closed ones of the latter have outcomes and printable years and, for the hourly table, no other row was written, which holds when no counts statement failed |
| Pipeline.MetricsFromNothing | internal/pipeline/worker.go:95-167 | The special case of empty tables, when no counts statement failed |
| Pipeline.MetricsAreBatchOfTable | migrations/005_seed.sql:145-179 | If every closed stored trade is seeded or had its counts statement take effect, once in all, and likewise every one with an emotion, whatever else failed, the two tables are the seed statements over the trades table itself |
| Pipeline.AlwaysSafe | internal/pipeline/worker.go:50-167 | In every reachable state, mid-message too, whatever fails, crashes or repeats: rows built from nothing are partitioned into wins and losses, bounded rows stay bounded, no entry is processed twice, revenge flags stay justified, and the trades table stays well formed and only grows |
| Pipeline.WinRatesInEveryRun | internal/api/handler/metrics.go:113-117 | In every reachable state, from empty or seeded tables, every win rate that any range query leads to is in [0, 1] |
| Pipeline.ConservedInEveryRun | internal/pipeline/worker.go:99-167 | In every reachable state, mid-message too, from seeded or empty tables, the exact condition for a day's emotion totals to be within its hourly totals; when no counts statement failed they are, and are equal exactly when every seeded trade and every counted event of the day is in the emotion rows |
| Pipeline.ColumnsStayInRange | internal/pipeline/worker.go:129-153 | In every reachable state every stored plan average is in [1, 5] and every stored tilt index in [0, 1], the reads being those of the trades table as it was |
| Witnesses.UnequalMidMessage | internal/pipeline/worker.go:122-164 | A run to the state between the two statements of any accepted closed trade, where its day's emotion totals are below its hourly totals |
| Witnesses.ResubmittedCountsTwice | internal/store/trade_store.go:46-59 | A run in which any accepted closed trade of a printable year is submitted twice, stored once and counted twice in its hourly row |
| Pipeline.CountsLeadAlways | internal/pipeline/worker.go:122-167 | Because the counts statement comes first, no event reaches another column or table without it unless that statement itself failed |
| WindowRuns.EveryCount | internal/pipeline/worker.go:169-175 | In every run, with goroutines adding between the worker's own commands: whatever a check counts is a stored trade not older than the cut, a trade not newer than the cut is counted exactly when its first add since the check's prune is at the cut, if no earlier check ran ahead every trade added so far whose whole-second entry is newer is counted, and for whole-second trades the count is the exact set |
| WindowRuns.EveryEvent | internal/pipeline/worker.go:175-180 | In every run each overtrading event rests on such a count: its number is at least eleven and is the size of a set of stored trades none of which entered before its window start |
| WindowRuns.CheckAlerts | internal/pipeline/worker.go:169-180 | In any state, whatever happens between a check's count and its test: exactly one event with that count, the user and a window start half an hour before the message's entry is inserted if the INSERT succeeds and at least eleven members of the user's set are at or above the cut, and none otherwise |
| WindowRuns.ElevenTradesAlert | internal/domain/overtrading.go:5-15 | In every run, eleven stored trades of the user added before the count, whose whole-second entries are after the cut, raise exactly one event when no check ran ahead and the INSERT succeeds |
| WindowRuns.SendIssues | internal/cache/zset.go:39-52 | The check's commands, in order, on the set of the message's user: the trade at its entry in ms, the prune and the count half an hour before |
| WindowRuns.GoroutineAdds | internal/api/handler/trade.go:136-141 | A goroutine's ZADD is the next command on the set of the trade's user, and on no other |
| Incremental.IncrementalEqualsBatch | migrations/005_seed.sql:145-164 | On top of the GROUP BY over any seeded trades, for every order, repetition and failure of events, behavioral_metrics equals the GROUP BY over the seeded trades and those whose counts took effect exactly when the closed ones of the latter have outcomes and printable years and no stray row was written |
| Incremental.IncrementalTallies | migrations/005_seed.sql:167-179 | And emotion_win_rates equals its GROUP BY over the seeded trades and those whose emotion statement took effect exactly when the closed ones with an emotion of the latter have outcomes and printable years |
| Incremental.AnyOrderEqualsBatch | migrations/005_seed.sql:145-179 | When every closed trade of a table is seeded or has its statements take effect once, in any order and with any other failures, both tables are the batch statements over it |
| Batch.SeedBag | migrations/005_seed.sql:145-176 | The aggregating statements depend on the bag of trades only |
| Batch.SeedClosedOnly | migrations/005_seed.sql:156-171 | The aggregating statements see closed trades only, the second one those with an emotion |
| Incremental.ReplayRow | internal/pipeline/worker.go:102-153 | From any tables and whatever failed, a row has gained the batch counts of the trades whose counts took effect plus one loss per undecided trade, and exists if it did, for those trades and for strays |
| Incremental.ReplayTally | internal/pipeline/worker.go:155-167 | The same for a user, emotion and day |
| Batch.ClosedWithoutExit | internal/domain/trade.go:55-96 | A closed trade without an exit price passes validation and is stored without outcome, and only such trades are |
| Batch.PartitionKept | internal/pipeline/worker.go:103-127 | Under any failures rows from empty tables keep wins + losses = trades, bounded rows stay bounded, and trade counts never fall |
| Batch.SeededRows | migrations/005_seed.sql:149-154 | Seeded rows are bounded, and partitioned exactly when every closed trade has an outcome |
| Batch.OutcomesPartition | internal/pipeline/worker.go:106-110 | In the worker's reading of any bag wins + losses = trades |
| Batch.PnlDrift | migrations/001_init_schema.sql:47 | A bucket total over n trades is within n half-units of the exact sum of their profits |
| Conservation.GapLaw | internal/pipeline/worker.go:99-167 | From any tables and under any failures, the trades (or wins) of a day missing from the emotion table change by exactly the events that reached one table and not the other |
| Conservation.SeedGap | migrations/005_seed.sql:144-176 | Of the day's trades that the seed statements count by the hour, their emotion rows miss just those without emotion or without outcome |
| Conservation.EmotionsWithinTrades | internal/pipeline/worker.go:155-167 | From seeded or empty tables, the exact condition for a day's emotion totals to be within its hourly totals, and, when no event missed the hourly rows alone, for equality |
| MetricsTable.MergeMonoid | internal/store/metrics_store.go:122-130 | The conflict clause is an associative merge with the zero row as identity |
| MetricsTable.UpsertPair | internal/store/metrics_store.go:118-130 | Two upserts on one key are one upsert of the merged row, and on different keys they commute |
| MetricsTable.OneUpsertPerEvent | internal/pipeline/worker.go:122-153 | The up to three partial upserts of an event, each possibly failed or skipped, are one combined upsert |
| MetricsTable.EventEffect | internal/pipeline/worker.go:102-153 | What a message does to any row: only the row of its user and its entry's hour is touched, where one trade, a win or a loss, its pnl and its flag are added and the two averages replaced to the nearest 1e-4, each unless its statement failed or its read gave nothing, and the overtrading column never changes |
| MetricsTable.EmotionEffect | internal/pipeline/worker.go:155-167 | And to any tally: that of its user, its emotion and its entry's day gains a win or a loss |
| Pipeline.CountsStatement | internal/pipeline/worker.go:122-127 | In the composed machine the counts statement, if executed, has just its part of that effect and otherwise none |
| Pipeline.PlanStatement | internal/pipeline/worker.go:129-139 | The plan statement has just the plan part of it, with the average that was read |
| Pipeline.TiltStatement | internal/pipeline/worker.go:141-153 | The tilt statement has just the tilt part of it |
| Pipeline.EmotionStatement | internal/pipeline/worker.go:155-167 | The emotion statement has the effect on the tally |
| MetricsTable.ApplyConcat | internal/store/metrics_store.go:118-130 | Batch boundaries between upserts do not matter |
| MetricsTable.ApplyAllCell | internal/store/metrics_store.go:122-130 | After any upserts, additive columns hold the sum of what was supplied and each COALESCE column the last non-null value |
| MetricsTable.AdditiveOrderFree | internal/store/metrics_store.go:122-130 | Which rows exist and what their additive columns hold does not depend on the order of the upserts |
| WritePath.RevengeSound | internal/api/handler/trade.go:82-105 | Over all runs, a row stored with the flag comes after a different losing close of the same user, strictly between 1 s before and 90 s after that exit, entered anxious or fearful, whatever asynchronous writes are delayed, dropped, overwritten or expired |
| RevengeRuns.RevengeExact | internal/api/handler/trade.go:82-91 | Once a losing exit of the user is remembered and until another one is, whatever else happens: a request under a new id is stored with the flag if and only if less than 90 s have passed on the clock, the trader is anxious or fearful, and the entry is from the remembered second on and less than 90 s after it |
| RevengeRuns.LosingCloseFlags | internal/api/handler/trade.go:82-105 | The same from the losing input itself: it is answered, its goroutine runs, and the next input is judged by the whole second of its exit |
| RevengeRuns.CheckFlags | internal/domain/revenge.go:5-13 | In any state, the check flags exactly when its read succeeds and finds an unexpired second, the trader is anxious or fearful, and the entry is from that second on and less than 90 s after it |
| Requests.AnswerStarts | internal/api/handler/trade.go:102-142 | Whatever step answers a request, for a new or a stored record, starts exactly the goroutine that remembers a closed losing exit, if it is one, the one that publishes and the one that adds to the window |
| Requests.NewRow | internal/api/handler/trade.go:55-101 | A request under a new id is answered with its own row: amounts to the nearest 1e-8 and instants cut to the microsecond; a closed trade with an exit price has as pnl the price move times the quantity, negated for a short, to half a unit, and is a win exactly when that is positive; other trades have neither |
| Requests.OverflowFails | migrations/001_init_schema.sql:45-47 | A price or quantity of 10^10 or more makes the request fail and leave nothing |
| WritePath.UpsertRaceFree | internal/store/trade_store.go:23-59 | However clients interleave insert and fallback select, the select finds a row, all answers for one trade id are the one stored record, and no row ever changes |
| WritePath.StepKeeps | internal/api/handler/trade.go:75-141 | Each step keeps the invariant that ties last_loss, waiting requests, goroutines and the stream to stored trades |
| WritePath.RatingsStayInRange | internal/domain/trade.go:86-88 | No run stores a plan adherence outside 1 to 5 |
| WritePath.WindowShift | internal/domain/revenge.go:7-13 | The check on the remembered whole second agrees with the check on the exact exit time exactly when the entry is in neither of two gaps; and a concrete entry before its exit is flagged |
| Requests.CreateOutcome | internal/api/handler/trade.go:75-141 | The machine's steps of one uninterrupted request store, answer and start goroutines as the two statements of the upsert return, for every failure |
| TradeHandler.TradeHandler.Create | internal/api/handler/trade.go:35-144 | The reply and the whole state afterwards are those of the machine's path for this request; a refused request changes nothing |
| TradeHandler.TradeHandler.Prepare | internal/api/handler/trade.go:75-91 | The draft carries the P&L of a closed trade and the flag that the machine's check gives |
| TradeHandler.TradeHandler.RunTask | internal/api/handler/trade.go:103-141 | Each started goroutine's command on the key, the stream or the sorted set is the machine's step |
| EventCodec.DecodeEncode | internal/api/handler/trade.go:108-134 | Decoding the event of a stored trade gives every field back with the entry time cut to the second, and the hour and day buckets are those of the original time exactly for the years 0 to 9999 |
| EventCodec.UnprintableAccepted | internal/domain/trade.go:55-96 | An accepted and storable input whose offset carries it into the year 10000, so that the worker reads the zero time |
| EventCodec.EncodeInjective | internal/api/handler/trade.go:109-133 | Trades with equal events agree on all published fields, present or absent |
| EventCodec.EncodeCarries | internal/api/handler/trade.go:109-133 | The conditional assignments set exactly the fields that the trade has |
| Timeline.OriginsAgree | internal/pipeline/worker.go:100-163 | Go's Truncate from year 1, the database's truncation from 1970 and time_bucket from 2000 give the same hours and days |
| Timeline.ReparsedBuckets | internal/pipeline/worker.go:99-100 | The trip through text keeps the hour and the day for the years 0 to 9999, and puts every other time into a bucket that is not its own |
| Timeline.TruncNested | internal/store/metrics_store.go:43 | Truncating to a multiple of a width after truncating to the width is truncating directly, for any origin and times before it |
| Timeline.CivilDayShift | internal/store/metrics_store.go:86-87 | A bound's own calendar date is its UTC date exactly when its offset does not carry it over a midnight |
| ConsumerGroup.AtMostOnceInOrder | internal/pipeline/worker.go:50-80 | With any arrivals, crashes, restarts and errors each entry reaches processMessage at most once, in stream order, and acked is within processed is within delivered |
| ConsumerGroup.StepKeeps | internal/cache/stream.go:41-54 | Read, lost reply, process, ack and crash each keep the group invariant |
| ConsumerGroup.MeasureDecreases | internal/pipeline/worker.go:58-79 | An error-free step decreases a measure that is zero exactly when the group is drained |
| ConsumerGroup.Drains | internal/pipeline/worker.go:58-79 | Without errors and arrivals every entry not yet processed is processed once in order, and pending shrinks to what crashes and lost replies had left |
| ConsumerGroup.ProcessedAfterDrain | internal/cache/stream.go:41-49 | An entry gets processed if and only if it already was, is held by the worker or has not been delivered |
| ConsumerGroup.DeliveryCanBeLost | internal/cache/stream.go:41-49 | After a lost reply its entry is never processed, whatever follows |
| Worker.Worker.ProcessMessage | internal/pipeline/worker.go:83-196 | The two tables, the trades table, the sorted sets' logs and the overtrading events afterwards, under any failures and with requests inserting and adding meanwhile; each read gives the average or index of the trades table at that moment, and nothing just when it is skipped, fails or finds nothing; an event that is not closed changes nothing |
| Worker.Worker.CheckWindow | internal/pipeline/worker.go:169-180 | The log of the sorted sets after every prefix of the three commands, with other goroutines' adds between them, and an event inserted exactly when more than ten trades are counted |
| Rounds.ClosedChecked | internal/pipeline/worker.go:169-180 | What a closed message does to its user's window when all commands run: the trade is added at its entry in ms, the count follows the prune at half an hour before with only adds between, and one event is inserted if and only if that count is at least eleven and the INSERT succeeds |
| Rounds.NotChecked | internal/pipeline/worker.go:84-98 | An event that is not of a closed trade changes nothing, and a check whose count is not executed inserts no event |
| Rounds.TablesProcessed | internal/pipeline/worker.go:95-167 | What processMessage does to any row and any tally, with its reads and failures |
| Worker.Worker.HandleBatch | internal/pipeline/worker.go:68-79 | The batch is processed and acknowledged in order, one machine step per call, and the tables, sets and events are what exactly these calls, with the faults of each entry, make of them |
| Worker.Worker.Run | internal/pipeline/worker.go:42-81 | After any number of iterations, with trades, events and window adds arriving meanwhile, stream and group are in the machine's state for those iterations, one call was made on each entry of each reply, and the tables, sets and events are what the arrivals and those calls, with the failures of their iteration, make of the former ones |
| Rounds.RoundGroup | internal/pipeline/worker.go:58-79 | What an iteration does to the group: up to ten new entries delivered unless the read fails, each processed once and in order if the reply comes, and pending just those not acknowledged |
| Rounds.RoundsAreSteps | internal/pipeline/worker.go:50-80 | Any iterations are a run of the consumer-group machine |
| Rounds.RepliedRounds | internal/pipeline/worker.go:50-80 | Iterations whose replies come process what arrived once each, in order, ten entries each until the stream is drained |
| WorkerRuns.RunLeavesBatch | internal/pipeline/worker.go:50-167 | When no counts or emotion statement fails, whatever happens to reads and acknowledgements, the loop leaves the seed statements over the seeded and the processed trades if and only if the closed ones of the latter have outcomes and printable years |
| WorkerRuns.EnoughRoundsLeaveBatch | internal/pipeline/worker.go:50-167 | With one answered read for every ten undelivered entries these are the trades of all of them, even if acknowledgements fail |
| SlidingWindow.ZSetClient.OvertradingCheck | internal/cache/zset.go:39-52 | Each set stays what its command log makes of it, the log after each prefix of the three commands among others' adds, and the count when all three ran |
| SlidingWindow.CheckIsOneCheck | internal/cache/zset.go:39-52 | A complete check of the client adds its trade next in its set's log and later prunes and counts, with only adds between |
| SlidingWindow.WindowKeyInjective | internal/pipeline/worker.go:171 | No two users share a set |
| SlidingWindow.WindowRefinement | internal/cache/zset.go:39-52 | For every interleaving, a check counts only added trades not older than its cut, counts a trade not newer than it exactly when its first add since the prune is at the cut, and, if no check ran ahead, counts every added trade newer than the cut |
| Witnesses.TradeAtCutCounted | internal/cache/zset.go:39-52 | A check, with a handler's add inside it, that counts a trade which is exactly 30 minutes old |
| SlidingWindow.CountIsPrunedSize | internal/cache/zset.go:43-44 | With non-negative scores an uninterrupted check counts exactly the pruned set |
| SlidingWindow.MemberSurvives | internal/cache/zset.go:42-43 | A whole-second trade is in the set exactly when some add of it is not followed by a prune that reaches it |
| SlidingWindow.ExactCount | internal/cache/zset.go:39-52 | For whole-second trades, with adds anywhere, a check counts the distinct trades newer than the cut and the ones added at the cut since its prune, all of them exactly when none was pruned ahead of time, and so always for checks in time order |
| Witnesses.OutOfOrderUndercounts | internal/cache/zset.go:39-52 | Two checks of which the one that ran ahead makes the later one miss a trade in its window |
| RollUp.RollUpConserves | internal/store/metrics_store.go:42-57 | At every granularity the counts and pnl over the returned buckets sum to those of the hourly rows in range |
| RollUp.RollUpNests | internal/api/handler/metrics.go:56-64 | Rolling up to a width and then to a multiple of it gives the same buckets and sums as rolling up directly |
| RollUp.AverageBounds | internal/store/metrics_store.go:48-49 | An average of stored averages stays within the bounds of its inputs |
| MetricsStore.MetricsStore.UpsertBucket | internal/store/metrics_store.go:113-137 | The table afterwards is the merge of the rounded row, or unchanged on failure |
| MetricsStore.MetricsStore.QueryRange | internal/store/metrics_store.go:41-79 | One bucket per non-empty group, strictly increasing, each with the sums and averages of exactly its group |
| MetricsStore.MetricsStore.QueryEmotionWinRates | internal/store/metrics_store.go:82-110 | One rate for each emotion with a row between the two bounds' own calendar dates, with its totals, and 0 when they are 0 |
| MetricsStore.Summarise | internal/api/handler/metrics.go:97-146 | One point per bucket, and the two scores are the means over the buckets that have a value, 0 without any |
| MetricsStore.WinRatesAreRatios | internal/api/handler/metrics.go:113-117 | Every win rate made of a query over bounded rows is in [0, 1] |
| MetricsHandler.MetricsHandler.Get | internal/api/handler/metrics.go:25-178 | A refused request touches nothing; a hit is answered with a body that is fresh enough; a miss is answered in all four parts from the tables as they are, each count that of its query unless that failed, and is the machine's path of four queries, which leaves a write of that answer |
| MetricsHandler.MetricsHandler.Serve | internal/api/handler/metrics.go:25-178 | Over any schedule of requests with statements of the worker, passing time and cache writes in between, every reply is right in a state that the machine went through: fresh enough when it comes from the cache, from the tables as they were when not |
| MetricsHandler.MetricsHandler.RunWrite | internal/cache/metrics.go:31-33 | A started write, run at any later time, is the machine's step |
| MetricsResponse.PointsShowCounts | internal/api/handler/metrics.go:80-137 | The points of an answer show exactly the trade counts of the rows in range |
| MetricsAnswer.PointsExact | internal/api/handler/metrics.go:80-137 | Each point answers for the user's rows in the closed range and in its interval of an hour, a day or 30 days from 3 January 2000: their trades, their wins divided by these, their pnl and the mean of their plan averages; intervals are disjoint and in order, and every row is in one |
| MetricsAnswer.ScoresExact | internal/api/handler/metrics.go:99-146 | The two scores are the means of the groups' mean plan averages and mean tilts over the groups that have one, 0 when none has |
| MetricsAnswer.RatesExact | internal/store/metrics_store.go:82-110 | A rate has the wins and losses of the user's days with its emotion between the two dates, and their quotient |
| MetricsAnswer.EmotionHasRate | internal/store/metrics_store.go:82-110 | Every emotion with such a day has a rate |
| MetricsAnswer.CountsExact | internal/store/metrics_store.go:159-173 | The two plain counts are those of the user's flagged trades entered, and overtrading events emitted, in the closed range, or 0 when a query failed |
| MetricsCache.KeyInjective | internal/api/handler/metrics.go:45-70 | For accepted timestamps equal keys come from equal requests, for every user id, even with colons |
| MetricsCache.DateTimeAccepted | internal/api/handler/metrics.go:45-54 | The date-time grammar of section 5.6 of RFC 3339 lies within the accepted timestamps |
| MetricsCache.UncheckedKeysCollide | internal/api/handler/metrics.go:70 | Without the handler's check of the timestamps two requests could share a key |
| CacheRuns.ServedResponses | internal/api/handler/metrics.go:69-77 | In every run of requests, queries, changes and delayed writes, a hit answers exactly the request; each of its four parts answers it from a table state reached before its write, later parts from no earlier state; it is less than five minutes old; and no trade count of its points and neither of its plain counts is above the current one |
| CacheRuns.WrittenIsServed | internal/api/handler/metrics.go:69-77 | Once a finished response is written, and until another is under its key, its request is served just this response for exactly 300 s |
| CacheRuns.LastAnswerWrites | internal/api/handler/metrics.go:171-173 | The answer to the last query starts the write of the response |
| CacheRuns.PipelineChanges | internal/pipeline/worker.go:122-180 | Every step of the pipeline, its overtrading inserts included, changes what a response is read from only by growth of its counts and lists |
| CacheRuns.PipelineHistory | internal/pipeline/worker.go:122-180 | The states of any run of the pipeline are a history of the machine of cached responses |
| Domain.PnlSigns | internal/domain/trade.go:101-114 | A win is stored with pnl at least 0 and a loss with at most 0, the stored pnl is within half a unit, and long and short are negatives with different outcomes unless the pnl is 0 |
| Domain.StoredProfit | internal/domain/trade.go:101-114 | The stored pnl and outcome in terms of the input: the move times the quantity to half a unit, and a win exactly when it is positive |
| Domain.AmountFits | migrations/001_init_schema.sql:45-47 | Exactly the amounts that round to less than 10^10 fit their column |
| Domain.RoundedBounds | migrations/001_init_schema.sql:47 | Storage rounding moves a value by at most half a unit, keeps its sign and is odd |
| Domain.RollingAvg | internal/domain/adherence.go:5-22 | The mean of the last ten ratings, 0 for none |
| TradeQueries.GetLastPlanAdherenceRatings | internal/store/trade_store.go:103-125 | The ratings of the first trades, at most limit of them, of some listing of the user's rated closed trades by latest exit |
| TradeQueries.LatestExitsFirst | internal/store/trade_store.go:104-108 | In that listing an earlier exit comes later, and no exit comes before a missing one |
| TradeQueries.AverageOfLatest | internal/pipeline/worker.go:129-139 | What the plan read gives is the average rating of at most ten of the user's rated closed trades; if any is left out there are ten, and it exited no later than each of those that has an exit |
| TradeQueries.RollingOfLastTen | internal/store/trade_store.go:104-108 | Under LIMIT 10 there are as many ratings as rated closed trades, up to ten, the last-ten cut drops nothing, and the average lies in [1, 5] and fits its column |
| TradeQueries.LatestHaveExits | internal/store/trade_store.go:104-108 | The averaged ratings are those of trades with an exit time if and only if all rated closed trades of the user have one |
| TradeQueries.RatedWithoutExit | internal/domain/trade.go:55-96 | A closed, rated input without exit time passes validation and is stored |
| TradeQueries.ReadsInRange | internal/pipeline/worker.go:129-153 | Whatever the worker's two reads can give fits its column as an average in [1, 5] and a ratio in [0, 1] |
| TradeQueries.GetSessionTiltData | internal/store/trade_store.go:128-143 | The counts of the LAG query on a listing of the session by entry |
| TradeQueries.TiltAppend | internal/store/trade_store.go:129-139 | A trade that enters last adds the outcome of the previously last one |
| TradeQueries.TiltIsAllButLast | internal/store/trade_store.go:129-139 | The LAG query counts losses and outcomes of all trades but the last |
| TradeQueries.TiltOfOthers | internal/pipeline/worker.go:141-153 | What the session read gives is the share of losses among the outcomes of the session's trades without the one listed last by entry |
| TradeQueries.TiltOfSession | internal/store/trade_store.go:129-139 | When one trade enters after all others the answer depends on the bag of trades only |
| TradeQueries.TiltInUnitInterval | internal/domain/tilt.go:5-10 | The index is the exact ratio of the two counts, lies in [0, 1] and fits NUMERIC(5,4) |
| Profile.GetEvidence | internal/store/trade_store.go:178-227 | At most ten matching trades, latest entry first, and their sessions by first occurrence |
| Profile.ClausesMean | internal/store/trade_store.go:180-201 | The clauses in plain terms: a ninth trade in the session, half an hour, an amount of 100, the hours from 9:00 to 16:00, and the rest |
| Profile.LatestEntriesFirst | internal/store/trade_store.go:205 | The listing that evidence is cut from holds just the matching trades, the latest entry first |
| Profile.HitsAreMatches | internal/store/trade_store.go:205 | A pathology lists as many trades as match it, up to ten |
| Profile.ShownExactly | internal/api/handler/profile.go:92-111 | Shown are just the pathologies whose query succeeded and which two trades match, each once and in a fixed order |
| Profile.StrengthsMean | internal/api/handler/profile.go:113-133 | Each strength is the absence of its pathologies, and the last two need a pathology |
| Profile.SessionsDistinctInOrder | internal/store/trade_store.go:213-225 | The session list has exactly the sessions of the listed trades, once each, by first occurrence |
| Profile.SizingIsAverage | internal/store/trade_store.go:199-200 | The clause about position sizes holds for quantities above one and a half times the exact average and not for those below, up to three quarters of a unit of the eighth place that the rounding of AVG can make |
| Profile.SessionClausesAreWhole | internal/store/trade_store.go:183-196 | The two clauses about sessions take all of a user's trades in a session or none |
| Profile.HitsWithinAll | internal/store/trade_store.go:205 | On one snapshot no pathology lists more trades than the unfiltered query |
| Profile.BuildProfile | internal/api/handler/profile.go:81-133 | Exactly the pathologies with two trades or more are shown in the fixed order, every confidence is in (0, 1] and is the plain ratio, so the clamp changes nothing on one snapshot |
| Profile.ClampNeededAcrossSnapshots | internal/api/handler/profile.go:98-101 | When the table grows between the two queries the ratio can exceed 1 |
| QueueLag.GetQueueLag | internal/api/handler/health.go:46-76 | The nested loops compute the lag of the digits before the first dash, with int64 wrap-around |
| QueueLag.DecimalRoundTrip | internal/api/handler/health.go:60-62 | On the decimal text of any number below 2^63 the digit loop gives the number back without overflow |
| QueueLag.LagOfStreamId | internal/api/handler/health.go:52-74 | For every id of a time from 1 to 2^63 - 1 and any sequence number the time is recovered and the lag is the clock's distance, never negative |

## Left out

- HTTP routing, JSON, JWT verification, logging and SSE streaming: I/O and library calls.
- Connection retry, configuration, migrator start-up and the load test: plumbing.
- Asset, asset class, rationale and the two bookkeeping times of a trade: copied through, and Validate's checks of the first three with them.
- Foreign keys and UUID syntax: a row that they refuse is an insert that fails.
- Session summary, debriefs and user lookup: single plain queries.
- InvalidateUser: nothing calls it.
- The profile's cache and its fixed peak performance window.
- The seed's session-tilt UPDATE and its AVG of plan adherence: the worker's rolling values differ from them by design, so of these two columns only the COALESCE law and the ranges are claimed, the latter from tables in range.
- RevengeRuns.RevengeExact: nothing about a loss that is not the one remembered last, because the code does not provide it: the key is overwritten and expires on the wall clock.
- Several workers at once: the source starts one consumer, worker-1.
- Worker.Worker.Run: the unbounded loop is any finite schedule of iterations, events arrive between reads, and a crash in the middle of a batch appears only in ConsumerGroup, Pipeline, WindowRuns and EndToEnd.
- TradeHandler.TradeHandler.Create: one request by itself; interleaving with other requests is in WritePath.
- MetricsHandler.MetricsHandler.Get: the tables stand still during its four queries; changes between them are in CacheRuns.
- MetricsHandler.MetricsHandler.Serve: of other processes' statements only the worker's counts upsert; all of them are in CacheRuns.PipelineChanges.
- SlidingWindow.WindowRefinement: of trades entered outside the years 0 to 9999, whose two scores are unrelated, only that they were added.
- Domain.PnlSigns: prices times quantity are exact reals, as in the decimal library.
- Floating-point rounding.
