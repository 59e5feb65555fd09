# Verified model of the cost-observability platform

A Dafny model of the parts of the platform that carry state, arithmetic or a
fast and a simple form of one thing, with proofs of what they promise.
`dafny verify dfyconfig.toml` checks all of it.

- **Ingest service** (`Dedup`, `RetryInsert`, `Batch`, `Ingest`,
  `IngestProtocol`, `Flushing`, `Stopping`, `Buffering`): the request handler, the
  sharded TTL set, the bounded buffer and its flush loop. The sequential operations are classes; the
  concurrent service is a step relation in which every locked section, channel
  operation and insert attempt is a step of its own, with ledgers for every
  place an event can be.
- **SDK queues** (`Shipping`, `TsQueue`, `TsProgress`, `PyQueue`, `PyProgress`,
  `PyShutdown`, `GoQueue`, `GoProgress`): three implementations of one contract,
  each as a step relation and as a class, what a successful flush guarantees in
  each, when batches leave and that draining ends. `Resend` and `Delivery` join a
  client with the service.
- **Request ids** (`Ulid`, `Arith`): the 32-bit bit-stream encoders against the
  big-integer one, over any ascending alphabet.
- **Forecasts** (`LinearFit`, `HoltWinters`, `Forecast`): least squares and
  additive Holt-Winters over exact reals.
- **Pricing** (`Pricing`, `Cost`) and the **stream tee** (`Sse`), which covers a
  subset of sections 9.2.5 and 9.2.6 of the WHATWG HTML Living Standard: a line
  ends in a line feed and every data line is a whole event.
- **Rollups** (`Rollup`, `Breakdown`), **reconciliation** (`Recon`), **billing sync**
  (`Billing`) and **alerting** (`Alerts`, `AlertIsolation`).

Conventions: clocks, senders, the insert, the JSON decoder and the calendar are
oracles, whose answers are inputs of a run. Money is exact: integers in a fixed
unit, or reals. The clock of the ingest runs does not go back; what a clock that
does can cause is in `Dedup` (`Dedup.AnsweredRightExactly`). Events of the SDK
queues are integers, since the queues never look inside them.

Where the code does not do what its comments or its neighbours promise, the
model follows the code, a lemma gives an input that shows it, and another lemma
says exactly when the promise holds:

- An id is recorded as seen before the buffer is asked for room. A batch that was
  refused with 429 and is resent, as the SDKs do, is answered 202 and dropped
  (`Ingest.ResendAfter429IsLost`, `Resend.DeliveredButNeverStored`, with an input
  in `Resend.OneEventCanBeLost` and a run of client and service in
  `Delivery.DeliveredAndLost`; `Ingest.BatchReachesBuffer` has the exact
  condition, and `Delivery.DeliveredIsAccounted` says that only such a refusal,
  with 429 or with 400 for an invalid event behind it, can keep the id of a
  delivered event out of the buffer).
- A request can be held up between examining an event and appending it, so two
  copies of an id can enter the buffer in one instant, although they are examined
  the TTL apart (`Buffering.TwoBufferings`; `Buffering.GapIsExactly` has the exact
  bound).
- The Go SDK's flushWait says it waits for the buffer and the batch in flight,
  but the run loop's own batch is in neither
  (`GoQueue.FlushWaitCanMissAnEvent`, `GoQueue.FlushWaitGuarantee`).
- An append between Shutdown's flush and its second look at the depth can stay
  behind (`IngestProtocol.ConcurrentAddSurvivesShutdown`;
  `IngestProtocol.ShutdownLeavesEvents` says exactly when).
- Python's flush comment promises every event was shipped or dropped; an event
  evicted to make room for the sentinel is neither counted nor sent
  (`PyShutdown.FlushCanMissAnEvent`). The promise holds in every run exactly for
  unbounded queues (`PyShutdown.FlushPromiseNeedsUnboundedQueue`), and in one run
  exactly if nothing was evicted (`PyQueue.FlushIsExact`,
  `PyShutdown.EvictionsExactly`).
- The Go price cache joins provider and model with a NUL
  (`Pricing.NulCanHideRule`, `Pricing.CacheIsInvisibleExactly`,
  `Pricing.CollisionsNeedNul`).
- Go treats every rule kind but "prefix" as exact, Python only "exact"
  (`Pricing.EnginesCanDisagree`, `Pricing.EnginesAgreeOnTable`).
- The alert store keeps microseconds, so a cooldown can come out up to one
  microsecond short, and a fire that could not be recorded does not start one
  (`Alerts.CooldownCanFallShort`, `Alerts.UnrecordedFireHoldsNothingBack`;
  `Alerts.CooldownIsKeptExactly` says exactly when it is kept). The
  assignment of the fire's time to the loaded rule has no effect, because rules
  are loaded afresh in every cycle.
- alertd's comment says a bad rule cannot block other rules. Rules are loaded
  together or not at all, so one whose scope, config or target config is JSON of
  an unexpected shape keeps every rule from being evaluated
  (`AlertIsolation.UnreadableRuleSilencesAnother`,
  `AlertIsolation.OneUnreadableRuleStopsAll`; exactly when a rule is isolated is
  in `AlertIsolation.TurnIsOwnExactly` and `AlertIsolation.RulesAreIsolatedExactly`).
- A retry limit of zero makes RetryInsert report success without an insert
  (`RetryInsert.Run`); the buffer's defaults rule it out (`Batch.Normalized`).

## Model

| member | source | states |
|---|---|---|
| `Dedup.SeenRefinesHistory` | services/ingest/internal/dedup/dedup.go:43-71 | `Seen` answers true exactly when the latest recording of the key is less than the TTL old: shards, hash and sweeps between the calls cannot be observed as long as no sweep read a later clock than the call |
| `Dedup.SeenInOrder` | services/ingest/internal/dedup/dedup.go:43-71 | the same for every non-decreasing clock |
| `Dedup.AnsweredRightExactly` | services/ingest/internal/dedup/dedup.go:43-71 | for any clock whatever: every question about a key was answered as the plain history would if and only if none met a recording that was still fresh but had been swept |
| `Dedup.SweepAheadOfClockIsObservable` | services/ingest/internal/dedup/dedup.go:60-71 | a history in which a question does meet such a recording |
| `Dedup.RecordingMovesForward` | services/ingest/internal/dedup/dedup.go:43-56 | a recording of a key is only ever replaced by a later one |
| `Dedup.RecordingOutlives` | services/ingest/internal/dedup/dedup.go:43-71 | a key that was let through is answered "seen" by every call within the TTL, whatever happens in between |
| `Dedup.LetThroughAtLeastTtlApart` | services/ingest/internal/dedup/dedup.go:43-56 | two calls that both let the same non-empty key through are at least the TTL apart |
| `Dedup.LetThroughTakesTime` | services/ingest/internal/dedup/dedup.go:43-56 | a key that is let through n times takes n - 1 times the TTL for it |
| `Dedup.Set.Seen` | services/ingest/internal/dedup/dedup.go:34-56 | one locked section on one shard: its answer and the new shards are those of the specification step; other shards are untouched |
| `Dedup.Set.Evict` | services/ingest/internal/dedup/dedup.go:60-71 | the sweep, shard by shard, leaves exactly the fresh entries |
| `RetryInsert.Run` | services/ingest/internal/chwriter/chwriter.go:107-128 | the number of inserts, the pauses (base, then doubled up to five seconds) and the outcome, for every pattern of insert results and cancellations; zero attempts count as success |
| `RetryInsert.StoredMeansAnInsertSucceeded` | services/ingest/internal/chwriter/chwriter.go:107-128 | with a positive attempt limit a batch counts as stored if and only if some insert within the limit succeeds before the context ends |
| `RetryInsert.DoublingReachesWait` | services/ingest/internal/chwriter/chwriter.go:118-126 | doubling and capping step by step gives the closed form of the wait |
| `Batch.Normalized` | services/ingest/internal/batch/batch.go:45-66 | option defaults: whatever is passed in, capacity is at least MaxEvents and both, like the attempt limit, are positive |
| `Batch.Buffer.Append` | services/ingest/internal/batch/batch.go:87-97 | the locked section of Add: all events at the end of the buffer, or none and the buffer unchanged; it says whether MaxEvents was reached |
| `Batch.Buffer.SignalFlush` | services/ingest/internal/batch/batch.go:106-111 | the token is in the channel afterwards, whether or not it was there before |
| `Batch.Buffer.Add` | services/ingest/internal/batch/batch.go:83-104 | all or nothing, never beyond the capacity, and a signal exactly when MaxEvents was reached |
| `Batch.Buffer.Swap` | services/ingest/internal/batch/batch.go:115-125 | the whole buffer is taken and an empty one left |
| `Batch.Buffer.Flush` | services/ingest/internal/batch/batch.go:156-177 | everything that was buffered ends up in the stored or in the lost events, in order, as the retry loop decides |
| `Batch.Buffer.Drain` | services/ingest/internal/batch/batch.go:194-201 | without concurrent adds the Shutdown drain leaves the buffer empty after a single flush |
| `Ingest.CheckIsHistory` | services/ingest/internal/httpapi/httpapi.go:124-138 | the loop over a request's events, told by the history of dedup calls alone: it stops at the first invalid event and otherwise keeps, stamped and in order, exactly the events not answered "seen" |
| `Ingest.RejectedStays` | services/ingest/internal/httpapi/httpapi.go:126-131 | after an invalid event no later event is examined or recorded |
| `Ingest.AnswersTellWhat` | services/ingest/internal/httpapi/httpapi.go:92-159 | 401 exactly without a valid key; 400 exactly for a body that does not decode, is empty or too large, or holds an invalid event; 202 with the number of events that joined the buffer; 429 only if the body did not fit |
| `Ingest.StateIsHistory` | services/ingest/internal/httpapi/httpapi.go:92-159 | after any sequence of requests, sweeps and flushes the dedup shards are those of the history of questions asked |
| `Ingest.BatchReachesBuffer` | services/ingest/internal/httpapi/httpapi.go:124-158 | under a clock that does not go back, any batch of valid events reaches the buffer whole if and only if no id of it was recorded within the TTL, by the history or by an earlier event of the batch, and it fits; otherwise it is answered 429, or 202 with some or all events counted as duplicates |
| `Ingest.DistinctIdsNeedHistoryOnly` | services/ingest/internal/httpapi/httpapi.go:126-138 | for a batch that repeats no id only the history before it matters |
| `Ingest.RepeatedIdIsRecorded` | services/ingest/internal/httpapi/httpapi.go:126-138 | a batch that repeats an id within the TTL is never new as a whole |
| `Ingest.ResentEventIsSeen` | services/ingest/internal/httpapi/httpapi.go:133-153 | an event that one request let through, even if that request was then refused with 429, is a duplicate in every resend within the TTL |
| `Ingest.ResendAfter429IsLost` | services/ingest/internal/httpapi/httpapi.go:133-153 | resending a refused batch of new events within the TTL is answered 202 with every event a duplicate, and nothing of it is ever buffered |
| `Ingest.BufferedUnderOrg` | services/ingest/internal/httpapi/httpapi.go:132-132 | everything that a request adds to the buffer is an event of its body, stored under the org of the request's key and unchanged in every other field |
| `Ingest.ClientOrgIsIgnored` | services/ingest/internal/httpapi/httpapi.go:132-132 | two requests that differ only in the orgs their clients wrote get the same answer and leave the same state |
| `Ingest.Server.CheckEvents` | services/ingest/internal/httpapi/httpapi.go:125-138 | the loop on the real dedup set computes the specification's progress |
| `Ingest.Server.HandleEvents` | services/ingest/internal/httpapi/httpapi.go:92-159 | one request: answer, dedup shards, buffer, flush token and the received and dropped counters |
| `IngestProtocol.RunIsSafe` | services/ingest/internal/batch/batch.go:83-202 | in every interleaving of handlers, flush loop, sweeps and shutdowns: the buffer never exceeds its capacity, a buffer that reached MaxEvents has a token, a pending signal or a woken loop (no lost wake-up), every received event is in exactly one place, and the counters are the sizes of those places |
| `IngestProtocol.FlushIsBounded` | services/ingest/internal/batch/batch.go:140-177 | in every run from any state, whatever else goes on while the loop runs: once the loop has taken as many steps of its own as there are insert attempts, and two, everything that was buffered has been taken out; until then a buffer that had reached MaxEvents always leaves the loop or a signalling handler a step to take without a tick |
| `IngestProtocol.FullBufferCanFlush` | services/ingest/internal/batch/batch.go:95-102 | and four such steps can be enough to empty it |
| `IngestProtocol.QuietAccounting` | services/ingest/internal/batch/batch.go:156-177 | when the service is quiet, each received event, copy by copy, was inserted, dropped after retries, refused, a duplicate, or lost with a 400 request |
| `IngestProtocol.QuietMetrics` | services/ingest/internal/httpapi/httpapi.go:122-152 | received equals inserted plus dropped plus the events lost with 400 requests, which no counter records |
| `Flushing.LoopFollowsRetryInsert` | services/ingest/internal/batch/batch.go:156-177 | in every run, from the flush loop's swap on, whatever else goes on: the batch is tried as often as RetryInsert calls the writer for the same answers, and then counts as inserted if and only if RetryInsert says stored, as dropped if not |
| `Flushing.ShutdownFollowsRetryInsert` | services/ingest/internal/batch/batch.go:194-201 | the same for the flush of any Shutdown call |
| `IngestProtocol.QuietShutdownEmpties` | services/ingest/internal/batch/batch.go:188-202 | a Shutdown during which nothing is appended returns with the buffer empty, whatever the inserts do and however many Shutdown calls run |
| `Stopping.QuietShutdownReturns` | services/ingest/internal/batch/batch.go:188-202 | and returns: in every such run after at most as many steps of its own as there are insert attempts, and six |
| `Stopping.StopIsSeen` | services/ingest/internal/batch/batch.go:188-193 | in every run the stop channel is closed exactly if Shutdown was called, and an idle loop can then exit |
| `Stopping.TokensAreSpent` | services/ingest/internal/batch/batch.go:106-111 | a signal wakes the loop at most once |
| `IngestProtocol.ShutdownLeavesEvents` | services/ingest/internal/batch/batch.go:188-202 | in every run a Shutdown call returns with events in the buffer if and only if it returns from its second look at the depth and at least one event, and at least as many as it counted, have been appended since its swap and not been taken |
| `IngestProtocol.ConcurrentAddSurvivesShutdown` | services/ingest/internal/batch/batch.go:194-201 | for every configuration and every two events with different ids a run in which the flush loop has exited, the only Shutdown call has returned and the second event is still buffered |
| `Buffering.BufferedCopiesWereAsked` | services/ingest/internal/httpapi/httpapi.go:126-158 | in every run an id reaches the buffer at most as often as the set let it through |
| `Buffering.BufferedCopiesAreApart` | services/ingest/internal/httpapi/httpapi.go:133-158 | of n copies of a non-empty id in the history of the buffer the first and the last were let through by examinations n - 1 times the TTL apart |
| `Buffering.CopiesAreExaminedApart` | services/ingest/internal/httpapi/httpapi.go:133-143 | of any two copies of one id that were ever appended, one was examined at least the TTL after the other, and each was appended after its own examination |
| `Buffering.GapIsExactly` | services/ingest/internal/httpapi/httpapi.go:133-143 | how close two appends of one id can come: in all runs in which an append follows its examination within a given delay they are at least the TTL less that delay apart, and no larger bound holds in all of them |
| `Buffering.TwoBufferings` | services/ingest/internal/httpapi/httpapi.go:133-143 | a run for every such delay: both copies are in the buffer, and the second was appended the TTL less the delay after the first, in the same instant if the delay is the TTL |
| `Buffering.LetThroughTtlApart` | services/ingest/internal/dedup/dedup.go:43-56 | two examinations in one run that let the same id through are at least the TTL apart |
| `Shipping.Ship` | sdks/typescript/src/telemetry.ts:145-184 | the retry loop of the TypeScript SDK: which sends are made, the pauses and the verdict, from the answers alone; at most maxRetries sends |
| `Shipping.ShipGo` | sdks/go/queue.go:120-160 | the same for the Go SDK, with its own pauses and the batch that does not encode |
| `Shipping.ShippingIsDetermined` | sdks/python/costobs/telemetry.py:182-224 | all three SDKs: the same answers give the same sends and the same verdict |
| `Shipping.VerdictIsLastAnswer` | sdks/typescript/src/telemetry.ts:156-179 | delivered, not authorised or rejected as the last answer is 202, 401 or another final one; given up exactly if every attempt was answered 429 or not at all |
| `Shipping.PausesDouble` | sdks/typescript/src/telemetry.ts:164-173 | the pauses start at 250 milliseconds after a 429 and 100 after no answer, and double up to five and two seconds; Go's are the latter |
| `TsQueue.RunKeepsContract` | sdks/typescript/src/telemetry.ts:110-184 | in every run: accepted equals settled batches, batch in flight and buffer, in order; one batch in flight at a time and only while flushing; batches of 1 to batchSize events; the buffer within maxQueue; at most maxRetries sends a batch; dropped equals refused plus exhausted |
| `TsQueue.FlushIsSound` | sdks/typescript/src/telemetry.ts:187-198 | when flush answers true every accepted event is in a settled batch, at both places where it can answer true |
| `TsQueue.FullBatchIsFlying` | sdks/typescript/src/telemetry.ts:120-124 | whenever no tick is under way, less than a batch is buffered: a full one never waits for the timer |
| `TsProgress.OfferedIsAnswered` | sdks/typescript/src/telemetry.ts:110-124 | before shutdown every event offered is accepted or counted as dropped, in every run, and without drops the accepted events are those offered, in order |
| `TsProgress.StoppedAcceptsNothing` | sdks/typescript/src/telemetry.ts:110-111 | after shutdown nothing is accepted any more |
| `TsProgress.NothingLeavesEarly` | sdks/typescript/src/telemetry.ts:120-124 | without the timer nothing leaves before a batch is full |
| `TsProgress.TickEnds` | sdks/typescript/src/telemetry.ts:127-184 | a tick ends, in every run in which nothing is offered meanwhile, within a number of its own steps fixed by what is buffered and by the retries |
| `TsQueue.NonPositiveBatchSizeSendsNothing` | sdks/typescript/src/telemetry.ts:131-142 | with a batch size that is not positive, which nothing rejects, no event is ever sent; from the first accepted event on a tick is under way that never ends, and flush never answers true |
| `TsQueue.TelemetryQueue.Enqueue` | sdks/typescript/src/telemetry.ts:110-124 | appended, or counted as dropped when full, or ignored after shutdown; the state becomes that of the protocol step |
| `TsQueue.TelemetryQueue.Reply` | sdks/typescript/src/telemetry.ts:147-183 | one answer of the sender: settle, or wait for the next attempt, or drop and count |
| `PyQueue.UnfinishedIsExact` | sdks/python/costobs/telemetry.py:125-180 | in every run unfinished_tasks is the queued items, sentinels included, plus what was taken and not yet marked done |
| `PyQueue.TaskDoneNeverRaises` | sdks/python/costobs/telemetry.py:157-180 | task_done is never called once too often, in the sender or in shutdown |
| `PyQueue.FlushIsSound` | sdks/python/costobs/telemetry.py:228-241 | when flush answers True each accepted event, copy by copy, is in a settled batch or was evicted by a shutdown that needed room; without an eviction the settled batches are the accepted events in order |
| `PyQueue.FlushIsExact` | sdks/python/costobs/telemetry.py:228-241 | when flush answers True the settled batches are all that was accepted if and only if nothing was evicted |
| `PyShutdown.EvictionsExactly` | sdks/python/costobs/telemetry.py:243-257 | an event is evicted if and only if some shutdown that found the queue full then removed one; no shutdown finds an unbounded queue full |
| `PyShutdown.FlushCanMissAnEvent` | sdks/python/costobs/telemetry.py:228-257 | for every bounded queue a run in which flush answers True and an accepted event was neither sent nor counted as dropped |
| `PyShutdown.FlushPromiseNeedsUnboundedQueue` | sdks/python/costobs/telemetry.py:228-241 | flush keeps its promise in every run if and only if the queue is unbounded |
| `PyShutdown.EndedSenderHasSettled` | sdks/python/costobs/telemetry.py:163-180 | once the sender has ended everything accepted before its last look at the queue is settled or was evicted, and what is still queued arrived later |
| `PyQueue.RunKeepsContract` | sdks/python/costobs/telemetry.py:104-224 | in every run: bounds, order, every batch explained by its answers, and the drop counter, which misses only evicted events |
| `PyProgress.OnlyFullBatchesLeave` | sdks/python/costobs/telemetry.py:120-156 | in every run without the flush interval and without a shutdown every batch that leaves is full |
| `PyProgress.OfferedIsAnswered` | sdks/python/costobs/telemetry.py:104-117 | in every run every event offered is accepted or counted as dropped, and without drops the accepted events are those offered, in order |
| `PyProgress.SenderEnds` | sdks/python/costobs/telemetry.py:126-180 | once the sender has taken a sentinel and the queue is left alone, it ends within a number of its own steps fixed by what is queued and by the retries, in every run |
| `PyProgress.SenderCanGoOn` | sdks/python/costobs/telemetry.py:100-180 | the sender is never stuck before it has ended |
| `PyQueue.TelemetryQueue.DrainRemaining` | sdks/python/costobs/telemetry.py:163-180 | after the sentinel everything still queued is settled in order and marked done, further sentinels skipped |
| `PyQueue.TelemetryQueue.MarkDone` | sdks/python/costobs/telemetry.py:157-161 | n calls of task_done, none of which raises while the count covers them |
| `GoQueue.RunKeepsContract` | sdks/go/queue.go:59-160 | in every run: accepted equals settled batches, the run loop's batch and the channel, in order; bounds; verdicts; the drop counter |
| `GoQueue.FlushWaitGuarantee` | sdks/go/queue.go:163-177 | what flushWait's true does guarantee: the channel is empty and at most one batch, the events accepted last, is unsettled; everything is settled if and only if the run loop's batch is empty or has just been shipped |
| `GoQueue.FlushWaitCanMissAnEvent` | sdks/go/queue.go:71-118 | for every batch size a run in which flushWait answers true and the one accepted event was never sent |
| `GoQueue.CloseSettles` | sdks/go/queue.go:93-105 | once the loop has exited every event accepted before close was called is settled |
| `GoProgress.ClosedQueueIsSettled` | sdks/go/queue.go:60-118 | told on the run: once the loop has exited, what had been accepted when close was first called is settled, in order |
| `GoProgress.StoppedIsClosed` | sdks/go/queue.go:178-182 | the queue is stopped exactly if close was called |
| `GoProgress.OfferedIsAnswered` | sdks/go/queue.go:56-67 | in every run every event offered is accepted or counted as dropped, and without drops the accepted events are those offered, in order |
| `GoProgress.OnlyFullBatchesLeave` | sdks/go/queue.go:60-118 | without the timer and without close every batch that leaves is full |
| `GoProgress.DrainEnds` | sdks/go/queue.go:60-118 | the drain ends, in every run in which nothing more is offered, within a number of the loop's own steps fixed by what is queued and by the retries |
| `GoProgress.RunnerCanGoOn` | sdks/go/queue.go:60-118 | until it has exited the loop is never stuck, and after close it can turn to the drain |
| `GoQueue.Queue.Drain` | sdks/go/queue.go:93-105 | the nested select empties the channel and the batch, in order, whatever the answers and whichever batches do not encode |
| `Resend.DeliveredButNeverStored` | sdks/typescript/src/telemetry.ts:159-169 | client and service together: a batch refused with 429 and resent within the TTL is filed as delivered by the client although no attempt buffered any event of it |
| `Resend.OneEventCanBeLost` | services/ingest/internal/httpapi/httpapi.go:124-158 | an input for that, for every buffer capacity: one new event meets a buffer that another request has filled, and is sent again after a flush, when it would fit; it is answered 202 as a duplicate and not buffered |
| `Delivery.RecordedIsAccounted` | services/ingest/internal/httpapi/httpapi.go:124-158 | after any operations on the service, whatever id is recorded as seen was appended to the buffer at some time, or let through in a request that was then refused |
| `Delivery.DeliveredIsAccounted` | sdks/typescript/src/telemetry.ts:110-184 | in every run of client and service together, with other clients, sweeps, flushes, lost requests and lost answers: every event of a batch filed as delivered was buffered by the service at some time, or let through in a request that was then refused; and once flush answers true every accepted event is in a settled batch |
| `Delivery.WithoutRefusalsDeliveredIsBuffered` | services/ingest/internal/httpapi/httpapi.go:140-158 | so as long as no request is refused after letting events through, every delivered event has been in the buffer |
| `Delivery.DeliveredAndLost` | sdks/typescript/src/telemetry.ts:145-184 | a run of the two in which the client ends with its event delivered, nothing dropped and a flush that answers true, and no event with that id was ever buffered |
| `Ulid.TsNewRequestId` | sdks/typescript/src/schema.ts:109-138 | the signed 32-bit bit-stream encoder writes exactly the 26 characters of the big-integer specification, for every time and every ten bytes |
| `Ulid.GoNewRequestId` | sdks/go/event.go:82-108 | the same for the unsigned 32-bit buffer, whose high bits fall off |
| `Ulid.PyNewRequestId` | sdks/python/costobs/schema.py:125-138 | the big-integer encoder writes the specification's characters |
| `Ulid.DrainBits` | sdks/typescript/src/schema.ts:130-134 | the inner loop: a character for every five waiting bits, the same ones for the signed and the unsigned buffer |
| `Ulid.PushUnsignedWraps` | sdks/go/event.go:99-99 | shifting in a byte modulo 2^32 keeps the low 32 bits of the unbounded number |
| `Ulid.PushSignedWraps` | sdks/typescript/src/schema.ts:128-128 | the same for the signed 32-bit result of JavaScript's shift and or |
| `Ulid.UnsignedBits` | sdks/go/event.go:103-103 | the five bits that are read are never touched by the wrap-around |
| `Ulid.SignedBits` | sdks/typescript/src/schema.ts:131-132 | nor by the sign and the arithmetic shift |
| `Ulid.IdDecodes` | sdks/python/costobs/schema.py:132-137 | a decoder gives back, from the id, the number that was encoded, for every 48-bit time |
| `Ulid.IdsAreUnique` | sdks/python/costobs/schema.py:132-137 | different times or random bytes give different ids |
| `Ulid.IdsSortByTime` | sdks/python/costobs/schema.py:125-138 | alphabetical order of ids is order of time, then of the random bytes |
| `Ulid.OrderIsNumeric` | sdks/python/costobs/schema.py:134-137 | alphabetical order of equally long digit strings is numeric order |
| `Ulid.CrockfordAscends` | sdks/python/costobs/schema.py:130-130 | the alphabet is in ascending order, which decoding and sorting rest on |
| `Ulid.CrockfordIsDigitsAndCapitals` | sdks/python/costobs/schema.py:130-130 | and consists of the digits and the capitals without I, L, O and U |
| `LinearFit.Compute` | apps/dashboard/lib/forecast.ts:51-70 | the loop computes means, moments, slope, intercept and r2 of the specification, for every series and for the empty one |
| `LinearFit.ErrorSplits` | apps/dashboard/lib/forecast.ts:66-67 | any line's squared error is the fitted line's plus the squared distance between the two lines |
| `LinearFit.FitIsOptimal` | apps/dashboard/lib/forecast.ts:66-67 | no slope and intercept has a smaller squared error |
| `LinearFit.FitIsUnique` | apps/dashboard/lib/forecast.ts:66-67 | with two different abscissas only the fitted line is that good |
| `LinearFit.FlatWithoutSpread` | apps/dashboard/lib/forecast.ts:60-70 | points with a single abscissa are fitted by the flat line through their mean |
| `LinearFit.LinesAreRecovered` | apps/dashboard/lib/forecast.ts:51-70 | points on a line give back that line |
| `LinearFit.ResidualsBalance` | apps/dashboard/lib/forecast.ts:66-67 | the residuals sum to zero |
| `LinearFit.ResidualsOrthogonal` | apps/dashboard/lib/forecast.ts:66-67 | the residuals are orthogonal to the abscissas |
| `LinearFit.CauchySchwarz` | apps/dashboard/lib/forecast.ts:57-65 | sxy squared is at most sxx times syy |
| `LinearFit.R2InUnitInterval` | apps/dashboard/lib/forecast.ts:68-68 | r2 lies between 0 and 1 |
| `LinearFit.R2IsExplainedShare` | apps/dashboard/lib/forecast.ts:68-68 | r2 is 1 minus squared error over spread whenever the values spread, also for flat abscissas |
| `HoltWinters.Compute` | apps/dashboard/lib/forecast.ts:89-138 | None below two seasons; otherwise the level, trend, offsets, predictions and r2 of the specification |
| `HoltWinters.FillOffsets` | apps/dashboard/lib/forecast.ts:105-114 | the loop over full seasons fills in the average deviation of each weekday |
| `HoltWinters.Smooth` | apps/dashboard/lib/forecast.ts:117-125 | the smoothing loop, which records each prediction before it updates the state in place |
| `HoltWinters.PeriodicIsSettled` | apps/dashboard/lib/forecast.ts:95-125 | on every period-7 series of 14 or more days the level stays the mean, the trend 0 and no offset moves |
| `HoltWinters.PeriodicIsExact` | apps/dashboard/lib/forecast.ts:118-125 | there every in-sample prediction is the observation |
| `HoltWinters.PeriodicContinues` | apps/dashboard/lib/forecast.ts:170-176 | and every projected day is the pattern's value at its own weekday, cut off at zero |
| `HoltWinters.PeriodicR2` | apps/dashboard/lib/forecast.ts:127-135 | and r2 is 1, or 0 exactly if the series is constant |
| `HoltWinters.R2InUnitInterval` | apps/dashboard/lib/forecast.ts:135-135 | r2 lies between 0 and 1 for every series |
| `HoltWinters.R2IsShare` | apps/dashboard/lib/forecast.ts:127-135 | r2 times the spread is the spread less the error, or nothing if the error is larger |
| `HoltWinters.SmoothingIsLinear` | apps/dashboard/lib/forecast.ts:95-125 | initialising and smoothing is linear: on c*y + d*z every component of the state is c and d times the separate ones |
| `HoltWinters.PredictionsAreLinear` | apps/dashboard/lib/forecast.ts:118-120 | and so is every prediction |
| `HoltWinters.ShiftMovesLevel` | apps/dashboard/lib/forecast.ts:95-125 | adding a constant to all observations moves only the level |
| `HoltWinters.InitialOffsetsBalance` | apps/dashboard/lib/forecast.ts:105-114 | the initial weekday offsets sum to zero |
| `HoltWinters.InitialTrend` | apps/dashboard/lib/forecast.ts:97-103 | if the second week lies b a day above the first, smoothing starts with the trend b at the mean of the first week |
| `HoltWinters.ErrorsCorrectState` | apps/dashboard/lib/forecast.ts:117-125 | over the whole series each observation corrects level, trend and its own weekday's offset by 0.35, 0.035 and 0.195 of how far it was from its prediction, and no other offset |
| `HoltWinters.WeekLater` | apps/dashboard/lib/forecast.ts:170-176 | above zero, a projection a week later is seven times the trend higher |
| `Forecast.Build` | apps/dashboard/lib/forecast.ts:144-230 | the rows over history and horizon, the divider date and both month-end sums are those of the specification, for every horizon |
| `Forecast.RowsAreDated` | apps/dashboard/lib/forecast.ts:160-200 | the days of history as they were, then a row for each day of the horizon with its own date; the divider stands at the first of those |
| `Forecast.LineContinues` | apps/dashboard/lib/forecast.ts:179-200 | a straight line of two or more days goes on straight in the linear column |
| `Forecast.PatternContinues` | apps/dashboard/lib/forecast.ts:170-200 | a weekly pattern goes on in the seasonal column |
| `Forecast.LineMonthEnd` | apps/dashboard/lib/forecast.ts:210-219 | the month-end estimate of a straight line is the line's own sum over the month, projected days cut off at zero |
| `Forecast.PatternMonthEnd` | apps/dashboard/lib/forecast.ts:210-219 | the seasonal month-end estimate of a weekly pattern is the pattern's own sum over the month, projected days cut off at zero |
| `Pricing.ChoiceIsUnique` | sdks/go/pricing.go:132-152 | first exact match, else first of the longest matching prefixes, else none, determines the rule |
| `Pricing.ChoiceOfNames` | sdks/go/pricing.go:45-53 | told on names alone: rule i is chosen if and only if it is the first exact rule that names provider and model, or there is none and it is the first of the longest prefix rules whose text begins the model |
| `Pricing.PrefixRuleCovers` | sdks/go/pricing.go:45-53 | a single prefix rule prices exactly the models that begin with its text, in both SDKs |
| `Pricing.GoEngine.Find` | sdks/go/pricing.go:121-153 | the cached lookup answers for the first lookup that had this cache key |
| `Pricing.CacheIsInvisible` | sdks/go/pricing.go:121-153 | so for every history of lookups it answers what the uncached one does, if no provider is another one followed by a NUL and more |
| `Pricing.CacheIsInvisibleExactly` | sdks/go/pricing.go:121-153 | it does so on every table if and only if no earlier lookup with the same cache key was for another provider or model |
| `Pricing.CollisionsNeedNul` | sdks/go/pricing.go:122-122 | two different providers can share a cache key if and only if one is the other, a NUL, and more |
| `Pricing.NulFreeIsSeparate` | sdks/go/pricing.go:122-122 | providers without a NUL never do |
| `Pricing.NulCanHideRule` | sdks/go/pricing.go:122-127 | with a NUL the cache answers that there is no rule, although there is an exact one |
| `Pricing.PySearchIsChoice` | sdks/python/costobs/pricing.py:129-138 | the list comprehensions and max compute the documented choice |
| `Pricing.PyEngine.Find` | sdks/python/costobs/pricing.py:125-140 | the cached lookup always answers what the uncached one does |
| `Pricing.EnginesAgreeOnTable` | sdks/python/costobs/pricing.py:129-138 | Go and Python choose the same rule if and only if every matching rule of a kind unknown to Python comes after an exact match |
| `Pricing.EnginesCanDisagree` | sdks/go/pricing.go:132-138 | any rule of an unknown kind is a table on which Go finds a rule and Python none |
| `Pricing.EnginesAgreeOnKnownTables` | sdks/python/costobs/pricing.py:59-59 | so they agree on every table with the two documented kinds only |
| `Cost.GoCost` | sdks/go/pricing.go:156-195 | the accumulation is the price list's sum, with counters below zero ignored where Go guards them |
| `Cost.PyCost` | sdks/python/costobs/pricing.py:142-199 | the accumulation is the price list's sum times the batch and fine-tuning factors, exactly |
| `Cost.SdksAgree` | sdks/python/costobs/pricing.py:142-199 | on non-negative usage without multipliers both charge the same |
| `Cost.SdksDifferBy` | sdks/go/pricing.go:167-193 | on any usage they differ by exactly the charges for negative counters |
| `Cost.PriceIsMonotone` | sdks/python/costobs/pricing.py:160-191 | using more never costs less, with rates that are not negative |
| `Cost.PriceIsNonNegative` | sdks/python/costobs/pricing.py:160-191 | no price is negative |
| `Cost.PriceIsAdditive` | sdks/go/pricing.go:188-193 | two calls cost what their sum costs if and only if there is no base price or no image becomes billable by the other call's tiles |
| `Cost.OneOfEach` | sdks/go/pricing.go:167-193 | one of each counter costs the rule's own rate for it, with the two fallbacks, and an image is free without a tile |
| `Cost.GoCall` | sdks/go/pricing.go:156-160 | lookup and charge; a call no rule prices is free |
| `Cost.PyCall` | sdks/python/costobs/pricing.py:142-199 | the same with the multipliers |
| `Cost.CallsCostTheSame` | sdks/go/pricing.go:156-195 | after any history of lookups both SDKs report the same cost for a call |
| `Sse.SseBody.Read` | sdks/go/transport.go:257-266 | feeds what was read, then fires at the end of the stream |
| `Sse.SseBody.Feed` | sdks/go/transport.go:282-294 | consumes exactly the complete lines; the partial one stays |
| `Sse.SseBody.ParseLine` | sdks/go/transport.go:307-345 | what one line changes |
| `Sse.SseBody.Fire` | sdks/go/transport.go:273-279 | reports once |
| `Sse.TwoPortions` | sdks/go/transport.go:282-294 | reading bytes in two portions is reading them in one, the second behind what was left of the first |
| `Sse.ChunkingIsInvisible` | sdks/go/transport.go:257-294 | after any calls the totals and the buffer are those of the whole stream in one piece |
| `Sse.SameBytesSameTotals` | sdks/go/transport.go:257-294 | two ways of cutting the same bytes end in the same state |
| `Sse.RestIsAfterLastNewline` | sdks/go/transport.go:284-291 | the buffer holds exactly the bytes after the last newline |
| `Sse.ReportsOnce` | sdks/go/transport.go:257-279 | the callback is called at most once, at the first end or close, with the totals of the complete lines read by then |
| `Sse.TotalsAreOfLines` | sdks/go/transport.go:282-294 | however the stream is written as lines and a partial line, the totals are those of the lines in order |
| `Sse.CarriageReturnIsIgnored` | sdks/go/transport.go:292-292 | a carriage return before the line feed changes nothing |
| `Sse.SpacesAreWhiteSpace` | sdks/go/transport.go:292-310 | a character at either end is trimmed exactly if it is Unicode white space, and then whole |
| `Sse.DataLine` | sdks/go/transport.go:296-312 | a data line hands its payload to the decoder as it is, but for an empty one and the end mark, which change nothing |
| `Sse.LastModelWins` | sdks/go/transport.go:318-336 | the model reported is the last one that any line names |
| `Sse.DeltasOnlyCountOutput` | sdks/go/transport.go:323-336 | after message_start, deltas report the last positive output count and leave the input side alone |
| `Sse.AnthropicStream` | sdks/go/transport.go:322-336 | a whole message_start and message_delta stream: cache writes billed as input, cache reads apart, every input-side token once, and the last positive output of the deltas |
| `Sse.LastUsageWins` | sdks/go/transport.go:337-343 | otherwise the totals are the last usage that counts any tokens |
| `Sse.OpenAiStream` | sdks/go/transport.go:156-191 | a whole OpenAI stream that ends in a usage of either style is billed for that usage's input less what is cached, the cached, the output, the reasoning and the total |
| `Sse.InputIsBilledOnce` | sdks/go/transport.go:165-184 | the billed input and cached counts add up to the tokens of the input side, each once, if and only if no more cached tokens are reported inside the input than the input has |
| `Rollup.GroupsSumUp` | db/clickhouse/migrations/0002_materialized_views.up.sql:16-26 | the rows a view makes of a batch, in any order, sum up to the batch under every selection by key |
| `Rollup.MergeKeepsSums` | db/clickhouse/migrations/0002_materialized_views.up.sql:2-14 | merging two rows of one key changes no sum |
| `Rollup.OrderKeepsSums` | db/clickhouse/migrations/0002_materialized_views.up.sql:12-14 | the order of rows does not matter |
| `Rollup.RowsCount` | db/clickhouse/migrations/0002_materialized_views.up.sql:16-59 | no rollup row is ever without a request, so the engine never drops one for being all zero |
| `Rollup.RollupsEqualRaw` | db/clickhouse/migrations/0002_materialized_views.up.sql:16-59 | after any inserts and background merging every selection by key has the same cost and request sums in both rollups as in the events |
| `Rollup.EventsAreInserts` | db/clickhouse/migrations/0002_materialized_views.up.sql:16-59 | the events table holds exactly what was inserted, whatever the engine does to the rollups |
| `Rollup.BreakdownIsRaw` | apps/dashboard/lib/queries.ts:174-271 | the three branches are one query: the same groups, costs and request counts as the raw events of the days from..to |
| `Breakdown.GroupsAreColumns` | apps/dashboard/lib/queries.ts:219-271 | by one dimension, a group is the events of the organisation on those days whose own customer, feature, team, model or provider column has the group's value |
| `Breakdown.DimensionsCommute` | apps/dashboard/lib/queries.ts:219-271 | exchanging the two dimensions and the two values of a group changes no answer, even where another table answers |
| `Breakdown.SecondDimensionAddsUp` | apps/dashboard/lib/queries.ts:219-271 | the groups by two dimensions, added up over every value of the second, are the group by the first alone, in cost and in requests |
| `Breakdown.AnswersCount` | apps/dashboard/lib/queries.ts:240-271 | one event is one request at its own cost, and answers add up over events |
| `Recon.Merge` | apps/dashboard/lib/queries.ts:580-597 | the merge is a full outer join with 0 for a missing side |
| `Recon.TotalsAreKept` | apps/dashboard/lib/queries.ts:646-655 | and keeps both the tracked and the billed total |
| `Billing.FetchDaily` | services/billsyncd/internal/providers/openai.go:49-87 | for every sequence of responses: the first failure, or the days that have charges, strictly ascending, each with the sum of its charges |
| `Billing.SortedDaily` | services/billsyncd/internal/providers/openai.go:89-101 | whatever order the map iterates in, all its entries in order of date |
| `Billing.MoveDown` | services/billsyncd/internal/providers/openai.go:96-98 | the inner loop of the insertion sort, in place |
| `Billing.SortByDate` | services/billsyncd/internal/providers/openai.go:94-99 | the insertion sort, in place: the same entries, strictly ascending |
| `Billing.DailyIsUnique` | services/billsyncd/internal/providers/openai.go:49-101 | there is one right answer only, so pages and iteration order cannot show |
| `Billing.OnlyChargesMatter` | services/billsyncd/internal/providers/openai.go:49-87 | the same charges in any order, in any buckets on any pages, make the same list |
| `Billing.TotalIsKept` | services/billsyncd/internal/providers/openai.go:71-80 | the listed costs add up to all charges |
| `Billing.BilledIsRead` | services/billsyncd/internal/providers/openai.go:61-84 | told on the responses: the first thing that is wrong ends it, with its own error, and otherwise every amount of every bucket of every page up to the last is a charge on its bucket's day |
| `Billing.AllPagesAreBilled` | services/billsyncd/internal/providers/openai.go:71-84 | so the list adds up to all amounts of all pages, and has a day exactly if some amount falls on it |
| `Billing.CuttingDoesNotMatter` | services/billsyncd/internal/providers/openai.go:71-84 | the same amounts at the same times, however they are cut into buckets and pages, make the same list |
| `Alerts.LoadEnabledRules` | services/alertd/internal/rules/pgstore.go:39-126 | the load: the enabled rules in order of their ids, each with its own targets, or a failure as a whole if a query fails or any scope, config or target config does not decode |
| `Alerts.LoadFailsExactly` | services/alertd/internal/rules/pgstore.go:39-126 | the load fails exactly if the first query does, an enabled rule or a target of one does not decode, or there is an enabled rule and the second query fails |
| `Alerts.LoadedAsStored` | services/alertd/internal/rules/pgstore.go:86-123 | what is loaded are the enabled rules as stored, each with exactly the targets that bear its id |
| `Alerts.Worker.EvaluateOnce` | services/alertd/cmd/alertd/main.go:151-167 | one cycle: the load, then every loaded rule in turn, none of which stops the others |
| `Alerts.Worker.EvaluateRule` | services/alertd/cmd/alertd/main.go:169-222 | a fire, its record and the failed deliveries |
| `Alerts.FiresAreSpaced` | services/alertd/cmd/alertd/main.go:169-222 | in every run, for any clock and any failures, each fire is not in cooldown after the rule's last recorded fire |
| `Alerts.ConsecutiveFiresAreApart` | services/alertd/internal/rules/rules.go:38-44 | if the first of two consecutive fires was recorded, the second comes no earlier than the cooldown after it, up to what the store rounds off |
| `Alerts.CooldownIsKeptExactly` | services/alertd/cmd/alertd/main.go:169-222 | the cooldown after a fire is kept in every run if and only if the fire could be recorded and its time is a whole microsecond |
| `Alerts.CooldownCanFallShort` | services/alertd/cmd/alertd/main.go:216-221 | after a recorded fire at any other time, for every cooldown, a run that fires again too early |
| `Alerts.UnrecordedFireHoldsNothingBack` | services/alertd/cmd/alertd/main.go:216-221 | after a fire that was not recorded, at any time and for every cooldown, a run that fires again at any given time |
| `AlertIsolation.HistoryIsOfOwnTurns` | services/alertd/cmd/alertd/main.go:163-166 | once rules are loaded, a rule's record and fires come of its own turns alone |
| `AlertIsolation.OnlyOwnTurnsMatter` | services/alertd/cmd/alertd/main.go:163-166 | two runs that agree on a rule's own turns agree on its fires |
| `AlertIsolation.TurnIsOwnExactly` | services/alertd/internal/rules/pgstore.go:58-123 | a cycle gives a rule the turn it would have as the only rule if and only if every other enabled rule and its targets decode, or the rule alone would have had no turn: a query failed, or it is absent, disabled or does not decode itself |
| `AlertIsolation.RulesAreIsolatedExactly` | services/alertd/cmd/alertd/main.go:148-167 | over whole runs: a rule's record and fires are those it would have as the only rule, whatever its evaluations come to, if and only if that holds in every cycle |
| `AlertIsolation.OneUnreadableRuleStopsAll` | services/alertd/cmd/alertd/main.go:157-161 | as long as one enabled rule does not decode, no rule is evaluated and nothing changes |
| `AlertIsolation.UnreadableRuleSilencesAnother` | services/alertd/internal/rules/pgstore.go:69-74 | two rules that show it: the first fires alone, and at no time beside the second, whose config does not decode |

## Left out

- Real time: sleeps, tickers and timeouts are nondeterministic steps; only attempt counts and backoff arithmetic are kept.
- Reading the clock and the locked section that uses it are one step; a metric changes in the step it belongs to.
- Lock-level interleaving inside one sweep: a sweep over the dedup shards is one step in `IngestProtocol`, shard by shard in `Dedup.Set.Evict`.
- Dedup.Set.Seen: the FNV-1a hash is modelled, but the results hold for every hash, so none of them is about its quality.
- RetryInsert.Run: backoff is unbounded integer arithmetic; overflow of Go's 64-bit durations is not modelled.
- Authentication, key hashing, HTTP, JSON and YAML decoding, logging and metric export: oracles or counters.
- Message content of events: validation looks at the required fields only, the rest is carried along unread.
- The exponential fit, its column and its rate (logarithm and exponential), and calendar arithmetic, which is an oracle.
- IEEE rounding in the forecasts; Python's 28-digit decimal context and the conversion of costs to floating point.
- Cost.GoCost: Go integers are unbounded here; 64-bit overflow of counters is not modelled.
- Pricing.GoEngine.Find: the read lock is dropped before the search, so two lookups of one provider and model may both search, and store the same answer; two that only share a cache key may overwrite each other's. Only the sequential effect is modelled.
- Ulid.TsNewRequestId: sources of time and randomness are parameters; a time beyond 50 bits loses its high bits in all three SDKs alike.
- Gemini usage metadata and the non-streaming response body in the Go transport: plain field reading.
- Sse.SseBody.ParseLine: what the JSON decoder accepts, and partially decoded values after an error, are the decoder oracle's business.
- ORDER BY ties, LIMIT, relabelling of empty names, the events TTL, partitions and UInt64 overflow in the rollups; time zones other than UTC; the prompt-version rollup and its quantile states.
- Recon.Merge: the final sort for display is not modelled; the rows are those of the Map, in insertion order.
- Alerts: evaluation queries, delivery payloads and what a JSON document decodes into are outcomes of a cycle; durations beyond 64-bit nanoseconds are not modelled.
- Alerts.ConsecutiveFiresAreApart: that the database driver cuts a time to microseconds, rather than rounding it up, is taken as given.
- Billing.FetchDaily: a server that never stops paging is a run whose responses end, which counts as a failed request.
- The Anthropic billing fetcher, the UI, the Helm charts, the client wrappers and provider adapters, metadata merging and the key cache: they would add only easy members.
