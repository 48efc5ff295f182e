# Verified model of a distributed task queue

The repository is a task queue on Redis streams with at-least-once delivery.
Producers enqueue jobs; workers claim them under a lease, run a handler and
settle them (ack, retry, dead-letter); other workers take over leases that go
quiet. Every state change is a Lua script. This project models the scripts, the
store that calls them, the sharded backend, the worker, and the fenced
downstream of the chaos test. Over every run it proves the safety promises of
the failure table of the repository's README and, where one does not hold as
written, exactly when it does.

| file | what it holds |
|---|---|
| `Jobs`, `Fencing`, `Backoff` | job and lease values, the packed fencing token and the Lua numbers it is compared in, retry delays |
| `Streams` | one queue as a value; every change is an `Op`, a run is any list of ops |
| `Conservation`, `Leases`, `Enqueueing`, `Recovery` | what every run of one queue keeps |
| `Scripts` | the scripts and store methods in place on a `Store`, each proved to be a run of ops |
| `Effects` | the downstream's hashes and scripts |
| `History`, `System`, `Guarantees`, `Zombies` | queue, workers and downstream together: delivery history, the inductive invariant, the promises, and what the downstream's fence does to stale runs |
| `LongPoll`, `Backlog` | the sharded backend's long-poll protocol over its partitions, and how full its buffer gets |
| `Scatter`, `Sharding`, `LostReplies` | scatter/gather of enqueues, acks and renewals, sweeps, and what a batch's IDs tell its caller |
| `Drain`, `Handling` | the worker: slots, group-committed acks, drain order, `handleOne`, the handler, `fetch` |

## How runs are modelled

`Streams.Apply` is total: an op whose guard fails changes nothing. A script or a
MULTI/EXEC is a list of ops run back to back, so what holds after every list of
ops holds between any two scripts. `System.Exec` and `LongPoll.Exec` run any
list of actions; crashes, pauses (a run that takes no step), lost replies, stale
leases and every interleaving are lists. Theorems quantify over all of them.

Assumptions, stated where they are used: each script is atomic; stream IDs grow
(they are natural numbers in ID order, 0 for `0-0`); job IDs are fresh
(`CallerOk`, `Accepts`); a worker settles with the job value it was handed; Redis
loses no data and its clock does not go back; one Claim caller per sharded
backend. Times are milliseconds. Delivery counts and attempts are unbounded
except where the packed token is compared (`AllPackable`, `AllInRange`). `completed`, `hist`,
`starts`, `returned`, `processed` and `settledBy` are history: no step depends on them.

With a sharded backend, `System` is any one partition. Jobs of other partitions
reach the same downstream at any time, in any order (`Elsewhere`), so its
theorems hold for each partition of a sharded queue as well as for one store.

## Where the code and its documentation differ

- `redisstream/sharded.go:297-300` says about limit+partitions jobs can be
  buffered. Polls left over from an earlier wait can deliver after the next
  Claim's take and before its wait starts new polls, so twice that is possible.
  `LongPoll.BufferIsBounded` is the bound that does hold,
  `Backlog.BufferBoundIsReached` shows it is reached for every number of
  partitions and every limit, and by `Backlog.DocumentedBoundIff` the documented
  one holds only when the limit equals the number of partitions.
- The failure table (`README.md:78`) says the downstream rejects a zombie's side
  effect after its lease was taken over. It does so exactly when it accepted a
  newer run of the job before (`Zombies.EffectIsRefusedIff`), which is for good
  once the newer run has begun (`Zombies.OlderRunsStayOut`). In between, a zombie that
  had begun still has its effect applied (`Zombies.ZombieEffectLands`,
  `Zombies.ZombieRun`); the effect is still applied only once.
- The fencing token orders runs only while delivery counts stay within 32 bits
  (`Fencing.RetryOutranksIff`). The downstream's Lua comparison tells all runs
  apart only while tokens are at most 2^53 + 3 (`Fencing.LuaOrderIsExactIff`); the first
  two deliveries it confuses are the third and fourth of attempt 2^21
  (`Fencing.FenceBlindPastRange`). It still never rejects the holder of a lease
  (`Guarantees.HolderIsNeverFenced`).
- `redisstream/sharded.go:237-240` and `queue/queue.go:129-131` say a failed
  batch leaves the IDs empty for the jobs it did not store. A partition whose
  reply is lost did store them (`LostReplies.LostReplyHidesJob`,
  `LostReplies.NoIdYetStoredIff`), while an own ID always means "stored"
  (`LostReplies.OwnIdIffStored`). A retry stores a second job exactly when it has
  no key or its key has expired (`LostReplies.RetryDuplicatesIff`).
- The doubling in `NextDelay` wraps for caps past `LastSafe`
  (`Backoff.BackoffIsExactIff`); every cap up to 2^62 ns is safe.

## Model

| member | source | states |
|---|---|---|
| Jobs.NewJob | queue/queue.go:136-162 | a job is accepted exactly when it has a task and a payload, and then starts at attempt 0, available at now plus the delay, with the caller's attempts or three |
| Fencing.PackingIsExact | queue/job.go:47-49 | shift-or in int64 is attempt * 2^32 + count for attempts below 2^31 and counts below 2^32 |
| Fencing.PackingKeepsOrder | queue/job.go:41-49 | comparing packed tokens is comparing (attempt, delivery count), both directions |
| Fencing.RetryOutranksIff | queue/job.go:41-49 | a retry's first token outranks the replaced run for every attempt if and only if that run's count is at most 2^32 |
| Fencing.DoubleKeepsOrder | cmd/chaos/downstream.go:38-48 | rounding a token to a Lua number never reverses two tokens, however large |
| Fencing.LuaLessMeansLess | cmd/chaos/downstream.go:41 | a token ranked below another is the smaller one |
| Fencing.LuaOrderIsExactIff | cmd/chaos/downstream.go:38-48 | over runs with delivery count at least 1 and token up to m, the Lua comparison is the order of runs if and only if m is at most 2^53 + 3 |
| Fencing.LuaOrderIsRunOrder | cmd/chaos/downstream.go:38-48 | for tokens up to 2^53 + 3 the downstream's comparison is the order of runs |
| Fencing.FenceBlindPastRange | cmd/chaos/downstream.go:41 | at attempt 2^21 the fence cannot tell the third delivery from the fourth |
| Backoff.NextDelay | queue/retry.go:25-50 | with a safe cap, retry number n waits BaseDelay * 2^(n-1) up to MaxDelay and numbers below 1 count as 1, one second and thirty standing for zero settings; jitter j redraws it within [floor(d(1-j)), d); with any cap, the int64 loop's value |
| Backoff.BackoffIsExactIff | queue/retry.go:39-43 | the loop equals min(base * 2^(attempt-1), cap) for every attempt if and only if the cap is reached before int64 wraps |
| Backoff.CapsUpToTwo62AreSafe | queue/retry.go:39-43 | every cap up to 2^62 ns is safe for every base |
| Backoff.DocumentedIsMonotoneAndCapped | queue/retry.go:25-27 | later retries never wait less and none waits past the cap |
| Streams.ShapeAlways | redisstream/scripts.go:17-121 | in every run the pending list is exactly the delivered part of the stream, counts are positive and the schedule zset and hash hold the same IDs |
| Streams.ReadsOldestFirst | redisstream/scripts.go:135-140 | reading in ID order leaves nothing undelivered behind the mark |
| Conservation.ConservedByStep | redisstream/scripts.go:71-121 | a step keeps every job in one place and stores exactly the jobs it enqueues |
| Conservation.ConservedByRun | redisstream/scripts.go:71-209 | over every run the queue holds exactly the jobs enqueued |
| Conservation.QuietRunConserves | redisstream/scripts.go:108-190 | promotion, delivery, recovery, renewal and pruning gain and lose no job |
| Conservation.ExactlyOnePlace | redisstream/scripts.go:28-33 | a job is in exactly one of ready, pending, scheduled, dead, completed if stored, in none otherwise |
| Conservation.DrainedMeansSettled | redisstream/scripts.go:28-33 | an empty stream and schedule mean every job enqueued is completed or dead, never both |
| Leases.StaleLeaseNeverPasses | redisstream/scripts.go:5-33 | one lease per entry passes the check, and one that stops passing it fails it in every later state |
| Leases.HeartbeatKeepsLease | redisstream/scripts.go:35-38 | renewals closer together than the timeout keep lease, token and entry through any run |
| Leases.HeartbeatThenAckCompletes | queue/worker.go:398-425 | a worker that heartbeats until it acks completes the job |
| Enqueueing.EnqueueIsIdempotent | redisstream/scripts.go:192-209 | within the window, whatever runs in between, one job per key and its ID to every caller |
| Enqueueing.LeavesScheduleOnlyByPromotion | redisstream/scripts.go:105-121 | nothing else removes or rewrites a scheduled job |
| Enqueueing.PromotedOncePerScheduling | redisstream/scripts.go:84-121 | over every run, each scheduling of a job is matched by one promotion or is still pending, and each promotion was due, found the job's data and added that very job |
| Enqueueing.NeverBeforeAsked | redisstream/scripts.go:84-121 | over every run, a job leaves the schedule only by a promotion at or after the run time that the last call to schedule it asked for |
| Recovery.ScanIsRun | redisstream/scripts.go:149-163 | a scan is a run of single takeovers |
| Recovery.ScansCompose | redisstream/scripts.go:153-161 | a scan continued from its cursor is one longer scan |
| Recovery.LeftToLaterCalls | redisstream/scripts.go:149-163 | an idle delivery is taken over if and only if it lies between the cursor and where the call stopped |
| Recovery.ScanMakesProgress | redisstream/scripts.go:144-148 | a call that does not wrap leaves strictly fewer entries to examine |
| Recovery.SweepTakesEverythingIdle | redisstream/store.go:512-559 | between two wraps of the saved cursor, whatever happens between the calls, some call comes past every entry and takes it over if and only if it is pending and idle then |
| Recovery.SweepEnds | redisstream/store.go:512-559 | a sweep that no entry joins or leaves wraps after at most as many calls as there are pending entries, plus one |
| Scripts.Store.constructor | redisstream/store.go:106-112 | a new queue is empty and its cursor at the start |
| Scripts.Store.AckOne | redisstream/scripts.go:70-75 | when owner and count match, the entry leaves stream and pending list and its job is completed; else nothing changes |
| Scripts.Store.ExtendOne | redisstream/scripts.go:77-82 | when owner and count match, the delivery is touched now under the same count; else nothing changes |
| Scripts.Store.RetryOne | redisstream/store.go:489-498 | when the lease passes, the job is scheduled at the given time one attempt further and its entry settled, in one step; else nothing changes |
| Scripts.Store.DeadLetterOne | redisstream/scripts.go:96-103 | when the lease passes, the entry is appended to the dead-letter stream and settled; else nothing changes |
| Scripts.Store.AckBatch | redisstream/scripts.go:40-54 | results and state of acking one at a time, in order |
| Scripts.Store.ExtendBatch | redisstream/scripts.go:218-223 | results and state of renewing one at a time, in order |
| Scripts.Store.EnqueueOnce | redisstream/scripts.go:192-209 | a key within its window returns its ID and changes nothing; otherwise the key is remembered for the window and the job scheduled at its run time, or added to the stream if it has none |
| Scripts.Store.EnqueueOne | redisstream/store.go:139-163 | unless its key is known, a job due later is scheduled at that very time and the stream is unchanged, and a job due now is added to the stream and the schedule is unchanged |
| Scripts.Store.EnqueueBatch | redisstream/store.go:165-222 | the transaction is the single enqueues in order, with one ID per job, the original's for a used key |
| Scripts.Store.DueRange | redisstream/scripts.go:110 | distinct due IDs, earliest first, up to the limit and complete below it |
| Scripts.Store.Promote | redisstream/scripts.go:105-121 | promotes distinct due jobs, up to the limit, and below it leaves none due |
| Scripts.Store.ReadGroup | redisstream/scripts.go:137 | the oldest undelivered entries in order, each at delivery count 1, until the count or the end |
| Scripts.Store.ClaimScript | redisstream/scripts.go:129-140 | at most 100 promotions of distinct due jobs followed by reads; below 100 nothing stays due; every job stays in one place |
| Scripts.Store.ParseOrQuarantine | redisstream/store.go:364-382 | hands out the entries that parse and dead-letters exactly the others |
| Scripts.QuarantinedFacts | redisstream/store.go:364-382 | quarantine removes only unparsable entries and loses no job |
| Scripts.HandedAfterParsing | redisstream/store.go:268-280 | what is handed out is owned by the caller, holds the stored job, one per entry |
| Scripts.ClaimResults | redisstream/store.go:268-280 | what was read and parses is exactly what the claim acquired; too little means the end of the stream or an unreadable entry |
| Scripts.UnreadableHidesReady | redisstream/store.go:268-280 | a read of one unreadable entry hands out nothing while the job behind it stays undelivered |
| Scripts.Store.ClaimReady | redisstream/store.go:260-281 | reads up to limit entries or to the end and hands out exactly those that parse, each owned at token 1: all that became pending; below the limit nothing stays undelivered unless an entry could not be parsed; a lost reply leaves the script's effect; holders keep theirs; no job lost |
| Scripts.Store.ClaimBlocking | redisstream/store.go:292-331 | the same for a blocking read without promotion; when the reply is lost the entries are claimed and nothing is handed out |
| Scripts.Store.Claim | redisstream/store.go:252-258 | the result of the first claim, unless that was empty and the caller waits, then exactly a blocking read after it; all that became pending is handed out; a failed first claim ends it; no job lost |
| Scripts.Store.XAutoClaim | redisstream/scripts.go:154-155 | takes over exactly the idle entries it examined, at most count, and returns the next unexamined one; it stops early only at the count, and otherwise examines ten times as many or all |
| Scripts.Store.RecoverScript | redisstream/scripts.go:142-163 | at most want distinct entries, all idle long enough, each with its exact new delivery count; a call that finds fewer wraps or looks at no less than 100 entries |
| Scripts.Store.RecoverExpired | redisstream/store.go:512-559 | hands out exactly the entries taken over that parse: all that changed hands, idle before and owned at count+1 now, at most limit; the cursor moves to where the scan stopped, unless the reply is lost, when nothing is parsed or quarantined either |
| Scripts.Store.DeregisterOne | redisstream/scripts.go:165-173 | removes the consumer exactly when it holds nothing; the pending list is untouched |
| Scripts.Store.Prune | redisstream/scripts.go:175-190 | removes exactly the idle consumers that hold nothing; the pending list is untouched |
| Effects.ApplyKeepsBalance | cmd/chaos/downstream.go:56-66 | each payload carries one effect per applied job, whatever is replayed or fenced |
| Effects.Downstream.Fence | cmd/chaos/downstream.go:38-48 | accepts a token unless a higher one was seen and then holds it, else changes no token; the token held for a job never falls and is at least every token shown |
| Effects.Downstream.Begin | cmd/chaos/downstream.go:50-54 | registers a run's token before it works |
| Effects.Downstream.ApplyEffect | cmd/chaos/downstream.go:56-66 | applies at most once per job; unless fenced, the job has been applied |
| History.InvAlways | queue/job.go:21-62 | over every run: jobs stored are jobs enqueued, every stored or delivered job is its enqueued value at an allowed attempt, deliveries are ordered and superseded or current |
| History.NewDeliveryIsNewest | redisstream/store.go:275-276 | each new delivery owns its entry and outranks every earlier delivery of the job |
| History.TokensIncrease | queue/job.go:41-49 | fencing tokens strictly increase along a job's whole history, across redeliveries and retries |
| History.OwnerIsNewest | redisstream/scripts.go:5-10 | the delivery that passes the check is the newest of its job |
| History.SupersededIsLost | redisstream/scripts.go:5-10 | a superseded delivery has lost its lease |
| System.QueueStepIsAllowed | queue/worker.go:281-342 | workers only settle deliveries they were handed, with the value handed, and retry only below MaxAttempts |
| System.BuriedForCause | queue/worker.go:285-331 | every dead-letter a worker sends has its documented cause on record, the missing handler included |
| System.SysInvKept | queue/worker.go:281-342 | one action by anyone keeps the whole system invariant |
| System.SysInvAlways | queue/worker.go:277-342 | so does every run |
| Guarantees.EffectsCountJobs | cmd/chaos/downstream.go:11-22 | in every run each payload has one effect per applied job, and acked jobs have been applied to their own payload |
| Guarantees.ExactlyOnceEffects | cmd/chaos/downstream.go:11-22 | with payloads that producers keep distinct, a job's effect is applied at most once, exactly once if it was acked |
| Guarantees.RejectedIsOvertaken | cmd/chaos/downstream.go:38-48 | for every token the packing holds, a run the downstream rejects was overtaken by a newer run of its job |
| Zombies.FenceNeverFalls | cmd/chaos/downstream.go:38-48 | over every run of the system, the token the downstream holds for a job never falls |
| Zombies.RejectedWasOvertaken | cmd/chaos/downstream.go:38-48 | over every run, for every token the packing holds, a run is rejected only after the downstream accepted a newer run of its job |
| Zombies.RejectedIff | cmd/chaos/downstream.go:38-48 | over every run, for tokens up to 2^53 + 3, a run is rejected if and only if the downstream accepted a newer run of its job earlier |
| Zombies.OlderRunsStayOut | cmd/chaos/downstream.go:68-73 | once a newer run began, every older run of its job is rejected in every later state, and its effect changes nothing |
| Zombies.EffectIsRefusedIff | README.md:78 | the effect of a run that began is refused if and only if the downstream accepted a newer run before; otherwise it is applied, whoever holds the lease |
| Zombies.ZombieEffectLands | README.md:78 | a run that began and then lost its lease still has its effect applied until a newer run begins |
| Zombies.ZombieRun | README.md:78 | such a run of the system, for every job, pair of workers and visibility timeout |
| Guarantees.HolderIsNeverFenced | cmd/chaos/downstream.go:68-73 | the holder of the current lease is never rejected downstream, for every token the packing holds |
| Guarantees.FencedRunIsFinished | queue/job.go:41-46 | a rejected run can never again ack, extend, retry or dead-letter its job, for every token the packing holds |
| Guarantees.NoJobLostOrDuplicated | README.md:66-70 | in every run every enqueued job is in exactly one place, and nothing else is |
| System.SettleLands | queue/worker.go:309-342 | settling a run that holds its lease completes the job on success, buries it on a permanent or last failure, and else schedules it one attempt further at the given time |
| System.ProcessedByRule | queue/worker.go:285-300 | a delivery past MaxDeliveries is buried; at the limit without a handler too; below it without a handler nothing changes; otherwise the handler starts |
| Guarantees.OwnedRunSettles | queue/worker.go:309-342 | the same over every run: an owned success completes its job |
| Guarantees.PoisonIsBuried | queue/worker.go:285-287 | over every run, processing an owned delivery past MaxDeliveries leaves its job dead, for that reason |
| Guarantees.CompletedForGoodReason | queue/worker.go:277-281 | a completed job's newest run returned no error and still held the lease; it is not dead |
| Guarantees.DeadForGoodReason | queue/worker.go:285-342 | a dead job's newest run gives the cause: permanent error, last attempt failed, too many deliveries, no handler registered at the last delivery, or a malformed entry |
| Guarantees.HandlersRunWhereRegistered | queue/worker.go:285-300 | every started run had a handler registered and was within MaxDeliveries; a run buried for want of a handler met none, and neither it nor one delivered too often was ever started |
| Guarantees.StartedOncePerRun | queue/worker.go:151-166 | each (attempt, delivery) of a job is started at most once over all workers |
| Guarantees.HandlerStartsAreBounded | queue/worker.go:285-331 | a job's handler starts at most MaxAttempts * MaxDeliveries times in all |
| LongPoll.LongPollInvAlways | redisstream/sharded.go:279-402 | every interleaving of Claim, pollers, heartbeat and Close keeps the protocol invariant |
| LongPoll.OnePollerPerPartition | redisstream/sharded.go:315-320 | at most one poller per partition can still claim |
| LongPoll.EveryPartitionIsPolled | redisstream/sharded.go:347-359 | while the Claim waits, every partition has a live poller unless it delivered since the wait began |
| LongPoll.NoLostWakeup | redisstream/sharded.go:330-345 | jobs buffered while the Claim selects have a signal in the channel or on its way, and a received signal makes the Claim leave with jobs unless none is buffered |
| LongPoll.NoPollerAfterClose | redisstream/sharded.go:142-153 | once Close has begun no poller starts |
| LongPoll.BufferIsBounded | redisstream/sharded.go:297-318 | the buffer never exceeds 2 * n * share, at most 2 * (limit + n - 1) |
| Backlog.BufferBoundIsReached | redisstream/sharded.go:297-318 | for every number of partitions and every limit, a run from empty partitions, in which every job has its own ID, fills the buffer to that bound |
| Backlog.DocumentedBoundIff | redisstream/sharded.go:297-300 | the buffer stays within limit plus partitions in every run if and only if the limit is the number of partitions |
| LongPoll.LeavesBufferOnce | redisstream/sharded.go:371-402 | each polled lease is handed out once, or dropped only when its partition has taken it away, however takes and appends race with the heartbeat |
| LongPoll.DroppedIsLostForever | redisstream/sharded.go:463-483 | a lease dropped from the buffer never passes its partition's check again, whatever happens next |
| LongPoll.PollsDeliverOnce | redisstream/sharded.go:361-373 | a poll only gives out leases never given out before |
| Scatter.OneByOneProjects | redisstream/sharded.go:485-511 | seen from one partition, a list of single calls is that partition's sublist |
| Scatter.KeyLivesInOnePartition | redisstream/sharded.go:209-216 | all enqueues with one key happen in one partition |
| Scatter.ShardedEnqueueIsIdempotent | redisstream/sharded.go:209-277 | idempotent enqueue on a sharded queue |
| Scatter.RunRoutedProjects | redisstream/sharded.go:254-273 | seen from one partition, a routed batch is that partition's sublist, or nothing when its transaction fails |
| Scatter.GroupIsSublist | redisstream/sharded.go:244-259 | the k-th job of a partition's group comes after exactly the first k of its jobs in the list |
| Scatter.BatchRepeatsAnswers | redisstream/sharded.go:241-277 | two requests with one key in one batch get the same answer |
| Sharding.RepeatedKeysAgree | redisstream/sharded.go:241-277 | a batch that repeats a key reports one ID for it at every position, whatever fails |
| LostReplies.OwnIdIffStored | queue/queue.go:116-120 | a position holds its own job's ID if and only if this call stored that job and the reply came back |
| LostReplies.NoIdYetStoredIff | redisstream/sharded.go:237-240 | a position has no ID although its job was stored if and only if the partition committed, its reply was lost and the key was new |
| LostReplies.LostReplyHidesJob | redisstream/sharded.go:237-240 | such a batch |
| LostReplies.KeyedRetryIsSafe | redisstream/scripts.go:192-209 | a keyed request without an ID, retried before its key expires, stores nothing and gets the original ID |
| LostReplies.RetryDuplicatesIff | redisstream/sharded.go:209-277 | after a lost reply, a retry, wherever it is routed, stores a second job if and only if it has no key or its key has expired; otherwise nothing changes and the first job's ID comes back |
| LostReplies.DuplicateIsStored | redisstream/sharded.go:209-277 | both jobs are then in the queue's books |
| Sharding.Sharded.Route | redisstream/sharded.go:209-216 | keyed jobs go where their key hashes to, the others in turn |
| Sharding.Sharded.Enqueue | redisstream/sharded.go:233-235 | one enqueue in the routed partition, with its reply; the other partitions are untouched |
| Sharding.Sharded.GroupByRoute | redisstream/sharded.go:241-249 | groups hold exactly the positions routed to each partition, in order |
| Sharding.Sharded.EnqueueBatch | redisstream/sharded.go:237-277 | for any group order and any failing partitions, state and IDs are those of single enqueues in list order at the partitions that committed; an error exactly when a partition with jobs failed |
| Sharding.Sharded.constructor | redisstream/sharded.go:109-136 | a backend over distinct stores with an empty buffer |
| Sharding.Sharded.Group | redisstream/sharded.go:488-496 | each partition's positions in order; unknown partitions get their error |
| Sharding.Sharded.PerPartition | redisstream/sharded.go:485-511 | for any group order and any failing calls, results and states are those of single calls in list order, one result per job |
| Sharding.Sharded.AckBatch | redisstream/sharded.go:452-454 | the same for acks |
| Sharding.Sharded.ExtendBatch | redisstream/sharded.go:456-483 | the same for renewals, and drops from the buffer exactly the jobs whose partition answered that their lease no longer passes |
| Sharding.RenewalsKeepOwners | redisstream/sharded.go:463-469 | renewals take no lease away, in any partition |
| Sharding.Sharded.TakeBuffered | redisstream/sharded.go:392-402 | splits the buffer at the limit, oldest first |
| Sharding.Sharded.ClaimReady | redisstream/sharded.go:279-293 | never more than limit jobs: buffered ones, then exactly what the partitions that answered gave up, kept even if another fails; below the limit no partition has an undelivered entry left unless one there could not be parsed; no partition gains or loses a job |
| Sharding.Sharded.RecoverExpired | redisstream/sharded.go:404-418 | the same for expired leases: below the limit, every partition handed over exactly the idle jobs between its old cursor and its new one |
| Drain.DrainInvAlways | queue/worker.go:144-206 | every interleaving of the main loop, jobs and the ack loop keeps slots, requests and replies consistent |
| Drain.InFlightIsBounded | queue/worker.go:144-167 | never more jobs in flight than slots |
| Drain.SendNeverBlocks | queue/worker.go:358-365 | an ack never finds its channel full |
| Drain.ReplyIsOwn | queue/worker.go:388-394 | a reply is what the backend said about that job, and comes once |
| Drain.UnansweredIsOwed | queue/worker.go:370-394 | an ack without a reply is in the channel or in the loop's hands, and the loop has not ended |
| Drain.LoopEndsEmptyHanded | queue/worker.go:193-206 | the ack loop ends only when no request is outstanding |
| Handling.Handler | cmd/chaos/main.go:146-180 | returns success, a permanent or a retryable error exactly as its calls and its payload went, and leaves the downstream accordingly |
| Handling.HandlerIsSystemRun | cmd/chaos/main.go:146-180 | an uninterrupted handler run is a run of the system: same verdict, same effect downstream, the queue untouched |
| Handling.SettleBy | queue/worker.go:309-331 | a held run's success completes the job, a permanent or last failure buries it, any other failure schedules it one attempt further at the given time; without the lease nothing changes |
| Handling.HandleOne | queue/worker.go:277-342 | past MaxDeliveries the job is buried, at the limit without a handler too, below it without a handler nothing changes, and otherwise the handler runs and its verdict settles the job; an ack is sent only for an applied job |
| Handling.Fetch | queue/worker.go:222-258 | at most limit jobs: exactly what recovery and claim acquired, all held; recovered jobs are kept if the claim fails |
| Handling.FetchSharded | queue/worker.go:222-258 | at most limit jobs, with all that the answering partitions gave up and all that left the buffer |

## Left out

- Redis clients, sockets, script caching, automatic client retries, connection tracking: a lost request or reply is an outcome of a step instead.
- Block deadlines and stuck-server warnings: only "claimed in Redis, nothing returned" remains (`Lose`).
- JSON, cjson and time formatting: job fields are values. Entries without an ID field, which fall back to the stream ID, are not modelled.
- Rounding and randomness of jitter: reals and an arbitrary draw in [0, 1).
- Stats, metrics, tracing, logging, demos, benchmarks and the chaos controller.
- The hash behind key routing: any function from keys to partitions.
- Queue.EnqueueBatch: validating every request before the backend is called, and the fallback loop for backends without batches.
- Two batches at the same time on one Sharded: `EnqueueBatch` is one caller's view; that keyed enqueues stay idempotent under any interleaving is `Scatter.ShardedEnqueueIsIdempotent`.
- The minute timer that triggers pruning inside RecoverExpired: `Prune` is a step of its own.
- Concurrent RecoverExpired calls on one Store, which may reuse a cursor: `Recovery.Sweep` is about one caller.
- The heartbeat goroutine: which runs it renews and cancels; its effect on leases is `Leases.HeartbeatKeepsLease` and, for buffered jobs, `LongPoll`.
- Blocking waits of Run (poll interval, backoff after a failed fetch, shutdown timeout) and liveness in general.
- Handling.FetchSharded: models the wait by the take that ends it; the wait itself is `LongPoll`.
- LongPoll: what a Claim's own sweep takes from the partitions is a step of `Others`; the sweep itself is `Sharding.Sharded.ClaimReady`.
