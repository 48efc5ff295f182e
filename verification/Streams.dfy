/**
 One queue as Redis holds it (redisstream/scripts.go, redisstream/store.go):
 the stream and its consumer group, the schedule zset and data hash, the
 dead-letter stream and the dedupe keys. Every change is an `Op`; `Apply` says
 what it does. A Lua script or a MULTI/EXEC is a list of ops run back to back,
 so a property of every list of ops holds between any two scripts.

 Stream IDs are natural numbers in ID order; 0 stands for 0-0, which no entry has.
 */
module Streams {
  import opened Jobs
  import opened Sets

  datatype Fields = JobFields(job: Job) | Malformed(raw: string)

  datatype Reason = PermanentError | AttemptsExhausted | TooManyDeliveries | NoHandler | MalformedEntry

  datatype DeadEntry = DeadEntry(fields: Fields, deliveries: int, reason: Reason)

  /** A pending-list entry: who holds the delivery, how often it was delivered, when it was last touched. */
  datatype Pending = Pending(owner: WorkerID, count: nat, touched: nat)

  datatype Dedupe = Dedupe(id: JobID, expires: nat)

  datatype Stream = Stream(
    entries: map<nat, Fields>,
    lastId: nat,
    lastDelivered: nat,
    pel: map<nat, Pending>,
    schedule: map<JobID, int>,
    data: map<JobID, Job>,
    dead: seq<DeadEntry>,
    dedupe: map<string, Dedupe>,
    consumers: map<WorkerID, nat>,
    clock: nat,
    completed: set<JobID>)   // history: jobs removed by an ack

  const EMPTY: Stream := Stream(map[], 0, 0, map[], map[], map[], [], map[], map[], 0, {})

  datatype Op =
    | XAdd(fields: Fields)
    | Put(job: Job, runAt: int)
    | Once(key: string, job: Job, window: nat, runAt: int)
    | PromoteOne(id: JobID, now: int)
    | ReadOne(worker: WorkerID)
    | TakeOver(entry: nat, worker: WorkerID, minIdle: int)
    | Extend(lease: Lease)
    | Ack(lease: Lease)
    | Retry(lease: Lease, job: Job, runAt: int)
    | DeadLetter(lease: Lease, dead: DeadEntry)
    | Seen(worker: WorkerID)
    | Deregister(worker: WorkerID)
    | PruneOne(worker: WorkerID, minIdle: int)
    | Tick(ms: nat)

  // ----- Redis commands

  /** The lease check every fenced script starts with. */
  predicate Owns(s: Stream, l: Lease) {
    && l.messageId in s.pel
    && s.pel[l.messageId].owner == l.owner
    && s.pel[l.messageId].count == l.token
  }

  /** XACK and XDEL. */
  function Settle(s: Stream, id: nat): Stream {
    s.(entries := s.entries - {id}, pel := s.pel - {id})
  }

  function AddEntry(s: Stream, f: Fields): Stream {
    s.(entries := s.entries[s.lastId + 1 := f], lastId := s.lastId + 1)
  }

  /** HSET and ZADD. */
  function AddScheduled(s: Stream, job: Job, runAt: int): Stream {
    s.(data := s.data[job.id := job], schedule := s.schedule[job.id := runAt])
  }

  /** Entries no consumer was given yet: what XREADGROUP > reads from. */
  function Ready(s: Stream): set<nat> {
    set e | e in s.entries && s.lastDelivered < e
  }

  function Touch(s: Stream, w: WorkerID): Stream {
    s.(consumers := s.consumers[w := s.clock])
  }

  predicate HoldsNothing(s: Stream, w: WorkerID) {
    forall e :: e in s.pel ==> s.pel[e].owner != w
  }

  /** XGROUP DELCONSUMER also drops whatever the consumer had pending. */
  function DelConsumer(s: Stream, w: WorkerID): Stream {
    s.(consumers := s.consumers - {w},
       pel := map e | e in s.pel && s.pel[e].owner != w :: s.pel[e])
  }

  predicate Remembered(s: Stream, key: string) {
    key in s.dedupe && s.clock <= s.dedupe[key].expires
  }

  predicate Due(s: Stream, id: JobID, now: int) {
    id in s.schedule && s.schedule[id] <= now
  }

  function JobIds(f: Fields): set<JobID> {
    if f.JobFields? then {f.job.id} else {}
  }

  // ----- steps

  function Apply(s: Stream, op: Op): Stream {
    match op
    case XAdd(f) => AddEntry(s, f)
    case Put(job, runAt) => AddScheduled(s, job, runAt)
    case Once(key, job, window, runAt) =>
      if Remembered(s, key) then s
      else
        var s1 := s.(dedupe := s.dedupe[key := Dedupe(job.id, s.clock + window)]);
        if runAt > 0 then AddScheduled(s1, job, runAt) else AddEntry(s1, JobFields(job))
    case PromoteOne(id, now) =>
      if !Due(s, id, now) then s
      else
        var s1 := if id in s.data then AddEntry(s, JobFields(s.data[id])) else s;
        s1.(data := s1.data - {id}, schedule := s1.schedule - {id})
    case ReadOne(w) =>
      if Ready(s) == {} then Touch(s, w)
      else
        var e := MinOf(Ready(s));
        Touch(s, w).(lastDelivered := e, pel := s.pel[e := Pending(w, 1, s.clock)])
    case TakeOver(e, w, minIdle) =>
      if e in s.pel && s.clock - s.pel[e].touched >= minIdle
      then Touch(s, w).(pel := s.pel[e := Pending(w, s.pel[e].count + 1, s.clock)])
      else s
    case Extend(l) =>
      if Owns(s, l) then Touch(s, l.owner).(pel := s.pel[l.messageId := Pending(l.owner, s.pel[l.messageId].count, s.clock)]) else s
    case Ack(l) =>
      if Owns(s, l)
      then Settle(s, l.messageId).(completed := s.completed + if l.messageId in s.entries then JobIds(s.entries[l.messageId]) else {})
      else s
    case Retry(l, job, runAt) =>
      if Owns(s, l) then Settle(AddScheduled(s, job, runAt), l.messageId) else s
    case DeadLetter(l, d) =>
      if Owns(s, l) then Settle(s.(dead := s.dead + [d]), l.messageId) else s
    case Seen(w) => Touch(s, w)
    case Deregister(w) =>
      if HoldsNothing(s, w) then DelConsumer(s, w) else s
    case PruneOne(w, minIdle) =>
      if w in s.consumers && HoldsNothing(s, w) && s.clock - s.consumers[w] >= minIdle then DelConsumer(s, w) else s
    case Tick(ms) => s.(clock := s.clock + ms)
  }

  function Run(s: Stream, ops: seq<Op>): Stream
    decreases |ops|
  {
    if ops == [] then s else Run(Apply(s, ops[0]), ops[1..])
  }

  lemma {:induction false} RunAppend(s: Stream, a: seq<Op>, b: seq<Op>)
    ensures Run(s, a + b) == Run(Run(s, a), b)
    decreases |a|
  {
    if a == [] {
      assert a + b == b;
    } else {
      assert (a + b)[1..] == a[1..] + b;
      RunAppend(Apply(s, a[0]), a[1..], b);
    }
  }

  /** Running one more op. */
  lemma {:induction false} RunSnoc(s: Stream, a: seq<Op>, op: Op)
    ensures Run(s, a + [op]) == Apply(Run(s, a), op)
  {
    RunAppend(s, a, [op]);
    assert Run(Run(s, a), [op]) == Run(Apply(Run(s, a), op), []);
  }

  // ----- invariants

  /** Holds in every run whatever callers do: the pending list is exactly the delivered part of the stream. */
  ghost predicate Shape(s: Stream) {
    && s.lastDelivered <= s.lastId
    && (forall e :: e in s.entries ==> 1 <= e <= s.lastId)
    && (forall e :: e in s.pel <==> e in s.entries && e <= s.lastDelivered)
    && (forall e :: e in s.pel ==> s.pel[e].count >= 1 && s.pel[e].touched <= s.clock)
    && s.schedule.Keys == s.data.Keys
  }

  predicate Adds(op: Op) {
    op.XAdd? || op.Put? || op.Once? || op.PromoteOne?
  }

  predicate Delivers(op: Op) {
    op.ReadOne? || op.TakeOver?
  }

  predicate Settles(op: Op) {
    op.Ack? || op.Retry? || op.DeadLetter?
  }

  lemma {:induction false} ShapeKept(s: Stream, op: Op)
    requires Shape(s)
    ensures Shape(Apply(s, op))
  {
    if Adds(op) {
      ShapeKeptAdding(s, op);
    } else if Delivers(op) {
      ShapeKeptDelivering(s, op);
    } else if Settles(op) {
      ShapeKeptSettling(s, op);
    } else {
      ShapeKeptElse(s, op);
    }
  }

  lemma ShapeKeptAdding(s: Stream, op: Op)
    requires Shape(s) && Adds(op)
    ensures Shape(Apply(s, op))
  {
    match op
    case XAdd(f) => ShapeKeptEntry(s, f);
    case Put(job, runAt) => ShapeKeptSchedule(s, job, runAt);
    case Once(key, job, window, runAt) => ShapeKeptOnce(s, key, job, window, runAt);
    case PromoteOne(id, now) => ShapeKeptPromoting(s, id, now);
  }

  lemma ShapeKeptOnce(s: Stream, key: string, job: Job, window: nat, runAt: int)
    requires Shape(s)
    ensures Shape(Apply(s, Once(key, job, window, runAt)))
  {
    var next := Apply(s, Once(key, job, window, runAt));
    var s1 := s.(dedupe := s.dedupe[key := Dedupe(job.id, s.clock + window)]);
    if Remembered(s, key) {
      assert next == s;
    } else if runAt > 0 {
      assert next == AddScheduled(s1, job, runAt);
      ShapeKeptSchedule(s1, job, runAt);
    } else {
      assert next == AddEntry(s1, JobFields(job));
      ShapeKeptEntry(s1, JobFields(job));
    }
  }

  lemma ShapeKeptPromoting(s: Stream, id: JobID, now: int)
    requires Shape(s)
    ensures Shape(Apply(s, PromoteOne(id, now)))
  {
    if id in s.data {
      ShapeKeptEntry(s, JobFields(s.data[id]));
    }
  }

  lemma ShapeKeptEntry(s: Stream, f: Fields)
    requires Shape(s)
    ensures Shape(AddEntry(s, f))
  {
  }

  lemma ShapeKeptSchedule(s: Stream, job: Job, runAt: int)
    requires Shape(s)
    ensures Shape(AddScheduled(s, job, runAt))
  {
  }

  lemma ShapeKeptDelivering(s: Stream, op: Op)
    requires Shape(s) && Delivers(op)
    ensures Shape(Apply(s, op))
  {
    if op.ReadOne? && Ready(s) != {} {
      ReadsOldestFirst(s);
    }
  }

  lemma ShapeKeptSettling(s: Stream, op: Op)
    requires Shape(s) && Settles(op)
    ensures Shape(Apply(s, op))
  {
  }

  lemma ShapeKeptElse(s: Stream, op: Op)
    requires Shape(s) && !Adds(op) && !Delivers(op) && !Settles(op)
    ensures Shape(Apply(s, op))
  {
    if (op.Deregister? || op.PruneOne?) && HoldsNothing(s, op.worker) {
      IdleConsumerDropsNothing(s, op.worker);
    }
  }

  /** XREADGROUP hands out entries in ID order, so nothing undelivered is left behind the mark. */
  lemma ReadsOldestFirst(s: Stream)
    requires Ready(s) != {}
    ensures MinOf(Ready(s)) in s.entries && s.lastDelivered < MinOf(Ready(s))
    ensures forall e :: e in s.entries && s.lastDelivered < e ==> MinOf(Ready(s)) <= e
  {
    forall e | e in s.entries && s.lastDelivered < e
      ensures MinOf(Ready(s)) <= e
    {
      assert e in Ready(s);
    }
  }

  lemma {:induction false} ShapeAlways(s: Stream, ops: seq<Op>)
    requires Shape(s)
    ensures Shape(Run(s, ops))
    decreases |ops|
  {
    if ops != [] {
      ShapeKept(s, ops[0]);
      ShapeAlways(Apply(s, ops[0]), ops[1..]);
    }
  }

  /** Deregister and prune check first, so removing the consumer removes no pending entry. */
  lemma IdleConsumerDropsNothing(s: Stream, w: WorkerID)
    requires HoldsNothing(s, w)
    ensures DelConsumer(s, w).pel == s.pel
  {
  }
}
