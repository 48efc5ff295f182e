/**
 A queue together with the history of its deliveries: which jobs were
 enqueued, and every delivery of a job to a worker, in order. Holds for every
 interleaving of enqueues, deliveries, renewals, recoveries and settlements,
 provided workers settle only deliveries they were handed.
 */
module History {
  import opened Jobs
  import opened Fencing
  import opened Streams
  import opened Conservation
  import opened Leases
  import opened Sets

  datatype Tracked = Tracked(
    q: Stream,
    origin: map<JobID, Job>,     // every job as it was enqueued
    hist: seq<Delivery>)         // every delivery of a job, oldest first

  const START: Tracked := Tracked(EMPTY, map[], [])

  /** The job a step enqueues, if it stores one. */
  function Enqueued(s: Stream, op: Op): seq<Job> {
    match op
    case XAdd(f) => if f.JobFields? then [f.job] else []
    case Put(job, _) => [job]
    case Once(key, job, _, _) => if Remembered(s, key) then [] else [job]
    case _ => []
  }

  /** The entry a step delivers, if any: 0 for none. */
  function DeliveredEntry(s: Stream, op: Op): nat {
    match op
    case ReadOne(w) => if Ready(s) == {} then 0 else MinOf(Ready(s))
    case TakeOver(e, w, minIdle) => if e in s.pel && s.clock - s.pel[e].touched >= minIdle then e else 0
    case _ => 0
  }

  /** The delivery a step hands to a worker, if the entry holds a job. */
  function HandedOut(s: Stream, op: Op): seq<Delivery> {
    var e := DeliveredEntry(s, op);
    if Delivers(op) && e in s.entries && s.entries[e].JobFields?
    then [Delivery(s.entries[e].job, Lease(e, op.worker, if e in s.pel then s.pel[e].count + 1 else 1, 0))]
    else []
  }

  function Step(k: Tracked, op: Op): Tracked {
    var added := Enqueued(k.q, op);
    Tracked(
      Apply(k.q, op),
      if added == [] then k.origin else k.origin[added[0].id := added[0]],
      k.hist + HandedOut(k.q, op))
  }

  function Steps(k: Tracked, ops: seq<Op>): Tracked
    decreases |ops|
  {
    if ops == [] then k else Steps(Step(k, ops[0]), ops[1..])
  }

  /** What callers owe, in terms of the history. */
  predicate CallerOk(k: Tracked, op: Op) {
    && (forall job :: job in Enqueued(k.q, op) ==> job.id !in k.origin && job.attempt == 0 && job.maxAttempts > 0)
    && match op
       case Ack(l) => exists d :: d in k.hist && d.lease == l
       case Retry(l, job, _) => exists d :: d in k.hist && d.lease == l && job == NextAttempt(d.job) && !Exhausted(d.job)
       case DeadLetter(l, e) =>
         || (l.messageId in k.q.entries && k.q.entries[l.messageId].Malformed? && k.q.entries[l.messageId] == e.fields)
         || (exists d :: d in k.hist && d.lease == l && e.fields == JobFields(d.job))
       case _ => true
  }

  predicate CallersOk(k: Tracked, ops: seq<Op>)
    decreases |ops|
  {
    ops == [] || (CallerOk(k, ops[0]) && CallersOk(Step(k, ops[0]), ops[1..]))
  }

  // ----- invariant

  /** A job value is the enqueued job at some attempt below its maximum. */
  predicate VersionOf(origin: map<JobID, Job>, job: Job) {
    job.id in origin && job == origin[job.id].(attempt := job.attempt) && InAttempts(job)
  }

  ghost predicate Versions(k: Tracked) {
    && (forall j :: j in k.origin ==> k.origin[j].id == j && k.origin[j].maxAttempts > 0)
    && (forall e :: e in k.q.entries && k.q.entries[e].JobFields? ==> VersionOf(k.origin, k.q.entries[e].job))
    && (forall j :: j in k.q.data ==> VersionOf(k.origin, k.q.data[j]))
    && (forall i :: 0 <= i < |k.q.dead| && k.q.dead[i].fields.JobFields? ==> VersionOf(k.origin, k.q.dead[i].fields.job))
    && (forall i :: 0 <= i < |k.hist| ==> VersionOf(k.origin, k.hist[i].job))
  }

  /** The state has caught up with a past delivery: it is the current one, or something newer replaced it. */
  ghost predicate CaughtUp(q: Stream, d: Delivery) {
    var e := d.lease.messageId;
    && 1 <= d.lease.token && e <= q.lastDelivered
    && (e in q.entries ==> q.entries[e] == JobFields(d.job))
    && (e in q.pel ==> d.lease.token <= q.pel[e].count && (d.lease.token == q.pel[e].count ==> d.lease.owner == q.pel[e].owner))
    && (forall x :: x in q.entries && q.entries[x].JobFields? && q.entries[x].job.id == d.job.id ==>
          x == e || d.job.attempt < q.entries[x].job.attempt)
    && (d.job.id in q.data ==> d.job.attempt < q.data[d.job.id].attempt)
  }

  predicate Before(a: Delivery, b: Delivery) {
    LexLess(a.job.attempt, a.lease.token, b.job.attempt, b.lease.token)
  }

  /** Each delivery of a job outranks every earlier one. */
  predicate Ordered(hist: seq<Delivery>) {
    forall i, k :: 0 <= i < k < |hist| && hist[i].job.id == hist[k].job.id ==> Before(hist[i], hist[k])
  }

  ghost predicate Inv(k: Tracked) {
    && Shape(k.q) && Placed(k.q)
    && Stored(k.q) == k.origin.Keys
    && Versions(k)
    && (forall i :: 0 <= i < |k.hist| ==> CaughtUp(k.q, k.hist[i]))
    && Ordered(k.hist)
  }

  // ----- preservation

  lemma CallerOkIsOpOk(k: Tracked, op: Op)
    requires Inv(k) && CallerOk(k, op)
    ensures OpOk(k.q, op)
  {
    match op
    case XAdd(f) =>
      if f.JobFields? {
        assert f.job in Enqueued(k.q, op);
      }
    case Put(job, _) =>
      assert job in Enqueued(k.q, op);
    case Once(key, job, _, _) =>
      if !Remembered(k.q, key) {
        assert job in Enqueued(k.q, op);
      }
    case _ =>
  }

  lemma StoredTracksOrigin(k: Tracked, op: Op)
    requires Inv(k) && CallerOk(k, op)
    ensures Shape(Apply(k.q, op)) && Placed(Apply(k.q, op))
    ensures Stored(Apply(k.q, op)) == Step(k, op).origin.Keys
  {
    CallerOkIsOpOk(k, op);
    ShapeKept(k.q, op);
    ConservedByStep(k.q, op);
    var added := Enqueued(k.q, op);
    assert Added(k.q, op) == if added == [] then {} else {added[0].id};
  }

  lemma VersionsEnqueued(k: Tracked, job: Job)
    requires Versions(k) && job.id !in k.origin && job.maxAttempts > 0
    ensures Versions(k.(origin := k.origin[job.id := job]))
  {
    var origin := k.origin[job.id := job];
    assert forall v :: VersionOf(k.origin, v) ==> VersionOf(origin, v);
  }

  lemma VersionsAddEntry(k: Tracked, f: Fields)
    requires Versions(k) && (f.JobFields? ==> VersionOf(k.origin, f.job))
    ensures Versions(k.(q := AddEntry(k.q, f)))
  {
  }

  lemma VersionsAddScheduled(k: Tracked, job: Job, runAt: int)
    requires Versions(k) && VersionOf(k.origin, job)
    ensures Versions(k.(q := AddScheduled(k.q, job, runAt)))
  {
  }

  lemma VersionsAdding(k: Tracked, op: Op)
    requires Inv(k) && CallerOk(k, op) && Adds(op)
    ensures Versions(Step(k, op))
  {
    var added := Enqueued(k.q, op);
    if added != [] {
      assert added[0] in added && added[0].id !in k.origin;
      VersionsEnqueued(k, added[0]);
    }
    var grown := k.(origin := Step(k, op).origin);
    match op
    case XAdd(f) =>
      VersionsAddEntry(grown, f);
    case Put(job, runAt) =>
      VersionsAddScheduled(grown, job, runAt);
    case Once(key, job, window, runAt) =>
      if added != [] {
        var keyed := grown.(q := k.q.(dedupe := k.q.dedupe[key := Dedupe(job.id, k.q.clock + window)]));
        if runAt > 0 {
          VersionsAddScheduled(keyed, job, runAt);
        } else {
          VersionsAddEntry(keyed, JobFields(job));
        }
      }
    case PromoteOne(id, now) =>
      if Due(k.q, id, now) {
        VersionsAddEntry(k, JobFields(k.q.data[id]));
      }
  }

  lemma VersionsSettling(k: Tracked, op: Op)
    requires Inv(k) && CallerOk(k, op) && Settles(op)
    ensures Versions(Step(k, op))
  {
    if Owns(k.q, op.lease) {
      assert op.DeadLetter? && op.dead.fields.JobFields? ==> VersionOf(k.origin, op.dead.fields.job);
      assert op.Retry? ==> VersionOf(k.origin, op.job);
    }
  }

  lemma VersionsElse(k: Tracked, op: Op)
    requires Inv(k) && CallerOk(k, op) && !Adds(op) && !Settles(op)
    ensures Versions(Step(k, op))
  {
    var out := HandedOut(k.q, op);
    assert out != [] ==> VersionOf(k.origin, out[0].job);
  }

  lemma VersionsKept(k: Tracked, op: Op)
    requires Inv(k) && CallerOk(k, op)
    ensures Versions(Step(k, op))
  {
    if Adds(op) {
      VersionsAdding(k, op);
    } else if Settles(op) {
      VersionsSettling(k, op);
    } else {
      VersionsElse(k, op);
    }
  }

  lemma CaughtUpAdding(k: Tracked, op: Op, d: Delivery)
    requires Inv(k) && CallerOk(k, op) && d in k.hist && Adds(op)
    ensures CaughtUp(Apply(k.q, op), d)
  {
    assert d.job.id in Stored(k.q);
    if op.PromoteOne? {
      CaughtUpPromoting(k.q, op, d);
    } else {
      CaughtUpEnqueueing(k, op, d);
    }
  }

  lemma CaughtUpPromoting(q: Stream, op: Op, d: Delivery)
    requires Shape(q) && Placed(q) && CaughtUp(q, d) && op.PromoteOne?
    ensures CaughtUp(Apply(q, op), d)
  {
  }

  /** Enqueued jobs have new IDs, so they are none of the delivered ones. */
  lemma CaughtUpEnqueueing(k: Tracked, op: Op, d: Delivery)
    requires Shape(k.q) && CallerOk(k, op) && CaughtUp(k.q, d) && d.job.id in k.origin && Adds(op) && !op.PromoteOne?
    ensures CaughtUp(Apply(k.q, op), d)
  {
    var added := Enqueued(k.q, op);
    if added != [] {
      assert added[0] in added;
    }
  }

  lemma CaughtUpDelivering(k: Tracked, op: Op, d: Delivery)
    requires Inv(k) && d in k.hist && Delivers(op)
    ensures CaughtUp(Apply(k.q, op), d)
  {
    if op.ReadOne? && Ready(k.q) != {} {
      ReadsOldestFirst(k.q);
    }
  }

  lemma CaughtUpSettling(k: Tracked, op: Op, d: Delivery)
    requires Inv(k) && CallerOk(k, op) && d in k.hist && Settles(op)
    ensures CaughtUp(Apply(k.q, op), d)
  {
  }

  lemma CaughtUpElse(k: Tracked, op: Op, d: Delivery)
    requires Inv(k) && d in k.hist && !Adds(op) && !Delivers(op) && !Settles(op)
    ensures CaughtUp(Apply(k.q, op), d)
  {
    if (op.Deregister? || op.PruneOne?) && HoldsNothing(k.q, op.worker) {
      IdleConsumerDropsNothing(k.q, op.worker);
    }
  }

  lemma CaughtUpKept(k: Tracked, op: Op, d: Delivery)
    requires Inv(k) && CallerOk(k, op) && d in k.hist
    ensures CaughtUp(Apply(k.q, op), d)
  {
    if Adds(op) {
      CaughtUpAdding(k, op, d);
    } else if Delivers(op) {
      CaughtUpDelivering(k, op, d);
    } else if Settles(op) {
      CaughtUpSettling(k, op, d);
    } else {
      CaughtUpElse(k, op, d);
    }
  }

  /** A new delivery is the current one and outranks every earlier delivery of its job. */
  lemma NewDeliveryIsNewest(k: Tracked, op: Op)
    requires Inv(k) && HandedOut(k.q, op) != []
    ensures var d := HandedOut(k.q, op)[0];
            && CaughtUp(Apply(k.q, op), d) && Owns(Apply(k.q, op), d.lease)
            && forall i :: 0 <= i < |k.hist| && k.hist[i].job.id == d.job.id ==> Before(k.hist[i], d)
  {
    if op.ReadOne? {
      ReadsOldestFirst(k.q);
    }
    var d := HandedOut(k.q, op)[0];
    forall i | 0 <= i < |k.hist| && k.hist[i].job.id == d.job.id
      ensures Before(k.hist[i], d)
    {
      assert CaughtUp(k.q, k.hist[i]);
    }
  }

  lemma {:induction false} InvKept(k: Tracked, op: Op)
    requires Inv(k) && CallerOk(k, op)
    ensures Inv(Step(k, op))
  {
    StoredTracksOrigin(k, op);
    VersionsKept(k, op);
    var next := Step(k, op);
    if HandedOut(k.q, op) != [] {
      NewDeliveryIsNewest(k, op);
    }
    forall i | 0 <= i < |next.hist|
      ensures CaughtUp(next.q, next.hist[i])
    {
      if i < |k.hist| {
        assert next.hist[i] == k.hist[i];
        CaughtUpKept(k, op, k.hist[i]);
      }
    }
  }

  lemma {:induction false} InvAlways(k: Tracked, ops: seq<Op>)
    requires Inv(k) && CallersOk(k, ops)
    ensures Inv(Steps(k, ops))
    decreases |ops|
  {
    if ops != [] {
      InvKept(k, ops[0]);
      InvAlways(Step(k, ops[0]), ops[1..]);
    }
  }

  // ----- consequences

  /** Fencing tokens strictly increase along a job's whole delivery history, across redeliveries and retries. */
  lemma {:induction false} TokensIncrease(ops: seq<Op>, i: nat, j: nat)
    requires CallersOk(START, ops)
    requires var h := Steps(START, ops).hist; i < j < |h| && h[i].job.id == h[j].job.id
    requires var h := Steps(START, ops).hist;
             h[i].job.attempt < TWO31 && h[i].lease.token < TWO32 && h[j].job.attempt < TWO31 && h[j].lease.token < TWO32
    ensures var h := Steps(START, ops).hist;
            h[i].lease.token >= 1 && h[j].lease.token >= 1
            && FencingToken(h[i].job.attempt, h[i].lease.token) < FencingToken(h[j].job.attempt, h[j].lease.token)
  {
    InvAlways(START, ops);
    var h := Steps(START, ops).hist;
    assert CaughtUp(Steps(START, ops).q, h[i]) && CaughtUp(Steps(START, ops).q, h[j]);
    PackingKeepsOrder(h[i].job.attempt, h[i].lease.token, h[j].job.attempt, h[j].lease.token);
  }

  /** Once a job is delivered again, the earlier lease no longer passes the check. */
  lemma RedeliveryEndsLease(k: Tracked, i: nat, j: nat)
    requires Inv(k) && i < |k.hist| && j < |k.hist|
    ensures i < j && k.hist[i].job.id == k.hist[j].job.id ==> !Owns(k.q, k.hist[i].lease)
  {
    var d, other := k.hist[i], k.hist[j];
    assert CaughtUp(k.q, d) && CaughtUp(k.q, other);
    assert i < j && d.job.id == other.job.id ==> Before(d, other);
    assert Owns(k.q, d.lease) ==> d.lease.messageId in k.q.entries && k.q.entries[d.lease.messageId] == JobFields(d.job);
  }

  /** The delivery whose lease passes the check is the newest one of its job. */
  lemma {:induction false} OwnerIsNewest(k: Tracked, d: Delivery, other: Delivery)
    requires Inv(k) && d in k.hist && other in k.hist && d.job.id == other.job.id && Owns(k.q, d.lease)
    ensures other == d || Before(other, d)
  {
    var i :| 0 <= i < |k.hist| && k.hist[i] == d;
    var j :| 0 <= j < |k.hist| && k.hist[j] == other;
    RedeliveryEndsLease(k, i, j);
  }

  /** A superseded delivery has lost its lease. */
  lemma {:induction false} SupersededIsLost(k: Tracked, d: Delivery, newer: Delivery)
    requires Inv(k) && d in k.hist && newer in k.hist && d.job.id == newer.job.id && Before(d, newer)
    ensures Lost(k.q, d.lease)
  {
    assert CaughtUp(k.q, d);
    if Owns(k.q, d.lease) {
      OwnerIsNewest(k, d, newer);
    }
  }
}
