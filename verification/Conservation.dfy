/** No job is lost, duplicated or invented: every stored job is in exactly one place. */
module Conservation {
  import opened Jobs
  import opened Streams

  function StreamIds(entries: map<nat, Fields>): set<JobID> {
    set e | e in entries && entries[e].JobFields? :: entries[e].job.id
  }

  function DeadIds(dead: seq<DeadEntry>): set<JobID> {
    set d | d in dead && d.fields.JobFields? :: d.fields.job.id
  }

  /** Every job the queue knows about. */
  function Stored(s: Stream): set<JobID> {
    StreamIds(s.entries) + s.schedule.Keys + DeadIds(s.dead) + s.completed
  }

  ghost predicate OneEntryPerJob(entries: map<nat, Fields>) {
    forall e1, e2 | e1 in entries && e2 in entries && entries[e1].JobFields? && entries[e2].JobFields? ::
      entries[e1].job.id == entries[e2].job.id ==> e1 == e2
  }

  ghost predicate DeadOnce(dead: seq<DeadEntry>) {
    forall i, k :: 0 <= i < k < |dead| && dead[i].fields.JobFields? && dead[k].fields.JobFields? ==>
      dead[i].fields.job.id != dead[k].fields.job.id
  }

  /** The places a job can be in do not overlap, and no place holds a job twice. */
  ghost predicate Placed(s: Stream) {
    && OneEntryPerJob(s.entries)
    && DeadOnce(s.dead)
    && (forall j :: j in s.data ==> s.data[j].id == j)
    && StreamIds(s.entries) !! s.schedule.Keys !! DeadIds(s.dead) !! s.completed
  }

  /** The entry a lease was given for holds this job. */
  predicate Holds(s: Stream, l: Lease, job: Job) {
    l.messageId in s.entries && s.entries[l.messageId] == JobFields(job)
  }

  /**
   What callers owe: fresh job IDs on enqueue (queue/job.go:15-19), and workers
   settle with the job value they were handed.
   */
  predicate OpOk(s: Stream, op: Op) {
    match op
    case XAdd(f) => JobIds(f) !! Stored(s)
    case Put(job, _) => job.id !in Stored(s)
    case Once(key, job, _, _) => Remembered(s, key) || job.id !in Stored(s)
    case Ack(l) => Owns(s, l) && l.messageId in s.entries ==> s.entries[l.messageId].JobFields?
    case Retry(l, job, _) => Owns(s, l) ==> job.attempt > 0 && Holds(s, l, job.(attempt := job.attempt - 1))
    case DeadLetter(l, d) => Owns(s, l) ==> l.messageId in s.entries && s.entries[l.messageId] == d.fields
    case _ => true
  }

  predicate OpsOk(s: Stream, ops: seq<Op>)
    decreases |ops|
  {
    ops == [] || (OpOk(s, ops[0]) && OpsOk(Apply(s, ops[0]), ops[1..]))
  }

  /** The jobs a step stores for the first time. */
  function Added(s: Stream, op: Op): set<JobID> {
    match op
    case XAdd(f) => JobIds(f)
    case Put(job, _) => {job.id}
    case Once(key, job, _, _) => if Remembered(s, key) then {} else {job.id}
    case _ => {}
  }

  // ----- the pieces

  lemma IdsAfterAdd(entries: map<nat, Fields>, e: nat, f: Fields)
    requires e !in entries
    ensures StreamIds(entries[e := f]) == StreamIds(entries) + JobIds(f)
    ensures OneEntryPerJob(entries) && JobIds(f) !! StreamIds(entries) ==> OneEntryPerJob(entries[e := f])
  {
    var after := entries[e := f];
    forall j | j in StreamIds(entries) + JobIds(f)
      ensures j in StreamIds(after)
    {
      if j in StreamIds(entries) {
        var x :| x in entries && entries[x].JobFields? && entries[x].job.id == j;
        assert after[x] == entries[x];
      } else {
        assert after[e].job.id == j;
      }
    }
  }

  lemma IdsAfterRemove(entries: map<nat, Fields>, e: nat)
    requires e in entries && OneEntryPerJob(entries)
    ensures StreamIds(entries - {e}) == StreamIds(entries) - JobIds(entries[e])
    ensures OneEntryPerJob(entries - {e})
  {
    var after := entries - {e};
    forall j | j in StreamIds(entries) - JobIds(entries[e])
      ensures j in StreamIds(after)
    {
      var x :| x in entries && entries[x].JobFields? && entries[x].job.id == j;
      assert x in after && after[x] == entries[x];
    }
  }

  lemma DeadAfterAppend(dead: seq<DeadEntry>, d: DeadEntry)
    ensures DeadIds(dead + [d]) == DeadIds(dead) + JobIds(d.fields)
    ensures DeadOnce(dead) && JobIds(d.fields) !! DeadIds(dead) ==> DeadOnce(dead + [d])
  {
    var after := dead + [d];
    forall j | j in DeadIds(dead) + JobIds(d.fields)
      ensures j in DeadIds(after)
    {
      if j in DeadIds(dead) {
        var x :| x in dead && x.fields.JobFields? && x.fields.job.id == j;
        assert x in after;
      } else {
        assert d in after;
      }
    }
    forall i | 0 <= i < |dead| && dead[i].fields.JobFields?
      ensures dead[i].fields.job.id in DeadIds(dead)
    {
      assert dead[i] in dead;
    }
  }

  lemma EntryIsStored(s: Stream, e: nat)
    requires e in s.entries
    ensures JobIds(s.entries[e]) <= StreamIds(s.entries)
  {
  }

  // ----- every step

  lemma ConservedAddEntry(s: Stream, f: Fields)
    requires Shape(s) && Placed(s) && JobIds(f) !! Stored(s)
    ensures Placed(AddEntry(s, f)) && Stored(AddEntry(s, f)) == Stored(s) + JobIds(f)
  {
    IdsAfterAdd(s.entries, s.lastId + 1, f);
  }

  lemma ConservedAddScheduled(s: Stream, job: Job, runAt: int)
    requires Shape(s) && Placed(s) && job.id !in Stored(s)
    ensures Placed(AddScheduled(s, job, runAt)) && Stored(AddScheduled(s, job, runAt)) == Stored(s) + {job.id}
  {
  }

  lemma ConservedPromoting(s: Stream, id: JobID, now: int)
    requires Shape(s) && Placed(s)
    ensures Placed(Apply(s, PromoteOne(id, now))) && Stored(Apply(s, PromoteOne(id, now))) == Stored(s)
  {
    if Due(s, id, now) {
      IdsAfterAdd(s.entries, s.lastId + 1, JobFields(s.data[id]));
    }
  }

  lemma ConservedAdding(s: Stream, op: Op)
    requires Shape(s) && Placed(s) && OpOk(s, op) && Adds(op)
    ensures Placed(Apply(s, op)) && Stored(Apply(s, op)) == Stored(s) + Added(s, op)
  {
    match op
    case XAdd(f) =>
      ConservedAddEntry(s, f);
    case Put(job, runAt) =>
      ConservedAddScheduled(s, job, runAt);
    case Once(key, job, window, runAt) =>
      if !Remembered(s, key) {
        ConservedOnce(s, key, job, window, runAt);
      }
    case PromoteOne(id, now) =>
      ConservedPromoting(s, id, now);
  }

  lemma ConservedOnce(s: Stream, key: string, job: Job, window: nat, runAt: int)
    requires Shape(s) && Placed(s) && !Remembered(s, key) && job.id !in Stored(s)
    ensures var next := Apply(s, Once(key, job, window, runAt)); Placed(next) && Stored(next) == Stored(s) + {job.id}
  {
    var s1 := s.(dedupe := s.dedupe[key := Dedupe(job.id, s.clock + window)]);
    assert Placed(s1) && Stored(s1) == Stored(s);
    var next := Apply(s, Once(key, job, window, runAt));
    if runAt > 0 {
      assert next == AddScheduled(s1, job, runAt);
      ConservedAddScheduled(s1, job, runAt);
    } else {
      assert next == AddEntry(s1, JobFields(job));
      ConservedAddEntry(s1, JobFields(job));
    }
  }

  lemma {:induction false} ConservedSettling(s: Stream, op: Op)
    requires Shape(s) && Placed(s) && OpOk(s, op) && Settles(op)
    ensures Placed(Apply(s, op)) && Stored(Apply(s, op)) == Stored(s)
  {
    var l := op.lease;
    if Owns(s, l) {
      IdsAfterRemove(s.entries, l.messageId);
      EntryIsStored(s, l.messageId);
      if op.DeadLetter? {
        DeadAfterAppend(s.dead, op.dead);
      }
    }
  }

  /** One step keeps every job in one place and stores exactly the jobs it enqueues. */
  lemma {:induction false} ConservedByStep(s: Stream, op: Op)
    requires Shape(s) && Placed(s) && OpOk(s, op)
    ensures Placed(Apply(s, op))
    ensures Stored(Apply(s, op)) == Stored(s) + Added(s, op)
  {
    if Adds(op) {
      ConservedAdding(s, op);
    } else if Settles(op) {
      ConservedSettling(s, op);
    } else {
      ConservedElse(s, op);
    }
  }

  lemma ConservedElse(s: Stream, op: Op)
    requires Placed(s) && !Adds(op) && !Settles(op)
    ensures Placed(Apply(s, op)) && Stored(Apply(s, op)) == Stored(s)
  {
    JobsUntouched(s, op);
  }

  /** Where jobs are. */
  function Places(s: Stream): (map<nat, Fields>, map<JobID, int>, map<JobID, Job>, seq<DeadEntry>, set<JobID>) {
    (s.entries, s.schedule, s.data, s.dead, s.completed)
  }

  lemma JobsUntouched(s: Stream, op: Op)
    requires !Adds(op) && !Settles(op)
    ensures Places(Apply(s, op)) == Places(s)
  {
  }

  function AddedBy(s: Stream, ops: seq<Op>): set<JobID>
    decreases |ops|
  {
    if ops == [] then {} else Added(s, ops[0]) + AddedBy(Apply(s, ops[0]), ops[1..])
  }

  /** Over every run, the queue holds exactly the jobs enqueued, each in one place. */
  lemma {:induction false} ConservedByRun(s: Stream, ops: seq<Op>)
    requires Shape(s) && Placed(s) && OpsOk(s, ops)
    ensures Shape(Run(s, ops)) && Placed(Run(s, ops))
    ensures Stored(Run(s, ops)) == Stored(s) + AddedBy(s, ops)
    decreases |ops|
  {
    if ops != [] {
      ShapeKept(s, ops[0]);
      ConservedByStep(s, ops[0]);
      ConservedByRun(Apply(s, ops[0]), ops[1..]);
    }
  }

  /** Steps that neither enqueue nor settle. */
  predicate Quiet(op: Op) {
    op.PromoteOne? || (!Adds(op) && !Settles(op))
  }

  /** Promotion, delivery, recovery, renewal and pruning move jobs around without gaining or losing one. */
  lemma {:induction false} QuietRunConserves(s: Stream, ops: seq<Op>)
    requires Shape(s) && Placed(s) && forall op :: op in ops ==> Quiet(op)
    ensures Placed(Run(s, ops)) && Stored(Run(s, ops)) == Stored(s)
    decreases |ops|
  {
    if ops != [] {
      assert Quiet(ops[0]);
      ShapeKept(s, ops[0]);
      ConservedByStep(s, ops[0]);
      QuietRunConserves(Apply(s, ops[0]), ops[1..]);
    }
  }

  // ----- the five places

  ghost predicate IsReady(s: Stream, j: JobID) {
    exists e :: e in s.entries && e !in s.pel && s.entries[e].JobFields? && s.entries[e].job.id == j
  }

  ghost predicate IsPending(s: Stream, j: JobID) {
    exists e :: e in s.entries && e in s.pel && s.entries[e].JobFields? && s.entries[e].job.id == j
  }

  function Int(b: bool): int {
    if b then 1 else 0
  }

  ghost function PlacesOf(s: Stream, j: JobID): int {
    Int(IsReady(s, j)) + Int(IsPending(s, j)) + Int(j in s.schedule) + Int(j in DeadIds(s.dead)) + Int(j in s.completed)
  }

  lemma {:induction false} ExactlyOnePlace(s: Stream, j: JobID)
    requires Shape(s) && Placed(s)
    ensures PlacesOf(s, j) == Int(j in Stored(s))
  {
    assert j in StreamIds(s.entries) <==> IsReady(s, j) || IsPending(s, j);
  }

  /** A drained queue has settled everything: an empty stream and schedule leave only completed and dead jobs. */
  lemma {:induction false} DrainedMeansSettled(ops: seq<Op>)
    requires OpsOk(EMPTY, ops)
    ensures var s := Run(EMPTY, ops);
            s.entries == map[] && s.schedule == map[] ==>
              AddedBy(EMPTY, ops) == DeadIds(s.dead) + s.completed && DeadIds(s.dead) !! s.completed
  {
    ConservedByRun(EMPTY, ops);
  }
}
