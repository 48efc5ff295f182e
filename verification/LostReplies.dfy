/**
 What a batch's IDs say about its jobs, and what a caller who got none can do
 (redisstream/sharded.go, queue/queue.go).
 */
module LostReplies {
  import opened Jobs
  import opened Sets
  import opened Streams
  import opened Conservation
  import opened Enqueueing
  import opened Scripts
  import opened Scatter
  import opened Sharding

  /** The batch stored the job of its i-th request. */
  predicate StoredBy(parts: seq<Stream>, b: Batch, i: nat)
    requires Fits(b, |parts|) && i < |b.rs|
  {
    b.where[i] !in b.down && Added(StateAt(parts, b, i), StepsOf(b)[i].op) == {b.rs[i].job.id}
  }

  /** The partition as the i-th request finds it. */
  function StateAt(parts: seq<Stream>, b: Batch, i: nat): Stream
    requires Fits(b, |parts|) && i < |b.rs|
  {
    RunRouted(parts, StepsOf(b)[..i], b.down)[b.where[i]]
  }

  /** No dedupe key remembers this job. */
  ghost predicate Unremembered(s: Stream, id: JobID) {
    forall key :: key in s.dedupe ==> s.dedupe[key].id != id
  }

  lemma {:induction false} StaysUnremembered(s: Stream, ops: seq<Op>, id: JobID)
    requires Unremembered(s, id) && forall k :: 0 <= k < |ops| && ops[k].Once? ==> ops[k].job.id != id
    ensures Unremembered(Run(s, ops), id)
    decreases |ops|
  {
    if ops != [] {
      var next := Apply(s, ops[0]);
      if !ops[0].Once? {
        OnlyOnceRemembers(s, ops[0]);
      }
      assert Unremembered(next, id);
      StaysUnremembered(next, ops[1..], id);
    }
  }

  lemma {:induction false} OpsOnOthers(steps: seq<Routed>, p: nat, id: JobID)
    requires forall k :: 0 <= k < |steps| && steps[k].op.Once? ==> steps[k].op.job.id != id
    ensures forall k :: 0 <= k < |OpsOn(steps, p)| && OpsOn(steps, p)[k].Once? ==> OpsOn(steps, p)[k].job.id != id
    decreases |steps|
  {
    if steps != [] {
      OpsOnOthers(steps[1..], p, id);
    }
  }

  /** Requests of a batch carry IDs that no key and no earlier request has used. */
  ghost predicate FreshId(parts: seq<Stream>, b: Batch, i: nat, id: JobID)
    requires Fits(b, |parts|) && i < |b.rs|
  {
    Unremembered(parts[b.where[i]], id) && forall k :: 0 <= k < i ==> b.rs[k].job.id != id
  }

  lemma StateUnremembered(parts: seq<Stream>, b: Batch, i: nat, id: JobID)
    requires Fits(b, |parts|) && i < |b.rs| && FreshId(parts, b, i, id)
    ensures Unremembered(StateAt(parts, b, i), id)
  {
    var before, p := StepsOf(b)[..i], b.where[i];
    OpsOnOthers(before, p, id);
    StaysUnremembered(parts[p], OpsOn(before, p), id);
    RunRoutedProjects(parts, before, b.down, p);
  }

  /** A batch reports a new job under its own ID exactly when this call stored it and heard so. */
  lemma {:induction false} OwnIdIffStored(parts: seq<Stream>, b: Batch, i: nat)
    requires Fits(b, |parts|) && i < |b.rs| && b.rs[i].job.id != "" && FreshId(parts, b, i, b.rs[i].job.id)
    ensures IdAt(parts, b, i) == b.rs[i].job.id <==> StoredBy(parts, b, i) && b.where[i] !in b.unheard
  {
    StateUnremembered(parts, b, i, b.rs[i].job.id);
    var s, op := StateAt(parts, b, i), StepsOf(b)[i].op;
    if op.Once? && Remembered(s, op.key) {
      assert OnceReply(s, op) != b.rs[i].job.id;
    }
  }

  /**
   An empty ID hides a stored job exactly when the partition committed, its
   reply was lost, and the key had not been used before.
   */
  lemma {:induction false} NoIdYetStoredIff(parts: seq<Stream>, b: Batch, i: nat)
    requires Fits(b, |parts|) && i < |b.rs| && b.rs[i].job.id != "" && FreshId(parts, b, i, "")
    ensures IdAt(parts, b, i) == "" && StoredBy(parts, b, i)
            <==> b.where[i] in b.unheard - b.down && !(b.rs[i].key != "" && Remembered(StateAt(parts, b, i), b.rs[i].key))
  {
    StateUnremembered(parts, b, i, "");
    var s, op := StateAt(parts, b, i), StepsOf(b)[i].op;
    if op.Once? && Remembered(s, op.key) {
      assert OnceReply(s, op) != "";
    }
  }

  /** Such a batch: one job, one partition that stores it, one lost reply. */
  lemma {:induction false} LostReplyHidesJob() returns (b: Batch)
    ensures Fits(b, 1) && |b.rs| == 1 && b.rs[0].job.id == "j" && IdAt([EMPTY], b, 0) == ""
    ensures StoredBy([EMPTY], b, 0) && "j" in Stored(RunRouted([EMPTY], StepsOf(b), b.down)[0])
  {
    var job := Job("j", "task", "{}", 0, 3, 0);
    b := Batch([Request(job, "")], [0], 0, [0], {}, {0});
    var steps := StepsOf(b);
    assert steps == [Routed(0, XAdd(JobFields(job)))] && steps[..0] == [];
    var after := AddEntry(EMPTY, JobFields(job));
    assert RunRouted([EMPTY], steps, {})[0] == after;
    assert 1 in after.entries && after.entries[1] == JobFields(job);
    EntryIsStored(after, 1);
  }

  // ----- retrying after a lost reply

  lemma {:induction false} ElapsedAppend(a: seq<Op>, b: seq<Op>)
    ensures Elapsed(a + b) == Elapsed(a) + Elapsed(b)
    decreases |a|
  {
    if a == [] {
      assert a + b == b;
    } else {
      assert (a + b)[1..] == a[1..] + b;
      ElapsedAppend(a[1..], b);
    }
  }

  /** One partition's steps, split at one of them. */
  lemma SplitAt(steps: seq<Routed>, i: nat, p: nat)
    requires i < |steps| && steps[i].part == p
    ensures OpsOn(steps, p) == OpsOn(steps[..i], p) + ([steps[i].op] + OpsOn(steps[i + 1..], p))
  {
    var tail := [steps[i]] + steps[i + 1..];
    assert steps == steps[..i] + tail;
    OpsOnAppend(steps[..i], tail, p);
    assert tail[1..] == steps[i + 1..];
  }

  /** What the batch does in that partition after the i-th request. It takes no time. */
  function RestOf(b: Batch, i: nat): seq<Op>
    requires Fits(b, |b.windows|) && i < |b.rs|
  {
    OpsOn(StepsOf(b)[i + 1..], b.where[i])
  }

  lemma RestTakesNoTime(b: Batch, i: nat, ops: seq<Op>)
    requires Fits(b, |b.windows|) && i < |b.rs|
    ensures Elapsed(RestOf(b, i) + ops) == Elapsed(ops)
  {
    OpsOnNoTime(StepsOf(b)[i + 1..], b.where[i]);
    NoTimeElapses(RestOf(b, i));
    ElapsedAppend(RestOf(b, i), ops);
  }

  /** The partition after the batch: its i-th request's step and the rest of the batch. */
  lemma AfterBatch(parts: seq<Stream>, b: Batch, i: nat)
    requires Fits(b, |parts|) && i < |b.rs| && b.where[i] !in b.down
    ensures RunRouted(parts, StepsOf(b), b.down)[b.where[i]] == Run(StateAt(parts, b, i), [StepsOf(b)[i].op] + RestOf(b, i))
    ensures StateAt(parts, b, i) == Run(parts[b.where[i]], OpsOn(StepsOf(b)[..i], b.where[i]))
  {
    var steps, p := StepsOf(b), b.where[i];
    SplitAt(steps, i, p);
    RunRoutedProjects(parts, steps, b.down, p);
    RunRoutedProjects(parts, steps[..i], b.down, p);
    RunAppend(parts[p], OpsOn(steps[..i], p), [steps[i].op] + RestOf(b, i));
  }

  lemma Later(parts: seq<Stream>, b: Batch, i: nat, ops: seq<Op>)
    requires Fits(b, |parts|) && i < |b.rs| && b.where[i] !in b.down
    ensures Run(RunRouted(parts, StepsOf(b), b.down)[b.where[i]], ops)
            == Run(StateAt(parts, b, i), [StepsOf(b)[i].op] + (RestOf(b, i) + ops))
  {
    AfterBatch(parts, b, i);
    var first, rest := [StepsOf(b)[i].op], RestOf(b, i);
    RunAppend(StateAt(parts, b, i), first + rest, ops);
    JoinIsAssociative(first, rest, ops);
  }

  /** A keyed request without an ID can be retried until its key expires: nothing new is stored and the original ID comes back. */
  lemma {:induction false} KeyedRetryIsSafe(parts: seq<Stream>, b: Batch, i: nat, ops: seq<Op>, again: Request, now: int)
    requires Fits(b, |parts|) && i < |b.rs| && b.where[i] in b.unheard - b.down && again.key == b.rs[i].key != ""
    requires var next := Apply(StateAt(parts, b, i), StepsOf(b)[i].op);
             next.clock + Elapsed(ops) <= next.dedupe[again.key].expires
    ensures var s, window := Run(RunRouted(parts, StepsOf(b), b.down)[b.where[i]], ops), b.windows[b.where[i]];
            && Apply(s, EnqueueOp(again, now, window)) == s && Added(s, EnqueueOp(again, now, window)) == {}
            && EnqueueReply(s, again, now, window) == EnqueueReply(StateAt(parts, b, i), b.rs[i], b.now, window)
  {
    Later(parts, b, i, ops);
    RestTakesNoTime(b, i, ops);
    KeyAnswersAgain(StateAt(parts, b, i), StepsOf(b)[i].op, RestOf(b, i) + ops, EnqueueOp(again, now, b.windows[b.where[i]]));
  }

  lemma {:induction false} ClockRuns(s: Stream, ops: seq<Op>)
    ensures Run(s, ops).clock == s.clock + Elapsed(ops)
    decreases |ops|
  {
    if ops != [] {
      ClockSteps(s, ops[0]);
      ClockRuns(Apply(s, ops[0]), ops[1..]);
    }
  }

  lemma ClockSteps(s: Stream, op: Op)
    ensures Apply(s, op).clock == s.clock + if op.Tick? then op.ms else 0
  {
    if !op.Once? {
      OnlyOnceRemembers(s, op);
    }
  }

  /** Nobody else enqueues with this key. */
  predicate KeyUnused(ops: seq<Op>, key: string) {
    forall k :: 0 <= k < |ops| && ops[k].Once? ==> ops[k].key != key
  }

  lemma {:induction false} KeyUntouched(s: Stream, ops: seq<Op>, key: string)
    requires key in s.dedupe && KeyUnused(ops, key)
    ensures key in Run(s, ops).dedupe && Run(s, ops).dedupe[key] == s.dedupe[key]
    decreases |ops|
  {
    if ops != [] {
      if !ops[0].Once? {
        OnlyOnceRemembers(s, ops[0]);
      }
      assert KeyUnused(ops[1..], key);
      KeyUntouched(Apply(s, ops[0]), ops[1..], key);
    }
  }

  /** A key that stored a job is remembered until its window closes, and no longer unless it is used again. */
  lemma KeyExpires(s: Stream, first: Op, rest: seq<Op>, ops: seq<Op>)
    requires first.Once? && !Remembered(s, first.key) && NoTime(rest) && KeyUnused(ops, first.key)
    ensures var t := Run(s, [first] + (rest + ops));
            && first.key in t.dedupe && t.dedupe[first.key].id == first.job.id
            && (Remembered(t, first.key) <==> Elapsed(ops) <= first.window)
  {
    var next := Apply(s, first);
    NoTimeElapses(rest);
    KeyKeptByRun(next, rest, first.key);
    ClockRuns(next, rest);
    var middle := Run(next, rest);
    KeyUntouched(middle, ops, first.key);
    ClockRuns(middle, ops);
    RunAppend(next, rest, ops);
    assert ([first] + (rest + ops))[1..] == rest + ops;
  }

  lemma {:induction false} KeyUnusedOn(steps: seq<Routed>, p: nat, key: string)
    requires forall k :: 0 <= k < |steps| && steps[k].op.Once? ==> steps[k].op.key != key
    ensures KeyUnused(OpsOn(steps, p), key)
    decreases |steps|
  {
    if steps != [] {
      KeyUnusedOn(steps[1..], p, key);
    }
  }

  /** The partitions after the batch and whatever else ran since. */
  function After(parts: seq<Stream>, b: Batch, later: seq<Routed>): (r: seq<Stream>)
    requires Fits(b, |parts|)
    ensures |r| == |parts|
  {
    RunRouted(RunRouted(parts, StepsOf(b), b.down), later, {})
  }

  lemma AfterAt(parts: seq<Stream>, b: Batch, later: seq<Routed>, i: nat)
    requires Fits(b, |parts|) && i < |b.rs| && b.where[i] !in b.down
    ensures After(parts, b, later)[b.where[i]]
            == Run(StateAt(parts, b, i), [StepsOf(b)[i].op] + (RestOf(b, i) + OpsOn(later, b.where[i])))
  {
    RunRoutedProjects(RunRouted(parts, StepsOf(b), b.down), later, {}, b.where[i]);
    Later(parts, b, i, OpsOn(later, b.where[i]));
  }

  /** What retrying the i-th request does, at the partition it is routed to. */
  function RetryOp(b: Batch, again: Request, now: int, q: nat): Op
    requires q < |b.windows|
  {
    EnqueueOp(again, now, b.windows[q])
  }

  /**
   A job was stored but its ID never came back. Retrying the request, wherever
   it is routed and whatever ran since, stores a second job exactly when it has
   no key or its key has expired; otherwise it changes nothing and reports the
   first job's ID.
   */
  lemma {:induction false} RetryDuplicatesIff(parts: seq<Stream>, b: Batch, i: nat, later: seq<Routed>, again: Request, now: int, q: nat)
    requires Fits(b, |parts|) && i < |b.rs| && b.where[i] in b.unheard && StoredBy(parts, b, i)
    requires again.key == b.rs[i].key && q < |parts| && (again.key != "" ==> q == b.where[i])
    requires forall k :: 0 <= k < |later| && later[k].op.Once? ==> later[k].op.key != again.key
    ensures var s, op, p := After(parts, b, later)[q], RetryOp(b, again, now, q), b.where[i];
            if again.key == "" || Elapsed(OpsOn(later, p)) > b.windows[p]
            then Added(s, op) == {again.job.id}
            else Apply(s, op) == s && Added(s, op) == {} && EnqueueReply(s, again, now, b.windows[q]) == b.rs[i].job.id
  {
    if again.key != "" {
      var p := b.where[i];
      AfterAt(parts, b, later, i);
      OpsOnNoTime(StepsOf(b)[i + 1..], p);
      KeyUnusedOn(later, p, again.key);
      KeyExpires(StateAt(parts, b, i), StepsOf(b)[i].op, RestOf(b, i), OpsOn(later, p));
    }
  }

  lemma Regroup<T>(a: seq<T>, b: seq<T>, c: seq<T>, d: seq<T>)
    ensures (a + (b + c)) + d == a + (b + (c + d))
  {
  }

  lemma BatchOpsOk(parts: seq<Stream>, b: Batch, i: nat, ops: seq<Op>)
    requires Fits(b, |parts|) && i < |b.rs| && b.where[i] !in b.down && Shape(parts[b.where[i]]) && Placed(parts[b.where[i]])
    requires OpsOk(parts[b.where[i]], OpsOn(StepsOf(b), b.where[i]) + ops)
    ensures var s := StateAt(parts, b, i); Shape(s) && Placed(s) && OpsOk(s, [StepsOf(b)[i].op] + (RestOf(b, i) + ops))
  {
    var p := b.where[i];
    var before, op := OpsOn(StepsOf(b)[..i], p), StepsOf(b)[i].op;
    AfterBatch(parts, b, i);
    SplitAt(StepsOf(b), i, p);
    Regroup(before, [op], RestOf(b, i), ops);
    OpsOkAppend(parts[p], before, [op] + (RestOf(b, i) + ops));
    ConservedByRun(parts[p], before);
  }

  /** Both jobs are then in the books, wherever the retry went. */
  lemma {:induction false} DuplicateIsStored(parts: seq<Stream>, b: Batch, i: nat, later: seq<Routed>, again: Request, now: int, q: nat)
    requires Fits(b, |parts|) && i < |b.rs| && q < |parts| && StoredBy(parts, b, i)
    requires var p := b.where[i];
             Shape(parts[p]) && Placed(parts[p]) && OpsOk(parts[p], OpsOn(StepsOf(b), p) + OpsOn(later, p))
    requires var s, op := After(parts, b, later)[q], RetryOp(b, again, now, q);
             Shape(s) && Placed(s) && OpOk(s, op) && Added(s, op) == {again.job.id}
    ensures var end := After(parts, b, later);
            b.rs[i].job.id in Stored(end[b.where[i]]) && again.job.id in Stored(Apply(end[q], RetryOp(b, again, now, q)))
  {
    var p := b.where[i];
    AfterAt(parts, b, later, i);
    BatchOpsOk(parts, b, i, OpsOn(later, p));
    ConservedByRun(StateAt(parts, b, i), [StepsOf(b)[i].op] + (RestOf(b, i) + OpsOn(later, p)));
    ConservedByStep(After(parts, b, later)[q], RetryOp(b, again, now, q));
  }
}
