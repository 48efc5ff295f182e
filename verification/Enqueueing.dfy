/** Idempotent enqueue and exactly-once promotion, over every run of one queue. */
module Enqueueing {
  import opened Jobs
  import opened Streams
  import opened Conservation

  /** Time that passes during a run. */
  function Elapsed(ops: seq<Op>): nat
    decreases |ops|
  {
    if ops == [] then 0 else (if ops[0].Tick? then ops[0].ms else 0) + Elapsed(ops[1..])
  }

  /** The ID enqueueOnce returns to its caller. */
  function OnceReply(s: Stream, op: Op): JobID
    requires op.Once?
  {
    if Remembered(s, op.key) then s.dedupe[op.key].id else op.job.id
  }

  /** The jobs that keyed enqueues with this key create, in order. */
  function Created(s: Stream, ops: seq<Op>, key: string): seq<JobID>
    decreases |ops|
  {
    if ops == [] then []
    else
      var op := ops[0];
      (if op.Once? && op.key == key && !Remembered(s, key) then [op.job.id] else [])
      + Created(Apply(s, op), ops[1..], key)
  }

  /** The IDs returned to callers of keyed enqueues with this key, in order. */
  function Replies(s: Stream, ops: seq<Op>, key: string): seq<JobID>
    decreases |ops|
  {
    if ops == [] then []
    else
      var op := ops[0];
      (if op.Once? && op.key == key then [OnceReply(s, op)] else [])
      + Replies(Apply(s, op), ops[1..], key)
  }

  lemma KeyKept(s: Stream, op: Op, key: string)
    requires Remembered(s, key)
    ensures var next := Apply(s, op);
            && key in next.dedupe && next.dedupe[key] == s.dedupe[key]
            && next.clock == s.clock + if op.Tick? then op.ms else 0
  {
    if !op.Once? {
      OnlyOnceRemembers(s, op);
    }
  }

  lemma OnlyOnceRemembers(s: Stream, op: Op)
    requires !op.Once?
    ensures var next := Apply(s, op);
            (next.dedupe, next.clock) == (s.dedupe, s.clock + if op.Tick? then op.ms else 0)
  {
  }

  lemma {:induction false} KeyStaysRemembered(s: Stream, ops: seq<Op>, key: string)
    requires key in s.dedupe && s.clock + Elapsed(ops) <= s.dedupe[key].expires
    ensures Created(s, ops, key) == []
    ensures forall id :: id in Replies(s, ops, key) ==> id == s.dedupe[key].id
    decreases |ops|
  {
    if ops != [] {
      var next := Apply(s, ops[0]);
      KeyKept(s, ops[0], key);
      KeyStaysRemembered(next, ops[1..], key);
    }
  }

  /** Until its window closes, a run keeps a remembered key. */
  lemma {:induction false} KeyKeptByRun(s: Stream, ops: seq<Op>, key: string)
    requires key in s.dedupe && s.clock + Elapsed(ops) <= s.dedupe[key].expires
    ensures var t := Run(s, ops); Remembered(t, key) && t.dedupe[key] == s.dedupe[key]
    decreases |ops|
  {
    if ops != [] {
      KeyKept(s, ops[0], key);
      KeyKeptByRun(Apply(s, ops[0]), ops[1..], key);
    }
  }

  /** A later enqueue with the same key, before its window closes, is answered with the same ID and changes nothing. */
  lemma KeyAnswersAgain(s: Stream, first: Op, ops: seq<Op>, again: Op)
    requires first.Once? && again.Once? && first.key == again.key
    requires var next := Apply(s, first); next.clock + Elapsed(ops) <= next.dedupe[first.key].expires
    ensures var t := Run(s, [first] + ops); OnceReply(t, again) == OnceReply(s, first) && Apply(t, again) == t && Remembered(t, again.key)
  {
    assert ([first] + ops)[1..] == ops;
    var next := Apply(s, first);
    assert next.dedupe[first.key].id == OnceReply(s, first);
    KeyKeptByRun(next, ops, first.key);
  }

  /**
   From the first enqueue with a key until its window closes, whatever else
   runs in between, exactly one job is created and every caller gets its ID.
   */
  lemma {:induction false} EnqueueIsIdempotent(s: Stream, first: Op, ops: seq<Op>)
    requires first.Once? && !Remembered(s, first.key) && Elapsed(ops) <= first.window
    ensures Created(s, [first] + ops, first.key) == [first.job.id]
    ensures forall id :: id in Replies(s, [first] + ops, first.key) ==> id == first.job.id
  {
    var all := [first] + ops;
    assert all[1..] == ops;
    KeyStaysRemembered(Apply(s, first), ops, first.key);
  }

  // ----- promotion

  predicate Promotes(s: Stream, op: Op, j: JobID) {
    op.PromoteOne? && op.id == j && Due(s, j, op.now)
  }

  predicate Schedules(s: Stream, op: Op, j: JobID) {
    match op
    case Put(job, _) => job.id == j
    case Once(key, job, _, runAt) => job.id == j && runAt > 0 && !Remembered(s, key)
    case Retry(l, job, _) => job.id == j && Owns(s, l)
    case _ => false
  }

  function Promotions(s: Stream, ops: seq<Op>, j: JobID): nat
    decreases |ops|
  {
    if ops == [] then 0 else (if Promotes(s, ops[0], j) then 1 else 0) + Promotions(Apply(s, ops[0]), ops[1..], j)
  }

  function Schedulings(s: Stream, ops: seq<Op>, j: JobID): nat
    decreases |ops|
  {
    if ops == [] then 0 else (if Schedules(s, ops[0], j) then 1 else 0) + Schedulings(Apply(s, ops[0]), ops[1..], j)
  }

  /** The steps that take this job out of the schedule: each is due, finds the job's data, and adds that very job to the stream. */
  ghost predicate PromotedFaithfully(s: Stream, ops: seq<Op>, j: JobID)
    decreases |ops|
  {
    ops == [] || (LeavesFaithfully(s, ops[0], j) && PromotedFaithfully(Apply(s, ops[0]), ops[1..], j))
  }

  predicate LeavesFaithfully(s: Stream, op: Op, j: JobID) {
    j in s.schedule && j !in Apply(s, op).schedule ==>
      && op.PromoteOne? && op.id == j && s.schedule[j] <= op.now && j in s.data
      && Apply(s, op) == s.(entries := s.entries[s.lastId + 1 := JobFields(s.data[j])], lastId := s.lastId + 1,
                            schedule := s.schedule - {j}, data := s.data - {j})
  }

  lemma PromotionIsFaithful(s: Stream, op: Op, j: JobID)
    requires Shape(s) && Promotes(s, op, j)
    ensures LeavesFaithfully(s, op, j)
  {
    assert j in s.schedule.Keys;
  }

  predicate SameSchedule(s: Stream, next: Stream, j: JobID) {
    && j in s.schedule && j in next.schedule && next.schedule[j] == s.schedule[j]
    && j in s.data && j in next.data && next.data[j] == s.data[j]
  }

  /** Only a promotion that is due takes a job out of the schedule; nothing rewrites it meanwhile. */
  lemma {:induction false} LeavesScheduleOnlyByPromotion(s: Stream, op: Op, j: JobID)
    requires Shape(s) && Placed(s) && OpOk(s, op) && j in s.schedule
    ensures var next := Apply(s, op);
            if Promotes(s, op, j) then j !in next.schedule
            else SameSchedule(s, next, j)
  {
    if !Adds(op) && !op.Retry? {
      ScheduleUntouched(s, op);
    } else if op.Retry? && Owns(s, op.lease) {
      EntryIsStored(s, op.lease.messageId);
    }
  }

  lemma ScheduleUntouched(s: Stream, op: Op)
    requires !Adds(op) && !op.Retry?
    ensures (Apply(s, op).schedule, Apply(s, op).data) == (s.schedule, s.data)
  {
  }

  lemma {:induction false} EntersScheduleOnlyByScheduling(s: Stream, op: Op, j: JobID)
    requires Shape(s) && Placed(s) && OpOk(s, op)
    ensures Schedules(s, op, j) ==> j !in s.schedule && j in Apply(s, op).schedule
    ensures !Schedules(s, op, j) && j !in s.schedule ==> j !in Apply(s, op).schedule
  {
    if op.Retry? && Owns(s, op.lease) {
      EntryIsStored(s, op.lease.messageId);
    }
  }

  /**
   Over every run, each time a job enters the schedule it leaves it by one
   promotion, or is still there, and no promotion is early or changes the job.
   */
  lemma {:induction false} PromotedOncePerScheduling(s: Stream, ops: seq<Op>, j: JobID)
    requires Shape(s) && Placed(s) && OpsOk(s, ops)
    ensures Promotions(s, ops, j) + Int(j in Run(s, ops).schedule) == Schedulings(s, ops, j) + Int(j in s.schedule)
    ensures PromotedFaithfully(s, ops, j)
    decreases |ops|
  {
    if ops != [] {
      var op := ops[0];
      EntersScheduleOnlyByScheduling(s, op, j);
      if j in s.schedule {
        LeavesScheduleOnlyByPromotion(s, op, j);
        if Promotes(s, op, j) {
          PromotionIsFaithful(s, op, j);
        }
      }
      ShapeKept(s, op);
      ConservedByStep(s, op);
      PromotedOncePerScheduling(Apply(s, op), ops[1..], j);
    }
  }

  // ----- when a caller asked for it

  /** The run time a caller passes to the step that schedules its job. */
  function AskedFor(op: Op): int
    requires op.Put? || op.Once? || op.Retry?
  {
    op.runAt
  }

  /** The run time asked for by the last step of the run that scheduled this job; `asked` if none did. */
  function LastAsked(s: Stream, ops: seq<Op>, j: JobID, asked: int): int
    decreases |ops|
  {
    if ops == [] then asked
    else LastAsked(Apply(s, ops[0]), ops[1..], j, if Schedules(s, ops[0], j) then AskedFor(ops[0]) else asked)
  }

  /** A step that schedules a job stores the run time its caller passed. */
  lemma ScoreIsAskedFor(s: Stream, op: Op, j: JobID)
    requires Schedules(s, op, j)
    ensures j in Apply(s, op).schedule && Apply(s, op).schedule[j] == AskedFor(op)
  {
  }

  lemma {:induction false} ScoreIsLastAsked(s: Stream, ops: seq<Op>, j: JobID, asked: int)
    requires Shape(s) && Placed(s) && OpsOk(s, ops) && (j in s.schedule ==> s.schedule[j] == asked)
    ensures j in Run(s, ops).schedule ==> Run(s, ops).schedule[j] == LastAsked(s, ops, j, asked)
    decreases |ops|
  {
    if ops != [] {
      var op := ops[0];
      EntersScheduleOnlyByScheduling(s, op, j);
      if Schedules(s, op, j) {
        ScoreIsAskedFor(s, op, j);
      } else if j in s.schedule {
        LeavesScheduleOnlyByPromotion(s, op, j);
      }
      ShapeKept(s, op);
      ConservedByStep(s, op);
      ScoreIsLastAsked(Apply(s, op), ops[1..], j, if Schedules(s, op, j) then AskedFor(op) else asked);
    }
  }

  /**
   Over every run, a job leaves the schedule only by a promotion at or after
   the run time its caller last asked for, whoever promotes it.
   */
  lemma {:induction false} NeverBeforeAsked(ops: seq<Op>, last: Op, j: JobID)
    requires OpsOk(EMPTY, ops + [last])
    requires j in Run(EMPTY, ops).schedule && j !in Run(EMPTY, ops + [last]).schedule
    ensures last.PromoteOne? && last.id == j && LastAsked(EMPTY, ops, j, 0) <= last.now
  {
    OpsOkAppend(EMPTY, ops, [last]);
    ScoreIsLastAsked(EMPTY, ops, j, 0);
    ConservedByRun(EMPTY, ops);
    RunSnoc(EMPTY, ops, last);
    LeavesScheduleOnlyByPromotion(Run(EMPTY, ops), last, j);
  }

  lemma {:induction false} OpsOkAppend(s: Stream, a: seq<Op>, b: seq<Op>)
    requires OpsOk(s, a + b)
    ensures OpsOk(s, a) && OpsOk(Run(s, a), b)
    decreases |a|
  {
    if a == [] {
      assert a + b == b;
    } else {
      assert (a + b)[0] == a[0] && (a + b)[1..] == a[1..] + b;
      OpsOkAppend(Apply(s, a[0]), a[1..], b);
    }
  }
}
