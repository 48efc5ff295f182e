/**
 One worker's handling of jobs (queue/worker.go: fetch, handleOne;
 cmd/chaos/main.go: the handler), in place on the queue and the downstream.
 The decisions are the ones `System` takes.
 */
module Handling {
  import opened Jobs
  import opened Streams
  import opened Scripts
  import opened Sharding
  import opened Effects
  import opened System

  /** Everything the handler does not decide itself. */
  datatype Luck = Luck(decodes: bool, begin: Answer, cancelled: bool, permanent: bool, transient: bool, recorded: bool, apply: Answer)

  /** The downstream after a handler run. */
  function LedgerAfter(ds: Ledger, d: Delivery, luck: Luck): Ledger {
    if !luck.decodes || luck.begin.RequestLost? then ds
    else
      var begun := AfterFence(ds, d.job.id, TokenOf(d));
      if luck.begin.ReplyLost? || !Passes(ds, d.job.id, TokenOf(d)) || luck.cancelled || luck.permanent
         || luck.transient || !luck.recorded || luck.apply.RequestLost?
      then begun
      else AfterApply(begun, d.job.id, TokenOf(d), d.job.payload)
  }

  /** The run learned that the downstream accepted its token, and was not cancelled while it worked. */
  predicate Worked(ds: Ledger, d: Delivery, luck: Luck) {
    luck.decodes && luck.begin.Heard? && Passes(ds, d.job.id, TokenOf(d)) && !luck.cancelled
  }

  /** The handler fails for good: the payload cannot be read, or the work itself says so. */
  predicate GivesUp(ds: Ledger, d: Delivery, luck: Luck) {
    !luck.decodes || (Worked(ds, d, luck) && luck.permanent)
  }

  /** Nothing failed, and the run heard that its effect landed. */
  predicate Succeeds(ds: Ledger, d: Delivery, luck: Luck) {
    Worked(ds, d, luck) && !luck.permanent && !luck.transient && luck.recorded && luck.apply.Heard?
  }

  function VerdictOf(ds: Ledger, d: Delivery, luck: Luck): Verdict {
    if GivesUp(ds, d, luck) then Permanent else if Succeeds(ds, d, luck) then Success else Retryable
  }

  /** The steps `System` takes for such a run. */
  function StepsOf(ds: Ledger, d: Delivery, luck: Luck): seq<Action> {
    if !luck.decodes then [Fail(d, Permanent)]
    else if luck.begin.RequestLost? then [Fail(d, Retryable)]
    else if luck.begin.ReplyLost? || !Passes(ds, d.job.id, TokenOf(d)) then [Begin(d, luck.begin.ReplyLost?)]
    else
      [Begin(d, false),
       if luck.cancelled then Fail(d, Retryable)
       else if luck.permanent then Fail(d, Permanent)
       else if luck.transient || !luck.recorded || luck.apply.RequestLost? then Fail(d, Retryable)
       else Effect(d, luck.apply.ReplyLost?)]
  }

  lemma ExecOne(s: Sys, a: Action, cfg: Config)
    ensures Exec(s, [a], cfg) == Next(s, a, cfg)
  {
    assert Exec(s, [a], cfg) == Exec(Next(s, a, cfg), [a][1..], cfg);
  }

  lemma ExecTwo(s: Sys, a: Action, b: Action, cfg: Config)
    ensures Exec(s, [a, b], cfg) == Next(Next(s, a, cfg), b, cfg)
  {
    assert [a, b][1..] == [b];
    ExecOne(Next(s, a, cfg), b, cfg);
  }

  lemma HandlerStep(s: Sys, a: Action, cfg: Config)
    requires a.Begin? || a.Fail? || a.Effect?
    ensures var t, passes := Next(s, a, cfg), FenceSays(s.ds, a);
            && t.k == s.k && t.ds == NextLedger(s.k.origin, s.w, s.ds, a, passes)
            && t.w == NextWorkers(s.w, a, cfg, passes, [])
  {
    assert s.k.hist + [] == s.k.hist;
    assert Apply(s.k.q, NOTHING) == s.k.q;
  }

  /** A token just registered passes again. */
  lemma PassesAgain(ds: Ledger, id: JobID, token: int)
    requires Passes(ds, id, token)
    ensures Passes(AfterFence(ds, id, token), id, token)
  {
  }

  lemma FailStep(s: Sys, cfg: Config, d: Delivery, verdict: Verdict)
    requires (At(s.w, d, Started) || At(s.w, d, Begun)) && verdict != Success
    ensures var t := Next(s, Fail(d, verdict), cfg); t.k == s.k && t.ds == s.ds && At(t.w, d, Returned(verdict))
  {
    HandlerStep(s, Fail(d, verdict), cfg);
  }

  lemma BeginStep(s: Sys, cfg: Config, d: Delivery, replyLost: bool)
    requires At(s.w, d, Started)
    ensures var t := Next(s, Begin(d, replyLost), cfg);
            && t.k == s.k && t.ds == AfterFence(s.ds, d.job.id, TokenOf(d))
            && At(t.w, d, if replyLost || !Passes(s.ds, d.job.id, TokenOf(d)) then Returned(Retryable) else Begun)
  {
    HandlerStep(s, Begin(d, replyLost), cfg);
  }

  lemma EffectStep(s: Sys, cfg: Config, d: Delivery, replyLost: bool)
    requires At(s.w, d, Begun) && Passes(s.ds, d.job.id, TokenOf(d))
    ensures var t := Next(s, Effect(d, replyLost), cfg);
            && t.k == s.k && t.ds == AfterApply(s.ds, d.job.id, TokenOf(d), d.job.payload)
            && At(t.w, d, Returned(if replyLost then Retryable else Success))
  {
    HandlerStep(s, Effect(d, replyLost), cfg);
  }

  /** The second half of a run: work, then the effect. */
  lemma RunEnds(s: Sys, cfg: Config, d: Delivery, luck: Luck, ds: Ledger)
    requires At(s.w, d, Begun) && s.ds == AfterFence(ds, d.job.id, TokenOf(d)) && |StepsOf(ds, d, luck)| == 2
    ensures var t := Next(s, StepsOf(ds, d, luck)[1], cfg);
            t.k == s.k && t.ds == LedgerAfter(ds, d, luck) && At(t.w, d, Returned(VerdictOf(ds, d, luck)))
  {
    PassesAgain(ds, d.job.id, TokenOf(d));
    var a := StepsOf(ds, d, luck)[1];
    if a.Fail? {
      FailStep(s, cfg, d, a.verdict);
    } else {
      EffectStep(s, cfg, d, luck.apply.ReplyLost?);
    }
  }

  /**
   A handler run that nothing interrupts is a run of `System`: same verdict,
   same effect downstream, and the queue is left alone.
   */
  lemma {:induction false} HandlerIsSystemRun(s: Sys, cfg: Config, d: Delivery, luck: Luck)
    requires At(s.w, d, Started)
    ensures var t := Exec(s, StepsOf(s.ds, d, luck), cfg);
            t.k == s.k && t.ds == LedgerAfter(s.ds, d, luck) && At(t.w, d, Returned(VerdictOf(s.ds, d, luck)))
  {
    var steps := StepsOf(s.ds, d, luck);
    if |steps| == 2 {
      BeginStep(s, cfg, d, false);
      RunEnds(Next(s, steps[0], cfg), cfg, d, luck, s.ds);
      ExecTwo(s, steps[0], steps[1], cfg);
    } else {
      ExecOne(s, steps[0], cfg);
      if steps[0].Fail? {
        FailStep(s, cfg, d, steps[0].verdict);
      } else {
        BeginStep(s, cfg, d, luck.begin.ReplyLost?);
      }
    }
  }

  /** The handler of cmd/chaos: what it returns, and what it leaves downstream. */
  method Handler(ds: Downstream, d: Delivery, luck: Luck) returns (verdict: Verdict)
    requires Balanced(ds.Abs())
    modifies ds
    ensures Balanced(ds.Abs()) && ds.Abs() == LedgerAfter(old(ds.Abs()), d, luck)
    ensures verdict == VerdictOf(old(ds.Abs()), d, luck)
    ensures !luck.decodes ==> verdict == Permanent
    ensures luck.decodes && (!luck.begin.Heard? || !Passes(old(ds.Abs()), d.job.id, TokenOf(d)) || luck.cancelled) ==> verdict == Retryable
    ensures luck.decodes && luck.begin.Heard? && Passes(old(ds.Abs()), d.job.id, TokenOf(d)) && !luck.cancelled ==>
      verdict == if luck.permanent then Permanent
                 else if luck.transient || !luck.recorded || !luck.apply.Heard? then Retryable else Success
    ensures verdict == Success ==> d.job.id in ds.applied && Passes(old(ds.Abs()), d.job.id, TokenOf(d))
  {
    if !luck.decodes {
      return Permanent;
    }
    if luck.begin.RequestLost? {
      return Retryable;
    }
    ghost var start := ds.Abs();
    var ok := ds.Begin(d.job.id, TokenOf(d));
    if luck.begin.ReplyLost? || !ok || luck.cancelled {
      return Retryable;
    }
    if luck.permanent {
      return Permanent;
    }
    if luck.transient || !luck.recorded || luck.apply.RequestLost? {
      return Retryable;
    }
    PassesAgain(start, d.job.id, TokenOf(d));
    var outcome := ds.ApplyEffect(d.job.id, TokenOf(d), d.job.payload);
    if luck.apply.ReplyLost? || outcome == Fenced {
      return Retryable;
    }
    return Success;
  }

  /** What handleOne did with a job. */
  datatype Handled = Settled(op: Op) | Skipped | Abandoned

  /**
   Worker.handleOne: dead-letter poison jobs and jobs nobody can handle, leave
   unknown tasks leased, otherwise run the handler and settle by its verdict,
   unless the run's context was cancelled meanwhile.
   */
  method HandleOne(store: Store, ds: Downstream, d: Delivery, maxDeliveries: nat, hasHandler: bool,
                   luck: Luck, cancelled: bool, runAt: int) returns (handled: Handled, ok: bool)
    requires store.Valid() && Balanced(ds.Abs())
    modifies store, ds
    ensures store.Valid() && Balanced(ds.Abs())
    ensures ds.Abs() == if TriageOf(d.lease.token, maxDeliveries, hasHandler) == RunHandler
                        then LedgerAfter(old(ds.Abs()), d, luck) else old(ds.Abs())
    ensures store.Abs() == if handled.Settled? then Apply(old(store.Abs()), handled.op) else old(store.Abs())
    ensures handled.Settled? ==> Settles(handled.op) && handled.op.lease == d.lease && ok == Owns(old(store.Abs()), d.lease)
    ensures match TriageOf(d.lease.token, maxDeliveries, hasHandler)
            case DeadLetterNow(reason) => handled == Settled(Buried(d, reason))
            case LeaveLeased => handled == Skipped
            case RunHandler => handled == if cancelled then Abandoned else Settled(SettleOp(d, VerdictOf(old(ds.Abs()), d, luck), runAt))
    ensures handled.Settled? && handled.op.Ack? ==> d.job.id in ds.applied
    ensures d.lease.token > maxDeliveries && Owns(old(store.Abs()), d.lease) ==>
      BuriedRight(old(store.Abs()), store.Abs(), d, TooManyDeliveries)
    ensures d.lease.token == maxDeliveries && !hasHandler && Owns(old(store.Abs()), d.lease) ==>
      BuriedRight(old(store.Abs()), store.Abs(), d, NoHandler)
    ensures d.lease.token < maxDeliveries && !hasHandler ==> store.Abs() == old(store.Abs())
    ensures d.lease.token > maxDeliveries || !hasHandler ==> ds.Abs() == old(ds.Abs())
    ensures d.lease.token <= maxDeliveries && hasHandler ==> ds.Abs() == LedgerAfter(old(ds.Abs()), d, luck)
    ensures d.lease.token <= maxDeliveries && hasHandler && !cancelled && HeldBy(old(store.Abs()), d) ==>
      SettledRight(old(store.Abs()), store.Abs(), d, VerdictOf(old(ds.Abs()), d, luck), runAt)
    ensures d.lease.token <= maxDeliveries && hasHandler && cancelled ==> store.Abs() == old(store.Abs())
    ensures !Owns(old(store.Abs()), d.lease) ==> store.Abs() == old(store.Abs())
  {
    ghost var start := store.Abs();
    BuryingIsFenced(start, d);
    ok := false;
    match TriageOf(d.lease.token, maxDeliveries, hasHandler) {
      case DeadLetterNow(reason) =>
        ok := store.DeadLetterOne(d.lease, DeadEntry(JobFields(d.job), d.lease.token, reason));
        handled := Settled(Buried(d, reason));
      case LeaveLeased =>
        handled := Skipped;
      case RunHandler =>
        var verdict := Handler(ds, d, luck);
        if cancelled {
          handled := Abandoned;
        } else {
          ok := SettleBy(store, d, verdict, runAt);
          handled := Settled(SettleOp(d, verdict, runAt));
        }
    }
  }

  /** Ack on success, dead-letter a permanent or last failure, retry any other. */
  method SettleBy(store: Store, d: Delivery, verdict: Verdict, runAt: int) returns (ok: bool)
    requires store.Valid()
    modifies store
    ensures store.Valid() && store.Abs() == Apply(old(store.Abs()), SettleOp(d, verdict, runAt))
    ensures ok == Owns(old(store.Abs()), d.lease)
    ensures HeldBy(old(store.Abs()), d) ==> SettledRight(old(store.Abs()), store.Abs(), d, verdict, runAt)
    ensures !ok ==> store.Abs() == old(store.Abs())
  {
    if HeldBy(store.Abs(), d) {
      SettleOpIsRight(store.Abs(), d, verdict, runAt);
    }
    match verdict {
      case Success =>
        ok := store.AckOne(d.lease);
      case Permanent =>
        ok := store.DeadLetterOne(d.lease, DeadEntry(JobFields(d.job), d.lease.token, PermanentError));
      case Retryable =>
        if Exhausted(d.job) {
          ok := store.DeadLetterOne(d.lease, DeadEntry(JobFields(d.job), d.lease.token, AttemptsExhausted));
        } else {
          ok := store.RetryOne(d, runAt);
        }
    }
  }

  /**
   Worker.fetch over a single queue: recovered jobs first, then new ones, never
   more than limit, up to the first failing call. The jobs are exactly those
   the calls acquired; what recovery acquired is kept even if the claim fails.
   */
  method Fetch(store: Store, w: WorkerID, limit: nat, recoverDue: bool, visibility: int, wait: int, now: int,
               heardRecover: bool, heardReady: bool, heardWait: bool) returns (jobs: seq<Delivery>, failed: bool)
    requires store.Valid()
    modifies store
    ensures store.Valid() && |jobs| <= limit
    ensures failed ==> (recoverDue && !heardRecover) || !heardReady
    ensures (recoverDue ==> heardRecover) && heardReady && heardWait ==> EntriesOf(jobs) == Acquired(old(store.Abs()), store.Abs())
    ensures (recoverDue ==> heardRecover) ==> TakenIn(old(store.Abs()), store.Abs()) <= EntriesOf(jobs)
    ensures forall d :: d in jobs ==> d.lease.owner == w && HeldBy(store.Abs(), d)
    ensures !failed && heardWait && |jobs| < limit ==> Ready(store.Abs()) == {} || Unreadable(old(store.Abs()))
  {
    ghost var start := store.Abs();
    jobs, failed := [], false;
    if recoverDue {
      ghost var call;
      jobs, call := store.RecoverExpired(w, visibility, limit, heardRecover);
      if !heardRecover {
        failed := true;
        return;
      }
    }
    ghost var middle := store.Abs();
    TakesNothing(start);
    TakesNothing(middle);
    assert KeepsPending(middle, middle);
    AcquiredTwice(start, middle, middle);
    if |jobs| < limit {
      var claimed;
      ghost var ready, between, ids;
      claimed, failed, ready, between, ids :=
        store.Claim(w, limit - |jobs|, if |jobs| > 0 then 0 else wait, now, heardReady, heardWait);
      AcquiredTwice(start, middle, store.Abs());
      EntriesJoin(jobs, claimed);
      StillHeld(middle, store.Abs(), jobs);
      jobs := jobs + claimed;
    }
  }

  /**
   Worker.fetch over a sharded backend, whose claim may also wait for polled
   jobs. Whatever a partition that answered gave up is among the jobs, even if
   another one failed, and jobs taken from the buffer are handed on.
   */
  method FetchSharded(backend: Sharded, w: WorkerID, limit: nat, recoverDue: bool, visibility: int, now: int,
                      recovering: nat -> Answer, claiming: nat -> Answer) returns (jobs: seq<Delivery>, failed: bool)
    requires backend.Valid()
    modifies backend, backend.parts
    ensures backend.Valid() && |jobs| <= limit
    ensures forall p :: 0 <= p < |backend.parts| && recovering(p).Heard? && claiming(p).Heard? ==>
      Acquired(old(backend.Abs())[p], backend.Abs()[p]) <= EntriesFrom(jobs, p)
    ensures forall d :: d in old(backend.buffered) ==> d in jobs || d in backend.buffered
    ensures !failed && |jobs| < limit ==>
      forall p :: 0 <= p < |backend.parts| ==> Ready(backend.Abs()[p]) == {} || Unreadable(old(backend.Abs())[p])
  {
    ghost var start := backend.Abs();
    jobs, failed := [], false;
    if recoverDue {
      jobs, failed := backend.RecoverExpired(w, visibility, limit, recovering);
      if failed {
        return;
      }
    } else {
      NoneTaken(start);
    }
    if |jobs| < limit {
      jobs, failed := ClaimRest(backend, w, limit, now, jobs, claiming, start, recovering);
    }
  }

  /** The claim of a fetch, after what recovery gave. */
  method ClaimRest(backend: Sharded, w: WorkerID, limit: nat, now: int, recovered: seq<Delivery>, claiming: nat -> Answer,
                   ghost start: seq<Stream>, ghost recovering: nat -> Answer) returns (jobs: seq<Delivery>, failed: bool)
    requires backend.Valid() && |recovered| < limit && AllTake(start, backend.Abs()) && forall p :: 0 <= p < |start| ==> Shape(start[p])
    requires forall p :: 0 <= p < |start| && recovering(p).Heard? ==> Acquired(start[p], backend.Abs()[p]) <= EntriesFrom(recovered, p)
    modifies backend, backend.parts
    ensures backend.Valid() && |jobs| <= limit
    ensures forall p :: 0 <= p < |start| && recovering(p).Heard? && claiming(p).Heard? ==>
      Acquired(start[p], backend.Abs()[p]) <= EntriesFrom(jobs, p)
    ensures forall d :: d in old(backend.buffered) ==> d in jobs || d in backend.buffered
    ensures !failed && |jobs| < limit ==>
      forall p :: 0 <= p < |start| ==> Ready(backend.Abs()[p]) == {} || Unreadable(start[p])
  {
    ghost var middle := backend.Abs();
    var claimed;
    ghost var taken;
    claimed, failed, taken := backend.ClaimReady(w, limit - |recovered|, now, claiming);
    assert claimed == taken + claimed[|taken|..];
    GatherAll(start, middle, backend.Abs(), recovered, taken, claimed[|taken|..], recovering, claiming);
    if !failed && |claimed| == 0 && |recovered| == 0 {
      claimed := backend.TakeBuffered(limit);
    }
    jobs := recovered + claimed;
  }
}
