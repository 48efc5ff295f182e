/**
 What the downstream's fence does to a run whose lease was taken over
 (cmd/chaos/downstream.go, and the failure table of the repository's README).
 */
module Zombies {
  import opened Jobs
  import opened Fencing
  import opened Sets
  import opened Streams
  import opened Conservation
  import opened Leases
  import opened History
  import opened Effects
  import opened System
  import opened Guarantees

  // ----- the fence never falls

  /** The token the run of a step shows the downstream, if it calls it. */
  predicate Calls(w: Workers, a: Action) {
    (a.Begin? && At(w, a.d, Started)) || (a.Effect? && At(w, a.d, Begun))
  }

  lemma {:induction false} FenceRisesInStep(s: Sys, a: Action, cfg: Config, x: JobID)
    ensures LuaNumber(HighestSeen(s.ds, x)) <= LuaNumber(HighestSeen(Next(s, a, cfg).ds, x))
  {
    var passes := FenceSays(s.ds, a);
    match a
    case Begin(d, _) => FenceOnlyRises(s.ds, d.job.id, TokenOf(d), passes);
    case Effect(d, _) => FenceOnlyRises(s.ds, d.job.id, TokenOf(d), passes);
    case Elsewhere(id, token, _, _) => FenceOnlyRises(s.ds, id, token, passes);
    case _ =>
  }

  /** Whatever calls come, in whatever order, the token the downstream holds for a job never falls. */
  lemma {:induction false} FenceNeverFalls(s: Sys, acts: seq<Action>, cfg: Config, x: JobID)
    ensures LuaNumber(HighestSeen(s.ds, x)) <= LuaNumber(HighestSeen(Exec(s, acts, cfg).ds, x))
    decreases |acts|
  {
    if acts != [] {
      FenceRisesInStep(s, acts[0], cfg, x);
      FenceNeverFalls(Next(s, acts[0], cfg), acts[1..], cfg, x);
    }
  }

  // ----- which runs the downstream accepted

  /** The run whose call the downstream accepts in this step, if any. */
  function AcceptedNow(w: Workers, ds: Ledger, a: Action): seq<Delivery> {
    if Calls(w, a) && Passes(ds, a.d.job.id, TokenOf(a.d)) then [a.d] else []
  }

  /** The runs the downstream accepted, call by call. */
  function Accepted(s: Sys, acts: seq<Action>, cfg: Config): seq<Delivery>
    decreases |acts|
  {
    if acts == [] then [] else AcceptedNow(s.w, s.ds, acts[0]) + Accepted(Next(s, acts[0], cfg), acts[1..], cfg)
  }

  /** The fence of each of this queue's jobs is the highest token accepted so far. */
  ghost predicate Remembers(origin: map<JobID, Job>, fence: map<JobID, int>, accepted: seq<Delivery>) {
    && (forall e :: e in accepted ==> e.job.id in fence && LuaNumber(TokenOf(e)) <= LuaNumber(fence[e.job.id]))
    && (forall j :: j in origin && j in fence ==> SetBy(fence, accepted, j))
  }

  ghost predicate SetBy(fence: map<JobID, int>, accepted: seq<Delivery>, j: JobID) {
    j in fence && exists e :: e in accepted && e.job.id == j && fence[j] == TokenOf(e)
  }

  /** The fence changes only to the token of the call that is accepted. */
  lemma FenceFollowsAccepted(origin: map<JobID, Job>, w: Workers, ds: Ledger, a: Action)
    ensures var fence := NextLedger(origin, w, ds, a, FenceSays(ds, a)).fence;
            if AcceptedNow(w, ds, a) != []
            then AcceptedNow(w, ds, a) == [a.d] && fence == ds.fence[a.d.job.id := TokenOf(a.d)]
                 && LuaNumber(HighestSeen(ds, a.d.job.id)) <= LuaNumber(TokenOf(a.d))
            else fence == ds.fence
                 || (a.Elsewhere? && a.id !in origin && fence == ds.fence[a.id := a.token]
                     && LuaNumber(HighestSeen(ds, a.id)) <= LuaNumber(a.token))
  {
  }

  lemma RemembersAccepted(origin: map<JobID, Job>, fence: map<JobID, int>, accepted: seq<Delivery>, d: Delivery)
    requires Remembers(origin, fence, accepted)
    requires d.job.id in fence ==> LuaNumber(fence[d.job.id]) <= LuaNumber(TokenOf(d))
    ensures Remembers(origin, fence[d.job.id := TokenOf(d)], accepted + [d])
  {
    var next, now := fence[d.job.id := TokenOf(d)], accepted + [d];
    assert d in now;
    forall j | j in origin && j in next
      ensures SetBy(next, now, j)
    {
      if j != d.job.id {
        assert SetBy(fence, accepted, j);
        var e :| e in accepted && e.job.id == j && fence[j] == TokenOf(e);
        assert e in now;
      }
    }
  }

  lemma RemembersElsewhere(origin: map<JobID, Job>, fence: map<JobID, int>, accepted: seq<Delivery>, id: JobID, token: int)
    requires Remembers(origin, fence, accepted) && id !in origin
    requires id in fence ==> LuaNumber(fence[id]) <= LuaNumber(token)
    ensures Remembers(origin, fence[id := token], accepted)
  {
    forall j | j in origin && j in fence
      ensures SetBy(fence[id := token], accepted, j)
    {
      assert SetBy(fence, accepted, j);
    }
  }

  lemma RemembersInStep(origin: map<JobID, Job>, w: Workers, ds: Ledger, a: Action, accepted: seq<Delivery>)
    requires Remembers(origin, ds.fence, accepted)
    ensures Remembers(origin, NextLedger(origin, w, ds, a, FenceSays(ds, a)).fence, accepted + AcceptedNow(w, ds, a))
  {
    FenceFollowsAccepted(origin, w, ds, a);
    if AcceptedNow(w, ds, a) != [] {
      RemembersAccepted(origin, ds.fence, accepted, a.d);
    } else {
      assert accepted + [] == accepted;
      if NextLedger(origin, w, ds, a, FenceSays(ds, a)).fence != ds.fence {
        RemembersElsewhere(origin, ds.fence, accepted, a.id, a.token);
      }
    }
  }

  /** Jobs that join the queue are new to the downstream, so nothing about them is remembered yet. */
  lemma RemembersNewJobs(s: Sys, a: Action, cfg: Config, accepted: seq<Delivery>)
    requires SysInv(s, cfg) && Remembers(s.k.origin, Next(s, a, cfg).ds.fence, accepted)
    ensures Remembers(Next(s, a, cfg).k.origin, Next(s, a, cfg).ds.fence, accepted)
  {
    EnqueuesAreAccepted(s.k, s.w, s.others, a, cfg);
    FenceEffect(s.k.origin, s.w, s.ds, a, FenceSays(s.ds, a));
    PayloadsAgree(s.k);
  }

  lemma {:induction false} RemembersAlways(s: Sys, acts: seq<Action>, cfg: Config, accepted: seq<Delivery>)
    requires SysInv(s, cfg) && Remembers(s.k.origin, s.ds.fence, accepted)
    ensures var t := Exec(s, acts, cfg); Remembers(t.k.origin, t.ds.fence, accepted + Accepted(s, acts, cfg))
    decreases |acts|
  {
    if acts == [] {
      assert accepted + [] == accepted;
    } else {
      var next, now := Next(s, acts[0], cfg), AcceptedNow(s.w, s.ds, acts[0]);
      RemembersInStep(s.k.origin, s.w, s.ds, acts[0], accepted);
      RemembersNewJobs(s, acts[0], cfg, accepted + now);
      SysInvKept(s, acts[0], cfg);
      RemembersAlways(next, acts[1..], cfg, accepted + now);
      JoinIsAssociative(accepted, now, Accepted(next, acts[1..], cfg));
    }
  }

  // ----- who is rejected

  /** A newer run of the same job is among these. */
  ghost predicate NewerAmong(runs: seq<Delivery>, d: Delivery) {
    exists e :: e in runs && e.job.id == d.job.id && Before(d, e)
  }

  lemma AcceptedFromEmpty(s: Sys, acts: seq<Action>, cfg: Config)
    requires SysInv(s, cfg) && s.ds.fence == map[]
    ensures var t := Exec(s, acts, cfg); Remembers(t.k.origin, t.ds.fence, Accepted(s, acts, cfg))
  {
    var none: seq<Delivery> := [];
    NothingRemembered(s.k.origin, s.ds.fence, none);
    RemembersAlways(s, acts, cfg, none);
    JoinNothing(none, Accepted(s, acts, cfg));
  }

  lemma NothingRemembered(origin: map<JobID, Job>, fence: map<JobID, int>, none: seq<Delivery>)
    requires fence == map[] && none == []
    ensures Remembers(origin, fence, none)
  {
  }

  lemma JoinNothing<T>(none: seq<T>, a: seq<T>)
    requires none == []
    ensures none + a == a
  {
  }

  lemma AcceptedFrom(acts: seq<Action>, cfg: Config)
    ensures var s := Exec(INIT, acts, cfg); Remembers(s.k.origin, s.ds.fence, Accepted(INIT, acts, cfg))
  {
    InitOk(cfg);
    AcceptedFromEmpty(INIT, acts, cfg);
  }

  lemma HistoryGrows(s: Sys, a: Action, cfg: Config)
    requires RunsOk(s.k.hist, s.w)
    ensures s.k.hist <= Next(s, a, cfg).k.hist
    ensures forall e :: e in AcceptedNow(s.w, s.ds, a) ==> e in s.k.hist
  {
  }

  lemma PrefixHas<T>(a: seq<T>, b: seq<T>)
    requires a <= b
    ensures forall x :: x in a ==> x in b
  {
    assert b == a + b[|a|..];
  }

  lemma {:induction false} AcceptedAreRuns(s: Sys, acts: seq<Action>, cfg: Config)
    requires SysInv(s, cfg)
    ensures forall e :: e in Accepted(s, acts, cfg) ==> e in Exec(s, acts, cfg).k.hist
    ensures s.k.hist <= Exec(s, acts, cfg).k.hist
    decreases |acts|
  {
    if acts != [] {
      var next := Next(s, acts[0], cfg);
      HistoryGrows(s, acts[0], cfg);
      SysInvKept(s, acts[0], cfg);
      AcceptedAreRuns(next, acts[1..], cfg);
      PrefixHas(s.k.hist, Exec(s, acts, cfg).k.hist);
    }
  }

  /** A run is rejected only because the downstream accepted a newer run of its job before. */
  lemma {:induction false} RejectedWasOvertaken(acts: seq<Action>, cfg: Config, d: Delivery)
    requires var s := Exec(INIT, acts, cfg);
             d in s.k.hist && AllPackable(s.k.hist) && !Passes(s.ds, d.job.id, TokenOf(d))
    ensures NewerAmong(Accepted(INIT, acts, cfg), d)
  {
    Reachable(acts, cfg);
    AcceptedFrom(acts, cfg);
    InitOk(cfg);
    AcceptedAreRuns(INIT, acts, cfg);
    var s := Exec(INIT, acts, cfg);
    OvertakenBy(s.k, s.ds, Accepted(INIT, acts, cfg), d);
  }

  lemma OvertakenBy(k: Tracked, ds: Ledger, accepted: seq<Delivery>, d: Delivery)
    requires Inv(k) && d in k.hist && AllPackable(k.hist) && Remembers(k.origin, ds.fence, accepted)
    requires (forall e :: e in accepted ==> e in k.hist) && !Passes(ds, d.job.id, TokenOf(d))
    ensures NewerAmong(accepted, d)
  {
    NoFenceYet(d);
    PayloadsAgree(k);
    assert SetBy(ds.fence, accepted, d.job.id);
    var e :| e in accepted && e.job.id == d.job.id && ds.fence[d.job.id] == TokenOf(e);
    RankedBelowIsBefore(d, e);
  }

  lemma OvertakenIsRejected(ds: Ledger, origin: map<JobID, Job>, accepted: seq<Delivery>, d: Delivery, e: Delivery)
    requires Remembers(origin, ds.fence, accepted) && e in accepted && e.job.id == d.job.id && Before(d, e)
    requires UpTo(d.job.attempt, d.lease.token, TWO53 + 3) && UpTo(e.job.attempt, e.lease.token, TWO53 + 3)
    ensures !Passes(ds, d.job.id, TokenOf(d))
  {
    FenceOrder(d, e);
  }

  /**
   Over every run of the system, the downstream rejects a run exactly when it
   accepted a newer run of the same job earlier, for tokens it compares exactly.
   */
  lemma {:induction false} RejectedIff(acts: seq<Action>, cfg: Config, d: Delivery)
    requires var s := Exec(INIT, acts, cfg); d in s.k.hist && AllInRange(s.k.hist)
    ensures var s := Exec(INIT, acts, cfg);
            !Passes(s.ds, d.job.id, TokenOf(d)) <==> NewerAmong(Accepted(INIT, acts, cfg), d)
  {
    var s, accepted := Exec(INIT, acts, cfg), Accepted(INIT, acts, cfg);
    if NewerAmong(accepted, d) {
      var e :| e in accepted && e.job.id == d.job.id && Before(d, e);
      AcceptedFrom(acts, cfg);
      InitOk(cfg);
      AcceptedAreRuns(INIT, acts, cfg);
      OvertakenIsRejected(s.ds, s.k.origin, accepted, d, e);
    } else if !Passes(s.ds, d.job.id, TokenOf(d)) {
      RejectedWasOvertaken(acts, cfg, d);
    }
  }

  /** A call that is rejected leaves every effect as it was. */
  lemma RejectedHasNoEffect(s: Sys, cfg: Config, d: Delivery, replyLost: bool)
    requires !Passes(s.ds, d.job.id, TokenOf(d))
    ensures var t := Next(s, Effect(d, replyLost), cfg).ds; t.applied == s.ds.applied && t.effects == s.ds.effects && t.fence == s.ds.fence
  {
  }

  /** Once a newer run began, every older run of its job is rejected for good, and what it writes has no effect. */
  lemma {:induction false} OlderRunsStayOut(s: Sys, cfg: Config, newer: Delivery, older: Delivery, replyLost: bool, acts: seq<Action>)
    requires At(s.w, newer, Started) && Passes(s.ds, newer.job.id, TokenOf(newer))
    requires older.job.id == newer.job.id && Before(older, newer)
    requires UpTo(older.job.attempt, older.lease.token, TWO53 + 3) && UpTo(newer.job.attempt, newer.lease.token, TWO53 + 3)
    ensures var t := Exec(s, [Begin(newer, replyLost)] + acts, cfg);
            && !Passes(t.ds, older.job.id, TokenOf(older))
            && (forall lost :: Next(t, Effect(older, lost), cfg).ds.applied == t.ds.applied)
  {
    var begun := Next(s, Begin(newer, replyLost), cfg);
    assert ([Begin(newer, replyLost)] + acts)[1..] == acts;
    var t := Exec(begun, acts, cfg);
    assert HighestSeen(begun.ds, newer.job.id) == TokenOf(newer);
    FenceNeverFalls(begun, acts, cfg, newer.job.id);
    FenceOrder(older, newer);
    forall lost: bool
      ensures Next(t, Effect(older, lost), cfg).ds.applied == t.ds.applied
    {
      RejectedHasNoEffect(t, cfg, older, lost);
    }
  }

  /**
   So the effect of a run that began, zombie or not, is refused exactly when
   the downstream accepted a newer run of its job before. Otherwise the job is
   applied, whoever holds the lease by then.
   */
  lemma {:induction false} EffectIsRefusedIff(acts: seq<Action>, cfg: Config, d: Delivery)
    requires var s := Exec(INIT, acts, cfg); At(s.w, d, Begun) && AllInRange(s.k.hist)
    ensures var s := Exec(INIT, acts, cfg);
            var t := Next(s, Effect(d, false), cfg);
            if NewerAmong(Accepted(INIT, acts, cfg), d)
            then At(t.w, d, Returned(Retryable)) && t.ds.applied == s.ds.applied
            else At(t.w, d, Returned(Success)) && d.job.id in t.ds.applied
  {
    Reachable(acts, cfg);
    RejectedIff(acts, cfg, d);
    EffectByFence(Exec(INIT, acts, cfg), cfg, d);
  }

  lemma EffectByFence(s: Sys, cfg: Config, d: Delivery)
    requires At(s.w, d, Begun)
    ensures var t := Next(s, Effect(d, false), cfg);
            if Passes(s.ds, d.job.id, TokenOf(d))
            then At(t.w, d, Returned(Success)) && d.job.id in t.ds.applied
            else At(t.w, d, Returned(Retryable)) && t.ds.applied == s.ds.applied
  {
  }

  // ----- a zombie that gets through

  /**
   A run that began loses its lease to another worker; until that worker's run
   begins as well, the zombie's effect is still applied.
   */
  lemma ZombieEffectLands(s: Sys, cfg: Config, d: Delivery, other: WorkerID, minIdle: int)
    requires SysInv(s, cfg) && At(s.w, d, Begun) && Owns(s.k.q, d.lease) && Passes(s.ds, d.job.id, TokenOf(d))
    requires s.k.q.clock - s.k.q.pel[d.lease.messageId].touched >= minIdle && d.job.id !in s.ds.applied
    ensures var u := Next(s, Hand(TakeOver(d.lease.messageId, other, minIdle)), cfg);
            var t := Next(u, Effect(d, false), cfg);
            Lost(u.k.q, d.lease) && d.job.id !in u.ds.applied && d.job.id in t.ds.applied
  {
    var u := Next(s, Hand(TakeOver(d.lease.messageId, other, minIdle)), cfg);
    TakenAway(s, cfg, d, other, minIdle);
    EffectByFence(u, cfg, d);
  }

  lemma TakenOverIsLost(q: Stream, l: Lease, other: WorkerID, minIdle: int)
    requires Shape(q) && Owns(q, l) && q.clock - q.pel[l.messageId].touched >= minIdle
    ensures Lost(Apply(q, TakeOver(l.messageId, other, minIdle)), l)
  {
  }

  lemma HandLeavesRuns(w: Workers, op: Op, cfg: Config, passes: bool, out: seq<Delivery>, d: Delivery, stage: Stage)
    requires At(w, d, stage) && d !in out
    ensures At(NextWorkers(w, Hand(op), cfg, passes, out), d, stage)
  {
  }

  lemma HandStep(s: Sys, op: Op, cfg: Config)
    requires Delivers(op)
    ensures var t := Next(s, Hand(op), cfg);
            && t.k == Step(s.k, op) && t.ds == s.ds
            && t.w == NextWorkers(s.w, Hand(op), cfg, FenceSays(s.ds, Hand(op)), HandedOut(s.k.q, op))
  {
  }

  lemma TakenAway(s: Sys, cfg: Config, d: Delivery, other: WorkerID, minIdle: int)
    requires Inv(s.k) && d in s.k.hist && At(s.w, d, Begun) && Owns(s.k.q, d.lease)
    requires s.k.q.clock - s.k.q.pel[d.lease.messageId].touched >= minIdle
    ensures var u := Next(s, Hand(TakeOver(d.lease.messageId, other, minIdle)), cfg);
            Lost(u.k.q, d.lease) && u.ds == s.ds && At(u.w, d, Begun)
  {
    var op := TakeOver(d.lease.messageId, other, minIdle);
    HandStep(s, op, cfg);
    HandedOutIsNew(s.k, op);
    TakenOverIsLost(s.k.q, d.lease, other, minIdle);
    HandLeavesRuns(s.w, op, cfg, FenceSays(s.ds, Hand(op)), HandedOut(s.k.q, op), d, Begun);
  }

  /** The first delivery of a new queue's first job. */
  function FirstDelivery(job: Job, w: WorkerID): Delivery {
    Delivery(job, Lease(1, w, 1, 0))
  }

  /** The queue after that job was enqueued and delivered. */
  function DeliveredQueue(job: Job, w: WorkerID): Stream {
    EMPTY.(entries := map[1 := JobFields(job)], lastId := 1, lastDelivered := 1, pel := map[1 := Pending(w, 1, 0)], consumers := map[w := 0])
  }

  lemma EnqueueFirst(cfg: Config, job: Job)
    requires job.attempt == 0 && job.maxAttempts > 0
    ensures var s := Next(INIT, Enqueue(XAdd(JobFields(job))), cfg);
            s.k.q == AddEntry(EMPTY, JobFields(job)) && s.k.hist == [] && s.ds == EMPTY_LEDGER && s.w == INIT.w
  {
    var op := XAdd(JobFields(job));
    assert Enqueued(EMPTY, op) == [job];
    assert Accepts(START, {}, op);
  }

  lemma ReadFirst(job: Job, w: WorkerID)
    ensures var q := AddEntry(EMPTY, JobFields(job));
            Apply(q, ReadOne(w)) == DeliveredQueue(job, w) && HandedOut(q, ReadOne(w)) == [FirstDelivery(job, w)]
  {
    var q := AddEntry(EMPTY, JobFields(job));
    assert Ready(q) == {1};
    assert MinOf(Ready(q)) == 1;
  }

  lemma DeliverFirst(s: Sys, cfg: Config, job: Job, w: WorkerID)
    requires s.k.q == AddEntry(EMPTY, JobFields(job)) && s.k.hist == [] && s.ds == EMPTY_LEDGER && s.w == INIT.w
    ensures var t := Next(s, Hand(ReadOne(w)), cfg);
            t.k.q == DeliveredQueue(job, w) && t.ds == EMPTY_LEDGER && At(t.w, FirstDelivery(job, w), Waiting)
  {
    ReadFirst(job, w);
  }

  lemma StartRun(s: Sys, cfg: Config, d: Delivery)
    requires At(s.w, d, Waiting) && d.lease.token <= cfg(d.lease.owner)
    ensures var t := Next(s, Process(d, true), cfg); t.k.q == s.k.q && t.ds == s.ds && At(t.w, d, Started)
  {
  }

  lemma BeginRun(s: Sys, cfg: Config, d: Delivery)
    requires At(s.w, d, Started) && s.ds == EMPTY_LEDGER && Packable(d.job.attempt, d.lease.token)
    ensures var t := Next(s, Begin(d, false), cfg);
            t.k.q == s.k.q && t.ds.applied == map[] && At(t.w, d, Begun) && Passes(t.ds, d.job.id, TokenOf(d))
  {
    NoFenceYet(d);
  }

  lemma WaitIdle(s: Sys, cfg: Config, d: Delivery, idle: nat)
    requires At(s.w, d, Begun)
    ensures var t := Next(s, Background(Tick(idle)), cfg);
            t.k.q == s.k.q.(clock := s.k.q.clock + idle) && t.ds == s.ds && At(t.w, d, Begun)
  {
  }

  lemma ExecSnoc(s: Sys, acts: seq<Action>, a: Action, cfg: Config)
    ensures Exec(s, acts + [a], cfg) == Next(Exec(s, acts, cfg), a, cfg)
    decreases |acts|
  {
    if acts == [] {
      assert [] + [a] == [a];
      assert Exec(s, [a], cfg) == Exec(Next(s, a, cfg), [a][1..], cfg);
    } else {
      assert (acts + [a])[1..] == acts[1..] + [a];
      ExecSnoc(Next(s, acts[0], cfg), acts[1..], a, cfg);
    }
  }

  lemma StartedFirst(cfg: Config, job: Job, w: WorkerID) returns (acts: seq<Action>)
    requires job.attempt == 0 && job.maxAttempts > 0 && cfg(w) >= 1
    ensures var s := Exec(INIT, acts, cfg);
            s.k.q == DeliveredQueue(job, w) && s.ds == EMPTY_LEDGER && At(s.w, FirstDelivery(job, w), Started)
  {
    var d := FirstDelivery(job, w);
    var enqueue := Enqueue(XAdd(JobFields(job)));
    EnqueueFirst(cfg, job);
    ExecSnoc(INIT, [], enqueue, cfg);
    var a1 := [] + [enqueue];
    DeliverFirst(Exec(INIT, a1, cfg), cfg, job, w);
    ExecSnoc(INIT, a1, Hand(ReadOne(w)), cfg);
    var a2 := a1 + [Hand(ReadOne(w))];
    StartRun(Exec(INIT, a2, cfg), cfg, d);
    ExecSnoc(INIT, a2, Process(d, true), cfg);
    acts := a2 + [Process(d, true)];
  }

  lemma BegunFirst(cfg: Config, job: Job, w: WorkerID, idle: nat) returns (acts: seq<Action>)
    requires job.attempt == 0 && job.maxAttempts > 0 && cfg(w) >= 1
    ensures var s := Exec(INIT, acts, cfg);
            && s.k.q == DeliveredQueue(job, w).(clock := idle) && s.ds.applied == map[]
            && At(s.w, FirstDelivery(job, w), Begun) && Passes(s.ds, job.id, TokenOf(FirstDelivery(job, w)))
  {
    var d := FirstDelivery(job, w);
    var before := StartedFirst(cfg, job, w);
    BeginRun(Exec(INIT, before, cfg), cfg, d);
    ExecSnoc(INIT, before, Begin(d, false), cfg);
    var begun := before + [Begin(d, false)];
    WaitIdle(Exec(INIT, begun, cfg), cfg, d, idle);
    ExecSnoc(INIT, begun, Background(Tick(idle)), cfg);
    acts := begun + [Background(Tick(idle))];
  }

  /** Such a run exists for every job, every pair of workers and every visibility timeout. */
  lemma {:induction false} ZombieRun(cfg: Config, job: Job, w: WorkerID, other: WorkerID, timeout: nat) returns (acts: seq<Action>)
    requires job.attempt == 0 && job.maxAttempts > 0 && cfg(w) >= 1
    ensures var d := FirstDelivery(job, w);
            var s := Exec(INIT, acts, cfg);
            && Lost(s.k.q, d.lease) && At(s.w, d, Begun) && job.id !in s.ds.applied
            && job.id in Exec(INIT, acts + [Effect(d, false)], cfg).ds.applied
  {
    var d := FirstDelivery(job, w);
    var before := BegunFirst(cfg, job, w, timeout);
    var s, op := Exec(INIT, before, cfg), TakeOver(1, other, timeout);
    Reachable(before, cfg);
    ZombieEffectLands(s, cfg, d, other, timeout);
    TakenAway(s, cfg, d, other, timeout);
    acts := before + [Hand(op)];
    ExecSnoc(INIT, before, Hand(op), cfg);
    ExecSnoc(INIT, acts, Effect(d, false), cfg);
  }
}
