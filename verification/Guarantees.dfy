/** What the README promises, over every run of the system from an empty start. */
module Guarantees {
  import opened Jobs
  import opened Fencing
  import opened Sets
  import opened Streams
  import opened Conservation
  import opened Leases
  import opened History
  import opened Effects
  import opened System

  lemma Reachable(acts: seq<Action>, cfg: Config)
    ensures SysInv(Exec(INIT, acts, cfg), cfg)
  {
    InitOk(cfg);
    SysInvAlways(INIT, acts, cfg);
  }

  // ----- exactly-once effects

  /** Every other job, here or in another partition, was enqueued with another payload. */
  ghost predicate OwnPayload(origin: map<JobID, Job>, acts: seq<Action>, j: JobID) {
    && j in origin
    && (forall x :: x in origin && x != j ==> origin[x].payload != origin[j].payload)
    && NotElsewhere(acts, origin[j].payload)
  }

  predicate NotElsewhere(acts: seq<Action>, payload: string) {
    forall i :: 0 <= i < |acts| && acts[i].Elsewhere? ==> acts[i].payload != payload
  }

  /** No effect of another partition went to this payload. */
  ghost predicate Untouched(s: Sys, payload: string) {
    forall x :: x in s.ds.applied && x !in s.k.origin ==> s.ds.applied[x] != payload
  }

  lemma UntouchedKept(s: Sys, a: Action, cfg: Config, payload: string)
    requires SysInv(s, cfg) && Untouched(s, payload) && (a.Elsewhere? ==> a.payload != payload)
    ensures Untouched(Next(s, a, cfg), payload)
  {
    EffectsAccumulate(s.k.origin, s.w, s.ds, a, FenceSays(s.ds, a));
    PayloadsAgree(s.k);
  }

  lemma {:induction false} UntouchedAlways(s: Sys, acts: seq<Action>, cfg: Config, payload: string)
    requires SysInv(s, cfg) && Untouched(s, payload) && NotElsewhere(acts, payload)
    ensures Untouched(Exec(s, acts, cfg), payload)
    decreases |acts|
  {
    if acts != [] {
      UntouchedKept(s, acts[0], cfg, payload);
      SysInvKept(s, acts[0], cfg);
      UntouchedAlways(Next(s, acts[0], cfg), acts[1..], cfg, payload);
    }
  }

  /** Each payload carries exactly one effect per applied job, and an acked job has been applied, to its own payload. */
  lemma {:induction false} EffectsCountJobs(acts: seq<Action>, cfg: Config, payload: string)
    ensures var s := Exec(INIT, acts, cfg);
            && Get(s.ds.effects, payload) == |AppliedOn(s.ds, payload)|
            && (forall j :: j in s.k.q.completed ==> j in s.k.origin && j in AppliedOn(s.ds, s.k.origin[j].payload))
  {
    Reachable(acts, cfg);
    var s := Exec(INIT, acts, cfg);
    forall j | j in s.k.q.completed
      ensures j in s.k.origin && j in AppliedOn(s.ds, s.k.origin[j].payload)
    {
      assert CompletedOk(s, j);
      assert j in Stored(s.k.q);
    }
  }

  /**
   Exactly-once effects: whatever crashes, pauses, lost replies and
   redeliveries happen, a job's effect is applied at most once, and exactly
   once if the job was removed by an ack. The payloads are the producers' to
   choose: each effect is counted under its job's own.
   */
  lemma {:induction false} ExactlyOnceEffects(acts: seq<Action>, cfg: Config, j: JobID)
    requires OwnPayload(Exec(INIT, acts, cfg).k.origin, acts, j)
    ensures var s := Exec(INIT, acts, cfg);
            var count := Get(s.ds.effects, s.k.origin[j].payload);
            && count == (if j in s.ds.applied then 1 else 0)
            && (j in s.k.q.completed ==> count == 1)
  {
    var s := Exec(INIT, acts, cfg);
    EffectsCountJobs(acts, cfg, s.k.origin[j].payload);
    InitOk(cfg);
    UntouchedAlways(INIT, acts, cfg, s.k.origin[j].payload);
    AppliedToOwnPayload(acts, cfg);
    OnlyEffect(s, j);
  }

  lemma AppliedToOwnPayload(acts: seq<Action>, cfg: Config)
    ensures var s := Exec(INIT, acts, cfg);
            forall x :: x in s.ds.applied && x in s.k.origin ==> s.ds.applied[x] == s.k.origin[x].payload
  {
    Reachable(acts, cfg);
  }

  lemma OnlyEffect(s: Sys, j: JobID)
    requires forall x :: x in s.ds.applied && x in s.k.origin ==> s.ds.applied[x] == s.k.origin[x].payload
    requires j in s.k.origin && Untouched(s, s.k.origin[j].payload)
    requires forall x :: x in s.k.origin && x != j ==> s.k.origin[x].payload != s.k.origin[j].payload
    ensures AppliedOn(s.ds, s.k.origin[j].payload) == if j in s.ds.applied then {j} else {}
  {
  }

  // ----- the queue's fence and the downstream's fence agree

  /** Every delivery so far has a token that the packing holds. */
  predicate AllPackable(hist: seq<Delivery>) {
    forall d :: d in hist ==> Packable(d.job.attempt, d.lease.token)
  }

  /** Every delivery so far has a token that the downstream compares exactly. */
  predicate AllInRange(hist: seq<Delivery>) {
    forall d :: d in hist ==> UpTo(d.job.attempt, d.lease.token, TWO53 + 3)
  }

  lemma FenceOrder(d: Delivery, other: Delivery)
    requires UpTo(d.job.attempt, d.lease.token, TWO53 + 3) && UpTo(other.job.attempt, other.lease.token, TWO53 + 3)
    ensures LuaLess(TokenOf(d), TokenOf(other)) <==> Before(d, other)
  {
    LuaOrderIsRunOrder(d.job.attempt, d.lease.token, other.job.attempt, other.lease.token);
  }

  /** Past the exact range the fence may confuse runs, but never takes a newer run for an older one. */
  lemma RankedBelowIsBefore(d: Delivery, other: Delivery)
    requires Packable(d.job.attempt, d.lease.token) && Packable(other.job.attempt, other.lease.token)
    requires LuaLess(TokenOf(d), TokenOf(other))
    ensures Before(d, other)
  {
    TokensSkip53(d.job.attempt, d.lease.token);
    LuaLessMeansLess(TokenOf(d), TokenOf(other));
    PackingKeepsOrder(d.job.attempt, d.lease.token, other.job.attempt, other.lease.token);
  }

  lemma NoFenceYet(d: Delivery)
    requires Packable(d.job.attempt, d.lease.token)
    ensures !LuaLess(TokenOf(d), -1)
  {
    TokensSkip53(d.job.attempt, d.lease.token);
    DoubleIsExactBelow(1);
  }

  /** A newer run of the same job set the downstream's fence. */
  ghost predicate Overtaken(hist: seq<Delivery>, ds: Ledger, d: Delivery) {
    && d.job.id in ds.fence
    && exists other :: other in hist && other.job.id == d.job.id && ds.fence[d.job.id] == TokenOf(other) && Before(d, other)
  }

  /** Only a newer run of the same job can make the downstream reject one. */
  lemma {:induction false} RejectedIsOvertaken(s: Sys, cfg: Config, d: Delivery)
    requires SysInv(s, cfg) && d in s.k.hist && AllPackable(s.k.hist) && !Passes(s.ds, d.job.id, TokenOf(d))
    ensures Overtaken(s.k.hist, s.ds, d)
  {
    NoFenceYet(d);
    PayloadsAgree(s.k);
    assert FencedBy(s.k.hist, s.ds, d.job.id);
    var other :| other in s.k.hist && other.job.id == d.job.id && s.ds.fence[d.job.id] == TokenOf(other);
    RankedBelowIsBefore(d, other);
  }

  lemma HolderIsNotOvertaken(k: Tracked, ds: Ledger, d: Delivery)
    requires Inv(k) && d in k.hist && Owns(k.q, d.lease)
    ensures !Overtaken(k.hist, ds, d)
  {
    forall other | other in k.hist && other.job.id == d.job.id
      ensures !Before(d, other)
    {
      OwnerIsNewest(k, d, other);
    }
  }

  /** The holder of a job's current lease is never rejected by the downstream. */
  lemma {:induction false} HolderIsNeverFenced(s: Sys, cfg: Config, d: Delivery)
    requires SysInv(s, cfg) && d in s.k.hist && AllPackable(s.k.hist) && Owns(s.k.q, d.lease)
    ensures Passes(s.ds, d.job.id, TokenOf(d))
  {
    HolderIsNotOvertaken(s.k, s.ds, d);
    if !Passes(s.ds, d.job.id, TokenOf(d)) {
      RejectedIsOvertaken(s, cfg, d);
    }
  }

  lemma {:induction false} LostInSystem(s: Sys, acts: seq<Action>, cfg: Config, l: Lease)
    requires Shape(s.k.q) && Lost(s.k.q, l)
    ensures Lost(Exec(s, acts, cfg).k.q, l)
    decreases |acts|
  {
    if acts != [] {
      var op := QueueOp(s.k, s.w, s.others, acts[0], cfg);
      ShapeKept(s.k.q, op);
      LostStays(s.k.q, op, l);
      LostInSystem(Next(s, acts[0], cfg), acts[1..], cfg, l);
    }
  }

  /** A run the downstream rejects can never again ack, extend, retry or dead-letter its job. */
  lemma {:induction false} FencedRunIsFinished(s: Sys, cfg: Config, d: Delivery, acts: seq<Action>)
    requires SysInv(s, cfg) && d in s.k.hist && AllPackable(s.k.hist) && !Passes(s.ds, d.job.id, TokenOf(d))
    ensures !Owns(Exec(s, acts, cfg).k.q, d.lease)
  {
    RejectedIsOvertaken(s, cfg, d);
    var other :| other in s.k.hist && other.job.id == d.job.id && Before(d, other);
    SupersededIsLost(s.k, d, other);
    LostInSystem(s, acts, cfg, d.lease);
  }

  // ----- every job ends up somewhere, once

  /** The jobs enqueued are exactly the jobs in the queue's books, each in one of the five places. */
  lemma {:induction false} NoJobLostOrDuplicated(acts: seq<Action>, cfg: Config, j: JobID)
    ensures var s := Exec(INIT, acts, cfg); PlacesOf(s.k.q, j) == Int(j in s.k.origin)
  {
    Reachable(acts, cfg);
    ExactlyOnePlace(Exec(INIT, acts, cfg).k.q, j);
  }

  /** Over every run, settling a run that still holds its lease puts the job where its verdict says: a success completes it. */
  lemma {:induction false} OwnedRunSettles(acts: seq<Action>, cfg: Config, d: Delivery, runAt: int)
    requires var s := Exec(INIT, acts, cfg); HasReturned(s.w, d) && Owns(s.k.q, d.lease)
    ensures var s := Exec(INIT, acts, cfg);
            var t := Next(s, Settle(d, runAt), cfg);
            && SettledRight(s.k.q, t.k.q, d, s.w.runs[d].verdict, runAt)
            && (s.w.runs[d].verdict == Success ==> d.job.id in t.k.q.completed)
  {
    Reachable(acts, cfg);
    SettleLands(Exec(INIT, acts, cfg), cfg, d, runAt);
  }

  /** Over every run, a delivery past the limit ends its job: processing it leaves the job dead, for that reason. */
  lemma {:induction false} PoisonIsBuried(acts: seq<Action>, cfg: Config, d: Delivery, hasHandler: bool)
    requires var s := Exec(INIT, acts, cfg);
             At(s.w, d, Waiting) && Owns(s.k.q, d.lease) && d.lease.token > cfg(d.lease.owner)
    ensures var s := Exec(INIT, acts, cfg);
            var t := Next(s, Process(d, hasHandler), cfg);
            BuriedRight(s.k.q, t.k.q, d, TooManyDeliveries) && d.job.id in DeadIds(t.k.q.dead)
  {
    Reachable(acts, cfg);
    var s := Exec(INIT, acts, cfg);
    ProcessedByRule(s, cfg, d, hasHandler);
    DeadAfterAppend(s.k.q.dead, DeadEntry(JobFields(d.job), d.lease.token, TooManyDeliveries));
  }

  /** A completed job was settled by its newest run, whose handler returned no error. It is not dead. */
  lemma {:induction false} CompletedForGoodReason(acts: seq<Action>, cfg: Config, j: JobID)
    requires j in Exec(INIT, acts, cfg).k.q.completed
    ensures var s := Exec(INIT, acts, cfg);
            && CompletedOk(s, j)
            && j !in DeadIds(s.k.q.dead)
            && s.settledBy[j].lease.token <= cfg(s.settledBy[j].lease.owner)
  {
    Reachable(acts, cfg);
    assert CompletedOk(Exec(INIT, acts, cfg), j);
  }

  /** A dead job was settled by its newest run, for one of the documented reasons. It is not completed. */
  lemma {:induction false} DeadForGoodReason(acts: seq<Action>, cfg: Config, i: nat)
    requires i < |Exec(INIT, acts, cfg).k.q.dead|
    ensures var s := Exec(INIT, acts, cfg);
            DeadOk(s, s.k.q.dead[i], cfg) && JobIds(s.k.q.dead[i].fields) !! s.k.q.completed
  {
    Reachable(acts, cfg);
    var s := Exec(INIT, acts, cfg);
    assert s.k.q.dead[i] in s.k.q.dead;
  }

  /**
   A handler runs only where one was registered for the task. A job buried for
   want of a handler met none, at the last delivery allowed, and its newest run
   never started; neither did one buried for too many deliveries.
   */
  lemma {:induction false} HandlersRunWhereRegistered(acts: seq<Action>, cfg: Config)
    ensures var s := Exec(INIT, acts, cfg);
            && (forall d :: d in s.w.starts ==> d in s.w.processed && s.w.processed[d] && d.lease.token <= cfg(d.lease.owner))
            && (forall i :: 0 <= i < |s.k.q.dead| ==> BuriedUnrun(s, s.k.q.dead[i], cfg))
  {
    Reachable(acts, cfg);
    var s := Exec(INIT, acts, cfg);
    forall i | 0 <= i < |s.k.q.dead|
      ensures BuriedUnrun(s, s.k.q.dead[i], cfg)
    {
      UnrunByCause(s, s.k.q.dead[i], cfg);
    }
  }

  /** What a dead-letter for want of a handler, or for too many deliveries, says about the run that was buried. */
  predicate BuriedUnrun(s: Sys, e: DeadEntry, cfg: Config) {
    e.reason == NoHandler || e.reason == TooManyDeliveries ==>
      && e.fields.JobFields? && e.fields.job.id in s.settledBy
      && var d := s.settledBy[e.fields.job.id];
         && d !in s.w.starts && d.lease.token == e.deliveries
         && (e.reason == NoHandler ==> d in s.w.processed && !s.w.processed[d] && e.deliveries == cfg(d.lease.owner))
         && (e.reason == TooManyDeliveries ==> e.deliveries > cfg(d.lease.owner))
  }

  lemma UnrunByCause(s: Sys, e: DeadEntry, cfg: Config)
    requires DeadOk(s, e, cfg)
    ensures BuriedUnrun(s, e, cfg)
  {
  }

  // ----- bounded handler starts

  function StartsOf(starts: seq<Delivery>, j: JobID): seq<Delivery>
    decreases |starts|
  {
    if starts == [] then []
    else
      var n := |starts| - 1;
      StartsOf(starts[..n], j) + (if starts[n].job.id == j then [starts[n]] else [])
  }

  lemma {:induction false} StartsOfFacts(starts: seq<Delivery>, j: JobID)
    requires Distinct(starts)
    ensures Distinct(StartsOf(starts, j))
    ensures forall d :: d in StartsOf(starts, j) ==> d in starts && d.job.id == j
    decreases |starts|
  {
    if starts != [] {
      var n := |starts| - 1;
      StartsOfFacts(starts[..n], j);
      var init := StartsOf(starts[..n], j);
      forall i | 0 <= i < |init|
        ensures init[i] != starts[n]
      {
        assert init[i] in init;
      }
    }
  }

  function Row(a: nat, n: nat): (r: set<(nat, nat)>)
    ensures |r| == n
    ensures forall p :: p in r <==> p.0 == a && 1 <= p.1 <= n
  {
    if n == 0 then {} else Row(a, n - 1) + {(a, n)}
  }

  function Grid(m: nat, n: nat): (r: set<(nat, nat)>)
    ensures |r| == m * n
    ensures forall p :: p in r <==> p.0 < m && 1 <= p.1 <= n
  {
    if m == 0 then {}
    else
      var rest, row := Grid(m - 1, n), Row(m - 1, n);
      assert rest !! row;
      assert |rest + row| == (m - 1) * n + n;
      assert (m - 1) * n + n == m * n;
      rest + row
  }

  /** Over all workers, a job's handler is started at most once per (attempt, delivery) pair... */
  lemma {:induction false} StartedOncePerRun(acts: seq<Action>, cfg: Config, i: nat, k: nat)
    requires var st := Exec(INIT, acts, cfg).w.starts; i < k < |st| && st[i].job.id == st[k].job.id
    ensures var st := Exec(INIT, acts, cfg).w.starts;
            st[i].job.attempt != st[k].job.attempt || st[i].lease.token != st[k].lease.token
  {
    Reachable(acts, cfg);
    var s := Exec(INIT, acts, cfg);
    StartsDiffer(s, cfg, s.w.starts[i], s.w.starts[k]);
  }

  lemma StartsDiffer(s: Sys, cfg: Config, a: Delivery, b: Delivery)
    requires SysInv(s, cfg) && a in s.w.starts && b in s.w.starts && a != b && a.job.id == b.job.id
    ensures a.job.attempt != b.job.attempt || a.lease.token != b.lease.token
  {
    OrderedDiffer(s.k.hist, a, b);
  }

  lemma OrderedDiffer(h: seq<Delivery>, a: Delivery, b: Delivery)
    requires Ordered(h) && a in h && b in h && a != b && a.job.id == b.job.id
    ensures a.job.attempt != b.job.attempt || a.lease.token != b.lease.token
  {
    var x :| 0 <= x < |h| && h[x] == a;
    var y :| 0 <= y < |h| && h[y] == b;
    assert Before(h[x], h[y]) || Before(h[y], h[x]);
  }

  lemma StartInGrid(s: Sys, cfg: Config, d: Delivery)
    requires SysInv(s, cfg) && d in s.w.starts
    ensures d.job.id in s.k.origin && d.job.attempt < s.k.origin[d.job.id].maxAttempts
    ensures 1 <= d.lease.token <= cfg(d.lease.owner)
  {
    var i :| 0 <= i < |s.k.hist| && s.k.hist[i] == d;
    assert CaughtUp(s.k.q, s.k.hist[i]) && VersionOf(s.k.origin, s.k.hist[i].job);
  }

  function PairOf(d: Delivery): (nat, nat) {
    (d.job.attempt, if d.lease.token < 0 then 0 else d.lease.token)
  }

  lemma PairInGrid(s: Sys, cfg: Config, d: Delivery, maxDeliveries: nat)
    requires SysInv(s, cfg) && d in s.w.starts && cfg(d.lease.owner) <= maxDeliveries
    ensures d.job.id in s.k.origin && s.k.origin[d.job.id].maxAttempts > 0
    ensures PairOf(d) in Grid(s.k.origin[d.job.id].maxAttempts, maxDeliveries)
  {
    StartInGrid(s, cfg, d);
  }

  lemma PairsDiffer(s: Sys, cfg: Config, a: Delivery, b: Delivery)
    requires SysInv(s, cfg) && a in s.w.starts && b in s.w.starts && a != b && a.job.id == b.job.id
    ensures PairOf(a) != PairOf(b)
  {
    StartInGrid(s, cfg, a);
    StartInGrid(s, cfg, b);
    StartsDiffer(s, cfg, a, b);
  }

  function Pairs(ds: seq<Delivery>): (r: seq<(nat, nat)>)
    ensures |r| == |ds| && forall i :: 0 <= i < |ds| ==> r[i] == PairOf(ds[i])
  {
    seq(|ds|, i requires 0 <= i < |ds| => PairOf(ds[i]))
  }

  lemma PairsInGrid(s: Sys, cfg: Config, j: JobID, maxDeliveries: nat, mine: seq<Delivery>)
    requires SysInv(s, cfg) && j in s.k.origin && s.k.origin[j].maxAttempts > 0 && (forall w :: cfg(w) <= maxDeliveries)
    requires forall d :: d in mine ==> d in s.w.starts && d.job.id == j
    ensures forall p :: p in Pairs(mine) ==> p in Grid(s.k.origin[j].maxAttempts, maxDeliveries)
  {
    forall i | 0 <= i < |mine|
      ensures Pairs(mine)[i] in Grid(s.k.origin[j].maxAttempts, maxDeliveries)
    {
      assert mine[i] in mine;
      PairInGrid(s, cfg, mine[i], maxDeliveries);
    }
  }

  lemma PairsDistinct(s: Sys, cfg: Config, j: JobID, mine: seq<Delivery>)
    requires SysInv(s, cfg) && Distinct(mine) && forall d :: d in mine ==> d in s.w.starts && d.job.id == j
    ensures Distinct(Pairs(mine))
  {
    forall i, k | 0 <= i < k < |mine|
      ensures Pairs(mine)[i] != Pairs(mine)[k]
    {
      assert mine[i] in mine && mine[k] in mine;
      PairsDiffer(s, cfg, mine[i], mine[k]);
    }
  }

  lemma AttemptsPositive(s: Sys, cfg: Config, j: JobID)
    requires SysInv(s, cfg) && j in s.k.origin
    ensures s.k.origin[j].maxAttempts > 0 && Distinct(s.w.starts)
  {
  }

  lemma StartsFitGrid(s: Sys, cfg: Config, j: JobID, maxDeliveries: nat)
    requires SysInv(s, cfg) && j in s.k.origin && (forall w :: cfg(w) <= maxDeliveries)
    ensures |StartsOf(s.w.starts, j)| <= s.k.origin[j].maxAttempts * maxDeliveries
  {
    AttemptsPositive(s, cfg, j);
    var mine := StartsOf(s.w.starts, j);
    StartsOfFacts(s.w.starts, j);
    PairsInGrid(s, cfg, j, maxDeliveries, mine);
    PairsDistinct(s, cfg, j, mine);
    DistinctFits(Pairs(mine), Grid(s.k.origin[j].maxAttempts, maxDeliveries));
  }

  /** ...so never more than MaxAttempts times MaxDeliveries times in all. */
  lemma {:induction false} HandlerStartsAreBounded(acts: seq<Action>, cfg: Config, j: JobID, maxDeliveries: nat)
    requires forall w :: cfg(w) <= maxDeliveries
    requires j in Exec(INIT, acts, cfg).k.origin
    ensures var s := Exec(INIT, acts, cfg);
            |StartsOf(s.w.starts, j)| <= s.k.origin[j].maxAttempts * maxDeliveries
  {
    Reachable(acts, cfg);
    StartsFitGrid(Exec(INIT, acts, cfg), cfg, j, maxDeliveries);
  }
}
