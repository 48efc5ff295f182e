/**
 The whole system: one queue, any number of workers and the downstream
 (queue/worker.go, cmd/chaos/main.go). A delivery handed out is a run; runs of
 stale leases go on like any other until they are dropped. Workers crash, pause
 and lose replies at any point. A run of the system is any list of actions.
 With a sharded backend, the queue is any one partition; runs of jobs in the
 other partitions reach the same downstream in any order (`Elsewhere`).
 */
module System {
  import opened Jobs
  import opened Fencing
  import opened Sets
  import opened Streams
  import opened Conservation
  import opened Leases
  import opened History
  import opened Effects

  /** What a handler returned. */
  datatype Verdict = Success | Retryable | Permanent

  /** Where the run of one delivery stands. */
  datatype Stage = Waiting | Started | Begun | Returned(verdict: Verdict)

  /** All workers together: their live runs, stale ones included, and what their handlers did so far. */
  datatype Workers = Workers(
    runs: map<Delivery, Stage>,
    starts: seq<Delivery>,
    returned: map<Delivery, Verdict>,
    processed: map<Delivery, bool>)       // runs handleOne looked at: was a handler registered for the task?

  datatype Sys = Sys(
    k: Tracked,
    ds: Ledger,
    w: Workers,
    settledBy: map<JobID, Delivery>,      // the run whose ack or dead-letter landed
    others: set<JobID>)                   // jobs of other partitions seen downstream

  const INIT: Sys := Sys(START, EMPTY_LEDGER, Workers(map[], [], map[], map[]), map[], {})

  datatype Action =
    | Enqueue(op: Op)
    | Foreign(raw: string)                      // an entry no worker can parse
    | Background(op: Op)                        // promotion, renewal, deregistration, pruning, time
    | Hand(op: Op)                              // a claim or a recovery delivers an entry
    | Quarantine(lease: Lease)
    | Lose(gone: set<Delivery>)                 // crash, lost reply, abandoned run
    | Process(d: Delivery, hasHandler: bool)
    | Begin(d: Delivery, replyLost: bool)
    | Fail(d: Delivery, verdict: Verdict)
    | Effect(d: Delivery, replyLost: bool)
    | Settle(d: Delivery, runAt: int)
    | Elsewhere(id: JobID, token: int, payload: string, applies: bool)

  /** Each worker's MaxDeliveries. */
  type Config = WorkerID -> nat

  // ----- handleOne's decisions

  datatype Triage = DeadLetterNow(reason: Reason) | LeaveLeased | RunHandler

  function TriageOf(token: int, maxDeliveries: nat, hasHandler: bool): Triage {
    if token > maxDeliveries then DeadLetterNow(TooManyDeliveries)
    else if !hasHandler then (if token >= maxDeliveries then DeadLetterNow(NoHandler) else LeaveLeased)
    else RunHandler
  }

  function Buried(d: Delivery, reason: Reason): Op {
    DeadLetter(d.lease, DeadEntry(JobFields(d.job), d.lease.token, reason))
  }

  function SettleOp(d: Delivery, verdict: Verdict, runAt: int): Op {
    match verdict
    case Success => Ack(d.lease)
    case Permanent => Buried(d, PermanentError)
    case Retryable => if Exhausted(d.job) then Buried(d, AttemptsExhausted) else Retry(d.lease, NextAttempt(d.job), runAt)
  }

  // ----- what these decisions must lead to, in terms of the queue

  /** The entry is gone from stream and pending list; the dead-letter stream got this job, with its count and reason. */
  predicate BuriedRight(s: Stream, t: Stream, d: Delivery, reason: Reason) {
    var e := d.lease.messageId;
    t == s.(entries := s.entries - {e}, pel := s.pel - {e},
            dead := s.dead + [DeadEntry(JobFields(d.job), d.lease.token, reason)])
  }

  /**
   Where a run's job goes when its settlement lands: completed on success,
   buried on a permanent failure or on the last attempt's, and otherwise back
   to the schedule, one attempt further, at the given time.
   */
  predicate SettledRight(s: Stream, t: Stream, d: Delivery, verdict: Verdict, runAt: int) {
    var e := d.lease.messageId;
    match verdict
    case Success => t == s.(entries := s.entries - {e}, pel := s.pel - {e}, completed := s.completed + {d.job.id})
    case Permanent => BuriedRight(s, t, d, PermanentError)
    case Retryable =>
      if d.job.attempt + 1 < d.job.maxAttempts
      then t == s.(entries := s.entries - {e}, pel := s.pel - {e}, schedule := s.schedule[d.job.id := runAt],
                   data := s.data[d.job.id := d.job.(attempt := d.job.attempt + 1)])
      else BuriedRight(s, t, d, AttemptsExhausted)
  }

  lemma SettleOpIsRight(s: Stream, d: Delivery, verdict: Verdict, runAt: int)
    requires Owns(s, d.lease) && Holds(s, d.lease, d.job)
    ensures SettledRight(s, Apply(s, SettleOp(d, verdict, runAt)), d, verdict, runAt)
  {
  }

  lemma BuryIsRight(s: Stream, d: Delivery, reason: Reason)
    requires Owns(s, d.lease)
    ensures BuriedRight(s, Apply(s, Buried(d, reason)), d, reason)
  {
  }

  function TokenOf(d: Delivery): int {
    FencingToken(d.job.attempt, if d.lease.token < 0 then 0 else d.lease.token)
  }

  predicate At(w: Workers, d: Delivery, stage: Stage) {
    d in w.runs && w.runs[d] == stage
  }

  predicate HasReturned(w: Workers, d: Delivery) {
    d in w.runs && w.runs[d].Returned?
  }

  const NOTHING: Op := Tick(0)

  /** Enqueues carry a fresh ID: no queue and no other partition has used it. */
  predicate Accepts(k: Tracked, others: set<JobID>, op: Op) {
    && ((op.XAdd? && op.fields.JobFields?) || op.Put? || op.Once?)
    && forall job :: job in Enqueued(k.q, op) ==>
         job.id !in k.origin && job.id !in others && job.attempt == 0 && job.maxAttempts > 0
  }

  /** The queue step an action makes. */
  function QueueOp(k: Tracked, w: Workers, others: set<JobID>, a: Action, cfg: Config): Op {
    match a
    case Enqueue(op) => if Accepts(k, others, op) then op else NOTHING
    case Foreign(raw) => XAdd(Malformed(raw))
    case Background(op) => if Quiet(op) && !Delivers(op) then op else NOTHING
    case Hand(op) => if Delivers(op) then op else NOTHING
    case Quarantine(l) =>
      if l.messageId in k.q.entries && k.q.entries[l.messageId].Malformed?
      then DeadLetter(l, DeadEntry(k.q.entries[l.messageId], l.token, MalformedEntry)) else NOTHING
    case Process(d, hasHandler) =>
      var t := TriageOf(d.lease.token, cfg(d.lease.owner), hasHandler);
      if At(w, d, Waiting) && t.DeadLetterNow? then Buried(d, t.reason) else NOTHING
    case Settle(d, runAt) => if HasReturned(w, d) then SettleOp(d, w.runs[d].verdict, runAt) else NOTHING
    case _ => NOTHING
  }

  /** What the downstream's fence says to the run that calls it in this step. */
  predicate FenceSays(ds: Ledger, a: Action) {
    match a
    case Begin(d, _) => Passes(ds, d.job.id, TokenOf(d))
    case Effect(d, _) => Passes(ds, d.job.id, TokenOf(d))
    case Elsewhere(id, token, _, _) => Passes(ds, id, token)
    case _ => false
  }

  function NextLedger(origin: map<JobID, Job>, w: Workers, ds: Ledger, a: Action, passes: bool): Ledger {
    match a
    case Elsewhere(id, token, payload, applies) =>
      if id in origin then ds else if applies then Landed(ds, id, token, payload, passes) else Noted(ds, id, token, passes)
    case Begin(d, _) => if At(w, d, Started) then Noted(ds, d.job.id, TokenOf(d), passes) else ds
    case Effect(d, _) => if At(w, d, Begun) then Landed(ds, d.job.id, TokenOf(d), d.job.payload, passes) else ds
    case _ => ds
  }

  /** The verdict a step makes a handler return, if it does (cmd/chaos/main.go:146-180). */
  function Returns(w: Workers, a: Action, passes: bool): seq<Verdict> {
    match a
    case Begin(d, replyLost) => if At(w, d, Started) && (replyLost || !passes) then [Retryable] else []
    case Fail(d, verdict) => if (At(w, d, Started) || At(w, d, Begun)) && verdict != Success then [verdict] else []
    case Effect(d, replyLost) => if !At(w, d, Begun) then [] else if replyLost || !passes then [Retryable] else [Success]
    case _ => []
  }

  predicate StartsHandler(w: Workers, a: Action, cfg: Config) {
    a.Process? && At(w, a.d, Waiting) && TriageOf(a.d.lease.token, cfg(a.d.lease.owner), a.hasHandler) == RunHandler
  }

  function NextRuns(w: Workers, a: Action, cfg: Config, passes: bool, out: seq<Delivery>): map<Delivery, Stage> {
    var r := Returns(w, a, passes);
    if r != [] && (a.Begin? || a.Fail? || a.Effect?) then w.runs[a.d := Returned(r[0])]
    else
      match a
      case Hand(op) => if out == [] then w.runs else w.runs[out[0] := Waiting]
      case Lose(gone) => w.runs - gone
      case Process(d, _) =>
        if StartsHandler(w, a, cfg) then w.runs[d := Started] else if At(w, d, Waiting) then w.runs - {d} else w.runs
      case Begin(d, _) => if At(w, d, Started) then w.runs[d := Begun] else w.runs
      case Settle(d, _) => if HasReturned(w, d) then w.runs - {d} else w.runs
      case _ => w.runs
  }

  function NextWorkers(w: Workers, a: Action, cfg: Config, passes: bool, out: seq<Delivery>): Workers {
    Workers(
      NextRuns(w, a, cfg, passes, out),
      if StartsHandler(w, a, cfg) then w.starts + [a.d] else w.starts,
      var r := Returns(w, a, passes);
      if r != [] && (a.Begin? || a.Fail? || a.Effect?) then w.returned[a.d := r[0]] else w.returned,
      if a.Process? && At(w, a.d, Waiting) then w.processed[a.d := a.hasHandler] else w.processed)
  }

  /** The run whose ack or dead-letter lands in this step. */
  predicate Closes(q: Stream, a: Action, op: Op) {
    (a.Process? || a.Settle?) && (op.Ack? || op.DeadLetter?) && Owns(q, op.lease)
  }

  function Next(s: Sys, a: Action, cfg: Config): Sys {
    var op := QueueOp(s.k, s.w, s.others, a, cfg);
    var passes := FenceSays(s.ds, a);
    Sys(
      Step(s.k, op),
      NextLedger(s.k.origin, s.w, s.ds, a, passes),
      NextWorkers(s.w, a, cfg, passes, HandedOut(s.k.q, op)),
      if Closes(s.k.q, a, op) then s.settledBy[a.d.job.id := a.d] else s.settledBy,
      if a.Elsewhere? && a.id !in s.k.origin then s.others + {a.id} else s.others)
  }

  function Exec(s: Sys, acts: seq<Action>, cfg: Config): Sys
    decreases |acts|
  {
    if acts == [] then s else Exec(Next(s, acts[0], cfg), acts[1..], cfg)
  }

  // ----- invariant

  /** A live run's stage agrees with what is on record about it. */
  predicate RunOk(w: Workers, d: Delivery, stage: Stage) {
    && (stage.Waiting? <==> d !in w.processed)
    && (!stage.Waiting? ==> d in w.starts)
    && (if stage.Returned? then d in w.returned && w.returned[d] == stage.verdict else d !in w.returned)
  }

  ghost predicate RunsOk(hist: seq<Delivery>, w: Workers) {
    forall d :: d in w.runs ==> d in hist && RunOk(w, d, w.runs[d])
  }

  ghost predicate StartsOk(hist: seq<Delivery>, w: Workers, cfg: Config) {
    && Distinct(w.starts)
    && (forall d :: d in w.starts ==> d.lease.token <= cfg(d.lease.owner) && d in w.processed && w.processed[d])
    && (forall d :: d in w.processed ==> d in hist)
    && (forall d :: d in w.returned ==> d in w.starts)
  }

  ghost predicate AppliedOk(origin: map<JobID, Job>, w: Workers, ds: Ledger) {
    && Balanced(ds)
    && (forall j :: j in ds.applied && j in origin ==> ds.applied[j] == origin[j].payload)
    && (forall d :: d in w.returned && w.returned[d] == Success ==> d.job.id in ds.applied)
  }

  ghost predicate FencedBy(hist: seq<Delivery>, ds: Ledger, j: JobID) {
    j in ds.fence && exists d :: d in hist && d.job.id == j && ds.fence[j] == TokenOf(d)
  }

  ghost predicate FenceOk(hist: seq<Delivery>, origin: map<JobID, Job>, ds: Ledger) {
    forall j :: j in ds.fence && j in origin ==> FencedBy(hist, ds, j)
  }

  /** The downstream only knows jobs of this queue and of the other partitions. */
  ghost predicate KnownOk(origin: map<JobID, Job>, others: set<JobID>, ds: Ledger) {
    && origin.Keys !! others
    && ds.applied.Keys <= origin.Keys + others
    && ds.fence.Keys <= origin.Keys + others
  }

  /** The settling run was the newest delivery of its job. */
  ghost predicate Closed(hist: seq<Delivery>, settledBy: map<JobID, Delivery>, j: JobID) {
    && j in settledBy && settledBy[j] in hist && settledBy[j].job.id == j
    && forall d :: d in hist && d.job.id == j ==> d == settledBy[j] || Before(d, settledBy[j])
  }

  predicate ReturnedWith(w: Workers, d: Delivery, verdict: Verdict) {
    d in w.returned && w.returned[d] == verdict
  }

  /** The only reasons a job is dead. */
  predicate Cause(w: Workers, e: DeadEntry, d: Delivery, cfg: Config) {
    match e.reason
    case PermanentError => ReturnedWith(w, d, Permanent)
    case AttemptsExhausted => ReturnedWith(w, d, Retryable) && Exhausted(d.job)
    case TooManyDeliveries => d.lease.token > cfg(d.lease.owner) && d !in w.starts
    case NoHandler => d.lease.token == cfg(d.lease.owner) && d in w.processed && !w.processed[d] && d !in w.starts
    case MalformedEntry => false
  }

  ghost predicate DeadOk(s: Sys, e: DeadEntry, cfg: Config) {
    if e.fields.Malformed? then e.reason == MalformedEntry
    else
      var j := e.fields.job.id;
      Closed(s.k.hist, s.settledBy, j) && s.settledBy[j].job == e.fields.job && s.settledBy[j].lease.token == e.deliveries
      && Cause(s.w, e, s.settledBy[j], cfg)
  }

  ghost predicate CompletedOk(s: Sys, j: JobID) {
    Closed(s.k.hist, s.settledBy, j) && ReturnedWith(s.w, s.settledBy[j], Success)
  }

  ghost predicate SettledOk(s: Sys, cfg: Config) {
    && (forall j :: j in s.k.q.completed ==> CompletedOk(s, j))
    && (forall i :: 0 <= i < |s.k.q.dead| ==> DeadOk(s, s.k.q.dead[i], cfg))
  }

  ghost predicate SysInv(s: Sys, cfg: Config) {
    && Inv(s.k)
    && RunsOk(s.k.hist, s.w) && StartsOk(s.k.hist, s.w, cfg)
    && AppliedOk(s.k.origin, s.w, s.ds) && FenceOk(s.k.hist, s.k.origin, s.ds) && KnownOk(s.k.origin, s.others, s.ds)
    && SettledOk(s, cfg)
  }

  // ----- workers and downstream, whatever the queue does

  lemma RunsKept(hist: seq<Delivery>, w: Workers, a: Action, cfg: Config, passes: bool, out: seq<Delivery>)
    requires RunsOk(hist, w) && StartsOk(hist, w, cfg)
    requires forall d :: d in out ==> d !in hist
    ensures RunsOk(hist + out, NextWorkers(w, a, cfg, passes, out))
  {
    var t := NextWorkers(w, a, cfg, passes, out);
    if out != [] {
      assert out[0] in out;
    }
    forall d | d in t.runs
      ensures d in hist + out && RunOk(t, d, t.runs[d])
    {
      if ActsOn(a, d) {
        ActingRunKept(hist, w, a, cfg, passes, out);
      } else {
        OtherRunsKept(w, a, cfg, passes, out, d);
      }
    }
  }

  /** The run a step is about. */
  predicate ActsOn(a: Action, d: Delivery) {
    (a.Process? || a.Begin? || a.Fail? || a.Effect? || a.Settle?) && a.d == d
  }

  lemma ActingRunKept(hist: seq<Delivery>, w: Workers, a: Action, cfg: Config, passes: bool, out: seq<Delivery>)
    requires RunsOk(hist, w) && (a.Process? || a.Begin? || a.Fail? || a.Effect? || a.Settle?)
    ensures var t := NextWorkers(w, a, cfg, passes, out);
            a.d in t.runs ==> a.d in w.runs && RunOk(t, a.d, t.runs[a.d])
  {
  }

  lemma OtherRunsKept(w: Workers, a: Action, cfg: Config, passes: bool, out: seq<Delivery>, d: Delivery)
    requires !ActsOn(a, d)
    ensures var t := NextWorkers(w, a, cfg, passes, out);
            && (d in t.starts <==> d in w.starts) && (d in t.processed <==> d in w.processed)
            && (d in t.returned <==> d in w.returned) && (d in w.returned ==> t.returned[d] == w.returned[d])
            && (d in t.runs ==> (d in w.runs && t.runs[d] == w.runs[d]) || (out != [] && d == out[0] && t.runs[d] == Waiting))
  {
  }

  lemma StartsKept(hist: seq<Delivery>, w: Workers, a: Action, cfg: Config, passes: bool, out: seq<Delivery>)
    requires RunsOk(hist, w) && StartsOk(hist, w, cfg)
    ensures StartsOk(hist + out, NextWorkers(w, a, cfg, passes, out), cfg)
  {
    if StartsHandler(w, a, cfg) {
      forall i | 0 <= i < |w.starts|
        ensures w.starts[i] != a.d
      {
        assert w.starts[i] in w.starts;
      }
    }
  }

  lemma BalanceKept(origin: map<JobID, Job>, w: Workers, ds: Ledger, a: Action, passes: bool)
    requires Balanced(ds)
    ensures Balanced(NextLedger(origin, w, ds, a, passes))
  {
    match a
    case Begin(d, _) =>
      FenceKeepsBalance(ds, d.job.id, TokenOf(d), passes);
    case Effect(d, _) =>
      ApplyKeepsBalance(ds, d.job.id, TokenOf(d), d.job.payload, passes);
    case Elsewhere(id, token, payload, _) =>
      FenceKeepsBalance(ds, id, token, passes);
      ApplyKeepsBalance(ds, id, token, payload, passes);
    case _ =>
  }

  /** Effects only accumulate, and a step adds at most its own run's effect, under that job's payload. */
  lemma EffectsAccumulate(origin: map<JobID, Job>, w: Workers, ds: Ledger, a: Action, passes: bool)
    ensures var t := NextLedger(origin, w, ds, a, passes);
            || t.applied == ds.applied
            || (a.Effect? && At(w, a.d, Begun) && t.applied == ds.applied[a.d.job.id := a.d.job.payload])
            || (a.Elsewhere? && a.id !in origin && t.applied == ds.applied[a.id := a.payload])
    ensures a.Effect? && At(w, a.d, Begun) && passes ==> a.d.job.id in NextLedger(origin, w, ds, a, passes).applied
    ensures forall j :: j in ds.applied ==> j in NextLedger(origin, w, ds, a, passes).applied
  {
  }

  lemma AppliedKept(hist: seq<Delivery>, origin: map<JobID, Job>, w: Workers, ds: Ledger, a: Action, cfg: Config,
                    passes: bool, out: seq<Delivery>)
    requires RunsOk(hist, w) && AppliedOk(origin, w, ds)
    requires forall d :: d in hist ==> d.job.id in origin && origin[d.job.id].payload == d.job.payload
    ensures AppliedOk(origin, NextWorkers(w, a, cfg, passes, out), NextLedger(origin, w, ds, a, passes))
  {
    BalanceKept(origin, w, ds, a, passes);
    EffectsAccumulate(origin, w, ds, a, passes);
    var t := NextWorkers(w, a, cfg, passes, out);
    forall d | d in t.returned && t.returned[d] == Success
      ensures d.job.id in NextLedger(origin, w, ds, a, passes).applied
    {
      assert (d in w.returned && w.returned[d] == Success) || (a.Effect? && a.d == d && At(w, d, Begun) && passes);
    }
  }

  /** A step changes the fence of at most the run's own job, to that run's token. */
  lemma FenceEffect(origin: map<JobID, Job>, w: Workers, ds: Ledger, a: Action, passes: bool)
    ensures var t := NextLedger(origin, w, ds, a, passes);
            || t.fence == ds.fence
            || ((a.Begin? || a.Effect?) && a.d in w.runs && t.fence == ds.fence[a.d.job.id := TokenOf(a.d)])
            || (a.Elsewhere? && a.id !in origin && t.fence == ds.fence[a.id := a.token])
  {
  }

  lemma FenceKept(hist: seq<Delivery>, origin: map<JobID, Job>, w: Workers, ds: Ledger, a: Action, passes: bool, out: seq<Delivery>)
    requires RunsOk(hist, w) && FenceOk(hist, origin, ds)
    ensures FenceOk(hist + out, origin, NextLedger(origin, w, ds, a, passes))
  {
    FenceEffect(origin, w, ds, a, passes);
    var t := NextLedger(origin, w, ds, a, passes);
    forall j | j in t.fence && j in origin
      ensures FencedBy(hist + out, t, j)
    {
      if j in ds.fence && t.fence[j] == ds.fence[j] {
        assert FencedBy(hist, ds, j);
        var d :| d in hist && d.job.id == j && ds.fence[j] == TokenOf(d);
        assert d in hist + out;
      } else {
        assert a.d in hist + out && t.fence[j] == TokenOf(a.d);
      }
    }
  }

  lemma KnownKept(hist: seq<Delivery>, origin: map<JobID, Job>, others: set<JobID>, w: Workers, ds: Ledger, a: Action, passes: bool)
    requires RunsOk(hist, w) && KnownOk(origin, others, ds) && forall d :: d in hist ==> d.job.id in origin
    ensures KnownOk(origin, if a.Elsewhere? && a.id !in origin then others + {a.id} else others, NextLedger(origin, w, ds, a, passes))
  {
    FenceEffect(origin, w, ds, a, passes);
    EffectsAccumulate(origin, w, ds, a, passes);
  }

  lemma ReturnedKept(hist: seq<Delivery>, w: Workers, a: Action, cfg: Config, passes: bool, out: seq<Delivery>, d: Delivery)
    requires RunsOk(hist, w) && d in w.returned
    ensures ReturnedWith(NextWorkers(w, a, cfg, passes, out), d, w.returned[d])
  {
  }

  // ----- the queue under these workers

  lemma QueueStepIsAllowed(k: Tracked, w: Workers, others: set<JobID>, a: Action, cfg: Config)
    requires RunsOk(k.hist, w)
    ensures CallerOk(k, QueueOp(k, w, others, a, cfg))
  {
    match a
    case Process(d, hasHandler) =>
      assert At(w, d, Waiting) ==> d in k.hist;
    case Settle(d, runAt) =>
      assert HasReturned(w, d) ==> d in k.hist;
    case _ =>
  }

  /** A lease just handed out was never seen before. */
  lemma HandedOutIsNew(k: Tracked, op: Op)
    requires Inv(k)
    ensures forall d :: d in HandedOut(k.q, op) ==> d !in k.hist
  {
    if HandedOut(k.q, op) != [] {
      NewDeliveryIsNewest(k, op);
    }
  }

  lemma PayloadsAgree(k: Tracked)
    requires Inv(k)
    ensures forall d :: d in k.hist ==> d.job.id in k.origin && k.origin[d.job.id].payload == d.job.payload
  {
  }

  lemma JoinsUnknown(origin: map<JobID, Job>, others: set<JobID>, t: Workers, ds: Ledger, hist: seq<Delivery>, job: Job)
    requires AppliedOk(origin, t, ds) && FenceOk(hist, origin, ds) && KnownOk(origin, others, ds)
    requires job.id !in origin && job.id !in others
    ensures var grown := origin[job.id := job]; AppliedOk(grown, t, ds) && FenceOk(hist, grown, ds) && KnownOk(grown, others, ds)
  {
    assert job.id !in ds.applied.Keys && job.id !in ds.fence.Keys;
  }

  /** Only an accepted enqueue stores a job. */
  lemma EnqueuesAreAccepted(k: Tracked, w: Workers, others: set<JobID>, a: Action, cfg: Config)
    ensures var added := Enqueued(k.q, QueueOp(k, w, others, a, cfg));
            added == [] || (added[0].id !in k.origin && added[0].id !in others)
  {
    var added := Enqueued(k.q, QueueOp(k, w, others, a, cfg));
    if added != [] {
      assert added[0] in added;
    }
  }

  /** Jobs that join the queue are new to the downstream too. */
  lemma OriginGrows(k: Tracked, w: Workers, others: set<JobID>, a: Action, cfg: Config, t: Workers, ds: Ledger, hist: seq<Delivery>)
    requires AppliedOk(k.origin, t, ds) && FenceOk(hist, k.origin, ds) && KnownOk(k.origin, others, ds)
    ensures var origin := Step(k, QueueOp(k, w, others, a, cfg)).origin;
            AppliedOk(origin, t, ds) && FenceOk(hist, origin, ds) && KnownOk(origin, others, ds)
  {
    var added := Enqueued(k.q, QueueOp(k, w, others, a, cfg));
    EnqueuesAreAccepted(k, w, others, a, cfg);
    if added != [] {
      JoinsUnknown(k.origin, others, t, ds, hist, added[0]);
    }
  }

  /** The run that closes a job holds its entry, and was its newest delivery. */
  lemma ClosesNow(k: Tracked, w: Workers, others: set<JobID>, settledBy: map<JobID, Delivery>, a: Action, cfg: Config)
    requires Inv(k) && RunsOk(k.hist, w) && Closes(k.q, a, QueueOp(k, w, others, a, cfg))
    ensures QueueOp(k, w, others, a, cfg).lease == a.d.lease && a.d in k.hist && Holds(k.q, a.d.lease, a.d.job)
    ensures Closed(k.hist, settledBy[a.d.job.id := a.d], a.d.job.id)
  {
    assert a.d in k.hist && CaughtUp(k.q, a.d);
    forall d | d in k.hist && d.job.id == a.d.job.id
      ensures d == a.d || Before(d, a.d)
    {
      OwnerIsNewest(k, a.d, d);
    }
  }

  /** A settled job is never delivered again. */
  lemma SettledJobsStayPut(k: Tracked, op: Op, j: JobID)
    requires Placed(k.q) && (j in k.q.completed || j in DeadIds(k.q.dead))
    ensures forall d :: d in HandedOut(k.q, op) ==> d.job.id != j
    ensures forall e :: e in k.q.entries && k.q.entries[e].JobFields? ==> k.q.entries[e].job.id != j
  {
    forall e | e in k.q.entries && k.q.entries[e].JobFields?
      ensures k.q.entries[e].job.id != j
    {
      EntryIsStored(k.q, e);
    }
  }

  lemma ClosedKept(s: Sys, a: Action, cfg: Config, j: JobID)
    requires Inv(s.k) && RunsOk(s.k.hist, s.w) && Closed(s.k.hist, s.settledBy, j)
    requires j in s.k.q.completed || j in DeadIds(s.k.q.dead)
    ensures var t := Next(s, a, cfg); Closed(t.k.hist, t.settledBy, j) && t.settledBy[j] == s.settledBy[j]
  {
    var op := QueueOp(s.k, s.w, s.others, a, cfg);
    SettledJobsStayPut(s.k, op, j);
    if Closes(s.k.q, a, op) {
      ClosesNow(s.k, s.w, s.others, s.settledBy, a, cfg);
    }
    var t := Next(s, a, cfg);
    assert t.k.hist == s.k.hist + HandedOut(s.k.q, op);
  }

  /** Only an ack completes a job, and only of the entry it settles. */
  lemma NewlyCompleted(q: Stream, op: Op, j: JobID)
    requires j in Apply(q, op).completed && j !in q.completed
    ensures op.Ack? && Owns(q, op.lease) && op.lease.messageId in q.entries
    ensures q.entries[op.lease.messageId].JobFields? && q.entries[op.lease.messageId].job.id == j
  {
  }

  lemma NewlyDead(q: Stream, op: Op)
    ensures Apply(q, op).dead == q.dead || (op.DeadLetter? && Owns(q, op.lease) && Apply(q, op).dead == q.dead + [op.dead])
  {
  }

  lemma CompletedNow(s: Sys, a: Action, cfg: Config, j: JobID)
    requires Inv(s.k) && RunsOk(s.k.hist, s.w) && j in Next(s, a, cfg).k.q.completed && j !in s.k.q.completed
    ensures CompletedOk(Next(s, a, cfg), j)
  {
    var op, passes := QueueOp(s.k, s.w, s.others, a, cfg), FenceSays(s.ds, a);
    NewlyCompleted(s.k.q, op, j);
    OnlySuccessAcks(s.k, s.w, s.others, a, cfg, op);
    ClosesNow(s.k, s.w, s.others, s.settledBy, a, cfg);
    StepWithoutDelivery(s.k, op);
    ReturnedKept(s.k.hist, s.w, a, cfg, passes, [], a.d);
  }

  /** A worker acks only a run that returned no error. */
  lemma OnlySuccessAcks(k: Tracked, w: Workers, others: set<JobID>, a: Action, cfg: Config, op: Op)
    requires op == QueueOp(k, w, others, a, cfg) && op.Ack? && RunsOk(k.hist, w)
    ensures a.Settle? && HasReturned(w, a.d) && w.runs[a.d].verdict == Success && op.lease == a.d.lease
  {
  }

  lemma StepWithoutDelivery(k: Tracked, op: Op)
    requires !Delivers(op)
    ensures HandedOut(k.q, op) == [] && Step(k, op).hist == k.hist
  {
    assert k.hist + [] == k.hist;
  }

  lemma CompletedKept(s: Sys, a: Action, cfg: Config, j: JobID)
    requires Inv(s.k) && RunsOk(s.k.hist, s.w) && CompletedOk(s, j) && j in s.k.q.completed
    ensures CompletedOk(Next(s, a, cfg), j)
  {
    var op, passes := QueueOp(s.k, s.w, s.others, a, cfg), FenceSays(s.ds, a);
    ClosedKept(s, a, cfg, j);
    ReturnedKept(s.k.hist, s.w, a, cfg, passes, HandedOut(s.k.q, op), s.settledBy[j]);
  }

  lemma DeadKept(s: Sys, a: Action, cfg: Config, e: DeadEntry)
    requires Inv(s.k) && RunsOk(s.k.hist, s.w) && e in s.k.q.dead && DeadOk(s, e, cfg)
    ensures DeadOk(Next(s, a, cfg), e, cfg)
  {
    var op, passes := QueueOp(s.k, s.w, s.others, a, cfg), FenceSays(s.ds, a);
    if e.fields.JobFields? {
      ClosedKept(s, a, cfg, e.fields.job.id);
      CauseKept(s.k.hist, s.w, a, cfg, passes, HandedOut(s.k.q, op), e, s.settledBy[e.fields.job.id]);
    }
  }

  /** Every dead-letter a worker sends has its cause on record once the step is done. */
  lemma BuriedForCause(k: Tracked, w: Workers, others: set<JobID>, a: Action, cfg: Config, passes: bool)
    requires RunsOk(k.hist, w) && StartsOk(k.hist, w, cfg)
    requires (a.Process? || a.Settle?) && QueueOp(k, w, others, a, cfg).DeadLetter?
    ensures var e := QueueOp(k, w, others, a, cfg).dead;
            && e.fields == JobFields(a.d.job) && e.deliveries == a.d.lease.token
            && Cause(NextWorkers(w, a, cfg, passes, []), e, a.d, cfg)
  {
    if a.Settle? {
      ReturnedKept(k.hist, w, a, cfg, passes, [], a.d);
    }
  }

  lemma CauseKept(hist: seq<Delivery>, w: Workers, a: Action, cfg: Config, passes: bool, out: seq<Delivery>, e: DeadEntry, d: Delivery)
    requires RunsOk(hist, w) && Cause(w, e, d, cfg)
    ensures Cause(NextWorkers(w, a, cfg, passes, out), e, d, cfg)
  {
    if d in w.returned {
      ReturnedKept(hist, w, a, cfg, passes, out, d);
    }
  }

  lemma DeadNow(s: Sys, a: Action, cfg: Config)
    requires Inv(s.k) && RunsOk(s.k.hist, s.w) && StartsOk(s.k.hist, s.w, cfg)
    requires var op := QueueOp(s.k, s.w, s.others, a, cfg); op.DeadLetter? && Owns(s.k.q, op.lease)
    ensures DeadOk(Next(s, a, cfg), QueueOp(s.k, s.w, s.others, a, cfg).dead, cfg)
  {
    var op, passes := QueueOp(s.k, s.w, s.others, a, cfg), FenceSays(s.ds, a);
    if a.Process? || a.Settle? {
      ClosesNow(s.k, s.w, s.others, s.settledBy, a, cfg);
      BuriedForCause(s.k, s.w, s.others, a, cfg, passes);
      assert HandedOut(s.k.q, op) == [];
      assert s.k.hist + [] == s.k.hist;
    } else {
      assert a.Quarantine?;
    }
  }

  lemma SettledKept(s: Sys, a: Action, cfg: Config)
    requires SysInv(s, cfg)
    ensures SettledOk(Next(s, a, cfg), cfg)
  {
    var t, op := Next(s, a, cfg), QueueOp(s.k, s.w, s.others, a, cfg);
    forall j | j in t.k.q.completed
      ensures CompletedOk(t, j)
    {
      if j in s.k.q.completed {
        CompletedKept(s, a, cfg, j);
      } else {
        CompletedNow(s, a, cfg, j);
      }
    }
    NewlyDead(s.k.q, op);
    forall i | 0 <= i < |t.k.q.dead|
      ensures DeadOk(t, t.k.q.dead[i], cfg)
    {
      if i < |s.k.q.dead| {
        assert s.k.q.dead[i] in s.k.q.dead;
        DeadKept(s, a, cfg, s.k.q.dead[i]);
      } else {
        DeadNow(s, a, cfg);
      }
    }
  }

  lemma {:induction false} SysInvKept(s: Sys, a: Action, cfg: Config)
    requires SysInv(s, cfg)
    ensures SysInv(Next(s, a, cfg), cfg)
  {
    var op, passes := QueueOp(s.k, s.w, s.others, a, cfg), FenceSays(s.ds, a);
    var out := HandedOut(s.k.q, op);
    QueueStepIsAllowed(s.k, s.w, s.others, a, cfg);
    InvKept(s.k, op);
    HandedOutIsNew(s.k, op);
    RunsKept(s.k.hist, s.w, a, cfg, passes, out);
    StartsKept(s.k.hist, s.w, a, cfg, passes, out);
    LedgerKept(s, a, cfg);
    SettledKept(s, a, cfg);
  }

  lemma LedgerKept(s: Sys, a: Action, cfg: Config)
    requires Inv(s.k) && RunsOk(s.k.hist, s.w)
    requires AppliedOk(s.k.origin, s.w, s.ds) && FenceOk(s.k.hist, s.k.origin, s.ds) && KnownOk(s.k.origin, s.others, s.ds)
    ensures var t := Next(s, a, cfg);
            AppliedOk(t.k.origin, t.w, t.ds) && FenceOk(t.k.hist, t.k.origin, t.ds) && KnownOk(t.k.origin, t.others, t.ds)
  {
    var op, passes := QueueOp(s.k, s.w, s.others, a, cfg), FenceSays(s.ds, a);
    var out := HandedOut(s.k.q, op);
    var w, ds := NextWorkers(s.w, a, cfg, passes, out), NextLedger(s.k.origin, s.w, s.ds, a, passes);
    PayloadsAgree(s.k);
    AppliedKept(s.k.hist, s.k.origin, s.w, s.ds, a, cfg, passes, out);
    FenceKept(s.k.hist, s.k.origin, s.w, s.ds, a, passes, out);
    KnownKept(s.k.hist, s.k.origin, s.others, s.w, s.ds, a, passes);
    var others := if a.Elsewhere? && a.id !in s.k.origin then s.others + {a.id} else s.others;
    assert others == s.others || op == NOTHING;
    assert QueueOp(s.k, s.w, others, a, cfg) == op;
    OriginGrows(s.k, s.w, others, a, cfg, w, ds, s.k.hist + out);
  }

  lemma {:induction false} SysInvAlways(s: Sys, acts: seq<Action>, cfg: Config)
    requires SysInv(s, cfg)
    ensures SysInv(Exec(s, acts, cfg), cfg)
    decreases |acts|
  {
    if acts != [] {
      SysInvKept(s, acts[0], cfg);
      SysInvAlways(Next(s, acts[0], cfg), acts[1..], cfg);
    }
  }

  lemma InitOk(cfg: Config)
    ensures SysInv(INIT, cfg)
  {
    assert forall n :: AppliedOn(EMPTY_LEDGER, n) == {};
  }

  // ----- what a worker's step does to its job

  /** The settlement of a run that still holds its lease puts the job where the verdict says. */
  lemma {:induction false} SettleLands(s: Sys, cfg: Config, d: Delivery, runAt: int)
    requires SysInv(s, cfg) && HasReturned(s.w, d) && Owns(s.k.q, d.lease)
    ensures SettledRight(s.k.q, Next(s, Settle(d, runAt), cfg).k.q, d, s.w.runs[d].verdict, runAt)
  {
    assert d in s.k.hist && CaughtUp(s.k.q, d);
    SettleOpIsRight(s.k.q, d, s.w.runs[d].verdict, runAt);
  }

  /**
   A delivery past the limit is buried, whatever the worker can handle. Within
   it, a handler is started if there is one; without one the job is buried at
   the limit and left to other workers below it.
   */
  lemma {:induction false} ProcessedByRule(s: Sys, cfg: Config, d: Delivery, hasHandler: bool)
    requires SysInv(s, cfg) && At(s.w, d, Waiting)
    ensures var t, max := Next(s, Process(d, hasHandler), cfg), cfg(d.lease.owner);
            && t.ds == s.ds
            && (d.lease.token > max && Owns(s.k.q, d.lease) ==> BuriedRight(s.k.q, t.k.q, d, TooManyDeliveries))
            && (d.lease.token == max && !hasHandler && Owns(s.k.q, d.lease) ==> BuriedRight(s.k.q, t.k.q, d, NoHandler))
            && (d.lease.token < max && !hasHandler ==> t.k.q == s.k.q && d !in t.w.runs && d !in t.w.starts)
            && (d.lease.token <= max && hasHandler ==> t.k.q == s.k.q && At(t.w, d, Started) && d in t.w.starts)
            && (!Owns(s.k.q, d.lease) ==> t.k.q == s.k.q)
  {
    var a := Process(d, hasHandler);
    ProcessQueue(s.k, s.w, s.others, d, hasHandler, cfg);
    ProcessWorkers(s.w, d, hasHandler, cfg, FenceSays(s.ds, a), HandedOut(s.k.q, QueueOp(s.k, s.w, s.others, a, cfg)));
    assert d !in s.w.starts;
  }

  /** What processing a waiting run does to the queue. */
  lemma ProcessQueue(k: Tracked, w: Workers, others: set<JobID>, d: Delivery, hasHandler: bool, cfg: Config)
    requires At(w, d, Waiting)
    ensures var t, max := Apply(k.q, QueueOp(k, w, others, Process(d, hasHandler), cfg)), cfg(d.lease.owner);
            if !Owns(k.q, d.lease) then t == k.q
            else if d.lease.token > max then BuriedRight(k.q, t, d, TooManyDeliveries)
            else if d.lease.token == max && !hasHandler then BuriedRight(k.q, t, d, NoHandler)
            else t == k.q
  {
    BuryingIsFenced(k.q, d);
    assert Apply(k.q, NOTHING) == k.q;
  }

  /** And to the runs. */
  lemma ProcessWorkers(w: Workers, d: Delivery, hasHandler: bool, cfg: Config, passes: bool, out: seq<Delivery>)
    requires At(w, d, Waiting)
    ensures var t, max := NextWorkers(w, Process(d, hasHandler), cfg, passes, out), cfg(d.lease.owner);
            && (d.lease.token <= max && hasHandler ==> At(t, d, Started) && d in t.starts)
            && (d.lease.token < max && !hasHandler ==> d !in t.runs && t.starts == w.starts)
  {
  }

  lemma BuryingIsFenced(q: Stream, d: Delivery)
    ensures Owns(q, d.lease) ==>
      BuriedRight(q, Apply(q, Buried(d, TooManyDeliveries)), d, TooManyDeliveries) && BuriedRight(q, Apply(q, Buried(d, NoHandler)), d, NoHandler)
    ensures !Owns(q, d.lease) ==> Apply(q, Buried(d, TooManyDeliveries)) == q && Apply(q, Buried(d, NoHandler)) == q
  {
    if Owns(q, d.lease) {
      BuryIsRight(q, d, TooManyDeliveries);
      BuryIsRight(q, d, NoHandler);
    }
  }
}
