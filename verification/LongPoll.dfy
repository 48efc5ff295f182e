/**
 The long-poll protocol of the sharded backend (redisstream/sharded.go): one
 Claim caller, a poller goroutine per partition, the shared buffer, the
 one-slot signal channel, the heartbeat that renews buffered leases, and Close,
 over partitions that anyone else may change at any time (`Others`). Each
 action is one critical section, channel operation or Redis command, and any
 interleaving of actions is a run.
 */
module LongPoll {
  import opened Jobs
  import opened Sets
  import opened Streams
  import opened Leases

  datatype PollStage = Top | Blocked(count: nat) | Got(jobs: seq<Lease>) | Signalling

  datatype Poller = Poller(part: nat, stage: PollStage)

  /** Where the single Claim stands. From Select to Leaving it counts as waiting. */
  datatype ClaimStage = Idle | Swept(limit: nat) | Select(limit: nat) | Received(limit: nat) | TimedOut(limit: nat) | Leaving

  /** Where a lease delivered to a poller went. */
  datatype Place = InReply(poller: nat) | InBuffer | HandedOut | Dropped

  datatype State = State(
    closed: bool,
    cancelled: bool,            // pollCtx
    waiting: nat,
    polling: seq<bool>,
    pollCount: nat,
    buffered: seq<Lease>,
    arrived: bool,              // the channel holds a signal
    pollers: map<nat, Poller>,
    nextPoller: nat,
    claim: ClaimStage,
    worker: WorkerID,           // the Claim caller
    parts: seq<Stream>,
    snapshot: set<Lease>,       // what the heartbeat is renewing
    reported: set<Lease>,       // renewals of it that came back as lost
    // history
    current: seq<nat>,          // the last poller started for each partition
    delivered: seq<bool>,       // partitions that delivered since the wait began
    handed: seq<Lease>,
    place: map<Lease, Place>)

  datatype Action =
    | ClaimStart(limit: nat)
    | SweepDone
    | EnterWait
    | Receive
    | TakeReceived
    | TimeOut
    | TakeTimedOut
    | Leave
    | PollTop(g: nat)
    | PollReply(g: nat, answer: Answer)
    | PollAppend(g: nat)
    | PollSignal(g: nat)
    | Close
    | Cancel
    | Others(p: nat, op: Op)
    | Snapshot
    | Renew(lease: Lease)
    | DropReported

  function Initial(parts: seq<Stream>, worker: WorkerID): State {
    var n := |parts|;
    State(false, false, 0, seq(n, _ => false), 1, [], false, map[], 0, Idle, worker, parts, {}, {},
          seq(n, _ => 0), seq(n, _ => false), [], map[])
  }

  /** The share of a limit that each poll asks for. */
  function Share(limit: nat, n: nat): nat
    requires n > 0
  {
    var ceil := (limit + n - 1) / n;
    if ceil < 1 then 1 else ceil
  }

  // ----- critical sections

  /** takeBuffered: how many jobs it hands out. */
  function TakeSize(s: State, limit: nat): nat {
    if limit < |s.buffered| then limit else |s.buffered|
  }

  function Take(s: State, limit: nat): State {
    var n := TakeSize(s, limit);
    s.(handed := s.handed + s.buffered[..n],
       buffered := s.buffered[n..],
       place := s.place + map l | l in s.buffered[..n] :: HandedOut)
  }

  /** Pollers for the first k partitions that have none running. */
  function Spawned(polling: seq<bool>, next: nat, k: nat): (m: map<nat, Poller>)
    requires k <= |polling|
    ensures forall g :: g in m <==> next <= g < next + k && !polling[g - next]
    ensures forall g :: g in m ==> m[g] == Poller(g - next, Top)
  {
    if k == 0 then map[]
    else
      var m := Spawned(polling, next, k - 1);
      if polling[k - 1] then m else m[next + k - 1 := Poller(k - 1, Top)]
  }

  /** The critical section of waitForJobs: start a poller wherever none is running. */
  function StartPollers(s: State, limit: nat): State
    requires |s.polling| > 0 && |s.current| == |s.polling|
  {
    var n := |s.polling|;
    s.(waiting := s.waiting + 1,
       pollCount := Share(limit, n),
       pollers := s.pollers + Spawned(s.polling, s.nextPoller, n),
       current := seq(n, p requires 0 <= p < n => if s.polling[p] then s.current[p] else s.nextPoller + p),
       polling := seq(n, _ => true),
       nextPoller := s.nextPoller + n,
       delivered := seq(n, _ => false),
       claim := Select(limit))
  }

  /** XREADGROUP > COUNT n. */
  function ReadOps(w: WorkerID, n: nat): seq<Op> {
    seq(n, _ => ReadOne(w))
  }

  /** The leases of the jobs it delivers. Entries that cannot be parsed are delivered too, and handed to nobody. */
  function Polled(q: Stream, w: WorkerID, p: nat, n: nat): (r: seq<Lease>)
    ensures |r| <= n
    decreases n
  {
    if n == 0 || Ready(q) == {} then []
    else
      var e := MinOf(Ready(q));
      (if q.entries[e].JobFields? then [Lease(e, w, 1, p)] else []) + Polled(Apply(q, ReadOne(w)), w, p, n - 1)
  }

  function Keep(xs: seq<Lease>, gone: set<Lease>): seq<Lease>
    decreases |xs|
  {
    if xs == [] then [] else (if xs[0] in gone then [] else [xs[0]]) + Keep(xs[1..], gone)
  }

  predicate PollAction(a: Action) {
    a.PollTop? || a.PollReply? || a.PollAppend? || a.PollSignal?
  }

  predicate ClaimAction(a: Action) {
    a.ClaimStart? || a.SweepDone? || a.EnterWait? || a.Receive? || a.TakeReceived? || a.TimeOut? || a.TakeTimedOut? || a.Leave?
  }

  /** Claim and waitForJobs. A worker only claims when it has a free slot, so limits are at least 1. */
  function NextClaim(s: State, a: Action, maxLimit: nat): State
    requires ClaimAction(a)
  {
    match a
    case ClaimStart(limit) =>
      if s.claim != Idle || limit < 1 || limit > maxLimit then s
      else if TakeSize(s, limit) > 0 then Take(s, limit)
      else s.(claim := Swept(limit))
    case SweepDone => if s.claim.Swept? then s.(claim := Idle) else s
    case EnterWait =>
      if !s.claim.Swept? || |s.polling| == 0 || |s.current| != |s.polling| then s
      else if s.closed then s.(claim := Idle)
      else StartPollers(s, s.claim.limit)
    case Receive => if s.claim.Select? && s.arrived then s.(arrived := false, claim := Received(s.claim.limit)) else s
    case TakeReceived =>
      if !s.claim.Received? then s
      else if TakeSize(s, s.claim.limit) > 0 then Take(s, s.claim.limit).(claim := Leaving)
      else s.(claim := Select(s.claim.limit))
    case TimeOut => if s.claim.Select? then s.(claim := TimedOut(s.claim.limit)) else s
    case TakeTimedOut => if s.claim.TimedOut? then Take(s, s.claim.limit).(claim := Leaving) else s
    case Leave => if s.claim == Leaving && s.waiting > 0 then s.(waiting := s.waiting - 1, claim := Idle) else s
  }

  /** The blocking read of a poller returns, or only its effect in Redis remains. */
  function Answered(s: State, g: nat, p: nat, count: nat, heard: bool): State
    requires p < |s.parts|
  {
    var jobs := Polled(s.parts[p], s.worker, p, count);
    var read := s.(parts := s.parts[p := Run(s.parts[p], ReadOps(s.worker, count))]);
    if heard && jobs != []
    then read.(pollers := s.pollers[g := Poller(p, Got(jobs))], place := s.place + map l | l in jobs :: InReply(g))
    else read.(pollers := s.pollers[g := Poller(p, Top)])
  }

  /** All that a poller's read can change besides the partition is the poller and the books. */
  lemma AnsweredEffect(s: State, g: nat, p: nat, count: nat, heard: bool) returns (stage: PollStage)
    requires p < |s.parts|
    ensures stage.Top? || (stage.Got? && |stage.jobs| <= count)
    ensures var t := Answered(s, g, p, count, heard);
            t == s.(parts := t.parts, place := t.place, pollers := s.pollers[g := Poller(p, stage)]) && |t.parts| == |s.parts|
  {
    var jobs := Polled(s.parts[p], s.worker, p, count);
    stage := if heard && jobs != [] then Got(jobs) else Top;
  }

  /** poll(p): the poller quits, asks Redis, hands over what it got, or signals. */
  function NextPoll(s: State, a: Action): State
    requires PollAction(a)
  {
    var g := a.g;
    if g !in s.pollers || s.pollers[g].part >= |s.polling| || |s.delivered| != |s.polling| || |s.parts| != |s.polling| then s
    else
      var p, stage := s.pollers[g].part, s.pollers[g].stage;
      match a
      case PollTop(_) =>
        if !stage.Top? then s
        else if s.waiting == 0 || s.cancelled then s.(polling := s.polling[p := false], pollers := s.pollers - {g})
        else s.(pollers := s.pollers[g := Poller(p, Blocked(s.pollCount))])
      case PollReply(_, answer) =>
        if !stage.Blocked? then s
        else if answer.RequestLost? then s.(pollers := s.pollers[g := Poller(p, Top)])
        else Answered(s, g, p, stage.count, answer.Heard?)
      case PollAppend(_) =>
        if !stage.Got? then s
        else s.(buffered := s.buffered + stage.jobs,
                polling := s.polling[p := false],
                delivered := s.delivered[p := true],
                pollers := s.pollers[g := Poller(p, Signalling)],
                place := s.place + map l | l in stage.jobs :: InBuffer)
      case PollSignal(_) => if stage.Signalling? then s.(arrived := true, pollers := s.pollers - {g}) else s
  }

  /** Close, what happens in the partitions, and ExtendBatch's snapshot, renewals and pruning of the buffer. */
  function NextElse(s: State, a: Action): State {
    match a
    case Close => s.(closed := true)
    case Cancel => if s.closed then s.(cancelled := true) else s
    case Others(p, op) => Stepped(s, p, op)
    case Snapshot => s.(reported := {}, snapshot := set l | l in s.buffered)
    case Renew(l) => Renewed(s, l)
    case DropReported => Pruned(s)
    case _ => s
  }

  function Stepped(s: State, p: nat, op: Op): State {
    if p < |s.parts| then s.(parts := s.parts[p := Apply(s.parts[p], op)]) else s
  }

  /** One lease of the heartbeat's snapshot goes through extendBatchScript. */
  function Renewed(s: State, l: Lease): State {
    if l !in s.snapshot || !(0 <= l.partition < |s.parts|) then s
    else if Owns(s.parts[l.partition], l) then Stepped(s, l.partition, Extend(l))
    else s.(reported := s.reported + {l})
  }

  /** The heartbeat drops from the buffer what was reported lost. */
  function Pruned(s: State): State {
    s.(buffered := Keep(s.buffered, s.reported),
       snapshot := {}, reported := {},
       place := s.place + map l | l in s.buffered && l in s.reported :: Dropped)
  }

  function Next(s: State, a: Action, maxLimit: nat): State {
    if PollAction(a) then NextPoll(s, a) else if ClaimAction(a) then NextClaim(s, a, maxLimit) else NextElse(s, a)
  }

  function Exec(s: State, acts: seq<Action>, maxLimit: nat): State
    decreases |acts|
  {
    if acts == [] then s else Exec(Next(s, acts[0], maxLimit), acts[1..], maxLimit)
  }

  // ----- invariants

  predicate IsWaiting(c: ClaimStage) {
    c.Select? || c.Received? || c.TimedOut? || c.Leaving?
  }

  predicate CanClaim(p: Poller) {
    !p.stage.Signalling?
  }

  /** polling[p] is set exactly while one poller of partition p can still claim. */
  ghost predicate Owned(polling: seq<bool>, current: seq<nat>, pollers: map<nat, Poller>, next: nat)
  {
    && |current| == |polling|
    && (forall g :: g in pollers ==> g < next && pollers[g].part < |polling|)
    && (forall g :: g in pollers && CanClaim(pollers[g]) ==> polling[pollers[g].part] && current[pollers[g].part] == g)
    && (forall p :: 0 <= p < |polling| && polling[p] ==>
          current[p] in pollers && pollers[current[p]].part == p && CanClaim(pollers[current[p]]))
  }

  ghost predicate PollersOk(s: State) {
    |s.polling| > 0 && |s.delivered| == |s.polling| && Owned(s.polling, s.current, s.pollers, s.nextPoller)
  }

  predicate WaitOkCount(s: State) {
    s.waiting == if IsWaiting(s.claim) then 1 else 0
  }

  ghost predicate WaitOk(s: State)
    requires |s.delivered| == |s.polling|
  {
    && WaitOkCount(s)
    && (s.cancelled ==> s.closed)
    && (IsWaiting(s.claim) && !s.closed ==> forall p :: 0 <= p < |s.polling| ==> s.polling[p] || s.delivered[p])
  }

  ghost predicate SomeSignalling(s: State) {
    exists g :: g in s.pollers && s.pollers[g].stage.Signalling?
  }

  /** While the Claim sweeps or sits in its select, buffered jobs have a signal in the channel or on its way. */
  ghost predicate WakeupOk(s: State) {
    && (s.claim.Swept? || s.claim.Select? || s.claim.Received? || s.claim.TimedOut? ==> s.claim.limit >= 1)
    && ((s.claim.Swept? || s.claim.Select?) && s.buffered != [] ==> s.arrived || SomeSignalling(s))
  }

  lemma StartKeepsPollers(polling: seq<bool>, current: seq<nat>, pollers: map<nat, Poller>, next: nat, current': seq<nat>)
    requires Owned(polling, current, pollers, next) && |current'| == |polling|
    requires forall p :: 0 <= p < |polling| ==> current'[p] == if polling[p] then current[p] else next + p
    ensures Owned(seq(|polling|, _ => true), current', pollers + Spawned(polling, next, |polling|), next + |polling|)
  {
    var n := |polling|;
    var m := Spawned(polling, next, n);
    var all := pollers + m;
    forall p | 0 <= p < n
      ensures current'[p] in all && all[current'[p]].part == p && CanClaim(all[current'[p]])
    {
      if polling[p] {
        assert current[p] in pollers && current[p] !in m;
      } else {
        assert next + p in m;
      }
    }
    forall g | g in all
      ensures g < next + n && all[g].part < n
      ensures CanClaim(all[g]) ==> current'[all[g].part] == g
    {
      if g in m {
        assert !polling[g - next];
      }
    }
  }

  lemma ClaimKeepsPollers(s: State, a: Action, maxLimit: nat)
    requires PollersOk(s) && ClaimAction(a)
    ensures PollersOk(NextClaim(s, a, maxLimit))
    ensures |NextClaim(s, a, maxLimit).polling| == |s.polling|
  {
    if !a.EnterWait? {
      ClaimLeavesPollers(s, a, maxLimit);
    } else if s.claim.Swept? {
      StartingKeepsPollers(s, s.claim.limit);
    }
  }

  lemma StartingKeepsPollers(s: State, limit: nat)
    requires PollersOk(s)
    ensures PollersOk(StartPollers(s, limit)) && |StartPollers(s, limit).polling| == |s.polling|
  {
    StartKeepsPollers(s.polling, s.current, s.pollers, s.nextPoller, StartPollers(s, limit).current);
  }

  /** Only entering a wait touches the pollers. */
  lemma ClaimLeavesPollers(s: State, a: Action, maxLimit: nat)
    requires ClaimAction(a) && !a.EnterWait?
    ensures var t := NextClaim(s, a, maxLimit);
            (t.polling, t.delivered, t.current, t.pollers, t.nextPoller) == (s.polling, s.delivered, s.current, s.pollers, s.nextPoller)
  {
    if TakesBuffered(a) {
      TakingLeavesPollers(s, a, maxLimit);
    }
  }

  lemma TakingLeavesPollers(s: State, a: Action, maxLimit: nat)
    requires TakesBuffered(a)
    ensures var t := NextClaim(s, a, maxLimit);
            (t.polling, t.delivered, t.current, t.pollers, t.nextPoller) == (s.polling, s.delivered, s.current, s.pollers, s.nextPoller)
  {
  }

  /** A poller that stops claiming gives its partition's flag back. */
  lemma StopKeepsPollers(polling: seq<bool>, current: seq<nat>, pollers: map<nat, Poller>, next: nat, g: nat)
    requires Owned(polling, current, pollers, next) && g in pollers && CanClaim(pollers[g])
    ensures var p := pollers[g].part;
            && Owned(polling[p := false], current, pollers - {g}, next)
            && Owned(polling[p := false], current, pollers[g := Poller(p, Signalling)], next)
  {
  }

  lemma StageKeepsPollers(polling: seq<bool>, current: seq<nat>, pollers: map<nat, Poller>, next: nat, g: nat, stage: PollStage)
    requires Owned(polling, current, pollers, next) && g in pollers
    ensures CanClaim(pollers[g]) && !stage.Signalling? ==>
              Owned(polling, current, pollers[g := Poller(pollers[g].part, stage)], next)
    ensures !CanClaim(pollers[g]) ==> Owned(polling, current, pollers - {g}, next)
  {
  }

  lemma PollKeepsPollers(s: State, a: Action)
    requires PollersOk(s) && PollAction(a)
    ensures PollersOk(NextPoll(s, a)) && |NextPoll(s, a).polling| == |s.polling|
  {
    if a.g in s.pollers {
      StageKeepsPollers(s.polling, s.current, s.pollers, s.nextPoller, a.g, Top);
      StageKeepsPollers(s.polling, s.current, s.pollers, s.nextPoller, a.g, Blocked(s.pollCount));
      if Reads(s, a) {
        var stage := AnsweredEffect(s, a.g, s.pollers[a.g].part, s.pollers[a.g].stage.count, a.answer.Heard?);
        StageKeepsPollers(s.polling, s.current, s.pollers, s.nextPoller, a.g, stage);
      }
      if CanClaim(s.pollers[a.g]) {
        StopKeepsPollers(s.polling, s.current, s.pollers, s.nextPoller, a.g);
      }
    }
  }

  lemma {:induction false} PollersKept(s: State, a: Action, maxLimit: nat)
    requires PollersOk(s)
    ensures PollersOk(Next(s, a, maxLimit))
    ensures |Next(s, a, maxLimit).polling| == |s.polling|
  {
    if PollAction(a) {
      PollKeepsPollers(s, a);
    } else if ClaimAction(a) {
      ClaimKeepsPollers(s, a, maxLimit);
    } else {
      ElseEffect(s, a);
    }
  }

  /** A partition loses its poller only by delivering, unless nobody waits or the polls were stopped. */
  lemma PollKeepsCover(s: State, a: Action, p: nat)
    requires |s.polling| == |s.delivered| && p < |s.polling| && PollAction(a) && s.waiting > 0 && !s.cancelled
    requires s.polling[p] || s.delivered[p]
    ensures var t := NextPoll(s, a); |t.polling| == |t.delivered| == |s.polling| && (t.polling[p] || t.delivered[p])
  {
  }

  lemma PollLeavesWait(s: State, a: Action)
    requires PollAction(a)
    ensures var t := NextPoll(s, a);
            (t.claim, t.waiting, t.closed, t.cancelled, |t.polling|, |t.delivered|)
            == (s.claim, s.waiting, s.closed, s.cancelled, |s.polling|, |s.delivered|)
  {
    if Reads(s, a) {
      var stage := AnsweredEffect(s, a.g, s.pollers[a.g].part, s.pollers[a.g].stage.count, a.answer.Heard?);
    }
  }

  lemma PollKeepsWait(s: State, a: Action)
    requires |s.polling| == |s.delivered| && WaitOk(s) && PollAction(a)
    ensures |NextPoll(s, a).delivered| == |NextPoll(s, a).polling| && WaitOk(NextPoll(s, a))
  {
    var t := NextPoll(s, a);
    PollLeavesWait(s, a);
    if IsWaiting(s.claim) && !s.closed {
      forall p | 0 <= p < |s.polling|
        ensures |t.polling| == |t.delivered| == |s.polling| && (t.polling[p] || t.delivered[p])
      {
        PollKeepsCover(s, a, p);
      }
    }
  }

  lemma StartKeepsWait(s: State, limit: nat)
    requires |s.polling| == |s.delivered| == |s.current| && |s.polling| > 0 && WaitOk(s) && s.claim.Swept?
    ensures var t := StartPollers(s, limit); |t.delivered| == |t.polling| && WaitOk(t)
  {
  }

  function Flags(s: State): (seq<bool>, seq<bool>, bool, bool) {
    (s.polling, s.delivered, s.closed, s.cancelled)
  }

  predicate TakesBuffered(a: Action) {
    a.ClaimStart? || a.TakeReceived? || a.TakeTimedOut?
  }

  lemma TakingKeepsFlags(s: State, a: Action, maxLimit: nat)
    requires WaitOkCount(s) && TakesBuffered(a)
    ensures var t := NextClaim(s, a, maxLimit);
            && Flags(t) == Flags(s) && WaitOkCount(t) && (IsWaiting(t.claim) ==> IsWaiting(s.claim))
  {
  }

  /** The Claim steps other than starting pollers leave the partitions' flags alone. */
  lemma ClaimKeepsFlags(s: State, a: Action, maxLimit: nat)
    requires ClaimAction(a) && WaitOkCount(s) && !a.EnterWait? && !TakesBuffered(a)
    ensures var t := NextClaim(s, a, maxLimit);
            && Flags(t) == Flags(s) && WaitOkCount(t) && (IsWaiting(t.claim) ==> IsWaiting(s.claim))
  {
  }

  lemma ClaimKeepsWait(s: State, a: Action, maxLimit: nat)
    requires |s.polling| == |s.delivered| && WaitOk(s) && ClaimAction(a)
    ensures |NextClaim(s, a, maxLimit).delivered| == |NextClaim(s, a, maxLimit).polling| && WaitOk(NextClaim(s, a, maxLimit))
  {
    if TakesBuffered(a) {
      TakingKeepsFlags(s, a, maxLimit);
    } else if !a.EnterWait? {
      ClaimKeepsFlags(s, a, maxLimit);
    } else if s.claim.Swept? && |s.polling| > 0 && |s.current| == |s.polling| {
      StartKeepsWait(s, s.claim.limit);
    }
  }

  lemma {:induction false} WaitKept(s: State, a: Action, maxLimit: nat)
    requires |s.polling| == |s.delivered| && WaitOk(s)
    ensures |Next(s, a, maxLimit).delivered| == |Next(s, a, maxLimit).polling| && WaitOk(Next(s, a, maxLimit))
  {
    if PollAction(a) {
      PollKeepsWait(s, a);
    } else if ClaimAction(a) {
      ClaimKeepsWait(s, a, maxLimit);
    } else {
      ElseKeepsWait(s, a);
    }
  }

  lemma ElseKeepsWait(s: State, a: Action)
    requires |s.polling| == |s.delivered| && WaitOk(s) && !PollAction(a) && !ClaimAction(a)
    ensures |NextElse(s, a).delivered| == |NextElse(s, a).polling| && WaitOk(NextElse(s, a))
  {
    ElseEffect(s, a);
    var t := NextElse(s, a);
    assert (s.closed ==> t.closed) && (t.cancelled ==> t.closed);
  }

  lemma PollerStays(s: State, a: Action, maxLimit: nat, g: nat)
    requires g in s.pollers && g < s.nextPoller && !PollAction(a)
    ensures g in Next(s, a, maxLimit).pollers && Next(s, a, maxLimit).pollers[g] == s.pollers[g]
  {
    if !ClaimAction(a) {
      ElseEffect(s, a);
    } else if !a.EnterWait? {
      ClaimLeavesPollers(s, a, maxLimit);
    }
  }

  lemma SignalStays(s: State, a: Action, maxLimit: nat)
    requires SomeSignalling(s) && forall g :: g in s.pollers ==> g < s.nextPoller
    ensures a.Receive? || Next(s, a, maxLimit).arrived || SomeSignalling(Next(s, a, maxLimit))
  {
    var g :| g in s.pollers && s.pollers[g].stage.Signalling?;
    if PollAction(a) {
      if a.g != g {
        var t := NextPoll(s, a);
        assert g in t.pollers && t.pollers[g] == s.pollers[g];
      }
    } else {
      PollerStays(s, a, maxLimit, g);
    }
  }

  lemma PollLeavesClaim(s: State, a: Action)
    requires PollAction(a)
    ensures (NextPoll(s, a).claim, NextPoll(s, a).pollCount) == (s.claim, s.pollCount)
  {
  }

  /** Whoever appends to the buffer signals next. */
  lemma AppendersSignal(s: State, a: Action)
    requires PollAction(a)
    ensures NextPoll(s, a).buffered == s.buffered || SomeSignalling(NextPoll(s, a))
    ensures s.arrived ==> NextPoll(s, a).arrived
  {
    var t := NextPoll(s, a);
    if a.PollAppend? && t != s {
      assert a.g in t.pollers && t.pollers[a.g].stage.Signalling?;
    }
  }

  /** A Claim that goes on sweeping or waiting found the buffer empty, or left signal and buffer alone. */
  lemma ClaimLeavesSignal(s: State, a: Action, maxLimit: nat)
    requires ClaimAction(a) && WakeupOk(s)
    ensures var t := NextClaim(s, a, maxLimit);
            && (t.claim.Swept? || t.claim.Select? || t.claim.Received? || t.claim.TimedOut? ==> t.claim.limit >= 1)
            && (t.claim.Swept? || t.claim.Select? ==>
                  t.buffered == [] || (!a.Receive? && (s.claim.Swept? || s.claim.Select?) && (t.buffered, t.arrived) == (s.buffered, s.arrived))
                  || t == s)
  {
  }

  lemma PollKeepsWakeup(s: State, a: Action)
    requires WakeupOk(s) && PollAction(a)
    requires SomeSignalling(s) ==> NextPoll(s, a).arrived || SomeSignalling(NextPoll(s, a))
    ensures WakeupOk(NextPoll(s, a))
  {
    PollLeavesClaim(s, a);
    AppendersSignal(s, a);
  }

  lemma ElseKeepsWakeup(s: State, a: Action)
    requires WakeupOk(s) && !PollAction(a) && !ClaimAction(a)
    ensures WakeupOk(NextElse(s, a))
  {
    ElseEffect(s, a);
    var t := NextElse(s, a);
    assert SomeSignalling(s) ==> SomeSignalling(t);
  }

  /** What the Claim and the pollers share, apart from the buffer. */
  function Board(s: State): (ClaimStage, nat, bool, map<nat, Poller>, nat, nat, seq<nat>, seq<bool>, seq<bool>) {
    (s.claim, s.waiting, s.arrived, s.pollers, s.pollCount, s.nextPoller, s.current, s.polling, s.delivered)
  }

  lemma SteppedEffect(s: State, p: nat, op: Op)
    ensures var t := Stepped(s, p, op); Board(t) == Board(s) && t.buffered == s.buffered
  {
  }

  lemma RenewedEffect(s: State, l: Lease)
    ensures var t := Renewed(s, l); Board(t) == Board(s) && t.buffered == s.buffered
  {
    if 0 <= l.partition {
      SteppedEffect(s, l.partition, Extend(l));
    }
  }

  /** Nothing else starts or stops a poller, moves the Claim or fills the buffer. */
  lemma ElseEffect(s: State, a: Action)
    requires !PollAction(a) && !ClaimAction(a)
    ensures var t := NextElse(s, a);
            Board(t) == Board(s) && t.buffered == if a.DropReported? then Keep(s.buffered, s.reported) else s.buffered
  {
    match a
    case Others(p, op) => SteppedEffect(s, p, op);
    case Renew(l) => RenewedEffect(s, l);
    case _ =>
  }

  lemma {:induction false} WakeupKept(s: State, a: Action, maxLimit: nat)
    requires PollersOk(s) && WakeupOk(s)
    ensures WakeupOk(Next(s, a, maxLimit))
  {
    if SomeSignalling(s) {
      SignalStays(s, a, maxLimit);
    }
    if PollAction(a) {
      PollKeepsWakeup(s, a);
    } else if ClaimAction(a) {
      ClaimLeavesSignal(s, a, maxLimit);
    } else {
      ElseKeepsWakeup(s, a);
    }
  }

  // ----- how much can be buffered

  function Active(polling: seq<bool>): nat
    decreases |polling|
  {
    if polling == [] then 0 else (if polling[0] then 1 else 0) + Active(polling[1..])
  }

  lemma {:induction false} ActiveAfterStop(polling: seq<bool>, p: nat)
    requires p < |polling| && polling[p]
    ensures Active(polling[p := false]) == Active(polling) - 1
    decreases |polling|
  {
    if p > 0 {
      assert polling[p := false][1..] == polling[1..][p - 1 := false];
      ActiveAfterStop(polling[1..], p - 1);
    } else {
      assert polling[p := false][1..] == polling[1..];
    }
  }

  lemma {:induction false} ActiveAtMost(polling: seq<bool>)
    ensures Active(polling) <= |polling|
    ensures (forall p :: 0 <= p < |polling| ==> polling[p]) ==> Active(polling) == |polling|
    decreases |polling|
  {
    if polling != [] {
      ActiveAtMost(polling[1..]);
    }
  }

  lemma ShareIsMonotone(limit: nat, most: nat, n: nat)
    requires n > 0 && limit <= most
    ensures 1 <= Share(limit, n) <= Share(most, n)
  {
    DivKeepsOrder(limit + n - 1, most + n - 1, n);
  }

  lemma DivKeepsOrder(x: nat, y: nat, n: nat)
    requires n > 0 && x <= y
    ensures x / n <= y / n
  {
    var q, r := x / n, y / n;
    assert x == q * n + x % n && y == r * n + y % n;
    if q >= r + 1 {
      OneMoreMultiple(q, r, n);
    }
  }

  lemma OneMoreMultiple(q: nat, r: nat, n: nat)
    requires q >= r + 1
    ensures q * n >= r * n + n
  {
    var d := q - r - 1;
    assert q * n == r * n + n + d * n;
  }

  /** What pollers may still bring: at most c jobs each. */
  ghost predicate Modest(pollers: map<nat, Poller>, c: nat) {
    forall g :: g in pollers ==>
      match pollers[g].stage
      case Blocked(count) => count <= c
      case Got(jobs) => |jobs| <= c
      case _ => true
  }

  /** Room for what is buffered plus a share for every active poller; half of it is free right after an empty take. */
  predicate Room(buffered: nat, active: nat, n: nat, c: nat, swept: bool) {
    buffered + c * active <= (if swept then n * c else 2 * (n * c))
  }

  ghost predicate RoomOk(s: State, c: nat) {
    Room(|s.buffered|, Active(s.polling), |s.polling|, c, s.claim.Swept?)
  }

  ghost predicate BoundOk(s: State, maxLimit: nat)
    requires |s.polling| > 0
  {
    var c := Share(maxLimit, |s.polling|);
    && s.pollCount <= c && Modest(s.pollers, c) && RoomOk(s, c)
    && (s.claim.Swept? ==> s.claim.limit <= maxLimit)
  }

  lemma RoomFacts(active: nat, n: nat, c: nat)
    requires active <= n
    ensures Room(0, active, n, c, true)
    ensures forall b: nat, x: nat, swept: bool :: Room(b, x, n, c, swept) ==> Room(b, x, n, c, false)
    ensures forall b: nat :: Room(b, active, n, c, true) ==> Room(b, n, n, c, false)
    ensures forall b: nat, less: nat :: Room(b, active, n, c, false) && less <= b ==> Room(less, active, n, c, false)
  {
    assert c * active <= c * n == n * c;
  }

  lemma RoomAfterStop(b: nat, active: nat, n: nat, c: nat, swept: bool, more: nat)
    requires Room(b, active, n, c, swept) && active > 0 && more <= c
    ensures Room(b + more, active - 1, n, c, swept)
  {
    assert c * active == c * (active - 1) + c;
  }

  lemma PollEffect(s: State, a: Action, c: nat)
    requires PollersOk(s) && PollAction(a) && Modest(s.pollers, c)
    ensures var t := NextPoll(s, a);
            t.claim == s.claim
            && ((t.polling == s.polling && t.buffered == s.buffered)
                || (a.g in s.pollers && CanClaim(s.pollers[a.g]) && t.polling == s.polling[s.pollers[a.g].part := false]
                    && |s.buffered| <= |t.buffered| <= |s.buffered| + c))
  {
    if Reads(s, a) {
      var stage := AnsweredEffect(s, a.g, s.pollers[a.g].part, s.pollers[a.g].stage.count, a.answer.Heard?);
    }
  }

  /** The poller's read reached Redis. */
  predicate Reads(s: State, a: Action) {
    a.PollReply? && !a.answer.RequestLost? && a.g in s.pollers && s.pollers[a.g].part < |s.parts| && s.pollers[a.g].stage.Blocked?
  }

  /** A poller that hands over at most its share frees as much room as it uses. */
  lemma PollKeepsRoom(s: State, a: Action, c: nat)
    requires PollersOk(s) && PollAction(a) && RoomOk(s, c) && Modest(s.pollers, c)
    ensures RoomOk(NextPoll(s, a), c)
  {
    var t := NextPoll(s, a);
    PollEffect(s, a, c);
    if t.polling != s.polling || t.buffered != s.buffered {
      var p := s.pollers[a.g].part;
      assert s.polling[p];
      ActiveAfterStop(s.polling, p);
      RoomAfterStop(|s.buffered|, Active(s.polling), |s.polling|, c, s.claim.Swept?, |t.buffered| - |s.buffered|);
    }
  }

  lemma ClaimEffect(s: State, a: Action, maxLimit: nat)
    requires ClaimAction(a) && PollersOk(s) && WakeupOk(s)
    ensures var t := NextClaim(s, a, maxLimit);
            || t == s
            || (t.polling == s.polling && |t.buffered| <= |s.buffered| && !t.claim.Swept?)
            || (t.polling == s.polling && t.buffered == [] && t.claim.Swept? && t.claim.limit <= maxLimit)
            || (a.EnterWait? && s.claim.Swept? && t == StartPollers(s, s.claim.limit))
  {
    if !a.EnterWait? {
      ClaimLeavesPollers(s, a, maxLimit);
    }
  }

  lemma ClaimKeepsRoom(s: State, a: Action, maxLimit: nat, c: nat)
    requires PollersOk(s) && ClaimAction(a) && RoomOk(s, c) && WakeupOk(s)
    ensures RoomOk(NextClaim(s, a, maxLimit), c)
  {
    var t := NextClaim(s, a, maxLimit);
    ActiveAtMost(s.polling);
    ActiveAtMost(t.polling);
    RoomFacts(Active(s.polling), |s.polling|, c);
    ClaimEffect(s, a, maxLimit);
  }

  lemma {:induction false} KeepFacts(xs: seq<Lease>, gone: set<Lease>)
    ensures |Keep(xs, gone)| <= |xs|
    ensures forall l :: l in Keep(xs, gone) <==> l in xs && l !in gone
    ensures Distinct(xs) ==> Distinct(Keep(xs, gone))
    decreases |xs|
  {
    if xs != [] {
      KeepFacts(xs[1..], gone);
      var rest := Keep(xs[1..], gone);
      assert xs == [xs[0]] + xs[1..];
      forall l
        ensures l in Keep(xs, gone) <==> l in xs && l !in gone
      {
        assert l in xs <==> l == xs[0] || l in xs[1..];
      }
      if Distinct(xs) {
        forall i | 0 <= i < |rest|
          ensures rest[i] != xs[0]
        {
          assert rest[i] in rest;
        }
      }
    }
  }

  lemma PollKeepsModest(s: State, a: Action, c: nat)
    requires Modest(s.pollers, c) && s.pollCount <= c && PollAction(a)
    ensures Modest(NextPoll(s, a).pollers, c)
  {
    if Reads(s, a) {
      var stage := AnsweredEffect(s, a.g, s.pollers[a.g].part, s.pollers[a.g].stage.count, a.answer.Heard?);
    }
  }

  lemma ModestKept(s: State, a: Action, maxLimit: nat, c: nat)
    requires Modest(s.pollers, c) && s.pollCount <= c
    ensures Modest(Next(s, a, maxLimit).pollers, c)
  {
    if PollAction(a) {
      PollKeepsModest(s, a, c);
    } else if a.EnterWait? {
      assert Modest(s.pollers + Spawned(s.polling, s.nextPoller, |s.polling|), c);
    } else if ClaimAction(a) {
      ClaimLeavesPollers(s, a, maxLimit);
    }
  }

  lemma CountKept(s: State, a: Action, maxLimit: nat)
    requires PollersOk(s) && WakeupOk(s) && BoundOk(s, maxLimit)
    ensures var t := Next(s, a, maxLimit);
            t.pollCount <= Share(maxLimit, |s.polling|) && (t.claim.Swept? ==> t.claim.limit <= maxLimit)
  {
    if PollAction(a) {
      PollLeavesClaim(s, a);
    } else if ClaimAction(a) {
      if s.claim.Swept? {
        ShareIsMonotone(s.claim.limit, maxLimit, |s.polling|);
      }
    } else {
      ElseEffect(s, a);
    }
  }

  lemma RoomKept(s: State, a: Action, maxLimit: nat, c: nat)
    requires PollersOk(s) && WakeupOk(s) && RoomOk(s, c) && Modest(s.pollers, c)
    ensures RoomOk(Next(s, a, maxLimit), c)
  {
    if PollAction(a) {
      PollKeepsRoom(s, a, c);
    } else if ClaimAction(a) {
      ClaimKeepsRoom(s, a, maxLimit, c);
    } else {
      ElseEffect(s, a);
      KeepFacts(s.buffered, s.reported);
    }
  }

  lemma {:induction false} BoundKept(s: State, a: Action, maxLimit: nat)
    requires PollersOk(s) && WakeupOk(s) && BoundOk(s, maxLimit)
    ensures |Next(s, a, maxLimit).polling| > 0 && BoundOk(Next(s, a, maxLimit), maxLimit)
  {
    var c := Share(maxLimit, |s.polling|);
    PollersKept(s, a, maxLimit);
    CountKept(s, a, maxLimit);
    ModestKept(s, a, maxLimit, c);
    RoomKept(s, a, maxLimit, c);
  }

  // ----- where buffered leases go

  /** The buffer and the handed-out jobs are where the books say, each lease once. */
  ghost predicate BooksOk(buffered: seq<Lease>, handed: seq<Lease>, place: map<Lease, Place>) {
    && Distinct(buffered) && Distinct(handed)
    && (forall l :: l in buffered <==> l in place && place[l] == InBuffer)
    && (forall l :: l in handed <==> l in place && place[l] == HandedOut)
  }

  ghost predicate HoldsReply(pollers: map<nat, Poller>, g: nat, l: Lease) {
    g in pollers && pollers[g].stage.Got? && l in pollers[g].stage.jobs
  }

  /** So are the replies pollers have not handed over yet. */
  ghost predicate RepliesOk(pollers: map<nat, Poller>, place: map<Lease, Place>) {
    && (forall g, l :: HoldsReply(pollers, g, l) ==> l in place && place[l] == InReply(g))
    && (forall l :: l in place && place[l].InReply? ==> HoldsReply(pollers, place[l].poller, l))
    && (forall g :: g in pollers && pollers[g].stage.Got? ==> Distinct(pollers[g].stage.jobs))
  }

  /** Every lease a poller was given is in exactly one place, and none appears twice there. */
  ghost predicate PlacesOk(s: State) {
    BooksOk(s.buffered, s.handed, s.place) && RepliesOk(s.pollers, s.place)
  }

  // ----- what the partitions say about these leases

  ghost predicate Sound(parts: seq<Stream>) {
    forall p :: 0 <= p < |parts| ==> Shape(parts[p])
  }

  ghost predicate LostIn(parts: seq<Stream>, l: Lease) {
    0 <= l.partition < |parts| && Lost(parts[l.partition], l)
  }

  /** The lease was given out by its partition: it is current, or lost. */
  ghost predicate IssuedIn(parts: seq<Stream>, l: Lease) {
    0 <= l.partition < |parts| && (Owns(parts[l.partition], l) || Lost(parts[l.partition], l))
  }

  /** What the partitions say about the leases in the books, the heartbeat's snapshot and the losses reported to it. */
  ghost predicate Known(parts: seq<Stream>, place: map<Lease, Place>, snapshot: set<Lease>, reported: set<Lease>) {
    && Sound(parts)
    && (forall l :: l in place ==> IssuedIn(parts, l))
    && (forall l :: l in place && place[l] == Dropped ==> LostIn(parts, l))
    && (forall l :: l in snapshot ==> l in place)
    && (forall l :: l in reported ==> l in place && LostIn(parts, l))
  }

  ghost predicate LeasesOk(s: State) {
    |s.parts| == |s.polling| && Known(s.parts, s.place, s.snapshot, s.reported)
  }

  /** Whatever runs in a partition, its leases stay current or are lost for good. */
  lemma RunKeepsLeases(parts: seq<Stream>, p: nat, ops: seq<Op>)
    requires Sound(parts) && p < |parts|
    ensures var next := parts[p := Run(parts[p], ops)];
            && Sound(next)
            && (forall l :: IssuedIn(parts, l) ==> IssuedIn(next, l))
            && (forall l :: LostIn(parts, l) ==> LostIn(next, l))
  {
    ShapeAlways(parts[p], ops);
    forall l: Lease | IssuedIn(parts, l) && l.partition == p
      ensures Owns(Run(parts[p], ops), l) || Lost(Run(parts[p], ops), l)
    {
      OwnedOrLostAfterRun(parts[p], ops, l);
    }
    forall l: Lease | LostIn(parts, l) && l.partition == p
      ensures Lost(Run(parts[p], ops), l)
    {
      LostForever(parts[p], ops, l);
    }
  }

  lemma StepKeepsLeases(parts: seq<Stream>, p: nat, op: Op)
    requires Sound(parts) && p < |parts|
    ensures var next := parts[p := Apply(parts[p], op)];
            && Sound(next)
            && (forall l :: IssuedIn(parts, l) ==> IssuedIn(next, l))
            && (forall l :: LostIn(parts, l) ==> LostIn(next, l))
  {
    RunKeepsLeases(parts, p, [op]);
    assert Run(parts[p], [op]) == Run(Apply(parts[p], op), []);
  }

  /** The first delivery of a read. */
  lemma ReadOneFacts(q: Stream, w: WorkerID, p: nat)
    requires Shape(q) && Ready(q) != {}
    ensures var e, next := MinOf(Ready(q)), Apply(q, ReadOne(w));
            && e in q.entries && q.lastDelivered < e && next.lastDelivered == e && Shape(next)
            && Owns(next, Lease(e, w, 1, p))
  {
    ReadsOldestFirst(q);
    ShapeKept(q, ReadOne(w));
  }

  lemma ConsDistinct(l: Lease, rest: seq<Lease>, bound: nat)
    requires Distinct(rest) && l.messageId <= bound && forall x :: x in rest ==> bound < x.messageId
    ensures Distinct([l] + rest)
  {
    forall i | 0 <= i < |rest|
      ensures rest[i] != l
    {
      assert rest[i] in rest;
    }
  }

  /** A read delivers entries past the mark, each once. */
  lemma {:induction false} PolledIsNew(q: Stream, w: WorkerID, p: nat, n: nat)
    requires Shape(q)
    ensures var jobs := Polled(q, w, p, n);
            (forall l :: l in jobs ==> l.partition == p && q.lastDelivered < l.messageId) && Distinct(jobs)
    decreases n
  {
    if n > 0 && Ready(q) != {} {
      var e, next := MinOf(Ready(q)), Apply(q, ReadOne(w));
      ReadOneFacts(q, w, p);
      PolledIsNew(next, w, p, n - 1);
      ConsDistinct(Lease(e, w, 1, p), Polled(next, w, p, n - 1), e);
    }
  }

  lemma ReadOpsStep(q: Stream, w: WorkerID, n: nat)
    requires n > 0
    ensures Run(q, ReadOps(w, n)) == Run(Apply(q, ReadOne(w)), ReadOps(w, n - 1))
  {
    assert ReadOps(w, n)[0] == ReadOne(w) && ReadOps(w, n)[1..] == ReadOps(w, n - 1);
  }

  /** Every lease it gives out is current, or was lost since. */
  lemma {:induction false} PolledIsIssued(q: Stream, w: WorkerID, p: nat, n: nat, l: Lease)
    requires Shape(q) && l in Polled(q, w, p, n)
    ensures Owns(Run(q, ReadOps(w, n)), l) || Lost(Run(q, ReadOps(w, n)), l)
    decreases n
  {
    var e, next := MinOf(Ready(q)), Apply(q, ReadOne(w));
    ReadOneFacts(q, w, p);
    ReadOpsStep(q, w, n);
    if l in Polled(next, w, p, n - 1) {
      PolledIsIssued(next, w, p, n - 1, l);
    } else {
      assert l == Lease(e, w, 1, p);
      OwnedOrLostAfterRun(next, ReadOps(w, n - 1), l);
    }
  }

  /** A lease given out before is not past its partition's mark. */
  lemma IssuedIsBehindMark(parts: seq<Stream>, l: Lease)
    requires Sound(parts) && IssuedIn(parts, l)
    ensures l.messageId <= parts[l.partition].lastDelivered
  {
  }

  lemma ReplyIsNew(parts: seq<Stream>, place: map<Lease, Place>, w: WorkerID, p: nat, n: nat)
    requires Sound(parts) && p < |parts| && forall l :: l in place ==> IssuedIn(parts, l)
    ensures forall l :: l in Polled(parts[p], w, p, n) ==> l !in place
  {
    PolledIsNew(parts[p], w, p, n);
    forall l | l in place
      ensures l !in Polled(parts[p], w, p, n)
    {
      IssuedIsBehindMark(parts, l);
    }
  }

  lemma JoinDistinct<T>(a: seq<T>, b: seq<T>)
    requires Distinct(a) && Distinct(b) && forall x :: x in a ==> x !in b
    ensures Distinct(a + b)
  {
    forall i, k | 0 <= i < k < |a + b|
      ensures (a + b)[i] != (a + b)[k]
    {
      if i < |a| <= k {
        assert a[i] in a && b[k - |a|] in b;
      }
    }
  }

  lemma SplitDistinct<T>(xs: seq<T>, n: nat)
    requires Distinct(xs) && n <= |xs|
    ensures Distinct(xs[..n]) && Distinct(xs[n..])
    ensures forall x :: x in xs[..n] ==> x in xs && x !in xs[n..]
    ensures forall x :: x in xs <==> x in xs[..n] || x in xs[n..]
  {
    assert xs == xs[..n] + xs[n..];
    forall x | x in xs[..n]
      ensures x !in xs[n..]
    {
      var i :| 0 <= i < n && xs[..n][i] == x;
      assert forall k :: 0 <= k < |xs[n..]| ==> xs[n..][k] == xs[n + k];
    }
  }

  lemma TakeKeepsPlaces(s: State, limit: nat)
    requires PlacesOk(s)
    ensures PlacesOk(Take(s, limit))
  {
    var n := TakeSize(s, limit);
    SplitDistinct(s.buffered, n);
    JoinDistinct(s.handed, s.buffered[..n]);
  }

  /** Leases new to the books join them as a poller's reply. */
  lemma ReplyKeepsPlaces(pollers: map<nat, Poller>, place: map<Lease, Place>, g: nat, jobs: seq<Lease>)
    requires RepliesOk(pollers, place) && g in pollers && !pollers[g].stage.Got?
    requires Distinct(jobs) && forall l :: l in jobs ==> l !in place
    ensures RepliesOk(pollers[g := Poller(pollers[g].part, Got(jobs))], place + map l | l in jobs :: InReply(g))
  {
    var t := pollers[g := Poller(pollers[g].part, Got(jobs))];
    forall h, l | HoldsReply(t, h, l)
      ensures h == g ==> l in jobs
      ensures h != g ==> HoldsReply(pollers, h, l)
    {
    }
    forall l | l in place && place[l].InReply?
      ensures HoldsReply(t, place[l].poller, l)
    {
      assert HoldsReply(pollers, place[l].poller, l);
    }
    forall l | l in jobs
      ensures HoldsReply(t, g, l)
    {
    }
  }

  /** A poller that holds no reply can change stage or leave. */
  lemma QuietKeepsReplies(pollers: map<nat, Poller>, place: map<Lease, Place>, g: nat, stage: PollStage)
    requires RepliesOk(pollers, place) && g in pollers && !pollers[g].stage.Got? && !stage.Got?
    ensures RepliesOk(pollers[g := Poller(pollers[g].part, stage)], place) && RepliesOk(pollers - {g}, place)
  {
    var t, u := pollers[g := Poller(pollers[g].part, stage)], pollers - {g};
    forall h, l
      ensures HoldsReply(t, h, l) <==> HoldsReply(pollers, h, l)
      ensures HoldsReply(u, h, l) <==> HoldsReply(pollers, h, l)
    {
    }
  }

  /** Moving leases that no poller holds leaves the replies alone. */
  lemma MovesKeepReplies(pollers: map<nat, Poller>, place: map<Lease, Place>, moved: map<Lease, Place>)
    requires RepliesOk(pollers, place)
    requires forall l :: l in moved ==> l in place && !place[l].InReply? && !moved[l].InReply?
    ensures RepliesOk(pollers, place + moved)
  {
  }

  lemma AppendKeepsReplies(pollers: map<nat, Poller>, place: map<Lease, Place>, g: nat)
    requires RepliesOk(pollers, place) && g in pollers && pollers[g].stage.Got?
    ensures RepliesOk(pollers[g := Poller(pollers[g].part, Signalling)],
                      place + map l | l in pollers[g].stage.jobs :: InBuffer)
  {
    var t := pollers[g := Poller(pollers[g].part, Signalling)];
    var jobs := pollers[g].stage.jobs;
    forall h, l | HoldsReply(t, h, l)
      ensures l !in jobs && h != g && HoldsReply(pollers, h, l)
    {
      assert HoldsReply(pollers, h, l);
      assert l in jobs ==> HoldsReply(pollers, g, l);
    }
    forall l | l in place && place[l].InReply? && l !in jobs
      ensures HoldsReply(t, place[l].poller, l)
    {
      assert HoldsReply(pollers, place[l].poller, l);
    }
  }

  lemma AppendKeepsBooks(s: State, g: nat)
    requires PlacesOk(s) && g in s.pollers && s.pollers[g].stage.Got?
    ensures var jobs := s.pollers[g].stage.jobs;
            BooksOk(s.buffered + jobs, s.handed, s.place + map l | l in jobs :: InBuffer)
  {
    var jobs := s.pollers[g].stage.jobs;
    forall l | l in jobs
      ensures l in s.place && s.place[l] == InReply(g)
    {
      assert HoldsReply(s.pollers, g, l);
    }
    JoinDistinct(s.buffered, jobs);
  }

  lemma AnswerKeepsPlaces(s: State, g: nat, p: nat, count: nat, heard: bool)
    requires PlacesOk(s) && LeasesOk(s) && g in s.pollers && s.pollers[g] == Poller(p, Blocked(count)) && p < |s.parts|
    ensures PlacesOk(Answered(s, g, p, count, heard))
  {
    var jobs := Polled(s.parts[p], s.worker, p, count);
    ReplyIsNew(s.parts, s.place, s.worker, p, count);
    PolledIsNew(s.parts[p], s.worker, p, count);
    if heard && jobs != [] {
      ReplyKeepsPlaces(s.pollers, s.place, g, jobs);
      ReplyKeepsBooks(s.buffered, s.handed, s.place, jobs, g);
    } else {
      QuietKeepsReplies(s.pollers, s.place, g, Top);
    }
  }

  lemma ReplyKeepsBooks(buffered: seq<Lease>, handed: seq<Lease>, place: map<Lease, Place>, jobs: seq<Lease>, g: nat)
    requires BooksOk(buffered, handed, place) && forall l :: l in jobs ==> l !in place
    ensures BooksOk(buffered, handed, place + map l | l in jobs :: InReply(g))
  {
  }

  lemma PollKeepsPlaces(s: State, a: Action)
    requires PlacesOk(s) && LeasesOk(s) && PollAction(a)
    ensures PlacesOk(NextPoll(s, a))
  {
    var t := NextPoll(s, a);
    if t != s {
      var p, stage := s.pollers[a.g].part, s.pollers[a.g].stage;
      if a.PollReply? {
        AnswerKeepsPlaces(s, a.g, p, stage.count, a.answer.Heard?);
        QuietKeepsReplies(s.pollers, s.place, a.g, Top);
      } else if a.PollAppend? {
        AppendKeepsReplies(s.pollers, s.place, a.g);
        AppendKeepsBooks(s, a.g);
      } else {
        QuietKeepsReplies(s.pollers, s.place, a.g, Top);
        QuietKeepsReplies(s.pollers, s.place, a.g, Blocked(s.pollCount));
      }
    }
  }

  lemma DropKeepsPlaces(s: State)
    requires PlacesOk(s)
    ensures PlacesOk(Pruned(s))
  {
    KeepFacts(s.buffered, s.reported);
    MovesKeepReplies(s.pollers, s.place, map l | l in s.buffered && l in s.reported :: Dropped);
  }

  lemma StartKeepsReplies(s: State, limit: nat)
    requires PollersOk(s) && RepliesOk(s.pollers, s.place)
    ensures RepliesOk(StartPollers(s, limit).pollers, s.place)
  {
    var m := Spawned(s.polling, s.nextPoller, |s.polling|);
    forall g, l
      ensures HoldsReply(s.pollers + m, g, l) <==> HoldsReply(s.pollers, g, l)
    {
    }
  }

  lemma ClaimKeepsPlaces(s: State, a: Action, maxLimit: nat)
    requires PollersOk(s) && PlacesOk(s) && ClaimAction(a)
    ensures PlacesOk(NextClaim(s, a, maxLimit))
  {
    if a.ClaimStart? {
      TakeKeepsPlaces(s, a.limit);
    } else if (a.TakeReceived? && s.claim.Received?) || (a.TakeTimedOut? && s.claim.TimedOut?) {
      TakeKeepsPlaces(s, s.claim.limit);
    } else if a.EnterWait? && s.claim.Swept? {
      StartKeepsReplies(s, s.claim.limit);
    }
  }

  lemma {:induction false} PlacesKept(s: State, a: Action, maxLimit: nat)
    requires PollersOk(s) && PlacesOk(s) && LeasesOk(s)
    ensures PlacesOk(Next(s, a, maxLimit))
  {
    if PollAction(a) {
      PollKeepsPlaces(s, a);
    } else if ClaimAction(a) {
      ClaimKeepsPlaces(s, a, maxLimit);
    } else if a.DropReported? {
      DropKeepsPlaces(s);
    }
  }

  // ----- leases through every step

  lemma RunKeepsKnown(parts: seq<Stream>, place: map<Lease, Place>, snapshot: set<Lease>, reported: set<Lease>, p: nat, ops: seq<Op>)
    requires Known(parts, place, snapshot, reported) && p < |parts|
    ensures Known(parts[p := Run(parts[p], ops)], place, snapshot, reported)
  {
    RunKeepsLeases(parts, p, ops);
  }

  lemma StepKeepsKnown(parts: seq<Stream>, place: map<Lease, Place>, snapshot: set<Lease>, reported: set<Lease>, p: nat, op: Op)
    requires Known(parts, place, snapshot, reported) && p < |parts|
    ensures Known(parts[p := Apply(parts[p], op)], place, snapshot, reported)
  {
    StepKeepsLeases(parts, p, op);
  }

  lemma ReplyKeepsKnown(parts: seq<Stream>, place: map<Lease, Place>, snapshot: set<Lease>, reported: set<Lease>, w: WorkerID, p: nat, n: nat, g: nat)
    requires Known(parts, place, snapshot, reported) && p < |parts|
    ensures Known(parts[p := Run(parts[p], ReadOps(w, n))], place + map l | l in Polled(parts[p], w, p, n) :: InReply(g), snapshot, reported)
  {
    PolledIsNew(parts[p], w, p, n);
    ReplyIsNew(parts, place, w, p, n);
    RunKeepsKnown(parts, place, snapshot, reported, p, ReadOps(w, n));
    var next := parts[p := Run(parts[p], ReadOps(w, n))];
    forall l | l in Polled(parts[p], w, p, n)
      ensures IssuedIn(next, l)
    {
      PolledIsIssued(parts[p], w, p, n, l);
    }
    JoinsKnown(next, place, snapshot, reported, map l | l in Polled(parts[p], w, p, n) :: InReply(g));
  }

  lemma JoinsKnown(parts: seq<Stream>, place: map<Lease, Place>, snapshot: set<Lease>, reported: set<Lease>, joined: map<Lease, Place>)
    requires Known(parts, place, snapshot, reported)
    requires forall l :: l in joined ==> IssuedIn(parts, l) && joined[l] != Dropped
    ensures Known(parts, place + joined, snapshot, reported)
  {
  }

  /** Moving leases about keeps this, as long as only lost ones are dropped. */
  lemma MovesKeepKnown(parts: seq<Stream>, place: map<Lease, Place>, snapshot: set<Lease>, reported: set<Lease>, moved: map<Lease, Place>)
    requires Known(parts, place, snapshot, reported)
    requires forall l :: l in moved ==> l in place && (moved[l] == Dropped ==> LostIn(parts, l))
    ensures Known(parts, place + moved, snapshot, reported)
  {
  }

  lemma AnswerKeepsLeases(s: State, g: nat, p: nat, count: nat, heard: bool)
    requires LeasesOk(s) && p < |s.parts|
    ensures LeasesOk(Answered(s, g, p, count, heard))
  {
    RunKeepsKnown(s.parts, s.place, s.snapshot, s.reported, p, ReadOps(s.worker, count));
    ReplyKeepsKnown(s.parts, s.place, s.snapshot, s.reported, s.worker, p, count, g);
  }

  lemma PollKeepsLeases(s: State, a: Action)
    requires PlacesOk(s) && LeasesOk(s) && PollAction(a)
    ensures LeasesOk(NextPoll(s, a))
  {
    if NextPoll(s, a) != s {
      var p, stage := s.pollers[a.g].part, s.pollers[a.g].stage;
      if a.PollReply? {
        AnswerKeepsLeases(s, a.g, p, stage.count, a.answer.Heard?);
      } else if a.PollAppend? {
        forall l | l in stage.jobs
          ensures l in s.place
        {
          assert HoldsReply(s.pollers, a.g, l);
        }
        MovesKeepKnown(s.parts, s.place, s.snapshot, s.reported, map l | l in stage.jobs :: InBuffer);
      }
    }
  }

  /** The Claim's steps leave the partitions and the heartbeat alone. */
  lemma ClaimLeavesParts(s: State, a: Action, maxLimit: nat)
    requires ClaimAction(a)
    ensures var t := NextClaim(s, a, maxLimit);
            && (t.parts, t.snapshot, t.reported, t.worker) == (s.parts, s.snapshot, s.reported, s.worker)
            && (t.place == s.place || exists limit :: t.place == Take(s, limit).place)
  {
    match a
    case ClaimStart(limit) => assert Take(s, limit).place == Take(s, limit).place;
    case TakeReceived => assert s.claim.Received? ==> Take(s, s.claim.limit).place == Take(s, s.claim.limit).place;
    case TakeTimedOut => assert s.claim.TimedOut? ==> Take(s, s.claim.limit).place == Take(s, s.claim.limit).place;
    case _ =>
  }

  lemma ClaimKeepsLeases(s: State, a: Action, maxLimit: nat)
    requires PollersOk(s) && PlacesOk(s) && LeasesOk(s) && ClaimAction(a)
    ensures LeasesOk(NextClaim(s, a, maxLimit))
  {
    ClaimLeavesParts(s, a, maxLimit);
    ClaimKeepsPollers(s, a, maxLimit);
    var t := NextClaim(s, a, maxLimit);
    if t.place != s.place {
      var limit :| t.place == Take(s, limit).place;
      var n := TakeSize(s, limit);
      assert forall l :: l in s.buffered[..n] ==> l in s.buffered;
      MovesKeepKnown(s.parts, s.place, s.snapshot, s.reported, map l | l in s.buffered[..n] :: HandedOut);
    }
  }

  lemma ElseKeepsLeases(s: State, a: Action)
    requires LeasesOk(s) && BooksOk(s.buffered, s.handed, s.place) && !PollAction(a) && !ClaimAction(a)
    ensures LeasesOk(NextElse(s, a))
  {
    match a
    case Others(p, op) => SteppedKeepsLeases(s, p, op);
    case Renew(l) => RenewKeepsLeases(s, l);
    case DropReported => DropKeepsLeases(s);
    case _ =>
  }

  lemma SteppedKeepsLeases(s: State, p: nat, op: Op)
    requires LeasesOk(s)
    ensures LeasesOk(Stepped(s, p, op))
  {
    if p < |s.parts| {
      StepKeepsKnown(s.parts, s.place, s.snapshot, s.reported, p, op);
    }
  }

  /** A renewal reports a lease only when its partition has taken it away. */
  lemma RenewKeepsLeases(s: State, l: Lease)
    requires LeasesOk(s)
    ensures LeasesOk(Renewed(s, l))
  {
    if l in s.snapshot {
      if Owns(s.parts[l.partition], l) {
        SteppedKeepsLeases(s, l.partition, Extend(l));
      } else {
        ReportKeepsKnown(s.parts, s.place, s.snapshot, s.reported, l);
      }
    }
  }

  lemma ReportKeepsKnown(parts: seq<Stream>, place: map<Lease, Place>, snapshot: set<Lease>, reported: set<Lease>, l: Lease)
    requires Known(parts, place, snapshot, reported) && l in snapshot && !Owns(parts[l.partition], l)
    ensures Known(parts, place, snapshot, reported + {l})
  {
  }

  lemma DropKeepsLeases(s: State)
    requires LeasesOk(s) && BooksOk(s.buffered, s.handed, s.place)
    ensures LeasesOk(Pruned(s))
  {
    MovesKeepKnown(s.parts, s.place, s.snapshot, s.reported, map l | l in s.buffered && l in s.reported :: Dropped);
  }

  lemma {:induction false} LeasesKept(s: State, a: Action, maxLimit: nat)
    requires PollersOk(s) && PlacesOk(s) && LeasesOk(s)
    ensures LeasesOk(Next(s, a, maxLimit))
  {
    if PollAction(a) {
      PollKeepsLeases(s, a);
    } else if ClaimAction(a) {
      ClaimKeepsLeases(s, a, maxLimit);
    } else {
      ElseKeepsLeases(s, a);
    }
  }

  // ----- every interleaving

  ghost predicate LongPollInv(s: State, maxLimit: nat) {
    PollersOk(s) && WaitOk(s) && WakeupOk(s) && BoundOk(s, maxLimit) && PlacesOk(s) && LeasesOk(s)
  }

  lemma InitialOk(parts: seq<Stream>, worker: WorkerID, maxLimit: nat)
    requires |parts| > 0 && Sound(parts)
    ensures LongPollInv(Initial(parts, worker), maxLimit)
  {
    var s, n := Initial(parts, worker), |parts|;
    ActiveAtMost(s.polling);
    ShareIsMonotone(0, maxLimit, n);
    RoomFacts(Active(s.polling), n, Share(maxLimit, n));
  }

  lemma {:induction false} LongPollInvKept(s: State, a: Action, maxLimit: nat)
    requires LongPollInv(s, maxLimit)
    ensures LongPollInv(Next(s, a, maxLimit), maxLimit)
  {
    PollersKept(s, a, maxLimit);
    WaitKept(s, a, maxLimit);
    WakeupKept(s, a, maxLimit);
    BoundKept(s, a, maxLimit);
    PlacesKept(s, a, maxLimit);
    LeasesKept(s, a, maxLimit);
  }

  lemma {:induction false} LongPollInvAlways(s: State, acts: seq<Action>, maxLimit: nat)
    requires LongPollInv(s, maxLimit)
    ensures LongPollInv(Exec(s, acts, maxLimit), maxLimit)
    ensures |Exec(s, acts, maxLimit).polling| == |s.polling|
    decreases |acts|
  {
    if acts != [] {
      LongPollInvKept(s, acts[0], maxLimit);
      PollersKept(s, acts[0], maxLimit);
      LongPollInvAlways(Next(s, acts[0], maxLimit), acts[1..], maxLimit);
    }
  }

  /** At most one poller per partition can still claim. */
  lemma {:induction false} OnePollerPerPartition(parts: seq<Stream>, w: WorkerID, acts: seq<Action>, maxLimit: nat, g: nat, h: nat)
    requires |parts| > 0 && Sound(parts)
    requires var s := Exec(Initial(parts, w), acts, maxLimit);
             g in s.pollers && h in s.pollers && s.pollers[g].part == s.pollers[h].part
             && CanClaim(s.pollers[g]) && CanClaim(s.pollers[h])
    ensures g == h
  {
    InitialOk(parts, w, maxLimit);
    LongPollInvAlways(Initial(parts, w), acts, maxLimit);
  }

  /** While the Claim waits and the backend is open, every partition has a live poller unless it delivered since the wait began. */
  lemma {:induction false} EveryPartitionIsPolled(parts: seq<Stream>, w: WorkerID, acts: seq<Action>, maxLimit: nat, p: nat)
    requires p < |parts| && Sound(parts) && var s := Exec(Initial(parts, w), acts, maxLimit); IsWaiting(s.claim) && !s.closed
    ensures var s := Exec(Initial(parts, w), acts, maxLimit);
            |s.delivered| == |s.current| == |parts|
            && (s.delivered[p] || (s.current[p] in s.pollers && s.pollers[s.current[p]].part == p && CanClaim(s.pollers[s.current[p]])))
  {
    InitialOk(parts, w, maxLimit);
    LongPollInvAlways(Initial(parts, w), acts, maxLimit);
  }

  /**
   No lost wakeup: jobs buffered while the Claim sits in its select have a
   signal waiting or on its way, and a signal received makes the Claim leave
   with jobs unless none is buffered.
   */
  lemma {:induction false} NoLostWakeup(parts: seq<Stream>, w: WorkerID, acts: seq<Action>, maxLimit: nat)
    requires |parts| > 0 && Sound(parts)
    ensures var s := Exec(Initial(parts, w), acts, maxLimit);
            && (s.claim.Select? && s.buffered != [] ==> s.arrived || SomeSignalling(s))
            && (s.claim.Received? ==>
                  var t := Next(s, TakeReceived, maxLimit);
                  if s.buffered == [] then t.claim.Select? else t.claim == Leaving && |t.handed| > |s.handed|)
  {
    InitialOk(parts, w, maxLimit);
    LongPollInvAlways(Initial(parts, w), acts, maxLimit);
    SignalIsUsed(Exec(Initial(parts, w), acts, maxLimit), maxLimit);
  }

  lemma SignalIsUsed(s: State, maxLimit: nat)
    requires WakeupOk(s)
    ensures s.claim.Received? ==>
      var t := Next(s, TakeReceived, maxLimit);
      if s.buffered == [] then t.claim.Select? else t.claim == Leaving && |t.handed| > |s.handed|
  {
  }

  lemma NoneStartsAfterClose(s: State, a: Action, maxLimit: nat)
    requires s.closed
    ensures Next(s, a, maxLimit).closed && Next(s, a, maxLimit).pollers.Keys <= s.pollers.Keys
  {
    if !PollAction(a) && !ClaimAction(a) {
      ElseEffect(s, a);
    }
  }

  /** Once Close has begun, no poller starts. */
  lemma {:induction false} NoPollerAfterClose(s: State, acts: seq<Action>, maxLimit: nat)
    requires s.closed
    ensures Exec(s, acts, maxLimit).closed && Exec(s, acts, maxLimit).pollers.Keys <= s.pollers.Keys
    decreases |acts|
  {
    if acts != [] {
      NoneStartsAfterClose(s, acts[0], maxLimit);
      NoPollerAfterClose(Next(s, acts[0], maxLimit), acts[1..], maxLimit);
    }
  }

  /** With limits up to maxLimit over n partitions, the buffer never holds more than 2 * (maxLimit + n - 1) jobs. */
  lemma {:induction false} BufferIsBounded(parts: seq<Stream>, w: WorkerID, acts: seq<Action>, maxLimit: nat)
    requires |parts| > 0 && Sound(parts)
    ensures var n := |parts|;
            && |Exec(Initial(parts, w), acts, maxLimit).buffered| <= 2 * (n * Share(maxLimit, n))
            && (maxLimit >= 1 ==> 2 * (n * Share(maxLimit, n)) <= 2 * (maxLimit + n - 1))
  {
    InitialOk(parts, w, maxLimit);
    LongPollInvAlways(Initial(parts, w), acts, maxLimit);
    var s, n := Exec(Initial(parts, w), acts, maxLimit), |parts|;
    RoomBound(|s.buffered|, Active(s.polling), n, Share(maxLimit, n), s.claim.Swept?);
    if maxLimit >= 1 {
      ShareTimes(maxLimit, n);
    }
  }

  lemma RoomBound(b: nat, active: nat, n: nat, c: nat, swept: bool)
    requires Room(b, active, n, c, swept)
    ensures b <= 2 * (n * c)
  {
    assert c * active >= 0 && n * c >= 0;
  }

  lemma ShareTimes(limit: nat, n: nat)
    requires n > 0 && limit >= 1
    ensures n * Share(limit, n) <= limit + n - 1
  {
    var x := limit + n - 1;
    assert x == (x / n) * n + x % n;
    DivKeepsOrder(n, x, n);
    assert n / n == 1;
  }

  /**
   Each lease delivered to a poller leaves the buffer at most once: it is
   handed to one Claim, or dropped because its partition has taken it away.
   Takes and appends may race with the heartbeat's snapshot and renewals.
   */
  lemma {:induction false} LeavesBufferOnce(parts: seq<Stream>, w: WorkerID, acts: seq<Action>, maxLimit: nat, l: Lease)
    requires |parts| > 0 && Sound(parts)
    ensures var s := Exec(Initial(parts, w), acts, maxLimit);
            && Distinct(s.handed) && Distinct(s.buffered)
            && !(l in s.handed && l in s.buffered)
            && (l in s.place && l !in s.handed && l !in s.buffered ==>
                  LostIn(s.parts, l) || (s.place[l].InReply? && HoldsReply(s.pollers, s.place[l].poller, l)))
  {
    InitialOk(parts, w, maxLimit);
    LongPollInvAlways(Initial(parts, w), acts, maxLimit);
  }

  lemma {:induction false} LostThroughRun(s: State, acts: seq<Action>, maxLimit: nat, l: Lease)
    requires LongPollInv(s, maxLimit) && LostIn(s.parts, l)
    ensures LostIn(Exec(s, acts, maxLimit).parts, l)
    decreases |acts|
  {
    if acts != [] {
      LongPollInvKept(s, acts[0], maxLimit);
      LostThroughStep(s, acts[0], maxLimit, l);
      LostThroughRun(Next(s, acts[0], maxLimit), acts[1..], maxLimit, l);
    }
  }

  lemma PollKeepsLost(s: State, a: Action, l: Lease)
    requires LeasesOk(s) && LostIn(s.parts, l) && PollAction(a)
    ensures LostIn(NextPoll(s, a).parts, l)
  {
    if a.PollReply? && a.g in s.pollers && s.pollers[a.g].part < |s.parts| && s.pollers[a.g].stage.Blocked? {
      RunKeepsLeases(s.parts, s.pollers[a.g].part, ReadOps(s.worker, s.pollers[a.g].stage.count));
    }
  }

  lemma LostThroughStep(s: State, a: Action, maxLimit: nat, l: Lease)
    requires LeasesOk(s) && LostIn(s.parts, l)
    ensures LostIn(Next(s, a, maxLimit).parts, l)
  {
    if ClaimAction(a) {
      ClaimLeavesParts(s, a, maxLimit);
    } else if PollAction(a) {
      PollKeepsLost(s, a, l);
    } else {
      ElseKeepsLost(s, a, l);
    }
  }

  lemma SteppedKeepsLost(s: State, p: nat, op: Op, l: Lease)
    requires LeasesOk(s) && LostIn(s.parts, l)
    ensures LostIn(Stepped(s, p, op).parts, l)
  {
    if p < |s.parts| {
      StepKeepsLeases(s.parts, p, op);
    }
  }

  lemma ElseKeepsLost(s: State, a: Action, l: Lease)
    requires LeasesOk(s) && LostIn(s.parts, l) && !PollAction(a) && !ClaimAction(a)
    ensures LostIn(NextElse(s, a).parts, l)
  {
    match a
    case Others(p, op) => SteppedKeepsLost(s, p, op, l);
    case Renew(lease) =>
      if lease in s.snapshot {
        SteppedKeepsLost(s, lease.partition, Extend(lease), l);
      }
    case _ =>
  }

  /** A lease that left the buffer without reaching a Claim never passes the check again, whatever happens next. */
  lemma {:induction false} DroppedIsLostForever(parts: seq<Stream>, w: WorkerID, acts: seq<Action>, more: seq<Action>, maxLimit: nat, l: Lease)
    requires |parts| > 0 && Sound(parts)
    requires var s := Exec(Initial(parts, w), acts, maxLimit);
             l in s.place && l !in s.handed && l !in s.buffered && !s.place[l].InReply?
    ensures var t := Exec(Initial(parts, w), acts + more, maxLimit);
            LostIn(t.parts, l) && !Owns(t.parts[l.partition], l)
  {
    InitialOk(parts, w, maxLimit);
    LongPollInvAlways(Initial(parts, w), acts, maxLimit);
    ExecAppend(Initial(parts, w), acts, more, maxLimit);
    LostThroughRun(Exec(Initial(parts, w), acts, maxLimit), more, maxLimit, l);
  }

  /** No lease is delivered to pollers twice: a read only gives out leases never seen before. */
  lemma {:induction false} PollsDeliverOnce(parts: seq<Stream>, w: WorkerID, acts: seq<Action>, maxLimit: nat, p: nat, n: nat)
    requires p < |parts| && Sound(parts)
    ensures var s := Exec(Initial(parts, w), acts, maxLimit);
            |s.parts| == |parts| && Distinct(Polled(s.parts[p], s.worker, p, n))
            && forall l :: l in Polled(s.parts[p], s.worker, p, n) ==> l !in s.place
  {
    InitialOk(parts, w, maxLimit);
    LongPollInvAlways(Initial(parts, w), acts, maxLimit);
    var s := Exec(Initial(parts, w), acts, maxLimit);
    PolledIsNew(s.parts[p], s.worker, p, n);
    ReplyIsNew(s.parts, s.place, s.worker, p, n);
  }

  lemma {:induction false} ExecAppend(s: State, a: seq<Action>, b: seq<Action>, maxLimit: nat)
    ensures Exec(s, a + b, maxLimit) == Exec(Exec(s, a, maxLimit), b, maxLimit)
    decreases |a|
  {
    if a == [] {
      assert a + b == b;
    } else {
      assert (a + b)[1..] == a[1..] + b;
      ExecAppend(Next(s, a[0], maxLimit), a[1..], b, maxLimit);
    }
  }

}
