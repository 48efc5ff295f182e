/**
 How full the long-poll buffer gets (redisstream/sharded.go:297-300): the bound
 of `LongPoll` is reached, for every number of partitions and every limit.
 */
module Backlog {
  import opened Jobs
  import opened Sets
  import opened Streams
  import opened LongPoll

  // ----- one partition: n jobs arrive and one read delivers them all

  /** Job IDs are told apart by their length. */
  function IdNo(k: nat): JobID {
    seq(k, _ => 'x')
  }

  function FieldsNo(k: nat): Fields {
    JobFields(Job(IdNo(k), "task", "{}", 0, 3, 0))
  }

  /** n new jobs, numbered on from k. */
  function Arrivals(k: nat, n: nat): seq<Op> {
    seq(n, i requires 0 <= i < n => XAdd(FieldsNo(k + i)))
  }

  ghost predicate AllJobs(q: Stream) {
    forall e :: e in Ready(q) ==> q.entries[e].JobFields?
  }

  lemma ReadyGrows(q: Stream, f: Fields)
    requires Shape(q)
    ensures Ready(AddEntry(q, f)) == Ready(q) + {q.lastId + 1} && q.lastId + 1 !in Ready(q)
  {
    var next := AddEntry(q, f);
    forall e
      ensures e in Ready(next) <==> e in Ready(q) || e == q.lastId + 1
    {
    }
  }

  lemma JobArrives(q: Stream, f: Fields)
    requires Shape(q) && AllJobs(q) && f.JobFields?
    ensures var next := AddEntry(q, f); Shape(next) && AllJobs(next) && |Ready(next)| == |Ready(q)| + 1
  {
    ShapeKeptEntry(q, f);
    ReadyGrows(q, f);
  }

  lemma ArrivalsStep(q: Stream, k: nat, n: nat)
    requires n > 0
    ensures Run(q, Arrivals(k, n)) == Run(AddEntry(q, FieldsNo(k)), Arrivals(k + 1, n - 1))
  {
    assert Arrivals(k, n)[0] == XAdd(FieldsNo(k)) && Arrivals(k, n)[1..] == Arrivals(k + 1, n - 1);
  }

  lemma {:induction false} JobsArrive(q: Stream, k: nat, n: nat)
    requires Shape(q) && AllJobs(q)
    ensures var t := Run(q, Arrivals(k, n)); Shape(t) && AllJobs(t) && |Ready(t)| == |Ready(q)| + n
    decreases n
  {
    if n > 0 {
      JobArrives(q, FieldsNo(k));
      ArrivalsStep(q, k, n);
      JobsArrive(AddEntry(q, FieldsNo(k)), k + 1, n - 1);
    }
  }

  lemma ReadShrinksReady(q: Stream, w: WorkerID)
    requires Shape(q) && Ready(q) != {}
    ensures var next := Apply(q, ReadOne(w)); Ready(next) == Ready(q) - {MinOf(Ready(q))} && next.entries == q.entries
  {
    ReadsOldestFirst(q);
  }

  lemma ReadTakesOne(q: Stream, w: WorkerID)
    requires Shape(q) && AllJobs(q) && Ready(q) != {}
    ensures var next := Apply(q, ReadOne(w)); Shape(next) && AllJobs(next) && |Ready(next)| == |Ready(q)| - 1
  {
    ReadShrinksReady(q, w);
    ShapeKept(q, ReadOne(w));
  }

  lemma PolledMore(q: Stream, w: WorkerID, p: nat, n: nat)
    requires n > 0 && AllJobs(q) && Ready(q) != {}
    ensures |Polled(q, w, p, n)| == 1 + |Polled(Apply(q, ReadOne(w)), w, p, n - 1)|
  {
    assert MinOf(Ready(q)) in Ready(q);
  }

  lemma {:induction false} ReadLeavesNone(q: Stream, w: WorkerID, n: nat)
    requires Shape(q) && AllJobs(q) && |Ready(q)| == n
    ensures var t := Run(q, ReadOps(w, n)); Shape(t) && Ready(t) == {}
    decreases n
  {
    if n > 0 {
      ReadTakesOne(q, w);
      ReadOpsStep(q, w, n);
      ReadLeavesNone(Apply(q, ReadOne(w)), w, n - 1);
    }
  }

  lemma {:induction false} ReadGivesAll(q: Stream, w: WorkerID, p: nat, n: nat)
    requires Shape(q) && AllJobs(q) && |Ready(q)| == n
    ensures |Polled(q, w, p, n)| == n
    decreases n
  {
    if n > 0 {
      ReadTakesOne(q, w);
      ReadGivesAll(Apply(q, ReadOne(w)), w, p, n - 1);
      PolledMore(q, w, p, n);
    } else {
      assert Polled(q, w, p, 0) == [];
    }
  }

  // ----- the jobs a run enqueues

  /** The ID of the job a step by others enqueues, if it does. */
  function IdsIn(a: Action): seq<JobID> {
    if !a.Others? then []
    else
      match a.op
      case XAdd(f) => if f.JobFields? then [f.job.id] else []
      case Put(job, _) => [job.id]
      case Once(_, job, _, _) => [job.id]
      case _ => []
  }

  function EnqueuedIds(acts: seq<Action>): seq<JobID>
    decreases |acts|
  {
    if acts == [] then [] else IdsIn(acts[0]) + EnqueuedIds(acts[1..])
  }

  /** Every job enqueued in a run has an ID of its own. */
  predicate FreshIds(acts: seq<Action>) {
    Distinct(EnqueuedIds(acts))
  }

  lemma {:induction false} EnqueuedAppend(a: seq<Action>, b: seq<Action>)
    ensures EnqueuedIds(a + b) == EnqueuedIds(a) + EnqueuedIds(b)
    decreases |a|
  {
    if a == [] {
      assert a + b == b;
    } else {
      assert (a + b)[0] == a[0] && (a + b)[1..] == a[1..] + b;
      EnqueuedAppend(a[1..], b);
      JoinIsAssociative(IdsIn(a[0]), EnqueuedIds(a[1..]), EnqueuedIds(b));
    }
  }

  lemma EnqueuedOne(a: Action)
    ensures EnqueuedIds([a]) == IdsIn(a)
  {
    assert EnqueuedIds([a][1..]) == [];
  }

  function Numbers(k: nat, n: nat): seq<JobID> {
    seq(n, i requires 0 <= i < n => IdNo(k + i))
  }

  lemma NumbersAppend(k: nat, a: nat, b: nat)
    ensures Numbers(k, a) + Numbers(k + a, b) == Numbers(k, a + b)
  {
  }

  lemma NumbersDistinct(k: nat, n: nat)
    ensures Distinct(Numbers(k, n))
  {
    forall i, j | 0 <= i < j < n
      ensures Numbers(k, n)[i] != Numbers(k, n)[j]
    {
      assert |IdNo(k + i)| != |IdNo(k + j)|;
    }
  }

  // ----- the protocol, one partition after the other

  /** An open backend whose partitions have nothing left to deliver. */
  ghost predicate Open(s: State, n: nat) {
    && |s.polling| == |s.delivered| == |s.current| == |s.parts| == n > 0 && !s.closed && !s.cancelled
    && (forall p :: 0 <= p < n ==> Shape(s.parts[p]) && Ready(s.parts[p]) == {})
    && (forall g :: g in s.pollers ==> g < s.nextPoller)
  }

  /** Where the Claim and the pollers' instructions stand. */
  function Control(s: State): (ClaimStage, nat, nat, nat) {
    (s.claim, s.waiting, s.pollCount, s.nextPoller)
  }

  /** Partition p's poller is base + p. */
  predicate PollerOf(pollers: map<nat, Poller>, base: nat, p: nat, stage: PollStage) {
    base + p in pollers && pollers[base + p] == Poller(p, stage)
  }

  /** It has asked Redis for c jobs if p is among the first k. */
  predicate Asking(pollers: map<nat, Poller>, base: nat, p: nat, c: nat, k: nat) {
    PollerOf(pollers, base, p, if p < k then Blocked(c) else Top)
  }

  /** It has delivered if p is among the first k, and is still asking if not. */
  predicate Delivering(pollers: map<nat, Poller>, base: nat, p: nat, c: nat, k: nat) {
    PollerOf(pollers, base, p, if p < k then Signalling else Blocked(c))
  }

  ghost predicate Blocking(s: State, base: nat, c: nat, k: nat) {
    forall p: nat :: p < |s.polling| ==> Asking(s.pollers, base, p, c, k)
  }

  ghost predicate Filling(s: State, base: nat, c: nat, k: nat) {
    && (forall p: nat :: p < |s.polling| ==> Delivering(s.pollers, base, p, c, k))
    && (forall p :: 0 <= p < |s.polling| ==> (s.polling[p] <==> k <= p))
  }

  /** n empty partitions, and nothing has happened yet. */
  function Beginning(n: nat, worker: WorkerID): State {
    Initial(seq(n, _ => EMPTY), worker)
  }

  lemma ExecOne(s: State, a: Action, maxLimit: nat)
    ensures Exec(s, [a], maxLimit) == Next(s, a, maxLimit)
  {
    assert Exec(s, [a], maxLimit) == Exec(Next(s, a, maxLimit), [a][1..], maxLimit);
  }

  lemma ExecCons(s: State, a: Action, acts: seq<Action>, maxLimit: nat)
    ensures Exec(s, [a] + acts, maxLimit) == Exec(Next(s, a, maxLimit), acts, maxLimit)
  {
    assert ([a] + acts)[1..] == acts;
  }

  lemma BlockOne(s: State, n: nat, base: nat, c: nat, k: nat, maxLimit: nat)
    requires Open(s, n) && Blocking(s, base, c, k) && k < n && s.waiting > 0 && s.pollCount == c
    ensures var t := Next(s, PollTop(base + k), maxLimit);
            t == s.(pollers := s.pollers[base + k := Poller(k, Blocked(c))]) && Open(t, n) && Blocking(t, base, c, k + 1)
  {
    assert Asking(s.pollers, base, k, c, k);
    var t := Next(s, PollTop(base + k), maxLimit);
    var more := k + 1;
    forall p: nat | p < n
      ensures Asking(t.pollers, base, p, c, more)
    {
      assert Asking(s.pollers, base, p, c, k);
    }
  }

  lemma {:induction false} BlockAll(s: State, n: nat, base: nat, c: nat, k: nat, maxLimit: nat) returns (acts: seq<Action>)
    requires Open(s, n) && Blocking(s, base, c, k) && k <= n && s.waiting > 0 && s.pollCount == c
    ensures var t := Exec(s, acts, maxLimit); t == s.(pollers := t.pollers) && Open(t, n) && Blocking(t, base, c, n)
    ensures EnqueuedIds(acts) == []
    decreases n - k
  {
    if k == n {
      acts := [];
    } else {
      BlockOne(s, n, base, c, k, maxLimit);
      var t := Next(s, PollTop(base + k), maxLimit);
      var rest := BlockAll(t, n, base, c, k + 1, maxLimit);
      ExecCons(s, PollTop(base + k), rest, maxLimit);
      EnqueuedAppend([PollTop(base + k)], rest);
      EnqueuedOne(PollTop(base + k));
      acts := [PollTop(base + k)] + rest;
    }
  }

  function Arriving(p: nat, k: nat, c: nat): seq<Action> {
    seq(c, i requires 0 <= i < c => Others(p, XAdd(FieldsNo(k + i))))
  }

  lemma ArrivingStep(p: nat, k: nat, c: nat)
    requires c > 0
    ensures Arriving(p, k, c)[0] == Others(p, XAdd(FieldsNo(k))) && Arriving(p, k, c)[1..] == Arriving(p, k + 1, c - 1)
  {
  }

  lemma {:induction false} ArrivingIds(p: nat, k: nat, c: nat)
    ensures EnqueuedIds(Arriving(p, k, c)) == Numbers(k, c)
    decreases c
  {
    if c > 0 {
      ArrivingStep(p, k, c);
      ArrivingIds(p, k + 1, c - 1);
      assert Numbers(k, c) == [IdNo(k)] + Numbers(k + 1, c - 1);
    }
  }

  /** Others enqueue c jobs in one partition. */
  lemma {:induction false} ArrivingIsRun(s: State, p: nat, k: nat, c: nat, maxLimit: nat)
    requires p < |s.parts|
    ensures Exec(s, Arriving(p, k, c), maxLimit) == s.(parts := s.parts[p := Run(s.parts[p], Arrivals(k, c))])
    decreases c
  {
    if c == 0 {
      assert s.parts[p := s.parts[p]] == s.parts;
    } else {
      var next := AddEntry(s.parts[p], FieldsNo(k));
      var t := s.(parts := s.parts[p := next]);
      ArrivingStep(p, k, c);
      ArrivalsStep(s.parts[p], k, c);
      assert Next(s, Others(p, XAdd(FieldsNo(k))), maxLimit) == t;
      ArrivingIsRun(t, p, k + 1, c - 1, maxLimit);
      assert s.parts[p := next][p := Run(next, Arrivals(k + 1, c - 1))] == s.parts[p := Run(next, Arrivals(k + 1, c - 1))];
    }
  }

  /** A poller that asked for c jobs gets c jobs, once they have arrived. */
  lemma ReplyOne(s: State, n: nat, g: nat, k: nat, c: nat, maxLimit: nat)
    requires |s.polling| == |s.delivered| == |s.parts| == n && k < n && g in s.pollers && s.pollers[g] == Poller(k, Blocked(c)) && c > 0
    requires |Polled(s.parts[k], s.worker, k, c)| == c
    ensures var t, jobs := Next(s, PollReply(g, Heard), maxLimit), Polled(s.parts[k], s.worker, k, c);
            t == s.(parts := s.parts[k := Run(s.parts[k], ReadOps(s.worker, c))], place := t.place,
                    pollers := s.pollers[g := Poller(k, Got(jobs))])
  {
  }

  /** What has arrived is read completely. */
  lemma ArriveAndRead(q: Stream, w: WorkerID, p: nat, k: nat, c: nat)
    requires Shape(q) && Ready(q) == {}
    ensures var stocked := Run(q, Arrivals(k, c));
            && |Polled(stocked, w, p, c)| == c
            && Shape(Run(stocked, ReadOps(w, c))) && Ready(Run(stocked, ReadOps(w, c))) == {}
  {
    assert AllJobs(q);
    JobsArrive(q, k, c);
    ReadGivesAll(Run(q, Arrivals(k, c)), w, p, c);
    ReadLeavesNone(Run(q, Arrivals(k, c)), w, c);
  }

  lemma AppendOne(s: State, n: nat, g: nat, k: nat, c: nat, maxLimit: nat)
    requires Open(s, n) && k < n && g in s.pollers && s.pollers[g].part == k && s.pollers[g].stage.Got? && |s.pollers[g].stage.jobs| == c
    ensures var t := Next(s, PollAppend(g), maxLimit);
            && Open(t, n) && Control(t) == Control(s) && |t.buffered| == |s.buffered| + c
            && t.polling == s.polling[k := false] && t.pollers == s.pollers[g := Poller(k, Signalling)]
  {
  }

  lemma FillingGoesOn(s: State, t: State, base: nat, c: nat, k: nat)
    requires Filling(s, base, c, k) && k < |s.polling|
    requires t.polling == s.polling[k := false] && t.pollers == s.pollers[base + k := Poller(k, Signalling)]
    ensures Filling(t, base, c, k + 1)
  {
    var more := k + 1;
    forall p: nat | p < |t.polling|
      ensures Delivering(t.pollers, base, p, c, more)
    {
      assert Delivering(s.pollers, base, p, c, k);
    }
  }

  /** Jobs arrive in partition k and its poller gets them. */
  lemma GetOne(s: State, n: nat, g: nat, k: nat, c: nat, no: nat, maxLimit: nat) returns (acts: seq<Action>)
    requires Open(s, n) && k < n && g in s.pollers && s.pollers[g] == Poller(k, Blocked(c)) && c > 0
    ensures var t := Exec(s, acts, maxLimit);
            && Open(t, n) && Control(t) == Control(s) && t.buffered == s.buffered && t.polling == s.polling
            && g in t.pollers && t.pollers[g].part == k && t.pollers[g].stage.Got? && |t.pollers[g].stage.jobs| == c
            && t.pollers == s.pollers[g := t.pollers[g]]
    ensures EnqueuedIds(acts) == Numbers(no, c)
  {
    ArrivingIsRun(s, k, no, c, maxLimit);
    ArriveAndRead(s.parts[k], s.worker, k, no, c);
    var u := Exec(s, Arriving(k, no, c), maxLimit);
    ReplyOne(u, n, g, k, c, maxLimit);
    ExecOne(u, PollReply(g, Heard), maxLimit);
    ExecAppend(s, Arriving(k, no, c), [PollReply(g, Heard)], maxLimit);
    acts := Arriving(k, no, c) + [PollReply(g, Heard)];
    ArrivingIds(k, no, c);
    QuietTail(Arriving(k, no, c), PollReply(g, Heard));
  }

  lemma QuietTail(acts: seq<Action>, a: Action)
    requires IdsIn(a) == []
    ensures EnqueuedIds(acts + [a]) == EnqueuedIds(acts)
  {
    EnqueuedAppend(acts, [a]);
    EnqueuedOne(a);
  }

  lemma FillOne(s: State, n: nat, base: nat, c: nat, k: nat, no: nat, maxLimit: nat) returns (acts: seq<Action>)
    requires Open(s, n) && Filling(s, base, c, k) && k < n && c > 0
    ensures var t := Exec(s, acts, maxLimit);
            Open(t, n) && Control(t) == Control(s) && Filling(t, base, c, k + 1) && |t.buffered| == |s.buffered| + c
    ensures EnqueuedIds(acts) == Numbers(no, c)
  {
    var g := base + k;
    assert Delivering(s.pollers, base, k, c, k);
    var first := GetOne(s, n, g, k, c, no, maxLimit);
    var v := Exec(s, first, maxLimit);
    AppendOne(v, n, g, k, c, maxLimit);
    FillingGoesOn(s, Next(v, PollAppend(g), maxLimit), base, c, k);
    ExecOne(v, PollAppend(g), maxLimit);
    ExecAppend(s, first, [PollAppend(g)], maxLimit);
    QuietTail(first, PollAppend(g));
    acts := first + [PollAppend(g)];
  }

  lemma {:induction false} FillAll(s: State, n: nat, base: nat, c: nat, k: nat, no: nat, maxLimit: nat) returns (acts: seq<Action>)
    requires Open(s, n) && Filling(s, base, c, k) && k <= n && c > 0
    ensures var t := Exec(s, acts, maxLimit);
            Open(t, n) && Control(t) == Control(s) && Filling(t, base, c, n) && |t.buffered| == |s.buffered| + Total(n - k, c)
    ensures EnqueuedIds(acts) == Numbers(no, Total(n - k, c))
    decreases n - k
  {
    if k == n {
      acts := [];
    } else {
      var first := FillOne(s, n, base, c, k, no, maxLimit);
      var t := Exec(s, first, maxLimit);
      var rest := FillAll(t, n, base, c, k + 1, no + c, maxLimit);
      ExecAppend(s, first, rest, maxLimit);
      JoinNumbers(first, rest, no, c, Total(n - k - 1, c));
      acts := first + rest;
    }
  }

  /** What so many partitions deliver in shares of c. */
  function Total(partitions: nat, c: nat): nat {
    if partitions == 0 then 0 else c + Total(partitions - 1, c)
  }

  lemma {:induction false} TotalIs(partitions: nat, c: nat)
    ensures Total(partitions, c) == partitions * c
  {
    if partitions > 0 {
      TotalIs(partitions - 1, c);
    }
  }

  /** A Claim that found nothing starts a poller everywhere; all of them ask, and all get their share. */
  lemma WaitStarts(s: State, n: nat, limit: nat, maxLimit: nat)
    requires Open(s, n) && s.claim == Swept(limit) && s.waiting == 0 && forall p :: 0 <= p < n ==> !s.polling[p]
    ensures var t := Next(s, EnterWait, maxLimit);
            && Open(t, n) && Control(t) == (Select(limit), 1, Share(limit, n), s.nextPoller + n) && t.buffered == s.buffered
            && Blocking(t, s.nextPoller, Share(limit, n), 0) && (forall p :: 0 <= p < n ==> t.polling[p])
  {
    var t, base := Next(s, EnterWait, maxLimit), s.nextPoller;
    forall p: nat | p < n
      ensures Asking(t.pollers, base, p, Share(limit, n), 0)
    {
      assert base + p in Spawned(s.polling, base, n);
    }
  }

  lemma AllAsked(s: State, base: nat, c: nat)
    requires Blocking(s, base, c, |s.polling|) && forall p :: 0 <= p < |s.polling| ==> s.polling[p]
    ensures Filling(s, base, c, 0)
  {
    forall p: nat | p < |s.polling|
      ensures Delivering(s.pollers, base, p, c, 0)
    {
      assert Asking(s.pollers, base, p, c, |s.polling|);
    }
  }

  lemma WaitAndAsk(s: State, n: nat, limit: nat, maxLimit: nat) returns (acts: seq<Action>)
    requires Open(s, n) && s.claim == Swept(limit) && s.waiting == 0 && forall p :: 0 <= p < n ==> !s.polling[p]
    ensures var t := Exec(s, acts, maxLimit);
            && Open(t, n) && Control(t) == (Select(limit), 1, Share(limit, n), s.nextPoller + n) && t.buffered == s.buffered
            && Filling(t, s.nextPoller, Share(limit, n), 0)
    ensures EnqueuedIds(acts) == []
  {
    WaitStarts(s, n, limit, maxLimit);
    var u := Next(s, EnterWait, maxLimit);
    var rest := BlockAll(u, n, s.nextPoller, Share(limit, n), 0, maxLimit);
    AllAsked(Exec(u, rest, maxLimit), s.nextPoller, Share(limit, n));
    ExecCons(s, EnterWait, rest, maxLimit);
    EnqueuedAppend([EnterWait], rest);
    EnqueuedOne(EnterWait);
    acts := [EnterWait] + rest;
  }

  /** The wait times out with nothing delivered, and the next Claim takes nothing from the empty buffer. */
  lemma GiveUpAndReturn(s: State, n: nat, base: nat, c: nat, limit: nat) returns (acts: seq<Action>)
    requires Open(s, n) && s.claim == Select(limit) && s.waiting == 1 && s.buffered == [] && limit >= 1 && Filling(s, base, c, 0)
    ensures var t := Exec(s, acts, limit);
            && Open(t, n) && t.claim == Swept(limit) && t.waiting == 0 && t.buffered == [] && t.nextPoller == s.nextPoller
            && Filling(t, base, c, 0)
    ensures EnqueuedIds(acts) == []
  {
    var u := s.(claim := TimedOut(limit));
    assert Next(s, TimeOut, limit) == u;
    var v := Next(u, TakeTimedOut, limit);
    assert v == u.(claim := Leaving, handed := v.handed, place := v.place);
    var w := Next(v, Leave, limit);
    assert w == v.(waiting := 0, claim := Idle);
    var t := Next(w, ClaimStart(limit), limit);
    assert t == w.(claim := Swept(limit));
    acts := [TimeOut] + ([TakeTimedOut] + ([Leave] + [ClaimStart(limit)]));
    ExecCons(s, TimeOut, [TakeTimedOut] + ([Leave] + [ClaimStart(limit)]), limit);
    ExecCons(u, TakeTimedOut, [Leave] + [ClaimStart(limit)], limit);
    ExecCons(v, Leave, [ClaimStart(limit)], limit);
    ExecOne(w, ClaimStart(limit), limit);
    assert t.pollers == s.pollers && t.polling == s.polling;
    QuietFour(TimeOut, TakeTimedOut, Leave, ClaimStart(limit));
  }

  lemma QuietFour(a: Action, b: Action, c: Action, d: Action)
    requires IdsIn(a) == [] && IdsIn(b) == [] && IdsIn(c) == [] && IdsIn(d) == []
    ensures EnqueuedIds([a] + ([b] + ([c] + [d]))) == []
  {
    EnqueuedOne(a);
    EnqueuedOne(b);
    EnqueuedOne(c);
    EnqueuedOne(d);
    QuietHead([c], [d]);
    QuietHead([b], [c] + [d]);
    QuietHead([a], [b] + ([c] + [d]));
  }

  lemma FirstClaim(n: nat, worker: WorkerID, limit: nat)
    requires n > 0 && limit >= 1
    ensures var t := Next(Beginning(n, worker), ClaimStart(limit), limit);
            Open(t, n) && t.claim == Swept(limit) && t.waiting == 0 && t.buffered == [] && forall p :: 0 <= p < n ==> !t.polling[p]
  {
  }

  // ----- the bound is reached

  lemma FreshByNumber(acts: seq<Action>, m: nat)
    requires EnqueuedIds(acts) == Numbers(0, m)
    ensures FreshIds(acts)
  {
    NumbersDistinct(0, m);
  }

  /**
   The polls of one wait are left over when it times out; they deliver after
   the next Claim has looked into the buffer, and the polls that Claim starts
   deliver too. That fills the buffer to the bound.
   */
  lemma {:induction false} BufferBoundIsReached(n: nat, worker: WorkerID, limit: nat) returns (acts: seq<Action>)
    requires n > 0 && limit >= 1
    ensures |Exec(Beginning(n, worker), acts, limit).buffered| == 2 * (n * Share(limit, n)) && FreshIds(acts)
  {
    var m := n * Share(limit, n);
    acts := FillTwice(n, worker, limit, m);
    FreshByNumber(acts, m + m);
  }

  /** The first polls are left over and deliver during the second Claim's sweep. */
  lemma FillOnce(n: nat, worker: WorkerID, limit: nat) returns (acts: seq<Action>)
    requires n > 0 && limit >= 1
    ensures var t, c := Exec(Beginning(n, worker), acts, limit), Share(limit, n);
            && Open(t, n) && t.claim == Swept(limit) && t.waiting == 0 && (forall p :: 0 <= p < n ==> !t.polling[p])
            && |t.buffered| == Total(n, c) && EnqueuedIds(acts) == Numbers(0, Total(n, c))
  {
    var s, c := Beginning(n, worker), Share(limit, n);
    FirstClaim(n, worker, limit);
    var s1 := Next(s, ClaimStart(limit), limit);
    var a := WaitAndAsk(s1, n, limit, limit);
    var s2 := Exec(s1, a, limit);
    var b := GiveUpAndReturn(s2, n, s1.nextPoller, c, limit);
    var s3 := Exec(s2, b, limit);
    var d := FillAll(s3, n, s1.nextPoller, c, 0, 0, limit);
    ExecCons(s, ClaimStart(limit), a + (b + d), limit);
    ExecAppend(s1, a, b + d, limit);
    ExecAppend(s2, b, d, limit);
    acts := [ClaimStart(limit)] + (a + (b + d));
    QuietStart(ClaimStart(limit), a, b, d);
  }

  /** The polls that Claim starts deliver too. */
  lemma FillAgain(s: State, n: nat, limit: nat, no: nat) returns (acts: seq<Action>)
    requires Open(s, n) && s.claim == Swept(limit) && s.waiting == 0 && limit >= 1 && forall p :: 0 <= p < n ==> !s.polling[p]
    ensures |Exec(s, acts, limit).buffered| == |s.buffered| + Total(n, Share(limit, n))
    ensures EnqueuedIds(acts) == Numbers(no, Total(n, Share(limit, n)))
  {
    var e := WaitAndAsk(s, n, limit, limit);
    var t := Exec(s, e, limit);
    var f := FillAll(t, n, s.nextPoller, Share(limit, n), 0, no, limit);
    ExecAppend(s, e, f, limit);
    QuietHead(e, f);
    acts := e + f;
  }

  lemma FillTwice(n: nat, worker: WorkerID, limit: nat, m: nat) returns (acts: seq<Action>)
    requires n > 0 && limit >= 1 && m == n * Share(limit, n)
    ensures |Exec(Beginning(n, worker), acts, limit).buffered| == m + m && EnqueuedIds(acts) == Numbers(0, m + m)
  {
    TotalIs(n, Share(limit, n));
    var a := FillOnce(n, worker, limit);
    var b := FillAgain(Exec(Beginning(n, worker), a, limit), n, limit, m);
    ExecAppend(Beginning(n, worker), a, b, limit);
    JoinNumbers(a, b, 0, m, m);
    acts := a + b;
  }

  lemma QuietStart(first: Action, a: seq<Action>, b: seq<Action>, rest: seq<Action>)
    requires IdsIn(first) == [] && EnqueuedIds(a) == [] && EnqueuedIds(b) == []
    ensures EnqueuedIds([first] + (a + (b + rest))) == EnqueuedIds(rest)
  {
    EnqueuedOne(first);
    QuietHead(b, rest);
    QuietHead(a, b + rest);
    QuietHead([first], a + (b + rest));
  }

  lemma QuietHead(a: seq<Action>, b: seq<Action>)
    requires EnqueuedIds(a) == []
    ensures EnqueuedIds(a + b) == EnqueuedIds(b)
  {
    EnqueuedAppend(a, b);
    assert [] + EnqueuedIds(b) == EnqueuedIds(b);
  }

  lemma JoinNumbers(a: seq<Action>, b: seq<Action>, k: nat, m: nat, n: nat)
    requires EnqueuedIds(a) == Numbers(k, m) && EnqueuedIds(b) == Numbers(k + m, n)
    ensures EnqueuedIds(a + b) == Numbers(k, m + n)
  {
    EnqueuedAppend(a, b);
    NumbersAppend(k, m, n);
  }

  /** Twice the shares of all partitions fit in limit + partitions for one limit only. */
  lemma SharesFitIff(n: nat, limit: nat)
    requires n > 0 && limit >= 1
    ensures 2 * (n * Share(limit, n)) <= limit + n <==> limit == n
  {
    var x := limit + n - 1;
    var q := x / n;
    assert x == q * n + x % n;
    assert q * n == n * q;
    if limit == n {
      OneShare(n);
    } else if limit < n {
      TimesAtLeast(n, Share(limit, n), 1);
    } else {
      TimesAtLeast(n, Share(limit, n), q);
    }
  }

  lemma OneShare(n: nat)
    requires n > 0
    ensures Share(n, n) == 1
  {
    var q := (2 * n - 1) / n;
    assert 2 * n - 1 == q * n + (2 * n - 1) % n;
    if q >= 2 {
      TimesAtLeast(n, q, 2);
    }
  }

  lemma TimesAtLeast(n: nat, a: nat, b: nat)
    requires a >= b
    ensures n * a >= n * b
  {
    assert n * a == n * b + n * (a - b);
  }

  /** The buffer stays within limit + partitions in every run exactly when the limit is the number of partitions. */
  lemma {:induction false} DocumentedBoundIff(n: nat, worker: WorkerID, limit: nat)
    requires n > 0 && limit >= 1
    ensures (forall acts :: FreshIds(acts) ==> |Exec(Beginning(n, worker), acts, limit).buffered| <= limit + n) <==> limit == n
  {
    SharesFitIff(n, limit);
    if limit == n {
      forall acts | FreshIds(acts)
        ensures |Exec(Beginning(n, worker), acts, limit).buffered| <= limit + n
      {
        BufferIsBounded(seq(n, _ => EMPTY), worker, acts, limit);
      }
    } else {
      var acts := BufferBoundIsReached(n, worker, limit);
    }
  }
}
