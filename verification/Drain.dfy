/**
 The worker's concurrency (queue/worker.go): the slots of Run, the
 group-committed acks of ackLoop, and the order of the drain. Actions are the
 steps of the main loop, of job goroutines and of the ack loop, in any order.
 */
module Drain {
  import opened Sets

  const MAX_BATCH: nat := 256

  /** A job goroutine: running its handler, waiting for its ack's reply, or about to return with it. */
  datatype Stage = Running | Queued | InBatch | Answered(landed: bool)

  datatype Main = Looping | Fetching(free: nat) | Draining | Stopped

  datatype Loop = Idle | Collecting(batch: seq<nat>) | Replying(batch: seq<nat>, landed: seq<bool>, next: nat) | Ended

  datatype State = State(
    main: Main,
    jobs: map<nat, Stage>,        // goroutines started and not finished
    started: nat,                 // goroutines are numbered in the order they start
    inFlight: nat,
    channel: seq<nat>,
    loop: Loop,
    // history
    decided: map<nat, bool>,      // what the backend answered for each goroutine's ack
    replied: seq<nat>)            // goroutines that got a reply, in order

  datatype Action =
    | LoadFree
    | StartJobs(count: nat)
    | Cancel
    | Drained
    | SendAck(j: nat)
    | FinishUnacked(j: nat)
    | ReceiveReply(j: nat)
    | TakeFirst
    | TakeMore
    | CallBackend(landed: seq<bool>)
    | ReplyNext
    | LoopStop

  const INIT: State := State(Looping, map[], 0, 0, [], Idle, map[], [])

  predicate AtStage(s: State, j: nat, stage: Stage) {
    j in s.jobs && s.jobs[j] == stage
  }

  function NewJobs(first: nat, count: nat): (m: map<nat, Stage>)
    ensures forall j :: j in m <==> first <= j < first + count
    ensures forall j :: j in m ==> m[j] == Running
    ensures |m| == count
  {
    if count == 0 then map[]
    else
      var m := NewJobs(first, count - 1);
      assert m[first + count - 1 := Running].Keys == m.Keys + {first + count - 1};
      m[first + count - 1 := Running]
  }

  function Finish(s: State, j: nat): State {
    s.(jobs := s.jobs - {j}, inFlight := if s.inFlight > 0 then s.inFlight - 1 else 0)
  }

  /** The batch's answers, by goroutine. */
  function Answers(batch: seq<nat>, landed: seq<bool>): (m: map<nat, bool>)
    requires |batch| == |landed|
    ensures forall j :: j in m <==> j in batch
    ensures Distinct(batch) ==> forall i :: 0 <= i < |batch| ==> m[batch[i]] == landed[i]
    decreases |batch|
  {
    if batch == [] then map[]
    else
      var n := |batch| - 1;
      var m := Answers(batch[..n], landed[..n]);
      assert batch == batch[..n] + [batch[n]];
      m[batch[n] := landed[n]]
  }

  function NextMain(s: State, a: Action, concurrency: nat): State {
    match a
    case LoadFree =>
      if s.main == Looping && s.inFlight < concurrency then s.(main := Fetching(concurrency - s.inFlight)) else s
    case StartJobs(count) =>
      if !s.main.Fetching? || count > s.main.free then s
      else s.(main := Looping, jobs := s.jobs + NewJobs(s.started, count), started := s.started + count,
              inFlight := s.inFlight + count)
    case Cancel => if s.main == Looping then s.(main := Draining) else s
    case Drained => if s.main == Draining && s.jobs == map[] then s.(main := Stopped) else s
    case _ => s
  }

  function NextJob(s: State, a: Action, concurrency: nat): State {
    match a
    case SendAck(j) =>
      if AtStage(s, j, Running) && |s.channel| < concurrency
      then s.(jobs := s.jobs[j := Queued], channel := s.channel + [j]) else s
    case FinishUnacked(j) => if AtStage(s, j, Running) then Finish(s, j) else s
    case ReceiveReply(j) => if j in s.jobs && s.jobs[j].Answered? then Finish(s, j) else s
    case _ => s
  }

  function NextLoop(s: State, a: Action): State {
    match a
    case TakeFirst =>
      if s.loop == Idle && s.channel != []
      then s.(loop := Collecting([s.channel[0]]), channel := s.channel[1..], jobs := s.jobs[s.channel[0] := InBatch]) else s
    case TakeMore =>
      if s.loop.Collecting? && s.channel != [] && |s.loop.batch| < MAX_BATCH
      then s.(loop := Collecting(s.loop.batch + [s.channel[0]]), channel := s.channel[1..], jobs := s.jobs[s.channel[0] := InBatch])
      else s
    case CallBackend(landed) =>
      if s.loop.Collecting? && |landed| == |s.loop.batch|
      then s.(loop := Replying(s.loop.batch, landed, 0), decided := s.decided + Answers(s.loop.batch, landed)) else s
    case ReplyNext =>
      if !s.loop.Replying? || |s.loop.batch| != |s.loop.landed| then s
      else if s.loop.next >= |s.loop.batch| then s.(loop := Idle)
      else
        var j := s.loop.batch[s.loop.next];
        s.(loop := s.loop.(next := s.loop.next + 1), jobs := s.jobs[j := Answered(s.loop.landed[s.loop.next])],
           replied := s.replied + [j])
    case LoopStop => if s.loop == Idle && s.main == Stopped then s.(loop := Ended) else s
    case _ => s
  }

  predicate MainAction(a: Action) {
    a.LoadFree? || a.StartJobs? || a.Cancel? || a.Drained?
  }

  predicate JobAction(a: Action) {
    a.SendAck? || a.FinishUnacked? || a.ReceiveReply?
  }

  function Next(s: State, a: Action, concurrency: nat): State {
    if MainAction(a) then NextMain(s, a, concurrency) else if JobAction(a) then NextJob(s, a, concurrency) else NextLoop(s, a)
  }

  function Exec(s: State, acts: seq<Action>, concurrency: nat): State
    decreases |acts|
  {
    if acts == [] then s else Exec(Next(s, acts[0], concurrency), acts[1..], concurrency)
  }

  // ----- invariants

  /** Requests the ack loop took and has not answered yet. */
  function Taken(loop: Loop): seq<nat> {
    match loop
    case Collecting(batch) => batch
    case Replying(batch, landed, next) => if next <= |batch| then batch[next..] else []
    case _ => []
  }

  ghost predicate SlotsOk(s: State, concurrency: nat) {
    && s.inFlight == |s.jobs| && s.inFlight <= concurrency
    && (s.main.Fetching? ==> s.inFlight + s.main.free <= concurrency)
    && (forall j :: j in s.jobs ==> j < s.started)
    && (s.main == Stopped ==> s.jobs == map[])
  }

  /** Every unanswered ack is in the channel or in the batch, once, and nowhere else. */
  ghost predicate RequestsOk(jobs: map<nat, Stage>, channel: seq<nat>, taken: seq<nat>) {
    && Distinct(channel) && Distinct(taken)
    && (forall j :: j in channel <==> j in jobs && jobs[j] == Queued)
    && (forall j :: j in taken <==> j in jobs && jobs[j] == InBatch)
  }

  ghost predicate LoopOk(loop: Loop, decided: map<nat, bool>) {
    loop.Replying? ==>
      && |loop.batch| == |loop.landed| && loop.next <= |loop.batch| && Distinct(loop.batch)
      && forall i :: loop.next <= i < |loop.batch| ==> loop.batch[i] in decided && decided[loop.batch[i]] == loop.landed[i]
  }

  ghost predicate RepliesOk(jobs: map<nat, Stage>, started: nat, decided: map<nat, bool>, replied: seq<nat>) {
    && (forall j :: j in jobs && jobs[j].Answered? ==> j in replied && j in decided && decided[j] == jobs[j].landed)
    && Distinct(replied)
    && (forall j :: j in replied ==> j < started && (j in jobs ==> jobs[j].Answered?))
  }

  ghost predicate DrainInv(s: State, concurrency: nat) {
    && SlotsOk(s, concurrency) && RequestsOk(s.jobs, s.channel, Taken(s.loop))
    && LoopOk(s.loop, s.decided) && RepliesOk(s.jobs, s.started, s.decided, s.replied)
    && (s.loop == Ended ==> s.main == Stopped)
  }

  lemma SizeAfterJoin<K, V>(a: map<K, V>, b: map<K, V>)
    requires a.Keys !! b.Keys
    ensures |a + b| == |a| + |b|
  {
    assert (a + b).Keys == a.Keys + b.Keys;
  }

  lemma SizeAfterDrop<V>(a: map<nat, V>, j: nat)
    requires j in a
    ensures |a - {j}| == |a| - 1
  {
    assert (a - {j}).Keys == a.Keys - {j};
  }

  lemma SizeAfterUpdate<V>(a: map<nat, V>, j: nat, v: V)
    requires j in a
    ensures |a[j := v]| == |a|
  {
    assert a[j := v].Keys == a.Keys;
  }

  /** New goroutines only run their handlers; the others are as before. */
  predicate OnlyStarts(jobs: map<nat, Stage>, more: map<nat, Stage>) {
    && (forall j :: j in jobs ==> j in more && more[j] == jobs[j])
    && (forall j :: j in more && j !in jobs ==> more[j] == Running)
  }

  lemma StartKeepsRequests(jobs: map<nat, Stage>, more: map<nat, Stage>, channel: seq<nat>, taken: seq<nat>)
    requires RequestsOk(jobs, channel, taken) && OnlyStarts(jobs, more)
    ensures RequestsOk(more, channel, taken)
  {
  }

  lemma StartKeepsReplies(jobs: map<nat, Stage>, more: map<nat, Stage>, started: nat, count: nat, decided: map<nat, bool>, replied: seq<nat>)
    requires RepliesOk(jobs, started, decided, replied) && OnlyStarts(jobs, more)
    requires forall j :: j in more && j !in jobs ==> started <= j
    ensures RepliesOk(more, started + count, decided, replied)
  {
  }

  lemma StartKeeps(s: State, count: nat, concurrency: nat)
    requires DrainInv(s, concurrency)
    ensures var jobs := s.jobs + NewJobs(s.started, count);
            && |jobs| == |s.jobs| + count && (forall j :: j in jobs ==> j < s.started + count)
            && RequestsOk(jobs, s.channel, Taken(s.loop)) && RepliesOk(jobs, s.started + count, s.decided, s.replied)
  {
    var m := NewJobs(s.started, count);
    assert s.jobs.Keys !! m.Keys;
    SizeAfterJoin(s.jobs, m);
    StartKeepsRequests(s.jobs, s.jobs + m, s.channel, Taken(s.loop));
    StartKeepsReplies(s.jobs, s.jobs + m, s.started, count, s.decided, s.replied);
  }

  lemma MainKeeps(s: State, a: Action, concurrency: nat)
    requires DrainInv(s, concurrency) && MainAction(a)
    ensures DrainInv(NextMain(s, a, concurrency), concurrency)
  {
    if a.StartJobs? {
      StartKeeps(s, a.count, concurrency);
    }
  }

  // ----- what a change of stage keeps

  lemma SendKeepsRequests(jobs: map<nat, Stage>, channel: seq<nat>, taken: seq<nat>, j: nat)
    requires RequestsOk(jobs, channel, taken) && j in jobs && jobs[j] == Running
    ensures RequestsOk(jobs[j := Queued], channel + [j], taken)
  {
    assert j !in channel && j !in taken;
  }

  lemma FinishKeepsRequests(jobs: map<nat, Stage>, channel: seq<nat>, taken: seq<nat>, j: nat)
    requires RequestsOk(jobs, channel, taken) && j in jobs && jobs[j] != Queued && jobs[j] != InBatch
    ensures RequestsOk(jobs - {j}, channel, taken)
  {
    assert j !in channel && j !in taken;
  }

  lemma TakeKeepsRequests(jobs: map<nat, Stage>, channel: seq<nat>, taken: seq<nat>)
    requires RequestsOk(jobs, channel, taken) && channel != []
    ensures channel[0] in jobs && jobs[channel[0]] == Queued
    ensures RequestsOk(jobs[channel[0] := InBatch], channel[1..], taken + [channel[0]])
  {
    HeadAndRest(channel);
    assert channel[0] in channel && channel[0] !in taken;
  }

  lemma ReplyKeepsRequests(jobs: map<nat, Stage>, channel: seq<nat>, taken: seq<nat>, landed: bool)
    requires RequestsOk(jobs, channel, taken) && taken != []
    ensures taken[0] in jobs && jobs[taken[0]] == InBatch
    ensures RequestsOk(jobs[taken[0] := Answered(landed)], channel, taken[1..])
  {
    HeadAndRest(taken);
    assert taken[0] in taken && taken[0] !in channel;
  }

  lemma StageKeepsReplies(jobs: map<nat, Stage>, started: nat, decided: map<nat, bool>, replied: seq<nat>, j: nat, stage: Stage)
    requires RepliesOk(jobs, started, decided, replied) && j in jobs && !jobs[j].Answered? && !stage.Answered?
    ensures RepliesOk(jobs[j := stage], started, decided, replied)
  {
  }

  lemma FinishKeepsReplies(jobs: map<nat, Stage>, started: nat, decided: map<nat, bool>, replied: seq<nat>, j: nat)
    requires RepliesOk(jobs, started, decided, replied)
    ensures RepliesOk(jobs - {j}, started, decided, replied)
  {
  }

  /** A goroutine that was not answered yet gets its own answer. */
  lemma ReplyKeepsReplies(jobs: map<nat, Stage>, started: nat, decided: map<nat, bool>, replied: seq<nat>, j: nat, landed: bool)
    requires RepliesOk(jobs, started, decided, replied) && j in jobs && !jobs[j].Answered? && j < started
    requires j in decided && decided[j] == landed
    ensures RepliesOk(jobs[j := Answered(landed)], started, decided, replied + [j])
  {
    assert j !in replied;
  }

  lemma FinishKeeps(s: State, j: nat, concurrency: nat)
    requires DrainInv(s, concurrency) && j in s.jobs && s.jobs[j] != Queued && s.jobs[j] != InBatch
    ensures DrainInv(Finish(s, j), concurrency)
  {
    SizeAfterDrop(s.jobs, j);
    FinishKeepsRequests(s.jobs, s.channel, Taken(s.loop), j);
    FinishKeepsReplies(s.jobs, s.started, s.decided, s.replied, j);
  }

  lemma SendKeeps(s: State, j: nat, concurrency: nat)
    requires DrainInv(s, concurrency)
    ensures DrainInv(NextJob(s, SendAck(j), concurrency), concurrency)
  {
    if AtStage(s, j, Running) {
      SizeAfterUpdate(s.jobs, j, Queued);
      SendKeepsRequests(s.jobs, s.channel, Taken(s.loop), j);
      StageKeepsReplies(s.jobs, s.started, s.decided, s.replied, j, Queued);
    }
  }

  lemma JobKeeps(s: State, a: Action, concurrency: nat)
    requires DrainInv(s, concurrency) && JobAction(a)
    ensures DrainInv(NextJob(s, a, concurrency), concurrency)
  {
    if a.SendAck? {
      SendKeeps(s, a.j, concurrency);
    } else if a.j in s.jobs && (s.jobs[a.j] == Running || s.jobs[a.j].Answered?) {
      FinishKeeps(s, a.j, concurrency);
    }
  }

  lemma HeadAndRest(xs: seq<nat>)
    requires xs != [] && Distinct(xs)
    ensures Distinct(xs[1..]) && xs[0] !in xs[1..] && forall j :: j in xs <==> j == xs[0] || j in xs[1..]
  {
    assert xs == [xs[0]] + xs[1..];
  }

  lemma TakeKeeps(s: State, a: Action, concurrency: nat)
    requires DrainInv(s, concurrency) && (a.TakeFirst? || a.TakeMore?)
    ensures DrainInv(NextLoop(s, a), concurrency)
  {
    var t := NextLoop(s, a);
    if t != s {
      TakeKeepsRequests(s.jobs, s.channel, Taken(s.loop));
      StageKeepsReplies(s.jobs, s.started, s.decided, s.replied, s.channel[0], InBatch);
      SizeAfterUpdate(s.jobs, s.channel[0], InBatch);
      assert Taken(t.loop) == Taken(s.loop) + [s.channel[0]];
    }
  }

  /** The backend's answers are about requests that were not answered before. */
  lemma DecideKeeps(jobs: map<nat, Stage>, started: nat, decided: map<nat, bool>, replied: seq<nat>, batch: seq<nat>, landed: seq<bool>)
    requires RepliesOk(jobs, started, decided, replied) && |batch| == |landed|
    requires forall j :: j in batch ==> j in jobs && jobs[j] == InBatch
    ensures RepliesOk(jobs, started, decided + Answers(batch, landed), replied)
  {
  }

  lemma AnswersRecorded(decided: map<nat, bool>, batch: seq<nat>, landed: seq<bool>)
    requires |batch| == |landed| && Distinct(batch)
    ensures LoopOk(Replying(batch, landed, 0), decided + Answers(batch, landed))
  {
    forall i | 0 <= i < |batch|
      ensures batch[i] in decided + Answers(batch, landed) && (decided + Answers(batch, landed))[batch[i]] == landed[i]
    {
      assert batch[i] in batch;
    }
  }

  lemma CallKeeps(s: State, a: Action, concurrency: nat)
    requires DrainInv(s, concurrency) && a.CallBackend?
    ensures DrainInv(NextLoop(s, a), concurrency)
  {
    if s.loop.Collecting? && |a.landed| == |s.loop.batch| {
      var b := s.loop.batch;
      DecideKeeps(s.jobs, s.started, s.decided, s.replied, b, a.landed);
      AnswersRecorded(s.decided, b, a.landed);
      assert Taken(Replying(b, a.landed, 0)) == b;
    }
  }

  lemma ReplyKeeps(s: State, concurrency: nat)
    requires DrainInv(s, concurrency)
    ensures DrainInv(NextLoop(s, ReplyNext), concurrency)
  {
    if s.loop.Replying? && s.loop.next < |s.loop.batch| {
      var rest, landed := s.loop.batch[s.loop.next..], s.loop.landed[s.loop.next];
      assert rest[1..] == s.loop.batch[s.loop.next + 1..];
      ReplyKeepsRequests(s.jobs, s.channel, rest, landed);
      ReplyKeepsReplies(s.jobs, s.started, s.decided, s.replied, rest[0], landed);
      SizeAfterUpdate(s.jobs, rest[0], Answered(landed));
    }
  }

  lemma {:induction false} DrainInvKept(s: State, a: Action, concurrency: nat)
    requires DrainInv(s, concurrency)
    ensures DrainInv(Next(s, a, concurrency), concurrency)
  {
    if MainAction(a) {
      MainKeeps(s, a, concurrency);
    } else if JobAction(a) {
      JobKeeps(s, a, concurrency);
    } else if a.TakeFirst? || a.TakeMore? {
      TakeKeeps(s, a, concurrency);
    } else if a.CallBackend? {
      CallKeeps(s, a, concurrency);
    } else if a.ReplyNext? {
      ReplyKeeps(s, concurrency);
    }
  }

  lemma {:induction false} DrainInvAlways(s: State, acts: seq<Action>, concurrency: nat)
    requires DrainInv(s, concurrency)
    ensures DrainInv(Exec(s, acts, concurrency), concurrency)
    decreases |acts|
  {
    if acts != [] {
      DrainInvKept(s, acts[0], concurrency);
      DrainInvAlways(Next(s, acts[0], concurrency), acts[1..], concurrency);
    }
  }

  // ----- what it means

  /** Never more jobs in flight than slots, however fetches and finishes interleave. */
  lemma {:induction false} InFlightIsBounded(acts: seq<Action>, concurrency: nat)
    ensures Exec(INIT, acts, concurrency).inFlight == |Exec(INIT, acts, concurrency).jobs| <= concurrency
  {
    DrainInvAlways(INIT, acts, concurrency);
  }

  /** A job that wants to ack never finds the channel full. */
  lemma {:induction false} SendNeverBlocks(acts: seq<Action>, concurrency: nat, j: nat)
    requires AtStage(Exec(INIT, acts, concurrency), j, Running)
    ensures |Exec(INIT, acts, concurrency).channel| < concurrency
  {
    DrainInvAlways(INIT, acts, concurrency);
    var s := Exec(INIT, acts, concurrency);
    var others := s.jobs.Keys - {j};
    DistinctFits(s.channel, others);
    assert |others| == |s.jobs| - 1;
  }

  /** Every ack gets at most one reply, and the reply is what the backend said about its own job. */
  lemma {:induction false} ReplyIsOwn(acts: seq<Action>, concurrency: nat, j: nat)
    requires var s := Exec(INIT, acts, concurrency); j in s.jobs && s.jobs[j].Answered?
    ensures var s := Exec(INIT, acts, concurrency);
            && j in s.decided && s.decided[j] == s.jobs[j].landed
            && Distinct(s.replied) && j in s.replied
  {
    DrainInvAlways(INIT, acts, concurrency);
  }

  /** A queued ack is still owed exactly one reply: it sits in the channel or in the loop's hands. */
  lemma {:induction false} UnansweredIsOwed(acts: seq<Action>, concurrency: nat, j: nat)
    requires var s := Exec(INIT, acts, concurrency); AtStage(s, j, Queued) || AtStage(s, j, InBatch)
    ensures var s := Exec(INIT, acts, concurrency);
            && j !in s.replied && s.loop != Ended
            && (j in s.channel || j in Taken(s.loop))
  {
    DrainInvAlways(INIT, acts, concurrency);
  }

  /** The ack loop ends only when no request is outstanding. */
  lemma {:induction false} LoopEndsEmptyHanded(acts: seq<Action>, concurrency: nat)
    requires Exec(INIT, acts, concurrency).loop == Ended
    ensures var s := Exec(INIT, acts, concurrency); s.jobs == map[] && s.channel == []
  {
    DrainInvAlways(INIT, acts, concurrency);
    var s := Exec(INIT, acts, concurrency);
    DistinctFits(s.channel, {});
  }
}
