/**
 The queue's Lua scripts and the store methods that call them
 (redisstream/scripts.go, redisstream/store.go), in place on one queue's keys.
 Each method's new state is a run of `Streams` ops from the old one.
 */
module Scripts {
  import opened Jobs
  import opened Sets
  import opened Streams
  import opened Recovery
  import opened Conservation
  import opened Enqueueing

  datatype Request = Request(job: Job, key: string)

  /** What enqueueing one job does, by key and due time (now in unix ms). */
  function EnqueueOp(r: Request, now: int, window: nat): Op {
    var runAt := if r.job.availableAt > now then r.job.availableAt else 0;
    if r.key != "" then Once(r.key, r.job, window, runAt)
    else if r.job.availableAt > now then Put(r.job, r.job.availableAt)
    else XAdd(JobFields(r.job))
  }

  function EnqueueOps(rs: seq<Request>, now: int, window: nat): seq<Op> {
    seq(|rs|, i requires 0 <= i < |rs| => EnqueueOp(rs[i], now, window))
  }

  /** The ID an enqueue reports: the original job's when the key was used before. */
  function EnqueueReply(s: Stream, r: Request, now: int, window: nat): JobID {
    var op := EnqueueOp(r, now, window);
    if op.Once? then OnceReply(s, op) else r.job.id
  }

  function Acks(ls: seq<Lease>): seq<Op> {
    seq(|ls|, i requires 0 <= i < |ls| => Ack(ls[i]))
  }

  function Extends(ls: seq<Lease>): seq<Op> {
    seq(|ls|, i requires 0 <= i < |ls| => Extend(ls[i]))
  }

  function PromoteOps(ids: seq<JobID>, now: int): seq<Op> {
    seq(|ids|, i requires 0 <= i < |ids| => PromoteOne(ids[i], now))
  }

  lemma PromotedMore(s: Stream, ids: seq<JobID>, i: nat, now: int)
    requires i < |ids|
    ensures Run(s, PromoteOps(ids[..i + 1], now)) == Apply(Run(s, PromoteOps(ids[..i], now)), PromoteOne(ids[i], now))
  {
    assert PromoteOps(ids[..i + 1], now) == PromoteOps(ids[..i], now) + [PromoteOne(ids[i], now)];
    RunSnoc(s, PromoteOps(ids[..i], now), PromoteOne(ids[i], now));
  }

  /** XREADGROUP by one consumer that returns n entries. */
  function Reads(w: WorkerID, n: nat): seq<Op> {
    [Seen(w)] + seq(n, _ => ReadOne(w))
  }

  lemma ReadsNone(s: Stream, w: WorkerID)
    ensures Run(s, Reads(w, 0)) == Touch(s, w)
  {
    assert Reads(w, 0) == [Seen(w)];
    assert Run(s, [Seen(w)]) == Run(Apply(s, Seen(w)), []);
  }

  lemma ReadsOneMore(s: Stream, w: WorkerID, n: nat)
    ensures Run(s, Reads(w, n + 1)) == Apply(Run(s, Reads(w, n)), ReadOne(w))
  {
    assert Reads(w, n + 1) == Reads(w, n) + [ReadOne(w)];
    RunSnoc(s, Reads(w, n), ReadOne(w));
  }

  lemma {:induction false} ReadsLeaveScheduleFrom(s: Stream, w: WorkerID, n: nat)
    ensures Run(s, Reads(w, n)).schedule == s.schedule
  {
    if n == 0 {
      ReadsNone(s, w);
    } else {
      ReadsLeaveScheduleFrom(s, w, n - 1);
      ReadsOneMore(s, w, n - 1);
    }
  }

  lemma ReadsLeaveSchedule(s: Stream, w: WorkerID, n: nat)
    ensures forall id, now :: Due(Run(s, Reads(w, n)), id, now) <==> Due(s, id, now)
  {
    ReadsLeaveScheduleFrom(s, w, n);
  }

  function Ones(n: nat): (r: seq<nat>)
    ensures |r| == n && forall i :: 0 <= i < n ==> r[i] == 1
  {
    seq(n, _ => 1)
  }

  /** A read returns these entries: undelivered ones, in order, up to the limit or the end. */
  ghost predicate ReadFrom(s: Stream, w: WorkerID, limit: nat, ids: seq<nat>) {
    && Increasing(ids) && |ids| <= limit && (forall e :: e in ids ==> e in Ready(s))
    && (|ids| == limit || Ready(Run(s, Reads(w, |ids|))) == {})
  }

  /** A read that delivered these entries, and the quarantine of those that do not parse. */
  function AfterRead(s: Stream, w: WorkerID, ids: seq<nat>): Stream {
    Quarantined(Run(s, Reads(w, |ids|)), w, ids, Ones(|ids|))
  }

  /** The job under an entry, if there is one. */
  function JobsAt(es: map<nat, Fields>, e: nat): set<Job> {
    if e in es && es[e].JobFields? then {es[e].job} else {}
  }

  /** The job under the entry is the one handed out, and the lease for it passes the check. */
  predicate HeldBy(s: Stream, d: Delivery) {
    Owns(s, d.lease) && Holds(s, d.lease, d.job)
  }

  /** The delivered entries that parse, as they are handed to the caller. */
  function Parsed(es: map<nat, Fields>, w: WorkerID, ids: seq<nat>, tokens: seq<nat>): seq<Delivery>
    requires |ids| == |tokens| && forall e :: e in ids ==> e in es
    decreases |ids|
  {
    if ids == [] then []
    else
      var n := |ids| - 1;
      assert ids[n] in ids;
      Parsed(es, w, ids[..n], tokens[..n])
      + (if es[ids[n]].JobFields? then [Delivery(es[ids[n]].job, Lease(ids[n], w, tokens[n], 0))] else [])
  }

  function Unparsable(es: map<nat, Fields>, ids: seq<nat>): set<nat> {
    set e | e in ids && e in es && es[e].Malformed?
  }

  lemma {:induction false} ParsedAt(es: map<nat, Fields>, w: WorkerID, ids: seq<nat>, tokens: seq<nat>)
    requires |ids| == |tokens| && (forall e :: e in ids ==> e in es) && Increasing(ids)
    ensures var got := Parsed(es, w, ids, tokens);
            && |got| <= |ids|
            && (forall k :: 0 <= k < |got| ==> ParsedFrom(es, w, ids, tokens, got[k]))
            && (forall i, k :: 0 <= i < k < |got| ==> got[i].lease.messageId < got[k].lease.messageId)
    decreases |ids|
  {
    if ids != [] {
      var n := |ids| - 1;
      ParsedAt(es, w, ids[..n], tokens[..n]);
      var init := Parsed(es, w, ids[..n], tokens[..n]);
      forall k | 0 <= k < |init|
        ensures ParsedFrom(es, w, ids, tokens, init[k]) && init[k].lease.messageId < ids[n]
      {
        assert ParsedFrom(es, w, ids[..n], tokens[..n], init[k]);
        var i :| 0 <= i < n && init[k].lease == Lease(ids[..n][i], w, tokens[..n][i], 0);
        assert ids[..n][i] == ids[i] && tokens[..n][i] == tokens[i];
      }
      if es[ids[n]].JobFields? {
        assert ParsedFrom(es, w, ids, tokens, Delivery(es[ids[n]].job, Lease(ids[n], w, tokens[n], 0)));
      }
    }
  }

  /** A handed-out delivery is one of the delivered entries, with the job stored there. */
  ghost predicate ParsedFrom(es: map<nat, Fields>, w: WorkerID, ids: seq<nat>, tokens: seq<nat>, d: Delivery)
    requires |ids| == |tokens|
  {
    && d.lease.messageId in es && es[d.lease.messageId] == JobFields(d.job)
    && exists i :: 0 <= i < |ids| && d.lease == Lease(ids[i], w, tokens[i], 0)
  }

  /** The queue after the unparsable ones among the delivered entries were dead-lettered. */
  function Quarantined(s: Stream, w: WorkerID, ids: seq<nat>, tokens: seq<nat>): Stream
    requires |ids| == |tokens|
    decreases |ids|
  {
    if ids == [] then s
    else
      var n := |ids| - 1;
      var rest := Quarantined(s, w, ids[..n], tokens[..n]);
      if ids[n] in s.entries && s.entries[ids[n]].Malformed?
      then Apply(rest, DeadLetter(Lease(ids[n], w, tokens[n], 0), DeadEntry(s.entries[ids[n]], tokens[n], MalformedEntry)))
      else rest
  }

  ghost predicate AllOwned(s: Stream, w: WorkerID, ids: seq<nat>, tokens: seq<nat>)
    requires |ids| == |tokens|
  {
    forall i :: 0 <= i < |ids| ==> Owns(s, Lease(ids[i], w, tokens[i], 0))
  }

  /** Quarantine removes the unparsable entries and nothing else, and loses no job. */
  lemma {:induction false} QuarantinedFacts(s: Stream, w: WorkerID, ids: seq<nat>, tokens: seq<nat>)
    requires Shape(s) && Increasing(ids) && |ids| == |tokens| && AllOwned(s, w, ids, tokens)
    ensures var q := Quarantined(s, w, ids, tokens);
            && Shape(q)
            && q.entries == s.entries - Unparsable(s.entries, ids) && q.pel == s.pel - Unparsable(s.entries, ids)
            && q.lastDelivered == s.lastDelivered
            && (Placed(s) ==> Placed(q) && Stored(q) == Stored(s))
    decreases |ids|
  {
    if ids != [] {
      var n := |ids| - 1;
      var init := ids[..n];
      assert AllOwned(s, w, init, tokens[..n]);
      QuarantinedFacts(s, w, init, tokens[..n]);
      assert ids == init + [ids[n]] && ids[n] !in init;
      var rest := Quarantined(s, w, init, tokens[..n]);
      var l := Lease(ids[n], w, tokens[n], 0);
      assert Owns(s, l) && Owns(rest, l);
      if s.entries[ids[n]].Malformed? {
        var d := DeadEntry(s.entries[ids[n]], tokens[n], MalformedEntry);
        QuarantineOne(rest, l, d);
        RemovedMore(s.entries, Unparsable(s.entries, init), ids[n]);
        RemovedMore(s.pel, Unparsable(s.entries, init), ids[n]);
        assert Quarantined(s, w, ids, tokens) == Apply(rest, DeadLetter(l, d));
        assert Unparsable(s.entries, ids) == Unparsable(s.entries, init) + {ids[n]};
      } else {
        assert Quarantined(s, w, ids, tokens) == rest;
        assert Unparsable(s.entries, ids) == Unparsable(s.entries, init);
      }
    }
  }

  lemma RemovedMore<V>(m: map<nat, V>, gone: set<nat>, e: nat)
    ensures (m - gone) - {e} == m - (gone + {e})
  {
  }

  lemma QuarantineOne(s: Stream, l: Lease, d: DeadEntry)
    requires Shape(s) && Owns(s, l) && s.entries[l.messageId] == d.fields
    ensures var q := Apply(s, DeadLetter(l, d));
            Shape(q) && q.entries == s.entries - {l.messageId} && q.pel == s.pel - {l.messageId} && q.lastDelivered == s.lastDelivered
            && (Placed(s) ==> Placed(q) && Stored(q) == Stored(s))
  {
    ShapeKept(s, DeadLetter(l, d));
    if Placed(s) {
      ConservedByStep(s, DeadLetter(l, d));
    }
  }

  /** What quarantine does with one more entry. */
  function QuarantineNext(s: Stream, e: nat, w: WorkerID, token: nat, f: Fields): Stream {
    if f.Malformed? then Apply(s, DeadLetter(Lease(e, w, token, 0), DeadEntry(f, token, MalformedEntry))) else s
  }

  lemma QuarantinedMore(s: Stream, w: WorkerID, ids: seq<nat>, tokens: seq<nat>, i: nat)
    requires |ids| == |tokens| && i < |ids| && ids[i] in s.entries
    ensures Quarantined(s, w, ids[..i + 1], tokens[..i + 1])
            == QuarantineNext(Quarantined(s, w, ids[..i], tokens[..i]), ids[i], w, tokens[i], s.entries[ids[i]])
  {
    assert ids[..i + 1][..i] == ids[..i] && tokens[..i + 1][..i] == tokens[..i];
  }

  lemma ParsedMore(es: map<nat, Fields>, w: WorkerID, ids: seq<nat>, tokens: seq<nat>, i: nat)
    requires |ids| == |tokens| && i < |ids| && forall e :: e in ids ==> e in es
    ensures var d := if es[ids[i]].JobFields? then [Delivery(es[ids[i]].job, Lease(ids[i], w, tokens[i], 0))] else [];
            Parsed(es, w, ids[..i + 1], tokens[..i + 1]) == Parsed(es, w, ids[..i], tokens[..i]) + d
  {
    assert ids[i] in ids;
    assert ids[..i + 1][..i] == ids[..i] && tokens[..i + 1][..i] == tokens[..i];
  }

  /** The next entry is still owned and still has the fields it was delivered with. */
  lemma NextIsUntouched(s: Stream, w: WorkerID, ids: seq<nat>, tokens: seq<nat>, i: nat)
    requires Shape(s) && Increasing(ids) && |ids| == |tokens| && AllOwned(s, w, ids, tokens) && i < |ids|
    ensures var q, l := Quarantined(s, w, ids[..i], tokens[..i]), Lease(ids[i], w, tokens[i], 0);
            && Owns(q, l) && ids[i] in s.entries && ids[i] in q.entries && q.entries[ids[i]] == s.entries[ids[i]]
  {
    assert Owns(s, Lease(ids[i], w, tokens[i], 0));
    assert AllOwned(s, w, ids[..i], tokens[..i]);
    QuarantinedFacts(s, w, ids[..i], tokens[..i]);
    assert ids[i] !in ids[..i];
  }

  lemma OwnedAreStored(s: Stream, w: WorkerID, ids: seq<nat>, tokens: seq<nat>)
    requires Shape(s) && |ids| == |tokens| && AllOwned(s, w, ids, tokens)
    ensures forall e :: e in ids ==> e in s.entries
  {
    forall e | e in ids
      ensures e in s.entries
    {
      var i :| 0 <= i < |ids| && ids[i] == e;
      assert Owns(s, Lease(ids[i], w, tokens[i], 0));
    }
  }

  /** What a claim or a recovery returns: jobs this worker owns, one per entry, each as stored. */
  ghost predicate Handed(s: Stream, w: WorkerID, got: seq<Delivery>) {
    && (forall d :: d in got ==> HeldBy(s, d) && d.lease.owner == w)
    && (forall i, k :: 0 <= i < k < |got| ==> got[i].lease.messageId < got[k].lease.messageId)
  }

  lemma FreshlyOwned(s: Stream, w: WorkerID, ids: seq<nat>, ones: seq<nat>)
    requires |ones| == |ids| && forall i :: 0 <= i < |ones| ==> ones[i] == 1
    requires forall e :: e in ids ==> e in s.pel && s.pel[e].owner == w && s.pel[e].count == 1
    ensures AllOwned(s, w, ids, ones)
  {
    forall i | 0 <= i < |ids|
      ensures Owns(s, Lease(ids[i], w, ones[i], 0))
    {
      assert ids[i] in ids;
    }
  }

  /** The delivery counts of pending entries. */
  function CountsIn(pel: map<nat, Pending>, ids: seq<nat>): (r: seq<nat>)
    requires forall i :: 0 <= i < |ids| ==> ids[i] in pel
    ensures |r| == |ids| && forall i :: 0 <= i < |ids| ==> r[i] == pel[ids[i]].count
  {
    seq(|ids|, i requires 0 <= i < |ids| => pel[ids[i]].count)
  }

  lemma TakenOverCounts(s: Stream, w: WorkerID, minIdle: int, ids: seq<nat>)
    requires forall e :: e in ids ==> Idle(s, e, minIdle)
    ensures var now := TakenOver(s, w, ids);
            && (forall i :: 0 <= i < |ids| ==> ids[i] in s.pel && ids[i] in now.pel && now.pel[ids[i]].count == s.pel[ids[i]].count + 1)
            && AllOwned(now, w, ids, CountsIn(now.pel, ids))
  {
    forall i | 0 <= i < |ids|
      ensures Idle(s, ids[i], minIdle) && TakenOver(s, w, ids).pel[ids[i]] == Pending(w, s.pel[ids[i]].count + 1, s.clock)
    {
      assert ids[i] in ids;
    }
  }

  /** An XREADGROUP under way: the entries in `ids` were read, oldest first. */
  ghost predicate Reading(start: Stream, now: Stream, w: WorkerID, ids: seq<nat>) {
    && now == Run(start, Reads(w, |ids|)) && Shape(now)
    && now.clock == start.clock && start.lastDelivered <= now.lastDelivered && now.entries == start.entries
    && Increasing(ids) && (forall e :: e in ids ==> e in Ready(start) && e <= now.lastDelivered)
    && now.pel == start.pel + FreshPending(ids, w, start.clock)
  }

  /** First deliveries. */
  function FreshPending(ids: seq<nat>, w: WorkerID, clock: nat): map<nat, Pending> {
    map e | e in ids :: Pending(w, 1, clock)
  }

  lemma FreshPendingMore(pel: map<nat, Pending>, ids: seq<nat>, w: WorkerID, clock: nat, e: nat)
    ensures (pel + FreshPending(ids, w, clock))[e := Pending(w, 1, clock)] == pel + FreshPending(ids + [e], w, clock)
  {
    var a, b := (pel + FreshPending(ids, w, clock))[e := Pending(w, 1, clock)], pel + FreshPending(ids + [e], w, clock);
    assert forall x :: x in ids + [e] <==> x in ids || x == e;
    assert a.Keys == b.Keys;
  }

  lemma ReadingBegins(start: Stream, w: WorkerID)
    requires Shape(start)
    ensures Reading(start, Touch(start, w), w, [])
  {
    ReadsNone(start, w);
    ShapeKept(start, Seen(w));
    assert start.pel + FreshPending([], w, start.clock) == start.pel;
  }

  // ----- what a claim or a recovery acquires

  /** The entries of these jobs. */
  function EntriesOf(got: seq<Delivery>): set<nat> {
    set d | d in got :: d.lease.messageId
  }

  /** The deliveries that are pending now and were not, or not under this count, before. */
  function Acquired(s: Stream, t: Stream): set<nat> {
    set e | e in t.pel && (e !in s.pel || s.pel[e].count < t.pel[e].count)
  }

  /** Deliveries that were pending stay with their holders, and new ones are of entries never delivered before. */
  ghost predicate KeepsPending(s: Stream, t: Stream) {
    && s.lastDelivered <= t.lastDelivered
    && (forall e :: e in s.pel ==> e in t.pel && t.pel[e] == s.pel[e])
    && (forall e :: e in s.pel && e in s.entries ==> e in t.entries && t.entries[e] == s.entries[e])
    && (forall e :: e in t.pel && e !in s.pel ==> s.lastDelivered < e)
  }

  /** Pending deliveries changed hands or were settled; nothing new was added or delivered. */
  ghost predicate OnlyTakes(s: Stream, t: Stream) {
    && t.lastDelivered == s.lastDelivered && t.pel.Keys <= s.pel.Keys
    && (forall e :: e in t.entries ==> e in s.entries && s.entries[e] == t.entries[e])
  }

  /** The deliveries that changed hands. */
  function TakenIn(s: Stream, t: Stream): set<nat> {
    set e | e in s.pel && e in t.pel && s.pel[e].count < t.pel[e].count
  }

  /** A recovery and then a claim acquire what each of them acquired. */
  lemma AcquiredTwice(s: Stream, m: Stream, t: Stream)
    requires Shape(s) && OnlyTakes(s, m) && KeepsPending(m, t)
    ensures Acquired(s, t) == Acquired(s, m) + Acquired(m, t) && TakenIn(s, t) == Acquired(s, m)
    ensures Unreadable(m) ==> Unreadable(s)
  {
    if Unreadable(m) {
      var e :| e in Ready(m) && m.entries[e].Malformed?;
      assert e in Ready(s);
    }
  }

  lemma EntriesJoin(a: seq<Delivery>, b: seq<Delivery>)
    ensures EntriesOf(a + b) == EntriesOf(a) + EntriesOf(b)
  {
    forall e | e in EntriesOf(a) + EntriesOf(b)
      ensures e in EntriesOf(a + b)
    {
      if e in EntriesOf(a) {
        var d :| d in a && d.lease.messageId == e;
        assert d in a + b;
      } else {
        var d :| d in b && d.lease.messageId == e;
        assert d in a + b;
      }
    }
  }

  /** A claim takes nothing from those who hold jobs. */
  lemma StillHeld(s: Stream, t: Stream, jobs: seq<Delivery>)
    requires KeepsPending(s, t) && forall d :: d in jobs ==> HeldBy(s, d)
    ensures forall d :: d in jobs ==> HeldBy(t, d)
  {
  }

  lemma TakesNothing(s: Stream)
    ensures OnlyTakes(s, s) && Acquired(s, s) == {}
  {
  }

  /** Some undelivered entry cannot be parsed. */
  ghost predicate Unreadable(s: Stream) {
    exists e :: e in Ready(s) && s.entries[e].Malformed?
  }

  /** Only jobs were added, and nothing was delivered or taken. */
  ghost predicate AddsJobs(s: Stream, t: Stream) {
    && t.pel == s.pel && t.lastDelivered == s.lastDelivered && t.clock == s.clock
    && (forall e :: e in s.entries ==> e in t.entries && t.entries[e] == s.entries[e])
    && forall e :: e in t.entries && t.entries[e].Malformed? ==> e in s.entries && s.entries[e] == t.entries[e]
  }

  lemma PromotionAddsJobs(s: Stream, id: JobID, now: int)
    requires Shape(s)
    ensures AddsJobs(s, Apply(s, PromoteOne(id, now)))
  {
  }

  lemma {:induction false} PromotionsAddJobs(s: Stream, ids: seq<JobID>, now: int)
    requires Shape(s)
    ensures AddsJobs(s, Run(s, PromoteOps(ids, now)))
    decreases |ids|
  {
    if ids == [] {
      assert PromoteOps(ids, now) == [];
    } else {
      var next := Apply(s, PromoteOne(ids[0], now));
      assert PromoteOps(ids, now)[0] == PromoteOne(ids[0], now) && PromoteOps(ids, now)[1..] == PromoteOps(ids[1..], now);
      assert Run(s, PromoteOps(ids, now)) == Run(next, PromoteOps(ids[1..], now));
      PromotionAddsJobs(s, ids[0], now);
      ShapeKept(s, PromoteOne(ids[0], now));
      PromotionsAddJobs(next, ids[1..], now);
    }
  }

  /** These undelivered entries were read, possibly after jobs were added; the rest is as it was. */
  ghost predicate ClaimedInto(s: Stream, t: Stream, w: WorkerID, ids: seq<nat>) {
    && t.pel == s.pel + FreshPending(ids, w, s.clock) && s.lastDelivered <= t.lastDelivered
    && (forall e :: e in ids ==> e !in s.pel && s.lastDelivered < e)
    && (forall e :: e in s.entries ==> e in t.entries && t.entries[e] == s.entries[e])
    && (forall e :: e in t.entries && t.entries[e].Malformed? ==> e in s.entries && s.entries[e] == t.entries[e])
  }

  lemma ClaimConserves(s: Stream, promoted: seq<JobID>, now: int, w: WorkerID, n: nat)
    requires Shape(s)
    ensures var t := Run(s, PromoteOps(promoted, now) + Reads(w, n)); Placed(s) ==> Placed(t) && Stored(t) == Stored(s)
  {
    if Placed(s) {
      QuietRunConserves(s, PromoteOps(promoted, now) + Reads(w, n));
    }
  }

  lemma ClaimedThrough(s: Stream, m: Stream, t: Stream, w: WorkerID, ids: seq<nat>)
    requires AddsJobs(s, m) && ClaimedInto(m, t, w, ids)
    ensures ClaimedInto(s, t, w, ids)
  {
  }

  lemma {:induction false} ParsedExactly(es: map<nat, Fields>, w: WorkerID, ids: seq<nat>, tokens: seq<nat>)
    requires |ids| == |tokens| && forall e :: e in ids ==> e in es
    ensures EntriesOf(Parsed(es, w, ids, tokens)) == Parsable(es, ids)
    ensures (forall e :: e in ids ==> es[e].JobFields?) ==> |Parsed(es, w, ids, tokens)| == |ids|
    decreases |ids|
  {
    if ids != [] {
      var n := |ids| - 1;
      var init, last := ids[..n], ids[n];
      assert ids == init + [last] && last in ids;
      ParsedExactly(es, w, init, tokens[..n]);
      var rest := Parsed(es, w, init, tokens[..n]);
      if es[last].JobFields? {
        var d := Delivery(es[last].job, Lease(last, w, tokens[n], 0));
        EntriesOfSnoc(rest, d);
        assert Parsable(es, ids) == Parsable(es, init) + {last};
      } else {
        assert Parsable(es, ids) == Parsable(es, init);
      }
    }
  }

  function Parsable(es: map<nat, Fields>, ids: seq<nat>): set<nat> {
    set e | e in ids && e in es && es[e].JobFields?
  }

  lemma EntriesOfSnoc(got: seq<Delivery>, d: Delivery)
    ensures EntriesOf(got + [d]) == EntriesOf(got) + {d.lease.messageId}
  {
    forall e | e in EntriesOf(got) + {d.lease.messageId}
      ensures e in EntriesOf(got + [d])
    {
      if e in EntriesOf(got) {
        var x :| x in got && x.lease.messageId == e;
        assert x in got + [d];
      } else {
        assert d in got + [d];
      }
    }
  }

  /** What was read and parses is what the claim acquired; holders keep theirs; and too little means the end or an unreadable entry. */
  lemma ClaimResults(s: Stream, t: Stream, w: WorkerID, ids: seq<nat>, limit: nat)
    requires Shape(s) && Shape(t) && ClaimedInto(s, t, w, ids) && Increasing(ids) && AllOwned(t, w, ids, Ones(|ids|))
    requires (forall e :: e in ids ==> e in t.entries) && (|ids| == limit || Ready(t) == {})
    ensures var q, got := Quarantined(t, w, ids, Ones(|ids|)), Parsed(t.entries, w, ids, Ones(|ids|));
            && KeepsPending(s, q) && EntriesOf(got) == Parsable(t.entries, ids) == Acquired(s, q)
            && (|got| < limit ==> Ready(q) == {} || Unreadable(s)) && (Unreadable(q) ==> Unreadable(s))
  {
    var q, got := Quarantined(t, w, ids, Ones(|ids|)), Parsed(t.entries, w, ids, Ones(|ids|));
    QuarantinedFacts(t, w, ids, Ones(|ids|));
    ParsedExactly(t.entries, w, ids, Ones(|ids|));
    AcquiredAfterQuarantine(s, t, q, w, ids);
    LeftAfterQuarantine(s, t, q, w, ids);
    if |got| < limit && Ready(q) != {} {
      assert |got| < |ids|;
      var e :| e in ids && t.entries[e].Malformed?;
      UnreadableBefore(s, t, w, ids, e);
    }
  }

  lemma UnreadableBefore(s: Stream, t: Stream, w: WorkerID, ids: seq<nat>, e: nat)
    requires ClaimedInto(s, t, w, ids) && e in t.entries && t.entries[e].Malformed? && s.lastDelivered < e
    ensures Unreadable(s)
  {
    assert e in Ready(s);
  }

  lemma LeftAfterQuarantine(s: Stream, t: Stream, q: Stream, w: WorkerID, ids: seq<nat>)
    requires ClaimedInto(s, t, w, ids) && q.lastDelivered == t.lastDelivered && q.entries == t.entries - Unparsable(t.entries, ids)
    ensures Ready(q) <= Ready(t) && (Unreadable(q) ==> Unreadable(s))
  {
    if Unreadable(q) {
      var e :| e in Ready(q) && q.entries[e].Malformed?;
      UnreadableBefore(s, t, w, ids, e);
    }
  }

  /** What was taken over and parses is what the recovery acquired; other holders keep theirs. */
  lemma RecoverResults(s: Stream, w: WorkerID, ids: seq<nat>, tokens: seq<nat>)
    requires var t := TakenOver(s, w, ids); Shape(t) && Increasing(ids) && |tokens| == |ids| && AllOwned(t, w, ids, tokens)
    requires forall e :: e in ids ==> e in s.entries && e in s.pel
    ensures var t := TakenOver(s, w, ids);
            var q, got := Quarantined(t, w, ids, tokens), Parsed(t.entries, w, ids, tokens);
            && EntriesOf(got) == Parsable(s.entries, ids) == Acquired(s, q)
            && (forall e :: e in s.pel && e !in ids ==> e in q.pel && q.pel[e] == s.pel[e])
            && OnlyTakes(s, q)
  {
    var t := TakenOver(s, w, ids);
    QuarantinedFacts(t, w, ids, tokens);
    ParsedExactly(t.entries, w, ids, tokens);
    AcquiredByTakeover(s, Quarantined(t, w, ids, tokens), w, ids);
  }

  lemma AcquiredByTakeover(s: Stream, q: Stream, w: WorkerID, ids: seq<nat>)
    requires forall e :: e in ids ==> e in s.entries && e in s.pel
    requires q.pel == TakenOver(s, w, ids).pel - Unparsable(s.entries, ids)
    ensures Acquired(s, q) == Parsable(s.entries, ids)
    ensures forall e :: e in s.pel && e !in ids ==> e in q.pel && q.pel[e] == s.pel[e]
  {
    assert forall e :: e in ids ==> s.entries[e].JobFields? || s.entries[e].Malformed?;
  }

  lemma NothingAcquired(s: Stream, t: Stream)
    requires KeepsPending(s, t) && Acquired(s, t) == {}
    ensures t.pel == s.pel
  {
    assert forall e :: e in t.pel ==> e in s.pel || e in Acquired(s, t);
  }

  /** Reading less than there is hands out nothing when what was read cannot be parsed: the job behind it stays undelivered. */
  lemma UnreadableHidesReady(job: Job, w: WorkerID)
    ensures var s := AddEntry(AddEntry(EMPTY, Malformed("?")), JobFields(job));
            && Unreadable(s) && Ready(Run(s, Reads(w, 1))) == {2}
            && Parsed(s.entries, w, [1], Ones(1)) == []
  {
    var s := AddEntry(AddEntry(EMPTY, Malformed("?")), JobFields(job));
    assert Ready(s) == {1, 2} && MinOf(Ready(s)) == 1;
    ReadsNone(s, w);
    ReadsOneMore(s, w, 0);
    assert Ready(Touch(s, w)) == {1, 2} && MinOf(Ready(Touch(s, w))) == 1;
    assert Parsed(s.entries, w, [1][..0], Ones(1)[..0]) == [];
  }

  lemma AcquiredAfterQuarantine(s: Stream, t: Stream, q: Stream, w: WorkerID, ids: seq<nat>)
    requires ClaimedInto(s, t, w, ids) && Shape(t) && (forall e :: e in ids ==> e in t.entries)
    requires q.pel == t.pel - Unparsable(t.entries, ids) && q.entries == t.entries - Unparsable(t.entries, ids)
    requires q.lastDelivered == t.lastDelivered
    ensures KeepsPending(s, q) && Acquired(s, q) == Parsable(t.entries, ids)
  {
    assert forall e :: e in ids ==> t.entries[e].JobFields? || t.entries[e].Malformed?;
  }

  lemma ReadOneEffect(s: Stream, w: WorkerID)
    requires Shape(s) && Ready(s) != {}
    ensures var e, next := MinOf(Ready(s)), Apply(s, ReadOne(w));
            && e in s.entries && s.lastDelivered < e && Shape(next)
            && next.lastDelivered == e && next.pel == s.pel[e := Pending(w, 1, s.clock)]
            && next.entries == s.entries && next.clock == s.clock
  {
    ReadsOldestFirst(s);
    ShapeKept(s, ReadOne(w));
  }

  lemma ReadingGoesOn(start: Stream, now: Stream, w: WorkerID, ids: seq<nat>)
    requires Reading(start, now, w, ids) && Ready(now) != {}
    ensures Reading(start, Apply(now, ReadOne(w)), w, ids + [MinOf(Ready(now))])
  {
    var e, next := MinOf(Ready(now)), Apply(now, ReadOne(w));
    ReadOneEffect(now, w);
    ReadsOneMore(start, w, |ids|);
    IncreasingSnoc(ids, e);
    FreshPendingMore(start.pel, ids, w, start.clock, e);
    assert e in Ready(start);
  }

  lemma HandedAfterParsing(s: Stream, w: WorkerID, ids: seq<nat>, tokens: seq<nat>)
    requires Shape(s) && Increasing(ids) && |ids| == |tokens| && AllOwned(s, w, ids, tokens)
    requires forall e :: e in ids ==> e in s.entries
    ensures var q, got := Quarantined(s, w, ids, tokens), Parsed(s.entries, w, ids, tokens);
            && |got| <= |ids| && Handed(q, w, got)
            && (forall d :: d in got ==> d.lease.partition == 0 && d.lease.messageId in ids)
            && (forall d :: d in got ==> d.lease.messageId in s.pel && d.lease.token == s.pel[d.lease.messageId].count)
            && (Placed(s) ==> Placed(q) && Stored(q) == Stored(s))
  {
    QuarantinedFacts(s, w, ids, tokens);
    ParsedAt(s.entries, w, ids, tokens);
    var q, got := Quarantined(s, w, ids, tokens), Parsed(s.entries, w, ids, tokens);
    forall k | 0 <= k < |got|
      ensures HeldBy(q, got[k]) && got[k].lease.owner == w && got[k].lease.partition == 0 && got[k].lease.messageId in ids
      ensures got[k].lease.messageId in s.pel && got[k].lease.token == s.pel[got[k].lease.messageId].count
    {
      assert ParsedFrom(s.entries, w, ids, tokens, got[k]);
      var i :| 0 <= i < |ids| && got[k].lease == Lease(ids[i], w, tokens[i], 0);
      assert Owns(s, Lease(ids[i], w, tokens[i], 0));
    }
  }

  /** Results of running fenced ops one at a time: did each still own its entry? */
  function Verdicts(s: Stream, ops: seq<Op>): seq<bool>
    requires forall op :: op in ops ==> op.Ack? || op.Extend?
    decreases |ops|
  {
    if ops == [] then [] else [Owns(s, ops[0].lease)] + Verdicts(Apply(s, ops[0]), ops[1..])
  }

  lemma {:induction false} VerdictsSnoc(s: Stream, a: seq<Op>, op: Op)
    requires forall x :: x in a + [op] ==> x.Ack? || x.Extend?
    requires op.Ack? || op.Extend?
    requires forall x :: x in a ==> x.Ack? || x.Extend?
    ensures Verdicts(s, a + [op]) == Verdicts(s, a) + [Owns(Run(s, a), op.lease)]
    decreases |a|
  {
    if a == [] {
      assert a + [op] == [op];
      assert Verdicts(Apply(s, op), [op][1..]) == [];
    } else {
      assert (a + [op])[1..] == a[1..] + [op];
      assert (a + [op])[0] == a[0];
      VerdictsSnoc(Apply(s, a[0]), a[1..], op);
    }
  }

  /** The schedule without the given jobs. */
  function Unscheduled(schedule: map<JobID, int>, ids: seq<JobID>): map<JobID, int> {
    map id | id in schedule && id !in ids :: schedule[id]
  }

  lemma UnscheduledMore(schedule: map<JobID, int>, ids: seq<JobID>, i: nat)
    requires i < |ids| && Distinct(ids) && forall id :: id in ids ==> id in schedule
    ensures ids[i] in Unscheduled(schedule, ids[..i]) && Unscheduled(schedule, ids[..i])[ids[i]] == schedule[ids[i]]
    ensures Unscheduled(schedule, ids[..i + 1]) == Unscheduled(schedule, ids[..i]) - {ids[i]}
  {
    assert ids[i] in ids && ids[i] !in ids[..i];
    assert ids[..i + 1] == ids[..i] + [ids[i]];
  }

  class Store {
    var entries: map<nat, Fields>
    var lastId: nat
    var lastDelivered: nat
    var pel: map<nat, Pending>
    var schedule: map<JobID, int>
    var data: map<JobID, Job>
    var dead: seq<DeadEntry>
    var dedupe: map<string, Dedupe>
    var consumers: map<WorkerID, nat>
    var clock: nat
    var completed: set<JobID>
    const window: nat
    var recoverCursor: nat

    ghost function Abs(): Stream
      reads this
    {
      Stream(entries, lastId, lastDelivered, pel, schedule, data, dead, dedupe, consumers, clock, completed)
    }

    ghost predicate Valid()
      reads this
    {
      Shape(Abs())
    }

    constructor (window: nat)
      ensures Valid() && Abs() == EMPTY && recoverCursor == 0
    {
      entries, lastId, lastDelivered, pel := map[], 0, 0, map[];
      schedule, data, dead, dedupe := map[], map[], [], map[];
      consumers, clock, completed := map[], 0, {};
      this.window := window;
      recoverCursor := 0;
    }

    // ----- leaseLua

    predicate OwnsLease(l: Lease)
      reads this
    {
      l.messageId in pel && pel[l.messageId].owner == l.owner && pel[l.messageId].count == l.token
    }

    method Renew(l: Lease)
      requires Valid() && OwnsLease(l)
      modifies `pel, `consumers
      ensures Valid() && Abs() == Apply(old(Abs()), Extend(l))
    {
      ghost var before := Abs();
      consumers := consumers[l.owner := clock];
      pel := pel[l.messageId := pel[l.messageId].(touched := clock)];
      ShapeKept(before, Extend(l));
    }

    /** The bookkeeping of an ack: the entry leaves the PEL and the stream. */
    method SettleCompleted(l: Lease)
      requires Valid() && OwnsLease(l)
      modifies `pel, `entries, `completed
      ensures Valid() && Abs() == Apply(old(Abs()), Ack(l))
    {
      ghost var before := Abs();
      completed := completed + (if l.messageId in entries then JobIds(entries[l.messageId]) else {});
      pel := pel - {l.messageId};
      entries := entries - {l.messageId};
      ShapeKept(before, Ack(l));
    }

    // ----- single fenced scripts

    method AckOne(l: Lease) returns (ok: bool)
      requires Valid()
      modifies `pel, `entries, `completed
      ensures Valid() && Abs() == Apply(old(Abs()), Ack(l)) && ok == Owns(old(Abs()), l)
      ensures ok == (l.messageId in old(pel) && old(pel)[l.messageId].owner == l.owner && old(pel)[l.messageId].count == l.token)
      ensures ok ==> entries == old(entries) - {l.messageId} && pel == old(pel) - {l.messageId}
      ensures ok ==> completed == old(completed) + set job | job in JobsAt(old(entries), l.messageId) :: job.id
      ensures !ok ==> entries == old(entries) && pel == old(pel) && completed == old(completed)
    {
      ok := OwnsLease(l);
      if ok {
        SettleCompleted(l);
      }
    }

    method ExtendOne(l: Lease) returns (ok: bool)
      requires Valid()
      modifies `pel, `consumers
      ensures Valid() && Abs() == Apply(old(Abs()), Extend(l)) && ok == Owns(old(Abs()), l)
      ensures ok == (l.messageId in old(pel) && old(pel)[l.messageId].owner == l.owner && old(pel)[l.messageId].count == l.token)
      ensures ok ==> pel == old(pel)[l.messageId := Pending(l.owner, l.token, clock)] && consumers == old(consumers)[l.owner := clock]
      ensures !ok ==> pel == old(pel) && consumers == old(consumers)
    {
      ok := OwnsLease(l);
      if ok {
        Renew(l);
      }
    }

    /** Store.Retry: the schedule gets the handed job with its attempt bumped. */
    method RetryOne(d: Delivery, runAt: int) returns (ok: bool)
      requires Valid()
      modifies `pel, `entries, `schedule, `data
      ensures Valid() && Abs() == Apply(old(Abs()), Retry(d.lease, NextAttempt(d.job), runAt))
      ensures ok == Owns(old(Abs()), d.lease)
      ensures ok ==> entries == old(entries) - {d.lease.messageId} && pel == old(pel) - {d.lease.messageId}
      ensures ok ==> schedule == old(schedule)[d.job.id := runAt] && data == old(data)[d.job.id := d.job.(attempt := d.job.attempt + 1)]
      ensures !ok ==> Abs() == old(Abs())
    {
      ShapeKept(Abs(), Retry(d.lease, NextAttempt(d.job), runAt));
      ok := OwnsLease(d.lease);
      if ok {
        var next := NextAttempt(d.job);
        data := data[next.id := next];
        schedule := schedule[next.id := runAt];
        pel := pel - {d.lease.messageId};
        entries := entries - {d.lease.messageId};
      }
    }

    method DeadLetterOne(l: Lease, entry: DeadEntry) returns (ok: bool)
      requires Valid()
      modifies `pel, `entries, `dead
      ensures Valid() && Abs() == Apply(old(Abs()), DeadLetter(l, entry)) && ok == Owns(old(Abs()), l)
      ensures ok ==> entries == old(entries) - {l.messageId} && pel == old(pel) - {l.messageId} && dead == old(dead) + [entry]
      ensures !ok ==> Abs() == old(Abs())
    {
      ghost var before := Abs();
      ok := OwnsLease(l);
      if ok {
        dead := dead + [entry];
        pel := pel - {l.messageId};
        entries := entries - {l.messageId};
      }
      ShapeKept(before, DeadLetter(l, entry));
    }

    // ----- each_owned

    /** ackBatchScript: the same results and state as acking one at a time, in order. */
    method AckBatch(ls: seq<Lease>) returns (out: seq<bool>)
      requires Valid()
      modifies `pel, `entries, `completed
      ensures Valid() && Abs() == Run(old(Abs()), Acks(ls)) && out == Verdicts(old(Abs()), Acks(ls))
    {
      out := [];
      var i := 0;
      assert Acks(ls[..0]) == [];
      while i < |ls|
        invariant 0 <= i <= |ls| && Valid()
        invariant Abs() == Run(old(Abs()), Acks(ls[..i]))
        invariant out == Verdicts(old(Abs()), Acks(ls[..i]))
      {
        assert Acks(ls[..i + 1]) == Acks(ls[..i]) + [Ack(ls[i])];
        RunSnoc(old(Abs()), Acks(ls[..i]), Ack(ls[i]));
        VerdictsSnoc(old(Abs()), Acks(ls[..i]), Ack(ls[i]));
        if OwnsLease(ls[i]) {
          SettleCompleted(ls[i]);
          out := out + [true];
        } else {
          out := out + [false];
        }
        i := i + 1;
      }
      assert ls[..i] == ls;
    }

    /** extendBatchScript. */
    method ExtendBatch(ls: seq<Lease>) returns (out: seq<bool>)
      requires Valid()
      modifies `pel, `consumers
      ensures Valid() && Abs() == Run(old(Abs()), Extends(ls)) && out == Verdicts(old(Abs()), Extends(ls))
    {
      out := [];
      var i := 0;
      assert Extends(ls[..0]) == [];
      while i < |ls|
        invariant 0 <= i <= |ls| && Valid()
        invariant Abs() == Run(old(Abs()), Extends(ls[..i]))
        invariant out == Verdicts(old(Abs()), Extends(ls[..i]))
      {
        assert Extends(ls[..i + 1]) == Extends(ls[..i]) + [Extend(ls[i])];
        RunSnoc(old(Abs()), Extends(ls[..i]), Extend(ls[i]));
        VerdictsSnoc(old(Abs()), Extends(ls[..i]), Extend(ls[i]));
        if OwnsLease(ls[i]) {
          Renew(ls[i]);
          out := out + [true];
        } else {
          out := out + [false];
        }
        i := i + 1;
      }
      assert ls[..i] == ls;
    }

    // ----- enqueue

    /** XADD. */
    method AddToStream(f: Fields)
      modifies `entries, `lastId
      ensures Abs() == AddEntry(old(Abs()), f)
    {
      lastId := lastId + 1;
      entries := entries[lastId := f];
    }

    /** HSET and ZADD. */
    method AddToSchedule(job: Job, runAt: int)
      modifies `schedule, `data
      ensures Abs() == AddScheduled(old(Abs()), job, runAt)
    {
      data := data[job.id := job];
      schedule := schedule[job.id := runAt];
    }

    /** enqueueOnceScript. */
    method EnqueueOnce(key: string, job: Job, runAt: int) returns (id: JobID)
      requires Valid()
      modifies `entries, `lastId, `schedule, `data, `dedupe
      ensures Valid() && Abs() == Apply(old(Abs()), Once(key, job, window, runAt))
      ensures id == OnceReply(old(Abs()), Once(key, job, window, runAt))
      ensures key in old(dedupe) && clock <= old(dedupe)[key].expires ==> Abs() == old(Abs()) && id == old(dedupe)[key].id
      ensures !(key in old(dedupe) && clock <= old(dedupe)[key].expires) ==>
        && id == job.id && dedupe == old(dedupe)[key := Dedupe(job.id, clock + window)]
        && (runAt > 0 ==> entries == old(entries) && schedule == old(schedule)[job.id := runAt] && data == old(data)[job.id := job])
        && (runAt <= 0 ==> entries == old(entries)[old(lastId) + 1 := JobFields(job)] && schedule == old(schedule) && data == old(data))
    {
      ShapeKept(Abs(), Once(key, job, window, runAt));
      if key in dedupe && clock <= dedupe[key].expires {
        id := dedupe[key].id;
      } else {
        id := job.id;
        dedupe := dedupe[key := Dedupe(job.id, clock + window)];
        AddNew(job, runAt);
      }
    }

    /** Onto the schedule when it has a run time, onto the stream when not. */
    method AddNew(job: Job, runAt: int)
      modifies `entries, `lastId, `schedule, `data
      ensures Abs() == if runAt > 0 then AddScheduled(old(Abs()), job, runAt) else AddEntry(old(Abs()), JobFields(job))
    {
      if runAt > 0 {
        AddToSchedule(job, runAt);
      } else {
        AddToStream(JobFields(job));
      }
    }

    /** Store.Enqueue. */
    method EnqueueOne(r: Request, now: int) returns (id: JobID)
      requires Valid()
      modifies `entries, `lastId, `schedule, `data, `dedupe
      ensures Valid() && Abs() == Apply(old(Abs()), EnqueueOp(r, now, window))
      ensures id == EnqueueReply(old(Abs()), r, now, window)
      ensures var known := r.key != "" && r.key in old(dedupe) && clock <= old(dedupe)[r.key].expires;
              && (known ==> Abs() == old(Abs()) && id == old(dedupe)[r.key].id)
              && (!known ==> id == r.job.id)
              && (!known && r.job.availableAt > now >= 0 ==>
                    entries == old(entries) && schedule == old(schedule)[r.job.id := r.job.availableAt] && data == old(data)[r.job.id := r.job])
              && (!known && r.job.availableAt <= now ==>
                    entries == old(entries)[old(lastId) + 1 := JobFields(r.job)] && schedule == old(schedule) && data == old(data))
    {
      id := StoreOne(r, now);
    }

    /** One enqueue, alone or inside a transaction. */
    method StoreOne(r: Request, now: int) returns (id: JobID)
      requires Valid()
      modifies `entries, `lastId, `schedule, `data, `dedupe
      ensures Valid() && Abs() == Apply(old(Abs()), EnqueueOp(r, now, window))
      ensures id == EnqueueReply(old(Abs()), r, now, window)
    {
      ghost var before := Abs();
      if r.key != "" {
        id := EnqueueOnce(r.key, r.job, if r.job.availableAt > now then r.job.availableAt else 0);
      } else {
        id := r.job.id;
        if r.job.availableAt > now {
          AddToSchedule(r.job, r.job.availableAt);
        } else {
          AddToStream(JobFields(r.job));
        }
        ShapeKept(before, EnqueueOp(r, now, window));
      }
    }

    /** Store.EnqueueBatch: one MULTI/EXEC, so the whole list or nothing. */
    method EnqueueBatch(rs: seq<Request>, now: int) returns (ids: seq<JobID>)
      requires Valid()
      modifies `entries, `lastId, `schedule, `data, `dedupe
      ensures Valid() && Abs() == Run(old(Abs()), EnqueueOps(rs, now, window))
      ensures |ids| == |rs|
      ensures forall i :: 0 <= i < |rs| ==>
        ids[i] == EnqueueReply(Run(old(Abs()), EnqueueOps(rs, now, window)[..i]), rs[i], now, window)
    {
      ids := [];
      var i := 0;
      ghost var ops := EnqueueOps(rs, now, window);
      while i < |rs|
        invariant 0 <= i <= |rs| && Valid()
        invariant Abs() == Run(old(Abs()), ops[..i])
        invariant |ids| == i
        invariant forall k :: 0 <= k < i ==> ids[k] == EnqueueReply(Run(old(Abs()), ops[..k]), rs[k], now, window)
      {
        assert ops[..i + 1] == ops[..i] + [ops[i]];
        RunSnoc(old(Abs()), ops[..i], ops[i]);
        var id := StoreOne(rs[i], now);
        ids := ids + [id];
        i := i + 1;
      }
      assert ops[..i] == ops;
    }

    // ----- promote

    /** ZRANGEBYSCORE -inf now LIMIT 0 limit: the earliest due job IDs. */
    method DueRange(now: int, limit: nat) returns (ids: seq<JobID>)
      requires Valid()
      ensures Distinct(ids) && |ids| <= limit
      ensures forall id :: id in ids ==> Due(Abs(), id, now)
      ensures |ids| == limit || forall id :: Due(Abs(), id, now) ==> id in ids
      ensures forall id, other :: id in ids && Due(Abs(), other, now) && other !in ids ==>
        id in schedule && schedule[id] <= schedule[other]
    {
      ids := [];
      var due := set id | id in schedule && schedule[id] <= now;
      while |ids| < limit && due != {}
        invariant Distinct(ids) && |ids| <= limit
        invariant forall id :: id in ids ==> Due(Abs(), id, now) && id !in due
        invariant forall id :: Due(Abs(), id, now) ==> id in ids || id in due
        invariant forall id :: id in due ==> Due(Abs(), id, now)
        invariant forall id, other :: id in ids && other in due ==> schedule[id] <= schedule[other]
        decreases |due|
      {
        EarliestExists(due);
        var id :| id in due && forall other :: other in due ==> schedule[id] <= schedule[other];
        due := due - {id};
        ids := ids + [id];
      }
    }

    lemma {:induction false} EarliestExists(due: set<JobID>)
      requires due != {} && forall id :: id in due ==> id in schedule
      ensures exists id :: id in due && forall other :: other in due ==> schedule[id] <= schedule[other]
    {
      var best := Earliest(due);
    }

    lemma {:induction false} Earliest(due: set<JobID>) returns (best: JobID)
      requires due != {} && forall id :: id in due ==> id in schedule
      ensures best in due && forall other :: other in due ==> schedule[best] <= schedule[other]
      decreases |due|
    {
      best :| best in due;
      var rest := due - {best};
      assert due == rest + {best};
      if rest != {} {
        var b := Earliest(rest);
        best := if schedule[b] <= schedule[best] then b else best;
      }
    }

    method PromoteId(id: JobID, now: int)
      requires Valid() && Due(Abs(), id, now)
      modifies `entries, `lastId, `schedule, `data
      ensures Valid() && Abs() == Apply(old(Abs()), PromoteOne(id, now))
      ensures schedule == old(schedule) - {id}
    {
      ghost var before := Abs();
      if id in data {
        AddToStream(JobFields(data[id]));
      }
      data := data - {id};
      schedule := schedule - {id};
      ShapeKept(before, PromoteOne(id, now));
    }

    /** promote: moves the earliest due jobs onto the stream, each once. */
    method Promote(now: int, limit: nat) returns (ids: seq<JobID>)
      requires Valid()
      modifies `entries, `lastId, `schedule, `data
      ensures Valid() && Abs() == Run(old(Abs()), PromoteOps(ids, now))
      ensures Distinct(ids) && |ids| <= limit
      ensures forall id :: id in ids ==> Due(old(Abs()), id, now)
      ensures |ids| == limit || forall id :: !Due(Abs(), id, now)
    {
      ids := DueRange(now, limit);
      PromoteAll(ids, now);
    }

    /** The loop of promote over the job IDs it was given. */
    method PromoteAll(ids: seq<JobID>, now: int)
      requires Valid() && Distinct(ids) && forall id :: id in ids ==> Due(Abs(), id, now)
      modifies `entries, `lastId, `schedule, `data
      ensures Valid() && Abs() == Run(old(Abs()), PromoteOps(ids, now))
      ensures schedule == Unscheduled(old(schedule), ids)
    {
      ghost var start := Abs();
      var i := 0;
      assert PromoteOps(ids[..0], now) == [];
      while i < |ids|
        invariant 0 <= i <= |ids| && Valid()
        invariant Abs() == Run(start, PromoteOps(ids[..i], now))
        invariant schedule == Unscheduled(start.schedule, ids[..i])
      {
        PromotedMore(start, ids, i, now);
        UnscheduledMore(start.schedule, ids, i);
        assert ids[i] in ids && Due(start, ids[i], now);
        PromoteId(ids[i], now);
        i := i + 1;
      }
      assert ids[..i] == ids;
    }

    // ----- claim

    /** XREADGROUP > COUNT count: the oldest undelivered entries, each at delivery count 1. */
    method ReadGroup(w: WorkerID, count: nat) returns (ids: seq<nat>)
      requires Valid()
      modifies `pel, `lastDelivered, `consumers
      ensures Valid() && Abs() == Run(old(Abs()), Reads(w, |ids|))
      ensures |ids| <= count && (|ids| == count || Ready(Abs()) == {})
      ensures Increasing(ids) && forall e :: e in ids ==> e in Ready(old(Abs()))
      ensures ClaimedInto(old(Abs()), Abs(), w, ids) && forall e :: e in ids ==> e in pel && pel[e] == Pending(w, 1, clock)
    {
      ghost var start := Abs();
      consumers := consumers[w := clock];
      ids := [];
      ReadingBegins(start, w);
      while |ids| < count && Undelivered() != {}
        invariant Reading(start, Abs(), w, ids) && |ids| <= count
        decreases count - |ids|
      {
        ReadingGoesOn(start, Abs(), w, ids);
        var e := ReadNext(w);
        ids := ids + [e];
      }
    }

    function Undelivered(): (r: set<nat>)
      reads this
      ensures r == Ready(Abs())
    {
      set e | e in entries && lastDelivered < e
    }

    method ReadNext(w: WorkerID) returns (e: nat)
      requires Valid() && Undelivered() != {}
      modifies `pel, `lastDelivered, `consumers
      ensures Valid() && Abs() == Apply(old(Abs()), ReadOne(w))
      ensures e == MinOf(Ready(old(Abs())))
    {
      ghost var before := Abs();
      e := MinOf(Undelivered());
      consumers := consumers[w := clock];
      pel := pel[e := Pending(w, 1, clock)];
      lastDelivered := e;
      ShapeKept(before, ReadOne(w));
    }

    /**
     Parses delivered entries; one that cannot be parsed goes straight to the
     dead-letter stream, with its raw fields.
     */
    method ParseOrQuarantine(w: WorkerID, ids: seq<nat>, tokens: seq<nat>) returns (got: seq<Delivery>)
      requires Valid() && Increasing(ids) && |tokens| == |ids| && AllOwned(Abs(), w, ids, tokens)
      modifies `pel, `entries, `dead
      ensures Valid() && Abs() == Quarantined(old(Abs()), w, ids, tokens)
      ensures forall e :: e in ids ==> e in old(entries)
      ensures got == Parsed(old(entries), w, ids, tokens)
    {
      ghost var start := Abs();
      got := [];
      var i := 0;
      OwnedAreStored(start, w, ids, tokens);
      while i < |ids|
        invariant 0 <= i <= |ids| && Valid()
        invariant Abs() == Quarantined(start, w, ids[..i], tokens[..i])
        invariant got == Parsed(start.entries, w, ids[..i], tokens[..i])
      {
        NextIsUntouched(start, w, ids, tokens, i);
        QuarantinedMore(start, w, ids, tokens, i);
        ParsedMore(start.entries, w, ids, tokens, i);
        var lease := Lease(ids[i], w, tokens[i], 0);
        var fields := entries[ids[i]];
        if fields.JobFields? {
          got := got + [Delivery(fields.job, lease)];
        } else {
          var ok := DeadLetterOne(lease, DeadEntry(fields, tokens[i], MalformedEntry));
        }
        i := i + 1;
      }
      assert ids[..i] == ids && tokens[..i] == tokens;
    }

    /** claimScript: promote what is due, at most 100 jobs, then read new entries, in one step. */
    method ClaimScript(w: WorkerID, count: nat, now: int) returns (ids: seq<nat>, ghost promoted: seq<JobID>)
      requires Valid()
      modifies `entries, `lastId, `lastDelivered, `pel, `schedule, `data, `consumers
      ensures Valid() && |ids| <= count && Increasing(ids)
      ensures Abs() == Run(old(Abs()), PromoteOps(promoted, now) + Reads(w, |ids|))
      ensures Distinct(promoted) && |promoted| <= 100 && forall id :: id in promoted ==> Due(old(Abs()), id, now)
      ensures |promoted| == 100 || forall id :: !Due(Abs(), id, now)
      ensures |ids| == count || Ready(Abs()) == {}
      ensures ClaimedInto(old(Abs()), Abs(), w, ids) && forall e :: e in ids ==> e in pel && pel[e] == Pending(w, 1, clock)
      ensures Placed(old(Abs())) ==> Placed(Abs()) && Stored(Abs()) == Stored(old(Abs()))
    {
      ghost var start := Abs();
      var moved := Promote(now, 100);
      promoted := moved;
      ghost var middle := Abs();
      PromotionsAddJobs(start, promoted, now);
      ids := ReadGroup(w, count);
      RunAppend(start, PromoteOps(promoted, now), Reads(w, |ids|));
      ReadsLeaveSchedule(middle, w, |ids|);
      ClaimedThrough(start, middle, Abs(), w, ids);
      ClaimConserves(start, promoted, now, w, |ids|);
    }

    /**
     Store.claimReady: claim up to limit entries and hand out the ones that
     parse. When the script's reply is lost the entries are claimed all the
     same, and none is parsed or quarantined.
     */
    method ClaimReady(w: WorkerID, limit: nat, now: int, heard: bool) returns (got: seq<Delivery>, ghost promoted: seq<JobID>, ghost ids: seq<nat>)
      requires Valid()
      modifies `entries, `lastId, `lastDelivered, `pel, `schedule, `data, `dead, `consumers
      ensures Valid() && |got| <= limit && |promoted| <= 100 && |ids| <= limit
      ensures var claimed := Run(old(Abs()), PromoteOps(promoted, now) + Reads(w, |ids|));
              && (|ids| == limit || Ready(claimed) == {})
              && (if heard then Abs() == Quarantined(claimed, w, ids, Ones(|ids|)) && EntriesOf(got) == Parsable(claimed.entries, ids)
                  else Abs() == claimed && got == [])
      ensures Handed(Abs(), w, got) && forall d :: d in got ==> d.lease.token == 1
      ensures KeepsPending(old(Abs()), Abs()) && (heard ==> EntriesOf(got) == Acquired(old(Abs()), Abs()))
      ensures heard && |got| < limit ==> Ready(Abs()) == {} || Unreadable(old(Abs()))
      ensures Unreadable(Abs()) ==> Unreadable(old(Abs()))
      ensures Placed(old(Abs())) ==> Placed(Abs()) && Stored(Abs()) == Stored(old(Abs()))
    {
      ghost var start := Abs();
      var read;
      read, promoted := ClaimScript(w, limit, now);
      ids, got := read, [];
      ghost var claimed := Abs();
      FreshlyOwned(claimed, w, read, Ones(|read|));
      ClaimResults(start, claimed, w, ids, limit);
      if heard {
        got := ParseOrQuarantine(w, read, Ones(|read|));
        HandedAfterParsing(claimed, w, read, Ones(|read|));
      }
    }

    /**
     Store.claimBlocking once the read returns: new entries only, nothing is
     promoted. When the reply is lost the entries are claimed all the same.
     */
    method ClaimBlocking(w: WorkerID, limit: nat, heard: bool) returns (got: seq<Delivery>, ghost ids: seq<nat>)
      requires Valid()
      modifies `entries, `lastDelivered, `pel, `dead, `consumers
      ensures Valid() && |got| <= limit && ReadFrom(old(Abs()), w, limit, ids)
      ensures if heard then Abs() == AfterRead(old(Abs()), w, ids) && got == Parsed(old(entries), w, ids, Ones(|ids|))
              else Abs() == Run(old(Abs()), Reads(w, |ids|)) && got == []
      ensures Handed(Abs(), w, got) && forall d :: d in got ==> d.lease.token == 1
      ensures KeepsPending(old(Abs()), Abs()) && (heard ==> EntriesOf(got) == Acquired(old(Abs()), Abs()))
      ensures heard && |got| < limit ==> Ready(Abs()) == {} || Unreadable(old(Abs()))
      ensures Placed(old(Abs())) ==> Placed(Abs()) && Stored(Abs()) == Stored(old(Abs()))
    {
      ghost var start := Abs();
      var read := ReadGroup(w, limit);
      ids := read;
      if Placed(start) {
        QuietRunConserves(start, Reads(w, |ids|));
      }
      got := [];
      ghost var now := Abs();
      FreshlyOwned(now, w, read, Ones(|read|));
      ClaimResults(start, now, w, ids, limit);
      if heard {
        got := ParseOrQuarantine(w, read, Ones(|read|));
        HandedAfterParsing(now, w, read, Ones(|read|));
      }
    }

    /**
     Store.Claim: what is ready, or else, when nothing was and the caller
     waits, what arrives meanwhile. `ready` is what the first claim gave and
     `middle` the state it left; if its reply was lost, Claim fails there.
     */
    method Claim(w: WorkerID, limit: nat, wait: int, now: int, heardReady: bool, heardWait: bool)
      returns (got: seq<Delivery>, failed: bool, ghost ready: seq<Delivery>, ghost middle: Stream, ghost ids: seq<nat>)
      requires Valid()
      modifies `entries, `lastId, `lastDelivered, `pel, `schedule, `data, `dead, `consumers
      ensures Valid() && |got| <= limit && Handed(middle, w, ready) && failed == !heardReady && (failed ==> ready == [])
      ensures failed || ready != [] || wait <= 0 ==> got == ready && Abs() == middle
      ensures !failed && ready == [] && wait > 0 ==> ReadFrom(middle, w, limit, ids)
      ensures !failed && ready == [] && wait > 0 && heardWait ==> Abs() == AfterRead(middle, w, ids)
      ensures !failed && ready == [] && wait > 0 && !heardWait ==> Abs() == Run(middle, Reads(w, |ids|)) && got == []
      ensures KeepsPending(old(Abs()), Abs())
      ensures !failed && heardWait ==> EntriesOf(got) == Acquired(old(Abs()), Abs())
      ensures !failed && heardWait && |got| < limit ==> Ready(Abs()) == {} || Unreadable(old(Abs()))
      ensures Handed(Abs(), w, got) && forall d :: d in got ==> d.lease.token == 1
      ensures Placed(old(Abs())) ==> Placed(Abs()) && Stored(Abs()) == Stored(old(Abs()))
    {
      ghost var start := Abs();
      ghost var promoted, read;
      got, promoted, read := ClaimReady(w, limit, now, heardReady);
      failed := !heardReady;
      ready, middle, ids := got, Abs(), [];
      if !failed && |got| == 0 && wait > 0 {
        NothingAcquired(start, middle);
        got, ids := ClaimBlocking(w, limit, heardWait);
      }
    }

    // ----- recovery

    function PendingFrom(cursor: nat): (r: set<nat>)
      reads this
      ensures r != {} ==> IsNext(Abs(), cursor, MinOf(r))
    {
      var r := set e | e in pel && cursor <= e;
      assert forall x :: x in pel && cursor <= x ==> x in r;
      r
    }

    /**
     XAUTOCLAIM: examines up to 10 * count pending entries from the cursor on,
     takes over the idle ones up to count, and returns the next entry it did
     not examine (0 at the end).
     */
    method XAutoClaim(w: WorkerID, minIdle: int, cursor: nat, count: nat) returns (next: nat, ids: seq<nat>)
      requires Valid() && count >= 1
      modifies `pel, `consumers
      ensures Valid() && Scan(old(Abs()), Abs(), w, minIdle, cursor, next, ids) && |ids| <= count
      ensures next == 0 || |ids| == count || |Between(old(Abs()), cursor, next)| >= 10 * count
    {
      ghost var start := Abs();
      consumers := consumers[w := clock];
      ids := [];
      var pos: nat, attempts: nat := cursor, 10 * count;
      assert TakenOver(start, w, []).pel == start.pel;
      while attempts > 0 && |ids| < count && PendingFrom(pos) != {}
        invariant |ids| <= count && Scanning(start, Abs(), w, minIdle, cursor, pos, ids)
        invariant attempts == 10 * count ==> ids == []
        invariant attempts < 10 * count ==> pos > cursor && pos - 1 in start.pel
        invariant attempts + |Between(start, cursor, pos)| == 10 * count
        decreases attempts
      {
        ghost var now := Abs();
        var e := MinOf(PendingFrom(pos));
        BetweenMore(start, now, cursor, pos, e);
        attempts := attempts - 1;
        if clock - pel[e].touched >= minIdle {
          ScanTakes(start, now, w, minIdle, cursor, pos, ids, e);
          TakePending(e, w);
          ids := ids + [e];
        } else {
          ScanSkips(start, now, w, minIdle, cursor, pos, ids, e);
        }
        pos := e + 1;
      }
      next := if PendingFrom(pos) == {} then 0 else MinOf(PendingFrom(pos));
      assert forall x :: x in pel && pos <= x ==> x in PendingFrom(pos);
      BetweenGrows(start, cursor, pos, next);
      ScanStops(start, Abs(), w, minIdle, cursor, pos, ids, next);
    }

    /** XCLAIM's effect on one pending entry. */
    method TakePending(e: nat, w: WorkerID)
      requires e in pel
      modifies `pel
      ensures var now := old(Abs()); Abs() == now.(pel := now.pel[e := Pending(w, now.pel[e].count + 1, now.clock)])
    {
      pel := pel[e := Pending(w, pel[e].count + 1, clock)];
    }

    /** recoverScript: up to ten XAUTOCLAIMs from the caller's cursor, until enough was found or the scan wrapped. */
    method RecoverScript(w: WorkerID, minIdle: int, want: nat, cursor: nat) returns (next: nat, ids: seq<nat>, tokens: seq<nat>)
      requires Valid() && want >= 1
      modifies `pel, `consumers
      ensures Valid() && Scan(old(Abs()), Abs(), w, minIdle, cursor, next, ids) && |ids| <= want
      ensures next == 0 || |ids| == want || |Between(old(Abs()), cursor, next)| >= 100
      ensures |tokens| == |ids| && AllOwned(Abs(), w, ids, tokens)
      ensures forall i :: 0 <= i < |ids| ==> ids[i] in old(pel) && tokens[i] == old(pel)[ids[i]].count + 1
    {
      ghost var start := Abs();
      next, ids := XAutoClaim(w, minIdle, cursor, want);
      var round := 1;
      while round < 10 && |ids| < want && next != 0
        invariant Valid() && Scan(start, Abs(), w, minIdle, cursor, next, ids) && |ids| <= want
        invariant 1 <= round <= 10 && (next == 0 || |ids| == want || |Between(start, cursor, next)| >= 10 * round)
      {
        ghost var middle, from, some := Abs(), next, ids;
        var more;
        next, more := XAutoClaim(w, minIdle, next, want - |ids|);
        SecondScanSeesOldState(start, middle, w, minIdle, cursor, from, some);
        BetweenJoins(start, middle, cursor, from, next);
        ScansCompose(start, middle, Abs(), w, minIdle, cursor, from, next, some, more);
        ids := ids + more;
        round := round + 1;
      }
      TakenOverCounts(start, w, minIdle, ids);
      tokens := CountsIn(pel, ids);
    }

    /**
     Store.RecoverExpired through the saved cursor. The scan it made starts at
     the old cursor, and its end is the new one. When the script's reply is lost
     the entries are taken over all the same, but the cursor stays and nothing
     is parsed or quarantined.
     */
    method RecoverExpired(w: WorkerID, visibility: int, limit: int, heard: bool) returns (got: seq<Delivery>, ghost call: Call)
      requires Valid()
      modifies `pel, `consumers, `entries, `dead, `recoverCursor
      ensures Valid() && |got| <= (if limit <= 0 then 0 else limit)
      ensures Handed(Abs(), w, got)
      ensures forall d :: d in got ==>
        Idle(old(Abs()), d.lease.messageId, visibility) && d.lease.token == old(pel)[d.lease.messageId].count + 1
      ensures Placed(old(Abs())) ==> Placed(Abs()) && Stored(Abs()) == Stored(old(Abs()))
      ensures limit > 0 ==> ScanOf(call) && call.before == old(Abs()) && call.cursor == old(recoverCursor) && call.minIdle == visibility
      ensures recoverCursor == if limit > 0 && heard then call.next else old(recoverCursor)
      ensures limit > 0 && !heard ==> Abs() == call.after && got == []
      ensures limit > 0 ==> call.next == 0 || |call.ids| == limit || |Between(call.before, call.cursor, call.next)| >= 100
      ensures limit > 0 && heard ==> EntriesOf(got) == Parsable(old(entries), call.ids) == Acquired(old(Abs()), Abs())
      ensures limit > 0 ==> forall e :: e in old(pel) && e !in call.ids ==> e in pel && pel[e] == old(pel)[e]
      ensures limit <= 0 ==> Abs() == old(Abs())
      ensures OnlyTakes(old(Abs()), Abs())
    {
      got := [];
      ghost var start := Abs();
      call := Call(start, start, w, visibility, recoverCursor, recoverCursor, []);
      if limit <= 0 {
        return;
      }
      var next, ids, tokens := RecoverScript(w, visibility, limit, recoverCursor);
      ghost var taken := Abs();
      call := Call(start, taken, w, visibility, recoverCursor, next, ids);
      ScanConserves(start, w, visibility, ids);
      if heard {
        recoverCursor := next;
        assert forall e :: e in ids ==> e in start.entries && e in start.pel;
        got := HandOutRecovered(w, ids, tokens, start);
      }
    }

    /** Parses the entries a recovery took over. */
    method HandOutRecovered(w: WorkerID, ids: seq<nat>, tokens: seq<nat>, ghost start: Stream) returns (got: seq<Delivery>)
      requires Valid() && Increasing(ids) && |tokens| == |ids| && Abs() == TakenOver(start, w, ids) && AllOwned(Abs(), w, ids, tokens)
      requires forall e :: e in ids ==> e in start.entries && e in start.pel
      modifies `pel, `entries, `dead
      ensures Valid() && |got| <= |ids| && Handed(Abs(), w, got)
      ensures forall d :: d in got ==> d.lease.messageId in ids && d.lease.token == start.pel[d.lease.messageId].count + 1
      ensures EntriesOf(got) == Parsable(start.entries, ids) == Acquired(start, Abs())
      ensures forall e :: e in start.pel && e !in ids ==> e in pel && pel[e] == start.pel[e]
      ensures OnlyTakes(start, Abs())
      ensures Placed(old(Abs())) ==> Placed(Abs()) && Stored(Abs()) == Stored(old(Abs()))
    {
      ghost var taken := Abs();
      RecoverResults(start, w, ids, tokens);
      got := ParseOrQuarantine(w, ids, tokens);
      HandedAfterParsing(taken, w, ids, tokens);
    }

    // ----- consumers

    /** deregisterScript. */
    method DeregisterOne(w: WorkerID) returns (ok: bool)
      requires Valid()
      modifies `consumers, `pel
      ensures Valid() && Abs() == Apply(old(Abs()), Deregister(w)) && pel == old(pel)
      ensures ok <==> HoldsNothing(old(Abs()), w)
    {
      ghost var before := Abs();
      ok := forall e :: e in pel ==> pel[e].owner != w;
      if ok {
        IdleConsumerDropsNothing(before, w);
        DropConsumer(w);
      }
      ShapeKept(before, Deregister(w));
    }

    /** XGROUP DELCONSUMER. */
    method DropConsumer(w: WorkerID)
      modifies `consumers, `pel
      ensures Abs() == DelConsumer(old(Abs()), w)
    {
      consumers := consumers - {w};
      pel := map e | e in pel && pel[e].owner != w :: pel[e];
    }

    method PruneConsumer(w: WorkerID, minIdle: int)
      requires Valid() && w in consumers && HoldsNothing(Abs(), w) && clock - consumers[w] >= minIdle
      modifies `consumers, `pel
      ensures Valid() && Abs() == Apply(old(Abs()), PruneOne(w, minIdle)) && pel == old(pel)
      ensures consumers == old(consumers) - {w} && |consumers| == |old(consumers)| - 1
    {
      ghost var before := Abs();
      IdleConsumerDropsNothing(before, w);
      ShapeKept(before, PruneOne(w, minIdle));
      DropConsumer(w);
      assert consumers.Keys == before.consumers.Keys - {w};
    }

    /** pruneConsumersScript: removes the consumers that hold nothing and have been idle long enough, and no others. */
    method Prune(minIdle: int) returns (removed: nat)
      requires Valid()
      modifies `consumers, `pel
      ensures Valid() && pel == old(pel)
      ensures forall w :: w in consumers <==>
        w in old(consumers) && !(HoldsNothing(old(Abs()), w) && clock - old(consumers)[w] >= minIdle)
      ensures removed == |old(consumers)| - |consumers|
    {
      removed := 0;
      var todo := consumers.Keys;
      while todo != {}
        invariant Valid() && pel == old(pel) && todo <= consumers.Keys
        invariant forall w :: w in consumers ==> w in old(consumers) && consumers[w] == old(consumers)[w]
        invariant forall w :: w in old(consumers) && w !in todo ==>
          (w in consumers <==> !(HoldsNothing(old(Abs()), w) && clock - old(consumers)[w] >= minIdle))
        invariant removed == |old(consumers)| - |consumers|
        decreases |todo|
      {
        var w :| w in todo;
        todo := todo - {w};
        if (forall e :: e in pel ==> pel[e].owner != w) && clock - consumers[w] >= minIdle {
          PruneConsumer(w, minIdle);
          removed := removed + 1;
        }
      }
    }
  }
}
