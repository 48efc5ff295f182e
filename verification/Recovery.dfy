/** The recovery scan over the pending list (recoverScript) and its saved cursor. */
module Recovery {
  import opened Jobs
  import opened Sets
  import opened Streams
  import opened Conservation

  predicate Idle(s: Stream, e: nat, minIdle: int) {
    e in s.pel && s.clock - s.pel[e].touched >= minIdle
  }

  /** A scan from `cursor` that stopped before `next` (0: reached the end) looked at this entry. */
  predicate Examined(e: nat, cursor: nat, next: nat) {
    cursor <= e && (next == 0 || e < next)
  }

  predicate Increasing(xs: seq<nat>) {
    forall i, k :: 0 <= i < k < |xs| ==> xs[i] < xs[k]
  }

  lemma IncreasingSnoc(xs: seq<nat>, x: nat)
    requires Increasing(xs) && forall y :: y in xs ==> y < x
    ensures Increasing(xs + [x])
  {
    forall i | 0 <= i < |xs|
      ensures xs[i] < x
    {
      assert xs[i] in xs;
    }
  }

  /** The state after worker w takes over the given deliveries. */
  function TakenOver(s: Stream, w: WorkerID, ids: seq<nat>): Stream {
    Touch(s, w).(pel := map e | e in s.pel :: if e in ids then Pending(w, s.pel[e].count + 1, s.clock) else s.pel[e])
  }

  lemma TakenOverMore(s: Stream, w: WorkerID, ids: seq<nat>, e: nat)
    requires e in s.pel && e !in ids
    ensures var now := TakenOver(s, w, ids);
            now.pel[e] == s.pel[e] && now.clock == s.clock
            && TakenOver(s, w, ids + [e]) == now.(pel := now.pel[e := Pending(w, s.pel[e].count + 1, s.clock)])
  {
    var now, after := TakenOver(s, w, ids), TakenOver(s, w, ids + [e]);
    var pel := now.pel[e := Pending(w, s.pel[e].count + 1, s.clock)];
    forall x | x in s.pel
      ensures after.pel[x] == pel[x]
    {
      assert x in ids + [e] <==> x in ids || x == e;
    }
    assert after.pel == pel;
  }

  /** One scan: it takes over exactly the entries it examined that were idle long enough, in ID order. */
  ghost predicate Scan(s: Stream, after: Stream, w: WorkerID, minIdle: int, cursor: nat, next: nat, ids: seq<nat>) {
    && Increasing(ids)
    && (forall e :: e in ids <==> Idle(s, e, minIdle) && Examined(e, cursor, next))
    && after == TakenOver(s, w, ids)
    && (next != 0 ==> next in s.pel && exists e :: e in s.pel && Examined(e, cursor, next))
  }

  /** A scan under way: everything from `cursor` up to `pos` has been examined. */
  ghost predicate Scanning(s: Stream, now: Stream, w: WorkerID, minIdle: int, cursor: nat, pos: nat, ids: seq<nat>) {
    && cursor <= pos && Increasing(ids)
    && (forall e: nat :: e in ids <==> Idle(s, e, minIdle) && cursor <= e < pos)
    && now == TakenOver(s, w, ids)
  }

  /** The oldest entry not examined yet. */
  ghost predicate IsNext(s: Stream, pos: nat, e: nat) {
    e in s.pel && pos <= e && forall x :: x in s.pel && pos <= x ==> e <= x
  }

  /** The pending entries a scan looked at. */
  function Between(s: Stream, cursor: nat, pos: nat): set<nat> {
    set e | e in s.pel && cursor <= e < pos
  }

  lemma BetweenMore(s: Stream, now: Stream, cursor: nat, pos: nat, e: nat)
    requires now.pel.Keys == s.pel.Keys && IsNext(now, pos, e) && cursor <= pos
    ensures |Between(s, cursor, e + 1)| == |Between(s, cursor, pos)| + 1
  {
    assert Between(s, cursor, e + 1) == Between(s, cursor, pos) + {e};
  }

  lemma BetweenGrows(s: Stream, cursor: nat, pos: nat, next: nat)
    ensures pos <= next ==> |Between(s, cursor, pos)| <= |Between(s, cursor, next)|
  {
    if pos <= next {
      SubsetSize(Between(s, cursor, pos), Between(s, cursor, next));
    }
  }

  lemma BetweenJoins(s: Stream, m: Stream, cursor: nat, from: nat, next: nat)
    requires m.pel.Keys == s.pel.Keys && cursor <= from
    ensures from <= next ==> |Between(s, cursor, next)| == |Between(s, cursor, from)| + |Between(m, from, next)|
  {
    if from <= next {
      assert Between(s, cursor, next) == Between(s, cursor, from) + Between(m, from, next);
      assert Between(s, cursor, from) !! Between(m, from, next);
    }
  }

  lemma ScanSkips(s: Stream, now: Stream, w: WorkerID, minIdle: int, cursor: nat, pos: nat, ids: seq<nat>, e: nat)
    requires Scanning(s, now, w, minIdle, cursor, pos, ids) && IsNext(now, pos, e)
    requires now.clock - now.pel[e].touched < minIdle
    ensures Scanning(s, now, w, minIdle, cursor, e + 1, ids)
  {
    assert e !in ids;
    forall x: nat
      ensures x in ids <==> Idle(s, x, minIdle) && cursor <= x < e + 1
    {
      assert pos <= x < e ==> x !in now.pel;
    }
  }

  lemma ScanTakes(s: Stream, now: Stream, w: WorkerID, minIdle: int, cursor: nat, pos: nat, ids: seq<nat>, e: nat)
    requires Scanning(s, now, w, minIdle, cursor, pos, ids) && IsNext(now, pos, e)
    requires now.clock - now.pel[e].touched >= minIdle
    ensures Scanning(s, now.(pel := now.pel[e := Pending(w, now.pel[e].count + 1, now.clock)]), w, minIdle, cursor, e + 1, ids + [e])
  {
    assert e !in ids;
    IncreasingSnoc(ids, e);
    TakenOverMore(s, w, ids, e);
    forall x: nat
      ensures x in ids + [e] <==> Idle(s, x, minIdle) && cursor <= x < e + 1
    {
      assert pos <= x < e ==> x !in now.pel;
    }
  }

  /** Where a scan stops: at the next entry, or at the end when there is none. */
  lemma ScanStops(s: Stream, now: Stream, w: WorkerID, minIdle: int, cursor: nat, pos: nat, ids: seq<nat>, next: nat)
    requires Scanning(s, now, w, minIdle, cursor, pos, ids) && Shape(s)
    requires if next == 0 then forall x :: x in now.pel ==> x < pos else IsNext(now, pos, next)
    requires next != 0 ==> cursor < pos && pos - 1 in s.pel
    ensures Scan(s, now, w, minIdle, cursor, next, ids) && Shape(now)
  {
    forall e: nat
      ensures e in ids <==> Idle(s, e, minIdle) && Examined(e, cursor, next)
    {
      assert e in s.pel ==> e in now.pel;
    }
    assert next != 0 ==> Examined(pos - 1, cursor, next);
    ScanShape(s, w, ids, minIdle);
  }

  function TakeOvers(ids: seq<nat>, w: WorkerID, minIdle: int): seq<Op> {
    seq(|ids|, i requires 0 <= i < |ids| => TakeOver(ids[i], w, minIdle))
  }

  lemma TakenOverIsStep(s: Stream, w: WorkerID, minIdle: int, ids: seq<nat>, e: nat)
    requires Idle(s, e, minIdle) && e !in ids
    ensures TakenOver(s, w, ids + [e]) == Apply(TakenOver(s, w, ids), TakeOver(e, w, minIdle))
  {
    TakenOverMore(s, w, ids, e);
    var now := TakenOver(s, w, ids);
    assert now.consumers[w := now.clock] == now.consumers;
  }

  lemma TakenOverNone(s: Stream, w: WorkerID)
    ensures TakenOver(s, w, []) == Touch(s, w)
  {
    assert TakenOver(s, w, []).pel == s.pel;
  }

  /** A scan is a run of single takeovers. */
  lemma {:induction false} ScanIsRun(s: Stream, w: WorkerID, minIdle: int, ids: seq<nat>)
    requires Increasing(ids) && forall e :: e in ids ==> Idle(s, e, minIdle)
    ensures TakenOver(s, w, ids) == Run(s, [Seen(w)] + TakeOvers(ids, w, minIdle))
    decreases |ids|
  {
    if ids == [] {
      assert TakeOvers(ids, w, minIdle) == [];
      assert [Seen(w)] + TakeOvers(ids, w, minIdle) == [Seen(w)];
      assert Run(s, [Seen(w)]) == Run(Apply(s, Seen(w)), []);
      TakenOverNone(s, w);
    } else {
      var init, last := ids[..|ids| - 1], ids[|ids| - 1];
      assert ids == init + [last];
      ScanIsRun(s, w, minIdle, init);
      var ops := [Seen(w)] + TakeOvers(init, w, minIdle);
      assert [Seen(w)] + TakeOvers(ids, w, minIdle) == ops + [TakeOver(last, w, minIdle)];
      RunSnoc(s, ops, TakeOver(last, w, minIdle));
      assert last !in init && last in ids;
      TakenOverIsStep(s, w, minIdle, init, last);
    }
  }

  lemma ScanShape(s: Stream, w: WorkerID, ids: seq<nat>, minIdle: int)
    requires Shape(s) && Increasing(ids) && forall e :: e in ids ==> Idle(s, e, minIdle)
    ensures Shape(TakenOver(s, w, ids))
  {
    ScanIsRun(s, w, minIdle, ids);
    ShapeAlways(s, [Seen(w)] + TakeOvers(ids, w, minIdle));
  }

  /** A recovery scan gains and loses no job. */
  lemma ScanConserves(s: Stream, w: WorkerID, minIdle: int, ids: seq<nat>)
    requires Shape(s) && Increasing(ids) && forall e :: e in ids ==> Idle(s, e, minIdle)
    ensures Placed(s) ==> Placed(TakenOver(s, w, ids)) && Stored(TakenOver(s, w, ids)) == Stored(s)
  {
    ScanIsRun(s, w, minIdle, ids);
    if Placed(s) {
      QuietRunConserves(s, [Seen(w)] + TakeOvers(ids, w, minIdle));
    }
  }

  /** A scan that continues where another stopped makes one longer scan. */
  lemma {:induction false} ScansCompose(s: Stream, m: Stream, t: Stream, w: WorkerID, minIdle: int,
                                        cursor: nat, from: nat, next: nat, a: seq<nat>, b: seq<nat>)
    requires Scan(s, m, w, minIdle, cursor, from, a) && Scan(m, t, w, minIdle, from, next, b) && from != 0
    ensures Scan(s, t, w, minIdle, cursor, next, a + b)
  {
    SecondScanSeesOldState(s, m, w, minIdle, cursor, from, a);
    ConcatIncreasing(a, b, from);
    TakenOverTwice(s, w, a, b);
    forall e
      ensures e in a + b <==> Idle(s, e, minIdle) && Examined(e, cursor, next)
    {
      assert e in b <==> Idle(m, e, minIdle) && Examined(e, from, next);
      assert from <= e ==> (Idle(m, e, minIdle) <==> Idle(s, e, minIdle));
    }
    if next != 0 {
      var x :| x in m.pel && Examined(x, from, next);
      assert Examined(x, cursor, next);
    }
  }

  lemma TakenOverTwice(s: Stream, w: WorkerID, a: seq<nat>, b: seq<nat>)
    requires forall e :: e in a ==> e !in b
    ensures TakenOver(TakenOver(s, w, a), w, b) == TakenOver(s, w, a + b)
  {
    var twice, once := TakenOver(TakenOver(s, w, a), w, b), TakenOver(s, w, a + b);
    forall e | e in s.pel
      ensures twice.pel[e] == once.pel[e]
    {
      assert e in a + b <==> e in a || e in b;
    }
    assert twice.pel == once.pel;
  }

  /** Entries past the first scan are as they were before it. */
  lemma SecondScanSeesOldState(s: Stream, m: Stream, w: WorkerID, minIdle: int, cursor: nat, from: nat, a: seq<nat>)
    requires Scan(s, m, w, minIdle, cursor, from, a) && from != 0
    ensures cursor <= from && m.pel.Keys == s.pel.Keys && m.clock == s.clock
    ensures forall e :: e in s.pel && from <= e ==> m.pel[e] == s.pel[e]
  {
    var first :| first in s.pel && Examined(first, cursor, from);
    forall e | e in s.pel && from <= e
      ensures m.pel[e] == s.pel[e]
    {
      assert !Examined(e, cursor, from);
    }
  }

  lemma ConcatIncreasing(a: seq<nat>, b: seq<nat>, from: nat)
    requires Increasing(a) && Increasing(b)
    requires (forall x :: x in a ==> x < from) && (forall y :: y in b ==> from <= y)
    ensures Increasing(a + b)
  {
    forall i, k | 0 <= i < k < |a + b|
      ensures (a + b)[i] < (a + b)[k]
    {
      if i < |a| <= k {
        assert a[i] in a && b[k - |a|] in b;
      }
    }
  }

  /** What a call leaves to later ones: an idle delivery behind its cursor, or past where it stopped, stays with its holder. */
  lemma LeftToLaterCalls(s: Stream, after: Stream, w: WorkerID, minIdle: int, cursor: nat, next: nat, ids: seq<nat>, e: nat)
    requires Scan(s, after, w, minIdle, cursor, next, ids) && Idle(s, e, minIdle)
    ensures if Examined(e, cursor, next) then after.pel[e] == Pending(w, s.pel[e].count + 1, s.clock) else after.pel[e] == s.pel[e]
  {
  }

  // ----- successive calls

  /** What is left to examine before the scan wraps. */
  function Remaining(s: Stream, cursor: nat): set<nat> {
    set e | e in s.pel && cursor <= e
  }

  /** Each call that does not wrap leaves strictly less to examine. */
  lemma {:induction false} ScanMakesProgress(s: Stream, after: Stream, w: WorkerID, minIdle: int, cursor: nat, next: nat, ids: seq<nat>)
    requires Scan(s, after, w, minIdle, cursor, next, ids) && next != 0
    ensures |Remaining(after, next)| < |Remaining(s, cursor)|
  {
    var e :| e in s.pel && Examined(e, cursor, next);
    assert e in Remaining(s, cursor);
    assert Remaining(after, next) <= Remaining(s, cursor) - {e};
    SubsetSize(Remaining(after, next), Remaining(s, cursor) - {e});
  }

  /** One recovery call: the state it saw, the cursor it started from and where it stopped. */
  datatype Call = Call(before: Stream, after: Stream, worker: WorkerID, minIdle: int, cursor: nat, next: nat, ids: seq<nat>)

  ghost predicate ScanOf(c: Call) {
    Scan(c.before, c.after, c.worker, c.minIdle, c.cursor, c.next, c.ids)
  }

  /**
   Recovery calls through one saved cursor, each starting where the last one
   stopped, none wrapping before the last. Anything may happen in between.
   */
  ghost predicate Sweep(calls: seq<Call>) {
    && (forall i :: 0 <= i < |calls| ==> ScanOf(calls[i]))
    && (forall i :: 0 <= i < |calls| - 1 ==> calls[i].next != 0 && calls[i + 1].cursor == calls[i].next)
  }

  /** Between calls leases may be renewed and time may pass, but no entry joins or leaves the pending list. */
  ghost predicate Undisturbed(calls: seq<Call>) {
    forall i :: 0 <= i < |calls| - 1 ==> calls[i + 1].before.pel.Keys == calls[i].after.pel.Keys
  }

  lemma {:induction false} SweepTail(calls: seq<Call>)
    requires Sweep(calls) && calls != []
    ensures Sweep(calls[1..]) && (Undisturbed(calls) ==> Undisturbed(calls[1..]))
  {
    var rest := calls[1..];
    forall i | 0 <= i < |rest| - 1
      ensures rest[i].next != 0 && rest[i + 1].cursor == rest[i].next
      ensures Undisturbed(calls) ==> rest[i + 1].before.pel.Keys == rest[i].after.pel.Keys
    {
      assert rest[i] == calls[i + 1] && rest[i + 1] == calls[i + 2];
    }
  }

  /** Between two wraps some call comes past every entry, and takes it over if it is pending and idle then. */
  lemma {:induction false} SweepTakesEverythingIdle(calls: seq<Call>, e: nat) returns (i: nat)
    requires Sweep(calls) && calls != [] && calls[|calls| - 1].next == 0 && calls[0].cursor <= e
    ensures i < |calls| && Examined(e, calls[i].cursor, calls[i].next)
    ensures e in calls[i].ids <==> Idle(calls[i].before, e, calls[i].minIdle)
    decreases |calls|
  {
    assert ScanOf(calls[0]);
    if Examined(e, calls[0].cursor, calls[0].next) {
      i := 0;
    } else {
      SweepTail(calls);
      var rest := calls[1..];
      assert rest[0] == calls[1] && rest[|rest| - 1] == calls[|calls| - 1];
      var k := SweepTakesEverythingIdle(rest, e);
      i := k + 1;
    }
  }

  /** And a sweep is never longer than the pending list it started with, plus one. */
  lemma {:induction false} SweepEnds(calls: seq<Call>)
    requires Sweep(calls) && Undisturbed(calls) && calls != []
    ensures |calls| <= |Remaining(calls[0].before, calls[0].cursor)| + 1
    decreases |calls|
  {
    if |calls| > 1 {
      var c := calls[0];
      assert ScanOf(c);
      ScanMakesProgress(c.before, c.after, c.worker, c.minIdle, c.cursor, c.next, c.ids);
      SweepTail(calls);
      var rest := calls[1..];
      assert rest[0] == calls[1];
      assert Remaining(calls[1].before, c.next) == Remaining(c.after, c.next) by {
        assert calls[1].before.pel.Keys == c.after.pel.Keys;
      }
      SweepEnds(rest);
    }
  }
}
