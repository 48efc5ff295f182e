/** The sharded backend over its partition stores (redisstream/sharded.go). */
module Sharding {
  import opened Jobs
  import opened Sets
  import opened Streams
  import opened Recovery
  import opened Conservation
  import opened Enqueueing
  import opened Scripts
  import opened Scatter

  lemma VerdictAt(s: Stream, ops: seq<Op>, k: nat)
    requires forall op :: op in ops ==> op.Ack? || op.Extend?
    requires k < |ops|
    ensures |Verdicts(s, ops)| == |ops| && Verdicts(s, ops)[k] == Owns(Run(s, ops[..k]), ops[k].lease)
    decreases |ops|
  {
    if k == 0 {
      assert ops[..0] == [];
      if |ops| > 1 {
        VerdictAt(Apply(s, ops[0]), ops[1..], 0);
      }
    } else {
      VerdictAt(Apply(s, ops[0]), ops[1..], k - 1);
      assert ops[..k] == [ops[0]] + ops[1..][..k - 1];
      assert ops[..k][1..] == ops[1..][..k - 1];
    }
  }

  /** tag: records the partition in the leases. */
  function Tag(ds: seq<Delivery>, p: nat): seq<Delivery> {
    seq(|ds|, i requires 0 <= i < |ds| => Delivery(ds[i].job, ds[i].lease.(partition := p)))
  }

  /** groups[p] = append(groups[p], i) */
  function AppendTo(groups: map<nat, seq<nat>>, p: nat, i: nat): map<nat, seq<nat>> {
    groups[p := (if p in groups then groups[p] else []) + [i]]
  }

  /** Every known partition with jobs has their positions. */
  ghost predicate LeasesGrouped(groups: map<nat, seq<nat>>, ls: seq<Lease>, n: nat) {
    && (forall p :: p in groups ==> p < n && groups[p] == IndexesOf(ls, p))
    && (forall p :: 0 <= p < n && p !in groups ==> IndexesOf(ls, p) == [])
  }

  lemma LeasesGroupedMore(groups: map<nat, seq<nat>>, ls: seq<Lease>, i: nat, n: nat)
    requires i < |ls| && LeasesGrouped(groups, ls[..i], n)
    ensures var p := ls[i].partition;
            LeasesGrouped(if 0 <= p < n then AppendTo(groups, p, i) else groups, ls[..i + 1], n)
  {
    forall q: nat
      ensures IndexesOf(ls[..i + 1], q) == IndexesOf(ls[..i], q) + if ls[i].partition == q then [i] else []
    {
      assert ls[..i + 1][..i] == ls[..i];
    }
  }

  /** The state of a partition's group once its batch script ran. */
  ghost predicate GroupDone(before: Stream, after: Stream, ls: seq<Lease>, c: Round, p: nat) {
    after == GroupResult(before, ls, c, p)
  }

  /** The error of the k-th job of a group is the one the k-th single call would return. */
  lemma GroupErr(parts: seq<Stream>, ls: seq<Lease>, c: Round, p: nat, k: nat)
    requires p < |parts| && k < |IndexesOf(ls, p)| && !Fails(c, p)
    ensures var ops, i := FencedOps(Sublist(ls, p), c.ack), IndexesOf(ls, p)[k];
            && |ops| == |IndexesOf(ls, p)| && |Verdicts(parts[p], ops)| == |ops|
            && ErrAt(parts, ls, c, i) == (if Verdicts(parts[p], ops)[k] then Nil else LeaseLost)
  {
    SublistKth(ls, p, k, c);
    var ops, i := FencedOps(Sublist(ls, p), c.ack), IndexesOf(ls, p)[k];
    VerdictAt(parts[p], ops, k);
    OneByOneProjects(parts, ls[..i], c, p);
  }

  /** Writes a group's results back to the positions its jobs came from. */
  function Spread<T>(all: seq<T>, idx: seq<nat>, out: seq<T>): (r: seq<T>)
    requires |idx| == |out| && forall k :: 0 <= k < |idx| ==> idx[k] < |all|
    requires forall j, k :: 0 <= j < k < |idx| ==> idx[j] < idx[k]
    ensures |r| == |all|
    ensures forall k :: 0 <= k < |idx| ==> r[idx[k]] == out[k]
    ensures forall i :: 0 <= i < |all| && i !in idx ==> r[i] == all[i]
    decreases |idx|
  {
    if idx == [] then all
    else
      var n := |idx| - 1;
      var r := Spread(all, idx[..n], out[..n]);
      assert forall k :: 0 <= k < n ==> idx[..n][k] == idx[k];
      r[idx[n] := out[n]]
  }

  /** The errors a batch script's verdicts stand for. */
  function ErrsOf(out: seq<bool>): (r: seq<Err>)
    ensures |r| == |out| && forall k :: 0 <= k < |out| ==> r[k] == if out[k] then Nil else LeaseLost
  {
    seq(|out|, k requires 0 <= k < |out| => if out[k] then Nil else LeaseLost)
  }

  /** A group's verdicts are the errors single calls would give, at every position of that partition. */
  lemma SpreadGroup(parts: seq<Stream>, ls: seq<Lease>, c: Round, p: nat, out: seq<bool>)
    requires p < |parts| && !Fails(c, p) && out == Verdicts(parts[p], FencedOps(Sublist(ls, p), c.ack))
    ensures |out| == |IndexesOf(ls, p)|
    ensures forall k :: 0 <= k < |out| ==> ErrAt(parts, ls, c, IndexesOf(ls, p)[k]) == (if out[k] then Nil else LeaseLost)
    ensures forall i :: 0 <= i < |ls| && ls[i].partition == p ==> i in IndexesOf(ls, p)
  {
    SublistAt(ls, p);
    var idx := IndexesOf(ls, p);
    if idx == [] {
      assert FencedOps(Sublist(ls, p), c.ack) == [];
    } else {
      GroupErr(parts, ls, c, p, 0);
    }
    forall k | 0 <= k < |idx|
      ensures ErrAt(parts, ls, c, idx[k]) == (if out[k] then Nil else LeaseLost)
    {
      GroupErr(parts, ls, c, p, k);
    }
    forall i | 0 <= i < |ls| && ls[i].partition == p
      ensures i in idx
    {
      IndexesCover(ls, p, i);
    }
  }

  lemma EmptyGroup(s: Stream, ls: seq<Lease>, c: Round, p: nat)
    requires IndexesOf(ls, p) == []
    ensures GroupDone(s, s, ls, c, p)
  {
    SublistAt(ls, p);
    assert FencedOps(Sublist(ls, p), c.ack) == [];
  }

  lemma GatheredIsOneByOne(start: seq<Stream>, end: seq<Stream>, ls: seq<Lease>, c: Round)
    requires |start| == |end| && forall p :: 0 <= p < |start| ==> GroupDone(start[p], end[p], ls, c, p)
    ensures end == OneByOne(start, ls, c)
  {
    forall p | 0 <= p < |start|
      ensures end[p] == OneByOne(start, ls, c)[p]
    {
      OneByOneProjects(start, ls, c, p);
    }
  }

  function WantedErrs(parts: seq<Stream>, ls: seq<Lease>, c: Round): (r: seq<Err>)
    ensures |r| == |ls| && forall i :: 0 <= i < |ls| ==> r[i] == ErrAt(parts, ls, c, i)
  {
    seq(|ls|, i requires 0 <= i < |ls| => ErrAt(parts, ls, c, i))
  }

  /** Every position outside the groups still to do has its final error. */
  ghost predicate ErrsDone(n: nat, ls: seq<Lease>, todo: set<nat>, errs: seq<Err>, want: seq<Err>) {
    && |errs| == |want| == |ls|
    && forall i :: 0 <= i < |ls| && !(Known(n, ls[i]) && ls[i].partition in todo) ==> errs[i] == want[i]
  }

  ghost predicate StatesDone(start: seq<Stream>, now: seq<Stream>, ls: seq<Lease>, c: Round, todo: set<nat>) {
    && |now| == |start|
    && (forall p :: 0 <= p < |start| && p in todo ==> now[p] == start[p])
    && (forall p :: 0 <= p < |start| && p !in todo ==> GroupDone(start[p], now[p], ls, c, p))
  }

  lemma StatesBegin(start: seq<Stream>, ls: seq<Lease>, c: Round, todo: set<nat>)
    requires forall p :: 0 <= p < |start| && p !in todo ==> IndexesOf(ls, p) == []
    ensures StatesDone(start, start, ls, c, todo)
  {
    forall p | 0 <= p < |start| && p !in todo
      ensures GroupDone(start[p], start[p], ls, c, p)
    {
      EmptyGroup(start[p], ls, c, p);
    }
  }

  lemma ErrsBegin(parts: seq<Stream>, ls: seq<Lease>, c: Round, todo: set<nat>, errs: seq<Err>)
    requires |errs| == |ls|
    requires forall p :: 0 <= p < |parts| && p !in todo ==> IndexesOf(ls, p) == []
    requires forall i :: 0 <= i < |ls| && !Known(|parts|, ls[i]) ==> errs[i] == UnknownPartition
    ensures ErrsDone(|parts|, ls, todo, errs, WantedErrs(parts, ls, c))
  {
    forall i | 0 <= i < |ls| && Known(|parts|, ls[i])
      ensures ls[i].partition in todo
    {
      IndexesCover(ls, ls[i].partition, i);
    }
  }

  lemma StatesStep(start: seq<Stream>, now: seq<Stream>, ls: seq<Lease>, c: Round, todo: set<nat>, p: nat)
    requires StatesDone(start, now, ls, c, todo) && p in todo && p < |start|
    ensures StatesDone(start, now[p := GroupResult(start[p], ls, c, p)], ls, c, todo - {p})
  {
  }

  lemma ErrsStep(n: nat, ls: seq<Lease>, todo: set<nat>, errs: seq<Err>, want: seq<Err>, p: nat, out: seq<Err>)
    requires ErrsDone(n, ls, todo, errs, want) && |out| == |IndexesOf(ls, p)|
    requires forall k :: 0 <= k < |out| ==> want[IndexesOf(ls, p)[k]] == out[k]
    requires forall i :: 0 <= i < |ls| && ls[i].partition == p ==> i in IndexesOf(ls, p)
    ensures ErrsDone(n, ls, todo - {p}, Spread(errs, IndexesOf(ls, p), out), want)
  {
    var idx := IndexesOf(ls, p);
    var next := Spread(errs, idx, out);
    forall i | 0 <= i < |ls| && !(Known(n, ls[i]) && ls[i].partition in todo - {p})
      ensures next[i] == want[i]
    {
      if i in idx {
        var k :| 0 <= k < |idx| && idx[k] == i;
      }
    }
  }

  /** The errors a group's call leaves at its positions are the ones single calls would give. */
  lemma GroupErrs(parts: seq<Stream>, ls: seq<Lease>, c: Round, p: nat, out: seq<Err>)
    requires p < |parts| && |out| == |IndexesOf(ls, p)|
    requires if Fails(c, p) then forall k :: 0 <= k < |out| ==> out[k] == CallFailed
             else out == ErrsOf(Verdicts(parts[p], FencedOps(Sublist(ls, p), c.ack)))
    ensures forall k :: 0 <= k < |out| ==> WantedErrs(parts, ls, c)[IndexesOf(ls, p)[k]] == out[k]
    ensures forall i :: 0 <= i < |ls| && ls[i].partition == p ==> i in IndexesOf(ls, p)
  {
    if Fails(c, p) {
      forall i | 0 <= i < |ls| && ls[i].partition == p
        ensures i in IndexesOf(ls, p)
      {
        IndexesCover(ls, p, i);
      }
    } else {
      SpreadGroup(parts, ls, c, p, Verdicts(parts[p], FencedOps(Sublist(ls, p), c.ack)));
    }
  }

  /** A job handed out by a sweep: its partition holds it for this worker. */
  ghost predicate HeldIn(parts: seq<Stream>, w: WorkerID, d: Delivery) {
    Known(|parts|, d.lease) && HeldBy(parts[d.lease.partition], d) && d.lease.owner == w
  }

  /** Jobs found so far: all still held, and all from partitions already visited. */
  ghost predicate Found(parts: seq<Stream>, w: WorkerID, jobs: seq<Delivery>, visited: set<nat>) {
    forall d :: d in jobs ==> HeldIn(parts, w, d) && d.lease.partition in visited
  }

  /** Visiting a new partition keeps what the earlier ones gave. */
  lemma FoundMore(parts: seq<Stream>, w: WorkerID, jobs: seq<Delivery>, visited: set<nat>, p: nat, after: Stream, got: seq<Delivery>)
    requires Found(parts, w, jobs, visited) && p < |parts| && p !in visited && Handed(after, w, got)
    ensures Found(parts[p := after], w, jobs + Tag(got, p), visited + {p})
  {
    var next := parts[p := after];
    forall d | d in Tag(got, p)
      ensures HeldIn(next, w, d) && d.lease.partition == p
    {
      var i :| 0 <= i < |got| && d == Tag(got, p)[i];
      assert got[i] in got;
    }
  }

  /** The entries of one partition's jobs. */
  function EntriesFrom(jobs: seq<Delivery>, p: nat): set<nat> {
    set d | d in jobs && d.lease.partition == p :: d.lease.messageId
  }

  /** What each partition that answered gave up is what was found, and nothing else was. */
  ghost predicate Accounted(first: seq<Stream>, now: seq<Stream>, jobs: seq<Delivery>, answers: nat -> Answer) {
    |now| == |first| && forall p :: 0 <= p < |first| ==> EntriesFrom(jobs, p) == AcquiredIf(answers(p).Heard?, first[p], now[p])
  }

  function AcquiredIf(heard: bool, s: Stream, t: Stream): set<nat> {
    if heard then Acquired(s, t) else {}
  }

  /** A sweep under way: jobs found are held, partitions not visited are as they were, and every partition is accounted for. */
  ghost predicate SweepOk(first: seq<Stream>, now: seq<Stream>, w: WorkerID, jobs: seq<Delivery>, visited: set<nat>, answers: nat -> Answer) {
    && Found(now, w, jobs, visited) && ConservedIn(first, now) && Accounted(first, now, jobs, answers)
    && forall p :: 0 <= p < |first| && p !in visited ==> now[p] == first[p]
  }

  lemma SweepBegins(first: seq<Stream>, w: WorkerID, answers: nat -> Answer)
    ensures SweepOk(first, first, w, [], {}, answers)
  {
    forall p | 0 <= p < |first|
      ensures EntriesFrom([], p) == AcquiredIf(answers(p).Heard?, first[p], first[p])
    {
    }
  }

  lemma TaggedEntries(jobs: seq<Delivery>, got: seq<Delivery>, p: nat, q: nat)
    ensures EntriesFrom(jobs + Tag(got, p), q) == EntriesFrom(jobs, q) + if p == q then EntriesOf(got) else {}
  {
    var tagged := Tag(got, p);
    forall e | e in EntriesFrom(jobs, q) + if p == q then EntriesOf(got) else {}
      ensures e in EntriesFrom(jobs + tagged, q)
    {
      if e in EntriesFrom(jobs, q) {
        var d :| d in jobs && d.lease.partition == q && d.lease.messageId == e;
        assert d in jobs + tagged;
      } else {
        var d :| d in got && d.lease.messageId == e;
        var i :| 0 <= i < |got| && got[i] == d;
        assert tagged[i] in jobs + tagged;
      }
    }
    forall e | e in EntriesFrom(jobs + tagged, q)
      ensures e in EntriesFrom(jobs, q) + if p == q then EntriesOf(got) else {}
    {
      var d :| d in jobs + tagged && d.lease.partition == q && d.lease.messageId == e;
      if d !in jobs {
        var i :| 0 <= i < |got| && tagged[i] == d;
        assert got[i] in got;
      }
    }
  }

  /** Nothing was found in a partition not visited yet. */
  lemma NoneFromUnvisited(parts: seq<Stream>, w: WorkerID, jobs: seq<Delivery>, visited: set<nat>, p: nat)
    requires Found(parts, w, jobs, visited) && p !in visited
    ensures EntriesFrom(jobs, p) == {}
  {
  }

  lemma AccountedMore(first: seq<Stream>, now: seq<Stream>, jobs: seq<Delivery>, answers: nat -> Answer, p: nat, after: Stream, got: seq<Delivery>)
    requires Accounted(first, now, jobs, answers) && p < |first| && EntriesFrom(jobs, p) == {}
    requires EntriesOf(got) == AcquiredIf(answers(p).Heard?, first[p], after)
    ensures Accounted(first, now[p := after], jobs + Tag(got, p), answers)
  {
    forall q | 0 <= q < |first|
      ensures EntriesFrom(jobs + Tag(got, p), q) == AcquiredIf(answers(q).Heard?, first[q], now[p := after][q])
    {
      TaggedEntries(jobs, got, p, q);
    }
  }

  lemma SweepMore(first: seq<Stream>, now: seq<Stream>, w: WorkerID, jobs: seq<Delivery>, visited: set<nat>, answers: nat -> Answer,
                  p: nat, after: Stream, got: seq<Delivery>)
    requires SweepOk(first, now, w, jobs, visited, answers) && p < |now| && p !in visited && Handed(after, w, got)
    requires Placed(now[p]) ==> Placed(after) && Stored(after) == Stored(now[p])
    requires EntriesOf(got) == AcquiredIf(answers(p).Heard?, now[p], after)
    ensures SweepOk(first, now[p := after], w, jobs + Tag(got, p), visited + {p}, answers)
  {
    FoundMore(now, w, jobs, visited, p, after, got);
    NoneFromUnvisited(now, w, jobs, visited, p);
    AccountedMore(first, now, jobs, answers, p, after, got);
  }

  /** The sweep left nothing behind in these partitions, unless something there could not be parsed. */
  ghost predicate SweptOut(first: seq<Stream>, now: seq<Stream>, visited: set<nat>) {
    |now| == |first| && forall p :: 0 <= p < |first| && p in visited ==> Ready(now[p]) == {} || Unreadable(first[p])
  }

  /** Of the jobs a recovery looked at, it acquired exactly those that were idle long enough. */
  ghost predicate RecoveredFrom(before: Stream, after: Stream, visibility: int, cursor: nat, next: nat) {
    forall e :: e in before.entries && before.entries[e].JobFields? && Examined(e, cursor, next) ==>
      (e in Acquired(before, after) <==> Idle(before, e, visibility))
  }

  /** Claims take nothing from those who hold jobs. */
  ghost predicate AllKeep(first: seq<Stream>, now: seq<Stream>) {
    |now| == |first| && forall p :: 0 <= p < |first| ==> KeepsPending(first[p], now[p])
  }

  /** Recoveries add and deliver nothing new. */
  ghost predicate AllTake(first: seq<Stream>, now: seq<Stream>) {
    |now| == |first| && forall p :: 0 <= p < |first| ==> OnlyTakes(first[p], now[p])
  }

  lemma NoneTaken(first: seq<Stream>)
    ensures AllTake(first, first) && AllKeep(first, first) && forall p :: 0 <= p < |first| ==> Acquired(first[p], first[p]) == {}
  {
    forall p | 0 <= p < |first|
      ensures OnlyTakes(first[p], first[p]) && Acquired(first[p], first[p]) == {}
    {
      TakesNothing(first[p]);
    }
  }

  lemma EntriesFromJoin(a: seq<Delivery>, b: seq<Delivery>, p: nat)
    ensures EntriesFrom(a, p) <= EntriesFrom(a + b, p) && EntriesFrom(b, p) <= EntriesFrom(a + b, p)
  {
    forall e | e in EntriesFrom(a, p)
      ensures e in EntriesFrom(a + b, p)
    {
      var d :| d in a && d.lease.partition == p && d.lease.messageId == e;
      assert d in a + b;
    }
    forall e | e in EntriesFrom(b, p)
      ensures e in EntriesFrom(a + b, p)
    {
      var d :| d in b && d.lease.partition == p && d.lease.messageId == e;
      assert d in a + b;
    }
  }

  /** What a recovery sweep and then a claim sweep acquired is all among the jobs. */
  lemma GatherAll(start: seq<Stream>, middle: seq<Stream>, end: seq<Stream>, recovered: seq<Delivery>, taken: seq<Delivery>, swept: seq<Delivery>,
                  recovering: nat -> Answer, claiming: nat -> Answer)
    requires (forall p :: 0 <= p < |start| ==> Shape(start[p])) && AllTake(start, middle) && AllKeep(middle, end)
    requires forall p :: 0 <= p < |start| && recovering(p).Heard? ==> Acquired(start[p], middle[p]) <= EntriesFrom(recovered, p)
    requires Accounted(middle, end, swept, claiming)
    ensures forall p :: 0 <= p < |start| && recovering(p).Heard? && claiming(p).Heard? ==>
      Acquired(start[p], end[p]) <= EntriesFrom(recovered + (taken + swept), p)
    ensures forall p :: 0 <= p < |start| && Unreadable(middle[p]) ==> Unreadable(start[p])
  {
    forall p | 0 <= p < |start|
      ensures Unreadable(middle[p]) ==> Unreadable(start[p])
      ensures recovering(p).Heard? && claiming(p).Heard? ==> Acquired(start[p], end[p]) <= EntriesFrom(recovered + (taken + swept), p)
    {
      AcquiredTwice(start[p], middle[p], end[p]);
      EntriesFromJoin(taken, swept, p);
      EntriesFromJoin(recovered, taken + swept, p);
      assert EntriesFrom(swept, p) == AcquiredIf(claiming(p).Heard?, middle[p], end[p]);
    }
  }

  ghost predicate ScannedOut(first: seq<Stream>, now: seq<Stream>, visibility: int, from: seq<nat>, to: seq<nat>, visited: set<nat>) {
    |now| == |first| == |from| == |to| && forall p :: 0 <= p < |first| ==>
      if p in visited then RecoveredFrom(first[p], now[p], visibility, from[p], to[p]) else to[p] == from[p]
  }

  lemma ScannedMore(first: seq<Stream>, now: seq<Stream>, visibility: int, from: seq<nat>, to: seq<nat>, visited: set<nat>,
                    p: nat, after: Stream, next: nat)
    requires ScannedOut(first, now, visibility, from, to, visited) && p < |first| && p !in visited && now[p] == first[p]
    requires RecoveredFrom(now[p], after, visibility, to[p], next)
    ensures ScannedOut(first, now[p := after], visibility, from, to[p := next], visited + {p})
  {
  }

  /** The k-th partition of a sweep. */
  function Slot(start: nat, k: nat, n: nat): (p: nat)
    requires n > 0
    ensures p < n
  {
    (start + k) % n
  }

  /** The order of a sweep: starting anywhere, it visits each partition once. */
  function Rotation(start: nat, n: nat): (r: seq<nat>)
    requires n > 0
    ensures |r| == n && Distinct(r) && forall k :: 0 <= k < n ==> r[k] < n
  {
    var r := seq(n, k requires 0 <= k < n => Slot(start, k, n));
    assert Distinct(r) by {
      forall i, k | 0 <= i < k < n
        ensures r[i] != r[k]
      {
        RotationIsDistinct(start, k, i, n);
      }
    }
    r
  }

  /** The partitions a sweep has come past. */
  function Passed(order: seq<nat>, i: nat): set<nat>
    requires i <= |order|
  {
    set p | p in order[..i]
  }

  lemma PassedMore(order: seq<nat>, i: nat)
    requires i < |order| && Distinct(order)
    ensures order[i] !in Passed(order, i) && Passed(order, i + 1) == Passed(order, i) + {order[i]}
  {
    assert order[..i + 1] == order[..i] + [order[i]];
  }

  lemma ModOf(c: int, n: nat, p: nat)
    requires p < n && c * n + p >= 0
    ensures (c * n + p) % n == p
  {
    var x := c * n + p;
    var q, r := x / n, x % n;
    assert x == q * n + r;
    assert (q - c) * n == q * n - c * n && (c - q) * n == c * n - q * n;
    if p > r {
      NoSmallMultiple(q - c, n, p - r);
    } else if r > p {
      NoSmallMultiple(c - q, n, r - p);
    }
  }

  /** ...and so all of them. */
  lemma RotationHas(start: nat, n: nat, p: nat)
    requires p < n
    ensures p in Rotation(start, n)
  {
    var a, b := start % n, start / n;
    var k := if p >= a then p - a else p - a + n;
    assert start == b * n + a;
    if p >= a {
      ModOf(b, n, p);
    } else {
      assert (b + 1) * n == b * n + n;
      ModOf(b + 1, n, p);
    }
    assert Rotation(start, n)[k] == p;
  }

  /** Every partition was visited and answered. */
  ghost predicate Everywhere(visited: set<nat>, n: nat, answers: nat -> Answer) {
    forall p :: 0 <= p < n ==> p in visited && answers(p).Heard?
  }

  /** A sweep that came past the whole rotation came past every partition. */
  lemma PassedEverywhere(start: nat, n: nat, answers: nat -> Answer)
    requires n > 0 && forall k :: 0 <= k < n ==> answers(Rotation(start, n)[k]).Heard?
    ensures Everywhere(Passed(Rotation(start, n), n), n, answers)
  {
    var order := Rotation(start, n);
    assert order[..n] == order;
    forall p | 0 <= p < n
      ensures p in Passed(order, n) && answers(p).Heard?
    {
      RotationHas(start, n, p);
      var k :| 0 <= k < n && order[k] == p;
    }
  }

  /** No partition gained or lost a job. */
  ghost predicate ConservedIn(before: seq<Stream>, after: seq<Stream>) {
    |before| == |after| && forall p :: 0 <= p < |before| && Placed(before[p]) ==>
      Placed(after[p]) && Stored(after[p]) == Stored(before[p])
  }

  lemma ConservedTwice(a: seq<Stream>, b: seq<Stream>, c: seq<Stream>)
    requires ConservedIn(a, b) && ConservedIn(b, c)
    ensures ConservedIn(a, c)
  {
  }

  lemma RotationIsDistinct(start: nat, i: nat, k: nat, n: nat)
    requires k < i < n
    ensures Slot(start, i, n) != Slot(start, k, n)
  {
    var a, b := (start + i) / n, (start + k) / n;
    assert start + i == a * n + (start + i) % n;
    assert start + k == b * n + (start + k) % n;
    assert (a - b) * n == a * n - b * n;
    NoSmallMultiple(a - b, n, i - k);
  }

  lemma NoSmallMultiple(q: int, n: nat, d: nat)
    requires 0 < d < n
    ensures q * n != d
  {
    if q <= 0 {
      assert q * n <= 0;
    } else {
      assert q * n >= n;
    }
  }

  function LeasesOf(ds: seq<Delivery>): seq<Lease> {
    seq(|ds|, i requires 0 <= i < |ds| => ds[i].lease)
  }

  /** slices.DeleteFunc on the buffer. */
  function Without(ds: seq<Delivery>, lost: set<Lease>): (r: seq<Delivery>)
    ensures forall d :: d in r <==> d in ds && d.lease !in lost
    decreases |ds|
  {
    if ds == [] then []
    else
      assert forall d :: d in ds <==> d == ds[0] || d in ds[1..];
      (if ds[0].lease in lost then [] else [ds[0]]) + Without(ds[1..], lost)
  }

  /** Renewing it in this round would not report it lost. */
  predicate StillGood(parts: seq<Stream>, l: Lease, c: Round) {
    Known(|parts|, l) && !Fails(c, l.partition) ==> Owns(parts[l.partition], l)
  }

  /** Renewals take no lease away, so in a batch of renewals every verdict is the one of the state before. */
  lemma {:induction false} RenewalsKeepOwners(parts: seq<Stream>, ls: seq<Lease>, c: Round, p: nat, l: Lease)
    requires p < |parts| && !c.ack
    ensures Owns(OneByOne(parts, ls, c)[p], l) <==> Owns(parts[p], l)
    decreases |ls|
  {
    if ls != [] {
      RenewalsKeepOwners(parts, ls[..|ls| - 1], c, p, l);
    }
  }

  lemma ExtendErrs(parts: seq<Stream>, ls: seq<Lease>, c: Round)
    requires !c.ack
    ensures forall i :: 0 <= i < |ls| ==> (ErrAt(parts, ls, c, i) == LeaseLost <==> !StillGood(parts, ls[i], c))
  {
    forall i | 0 <= i < |ls|
      ensures ErrAt(parts, ls, c, i) == LeaseLost <==> !StillGood(parts, ls[i], c)
    {
      if Known(|parts|, ls[i]) {
        RenewalsKeepOwners(parts, ls[..i], c, ls[i].partition, ls[i]);
      }
    }
  }

  /** A call's error depends on the calls before it only. */
  lemma ErrsOfPrefix(parts: seq<Stream>, ls: seq<Lease>, more: seq<Lease>, c: Round)
    ensures forall i :: 0 <= i < |ls| ==> ErrAt(parts, ls + more, c, i) == ErrAt(parts, ls, c, i)
  {
    forall i | 0 <= i < |ls|
      ensures ErrAt(parts, ls + more, c, i) == ErrAt(parts, ls, c, i)
    {
      assert (ls + more)[..i] == ls[..i];
    }
  }

  /** The leases from position `from` on that were reported lost. */
  function LostAmong(ls: seq<Lease>, errs: seq<Err>, from: nat): set<Lease>
    requires |errs| == |ls|
  {
    set i | from <= i < |ls| && errs[i] == LeaseLost :: ls[i]
  }

  lemma LostIffNotGood(parts: seq<Stream>, ls: seq<Lease>, held: seq<Delivery>, errs: seq<Err>, c: Round)
    requires |errs| == |ls| + |held| && !c.ack
    requires forall i :: 0 <= i < |errs| ==> errs[i] == ErrAt(parts, ls + LeasesOf(held), c, i)
    ensures forall d :: d in held ==> (d.lease in LostAmong(ls + LeasesOf(held), errs, |ls|) <==> !StillGood(parts, d.lease, c))
  {
    var all := ls + LeasesOf(held);
    ExtendErrs(parts, all, c);
    forall d | d in held
      ensures d.lease in LostAmong(all, errs, |ls|) <==> !StillGood(parts, d.lease, c)
    {
      var k :| 0 <= k < |held| && held[k] == d;
      assert all[|ls| + k] == d.lease;
    }
  }

  // ----- batched enqueue

  /**
   A batch, where its jobs were routed, and what became of the partitions'
   transactions: `down` ones stored nothing, `unheard` ones committed but
   their reply was lost.
   */
  datatype Batch = Batch(rs: seq<Request>, where: seq<nat>, now: int, windows: seq<nat>, down: set<nat>, unheard: set<nat>)

  predicate Fits(b: Batch, n: nat) {
    |b.where| == |b.rs| && |b.windows| == n && forall i :: 0 <= i < |b.where| ==> b.where[i] < n
  }

  /** The enqueues of a batch, each with the partition it was routed to. */
  function StepsOf(b: Batch): (r: seq<Routed>)
    requires Fits(b, |b.windows|)
    ensures |r| == |b.rs|
    ensures forall i :: 0 <= i < |r| ==> r[i] == Routed(b.where[i], EnqueueOp(b.rs[i], b.now, b.windows[b.where[i]]))
  {
    seq(|b.rs|, i requires 0 <= i < |b.rs| => Routed(b.where[i], EnqueueOp(b.rs[i], b.now, b.windows[b.where[i]])))
  }

  /** Every position's ID: what single enqueues in list order would report, empty where no reply came. */
  function IdsOf(parts: seq<Stream>, b: Batch): (r: seq<JobID>)
    requires Fits(b, |parts|)
    ensures |r| == |b.rs| && forall i :: 0 <= i < |r| ==> r[i] == IdAt(parts, b, i)
  {
    seq(|b.rs|, i requires 0 <= i < |b.rs| => IdAt(parts, b, i))
  }

  function IdAt(parts: seq<Stream>, b: Batch, i: nat): JobID
    requires Fits(b, |parts|) && i < |b.rs|
  {
    var p := b.where[i];
    if p in b.down + b.unheard then ""
    else EnqueueReply(RunRouted(parts, StepsOf(b)[..i], b.down)[p], b.rs[i], b.now, b.windows[p])
  }

  /** A keyed request always goes where its key hashes to. */
  predicate RoutedByKey(rs: seq<Request>, where: seq<nat>, hash: string -> nat, n: nat)
    requires |where| == |rs| && n > 0
  {
    forall i :: 0 <= i < |rs| && rs[i].key != "" ==> where[i] == hash(rs[i].key) % n
  }

  /** Each partition that got jobs has their positions. */
  ghost predicate Grouped(groups: map<nat, seq<nat>>, where: seq<nat>) {
    && groups.Keys == (set p | p in where)
    && forall p :: p in groups ==> Positions(groups[p], where, p)
  }

  lemma GroupsKnown(groups: map<nat, seq<nat>>, where: seq<nat>, n: nat)
    requires Grouped(groups, where) && forall i :: 0 <= i < |where| ==> where[i] < n
    ensures forall p :: p in groups ==> p < n
  {
    forall p | p in groups
      ensures p < n
    {
      assert p in where;
    }
  }

  lemma GroupedMore(groups: map<nat, seq<nat>>, where: seq<nat>, p: nat)
    requires Grouped(groups, where)
    ensures Grouped(AppendTo(groups, p, |where|), where + [p])
  {
    var next := AppendTo(groups, p, |where|);
    forall q | q in next
      ensures Positions(next[q], where + [p], q)
    {
      if q !in groups {
        assert q !in where;
      }
      PositionsMore(if q in groups then groups[q] else [], where, q, p);
    }
  }

  /** The jobs at the given positions. */
  function Pick(rs: seq<Request>, idx: seq<nat>): (r: seq<Request>)
    requires forall k :: 0 <= k < |idx| ==> idx[k] < |rs|
    ensures |r| == |idx| && forall k :: 0 <= k < |idx| ==> r[k] == rs[idx[k]]
  {
    seq(|idx|, k requires 0 <= k < |idx| => rs[idx[k]])
  }

  /** A group's transaction is its partition's part of the batch. */
  lemma PickedOps(b: Batch, idx: seq<nat>, p: nat)
    requires Fits(b, |b.windows|) && p < |b.windows| && Positions(idx, b.where, p)
    ensures EnqueueOps(Pick(b.rs, idx), b.now, b.windows[p]) == OpsOn(StepsOf(b), p)
  {
    var steps := StepsOf(b);
    assert Wheres(steps) == b.where;
    GroupIsSublist(steps, idx, p);
    var ops, sub := EnqueueOps(Pick(b.rs, idx), b.now, b.windows[p]), OpsOn(steps, p);
    forall k | 0 <= k < |idx|
      ensures ops[k] == sub[k]
    {
      assert IsKth(steps, sub, idx[k], k, p);
    }
  }

  /** The k-th job of a group sees its partition as the k-th single enqueue there would. */
  lemma PickedBefore(parts: seq<Stream>, b: Batch, idx: seq<nat>, p: nat, k: nat)
    requires Fits(b, |parts|) && p < |parts| && p !in b.down && Positions(idx, b.where, p) && k < |idx|
    ensures |OpsOn(StepsOf(b), p)| == |idx|
    ensures Run(parts[p], OpsOn(StepsOf(b), p)[..k]) == RunRouted(parts, StepsOf(b)[..idx[k]], b.down)[p]
  {
    var steps := StepsOf(b);
    assert Wheres(steps) == b.where;
    GroupIsSublist(steps, idx, p);
    assert IsKth(steps, OpsOn(steps, p), idx[k], k, p);
    RunRoutedProjects(parts, steps[..idx[k]], b.down, p);
  }

  /** The IDs one partition's transaction returns. */
  ghost predicate Reported(s: Stream, batch: seq<Request>, now: int, window: nat, got: seq<JobID>) {
    |got| == |batch| && forall k :: 0 <= k < |got| ==> got[k] == EnqueueReply(Run(s, EnqueueOps(batch, now, window)[..k]), batch[k], now, window)
  }

  /** They are the ones single enqueues would report. */
  lemma PickedIds(parts: seq<Stream>, b: Batch, idx: seq<nat>, p: nat, got: seq<JobID>)
    requires Fits(b, |parts|) && p < |parts| && Positions(idx, b.where, p) && p !in b.down + b.unheard
    requires Reported(parts[p], Pick(b.rs, idx), b.now, b.windows[p], got)
    ensures forall k :: 0 <= k < |got| ==> got[k] == IdAt(parts, b, idx[k])
  {
    PickedOps(b, idx, p);
    forall k | 0 <= k < |got|
      ensures got[k] == IdAt(parts, b, idx[k])
    {
      PickedBefore(parts, b, idx, p, k);
    }
  }

  /** The partitions whose group is still to do, or fails, are as before; the others ran theirs. */
  ghost predicate BatchStates(start: seq<Stream>, now: seq<Stream>, b: Batch, todo: set<nat>)
    requires Fits(b, |start|)
  {
    |now| == |start| && forall p :: 0 <= p < |start| ==>
      now[p] == if p in todo || p in b.down then start[p] else Run(start[p], OpsOn(StepsOf(b), p))
  }

  /** A position has its final ID unless its group is still to do. */
  ghost predicate BatchIds(start: seq<Stream>, ids: seq<JobID>, b: Batch, todo: set<nat>)
    requires Fits(b, |start|)
  {
    |ids| == |b.rs| && forall i :: 0 <= i < |ids| ==> ids[i] == if b.where[i] in todo then "" else IdAt(start, b, i)
  }

  lemma {:induction false} NotRoutedHere(steps: seq<Routed>, p: nat)
    requires forall i :: 0 <= i < |steps| ==> steps[i].part != p
    ensures OpsOn(steps, p) == []
    decreases |steps|
  {
    if steps != [] {
      NotRoutedHere(steps[1..], p);
    }
  }

  lemma BatchBegins(start: seq<Stream>, b: Batch, todo: set<nat>)
    requires Fits(b, |start|) && todo == set p | p in b.where
    ensures BatchStates(start, start, b, todo)
    ensures BatchIds(start, seq(|b.rs|, _ => ""), b, todo)
  {
    forall p | 0 <= p < |start| && p !in todo
      ensures start[p] == Run(start[p], OpsOn(StepsOf(b), p))
    {
      NotRoutedHere(StepsOf(b), p);
    }
  }

  lemma BatchStored(start: seq<Stream>, now: seq<Stream>, b: Batch, todo: set<nat>, p: nat)
    requires Fits(b, |start|) && BatchStates(start, now, b, todo) && p in todo && p < |start| && p !in b.down
    ensures BatchStates(start, now[p := Run(now[p], OpsOn(StepsOf(b), p))], b, todo - {p})
  {
  }

  lemma BatchAnswered(start: seq<Stream>, ids: seq<JobID>, b: Batch, todo: set<nat>, p: nat, idx: seq<nat>, got: seq<JobID>)
    requires Fits(b, |start|) && BatchIds(start, ids, b, todo) && Positions(idx, b.where, p) && |got| == |idx|
    requires forall k :: 0 <= k < |got| ==> got[k] == IdAt(start, b, idx[k])
    ensures BatchIds(start, Spread(ids, idx, got), b, todo - {p})
  {
    var next := Spread(ids, idx, got);
    forall i | 0 <= i < |ids|
      ensures next[i] == if b.where[i] in todo - {p} then "" else IdAt(start, b, i)
    {
      if b.where[i] == p {
        var k :| 0 <= k < |idx| && idx[k] == i;
      } else {
        assert i !in idx;
      }
    }
  }

  lemma BatchUnanswered(start: seq<Stream>, ids: seq<JobID>, b: Batch, todo: set<nat>, p: nat)
    requires Fits(b, |start|) && BatchIds(start, ids, b, todo) && p in todo && p in b.down + b.unheard
    ensures BatchIds(start, ids, b, todo - {p})
  {
  }

  lemma StatesGathered(start: seq<Stream>, end: seq<Stream>, b: Batch)
    requires Fits(b, |start|) && BatchStates(start, end, b, {})
    ensures end == RunRouted(start, StepsOf(b), b.down)
  {
    var want := RunRouted(start, StepsOf(b), b.down);
    forall p | 0 <= p < |start|
      ensures end[p] == want[p]
    {
      RunRoutedProjects(start, StepsOf(b), b.down, p);
    }
  }

  lemma IdsGathered(start: seq<Stream>, ids: seq<JobID>, b: Batch)
    requires Fits(b, |start|) && BatchIds(start, ids, b, {})
    ensures ids == IdsOf(start, b)
  {
    forall i | 0 <= i < |ids|
      ensures ids[i] == IdsOf(start, b)[i]
    {
    }
  }

  /** Some transaction among these partitions returned an error. */
  ghost predicate Troubled(ps: set<nat>, b: Batch) {
    exists p :: p in ps && p in b.down + b.unheard
  }

  /** A batch that repeats a key reports one ID for it, at every position. */
  lemma {:induction false} RepeatedKeysAgree(parts: seq<Stream>, b: Batch, hash: string -> nat, i: nat, j: nat)
    requires |parts| > 0 && Fits(b, |parts|) && RoutedByKey(b.rs, b.where, hash, |parts|)
    requires i < j < |b.rs| && b.rs[i].key == b.rs[j].key != ""
    ensures IdsOf(parts, b)[i] == IdsOf(parts, b)[j]
  {
    if b.where[i] !in b.down {
      BatchRepeatsAnswers(parts, StepsOf(b), b.down, i, j);
    }
  }

  class Sharded {
    const parts: seq<Store>
    const hash: string -> nat
    var buffered: seq<Delivery>
    var claimNext: nat
    var enqueueNext: nat

    ghost predicate Valid()
      reads this, parts
    {
      && |parts| > 0
      && (forall i, k :: 0 <= i < k < |parts| ==> parts[i] != parts[k])
      && (forall i :: 0 <= i < |parts| ==> parts[i].Valid())
    }

    ghost function Abs(): (r: seq<Stream>)
      reads this, parts
      ensures |r| == |parts| && forall p :: 0 <= p < |parts| ==> r[p] == parts[p].Abs()
    {
      seq(|parts|, p requires 0 <= p < |parts| reads parts => parts[p].Abs())
    }

    constructor (stores: seq<Store>, hash: string -> nat)
      requires |stores| > 0 && forall i, k :: 0 <= i < k < |stores| ==> stores[i] != stores[k]
      requires forall i :: 0 <= i < |stores| ==> stores[i].Valid()
      ensures Valid() && parts == stores && buffered == []
    {
      parts, buffered, claimNext, enqueueNext := stores, [], 0, 0;
      this.hash := hash;
    }

    function Windows(): (r: seq<nat>)
      ensures |r| == |parts| && forall p :: 0 <= p < |parts| ==> r[p] == parts[p].window
    {
      seq(|parts|, p requires 0 <= p < |parts| => parts[p].window)
    }

    /** route: keyed jobs by hash, the others in turn. */
    method Route(key: string) returns (p: nat)
      requires |parts| > 0
      modifies `enqueueNext
      ensures p < |parts|
      ensures if key != "" then p == hash(key) % |parts| && enqueueNext == old(enqueueNext)
              else enqueueNext == old(enqueueNext) + 1 && p == enqueueNext % |parts|
    {
      if key != "" {
        p := hash(key) % |parts|;
      } else {
        enqueueNext := enqueueNext + 1;
        p := enqueueNext % |parts|;
      }
    }

    /** Enqueue: one job, in the partition it is routed to. */
    method Enqueue(r: Request, now: int) returns (id: JobID, ghost p: nat)
      requires Valid()
      modifies `enqueueNext, parts
      ensures Valid() && p < |parts| && (r.key != "" ==> p == hash(r.key) % |parts|)
      ensures Abs() == old(Abs())[p := Apply(old(Abs())[p], EnqueueOp(r, now, parts[p].window))]
      ensures id == EnqueueReply(old(Abs())[p], r, now, parts[p].window)
    {
      ghost var start := Abs();
      var q := Route(r.key);
      p := q;
      assert Abs() == start;
      id := EnqueueAt(q, r, now);
    }

    method EnqueueAt(p: nat, r: Request, now: int) returns (id: JobID)
      requires Valid() && p < |parts|
      modifies parts[p]
      ensures Valid() && Abs() == old(Abs())[p := Apply(old(Abs())[p], EnqueueOp(r, now, parts[p].window))]
      ensures id == EnqueueReply(old(Abs())[p], r, now, parts[p].window)
    {
      id := parts[p].EnqueueOne(r, now);
    }

    /** The first loop of EnqueueBatch: the positions of each partition's jobs. */
    method GroupByRoute(rs: seq<Request>) returns (groups: map<nat, seq<nat>>, where: seq<nat>)
      requires |parts| > 0
      modifies `enqueueNext
      ensures |where| == |rs| && RoutedByKey(rs, where, hash, |parts|) && Grouped(groups, where)
      ensures forall i :: 0 <= i < |where| ==> where[i] < |parts|
    {
      groups, where := map[], [];
      var i := 0;
      while i < |rs|
        invariant 0 <= i == |where| <= |rs| && Grouped(groups, where)
        invariant forall k :: 0 <= k < i && rs[k].key != "" ==> where[k] == hash(rs[k].key) % |parts|
        invariant forall k :: 0 <= k < i ==> where[k] < |parts|
      {
        var p := Route(rs[i].key);
        GroupedMore(groups, where, p);
        groups := AppendTo(groups, p, i);
        where := where + [p];
        i := i + 1;
      }
    }

    /** One group of EnqueueBatch, any of those still to do: nothing if its partition is down. */
    method TryGroup(groups: map<nat, seq<nat>>, b: Batch, ids: seq<JobID>, todo: set<nat>, ghost start: seq<Stream>)
      returns (next: seq<JobID>, rest: set<nat>)
      requires Valid() && |parts| == |start| && Fits(b, |start|) && b.windows == Windows() && todo != {} && todo <= groups.Keys
      requires forall p :: p in groups ==> p < |parts| && Positions(groups[p], b.where, p)
      requires BatchStates(start, Abs(), b, todo) && BatchIds(start, ids, b, todo)
      modifies parts
      ensures Valid() && BatchStates(start, Abs(), b, rest) && BatchIds(start, next, b, rest)
      ensures rest < todo && |rest| < |todo|
    {
      var p :| p in todo;
      rest := todo - {p};
      if p in b.down {
        next := ids;
        BatchUnanswered(start, ids, b, todo, p);
      } else {
        next := StoreGroup(p, groups[p], b, ids, start, todo);
      }
    }

    /** Its transaction, and its IDs written back if the reply was heard. */
    method StoreGroup(p: nat, idx: seq<nat>, b: Batch, ids: seq<JobID>, ghost start: seq<Stream>, ghost todo: set<nat>)
      returns (next: seq<JobID>)
      requires Valid() && p < |parts| == |start| && Fits(b, |start|) && b.windows == Windows() && Positions(idx, b.where, p)
      requires p in todo && p !in b.down && BatchStates(start, Abs(), b, todo) && BatchIds(start, ids, b, todo)
      modifies parts[p]
      ensures Valid() && BatchStates(start, Abs(), b, todo - {p}) && BatchIds(start, next, b, todo - {p})
    {
      BatchStored(start, Abs(), b, todo, p);
      PickedOps(b, idx, p);
      var got := CommitGroup(p, Pick(b.rs, idx), b.now);
      if p in b.unheard {
        next := ids;
        BatchUnanswered(start, ids, b, todo, p);
      } else {
        next := Spread(ids, idx, got);
        PickedIds(start, b, idx, p, got);
        BatchAnswered(start, ids, b, todo, p, idx, got);
      }
    }

    /** One partition's transaction. */
    method CommitGroup(p: nat, batch: seq<Request>, now: int) returns (got: seq<JobID>)
      requires Valid() && p < |parts|
      modifies parts[p]
      ensures Valid() && Abs() == old(Abs())[p := Run(old(Abs())[p], EnqueueOps(batch, now, parts[p].window))]
      ensures Reported(old(Abs())[p], batch, now, parts[p].window, got)
    {
      got := parts[p].EnqueueBatch(batch, now);
    }

    /** The second loop of EnqueueBatch; a map's keys come in any order. */
    method StoreGroups(b: Batch, groups: map<nat, seq<nat>>) returns (ids: seq<JobID>, failed: bool)
      requires Valid() && Fits(b, |parts|) && b.windows == Windows() && Grouped(groups, b.where)
      modifies parts
      ensures Valid() && Abs() == RunRouted(old(Abs()), StepsOf(b), b.down) && ids == IdsOf(old(Abs()), b)
      ensures failed <==> Troubled(groups.Keys, b)
    {
      ghost var start := Abs();
      GroupsKnown(groups, b.where, |parts|);
      BatchBegins(start, b, groups.Keys);
      ids := TryGroups(b, groups, seq(|b.rs|, _ => ""), start);
      failed := exists p :: p in groups && p in b.down + b.unheard;
      StatesGathered(start, Abs(), b);
      IdsGathered(start, ids, b);
    }

    method TryGroups(b: Batch, groups: map<nat, seq<nat>>, none: seq<JobID>, ghost start: seq<Stream>) returns (ids: seq<JobID>)
      requires Valid() && |start| == |parts| && Fits(b, |parts|) && b.windows == Windows()
      requires forall p :: p in groups ==> p < |parts| && Positions(groups[p], b.where, p)
      requires BatchStates(start, Abs(), b, groups.Keys) && BatchIds(start, none, b, groups.Keys)
      modifies parts
      ensures Valid() && BatchStates(start, Abs(), b, {}) && BatchIds(start, ids, b, {})
    {
      ids := none;
      var todo := groups.Keys;
      while todo != {}
        invariant Valid() && todo <= groups.Keys
        invariant BatchStates(start, Abs(), b, todo) && BatchIds(start, ids, b, todo)
        decreases |todo|
      {
        ids, todo := TryGroup(groups, b, ids, todo, start);
      }
    }

    /**
     EnqueueBatch: groups run in any order and some may fail, yet state and
     IDs are those of single enqueues in list order at the partitions that
     committed. `down` and `unheard` are the partitions that fail.
     */
    method EnqueueBatch(rs: seq<Request>, now: int, down: set<nat>, unheard: set<nat>) returns (ids: seq<JobID>, failed: bool, ghost b: Batch)
      requires Valid()
      modifies `enqueueNext, parts
      ensures Valid() && b == Batch(rs, b.where, now, Windows(), down, unheard) && Fits(b, |parts|)
      ensures RoutedByKey(rs, b.where, hash, |parts|)
      ensures Abs() == RunRouted(old(Abs()), StepsOf(b), down) && ids == IdsOf(old(Abs()), b)
      ensures failed <==> Troubled((set p | p in b.where), b)
      ensures forall i, j :: 0 <= i < j < |rs| && rs[i].key == rs[j].key != "" ==> ids[i] == ids[j]
    {
      ghost var start := Abs();
      var groups, where := GroupByRoute(rs);
      assert Abs() == start;
      var batch := Batch(rs, where, now, Windows(), down, unheard);
      b := batch;
      ids, failed := StoreGroups(batch, groups);
      forall i, j | 0 <= i < j < |rs| && rs[i].key == rs[j].key != ""
        ensures ids[i] == ids[j]
      {
        RepeatedKeysAgree(start, b, hash, i, j);
      }
    }

    /** Runs one partition's group through its batch script. */
    method RunGroup(p: nat, batch: seq<Lease>, ack: bool) returns (out: seq<bool>)
      requires Valid() && p < |parts|
      modifies parts[p]
      ensures Valid() && Abs() == old(Abs())[p := Run(old(Abs())[p], FencedOps(batch, ack))]
      ensures out == Verdicts(old(Abs())[p], FencedOps(batch, ack))
    {
      if ack {
        assert FencedOps(batch, ack) == Acks(batch);
        out := parts[p].AckBatch(batch);
      } else {
        assert FencedOps(batch, ack) == Extends(batch);
        out := parts[p].ExtendBatch(batch);
      }
    }

    /** The groups of perPartition's first loop, and the errors of jobs with an unknown partition. */
    method Group(ls: seq<Lease>) returns (groups: map<nat, seq<nat>>, errs: seq<Err>)
      ensures |errs| == |ls| && LeasesGrouped(groups, ls, |parts|)
      ensures forall i :: 0 <= i < |ls| && !Known(|parts|, ls[i]) ==> errs[i] == UnknownPartition
    {
      groups, errs := map[], [];
      var i := 0;
      while i < |ls|
        invariant 0 <= i <= |ls| && |errs| == i && LeasesGrouped(groups, ls[..i], |parts|)
        invariant forall k :: 0 <= k < i && !Known(|parts|, ls[k]) ==> errs[k] == UnknownPartition
      {
        LeasesGroupedMore(groups, ls, i, |parts|);
        var p := ls[i].partition;
        if 0 <= p < |parts| {
          groups := AppendTo(groups, p, i);
          errs := errs + [Nil];
        } else {
          errs := errs + [UnknownPartition];
        }
        i := i + 1;
      }
      assert ls[..i] == ls;
    }

    /** One group of perPartition: run its batch and write the results back to where its jobs came from. */
    method ScatterOne(ls: seq<Lease>, c: Round, p: nat, idx: seq<nat>, errs: seq<Err>,
                      ghost start: seq<Stream>, ghost todo: set<nat>, ghost want: seq<Err>) returns (next: seq<Err>)
      requires Valid() && p < |parts| == |start| && p in todo && idx == IndexesOf(ls, p)
      requires want == WantedErrs(start, ls, c)
      requires StatesDone(start, Abs(), ls, c, todo) && ErrsDone(|parts|, ls, todo, errs, want)
      modifies parts[p]
      ensures Valid() && StatesDone(start, Abs(), ls, c, todo - {p}) && ErrsDone(|parts|, ls, todo - {p}, next, want)
    {
      StatesStep(start, Abs(), ls, c, todo, p);
      var out := CallGroup(ls, c, p, idx);
      GroupErrs(start, ls, c, p, out);
      ErrsStep(|parts|, ls, todo, errs, want, p, out);
      next := Spread(errs, idx, out);
    }

    /** A group's batch script, or the error of its call at every position of the group. */
    method CallGroup(ls: seq<Lease>, c: Round, p: nat, idx: seq<nat>) returns (out: seq<Err>)
      requires Valid() && p < |parts| && idx == IndexesOf(ls, p)
      modifies parts[p]
      ensures Valid() && Abs() == old(Abs())[p := GroupResult(old(Abs())[p], ls, c, p)] && |out| == |idx|
      ensures if Fails(c, p) then forall k :: 0 <= k < |out| ==> out[k] == CallFailed
              else out == ErrsOf(Verdicts(old(Abs())[p], FencedOps(Sublist(ls, p), c.ack)))
    {
      out := seq(|idx|, _ => CallFailed);
      if p in c.down {
        return;
      }
      SublistAt(ls, p);
      var batch := seq(|idx|, k requires 0 <= k < |idx| && idx[k] < |ls| => ls[idx[k]]);
      assert batch == Sublist(ls, p);
      ghost var before := Abs();
      var verdicts := RunGroup(p, batch, c.ack);
      if p !in c.unheard {
        SpreadGroup(before, ls, c, p, verdicts);
        out := ErrsOf(verdicts);
      }
    }

    /**
     perPartition: groups run in any order and some calls may fail, yet results
     and final state are those of single calls in list order.
     */
    method PerPartition(ls: seq<Lease>, c: Round) returns (errs: seq<Err>)
      requires Valid()
      modifies parts
      ensures Valid() && Abs() == OneByOne(old(Abs()), ls, c)
      ensures |errs| == |ls| && forall i :: 0 <= i < |ls| ==> errs[i] == ErrAt(old(Abs()), ls, c, i)
    {
      ghost var start := Abs();
      var groups;
      groups, errs := Group(ls);
      ghost var want := WantedErrs(start, ls, c);
      StatesBegin(start, ls, c, groups.Keys);
      ErrsBegin(start, ls, c, groups.Keys, errs);
      errs := RunGroups(ls, c, groups, errs, start, want);
      GatheredIsOneByOne(start, Abs(), ls, c);
    }

    /** The second loop of perPartition; a map's keys come in any order. */
    method RunGroups(ls: seq<Lease>, c: Round, groups: map<nat, seq<nat>>, errs0: seq<Err>,
                     ghost start: seq<Stream>, ghost want: seq<Err>) returns (errs: seq<Err>)
      requires Valid() && |parts| == |start| && want == WantedErrs(start, ls, c)
      requires forall p :: p in groups ==> p < |parts| && groups[p] == IndexesOf(ls, p)
      requires StatesDone(start, Abs(), ls, c, groups.Keys) && ErrsDone(|parts|, ls, groups.Keys, errs0, want)
      modifies parts
      ensures Valid() && StatesDone(start, Abs(), ls, c, {}) && ErrsDone(|parts|, ls, {}, errs, want)
    {
      errs := errs0;
      var todo := groups.Keys;
      while todo != {}
        invariant Valid() && todo <= groups.Keys
        invariant StatesDone(start, Abs(), ls, c, todo) && ErrsDone(|parts|, ls, todo, errs, want)
        decreases |todo|
      {
        var p :| p in todo;
        errs := ScatterOne(ls, c, p, groups[p], errs, start, todo, want);
        todo := todo - {p};
      }
    }

    method AckBatch(ls: seq<Lease>, down: set<nat>, unheard: set<nat>) returns (errs: seq<Err>)
      requires Valid()
      modifies parts
      ensures Valid() && Abs() == OneByOne(old(Abs()), ls, Round(true, down, unheard))
      ensures |errs| == |ls| && forall i :: 0 <= i < |ls| ==> errs[i] == ErrAt(old(Abs()), ls, Round(true, down, unheard), i)
    {
      errs := PerPartition(ls, Round(true, down, unheard));
    }

    /** takeBuffered: the oldest buffered jobs, each handed out once. */
    method TakeBuffered(limit: nat) returns (jobs: seq<Delivery>)
      modifies `buffered
      ensures jobs + buffered == old(buffered)
      ensures |jobs| == if limit < |old(buffered)| then limit else |old(buffered)|
    {
      var n := if limit < |buffered| then limit else |buffered|;
      jobs := buffered[..n];
      buffered := buffered[n..];
    }

    /** One partition's part of a sweep, with the partition recorded in the leases. A lost reply loses the leases. */
    method ClaimFrom(p: nat, w: WorkerID, limit: nat, now: int, answers: nat -> Answer, jobs: seq<Delivery>,
                     ghost first: seq<Stream>, ghost visited: set<nat>) returns (more: seq<Delivery>)
      requires Valid() && p < |parts| && p !in visited && |jobs| < limit
      requires SweepOk(first, Abs(), w, jobs, visited, answers) && SweptOut(first, Abs(), visited) && AllKeep(first, Abs())
      modifies parts
      ensures Valid() && |more| <= limit && SweepOk(first, Abs(), w, more, visited + {p}, answers) && AllKeep(first, Abs())
      ensures !answers(p).Heard? ==> more == jobs
      ensures answers(p).RequestLost? ==> Abs() == old(Abs())
      ensures answers(p).Heard? && |more| < limit ==> SweptOut(first, Abs(), visited + {p})
    {
      ghost var before := Abs();
      var got := ClaimAt(p, w, limit - |jobs|, now, answers(p));
      SweepMore(first, before, w, jobs, visited, answers, p, Abs()[p], got);
      more := jobs + Tag(got, p);
    }

    /** A claim call to one partition. */
    method ClaimAt(p: nat, w: WorkerID, limit: nat, now: int, answer: Answer) returns (got: seq<Delivery>)
      requires Valid() && p < |parts|
      modifies parts[p]
      ensures Valid() && |got| <= limit && Handed(Abs()[p], w, got) && (!answer.Heard? ==> got == [])
      ensures Abs() == old(Abs())[p := Abs()[p]]
      ensures answer.RequestLost? ==> Abs() == old(Abs())
      ensures Placed(old(Abs())[p]) ==> Placed(Abs()[p]) && Stored(Abs()[p]) == Stored(old(Abs())[p])
      ensures EntriesOf(got) == AcquiredIf(answer.Heard?, old(Abs())[p], Abs()[p]) && KeepsPending(old(Abs())[p], Abs()[p])
      ensures answer.Heard? && |got| < limit ==> Ready(Abs()[p]) == {} || Unreadable(old(Abs())[p])
    {
      got := [];
      if !answer.RequestLost? {
        ghost var promoted, ids;
        got, promoted, ids := parts[p].ClaimReady(w, limit, now, answer.Heard?);
      }
    }

    ghost function Cursors(): (r: seq<nat>)
      reads this, parts
      ensures |r| == |parts| && forall p :: 0 <= p < |parts| ==> r[p] == parts[p].recoverCursor
    {
      seq(|parts|, p requires 0 <= p < |parts| reads parts => parts[p].recoverCursor)
    }

    method RecoverFrom(p: nat, w: WorkerID, visibility: int, limit: nat, answers: nat -> Answer, jobs: seq<Delivery>,
                       ghost first: seq<Stream>, ghost cursors: seq<nat>, ghost visited: set<nat>) returns (more: seq<Delivery>)
      requires Valid() && p < |parts| && p !in visited && |jobs| < limit
      requires SweepOk(first, Abs(), w, jobs, visited, answers) && ScannedOut(first, Abs(), visibility, cursors, Cursors(), visited)
      requires AllTake(first, Abs())
      modifies parts
      ensures Valid() && |more| <= limit && SweepOk(first, Abs(), w, more, visited + {p}, answers) && AllTake(first, Abs())
      ensures !answers(p).Heard? ==> more == jobs
      ensures answers(p).RequestLost? ==> Abs() == old(Abs())
      ensures answers(p).Heard? ==> ScannedOut(first, Abs(), visibility, cursors, Cursors(), visited + {p})
    {
      ghost var before, was := Abs(), Cursors();
      var got := RecoverAt(p, w, visibility, limit - |jobs|, answers(p));
      SweepMore(first, before, w, jobs, visited, answers, p, Abs()[p], got);
      if answers(p).Heard? {
        ScannedMore(first, before, visibility, cursors, was, visited, p, Abs()[p], Cursors()[p]);
      }
      more := jobs + Tag(got, p);
    }

    /** A recovery call to one partition. */
    method RecoverAt(p: nat, w: WorkerID, visibility: int, limit: nat, answer: Answer) returns (got: seq<Delivery>)
      requires Valid() && p < |parts| && limit > 0
      modifies parts[p]
      ensures Valid() && |got| <= limit && Handed(Abs()[p], w, got) && (!answer.Heard? ==> got == [])
      ensures Abs() == old(Abs())[p := Abs()[p]] && Cursors() == old(Cursors())[p := Cursors()[p]]
      ensures answer.RequestLost? ==> Abs() == old(Abs())
      ensures Placed(old(Abs())[p]) ==> Placed(Abs()[p]) && Stored(Abs()[p]) == Stored(old(Abs())[p])
      ensures EntriesOf(got) == AcquiredIf(answer.Heard?, old(Abs())[p], Abs()[p]) && OnlyTakes(old(Abs())[p], Abs()[p])
      ensures answer.Heard? ==> RecoveredFrom(old(Abs())[p], Abs()[p], visibility, old(Cursors())[p], Cursors()[p])
    {
      got := [];
      if !answer.RequestLost? {
        ghost var call;
        got, call := parts[p].RecoverExpired(w, visibility, limit, answer.Heard?);
      }
    }

    /**
     Claim without its wait: buffered jobs first, then a rotating sweep of the
     partitions, up to the first that fails. Never more than limit jobs; the
     sweep adds exactly what the partitions that answered gave up, and below
     the limit it leaves no undelivered entry behind, unless one there could
     not be parsed. No partition gains or loses a job.
     */
    method ClaimReady(w: WorkerID, limit: nat, now: int, answers: nat -> Answer)
      returns (jobs: seq<Delivery>, failed: bool, ghost taken: seq<Delivery>)
      requires Valid()
      modifies `buffered, `claimNext, parts
      ensures Valid() && |jobs| <= limit && ConservedIn(old(Abs()), Abs())
      ensures taken <= jobs && taken + buffered == old(buffered) && (|taken| == limit || buffered == [])
      ensures forall d :: d in jobs[|taken|..] ==> HeldIn(Abs(), w, d)
      ensures Accounted(old(Abs()), Abs(), jobs[|taken|..], answers) && AllKeep(old(Abs()), Abs())
      ensures failed ==> |jobs| < limit && exists p :: 0 <= p < |parts| && !answers(p).Heard?
      ensures !failed && |jobs| < limit ==>
        forall p :: 0 <= p < |parts| ==> answers(p).Heard? && (Ready(Abs()[p]) == {} || Unreadable(old(Abs())[p]))
    {
      jobs := TakeBuffered(limit);
      taken := jobs;
      claimNext := claimNext + 1;
      var swept;
      swept, failed := ClaimSweep(w, limit - |jobs|, now, claimNext, answers);
      jobs := jobs + swept;
      assert jobs[|taken|..] == swept;
    }

    method ClaimSweep(w: WorkerID, limit: nat, now: int, start: nat, answers: nat -> Answer) returns (jobs: seq<Delivery>, failed: bool)
      requires Valid()
      modifies parts
      ensures Valid() && |jobs| <= limit && ConservedIn(old(Abs()), Abs())
      ensures (forall d :: d in jobs ==> HeldIn(Abs(), w, d)) && Accounted(old(Abs()), Abs(), jobs, answers)
      ensures AllKeep(old(Abs()), Abs())
      ensures failed ==> |jobs| < limit && exists p :: 0 <= p < |parts| && !answers(p).Heard?
      ensures !failed && |jobs| < limit ==>
        forall p :: 0 <= p < |parts| ==> answers(p).Heard? && (Ready(Abs()[p]) == {} || Unreadable(old(Abs())[p]))
    {
      ghost var visited;
      jobs, failed, visited := ClaimInOrder(w, limit, now, start, answers);
    }

    /** The loop of the sweep, in rotation. */
    method ClaimInOrder(w: WorkerID, limit: nat, now: int, start: nat, answers: nat -> Answer)
      returns (jobs: seq<Delivery>, failed: bool, ghost visited: set<nat>)
      requires Valid()
      modifies parts
      ensures Valid() && |jobs| <= limit && SweepOk(old(Abs()), Abs(), w, jobs, visited, answers) && AllKeep(old(Abs()), Abs())
      ensures failed ==> |jobs| < limit && exists p :: 0 <= p < |parts| && !answers(p).Heard?
      ensures !failed && |jobs| < limit ==> SweptOut(old(Abs()), Abs(), visited) && Everywhere(visited, |parts|, answers)
    {
      ghost var first := Abs();
      jobs, failed := [], false;
      var order, i := Rotation(start, |parts|), 0;
      SweepBegins(first, w, answers);
      NoneTaken(first);
      while i < |parts| && |jobs| < limit
        invariant Valid() && 0 <= i <= |parts| && |jobs| <= limit && AllKeep(first, Abs())
        invariant SweepOk(first, Abs(), w, jobs, Passed(order, i), answers)
        invariant |jobs| < limit ==> SweptOut(first, Abs(), Passed(order, i))
        invariant forall k :: 0 <= k < i ==> answers(order[k]).Heard?
        decreases |parts| - i
      {
        PassedMore(order, i);
        jobs := ClaimFrom(order[i], w, limit, now, answers, jobs, first, Passed(order, i));
        i := i + 1;
        if !answers(order[i - 1]).Heard? {
          failed, visited := true, Passed(order, i);
          return;
        }
      }
      visited := Passed(order, i);
      if |jobs| < limit {
        PassedEverywhere(start, |parts|, answers);
      }
    }

    /** RecoverExpired: the same sweep over expired leases, each partition from its own cursor. */
    method RecoverExpired(w: WorkerID, visibility: int, limit: nat, answers: nat -> Answer) returns (jobs: seq<Delivery>, failed: bool)
      requires Valid()
      modifies parts
      ensures Valid() && |jobs| <= limit && ConservedIn(old(Abs()), Abs())
      ensures (forall d :: d in jobs ==> HeldIn(Abs(), w, d)) && Accounted(old(Abs()), Abs(), jobs, answers)
      ensures AllTake(old(Abs()), Abs())
      ensures failed ==> |jobs| < limit && exists p :: 0 <= p < |parts| && !answers(p).Heard?
      ensures !failed && |jobs| < limit ==>
        forall p :: 0 <= p < |parts| ==>
          answers(p).Heard? && RecoveredFrom(old(Abs())[p], Abs()[p], visibility, old(Cursors())[p], Cursors()[p])
    {
      ghost var visited;
      jobs, failed, visited := RecoverInOrder(w, visibility, limit, answers);
    }

    method RecoverInOrder(w: WorkerID, visibility: int, limit: nat, answers: nat -> Answer)
      returns (jobs: seq<Delivery>, failed: bool, ghost visited: set<nat>)
      requires Valid()
      modifies parts
      ensures Valid() && |jobs| <= limit && SweepOk(old(Abs()), Abs(), w, jobs, visited, answers) && AllTake(old(Abs()), Abs())
      ensures failed ==> |jobs| < limit && exists p :: 0 <= p < |parts| && !answers(p).Heard?
      ensures !failed && |jobs| < limit ==>
        ScannedOut(old(Abs()), Abs(), visibility, old(Cursors()), Cursors(), visited) && Everywhere(visited, |parts|, answers)
    {
      ghost var first, cursors := Abs(), Cursors();
      jobs, failed := [], false;
      var order, i := Rotation(claimNext, |parts|), 0;
      SweepBegins(first, w, answers);
      NoneTaken(first);
      while i < |parts| && |jobs| < limit
        invariant Valid() && 0 <= i <= |parts| && |jobs| <= limit && AllTake(first, Abs())
        invariant SweepOk(first, Abs(), w, jobs, Passed(order, i), answers)
        invariant ScannedOut(first, Abs(), visibility, cursors, Cursors(), Passed(order, i))
        invariant forall k :: 0 <= k < i ==> answers(order[k]).Heard?
        decreases |parts| - i
      {
        PassedMore(order, i);
        jobs := RecoverFrom(order[i], w, visibility, limit, answers, jobs, first, cursors, Passed(order, i));
        i := i + 1;
        if !answers(order[i - 1]).Heard? {
          failed, visited := true, Passed(order, i);
          return;
        }
      }
      visited := Passed(order, i);
      if |jobs| < limit {
        PassedEverywhere(claimNext, |parts|, answers);
      }
    }

    /**
     ExtendBatch: renews the given leases and the buffered ones, and drops from
     the buffer exactly the jobs whose partition answered that their lease no
     longer passes the check.
     */
    method ExtendBatch(ls: seq<Lease>, down: set<nat>, unheard: set<nat>) returns (errs: seq<Err>)
      requires Valid()
      modifies `buffered, parts
      ensures Valid() && Abs() == OneByOne(old(Abs()), ls + LeasesOf(old(buffered)), Round(false, down, unheard))
      ensures |errs| == |ls| && forall i :: 0 <= i < |ls| ==> errs[i] == ErrAt(old(Abs()), ls, Round(false, down, unheard), i)
      ensures forall d :: d in buffered <==> d in old(buffered) && StillGood(old(Abs()), d.lease, Round(false, down, unheard))
    {
      var c := Round(false, down, unheard);
      ghost var start := Abs();
      var held := buffered;
      var all := ls + LeasesOf(held);
      var allErrs := PerPartition(all, c);
      errs := allErrs[..|ls|];
      ErrsOfPrefix(start, ls, LeasesOf(held), c);
      LostIffNotGood(start, ls, held, allErrs, c);
      buffered := Without(held, LostAmong(all, allErrs, |ls|));
    }
  }
}
