/** Operations over several partitions, as values: what one-at-a-time calls would do. */
module Scatter {
  import opened Jobs
  import opened Streams
  import opened Enqueueing

  datatype Err = Nil | LeaseLost | UnknownPartition | CallFailed

  /**
   A round of fenced calls: acks or renewals, and what became of the
   partitions' calls. Those to `down` partitions are not executed; those to
   `unheard` ones are, but their replies are lost.
   */
  datatype Round = Round(ack: bool, down: set<nat>, unheard: set<nat>)

  predicate Fails(c: Round, p: nat) {
    p in c.down || p in c.unheard
  }

  function FencedOp(l: Lease, ack: bool): Op {
    if ack then Ack(l) else Extend(l)
  }

  function FencedOps(ls: seq<Lease>, ack: bool): seq<Op> {
    seq(|ls|, i requires 0 <= i < |ls| => FencedOp(ls[i], ack))
  }

  predicate Known(n: nat, l: Lease) {
    0 <= l.partition < n
  }

  /** One fenced call after another, each routed to its lease's partition. */
  function OneByOne(parts: seq<Stream>, ls: seq<Lease>, c: Round): (r: seq<Stream>)
    ensures |r| == |parts|
    decreases |ls|
  {
    if ls == [] then parts
    else
      var l := ls[|ls| - 1];
      var s := OneByOne(parts, ls[..|ls| - 1], c);
      if Known(|parts|, l) && l.partition !in c.down then s[l.partition := Apply(s[l.partition], FencedOp(l, c.ack))] else s
  }

  /** What the i-th of those calls returns. */
  function ErrAt(parts: seq<Stream>, ls: seq<Lease>, c: Round, i: nat): Err
    requires i < |ls|
  {
    if !Known(|parts|, ls[i]) then UnknownPartition
    else if Fails(c, ls[i].partition) then CallFailed
    else if Owns(OneByOne(parts, ls[..i], c)[ls[i].partition], ls[i]) then Nil
    else LeaseLost
  }

  /** The positions of one partition's jobs in the list, in order. */
  function IndexesOf(ls: seq<Lease>, p: int): (r: seq<nat>)
    ensures forall k :: 0 <= k < |r| ==> r[k] < |ls| && ls[r[k]].partition == p
    ensures forall j, k :: 0 <= j < k < |r| ==> r[j] < r[k]
    decreases |ls|
  {
    if ls == [] then []
    else
      var n := |ls| - 1;
      var init := IndexesOf(ls[..n], p);
      assert forall k :: 0 <= k < |init| ==> init[k] < n && ls[..n][init[k]] == ls[init[k]];
      if ls[n].partition == p then init + [n] else init
  }

  /** That partition's sublist. */
  function Sublist(ls: seq<Lease>, p: int): seq<Lease>
    decreases |ls|
  {
    if ls == [] then []
    else
      var n := |ls| - 1;
      Sublist(ls[..n], p) + (if ls[n].partition == p then [ls[n]] else [])
  }

  lemma {:induction false} SublistAt(ls: seq<Lease>, p: int)
    ensures |Sublist(ls, p)| == |IndexesOf(ls, p)|
    ensures forall k :: 0 <= k < |IndexesOf(ls, p)| ==> Sublist(ls, p)[k] == ls[IndexesOf(ls, p)[k]]
    ensures forall k :: 0 <= k < |IndexesOf(ls, p)| ==> Sublist(ls[..IndexesOf(ls, p)[k]], p) == Sublist(ls, p)[..k]
    decreases |ls|
  {
    if ls != [] {
      var n := |ls| - 1;
      var idx, init := IndexesOf(ls, p), IndexesOf(ls[..n], p);
      SublistAt(ls[..n], p);
      forall k | 0 <= k < |idx|
        ensures Sublist(ls, p)[k] == ls[idx[k]] && Sublist(ls[..idx[k]], p) == Sublist(ls, p)[..k]
      {
        if k < |init| {
          assert idx[k] == init[k] && ls[..n][..init[k]] == ls[..init[k]];
        } else {
          assert Sublist(ls, p)[..k] == Sublist(ls[..n], p);
        }
      }
    }
  }

  lemma SublistKth(ls: seq<Lease>, p: int, k: nat, c: Round)
    requires k < |IndexesOf(ls, p)|
    ensures var i, ops := IndexesOf(ls, p)[k], FencedOps(Sublist(ls, p), c.ack);
            && |ops| == |IndexesOf(ls, p)| && ops[k] == FencedOp(ls[i], c.ack)
            && ops[..k] == FencedOps(Sublist(ls[..i], p), c.ack)
  {
    SublistAt(ls, p);
  }

  lemma {:induction false} IndexesCover(ls: seq<Lease>, p: int, i: nat)
    requires i < |ls| && ls[i].partition == p
    ensures i in IndexesOf(ls, p)
    decreases |ls|
  {
    if i < |ls| - 1 {
      assert ls[..|ls| - 1][i] == ls[i];
      IndexesCover(ls[..|ls| - 1], p, i);
    }
  }

  /** The state of a partition once its group was called. */
  function GroupResult(s: Stream, ls: seq<Lease>, c: Round, p: nat): Stream {
    if p in c.down then s else Run(s, FencedOps(Sublist(ls, p), c.ack))
  }

  /** Seen from one partition, calls to the others do not exist. */
  lemma {:induction false} OneByOneProjects(parts: seq<Stream>, ls: seq<Lease>, c: Round, p: nat)
    requires p < |parts|
    ensures OneByOne(parts, ls, c)[p] == GroupResult(parts[p], ls, c, p)
    decreases |ls|
  {
    if ls == [] {
      assert FencedOps(Sublist(ls, p), c.ack) == [];
    } else {
      var n := |ls| - 1;
      var init := Sublist(ls[..n], p);
      OneByOneProjects(parts, ls[..n], c, p);
      if ls[n].partition == p {
        assert FencedOps(Sublist(ls, p), c.ack) == FencedOps(init, c.ack) + [FencedOp(ls[n], c.ack)];
        RunSnoc(parts[p], FencedOps(init, c.ack), FencedOp(ls[n], c.ack));
      } else {
        assert Sublist(ls, p) == init;
      }
    }
  }

  // ----- runs over a sharded queue

  datatype Routed = Routed(part: nat, op: Op)

  function OpsOn(steps: seq<Routed>, p: nat): seq<Op>
    decreases |steps|
  {
    if steps == [] then [] else (if steps[0].part == p then [steps[0].op] else []) + OpsOn(steps[1..], p)
  }

  /** Keyed enqueues go to the partition their key hashes to; everything else goes anywhere. */
  predicate Routing(steps: seq<Routed>, route: string -> nat) {
    forall i :: 0 <= i < |steps| && steps[i].op.Once? ==> steps[i].part == route(steps[i].op.key)
  }

  function CreatedAnywhere(parts: seq<Stream>, steps: seq<Routed>, key: string): seq<JobID>
    decreases |steps|
  {
    if steps == [] then []
    else if steps[0].part >= |parts| then CreatedAnywhere(parts, steps[1..], key)
    else
      var s, op := parts[steps[0].part], steps[0].op;
      (if op.Once? && op.key == key && !Remembered(s, key) then [op.job.id] else [])
      + CreatedAnywhere(parts[steps[0].part := Apply(s, op)], steps[1..], key)
  }

  function RepliesAnywhere(parts: seq<Stream>, steps: seq<Routed>, key: string): seq<JobID>
    decreases |steps|
  {
    if steps == [] then []
    else if steps[0].part >= |parts| then RepliesAnywhere(parts, steps[1..], key)
    else
      var s, op := parts[steps[0].part], steps[0].op;
      (if op.Once? && op.key == key then [OnceReply(s, op)] else [])
      + RepliesAnywhere(parts[steps[0].part := Apply(s, op)], steps[1..], key)
  }

  /** All enqueues with one key happen in one partition, whatever runs in the others. */
  lemma {:induction false} KeyLivesInOnePartition(parts: seq<Stream>, steps: seq<Routed>, route: string -> nat, key: string)
    requires Routing(steps, route) && route(key) < |parts|
    ensures var p := route(key);
            && CreatedAnywhere(parts, steps, key) == Created(parts[p], OpsOn(steps, p), key)
            && RepliesAnywhere(parts, steps, key) == Replies(parts[p], OpsOn(steps, p), key)
    decreases |steps|
  {
    if steps != [] {
      var p, first := route(key), steps[0];
      assert Routing(steps[1..], route);
      var next := if first.part < |parts| then parts[first.part := Apply(parts[first.part], first.op)] else parts;
      KeyLivesInOnePartition(next, steps[1..], route, key);
      if first.part == p {
        assert OpsOn(steps, p) == [first.op] + OpsOn(steps[1..], p);
        assert OpsOn(steps, p)[1..] == OpsOn(steps[1..], p);
      } else {
        assert OpsOn(steps, p) == OpsOn(steps[1..], p);
      }
    }
  }

  /** Idempotent enqueue on a sharded queue: one job per key and window, its ID to every caller. */
  lemma {:induction false} ShardedEnqueueIsIdempotent(parts: seq<Stream>, first: Op, steps: seq<Routed>, route: string -> nat)
    requires first.Once? && route(first.key) < |parts| && !Remembered(parts[route(first.key)], first.key)
    requires var p := route(first.key);
             Routing([Routed(p, first)] + steps, route) && Elapsed(OpsOn(steps, p)) <= first.window
    ensures var all := [Routed(route(first.key), first)] + steps;
            && CreatedAnywhere(parts, all, first.key) == [first.job.id]
            && forall id :: id in RepliesAnywhere(parts, all, first.key) ==> id == first.job.id
  {
    var p := route(first.key);
    var all := [Routed(p, first)] + steps;
    assert all[1..] == steps;
    KeyLivesInOnePartition(parts, all, route, first.key);
    assert OpsOn(all, p) == [first] + OpsOn(steps, p);
    EnqueueIsIdempotent(parts[p], first, OpsOn(steps, p));
  }

  // ----- batched enqueue

  /** Routed steps in list order, where the partitions in `down` take nothing. */
  function RunRouted(parts: seq<Stream>, steps: seq<Routed>, down: set<nat>): (r: seq<Stream>)
    ensures |r| == |parts|
    decreases |steps|
  {
    if steps == [] then parts
    else
      var last := steps[|steps| - 1];
      var s := RunRouted(parts, steps[..|steps| - 1], down);
      if last.part < |parts| && last.part !in down then s[last.part := Apply(s[last.part], last.op)] else s
  }

  lemma {:induction false} OpsOnAppend(a: seq<Routed>, b: seq<Routed>, p: nat)
    ensures OpsOn(a + b, p) == OpsOn(a, p) + OpsOn(b, p)
    decreases |a|
  {
    if a == [] {
      assert a + b == b;
    } else {
      OpsOnAppend(a[1..], b, p);
      var head := if a[0].part == p then [a[0].op] else [];
      assert OpsOn(a + b, p) == head + OpsOn(a[1..] + b, p) by {
        assert (a + b)[0] == a[0] && (a + b)[1..] == a[1..] + b;
      }
      assert head + (OpsOn(a[1..], p) + OpsOn(b, p)) == (head + OpsOn(a[1..], p)) + OpsOn(b, p);
    }
  }

  lemma {:induction false} OpsOnSnoc(steps: seq<Routed>, last: Routed, p: nat)
    ensures OpsOn(steps + [last], p) == OpsOn(steps, p) + (if last.part == p then [last.op] else [])
  {
    OpsOnAppend(steps, [last], p);
    assert OpsOn([last][1..], p) == [];
  }

  /** Each partition sees its own steps, in order, or none when it is down. */
  lemma {:induction false} RunRoutedProjects(parts: seq<Stream>, steps: seq<Routed>, down: set<nat>, p: nat)
    requires p < |parts|
    ensures RunRouted(parts, steps, down)[p] == if p in down then parts[p] else Run(parts[p], OpsOn(steps, p))
    decreases |steps|
  {
    if steps != [] {
      var init, last := steps[..|steps| - 1], steps[|steps| - 1];
      assert steps == init + [last];
      RunRoutedProjects(parts, init, down, p);
      OpsOnSnoc(init, last, p);
      if last.part == p && p !in down {
        RunSnoc(parts[p], OpsOn(init, p), last.op);
      } else if last.part != p {
        assert OpsOn(steps, p) == OpsOn(init, p);
      }
    }
  }

  /** The positions routed to one partition, in order. */
  ghost predicate Positions(idx: seq<nat>, where: seq<nat>, p: nat) {
    && (forall j, k :: 0 <= j < k < |idx| ==> idx[j] < idx[k])
    && |idx| <= |where| && (forall k :: 0 <= k < |idx| ==> k <= idx[k] < |where| && where[idx[k]] == p)
    && (forall i :: 0 <= i < |where| && where[i] == p ==> i in idx)
  }

  lemma PositionsMore(idx: seq<nat>, where: seq<nat>, p: nat, last: nat)
    requires Positions(idx, where, p)
    ensures Positions(if last == p then idx + [|where|] else idx, where + [last], p)
  {
    var next, longer := if last == p then idx + [|where|] else idx, where + [last];
    forall i | 0 <= i < |longer| && longer[i] == p
      ensures i in next
    {
      if i < |where| {
        assert where[i] == p;
      } else {
        assert next[|idx|] == i;
      }
    }
  }

  lemma PositionsLess(idx: seq<nat>, where: seq<nat>, p: nat) returns (before: seq<nat>)
    requires Positions(idx, where, p) && where != []
    ensures Positions(before, where[..|where| - 1], p)
    ensures idx == if where[|where| - 1] == p then before + [|where| - 1] else before
  {
    var n := |where| - 1;
    before := idx;
    if where[n] == p {
      assert n in idx;
      LastPosition(idx, n);
      before := idx[..|idx| - 1];
      forall i | 0 <= i < n && where[..n][i] == p
        ensures i in before
      {
        assert where[i] == p && i in idx;
      }
    } else if idx != [] {
      assert idx[|idx| - 1] < n;
    }
  }

  lemma LastPosition(idx: seq<nat>, n: nat)
    requires forall j, k :: 0 <= j < k < |idx| ==> idx[j] < idx[k]
    requires n in idx && forall k :: 0 <= k < |idx| ==> idx[k] <= n
    ensures idx[|idx| - 1] == n
  {
    var k :| 0 <= k < |idx| && idx[k] == n;
    var last := idx[|idx| - 1];
    assert last <= n;
  }

  function Wheres(steps: seq<Routed>): (r: seq<nat>)
    ensures |r| == |steps| && forall i :: 0 <= i < |steps| ==> r[i] == steps[i].part
  {
    seq(|steps|, i requires 0 <= i < |steps| => steps[i].part)
  }

  /** The step at position e is the k-th of its partition: it comes after exactly the first k of the sublist. */
  predicate IsKth(steps: seq<Routed>, sub: seq<Op>, e: nat, k: nat, p: nat) {
    e < |steps| && k < |sub| && sub[k] == steps[e].op && OpsOn(steps[..e], p) == sub[..k]
  }

  ghost predicate Sublisted(steps: seq<Routed>, sub: seq<Op>, idx: seq<nat>, p: nat) {
    |sub| == |idx| && forall k :: 0 <= k < |idx| ==> IsKth(steps, sub, idx[k], k, p)
  }

  lemma StillKth(steps: seq<Routed>, sub: seq<Op>, e: nat, k: nat, p: nat, last: Routed, more: seq<Op>)
    requires IsKth(steps, sub, e, k, p)
    ensures IsKth(steps + [last], sub + more, e, k, p)
  {
    assert (steps + [last])[..e] == steps[..e];
    assert (sub + more)[..k] == sub[..k];
  }

  lemma LastIsKth(steps: seq<Routed>, p: nat, last: Routed)
    ensures IsKth(steps + [last], OpsOn(steps, p) + [last.op], |steps|, |OpsOn(steps, p)|, p)
  {
    assert (steps + [last])[..|steps|] == steps;
  }

  lemma SublistedMore(steps: seq<Routed>, idx: seq<nat>, p: nat, last: Routed, more: seq<Op>)
    requires Sublisted(steps, OpsOn(steps, p), idx, p) && more == if last.part == p then [last.op] else []
    ensures Sublisted(steps + [last], OpsOn(steps, p) + more, if last.part == p then idx + [|steps|] else idx, p)
  {
    var sub := OpsOn(steps, p);
    forall k | 0 <= k < |idx|
      ensures IsKth(steps + [last], sub + more, idx[k], k, p)
    {
      StillKth(steps, sub, idx[k], k, p, last, more);
    }
    LastIsKth(steps, p, last);
  }

  /** A partition's group is its sublist. */
  lemma {:induction false} GroupIsSublist(steps: seq<Routed>, idx: seq<nat>, p: nat)
    requires Positions(idx, Wheres(steps), p)
    ensures Sublisted(steps, OpsOn(steps, p), idx, p)
    decreases |steps|
  {
    if steps != [] {
      var n := |steps| - 1;
      var init, last := steps[..n], steps[n];
      assert steps == init + [last] && Wheres(init) == Wheres(steps)[..n];
      var before := PositionsLess(idx, Wheres(steps), p);
      GroupIsSublist(init, before, p);
      SublistedMore(init, before, p, last, if last.part == p then [last.op] else []);
      OpsOnSnoc(init, last, p);
    }
  }

  predicate NoTime(ops: seq<Op>) {
    forall i :: 0 <= i < |ops| ==> !ops[i].Tick?
  }

  lemma {:induction false} NoTimeElapses(ops: seq<Op>)
    requires NoTime(ops)
    ensures Elapsed(ops) == 0
    decreases |ops|
  {
    if ops != [] {
      assert NoTime(ops[1..]);
      NoTimeElapses(ops[1..]);
    }
  }

  /** Two requests with one key, with no time between them, get the same answer. */
  lemma SameAnswer(s: Stream, first: Op, ops: seq<Op>, again: Op)
    requires first.Once? && again.Once? && first.key == again.key && NoTime(ops)
    ensures OnceReply(Run(s, [first] + ops), again) == OnceReply(s, first)
  {
    NoTimeElapses(ops);
    KeyAnswersAgain(s, first, ops, again);
  }

  lemma {:induction false} OpsOnNoTime(steps: seq<Routed>, p: nat)
    requires forall i :: 0 <= i < |steps| ==> !steps[i].op.Tick?
    ensures NoTime(OpsOn(steps, p))
    decreases |steps|
  {
    if steps != [] {
      OpsOnNoTime(steps[1..], p);
    }
  }

  /** A batch that repeats a key stores one job for it and reports that job's ID at every position. */
  lemma {:induction false} BatchRepeatsAnswers(parts: seq<Stream>, steps: seq<Routed>, down: set<nat>, i: nat, j: nat)
    requires i < j < |steps| && steps[i].op.Once? && steps[j].op.Once? && steps[i].op.key == steps[j].op.key
    requires steps[i].part == steps[j].part < |parts| && steps[i].part !in down
    requires forall k :: 0 <= k < |steps| ==> !steps[k].op.Tick?
    ensures var p := steps[i].part;
            OnceReply(RunRouted(parts, steps[..j], down)[p], steps[j].op) == OnceReply(RunRouted(parts, steps[..i], down)[p], steps[i].op)
  {
    var p := steps[i].part;
    var before, between := steps[..i], steps[i + 1..j];
    RunRoutedProjects(parts, before, down, p);
    RunRoutedProjects(parts, steps[..j], down, p);
    assert steps[..j] == before + ([steps[i]] + between);
    OpsOnAppend(before, [steps[i]] + between, p);
    assert ([steps[i]] + between)[1..] == between;
    assert OpsOn([steps[i]] + between, p) == [steps[i].op] + OpsOn(between, p);
    RunAppend(parts[p], OpsOn(before, p), [steps[i].op] + OpsOn(between, p));
    OpsOnNoTime(between, p);
    SameAnswer(Run(parts[p], OpsOn(before, p)), steps[i].op, OpsOn(between, p), steps[j].op);
  }
}
