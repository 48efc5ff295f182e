/** What the lease check guarantees over every run of one queue. */
module Leases {
  import opened Jobs
  import opened Streams

  /** The lease of a delivery that was taken over or settled. */
  predicate Lost(s: Stream, l: Lease) {
    && l.messageId <= s.lastDelivered
    && !Owns(s, l)
    && (l.messageId in s.pel ==> l.token <= s.pel[l.messageId].count)
  }

  predicate SameDelivery(a: Lease, b: Lease) {
    a.messageId == b.messageId && a.owner == b.owner && a.token == b.token
  }

  /** A delivered entry never becomes pending again once settled, and changes hands only under a higher count. */
  lemma CountsOnlyGrow(s: Stream, op: Op, e: nat)
    requires Shape(s) && e <= s.lastDelivered
    ensures var next := Apply(s, op);
            && e <= next.lastDelivered
            && (e in next.pel ==> e in s.pel && s.pel[e].count <= next.pel[e].count)
            && (e in next.pel && next.pel[e].count == s.pel[e].count ==> next.pel[e].owner == s.pel[e].owner)
  {
    if op.ReadOne? && Ready(s) != {} {
      ReadsOldestFirst(s);
    }
  }

  lemma {:induction false} LostStays(s: Stream, op: Op, l: Lease)
    requires Shape(s) && Lost(s, l)
    ensures Lost(Apply(s, op), l)
  {
    CountsOnlyGrow(s, op, l.messageId);
  }

  lemma {:induction false} OwnedOrLost(s: Stream, op: Op, l: Lease)
    requires Shape(s) && Owns(s, l)
    ensures Owns(Apply(s, op), l) || Lost(Apply(s, op), l)
  {
    CountsOnlyGrow(s, op, l.messageId);
  }

  lemma {:induction false} LostForever(s: Stream, ops: seq<Op>, l: Lease)
    requires Shape(s) && Lost(s, l)
    ensures Lost(Run(s, ops), l)
    decreases |ops|
  {
    if ops != [] {
      ShapeKept(s, ops[0]);
      LostStays(s, ops[0], l);
      LostForever(Apply(s, ops[0]), ops[1..], l);
    }
  }

  lemma {:induction false} OwnedOrLostAfterRun(s: Stream, ops: seq<Op>, l: Lease)
    requires Shape(s) && (Owns(s, l) || Lost(s, l))
    ensures Owns(Run(s, ops), l) || Lost(Run(s, ops), l)
    decreases |ops|
  {
    if Lost(s, l) {
      LostForever(s, ops, l);
    } else if ops != [] {
      ShapeKept(s, ops[0]);
      OwnedOrLost(s, ops[0], l);
      OwnedOrLostAfterRun(Apply(s, ops[0]), ops[1..], l);
    }
  }

  /**
   One lease per entry passes the check, and once it fails it fails in every
   state after that, whoever reacquires or settles the entry.
   */
  lemma {:induction false} StaleLeaseNeverPasses(s: Stream, before: seq<Op>, after: seq<Op>, l: Lease)
    requires Shape(s) && Owns(s, l) && !Owns(Run(s, before), l)
    ensures forall other :: Owns(s, other) && other.messageId == l.messageId ==> SameDelivery(other, l)
    ensures forall other :: SameDelivery(other, l) ==> !Owns(Run(s, before + after), other)
  {
    ShapeAlways(s, before);
    OwnedOrLostAfterRun(s, before, l);
    LostForever(Run(s, before), after, l);
    RunAppend(s, before, after);
  }

  // ----- heartbeats

  /**
   A schedule of steps in which less than `timeout` passes before the holder's
   next renewal lands, every recovery uses at least that timeout, and the
   holder has not settled yet. `since` is the time since the last renewal.
   */
  predicate KeptAlive(ops: seq<Op>, l: Lease, timeout: int, since: nat)
    decreases |ops|
  {
    && since < timeout
    && (ops == [] ||
        match ops[0]
        case Tick(ms) => KeptAlive(ops[1..], l, timeout, since + ms)
        case Extend(other) => KeptAlive(ops[1..], l, timeout, if SameDelivery(other, l) then 0 else since)
        case TakeOver(_, _, minIdle) => minIdle >= timeout && KeptAlive(ops[1..], l, timeout, since)
        case Ack(other) => !SameDelivery(other, l) && KeptAlive(ops[1..], l, timeout, since)
        case Retry(other, _, _) => !SameDelivery(other, l) && KeptAlive(ops[1..], l, timeout, since)
        case DeadLetter(other, _) => !SameDelivery(other, l) && KeptAlive(ops[1..], l, timeout, since)
        case _ => KeptAlive(ops[1..], l, timeout, since))
  }

  ghost predicate Held(s: Stream, l: Lease, f: Fields, since: int) {
    && Owns(s, l)
    && l.messageId in s.entries && s.entries[l.messageId] == f
    && s.clock - s.pel[l.messageId].touched <= since
  }

  lemma {:induction false} HeldAfterStep(s: Stream, op: Op, rest: seq<Op>, l: Lease, f: Fields, timeout: int, since: nat)
    returns (since': nat)
    requires Shape(s) && Held(s, l, f, since) && KeptAlive([op] + rest, l, timeout, since)
    ensures Held(Apply(s, op), l, f, since') && KeptAlive(rest, l, timeout, since')
  {
    assert ([op] + rest)[1..] == rest;
    since' := SinceAfter(op, l, since);
    if Adds(op) || Delivers(op) {
      HeldWhileOthersMove(s, op, l, f, timeout, since);
    } else {
      HeldWhileNotSettled(s, op, l, f, since);
    }
  }

  /** How long ago the last renewal landed, after one more step. */
  function SinceAfter(op: Op, l: Lease, since: nat): nat {
    match op
    case Tick(ms) => since + ms
    case Extend(other) => if SameDelivery(other, l) then 0 else since
    case _ => since
  }

  lemma HeldWhileOthersMove(s: Stream, op: Op, l: Lease, f: Fields, timeout: int, since: nat)
    requires Shape(s) && Held(s, l, f, since) && (Adds(op) || Delivers(op))
    requires since < timeout && (op.TakeOver? ==> op.minIdle >= timeout)
    ensures Held(Apply(s, op), l, f, since)
  {
    if op.ReadOne? && Ready(s) != {} {
      ReadsOldestFirst(s);
    }
  }

  lemma HeldWhileNotSettled(s: Stream, op: Op, l: Lease, f: Fields, since: nat)
    requires Shape(s) && Held(s, l, f, since) && !Adds(op) && !Delivers(op)
    requires Settles(op) ==> !SameDelivery(op.lease, l)
    ensures Held(Apply(s, op), l, f, SinceAfter(op, l, since))
  {
  }

  /** A heartbeat that keeps up is never fenced off: the lease, its token and the entry survive the whole run. */
  lemma {:induction false} HeartbeatKeepsLease(s: Stream, ops: seq<Op>, l: Lease, timeout: int, since: nat)
    requires Shape(s) && Owns(s, l) && s.clock - s.pel[l.messageId].touched <= since
    requires KeptAlive(ops, l, timeout, since)
    ensures Owns(Run(s, ops), l)
    ensures l.messageId in Run(s, ops).entries && Run(s, ops).entries[l.messageId] == s.entries[l.messageId]
    decreases |ops|
  {
    if ops != [] {
      assert ops == [ops[0]] + ops[1..];
      ShapeKept(s, ops[0]);
      var since' := HeldAfterStep(s, ops[0], ops[1..], l, s.entries[l.messageId], timeout, since);
      HeartbeatKeepsLease(Apply(s, ops[0]), ops[1..], l, timeout, since');
    }
  }

  /** So a worker that heartbeats from delivery to the end of its run completes the job with its ack. */
  lemma {:induction false} HeartbeatThenAckCompletes(s: Stream, ops: seq<Op>, l: Lease, timeout: int)
    requires Shape(s) && Owns(s, l) && s.pel[l.messageId].touched == s.clock
    requires s.entries[l.messageId].JobFields? && KeptAlive(ops, l, timeout, 0)
    ensures var after := Run(s, ops + [Ack(l)]);
            s.entries[l.messageId].job.id in after.completed && l.messageId !in after.entries && l.messageId !in after.pel
  {
    HeartbeatKeepsLease(s, ops, l, timeout, 0);
    RunSnoc(s, ops, Ack(l));
  }
}
