/** The downstream that receives side effects: fencing plus at-most-once application (cmd/chaos/downstream.go). */
module Effects {
  import opened Jobs
  import opened Fencing

  datatype Ledger = Ledger(
    fence: map<JobID, int>,        // highest fencing token seen
    applied: map<JobID, string>,   // payload, once applied
    effects: map<string, nat>,     // payload -> effects applied
    outcomes: map<Outcome, nat>)   // outcome -> count

  const EMPTY_LEDGER: Ledger := Ledger(map[], map[], map[], map[])

  datatype Outcome = Applied | Deduped | Fenced

  function Get<K>(m: map<K, nat>, key: K): nat {
    if key in m then m[key] else 0
  }

  function Bump<K>(m: map<K, nat>, key: K): map<K, nat> {
    m[key := Get(m, key) + 1]
  }

  function HighestSeen(d: Ledger, id: JobID): int {
    if id in d.fence then d.fence[id] else -1
  }

  /** The fence compares Lua numbers. */
  predicate Passes(d: Ledger, id: JobID, token: int) {
    !LuaLess(token, HighestSeen(d, id))
  }

  /** The hashes after the fence accepted or rejected a token. */
  function Noted(d: Ledger, id: JobID, token: int, passes: bool): Ledger {
    if passes then d.(fence := d.fence[id := token]) else d.(outcomes := Bump(d.outcomes, Fenced))
  }

  /** The fence check of a call that carries this token came out as recorded. */
  predicate Checked(d: Ledger, id: JobID, token: int, passes: bool) {
    passes == Passes(d, id, token)
  }

  /** The fence keeps the highest token seen: no call lowers any job's, and an accepted one raises its own to its token. */
  lemma FenceOnlyRises(d: Ledger, id: JobID, token: int, passes: bool)
    requires Checked(d, id, token, passes)
    ensures forall x :: LuaNumber(HighestSeen(d, x)) <= LuaNumber(HighestSeen(Noted(d, id, token, passes), x))
    ensures LuaNumber(token) <= LuaNumber(HighestSeen(Noted(d, id, token, passes), id))
  {
  }

  function AfterFence(d: Ledger, id: JobID, token: int): Ledger {
    Noted(d, id, token, Passes(d, id, token))
  }

  function Judged(d: Ledger, id: JobID, passes: bool): Outcome {
    if !passes then Fenced else if id in d.applied then Deduped else Applied
  }

  function OutcomeOf(d: Ledger, id: JobID, token: int): Outcome {
    Judged(d, id, Passes(d, id, token))
  }

  function Credit(d: Ledger, id: JobID, payload: string): Ledger {
    d.(applied := d.applied[id := payload], effects := Bump(d.effects, payload), outcomes := Bump(d.outcomes, Applied))
  }

  /** The hashes after an apply whose fence check came out as given. */
  function Landed(d: Ledger, id: JobID, token: int, payload: string, passes: bool): Ledger {
    var noted := Noted(d, id, token, passes);
    match Judged(d, id, passes)
    case Fenced => noted
    case Deduped => noted.(outcomes := Bump(noted.outcomes, Deduped))
    case Applied => Credit(noted, id, payload)
  }

  function AfterApply(d: Ledger, id: JobID, token: int, payload: string): Ledger {
    Landed(d, id, token, payload, Passes(d, id, token))
  }

  /** The jobs whose effect landed on this payload. */
  function AppliedOn(d: Ledger, payload: string): set<JobID> {
    KeysWith(d.applied, payload)
  }

  function KeysWith<K, V(==)>(m: map<K, V>, v: V): set<K> {
    set k | k in m && m[k] == v
  }

  lemma KeysAfterUpdate<K, V>(m: map<K, V>, k: K, v: V, n: V)
    requires k !in m
    ensures |KeysWith(m[k := v], n)| == |KeysWith(m, n)| + if n == v then 1 else 0
  {
    if n == v {
      assert KeysWith(m[k := v], n) == KeysWith(m, n) + {k};
    } else {
      assert KeysWith(m[k := v], n) == KeysWith(m, n);
    }
  }

  /** Every payload carries one effect per applied job, and the counter agrees. */
  ghost predicate Balanced(d: Ledger) {
    && (forall n :: Get(d.effects, n) == |AppliedOn(d, n)|)
    && Get(d.outcomes, Applied) == |d.applied|
  }

  lemma {:induction false} FenceKeepsBalance(d: Ledger, id: JobID, token: int, passes: bool)
    requires Balanced(d)
    ensures Balanced(Noted(d, id, token, passes))
  {
    var after := Noted(d, id, token, passes);
    forall n
      ensures Get(after.effects, n) == |AppliedOn(after, n)|
    {
      assert AppliedOn(after, n) == AppliedOn(d, n);
    }
  }

  lemma CreditedOn(d: Ledger, id: JobID, payload: string, n: string)
    requires id !in d.applied
    ensures |AppliedOn(Credit(d, id, payload), n)| == |AppliedOn(d, n)| + if n == payload then 1 else 0
  {
    KeysAfterUpdate(d.applied, id, payload, n);
  }

  lemma {:induction false} CreditKeepsBalance(d: Ledger, id: JobID, payload: string)
    requires Balanced(d) && id !in d.applied
    ensures Balanced(Credit(d, id, payload))
  {
    var after := Credit(d, id, payload);
    forall n
      ensures Get(after.effects, n) == |AppliedOn(after, n)|
    {
      CreditedOn(d, id, payload, n);
      assert Get(d.effects, n) == |AppliedOn(d, n)|;
    }
    var before := d.applied.Keys;
    assert after.applied.Keys == before + {id};
    assert |after.applied| == |before + {id}| == |before| + 1;
  }

  lemma NoteKeepsBalance(d: Ledger, outcome: Outcome)
    requires Balanced(d) && outcome != Applied
    ensures Balanced(d.(outcomes := Bump(d.outcomes, outcome)))
  {
    var after := d.(outcomes := Bump(d.outcomes, outcome));
    assert forall n :: AppliedOn(after, n) == AppliedOn(d, n);
  }

  /** Applying an effect keeps the books: one effect per applied job, whatever is replayed or fenced. */
  lemma {:induction false} ApplyKeepsBalance(d: Ledger, id: JobID, token: int, payload: string, passes: bool)
    requires Balanced(d)
    ensures Balanced(Landed(d, id, token, payload, passes))
  {
    FenceKeepsBalance(d, id, token, passes);
    var noted := Noted(d, id, token, passes);
    match Judged(d, id, passes)
    case Fenced =>
    case Deduped =>
      NoteKeepsBalance(noted, Deduped);
    case Applied =>
      CreditKeepsBalance(noted, id, payload);
  }

  /** The scripts, in place on the downstream's hashes. */
  class Downstream {
    var fence: map<JobID, int>
    var applied: map<JobID, string>
    var effects: map<string, nat>
    var outcomes: map<Outcome, nat>

    ghost function Abs(): Ledger
      reads this
    {
      Ledger(fence, applied, effects, outcomes)
    }

    constructor ()
      ensures Abs() == EMPTY_LEDGER && Balanced(Abs())
    {
      fence, applied, effects, outcomes := map[], map[], map[], map[];
    }

    /** fenceLua. */
    method Fence(id: JobID, token: int) returns (ok: bool)
      requires Balanced(Abs())
      modifies `fence, `outcomes
      ensures Abs() == AfterFence(old(Abs()), id, token) && Balanced(Abs())
      ensures ok == Passes(old(Abs()), id, token)
      ensures fence == if ok then old(fence)[id := token] else old(fence)
      ensures forall x :: LuaNumber(HighestSeen(old(Abs()), x)) <= LuaNumber(HighestSeen(Abs(), x))
      ensures LuaNumber(token) <= LuaNumber(HighestSeen(Abs(), id))
    {
      ghost var before := Abs();
      FenceOnlyRises(before, id, token, Passes(before, id, token));
      FenceKeepsBalance(before, id, token, Passes(before, id, token));
      var seen := if id in fence then fence[id] else -1;
      if LuaLess(token, seen) {
        outcomes := Bump(outcomes, Fenced);
        return false;
      }
      fence := fence[id := token];
      return true;
    }

    /** beginScript: registers a run's token before it starts work. */
    method Begin(id: JobID, token: int) returns (ok: bool)
      requires Balanced(Abs())
      modifies `fence, `outcomes
      ensures Abs() == AfterFence(old(Abs()), id, token) && Balanced(Abs())
      ensures ok == Passes(old(Abs()), id, token)
    {
      ok := Fence(id, token);
    }

    /** applyScript: applies the effect at most once per job ID. */
    method ApplyEffect(id: JobID, token: int, payload: string) returns (outcome: Outcome)
      requires Balanced(Abs())
      modifies `fence, `outcomes, `applied, `effects
      ensures Abs() == AfterApply(old(Abs()), id, token, payload) && Balanced(Abs())
      ensures outcome == OutcomeOf(old(Abs()), id, token)
      ensures outcome != Fenced ==> id in applied
    {
      ghost var before := Abs();
      ApplyKeepsBalance(before, id, token, payload, Passes(before, id, token));
      var ok := Fence(id, token);
      if !ok {
        return Fenced;
      }
      if id in applied {
        outcomes := Bump(outcomes, Deduped);
        return Deduped;
      }
      applied := applied[id := payload];
      effects := Bump(effects, payload);
      outcomes := Bump(outcomes, Applied);
      return Applied;
    }
  }
}
