/** Capped exponential backoff with jitter (queue/retry.go). */
module Backoff {
  import opened Fencing

  const SECOND: int := 1_000_000_000
  const TWO62: int := 0x4000_0000_0000_0000

  datatype RetryPolicy = RetryPolicy(baseDelay: int, maxDelay: int, jitter: real)

  function Min(a: int, b: int): int {
    if a < b then a else b
  }

  /** The doubling loop over int64 values: up to `steps` doublings, stopping at the cap. */
  function DoublingLoop(delay: int, cap: int, steps: nat): int
    decreases steps
  {
    if steps == 0 || delay >= cap then delay else DoublingLoop(ToInt64(2 * delay), cap, steps - 1)
  }

  function Effective(p: RetryPolicy): RetryPolicy {
    p.(baseDelay := if p.baseDelay == 0 then SECOND else p.baseDelay,
       maxDelay := if p.maxDelay == 0 then 30 * SECOND else p.maxDelay)
  }

  /** What the documentation promises before jitter. */
  function Documented(base: nat, cap: nat, steps: nat): nat {
    var uncapped := base * Pow2(steps);
    if uncapped < cap then uncapped else cap
  }

  /** The first doubling of `delay` whose own doubling leaves int64. */
  function LastSafe(delay: nat): nat
    requires 0 < delay
    decreases TWO62 - delay
  {
    if delay >= TWO62 then delay else LastSafe(2 * delay)
  }

  lemma {:induction false} LoopMeetsDocs(delay: nat, cap: nat, steps: nat)
    requires 0 < delay < TWO63 && 0 < cap <= LastSafe(delay)
    ensures Min(DoublingLoop(delay, cap, steps), cap) == Documented(delay, cap, steps)
    decreases steps
  {
    if steps == 0 || delay >= cap {
      StoppedLoop(delay, cap, steps);
    } else {
      assert delay < TWO62;
      assert ToInt64(2 * delay) == 2 * delay;
      LoopMeetsDocs(2 * delay, cap, steps - 1);
      DoubleOnce(delay, cap, steps);
    }
  }

  lemma DoubleOnce(delay: nat, cap: nat, steps: nat)
    requires steps > 0
    ensures Documented(delay, cap, steps) == Documented(2 * delay, cap, steps - 1)
  {
    var p := Pow2(steps - 1);
    assert delay * (2 * p) == (2 * delay) * p;
  }

  lemma StoppedLoop(delay: nat, cap: nat, steps: nat)
    requires steps == 0 || delay >= cap
    ensures Min(delay, cap) == Documented(delay, cap, steps)
  {
    var p := Pow2(steps);
    assert delay * p >= delay * 1;
  }

  /** Past the safe cap, some retry wraps around to a negative delay. */
  lemma {:induction false} LoopWraps(delay: nat, cap: nat) returns (steps: nat)
    requires 0 < delay < TWO63 && LastSafe(delay) < cap < TWO63
    ensures DoublingLoop(delay, cap, steps) < 0
    decreases TWO62 - delay
  {
    if delay >= TWO62 {
      steps := 1;
      assert DoublingLoop(delay, cap, 1) == DoublingLoop(ToInt64(2 * delay), cap, 0);
    } else {
      LastSafeGrows(2 * delay);
      assert ToInt64(2 * delay) == 2 * delay;
      var rest := LoopWraps(2 * delay, cap);
      steps := rest + 1;
    }
  }

  lemma {:induction false} LastSafeGrows(delay: nat)
    requires 0 < delay
    ensures delay <= LastSafe(delay)
    decreases TWO62 - delay
  {
    if delay < TWO62 {
      LastSafeGrows(2 * delay);
    }
  }

  /** The loop computes min(base * 2^(attempt-1), cap) for every attempt exactly when the cap is reached before int64 wraps. */
  lemma {:induction false} BackoffIsExactIff(base: nat, cap: nat)
    requires 0 < base < TWO63 && 0 < cap < TWO63
    ensures (forall steps: nat :: Min(DoublingLoop(base, cap, steps), cap) == Documented(base, cap, steps))
            <==> cap <= LastSafe(base)
  {
    if cap <= LastSafe(base) {
      forall steps: nat
        ensures Min(DoublingLoop(base, cap, steps), cap) == Documented(base, cap, steps)
      {
        LoopMeetsDocs(base, cap, steps);
      }
    } else {
      var steps := LoopWraps(base, cap);
      assert Min(DoublingLoop(base, cap, steps), cap) != Documented(base, cap, steps);
    }
  }

  /** Every cap up to 2^62 ns (146 years) is safe, whatever the base delay. */
  lemma {:induction false} CapsUpToTwo62AreSafe(base: nat)
    requires 0 < base
    ensures TWO62 <= LastSafe(base)
    decreases TWO62 - base
  {
    if base < TWO62 {
      CapsUpToTwo62AreSafe(2 * base);
    }
  }

  /** Later retries never wait less, and no retry waits longer than the cap. */
  lemma {:induction false} DocumentedIsMonotoneAndCapped(base: nat, cap: nat, k: nat, m: nat)
    requires k <= m
    ensures Documented(base, cap, k) <= Documented(base, cap, m) <= cap
    decreases m - k
  {
    if k < m {
      DocumentedIsMonotoneAndCapped(base, cap, k, m - 1);
      var p := Pow2(m - 1);
      assert base * (2 * p) == 2 * (base * p);
    }
  }

  /** float64 to time.Duration truncates toward zero. */
  function Truncate(x: real): int {
    if x >= 0.0 then x.Floor else -((-x).Floor)
  }

  function Clamp01(j: real): real {
    if j < 0.0 then 0.0 else if j > 1.0 then 1.0 else j
  }

  /** The delay with its last `j` fraction redrawn; `draw` stands for rand.Float64(). */
  function Randomized(n: int, j: real, draw: real): int {
    var d := n as real;
    Truncate(d - d * j + draw * (d * j))
  }

  function Lowest(n: int, j: real): int {
    (n as real * (1.0 - j)).Floor
  }

  lemma FloorBelow(x: real, n: int)
    requires x < n as real
    ensures x.Floor < n
  {
    assert x.Floor as real <= x;
  }

  lemma FloorKeepsOrder(x: real, y: real)
    requires x <= y
    ensures x.Floor <= y.Floor
  {
    assert x.Floor as real <= x && y < (y.Floor + 1) as real;
  }

  lemma JitterStaysInBand(n: int, j: real, draw: real)
    requires n > 0 && 0.0 < j <= 1.0 && 0.0 <= draw < 1.0
    ensures Lowest(n, j) <= Randomized(n, j, draw) < n
  {
    var d := n as real;
    var spread := d * j;
    assert 0.0 < spread <= d;
    assert 0.0 <= draw * spread;
    assert (1.0 - draw) * spread > 0.0;
    var drawn := d - spread + draw * spread;
    assert d * (1.0 - j) == d - spread;
    assert drawn < d;
    FloorBelow(drawn, n);
    FloorKeepsOrder(d - spread, drawn);
  }

  lemma DocumentedIsPositive(base: nat, cap: nat, steps: nat)
    requires base > 0 && cap > 0
    ensures 0 < Documented(base, cap, steps)
  {
    assert base * Pow2(steps) >= base * 1;
  }

  /** Doublings before retry number `attempt`. */
  function Steps(attempt: int): nat {
    if attempt < 1 then 0 else attempt - 1
  }

  /** The delay before jitter, as the int64 loop computes it. */
  function Nominal(policy: RetryPolicy, attempt: int): int {
    var p := Effective(policy);
    Min(DoublingLoop(p.baseDelay, p.maxDelay, Steps(attempt)), p.maxDelay)
  }

  /** A documented delay with the last fraction of it redrawn: within [floor(d * (1 - jitter)), d), and d itself without jitter. */
  predicate Jittered(delay: int, d: int, jitter: real) {
    if jitter <= 0.0 then delay == d
    else if jitter >= 1.0 then 0 <= delay < d
    else (d as real * (1.0 - jitter)).Floor <= delay < d
  }

  /**
   NextDelay. With a cap that int64 reaches before it wraps, retry number n
   waits base * 2^(n - 1) up to the cap, redrawn by the jitter; a zero base
   stands for one second and a zero cap for thirty, in nanoseconds. With any
   cap, the delay before jitter is what the int64 loop computes.
   */
  method NextDelay(policy: RetryPolicy, attempt: int, draw: real) returns (delay: int)
    requires 0.0 <= draw < 1.0
    ensures var base := if policy.baseDelay == 0 then 1_000_000_000 else policy.baseDelay;
            var cap := if policy.maxDelay == 0 then 30_000_000_000 else policy.maxDelay;
            0 < base < TWO63 && 0 < cap <= LastSafe(base) ==>
              && (attempt >= 1 ==> Jittered(delay, Min(base * Pow2(attempt - 1), cap), policy.jitter))
              && (attempt < 1 ==> Jittered(delay, Min(base, cap), policy.jitter))
    ensures var d, j := Nominal(policy, attempt), Clamp01(policy.jitter);
            if j == 0.0 then delay == d else d > 0 ==> Lowest(d, j) <= delay < d
  {
    var base := if policy.baseDelay == 0 then SECOND else policy.baseDelay;
    var cap := if policy.maxDelay == 0 then 30 * SECOND else policy.maxDelay;
    delay := Doubled(base, cap, attempt);
    if 0 < base < TWO63 && 0 < cap <= LastSafe(base) {
      DoubledIsDocumented(base, cap, attempt);
      RedrawnIsJittered(delay, policy.jitter, draw);
    }

    var j := Clamp01(policy.jitter);
    if j > 0.0 {
      if delay > 0 {
        JitterStaysInBand(delay, j, draw);
      }
      delay := Randomized(delay, j, draw);
    }
  }

  /** The loop of NextDelay and the cap. */
  method Doubled(base: int, cap: int, attempt: int) returns (delay: int)
    ensures delay == Min(DoublingLoop(base, cap, Steps(attempt)), cap)
  {
    var n := if attempt < 1 then 1 else attempt;
    delay := base;
    var i := 1;
    while i < n && delay < cap
      invariant 1 <= i <= n
      invariant DoublingLoop(delay, cap, n - i) == DoublingLoop(base, cap, n - 1)
      decreases n - i
    {
      delay := ToInt64(2 * delay);
      i := i + 1;
    }
    delay := Min(delay, cap);
  }

  lemma DoubledIsDocumented(base: nat, cap: nat, attempt: int)
    requires 0 < base < TWO63 && 0 < cap <= LastSafe(base)
    ensures var d := Min(DoublingLoop(base, cap, Steps(attempt)), cap);
            d > 0 && d == Min(base * Pow2(if attempt < 1 then 0 else attempt - 1), cap)
  {
    LoopMeetsDocs(base, cap, Steps(attempt));
    DocumentedIsPositive(base, cap, Steps(attempt));
  }

  lemma RedrawnIsJittered(d: int, jitter: real, draw: real)
    requires d > 0 && 0.0 <= draw < 1.0
    ensures var j := Clamp01(jitter); Jittered(if j > 0.0 then Randomized(d, j, draw) else d, d, jitter)
  {
    var j := Clamp01(jitter);
    if j > 0.0 {
      JitterStaysInBand(d, j, draw);
    }
  }
}
