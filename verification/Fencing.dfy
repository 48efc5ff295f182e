/**
 The fencing token of a run (queue/job.go) and the number type the downstream
 compares it in (cmd/chaos/downstream.go: Lua numbers are IEEE doubles).
 */
module Fencing {

  const TWO21: int := 0x20_0000
  const TWO31: int := 0x8000_0000
  const TWO32: int := 0x1_0000_0000
  const TWO52: int := 0x10_0000_0000_0000
  const TWO53: int := 0x20_0000_0000_0000
  const TWO63: int := 0x8000_0000_0000_0000
  const TWO64: int := 0x1_0000_0000_0000_0000

  function Pow2(k: nat): (r: nat)
    ensures r >= 1
  {
    if k == 0 then 1 else 2 * Pow2(k - 1)
  }

  /** Bitwise or. */
  function BitOr(a: nat, b: nat): nat
    decreases a + b
  {
    if a == 0 then b
    else if b == 0 then a
    else (if a % 2 == 1 || b % 2 == 1 then 1 else 0) + 2 * BitOr(a / 2, b / 2)
  }

  /** Reads a 64-bit pattern as a signed integer. */
  function ToInt64(x: int): (r: int)
    ensures -TWO63 <= r < TWO63
  {
    var m := x % TWO64;
    if m < TWO63 then m else m - TWO64
  }

  /** The shift drops high bits and the or can touch the sign bit, as int64 arithmetic does. */
  function FencingToken(attempt: nat, token: nat): int {
    ToInt64(BitOr((attempt * TWO32) % TWO64, token))
  }

  predicate LexLess(a1: nat, t1: int, a2: nat, t2: int) {
    a1 < a2 || (a1 == a2 && t1 < t2)
  }

  lemma {:induction false} OrOfDisjointBits(a: nat, t: nat, k: nat)
    requires t < Pow2(k)
    ensures BitOr(a * Pow2(k), t) == a * Pow2(k) + t
  {
    if k != 0 {
      var half := a * Pow2(k - 1);
      assert a * Pow2(k) == 2 * half;
      OrOfDisjointBits(a, t / 2, k - 1);
    }
  }

  lemma {:induction false} OrAtMostSum(a: nat, b: nat)
    ensures BitOr(a, b) <= a + b
    decreases a + b
  {
    if a != 0 && b != 0 {
      OrAtMostSum(a / 2, b / 2);
    }
  }

  lemma Pow2Values()
    ensures Pow2(32) == TWO32
  {
    assert Pow2(8) == 256;
    assert Pow2(16) == 256 * Pow2(8);
    assert Pow2(24) == 256 * Pow2(16);
    assert Pow2(32) == 256 * Pow2(24);
  }

  /** In range, the packed token is the attempt in the high half and the delivery count in the low half. */
  lemma {:induction false} PackingIsExact(attempt: nat, token: nat)
    requires attempt < TWO31 && token < TWO32
    ensures FencingToken(attempt, token) == attempt * TWO32 + token
  {
    Pow2Values();
    OrOfDisjointBits(attempt, token, 32);
    NoBitsLost(attempt, token);
  }

  /** In range, neither the shift nor the sign bit changes the value. */
  lemma NoBitsLost(attempt: nat, token: nat)
    requires attempt < TWO31 && token < TWO32
    ensures (attempt * TWO32) % TWO64 == attempt * TWO32
    ensures ToInt64(attempt * TWO32 + token) == attempt * TWO32 + token
  {
    var x := attempt * TWO32 + token;
    assert attempt * TWO32 <= (TWO31 - 1) * TWO32;
    assert 0 <= x < TWO63;
  }

  /** In range, comparing packed tokens is comparing (attempt, delivery count) lexicographically. */
  lemma {:induction false} PackingKeepsOrder(a1: nat, t1: nat, a2: nat, t2: nat)
    requires a1 < TWO31 && t1 < TWO32 && a2 < TWO31 && t2 < TWO32
    ensures FencingToken(a1, t1) < FencingToken(a2, t2) <==> LexLess(a1, t1, a2, t2)
  {
    PackingIsExact(a1, t1);
    PackingIsExact(a2, t2);
  }

  /**
   A retry restarts the delivery count at 1. Its token outranks that of the run
   it replaces, for every attempt, exactly when that run's count is at most 2^32.
   */
  lemma {:induction false} RetryOutranksIff(t: nat)
    requires t < TWO63
    ensures (forall a: nat :: a + 1 < TWO31 ==> FencingToken(a, t) < FencingToken(a + 1, 1)) <==> t <= TWO32
  {
    if t <= TWO32 {
      forall a: nat | a + 1 < TWO31
        ensures FencingToken(a, t) < FencingToken(a + 1, 1)
      {
        PackingIsExact(a + 1, 1);
        OrAtMostSum(a * TWO32, t);
      }
    } else {
      PackingIsExact(1, 1);
      assert FencingToken(0, t) == t;
      assert !(FencingToken(0, t) < FencingToken(0 + 1, 1));
    }
  }

  // ----- Lua numbers

  /** The spacing of doubles at x. */
  function Ulp(x: nat): (u: nat)
    ensures u >= 1
  {
    if x < TWO53 then 1 else 2 * Ulp(x / 2)
  }

  /** tonumber: round to the nearest double, ties to even. */
  function ToDouble(x: nat): nat {
    var u := Ulp(x);
    var q, r := x / u, x % u;
    if 2 * r < u || (2 * r == u && q % 2 == 0) then q * u else (q + 1) * u
  }

  /** tonumber(a) < tonumber(b) for int64 values. */
  predicate LuaLess(a: int, b: int) {
    LuaNumber(a) < LuaNumber(b)
  }

  function LuaNumber(a: int): int {
    if a >= 0 then ToDouble(a) else -(ToDouble(-a) as int)
  }

  lemma DoubleIsExactBelow(x: nat)
    requires x <= TWO53
    ensures ToDouble(x) == x
  {
    if x == TWO53 {
      assert Ulp(x / 2) == 1;
    }
  }

  // ----- rounding keeps order

  /** Doubles at x are the multiples of a spacing that grows with x. */
  lemma {:induction false} UlpFacts(x: nat)
    ensures x < TWO53 * Ulp(x)
    ensures Ulp(x) > 1 ==> Ulp(x) % 2 == 0 && TWO52 * Ulp(x) <= x
  {
    if x >= TWO53 {
      UlpFacts(x / 2);
      var half := Ulp(x / 2);
      assert Ulp(x) == 2 * half;
      assert TWO52 * (2 * half) == 2 * (TWO52 * half) && TWO53 * (2 * half) == 2 * (TWO53 * half);
    }
  }

  lemma {:induction false} UlpGrows(x: nat, y: nat)
    requires x <= y
    ensures Ulp(x) == Ulp(y) || 2 * Ulp(x) <= Ulp(y)
  {
    if x >= TWO53 {
      UlpGrows(x / 2, y / 2);
    }
  }

  /** Rounding to multiples of u, ties to even. */
  function Nearest(x: nat, u: nat): nat
    requires u >= 1
  {
    var q, r := x / u, x % u;
    if 2 * r < u || (2 * r == u && q % 2 == 0) then q else q + 1
  }

  lemma NearestFacts(x: nat, u: nat)
    requires u >= 1
    ensures x / u <= Nearest(x, u) <= x / u + 1
    ensures ToDouble(x) == Nearest(x, Ulp(x)) * Ulp(x)
  {
  }

  lemma DivFacts(x: nat, u: nat, k: nat)
    requires u >= 1
    ensures x < k * u ==> x / u < k
    ensures k * u <= x ==> k <= x / u
  {
    var q := x / u;
    assert x == q * u + x % u;
    if k <= q {
      TimesKeepsOrder(k, q, u);
    } else {
      TimesKeepsOrder(q + 1, k, u);
      assert (q + 1) * u == q * u + u;
    }
  }

  lemma NearestKeepsOrder(x: nat, y: nat, u: nat)
    requires u >= 1 && x <= y
    ensures Nearest(x, u) <= Nearest(y, u)
  {
    var p, q := x / u, y / u;
    assert x == p * u + x % u && y == q * u + y % u;
    DivFacts(y, u, p);
  }

  lemma TimesKeepsOrder(a: nat, b: nat, u: nat)
    requires a <= b
    ensures a * u <= b * u
  {
    assert b * u == a * u + (b - a) * u;
  }

  /** Rounding to a double is monotone, however coarse it is. */
  lemma {:induction false} DoubleKeepsOrder(x: nat, y: nat)
    requires x <= y
    ensures ToDouble(x) <= ToDouble(y)
  {
    var u, v := Ulp(x), Ulp(y);
    NearestFacts(x, u);
    NearestFacts(y, v);
    UlpGrows(x, y);
    if u == v {
      NearestKeepsOrder(x, y, u);
      TimesKeepsOrder(Nearest(x, u), Nearest(y, u), u);
    } else {
      UlpFacts(x);
      UlpFacts(y);
      DivFacts(x, u, TWO53);
      DivFacts(y, v, TWO52);
      TimesKeepsOrder(Nearest(x, u), TWO53, u);
      TimesKeepsOrder(TWO52, Nearest(y, v), v);
      assert TWO53 * u == TWO52 * (2 * u);
      TimesKeepsOrder(2 * u, v, TWO52);
    }
  }

  /** The downstream never ranks an older token above a newer one. */
  lemma {:induction false} LuaLessMeansLess(a: nat, b: int)
    requires LuaLess(a, b)
    ensures a < b
  {
    if b >= 0 && b <= a {
      DoubleKeepsOrder(b, a);
    }
  }

  // ----- where it is exact

  /** The first integers past 2^53: odd ones go to the even multiple of two. */
  lemma DoublesPast53()
    ensures ToDouble(TWO53 + 1) == TWO53 && ToDouble(TWO53 + 2) == TWO53 + 2
    ensures ToDouble(TWO53 + 3) == TWO53 + 4 && ToDouble(TWO53 + 4) == TWO53 + 4
  {
    assert Ulp((TWO53 + 1) / 2) == 1 && Ulp((TWO53 + 2) / 2) == 1 && Ulp((TWO53 + 3) / 2) == 1 && Ulp((TWO53 + 4) / 2) == 1;
    assert Ulp(TWO53 + 1) == 2 && Ulp(TWO53 + 2) == 2 && Ulp(TWO53 + 3) == 2 && Ulp(TWO53 + 4) == 2;
  }

  /** A run whose token can be packed. Delivery counts start at 1. */
  predicate Packable(attempt: nat, token: int) {
    attempt < TWO31 && 1 <= token < TWO32
  }

  /** A run whose token is at most m. */
  predicate UpTo(attempt: nat, token: int, m: int) {
    Packable(attempt, token) && FencingToken(attempt, token) <= m
  }

  /** Attempt 2^21 begins at 2^53, and no delivery has count 0. */
  lemma TokensSkip53(attempt: nat, token: int)
    requires Packable(attempt, token)
    ensures FencingToken(attempt, token) == attempt * TWO32 + token >= 1 && FencingToken(attempt, token) != TWO53
  {
    PackingIsExact(attempt, token);
    if attempt < TWO21 {
      assert attempt * TWO32 <= (TWO21 - 1) * TWO32;
    } else {
      assert attempt * TWO32 >= TWO21 * TWO32;
    }
  }

  lemma ExactUpTo(x: nat, y: nat)
    requires x < y <= TWO53 + 3 && x != TWO53 && y != TWO53
    ensures ToDouble(x) < ToDouble(y)
  {
    DoublesPast53();
    if x < TWO53 {
      DoubleIsExactBelow(x);
    }
    if y < TWO53 {
      DoubleIsExactBelow(y);
    }
  }

  /** For runs with tokens up to 2^53 + 3, the downstream's Lua comparison is the order of runs. */
  lemma {:induction false} LuaOrderIsRunOrder(a1: nat, t1: int, a2: nat, t2: int)
    requires UpTo(a1, t1, TWO53 + 3) && UpTo(a2, t2, TWO53 + 3)
    ensures LuaLess(FencingToken(a1, t1), FencingToken(a2, t2)) <==> LexLess(a1, t1, a2, t2)
  {
    TokensSkip53(a1, t1);
    TokensSkip53(a2, t2);
    PackingKeepsOrder(a1, t1, a2, t2);
    var x, y := FencingToken(a1, t1), FencingToken(a2, t2);
    if x < y {
      ExactUpTo(x, y);
    } else {
      DoubleKeepsOrder(y, x);
    }
  }

  /** At attempt 2^21 the fence takes the third and the fourth delivery for the same run. */
  lemma {:induction false} FenceBlindPastRange()
    ensures Packable(TWO21, 3) && Packable(TWO21, 4) && LexLess(TWO21, 3, TWO21, 4)
    ensures FencingToken(TWO21, 3) == TWO53 + 3 && FencingToken(TWO21, 4) == TWO53 + 4
    ensures !LuaLess(FencingToken(TWO21, 3), FencingToken(TWO21, 4))
  {
    PackingIsExact(TWO21, 3);
    PackingIsExact(TWO21, 4);
    DoublesPast53();
  }

  /** The comparison is the order of runs, on all runs with tokens up to m, exactly when m is at most 2^53 + 3. */
  lemma {:induction false} LuaOrderIsExactIff(m: int)
    ensures (forall a1: nat, t1: int, a2: nat, t2: int :: UpTo(a1, t1, m) && UpTo(a2, t2, m) ==>
               (LuaLess(FencingToken(a1, t1), FencingToken(a2, t2)) <==> LexLess(a1, t1, a2, t2)))
            <==> m <= TWO53 + 3
  {
    if m <= TWO53 + 3 {
      forall a1: nat, t1: int, a2: nat, t2: int | UpTo(a1, t1, m) && UpTo(a2, t2, m)
        ensures LuaLess(FencingToken(a1, t1), FencingToken(a2, t2)) <==> LexLess(a1, t1, a2, t2)
      {
        LuaOrderIsRunOrder(a1, t1, a2, t2);
      }
    } else {
      FenceBlindPastRange();
      assert UpTo(TWO21, 3, m) && UpTo(TWO21, 4, m);
    }
  }
}
