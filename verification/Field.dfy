/** Arithmetic of the circuit's scalar field: integers modulo a prime p, kept as
    representatives in [0, p). Every result holds for each prime above 2^128. */
module Field {
  const U64: int := 0x1_0000_0000_0000_0000
  const U128: int := 0x1_0000_0000_0000_0000_0000_0000_0000_0000

  function Pow2(n: nat): (r: nat)
    ensures r >= 1
  {
    if n == 0 then 1 else 2 * Pow2(n - 1)
  }

  function Rem(a: int, d: int): int
    requires d != 0
  {
    a % d
  }

  ghost predicate IsPrime(p: int) {
    p > 1 && forall d :: 1 < d < p ==> Rem(p, d) != 0
  }

  predicate InField(p: int, a: int) {
    0 <= a < p
  }

  function Add(p: int, a: int, b: int): int {
    if a + b < p then a + b else a + b - p
  }

  function Sub(p: int, a: int, b: int): int {
    if a >= b then a - b else a - b + p
  }

  function Mul(p: int, a: int, b: int): int
    requires p > 0
  {
    Rem(a * b, p)
  }

  /** tx.nr `assert_u64`: the value has a 64-bit little-endian decomposition. */
  predicate IsU64(v: int) {
    0 <= v < U64
  }

  /** The assertion inside tx.nr `select`, and on every flag of a witness. */
  predicate IsFlag(p: int, c: int)
    requires p > 0
  {
    Mul(p, c, Sub(p, 1, c)) == 0
  }

  /** tx.nr `select`: cond * if_true + (1 - cond) * if_false. */
  function Select(p: int, cond: int, ifTrue: int, ifFalse: int): int
    requires p > 0
  {
    Add(p, Mul(p, cond, ifTrue), Mul(p, Sub(p, 1, cond), ifFalse))
  }

  // ---------- no zero divisors ----------

  lemma {:induction false} RemUnique(a: int, p: int, q: int, r: int)
    requires p > 0 && a == q * p + r && 0 <= r < p
    ensures Rem(a, p) == r
  {
    var q1 := a / p;
    assert a == q1 * p + a % p;
    assert (q1 - q) * p == r - a % p by { assert (q1 - q) * p == q1 * p - q * p; }
    MultipleBound(q1 - q, p);
  }

  lemma {:induction false} MultipleBound(k: int, p: int)
    requires p > 0
    ensures k >= 1 ==> k * p >= p
    ensures k <= -1 ==> k * p <= -p
  {
    if k >= 1 {
      assert k * p == p + (k - 1) * p;
    } else if k <= -1 {
      assert k * p == -p + (k + 1) * p;
    }
  }

  lemma {:induction false} RemMultiple(p: int, k: int)
    requires p > 0
    ensures Rem(k * p, p) == 0
  {
    RemUnique(k * p, p, k, 0);
  }

  /** If p divides k*b for some 0 < k < p and p is prime, then p divides b. */
  lemma {:induction false} SmallMultiple(p: int, k: int, b: int)
    requires IsPrime(p) && 0 < k < p && Rem(k * b, p) == 0
    ensures Rem(b, p) == 0
    decreases k
  {
    if k != 1 {
      // Euclid step: p == q*k + r, and p divides r*b as well.
      var q, r := p / k, p % k;
      assert p == q * k + r;
      assert r != 0 by { assert Rem(p, k) != 0; }
      assert r * b == p * b - q * (k * b) by {
        assert (q * k + r) * b == (q * k) * b + r * b;
        assert (q * k) * b == q * (k * b);
      }
      var m := (k * b) / p;
      assert k * b == m * p;
      assert r * b == (b - q * m) * p by {
        assert q * (m * p) == (q * m) * p;
        assert (b - q * m) * p == b * p - (q * m) * p;
        assert p * b == b * p;
      }
      RemMultiple(p, b - q * m);
      SmallMultiple(p, r, b);
    }
  }

  /** A flag check passes exactly for the field elements 0 and 1. */
  lemma {:induction false} FlagIsBit(p: int, c: int)
    requires IsPrime(p) && p > 2 && InField(p, c)
    ensures IsFlag(p, c) <==> c == 0 || c == 1
  {
    if c == 0 {
      assert c * Sub(p, 1, c) == 0;
      RemUnique(0, p, 0, 0);
    } else if c == 1 {
      assert c * Sub(p, 1, c) == 0;
      RemUnique(0, p, 0, 0);
    } else {
      var b := Sub(p, 1, c);
      assert 0 < b < p;
      if Rem(c * b, p) == 0 {
        SmallMultiple(p, c, b);
        RemUnique(b, p, 0, b);
      }
    }
  }

  /** On a bit, `select` is a two-way choice. */
  lemma {:induction false} SelectBit(p: int, c: int, t: int, f: int)
    requires p > 2 && InField(p, t) && InField(p, f) && (c == 0 || c == 1)
    ensures Select(p, c, t, f) == if c == 1 then t else f
  {
    RemUnique(0, p, 0, 0);
    RemUnique(t, p, 0, t);
    RemUnique(f, p, 0, f);
    assert 0 * t == 0 && 1 * t == t && 0 * f == 0 && 1 * f == f;
  }

  lemma {:induction false} MulBits(p: int, a: int, b: int)
    requires p > 2 && (a == 0 || a == 1) && (b == 0 || b == 1)
    ensures Mul(p, a, b) == if a == 1 && b == 1 then 1 else 0
  {
    RemUnique(0, p, 0, 0);
    RemUnique(1, p, 0, 1);
    assert a * b == if a == 1 && b == 1 then 1 else 0;
  }

  /** The 64-bit checks on field results decide integer facts: a debit passes
      exactly when it does not underflow, a credit exactly when it does not
      overflow, and a passing result is the integer one. */
  lemma {:induction false} RangeChecksDecide(p: int, a: int, b: int)
    requires p > 2 * U64 && IsU64(a) && IsU64(b)
    ensures IsU64(Sub(p, a, b)) <==> a >= b
    ensures a >= b ==> Sub(p, a, b) == a - b
    ensures IsU64(Add(p, a, b)) <==> a + b < U64
    ensures a + b < U64 ==> Add(p, a, b) == a + b
  {}

  /** Addition and subtraction are those of the integers modulo p. */
  lemma {:induction false} AddSubModular(p: int, a: int, b: int)
    requires p > 0 && InField(p, a) && InField(p, b)
    ensures Add(p, a, b) == Rem(a + b, p) && Sub(p, a, b) == Rem(a - b, p)
  {
    if a + b < p { RemUnique(a + b, p, 0, a + b); } else { RemUnique(a + b, p, 1, a + b - p); }
    if a >= b { RemUnique(a - b, p, 0, a - b); } else { RemUnique(a - b, p, -1, a - b + p); }
  }
}
