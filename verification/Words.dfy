/** The bytes of Encoding and the numbers of the other modules are the same words:
    canonicity and signature limbs agree. */
module Words {
  import opened Field
  import opened Hashing
  import opened Circuit
  import Encoding
  import Builder
  import Contract
  import Database

  /** publics.rs compares bytes; the contract model compares their value. */
  lemma {:induction false} CanonicalAgrees(c: Contract.Config, w: seq<Encoding.Byte>)
    requires 0 < c.e.p < Encoding.Pow256(Encoding.WORD) && Encoding.IsWord(w)
    ensures Encoding.IsCanonical(c.e.p, w) <==> Contract.IsCanonical(c, Encoding.Value(w))
  {
    Encoding.CanonicalWords(c.e.p, w, w);
  }

  lemma {:induction false} PowSum(m: nat, n: nat)
    ensures Encoding.Pow256(m + n) == Encoding.Pow256(m) * Encoding.Pow256(n)
  {
    if m != 0 { PowSum(m - 1, n); }
  }

  lemma {:induction false} HalfIs128Bits()
    ensures Encoding.Pow256(Encoding.HALF) == U128
  {
    PowSum(8, 8);
    PowSum(4, 4);
    assert Encoding.Pow256(4) == 0x1_0000_0000;
  }

  /** The limbs SLimbs copies out are the numbers Limbs computes. */
  lemma {:induction false} LimbsAgree(full: seq<Encoding.Byte>)
    requires Encoding.IsWord(full)
    ensures var zeros := Encoding.Zeros(Encoding.HALF);
            Builder.Limbs(Encoding.Value(full)) ==
            (Encoding.Value(zeros + full[Encoding.HALF..]), Encoding.Value(zeros + full[..Encoding.HALF]))
  {
    HalfIs128Bits();
    Encoding.LimbsRoundTrip(full);
  }

  lemma {:induction false} BytesOfZero(n: nat)
    ensures Encoding.Bytes(0, n) == Encoding.Zeros(n)
  {
    if n != 0 {
      BytesOfZero(n - 1);
      assert forall k :: 0 <= k < n ==> Encoding.Bytes(0, n)[k] == Encoding.Zeros(n)[k];
    }
  }

  lemma {:induction false} AboveHalf(q: nat, p: nat, r: nat)
    requires r < p
    ensures q * p + r < p <==> q == 0
  {
    if q > 0 { assert (q - 1) * p >= 0; }
  }

  /** A word is below 2^128 exactly when its upper half is zero. */
  lemma {:induction false} SmallWord(w: seq<Encoding.Byte>)
    requires Encoding.IsWord(w)
    ensures Encoding.Value(w) < U128 <==> w[..Encoding.HALF] == Encoding.Zeros(Encoding.HALF)
    ensures Encoding.Value(w) < U128 ==> Encoding.Value(w) == Encoding.Value(w[Encoding.HALF..])
  {
    var a, b := w[..Encoding.HALF], w[Encoding.HALF..];
    assert w == a + b;
    HalfIs128Bits();
    Encoding.ValueSplit(a, b);
    Encoding.ValueBound(b);
    Encoding.BytesOfValue(a);
    Encoding.ValueOfZeros(Encoding.HALF);
    BytesOfZero(Encoding.HALF);
    AboveHalf(Encoding.Value(a), U128, Encoding.Value(b));
  }

  /** Joining limbs byte-wise or numerically accepts the same limbs and means the
      same scalar. */
  lemma {:induction false} JoinsAgree(e: Env, lo: seq<Encoding.Byte>, hi: seq<Encoding.Byte>)
    requires e.order > 0 && Encoding.IsWord(lo) && Encoding.IsWord(hi)
    ensures var joined := Encoding.FromLimbs(lo, hi);
            Database.FromHalves(e, Encoding.Value(lo), Encoding.Value(hi)) ==
            if joined.None? then None else Some(Encoding.Value(joined.value) % e.order)
  {
    SmallWord(lo);
    SmallWord(hi);
    HalfIs128Bits();
    if Encoding.FromLimbs(lo, hi).Some? { Encoding.ValueSplit(hi[Encoding.HALF..], lo[Encoding.HALF..]); }
  }
}
