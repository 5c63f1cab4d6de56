/** The hash, signature and field parameters every layer shares, and what it
    means for a set of hash queries to break the hash. */
module Hashing {
  import opened Field

  // Domain separators.
  const DOMAIN_LEAF := 1
  const DOMAIN_TX := 2
  const DOMAIN_DEP := 4
  const DOMAIN_WD := 5
  const DOMAIN_ADDR := 6
  const DOMAIN_DA := 7

  // The public padding key pair and its fixed signature.
  const PAD_PK_X := 0x0e602b9dd6a3e8d039a17f069add3f9c2a187a8f629a1de60a33a8067b9b2842
  const PAD_PK_Y := 0x14cc8e83df1b5cbb163bd2c94005cb0707fe570def5a165242b1c1419cb014cb
  const PAD_MSG := 42
  const PAD_R_X := 0x17e6386beac25fd11573fe37404e61d754a91ee7722dbd0c1c7fff157ed56573
  const PAD_R_Y := 0x2be1ab9ccce96a8deeb82e85a35cc26804269db7ea57bc0e0afa3b835dfcff73
  const PAD_S_LO := 0x8312af54a4f4b07d782dc23d06ef43f2
  const PAD_S_HI := 0x2ed87ed8cf30832f5f7b93ee4d5afd52

  /** p: the field modulus; depth: levels of the account tree; order: the order
      of the signature scalars; hash: Poseidon2 on a list of field elements;
      schnorr(pkX, pkY, msg, rX, rY, s): both points are on the curve and
      s*G == R + e*pk, the equation the circuit and the harness share. */
  datatype Env = Env(
    p: int,
    depth: nat,
    order: int,
    hash: seq<int> -> nat,
    schnorr: (int, int, int, int, int, int) -> bool)

  ghost predicate ValidEnv(e: Env) {
    && IsPrime(e.p)
    && U128 < e.p && Pow2(e.depth) <= e.p
    && PAD_PK_X < e.p && PAD_PK_Y < e.p && PAD_R_X < e.p && PAD_R_Y < e.p
    && 0 < e.order <= U128 * U128
    && (forall x :: 0 <= e.hash(x) < e.p)
    && PAD_S_LO + PAD_S_HI * U128 < e.order
    && e.schnorr(PAD_PK_X, PAD_PK_Y, PAD_MSG, PAD_R_X, PAD_R_Y, PAD_S_LO + PAD_S_HI * U128)
  }

  /** Two different inputs of one arity with the same image. */
  predicate Collides(e: Env, x: seq<int>, y: seq<int>) {
    |x| == |y| && x != y && e.hash(x) == e.hash(y)
  }

  /** A leaf, message or fold input (not a tree node) that hashes to zero. */
  predicate HitsZero(e: Env, x: seq<int>) {
    |x| != 2 && e.hash(x) == 0
  }

  /** The finite set of queries holds a collision or a preimage of zero. No
      theorem assumes the hash injective: each names the queries that would
      have to break it. */
  predicate Breaks(e: Env, queries: set<seq<int>>) {
    || (exists x, y :: x in queries && y in queries && Collides(e, x, y))
    || (exists x :: x in queries && HitsZero(e, x))
  }

  lemma {:induction false} NoBreak(e: Env, queries: set<seq<int>>, x: seq<int>, y: seq<int>)
    requires !Breaks(e, queries) && x in queries && y in queries && |x| == |y|
    ensures e.hash(x) == e.hash(y) ==> x == y
  {
    assert !Collides(e, x, y);
  }

  lemma {:induction false} NoZero(e: Env, queries: set<seq<int>>, x: seq<int>)
    requires !Breaks(e, queries) && x in queries && |x| != 2
    ensures e.hash(x) != 0
  {
    assert !HitsZero(e, x);
  }
}
