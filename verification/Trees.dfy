/** The sequencer's account tree object (harness tree.rs): sparse leaves updated
    in place, roots and paths recomputed level by level. */
module Trees {
  import opened Field
  import opened Hashing
  import opened Merkle
  import opened Circuit

  /** First slot at or after i, among n slots, that holds pk. */
  function FindFrom(t: Table, pk: int, i: nat, n: nat): (r: Option<nat>)
    ensures r.Some? ==> i <= r.value < n && r.value in t && t[r.value].pk == pk
    ensures r.Some? ==> forall j :: i <= j < r.value && j in t ==> t[j].pk != pk
    ensures r.None? ==> forall j :: i <= j < n && j in t ==> t[j].pk != pk
    decreases n - i
  {
    if i >= n then None
    else if i in t && t[i].pk == pk then Some(i)
    else FindFrom(t, pk, i + 1, n)
  }

  /** tree.rs `find`: the lowest slot holding pk. */
  function Find(e: Env, t: Table, pk: int): Option<nat> {
    FindFrom(t, pk, 0, Pow2(e.depth))
  }

  function FreeFrom(t: Table, i: nat, n: nat): (r: Option<nat>)
    ensures r.Some? ==> i <= r.value < n && r.value !in t && forall j :: i <= j < r.value ==> j in t
    ensures r.None? ==> forall j :: i <= j < n ==> j in t
    decreases n - i
  {
    if i >= n then None else if i !in t then Some(i) else FreeFrom(t, i + 1, n)
  }

  /** tree.rs `free_index`: the lowest empty slot. */
  function FreeIndex(e: Env, t: Table): Option<nat> {
    FreeFrom(t, 0, Pow2(e.depth))
  }

  function Halve(e: Env, level: seq<int>): (r: seq<int>)
    requires |level| % 2 == 0
    ensures |r| == |level| / 2
    ensures forall j :: 0 <= j < |r| ==> r[j] == e.hash([level[2 * j], level[2 * j + 1]])
  {
    seq(|level| / 2, j requires 0 <= j < |level| / 2 => e.hash([level[2 * j], level[2 * j + 1]]))
  }

  /** All nodes of level l, left to right. */
  function Level(e: Env, t: Table, l: nat): (r: seq<int>)
    requires l <= e.depth
    ensures |r| == Pow2(e.depth - l)
  {
    seq(Pow2(e.depth - l), j requires j >= 0 => Node(e, t, l, j))
  }

  lemma {:induction false} HalveLevel(e: Env, t: Table, l: nat)
    requires l < e.depth
    ensures |Level(e, t, l)| % 2 == 0 && Halve(e, Level(e, t, l)) == Level(e, t, l + 1)
  {
    var level := Level(e, t, l);
    assert Pow2(e.depth - l) == 2 * Pow2(e.depth - l - 1);
    forall j | 0 <= j < |level| / 2 ensures Halve(e, level)[j] == Node(e, t, l + 1, j) {
      assert [level[2 * j], level[2 * j + 1]] == Children(e, t, l, j);
    }
  }

  lemma {:induction false} LevelEntry(e: Env, t: Table, l: nat, j: nat)
    requires l < e.depth && j < 2 * Pow2(e.depth - l - 1)
    ensures j < |Level(e, t, l)| && Level(e, t, l)[j] == Node(e, t, l, j)
  {}

  /** Little-endian bits of an index. */
  function Bits(i: nat, n: nat): seq<int> {
    if n == 0 then [] else [i % 2] + Bits(i / 2, n - 1)
  }

  lemma {:induction false} PathAt(e: Env, t: Table, l: nat, i: nat, n: nat, k: nat)
    requires k < n
    ensures Path(e, t, l, i, n)[k] == Node(e, t, l + k, Sibling(Ancestor(i, k)))
    decreases n
  {
    if k > 0 { PathAt(e, t, l + 1, i / 2, n - 1, k - 1); }
  }

  lemma {:induction false} BitsAt(i: nat, n: nat, k: nat)
    requires k < n
    ensures |Bits(i, n)| == n && Bits(i, n)[k] == Ancestor(i, k) % 2
    decreases n
  {
    BitsLength(i, n);
    if k > 0 { BitsAt(i / 2, n - 1, k - 1); }
  }

  lemma {:induction false} AncestorBound(i: nat, k: nat, n: nat)
    requires i < Pow2(n) && k < n
    ensures Ancestor(i, k) < 2 * Pow2(n - k - 1)
    decreases k
  {
    if k > 0 { AncestorBound(i / 2, k - 1, n - 1); }
  }

  lemma {:induction false} SiblingInRange(i: nat, n: nat)
    requires i < 2 * n
    ensures Sibling(i) < 2 * n && i / 2 < n
  {}

  lemma {:induction false} BitsLength(i: nat, n: nat)
    ensures |Bits(i, n)| == n
  {
    if n != 0 { BitsLength(i / 2, n - 1); }
  }

  /** The entry one iteration of the path loop picks is the path's next. */
  lemma {:induction false} PathPick(e: Env, t: Table, index: nat, i: nat)
    requires index < Pow2(e.depth) && i < e.depth
    ensures Sibling(Ancestor(index, i)) < |Level(e, t, i)|
    ensures Level(e, t, i)[Sibling(Ancestor(index, i))] == Siblings(e, t, index)[i]
  {
    PathAt(e, t, 0, index, e.depth, i);
    AncestorBound(index, i, e.depth);
    SiblingInRange(Ancestor(index, i), Pow2(e.depth - i - 1));
    LevelEntry(e, t, i, Sibling(Ancestor(index, i)));
  }

  lemma {:induction false} TakeNext(s: seq<int>, i: nat, x: int)
    requires i < |s| && s[i] == x
    ensures s[..i] + [x] == s[..i + 1]
  {}

  class Tree {
    var leaves: Table

    constructor ()
      ensures leaves == map[]
    {
      leaves := map[];
    }

    /** `clone_tree`: an independent copy. */
    constructor Clone(t: Table)
      ensures leaves == t
    {
      leaves := t;
    }

    method Level0(e: Env) returns (level: seq<int>)
      ensures level == Level(e, leaves, 0)
    {
      ghost var all := Level(e, leaves, 0);
      level := [];
      for i := 0 to Pow2(e.depth)
        invariant level == all[..i]
      {
        level := level + [TableLeaf(e, leaves, i)];
      }
    }

    /** Level by level, in chunks of two, down to one node. */
    method ComputeRoot(e: Env) returns (root: int)
      ensures root == Root(e, leaves)
    {
      var level := Level0(e);
      ghost var l := 0;
      while |level| > 1
        invariant l <= e.depth && level == Level(e, leaves, l)
        decreases |level|
      {
        assert l < e.depth;
        HalveLevel(e, leaves, l);
        level := Halve(e, level);
        l := l + 1;
      }
      assert l == e.depth;
      root := level[0];
    }

    /** Siblings bottom-up and index bits, LSB first. */
    method ComputePath(e: Env, index: nat) returns (siblings: seq<int>, bits: seq<int>)
      requires index < Pow2(e.depth)
      ensures siblings == Siblings(e, leaves, index)
      ensures bits == Bits(index, e.depth)
    {
      siblings, bits := [], [];
      var level := Level0(e);
      var idx: nat := index;
      ghost var t, path, le := leaves, Siblings(e, leaves, index), Bits(index, e.depth);
      BitsLength(index, e.depth);
      for i := 0 to e.depth
        invariant level == Level(e, t, i)
        invariant idx == Ancestor(index, i)
        invariant siblings == path[..i] && bits == le[..i]
      {
        HalveLevel(e, t, i);
        PathPick(e, t, index, i);
        BitsAt(index, e.depth, i);
        AncestorStep(index, i);
        var xor := Sibling(idx);  // idx ^ 1
        TakeNext(path, i, level[xor]);
        TakeNext(le, i, idx % 2);
        bits := bits + [idx % 2];
        siblings := siblings + [level[xor]];
        level := Halve(e, level);
        idx := idx / 2;
      }
    }

    method Set(e: Env, index: nat, a: Account)
      requires index < Pow2(e.depth)
      modifies this
      ensures leaves == old(leaves)[index := a]
    {
      leaves := leaves[index := a];
    }
  }

  /** merkle.ts `computeRoot`: throws on a bad length or index, then shifts the
      index right once per level. */
  method WalletComputeRoot(e: Env, leaf: int, index: int, siblings: seq<int>) returns (r: Option<int>)
    ensures r == if |siblings| == e.depth && 0 <= index < Pow2(e.depth) then Some(Fold(e, leaf, index, siblings))
            else None
  {
    if |siblings| != e.depth { return None; }
    if index < 0 || index >= Pow2(e.depth) { return None; }
    var cur := leaf;
    ghost var rest: nat := index;
    for i := 0 to e.depth
      invariant rest == index / Pow2(i)
      invariant Fold(e, cur, rest, siblings[i..]) == Fold(e, leaf, index, siblings)
    {
      var bit := (index / Pow2(i)) % 2;
      cur := if bit == 0 then e.hash([cur, siblings[i]]) else e.hash([siblings[i], cur]);
      ShiftOnce(index, i);
      rest := rest / 2;
      assert siblings[i..][1..] == siblings[i + 1..];
    }
    assert siblings[e.depth..] == [];
    return Some(cur);
  }

  lemma {:induction false} ShiftOnce(x: nat, i: nat)
    ensures x / Pow2(i + 1) == (x / Pow2(i)) / 2
  {
    var p := Pow2(i);
    var q, r := x / p, x % p;
    assert x == (q / 2) * (2 * p) + ((q % 2) * p + r) by {
      assert q == 2 * (q / 2) + q % 2;
      assert q * p == (2 * (q / 2)) * p + (q % 2) * p;
      assert (2 * (q / 2)) * p == (q / 2) * (2 * p);
    }
    assert 0 <= (q % 2) * p + r < 2 * p;
    DivUnique(x, 2 * p, q / 2, (q % 2) * p + r);
  }

  lemma {:induction false} DivUnique(x: nat, d: nat, q: nat, r: nat)
    requires d > 0 && x == q * d + r && r < d
    ensures x / d == q
  {
    var q1, r1 := x / d, x % d;
    assert (q1 - q) * d == r - r1;
    MultipleBound(q1 - q, d);
  }

  /** merkle.ts `verifyPath` accepts a table's own leaf along its own path, and
      under an unbroken hash nothing else: the wallet's check decides membership. */
  lemma {:induction false} WalletCheckDecides(e: Env, K: set<seq<int>>, t: Table, index: nat, leaf: int,
                                              siblings: seq<int>)
    requires |siblings| == e.depth && index < Pow2(e.depth)
    requires CheckQueries(e, t, index, leaf, siblings) <= K && !Breaks(e, K)
    ensures Fold(e, leaf, index, siblings) == Root(e, t)
       <==> leaf == TableLeaf(e, t, index) && siblings == Siblings(e, t, index)
  {
    PathToRoot(e, t, index);
    if Fold(e, leaf, index, siblings) == Root(e, t) {
      RootBinds(e, K, t, index, leaf, siblings);
    }
  }
}
