/** The account tree: harness tree.rs, circuit merkle.nr and account.nr, wallet
    merkle.ts, for every depth. */
module Merkle {
  import opened Field
  import opened Hashing

  datatype Account = Account(pk: int, balance: int, nonce: int)

  /** Occupied slots only; an absent slot is the zero leaf. */
  type Table = map<nat, Account>

  function LeafInput(a: Account): seq<int> {
    [DOMAIN_LEAF, a.pk, a.balance, a.nonce]
  }

  /** tree.rs `leaf_value`. */
  function TableLeaf(e: Env, t: Table, i: nat): int {
    if i in t then e.hash(LeafInput(t[i])) else 0
  }

  /** account.nr `leaf_value`: pk_x == 0 stands for the empty slot. */
  function LeafValue(e: Env, a: Account): int {
    if a.pk == 0 then 0 else e.hash(LeafInput(a))
  }

  /** The reference tree: node i of level l, level 0 being the leaves. */
  function Node(e: Env, t: Table, l: nat, i: nat): int
    decreases l, 0
  {
    if l == 0 then TableLeaf(e, t, i) else e.hash(Children(e, t, l - 1, i))
  }

  /** The hash input of node i of level l + 1. */
  function Children(e: Env, t: Table, l: nat, i: nat): seq<int>
    decreases l, 1
  {
    [Node(e, t, l, 2 * i), Node(e, t, l, 2 * i + 1)]
  }

  function Root(e: Env, t: Table): int {
    Node(e, t, e.depth, 0)
  }

  function Sibling(i: nat): nat {
    if i % 2 == 0 then i + 1 else i - 1
  }

  /** Ancestor of slot i, n levels up. */
  function Ancestor(i: nat, n: nat): nat
    decreases n
  {
    if n == 0 then i else Ancestor(i / 2, n - 1)
  }

  /** Reference siblings: n of them, from node i of level l upwards. */
  function Path(e: Env, t: Table, l: nat, i: nat, n: nat): (s: seq<int>)
    ensures |s| == n
    decreases n
  {
    if n == 0 then [] else [Node(e, t, l, Sibling(i))] + Path(e, t, l + 1, i / 2, n - 1)
  }

  function Siblings(e: Env, t: Table, slot: nat): seq<int> {
    Path(e, t, 0, slot, e.depth)
  }

  /** Hash input of one folding step: an even index is the left child. */
  function Pair(cur: int, i: nat, sibling: int): seq<int> {
    if i % 2 == 0 then [cur, sibling] else [sibling, cur]
  }

  /** A leaf folded with a list of siblings. */
  function Fold(e: Env, cur: int, i: nat, siblings: seq<int>): int
    decreases |siblings|
  {
    if siblings == [] then cur
    else Fold(e, e.hash(Pair(cur, i, siblings[0])), i / 2, siblings[1..])
  }

  // ---------- slots and ancestors ----------

  lemma {:induction false} AncestorTop(i: nat, n: nat)
    requires i < Pow2(n)
    ensures Ancestor(i, n) == 0
    decreases n
  {
    if n != 0 { AncestorTop(i / 2, n - 1); }
  }

  lemma {:induction false} AncestorStep(i: nat, n: nat)
    ensures Ancestor(i, n + 1) == Ancestor(i, n) / 2
    decreases n
  {
    if n != 0 { AncestorStep(i / 2, n - 1); }
  }

  // ---------- a path leads to the root ----------

  lemma {:induction false} PathFolds(e: Env, t: Table, l: nat, i: nat, n: nat)
    ensures Fold(e, Node(e, t, l, i), i, Path(e, t, l, i, n)) == Node(e, t, l + n, Ancestor(i, n))
    decreases n
  {
    if n != 0 {
      assert Pair(Node(e, t, l, i), i, Node(e, t, l, Sibling(i))) == Children(e, t, l, i / 2);
      PathFolds(e, t, l + 1, i / 2, n - 1);
    }
  }

  /** Folding a slot's own leaf along its path gives the root. */
  lemma {:induction false} PathToRoot(e: Env, t: Table, slot: nat)
    requires slot < Pow2(e.depth)
    ensures Fold(e, TableLeaf(e, t, slot), slot, Siblings(e, t, slot)) == Root(e, t)
  {
    PathFolds(e, t, 0, slot, e.depth);
    AncestorTop(slot, e.depth);
    assert Node(e, t, 0, slot) == TableLeaf(e, t, slot);
  }

  // ---------- one slot changes ----------

  lemma {:induction false} NodeElsewhere(e: Env, t: Table, slot: nat, a: Account, l: nat, i: nat)
    requires Ancestor(slot, l) != i
    ensures Node(e, t[slot := a], l, i) == Node(e, t, l, i)
    decreases l
  {
    if l != 0 {
      AncestorStep(slot, l - 1);
      NodeElsewhere(e, t, slot, a, l - 1, 2 * i);
      NodeElsewhere(e, t, slot, a, l - 1, 2 * i + 1);
    }
  }

  lemma {:induction false} PathKept(e: Env, t: Table, slot: nat, a: Account, l: nat, n: nat)
    ensures Path(e, t[slot := a], l, Ancestor(slot, l), n) == Path(e, t, l, Ancestor(slot, l), n)
    decreases n
  {
    if n != 0 {
      var i := Ancestor(slot, l);
      NodeElsewhere(e, t, slot, a, l, Sibling(i));
      AncestorStep(slot, l);
      PathKept(e, t, slot, a, l + 1, n - 1);
    }
  }

  /** `update_root` against the old siblings is the root after `set`. */
  lemma {:induction false} UpdateRoot(e: Env, t: Table, slot: nat, a: Account)
    requires slot < Pow2(e.depth)
    ensures Fold(e, e.hash(LeafInput(a)), slot, Siblings(e, t, slot)) == Root(e, t[slot := a])
    ensures Siblings(e, t[slot := a], slot) == Siblings(e, t, slot)
  {
    PathKept(e, t, slot, a, 0, e.depth);
    PathToRoot(e, t[slot := a], slot);
  }

  // ---------- a root binds the slot ----------

  /** Every hash query made while folding. */
  function FoldQueries(e: Env, cur: int, i: nat, siblings: seq<int>): set<seq<int>>
    decreases |siblings|
  {
    if siblings == [] then {}
    else {Pair(cur, i, siblings[0])}
         + FoldQueries(e, e.hash(Pair(cur, i, siblings[0])), i / 2, siblings[1..])
  }

  /** The honest node queries on the way up from node i of level l. */
  function PathQueries(e: Env, t: Table, l: nat, i: nat, n: nat): set<seq<int>>
    decreases n
  {
    if n == 0 then {} else {Children(e, t, l, i / 2)} + PathQueries(e, t, l + 1, i / 2, n - 1)
  }

  lemma {:induction false} FoldBinds(e: Env, K: set<seq<int>>, t: Table, l: nat, i: nat, cur: int, siblings: seq<int>)
    requires Fold(e, cur, i, siblings) == Node(e, t, l + |siblings|, Ancestor(i, |siblings|))
    requires FoldQueries(e, cur, i, siblings) + PathQueries(e, t, l, i, |siblings|) <= K
    requires !Breaks(e, K)
    ensures cur == Node(e, t, l, i)
    ensures siblings == Path(e, t, l, i, |siblings|)
    decreases |siblings|
  {
    if siblings != [] {
      var mine, honest := Pair(cur, i, siblings[0]), Children(e, t, l, i / 2);
      FoldBinds(e, K, t, l + 1, i / 2, e.hash(mine), siblings[1..]);
      NoBreak(e, K, mine, honest);
      assert mine[0] == honest[0] && mine[1] == honest[1];
    }
  }

  /** The table's own leaf query at a slot. */
  function SlotQueries(t: Table, slot: nat): set<seq<int>> {
    if slot in t then {LeafInput(t[slot])} else {}
  }

  /** All queries of one membership check of account a at a slot: the checker's
      fold and leaf, and the honest tree's. */
  function CheckQueries(e: Env, t: Table, slot: nat, leaf: int, siblings: seq<int>): set<seq<int>> {
    FoldQueries(e, leaf, slot, siblings) + PathQueries(e, t, 0, slot, e.depth) + SlotQueries(t, slot)
  }

  /** A root opened at a slot shows that slot's leaf, along the true path. */
  lemma {:induction false} RootBinds(e: Env, K: set<seq<int>>, t: Table, slot: nat, leaf: int, siblings: seq<int>)
    requires slot < Pow2(e.depth) && |siblings| == e.depth
    requires Fold(e, leaf, slot, siblings) == Root(e, t)
    requires CheckQueries(e, t, slot, leaf, siblings) <= K && !Breaks(e, K)
    ensures leaf == TableLeaf(e, t, slot)
    ensures siblings == Siblings(e, t, slot)
  {
    AncestorTop(slot, e.depth);
    FoldBinds(e, K, t, 0, slot, leaf, siblings);
  }

  /** A root opened with an account of nonzero key: the slot holds exactly it. */
  lemma {:induction false} RootBindsAccount(e: Env, K: set<seq<int>>, t: Table, slot: nat, a: Account,
                                            siblings: seq<int>)
    requires slot < Pow2(e.depth) && |siblings| == e.depth && a.pk != 0
    requires Fold(e, LeafValue(e, a), slot, siblings) == Root(e, t)
    requires CheckQueries(e, t, slot, LeafValue(e, a), siblings) + {LeafInput(a)} <= K && !Breaks(e, K)
    ensures slot in t && t[slot] == a
    ensures siblings == Siblings(e, t, slot)
  {
    RootBinds(e, K, t, slot, LeafValue(e, a), siblings);
    NoZero(e, K, LeafInput(a));
    NoBreak(e, K, LeafInput(a), LeafInput(t[slot]));
    assert LeafInput(a)[1] == LeafInput(t[slot])[1] && LeafInput(a)[2] == LeafInput(t[slot])[2]
           && LeafInput(a)[3] == LeafInput(t[slot])[3];
  }

  /** A root opened with the empty leaf: the slot is empty. */
  lemma {:induction false} RootBindsEmpty(e: Env, K: set<seq<int>>, t: Table, slot: nat, siblings: seq<int>)
    requires slot < Pow2(e.depth) && |siblings| == e.depth
    requires Fold(e, 0, slot, siblings) == Root(e, t)
    requires CheckQueries(e, t, slot, 0, siblings) <= K && !Breaks(e, K)
    ensures slot !in t
    ensures siblings == Siblings(e, t, slot)
  {
    RootBinds(e, K, t, slot, 0, siblings);
    if slot in t { NoZero(e, K, LeafInput(t[slot])); }
  }

  // ---------- a root binds the whole table ----------

  function TreeQueries(e: Env, t: Table, l: nat, i: nat): set<seq<int>>
    decreases l
  {
    if l == 0 then SlotQueries(t, i)
    else {Children(e, t, l - 1, i)} + TreeQueries(e, t, l - 1, 2 * i) + TreeQueries(e, t, l - 1, 2 * i + 1)
  }

  predicate SlotsInRange(e: Env, t: Table) {
    forall i :: i in t ==> i < Pow2(e.depth)
  }

  lemma {:induction false} NodeBindsSlots(e: Env, K: set<seq<int>>, t: Table, u: Table, l: nat, i: nat, slot: nat)
    requires Node(e, t, l, i) == Node(e, u, l, i) && Ancestor(slot, l) == i
    requires TreeQueries(e, t, l, i) + TreeQueries(e, u, l, i) <= K && !Breaks(e, K)
    ensures slot in t <==> slot in u
    ensures slot in t ==> t[slot] == u[slot]
    decreases l
  {
    if l == 0 {
      if slot in t { NoZero(e, K, LeafInput(t[slot])); }
      if slot in u { NoZero(e, K, LeafInput(u[slot])); }
      if slot in t && slot in u {
        var x, y := LeafInput(t[slot]), LeafInput(u[slot]);
        NoBreak(e, K, x, y);
        assert x[1] == y[1] && x[2] == y[2] && x[3] == y[3];
      }
    } else {
      var x, y := Children(e, t, l - 1, i), Children(e, u, l - 1, i);
      NoBreak(e, K, x, y);
      assert x[0] == y[0] && x[1] == y[1];
      AncestorStep(slot, l - 1);
      NodeBindsSlots(e, K, t, u, l - 1, Ancestor(slot, l - 1), slot);
    }
  }

  /** Different tables have different roots, or their own queries break the hash. */
  lemma {:induction false} RootInjective(e: Env, t: Table, u: Table)
    requires SlotsInRange(e, t) && SlotsInRange(e, u) && Root(e, t) == Root(e, u)
    ensures t == u || Breaks(e, TreeQueries(e, t, e.depth, 0) + TreeQueries(e, u, e.depth, 0))
  {
    var K := TreeQueries(e, t, e.depth, 0) + TreeQueries(e, u, e.depth, 0);
    if !Breaks(e, K) {
      forall slot: nat | slot < Pow2(e.depth)
        ensures (slot in t <==> slot in u) && (slot in t ==> t[slot] == u[slot])
      {
        AncestorTop(slot, e.depth);
        NodeBindsSlots(e, K, t, u, e.depth, 0, slot);
      }
      assert t.Keys == u.Keys;
    }
  }
}
