/** Eviction seen by one sender: which builds spare all of its rows, whatever happens
    to the rows of others. */
module Senders {
  import opened Field
  import opened Hashing
  import opened Merkle
  import opened Ledger
  import opened Circuit
  import opened Trees
  import opened Builder
  import opened Completeness
  import opened Contract
  import opened Database
  import opened Eviction
  import opened Lifecycle
  import opened Safety
  import opened Admission

  /** No row of this sender among these. */
  predicate Spared(cs: seq<Candidate>, pk: int) {
    forall k :: 0 <= k < |cs| ==> cs[k].tx.fromPkX != pk
  }

  predicate ReachableFor(t: Table, ds: seq<DepositRequest>, cs: seq<Candidate>, pk: int) {
    forall k :: 0 <= k < |cs| && cs[k].tx.fromPkX == pk ==> Reaches(t, ds, cs[k].tx)
  }

  predicate DeliverableFor(t1: Table, cs: seq<Candidate>, pk: int) {
    forall k :: 0 <= k < |cs| && cs[k].tx.fromPkX == pk ==> Deliverable(t1, cs[k].tx)
  }

  // ---------- one account through the pass ----------

  /** Where slot i and the known keys stand after the first k candidates. */
  ghost predicate SlotAt(e: Env, t: Table, t1: Table, u: Table, cs: seq<Candidate>, k: nat, i: nat)
    requires k <= |cs| && i in t
  {
    && WellFormed(e, u) && TrackSlot(t, u, Txs(cs[..k]), i)
    && (forall pk :: Holds(u, pk) <==> Holds(t1, pk))
  }

  lemma {:induction false} SlotTracks(e: Env, t: Table, u: Table, done: seq<StoredTx>, tx: StoredTx, i: nat)
    requires e.order > 0 && WellFormed(e, u) && i in t && TrackSlot(t, u, done, i)
    requires TxStep(e, u, 0, RowToSigned(e, tx)).outcome.Built?
    ensures TrackSlot(t, TxStep(e, u, 0, RowToSigned(e, tx)).table, done + [tx], i)
  {
    TxMoves(e, u, 0, RowToSigned(e, tx));
    OfSnoc(done, tx, t[i].pk);
    TotalAppend(Of(done, t[i].pk), [tx]);
    assert Total([tx]) == tx.amount by { assert [tx][1..] == []; }
  }

  lemma {:induction false} SkipTracks(t: Table, u: Table, done: seq<StoredTx>, tx: StoredTx, i: nat)
    requires i in t && TrackSlot(t, u, done, i) && tx.fromPkX != t[i].pk
    ensures TrackSlot(t, u, done + [tx], i)
  {
    OfSnoc(done, tx, t[i].pk);
  }

  /** The sender's next selected row can be paid. */
  lemma {:induction false} SenderPays(e: Env, t: Table, t1: Table, u: Table, rows: seq<MempoolRow>, cs: seq<Candidate>,
                                      k: nat, i: nat)
    requires WellFormed(e, t) && k < |cs| && i in t && Find(e, t, cs[k].tx.fromPkX) == Some(i)
    requires SlotAt(e, t, t1, u, cs, k, i)
    requires Orderly(e, t, cs[k].tx.fromPkX, LiveTxs(rows, cs[k].tx.fromPkX, 0)) && FairFor(rows, cs, cs[k].tx.fromPkX)
    requires Deliverable(t1, cs[k].tx)
    ensures Payable(e, u, cs[k].tx)
  {
    NextWaiting(rows, cs, k, LiveTxs(rows, cs[k].tx.fromPkX, 0));
    assert u[i].pk == cs[k].tx.fromPkX;
  }

  /** The pass drops none of the sender's rows. */
  lemma {:induction false} PassSpares(e: Env, t: Table, t1: Table, u: Table, rows: seq<MempoolRow>, cs: seq<Candidate>,
                                      k: nat, pk: int, i: nat)
    requires ValidEnv(e) && WellFormed(e, t) && k <= |cs| && i in t && Find(e, t, pk) == Some(i)
    requires SlotAt(e, t, t1, u, cs, k, i) && TotalBalance(e, u) < U64 && AllTypedTxs(e, cs)
    requires Orderly(e, t, pk, LiveTxs(rows, pk, 0)) && FairFor(rows, cs, pk) && DeliverableFor(t1, cs, pk)
    ensures Spared(OnePass(e, u, cs[k..]).dropped, pk)
    decreases |cs| - k
  {
    if k < |cs| {
      var tx := cs[k].tx;
      var s := TxStep(e, u, 0, RowToSigned(e, tx));
      assert cs[k..][0] == cs[k] && cs[k..][1..] == cs[k + 1..];
      TxsTake(cs, k);
      if tx.fromPkX == pk {
        SenderPays(e, t, t1, u, rows, cs, k, i);
        PayableBuilds(e, u, 0, tx);
      }
      if s.outcome.Built? {
        StepKeeps(e, u, 0, tx);
        SlotTracks(e, t, u, Txs(cs[..k]), tx, i);
        PassSpares(e, t, t1, s.table, rows, cs, k + 1, pk, i);
      } else if s.outcome.Failed? && BadTx(s.outcome.error).Some? {
        SkipTracks(t, u, Txs(cs[..k]), tx, i);
        PassSpares(e, t, t1, u, rows, cs, k + 1, pk, i);
      }
    }
  }

  // ---------- what the pass keeps ----------

  lemma {:induction false} SenderHas(cs: seq<Candidate>, k: nat, pk: int)
    requires k < |cs| && cs[k].tx.fromPkX == pk
    ensures Of(Txs(cs), pk) != []
    decreases |cs|
  {
    if k > 0 { SenderHas(cs[1..], k - 1, pk); }
  }

  /** The kept rows build on their own. */
  lemma {:induction false} KeptKeepsAll(e: Env, u: Table, cs: seq<Candidate>)
    requires e.order > 0 && OnePass(e, u, cs).halt.None?
    ensures KeepsAll(e, u, OnePass(e, u, cs).kept)
    decreases |cs|
  {
    if cs != [] {
      var s := TxStep(e, u, 0, RowToSigned(e, cs[0].tx));
      if s.outcome.Built? {
        var kept := OnePass(e, s.table, cs[1..]).kept;
        KeptKeepsAll(e, s.table, cs[1..]);
        assert ([cs[0]] + kept)[0] == cs[0] && ([cs[0]] + kept)[1..] == kept;
      } else {
        KeptKeepsAll(e, u, cs[1..]);
      }
    }
  }

  /** A sender none of whose rows is dropped has all of them kept. */
  lemma {:induction false} SparedIsKept(e: Env, u: Table, cs: seq<Candidate>, pk: int)
    requires e.order > 0 && OnePass(e, u, cs).halt.None? && Spared(OnePass(e, u, cs).dropped, pk)
    ensures Of(Txs(OnePass(e, u, cs).kept), pk) == Of(Txs(cs), pk)
    ensures forall k :: 0 <= k < |cs| && cs[k].tx.fromPkX == pk ==> cs[k] in OnePass(e, u, cs).kept
    decreases |cs|
  {
    if cs != [] {
      var s := TxStep(e, u, 0, RowToSigned(e, cs[0].tx));
      if s.outcome.Built? {
        SparedIsKept(e, s.table, cs[1..], pk);
        KeptFirst(cs, OnePass(e, s.table, cs[1..]).kept, pk);
      } else {
        DroppedFirst(cs, OnePass(e, u, cs[1..]).dropped, pk);
        SparedIsKept(e, u, cs[1..], pk);
      }
    }
  }

  lemma {:induction false} KeptFirst(cs: seq<Candidate>, kept: seq<Candidate>, pk: int)
    requires cs != [] && Of(Txs(kept), pk) == Of(Txs(cs[1..]), pk)
    requires forall k :: 0 <= k < |cs[1..]| && cs[1..][k].tx.fromPkX == pk ==> cs[1..][k] in kept
    ensures Of(Txs([cs[0]] + kept), pk) == Of(Txs(cs), pk)
    ensures forall k :: 0 <= k < |cs| && cs[k].tx.fromPkX == pk ==> cs[k] in [cs[0]] + kept
  {
    assert ([cs[0]] + kept)[1..] == kept;
    forall k | 0 <= k < |cs| && cs[k].tx.fromPkX == pk ensures cs[k] in [cs[0]] + kept {
      if k > 0 { assert cs[k] == cs[1..][k - 1]; }
    }
  }

  lemma {:induction false} DroppedFirst(cs: seq<Candidate>, dropped: seq<Candidate>, pk: int)
    requires cs != [] && Spared([cs[0]] + dropped, pk)
    ensures cs[0].tx.fromPkX != pk && Spared(dropped, pk)
    ensures Of(Txs(cs), pk) == Of(Txs(cs[1..]), pk)
  {
    var all := [cs[0]] + dropped;
    assert all[0] == cs[0] && all[1..] == dropped;
    forall k | 0 <= k < |dropped| ensures dropped[k].tx.fromPkX != pk { assert dropped[k] == all[k + 1]; }
  }

  // ---------- the loop ----------

  /** A loop that ends with a batch, as a pass over the credited table. */
  lemma {:induction false} LoopIsPass(c: Config, t: Table, ds: seq<DepositRequest>, cs: seq<Candidate>)
    requires c.e.order > 0 && |ds| <= c.dSlots && |cs| <= c.nSlots && Restart(c, t, ds, cs).attempt.Ready?
    ensures var d, r := BuildDeposits(c.e, t, 0, ds), Restart(c, t, ds, cs);
            && d.outcome.Built?
            && var p := OnePass(c.e, d.table, cs);
            p.halt.None? && r.attempt.rows == p.kept && r.dropped == p.dropped && KeepsAll(c.e, d.table, p.kept)
  {
    RestartIsOnePass(c, t, ds, cs);
    var d := BuildDeposits(c.e, t, 0, ds);
    PassSplits(c.e, d.table, cs);
    assert [] + OnePass(c.e, d.table, cs).kept == OnePass(c.e, d.table, cs).kept;
    if OnePass(c.e, d.table, cs).halt.None? { KeptKeepsAll(c.e, d.table, cs); }
  }

  /** Whatever a loop kept of an orderly sender are its first waiting rows, and can be
      delivered. */
  lemma {:induction false} KeptIsFirst(c: Config, t: Table, ds: seq<DepositRequest>, rows: seq<MempoolRow>,
                                       kept: seq<Candidate>, pk: int)
    requires ValidEnv(c.e) && WellFormed(c.e, t) && Orderly(c.e, t, pk, LiveTxs(rows, pk, 0))
    requires AllPending(rows, kept) && AllTypedTxs(c.e, kept)
    requires (forall j :: 0 <= j < |ds| ==> RequestTyped(c.e, ds[j])) && BuildDeposits(c.e, t, 0, ds).outcome.Built?
    requires KeepsAll(c.e, BuildDeposits(c.e, t, 0, ds).table, kept)
    ensures FairFor(rows, kept, pk) && Reachable(t, ds, kept)
  {
    var t1 := BuildDeposits(c.e, t, 0, ds).table;
    CreditedTable(c.e, t, ds, kept);
    assert kept[0..] == kept && Txs(kept[..0]) == [];
    BuildsCount(c.e, t, t1, t1, kept, 0);
    CountsAreFair(c.e, t, rows, kept, pk);
  }

  /** A fair and deliverable sender is spared, however its neighbours fare. */
  lemma {:induction false} FairIsSpared(c: Config, t: Table, ds: seq<DepositRequest>, rows: seq<MempoolRow>,
                                        cs: seq<Candidate>, pk: int)
    requires ValidEnv(c.e) && WellFormed(c.e, t) && Orderly(c.e, t, pk, LiveTxs(rows, pk, 0))
    requires AllTypedTxs(c.e, cs) && |cs| <= c.nSlots && FairFor(rows, cs, pk) && ReachableFor(t, ds, cs, pk)
    requires |ds| <= c.dSlots && (forall j :: 0 <= j < |ds| ==> RequestTyped(c.e, ds[j]))
    requires TotalBalance(c.e, t) + Amounts(DepositPairs(ds)) < U64
    ensures Spared(Restart(c, t, ds, cs).dropped, pk)
  {
    RestartIsOnePass(c, t, ds, cs);
    var d := BuildDeposits(c.e, t, 0, ds);
    if d.outcome.Built? { FairPass(c, t, ds, d.table, rows, cs, pk); }
  }

  lemma {:induction false} FairPass(c: Config, t: Table, ds: seq<DepositRequest>, t1: Table, rows: seq<MempoolRow>,
                                    cs: seq<Candidate>, pk: int)
    requires ValidEnv(c.e) && WellFormed(c.e, t) && Orderly(c.e, t, pk, LiveTxs(rows, pk, 0))
    requires AllTypedTxs(c.e, cs) && FairFor(rows, cs, pk) && ReachableFor(t, ds, cs, pk)
    requires (forall j :: 0 <= j < |ds| ==> RequestTyped(c.e, ds[j])) && BuildDeposits(c.e, t, 0, ds).outcome.Built?
    requires t1 == BuildDeposits(c.e, t, 0, ds).table && TotalBalance(c.e, t) + Amounts(DepositPairs(ds)) < U64
    ensures Spared(OnePass(c.e, t1, cs).dropped, pk)
  {
    CreditedTable(c.e, t, ds, cs);
    var found := Find(c.e, t, pk);
    if found.Some? {
      forall k | 0 <= k < |cs| && cs[k].tx.fromPkX == pk ensures Deliverable(t1, cs[k].tx) {
        ReachesIs(t, t1, ds, cs[k].tx);
      }
      assert TrackSlot(t, t1, [], found.value);
      assert cs[0..] == cs && Txs(cs[..0]) == [];
      PassSpares(c.e, t, t1, t1, rows, cs, 0, pk, found.value);
    } else {
      NoneSelected(cs, pk);
      PassSplits(c.e, t1, cs);
      SparedSubSeq(OnePass(c.e, t1, cs).dropped, cs, pk);
    }
  }

  lemma {:induction false} NoneSelected(cs: seq<Candidate>, pk: int)
    requires Of(Txs(cs), pk) == []
    ensures Spared(cs, pk)
  {
    forall k | 0 <= k < |cs| ensures cs[k].tx.fromPkX != pk {
      if cs[k].tx.fromPkX == pk { SenderHas(cs, k, pk); }
    }
  }

  lemma {:induction false} SparedSubSeq(xs: seq<Candidate>, ys: seq<Candidate>, pk: int)
    requires SubSeq(xs, ys) && Spared(ys, pk)
    ensures Spared(xs, pk)
  {
    forall k | 0 <= k < |xs| ensures xs[k].tx.fromPkX != pk { var j := SubSeqAt(xs, ys, k); }
  }

  lemma {:induction false} SubSeqAt(xs: seq<Candidate>, ys: seq<Candidate>, k: nat) returns (j: nat)
    requires SubSeq(xs, ys) && k < |xs|
    ensures j < |ys| && ys[j] == xs[k]
  {
    SubSeqWithin(xs, ys);
    assert xs[k] in ys;
    j :| j < |ys| && ys[j] == xs[k];
  }

  /** When a loop ends with a batch it has spared an orderly sender if and only if no
      waiting row of that sender was skipped before a selected one and its selected
      rows can be delivered. */
  lemma {:induction false} SparedIff(c: Config, t: Table, ds: seq<DepositRequest>, rows: seq<MempoolRow>,
                                     cs: seq<Candidate>, pk: int)
    requires ValidEnv(c.e) && WellFormed(c.e, t) && Orderly(c.e, t, pk, LiveTxs(rows, pk, 0))
    requires AllPending(rows, cs) && AllTypedTxs(c.e, cs) && |cs| <= c.nSlots
    requires |ds| <= c.dSlots && (forall j :: 0 <= j < |ds| ==> RequestTyped(c.e, ds[j]))
    requires TotalBalance(c.e, t) + Amounts(DepositPairs(ds)) < U64 && Restart(c, t, ds, cs).attempt.Ready?
    ensures Spared(Restart(c, t, ds, cs).dropped, pk) <==> FairFor(rows, cs, pk) && ReachableFor(t, ds, cs, pk)
  {
    if FairFor(rows, cs, pk) && ReachableFor(t, ds, cs, pk) { FairIsSpared(c, t, ds, rows, cs, pk); }
    if Spared(Restart(c, t, ds, cs).dropped, pk) { SparedIsFair(c, t, ds, rows, cs, pk); }
  }

  lemma {:induction false} SparedIsFair(c: Config, t: Table, ds: seq<DepositRequest>, rows: seq<MempoolRow>,
                                        cs: seq<Candidate>, pk: int)
    requires ValidEnv(c.e) && WellFormed(c.e, t) && Orderly(c.e, t, pk, LiveTxs(rows, pk, 0))
    requires AllPending(rows, cs) && AllTypedTxs(c.e, cs) && |cs| <= c.nSlots
    requires |ds| <= c.dSlots && (forall j :: 0 <= j < |ds| ==> RequestTyped(c.e, ds[j]))
    requires Restart(c, t, ds, cs).attempt.Ready? && Spared(Restart(c, t, ds, cs).dropped, pk)
    ensures FairFor(rows, cs, pk) && ReachableFor(t, ds, cs, pk)
  {
    LoopIsPass(c, t, ds, cs);
    var t1 := BuildDeposits(c.e, t, 0, ds).table;
    KeptAll(c, t1, rows, cs, OnePass(c.e, t1, cs).kept, pk);
    KeptIsFirst(c, t, ds, rows, OnePass(c.e, t1, cs).kept, pk);
    AllReach(t, ds, cs, OnePass(c.e, t1, cs).kept, pk);
  }

  lemma {:induction false} KeptAll(c: Config, t1: Table, rows: seq<MempoolRow>, cs: seq<Candidate>,
                                   kept: seq<Candidate>,
                                   pk: int)
    requires c.e.order > 0 && AllPending(rows, cs) && AllTypedTxs(c.e, cs)
    requires OnePass(c.e, t1, cs).halt.None? && kept == OnePass(c.e, t1, cs).kept
    requires Spared(OnePass(c.e, t1, cs).dropped, pk)
    ensures AllPending(rows, kept) && AllTypedTxs(c.e, kept) && Of(Txs(kept), pk) == Of(Txs(cs), pk)
    ensures forall k :: 0 <= k < |cs| && cs[k].tx.fromPkX == pk ==> cs[k] in kept
  {
    PassSplits(c.e, t1, cs);
    KeptTyped(c.e, rows, kept, cs);
    SparedIsKept(c.e, t1, cs, pk);
  }

  lemma {:induction false} AllReach(t: Table, ds: seq<DepositRequest>, cs: seq<Candidate>, kept: seq<Candidate>,
                                    pk: int)
    requires Reachable(t, ds, kept)
    requires forall k :: 0 <= k < |cs| && cs[k].tx.fromPkX == pk ==> cs[k] in kept
    ensures ReachableFor(t, ds, cs, pk)
  {
    forall k | 0 <= k < |cs| && cs[k].tx.fromPkX == pk ensures Reaches(t, ds, cs[k].tx) {
      var j :| 0 <= j < |kept| && kept[j] == cs[k];
    }
  }

  lemma {:induction false} KeptTyped(e: Env, rows: seq<MempoolRow>, kept: seq<Candidate>, cs: seq<Candidate>)
    requires e.order > 0 && SubSeq(kept, cs) && AllPending(rows, cs) && AllTypedTxs(e, cs)
    ensures AllPending(rows, kept) && AllTypedTxs(e, kept)
  {
    forall k | 0 <= k < |kept|
      ensures RowPending(rows, kept[k].id) && rows[kept[k].id].tx == kept[k].tx && Typed(e, kept[k].tx)
    {
      var j := SubSeqAt(kept, cs, k);
    }
  }
}
