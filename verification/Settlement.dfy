/** What a confirmed batch leaves for good: every epoch moves each account by
    exactly its own transactions, so a batch never applies twice. */
module Settlement {
  import opened Hashing
  import opened Merkle
  import opened Circuit
  import opened Trees
  import opened Builder
  import opened Completeness
  import opened Contract
  import opened Database
  import opened Eviction
  import opened Commands
  import opened Lifecycle
  import opened Pipeline
  import opened Admission

  // ---------- each epoch ----------

  lemma {:induction false} TakeNext(txs: seq<StoredTx>, i: nat)
    requires i < |txs|
    ensures txs[..i] + [txs[i]] == txs[..i + 1]
  {}

  lemma {:induction false} BuildsNext(e: Env, u: Table, i: nat, ts: seq<SignedTx>)
    requires i < |ts| && BuildTxs(e, u, i, ts).outcome.Built?
    ensures var s := TxStep(e, u, i, ts[i]);
            && s.outcome.Built? && BuildTxs(e, s.table, i + 1, ts).outcome.Built?
            && BuildTxs(e, u, i, ts).table == BuildTxs(e, s.table, i + 1, ts).table
  {}

  lemma {:induction false} NextTracks(e: Env, t: Table, u: Table, next: Table, txs: seq<StoredTx>, i: nat)
    requires ValidEnv(e) && WellFormed(e, u) && i < |txs| && StoredTyped(e, txs[i]) && Tracks(t, u, txs[..i])
    requires TxStep(e, u, i, RowToSigned(e, txs[i])).outcome.Built?
    requires next == TxStep(e, u, i, RowToSigned(e, txs[i])).table
    ensures WellFormed(e, next) && Tracks(t, next, txs[..i + 1])
  {
    StepKeeps(e, u, i, txs[i]);
    TxTracks(e, t, u, txs[..i], i, txs[i]);
    TakeNext(txs, i);
  }

  lemma {:induction false} AllTracked(e: Env, t: Table, u: Table, txs: seq<StoredTx>, ts: seq<SignedTx>)
    requires |ts| == |txs| && Tracks(t, u, txs[..|txs|])
    ensures Tracks(t, BuildTxs(e, u, |ts|, ts).table, txs)
  {
    assert txs[..|txs|] == txs;
  }

  lemma {:induction false} TxsTrack(e: Env, t: Table, u: Table, txs: seq<StoredTx>, ts: seq<SignedTx>, i: nat)
    requires ValidEnv(e) && WellFormed(e, u) && i <= |txs| && Tracks(t, u, txs[..i]) && ts == AllSigned(e, txs)
    requires (forall j :: 0 <= j < |txs| ==> StoredTyped(e, txs[j])) && BuildTxs(e, u, i, ts).outcome.Built?
    ensures Tracks(t, BuildTxs(e, u, i, ts).table, txs)
    decreases |txs| - i
  {
    if i == |txs| {
      AllTracked(e, t, u, txs, ts);
    } else {
      var next := TxStep(e, u, i, ts[i]).table;
      BuildsNext(e, u, i, ts);
      NextTracks(e, t, u, next, txs, i);
      TxsTrack(e, t, next, txs, ts, i + 1);
    }
  }

  /** A whole build moves each account by its own transactions. */
  lemma {:induction false} RebuildTracks(x: Ctx, t: Table, deps: seq<PendingDeposit>, txs: seq<StoredTx>)
    requires ValidEnv(x.c.e) && WellFormed(x.c.e, t) && InputsOk(x, deps, txs)
             && Rebuild(x.c, t, deps, txs).outcome.Built?
    ensures Tracks(t, Rebuild(x.c, t, deps, txs).table, txs)
  {
    var e, ds, ts := x.c.e, Requests(deps), AllSigned(x.c.e, txs);
    BuiltParts(e, t, x.c.dSlots, x.c.nSlots, ds, ts);
    InputsTyped(x, deps, txs);
    TracksStart(t);
    DepositsTrack(e, t, t, 0, ds);
    DepositsGive(e, t, 0, ds);
    assert txs[..0] == [];
    TxsTrack(e, t, BuildDeposits(e, t, 0, ds).table, txs, ts, 0);
  }

  /** Confirmation moves every account by its own listed rows. */
  lemma {:induction false} ConfirmTracks(x: Ctx, db: Db, n: nat, ids: seq<nat>)
    requires CtxOk(x) && BatchRows(x, db.batches, db.mempool) && TxsOk(x, db.mempool)
    requires n in db.batches && 1 <= n < |x.hist| && ids == BlobIds(db.batches[n].blob)
    ensures InOrder(ids, |db.mempool|) && Tracks(x.hist[n - 1].table, x.hist[n].table, TxsAt(db.mempool, ids))
    ensures WellFormed(x.c.e, x.hist[n - 1].table) && WellFormed(x.c.e, x.hist[n].table)
  {
    StoredRecords(x, db, n);
    StoredReplay(x, db, n);
    StoredInputs(x, db, n);
    assert Past(x, n - 1) && Past(x, n);
    RebuildTracks(x, x.hist[n - 1].table, DepsOf(x, db, n), TxsOf(x, db, n));
  }

  // ---------- nonces never go back ----------

  /** Every slot keeps its key, and no nonce goes back. */
  predicate Kept(t: Table, u: Table) {
    forall i :: i in t ==> i in u && u[i].pk == t[i].pk && u[i].nonce >= t[i].nonce
  }

  lemma {:induction false} TracksKept(t: Table, u: Table, txs: seq<StoredTx>)
    requires Tracks(t, u, txs)
    ensures Kept(t, u)
  {
    forall i | i in t ensures i in u && u[i].pk == t[i].pk && u[i].nonce >= t[i].nonce {
      assert TrackSlot(t, u, txs, i);
    }
  }

  lemma {:induction false} EpochsKeep(x: Ctx, db: Db, j: nat, k: nat)
    requires CtxOk(x) && BatchRows(x, db.batches, db.mempool) && TxsOk(x, db.mempool)
    requires j <= k < |x.hist| && forall n :: j < n <= k ==> n in db.batches
    ensures Kept(x.hist[j].table, x.hist[k].table)
    decreases k - j
  {
    if j < k {
      EpochsKeep(x, db, j, k - 1);
      ConfirmTracks(x, db, k, BlobIds(db.batches[k].blob));
      TracksKept(x.hist[k - 1].table, x.hist[k].table, TxsAt(db.mempool, BlobIds(db.batches[k].blob)));
    }
  }

  /** Some slot of u holds this transaction's sender with a later nonce. */
  predicate Spent(u: Table, tx: StoredTx) {
    exists i :: i in u && u[i].pk == tx.fromPkX && u[i].nonce > tx.nonce
  }

  lemma {:induction false} OfNotEmpty(txs: seq<StoredTx>)
    requires txs != []
    ensures |Of(txs, txs[0].fromPkX)| >= 1
  {}

  lemma {:induction false} FirstSpent(e: Env, t: Table, txs: seq<StoredTx>)
    requires ValidEnv(e) && WellFormed(e, t) && txs != [] && (forall j :: 0 <= j < |txs| ==> StoredTyped(e, txs[j]))
    requires BuildTxs(e, t, 0, AllSigned(e, txs)).outcome.Built?
    ensures Spent(BuildTxs(e, t, 0, AllSigned(e, txs)).table, txs[0])
  {
    var u := BuildTxs(e, t, 0, AllSigned(e, txs)).table;
    BuiltWasPayable(e, t, 0, txs[0]);
    var i := Find(e, t, txs[0].fromPkX).value;
    TracksStart(t);
    assert txs[..0] == [];
    TxsTrack(e, t, t, txs, AllSigned(e, txs), 0);
    assert TrackSlot(t, u, txs, i);
    OfNotEmpty(txs);
  }

  /** A built batch has spent its first transaction. */
  lemma {:induction false} RebuildSpends(x: Ctx, t: Table, deps: seq<PendingDeposit>, txs: seq<StoredTx>)
    requires ValidEnv(x.c.e) && WellFormed(x.c.e, t) && InputsOk(x, deps, txs)
             && Rebuild(x.c, t, deps, txs).outcome.Built?
    ensures txs != [] ==> Spent(Rebuild(x.c, t, deps, txs).table, txs[0])
  {
    var e, ds, ts := x.c.e, Requests(deps), AllSigned(x.c.e, txs);
    BuiltParts(e, t, x.c.dSlots, x.c.nSlots, ds, ts);
    InputsTyped(x, deps, txs);
    DepositsGive(e, t, 0, ds);
    if txs != [] { FirstSpent(e, BuildDeposits(e, t, 0, ds).table, txs); }
  }

  lemma {:induction false} SpentStays(t: Table, u: Table, tx: StoredTx)
    requires Kept(t, u) && Spent(t, tx)
    ensures Spent(u, tx)
  {
    var i :| i in t && t[i].pk == tx.fromPkX && t[i].nonce > tx.nonce;
    assert i in u;
  }

  /** A spent transaction is turned down before its nonce is moved. */
  lemma {:induction false} SpentFails(e: Env, u: Table, tx: StoredTx)
    requires e.order > 0 && WellFormed(e, u) && Spent(u, tx)
    ensures TxStep(e, u, 0, RowToSigned(e, tx)).outcome.Failed?
  {
    var i :| i in u && u[i].pk == tx.fromPkX && u[i].nonce > tx.nonce;
    assert Find(e, u, tx.fromPkX) == Some(i);
  }

  lemma {:induction false} SpentNeverAborts(x: Ctx, t: Table, deps: seq<PendingDeposit>, txs: seq<StoredTx>)
    requires ValidEnv(x.c.e) && WellFormed(x.c.e, t) && InputsOk(x, deps, txs)
    requires txs != [] ==> Spent(t, txs[0])
    ensures !Rebuild(x.c, t, deps, txs).outcome.Aborted?
  {
    var e, ds := x.c.e, Requests(deps);
    DepositErrorsNameNoTx(e, t, 0, ds);
    InputsTyped(x, deps, txs);
    var d := BuildDeposits(e, t, 0, ds);
    if txs != [] && d.outcome.Built? {
      DepositsGive(e, t, 0, ds);
      TracksStart(t);
      DepositsTrack(e, t, t, 0, ds);
      TracksKept(t, d.table, []);
      SpentStays(t, d.table, txs[0]);
      SpentFails(e, d.table, txs[0]);
    }
  }

  // ---------- a second confirmation ----------

  lemma {:induction false} ReplayNeverAborts(x: Ctx, db: Db, k: nat)
    requires DbInv(x, db) && 1 <= k <= db.confirmed
    ensures !Rebuild(x.c, x.hist[db.confirmed].table, DepsOf(x, db, k), TxsOf(x, db, k)).outcome.Aborted?
  {
    var deps, txs := DepsOf(x, db, k), TxsOf(x, db, k);
    StoredReplay(x, db, k);
    StoredInputs(x, db, k);
    assert Past(x, k - 1) && Past(x, db.confirmed);
    RebuildSpends(x, x.hist[k - 1].table, deps, txs);
    EpochsKeep(x, db, k, db.confirmed);
    if txs != [] { SpentStays(x.hist[k].table, x.hist[db.confirmed].table, txs[0]); }
    SpentNeverAborts(x, x.hist[db.confirmed].table, deps, txs);
  }

  /** Confirming a confirmed batch again errors and changes neither the tree nor
      the tables: its replay would have to land on an old root. It cannot even
      abort, since its first transaction is spent. */
  lemma {:induction false} SecondConfirmFails(x: Ctx, db: Db, k: nat)
    requires DbInv(x, db) && 1 <= k <= db.confirmed
    ensures var t := x.hist[db.confirmed].table;
            || Confirm(x.c, db, t, k) == ([], t, Err(Internal))
            || Breaks(x.c.e, TreeQueries(x.c.e, x.hist[k].table, x.c.e.depth, 0)
                             + TreeQueries(x.c.e, Rebuild(x.c, t, DepsOf(x, db, k), TxsOf(x, db, k)).table,
                                           x.c.e.depth, 0))
  {
    SecondConfirmStays(x, db, k);
    ReplayNeverAborts(x, db, k);
    StoredBlobParses(x, db, k);
    ConfirmIs(x.c, db, x.hist[db.confirmed].table, k, Requests(DepsOf(x, db, k)), AllSigned(x.c.e, TxsOf(x, db, k)));
  }
}
