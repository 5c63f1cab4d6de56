/** One sender's waiting rows. As long as none of its own rows has been evicted every
    statement, wherever a crash stops after it, keeps them in nonce order and within
    its confirmed balance, whatever is evicted of others. */
module Waiting {
  import opened Hashing
  import opened Merkle
  import opened Circuit
  import opened Trees
  import opened Builder
  import opened Completeness
  import opened Contract
  import opened Custody
  import opened Database
  import opened Eviction
  import opened Commands
  import opened Lifecycle
  import opened Safety
  import opened Admission
  import opened Senders
  import opened Settlement

  /** A sender's rows in the batch in flight, in id order. */
  function TakenTxs(rows: seq<MempoolRow>, pk: int, i: nat): seq<StoredTx>
    decreases |rows| - i
  {
    if i >= |rows| then []
    else
      var first := if rows[i].status.TxBatching? && rows[i].tx.fromPkX == pk then [rows[i].tx] else [];
      first + TakenTxs(rows, pk, i + 1)
  }

  function StillPending(rows: seq<MempoolRow>, pk: int, i: nat): seq<StoredTx>
    decreases |rows| - i
  {
    if i >= |rows| then []
    else
      var first := if rows[i].status.TxPending? && rows[i].tx.fromPkX == pk then [rows[i].tx] else [];
      first + StillPending(rows, pk, i + 1)
  }

  /** None of the sender's rows has been rejected. */
  predicate Clean(rows: seq<MempoolRow>, pk: int) {
    forall id :: 0 <= id < |rows| && rows[id].tx.fromPkX == pk ==> !rows[id].status.TxRejected?
  }

  /** The sender's rows in flight come before its pending ones. */
  predicate TakenFirst(rows: seq<MempoolRow>, pk: int) {
    TakenTxs(rows, pk, 0) <= LiveTxs(rows, pk, 0)
  }

  predicate WaitOk(e: Env, t: Table, rows: seq<MempoolRow>, pk: int) {
    Orderly(e, t, pk, LiveTxs(rows, pk, 0)) && TakenFirst(rows, pk)
  }

  /** Until the sender is evicted. */
  predicate Waits(e: Env, t: Table, rows: seq<MempoolRow>, pk: int) {
    Clean(rows, pk) ==> WaitOk(e, t, rows, pk)
  }

  // ---------- lists of rows ----------

  lemma {:induction false} LiveSame(rows: seq<MempoolRow>, next: seq<MempoolRow>, pk: int, i: nat)
    requires |next| == |rows|
    requires forall j :: i <= j < |rows| ==>
               next[j].tx == rows[j].tx && (LiveFor(next[j], pk) <==> LiveFor(rows[j], pk))
    ensures LiveTxs(next, pk, i) == LiveTxs(rows, pk, i)
    decreases |rows| - i
  {
    if i < |rows| { LiveSame(rows, next, pk, i + 1); }
  }

  lemma {:induction false} TakenSame(rows: seq<MempoolRow>, next: seq<MempoolRow>, pk: int, i: nat)
    requires |next| == |rows|
    requires forall j :: i <= j < |rows| && rows[j].tx.fromPkX == pk ==> next[j] == rows[j]
    requires forall j :: i <= j < |rows| ==> next[j].tx == rows[j].tx
    ensures TakenTxs(next, pk, i) == TakenTxs(rows, pk, i) && LiveTxs(next, pk, i) == LiveTxs(rows, pk, i)
    decreases |rows| - i
  {
    if i < |rows| { TakenSame(rows, next, pk, i + 1); }
  }

  lemma {:induction false} LiveSnoc(rows: seq<MempoolRow>, row: MempoolRow, pk: int, i: nat)
    requires i <= |rows|
    ensures LiveTxs(rows + [row], pk, i) == LiveTxs(rows, pk, i) + (if LiveFor(row, pk) then [row.tx] else [])
    decreases |rows| - i
  {
    if i < |rows| {
      LiveSnoc(rows, row, pk, i + 1);
    } else {
      assert LiveTxs(rows + [row], pk, i + 1) == [];
    }
  }

  lemma {:induction false} TakenSnoc(rows: seq<MempoolRow>, row: MempoolRow, pk: int, i: nat)
    requires i <= |rows| && row.status.TxPending?
    ensures TakenTxs(rows + [row], pk, i) == TakenTxs(rows, pk, i)
    decreases |rows| - i
  {
    if i < |rows| {
      TakenSnoc(rows, row, pk, i + 1);
    } else {
      assert TakenTxs(rows + [row], pk, i + 1) == [];
    }
  }

  lemma {:induction false} TakenNone(rows: seq<MempoolRow>, pk: int, i: nat)
    requires forall j :: i <= j < |rows| ==> !rows[j].status.TxBatching?
    ensures TakenTxs(rows, pk, i) == []
    decreases |rows| - i
  {
    if i < |rows| { TakenNone(rows, pk, i + 1); }
  }

  predicate TakenExactly(rows: seq<MempoolRow>, ids: seq<nat>, i: nat) {
    && InOrder(ids, |rows|) && (forall k :: 0 <= k < |ids| ==> i <= ids[k])
    && (forall j: nat :: i <= j < |rows| ==> (rows[j].status.TxBatching? <==> j in ids))
  }

  lemma {:induction false} LeastFirst(ids: seq<nat>, n: nat, k: nat)
    requires InOrder(ids, n) && k < |ids|
    ensures ids[0] <= ids[k]
  {}

  lemma {:induction false} TakenTail(rows: seq<MempoolRow>, ids: seq<nat>, i: nat)
    requires i < |rows| && TakenExactly(rows, ids, i)
    ensures if i in ids then ids[0] == i && TakenExactly(rows, ids[1..], i + 1) else TakenExactly(rows, ids, i + 1)
  {
    if i in ids {
      var k :| 0 <= k < |ids| && ids[k] == i;
      LeastFirst(ids, |rows|, k);
      forall j: nat | i + 1 <= j < |rows| ensures j in ids <==> j in ids[1..] {
        assert ids == [ids[0]] + ids[1..];
      }
    }
  }

  lemma {:induction false} ListedHead(rows: seq<MempoolRow>, ids: seq<nat>, pk: int)
    requires InOrder(ids, |rows|) && ids != []
    ensures InOrder(ids[1..], |rows|)
    ensures Of(TxsAt(rows, ids), pk)
         == (if rows[ids[0]].tx.fromPkX == pk then [rows[ids[0]].tx] else []) + Of(TxsAt(rows, ids[1..]), pk)
  {
    assert TxsAt(rows, ids)[1..] == TxsAt(rows, ids[1..]);
  }

  /** The rows tagged by a list of ids, sender by sender. */
  lemma {:induction false} TakenIsOf(rows: seq<MempoolRow>, ids: seq<nat>, i: nat, pk: int)
    requires TakenExactly(rows, ids, i)
    ensures TakenTxs(rows, pk, i) == Of(TxsAt(rows, ids), pk)
    decreases |rows| - i
  {
    if i < |rows| {
      TakenTail(rows, ids, i);
      if i in ids {
        TakenIsOf(rows, ids[1..], i + 1, pk);
        ListedHead(rows, ids, pk);
      } else {
        TakenIsOf(rows, ids, i + 1, pk);
        assert [] + TakenTxs(rows, pk, i + 1) == TakenTxs(rows, pk, i + 1);
      }
    }
  }

  lemma {:induction false} TakenInLive(rows: seq<MempoolRow>, pk: int, i: nat, m: nat) returns (q: nat)
    requires m < |TakenTxs(rows, pk, i)|
    ensures q < |LiveTxs(rows, pk, i)| && LiveTxs(rows, pk, i)[q] == TakenTxs(rows, pk, i)[m]
    decreases |rows| - i
  {
    if rows[i].status.TxBatching? && rows[i].tx.fromPkX == pk && m == 0 {
      q := 0;
    } else {
      var rest := if rows[i].status.TxBatching? && rows[i].tx.fromPkX == pk then m - 1 else m;
      q := TakenInLive(rows, pk, i + 1, rest);
      if LiveFor(rows[i], pk) { q := q + 1; }
    }
  }

  /** A row taken after a pending one has a later nonce. */
  lemma {:induction false} LaterTaken(rows: seq<MempoolRow>, pk: int, i: nat, nonce: int)
    requires i < |rows| && rows[i].status.TxPending? && rows[i].tx.fromPkX == pk
             && Consecutive(LiveTxs(rows, pk, i), nonce)
    ensures TakenTxs(rows, pk, i + 1) != [] ==> TakenTxs(rows, pk, i + 1)[0].nonce > nonce
  {
    var live, rest := LiveTxs(rows, pk, i), LiveTxs(rows, pk, i + 1);
    assert live == [rows[i].tx] + rest;
    if TakenTxs(rows, pk, i + 1) != [] {
      var q := TakenInLive(rows, pk, i + 1, 0);
      assert rest[q] == live[q + 1];
    }
  }

  lemma {:induction false} FirstNonce(xs: seq<StoredTx>, ys: seq<StoredTx>, nonce: int)
    requires xs <= ys && Consecutive(ys, nonce)
    ensures xs != [] ==> xs[0].nonce == nonce
  {}

  lemma {:induction false} NoneTaken(rows: seq<MempoolRow>, pk: int, i: nat, nonce: int)
    requires i < |rows| && rows[i].status.TxPending? && rows[i].tx.fromPkX == pk
    requires Consecutive(LiveTxs(rows, pk, i), nonce) && TakenTxs(rows, pk, i) <= LiveTxs(rows, pk, i)
    ensures TakenTxs(rows, pk, i) == [] && TakenTxs(rows, pk, i + 1) == []
  {
    LaterTaken(rows, pk, i, nonce);
    FirstNonce(TakenTxs(rows, pk, i), LiveTxs(rows, pk, i), nonce);
  }

  lemma {:induction false} TailConsecutive(x: StoredTx, rest: seq<StoredTx>, nonce: int)
    requires Consecutive([x] + rest, nonce)
    ensures Consecutive(rest, nonce + 1)
  {
    forall j | 0 <= j < |rest| ensures rest[j].nonce == nonce + 1 + j {
      assert rest[j] == ([x] + rest)[j + 1];
    }
  }

  lemma {:induction false} TailPrefix(x: StoredTx, xs: seq<StoredTx>, ys: seq<StoredTx>)
    requires [x] + xs <= [x] + ys
    ensures xs <= ys
  {
    assert ([x] + xs)[1..] == xs && ([x] + ys)[1..] == ys;
  }

  /** With the rows in flight first, the others are what remains. */
  lemma {:induction false} LiveSplits(rows: seq<MempoolRow>, pk: int, i: nat, nonce: int)
    requires Consecutive(LiveTxs(rows, pk, i), nonce) && TakenTxs(rows, pk, i) <= LiveTxs(rows, pk, i)
    ensures LiveTxs(rows, pk, i) == TakenTxs(rows, pk, i) + StillPending(rows, pk, i)
    decreases |rows| - i
  {
    if i < |rows| {
      var rest, taken, pending := LiveTxs(rows, pk, i + 1), TakenTxs(rows, pk, i + 1), StillPending(rows, pk, i + 1);
      var x := rows[i].tx;
      if rows[i].status.TxBatching? && x.fromPkX == pk {
        TailConsecutive(x, rest, nonce);
        TailPrefix(x, taken, rest);
        LiveSplits(rows, pk, i + 1, nonce + 1);
        assert [x] + (taken + pending) == [x] + taken + pending;
      } else if rows[i].status.TxPending? && x.fromPkX == pk {
        NoneTaken(rows, pk, i, nonce);
        TailConsecutive(x, rest, nonce);
        LiveSplits(rows, pk, i + 1, nonce + 1);
        assert [] + ([x] + pending) == [x] + ([] + pending);
      } else {
        assert LiveTxs(rows, pk, i) == rest && TakenTxs(rows, pk, i) == taken && StillPending(rows, pk, i) == pending;
        LiveSplits(rows, pk, i + 1, nonce);
      }
    }
  }

  lemma {:induction false} PendingIsLive(rows: seq<MempoolRow>, pk: int, i: nat)
    requires forall j :: i <= j < |rows| ==> !rows[j].status.TxBatching?
    ensures LiveTxs(rows, pk, i) == StillPending(rows, pk, i)
    decreases |rows| - i
  {
    if i < |rows| { PendingIsLive(rows, pk, i + 1); }
  }

  lemma {:induction false} PendingSame(rows: seq<MempoolRow>, next: seq<MempoolRow>, pk: int, i: nat)
    requires |next| == |rows|
    requires forall j :: i <= j < |rows| ==>
               next[j].tx == rows[j].tx && (next[j].status.TxPending? <==> rows[j].status.TxPending?)
    ensures StillPending(next, pk, i) == StillPending(rows, pk, i)
    decreases |rows| - i
  {
    if i < |rows| { PendingSame(rows, next, pk, i + 1); }
  }

  // ---------- a rejected row stays rejected ----------

  predicate RejectedStay(rows: seq<MempoolRow>, next: seq<MempoolRow>) {
    SameTxs(rows, next)
    && forall id :: 0 <= id < |rows| && rows[id].status.TxRejected? ==> next[id].status.TxRejected?
  }

  lemma {:induction false} WasClean(rows: seq<MempoolRow>, next: seq<MempoolRow>, pk: int)
    requires RejectedStay(rows, next) && Clean(next, pk)
    ensures Clean(rows, pk)
  {}

  lemma {:induction false} ListedNotRejected(batches: Batches, confirmed: nat, rows: seq<MempoolRow>, n: nat, id: nat)
    requires TxTagsOk(batches, confirmed, rows) && Lists(batches, n, id) && n > confirmed
    ensures id < |rows| && !rows[id].status.TxRejected?
  {
    assert TxTaken(confirmed, rows, n, id);
  }

  lemma {:induction false} FinishRejected(x: Ctx, db: Db, w: Write, next: Db)
    requires db.confirmed < |x.hist| && w.Finish? && w.num == db.confirmed + 1
    requires FinishOk(x, db, w.leaves, w.seqs, w.ids) && next == Apply(db, w)
    requires TxTagsOk(db.batches, db.confirmed, db.mempool)
    ensures RejectedStay(db.mempool, next.mempool)
  {
    FinishWrites(x, db, w);
    forall id: nat | id in w.ids ensures id < |db.mempool| && !db.mempool[id].status.TxRejected? {
      ListedNotRejected(db.batches, db.confirmed, db.mempool, w.num, id);
    }
  }

  lemma {:induction false} WriteKeepsRejected(x: Ctx, db: Db, w: Write)
    requires TagsInv(x, db) && TagsAllow(x, db, w)
    ensures RejectedStay(db.mempool, Apply(db, w).mempool)
  {
    if w.Finish? {
      FinishRejected(x, db, w, Apply(db, w));
    } else if w.TakeTx? {
      ListedNotRejected(db.batches, db.confirmed, db.mempool, w.num, w.id);
    } else {
      OtherKeepsRejected(db, w);
    }
  }

  lemma {:induction false} OtherKeepsRejected(db: Db, w: Write)
    requires !w.Finish? && !w.TakeTx?
    ensures RejectedStay(db.mempool, Apply(db, w).mempool)
  {}

  // ---------- each write ----------

  /** What a statement asks for a sender's rows to stay orderly: an admitted row, and
      rows taken in order. */
  predicate WaitAllows(e: Env, db: Db, w: Write, pk: int) {
    match w
    case AddTx(tx) => Admits(e, db, db.leaves, tx)
    case TakeTx(_, _) => Clean(Apply(db, w).mempool, pk) ==> TakenFirst(Apply(db, w).mempool, pk)
    case _ => true
  }

  lemma {:induction false} AdmittedFits(e: Env, db: Db, t: Table, tx: StoredTx)
    requires WellFormed(e, t) && Admits(e, db, t, tx) && Orderly(e, t, tx.fromPkX, LiveTxs(db.mempool, tx.fromPkX, 0))
    ensures Orderly(e, t, tx.fromPkX, LiveTxs(db.mempool, tx.fromPkX, 0) + [tx])
  {
    var live := LiveTxs(db.mempool, tx.fromPkX, 0);
    TotalAppend(live, [tx]);
    assert Total([tx]) == tx.amount by { assert [tx][1..] == []; }
  }

  lemma {:induction false} AddTxWaits(e: Env, db: Db, tx: StoredTx, pk: int)
    requires WellFormed(e, db.leaves) && WaitOk(e, db.leaves, db.mempool, pk) && Admits(e, db, db.leaves, tx)
    ensures WaitOk(e, db.leaves, Apply(db, AddTx(tx)).mempool, pk)
  {
    var rows, row := db.mempool, MempoolRow(tx, TxPending, None);
    LiveSnoc(rows, row, pk, 0);
    TakenSnoc(rows, row, pk, 0);
    if pk == tx.fromPkX { AdmittedFits(e, db, db.leaves, tx); }
    assert LiveTxs(rows, pk, 0) + [] == LiveTxs(rows, pk, 0);
  }

  lemma {:induction false} RejectTxWaits(e: Env, t: Table, rows: seq<MempoolRow>, next: seq<MempoolRow>, id: nat,
                                         pk: int)
    requires WaitOk(e, t, rows, pk) && Clean(next, pk) && |next| == |rows| && id < |rows|
    requires forall j :: 0 <= j < |rows| ==> next[j].tx == rows[j].tx && (j != id ==> next[j] == rows[j])
    requires next[id].status.TxRejected?
    ensures WaitOk(e, t, next, pk)
  {
    assert rows[id].tx.fromPkX != pk;
    TakenSame(rows, next, pk, 0);
  }

  lemma {:induction false} TakeTxWaits(e: Env, t: Table, rows: seq<MempoolRow>, next: seq<MempoolRow>, pk: int)
    requires WaitOk(e, t, rows, pk) && TakenFirst(next, pk) && |next| == |rows|
    requires forall j :: 0 <= j < |rows| ==>
               next[j].tx == rows[j].tx && (LiveFor(next[j], pk) <==> LiveFor(rows[j], pk))
    ensures WaitOk(e, t, next, pk)
  {
    LiveSame(rows, next, pk, 0);
  }

  lemma {:induction false} RequeueWaits(e: Env, t: Table, rows: seq<MempoolRow>, next: seq<MempoolRow>, pk: int)
    requires WaitOk(e, t, rows, pk) && |next| == |rows|
    requires forall j :: 0 <= j < |rows| ==> !next[j].status.TxBatching?
    requires forall j :: 0 <= j < |rows| ==>
               next[j].tx == rows[j].tx && (LiveFor(next[j], pk) <==> LiveFor(rows[j], pk))
    ensures WaitOk(e, t, next, pk)
  {
    TakenNone(next, pk, 0);
    TakeTxWaits(e, t, rows, next, pk);
  }

  // ---------- confirmation ----------

  /** Confirming the rows in flight moves a sender's account past exactly its own. */
  lemma {:induction false} FinishFits(e: Env, t: Table, u: Table, rows: seq<MempoolRow>, txs: seq<StoredTx>, pk: int)
    requires WellFormed(e, t) && WellFormed(e, u) && Tracks(t, u, txs) && WaitOk(e, t, rows, pk)
    requires TakenTxs(rows, pk, 0) == Of(txs, pk)
    ensures Orderly(e, u, pk, StillPending(rows, pk, 0))
  {
    var live, taken, rest := LiveTxs(rows, pk, 0), TakenTxs(rows, pk, 0), StillPending(rows, pk, 0);
    if live == [] {
      LiveSplits(rows, pk, 0, 0);
    } else {
      var i := Find(e, t, pk).value;
      LiveSplits(rows, pk, 0, t[i].nonce);
      TracksSender(e, t, u, txs, pk);
      TotalAppend(taken, rest);
      assert forall j :: 0 <= j < |rest| ==> rest[j] == live[|taken| + j];
    }
  }

  lemma {:induction false} FinishWaits(e: Env, t: Table, u: Table, rows: seq<MempoolRow>, next: seq<MempoolRow>,
                                       ids: seq<nat>, pk: int)
    requires WellFormed(e, t) && WellFormed(e, u) && WaitOk(e, t, rows, pk) && TakenExactly(rows, ids, 0)
    requires Tracks(t, u, TxsAt(rows, ids)) && |next| == |rows|
    requires forall j :: 0 <= j < |rows| ==>
               next[j] == if j in ids then MempoolRow(rows[j].tx, TxIncluded, next[j].batchNum) else rows[j]
    ensures WaitOk(e, u, next, pk)
  {
    assert forall j :: 0 <= j < |next| ==> !next[j].status.TxBatching?;
    TakenNone(next, pk, 0);
    TakenIsOf(rows, ids, 0, pk);
    FinishFits(e, t, u, rows, TxsAt(rows, ids), pk);
    PendingIsLive(next, pk, 0);
    PendingSame(rows, next, pk, 0);
  }

  // ---------- any statement, any crash ----------

  /** The rows in flight are the ones its blob lists. */
  lemma {:induction false} InflightTaken(db: Db, n: nat, ids: seq<nat>)
    requires TxTagsOk(db.batches, db.confirmed, db.mempool) && TxsSettled(db.batches, n, db.mempool)
    requires n == db.confirmed + 1 && n in db.batches && ids == BlobIds(db.batches[n].blob)
             && InOrder(ids, |db.mempool|)
    ensures TakenExactly(db.mempool, ids, 0)
  {
    forall j: nat | j < |db.mempool| ensures db.mempool[j].status.TxBatching? <==> j in ids {
      assert TxPhase(db.batches, db.confirmed, j, db.mempool[j]);
      if j in ids { assert Lists(db.batches, n, j); }
    }
  }

  lemma {:induction false} LandedSettled(x: Ctx, db: Db)
    requires DbInv(x, db) && db.confirmed + 1 in db.batches && |x.hist| == db.confirmed + 2
    ensures TxsSettled(db.batches, db.confirmed + 1, db.mempool)
  {
    LandedHead(x, db);
  }

  /** What confirming the landed batch settles. */
  lemma {:induction false} LandedTracks(x: Ctx, db: Db, n: nat, ids: seq<nat>)
    requires DbInv(x, db) && n == db.confirmed + 1 && n in db.batches && |x.hist| == n + 1
    requires ids == BlobIds(db.batches[n].blob)
    ensures TakenExactly(db.mempool, ids, 0) && Tracks(db.leaves, x.hist[n].table, TxsAt(db.mempool, ids))
    ensures WellFormed(x.c.e, db.leaves) && WellFormed(x.c.e, x.hist[n].table)
  {
    ConfirmTracks(x, db, n, ids);
    LandedTaken(x, db, n, ids);
  }

  lemma {:induction false} LandedTaken(x: Ctx, db: Db, n: nat, ids: seq<nat>)
    requires DbInv(x, db) && n == db.confirmed + 1 && n in db.batches && |x.hist| == n + 1
    requires ids == BlobIds(db.batches[n].blob) && InOrder(ids, |db.mempool|)
    ensures TakenExactly(db.mempool, ids, 0)
  {
    LandedSettled(x, db);
    InflightTaken(db, n, ids);
  }

  lemma {:induction false} FinishKeepsWaiting(x: Ctx, db: Db, leaves: Table, seqs: seq<nat>, ids: seq<nat>, next: Db,
                                              pk: int)
    requires DbInv(x, db) && FinishOk(x, db, leaves, seqs, ids) && WaitOk(x.c.e, db.leaves, db.mempool, pk)
    requires Finished(db, next, leaves, seqs)
    ensures WaitOk(x.c.e, next.leaves, next.mempool, pk)
  {
    LandedTracks(x, db, db.confirmed + 1, ids);
    FinishWaits(x.c.e, db.leaves, leaves, db.mempool, next.mempool, ids, pk);
  }

  lemma {:induction false} RequeueKeepsWaiting(x: Ctx, db: Db, w: Write, pk: int)
    requires TagsInv(x, db) && w.Requeue? && w.num == db.confirmed + 1 && WaitOk(x.c.e, db.leaves, db.mempool, pk)
    ensures WaitOk(x.c.e, Apply(db, w).leaves, Apply(db, w).mempool, pk)
  {
    var next := Apply(db, w).mempool;
    forall j | 0 <= j < |db.mempool|
      ensures !next[j].status.TxBatching?
      ensures next[j].tx == db.mempool[j].tx && (LiveFor(next[j], pk) <==> LiveFor(db.mempool[j], pk))
    {
      assert TxPhase(db.batches, db.confirmed, j, db.mempool[j]);
    }
    RequeueWaits(x.c.e, db.leaves, db.mempool, next, pk);
  }

  lemma {:induction false} FinishWriteWaits(x: Ctx, db: Db, w: Write, pk: int)
    requires DbInv(x, db) && w.Finish? && TagsAllow(x, db, w) && WaitOk(x.c.e, db.leaves, db.mempool, pk)
    ensures WaitOk(x.c.e, Apply(db, w).leaves, Apply(db, w).mempool, pk)
  {
    FinishWrites(x, db, w);
    FinishKeepsWaiting(x, db, w.leaves, w.seqs, w.ids, Apply(db, w), pk);
  }

  lemma {:induction false} TakeTxWriteWaits(x: Ctx, db: Db, w: Write, pk: int)
    requires TagsInv(x, db) && w.TakeTx? && TagsAllow(x, db, w) && WaitOk(x.c.e, db.leaves, db.mempool, pk)
    requires TakenFirst(Apply(db, w).mempool, pk)
    ensures WaitOk(x.c.e, Apply(db, w).leaves, Apply(db, w).mempool, pk)
  {
    assert Lists(db.batches, w.num, w.id) && TxTaken(db.confirmed, db.mempool, w.num, w.id);
    TakeTxWaits(x.c.e, db.leaves, db.mempool, Apply(db, w).mempool, pk);
  }

  lemma {:induction false} RejectWriteWaits(x: Ctx, db: Db, w: Write, pk: int)
    requires w.RejectTx? && RowPending(db.mempool, w.id) && WaitOk(x.c.e, db.leaves, db.mempool, pk)
    requires Clean(Apply(db, w).mempool, pk)
    ensures WaitOk(x.c.e, Apply(db, w).leaves, Apply(db, w).mempool, pk)
  {
    RejectTxWaits(x.c.e, db.leaves, db.mempool, Apply(db, w).mempool, w.id, pk);
  }

  lemma {:induction false} ConfirmedWellFormed(x: Ctx, db: Db)
    requires CtxOk(x) && db.confirmed < |x.hist| && db.leaves == x.hist[db.confirmed].table
    ensures WellFormed(x.c.e, db.leaves)
  {
    assert Past(x, db.confirmed);
  }

  lemma {:induction false} RowWriteWaits(x: Ctx, db: Db, w: Write, pk: int)
    requires DbInv(x, db) && TagsAllow(x, db, w) && WaitOk(x.c.e, db.leaves, db.mempool, pk)
    requires w.AddTx? || w.RejectTx? || w.TakeTx?
    requires WaitAllows(x.c.e, db, w, pk) && Clean(Apply(db, w).mempool, pk)
    ensures WaitOk(x.c.e, Apply(db, w).leaves, Apply(db, w).mempool, pk)
  {
    match w
    case AddTx(tx) => ConfirmedWellFormed(x, db); AddTxWaits(x.c.e, db, tx, pk);
    case RejectTx(_) => RejectWriteWaits(x, db, w, pk);
    case TakeTx(_, _) => TakeTxWriteWaits(x, db, w, pk);
  }

  lemma {:induction false} CleanWrite(x: Ctx, db: Db, w: Write, pk: int)
    requires DbInv(x, db) && TagsAllow(x, db, w) && WaitOk(x.c.e, db.leaves, db.mempool, pk)
    requires WaitAllows(x.c.e, db, w, pk) && Clean(Apply(db, w).mempool, pk)
    ensures WaitOk(x.c.e, Apply(db, w).leaves, Apply(db, w).mempool, pk)
  {
    if w.AddTx? || w.RejectTx? || w.TakeTx? {
      RowWriteWaits(x, db, w, pk);
    } else {
      match w
      case Finish(_, _, _, _) => FinishWriteWaits(x, db, w, pk);
      case Requeue(_) => RequeueKeepsWaiting(x, db, w, pk);
      case _ =>
    }
  }

  /** One statement, wherever a crash may stop after it. */
  lemma {:induction false} WriteKeepsWaiting(x: Ctx, db: Db, w: Write, pk: int)
    requires DbInv(x, db) && TagsAllow(x, db, w) && Waits(x.c.e, db.leaves, db.mempool, pk)
    requires WaitAllows(x.c.e, db, w, pk)
    ensures Waits(x.c.e, Apply(db, w).leaves, Apply(db, w).mempool, pk)
  {
    if Clean(Apply(db, w).mempool, pk) {
      WriteKeepsRejected(x, db, w);
      WasClean(db.mempool, Apply(db, w).mempool, pk);
      CleanWrite(x, db, w, pk);
    }
  }

  predicate AllWait(e: Env, db: Db, ws: seq<Write>, pk: int)
    decreases |ws|
  {
    ws == [] || (WaitAllows(e, db, ws[0], pk) && AllWait(e, Apply(db, ws[0]), ws[1..], pk))
  }

  lemma {:induction false} PrefixKeepsWaiting(x: Ctx, db: Db, ws: seq<Write>, n: nat, pk: int)
    requires DbInv(x, db) && AllOk(x, db, ws) && n <= |ws|
    requires Waits(x.c.e, db.leaves, db.mempool, pk) && AllWait(x.c.e, db, ws, pk)
    ensures var next := ApplyAll(db, ws[..n]); Waits(x.c.e, next.leaves, next.mempool, pk)
    decreases n
  {
    if n != 0 {
      WriteKeeps(x, db, ws[0]);
      WriteKeepsWaiting(x, db, ws[0], pk);
      PrefixKeepsWaiting(x, Apply(db, ws[0]), ws[1..], n - 1, pk);
      TakeHead(ws, n);
    }
  }

  /** Statements that neither admit nor take a row. */
  predicate Harmless(w: Write) {
    !w.AddTx? && !w.TakeTx?
  }

  lemma {:induction false} HarmlessWait(e: Env, db: Db, ws: seq<Write>, pk: int)
    requires forall i :: 0 <= i < |ws| ==> Harmless(ws[i])
    ensures AllWait(e, db, ws, pk)
    decreases |ws|
  {
    if ws != [] { HarmlessWait(e, Apply(db, ws[0]), ws[1..], pk); }
  }

  lemma {:induction false} WaitAppend(e: Env, db: Db, xs: seq<Write>, mid: Db, ys: seq<Write>, pk: int)
    requires AllWait(e, db, xs, pk) && mid == ApplyAll(db, xs) && AllWait(e, mid, ys, pk)
    ensures AllWait(e, db, xs + ys, pk)
    decreases |xs|
  {
    if xs == [] {
      assert xs + ys == ys;
    } else {
      assert (xs + ys)[0] == xs[0] && (xs + ys)[1..] == xs[1..] + ys;
      WaitAppend(e, Apply(db, xs[0]), xs[1..], mid, ys, pk);
    }
  }

  // ---------- the rows of a build ----------

  /** Rows taken so far are those of the first k selected. */
  predicate TakenUpTo(rows: seq<MempoolRow>, cs: seq<Candidate>, k: nat)
    requires k <= |cs|
  {
    TakenExactly(rows, Ids(cs[..k]), 0)
      && (forall j :: 0 <= j < |cs| ==> cs[j].id < |rows| && rows[cs[j].id].tx == cs[j].tx)
  }

  /** Taking a selection row by row keeps a fair sender's taken rows first. */
  lemma {:induction false} FairTaken(rows: seq<MempoolRow>, cs: seq<Candidate>, k: nat, pk: int)
    requires k <= |cs| && TakenUpTo(rows, cs, k) && FairFor(rows, cs, pk)
    ensures TakenFirst(rows, pk)
  {
    TakenIsOf(rows, Ids(cs[..k]), 0, pk);
    assert TxsAt(rows, Ids(cs[..k])) == Txs(cs[..k]);
    TxsUpTo(cs, k);
    OfTake(Txs(cs), k, pk);
  }

  lemma {:induction false} TakeOne(rows: seq<MempoolRow>, next: seq<MempoolRow>, cs: seq<Candidate>, k: nat)
    requires k < |cs| && Ascending(cs) && TakenUpTo(rows, cs, k) && |next| == |rows|
    requires forall j :: 0 <= j < |rows| ==>
               next[j].tx == rows[j].tx && (next[j].status.TxBatching? <==> rows[j].status.TxBatching? || j == cs[k].id)
    ensures TakenUpTo(next, cs, k + 1)
  {
    var ids, more := Ids(cs[..k]), Ids(cs[..k + 1]);
    assert more == ids + [cs[k].id];
    forall j | 0 <= j < k ensures ids[j] < cs[k].id { assert ids[j] == cs[j].id; }
    OneMoreTaken(rows, next, ids, cs[k].id);
  }

  lemma {:induction false} OneMoreTaken(rows: seq<MempoolRow>, next: seq<MempoolRow>, ids: seq<nat>, id: nat)
    requires TakenExactly(rows, ids, 0) && id < |rows| == |next| && forall j :: 0 <= j < |ids| ==> ids[j] < id
    requires forall j :: 0 <= j < |rows| ==>
               (next[j].status.TxBatching? <==> rows[j].status.TxBatching? || j == id)
    ensures TakenExactly(next, ids + [id], 0)
  {
    forall j: nat | j < |rows| ensures next[j].status.TxBatching? <==> j in ids + [id] {
      assert j in ids + [id] <==> j in ids || j == id;
    }
  }

  /** Rows k and later of the selection are still to be taken. */
  predicate TakingFrom(rows: seq<MempoolRow>, cs: seq<Candidate>, k: nat)
    requires k <= |cs|
  {
    TakenUpTo(rows, cs, k) && forall j :: k <= j < |cs| ==> rows[cs[j].id].status.TxPending?
  }

  lemma {:induction false} TakeStep(rows: seq<MempoolRow>, next: seq<MempoolRow>, cs: seq<Candidate>, k: nat, pk: int)
    requires k < |cs| && Ascending(cs) && TakingFrom(rows, cs, k) && |next| == |rows|
    requires forall j :: 0 <= j < |rows| ==>
               next[j] == if j == cs[k].id then MempoolRow(rows[j].tx, TxBatching, next[j].batchNum) else rows[j]
    ensures TakingFrom(next, cs, k + 1) && (Clean(next, pk) ==> Clean(rows, pk))
    ensures FairFor(rows, cs, pk) ==> FairFor(next, cs, pk) && TakenFirst(next, pk)
  {
    LiveSame(rows, next, pk, 0);
    TakeOne(rows, next, cs, k);
    if FairFor(rows, cs, pk) { FairTaken(next, cs, k + 1, pk); }
  }

  lemma {:induction false} TakesWait(e: Env, db: Db, cs: seq<Candidate>, k: nat, n: nat, pk: int)
    requires k <= |cs| && Ascending(cs) && TakingFrom(db.mempool, cs, k)
    requires Clean(db.mempool, pk) ==> FairFor(db.mempool, cs, pk)
    ensures AllWait(e, db, TakeTxs(cs[k..], n), pk)
    decreases |cs| - k
  {
    if k < |cs| {
      var next := Apply(db, TakeTx(cs[k].id, n));
      assert cs[k..][0] == cs[k] && cs[k..][1..] == cs[k + 1..];
      assert TakeTxs(cs[k..], n)[1..] == TakeTxs(cs[k + 1..], n);
      TakeStep(db.mempool, next.mempool, cs, k, pk);
      TakesWait(e, next, cs, k + 1, n, pk);
    }
  }

  lemma {:induction false} NothingTaken(x: Ctx, db: Db)
    requires TagsInv(x, db) && db.confirmed + 1 !in db.batches
    ensures forall j :: 0 <= j < |db.mempool| ==> !db.mempool[j].status.TxBatching?
  {
    forall j | 0 <= j < |db.mempool| ensures !db.mempool[j].status.TxBatching? {
      assert TxPhase(db.batches, db.confirmed, j, db.mempool[j]);
    }
  }

  lemma {:induction false} TakeDepositsHarmless(seqs: seq<nat>, n: nat)
    ensures forall i :: 0 <= i < |TakeDeposits(seqs, n)| ==> Harmless(TakeDeposits(seqs, n)[i])
  {
    if seqs != [] { TakeDepositsHarmless(seqs[1..], n); }
  }

  lemma {:induction false} RowWritesWait(e: Env, db: Db, n: nat, b: BatchRow, seqs: seq<nat>, pk: int)
    ensures AllWait(e, db, RowWrites(n, b, seqs), pk)
    ensures ApplyAll(db, RowWrites(n, b, seqs)).mempool == db.mempool
  {
    TakeDepositsHarmless(seqs, n);
    HarmlessWait(e, db, RowWrites(n, b, seqs), pk);
    RowDoes(db, n, b, seqs);
  }

  lemma {:induction false} TakingStarts(rows: seq<MempoolRow>, cs: seq<Candidate>)
    requires AllPending(rows, cs) && forall j :: 0 <= j < |rows| ==> !rows[j].status.TxBatching?
    ensures TakingFrom(rows, cs, 0)
  {
    assert Ids(cs[..0]) == [];
    assert forall j :: 0 <= j < |cs| ==> RowPending(rows, cs[j].id);
  }

  /** The writes of a batch that is fair to the sender. */
  lemma {:induction false} InsertWaits(e: Env, db: Db, n: nat, b: BatchRow, seqs: seq<nat>, cs: seq<Candidate>, pk: int)
    requires AllPending(db.mempool, cs) && Ascending(cs) && (Clean(db.mempool, pk) ==> FairFor(db.mempool, cs, pk))
    requires forall j :: 0 <= j < |db.mempool| ==> !db.mempool[j].status.TxBatching?
    ensures AllWait(e, db, InsertWrites(n, b, seqs, cs), pk)
  {
    var mid := ApplyAll(db, RowWrites(n, b, seqs));
    RowWritesWait(e, db, n, b, seqs, pk);
    TakingStarts(db.mempool, cs);
    assert cs[0..] == cs;
    TakesWait(e, mid, cs, 0, n, pk);
    WaitAppend(e, db, RowWrites(n, b, seqs), mid, TakeTxs(cs, n), pk);
  }

  // ---------- what a loop keeps ----------

  lemma {:induction false} SelectedTyped(x: Ctx, rows: seq<MempoolRow>, cs: seq<Candidate>)
    requires TxsOk(x, rows) && AllPending(rows, cs) && x.c.e.order > 0
    ensures AllTypedTxs(x.c.e, cs)
  {
    forall k | 0 <= k < |cs| ensures Typed(x.c.e, cs[k].tx) {
      assert RowPending(rows, cs[k].id) && TxOk(x, rows[cs[k].id].tx);
    }
  }

  lemma {:induction false} QueueTyped(x: Ctx, n: nat, m: nat, ds: seq<DepositRequest>)
    requires CtxOk(x) && 1 <= n <= |x.hist| && x.hist[n - 1].head + m <= |x.log|
    requires ds == Requests(BatchDeposits(x, n, m))
    ensures |ds| == m && forall j :: 0 <= j < |ds| ==> RequestTyped(x.c.e, ds[j])
  {
    forall j | 0 <= j < m ensures RequestTyped(x.c.e, ds[j]) {
      assert BatchDeposits(x, n, m)[j] == x.log[x.hist[n - 1].head + j];
      assert EntryOk(x.c, x.log[x.hist[n - 1].head + j]);
    }
  }

  /** The rows a loop kept are, on the tables with its evictions, first waiting rows of
      every sender that still waits in order. */
  lemma {:induction false} KeptIsFair(x: Ctx, t: Table, rows: seq<MempoolRow>, ds: seq<DepositRequest>,
                                      cs: seq<Candidate>,
                                      kept: seq<Candidate>, pk: int)
    requires ValidEnv(x.c.e) && WellFormed(x.c.e, t) && TxsOk(x, rows) && AllPending(rows, kept)
    requires Orderly(x.c.e, t, pk, LiveTxs(rows, pk, 0))
    requires |ds| <= x.c.dSlots && (forall j :: 0 <= j < |ds| ==> RequestTyped(x.c.e, ds[j])) && |cs| <= x.c.nSlots
    requires Restart(x.c, t, ds, cs).attempt.Ready? && kept == Restart(x.c, t, ds, cs).attempt.rows
    ensures FairFor(rows, kept, pk)
  {
    LoopIsPass(x.c, t, ds, cs);
    SelectedTyped(x, rows, kept);
    KeptIsFirst(x.c, t, ds, rows, kept, pk);
  }

  // ---------- a build ----------

  lemma {:induction false} RejectsHarmless(cs: seq<Candidate>)
    ensures forall i :: 0 <= i < |Rejects(cs)| ==> Harmless(Rejects(cs)[i])
  {
    if cs != [] { RejectsHarmless(cs[1..]); }
  }

  /** The evictions of a loop. */
  lemma {:induction false} RejectsWait(x: Ctx, db: Db, mid: Db, dropped: seq<Candidate>, pk: int)
    requires DbInv(x, db) && AllOk(x, db, Rejects(dropped)) && Waits(x.c.e, db.leaves, db.mempool, pk)
    requires mid == ApplyAll(db, Rejects(dropped))
    ensures AllWait(x.c.e, db, Rejects(dropped), pk)
    ensures DbInv(x, mid) && Waits(x.c.e, mid.leaves, mid.mempool, pk)
  {
    var ws := Rejects(dropped);
    RejectsHarmless(dropped);
    HarmlessWait(x.c.e, db, ws, pk);
    PrefixKeepsWaiting(x, db, ws, |ws|, pk);
    PrefixKeeps(x, db, ws, |ws|);
    assert ws[..|ws|] == ws;
  }

  /** The batch after them. */
  lemma {:induction false} PlanWaits(x: Ctx, mid: Db, n: nat, seqs: seq<nat>, deps: seq<PendingDeposit>,
                                     cs: seq<Candidate>, wit: BatchWitness, pk: int)
    requires TagsInv(x, mid) && n == |x.hist| == mid.confirmed + 1 && Vacant(mid) && |seqs| == |deps|
    requires AllPending(mid.mempool, cs) && Ascending(cs)
    requires Clean(mid.mempool, pk) ==> FairFor(mid.mempool, cs, pk)
    ensures AllWait(x.c.e, mid, PlanWrites(n, seqs, deps, cs, wit), pk)
  {
    NothingTaken(x, mid);
    InsertWaits(x.c.e, mid, n, NewBatch(wit, seqs, deps, cs), seqs, cs, pk);
  }

  /** Whatever the other rows, these are fair to a sender whose rows are orderly. */
  ghost predicate FairRows(x: Ctx, t: Table, kept: seq<Candidate>, pk: int) {
    forall rows: seq<MempoolRow> ::
      TxsOk(x, rows) && AllPending(rows, kept) && Orderly(x.c.e, t, pk, LiveTxs(rows, pk, 0)) ==>
        FairFor(rows, kept, pk)
  }

  lemma {:induction false} SurvivorsFair(x: Ctx, db: Db, n: nat, m: nat, deps: seq<PendingDeposit>, r: Eviction,
                                         pk: int)
    requires CtxOk(x) && 1 <= n <= |x.hist| && db.leaves == x.hist[n - 1].table && x.hist[n - 1].head + m <= |x.log|
    requires m <= x.c.dSlots && deps == BatchDeposits(x, n, m)
    requires r == Evicted(x.c, db, db.leaves, deps) && r.attempt.Ready?
    ensures FairRows(x, db.leaves, r.attempt.rows, pk)
  {
    var ds := Requests(deps);
    assert Past(x, n - 1);
    SelectedIs(x.c, db);
    QueueTyped(x, n, m, ds);
    forall rows: seq<MempoolRow> | TxsOk(x, rows) && AllPending(rows, r.attempt.rows)
                                   && Orderly(x.c.e, db.leaves, pk, LiveTxs(rows, pk, 0))
      ensures FairFor(rows, r.attempt.rows, pk)
    {
      KeptIsFair(x, db.leaves, rows, ds, SelectedTxs(x.c, db), r.attempt.rows, pk);
    }
  }

  /** The tables between the evictions and the insertion. */
  lemma {:induction false} MidWaits(x: Ctx, db: Db, mid: Db, dropped: seq<Candidate>, cs: seq<Candidate>, pk: int)
    requires DbInv(x, db) && Vacant(db) && Waits(x.c.e, db.leaves, db.mempool, pk)
    requires AllPending(db.mempool, dropped) && Ascending(dropped) && AllPending(db.mempool, cs)
    requires Apart(cs, dropped)
    requires mid == ApplyAll(db, Rejects(dropped))
    ensures AllWait(x.c.e, db, Rejects(dropped), pk) && AllPending(mid.mempool, cs)
    ensures mid == db.(mempool := mid.mempool) && Vacant(mid) && DbInv(x, mid)
            && Waits(x.c.e, mid.leaves, mid.mempool, pk)
  {
    EvictionsDone(x, db, mid, dropped, cs);
    RejectsWait(x, db, mid, dropped, pk);
  }

  lemma {:induction false} MidFair(x: Ctx, mid: Db, cs: seq<Candidate>, pk: int)
    requires TxsOk(x, mid.mempool) && FairRows(x, mid.leaves, cs, pk) && AllPending(mid.mempool, cs)
    requires Waits(x.c.e, mid.leaves, mid.mempool, pk)
    ensures Clean(mid.mempool, pk) ==> FairFor(mid.mempool, cs, pk)
  {}

  lemma {:induction false} PlanAfter(x: Ctx, db: Db, xs: seq<Write>, mid: Db, n: nat, seqs: seq<nat>,
                                     deps: seq<PendingDeposit>, cs: seq<Candidate>, wit: BatchWitness, pk: int)
    requires DbInv(x, mid) && n == |x.hist| == mid.confirmed + 1 && Vacant(mid) && |seqs| == |deps|
    requires AllPending(mid.mempool, cs) && Ascending(cs) && FairRows(x, mid.leaves, cs, pk)
    requires mid == ApplyAll(db, xs) && AllWait(x.c.e, db, xs, pk) && Waits(x.c.e, mid.leaves, mid.mempool, pk)
    ensures AllWait(x.c.e, db, xs + PlanWrites(n, seqs, deps, cs, wit), pk)
  {
    MidFair(x, mid, cs, pk);
    PlanWaits(x, mid, n, seqs, deps, cs, wit, pk);
    WaitAppend(x.c.e, db, xs, mid, PlanWrites(n, seqs, deps, cs, wit), pk);
  }

  lemma {:induction false} ReadyWaits(x: Ctx, db: Db, n: nat, seqs: seq<nat>, deps: seq<PendingDeposit>,
                                      dropped: seq<Candidate>, cs: seq<Candidate>, wit: BatchWitness, pk: int)
    requires DbInv(x, db) && n == |x.hist| == db.confirmed + 1 && Vacant(db) && |seqs| == |deps|
    requires FairRows(x, db.leaves, cs, pk) && AllPending(db.mempool, dropped) && Ascending(dropped)
    requires AllPending(db.mempool, cs) && Ascending(cs) && Apart(cs, dropped)
    requires Waits(x.c.e, db.leaves, db.mempool, pk)
    ensures AllWait(x.c.e, db, Rejects(dropped) + PlanWrites(n, seqs, deps, cs, wit), pk)
  {
    var mid := ApplyAll(db, Rejects(dropped));
    MidWaits(x, db, mid, dropped, cs, pk);
    PlanAfter(x, db, Rejects(dropped), mid, n, seqs, deps, cs, wit, pk);
  }

  /** A build keeps the rows of every sender it does not evict orderly. */
  lemma {:induction false} BuildWaits(x: Ctx, db: Db, t: Table, pk: int)
    requires DbInv(x, db) && t == db.leaves && db.confirmed + 1 !in db.batches
    requires PendingDeposits(db, 0, x.c.dSlots) != [] || SelectedTxs(x.c, db) != []
    requires Waits(x.c.e, db.leaves, db.mempool, pk)
    ensures AllWait(x.c.e, db, BuildNow(x.c, db, t).0, pk)
  {
    var n, head := db.confirmed + 1, x.hist[db.confirmed].head;
    var m := Fewer(x.c.dSlots, db.depTop - head);
    var seqs, deps := Range(head, m), BatchDeposits(x, n, m);
    var r := Evicted(x.c, db, t, deps);
    BuildDepositsAre(x, db, head, m);
    BuildNowIs(x.c, db, t, n, seqs, deps);
    EvictionFits(x.c, db, t, deps);
    SettleIs(n, seqs, deps, r);
    if r.attempt.Ready? {
      SurvivorsFair(x, db, n, m, deps, r, pk);
      ReadyWaits(x, db, n, seqs, deps, r.dropped, r.attempt.rows, r.attempt.wit, pk);
    } else {
      RejectsHarmless(r.dropped);
      HarmlessWait(x.c.e, db, Rejects(r.dropped), pk);
    }
  }

  lemma {:induction false} TickWaits(x: Ctx, db: Db, t: Table, waited: bool, pk: int)
    requires DbInv(x, db) && t == db.leaves && Waits(x.c.e, db.leaves, db.mempool, pk)
    ensures AllWait(x.c.e, db, TryBuild(x.c, db, t, true, waited).0, pk)
  {
    TryBuildIs(x.c, db, t, waited);
    InflightIs(x, db);
    if TryBuild(x.c, db, t, true, waited) != ([], Ok(None)) { BuildWaits(x, db, t, pk); }
  }

  lemma {:induction false} SubmitWaits(c: Config, db: Db, w: WireTx, pk: int)
    requires c.e.p > 0 && c.e.order > 0
    ensures AllWait(c.e, db, SubmitTx(c, db, db.leaves, w).0, pk)
  {
    SubmitWrites(c, db, db.leaves, w);
    var ws := SubmitTx(c, db, db.leaves, w).0;
    if ws != [] { assert ws[1..] == []; }
  }
}
