/** What holds of the durable tables between any two statements, measured
    against the chain's history. */
module Lifecycle {
  import opened Field
  import opened Hashing
  import opened Merkle
  import opened Ledger
  import opened Circuit
  import opened Builder
  import opened Completeness
  import opened Contract
  import opened Custody
  import opened Encoding
  import opened Database

  /** Ledger and deposit head after a batch. */
  datatype Epoch = Epoch(table: Table, head: nat)

  /** The chain as the tables see it: every deposit ever enqueued, the state after
      each landed batch (hist[0] is genesis), and the number of L1 addresses. */
  datatype Ctx = Ctx(c: Config, log: seq<PendingDeposit>, hist: seq<Epoch>, holders: nat)

  function Last(x: Ctx): Epoch
    requires |x.hist| >= 1
  {
    x.hist[|x.hist| - 1]
  }

  /** Deployment constants: 32-byte words, at least one slot of each kind, and no
      nonce total near the modulus. */
  ghost predicate Deployed(c: Config) {
    ValidConfig(c) && c.e.p < Pow256(WORD) && c.dSlots >= 1 && c.nSlots >= 1
    && Pow2(c.e.depth) * U64 + c.nSlots < c.e.p
  }

  predicate Past(x: Ctx, k: nat) {
    k < |x.hist|
  }

  /** Every epoch's ledger is well formed and strictly after the one before it. */
  ghost predicate TablesOk(x: Ctx) {
    forall k: nat {:trigger Past(x, k)} :: Past(x, k) ==>
      WellFormed(x.c.e, x.hist[k].table) && (k > 0 ==> Before(x.c.e, x.hist[k - 1].table, x.hist[k].table))
  }

  predicate HeadAtMost(x: Ctx, j: nat, k: nat)
    requires j <= k < |x.hist|
  {
    x.hist[j].head <= x.hist[k].head
  }

  ghost predicate HeadsOk(x: Ctx) {
    forall j: nat, k: nat {:trigger HeadAtMost(x, j, k)} :: j <= k < |x.hist| ==> HeadAtMost(x, j, k)
  }

  ghost predicate CtxOk(x: Ctx) {
    && Deployed(x.c) && TablesOk(x) && |x.hist| >= 1
    && (forall k :: 0 <= k < |x.hist| ==> x.hist[k].head <= |x.log|)
    && HeadsOk(x)
    && (forall i :: 0 <= i < |x.log| ==> EntryOk(x.c, x.log[i]))
  }

  // ---------- batches ----------

  function Range(head: nat, n: nat): (r: seq<nat>)
    ensures |r| == n && forall i :: 0 <= i < n ==> r[i] == head + i
  {
    seq(n, i requires i >= 0 => head + i)
  }

  predicate InOrder(ids: seq<nat>, n: nat) {
    (forall k :: 0 <= k < |ids| ==> ids[k] < n) && (forall j, k :: 0 <= j < k < |ids| ==> ids[j] < ids[k])
  }

  /** The build of a batch from its inputs, as `confirm_batch` replays it. */
  function Rebuild(c: Config, t: Table, deps: seq<PendingDeposit>, txs: seq<StoredTx>): Step<BatchWitness>
    requires c.e.order > 0
  {
    Build(c.e, t, c.dSlots, c.nSlots, Requests(deps), AllSigned(c.e, txs))
  }

  predicate Sent(s: BatchStatus) {
    s.Submitting? || s.Submitted? || s.Confirmed?
  }

  /** Row b records the build s of these inputs; its proof, once there, has the
      verifier's length and is otherwise anything the prover returned; it carries
      something, with payouts within the limit. */
  ghost predicate Records(s: Step<BatchWitness>, head: nat, deps: seq<PendingDeposit>, ids: seq<nat>,
                          txs: seq<StoredTx>, b: BatchRow)
    requires |ids| == |txs|
  {
    && s.outcome.Built?
    && var w := s.outcome.value;
    && b.blob == BlobOf(Range(head, |deps|), deps, ids, txs)
    && b.oldRoot == w.pub.oldRoot && b.newRoot == w.pub.newRoot && b.daCommitment == w.pub.daCommitment
    && b.depositCount == |deps|
    && b.envelope == EnvelopeOf(w.pub, |deps|, txs).(proof := if b.proof.Some? then b.proof.value else NO_PROOF)
    && (b.proof.Some? ==> b.proof.value.bytes == PROOF_BYTES)
    && (b.status.Proving? <==> b.proof.None?)
    && (deps != [] || txs != [])
    && |WithdrawalsOf(txs)| <= MAX_WITHDRAWALS
  }

  predicate Located(x: Ctx, rows: seq<MempoolRow>, k: nat, count: nat, ids: seq<nat>) {
    1 <= k <= |x.hist| && x.hist[k - 1].head + count <= |x.log| && InOrder(ids, |rows|)
  }

  /** The deposits of batch k: the next `count` of the queue. */
  function BatchDeposits(x: Ctx, k: nat, count: nat): seq<PendingDeposit>
    requires 1 <= k <= |x.hist| && x.hist[k - 1].head + count <= |x.log|
  {
    x.log[x.hist[k - 1].head..x.hist[k - 1].head + count]
  }

  /** The replay of batch k. */
  function Replay(x: Ctx, rows: seq<MempoolRow>, k: nat, count: nat, ids: seq<nat>): Step<BatchWitness>
    requires x.c.e.order > 0 && Located(x, rows, k, count, ids)
  {
    Rebuild(x.c, x.hist[k - 1].table, BatchDeposits(x, k, count), TxsAt(rows, ids))
  }

  ghost predicate BatchAt(x: Ctx, rows: seq<MempoolRow>, k: nat, count: nat, ids: seq<nat>, b: BatchRow)
    requires x.c.e.order > 0
  {
    && Located(x, rows, k, count, ids)
    && Records(Replay(x, rows, k, count, ids), x.hist[k - 1].head, BatchDeposits(x, k, count), ids, TxsAt(rows, ids), b)
    && (k < |x.hist| ==>
          Sent(b.status) && x.hist[k] == Epoch(Replay(x, rows, k, count, ids).table, x.hist[k - 1].head + count))
  }

  /** Batch k replays on the ledger before it; once landed, the next epoch is what
      the replay leaves. */
  ghost predicate BatchOk(x: Ctx, rows: seq<MempoolRow>, k: nat, b: BatchRow)
    requires x.c.e.order > 0
  {
    BatchAt(x, rows, k, b.depositCount, BlobIds(b.blob), b)
  }

  type Batches = map<nat, BatchRow>

  predicate Stored(batches: Batches, k: nat) {
    k in batches
  }

  ghost predicate BatchRows(x: Ctx, batches: Batches, rows: seq<MempoolRow>)
    requires x.c.e.order > 0
  {
    forall k: nat {:trigger Stored(batches, k)} :: Stored(batches, k) ==>
      BatchOk(x, rows, k, batches[k])
  }

  /** Confirmed batches are 1..confirmed; at most one more is in flight, and it is
      there if the chain is ahead. */
  ghost predicate BatchNumbers(x: Ctx, batches: Batches, top: nat, confirmed: nat) {
    && confirmed < |x.hist| <= confirmed + 2
    && (forall k :: k in batches ==> 1 <= k <= confirmed + 1 && k <= top)
    && (forall k :: k in batches ==> (batches[k].status.Confirmed? <==> k <= confirmed))
    && (forall k :: 1 <= k <= confirmed ==> k in batches)
    && (|x.hist| == confirmed + 2 ==> confirmed + 1 in batches)
  }

  // ---------- mempool rows ----------

  /** A key that signed the row and is not the padding key. */
  predicate Authentic(e: Env, tx: StoredTx)
    requires e.order > 0
  {
    tx.fromPkX != PAD_PK_X && SignatureOk(e, RowToSigned(e, tx))
  }

  ghost predicate TxOk(x: Ctx, tx: StoredTx) {
    StoredTyped(x.c.e, tx) && tx.amount > 0 && x.c.e.order > 0 && Authentic(x.c.e, tx)
    && (tx.isWithdraw ==> tx.dest < x.holders && tx.toField == AddressToField(x.c, tx.dest))
  }

  /** The unique constraint on (sender, nonce). */
  predicate SameNonce(rows: seq<MempoolRow>, i: int, j: int)
    requires 0 <= i < j < |rows|
  {
    rows[i].tx.fromPkX == rows[j].tx.fromPkX && rows[i].tx.nonce == rows[j].tx.nonce
  }

  ghost predicate TxsOk(x: Ctx, rows: seq<MempoolRow>) {
    && (forall i :: 0 <= i < |rows| ==> TxOk(x, rows[i].tx))
    && (forall i, j {:trigger SameNonce(rows, i, j)} :: 0 <= i < j < |rows| ==> !SameNonce(rows, i, j))
  }

  predicate Lists(batches: Batches, k: nat, id: nat) {
    k in batches && id in BlobIds(batches[k].blob)
  }

  /** A row's tags point at the batch whose blob lists it. */
  predicate TxPhase(batches: Batches, confirmed: nat, id: nat, row: MempoolRow) {
    match row.status
    case TxPending => row.batchNum == None
    case TxRejected => row.batchNum == None
    case TxBatching => row.batchNum == Some(confirmed + 1) && Lists(batches, confirmed + 1, id)
    case TxIncluded => row.batchNum.Some? && row.batchNum.value <= confirmed && Lists(batches, row.batchNum.value, id)
  }

  /** A listed row carries its batch's tags; the batch in flight may not have taken
      all of its rows yet. */
  predicate TxTaken(confirmed: nat, rows: seq<MempoolRow>, k: nat, id: nat) {
    && id < |rows|
    && (k <= confirmed ==> rows[id].status.TxIncluded? && rows[id].batchNum == Some(k))
    && (k > confirmed ==> rows[id].status.TxPending? || rows[id].status.TxBatching?)
  }

  ghost predicate TxTagsOk(batches: Batches, confirmed: nat, rows: seq<MempoolRow>) {
    && (forall id: nat :: id < |rows| ==> TxPhase(batches, confirmed, id, rows[id]))
    && (forall k: nat, id: nat :: Lists(batches, k, id) ==> TxTaken(confirmed, rows, k, id))
  }

  // ---------- deposit rows ----------

  type Deposits = map<nat, DepositRow>

  /** Rows are a gap-free prefix of the chain's queue. */
  ghost predicate DepositsOk(x: Ctx, deposits: Deposits, top: nat) {
    && top <= |x.log|
    && (forall i: nat :: i in deposits <==> i < top)
    && (forall i :: i in deposits ==> deposits[i].dep == x.log[i])
  }

  function InflightCount(batches: Batches, confirmed: nat): nat {
    if confirmed + 1 in batches then batches[confirmed + 1].depositCount else 0
  }

  ghost predicate DepositPhase(x: Ctx, count: nat, confirmed: nat, i: nat, row: DepositRow)
    requires confirmed < |x.hist|
  {
    var head := x.hist[confirmed].head;
    match row.status
    case DepPending => row.batchNum == None && head <= i
    case DepBatching => row.batchNum == Some(confirmed + 1) && head <= i < head + count
    case DepConsumed =>
      row.batchNum.Some? && var k := row.batchNum.value;
      1 <= k <= confirmed && x.hist[k - 1].head <= i < x.hist[k].head
  }

  ghost predicate DepositTagsOk(x: Ctx, count: nat, confirmed: nat, deposits: Deposits, top: nat)
    requires confirmed < |x.hist|
  {
    && x.hist[confirmed].head + count <= top
    && (forall i :: i in deposits ==> DepositPhase(x, count, confirmed, i, deposits[i]))
  }

  // ---------- the invariant ----------

  /** Every input of the batch in flight has been taken. */
  ghost predicate TxsSettled(batches: Batches, n: nat, rows: seq<MempoolRow>) {
    forall id: nat :: Lists(batches, n, id) ==> id < |rows| && rows[id].status.TxBatching?
  }

  ghost predicate DepositsSettled(x: Ctx, count: nat, confirmed: nat, deposits: Deposits)
    requires confirmed < |x.hist|
  {
    var head := x.hist[confirmed].head;
    forall i :: i in deposits && head <= i < head + count ==> deposits[i].status.DepBatching?
  }

  ghost predicate Settled(x: Ctx, db: Db) {
    && db.confirmed < |x.hist|
    && TxsSettled(db.batches, db.confirmed + 1, db.mempool)
    && DepositsSettled(x, InflightCount(db.batches, db.confirmed), db.confirmed, db.deposits)
  }

  /** No batch is in flight. */
  predicate Vacant(db: Db) {
    db.confirmed + 1 !in db.batches
  }

  predicate Unproved(db: Db) {
    db.confirmed + 1 in db.batches && db.batches[db.confirmed + 1].status.Proving?
  }

  /** The part that does not look inside the blobs. */
  ghost predicate TagsInv(x: Ctx, db: Db) {
    && BatchNumbers(x, db.batches, db.batchTop, db.confirmed)
    && db.leaves == x.hist[db.confirmed].table
    && TxsOk(x, db.mempool)
    && TxTagsOk(db.batches, db.confirmed, db.mempool)
    && DepositsOk(x, db.deposits, db.depTop) && db.cursor <= db.depTop
    && DepositTagsOk(x, InflightCount(db.batches, db.confirmed), db.confirmed, db.deposits, db.depTop)
    && (Unproved(db) || Settled(x, db))
  }

  ghost predicate DbInv(x: Ctx, db: Db) {
    CtxOk(x) && BatchRows(x, db.batches, db.mempool) && TagsInv(x, db)
  }

  lemma {:induction false} InflightIs(x: Ctx, db: Db)
    requires BatchNumbers(x, db.batches, db.batchTop, db.confirmed)
    ensures Inflight(db) == if db.confirmed + 1 in db.batches then Some(db.confirmed + 1) else None
  {}

  /** No row is listed by two batches. */
  lemma {:induction false} ListedOnce(x: Ctx, db: Db, j: nat, k: nat, id: nat)
    requires TagsInv(x, db) && Lists(db.batches, j, id) && Lists(db.batches, k, id)
    ensures j == k
  {
    assert TxTaken(db.confirmed, db.mempool, j, id) && TxTaken(db.confirmed, db.mempool, k, id);
  }

  /** Rows whose envelope may be on its way stay, with that envelope and blob. */
  predicate SentKept(db: Db, next: Db) {
    forall k :: k in db.batches && Sent(db.batches[k].status) ==>
      && k in next.batches && Sent(next.batches[k].status)
      && next.batches[k].envelope == db.batches[k].envelope && next.batches[k].blob == db.batches[k].blob
  }

  // ---------- each write keeps the invariant ----------

  predicate RowPending(rows: seq<MempoolRow>, id: nat) {
    id < |rows| && rows[id].status.TxPending?
  }

  predicate SameTxs(rows: seq<MempoolRow>, next: seq<MempoolRow>) {
    |rows| <= |next| && forall i :: 0 <= i < |rows| ==> next[i].tx == rows[i].tx
  }

  ghost predicate Extends(x: Ctx, y: Ctx) {
    && y.c == x.c && y.holders == x.holders
    && |x.log| <= |y.log| && (forall i :: 0 <= i < |x.log| ==> y.log[i] == x.log[i])
    && |x.hist| <= |y.hist| && (forall k :: 0 <= k < |x.hist| ==> y.hist[k] == x.hist[k])
  }

  /** A batch's inputs are fixed once and for all: later deposits, epochs, rows and
      tags do not touch them. */
  lemma {:induction false} ReplayStays(x: Ctx, y: Ctx, rows: seq<MempoolRow>, next: seq<MempoolRow>, k: nat,
                                       count: nat, ids: seq<nat>)
    requires x.c.e.order > 0 && Extends(x, y) && SameTxs(rows, next) && Located(x, rows, k, count, ids)
    ensures Located(y, next, k, count, ids)
    ensures BatchDeposits(y, k, count) == BatchDeposits(x, k, count) && TxsAt(next, ids) == TxsAt(rows, ids)
    ensures Replay(y, next, k, count, ids) == Replay(x, rows, k, count, ids)
  {
    assert BatchDeposits(y, k, count) == BatchDeposits(x, k, count);
    assert TxsAt(next, ids) == TxsAt(rows, ids);
  }

  /** If batch k has landed by y but not by x, it left what its replay leaves. */
  ghost predicate NextFits(x: Ctx, y: Ctx, rows: seq<MempoolRow>, k: nat, count: nat, ids: seq<nat>, b: BatchRow)
    requires x.c.e.order > 0
  {
    |x.hist| == k < |y.hist| ==>
      Located(x, rows, k, count, ids) && Sent(b.status)
      && y.hist[k] == Epoch(Replay(x, rows, k, count, ids).table, x.hist[k - 1].head + count)
  }

  lemma {:induction false} BatchAtLater(x: Ctx, y: Ctx, rows: seq<MempoolRow>, next: seq<MempoolRow>, k: nat,
                                        count: nat, ids: seq<nat>, b: BatchRow)
    requires x.c.e.order > 0 && Extends(x, y) && SameTxs(rows, next)
    requires BatchAt(x, rows, k, count, ids, b) && NextFits(x, y, rows, k, count, ids, b)
    ensures BatchAt(y, next, k, count, ids, b)
  {
    ReplayStays(x, y, rows, next, k, count, ids);
  }

  lemma {:induction false} RowsLater(x: Ctx, y: Ctx, batches: Batches, rows: seq<MempoolRow>)
    requires x.c.e.order > 0 && Extends(x, y) && BatchRows(x, batches, rows)
    requires forall k {:trigger Stored(batches, k)} :: Stored(batches, k) ==>
               NextFits(x, y, rows, k, batches[k].depositCount, BlobIds(batches[k].blob), batches[k])
    ensures BatchRows(y, batches, rows)
  {
    forall k: nat | Stored(batches, k) ensures BatchOk(y, rows, k, batches[k]) {
      BatchAtLater(x, y, rows, rows, k, batches[k].depositCount, BlobIds(batches[k].blob), batches[k]);
    }
  }

  /** Batches do not depend on the tags of mempool rows, nor on later rows. */
  lemma {:induction false} BatchRowsStay(x: Ctx, batches: Batches, rows: seq<MempoolRow>, next: seq<MempoolRow>)
    requires x.c.e.order > 0 && BatchRows(x, batches, rows) && SameTxs(rows, next)
    ensures BatchRows(x, batches, next)
  {
    forall k: nat | Stored(batches, k) ensures BatchOk(x, next, k, batches[k]) {
      BatchAtLater(x, x, rows, next, k, batches[k].depositCount, BlobIds(batches[k].blob), batches[k]);
    }
  }

  lemma {:induction false} TxsOkStays(x: Ctx, rows: seq<MempoolRow>, next: seq<MempoolRow>)
    requires TxsOk(x, rows) && SameTxs(rows, next) && |next| == |rows|
    ensures TxsOk(x, next)
  {
    forall i, j | 0 <= i < j < |next| ensures !SameNonce(next, i, j) {
      assert !SameNonce(rows, i, j);
    }
  }

  lemma {:induction false} TxsOkAdds(x: Ctx, rows: seq<MempoolRow>, row: MempoolRow)
    requires TxsOk(x, rows) && TxOk(x, row.tx) && FindTx(rows, row.tx.fromPkX, row.tx.nonce, 0).None?
    ensures TxsOk(x, rows + [row])
  {
    forall i, j | 0 <= i < j < |rows + [row]| ensures !SameNonce(rows + [row], i, j) {
      if j < |rows| { assert !SameNonce(rows, i, j); }
    }
  }

  lemma {:induction false} AddTxTags(batches: Batches, confirmed: nat, rows: seq<MempoolRow>, row: MempoolRow)
    requires TxTagsOk(batches, confirmed, rows) && row.status.TxPending? && row.batchNum == None
    ensures TxTagsOk(batches, confirmed, rows + [row])
    ensures TxsSettled(batches, confirmed + 1, rows) ==> TxsSettled(batches, confirmed + 1, rows + [row])
  {
    forall k: nat, id: nat | Lists(batches, k, id) ensures TxTaken(confirmed, rows + [row], k, id) {
      assert TxTaken(confirmed, rows, k, id);
    }
  }

  lemma {:induction false} AddTxKeeps(x: Ctx, db: Db, tx: StoredTx)
    requires TagsInv(x, db) && TxOk(x, tx) && FindTx(db.mempool, tx.fromPkX, tx.nonce, 0).None?
    ensures TagsInv(x, Apply(db, AddTx(tx)))
  {
    AddTxTags(db.batches, db.confirmed, db.mempool, MempoolRow(tx, TxPending, None));
    TxsOkAdds(x, db.mempool, MempoolRow(tx, TxPending, None));
  }

  lemma {:induction false} RejectKeeps(x: Ctx, db: Db, id: nat)
    requires TagsInv(x, db) && id < |db.mempool| && db.mempool[id].status.TxPending? && db.confirmed + 1 !in db.batches
    ensures TagsInv(x, Apply(db, RejectTx(id)))
  {
    var next := Apply(db, RejectTx(id));
    TxsOkStays(x, db.mempool, next.mempool);
    forall k: nat, i: nat | Lists(db.batches, k, i) ensures TxTaken(db.confirmed, next.mempool, k, i) {
      assert TxTaken(db.confirmed, db.mempool, k, i);
    }
  }

  lemma {:induction false} AddDepositTags(x: Ctx, count: nat, confirmed: nat, deposits: Deposits, top: nat, i: nat,
                                          dep: PendingDeposit, next: Deposits, nextTop: nat)
    requires confirmed < |x.hist| && DepositsOk(x, deposits, top) && DepositTagsOk(x, count, confirmed, deposits, top)
    requires i <= top && i < |x.log| && dep == x.log[i]
    requires nextTop == (if i in deposits then top else top + 1)
    requires next == (if i in deposits then deposits else deposits[i := DepositRow(dep, DepPending, None)])
    ensures DepositsOk(x, next, nextTop) && DepositTagsOk(x, count, confirmed, next, nextTop)
    ensures DepositsSettled(x, count, confirmed, deposits) ==> DepositsSettled(x, count, confirmed, next)
  {}

  lemma {:induction false} AddDepositKeeps(x: Ctx, db: Db, i: nat, dep: PendingDeposit)
    requires TagsInv(x, db) && i <= db.depTop && i < |x.log| && dep == x.log[i]
    ensures TagsInv(x, Apply(db, AddDeposit(i, dep)))
  {
    var next := Apply(db, AddDeposit(i, dep));
    AddDepositTags(x, InflightCount(db.batches, db.confirmed), db.confirmed, db.deposits, db.depTop, i, dep,
                   next.deposits, next.depTop);
  }

  lemma {:induction false} SetCursorKeeps(x: Ctx, db: Db, cursor: nat)
    requires TagsInv(x, db) && cursor <= db.depTop
    ensures TagsInv(x, Apply(db, SetCursor(cursor)))
  {}

  lemma {:induction false} AddBatchKeeps(x: Ctx, db: Db, b: BatchRow)
    requires TagsInv(x, db) && db.confirmed + 1 !in db.batches && b.status.Proving?
    requires |x.hist| == db.confirmed + 1 && x.hist[db.confirmed].head + b.depositCount <= db.depTop
    requires forall id :: id in BlobIds(b.blob) ==> RowPending(db.mempool, id)
    ensures TagsInv(x, Apply(db, AddBatch(db.confirmed + 1, b)))
  {
    AddBatchTags(db.batches, db.confirmed, db.mempool, b);
    forall i | i in db.deposits ensures DepositPhase(x, b.depositCount, db.confirmed, i, db.deposits[i]) {
      assert DepositPhase(x, 0, db.confirmed, i, db.deposits[i]);
    }
  }

  lemma {:induction false} AddBatchTags(batches: Batches, confirmed: nat, rows: seq<MempoolRow>, b: BatchRow)
    requires TxTagsOk(batches, confirmed, rows) && confirmed + 1 !in batches
    requires forall id :: id in BlobIds(b.blob) ==> RowPending(rows, id)
    ensures TxTagsOk(batches[confirmed + 1 := b], confirmed, rows)
  {
    var next := batches[confirmed + 1 := b];
    forall k: nat, id: nat | Lists(next, k, id) ensures TxTaken(confirmed, rows, k, id) {
      if k != confirmed + 1 { assert Lists(batches, k, id); }
    }
    forall id: nat | id < |rows| ensures TxPhase(next, confirmed, id, rows[id]) {
      assert TxPhase(batches, confirmed, id, rows[id]);
    }
  }

  lemma {:induction false} TakeDepositTags(x: Ctx, count: nat, confirmed: nat, deposits: Deposits, top: nat, i: nat,
                                           next: Deposits)
    requires confirmed < |x.hist| && DepositsOk(x, deposits, top) && DepositTagsOk(x, count, confirmed, deposits, top)
    requires x.hist[confirmed].head <= i < x.hist[confirmed].head + count && next.Keys == deposits.Keys
    requires forall k :: k in deposits ==>
               next[k] == if k == i then DepositRow(deposits[k].dep, DepBatching, Some(confirmed + 1)) else deposits[k]
    ensures DepositsOk(x, next, top) && DepositTagsOk(x, count, confirmed, next, top)
  {
    forall k | k in next ensures next[k].dep == x.log[k] && DepositPhase(x, count, confirmed, k, next[k]) {
      assert DepositPhase(x, count, confirmed, k, deposits[k]);
    }
    forall k: nat ensures k in next <==> k < top {
      assert k in next.Keys <==> k in deposits.Keys;
    }
  }

  lemma {:induction false} TakeDepositDoes(db: Db, i: nat, n: nat, next: Db)
    requires next == Apply(db, TakeDeposit(i, n))
    ensures next == db.(deposits := next.deposits) && next.deposits.Keys == db.deposits.Keys
    ensures forall k :: k in db.deposits ==>
              next.deposits[k] == if k == i then DepositRow(db.deposits[k].dep, DepBatching, Some(n))
                else db.deposits[k]
  {
    assert i in [i];
  }

  lemma {:induction false} TakeDepositKeeps(x: Ctx, db: Db, i: nat)
    requires TagsInv(x, db) && Unproved(db)
    requires var head := x.hist[db.confirmed].head; head <= i < head + InflightCount(db.batches, db.confirmed)
    ensures TagsInv(x, Apply(db, TakeDeposit(i, db.confirmed + 1)))
  {
    var next := Apply(db, TakeDeposit(i, db.confirmed + 1));
    TakeDepositDoes(db, i, db.confirmed + 1, next);
    TakeDepositTags(x, InflightCount(db.batches, db.confirmed), db.confirmed, db.deposits, db.depTop, i, next.deposits);
  }

  lemma {:induction false} TakeTxKeeps(x: Ctx, db: Db, id: nat)
    requires TagsInv(x, db) && Unproved(db) && Lists(db.batches, db.confirmed + 1, id)
    ensures TagsInv(x, Apply(db, TakeTx(id, db.confirmed + 1)))
  {
    var next := Apply(db, TakeTx(id, db.confirmed + 1));
    TxsOkStays(x, db.mempool, next.mempool);
    assert TxTaken(db.confirmed, db.mempool, db.confirmed + 1, id);
    forall k: nat, i: nat | Lists(db.batches, k, i) ensures TxTaken(db.confirmed, next.mempool, k, i) {
      assert TxTaken(db.confirmed, db.mempool, k, i);
      if i == id { ListedOnce(x, db, k, db.confirmed + 1, id); }
    }
  }

  // ---------- the batch row moves on ----------

  /** A batch row whose blob and deposit count stay. */
  lemma {:induction false} RowMoves(x: Ctx, db: Db, b: BatchRow)
    requires TagsInv(x, db) && db.confirmed + 1 in db.batches && Settled(x, db) && !b.status.Confirmed?
    requires b.blob == db.batches[db.confirmed + 1].blob && b.depositCount == db.batches[db.confirmed + 1].depositCount
    ensures TagsInv(x, db.(batches := db.batches[db.confirmed + 1 := b]))
    ensures Settled(x, db.(batches := db.batches[db.confirmed + 1 := b]))
  {
    var next := db.batches[db.confirmed + 1 := b];
    assert forall k: nat, id: nat :: Lists(next, k, id) <==> Lists(db.batches, k, id);
  }

  // ---------- confirmation and requeueing ----------

  function Confirmed(batches: Batches, n: nat): Batches
    requires n in batches
  {
    batches[n := batches[n].(status := BatchStatus.Confirmed)]
  }

  lemma {:induction false} FinishNumbers(x: Ctx, batches: Batches, top: nat, confirmed: nat)
    requires BatchNumbers(x, batches, top, confirmed) && |x.hist| == confirmed + 2
    ensures BatchNumbers(x, Confirmed(batches, confirmed + 1), top, confirmed + 1)
  {}

  lemma {:induction false} FinishTxs(batches: Batches, confirmed: nat, rows: seq<MempoolRow>, next: seq<MempoolRow>)
    requires TxTagsOk(batches, confirmed, rows) && confirmed + 1 in batches && confirmed + 2 !in batches
    requires |next| == |rows|
    requires forall i :: 0 <= i < |rows| ==>
               next[i] == if i in BlobIds(batches[confirmed + 1].blob)
                 then MempoolRow(rows[i].tx, TxIncluded, Some(confirmed + 1)) else rows[i]
    requires TxsSettled(batches, confirmed + 1, rows)
    requires forall k :: k in batches ==> k <= confirmed + 1
    ensures TxTagsOk(Confirmed(batches, confirmed + 1), confirmed + 1, next)
  {
    var n := confirmed + 1;
    var b2 := Confirmed(batches, n);
    assert forall k: nat, id: nat :: Lists(b2, k, id) <==> Lists(batches, k, id);
    forall k: nat, id: nat | Lists(b2, k, id) ensures TxTaken(n, next, k, id) {
      assert TxTaken(confirmed, rows, k, id);
      if id in BlobIds(batches[n].blob) { assert TxTaken(confirmed, rows, n, id); }
    }
    forall id: nat | id < |next| ensures TxPhase(b2, n, id, next[id]) {
      assert TxPhase(batches, confirmed, id, rows[id]);
    }
  }

  lemma {:induction false} FinishDeposits(x: Ctx, count: nat, confirmed: nat, deposits: Deposits, top: nat,
                                          next: Deposits)
    requires confirmed + 1 < |x.hist| && DepositTagsOk(x, count, confirmed, deposits, top)
             && DepositsSettled(x, count, confirmed, deposits)
    requires x.hist[confirmed + 1].head == x.hist[confirmed].head + count
    requires next.Keys == deposits.Keys
    requires forall i :: i in deposits ==>
               next[i] == if i in Range(x.hist[confirmed].head, count)
                 then DepositRow(deposits[i].dep, DepConsumed, Some(confirmed + 1)) else deposits[i]
    ensures DepositTagsOk(x, 0, confirmed + 1, next, top)
  {
    var head := x.hist[confirmed].head;
    forall i | i in next ensures DepositPhase(x, 0, confirmed + 1, i, next[i]) {
      assert DepositPhase(x, count, confirmed, i, deposits[i]);
      if head <= i < head + count { assert Range(head, count)[i - head] == i; }
    }
  }

  /** What the confirming transaction writes. */
  predicate Finished(db: Db, next: Db, leaves: Table, seqs: seq<nat>)
    requires db.confirmed + 1 in db.batches
  {
    var n := db.confirmed + 1;
    && next.leaves == leaves && next.confirmed == n && next.cursor == db.cursor
    && next.depTop == db.depTop && next.batchTop == db.batchTop && next.batches == Confirmed(db.batches, n)
    && |next.mempool| == |db.mempool|
    && (forall i :: 0 <= i < |db.mempool| ==>
          next.mempool[i] == if i in BlobIds(db.batches[n].blob) then MempoolRow(db.mempool[i].tx, TxIncluded, Some(n))
            else db.mempool[i])
    && next.deposits.Keys == db.deposits.Keys
    && (forall i :: i in db.deposits ==>
          next.deposits[i] == if i in seqs then DepositRow(db.deposits[i].dep, DepConsumed, Some(n))
            else db.deposits[i])
  }

  lemma {:induction false} FinishDoes(db: Db, leaves: Table, seqs: seq<nat>)
    requires db.confirmed + 1 in db.batches && db.leaves + leaves == leaves
    ensures Finished(db, Apply(db, Finish(db.confirmed + 1, leaves, seqs, BlobIds(db.batches[db.confirmed + 1].blob))),
                     leaves, seqs)
  {}

  lemma {:induction false} FinishKeeps(x: Ctx, db: Db, next: Db, leaves: Table, seqs: seq<nat>)
    requires TagsInv(x, db) && Settled(x, db)
    requires var n := db.confirmed + 1;
             && n in db.batches && |x.hist| == n + 1 && leaves == x.hist[n].table
             && x.hist[n].head == x.hist[n - 1].head + db.batches[n].depositCount
             && seqs == Range(x.hist[n - 1].head, db.batches[n].depositCount)
    requires Finished(db, next, leaves, seqs)
    ensures TagsInv(x, next)
  {
    var n := db.confirmed + 1;
    TxsOkStays(x, db.mempool, next.mempool);
    FinishNumbers(x, db.batches, db.batchTop, db.confirmed);
    FinishTxs(db.batches, db.confirmed, db.mempool, next.mempool);
    FinishDeposits(x, db.batches[n].depositCount, db.confirmed, db.deposits, db.depTop, next.deposits);
  }

  lemma {:induction false} RequeueTxs(batches: Batches, confirmed: nat, rows: seq<MempoolRow>, next: seq<MempoolRow>)
    requires TxTagsOk(batches, confirmed, rows) && confirmed + 1 in batches
    requires |next| == |rows| && forall i :: 0 <= i < |rows| ==> next[i] == FreeTx(rows[i], confirmed + 1)
    requires forall k :: k in batches ==> k <= confirmed + 1
    ensures TxTagsOk(batches - {confirmed + 1}, confirmed, next)
  {
    var b2 := batches - {confirmed + 1};
    forall k: nat, id: nat | Lists(b2, k, id) ensures TxTaken(confirmed, next, k, id) {
      assert TxTaken(confirmed, rows, k, id);
    }
    forall id: nat | id < |next| ensures TxPhase(b2, confirmed, id, next[id]) {
      assert TxPhase(batches, confirmed, id, rows[id]);
    }
  }

  lemma {:induction false} RequeueDeposits(x: Ctx, count: nat, confirmed: nat, deposits: Deposits, top: nat,
                                           next: Deposits)
    requires confirmed < |x.hist| && DepositsOk(x, deposits, top) && DepositTagsOk(x, count, confirmed, deposits, top)
    requires next.Keys == deposits.Keys
    requires forall i :: i in deposits ==> next[i] == FreeDeposit(deposits[i], confirmed + 1)
    ensures DepositsOk(x, next, top) && DepositTagsOk(x, 0, confirmed, next, top)
  {
    forall i | i in next ensures next[i].dep == x.log[i] && DepositPhase(x, 0, confirmed, i, next[i]) {
      assert DepositPhase(x, count, confirmed, i, deposits[i]);
    }
    forall i: nat ensures i in next <==> i < top {
      assert i in next.Keys <==> i in deposits.Keys;
    }
  }

  lemma {:induction false} RequeueKeeps(x: Ctx, db: Db)
    requires TagsInv(x, db) && db.confirmed + 1 in db.batches && |x.hist| == db.confirmed + 1
    ensures TagsInv(x, Apply(db, Requeue(db.confirmed + 1)))
  {
    var next := Apply(db, Requeue(db.confirmed + 1));
    RequeueTxs(db.batches, db.confirmed, db.mempool, next.mempool);
    RequeueDeposits(x, InflightCount(db.batches, db.confirmed), db.confirmed, db.deposits, db.depTop, next.deposits);
    RequeueRest(x, db, next);
  }

  lemma {:induction false} RequeueRest(x: Ctx, db: Db, next: Db)
    requires TagsInv(x, db) && db.confirmed + 1 in db.batches && |x.hist| == db.confirmed + 1
    requires next.batches == db.batches - {db.confirmed + 1} && SameTxs(db.mempool, next.mempool)
             && |next.mempool| == |db.mempool|
    requires next == db.(mempool := next.mempool, deposits := next.deposits, batches := next.batches)
    requires TxTagsOk(next.batches, db.confirmed, next.mempool)
    requires DepositsOk(x, next.deposits, db.depTop) && DepositTagsOk(x, 0, db.confirmed, next.deposits, db.depTop)
    ensures TagsInv(x, next)
  {
    TxsOkStays(x, db.mempool, next.mempool);
  }

  // ---------- any write ----------

  ghost predicate AddBatchOk(x: Ctx, db: Db, b: BatchRow)
    requires db.confirmed < |x.hist|
  {
    && db.confirmed + 1 !in db.batches && |x.hist| == db.confirmed + 1 && b.status.Proving?
    && x.hist[db.confirmed].head + b.depositCount <= db.depTop
    && (forall id :: id in BlobIds(b.blob) ==> RowPending(db.mempool, id))
  }

  ghost predicate FinishOk(x: Ctx, db: Db, leaves: Table, seqs: seq<nat>, ids: seq<nat>)
    requires db.confirmed < |x.hist|
  {
    var n := db.confirmed + 1;
    && n in db.batches && |x.hist| == n + 1 && leaves == x.hist[n].table && db.leaves + leaves == leaves
    && seqs == Range(x.hist[db.confirmed].head, db.batches[n].depositCount) && ids == BlobIds(db.batches[n].blob)
  }

  predicate TakeDepositOk(x: Ctx, db: Db, i: nat)
    requires db.confirmed < |x.hist|
  {
    Unproved(db) && x.hist[db.confirmed].head <= i < x.hist[db.confirmed].head + InflightCount(db.batches, db.confirmed)
  }

  /** When a statement may be executed: what it asks of the tags. */
  ghost predicate TagsAllow(x: Ctx, db: Db, w: Write)
    requires db.confirmed < |x.hist|
  {
    match w
    case AddTx(tx) => TxOk(x, tx) && FindTx(db.mempool, tx.fromPkX, tx.nonce, 0).None?
    case RejectTx(id) => RowPending(db.mempool, id) && db.confirmed + 1 !in db.batches
    case AddDeposit(i, dep) => i <= db.depTop && i < |x.log| && dep == x.log[i]
    case SetCursor(cursor) => cursor <= db.depTop
    case AddBatch(num, b) => num == db.confirmed + 1 && AddBatchOk(x, db, b)
    case TakeDeposit(i, num) => num == db.confirmed + 1 && TakeDepositOk(x, db, i)
    case TakeTx(id, num) => num == db.confirmed + 1 && Unproved(db) && Lists(db.batches, num, id)
    case SetProof(num, _) => num == db.confirmed + 1 && Unproved(db) && Settled(x, db)
    case SetStatus(num, status) =>
      num == db.confirmed + 1 && num in db.batches && !Unproved(db) && (status.Submitting? || status.Submitted?)
    case Finish(num, leaves, seqs, ids) => num == db.confirmed + 1 && FinishOk(x, db, leaves, seqs, ids)
    case Requeue(num) => num == db.confirmed + 1 && Unproved(db) && |x.hist| == num
  }

  /** And of the batch row: it replays, and its proof has the right length. */
  ghost predicate BlobAllows(x: Ctx, db: Db, w: Write)
    requires x.c.e.order > 0
  {
    match w
    case AddBatch(num, b) => BatchOk(x, db.mempool, num, b)
    case SetProof(_, proof) => proof.bytes == PROOF_BYTES
    case _ => true
  }

  ghost predicate WriteOk(x: Ctx, db: Db, w: Write)
    requires x.c.e.order > 0 && db.confirmed < |x.hist|
  {
    TagsAllow(x, db, w) && BlobAllows(x, db, w)
  }

  lemma {:induction false} RowReplaced(x: Ctx, batches: Batches, rows: seq<MempoolRow>, n: nat, b: BatchRow)
    requires x.c.e.order > 0 && BatchRows(x, batches, rows) && BatchOk(x, rows, n, b)
    ensures BatchRows(x, batches[n := b], rows)
  {
    var next := batches[n := b];
    forall k: nat | Stored(next, k) ensures BatchOk(x, rows, k, next[k]) {
      if k != n { assert Stored(batches, k); }
    }
  }

  lemma {:induction false} ProofRecorded(s: Step<BatchWitness>, head: nat, deps: seq<PendingDeposit>, ids: seq<nat>,
                                         txs: seq<StoredTx>, b: BatchRow, proof: Proof)
    requires |ids| == |txs| && Records(s, head, deps, ids, txs, b) && b.status.Proving?
    requires proof.bytes == PROOF_BYTES
    ensures Records(s, head, deps, ids, txs, WithProof(b, proof))
  {}

  lemma {:induction false} StatusRecorded(s: Step<BatchWitness>, head: nat, deps: seq<PendingDeposit>, ids: seq<nat>,
                                          txs: seq<StoredTx>, b: BatchRow, status: BatchStatus)
    requires |ids| == |txs| && Records(s, head, deps, ids, txs, b) && !b.status.Proving? && !status.Proving?
    ensures Records(s, head, deps, ids, txs, b.(status := status))
  {}

  lemma {:induction false} ProofFits(x: Ctx, rows: seq<MempoolRow>, n: nat, count: nat, ids: seq<nat>, b: BatchRow,
                                     proof: Proof)
    requires x.c.e.order > 0 && BatchAt(x, rows, n, count, ids, b) && b.status.Proving?
    requires proof.bytes == PROOF_BYTES
    ensures BatchAt(x, rows, n, count, ids, WithProof(b, proof))
  {
    ProofRecorded(Replay(x, rows, n, count, ids), x.hist[n - 1].head, BatchDeposits(x, n, count), ids,
                  TxsAt(rows, ids), b, proof);
  }

  lemma {:induction false} StatusFits(x: Ctx, rows: seq<MempoolRow>, n: nat, count: nat, ids: seq<nat>, b: BatchRow,
                                      status: BatchStatus)
    requires x.c.e.order > 0 && BatchAt(x, rows, n, count, ids, b) && !b.status.Proving? && Sent(status)
    ensures BatchAt(x, rows, n, count, ids, b.(status := status))
  {
    StatusRecorded(Replay(x, rows, n, count, ids), x.hist[n - 1].head, BatchDeposits(x, n, count), ids,
                   TxsAt(rows, ids), b, status);
  }

  lemma {:induction false} InflightRow(x: Ctx, db: Db)
    requires x.c.e.order > 0 && BatchRows(x, db.batches, db.mempool) && db.confirmed + 1 in db.batches
    ensures BatchOk(x, db.mempool, db.confirmed + 1, db.batches[db.confirmed + 1])
  {
    assert Stored(db.batches, db.confirmed + 1);
  }

  lemma {:induction false} RowsAfterProof(x: Ctx, batches: Batches, rows: seq<MempoolRow>, n: nat, proof: Proof)
    requires x.c.e.order > 0 && BatchRows(x, batches, rows) && n in batches && batches[n].status.Proving?
    requires proof.bytes == PROOF_BYTES
    ensures BatchRows(x, batches[n := WithProof(batches[n], proof)], rows)
  {
    assert Stored(batches, n);
    ProofFits(x, rows, n, batches[n].depositCount, BlobIds(batches[n].blob), batches[n], proof);
    RowReplaced(x, batches, rows, n, WithProof(batches[n], proof));
  }

  lemma {:induction false} RowsAfterStatus(x: Ctx, db: Db, status: BatchStatus)
    requires x.c.e.order > 0 && BatchRows(x, db.batches, db.mempool) && db.confirmed + 1 in db.batches
    requires !Unproved(db) && Sent(status)
    ensures BatchRows(x, db.batches[db.confirmed + 1 := db.batches[db.confirmed + 1].(status := status)], db.mempool)
  {
    var n := db.confirmed + 1;
    var b := db.batches[n];
    InflightRow(x, db);
    StatusFits(x, db.mempool, n, b.depositCount, BlobIds(b.blob), b, status);
    RowReplaced(x, db.batches, db.mempool, n, b.(status := status));
  }

  lemma {:induction false} RowsAfterRequeue(x: Ctx, batches: Batches, rows: seq<MempoolRow>, next: seq<MempoolRow>,
                                            n: nat)
    requires x.c.e.order > 0 && BatchRows(x, batches, rows) && SameTxs(rows, next)
    ensures BatchRows(x, batches - {n}, next)
  {
    BatchRowsStay(x, batches, rows, next);
    forall k: nat | Stored(batches - {n}, k) ensures BatchOk(x, next, k, (batches - {n})[k]) {
      assert Stored(batches, k);
    }
  }

  lemma {:induction false} AddBatchWriteRows(x: Ctx, db: Db, w: Write)
    requires x.c.e.order > 0 && db.confirmed < |x.hist| && BatchRows(x, db.batches, db.mempool)
    requires WriteOk(x, db, w) && w.AddBatch?
    ensures BatchRows(x, Apply(db, w).batches, Apply(db, w).mempool)
  {
    RowReplaced(x, db.batches, db.mempool, w.num, w.batch);
  }

  lemma {:induction false} SetProofWriteRows(x: Ctx, db: Db, w: Write)
    requires x.c.e.order > 0 && BatchRows(x, db.batches, db.mempool) && Unproved(db)
    requires w.SetProof? && w.num == db.confirmed + 1 && BlobAllows(x, db, w)
    ensures BatchRows(x, Apply(db, w).batches, Apply(db, w).mempool)
  {
    RowsAfterProof(x, db.batches, db.mempool, w.num, w.proof);
  }

  lemma {:induction false} SetStatusWriteRows(x: Ctx, db: Db, w: Write)
    requires x.c.e.order > 0 && db.confirmed < |x.hist| && BatchRows(x, db.batches, db.mempool)
    requires WriteOk(x, db, w) && w.SetStatus?
    ensures BatchRows(x, Apply(db, w).batches, Apply(db, w).mempool)
  {
    RowsAfterStatus(x, db, w.status);
  }

  lemma {:induction false} EndWriteRows(x: Ctx, db: Db, w: Write)
    requires x.c.e.order > 0 && db.confirmed < |x.hist| && BatchRows(x, db.batches, db.mempool)
    requires TagsAllow(x, db, w) && (w.Finish? || w.Requeue?) && (w.Finish? ==> !Unproved(db))
    ensures BatchRows(x, Apply(db, w).batches, Apply(db, w).mempool)
  {
    var next := Apply(db, w);
    match w
    case Finish(num, _, _, _) =>
      RowsAfterStatus(x, db, BatchStatus.Confirmed);
      BatchRowsStay(x, Confirmed(db.batches, num), db.mempool, next.mempool);
    case Requeue(num) => RowsAfterRequeue(x, db.batches, db.mempool, next.mempool, num);
    case _ =>
  }

  lemma {:induction false} WriteKeepsRows(x: Ctx, db: Db, w: Write)
    requires x.c.e.order > 0 && db.confirmed < |x.hist| && BatchRows(x, db.batches, db.mempool)
    requires WriteOk(x, db, w) && (w.Finish? ==> !Unproved(db))
    ensures BatchRows(x, Apply(db, w).batches, Apply(db, w).mempool)
  {
    match w
    case AddBatch(_, _) => AddBatchWriteRows(x, db, w);
    case SetProof(_, _) => SetProofWriteRows(x, db, w);
    case SetStatus(_, _) => SetStatusWriteRows(x, db, w);
    case Finish(_, _, _, _) => EndWriteRows(x, db, w);
    case Requeue(_) => EndWriteRows(x, db, w);
    case _ => BatchRowsStay(x, db.batches, db.mempool, Apply(db, w).mempool);
  }

  lemma {:induction false} LandedRow(x: Ctx, rows: seq<MempoolRow>, k: nat, count: nat, ids: seq<nat>, b: BatchRow)
    requires x.c.e.order > 0 && BatchAt(x, rows, k, count, ids, b) && k < |x.hist|
    ensures x.hist[k].head == x.hist[k - 1].head + count && Sent(b.status)
  {}

  lemma {:induction false} LandedHead(x: Ctx, db: Db)
    requires x.c.e.order > 0 && BatchRows(x, db.batches, db.mempool) && db.confirmed + 1 in db.batches
    requires |x.hist| == db.confirmed + 2
    ensures x.hist[db.confirmed + 1].head == x.hist[db.confirmed].head + db.batches[db.confirmed + 1].depositCount
    ensures !Unproved(db)
  {
    var n := db.confirmed + 1;
    InflightRow(x, db);
    LandedRow(x, db.mempool, n, db.batches[n].depositCount, BlobIds(db.batches[n].blob), db.batches[n]);
  }

  lemma {:induction false} AddTxTagsKeep(x: Ctx, db: Db, w: Write)
    requires TagsInv(x, db) && w.AddTx? && TagsAllow(x, db, w)
    ensures TagsInv(x, Apply(db, w))
  {
    AddTxKeeps(x, db, w.tx);
  }

  lemma {:induction false} RejectTagsKeep(x: Ctx, db: Db, w: Write)
    requires TagsInv(x, db) && w.RejectTx? && TagsAllow(x, db, w)
    ensures TagsInv(x, Apply(db, w))
  {
    RejectKeeps(x, db, w.id);
  }

  lemma {:induction false} AddDepositTagsKeep(x: Ctx, db: Db, w: Write)
    requires TagsInv(x, db) && w.AddDeposit? && TagsAllow(x, db, w)
    ensures TagsInv(x, Apply(db, w))
  {
    AddDepositKeeps(x, db, w.seqNo, w.dep);
  }

  lemma {:induction false} SetCursorTagsKeep(x: Ctx, db: Db, w: Write)
    requires TagsInv(x, db) && w.SetCursor? && TagsAllow(x, db, w)
    ensures TagsInv(x, Apply(db, w))
  {
    SetCursorKeeps(x, db, w.cursor);
  }

  lemma {:induction false} TakeDepositTagsKeep(x: Ctx, db: Db, w: Write)
    requires TagsInv(x, db) && w.TakeDeposit? && TagsAllow(x, db, w)
    ensures TagsInv(x, Apply(db, w))
  {
    assert w == TakeDeposit(w.seqNo, db.confirmed + 1);
    TakeDepositKeeps(x, db, w.seqNo);
  }

  lemma {:induction false} TakeTxTagsKeep(x: Ctx, db: Db, w: Write)
    requires TagsInv(x, db) && w.TakeTx? && TagsAllow(x, db, w)
    ensures TagsInv(x, Apply(db, w))
  {
    TakeTxKeeps(x, db, w.id);
  }

  lemma {:induction false} AddBatchTagsKeep(x: Ctx, db: Db, w: Write)
    requires TagsInv(x, db) && w.AddBatch? && TagsAllow(x, db, w)
    ensures TagsInv(x, Apply(db, w))
  {
    AddBatchKeeps(x, db, w.batch);
  }

  lemma {:induction false} SetStatusKeeps(x: Ctx, db: Db, n: nat, status: BatchStatus)
    requires TagsInv(x, db) && TagsAllow(x, db, SetStatus(n, status))
    ensures TagsInv(x, Apply(db, SetStatus(n, status)))
  {
    RowMoves(x, db, db.batches[n].(status := status));
  }

  lemma {:induction false} SetProofKeeps(x: Ctx, db: Db, n: nat, proof: Proof)
    requires TagsInv(x, db) && TagsAllow(x, db, SetProof(n, proof))
    ensures TagsInv(x, Apply(db, SetProof(n, proof)))
  {
    RowMoves(x, db, WithProof(db.batches[n], proof));
  }

  lemma {:induction false} FinishTagsKeep(x: Ctx, db: Db, w: Write)
    requires TagsInv(x, db) && w.Finish? && TagsAllow(x, db, w)
    requires Settled(x, db)
    requires x.hist[db.confirmed + 1].head == x.hist[db.confirmed].head + db.batches[db.confirmed + 1].depositCount
    ensures TagsInv(x, Apply(db, w))
  {
    FinishWrites(x, db, w);
    FinishKeeps(x, db, Apply(db, w), w.leaves, w.seqs);
  }

  lemma {:induction false} FinishWrites(x: Ctx, db: Db, w: Write)
    requires db.confirmed < |x.hist| && w.Finish? && w.num == db.confirmed + 1
             && FinishOk(x, db, w.leaves, w.seqs, w.ids)
    ensures Finished(db, Apply(db, w), w.leaves, w.seqs)
  {
    FinishDoes(db, w.leaves, w.seqs);
  }

  lemma {:induction false} RequeueTagsKeep(x: Ctx, db: Db, w: Write)
    requires TagsInv(x, db) && w.Requeue? && TagsAllow(x, db, w)
    ensures TagsInv(x, Apply(db, w))
  {
    RequeueKeeps(x, db);
  }

  lemma {:induction false} WriteKeepsTags(x: Ctx, db: Db, w: Write)
    requires TagsInv(x, db) && TagsAllow(x, db, w)
    requires w.Finish? ==> Settled(x, db)
                           && x.hist[db.confirmed + 1].head == x.hist[db.confirmed].head
                              + db.batches[db.confirmed + 1].depositCount
    ensures TagsInv(x, Apply(db, w))
  {
    match w
    case AddTx(_) => AddTxTagsKeep(x, db, w);
    case RejectTx(_) => RejectTagsKeep(x, db, w);
    case AddDeposit(_, _) => AddDepositTagsKeep(x, db, w);
    case SetCursor(_) => SetCursorTagsKeep(x, db, w);
    case TakeDeposit(_, _) => TakeDepositTagsKeep(x, db, w);
    case TakeTx(_, _) => TakeTxTagsKeep(x, db, w);
    case AddBatch(_, _) => AddBatchTagsKeep(x, db, w);
    case SetProof(n, proof) => SetProofKeeps(x, db, n, proof);
    case SetStatus(n, status) => SetStatusKeeps(x, db, n, status);
    case Finish(_, _, _, _) => FinishTagsKeep(x, db, w);
    case Requeue(_) => RequeueTagsKeep(x, db, w);
  }

  /** Between any two statements the tables are consistent. */
  lemma {:induction false} WriteKeeps(x: Ctx, db: Db, w: Write)
    requires DbInv(x, db) && WriteOk(x, db, w)
    ensures DbInv(x, Apply(db, w))
  {
    if w.Finish? { LandedHead(x, db); }
    WriteKeepsRows(x, db, w);
    WriteKeepsTags(x, db, w);
  }

  /** No statement drops or alters a batch that may have been sent. */
  lemma {:induction false} WriteKeepsSent(x: Ctx, db: Db, w: Write)
    requires db.confirmed < |x.hist| && TagsAllow(x, db, w)
    ensures SentKept(db, Apply(db, w))
  {}

  // ---------- lists of writes ----------

  ghost predicate AllOk(x: Ctx, db: Db, ws: seq<Write>)
    requires x.c.e.order > 0
    decreases |ws|
  {
    ws == [] || (db.confirmed < |x.hist| && WriteOk(x, db, ws[0]) && AllOk(x, Apply(db, ws[0]), ws[1..]))
  }

  lemma {:induction false} TakeHead(ws: seq<Write>, n: nat)
    requires 0 < n <= |ws|
    ensures ws[..n][0] == ws[0] && ws[..n][1..] == ws[1..][..n - 1]
  {}

  /** A crash leaves some prefix executed; each is consistent. */
  lemma {:induction false} PrefixKeeps(x: Ctx, db: Db, ws: seq<Write>, n: nat)
    requires DbInv(x, db) && AllOk(x, db, ws) && n <= |ws|
    ensures DbInv(x, ApplyAll(db, ws[..n])) && SentKept(db, ApplyAll(db, ws[..n]))
    decreases n
  {
    if n != 0 {
      WriteKeeps(x, db, ws[0]);
      WriteKeepsSent(x, db, ws[0]);
      PrefixKeeps(x, Apply(db, ws[0]), ws[1..], n - 1);
      TakeHead(ws, n);
    }
  }

  /** Two allowed runs of statements, one after the other. */
  lemma {:induction false} AllOkAppend(x: Ctx, db: Db, xs: seq<Write>, mid: Db, ys: seq<Write>)
    requires x.c.e.order > 0 && AllOk(x, db, xs) && mid == ApplyAll(db, xs) && AllOk(x, mid, ys)
    ensures AllOk(x, db, xs + ys) && ApplyAll(db, xs + ys) == ApplyAll(mid, ys)
    decreases |xs|
  {
    ApplyAppend(db, xs, ys);
    if xs == [] {
      assert xs + ys == ys;
    } else {
      assert (xs + ys)[0] == xs[0] && (xs + ys)[1..] == xs[1..] + ys;
      AllOkAppend(x, Apply(db, xs[0]), xs[1..], mid, ys);
    }
  }

  // ---------- the chain moves on ----------

  lemma {:induction false} CtxGrows(x: Ctx, dep: PendingDeposit)
    requires CtxOk(x) && EntryOk(x.c, dep)
    ensures CtxOk(x.(log := x.log + [dep]))
  {
    var y := x.(log := x.log + [dep]);
    forall j: nat, k: nat | j <= k < |y.hist| ensures HeadAtMost(y, j, k) {
      assert HeadAtMost(x, j, k);
    }
    forall k: nat | Past(y, k)
      ensures WellFormed(y.c.e, y.hist[k].table) && (k > 0 ==> Before(y.c.e, y.hist[k - 1].table, y.hist[k].table))
    {
      assert Past(x, k);
    }
  }

  lemma {:induction false} TagsGrow(x: Ctx, db: Db, dep: PendingDeposit)
    requires TagsInv(x, db)
    ensures TagsInv(x.(log := x.log + [dep]), db)
  {
    var y := x.(log := x.log + [dep]);
    forall i | i in db.deposits
      ensures DepositPhase(y, InflightCount(db.batches, db.confirmed), db.confirmed, i, db.deposits[i])
    {
      assert DepositPhase(x, InflightCount(db.batches, db.confirmed), db.confirmed, i, db.deposits[i]);
    }
  }

  /** A deposit was enqueued on L1. */
  lemma {:induction false} LogGrows(x: Ctx, db: Db, dep: PendingDeposit)
    requires DbInv(x, db) && EntryOk(x.c, dep)
    ensures DbInv(x.(log := x.log + [dep]), db)
  {
    RowsLater(x, x.(log := x.log + [dep]), db.batches, db.mempool);
    CtxGrows(x, dep);
    TagsGrow(x, db, dep);
  }

  lemma {:induction false} TagsAfterLanding(x: Ctx, db: Db, next: Epoch)
    requires TagsInv(x, db) && |x.hist| == db.confirmed + 1 && db.confirmed + 1 in db.batches
    ensures TagsInv(x.(hist := x.hist + [next]), db)
  {
    var y := x.(hist := x.hist + [next]);
    forall i | i in db.deposits
      ensures DepositPhase(y, InflightCount(db.batches, db.confirmed), db.confirmed, i, db.deposits[i])
    {
      assert DepositPhase(x, InflightCount(db.batches, db.confirmed), db.confirmed, i, db.deposits[i]);
    }
  }

  lemma {:induction false} CtxAfterLanding(x: Ctx, next: Epoch)
    requires CtxOk(x) && WellFormed(x.c.e, next.table) && Last(x).head <= next.head <= |x.log|
    requires Before(x.c.e, Last(x).table, next.table)
    ensures CtxOk(x.(hist := x.hist + [next]))
  {
    var y := x.(hist := x.hist + [next]);
    forall j: nat, k: nat | j <= k < |y.hist| ensures HeadAtMost(y, j, k) {
      assert j < |x.hist| ==> HeadAtMost(x, j, |x.hist| - 1);
      assert k < |x.hist| ==> HeadAtMost(x, j, k);
    }
    forall k: nat | Past(y, k)
      ensures WellFormed(y.c.e, y.hist[k].table) && (k > 0 ==> Before(y.c.e, y.hist[k - 1].table, y.hist[k].table))
    {
      if k < |x.hist| { assert Past(x, k); }
    }
  }

  lemma {:induction false} RowsAfterLanding(x: Ctx, y: Ctx, batches: Batches, rows: seq<MempoolRow>)
    requires x.c.e.order > 0 && Extends(x, y) && BatchRows(x, batches, rows)
    requires |x.hist| in batches ==>
               var b := batches[|x.hist|]; NextFits(x, y, rows, |x.hist|, b.depositCount, BlobIds(b.blob), b)
    ensures BatchRows(y, batches, rows)
  {
    RowsLater(x, y, batches, rows);
  }

  /** The batch in flight landed. */
  lemma {:induction false} HistGrows(x: Ctx, db: Db, next: Epoch)
    requires DbInv(x, db) && |x.hist| == db.confirmed + 1 && db.confirmed + 1 in db.batches
    requires BatchRows(x.(hist := x.hist + [next]), db.batches, db.mempool)
    requires WellFormed(x.c.e, next.table) && Before(x.c.e, Last(x).table, next.table)
    requires Last(x).head <= next.head <= |x.log|
    ensures DbInv(x.(hist := x.hist + [next]), db)
  {
    TagsAfterLanding(x, db, next);
    CtxAfterLanding(x, next);
  }
}
