/** The sequencer's durable tables (db.rs), the published blob, and the single
    statements and transactions that change them. */
module Database {
  import opened Field
  import opened Hashing
  import opened Merkle
  import opened Circuit
  import opened Builder
  import opened Contract
  import opened Encoding

  datatype TxStatus = TxPending | TxBatching | TxIncluded | TxRejected

  /** The immutable columns of a mempool row. */
  datatype StoredTx = StoredTx(
    fromPkX: nat,
    fromPkY: nat,
    toField: nat,
    dest: nat,               // L1 address of a withdrawal
    amount: nat,
    nonce: nat,
    isWithdraw: bool,
    rX: nat,
    rY: nat,
    sLo: nat,
    sHi: nat)

  datatype MempoolRow = MempoolRow(tx: StoredTx, status: TxStatus, batchNum: Option<nat>)

  datatype DepositStatus = DepPending | DepBatching | DepConsumed

  datatype DepositRow = DepositRow(dep: PendingDeposit, status: DepositStatus, batchNum: Option<nat>)

  datatype BatchStatus = Proving | Proved | Submitting | Submitted | Confirmed

  /** The JSON blob, field elements as strict hex strings. */
  datatype BlobDeposit = BlobDeposit(seqNo: nat, pkX: string, amount: nat)

  datatype BlobTx = BlobTx(
    mempoolId: nat,
    fromPkX: string,
    fromPkY: string,
    toField: string,
    amount: nat,
    nonce: nat,
    isWithdraw: bool,
    rX: string,
    rY: string,
    sLo: string,
    sHi: string)

  datatype Blob = Blob(deposits: seq<BlobDeposit>, txs: seq<BlobTx>)

  datatype BatchRow = BatchRow(
    oldRoot: int,
    newRoot: int,
    depositCount: nat,
    daCommitment: int,
    blob: Blob,
    envelope: Envelope,
    proof: Option<Proof>,
    status: BatchStatus)

  /** mempool: row i has id i (AUTOINCREMENT, rows are never deleted); depTop and
      batchTop bound the primary keys in use; confirmed and cursor are the meta
      rows confirmed_batch_num and dep_cursor. */
  datatype Db = Db(
    leaves: Table,
    confirmed: nat,
    cursor: nat,
    mempool: seq<MempoolRow>,
    deposits: map<nat, DepositRow>,
    depTop: nat,
    batches: map<nat, BatchRow>,
    batchTop: nat)

  const EMPTY_DB := Db(map[], 0, 0, [], map[], 0, map[], 0)

  // ---------- queries ----------

  /** `inflight_batch`: the highest-numbered batch that is not confirmed. */
  function InflightUpTo(batches: map<nat, BatchRow>, n: nat): (r: Option<nat>)
    ensures r.Some? ==> 0 < r.value <= n && r.value in batches && !batches[r.value].status.Confirmed?
    ensures r.Some? ==> forall k :: r.value < k <= n && k in batches ==> batches[k].status.Confirmed?
    ensures r.None? ==> forall k :: 0 < k <= n && k in batches ==> batches[k].status.Confirmed?
  {
    if n == 0 then None
    else if n in batches && !batches[n].status.Confirmed? then Some(n)
    else InflightUpTo(batches, n - 1)
  }

  function Inflight(db: Db): Option<nat> {
    InflightUpTo(db.batches, db.batchTop)
  }

  predicate DepositIsPending(db: Db, i: nat) {
    i in db.deposits && db.deposits[i].status.DepPending?
  }

  /** `deposits_pending`: the first pending sequence numbers from i on. */
  function PendingDeposits(db: Db, i: nat, limit: nat): (r: seq<nat>)
    ensures |r| <= limit
    ensures forall k :: 0 <= k < |r| ==> DepositIsPending(db, r[k])
    decreases db.depTop - i
  {
    if i >= db.depTop || limit == 0 then []
    else if DepositIsPending(db, i) then [i] + PendingDeposits(db, i + 1, limit - 1)
    else PendingDeposits(db, i + 1, limit)
  }

  /** A mempool row as the engine reads it back. */
  datatype Candidate = Candidate(id: nat, tx: StoredTx)

  /** `mempool_pending`: the first pending rows from i on, in id order. */
  function PendingTxs(rows: seq<MempoolRow>, i: nat, limit: nat): (r: seq<Candidate>)
    ensures |r| <= limit
    ensures forall k :: 0 <= k < |r| ==>
              i <= r[k].id < |rows| && rows[r[k].id].status.TxPending? && rows[r[k].id].tx == r[k].tx
    decreases |rows| - i
  {
    if i >= |rows| || limit == 0 then []
    else if rows[i].status.TxPending? then [Candidate(i, rows[i].tx)] + PendingTxs(rows, i + 1, limit - 1)
    else PendingTxs(rows, i + 1, limit)
  }

  function Ids(cs: seq<Candidate>): (r: seq<nat>)
    ensures |r| == |cs| && forall k :: 0 <= k < |cs| ==> r[k] == cs[k].id
  {
    if cs == [] then [] else [cs[0].id] + Ids(cs[1..])
  }

  function Txs(cs: seq<Candidate>): (r: seq<StoredTx>)
    ensures |r| == |cs| && forall k :: 0 <= k < |cs| ==> r[k] == cs[k].tx
  {
    if cs == [] then [] else [cs[0].tx] + Txs(cs[1..])
  }

  /** `mempool_count_pending` and `deposits_count_pending`. */
  function CountPendingTxs(rows: seq<MempoolRow>, i: nat): nat
    decreases |rows| - i
  {
    if i >= |rows| then 0 else (if rows[i].status.TxPending? then 1 else 0) + CountPendingTxs(rows, i + 1)
  }

  function CountPendingDeposits(db: Db, i: nat): nat
    decreases db.depTop - i
  {
    if i >= db.depTop then 0 else (if DepositIsPending(db, i) then 1 else 0) + CountPendingDeposits(db, i + 1)
  }

  predicate LiveFor(row: MempoolRow, pk: int) {
    (row.status.TxPending? || row.status.TxBatching?) && row.tx.fromPkX == pk
  }

  /** `mempool_pending_for`: the sender's rows that have not settled, in id order. */
  function LiveTxs(rows: seq<MempoolRow>, pk: int, i: nat): (r: seq<StoredTx>)
    decreases |rows| - i
  {
    if i >= |rows| then []
    else (if LiveFor(rows[i], pk) then [rows[i].tx] else []) + LiveTxs(rows, pk, i + 1)
  }

  function Total(txs: seq<StoredTx>): nat {
    if txs == [] then 0 else txs[0].amount + Total(txs[1..])
  }

  /** `mempool_find`: the row of (sender, nonce), from id i on. */
  function FindTx(rows: seq<MempoolRow>, pk: int, nonce: int, i: nat): (r: Option<nat>)
    ensures r.Some? ==> i <= r.value < |rows| && rows[r.value].tx.fromPkX == pk && rows[r.value].tx.nonce == nonce
    ensures r.None? ==> forall k :: i <= k < |rows| ==> !(rows[k].tx.fromPkX == pk && rows[k].tx.nonce == nonce)
    decreases |rows| - i
  {
    if i >= |rows| then None
    else if rows[i].tx.fromPkX == pk && rows[i].tx.nonce == nonce then Some(i)
    else FindTx(rows, pk, nonce, i + 1)
  }

  /** `deposits_pending_pk`: a deposit for pk has been seen and not consumed. */
  predicate AwaitsDeposit(db: Db, pk: int) {
    exists i :: i in db.deposits && db.deposits[i].dep.pk == pk && !db.deposits[i].status.DepConsumed?
  }

  // ---------- rows as build inputs ----------

  /** keys.rs `from_limbs`: the scalar of two 128-bit limbs. */
  function FromHalves(e: Env, lo: int, hi: int): Option<int>
    requires e.order > 0
  {
    if lo >= U128 || hi >= U128 then None else Some((lo + hi * U128) % e.order)
  }

  /** engine.rs `row_to_signed`; stored limbs were checked at admission. */
  function RowToSigned(e: Env, tx: StoredTx): SignedTx
    requires e.order > 0
  {
    SignedTx(tx.fromPkX, tx.fromPkY, tx.toField, tx.amount, tx.nonce, tx.isWithdraw,
             Signature(tx.rX, tx.rY, (tx.sLo + tx.sHi * U128) % e.order))
  }

  function AllSigned(e: Env, txs: seq<StoredTx>): (r: seq<SignedTx>)
    requires e.order > 0
    ensures |r| == |txs| && forall i :: 0 <= i < |txs| ==> r[i] == RowToSigned(e, txs[i])
  {
    if txs == [] then [] else [RowToSigned(e, txs[0])] + AllSigned(e, txs[1..])
  }

  function Requests(deps: seq<PendingDeposit>): (r: seq<DepositRequest>)
    ensures |r| == |deps| && forall i :: 0 <= i < |deps| ==> r[i] == DepositRequest(deps[i].pk, deps[i].amount)
  {
    if deps == [] then [] else [DepositRequest(deps[0].pk, deps[0].amount)] + Requests(deps[1..])
  }

  function DepositsAt(db: Db, seqs: seq<nat>): (r: seq<PendingDeposit>)
    requires forall k :: 0 <= k < |seqs| ==> seqs[k] in db.deposits
    ensures |r| == |seqs| && forall k :: 0 <= k < |seqs| ==> r[k] == db.deposits[seqs[k]].dep
  {
    if seqs == [] then [] else [db.deposits[seqs[0]].dep] + DepositsAt(db, seqs[1..])
  }

  function TxsAt(rows: seq<MempoolRow>, ids: seq<nat>): (r: seq<StoredTx>)
    requires forall k :: 0 <= k < |ids| ==> ids[k] < |rows|
    ensures |r| == |ids| && forall k :: 0 <= k < |ids| ==> r[k] == rows[ids[k]].tx
  {
    if ids == [] then [] else [rows[ids[0]].tx] + TxsAt(rows, ids[1..])
  }

  // ---------- blob ----------

  function BlobDepositOf(seqNo: nat, d: PendingDeposit): BlobDeposit {
    BlobDeposit(seqNo, FieldHex(d.pk), d.amount)
  }

  function BlobTxOf(id: nat, tx: StoredTx): BlobTx {
    BlobTx(id, FieldHex(tx.fromPkX), FieldHex(tx.fromPkY), FieldHex(tx.toField), tx.amount, tx.nonce, tx.isWithdraw,
           FieldHex(tx.rX), FieldHex(tx.rY), FieldHex(tx.sLo), FieldHex(tx.sHi))
  }

  /** engine.rs `blob_json`. */
  function BlobOf(seqs: seq<nat>, deps: seq<PendingDeposit>, ids: seq<nat>, txs: seq<StoredTx>): (b: Blob)
    requires |seqs| == |deps| && |ids| == |txs|
    ensures |b.deposits| == |deps| && |b.txs| == |txs|
    ensures forall i :: 0 <= i < |deps| ==> b.deposits[i] == BlobDepositOf(seqs[i], deps[i])
    ensures forall i :: 0 <= i < |txs| ==> b.txs[i] == BlobTxOf(ids[i], txs[i])
  {
    Blob(seq(|deps|, i requires 0 <= i < |deps| => BlobDepositOf(seqs[i], deps[i])),
         seq(|txs|, i requires 0 <= i < |txs| => BlobTxOf(ids[i], txs[i])))
  }

  function BlobSeqs(b: Blob): (r: seq<nat>)
    ensures |r| == |b.deposits|
  {
    seq(|b.deposits|, i requires 0 <= i < |b.deposits| => b.deposits[i].seqNo)
  }

  function BlobIds(b: Blob): (r: seq<nat>)
    ensures |r| == |b.txs|
  {
    seq(|b.txs|, i requires 0 <= i < |b.txs| => b.txs[i].mempoolId)
  }

  lemma {:induction false} BlobLists(seqs: seq<nat>, deps: seq<PendingDeposit>, ids: seq<nat>, txs: seq<StoredTx>)
    requires |seqs| == |deps| && |ids| == |txs|
    ensures BlobSeqs(BlobOf(seqs, deps, ids, txs)) == seqs && BlobIds(BlobOf(seqs, deps, ids, txs)) == ids
  {}

  function ParseDeposit(e: Env, d: BlobDeposit): Option<DepositRequest>
    requires e.p > 0
  {
    match ParseField(e.p, d.pkX) case None => None case Some(pk) => Some(DepositRequest(pk, d.amount))
  }

  /** One transaction from its parsed columns; limbs above 128 bits are refused. */
  function Assemble(e: Env, t: BlobTx, x: Option<int>, y: Option<int>, to: Option<int>,
                    rX: Option<int>, rY: Option<int>, lo: Option<int>, hi: Option<int>): Option<SignedTx>
    requires e.order > 0
  {
    if x.None? || y.None? || to.None? || rX.None? || rY.None? || lo.None? || hi.None? then None
    else match FromHalves(e, lo.value, hi.value)
         case None => None
         case Some(s) => Some(SignedTx(x.value, y.value, to.value, t.amount, t.nonce, t.isWithdraw,
                                       Signature(rX.value, rY.value, s)))
  }

  function ParseTx(e: Env, t: BlobTx): Option<SignedTx>
    requires e.p > 0 && e.order > 0
  {
    Assemble(e, t, ParseField(e.p, t.fromPkX), ParseField(e.p, t.fromPkY), ParseField(e.p, t.toField),
             ParseField(e.p, t.rX), ParseField(e.p, t.rY), ParseField(e.p, t.sLo), ParseField(e.p, t.sHi))
  }

  function ParseDeposits(e: Env, ds: seq<BlobDeposit>): (r: Option<seq<DepositRequest>>)
    requires e.p > 0
  {
    if ds == [] then Some([])
    else
      var head, tail := ParseDeposit(e, ds[0]), ParseDeposits(e, ds[1..]);
      if head.None? || tail.None? then None else Some([head.value] + tail.value)
  }

  function ParseTxs(e: Env, ts: seq<BlobTx>): (r: Option<seq<SignedTx>>)
    requires e.p > 0 && e.order > 0
  {
    if ts == [] then Some([])
    else
      var head, tail := ParseTx(e, ts[0]), ParseTxs(e, ts[1..]);
      if head.None? || tail.None? then None else Some([head.value] + tail.value)
  }

  /** engine.rs `parse_blob`. */
  function ParseBlob(e: Env, b: Blob): Option<(seq<DepositRequest>, seq<SignedTx>)>
    requires e.p > 0 && e.order > 0
  {
    var ds, ts := ParseDeposits(e, b.deposits), ParseTxs(e, b.txs);
    if ds.None? || ts.None? then None else Some((ds.value, ts.value))
  }

  /** The ranges a stored transaction has once its strings parsed. */
  predicate StoredTyped(e: Env, tx: StoredTx) {
    && InField(e.p, tx.fromPkX) && InField(e.p, tx.fromPkY) && InField(e.p, tx.toField)
    && IsU64(tx.amount) && IsU64(tx.nonce)
    && InField(e.p, tx.rX) && InField(e.p, tx.rY) && tx.sLo < U128 && tx.sHi < U128
  }

  lemma {:induction false} StoredIsSignedTyped(e: Env, tx: StoredTx)
    requires ValidEnv(e) && StoredTyped(e, tx)
    ensures SignedTyped(e, RowToSigned(e, tx))
  {}

  lemma {:induction false} TxRoundTrip(e: Env, id: nat, tx: StoredTx)
    requires ValidEnv(e) && e.p < Pow256(WORD) && StoredTyped(e, tx)
    ensures ParseTx(e, BlobTxOf(id, tx)) == Some(RowToSigned(e, tx))
  {
    FieldRoundTrip(e.p, tx.fromPkX);
    FieldRoundTrip(e.p, tx.fromPkY);
    FieldRoundTrip(e.p, tx.toField);
    FieldRoundTrip(e.p, tx.rX);
    FieldRoundTrip(e.p, tx.rY);
    FieldRoundTrip(e.p, tx.sLo);
    FieldRoundTrip(e.p, tx.sHi);
    AssembleRow(e, BlobTxOf(id, tx), tx);
  }

  lemma {:induction false} AssembleRow(e: Env, t: BlobTx, tx: StoredTx)
    requires e.order > 0 && tx.sLo < U128 && tx.sHi < U128
    requires t.amount == tx.amount && t.nonce == tx.nonce && t.isWithdraw == tx.isWithdraw
    ensures Assemble(e, t, Some(tx.fromPkX), Some(tx.fromPkY), Some(tx.toField),
                     Some(tx.rX), Some(tx.rY), Some(tx.sLo), Some(tx.sHi)) == Some(RowToSigned(e, tx))
  {}

  predicate TxEncoded(e: Env, id: nat, tx: StoredTx, t: BlobTx) {
    StoredTyped(e, tx) && t == BlobTxOf(id, tx)
  }

  lemma {:induction false} TxsRoundTrip(e: Env, ids: seq<nat>, txs: seq<StoredTx>, ts: seq<BlobTx>)
    requires ValidEnv(e) && e.p < Pow256(WORD) && |ids| == |txs| == |ts|
    requires forall i :: 0 <= i < |txs| ==> TxEncoded(e, ids[i], txs[i], ts[i])
    ensures ParseTxs(e, ts) == Some(AllSigned(e, txs))
    decreases |txs|
  {
    if txs != [] {
      assert TxEncoded(e, ids[0], txs[0], ts[0]);
      TxRoundTrip(e, ids[0], txs[0]);
      forall i | 0 <= i < |txs[1..]| ensures TxEncoded(e, ids[1..][i], txs[1..][i], ts[1..][i]) {
        assert TxEncoded(e, ids[i + 1], txs[i + 1], ts[i + 1]);
      }
      TxsRoundTrip(e, ids[1..], txs[1..], ts[1..]);
    }
  }

  lemma {:induction false} DepositRoundTrip(e: Env, seqNo: nat, dep: PendingDeposit)
    requires ValidEnv(e) && e.p < Pow256(WORD) && dep.pk < e.p
    ensures ParseDeposit(e, BlobDepositOf(seqNo, dep)) == Some(DepositRequest(dep.pk, dep.amount))
  {
    FieldRoundTrip(e.p, dep.pk);
  }

  lemma {:induction false} DepositsRoundTrip(e: Env, seqs: seq<nat>, deps: seq<PendingDeposit>, bs: seq<BlobDeposit>)
    requires ValidEnv(e) && e.p < Pow256(WORD) && |seqs| == |deps| == |bs|
    requires forall i :: 0 <= i < |deps| ==> deps[i].pk < e.p && bs[i] == BlobDepositOf(seqs[i], deps[i])
    ensures ParseDeposits(e, bs) == Some(Requests(deps))
    decreases |deps|
  {
    if deps != [] {
      DepositRoundTrip(e, seqs[0], deps[0]);
      DepositsRoundTrip(e, seqs[1..], deps[1..], bs[1..]);
    }
  }

  /** Parsing the published blob gives back exactly the build inputs. */
  lemma {:induction false} BlobRoundTrip(e: Env, seqs: seq<nat>, deps: seq<PendingDeposit>, ids: seq<nat>,
                                         txs: seq<StoredTx>)
    requires ValidEnv(e) && e.p < Pow256(WORD) && |seqs| == |deps| && |ids| == |txs|
    requires forall i :: 0 <= i < |deps| ==> deps[i].pk < e.p
    requires forall i :: 0 <= i < |txs| ==> StoredTyped(e, txs[i])
    ensures ParseBlob(e, BlobOf(seqs, deps, ids, txs)) == Some((Requests(deps), AllSigned(e, txs)))
  {
    var b := BlobOf(seqs, deps, ids, txs);
    DepositsRoundTrip(e, seqs, deps, b.deposits);
    TxsRoundTrip(e, ids, txs, b.txs);
  }

  // ---------- envelope ----------

  function WithdrawalsOf(txs: seq<StoredTx>): seq<Withdrawal> {
    if txs == [] then []
    else (if txs[0].isWithdraw then [Withdrawal(txs[0].dest, txs[0].amount)] else []) + WithdrawalsOf(txs[1..])
  }

  /** The empty `proof` string of an unproved envelope. */
  const NO_PROOF := Proof(0, map[])

  /** engine.rs `envelope_json`; the proof is filled in once recorded. */
  function EnvelopeOf(pub: Public, depositCount: nat, txs: seq<StoredTx>): Envelope {
    Envelope(pub.newRoot, depositCount, WithdrawalsOf(txs), pub.daCommitment, NO_PROOF)
  }

  // ---------- durable writes ----------

  /** One auto-committed statement, or one committed transaction (Finish and
      Requeue). The process can stop between any two of them. */
  datatype Write =
    | AddTx(tx: StoredTx)
    | RejectTx(id: nat)
    | AddDeposit(seqNo: nat, dep: PendingDeposit)         // INSERT OR IGNORE
    | SetCursor(cursor: nat)
    | AddBatch(num: nat, batch: BatchRow)
    | TakeDeposit(seqNo: nat, num: nat)
    | TakeTx(id: nat, num: nat)
    | SetProof(num: nat, proof: Proof)
    | SetStatus(num: nat, status: BatchStatus)
    | Finish(num: nat, leaves: Table, seqs: seq<nat>, ids: seq<nat>)
    | Requeue(num: nat)

  function Retagged(row: MempoolRow, status: TxStatus, num: Option<nat>): MempoolRow {
    MempoolRow(row.tx, status, num)
  }

  /** `mempool_set_status`. */
  function WithTxs(db: Db, ids: seq<nat>, status: TxStatus, num: Option<nat>): (r: Db)
    ensures r == db.(mempool := r.mempool) && |r.mempool| == |db.mempool|
    ensures forall i :: 0 <= i < |db.mempool| ==>
              r.mempool[i] == if i in ids then Retagged(db.mempool[i], status, num) else db.mempool[i]
    decreases |ids|
  {
    if ids == [] then db
    else if ids[0] < |db.mempool| then
      WithTxs(db.(mempool := db.mempool[ids[0] := Retagged(db.mempool[ids[0]], status, num)]), ids[1..], status, num)
    else WithTxs(db, ids[1..], status, num)
  }

  /** `deposits_set_status`. */
  function WithDeposits(db: Db, seqs: seq<nat>, status: DepositStatus, num: Option<nat>): (r: Db)
    ensures r == db.(deposits := r.deposits) && r.deposits.Keys == db.deposits.Keys
    ensures forall i :: i in db.deposits ==>
              r.deposits[i] == if i in seqs then DepositRow(db.deposits[i].dep, status, num) else db.deposits[i]
    decreases |seqs|
  {
    if seqs == [] then db
    else if seqs[0] in db.deposits then
      WithDeposits(db.(deposits := db.deposits[seqs[0] := DepositRow(db.deposits[seqs[0]].dep, status, num)]),
                   seqs[1..], status, num)
    else WithDeposits(db, seqs[1..], status, num)
  }

  function FreeTx(row: MempoolRow, num: nat): MempoolRow {
    if row.status.TxBatching? && row.batchNum == Some(num) then MempoolRow(row.tx, TxPending, None) else row
  }

  function FreeDeposit(row: DepositRow, num: nat): DepositRow {
    if row.status.DepBatching? && row.batchNum == Some(num) then DepositRow(row.dep, DepPending, None) else row
  }

  function Max(a: nat, b: nat): nat {
    if a >= b then a else b
  }

  /** `batch_set_proof`: the proof, the envelope that carries it, the status. */
  function WithProof(b: BatchRow, proof: Proof): BatchRow {
    b.(proof := Some(proof), envelope := b.envelope.(proof := proof), status := Proved)
  }

  function Apply(db: Db, w: Write): Db {
    match w
    case AddTx(tx) => db.(mempool := db.mempool + [MempoolRow(tx, TxPending, None)])
    case RejectTx(id) => WithTxs(db, [id], TxRejected, None)
    case AddDeposit(seqNo, dep) =>
      if seqNo in db.deposits then db
      else db.(deposits := db.deposits[seqNo := DepositRow(dep, DepPending, None)], depTop := Max(db.depTop, seqNo + 1))
    case SetCursor(cursor) => db.(cursor := cursor)
    case AddBatch(num, batch) => db.(batches := db.batches[num := batch], batchTop := Max(db.batchTop, num))
    case TakeDeposit(seqNo, num) => WithDeposits(db, [seqNo], DepBatching, Some(num))
    case TakeTx(id, num) => WithTxs(db, [id], TxBatching, Some(num))
    case SetProof(num, proof) =>
      if num in db.batches
      then db.(batches := db.batches[num := WithProof(db.batches[num], proof)])
      else db
    case SetStatus(num, status) =>
      if num in db.batches then db.(batches := db.batches[num := db.batches[num].(status := status)]) else db
    case Finish(num, leaves, seqs, ids) =>
      var d1 := db.(leaves := db.leaves + leaves, confirmed := num);
      var d2 := WithTxs(WithDeposits(d1, seqs, DepConsumed, Some(num)), ids, TxIncluded, Some(num));
      if num in d2.batches then d2.(batches := d2.batches[num := d2.batches[num].(status := Confirmed)]) else d2
    case Requeue(num) =>
      db.(mempool := seq(|db.mempool|, i requires 0 <= i < |db.mempool| => FreeTx(db.mempool[i], num)),
          deposits := map i | i in db.deposits :: FreeDeposit(db.deposits[i], num),
          batches := db.batches - {num})
  }

  function ApplyAll(db: Db, ws: seq<Write>): Db
    decreases |ws|
  {
    if ws == [] then db else ApplyAll(Apply(db, ws[0]), ws[1..])
  }

  lemma {:induction false} ApplyAppend(db: Db, xs: seq<Write>, ys: seq<Write>)
    ensures ApplyAll(db, xs + ys) == ApplyAll(ApplyAll(db, xs), ys)
    decreases |xs|
  {
    if xs == [] {
      assert xs + ys == ys;
    } else {
      assert (xs + ys)[0] == xs[0] && (xs + ys)[1..] == xs[1..] + ys;
      ApplyAppend(Apply(db, xs[0]), xs[1..], ys);
    }
  }
}
