/** Each engine command as a function of the durable tables and the live tree:
    the statements it runs, in order, and its reply (engine.rs). */
module Commands {
  import opened Field
  import opened Hashing
  import opened Merkle
  import opened Circuit
  import opened Trees
  import opened Builder
  import opened Contract
  import opened Encoding
  import opened Database
  import opened Eviction

  const MEMPOOL_MAX_PENDING := 5000

  datatype ApiError =
    | BadField(field: string)
    | Unsigned                         // BAD_SIGNATURE
    | WrongNonce(expected: int)        // NONCE_MISMATCH
    | LowBalance(available: int)       // INSUFFICIENT_BALANCE
    | RecipientUnknown
    | RateLimited
    | AccountUnknown
    | NotFound
    | Internal

  /** Crash: checked arithmetic overflowed and the process aborted. */
  datatype Answer<+T> = Ok(value: T) | Err(error: ApiError) | Crash

  // ---------- submit_tx ----------

  /** `to`: a recipient key in hex, or a strkey and the address it names if valid. */
  datatype Destination = ToAccount(hex: string) | ToAddress(address: Option<nat>)

  datatype WireTx = WireTx(
    fromPkX: string,
    fromPkY: string,
    to: Destination,
    amount: Option<nat>,               // None: not a decimal u64
    nonce: nat,
    rX: string,
    rY: string,
    sLo: string,
    sHi: string)

  datatype Receipt = Receipt(id: nat, status: TxStatus)

  ghost predicate WireTyped(w: WireTx) {
    (w.amount.Some? ==> IsU64(w.amount.value)) && IsU64(w.nonce)
  }

  function ParseSender(e: Env, w: WireTx): Answer<(nat, nat, nat)>
    requires e.p > 0
  {
    var x, y := ParseField(e.p, w.fromPkX), ParseField(e.p, w.fromPkY);
    if x.None? then Err(BadField("from_pk_x"))
    else if y.None? then Err(BadField("from_pk_y"))
    else if w.amount.None? || w.amount.value == 0 then Err(BadField("amount"))
    else Ok((x.value, y.value, w.amount.value))
  }

  /** The destination field element and, for a withdrawal, the L1 address. */
  function ParseTo(c: Config, to: Destination): Answer<(nat, nat)>
    requires c.e.p > 0
  {
    match to
    case ToAddress(a) => if a.None? then Err(BadField("to")) else Ok((AddressToField(c, a.value), a.value))
    case ToAccount(hex) =>
      var f := ParseField(c.e.p, hex);
      if f.None? || f.value == 0 then Err(BadField("to")) else Ok((f.value, 0))
  }

  /** Key and signature, from the parsed words: a valid key, limbs below 2^128, and
      the verification equation. */
  function CheckSigned(e: Env, w: WireTx, x: nat, y: nat, amount: nat, to: nat, dest: nat,
                       rX: Option<nat>, rY: Option<nat>, lo: Option<nat>, hi: Option<nat>): Answer<StoredTx>
    requires e.order > 0
  {
    if y % 2 != 0 then Err(Unsigned)
    else if rX.None? then Err(BadField("sig.r_x"))
    else if rY.None? then Err(BadField("sig.r_y"))
    else if lo.None? then Err(BadField("sig.s_lo"))
    else if hi.None? then Err(BadField("sig.s_hi"))
    else if FromHalves(e, lo.value, hi.value).None? then Err(Unsigned)
    else
      var tx := StoredTx(x, y, to, dest, amount, w.nonce, w.to.ToAddress?, rX.value, rY.value, lo.value, hi.value);
      if SignatureOk(e, RowToSigned(e, tx)) then Ok(tx) else Err(Unsigned)
  }

  function ParseSigned(e: Env, w: WireTx, x: nat, y: nat, amount: nat, to: nat, dest: nat): Answer<StoredTx>
    requires e.p > 0 && e.order > 0
  {
    CheckSigned(e, w, x, y, amount, to, dest,
                ParseField(e.p, w.rX), ParseField(e.p, w.rY), ParseField(e.p, w.sLo), ParseField(e.p, w.sHi))
  }

  /** Nonce, balance and recipient, against the live tree and the sender's
      unsettled rows. */
  function Admission(e: Env, db: Db, t: Table, tx: StoredTx): Answer<()> {
    var found := Find(e, t, tx.fromPkX);
    if found.None? then Err(AccountUnknown)
    else
      var sender, live := t[found.value], LiveTxs(db.mempool, tx.fromPkX, 0);
      if sender.nonce + |live| >= U64 then Crash
      else if tx.nonce != sender.nonce + |live| then Err(WrongNonce(sender.nonce + |live|))
      else if Total(live) >= U64 then Crash
      else
        var available := if sender.balance >= Total(live) then sender.balance - Total(live) else 0;
        if tx.amount > available then Err(LowBalance(available))
        else if !tx.isWithdraw && Find(e, t, tx.toField).None? && !AwaitsDeposit(db, tx.toField)
          then Err(RecipientUnknown)
        else Ok(())
  }

  function SubmitTx(c: Config, db: Db, t: Table, w: WireTx): (seq<Write>, Answer<Receipt>)
    requires c.e.p > 0 && c.e.order > 0
  {
    if CountPendingTxs(db.mempool, 0) >= MEMPOOL_MAX_PENDING then ([], Err(RateLimited))
    else match ParseSender(c.e, w)
      case Err(error) => ([], Err(error))
      case Crash => ([], Crash)
      case Ok((x, y, amount)) =>
        match FindTx(db.mempool, x, w.nonce, 0)
        case Some(id) => ([], Ok(Receipt(id, db.mempool[id].status)))
        case None => SubmitNew(c, db, t, w, x, y, amount)
  }

  function SubmitNew(c: Config, db: Db, t: Table, w: WireTx, x: nat, y: nat, amount: nat): (seq<Write>, Answer<Receipt>)
    requires c.e.p > 0 && c.e.order > 0
  {
    match ParseTo(c, w.to)
    case Err(error) => ([], Err(error))
    case Crash => ([], Crash)
    case Ok((to, dest)) =>
      match ParseSigned(c.e, w, x, y, amount, to, dest)
      case Err(error) => ([], Err(error))
      case Crash => ([], Crash)
      case Ok(tx) =>
        match Admission(c.e, db, t, tx)
        case Err(error) => ([], Err(error))
        case Crash => ([], Crash)
        case Ok(_) => ([AddTx(tx)], Ok(Receipt(|db.mempool|, TxPending)))
  }

  // ---------- observed_deposits ----------

  function AddDeposits(deps: seq<(nat, PendingDeposit)>): seq<Write> {
    if deps == [] then [] else [AddDeposit(deps[0].0, deps[0].1)] + AddDeposits(deps[1..])
  }

  function MaxSeq(deps: seq<(nat, PendingDeposit)>): nat {
    if deps == [] then 0 else Max(deps[0].0, MaxSeq(deps[1..]))
  }

  function ObservedDeposits(deps: seq<(nat, PendingDeposit)>): seq<Write> {
    if deps == [] then [] else AddDeposits(deps) + [SetCursor(MaxSeq(deps) + 1)]
  }

  // ---------- try_build_batch ----------

  datatype Job = Job(num: nat, wit: BatchWitness)

  function Rejects(cs: seq<Candidate>): seq<Write> {
    if cs == [] then [] else [RejectTx(cs[0].id)] + Rejects(cs[1..])
  }

  function TakeDeposits(seqs: seq<nat>, num: nat): seq<Write> {
    if seqs == [] then [] else [TakeDeposit(seqs[0], num)] + TakeDeposits(seqs[1..], num)
  }

  function TakeTxs(cs: seq<Candidate>, num: nat): seq<Write> {
    if cs == [] then [] else [TakeTx(cs[0].id, num)] + TakeTxs(cs[1..], num)
  }

  /** The row `insert_batch` writes. */
  function NewBatch(wit: BatchWitness, seqs: seq<nat>, deps: seq<PendingDeposit>, cs: seq<Candidate>): BatchRow
    requires |seqs| == |deps|
  {
    BatchRow(wit.pub.oldRoot, wit.pub.newRoot, |deps|, wit.pub.daCommitment,
             BlobOf(seqs, deps, Ids(cs), Txs(cs)), EnvelopeOf(wit.pub, |deps|, Txs(cs)), None, Proving)
  }

  function SelectedTxs(c: Config, db: Db): seq<Candidate> {
    Window(PendingTxs(db.mempool, 0, 4 * c.nSlots), c.nSlots, MAX_WITHDRAWALS)
  }

  /** The writes of a build, unless the number is taken: the batch row, then its
      inputs one by one. */
  function InsertBatch(num: nat, taken: bool, wit: BatchWitness, seqs: seq<nat>, deps: seq<PendingDeposit>,
                       cs: seq<Candidate>)
    : (seq<Write>, Answer<Option<Job>>)
    requires |seqs| == |deps|
  {
    if taken then ([], Err(Internal))
    else ([AddBatch(num, NewBatch(wit, seqs, deps, cs))] + TakeDeposits(seqs, num) + TakeTxs(cs, num),
          Ok(Some(Job(num, wit))))
  }

  /** What is written and replied once the loop has ended with r. */
  function Settle(num: nat, taken: bool, seqs: seq<nat>, deps: seq<PendingDeposit>, r: Eviction)
    : (seq<Write>, Answer<Option<Job>>)
    requires |seqs| == |deps|
  {
    match r.attempt
    case Stalled => (Rejects(r.dropped), Ok(None))
    case Died => (Rejects(r.dropped), Crash)
    case Ready(cs, wit) =>
      var (writes, reply) := InsertBatch(num, taken, wit, seqs, deps, cs);
      (Rejects(r.dropped) + writes, reply)
  }

  /** `build_batch_now`. */
  function BuildNow(c: Config, db: Db, t: Table): (seq<Write>, Answer<Option<Job>>)
    requires c.e.order > 0
  {
    var seqs := PendingDeposits(db, 0, c.dSlots);
    var deps := DepositsAt(db, seqs);
    Settle(db.confirmed + 1, db.confirmed + 1 in db.batches, seqs, deps,
           Restart(c, t, Requests(deps), SelectedTxs(c, db)))
  }

  /** `try_build_batch`; `waited`: the oldest pending row is older than the limit. */
  function TryBuild(c: Config, db: Db, t: Table, synced: bool, waited: bool): (seq<Write>, Answer<Option<Job>>)
    requires c.e.order > 0
  {
    var txs, deps := CountPendingTxs(db.mempool, 0), CountPendingDeposits(db, 0);
    if !synced || Inflight(db).Some? || (txs == 0 && deps == 0) then ([], Ok(None))
    else if !(txs > 1 || deps >= c.dSlots || waited) then ([], Ok(None))
    else BuildNow(c, db, t)
  }

  // ---------- the pipeline ----------

  /** `record_proof`: five words, both roots and the commitment as stored, and the
      proof's length. */
  function RecordProof(db: Db, num: nat, proof: Proof, words: seq<int>): (seq<Write>, Answer<Envelope>) {
    if num !in db.batches then ([], Err(NotFound))
    else
      var b := db.batches[num];
      if |words| != 5 || words[0] != b.oldRoot || words[1] != b.newRoot || words[4] != b.daCommitment
        then ([], Err(Internal))
      else if proof.bytes != PROOF_BYTES then ([], Err(Internal))
      else ([SetProof(num, proof)], Ok(b.envelope.(proof := proof)))
  }

  function MarkSubmitting(db: Db, num: nat): (seq<Write>, Answer<Envelope>) {
    if num !in db.batches then ([], Err(NotFound))
    else if db.batches[num].proof.None? then ([], Err(Internal))
    else ([SetStatus(num, Submitting)], Ok(db.batches[num].envelope))
  }

  /** `confirm_batch`: statements, the live tree afterwards, the reply. */
  function Confirm(c: Config, db: Db, t: Table, num: nat): (seq<Write>, Table, Answer<()>)
    requires c.e.p > 0 && c.e.order > 0
  {
    if num !in db.batches then ([], t, Err(NotFound))
    else
      var b := db.batches[num];
      match ParseBlob(c.e, b.blob)
      case None => ([], t, Err(Internal))
      case Some((ds, ts)) =>
        var s := Build(c.e, t, c.dSlots, c.nSlots, ds, ts);
        match s.outcome
        case Failed(_) => ([], t, Err(Internal))
        case Aborted => ([], t, Crash)
        case Built(wit) =>
          if wit.pub.newRoot != b.newRoot then ([], t, Err(Internal))
          else ([Finish(num, s.table, BlobSeqs(b.blob), BlobIds(b.blob))], s.table, Ok(()))
  }

  // ---------- boot ----------

  datatype Boot = Booted(tree: Table) | Halted

  /** `load_and_reconcile`. */
  function Reconcile(e: Env, db: Db, chainRoot: int, chainNum: nat): (seq<Write>, Boot) {
    var inflight := Inflight(db);
    if chainNum == db.confirmed + 1 then
      if inflight.Some? && db.batches[inflight.value].newRoot == chainRoot then ([], Booted(db.leaves))
        else ([], Halted)
    else if chainNum != db.confirmed then ([], Halted)
    else if Root(e, db.leaves) != chainRoot then ([], Halted)
    else if inflight.Some? && db.batches[inflight.value].status.Proving?
      then ([Requeue(inflight.value)], Booted(db.leaves))
    else ([], Booted(db.leaves))
  }
}
