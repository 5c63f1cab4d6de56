/** Every statement an engine command runs is allowed where it runs, so a crash
    between any two of them leaves consistent tables. */
module Safety {
  import opened Field
  import opened Hashing
  import opened Merkle
  import opened Circuit
  import opened Builder
  import opened Completeness
  import opened Contract
  import opened Encoding
  import opened Database
  import opened Eviction
  import opened Commands
  import opened Lifecycle

  // ---------- submit_tx ----------

  /** What the wire types and the strkey check ensure. */
  ghost predicate WireOk(x: Ctx, w: WireTx) {
    WireTyped(w) && (w.to.ToAddress? && w.to.address.Some? ==> w.to.address.value < x.holders)
  }

  lemma {:induction false} ParsedInField(p: nat, s: string)
    requires 0 < p < Pow256(WORD)
    ensures ParseField(p, s).Some? ==> ParseField(p, s).value < p
  {
    if ParseFr(p, s).Parsed? {
      AcceptedCanonical(p, s);
      CanonicalWords(p, ParseFr(p, s).word, ParseFr(p, s).word);
    }
  }

  lemma {:induction false} CheckedTxOk(x: Ctx, w: WireTx, pkX: nat, pkY: nat, amount: nat, to: nat, dest: nat,
                                       rX: Option<nat>, rY: Option<nat>, lo: Option<nat>, hi: Option<nat>)
    requires x.c.e.order > 0 && WireOk(x, w) && pkX != PAD_PK_X
    requires 0 < amount < U64 && pkX < x.c.e.p && pkY < x.c.e.p && to < x.c.e.p
    requires w.to.ToAddress? ==> dest < x.holders && to == AddressToField(x.c, dest)
    requires (rX.Some? ==> rX.value < x.c.e.p) && (rY.Some? ==> rY.value < x.c.e.p)
    ensures var r := CheckSigned(x.c.e, w, pkX, pkY, amount, to, dest, rX, rY, lo, hi);
            r.Ok? ==> TxOk(x, r.value)
  {}

  lemma {:induction false} ParsedTxOk(x: Ctx, w: WireTx, pkX: nat, pkY: nat, amount: nat, to: nat, dest: nat)
    requires Deployed(x.c) && WireOk(x, w) && pkX != PAD_PK_X
    requires 0 < amount < U64 && pkX < x.c.e.p && pkY < x.c.e.p && to < x.c.e.p
    requires w.to.ToAddress? ==> dest < x.holders && to == AddressToField(x.c, dest)
    ensures var r := ParseSigned(x.c.e, w, pkX, pkY, amount, to, dest);
            r.Ok? ==> TxOk(x, r.value)
  {
    var e := x.c.e;
    ParsedInField(e.p, w.rX);
    ParsedInField(e.p, w.rY);
    CheckedTxOk(x, w, pkX, pkY, amount, to, dest,
                ParseField(e.p, w.rX), ParseField(e.p, w.rY), ParseField(e.p, w.sLo), ParseField(e.p, w.sHi));
  }

  lemma {:induction false} ParsedTo(x: Ctx, w: WireTx)
    requires Deployed(x.c) && WireOk(x, w) && ParseTo(x.c, w.to).Ok?
    ensures var (to, dest) := ParseTo(x.c, w.to).value;
            to < x.c.e.p && (w.to.ToAddress? ==> dest < x.holders && to == AddressToField(x.c, dest))
  {
    if w.to.ToAccount? { ParsedInField(x.c.e.p, w.to.hex); }
  }

  lemma {:induction false} ParsedSender(e: Env, w: WireTx)
    requires 0 < e.p < Pow256(WORD) && WireTyped(w) && ParseSender(e, w).Ok?
    ensures var (x, y, amount) := ParseSender(e, w).value; x < e.p && y < e.p && 0 < amount < U64
  {
    ParsedInField(e.p, w.fromPkX);
    ParsedInField(e.p, w.fromPkY);
  }

  /** What an admitted row has passed. */
  predicate Admits(e: Env, db: Db, t: Table, tx: StoredTx) {
    FindTx(db.mempool, tx.fromPkX, tx.nonce, 0).None? && Admission(e, db, t, tx).Ok?
  }

  lemma {:induction false} SignedKeeps(e: Env, w: WireTx, x: nat, y: nat, amount: nat, to: nat, dest: nat)
    requires e.p > 0 && e.order > 0 && ParseSigned(e, w, x, y, amount, to, dest).Ok?
    ensures var tx := ParseSigned(e, w, x, y, amount, to, dest).value; tx.fromPkX == x && tx.nonce == w.nonce
  {}

  /** `submit_tx` writes nothing, or the one row it parsed and admitted. */
  lemma {:induction false} SubmitWrites(c: Config, db: Db, t: Table, w: WireTx)
    requires c.e.p > 0 && c.e.order > 0
    ensures var ws := SubmitTx(c, db, t, w).0;
            ws == [] ||
            (exists to, dest ::
               && ParseSender(c.e, w).Ok? && ParseTo(c, w.to) == Ok((to, dest))
               && var (x, y, amount) := ParseSender(c.e, w).value;
               && ParseSigned(c.e, w, x, y, amount, to, dest).Ok?
               && var tx := ParseSigned(c.e, w, x, y, amount, to, dest).value;
               && ws == [AddTx(tx)] && Admits(c.e, db, t, tx))
  {
    if SubmitTx(c, db, t, w).0 != [] {
      var (x, y, amount) := ParseSender(c.e, w).value;
      var (to, dest) := ParseTo(c, w.to).value;
      SignedKeeps(c.e, w, x, y, amount, to, dest);
    }
  }

  /** An admitted sender holds an account, so it is not the padding key. */
  lemma {:induction false} SenderNotPad(e: Env, db: Db, t: Table, tx: StoredTx)
    requires WellFormed(e, t) && Admission(e, db, t, tx).Ok?
    ensures tx.fromPkX != PAD_PK_X
  {}

  lemma {:induction false} SubmitOk(x: Ctx, db: Db, t: Table, w: WireTx)
    requires Deployed(x.c) && db.confirmed < |x.hist| && WireOk(x, w) && WellFormed(x.c.e, t)
    ensures AllOk(x, db, SubmitTx(x.c, db, t, w).0)
  {
    SubmitWrites(x.c, db, t, w);
    var ws := SubmitTx(x.c, db, t, w).0;
    if ws != [] {
      var (pkX, pkY, amount) := ParseSender(x.c.e, w).value;
      var (to, dest) := ParseTo(x.c, w.to).value;
      ParsedSender(x.c.e, w);
      ParsedTo(x, w);
      SignedKeeps(x.c.e, w, pkX, pkY, amount, to, dest);
      SenderNotPad(x.c.e, db, t, ws[0].tx);
      ParsedTxOk(x, w, pkX, pkY, amount, to, dest);
      FirstAllowed(x, db, ws[0]);
    }
  }

  // ---------- observed_deposits ----------

  /** What the watcher reads off the queue. */
  function Seen(log: seq<PendingDeposit>, from: nat, count: nat): seq<(nat, PendingDeposit)>
    requires from + count <= |log|
    decreases count
  {
    if count == 0 then [] else [(from, log[from])] + Seen(log, from + 1, count - 1)
  }

  lemma {:induction false} SeenMax(log: seq<PendingDeposit>, from: nat, count: nat)
    requires from + count <= |log| && count > 0
    ensures MaxSeq(Seen(log, from, count)) == from + count - 1
    decreases count
  {
    assert Seen(log, from, count)[1..] == Seen(log, from + 1, count - 1);
    if count > 1 { SeenMax(log, from + 1, count - 1); }
  }

  lemma {:induction false} SeenNext(log: seq<PendingDeposit>, from: nat, count: nat)
    requires from + count <= |log| && count > 0
    ensures AddDeposits(Seen(log, from, count)) == [AddDeposit(from, log[from])]
            + AddDeposits(Seen(log, from + 1, count - 1))
  {
    assert Seen(log, from, count)[1..] == Seen(log, from + 1, count - 1);
  }

  lemma {:induction false} SeenOk(x: Ctx, db: Db, from: nat, count: nat)
    requires x.c.e.order > 0 && db.confirmed < |x.hist| && from + count <= |x.log| && from <= db.depTop
    requires forall i: nat :: i in db.deposits <==> i < db.depTop
    ensures AllOk(x, db, AddDeposits(Seen(x.log, from, count)))
    ensures var next := ApplyAll(db, AddDeposits(Seen(x.log, from, count)));
            from + count <= next.depTop && next.confirmed == db.confirmed
    decreases count
  {
    if count > 0 {
      SeenNext(x.log, from, count);
      SeenOk(x, Apply(db, AddDeposit(from, x.log[from])), from + 1, count - 1);
    }
  }

  /** A report from any cursor not past the stored prefix, however stale. */
  lemma {:induction false} ObservedOk(x: Ctx, db: Db, from: nat, count: nat)
    requires x.c.e.order > 0 && db.confirmed < |x.hist| && from + count <= |x.log| && from <= db.depTop
    requires forall i: nat :: i in db.deposits <==> i < db.depTop
    ensures AllOk(x, db, ObservedDeposits(Seen(x.log, from, count)))
  {
    SeenOk(x, db, from, count);
    if count > 0 {
      SeenMax(x.log, from, count);
      var adds := AddDeposits(Seen(x.log, from, count));
      var next := ApplyAll(db, adds);
      assert [SetCursor(from + count)][1..] == [];
      AllOkAppend(x, db, adds, next, [SetCursor(from + count)]);
    }
  }

  // ---------- try_build_batch: the inputs ----------

  function Fewer(a: int, b: int): int {
    if a <= b then a else b
  }

  lemma {:induction false} NotConsumed(x: Ctx, db: Db, i: nat)
    requires TagsInv(x, db) && HeadsOk(x) && db.confirmed + 1 !in db.batches
             && x.hist[db.confirmed].head <= i < db.depTop
    ensures DepositIsPending(db, i)
  {
    assert DepositPhase(x, 0, db.confirmed, i, db.deposits[i]);
    ConsumedBelow(x, 0, db.confirmed, i, db.deposits[i]);
  }

  lemma {:induction false} ConsumedBelow(x: Ctx, count: nat, confirmed: nat, i: nat, row: DepositRow)
    requires confirmed < |x.hist| && HeadsOk(x) && DepositPhase(x, count, confirmed, i, row)
    ensures row.status.DepConsumed? ==> i < x.hist[confirmed].head
    ensures row.status.DepBatching? ==> i < x.hist[confirmed].head + count
  {
    if row.status.DepConsumed? { assert HeadAtMost(x, row.batchNum.value, confirmed); }
  }

  /** With no batch in flight the pending deposits are the queue from the head on. */
  lemma {:induction false} PendingFromHead(x: Ctx, db: Db, i: nat, limit: nat)
    requires TagsInv(x, db) && HeadsOk(x) && db.confirmed + 1 !in db.batches
    requires x.hist[db.confirmed].head <= i <= db.depTop
    ensures PendingDeposits(db, i, limit) == Range(i, Fewer(limit, db.depTop - i))
    decreases db.depTop - i
  {
    if i < db.depTop && limit > 0 {
      NotConsumed(x, db, i);
      PendingFromHead(x, db, i + 1, limit - 1);
      RangeNext(i, Fewer(limit, db.depTop - i));
    } else {
      assert Range(i, 0) == [];
    }
  }

  lemma {:induction false} RangeNext(i: nat, n: nat)
    requires n > 0
    ensures [i] + Range(i + 1, n - 1) == Range(i, n)
  {}

  lemma {:induction false} PendingSkips(x: Ctx, db: Db, i: nat, limit: nat)
    requires TagsInv(x, db) && HeadsOk(x) && db.confirmed + 1 !in db.batches && i <= x.hist[db.confirmed].head
    ensures PendingDeposits(db, i, limit) == PendingDeposits(db, x.hist[db.confirmed].head, limit)
    decreases x.hist[db.confirmed].head - i
  {
    if i < x.hist[db.confirmed].head {
      assert DepositPhase(x, 0, db.confirmed, i, db.deposits[i]);
      PendingSkips(x, db, i + 1, limit);
    }
  }

  lemma {:induction false} DepositsInRange(x: Ctx, db: Db, head: nat, m: nat)
    requires DepositsOk(x, db.deposits, db.depTop) && head + m <= db.depTop
    ensures forall k :: 0 <= k < m ==> Range(head, m)[k] in db.deposits
    ensures DepositsAt(db, Range(head, m)) == x.log[head..head + m]
  {}

  lemma {:induction false} PendingAre(x: Ctx, db: Db, head: nat, limit: nat)
    requires TagsInv(x, db) && HeadsOk(x) && db.confirmed + 1 !in db.batches && head == x.hist[db.confirmed].head
    ensures head <= db.depTop <= |x.log| && PendingDeposits(db, 0, limit) == Range(head, Fewer(limit, db.depTop - head))
  {
    PendingSkips(x, db, 0, limit);
    PendingFromHead(x, db, head, limit);
  }

  /** The deposits of a build are the head of the contract's queue. */
  lemma {:induction false} BuildDepositsAre(x: Ctx, db: Db, head: nat, m: int)
    requires TagsInv(x, db) && HeadsOk(x) && db.confirmed + 1 !in db.batches
    requires head == x.hist[db.confirmed].head && m == Fewer(x.c.dSlots, db.depTop - head)
    ensures 0 <= m && head + m <= db.depTop <= |x.log|
    ensures PendingDeposits(db, 0, x.c.dSlots) == Range(head, m)
    ensures DepositsAt(db, PendingDeposits(db, 0, x.c.dSlots)) == BatchDeposits(x, db.confirmed + 1, m)
  {
    PendingAre(x, db, head, x.c.dSlots);
    DepositsInRange(x, db, head, m);
  }

  /** Candidates still pending with the stored contents. */
  predicate AllPending(rows: seq<MempoolRow>, cs: seq<Candidate>) {
    forall k :: 0 <= k < |cs| ==> RowPending(rows, cs[k].id) && rows[cs[k].id].tx == cs[k].tx
  }

  lemma {:induction false} SelectedIs(c: Config, db: Db)
    ensures var cs := SelectedTxs(c, db);
            AllPending(db.mempool, cs) && Ascending(cs) && |cs| <= c.nSlots && ExitCount(cs) <= MAX_WITHDRAWALS
  {
    var pending := PendingTxs(db.mempool, 0, 4 * c.nSlots);
    var cs := SelectedTxs(c, db);
    PendingAscends(db.mempool, 0, 4 * c.nSlots);
    WindowLimits(pending, c.nSlots, MAX_WITHDRAWALS);
    WindowIsSubSeq(pending, c.nSlots, MAX_WITHDRAWALS);
    SubSeqAscends(cs, pending);
    SubSeqWithin(cs, pending);
    forall k | 0 <= k < |cs| ensures RowPending(db.mempool, cs[k].id) && db.mempool[cs[k].id].tx == cs[k].tx {
      assert cs[k] in pending;
    }
  }

  lemma {:induction false} SubPending(rows: seq<MempoolRow>, xs: seq<Candidate>, cs: seq<Candidate>)
    requires AllPending(rows, cs) && SubSeq(xs, cs)
    ensures AllPending(rows, xs)
  {
    SubSeqWithin(xs, cs);
    forall k | 0 <= k < |xs| ensures RowPending(rows, xs[k].id) && rows[xs[k].id].tx == xs[k].tx {
      assert xs[k] in cs;
    }
  }

  lemma {:induction false} WithdrawalCount(cs: seq<Candidate>)
    ensures |WithdrawalsOf(Txs(cs))| == ExitCount(cs)
  {
    if cs != [] { WithdrawalCount(cs[1..]); }
  }

  // ---------- try_build_batch: the writes ----------

  /** Evictions touch the evicted rows and nothing else. */
  predicate Rejected(db: Db, next: Db, cs: seq<Candidate>) {
    && next == db.(mempool := next.mempool) && |next.mempool| == |db.mempool|
    && forall i: nat :: i < |db.mempool| ==>
         next.mempool[i].tx == db.mempool[i].tx
         && ((forall k :: 0 <= k < |cs| ==> cs[k].id != i) ==> next.mempool[i] == db.mempool[i])
  }

  lemma {:induction false} RejectOne(x: Ctx, db: Db, cs: seq<Candidate>)
    requires x.c.e.order > 0 && db.confirmed < |x.hist| && db.confirmed + 1 !in db.batches
    requires cs != [] && AllPending(db.mempool, cs) && Ascending(cs)
    ensures WriteOk(x, db, RejectTx(cs[0].id))
    ensures var next := Apply(db, RejectTx(cs[0].id));
            AllPending(next.mempool, cs[1..]) && next.confirmed == db.confirmed && next.batches == db.batches
  {}

  lemma {:induction false} RejectsOk(x: Ctx, db: Db, cs: seq<Candidate>)
    requires x.c.e.order > 0 && db.confirmed < |x.hist| && db.confirmed + 1 !in db.batches
    requires AllPending(db.mempool, cs) && Ascending(cs)
    ensures AllOk(x, db, Rejects(cs)) && Rejected(db, ApplyAll(db, Rejects(cs)), cs)
    decreases |cs|
  {
    if cs != [] {
      var next := Apply(db, RejectTx(cs[0].id));
      RejectOne(x, db, cs);
      RejectsOk(x, next, cs[1..]);
      RejectedNext(db, next, ApplyAll(next, Rejects(cs[1..])), cs);
      RejectsHead(x, db, cs);
    }
  }

  lemma {:induction false} RejectsHead(x: Ctx, db: Db, cs: seq<Candidate>)
    requires x.c.e.order > 0 && cs != [] && db.confirmed < |x.hist| && WriteOk(x, db, RejectTx(cs[0].id))
    requires AllOk(x, Apply(db, RejectTx(cs[0].id)), Rejects(cs[1..]))
    ensures AllOk(x, db, Rejects(cs))
            && ApplyAll(db, Rejects(cs)) == ApplyAll(Apply(db, RejectTx(cs[0].id)), Rejects(cs[1..]))
  {
    assert Rejects(cs)[1..] == Rejects(cs[1..]);
  }

  lemma {:induction false} RejectedNext(db: Db, next: Db, last: Db, cs: seq<Candidate>)
    requires cs != [] && next == Apply(db, RejectTx(cs[0].id)) && Rejected(next, last, cs[1..])
    ensures Rejected(db, last, cs)
  {
    forall i: nat | i < |db.mempool|
      ensures last.mempool[i].tx == db.mempool[i].tx
      ensures (forall k :: 0 <= k < |cs| ==> cs[k].id != i) ==> last.mempool[i] == db.mempool[i]
    {
      if forall k :: 0 <= k < |cs| ==> cs[k].id != i {
        assert forall k :: 0 <= k < |cs[1..]| ==> cs[1..][k] == cs[k + 1];
      }
    }
  }

  /** Rows that build on the last ledger, after the first m queued deposits, into this
      witness. */
  ghost predicate Builds(x: Ctx, n: nat, m: nat, top: nat, cs: seq<Candidate>, wit: BatchWitness)
    requires x.c.e.order > 0
  {
    && 1 <= n <= |x.hist| && x.hist[n - 1].head + m <= top <= |x.log|
    && ExitCount(cs) <= MAX_WITHDRAWALS && (m != 0 || cs != [])
    && Rebuild(x.c, x.hist[n - 1].table, BatchDeposits(x, n, m), Txs(cs)).outcome == Built(wit)
  }

  /** The rows are pending, in order, and the number is free. */
  ghost predicate Placeable(x: Ctx, db: Db, n: nat, m: nat, cs: seq<Candidate>) {
    && n == |x.hist| == db.confirmed + 1 && n !in db.batches && x.hist[n - 1].head + m <= db.depTop
    && AllPending(db.mempool, cs) && Ascending(cs)
  }

  ghost predicate ReplaysTo(x: Ctx, rows: seq<MempoolRow>, n: nat, count: nat, ids: seq<nat>, wit: BatchWitness)
    requires x.c.e.order > 0
  {
    Located(x, rows, n, count, ids) && Replay(x, rows, n, count, ids).outcome == Built(wit)
  }

  /** The row a build inserts describes a batch that replays. */
  lemma {:induction false} NewBatchOk(x: Ctx, rows: seq<MempoolRow>, n: nat, m: nat, seqs: seq<nat>,
                                      deps: seq<PendingDeposit>, ids: seq<nat>, b: BatchRow, cs: seq<Candidate>,
                                      wit: BatchWitness, top: nat)
    requires x.c.e.order > 0 && n >= 1 && n == |x.hist| && x.hist[n - 1].head + m <= |x.log|
    requires AllPending(rows, cs) && Ascending(cs) && Builds(x, n, m, top, cs, wit)
    requires seqs == Range(x.hist[n - 1].head, m) && deps == BatchDeposits(x, n, m) && ids == Ids(cs)
    requires b == NewBatch(wit, seqs, deps, cs)
    ensures ReplaysTo(x, rows, n, m, ids, wit) && BatchOk(x, rows, n, b)
  {
    PendingTxsAt(rows, cs);
    WithdrawalCount(cs);
    BlobLists(seqs, deps, ids, Txs(cs));
    NewBatchRecords(Replay(x, rows, n, m, ids), x.hist[n - 1].head, seqs, deps, ids, TxsAt(rows, ids), cs, wit, b);
  }

  lemma {:induction false} PendingTxsAt(rows: seq<MempoolRow>, cs: seq<Candidate>)
    requires AllPending(rows, cs) && Ascending(cs)
    ensures InOrder(Ids(cs), |rows|) && TxsAt(rows, Ids(cs)) == Txs(cs)
    ensures forall id :: id in Ids(cs) ==> RowPending(rows, id)
  {
    forall k | 0 <= k < |cs|
      ensures Ids(cs)[k] < |rows| && RowPending(rows, Ids(cs)[k]) && rows[Ids(cs)[k]].tx == cs[k].tx {
      assert RowPending(rows, cs[k].id);
    }
  }

  lemma {:induction false} NewBatchRecords(s: Step<BatchWitness>, head: nat, seqs: seq<nat>, deps: seq<PendingDeposit>,
                                           ids: seq<nat>, txs: seq<StoredTx>, cs: seq<Candidate>, wit: BatchWitness,
                                           b: BatchRow)
    requires s.outcome == Built(wit) && (deps != [] || cs != []) && |WithdrawalsOf(txs)| <= MAX_WITHDRAWALS
    requires seqs == Range(head, |deps|) && ids == Ids(cs) && txs == Txs(cs) && b == NewBatch(wit, seqs, deps, cs)
    ensures Records(s, head, deps, ids, txs, b)
  {}

  lemma {:induction false} DepositThenRest(db: Db, i: nat, seqs: seq<nat>, status: DepositStatus, num: Option<nat>)
    ensures WithDeposits(WithDeposits(db, [i], status, num), seqs, status, num)
            == WithDeposits(db, [i] + seqs, status, num)
  {
    assert ([i] + seqs)[1..] == seqs && [i][1..] == [];
  }

  lemma {:induction false} TakeDepositsHead(db: Db, seqs: seq<nat>, n: nat)
    requires seqs != []
    ensures ApplyAll(db, TakeDeposits(seqs, n))
         == ApplyAll(WithDeposits(db, [seqs[0]], DepBatching, Some(n)), TakeDeposits(seqs[1..], n))
  {
    assert TakeDeposits(seqs, n)[1..] == TakeDeposits(seqs[1..], n);
  }

  lemma {:induction false} TakenDeposits(db: Db, seqs: seq<nat>, n: nat)
    ensures ApplyAll(db, TakeDeposits(seqs, n)) == WithDeposits(db, seqs, DepBatching, Some(n))
    decreases |seqs|
  {
    if seqs != [] {
      TakeDepositsHead(db, seqs, n);
      TakenDeposits(WithDeposits(db, [seqs[0]], DepBatching, Some(n)), seqs[1..], n);
      DepositThenRest(db, seqs[0], seqs[1..], DepBatching, Some(n));
      assert [seqs[0]] + seqs[1..] == seqs;
    }
  }

  lemma {:induction false} TxThenRest(db: Db, id: nat, ids: seq<nat>, status: TxStatus, num: Option<nat>)
    ensures WithTxs(WithTxs(db, [id], status, num), ids, status, num) == WithTxs(db, [id] + ids, status, num)
  {
    assert ([id] + ids)[1..] == ids && [id][1..] == [];
  }

  lemma {:induction false} TakeTxsHead(db: Db, cs: seq<Candidate>, n: nat)
    requires cs != []
    ensures ApplyAll(db, TakeTxs(cs, n)) == ApplyAll(WithTxs(db, [cs[0].id], TxBatching, Some(n)), TakeTxs(cs[1..], n))
    ensures Ids(cs) == [cs[0].id] + Ids(cs[1..])
  {
    assert TakeTxs(cs, n)[1..] == TakeTxs(cs[1..], n);
  }

  lemma {:induction false} TakenTxs(db: Db, cs: seq<Candidate>, n: nat)
    ensures ApplyAll(db, TakeTxs(cs, n)) == WithTxs(db, Ids(cs), TxBatching, Some(n))
    decreases |cs|
  {
    if cs != [] {
      TakeTxsHead(db, cs, n);
      TakenTxs(WithTxs(db, [cs[0].id], TxBatching, Some(n)), cs[1..], n);
      TxThenRest(db, cs[0].id, Ids(cs[1..]), TxBatching, Some(n));
    }
  }

  lemma {:induction false} TakeDepositAllowed(x: Ctx, db: Db, i: nat)
    requires x.c.e.order > 0 && db.confirmed < |x.hist| && TakeDepositOk(x, db, i)
    ensures WriteOk(x, db, TakeDeposit(i, db.confirmed + 1))
    ensures var next := Apply(db, TakeDeposit(i, db.confirmed + 1));
            next.confirmed == db.confirmed && next.batches == db.batches
  {}

  lemma {:induction false} TakeDepositsOk(x: Ctx, db: Db, seqs: seq<nat>)
    requires x.c.e.order > 0 && db.confirmed < |x.hist|
    requires forall k :: 0 <= k < |seqs| ==> TakeDepositOk(x, db, seqs[k])
    ensures AllOk(x, db, TakeDeposits(seqs, db.confirmed + 1))
    decreases |seqs|
  {
    if seqs != [] {
      TakeDepositAllowed(x, db, seqs[0]);
      var next := Apply(db, TakeDeposit(seqs[0], db.confirmed + 1));
      forall k | 0 <= k < |seqs[1..]| ensures TakeDepositOk(x, next, seqs[1..][k]) {
        assert TakeDepositOk(x, db, seqs[k + 1]);
      }
      TakeDepositsOk(x, next, seqs[1..]);
      assert TakeDeposits(seqs, db.confirmed + 1)[1..] == TakeDeposits(seqs[1..], db.confirmed + 1);
    }
  }

  lemma {:induction false} TakeTxsOk(x: Ctx, db: Db, cs: seq<Candidate>)
    requires x.c.e.order > 0 && db.confirmed < |x.hist| && Unproved(db)
    requires forall k :: 0 <= k < |cs| ==> Lists(db.batches, db.confirmed + 1, cs[k].id)
    ensures AllOk(x, db, TakeTxs(cs, db.confirmed + 1))
    decreases |cs|
  {
    if cs != [] {
      TakeTxsOk(x, Apply(db, TakeTx(cs[0].id, db.confirmed + 1)), cs[1..]);
      assert TakeTxs(cs, db.confirmed + 1)[1..] == TakeTxs(cs[1..], db.confirmed + 1);
    }
  }

  function RowWrites(n: nat, b: BatchRow, seqs: seq<nat>): seq<Write> {
    [AddBatch(n, b)] + TakeDeposits(seqs, n)
  }

  function InsertWrites(n: nat, b: BatchRow, seqs: seq<nat>, cs: seq<Candidate>): seq<Write> {
    RowWrites(n, b, seqs) + TakeTxs(cs, n)
  }

  function RowInserted(db: Db, n: nat, b: BatchRow, seqs: seq<nat>): Db {
    WithDeposits(Apply(db, AddBatch(n, b)), seqs, DepBatching, Some(n))
  }

  function Inserted(db: Db, n: nat, b: BatchRow, seqs: seq<nat>, cs: seq<Candidate>): Db {
    WithTxs(RowInserted(db, n, b, seqs), Ids(cs), TxBatching, Some(n))
  }

  lemma {:induction false} RowDoes(db: Db, n: nat, b: BatchRow, seqs: seq<nat>)
    ensures ApplyAll(db, RowWrites(n, b, seqs)) == RowInserted(db, n, b, seqs)
  {
    var first := [AddBatch(n, b)];
    assert first[1..] == [];
    ApplyAppend(db, first, TakeDeposits(seqs, n));
    TakenDeposits(Apply(db, AddBatch(n, b)), seqs, n);
  }

  lemma {:induction false} InsertDoes(db: Db, n: nat, b: BatchRow, seqs: seq<nat>, cs: seq<Candidate>)
    ensures ApplyAll(db, InsertWrites(n, b, seqs, cs)) == Inserted(db, n, b, seqs, cs)
  {
    ApplyAppend(db, RowWrites(n, b, seqs), TakeTxs(cs, n));
    RowDoes(db, n, b, seqs);
    TakenTxs(RowInserted(db, n, b, seqs), cs, n);
  }

  lemma {:induction false} FirstAllowed(x: Ctx, db: Db, w: Write)
    requires x.c.e.order > 0 && db.confirmed < |x.hist| && WriteOk(x, db, w)
    ensures AllOk(x, db, [w]) && ApplyAll(db, [w]) == Apply(db, w)
  {
    assert [w][1..] == [];
  }

  lemma {:induction false} DepositsTakable(x: Ctx, db: Db, mid: Db, n: nat, b: BatchRow, seqs: seq<nat>)
    requires x.c.e.order > 0 && db.confirmed < |x.hist| && n == db.confirmed + 1 && mid == Apply(db, AddBatch(n, b))
    requires b.status.Proving? && seqs == Range(x.hist[db.confirmed].head, b.depositCount)
    ensures AllOk(x, mid, TakeDeposits(seqs, n))
  {
    forall k | 0 <= k < |seqs| ensures TakeDepositOk(x, mid, seqs[k]) {}
    TakeDepositsOk(x, mid, seqs);
  }

  lemma {:induction false} RowAllowed(x: Ctx, db: Db, n: nat, b: BatchRow, seqs: seq<nat>)
    requires x.c.e.order > 0 && db.confirmed < |x.hist| && n == db.confirmed + 1 && WriteOk(x, db, AddBatch(n, b))
    requires b.status.Proving? && seqs == Range(x.hist[n - 1].head, b.depositCount)
    ensures AllOk(x, db, RowWrites(n, b, seqs))
  {
    var w, mid := AddBatch(n, b), Apply(db, AddBatch(n, b));
    FirstAllowed(x, db, w);
    DepositsTakable(x, db, mid, n, b, seqs);
    AllOkAppend(x, db, [w], mid, TakeDeposits(seqs, n));
  }

  lemma {:induction false} RowIs(db: Db, n: nat, b: BatchRow, seqs: seq<nat>)
    ensures var next := RowInserted(db, n, b, seqs);
            next.confirmed == db.confirmed && n in next.batches && next.batches[n] == b
  {}

  /** The batch row, then both lists of inputs. */
  lemma {:induction false} InsertAllowed(x: Ctx, db: Db, n: nat, b: BatchRow, seqs: seq<nat>, cs: seq<Candidate>)
    requires x.c.e.order > 0 && db.confirmed < |x.hist| && n == db.confirmed + 1 && WriteOk(x, db, AddBatch(n, b))
    requires b.status.Proving? && seqs == Range(x.hist[n - 1].head, b.depositCount) && BlobIds(b.blob) == Ids(cs)
    ensures AllOk(x, db, InsertWrites(n, b, seqs, cs))
  {
    RowAllowed(x, db, n, b, seqs);
    RowDoes(db, n, b, seqs);
    RowIs(db, n, b, seqs);
    TakeListed(x, RowInserted(db, n, b, seqs), n, b, cs);
    AllOkAppend(x, db, RowWrites(n, b, seqs), RowInserted(db, n, b, seqs), TakeTxs(cs, n));
  }

  lemma {:induction false} TakeListed(x: Ctx, db: Db, n: nat, b: BatchRow, cs: seq<Candidate>)
    requires x.c.e.order > 0 && db.confirmed < |x.hist| && n == db.confirmed + 1 && n in db.batches
             && db.batches[n] == b
    requires b.status.Proving? && BlobIds(b.blob) == Ids(cs)
    ensures AllOk(x, db, TakeTxs(cs, n))
  {
    forall k | 0 <= k < |cs| ensures Lists(db.batches, db.confirmed + 1, cs[k].id) {
      assert Ids(cs)[k] == cs[k].id;
    }
    TakeTxsOk(x, db, cs);
  }

  /** The job handed to the driver is the replay of the row that was stored. */
  ghost predicate JobHonest(x: Ctx, db: Db, job: Job)
    requires x.c.e.order > 0
  {
    && job.num == db.confirmed + 1 && Unproved(db) && Settled(x, db)
    && ReplaysTo(x, db.mempool, job.num, db.batches[job.num].depositCount, BlobIds(db.batches[job.num].blob), job.wit)
  }

  lemma {:induction false} InsertedIs(db: Db, n: nat, b: BatchRow, seqs: seq<nat>, cs: seq<Candidate>, next: Db)
    requires next == Inserted(db, n, b, seqs, cs)
    ensures n in next.batches && next.batches[n] == b && next.confirmed == db.confirmed
    ensures SameTxs(db.mempool, next.mempool)
    ensures forall id :: 0 <= id < |db.mempool| && id in Ids(cs) ==> next.mempool[id].status.TxBatching?
    ensures forall i :: i in next.deposits && i in seqs ==> next.deposits[i].status.DepBatching?
  {}

  lemma {:induction false} InsertedSettled(x: Ctx, db: Db, n: nat, b: BatchRow, seqs: seq<nat>, cs: seq<Candidate>,
                                           next: Db)
    requires db.confirmed < |x.hist| && AddBatchOk(x, db, b) && n == db.confirmed + 1
    requires seqs == Range(x.hist[n - 1].head, b.depositCount) && BlobIds(b.blob) == Ids(cs)
    requires next == Inserted(db, n, b, seqs, cs)
    ensures Unproved(next) && Settled(x, next) && next.batches[n] == b && next.confirmed == db.confirmed
    ensures SameTxs(db.mempool, next.mempool)
  {
    InsertedIs(db, n, b, seqs, cs, next);
    DepositsTaken(x, next, n, b.depositCount, seqs);
    ListedTaken(db, next, n, b, cs);
  }

  lemma {:induction false} DepositsTaken(x: Ctx, next: Db, n: nat, m: nat, seqs: seq<nat>)
    requires 1 <= n <= |x.hist| && seqs == Range(x.hist[n - 1].head, m)
    requires forall i :: i in next.deposits && i in seqs ==> next.deposits[i].status.DepBatching?
    ensures DepositsSettled(x, m, n - 1, next.deposits)
  {
    var head := x.hist[n - 1].head;
    forall i | i in next.deposits && head <= i < head + m ensures next.deposits[i].status.DepBatching? {
      assert seqs[i - head] == i;
    }
  }

  lemma {:induction false} ListedTaken(db: Db, next: Db, n: nat, b: BatchRow, cs: seq<Candidate>)
    requires n in next.batches && next.batches[n] == b && BlobIds(b.blob) == Ids(cs)
    requires forall id :: id in Ids(cs) ==> RowPending(db.mempool, id)
    requires |next.mempool| == |db.mempool|
    requires forall id :: 0 <= id < |db.mempool| && id in Ids(cs) ==> next.mempool[id].status.TxBatching?
    ensures TxsSettled(next.batches, n, next.mempool)
  {
    forall id: nat | Lists(next.batches, n, id) ensures id < |next.mempool| && next.mempool[id].status.TxBatching? {
      assert RowPending(db.mempool, id);
    }
  }

  lemma {:induction false} NewRowIs(wit: BatchWitness, seqs: seq<nat>, deps: seq<PendingDeposit>, cs: seq<Candidate>)
    requires |seqs| == |deps|
    ensures var b := NewBatch(wit, seqs, deps, cs);
            b.status.Proving? && b.depositCount == |deps| && BlobIds(b.blob) == Ids(cs)
  {
    BlobLists(seqs, deps, Ids(cs), Txs(cs));
  }

  lemma {:induction false} NewRowTags(x: Ctx, db: Db, n: nat, m: nat, b: BatchRow, cs: seq<Candidate>)
    requires Placeable(x, db, n, m, cs) && b.depositCount == m && b.status.Proving? && BlobIds(b.blob) == Ids(cs)
    ensures AddBatchOk(x, db, b)
  {
    PendingTxsAt(db.mempool, cs);
  }

  lemma {:induction false} RowOk(x: Ctx, db: Db, n: nat, b: BatchRow)
    requires x.c.e.order > 0 && db.confirmed < |x.hist| && n == db.confirmed + 1
    requires AddBatchOk(x, db, b) && BatchOk(x, db.mempool, n, b)
    ensures WriteOk(x, db, AddBatch(n, b))
  {}

  /** The row of a build is allowed. */
  lemma {:induction false} NewRowOk(x: Ctx, db: Db, n: nat, m: nat, b: BatchRow, cs: seq<Candidate>)
    requires x.c.e.order > 0 && 1 <= n <= |x.hist| && Placeable(x, db, n, m, cs)
    requires b.status.Proving? && b.depositCount == m && BlobIds(b.blob) == Ids(cs)
    requires BatchOk(x, db.mempool, n, b)
    ensures WriteOk(x, db, AddBatch(n, b))
  {
    NewRowTags(x, db, n, m, b, cs);
    RowOk(x, db, n, b);
  }

  lemma {:induction false} InsertOk(x: Ctx, db: Db, n: nat, m: nat, seqs: seq<nat>, b: BatchRow, cs: seq<Candidate>,
                                    wit: BatchWitness, next: Db)
    requires x.c.e.order > 0 && db.confirmed < |x.hist| && n == db.confirmed + 1 && WriteOk(x, db, AddBatch(n, b))
    requires seqs == Range(x.hist[n - 1].head, m) && b.depositCount == m && BlobIds(b.blob) == Ids(cs)
    requires b.status.Proving? && ReplaysTo(x, db.mempool, n, m, Ids(cs), wit) && next == Inserted(db, n, b, seqs, cs)
    ensures AllOk(x, db, InsertWrites(n, b, seqs, cs)) && JobHonest(x, next, Job(n, wit))
  {
    InsertAllowed(x, db, n, b, seqs, cs);
    InsertedSettled(x, db, n, b, seqs, cs, next);
    ReplayStays(x, x, db.mempool, next.mempool, n, m, Ids(cs));
    MakeJob(x, next, n, m, Ids(cs), b, wit);
  }

  lemma {:induction false} MakeJob(x: Ctx, db: Db, n: nat, m: nat, ids: seq<nat>, b: BatchRow, wit: BatchWitness)
    requires x.c.e.order > 0 && n == db.confirmed + 1 && Unproved(db) && db.batches[n] == b && Settled(x, db)
    requires m == b.depositCount && ids == BlobIds(b.blob) && ReplaysTo(x, db.mempool, n, m, ids, wit)
    ensures JobHonest(x, db, Job(n, wit))
  {}

  /** The writes of a build of these deposits and rows. */
  function PlanWrites(n: nat, seqs: seq<nat>, deps: seq<PendingDeposit>, cs: seq<Candidate>, wit: BatchWitness)
    : seq<Write>
    requires |seqs| == |deps|
  {
    InsertWrites(n, NewBatch(wit, seqs, deps, cs), seqs, cs)
  }

  lemma {:induction false} PlanOk(x: Ctx, db: Db, n: nat, m: nat, seqs: seq<nat>, b: BatchRow, cs: seq<Candidate>,
                                  wit: BatchWitness, ws: seq<Write>, next: Db)
    requires x.c.e.order > 0 && 1 <= n <= |x.hist| && Placeable(x, db, n, m, cs)
    requires b.status.Proving? && b.depositCount == m && BlobIds(b.blob) == Ids(cs)
    requires BatchOk(x, db.mempool, n, b) && ReplaysTo(x, db.mempool, n, m, Ids(cs), wit)
    requires seqs == Range(x.hist[n - 1].head, m) && ws == InsertWrites(n, b, seqs, cs) && next == ApplyAll(db, ws)
    ensures AllOk(x, db, ws) && JobHonest(x, next, Job(n, wit))
  {
    NewRowOk(x, db, n, m, b, cs);
    InsertDoes(db, n, b, seqs, cs);
    InsertOk(x, db, n, m, seqs, b, cs, wit, next);
  }

  lemma {:induction false} InsertJob(x: Ctx, db: Db, n: nat, m: nat, seqs: seq<nat>, deps: seq<PendingDeposit>,
                                     cs: seq<Candidate>, wit: BatchWitness, ws: seq<Write>, next: Db)
    requires x.c.e.order > 0 && 1 <= n <= |x.hist| && x.hist[n - 1].head + m <= |x.log|
    requires Placeable(x, db, n, m, cs) && Builds(x, n, m, db.depTop, cs, wit)
    requires seqs == Range(x.hist[n - 1].head, m) && deps == BatchDeposits(x, n, m)
    requires ws == PlanWrites(n, seqs, deps, cs, wit) && next == ApplyAll(db, ws)
    ensures AllOk(x, db, ws) && JobHonest(x, next, Job(n, wit))
  {
    NewRowIs(wit, seqs, deps, cs);
    var b := NewBatch(wit, seqs, deps, cs);
    NewBatchOk(x, db.mempool, n, m, seqs, deps, Ids(cs), b, cs, wit, db.depTop);
    PlanOk(x, db, n, m, seqs, b, cs, wit, ws, next);
  }

  lemma {:induction false} AppendJob(x: Ctx, db: Db, xs: seq<Write>, mid: Db, ys: seq<Write>, next: Db, job: Job)
    requires x.c.e.order > 0 && AllOk(x, db, xs) && mid == ApplyAll(db, xs) && AllOk(x, mid, ys)
    requires next == ApplyAll(mid, ys) && JobHonest(x, next, job)
    ensures AllOk(x, db, xs + ys) && next == ApplyAll(db, xs + ys)
  {
    AllOkAppend(x, db, xs, mid, ys);
  }

  lemma {:induction false} CountedIsPending(rows: seq<MempoolRow>, i: nat, limit: nat)
    requires limit > 0
    ensures CountPendingTxs(rows, i) > 0 ==> PendingTxs(rows, i, limit) != []
    decreases |rows| - i
  {
    if i < |rows| && !rows[i].status.TxPending? { CountedIsPending(rows, i + 1, limit); }
  }

  lemma {:induction false} CountedDeposit(db: Db, i: nat, limit: nat)
    requires limit > 0
    ensures CountPendingDeposits(db, i) > 0 ==> PendingDeposits(db, i, limit) != []
    decreases db.depTop - i
  {
    if i < db.depTop && !DepositIsPending(db, i) { CountedDeposit(db, i + 1, limit); }
  }

  /** Whatever survives the evictions is still pending. */
  lemma {:induction false} SurvivorsPending(db: Db, next: Db, dropped: seq<Candidate>, kept: seq<Candidate>)
    requires Rejected(db, next, dropped) && AllPending(db.mempool, kept)
    requires Apart(kept, dropped)
    ensures AllPending(next.mempool, kept)
  {
    forall k | 0 <= k < |kept|
      ensures RowPending(next.mempool, kept[k].id) && next.mempool[kept[k].id].tx == kept[k].tx {
      assert kept[k] in kept;
      assert forall j :: 0 <= j < |dropped| ==> dropped[j].id != kept[k].id;
      assert RowPending(db.mempool, kept[k].id);
    }
  }

  /** What the driver is handed, and what the tables then hold. */
  ghost predicate BuildDone(x: Ctx, confirmed: nat, next: Db, answer: Answer<Option<Job>>)
    requires x.c.e.order > 0
  {
    next.confirmed == confirmed &&
    match answer
    case Ok(Some(job)) => JobHonest(x, next, job)
    case Ok(None) => Settled(x, next)
    case Err(_) => false
    case Crash => true
  }

  lemma {:induction false} NothingInflight(x: Ctx, db: Db)
    requires db.confirmed < |x.hist| && db.confirmed + 1 !in db.batches
    ensures Settled(x, db)
  {
    var n := db.confirmed + 1;
    assert forall id: nat :: !Lists(db.batches, n, id);
  }

  /** What the loop leaves of candidates that were pending, in order. */
  ghost predicate Selection(c: Config, t: Table, deps: seq<PendingDeposit>, rows: seq<MempoolRow>, r: Eviction)
    requires c.e.order > 0
  {
    && AllPending(rows, r.dropped) && Ascending(r.dropped)
    && (r.attempt.Ready? ==>
          && AllPending(rows, r.attempt.rows) && Ascending(r.attempt.rows)
          && ExitCount(r.attempt.rows) <= MAX_WITHDRAWALS && (deps != [] || r.attempt.rows != [])
          && Apart(r.attempt.rows, r.dropped)
          && Rebuild(c, t, deps, Txs(r.attempt.rows)).outcome == Built(r.attempt.wit))
  }

  lemma {:induction false} EvictionsDone(x: Ctx, db: Db, mid: Db, dropped: seq<Candidate>, kept: seq<Candidate>)
    requires x.c.e.order > 0 && db.confirmed < |x.hist| && db.confirmed + 1 !in db.batches
    requires mid == ApplyAll(db, Rejects(dropped))
    requires AllPending(db.mempool, dropped) && Ascending(dropped) && AllPending(db.mempool, kept)
    requires Apart(kept, dropped)
    ensures AllOk(x, db, Rejects(dropped)) && AllPending(mid.mempool, kept) && mid == db.(mempool := mid.mempool)
    ensures Vacant(mid)
  {
    RejectsOk(x, db, dropped);
    SurvivorsPending(db, mid, dropped, kept);
  }

  /** The evictions leave the survivors as they were. */
  lemma {:induction false} AfterEvictions(x: Ctx, db: Db, mid: Db, n: nat, m: nat, dropped: seq<Candidate>,
                                          cs: seq<Candidate>)
    requires x.c.e.order > 0 && n >= 1 && Placeable(x, db, n, m, cs) && mid == ApplyAll(db, Rejects(dropped))
    requires AllPending(db.mempool, dropped) && Ascending(dropped)
    requires Apart(cs, dropped)
    ensures AllOk(x, db, Rejects(dropped)) && Placeable(x, mid, n, m, cs) && mid.depTop == db.depTop
  {
    EvictionsDone(x, db, mid, dropped, cs);
  }

  lemma {:induction false} SettleIs(n: nat, seqs: seq<nat>, deps: seq<PendingDeposit>, r: Eviction)
    requires |seqs| == |deps|
    ensures Settle(n, false, seqs, deps, r) ==
            match r.attempt
            case Stalled => (Rejects(r.dropped), Ok(None))
            case Died => (Rejects(r.dropped), Crash)
            case Ready(cs, wit) => (Rejects(r.dropped) + PlanWrites(n, seqs, deps, cs, wit), Ok(Some(Job(n, wit))))
  {}

  lemma {:induction false} NotReadyOk(x: Ctx, db: Db, r: Eviction)
    requires x.c.e.order > 0 && db.confirmed < |x.hist| && db.confirmed + 1 !in db.batches
    requires AllPending(db.mempool, r.dropped) && Ascending(r.dropped)
    ensures var next := ApplyAll(db, Rejects(r.dropped));
            AllOk(x, db, Rejects(r.dropped)) && Settled(x, next) && next.confirmed == db.confirmed
  {
    RejectsOk(x, db, r.dropped);
    NothingInflight(x, ApplyAll(db, Rejects(r.dropped)));
  }

  lemma {:induction false} SelectedPlan(x: Ctx, db: Db, n: nat, m: nat, r: Eviction)
    requires x.c.e.order > 0 && n == |x.hist| == db.confirmed + 1 && n !in db.batches
    requires x.hist[n - 1].head + m <= db.depTop <= |x.log| && r.attempt.Ready?
    requires Selection(x.c, x.hist[n - 1].table, BatchDeposits(x, n, m), db.mempool, r)
    ensures Placeable(x, db, n, m, r.attempt.rows) && Builds(x, n, m, db.depTop, r.attempt.rows, r.attempt.wit)
  {}

  /** What a build leaves, over writes that were all allowed. */
  ghost predicate BuiltOk(x: Ctx, db: Db, r: (seq<Write>, Answer<Option<Job>>))
    requires x.c.e.order > 0
  {
    AllOk(x, db, r.0) && BuildDone(x, db.confirmed, ApplyAll(db, r.0), r.1)
  }

  /** Evictions, then the batch of what is left. */
  lemma {:induction false} SettleReady(x: Ctx, db: Db, n: nat, m: nat, seqs: seq<nat>, deps: seq<PendingDeposit>,
                                       dropped: seq<Candidate>, cs: seq<Candidate>, wit: BatchWitness, plan: seq<Write>)
    requires x.c.e.order > 0 && 1 <= n <= |x.hist| && x.hist[n - 1].head + m <= |x.log|
    requires Placeable(x, db, n, m, cs) && Builds(x, n, m, db.depTop, cs, wit)
    requires AllPending(db.mempool, dropped) && Ascending(dropped)
    requires Apart(cs, dropped)
    requires seqs == Range(x.hist[n - 1].head, m) && deps == BatchDeposits(x, n, m) && |seqs| == |deps|
    requires plan == PlanWrites(n, seqs, deps, cs, wit)
    ensures AllOk(x, db, Rejects(dropped) + plan) && JobHonest(x, ApplyAll(db, Rejects(dropped) + plan), Job(n, wit))
    ensures ApplyAll(db, Rejects(dropped) + plan).confirmed == db.confirmed
  {
    var mid := ApplyAll(db, Rejects(dropped));
    AfterEvictions(x, db, mid, n, m, dropped, cs);
    InsertJob(x, mid, n, m, seqs, deps, cs, wit, plan, ApplyAll(mid, plan));
    AppendJob(x, db, Rejects(dropped), mid, plan, ApplyAll(mid, plan), Job(n, wit));
  }

  lemma {:induction false} SettleOk(x: Ctx, db: Db, n: nat, m: nat, seqs: seq<nat>, deps: seq<PendingDeposit>,
                                    r: Eviction)
    requires x.c.e.order > 0 && n == |x.hist| == db.confirmed + 1 && n !in db.batches
    requires x.hist[n - 1].head + m <= db.depTop <= |x.log|
    requires seqs == Range(x.hist[n - 1].head, m) && deps == BatchDeposits(x, n, m)
    requires Selection(x.c, x.hist[n - 1].table, deps, db.mempool, r)
    ensures BuiltOk(x, db, Settle(n, false, seqs, deps, r))
  {
    SettleIs(n, seqs, deps, r);
    if r.attempt.Ready? {
      var cs, wit := r.attempt.rows, r.attempt.wit;
      SelectedPlan(x, db, n, m, r);
      SettleReady(x, db, n, m, seqs, deps, r.dropped, cs, wit, PlanWrites(n, seqs, deps, cs, wit));
    } else {
      NotReadyOk(x, db, r);
    }
  }

  /** The eviction loop over these deposits and the selected transactions. */
  function Evicted(c: Config, db: Db, t: Table, deps: seq<PendingDeposit>): Eviction
    requires c.e.order > 0
  {
    Restart(c, t, Requests(deps), SelectedTxs(c, db))
  }

  lemma {:induction false} EvictionFits(c: Config, db: Db, t: Table, deps: seq<PendingDeposit>)
    requires c.e.order > 0 && |deps| <= c.dSlots && (deps != [] || SelectedTxs(c, db) != [])
    ensures Selection(c, t, deps, db.mempool, Evicted(c, db, t, deps))
  {
    SelectedIs(c, db);
    RestartFits(c, t, deps, db.mempool, SelectedTxs(c, db));
  }

  lemma {:induction false} RestartFits(c: Config, t: Table, deps: seq<PendingDeposit>, rows: seq<MempoolRow>,
                                       cs: seq<Candidate>)
    requires c.e.order > 0 && |deps| <= c.dSlots && |cs| <= c.nSlots && (deps != [] || cs != [])
    requires AllPending(rows, cs) && Ascending(cs) && ExitCount(cs) <= MAX_WITHDRAWALS
    ensures Selection(c, t, deps, rows, Restart(c, t, Requests(deps), cs))
  {
    var r := Restart(c, t, Requests(deps), cs);
    ReadySelection(c, t, Requests(deps), cs);
    SubPending(rows, r.dropped, cs);
    SubSeqAscends(r.dropped, cs);
    if r.attempt.Ready? {
      SubPending(rows, r.attempt.rows, cs);
      SubSeqAscends(r.attempt.rows, cs);
      SubSeqWithin(r.attempt.rows, cs);
      ReadyIsBuilt(c, t, Requests(deps), cs);
    }
  }

  lemma {:induction false} BuildNowIs(c: Config, db: Db, t: Table, n: nat, seqs: seq<nat>, deps: seq<PendingDeposit>)
    requires c.e.order > 0 && n == db.confirmed + 1 && n !in db.batches
    requires seqs == PendingDeposits(db, 0, c.dSlots) && deps == DepositsAt(db, seqs)
    ensures BuildNow(c, db, t) == Settle(n, false, seqs, deps, Evicted(c, db, t, deps))
  {}

  lemma {:induction false} BuildNowOk(x: Ctx, db: Db, t: Table)
    requires x.c.e.order > 0 && TagsInv(x, db) && HeadsOk(x) && db.confirmed + 1 !in db.batches
    requires PendingDeposits(db, 0, x.c.dSlots) != [] || SelectedTxs(x.c, db) != []
    requires t == x.hist[db.confirmed].table
    ensures BuiltOk(x, db, BuildNow(x.c, db, t))
  {
    var n, head := db.confirmed + 1, x.hist[db.confirmed].head;
    var m := Fewer(x.c.dSlots, db.depTop - head);
    BuildDepositsAre(x, db, head, m);
    var seqs, deps := Range(head, m), BatchDeposits(x, n, m);
    BuildNowIs(x.c, db, t, n, seqs, deps);
    EvictionFits(x.c, db, t, deps);
    SettleOk(x, db, n, m, seqs, deps, Evicted(x.c, db, t, deps));
  }

  /** A tick does nothing, or builds with something to build from. */
  lemma {:induction false} TryBuildIs(c: Config, db: Db, t: Table, waited: bool)
    requires c.e.order > 0 && c.dSlots >= 1 && c.nSlots >= 1
    ensures || TryBuild(c, db, t, true, waited) == ([], Ok(None))
            || (TryBuild(c, db, t, true, waited) == BuildNow(c, db, t) && Inflight(db).None?
                && (PendingDeposits(db, 0, c.dSlots) != [] || SelectedTxs(c, db) != []))
  {
    CountedIsPending(db.mempool, 0, 4 * c.nSlots);
    CountedDeposit(db, 0, c.dSlots);
    WindowLimits(PendingTxs(db.mempool, 0, 4 * c.nSlots), c.nSlots, MAX_WITHDRAWALS);
  }

  /** One tick of the build command: allowed writes, and an honest job. */
  lemma {:induction false} TryBuildOk(x: Ctx, db: Db, t: Table, waited: bool)
    requires x.c.e.order > 0 && x.c.dSlots >= 1 && x.c.nSlots >= 1
    requires TagsInv(x, db) && HeadsOk(x) && Settled(x, db) && t == x.hist[db.confirmed].table
    ensures BuiltOk(x, db, TryBuild(x.c, db, t, true, waited))
  {
    TryBuildIs(x.c, db, t, waited);
    InflightIs(x, db);
    if TryBuild(x.c, db, t, true, waited) != ([], Ok(None)) { BuildNowOk(x, db, t); }
  }
}
