/** The commands that carry a built batch to confirmation: proof, submission,
    replay, and what a restart finds. */
module Pipeline {
  import opened Field
  import opened Hashing
  import opened Merkle
  import opened Ledger
  import opened Circuit
  import opened Soundness
  import opened Builder
  import opened Completeness
  import opened Contract
  import opened Custody
  import opened Encoding
  import opened Database
  import opened Commands
  import opened Lifecycle
  import opened Safety

  // ---------- a batch strictly advances the ledger ----------

  lemma {:induction false} NonceBound(e: Env, t: Table, n: nat)
    requires WellFormed(e, t)
    ensures SumNonces(t, n) <= n * U64
  {
    if n != 0 { NonceBound(e, t, n - 1); }
  }

  lemma {:induction false} SpendsAreMessages(e: Env, ops: seq<Op>)
    ensures |Messages(e, ops)| == Spends(ops)
  {
    if ops != [] { SpendsAreMessages(e, ops[1..]); }
  }

  lemma {:induction false} RequestMessageCount(e: Env, ts: seq<SignedTx>)
    ensures |RequestMessages(e, ts)| == |ts|
  {
    if ts != [] { RequestMessageCount(e, ts[1..]); }
  }

  ghost predicate InputsOk(x: Ctx, deps: seq<PendingDeposit>, txs: seq<StoredTx>) {
    && (forall i :: 0 <= i < |deps| ==> EntryOk(x.c, deps[i]))
    && (forall i :: 0 <= i < |txs| ==> TxOk(x, txs[i]))
  }

  lemma {:induction false} InputsTyped(x: Ctx, deps: seq<PendingDeposit>, txs: seq<StoredTx>)
    requires ValidEnv(x.c.e) && InputsOk(x, deps, txs)
    ensures AllTyped(x.c.e, Requests(deps), AllSigned(x.c.e, txs))
  {
    forall i | 0 <= i < |txs| ensures SignedTyped(x.c.e, AllSigned(x.c.e, txs)[i]) {
      StoredIsSignedTyped(x.c.e, txs[i]);
    }
  }

  /** The ledger operations of a built batch, as the circuit reads them. */
  lemma {:induction false} RebuildIsHonest(x: Ctx, t: Table, deps: seq<PendingDeposit>, txs: seq<StoredTx>)
    requires ValidEnv(x.c.e) && WellFormed(x.c.e, t) && InputsOk(x, deps, txs)
    requires Rebuild(x.c, t, deps, txs).outcome.Built?
    ensures var s := Rebuild(x.c, t, deps, txs);
            && WellFormed(x.c.e, s.table)
            && HonestBatch(x.c.e, t, x.c.dSlots, x.c.nSlots, Requests(deps), AllSigned(x.c.e, txs), s.table,
                           s.outcome.value)
            && |txs| <= x.c.nSlots
  {
    InputsTyped(x, deps, txs);
    BuilderComplete(x.c.e, t, x.c.dSlots, x.c.nSlots, Requests(deps), AllSigned(x.c.e, txs));
    BuiltParts(x.c.e, t, x.c.dSlots, x.c.nSlots, Requests(deps), AllSigned(x.c.e, txs));
  }

  lemma {:induction false} RebuildProgress(x: Ctx, t: Table, deps: seq<PendingDeposit>, txs: seq<StoredTx>)
    requires Deployed(x.c) && WellFormed(x.c.e, t) && InputsOk(x, deps, txs) && (deps != [] || txs != [])
    requires Rebuild(x.c, t, deps, txs).outcome.Built?
    ensures Before(x.c.e, t, Rebuild(x.c, t, deps, txs).table)
  {
    var e := x.c.e;
    var s := Rebuild(x.c, t, deps, txs);
    RebuildIsHonest(x, t, deps, txs);
    var ops := BatchOps(e, Render(s.outcome.value));
    SpendsAreMessages(e, ops);
    RequestMessageCount(e, AllSigned(e, txs));
    NonceBound(e, t, Pow2(e.depth));
    Progress(e, t, ops);
  }

  lemma {:induction false} RebuildRoots(x: Ctx, t: Table, deps: seq<PendingDeposit>, txs: seq<StoredTx>)
    requires x.c.e.order > 0 && Rebuild(x.c, t, deps, txs).outcome.Built?
    ensures var s := Rebuild(x.c, t, deps, txs);
            s.outcome.value.pub.oldRoot == Root(x.c.e, t) && s.outcome.value.pub.newRoot == Root(x.c.e, s.table)
  {
    BuiltParts(x.c.e, t, x.c.dSlots, x.c.nSlots, Requests(deps), AllSigned(x.c.e, txs));
  }

  // ---------- the stored row replays ----------

  predicate StoredAt(x: Ctx, db: Db, k: nat) {
    k in db.batches && Located(x, db.mempool, k, db.batches[k].depositCount, BlobIds(db.batches[k].blob))
  }

  /** The inputs of stored batch k. */
  function DepsOf(x: Ctx, db: Db, k: nat): seq<PendingDeposit> {
    if StoredAt(x, db, k) then BatchDeposits(x, k, db.batches[k].depositCount) else []
  }

  function TxsOf(x: Ctx, db: Db, k: nat): seq<StoredTx> {
    if StoredAt(x, db, k) then TxsAt(db.mempool, BlobIds(db.batches[k].blob)) else []
  }

  lemma {:induction false} StoredRecords(x: Ctx, db: Db, k: nat)
    requires x.c.e.order > 0 && BatchRows(x, db.batches, db.mempool) && k in db.batches
    ensures StoredAt(x, db, k) && 1 <= k <= |x.hist|
    ensures var s := Rebuild(x.c, x.hist[k - 1].table, DepsOf(x, db, k), TxsOf(x, db, k));
            && Records(s, x.hist[k - 1].head, DepsOf(x, db, k), BlobIds(db.batches[k].blob), TxsOf(x, db, k),
                       db.batches[k])
            && (k < |x.hist| ==>
                  Sent(db.batches[k].status)
                  && x.hist[k] == Epoch(s.table, x.hist[k - 1].head + db.batches[k].depositCount))
  {
    assert Stored(db.batches, k);
  }

  lemma {:induction false} StoredInputs(x: Ctx, db: Db, k: nat)
    requires CtxOk(x) && TxsOk(x, db.mempool)
    ensures InputsOk(x, DepsOf(x, db, k), TxsOf(x, db, k))
  {
    var deps, txs := DepsOf(x, db, k), TxsOf(x, db, k);
    forall i | 0 <= i < |txs| ensures TxOk(x, txs[i]) {
      assert txs[i] == db.mempool[BlobIds(db.batches[k].blob)[i]].tx;
    }
  }

  /** `parse_blob` of a stored row gives back the inputs of its build. */
  lemma {:induction false} StoredBlobParses(x: Ctx, db: Db, k: nat)
    requires CtxOk(x) && BatchRows(x, db.batches, db.mempool) && TxsOk(x, db.mempool) && k in db.batches
    ensures ParseBlob(x.c.e, db.batches[k].blob)
            == Some((Requests(DepsOf(x, db, k)), AllSigned(x.c.e, TxsOf(x, db, k))))
    ensures 1 <= k <= |x.hist| && BlobSeqs(db.batches[k].blob) == Range(x.hist[k - 1].head, db.batches[k].depositCount)
  {
    var b := db.batches[k];
    StoredRecords(x, db, k);
    StoredInputs(x, db, k);
    RecordedBlob(x, x.hist[k - 1].head, DepsOf(x, db, k), BlobIds(b.blob), TxsOf(x, db, k),
                 Rebuild(x.c, x.hist[k - 1].table, DepsOf(x, db, k), TxsOf(x, db, k)), b);
  }

  lemma {:induction false} RecordedBlob(x: Ctx, head: nat, deps: seq<PendingDeposit>, ids: seq<nat>,
                                        txs: seq<StoredTx>, s: Step<BatchWitness>, b: BatchRow)
    requires ValidEnv(x.c.e) && x.c.e.p < Pow256(WORD) && InputsOk(x, deps, txs) && |ids| == |txs|
             && Records(s, head, deps, ids, txs, b)
    ensures ParseBlob(x.c.e, b.blob) == Some((Requests(deps), AllSigned(x.c.e, txs)))
    ensures BlobSeqs(b.blob) == Range(head, |deps|)
  {
    BlobRoundTrip(x.c.e, Range(head, |deps|), deps, ids, txs);
    BlobLists(Range(head, |deps|), deps, ids, txs);
  }

  /** The facts a stored row records about its replay. */
  lemma {:induction false} StoredReplay(x: Ctx, db: Db, k: nat)
    requires CtxOk(x) && BatchRows(x, db.batches, db.mempool) && TxsOk(x, db.mempool) && k in db.batches
    ensures 1 <= k <= |x.hist|
    ensures var s := Rebuild(x.c, x.hist[k - 1].table, DepsOf(x, db, k), TxsOf(x, db, k));
            && s.outcome.Built? && db.batches[k].newRoot == Root(x.c.e, s.table)
               && s.outcome.value.pub.newRoot == db.batches[k].newRoot
            && WellFormed(x.c.e, s.table) && Before(x.c.e, x.hist[k - 1].table, s.table)
            && (k < |x.hist| ==> x.hist[k] == Epoch(s.table, x.hist[k - 1].head + db.batches[k].depositCount))
            && (DepsOf(x, db, k) != [] || TxsOf(x, db, k) != [])
  {
    StoredRecords(x, db, k);
    StoredInputs(x, db, k);
    assert Past(x, k - 1);
    RebuildIsHonest(x, x.hist[k - 1].table, DepsOf(x, db, k), TxsOf(x, db, k));
    RebuildProgress(x, x.hist[k - 1].table, DepsOf(x, db, k), TxsOf(x, db, k));
    RebuildRoots(x, x.hist[k - 1].table, DepsOf(x, db, k), TxsOf(x, db, k));
  }

  // ---------- record_proof and mark_submitting ----------

  /** Whatever proof the prover returned is recorded or refused; the reply is the
      envelope as stored. */
  lemma {:induction false} RecordProofOk(x: Ctx, db: Db, n: nat, proof: Proof, words: seq<int>)
    requires x.c.e.order > 0 && n == db.confirmed + 1 && Unproved(db) && Settled(x, db)
    ensures var (ws, answer) := RecordProof(db, n, proof, words);
            var next := ApplyAll(db, ws);
            && AllOk(x, db, ws) && !answer.Crash?
            && (answer.Err? ==> ws == [])
            && (answer.Ok? ==> Proven(next, n, answer.value) && Settled(x, next) && next.confirmed == db.confirmed)
  {
    if RecordProof(db, n, proof, words).1.Ok? {
      FirstAllowed(x, db, SetProof(n, proof));
      SettledMoves(x, db, WithProof(db.batches[n], proof));
    }
  }

  /** The batch in flight has its proof, and env is its envelope. */
  predicate Proven(db: Db, num: nat, env: Envelope) {
    num == db.confirmed + 1 && num in db.batches && !db.batches[num].status.Proving? && db.batches[num].envelope == env
  }

  lemma {:induction false} TxsSettledMove(batches: Batches, next: Batches, n: nat, rows: seq<MempoolRow>)
    requires n in batches && n in next && next[n].blob == batches[n].blob && TxsSettled(batches, n, rows)
    ensures TxsSettled(next, n, rows)
  {
    forall id: nat | Lists(next, n, id) ensures id < |rows| && rows[id].status.TxBatching? {
      assert Lists(batches, n, id);
    }
  }

  lemma {:induction false} SettledMoves(x: Ctx, db: Db, b: BatchRow)
    requires db.confirmed + 1 in db.batches && Settled(x, db)
    requires b.blob == db.batches[db.confirmed + 1].blob && b.depositCount == db.batches[db.confirmed + 1].depositCount
    ensures Settled(x, db.(batches := db.batches[db.confirmed + 1 := b]))
  {
    TxsSettledMove(db.batches, db.batches[db.confirmed + 1 := b], db.confirmed + 1, db.mempool);
  }

  lemma {:induction false} RecordedProof(x: Ctx, rows: seq<MempoolRow>, k: nat, count: nat, ids: seq<nat>, b: BatchRow)
    requires x.c.e.order > 0 && BatchAt(x, rows, k, count, ids, b) && !b.status.Proving?
    ensures b.proof.Some?
  {}

  lemma {:induction false} ProvenRow(x: Ctx, db: Db)
    requires x.c.e.order > 0 && BatchRows(x, db.batches, db.mempool) && db.confirmed + 1 in db.batches && !Unproved(db)
    ensures db.batches[db.confirmed + 1].proof.Some?
  {
    var n := db.confirmed + 1;
    InflightRow(x, db);
    RecordedProof(x, db.mempool, n, db.batches[n].depositCount, BlobIds(db.batches[n].blob), db.batches[n]);
  }

  lemma {:induction false} MarkSubmittingOk(x: Ctx, db: Db)
    requires x.c.e.order > 0 && db.confirmed < |x.hist| && db.confirmed + 1 in db.batches && !Unproved(db)
    requires db.batches[db.confirmed + 1].proof.Some?
    ensures var n := db.confirmed + 1;
            MarkSubmitting(db, n) == ([SetStatus(n, Submitting)], Ok(db.batches[n].envelope))
    ensures AllOk(x, db, [SetStatus(db.confirmed + 1, Submitting)])
    ensures var next := ApplyAll(db, [SetStatus(db.confirmed + 1, Submitting)]);
            Proven(next, db.confirmed + 1, db.batches[db.confirmed + 1].envelope)
              && Sent(next.batches[db.confirmed + 1].status)
  {
    FirstAllowed(x, db, SetStatus(db.confirmed + 1, Submitting));
  }

  lemma {:induction false} MarkSubmittedOk(x: Ctx, db: Db, env: Envelope)
    requires x.c.e.order > 0 && db.confirmed < |x.hist| && Proven(db, db.confirmed + 1, env)
    ensures AllOk(x, db, [SetStatus(db.confirmed + 1, Submitted)])
    ensures var next := ApplyAll(db, [SetStatus(db.confirmed + 1, Submitted)]);
            Proven(next, db.confirmed + 1, env) && Sent(next.batches[db.confirmed + 1].status)
  {
    FirstAllowed(x, db, SetStatus(db.confirmed + 1, Submitted));
  }

  lemma {:induction false} UnprovedNotLanded(x: Ctx, db: Db)
    requires x.c.e.order > 0 && BatchRows(x, db.batches, db.mempool) && Unproved(db)
    requires BatchNumbers(x, db.batches, db.batchTop, db.confirmed)
    ensures |x.hist| == db.confirmed + 1
  {
    InflightRow(x, db);
  }

  /** A batch without a proof was never sent; it may be requeued. */
  lemma {:induction false} RequeueOk(x: Ctx, db: Db)
    requires x.c.e.order > 0 && Unproved(db) && |x.hist| == db.confirmed + 1
    ensures AllOk(x, db, [Requeue(db.confirmed + 1)])
    ensures var next := ApplyAll(db, [Requeue(db.confirmed + 1)]);
            db.confirmed + 1 !in next.batches && next.confirmed == db.confirmed
  {
    FirstAllowed(x, db, Requeue(db.confirmed + 1));
  }

  // ---------- confirm_batch ----------

  lemma {:induction false} DepositsKeepKeys(e: Env, t: Table, i: nat, ds: seq<DepositRequest>)
    requires i <= |ds|
    ensures t.Keys <= BuildDeposits(e, t, i, ds).table.Keys
    decreases |ds| - i
  {
    if i < |ds| { DepositsKeepKeys(e, DepositStep(e, t, i, ds[i]).table, i + 1, ds); }
  }

  lemma {:induction false} TxsKeepKeys(e: Env, t: Table, i: nat, ts: seq<SignedTx>)
    requires i <= |ts|
    ensures t.Keys <= BuildTxs(e, t, i, ts).table.Keys
    decreases |ts| - i
  {
    if i < |ts| { TxsKeepKeys(e, TxStep(e, t, i, ts[i]).table, i + 1, ts); }
  }

  /** No slot is ever freed, so upserting the new leaves replaces the old ones. */
  lemma {:induction false} UpsertReplaces(c: Config, t: Table, deps: seq<PendingDeposit>, txs: seq<StoredTx>)
    requires c.e.order > 0
    ensures var u := Rebuild(c, t, deps, txs).table; t + u == u
  {
    var ds := Requests(deps);
    var d := BuildDeposits(c.e, t, 0, ds);
    DepositsKeepKeys(c.e, t, 0, ds);
    TxsKeepKeys(c.e, d.table, 0, AllSigned(c.e, txs));
  }

  lemma {:induction false} ConfirmIs(c: Config, db: Db, t: Table, n: nat, ds: seq<DepositRequest>, ts: seq<SignedTx>)
    requires c.e.p > 0 && c.e.order > 0 && n in db.batches && ParseBlob(c.e, db.batches[n].blob) == Some((ds, ts))
    ensures var s := Build(c.e, t, c.dSlots, c.nSlots, ds, ts);
            if s.outcome.Built? && s.outcome.value.pub.newRoot == db.batches[n].newRoot
            then Confirm(c, db, t, n)
              == ([Finish(n, s.table, BlobSeqs(db.batches[n].blob), BlobIds(db.batches[n].blob))], s.table, Ok(()))
            else Confirm(c, db, t, n) == ([], t, if s.outcome.Aborted? then Crash else Err(Internal))
  {}

  /** What confirming batch n must do: reply Ok, leave the chain's ledger in the tree,
      run allowed statements that record it. */
  ghost predicate ConfirmedAs(x: Ctx, db: Db, n: nat, r: (seq<Write>, Table, Answer<()>))
    requires x.c.e.order > 0 && n < |x.hist|
  {
    && r.2 == Ok(()) && r.1 == x.hist[n].table && AllOk(x, db, r.0)
    && ApplyAll(db, r.0).confirmed == n && ApplyAll(db, r.0).batches.Keys == db.batches.Keys
  }

  lemma {:induction false} FinishAs(x: Ctx, db: Db, n: nat, u: Table, seqs: seq<nat>, ids: seq<nat>)
    requires x.c.e.order > 0 && n == db.confirmed + 1 && db.confirmed < |x.hist| && FinishOk(x, db, u, seqs, ids)
    ensures ConfirmedAs(x, db, n, ([Finish(n, u, seqs, ids)], u, Ok(())))
  {
    FirstAllowed(x, db, Finish(n, u, seqs, ids));
  }

  lemma {:induction false} ConfirmReplays(x: Ctx, db: Db, t: Table, n: nat)
    requires CtxOk(x) && BatchRows(x, db.batches, db.mempool) && TxsOk(x, db.mempool)
    requires n in db.batches && 1 <= n < |x.hist| && t == x.hist[n - 1].table
    ensures Confirm(x.c, db, t, n)
         == ([Finish(n, x.hist[n].table, BlobSeqs(db.batches[n].blob), BlobIds(db.batches[n].blob))], x.hist[n].table,
             Ok(()))
  {
    StoredBlobParses(x, db, n);
    StoredReplay(x, db, n);
    ConfirmIs(x.c, db, t, n, Requests(DepsOf(x, db, n)), AllSigned(x.c.e, TxsOf(x, db, n)));
  }

  lemma {:induction false} FinishFrom(x: Ctx, db: Db, n: nat, deps: seq<PendingDeposit>, txs: seq<StoredTx>)
    requires x.c.e.order > 0 && n == db.confirmed + 1 && n in db.batches && |x.hist| == n + 1
             && db.leaves == x.hist[n - 1].table
    requires x.hist[n].table == Rebuild(x.c, x.hist[n - 1].table, deps, txs).table
    requires BlobSeqs(db.batches[n].blob) == Range(x.hist[n - 1].head, db.batches[n].depositCount)
    ensures FinishOk(x, db, x.hist[n].table, BlobSeqs(db.batches[n].blob), BlobIds(db.batches[n].blob))
  {
    UpsertReplaces(x.c, x.hist[n - 1].table, deps, txs);
  }

  lemma {:induction false} FinishAllowed(x: Ctx, db: Db, n: nat)
    requires CtxOk(x) && BatchRows(x, db.batches, db.mempool) && TxsOk(x, db.mempool)
    requires n == db.confirmed + 1 && n in db.batches && |x.hist| == n + 1 && db.leaves == x.hist[n - 1].table
    ensures FinishOk(x, db, x.hist[n].table, BlobSeqs(db.batches[n].blob), BlobIds(db.batches[n].blob))
  {
    StoredBlobParses(x, db, n);
    StoredReplay(x, db, n);
    FinishFrom(x, db, n, DepsOf(x, db, n), TxsOf(x, db, n));
  }

  /** A landed batch is confirmed: the replay lands on the root the chain holds, and
      the tree becomes the chain's ledger. */
  lemma {:induction false} ConfirmOk(x: Ctx, db: Db, t: Table, n: nat)
    requires DbInv(x, db) && n == db.confirmed + 1 && n in db.batches && |x.hist| == n + 1
             && t == x.hist[db.confirmed].table
    ensures ConfirmedAs(x, db, n, Confirm(x.c, db, t, n))
  {
    ConfirmReplays(x, db, t, n);
    FinishAllowed(x, db, n);
    FinishAs(x, db, n, x.hist[n].table, BlobSeqs(db.batches[n].blob), BlobIds(db.batches[n].blob));
  }

  // ---------- a second confirmation ----------

  lemma {:induction false} LaterTables(x: Ctx, j: nat, k: nat)
    requires CtxOk(x) && j < k < |x.hist|
    ensures Before(x.c.e, x.hist[j].table, x.hist[k].table)
    decreases k - j
  {
    assert Past(x, k);
    if j < k - 1 {
      LaterTables(x, j, k - 1);
      BeforeTransitive(x.c.e, x.hist[j].table, x.hist[k - 1].table, x.hist[k].table);
    }
  }

  /** Two tables with the same root, one strictly after the other, break the hash. */
  lemma {:induction false} SameRootBreaks(e: Env, t: Table, u: Table)
    requires SlotsInRange(e, t) && SlotsInRange(e, u) && Before(e, t, u) && Root(e, t) == Root(e, u)
    ensures Breaks(e, TreeQueries(e, t, e.depth, 0) + TreeQueries(e, u, e.depth, 0))
  {
    RootInjective(e, t, u);
  }

  /** A batch that landed as epoch k cannot be rebuilt, on that ledger or a later
      one, with the root it left then. */
  lemma {:induction false} NoSecondLanding(x: Ctx, k: nat, m: nat, deps: seq<PendingDeposit>, txs: seq<StoredTx>)
    requires CtxOk(x) && k <= m < |x.hist| && InputsOk(x, deps, txs) && (deps != [] || txs != [])
    requires var s := Rebuild(x.c, x.hist[m].table, deps, txs);
             s.outcome.Built? && s.outcome.value.pub.newRoot == Root(x.c.e, x.hist[k].table)
    ensures Breaks(x.c.e, TreeQueries(x.c.e, x.hist[k].table, x.c.e.depth, 0)
                          + TreeQueries(x.c.e, Rebuild(x.c, x.hist[m].table, deps, txs).table, x.c.e.depth, 0))
  {
    var e, u := x.c.e, Rebuild(x.c, x.hist[m].table, deps, txs).table;
    assert Past(x, m);
    assert Past(x, k);
    RebuildIsHonest(x, x.hist[m].table, deps, txs);
    RebuildProgress(x, x.hist[m].table, deps, txs);
    RebuildRoots(x, x.hist[m].table, deps, txs);
    if k < m {
      LaterTables(x, k, m);
      BeforeTransitive(e, x.hist[k].table, x.hist[m].table, u);
    }
    SameRootBreaks(e, x.hist[k].table, u);
  }

  /** Confirming a confirmed batch again does not succeed: its replay would have to
      land on an old root. */
  lemma {:induction false} SecondConfirmStays(x: Ctx, db: Db, k: nat)
    requires DbInv(x, db) && 1 <= k <= db.confirmed
    ensures var t := x.hist[db.confirmed].table;
            var (ws, tree, answer) := Confirm(x.c, db, t, k);
            || (ws == [] && tree == t && !answer.Ok?)
            || Breaks(x.c.e, TreeQueries(x.c.e, x.hist[k].table, x.c.e.depth, 0)
                             + TreeQueries(x.c.e, Rebuild(x.c, t, DepsOf(x, db, k), TxsOf(x, db, k)).table,
                                           x.c.e.depth, 0))
  {
    var t := x.hist[db.confirmed].table;
    StoredBlobParses(x, db, k);
    StoredReplay(x, db, k);
    StoredInputs(x, db, k);
    ConfirmIs(x.c, db, t, k, Requests(DepsOf(x, db, k)), AllSigned(x.c.e, TxsOf(x, db, k)));
    if Confirm(x.c, db, t, k).2.Ok? { NoSecondLanding(x, k, db.confirmed, DepsOf(x, db, k), TxsOf(x, db, k)); }
  }

  // ---------- boot ----------

  lemma {:induction false} ReconcileAhead(x: Ctx, db: Db)
    requires DbInv(x, db) && |x.hist| == db.confirmed + 2
    ensures Reconcile(x.c.e, db, Root(x.c.e, x.hist[|x.hist| - 1].table), |x.hist| - 1) == ([], Booted(db.leaves))
    ensures !Unproved(db)
  {
    LandedInflight(x, db);
    LandedRoot(x, db, db.confirmed + 1);
    LandedHead(x, db);
    ReconcileMatches(x.c.e, db, Root(x.c.e, x.hist[|x.hist| - 1].table));
  }

  lemma {:induction false} LandedInflight(x: Ctx, db: Db)
    requires TagsInv(x, db) && |x.hist| == db.confirmed + 2
    ensures Inflight(db) == Some(db.confirmed + 1) && db.confirmed + 1 in db.batches
  {
    InflightIs(x, db);
  }

  lemma {:induction false} LandedRoot(x: Ctx, db: Db, n: nat)
    requires DbInv(x, db) && n in db.batches && n == |x.hist| - 1
    ensures db.batches[n].newRoot == Root(x.c.e, x.hist[n].table)
  {
    StoredReplay(x, db, n);
  }

  lemma {:induction false} ReconcileMatches(e: Env, db: Db, root: int)
    requires Inflight(db) == Some(db.confirmed + 1) && db.confirmed + 1 in db.batches
    requires db.batches[db.confirmed + 1].newRoot == root
    ensures Reconcile(e, db, root, db.confirmed + 1) == ([], Booted(db.leaves))
  {}

  lemma {:induction false} ReconcileLevel(e: Env, db: Db, n: nat)
    requires n == db.confirmed + 1 && Inflight(db) == if n in db.batches then Some(n) else None
    ensures Reconcile(e, db, Root(e, db.leaves), db.confirmed)
            == (if Unproved(db) then [Requeue(n)] else [], Booted(db.leaves))
  {}

  /** Whatever the crash left, reconciliation accepts the tables, loads the last
      confirmed ledger, and leaves no unproved batch behind. */
  lemma {:induction false} ReconcileOk(x: Ctx, db: Db)
    requires DbInv(x, db)
    ensures var (ws, boot) := Reconcile(x.c.e, db, Root(x.c.e, x.hist[|x.hist| - 1].table), |x.hist| - 1);
            && boot == Booted(x.hist[db.confirmed].table)
            && ws == (if Unproved(db) then [Requeue(db.confirmed + 1)] else [])
  {
    if |x.hist| == db.confirmed + 2 {
      ReconcileAhead(x, db);
    } else {
      InflightIs(x, db);
      ReconcileLevel(x.c.e, db, db.confirmed + 1);
    }
  }
}
