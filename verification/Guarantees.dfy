/** What every run from genesis guarantees, whatever crashes, reboots, late
    landings and dishonest proofs it contains: each statement holds in every
    reachable state, or the run's own queries break the hash. */
module Guarantees {
  import opened Field
  import opened Hashing
  import opened Merkle
  import opened Ledger
  import opened Circuit
  import opened Builder
  import opened Completeness
  import opened Contract
  import opened Custody
  import opened Database
  import opened Eviction
  import opened Commands
  import opened Lifecycle
  import opened Safety
  import opened Pipeline
  import opened Landing
  import opened Admission
  import opened Settlement
  import opened Overflow
  import opened Waiting
  import opened Protocol
  import opened Runs

  // ---------- lockstep ----------

  /** The chain has the confirmed batch and its ledger, or is one ahead, with the
      proven batch in flight. */
  ghost predicate Lockstep(c: Config, db: Db, chain: State) {
    || (chain.batchNum == db.confirmed && chain.root == Root(c.e, db.leaves))
    || (&& chain.batchNum == db.confirmed + 1 && Inflight(db) == Some(db.confirmed + 1)
        && db.confirmed + 1 in db.batches
        && db.batches[db.confirmed + 1].proof.Some? && db.batches[db.confirmed + 1].newRoot == chain.root)
  }

  lemma {:induction false} AheadProof(x: Ctx, db: Db)
    requires x.c.e.order > 0 && BatchRows(x, db.batches, db.mempool) && db.confirmed + 1 in db.batches
    requires |x.hist| == db.confirmed + 2
    ensures db.batches[db.confirmed + 1].proof.Some?
  {
    LandedHead(x, db);
    ProvenRow(x, db);
  }

  lemma {:induction false} AheadRoot(x: Ctx, db: Db)
    requires CtxOk(x) && BatchRows(x, db.batches, db.mempool) && TxsOk(x, db.mempool) && db.confirmed + 1 in db.batches
    requires |x.hist| == db.confirmed + 2
    ensures db.batches[db.confirmed + 1].newRoot == Root(x.c.e, x.hist[db.confirmed + 1].table)
  {
    StoredReplay(x, db, db.confirmed + 1);
  }

  lemma {:induction false} LockstepNow(x: Ctx, db: Db, chain: State)
    requires DbInv(x, db) && ChainOk(x, chain)
    ensures Lockstep(x.c, db, chain)
  {
    InflightIs(x, db);
    if |x.hist| == db.confirmed + 2 {
      AheadProof(x, db);
      AheadRoot(x, db);
    }
  }

  lemma {:induction false} BootsNow(x: Ctx, db: Db, chain: State)
    requires DbInv(x, db) && ChainOk(x, chain)
    ensures Reconcile(x.c.e, db, chain.root, chain.batchNum).1 == Booted(db.leaves)
  {
    ReconcileOk(x, db);
  }

  /** The sequencer and the chain never drift apart, so that reconciliation at boot
      never refuses to start. */
  lemma {:induction false} LockstepAlways(c: Config, tokens: seq<nat>, r: Trace, s: Sys)
    requires RunTo(c, tokens, r, s)
    ensures (Lockstep(c, s.db, s.chain)
             && Reconcile(c.e, s.db, s.chain.root, s.chain.batchNum).1 == Booted(s.db.leaves))
            || Breaks(c.e, Queries(c, r))
  {
    InvariantOverEveryRun(c, tokens, r, s);
    if Inv(c, s) {
      LockstepNow(CtxOf(c, s), s.db, s.chain);
      BootsNow(CtxOf(c, s), s.db, s.chain);
    }
  }

  // ---------- rows ----------

  predicate ListsDeposit(batches: Batches, k: nat, i: nat) {
    k in batches && i in BlobSeqs(batches[k].blob)
  }

  /** An untaken row is listed by no batch; a taken one by the batch of its tag,
      which is the one in flight, or confirmed if the row is settled. */
  ghost predicate TxConserved(db: Db, id: nat)
    requires id < |db.mempool|
  {
    var row := db.mempool[id];
    match row.status
    case TxPending => row.batchNum == None && forall k :: !Lists(db.batches, k, id)
    case TxRejected => row.batchNum == None && forall k :: !Lists(db.batches, k, id)
    case TxBatching => row.batchNum.Some? && row.batchNum == Inflight(db) && Lists(db.batches, row.batchNum.value, id)
    case TxIncluded =>
      row.batchNum.Some? && Lists(db.batches, row.batchNum.value, id)
        && db.batches[row.batchNum.value].status.Confirmed?
  }

  ghost predicate DepositConserved(db: Db, i: nat)
    requires i in db.deposits
  {
    var row := db.deposits[i];
    match row.status
    case DepPending => row.batchNum == None && forall k :: !ListsDeposit(db.batches, k, i)
    case DepBatching => row.batchNum.Some? && row.batchNum == Inflight(db)
      && ListsDeposit(db.batches, row.batchNum.value, i)
    case DepConsumed =>
      row.batchNum.Some? && ListsDeposit(db.batches, row.batchNum.value, i)
        && db.batches[row.batchNum.value].status.Confirmed?
  }

  /** At most one batch in flight; rows and blobs agree; no input is in two blobs. */
  ghost predicate RowsConserved(db: Db) {
    && (forall n :: n in db.batches && !db.batches[n].status.Confirmed? ==> Inflight(db) == Some(n))
    && (forall id: nat :: id < |db.mempool| ==> TxConserved(db, id))
    && (forall i :: i in db.deposits ==> DepositConserved(db, i))
    && (forall j, k, id :: Lists(db.batches, j, id) && Lists(db.batches, k, id) ==> j == k)
    && (forall j, k, i :: ListsDeposit(db.batches, j, i) && ListsDeposit(db.batches, k, i) ==> j == k)
  }

  lemma {:induction false} TxRowConserved(x: Ctx, db: Db, id: nat)
    requires TagsInv(x, db) && Settled(x, db) && id < |db.mempool|
    ensures TxConserved(db, id)
  {
    InflightIs(x, db);
    assert TxPhase(db.batches, db.confirmed, id, db.mempool[id]);
    forall k: nat | Lists(db.batches, k, id)
      ensures k <= db.confirmed ==> db.mempool[id].status.TxIncluded?
      ensures k > db.confirmed ==> db.mempool[id].status.TxBatching?
    {
      assert TxTaken(db.confirmed, db.mempool, k, id);
    }
  }

  /** A batch lists the deposits from the head before it to the head after it. */
  lemma {:induction false} ListedDeposits(x: Ctx, db: Db, k: nat, i: nat)
    requires CtxOk(x) && BatchRows(x, db.batches, db.mempool) && TxsOk(x, db.mempool) && k in db.batches
    ensures var count := db.batches[k].depositCount;
            && 1 <= k <= |x.hist|
            && (ListsDeposit(db.batches, k, i) <==> x.hist[k - 1].head <= i < x.hist[k - 1].head + count)
            && (k < |x.hist| ==> x.hist[k].head == x.hist[k - 1].head + count)
  {
    StoredBlobParses(x, db, k);
    StoredReplay(x, db, k);
    var head := x.hist[k - 1].head;
    if head <= i < head + db.batches[k].depositCount {
      assert BlobSeqs(db.batches[k].blob)[i - head] == i;
    }
  }

  lemma {:induction false} HeadsInOrder(x: Ctx, j: nat, k: nat)
    requires HeadsOk(x) && 1 <= k <= |x.hist|
    ensures j < k ==> x.hist[j].head <= x.hist[k - 1].head
  {
    if j < k { assert HeadAtMost(x, j, k - 1); }
  }

  lemma {:induction false} DepositListedOnce(x: Ctx, db: Db, j: nat, k: nat, i: nat)
    requires CtxOk(x) && BatchRows(x, db.batches, db.mempool) && TxsOk(x, db.mempool)
    requires ListsDeposit(db.batches, j, i) && ListsDeposit(db.batches, k, i)
    ensures j == k
  {
    ListedDeposits(x, db, j, i);
    ListedDeposits(x, db, k, i);
    HeadsInOrder(x, j, k);
    HeadsInOrder(x, k, j);
  }

  /** A stored deposit before the confirmed head is consumed, one within the batch in
      flight is taken. */
  lemma {:induction false} PhaseByHead(x: Ctx, db: Db, i: nat)
    requires TagsInv(x, db) && Settled(x, db) && i in db.deposits
    ensures var head := x.hist[db.confirmed].head;
            && (i < head ==> db.deposits[i].status.DepConsumed?)
            && (head <= i < head + InflightCount(db.batches, db.confirmed) ==> db.deposits[i].status.DepBatching?)
  {
    assert DepositPhase(x, InflightCount(db.batches, db.confirmed), db.confirmed, i, db.deposits[i]);
  }

  lemma {:induction false} RangePhase(x: Ctx, db: Db, k: nat, i: nat)
    requires TagsInv(x, db) && Settled(x, db) && HeadsOk(x) && i in db.deposits && k in db.batches && 1 <= k <= |x.hist|
    requires x.hist[k - 1].head <= i < x.hist[k - 1].head + db.batches[k].depositCount
    requires k < |x.hist| ==> x.hist[k].head == x.hist[k - 1].head + db.batches[k].depositCount
    ensures k <= db.confirmed ==> db.deposits[i].status.DepConsumed?
    ensures k > db.confirmed ==> db.deposits[i].status.DepBatching?
  {
    PhaseByHead(x, db, i);
    HeadsInOrder(x, k, db.confirmed + 1);
  }

  lemma {:induction false} ListedDepositPhase(x: Ctx, db: Db, k: nat, i: nat)
    requires DbInv(x, db) && Settled(x, db) && i in db.deposits && ListsDeposit(db.batches, k, i)
    ensures k <= db.confirmed ==> db.deposits[i].status.DepConsumed?
    ensures k > db.confirmed ==> db.deposits[i].status.DepBatching?
  {
    ListedDeposits(x, db, k, i);
    RangePhase(x, db, k, i);
  }

  lemma {:induction false} TaggedDeposit(x: Ctx, db: Db, i: nat)
    requires DbInv(x, db) && i in db.deposits && !db.deposits[i].status.DepPending?
    ensures var row := db.deposits[i];
            && row.batchNum.Some? && ListsDeposit(db.batches, row.batchNum.value, i)
            && (if row.status.DepBatching? then row.batchNum.value == db.confirmed + 1
                else row.batchNum.value <= db.confirmed)
  {
    assert DepositPhase(x, InflightCount(db.batches, db.confirmed), db.confirmed, i, db.deposits[i]);
    ListedDeposits(x, db, db.deposits[i].batchNum.value, i);
  }

  lemma {:induction false} DepositRowConserved(x: Ctx, db: Db, i: nat)
    requires DbInv(x, db) && Settled(x, db) && i in db.deposits
    ensures DepositConserved(db, i)
  {
    InflightIs(x, db);
    if db.deposits[i].status.DepPending? {
      assert DepositPhase(x, InflightCount(db.batches, db.confirmed), db.confirmed, i, db.deposits[i]);
      forall k ensures !ListsDeposit(db.batches, k, i) {
        if ListsDeposit(db.batches, k, i) { ListedDepositPhase(x, db, k, i); }
      }
    } else {
      TaggedDeposit(x, db, i);
    }
  }

  lemma {:induction false} ConservedNow(x: Ctx, db: Db)
    requires DbInv(x, db) && Settled(x, db)
    ensures RowsConserved(db)
  {
    InflightIs(x, db);
    forall id: nat | id < |db.mempool| ensures TxConserved(db, id) { TxRowConserved(x, db, id); }
    forall i | i in db.deposits ensures DepositConserved(db, i) { DepositRowConserved(x, db, i); }
    forall j, k, id | Lists(db.batches, j, id) && Lists(db.batches, k, id) ensures j == k {
      ListedOnce(x, db, j, k, id);
    }
    forall j, k, i | ListsDeposit(db.batches, j, i) && ListsDeposit(db.batches, k, i) ensures j == k {
      DepositListedOnce(x, db, j, k, i);
    }
  }

  /** Whenever a process runs, between any two of its commands and after every boot,
      no row is lost, doubled or stuck between two batches. */
  lemma {:induction false} RowsAreConserved(c: Config, tokens: seq<nat>, r: Trace, s: Sys)
    requires RunTo(c, tokens, r, s) && Running(s)
    ensures RowsConserved(s.db) || Breaks(c.e, Queries(c, r))
  {
    InvariantOverEveryRun(c, tokens, r, s);
    if Inv(c, s) { ConservedNow(CtxOf(c, s), s.db); }
  }

  // ---------- the queue ----------

  /** Stored deposits are a gap-free prefix of everything ever enqueued, the
      contract's queue is its tail, and what confirmed batches consumed is
      everything before the head of the last of them. */
  ghost predicate QueueAligned(db: Db, chain: State, log: seq<PendingDeposit>) {
    && (forall i: nat :: i in db.deposits <==> i < db.depTop) && db.depTop <= |log| == chain.depTail
    && (forall i :: i in db.deposits ==> db.deposits[i].dep == log[i])
    && (forall i :: chain.depHead <= i < chain.depTail ==> i in chain.queue && chain.queue[i] == log[i])
    && var head := chain.depHead
       - (if chain.batchNum > db.confirmed then InflightCount(db.batches, db.confirmed) else 0);
    forall i :: i in db.deposits ==> (db.deposits[i].status.DepConsumed? <==> i < head)
  }

  /** The contract, given the envelope of batch n, recomputes exactly the public
      inputs of the build that the batch's blob describes. */
  ghost predicate ContractAgrees(c: Config, db: Db, chain: State, n: nat) {
    && n in db.batches && ValidState(c, chain) && c.e.p > 0 && c.e.order > 0
    && var env := db.batches[n].envelope;
    && chain.depHead + env.depositCount <= db.depTop <= chain.depTail
    && BlobSeqs(db.batches[n].blob) == Range(chain.depHead, env.depositCount)
    && match ParseBlob(c.e, db.batches[n].blob)
       case None => false
       case Some((ds, ts)) =>
         var s := Build(c.e, db.leaves, c.dSlots, c.nSlots, ds, ts);
         s.outcome.Built? && Publics(c, chain, env) == s.outcome.value.pub
  }

  lemma {:induction false} ConsumedIs(x: Ctx, db: Db, i: nat)
    requires TagsInv(x, db) && HeadsOk(x) && i in db.deposits
    ensures db.deposits[i].status.DepConsumed? <==> i < x.hist[db.confirmed].head
  {
    assert DepositPhase(x, InflightCount(db.batches, db.confirmed), db.confirmed, i, db.deposits[i]);
    if db.deposits[i].status.DepConsumed? { assert HeadAtMost(x, db.deposits[i].batchNum.value, db.confirmed); }
  }

  lemma {:induction false} HeadIs(x: Ctx, db: Db, chain: State)
    requires DbInv(x, db) && ChainOk(x, chain)
    ensures x.hist[db.confirmed].head
         == chain.depHead - (if chain.batchNum > db.confirmed then InflightCount(db.batches, db.confirmed) else 0)
  {
    if |x.hist| == db.confirmed + 2 { LandedBy(x, db, chain); } else { LevelWith(x, db, chain); }
  }

  lemma {:induction false} LevelWith(x: Ctx, db: Db, chain: State)
    requires DbInv(x, db) && ChainOk(x, chain) && |x.hist| != db.confirmed + 2
    ensures chain.batchNum == db.confirmed && chain.depHead == x.hist[db.confirmed].head
  {
    LastIs(x, db.confirmed + 1);
  }

  lemma {:induction false} LandedBy(x: Ctx, db: Db, chain: State)
    requires DbInv(x, db) && ChainOk(x, chain) && |x.hist| == db.confirmed + 2
    ensures chain.batchNum == db.confirmed + 1
    ensures chain.depHead == x.hist[db.confirmed].head + InflightCount(db.batches, db.confirmed)
  {
    LastIs(x, db.confirmed + 2);
    LandedHead(x, db);
  }

  lemma {:induction false} AlignedNow(x: Ctx, db: Db, chain: State)
    requires DbInv(x, db) && ChainOk(x, chain)
    ensures QueueAligned(db, chain, x.log)
  {
    HeadIs(x, db, chain);
    forall i | i in db.deposits ensures db.deposits[i].status.DepConsumed? <==> i < x.hist[db.confirmed].head {
      ConsumedIs(x, db, i);
    }
  }

  /** Row n's envelope claims what its replay publishes. */
  lemma {:induction false} StoredClaims(x: Ctx, db: Db, n: nat)
    requires x.c.e.order > 0 && BatchRows(x, db.batches, db.mempool) && n in db.batches
    ensures 1 <= n <= |x.hist| && |DepsOf(x, db, n)| == db.batches[n].depositCount
    ensures var s := Rebuild(x.c, x.hist[n - 1].table, DepsOf(x, db, n), TxsOf(x, db, n));
            s.outcome.Built? && Claims(db.batches[n].envelope, s.outcome.value.pub, |DepsOf(x, db, n)|, TxsOf(x, db, n))
  {
    StoredRecords(x, db, n);
  }

  lemma {:induction false} NextAligned(x: Ctx, db: Db, chain: State, n: nat)
    requires CtxOk(x) && BatchRows(x, db.batches, db.mempool) && TxsOk(x, db.mempool) && ChainOk(x, chain)
    requires n == |x.hist| && n in db.batches
    ensures Aligned(x, chain, DepsOf(x, db, n), TxsOf(x, db, n))
  {
    StoredNext(x, db, n);
    AlignedFrom(x, chain, DepsOf(x, db, n), TxsOf(x, db, n));
  }

  lemma {:induction false} AgreesFrom(x: Ctx, db: Db, chain: State, n: nat, s: Step<BatchWitness>,
                                      deps: seq<PendingDeposit>, txs: seq<StoredTx>)
    requires n in db.batches && ValidState(x.c, chain) && x.c.e.p > 0 && x.c.e.order > 0
    requires ParseBlob(x.c.e, db.batches[n].blob) == Some((Requests(deps), AllSigned(x.c.e, txs)))
    requires chain.depHead + db.batches[n].envelope.depositCount <= db.depTop <= chain.depTail
    requires BlobSeqs(db.batches[n].blob) == Range(chain.depHead, db.batches[n].envelope.depositCount)
    requires s == Rebuild(x.c, db.leaves, deps, txs) && s.outcome.Built?
    requires Publics(x.c, chain, db.batches[n].envelope) == s.outcome.value.pub
    ensures ContractAgrees(x.c, db, chain, n)
  {}

  lemma {:induction false} InflightWithinTop(x: Ctx, db: Db)
    requires TagsInv(x, db) && db.confirmed + 1 in db.batches
    ensures x.hist[db.confirmed].head + db.batches[db.confirmed + 1].depositCount <= db.depTop <= |x.log|
  {}

  lemma {:induction false} AgreesNow(x: Ctx, db: Db, chain: State, n: nat)
    requires CtxOk(x) && BatchRows(x, db.batches, db.mempool) && TxsOk(x, db.mempool) && ChainOk(x, chain)
    requires n == |x.hist| && n in db.batches && db.leaves == x.hist[n - 1].table
    requires x.hist[n - 1].head + db.batches[n].depositCount <= db.depTop <= |x.log|
    ensures ContractAgrees(x.c, db, chain, n)
  {
    LastIs(x, n);
    NextAligned(x, db, chain, n);
    StoredClaims(x, db, n);
    StoredBlobParses(x, db, n);
    var deps, txs := DepsOf(x, db, n), TxsOf(x, db, n);
    var s := Rebuild(x.c, x.hist[n - 1].table, deps, txs);
    ClaimedPublics(x, chain, s, deps, txs, db.batches[n].envelope);
    AgreesFrom(x, db, chain, n, s, deps, txs);
  }

  ghost predicate AgreesIfLevel(c: Config, db: Db, chain: State) {
    Inflight(db).Some? && chain.batchNum == db.confirmed ==> ContractAgrees(c, db, chain, Inflight(db).value)
  }

  lemma {:induction false} LevelAgrees(x: Ctx, db: Db, chain: State)
    requires DbInv(x, db) && ChainOk(x, chain)
    ensures AgreesIfLevel(x.c, db, chain)
  {
    InflightIs(x, db);
    if Inflight(db).Some? && chain.batchNum == db.confirmed {
      InflightWithinTop(x, db);
      AgreesNow(x, db, chain, db.confirmed + 1);
    }
  }

  /** Watcher, engine and contract agree on the queue, and a batch in flight that has
      not landed is built from the contract's next deposits. */
  lemma {:induction false} QueueStaysAligned(c: Config, tokens: seq<nat>, r: Trace, s: Sys)
    requires RunTo(c, tokens, r, s)
    ensures || Breaks(c.e, Queries(c, r))
            || (QueueAligned(s.db, s.chain, s.log) && AgreesIfLevel(c, s.db, s.chain))
  {
    InvariantOverEveryRun(c, tokens, r, s);
    if Inv(c, s) {
      AlignedNow(CtxOf(c, s), s.db, s.chain);
      LevelAgrees(CtxOf(c, s), s.db, s.chain);
    }
  }

  // ---------- a batch that may have reached the chain ----------

  /** The statements of an event's command, before any crash. */
  ghost function Statements(c: Config, s: Sys, ev: Event): seq<Write>
    requires c.e.p > 0 && c.e.order > 0 && Possible(c, s, ev)
  {
    if OnChain(ev) then [] else EffectOf(c, s, ev).writes
  }

  lemma {:induction false} StatementsOk(c: Config, s: Sys, ev: Event)
    requires Inv(c, s) && Possible(c, s, ev)
    ensures AllOk(CtxOf(c, s), s.db, Statements(c, s, ev))
  {
    if !OnChain(ev) { EventEffectOk(c, s, ev); }
  }

  lemma {:induction false} NextDb(c: Config, s: Sys, ev: Event, cut: Option<nat>)
    requires c.e.p > 0 && c.e.order > 0 && Possible(c, s, ev)
    ensures var ws := Statements(c, s, ev); Next(c, s, ev, cut).db == ApplyAll(s.db, ws[..RunCount(ws, cut)])
  {}

  /** A step of a run executes a prefix of its command's statements, all of them
      allowed. */
  lemma {:induction false} StepRuns(c: Config, r: Trace, i: nat) returns (ws: seq<Write>, n: nat)
    requires IsTrace(c, r) && i < |r.moves| && Inv(c, r.states[i])
    ensures Possible(c, r.states[i], r.moves[i].ev) && ws == Statements(c, r.states[i], r.moves[i].ev)
    ensures n <= |ws| && AllOk(CtxOf(c, r.states[i]), r.states[i].db, ws)
    ensures r.states[i + 1].db == ApplyAll(r.states[i].db, ws[..n])
  {
    assert StepAt(c, r, i);
    var s, ev, cut := r.states[i], r.moves[i].ev, r.moves[i].cut;
    ws := Statements(c, s, ev);
    StatementsOk(c, s, ev);
    NextDb(c, s, ev, cut);
    n := RunCount(ws, cut);
  }

  lemma {:induction false} StepKeepsSent(c: Config, r: Trace, i: nat)
    requires IsTrace(c, r) && i < |r.moves| && Inv(c, r.states[i])
    ensures SentKept(r.states[i].db, r.states[i + 1].db)
  {
    var ws, n := StepRuns(c, r, i);
    PrefixKeeps(CtxOf(c, r.states[i]), r.states[i].db, ws, n);
  }

  lemma {:induction false} SentTransitive(a: Db, b: Db, d: Db)
    requires SentKept(a, b) && SentKept(b, d)
    ensures SentKept(a, d)
  {}

  lemma {:induction false} RunKeepsSent(c: Config, tokens: seq<nat>, r: Trace, s: Sys, m: nat)
    requires RunTo(c, tokens, r, s) && m <= |r.moves| && !Breaks(c.e, Queries(c, r))
    ensures SentKept(r.states[m].db, s.db)
  {
    var first := r.states[m].db;
    var p := (u: Sys) => SentKept(first, u.db);
    forall i: nat | m <= i < |r.moves| && p(r.states[i]) ensures p(r.states[i + 1]) {
      StateInv(c, tokens, r, s, i);
      StepKeepsSent(c, r, i);
      SentTransitive(first, r.states[i].db, r.states[i + 1].db);
    }
    Along(p, r.states, m, |r.moves|);
  }

  /** Batch n is still there to be landed or confirmed with this envelope and blob,
      and holds every row and every deposit the blob lists. */
  predicate HeldAs(db: Db, n: nat, env: Envelope, blob: Blob) {
    && n in db.batches && Sent(db.batches[n].status) && db.batches[n].envelope == env && db.batches[n].blob == blob
    && (forall id :: id in BlobIds(blob) ==> HoldsTx(db, n, id))
    && (forall i :: i in BlobSeqs(blob) ==> HoldsDeposit(db, n, i))
  }

  predicate HoldsTx(db: Db, n: nat, id: nat) {
    && id < |db.mempool| && db.mempool[id].batchNum == Some(n)
    && (db.mempool[id].status.TxBatching? || db.mempool[id].status.TxIncluded?)
  }

  predicate HoldsDeposit(db: Db, n: nat, i: nat) {
    && i in db.deposits && db.deposits[i].batchNum == Some(n)
    && (db.deposits[i].status.DepBatching? || db.deposits[i].status.DepConsumed?)
  }

  lemma {:induction false} SentHoldsTx(x: Ctx, db: Db, n: nat, id: nat)
    requires TagsInv(x, db) && Lists(db.batches, n, id) && Sent(db.batches[n].status)
    ensures HoldsTx(db, n, id)
  {
    assert TxTaken(db.confirmed, db.mempool, n, id);
    assert TxPhase(db.batches, db.confirmed, id, db.mempool[id]);
  }

  /** A deposit listed by a sent batch is stored, and taken. */
  lemma {:induction false} SentTook(x: Ctx, db: Db, n: nat, i: nat)
    requires TagsInv(x, db) && HeadsOk(x) && n in db.batches && Sent(db.batches[n].status) && 1 <= n <= |x.hist|
    requires x.hist[n - 1].head <= i < x.hist[n - 1].head + db.batches[n].depositCount
    requires n < |x.hist| ==> x.hist[n].head == x.hist[n - 1].head + db.batches[n].depositCount
    ensures i in db.deposits && !db.deposits[i].status.DepPending?
  {
    HeadsInOrder(x, n, db.confirmed + 1);
    assert DepositPhase(x, InflightCount(db.batches, db.confirmed), db.confirmed, i, db.deposits[i]);
  }

  lemma {:induction false} SentHoldsDeposit(x: Ctx, db: Db, n: nat, i: nat)
    requires DbInv(x, db) && ListsDeposit(db.batches, n, i) && Sent(db.batches[n].status)
    ensures HoldsDeposit(db, n, i)
  {
    ListedDeposits(x, db, n, i);
    SentTook(x, db, n, i);
    TaggedDeposit(x, db, i);
    DepositListedOnce(x, db, n, db.deposits[i].batchNum.value, i);
  }

  lemma {:induction false} SentHolds(x: Ctx, db: Db, n: nat)
    requires DbInv(x, db) && n in db.batches && Sent(db.batches[n].status)
    ensures HeldAs(db, n, db.batches[n].envelope, db.batches[n].blob)
  {
    var blob := db.batches[n].blob;
    forall id | id in BlobIds(blob) ensures HoldsTx(db, n, id) { SentHoldsTx(x, db, n, id); }
    forall i | i in BlobSeqs(blob) ensures HoldsDeposit(db, n, i) { SentHoldsDeposit(x, db, n, i); }
  }

  /** Once an envelope has been handed to the network its batch is never requeued:
      however the run goes on after its m-th state, the row and its inputs stay. */
  lemma {:induction false} SentIsNeverRequeued(c: Config, tokens: seq<nat>, r: Trace, s: Sys, m: nat, n: nat,
                                               env: Envelope)
    requires RunTo(c, tokens, r, s) && m <= |r.moves| && (n, env) in r.states[m].sent
    ensures || Breaks(c.e, Queries(c, r))
            || (n in r.states[m].db.batches && HeldAs(s.db, n, env, r.states[m].db.batches[n].blob))
  {
    if !Breaks(c.e, Queries(c, r)) {
      StateInv(c, tokens, r, s, m);
      InvariantOverEveryRun(c, tokens, r, s);
      RunKeepsSent(c, tokens, r, s, m);
      SentHolds(CtxOf(c, s), s.db, n);
    }
  }

  /** Replaying confirmed batch k on the live tree queries the hash for its nodes. */
  ghost function ReplayQueries(c: Config, s: Sys, k: nat): set<seq<int>>
    requires c.e.order > 0 && k < |s.hist| && s.db.confirmed < |s.hist|
  {
    var x := CtxOf(c, s);
    TreeQueries(c.e, x.hist[k].table, c.e.depth, 0)
    + TreeQueries(c.e, Rebuild(c, x.hist[s.db.confirmed].table, DepsOf(x, s.db, k), TxsOf(x, s.db, k)).table,
                  c.e.depth, 0)
  }

  /** A batch applies once: confirming a confirmed number again errors and changes
      neither the live tree nor the tables. */
  lemma {:induction false} SecondConfirmAlwaysFails(c: Config, tokens: seq<nat>, r: Trace, s: Sys, k: nat)
    requires RunTo(c, tokens, r, s) && Running(s) && 1 <= k <= s.db.confirmed
    ensures || Breaks(c.e, Queries(c, r))
            || Confirm(c, s.db, s.process.value.tree, k) == ([], s.process.value.tree, Err(Internal))
            || (s.db.confirmed < |s.hist| && Breaks(c.e, ReplayQueries(c, s, k)))
  {
    InvariantOverEveryRun(c, tokens, r, s);
    if Inv(c, s) { SecondConfirmFails(CtxOf(c, s), s.db, k); }
  }

  // ---------- the batch in flight lands ----------

  /** The build a stored blob describes, on ledger t. */
  function BuildOf(c: Config, t: Table, blob: Blob): Step<BatchWitness>
    requires c.e.p > 0 && c.e.order > 0
  {
    match ParseBlob(c.e, blob)
    case None => Step(t, Aborted)
    case Some((ds, ts)) => Build(c.e, t, c.dSlots, c.nSlots, ds, ts)
  }

  /** The public inputs of the batch in flight can be computed, and the contract would
      take env right now if and only if its proof verifies for them. */
  ghost predicate LandsIffVerified(c: Config, chain: State, b: Step<BatchWitness>, env: Envelope) {
    && c.e.p > 0 && c.e.order > 0 && b.outcome.Built? && CallTyped(c, chain, SubmitCall(env))
    && var (next, reply) := SubmitSpec(c, chain, env);
    if Verifies(c, b.outcome.value.pub, env.proof) then reply.Done? && next.root == env.newRoot
    else next == chain && reply == Refused(VerificationFailed)
  }

  lemma {:induction false} StoredBuilds(x: Ctx, db: Db, n: nat)
    requires CtxOk(x) && BatchRows(x, db.batches, db.mempool) && TxsOk(x, db.mempool) && n in db.batches
    ensures 1 <= n <= |x.hist|
    ensures BuildOf(x.c, x.hist[n - 1].table, db.batches[n].blob)
         == Rebuild(x.c, x.hist[n - 1].table, DepsOf(x, db, n), TxsOf(x, db, n))
  {
    StoredBlobParses(x, db, n);
  }

  /** For the stored envelope with any proof of the right length. */
  lemma {:induction false} LandsNow(x: Ctx, db: Db, chain: State, n: nat, proof: Proof)
    requires CtxOk(x) && BatchRows(x, db.batches, db.mempool) && TxsOk(x, db.mempool) && ChainOk(x, chain)
    requires n == |x.hist| && n in db.batches && db.leaves == x.hist[n - 1].table && proof.bytes == PROOF_BYTES
    ensures LandsIffVerified(x.c, chain, BuildOf(x.c, db.leaves, db.batches[n].blob),
                             db.batches[n].envelope.(proof := proof))
  {
    LastIs(x, n);
    NextAligned(x, db, chain, n);
    StoredClaims(x, db, n);
    StoredBuilds(x, db, n);
    var deps, txs := DepsOf(x, db, n), TxsOf(x, db, n);
    var b := Rebuild(x.c, x.hist[n - 1].table, deps, txs);
    ClaimedLandsIff(x, chain, b, deps, txs, db.batches[n].envelope.(proof := proof));
  }

  lemma {:induction false} StoredProof(x: Ctx, db: Db, n: nat)
    requires x.c.e.order > 0 && BatchRows(x, db.batches, db.mempool) && n in db.batches && db.batches[n].proof.Some?
    ensures db.batches[n].envelope.proof == db.batches[n].proof.value && db.batches[n].proof.value.bytes == PROOF_BYTES
  {
    StoredRecords(x, db, n);
  }

  /** Whenever a proven batch is in flight and has not landed, the contract takes its
      envelope, in full, if and only if the stored proof verifies for the public inputs
      of the build its blob describes. */
  lemma {:induction false} InflightLandsIff(c: Config, tokens: seq<nat>, r: Trace, s: Sys, n: nat)
    requires RunTo(c, tokens, r, s) && s.chain.batchNum == s.db.confirmed && n == s.db.confirmed + 1
    requires n in s.db.batches && s.db.batches[n].proof.Some?
    ensures || Breaks(c.e, Queries(c, r))
            || LandsIffVerified(c, s.chain, BuildOf(c, s.db.leaves, s.db.batches[n].blob), s.db.batches[n].envelope)
  {
    InvariantOverEveryRun(c, tokens, r, s);
    if Inv(c, s) {
      StoredProof(CtxOf(c, s), s.db, n);
      LandsNow(CtxOf(c, s), s.db, s.chain, n, s.db.batches[n].proof.value);
      assert s.db.batches[n].envelope.(proof := s.db.batches[n].proof.value) == s.db.batches[n].envelope;
    }
  }

  /** So an honest proof always lands. */
  lemma {:induction false} InflightAlwaysLands(c: Config, tokens: seq<nat>, r: Trace, s: Sys, n: nat)
    requires RunTo(c, tokens, r, s) && s.chain.batchNum == s.db.confirmed && n == s.db.confirmed + 1
    requires n in s.db.batches && s.db.batches[n].proof.Some?
    requires var b := BuildOf(c, s.db.leaves, s.db.batches[n].blob);
             b.outcome.Built? && Honest(b.outcome.value, s.db.batches[n].proof.value)
    ensures var env := s.db.batches[n].envelope;
            || Breaks(c.e, Queries(c, r))
            || (CallTyped(c, s.chain, SubmitCall(env)) && SubmitSpec(c, s.chain, env).1.Done?
                && SubmitSpec(c, s.chain, env).0.root == env.newRoot)
  {
    InvariantOverEveryRun(c, tokens, r, s);
    InflightLandsIff(c, tokens, r, s, n);
    if Inv(c, s) {
      HonestBuildVerifies(CtxOf(c, s), s.db, n, s.db.leaves, BuildOf(c, s.db.leaves, s.db.batches[n].blob),
                          s.db.batches[n].proof.value);
      StoredProof(CtxOf(c, s), s.db, n);
    }
  }

  lemma {:induction false} HonestBuildVerifies(x: Ctx, db: Db, n: nat, t: Table, b: Step<BatchWitness>, proof: Proof)
    requires CtxOk(x) && BatchRows(x, db.batches, db.mempool) && TxsOk(x, db.mempool) && n in db.batches
    requires 1 <= n <= |x.hist| && t == x.hist[n - 1].table && b == BuildOf(x.c, t, db.batches[n].blob)
    requires b.outcome.Built? && Honest(b.outcome.value, proof)
    ensures Verifies(x.c, b.outcome.value.pub, proof)
  {
    StoredBuilds(x, db, n);
    StoredInputs(x, db, n);
    assert Past(x, n - 1);
    HonestVerifies(x, t, b, DepsOf(x, db, n), TxsOf(x, db, n), proof);
  }

  lemma {:induction false} RecordedNow(x: Ctx, db: Db, chain: State, n: nat, proof: Proof, words: seq<int>)
    requires DbInv(x, db) && ChainOk(x, chain) && Unproved(db) && n == db.confirmed + 1
    requires RecordProof(db, n, proof, words).1.Ok?
    ensures LandsIffVerified(x.c, chain, BuildOf(x.c, db.leaves, db.batches[n].blob),
                             RecordProof(db, n, proof, words).1.value)
  {
    UnprovedNotLanded(x, db);
    LandsNow(x, db, chain, n, proof);
  }

  /** What `record_proof` could have checked: while a batch is unproved, an envelope it
      replies with lands if and only if the proof verifies for the batch's own public
      inputs. */
  lemma {:induction false} RecordedLandsIff(c: Config, tokens: seq<nat>, r: Trace, s: Sys, proof: Proof,
                                            words: seq<int>)
    requires RunTo(c, tokens, r, s) && Unproved(s.db) && RecordProof(s.db, s.db.confirmed + 1, proof, words).1.Ok?
    ensures var n := s.db.confirmed + 1;
            || Breaks(c.e, Queries(c, r))
            || LandsIffVerified(c, s.chain, BuildOf(c, s.db.leaves, s.db.batches[n].blob),
                                RecordProof(s.db, n, proof, words).1.value)
  {
    InvariantOverEveryRun(c, tokens, r, s);
    if Inv(c, s) { RecordedNow(CtxOf(c, s), s.db, s.chain, s.db.confirmed + 1, proof, words); }
  }

  /** And it checks nothing of the kind: a proof of the right length with no witness
      behind it is recorded, and the contract refuses its envelope. */
  lemma {:induction false} EmptyProofIsRecorded(c: Config, tokens: seq<nat>, r: Trace, s: Sys)
    requires RunTo(c, tokens, r, s) && Unproved(s.db)
    ensures var n, proof := s.db.confirmed + 1, Proof(PROOF_BYTES, map[]);
            var b := s.db.batches[n];
            var (ws, reply) := RecordProof(s.db, n, proof, [b.oldRoot, b.newRoot, 0, 0, b.daCommitment]);
            && ws == [SetProof(n, proof)] && reply == Ok(b.envelope.(proof := proof))
            && (|| Breaks(c.e, Queries(c, r))
                || (CallTyped(c, s.chain, SubmitCall(reply.value))
                    && SubmitSpec(c, s.chain, reply.value) == (s.chain, Refused(VerificationFailed))))
  {
    var b := s.db.batches[s.db.confirmed + 1];
    RecordedLandsIff(c, tokens, r, s, Proof(PROOF_BYTES, map[]), [b.oldRoot, b.newRoot, 0, 0, b.daCommitment]);
  }

  // ---------- a proof that does not verify ----------

  /** Batch n, built from this blob on this ledger, has been sent with env and has not
      landed. */
  predicate Awaiting(s: Sys, n: nat, env: Envelope, t: Table, blob: Blob) {
    && (n, env) in s.sent && |s.hist| == n && s.db.leaves == t
    && n in s.db.batches && s.db.batches[n].blob == blob
  }

  /** The proof does not verify for the build of this blob. */
  predicate Unverified(c: Config, t: Table, blob: Blob, env: Envelope)
    requires c.e.p > 0 && c.e.order > 0
  {
    BuildOf(c, t, blob).outcome.Built? && !Verifies(c, BuildOf(c, t, blob).outcome.value.pub, env.proof)
  }

  lemma {:induction false} SameProof(env: Envelope)
    ensures env.(proof := env.proof) == env
  {}

  lemma {:induction false} LastInflight(x: Ctx, db: Db, n: nat)
    requires DbInv(x, db) && n in db.batches && |x.hist| == n
    ensures db.leaves == x.hist[n - 1].table
  {}

  lemma {:induction false} SentProof(x: Ctx, db: Db, n: nat, env: Envelope)
    requires DbInv(x, db) && n in db.batches && Sent(db.batches[n].status) && env == db.batches[n].envelope
    ensures env.proof.bytes == PROOF_BYTES && db.batches[n].envelope.(proof := env.proof) == env
  {
    SameProof(env);
    StoredEnvelope(x, db, n);
  }

  lemma {:induction false} SentLandsIff(x: Ctx, db: Db, chain: State, n: nat, env: Envelope)
    requires DbInv(x, db) && ChainOk(x, chain) && n == |x.hist|
    requires n in db.batches && Sent(db.batches[n].status) && env == db.batches[n].envelope
    ensures LandsIffVerified(x.c, chain, BuildOf(x.c, db.leaves, db.batches[n].blob), env)
  {
    SentProof(x, db, n, env);
    LastInflight(x, db, n);
    LandsNow(x, db, chain, n, env.proof);
  }

  lemma {:induction false} UnverifiedRefused(c: Config, s: Sys, n: nat, env: Envelope, t: Table, blob: Blob)
    requires c.e.p > 0 && c.e.order > 0 && Unverified(c, t, blob, env)
    requires Inv(c, s) && Awaiting(s, n, env, t, blob) && CallTyped(c, s.chain, SubmitCall(env))
    ensures SubmitSpec(c, s.chain, env).0 == s.chain && !SubmitSpec(c, s.chain, env).1.Done?
  {
    SentRange(c, s, n, env);
    SentLandsIff(CtxOf(c, s), s.db, s.chain, n, env);
  }

  /** The network can only execute envelopes that are refused. */
  lemma {:induction false} NothingLands(c: Config, K: set<seq<int>>, s: Sys, ev: Event, n: nat, env: Envelope,
                                        t: Table, blob: Blob)
    requires c.e.p > 0 && c.e.order > 0 && Unverified(c, t, blob, env)
    requires Inv(c, s) && Awaiting(s, n, env, t, blob) && OnChain(ev) && Possible(c, s, ev)
    requires StepQueries(c, s, ev) <= K && !Breaks(c.e, K)
    ensures ChainNext(c, s, ev).hist == s.hist
  {
    if ev.Lands? {
      SentRange(c, s, ev.num, ev.env);
      if ev.num < n { OldRefused(c, K, s, ev.num, ev.env); } else { UnverifiedRefused(c, s, n, env, t, blob); }
    }
  }

  lemma {:induction false} StepKeepsHist(c: Config, r: Trace, i: nat, n: nat, env: Envelope, t: Table, blob: Blob)
    requires c.e.p > 0 && c.e.order > 0 && Unverified(c, t, blob, env)
    requires IsTrace(c, r) && i < |r.moves| && Inv(c, r.states[i]) && !Breaks(c.e, Queries(c, r))
    requires Awaiting(r.states[i], n, env, t, blob)
    ensures r.states[i + 1].hist == r.states[i].hist && (n, env) in r.states[i + 1].sent
  {
    assert StepAt(c, r, i);
    if OnChain(r.moves[i].ev) {
      QueriesHold(c, r, i);
      NothingLands(c, Queries(c, r), r.states[i], r.moves[i].ev, n, env, t, blob);
    }
  }

  /** A sent batch that has not landed is the one in flight. */
  lemma {:induction false} SentIsInflight(c: Config, s: Sys, n: nat, env: Envelope)
    requires Inv(c, s) && (n, env) in s.sent && |s.hist| == n
    ensures n in s.db.batches && Sent(s.db.batches[n].status) && Inflight(s.db) == Some(n)
    ensures s.chain.batchNum == s.db.confirmed == n - 1 && s.db.leaves == s.hist[n - 1].table
  {
    SentRange(c, s, n, env);
    InflightIs(CtxOf(c, s), s.db);
  }

  lemma {:induction false} SameBlob(db: Db, next: Db, n: nat)
    requires SentKept(db, next) && n in db.batches && Sent(db.batches[n].status)
    ensures n in next.batches && next.batches[n].blob == db.batches[n].blob
  {}

  lemma {:induction false} StillWaiting(x: Ctx, db: Db, next: Db, n: nat, t: Table, blob: Blob)
    requires DbInv(x, db) && DbInv(x, next) && SentKept(db, next) && |x.hist| == n
    requires n in db.batches && Sent(db.batches[n].status) && db.leaves == t && db.batches[n].blob == blob
    ensures n in next.batches && next.batches[n].blob == blob && next.leaves == t
  {
    SameBlob(db, next, n);
    LastInflight(x, db, n);
    LastInflight(x, next, n);
  }

  lemma {:induction false} StepStaysWaiting(c: Config, r: Trace, i: nat, n: nat, env: Envelope, t: Table, blob: Blob)
    requires c.e.p > 0 && c.e.order > 0 && Unverified(c, t, blob, env)
    requires IsTrace(c, r) && i < |r.moves| && Inv(c, r.states[i])
    requires !Breaks(c.e, Queries(c, r)) && Awaiting(r.states[i], n, env, t, blob)
    ensures Awaiting(r.states[i + 1], n, env, t, blob)
  {
    var s, next := r.states[i], r.states[i + 1].db;
    StepKeepsHist(c, r, i, n, env, t, blob);
    SentIsInflight(c, s, n, env);
    var ws, k := StepRuns(c, r, i);
    PrefixKeeps(CtxOf(c, s), s.db, ws, k);
    StillWaiting(CtxOf(c, s), s.db, next, n, t, blob);
  }

  lemma {:induction false} StaysWaiting(c: Config, tokens: seq<nat>, r: Trace, s: Sys, m: nat, n: nat, env: Envelope,
                                        t: Table, blob: Blob)
    requires c.e.p > 0 && c.e.order > 0 && Unverified(c, t, blob, env)
    requires RunTo(c, tokens, r, s) && !Breaks(c.e, Queries(c, r)) && m <= |r.moves|
    requires Awaiting(r.states[m], n, env, t, blob)
    ensures Awaiting(s, n, env, t, blob)
  {
    var p := (u: Sys) => Awaiting(u, n, env, t, blob);
    assert p(r.states[m]);
    forall i: nat | m <= i < |r.moves| && p(r.states[i]) ensures p(r.states[i + 1]) {
      StateInv(c, tokens, r, s, i);
      StepStaysWaiting(c, r, i, n, env, t, blob);
    }
    Along(p, r.states, m, |r.moves|);
  }

  /** One unverified proof on its way ends the run's progress for good: its batch never
      lands and never makes room for another. */
  lemma {:induction false} UnverifiedIsForever(c: Config, tokens: seq<nat>, r: Trace, s: Sys, m: nat, n: nat,
                                               env: Envelope, t: Table, blob: Blob)
    requires c.e.p > 0 && c.e.order > 0 && Unverified(c, t, blob, env)
    requires RunTo(c, tokens, r, s) && m <= |r.moves| && Awaiting(r.states[m], n, env, t, blob)
    ensures || Breaks(c.e, Queries(c, r))
            || (s.chain.batchNum == s.db.confirmed == n - 1 && Inflight(s.db) == Some(n))
  {
    if !Breaks(c.e, Queries(c, r)) {
      StaysWaiting(c, tokens, r, s, m, n, env, t, blob);
      StateInv(c, tokens, r, s, |r.moves|);
      SentIsInflight(c, s, n, env);
    }
  }

  // ---------- overflow ----------

  lemma {:induction false} LandKeepsSupply(c: Config, s: State, env: Envelope)
    requires CanSubmit(c, s, env)
    ensures Supply(SubmitSpec(c, s, env).0.tokens) == Supply(s.tokens)
  {
    if Verdict(c, s, env).Done? { PayAllKeepsSupply(c.self, s.tokens, env.withdrawals); }
  }

  lemma {:induction false} ChainKeepsSupply(c: Config, s: Sys, ev: Event)
    requires OnChain(ev) && Possible(c, s, ev)
    ensures Supply(ChainNext(c, s, ev).chain.tokens) == Supply(s.chain.tokens)
  {
    match ev
    case Deposits(from, pk, amount) =>
      if DepositSpec(c, s.chain, from, pk, amount).1.Done? {
        TransferKeepsSupply(s.chain.tokens, from, c.self, amount);
      }
    case Lands(_, env) => LandKeepsSupply(c, s.chain, env);
    case Dies =>
  }

  lemma {:induction false} StepKeepsSupply(c: Config, r: Trace, i: nat)
    requires IsTrace(c, r) && i < |r.moves|
    ensures Supply(r.states[i + 1].chain.tokens) == Supply(r.states[i].chain.tokens)
  {
    assert StepAt(c, r, i);
    if OnChain(r.moves[i].ev) { ChainKeepsSupply(c, r.states[i], r.moves[i].ev); }
  }

  /** Tokens are only moved. */
  lemma {:induction false} RunSupply(c: Config, tokens: seq<nat>, r: Trace, s: Sys, n: nat)
    requires RunTo(c, tokens, r, s) && n <= |r.moves|
    ensures Supply(r.states[n].chain.tokens) == Supply(tokens)
  {
    var p := (u: Sys) => Supply(u.chain.tokens) == Supply(tokens);
    assert p(r.states[0]);
    forall i: nat | i < n && p(r.states[i]) ensures p(r.states[i + 1]) { StepKeepsSupply(c, r, i); }
    Along(p, r.states, 0, n);
  }

  /** The next `count` deposits of the contract's queue. */
  ghost function NextDeposits(s: Sys, count: nat): seq<DepositRequest>
    requires s.chain.depHead + count <= |s.log|
  {
    Requests(s.log[s.chain.depHead..s.chain.depHead + count])
  }

  lemma {:induction false} NextDepositsCreditable(x: Ctx, head: nat, count: nat, ds: seq<DepositRequest>)
    requires CtxOk(x) && head + count <= |x.log| && ds == Requests(x.log[head..head + count])
    ensures |ds| == count && forall j :: 0 <= j < |ds| ==> Creditable(x.c.e, ds[j])
  {
    forall j | 0 <= j < |ds| ensures Creditable(x.c.e, ds[j]) {
      assert EntryOk(x.c, x.log[head + j]);
    }
  }

  /** The balances behind the contract's root and any next deposits stay below 2^64
      together. */
  lemma {:induction false} NextDepositsFit(x: Ctx, chain: State, count: nat, t: Table, ds: seq<DepositRequest>)
    requires ChainOk(x, chain) && chain.depHead + count <= |x.log| && Supply(chain.tokens) < U64
    requires t == Last(x).table && ds == Requests(x.log[chain.depHead..chain.depHead + count])
    ensures TotalBalance(x.c.e, t) + Amounts(DepositPairs(ds)) < U64
  {
    QueueIsLog(x, chain, chain.depHead, count);
    EscrowBoundsPrefix(x.c, chain, t, count);
  }

  lemma {:induction false} NothingOverflows(x: Ctx, chain: State, count: nat, t: Table, ds: seq<DepositRequest>,
                                            ts: seq<SignedTx>)
    requires CtxOk(x) && ChainOk(x, chain) && chain.depHead + count <= |x.log| && Supply(chain.tokens) < U64
    requires t == Last(x).table && ds == Requests(x.log[chain.depHead..chain.depHead + count])
    requires forall i :: 0 <= i < |ts| ==> SignedTyped(x.c.e, ts[i])
    ensures !Overflowed(Build(x.c.e, t, x.c.dSlots, x.c.nSlots, ds, ts).outcome)
  {
    LastWellFormed(x);
    NextDepositsFit(x, chain, count, t, ds);
    NextDepositsCreditable(x, chain.depHead, count, ds);
    BuildNeverOverflows(x.c.e, t, x.c.dSlots, x.c.nSlots, ds, ts);
  }

  lemma {:induction false} NothingOverflowsIn(c: Config, s: Sys, count: nat, ts: seq<SignedTx>)
    requires Inv(c, s) && s.chain.depHead + count <= |s.log| && Supply(s.chain.tokens) < U64
    requires forall i :: 0 <= i < |ts| ==> SignedTyped(c.e, ts[i])
    ensures !Overflowed(Build(c.e, ChainLedger(s), c.dSlots, c.nSlots, NextDeposits(s, count), ts).outcome)
  {
    LedgerIs(c, s);
    NothingOverflows(CtxOf(c, s), s.chain, count, ChainLedger(s), NextDeposits(s, count), ts);
  }

  /** With a token supply below 2^64: in every reachable state, on the ledger behind
      the contract's root, building any number of its next deposits and any
      transactions never reports a balance overflow. */
  lemma {:induction false} OverflowNeverHappens(c: Config, tokens: seq<nat>, r: Trace, s: Sys,
                                                count: nat, ts: seq<SignedTx>)
    requires RunTo(c, tokens, r, s) && Supply(tokens) < U64 && s.chain.depHead + count <= |s.log|
    requires forall i :: 0 <= i < |ts| ==> SignedTyped(c.e, ts[i])
    ensures || Breaks(c.e, Queries(c, r))
            || !Overflowed(Build(c.e, ChainLedger(s), c.dSlots, c.nSlots, NextDeposits(s, count), ts).outcome)
  {
    InvariantOverEveryRun(c, tokens, r, s);
    RunSupply(c, tokens, r, s, |r.moves|);
    if Inv(c, s) { NothingOverflowsIn(c, s, count, ts); }
  }

  /** What `build_batch_now` runs its loop on. */
  function WindowDeposits(c: Config, db: Db): seq<DepositRequest> {
    Requests(DepositsAt(db, PendingDeposits(db, 0, c.dSlots)))
  }

  lemma {:induction false} WindowIsNext(x: Ctx, db: Db)
    requires CtxOk(x) && TagsInv(x, db) && db.confirmed + 1 !in db.batches
    ensures |x.hist| == db.confirmed + 1 && db.leaves == Last(x).table
    ensures var m := Fewer(x.c.dSlots, db.depTop - Last(x).head);
            && 0 <= m <= x.c.dSlots && Last(x).head + m <= |x.log|
            && WindowDeposits(x.c, db) == Requests(x.log[Last(x).head..Last(x).head + m])
  {
    LastIs(x, db.confirmed + 1);
    WindowFrom(x, db, x.hist[db.confirmed].head, Fewer(x.c.dSlots, db.depTop - x.hist[db.confirmed].head));
  }

  lemma {:induction false} WindowFrom(x: Ctx, db: Db, head: nat, m: int)
    requires TagsInv(x, db) && HeadsOk(x) && db.confirmed + 1 !in db.batches
    requires head == x.hist[db.confirmed].head && m == Fewer(x.c.dSlots, db.depTop - head)
    ensures 0 <= m <= x.c.dSlots && head + m <= |x.log|
    ensures WindowDeposits(x.c, db) == Requests(x.log[head..head + m])
  {
    BuildDepositsAre(x, db, head, m);
  }

  /** The only jam a reachable state can meet is a full tree: otherwise the loop
      stalls only when nothing is left to build. */
  lemma {:induction false} OnlyJamIsTreeFull(c: Config, tokens: seq<nat>, r: Trace, s: Sys)
    requires RunTo(c, tokens, r, s) && Supply(tokens) < U64 && Inflight(s.db).None?
    requires Restart(c, s.db.leaves, WindowDeposits(c, s.db), SelectedTxs(c, s.db)).attempt.Stalled?
    ensures var loop := Restart(c, s.db.leaves, WindowDeposits(c, s.db), SelectedTxs(c, s.db));
            || Breaks(c.e, Queries(c, r))
            || BuildDeposits(c.e, s.db.leaves, 0, WindowDeposits(c, s.db)).outcome == Failed(TreeFull)
            || (WindowDeposits(c, s.db) == [] && |loop.dropped| == |SelectedTxs(c, s.db)|)
  {
    InvariantOverEveryRun(c, tokens, r, s);
    if Inv(c, s) {
      RunSupply(c, tokens, r, s, |r.moves|);
      StallIsFullTree(CtxOf(c, s), s.db, s.chain);
    }
  }

  lemma {:induction false} WindowDepositsFit(x: Ctx, db: Db, chain: State, ds: seq<DepositRequest>)
    requires CtxOk(x) && TagsInv(x, db) && ChainOk(x, chain) && Supply(chain.tokens) < U64
             && db.confirmed + 1 !in db.batches
    requires ds == WindowDeposits(x.c, db)
    ensures |ds| <= x.c.dSlots && (forall j :: 0 <= j < |ds| ==> Creditable(x.c.e, ds[j]))
    ensures WellFormed(x.c.e, db.leaves) && TotalBalance(x.c.e, db.leaves) + Amounts(DepositPairs(ds)) < U64
  {
    var m := Fewer(x.c.dSlots, db.depTop - Last(x).head);
    WindowIsNext(x, db);
    LastWellFormed(x);
    assert chain.depHead == Last(x).head;
    NextDepositsFit(x, chain, m, db.leaves, ds);
    NextDepositsCreditable(x, chain.depHead, m, ds);
  }

  lemma {:induction false} WindowTxsTyped(x: Ctx, db: Db)
    requires x.c.e.order > 0 && TxsOk(x, db.mempool)
    ensures var cs := SelectedTxs(x.c, db); AllPending(db.mempool, cs) && AllTypedTxs(x.c.e, cs) && |cs| <= x.c.nSlots
  {
    SelectedIs(x.c, db);
    SelectedTyped(x, db.mempool, SelectedTxs(x.c, db));
  }

  lemma {:induction false} StallIsFullTree(x: Ctx, db: Db, chain: State)
    requires DbInv(x, db) && ChainOk(x, chain) && Supply(chain.tokens) < U64 && Inflight(db).None?
    requires Restart(x.c, db.leaves, WindowDeposits(x.c, db), SelectedTxs(x.c, db)).attempt.Stalled?
    ensures || BuildDeposits(x.c.e, db.leaves, 0, WindowDeposits(x.c, db)).outcome == Failed(TreeFull)
            || (WindowDeposits(x.c, db) == []
                && |Restart(x.c, db.leaves, WindowDeposits(x.c, db), SelectedTxs(x.c, db)).dropped|
                   == |SelectedTxs(x.c, db)|)
  {
    InflightIs(x, db);
    WindowDepositsFit(x, db, chain, WindowDeposits(x.c, db));
    WindowTxsTyped(x, db);
    JamIsTreeFull(x.c, db.leaves, WindowDeposits(x.c, db), SelectedTxs(x.c, db));
  }
}
