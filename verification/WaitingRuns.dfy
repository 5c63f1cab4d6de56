/** Admission over whole runs, sender by sender: until one of its own rows is evicted
    a sender's waiting rows fit its account, and selections that are fair to it never
    evict it. */
module WaitingRuns {
  import opened Field
  import opened Hashing
  import opened Ledger
  import opened Builder
  import opened Completeness
  import opened Contract
  import opened Custody
  import opened Database
  import opened Eviction
  import opened Commands
  import opened Lifecycle
  import opened Safety
  import opened Landing
  import opened Admission
  import opened Senders
  import opened Overflow
  import opened Waiting
  import opened Protocol
  import opened Runs
  import opened Guarantees

  // ---------- one step ----------

  lemma {:induction false} AddsHarmless(deps: seq<(nat, PendingDeposit)>)
    ensures forall i :: 0 <= i < |AddDeposits(deps)| ==> AddDeposits(deps)[i].AddDeposit?
  {
    if deps != [] { AddsHarmless(deps[1..]); }
  }

  /** What an event's command runs: only submissions and ticks admit, take or evict a
      row. */
  predicate Makes(c: Config, db: Db, ev: Event, ws: seq<Write>)
    requires c.e.p > 0 && c.e.order > 0
  {
    match ev
    case Submits(w) => ws == SubmitTx(c, db, db.leaves, w).0
    case Ticks(waited) => ws == TryBuild(c, db, db.leaves, true, waited).0
    case _ => Plain(ws)
  }

  /** No row is admitted, taken or evicted. */
  predicate Plain(ws: seq<Write>) {
    forall i :: 0 <= i < |ws| ==> Harmless(ws[i]) && !ws[i].RejectTx?
  }

  lemma {:induction false} ObservedPlain(deps: seq<(nat, PendingDeposit)>)
    ensures Plain(ObservedDeposits(deps))
  {
    AddsHarmless(deps);
  }

  lemma {:induction false} PlainWait(e: Env, db: Db, ws: seq<Write>, pk: int)
    requires Plain(ws)
    ensures AllWait(e, db, ws, pk)
  {
    HarmlessWait(e, db, ws, pk);
  }

  lemma {:induction false} PlainSpares(rows: seq<MempoolRow>, ws: seq<Write>, pk: int)
    requires Plain(ws)
    ensures SparedBy(rows, ws, pk)
  {}

  lemma {:induction false} SubmitSpares(c: Config, db: Db, w: WireTx, pk: int)
    requires c.e.p > 0 && c.e.order > 0
    ensures SparedBy(db.mempool, SubmitTx(c, db, db.leaves, w).0, pk)
  {
    SubmitWrites(c, db, db.leaves, w);
  }

  lemma {:induction false} DriverPlain(c: Config, db: Db, p: Process, chainNum: nat, ev: Event)
    requires c.e.p > 0 && c.e.order > 0
    ensures Plain(DriverEffect(c, db, p, chainNum, ev).writes)
  {}

  lemma {:induction false} OthersPlain(c: Config, s: Sys, ev: Event)
    requires c.e.p > 0 && c.e.order > 0 && Possible(c, s, ev) && !ev.Submits? && !ev.Ticks?
    ensures Plain(Statements(c, s, ev))
  {
    if ev.Observes? {
      ObservedPlain(Seen(s.log, ev.from, ev.count));
    } else if !OnChain(ev) && !ev.Boots? {
      DriverPlain(c, s.db, s.process.value, s.chain.batchNum, ev);
    }
  }

  lemma {:induction false} StatementsMake(c: Config, s: Sys, ev: Event)
    requires Inv(c, s) && Possible(c, s, ev)
    ensures Makes(c, s.db, ev, Statements(c, s, ev))
  {
    if !ev.Submits? && !ev.Ticks? { OthersPlain(c, s, ev); }
  }

  /** A step of a run as a prefix of allowed statements of its kind. */
  lemma {:induction false} StepMakes(c: Config, r: Trace, i: nat) returns (ws: seq<Write>, n: nat)
    requires IsTrace(c, r) && i < |r.moves| && Inv(c, r.states[i])
    ensures n <= |ws| && AllOk(CtxOf(c, r.states[i]), r.states[i].db, ws) && Makes(c, r.states[i].db, r.moves[i].ev, ws)
    ensures r.states[i + 1].db == ApplyAll(r.states[i].db, ws[..n])
  {
    ws, n := StepRuns(c, r, i);
    StatementsMake(c, r.states[i], r.moves[i].ev);
  }

  // ---------- waiting rows stay orderly ----------

  predicate DbWaits(e: Env, db: Db, pk: int) {
    Waits(e, db.leaves, db.mempool, pk)
  }

  lemma {:induction false} MadeWait(x: Ctx, db: Db, ev: Event, ws: seq<Write>, pk: int)
    requires DbInv(x, db) && Makes(x.c, db, ev, ws) && Waits(x.c.e, db.leaves, db.mempool, pk)
    ensures AllWait(x.c.e, db, ws, pk)
  {
    match ev
    case Submits(w) => SubmitWaits(x.c, db, w, pk);
    case Ticks(waited) => TickWaits(x, db, db.leaves, waited, pk);
    case _ => PlainWait(x.c.e, db, ws, pk);
  }

  lemma {:induction false} StepWaits(c: Config, r: Trace, i: nat, pk: int)
    requires IsTrace(c, r) && i < |r.moves| && Inv(c, r.states[i]) && DbWaits(c.e, r.states[i].db, pk)
    ensures DbWaits(c.e, r.states[i + 1].db, pk)
  {
    var x, db := CtxOf(c, r.states[i]), r.states[i].db;
    var ws, n := StepMakes(c, r, i);
    MadeWait(x, db, r.moves[i].ev, ws, pk);
    PrefixKeepsWaiting(x, db, ws, n, pk);
  }

  lemma {:induction false} RunWaits(c: Config, tokens: seq<nat>, r: Trace, s: Sys, n: nat, pk: int)
    requires RunTo(c, tokens, r, s) && n <= |r.moves| && !Breaks(c.e, Queries(c, r))
    ensures DbWaits(c.e, r.states[n].db, pk)
  {
    var p := (u: Sys) => DbWaits(c.e, u.db, pk);
    assert r.states[0].db.mempool == [] && p(r.states[0]);
    forall i: nat | i < n && p(r.states[i]) ensures p(r.states[i + 1]) {
      StateInv(c, tokens, r, s, i);
      StepWaits(c, r, i, pk);
    }
    Along(p, r.states, 0, n);
  }

  /** In every reachable state, for every sender none of whose rows has been evicted:
      its waiting rows carry the nonces that follow its confirmed account's, in id
      order, with total at most its balance, and those in flight come first. */
  lemma {:induction false} WaitingRowsFit(c: Config, tokens: seq<nat>, r: Trace, s: Sys, pk: int)
    requires RunTo(c, tokens, r, s) && Clean(s.db.mempool, pk)
    ensures WaitOk(c.e, s.db.leaves, s.db.mempool, pk) || Breaks(c.e, Queries(c, r))
  {
    if !Breaks(c.e, Queries(c, r)) { RunWaits(c, tokens, r, s, |r.moves|, pk); }
  }

  // ---------- ticks that spare a sender ----------

  /** What a tick would select is fair to the sender and can be delivered: none of its
      waiting rows is skipped before a selected one, and every recipient of its selected
      rows is in the tree or among the deposits taken. */
  predicate FairTick(c: Config, db: Db, pk: int) {
    Inflight(db).Some?
    || (FairFor(db.mempool, SelectedTxs(c, db), pk)
        && ReachableFor(db.leaves, WindowDeposits(c, db), SelectedTxs(c, db), pk))
  }

  /** The eviction loop the next build would run. */
  function NextLoop(c: Config, db: Db): Eviction
    requires c.e.order > 0
  {
    Restart(c, db.leaves, WindowDeposits(c, db), SelectedTxs(c, db))
  }

  lemma {:induction false} WindowTyped(x: Ctx, db: Db, chain: State, ds: seq<DepositRequest>)
    requires DbInv(x, db) && ChainOk(x, chain) && Supply(chain.tokens) < U64 && db.confirmed + 1 !in db.batches
    requires ds == WindowDeposits(x.c, db)
    ensures |ds| <= x.c.dSlots && (forall j :: 0 <= j < |ds| ==> RequestTyped(x.c.e, ds[j]))
    ensures WellFormed(x.c.e, db.leaves) && TotalBalance(x.c.e, db.leaves) + Amounts(DepositPairs(ds)) < U64
  {
    WindowDepositsFit(x, db, chain, ds);
    forall j | 0 <= j < |ds| ensures RequestTyped(x.c.e, ds[j]) { assert Creditable(x.c.e, ds[j]); }
  }

  /** A fair tick spares the sender, whatever it does to others. */
  lemma {:induction false} FairTickSpares(x: Ctx, db: Db, chain: State, pk: int)
    requires DbInv(x, db) && ChainOk(x, chain) && Supply(chain.tokens) < U64
    requires WaitOk(x.c.e, db.leaves, db.mempool, pk) && Inflight(db).None? && FairTick(x.c, db, pk)
    ensures Spared(NextLoop(x.c, db).dropped, pk)
  {
    InflightIs(x, db);
    WindowTyped(x, db, chain, WindowDeposits(x.c, db));
    WindowTxsTyped(x, db);
    FairIsSpared(x.c, db.leaves, WindowDeposits(x.c, db), db.mempool, SelectedTxs(x.c, db), pk);
  }

  /** In every reachable state, for every sender none of whose rows has been evicted, and
      no batch in flight: a build that comes to a batch spares the sender if and only if
      it is fair to it. */
  lemma {:induction false} TickSparesIff(c: Config, tokens: seq<nat>, r: Trace, s: Sys, pk: int)
    requires RunTo(c, tokens, r, s) && Supply(tokens) < U64 && Clean(s.db.mempool, pk) && Inflight(s.db).None?
    requires NextLoop(c, s.db).attempt.Ready?
    ensures || Breaks(c.e, Queries(c, r))
            || (Spared(NextLoop(c, s.db).dropped, pk) <==> FairTick(c, s.db, pk))
  {
    InvariantOverEveryRun(c, tokens, r, s);
    WaitingRowsFit(c, tokens, r, s, pk);
    RunSupply(c, tokens, r, s, |r.moves|);
    if !Breaks(c.e, Queries(c, r)) { SparesNow(CtxOf(c, s), s.db, s.chain, pk); }
  }

  lemma {:induction false} SparesNow(x: Ctx, db: Db, chain: State, pk: int)
    requires DbInv(x, db) && ChainOk(x, chain) && Supply(chain.tokens) < U64
    requires WaitOk(x.c.e, db.leaves, db.mempool, pk) && Inflight(db).None? && NextLoop(x.c, db).attempt.Ready?
    ensures Spared(NextLoop(x.c, db).dropped, pk) <==> FairTick(x.c, db, pk)
  {
    InflightIs(x, db);
    WindowTyped(x, db, chain, WindowDeposits(x.c, db));
    WindowTxsTyped(x, db);
    SparedIff(x.c, db.leaves, WindowDeposits(x.c, db), db.mempool, SelectedTxs(x.c, db), pk);
  }

  /** A build keeps its whole selection if and only if it is fair to everyone: in every
      reachable state with no batch in flight whose deposits fit the tree, as long as no
      selected sender has been evicted before. */
  lemma {:induction false} TickEvictsIffUnfair(c: Config, tokens: seq<nat>, r: Trace, s: Sys)
    requires RunTo(c, tokens, r, s) && Supply(tokens) < U64 && Inflight(s.db).None?
    requires forall k :: 0 <= k < |SelectedTxs(c, s.db)| ==> Clean(s.db.mempool, SelectedTxs(c, s.db)[k].tx.fromPkX)
    requires BuildDeposits(c.e, s.db.leaves, 0, WindowDeposits(c, s.db)).outcome.Built?
    ensures || Breaks(c.e, Queries(c, r))
            || (NextLoop(c, s.db).dropped == [] && NextLoop(c, s.db).attempt.Ready?
                <==> Fair(s.db.mempool, SelectedTxs(c, s.db))
                     && Reachable(s.db.leaves, WindowDeposits(c, s.db), SelectedTxs(c, s.db)))
  {
    InvariantOverEveryRun(c, tokens, r, s);
    RunSupply(c, tokens, r, s, |r.moves|);
    if !Breaks(c.e, Queries(c, r)) {
      var cs := SelectedTxs(c, s.db);
      forall k | 0 <= k < |cs|
        ensures Orderly(c.e, s.db.leaves, cs[k].tx.fromPkX, LiveTxs(s.db.mempool, cs[k].tx.fromPkX, 0))
      {
        WaitingRowsFit(c, tokens, r, s, cs[k].tx.fromPkX);
      }
      EvictsNow(CtxOf(c, s), s.db, s.chain);
    }
  }

  lemma {:induction false} EvictsNow(x: Ctx, db: Db, chain: State)
    requires DbInv(x, db) && ChainOk(x, chain) && Supply(chain.tokens) < U64 && Inflight(db).None?
    requires SendersOrderly(x.c.e, db.leaves, db.mempool, SelectedTxs(x.c, db))
    requires BuildDeposits(x.c.e, db.leaves, 0, WindowDeposits(x.c, db)).outcome.Built?
    ensures NextLoop(x.c, db).dropped == [] && NextLoop(x.c, db).attempt.Ready?
            <==> Fair(db.mempool, SelectedTxs(x.c, db))
                 && Reachable(db.leaves, WindowDeposits(x.c, db), SelectedTxs(x.c, db))
  {
    InflightIs(x, db);
    WindowTyped(x, db, chain, WindowDeposits(x.c, db));
    WindowTxsTyped(x, db);
    NoEvictionIff(x.c, db.leaves, WindowDeposits(x.c, db), db.mempool, SelectedTxs(x.c, db));
  }

  // ---------- statements that spare a sender ----------

  /** No statement evicts one of the sender's rows. */
  predicate SparedBy(rows: seq<MempoolRow>, ws: seq<Write>, pk: int) {
    forall i :: 0 <= i < |ws| && ws[i].RejectTx? ==> ws[i].id < |rows| && rows[ws[i].id].tx.fromPkX != pk
  }

  lemma {:induction false} RejectsSpare(rows: seq<MempoolRow>, dropped: seq<Candidate>, pk: int)
    requires AllPending(rows, dropped) && Spared(dropped, pk)
    ensures SparedBy(rows, Rejects(dropped), pk)
  {
    if dropped != [] {
      assert RowPending(rows, dropped[0].id);
      forall k | 0 <= k < |dropped[1..]|
        ensures RowPending(rows, dropped[1..][k].id) && rows[dropped[1..][k].id].tx == dropped[1..][k].tx
      {
        assert RowPending(rows, dropped[k + 1].id);
      }
      RejectsSpare(rows, dropped[1..], pk);
    }
  }

  lemma {:induction false} TakesSpare(rows: seq<MempoolRow>, cs: seq<Candidate>, n: nat, pk: int)
    ensures SparedBy(rows, TakeTxs(cs, n), pk)
  {
    if cs != [] { TakesSpare(rows, cs[1..], n, pk); }
  }

  lemma {:induction false} TakeDepositsSpare(rows: seq<MempoolRow>, seqs: seq<nat>, n: nat, pk: int)
    ensures SparedBy(rows, TakeDeposits(seqs, n), pk)
  {
    if seqs != [] { TakeDepositsSpare(rows, seqs[1..], n, pk); }
  }

  lemma {:induction false} InsertSpares(rows: seq<MempoolRow>, n: nat, taken: bool, wit: BatchWitness, seqs: seq<nat>,
                                        deps: seq<PendingDeposit>, cs: seq<Candidate>, pk: int)
    requires |seqs| == |deps|
    ensures SparedBy(rows, InsertBatch(n, taken, wit, seqs, deps, cs).0, pk)
  {
    TakeDepositsSpare(rows, seqs, n, pk);
    TakesSpare(rows, cs, n, pk);
  }

  lemma {:induction false} SettleSpares(rows: seq<MempoolRow>, n: nat, taken: bool, seqs: seq<nat>,
                                        deps: seq<PendingDeposit>, r: Eviction, pk: int)
    requires |seqs| == |deps| && AllPending(rows, r.dropped) && Spared(r.dropped, pk)
    ensures SparedBy(rows, Settle(n, taken, seqs, deps, r).0, pk)
  {
    RejectsSpare(rows, r.dropped, pk);
    if r.attempt.Ready? { InsertSpares(rows, n, taken, r.attempt.wit, seqs, deps, r.attempt.rows, pk); }
  }

  lemma {:induction false} BuildSettles(c: Config, db: Db, seqs: seq<nat>, deps: seq<PendingDeposit>)
    requires c.e.order > 0 && seqs == PendingDeposits(db, 0, c.dSlots) && deps == DepositsAt(db, seqs)
    ensures BuildNow(c, db, db.leaves)
         == Settle(db.confirmed + 1, db.confirmed + 1 in db.batches, seqs, deps, NextLoop(c, db))
  {}

  lemma {:induction false} BuildSpares(x: Ctx, db: Db, pk: int)
    requires x.c.e.order > 0 && Spared(NextLoop(x.c, db).dropped, pk)
    requires |WindowDeposits(x.c, db)| <= x.c.dSlots
    ensures SparedBy(db.mempool, BuildNow(x.c, db, db.leaves).0, pk)
  {
    var seqs := PendingDeposits(db, 0, x.c.dSlots);
    var deps := DepositsAt(db, seqs);
    SelectedIs(x.c, db);
    ReadySelection(x.c, db.leaves, WindowDeposits(x.c, db), SelectedTxs(x.c, db));
    DroppedPending(db.mempool, NextLoop(x.c, db).dropped, SelectedTxs(x.c, db));
    BuildSettles(x.c, db, seqs, deps);
    SettleSpares(db.mempool, db.confirmed + 1, db.confirmed + 1 in db.batches, seqs, deps, NextLoop(x.c, db), pk);
  }

  lemma {:induction false} DroppedPending(rows: seq<MempoolRow>, dropped: seq<Candidate>, cs: seq<Candidate>)
    requires SubSeq(dropped, cs) && AllPending(rows, cs)
    ensures AllPending(rows, dropped)
  {
    forall k | 0 <= k < |dropped| ensures RowPending(rows, dropped[k].id) && rows[dropped[k].id].tx == dropped[k].tx {
      var j := SubSeqAt(dropped, cs, k);
    }
  }

  lemma {:induction false} TickSpares(x: Ctx, db: Db, chain: State, waited: bool, pk: int)
    requires DbInv(x, db) && ChainOk(x, chain) && Supply(chain.tokens) < U64
    requires WaitOk(x.c.e, db.leaves, db.mempool, pk) && FairTick(x.c, db, pk)
    ensures SparedBy(db.mempool, TryBuild(x.c, db, db.leaves, true, waited).0, pk)
  {
    if Inflight(db).None? {
      FairTickSpares(x, db, chain, pk);
      BuildSpares(x, db, pk);
    }
  }

  lemma {:induction false} MadeSpares(x: Ctx, db: Db, chain: State, ev: Event, ws: seq<Write>, pk: int)
    requires DbInv(x, db) && ChainOk(x, chain) && Supply(chain.tokens) < U64
    requires WaitOk(x.c.e, db.leaves, db.mempool, pk) && Makes(x.c, db, ev, ws) && (ev.Ticks? ==> FairTick(x.c, db, pk))
    ensures SparedBy(db.mempool, ws, pk)
  {
    match ev
    case Submits(w) => SubmitSpares(x.c, db, w, pk);
    case Ticks(waited) => TickSpares(x, db, chain, waited, pk);
    case _ => PlainSpares(db.mempool, ws, pk);
  }

  lemma {:induction false} WriteSpares(db: Db, w: Write, pk: int)
    requires Clean(db.mempool, pk) && SparedBy(db.mempool, [w], pk)
    ensures Clean(Apply(db, w).mempool, pk) && SameTxs(db.mempool, Apply(db, w).mempool)
  {
    assert [w][0] == w;
  }

  lemma {:induction false} PrefixSpares(db: Db, ws: seq<Write>, n: nat, pk: int)
    requires Clean(db.mempool, pk) && SparedBy(db.mempool, ws, pk) && n <= |ws|
    ensures Clean(ApplyAll(db, ws[..n]).mempool, pk)
    decreases n
  {
    if n != 0 {
      WriteSpares(db, ws[0], pk);
      PrefixSpares(Apply(db, ws[0]), ws[1..], n - 1, pk);
      TakeHead(ws, n);
    }
  }

  // ---------- runs that spare a sender ----------

  /** Every tick of the run is fair to the sender. */
  ghost predicate FairRun(c: Config, r: Trace, pk: int)
    requires |r.states| == |r.moves| + 1
  {
    forall i :: 0 <= i < |r.moves| && r.moves[i].ev.Ticks? ==> FairTick(c, r.states[i].db, pk)
  }

  lemma {:induction false} StepSpares(c: Config, r: Trace, i: nat, pk: int)
    requires IsTrace(c, r) && i < |r.moves| && Inv(c, r.states[i]) && Supply(r.states[i].chain.tokens) < U64
    requires DbWaits(c.e, r.states[i].db, pk) && Clean(r.states[i].db.mempool, pk)
    requires r.moves[i].ev.Ticks? ==> FairTick(c, r.states[i].db, pk)
    ensures Clean(r.states[i + 1].db.mempool, pk)
  {
    var s := r.states[i];
    var ws, n := StepMakes(c, r, i);
    MadeSpares(CtxOf(c, s), s.db, s.chain, r.moves[i].ev, ws, pk);
    PrefixSpares(s.db, ws, n, pk);
  }

  /** Admission implies building, sender by sender: with a supply below 2^64, a run whose
      ticks are fair to a sender never evicts one of its rows, whatever becomes of the
      rows of others. */
  lemma {:induction false} FairRunsSpare(c: Config, tokens: seq<nat>, r: Trace, s: Sys, pk: int)
    requires RunTo(c, tokens, r, s) && Supply(tokens) < U64 && FairRun(c, r, pk)
    ensures Clean(s.db.mempool, pk) || Breaks(c.e, Queries(c, r))
  {
    if !Breaks(c.e, Queries(c, r)) {
      var p := (u: Sys) => Clean(u.db.mempool, pk);
      assert r.states[0].db.mempool == [] && p(r.states[0]);
      forall i: nat | i < |r.moves| && p(r.states[i]) ensures p(r.states[i + 1]) {
        StateInv(c, tokens, r, s, i);
        RunWaits(c, tokens, r, s, i, pk);
        RunSupply(c, tokens, r, s, i);
        StepSpares(c, r, i, pk);
      }
      Along(p, r.states, 0, |r.moves|);
    }
  }

  /** So a run whose ticks are fair to everyone evicts nobody. */
  lemma {:induction false} FairRunsEvictNobody(c: Config, tokens: seq<nat>, r: Trace, s: Sys)
    requires RunTo(c, tokens, r, s) && Supply(tokens) < U64 && forall pk: int :: FairRun(c, r, pk)
    ensures || Breaks(c.e, Queries(c, r))
            || forall id :: 0 <= id < |s.db.mempool| ==> !s.db.mempool[id].status.TxRejected?
  {
    if !Breaks(c.e, Queries(c, r)) {
      forall id | 0 <= id < |s.db.mempool| ensures !s.db.mempool[id].status.TxRejected? {
        FairRunsSpare(c, tokens, r, s, s.db.mempool[id].tx.fromPkX);
      }
    }
  }
}
