/** What the chain does to the system, every step, and every run. */
module Runs {
  import opened Hashing
  import opened Merkle
  import opened Ledger
  import opened Circuit
  import opened Completeness
  import opened Contract
  import opened Custody
  import opened Database
  import opened Commands
  import opened Lifecycle
  import opened Safety
  import opened Pipeline
  import opened Landing
  import opened Protocol

  // ---------- chain events keep the invariant ----------

  lemma {:induction false} SettledLater(x: Ctx, y: Ctx, db: Db)
    requires Extends(x, y) && Settled(x, db)
    ensures Settled(y, db)
  {}

  lemma {:induction false} JobLater(x: Ctx, y: Ctx, db: Db, job: Job)
    requires x.c.e.order > 0 && Extends(x, y) && JobHonest(x, db, job)
    ensures JobHonest(y, db, job)
  {
    var b := db.batches[job.num];
    SettledLater(x, y, db);
    ReplayStays(x, y, db.mempool, db.mempool, job.num, b.depositCount, BlobIds(b.blob));
  }

  lemma {:induction false} ProcessLater(x: Ctx, y: Ctx, db: Db, p: Process)
    requires x.c.e.order > 0 && Extends(x, y) && ProcessOk(x, db, p)
    ensures ProcessOk(y, db, p)
  {
    SettledLater(x, y, db);
    if p.phase.Proves? { JobLater(x, y, db, p.phase.job); }
  }

  lemma {:induction false} DepositChainOk(x: Ctx, s: State, from: nat, pk: nat, amount: int)
    requires ChainOk(x, s) && CallTyped(x.c, s, DepositCall(from, pk, amount))
             && DepositSpec(x.c, s, from, pk, amount).1.Done?
    ensures amount > 0 && EntryOk(x.c, PendingDeposit(pk, amount))
    ensures ChainOk(x.(log := x.log + [PendingDeposit(pk, amount)]), DepositSpec(x.c, s, from, pk, amount).0)
  {
    DepositKeepsSolvent(x.c, s, Last(x).table, from, pk, amount);
  }

  lemma {:induction false} DepositInv(c: Config, s: Sys, chain: State, dep: PendingDeposit)
    requires Inv(c, s) && EntryOk(c, dep) && |chain.tokens| == |s.chain.tokens|
    requires ChainOk(CtxOf(c, s).(log := s.log + [dep]), chain)
    ensures Inv(c, s.(chain := chain, log := s.log + [dep]))
  {
    var x := CtxOf(c, s);
    LogGrows(x, s.db, dep);
    if Running(s) { ProcessLater(x, x.(log := s.log + [dep]), s.db, s.process.value); }
  }

  lemma {:induction false} DepositKeeps(c: Config, s: Sys, ev: Event)
    requires Inv(c, s) && ev.Deposits? && Possible(c, s, ev)
    ensures Inv(c, ChainNext(c, s, ev))
  {
    if DepositSpec(c, s.chain, ev.from, ev.pk, ev.amount).1.Done? {
      DepositChainOk(CtxOf(c, s), s.chain, ev.from, ev.pk, ev.amount);
      DepositInv(c, s, DepositSpec(c, s.chain, ev.from, ev.pk, ev.amount).0, PendingDeposit(ev.pk, ev.amount));
    }
  }

  // ---------- landings ----------

  /** Inputs the next batch can be built from, apart from the chain's state. */
  ghost predicate NextInputs(x: Ctx, deps: seq<PendingDeposit>, txs: seq<StoredTx>)
    requires |x.hist| >= 1
  {
    && Deployed(x.c) && InputsOk(x, deps, txs) && WellFormed(x.c.e, Last(x).table)
    && Last(x).head + |deps| <= |x.log| && deps == x.log[Last(x).head..Last(x).head + |deps|]
    && Rebuild(x.c, Last(x).table, deps, txs).outcome.Built?
  }

  lemma {:induction false} StoredNext(x: Ctx, db: Db, k: nat)
    requires CtxOk(x) && BatchRows(x, db.batches, db.mempool) && TxsOk(x, db.mempool)
    requires k == |x.hist| && k in db.batches
    ensures NextInputs(x, DepsOf(x, db, k), TxsOf(x, db, k))
  {
    NextBuilt(x, db, k);
    StoredInputs(x, db, k);
    DepsAreNext(x, db, k);
    LastWellFormed(x);
  }

  lemma {:induction false} AlignedFrom(x: Ctx, chain: State, deps: seq<PendingDeposit>, txs: seq<StoredTx>)
    requires ChainOk(x, chain) && NextInputs(x, deps, txs)
    ensures Aligned(x, chain, deps, txs)
  {}

  lemma {:induction false} DepsAreNext(x: Ctx, db: Db, k: nat)
    requires k == |x.hist| >= 1 && StoredAt(x, db, k)
    ensures var deps := DepsOf(x, db, k);
            Last(x).head + |deps| <= |x.log| && deps == x.log[Last(x).head..Last(x).head + |deps|]
  {}

  lemma {:induction false} LastIs(x: Ctx, n: nat)
    requires n == |x.hist| >= 1
    ensures Last(x) == x.hist[n - 1]
  {}

  lemma {:induction false} NextBuilt(x: Ctx, db: Db, k: nat)
    requires k == |x.hist| >= 1 && x.c.e.order > 0 && BatchRows(x, db.batches, db.mempool) && k in db.batches
    ensures StoredAt(x, db, k) && Rebuild(x.c, Last(x).table, DepsOf(x, db, k), TxsOf(x, db, k)).outcome.Built?
  {
    LastIs(x, k);
    StoredRecords(x, db, k);
  }

  lemma {:induction false} LandedChainOk(x: Ctx, chain: State, next: State, epoch: Epoch, count: nat)
    requires ChainOk(x, chain) && LandedAs(x, chain, next, epoch.table, count) && epoch.head == Last(x).head + count
    ensures ChainOk(x.(hist := x.hist + [epoch]), next) && |next.tokens| == |chain.tokens| && next.depHead == epoch.head
  {}

  /** A sent envelope belongs to a landed batch, or to the one in flight. */
  lemma {:induction false} SentRange(c: Config, s: Sys, num: nat, env: Envelope)
    requires Inv(c, s) && (num, env) in s.sent
    ensures num in s.db.batches && Sent(s.db.batches[num].status) && env == s.db.batches[num].envelope
    ensures num < |s.hist| || (num == |s.hist| == s.db.confirmed + 1)
  {}

  /** The epoch a landing of the batch in flight starts. */
  ghost function NewEpoch(x: Ctx, db: Db): Epoch
    requires x.c.e.order > 0 && |x.hist| >= 1
  {
    var k := |x.hist|;
    Epoch(Rebuild(x.c, Last(x).table, DepsOf(x, db, k), TxsOf(x, db, k)).table,
          Last(x).head + |DepsOf(x, db, k)|)
  }

  lemma {:induction false} ReplayIs(x: Ctx, db: Db, k: nat)
    requires x.c.e.order > 0 && StoredAt(x, db, k)
    ensures |DepsOf(x, db, k)| == db.batches[k].depositCount
    ensures x.hist[k - 1].head + db.batches[k].depositCount <= |x.log|
    ensures Replay(x, db.mempool, k, db.batches[k].depositCount, BlobIds(db.batches[k].blob))
         == Rebuild(x.c, x.hist[k - 1].table, DepsOf(x, db, k), TxsOf(x, db, k))
  {}

  /** The ledger after the batch in flight, and its row then. */
  ghost predicate FitsNext(x: Ctx, db: Db, n: nat)
    requires x.c.e.order > 0 && |x.hist| >= 1 && n in db.batches
  {
    NextFits(x, x.(hist := x.hist + [NewEpoch(x, db)]), db.mempool, n, db.batches[n].depositCount,
             BlobIds(db.batches[n].blob), db.batches[n])
  }

  lemma {:induction false} NewEpochIs(x: Ctx, db: Db, n: nat)
    requires x.c.e.order > 0 && n == |x.hist| >= 1 && StoredAt(x, db, n)
    ensures var count := db.batches[n].depositCount;
            NewEpoch(x, db)
              == Epoch(Replay(x, db.mempool, n, count, BlobIds(db.batches[n].blob)).table, x.hist[n - 1].head + count)
  {
    LastIs(x, n);
    ReplayIs(x, db, n);
  }

  lemma {:induction false} FitsFrom(x: Ctx, epoch: Epoch, rows: seq<MempoolRow>, n: nat, count: nat, ids: seq<nat>,
                                    b: BatchRow)
    requires x.c.e.order > 0 && n == |x.hist| >= 1 && Located(x, rows, n, count, ids) && Sent(b.status)
    requires epoch == Epoch(Replay(x, rows, n, count, ids).table, x.hist[n - 1].head + count)
    ensures NextFits(x, x.(hist := x.hist + [epoch]), rows, n, count, ids, b)
  {}

  lemma {:induction false} NewEpochIsNext(x: Ctx, db: Db, n: nat)
    requires x.c.e.order > 0 && n == |x.hist| >= 1 && StoredAt(x, db, n) && Sent(db.batches[n].status)
    ensures NewEpoch(x, db).head <= |x.log| && FitsNext(x, db, n)
  {
    LastIs(x, n);
    NewEpochIs(x, db, n);
    FitsFrom(x, NewEpoch(x, db), db.mempool, n, db.batches[n].depositCount, BlobIds(db.batches[n].blob), db.batches[n]);
  }

  lemma {:induction false} NewEpochTable(x: Ctx, db: Db, n: nat)
    requires CtxOk(x) && BatchRows(x, db.batches, db.mempool) && TxsOk(x, db.mempool) && n == |x.hist|
             && n in db.batches
    ensures var u := NewEpoch(x, db).table;
            && WellFormed(x.c.e, u) && Before(x.c.e, Last(x).table, u)
            && db.batches[n].newRoot == Root(x.c.e, u)
  {
    LastIs(x, n);
    StoredReplay(x, db, n);
  }

  lemma {:induction false} NewEpochRows(x: Ctx, db: Db, n: nat)
    requires x.c.e.order > 0 && BatchRows(x, db.batches, db.mempool) && n == |x.hist| && n in db.batches
    requires Sent(db.batches[n].status) && |x.hist| >= 1
    ensures BatchRows(x.(hist := x.hist + [NewEpoch(x, db)]), db.batches, db.mempool)
    ensures Last(x).head <= NewEpoch(x, db).head <= |x.log|
  {
    StoredRecords(x, db, n);
    NewEpochIsNext(x, db, n);
    RowsAfterLanding(x, x.(hist := x.hist + [NewEpoch(x, db)]), db.batches, db.mempool);
  }

  lemma {:induction false} NewEpochFits(x: Ctx, db: Db, n: nat)
    requires DbInv(x, db) && n == |x.hist| == db.confirmed + 1 && n in db.batches && Sent(db.batches[n].status)
    ensures DbInv(x.(hist := x.hist + [NewEpoch(x, db)]), db)
  {
    NewEpochRows(x, db, n);
    NewEpochTable(x, db, n);
    HistGrows(x, db, NewEpoch(x, db));
  }

  /** What a stored envelope claims. */
  lemma {:induction false} StoredEnvelope(x: Ctx, db: Db, k: nat)
    requires x.c.e.order > 0 && BatchRows(x, db.batches, db.mempool) && k in db.batches && Sent(db.batches[k].status)
    ensures var env := db.batches[k].envelope;
            && env.newRoot == db.batches[k].newRoot && env.depositCount == |DepsOf(x, db, k)|
            && env.withdrawals == WithdrawalsOf(TxsOf(x, db, k)) && |env.withdrawals| <= MAX_WITHDRAWALS
            && env.proof.bytes == PROOF_BYTES
  {
    StoredRecords(x, db, k);
  }

  /** Hash queries of executing the envelope of batch num: the contract's and the
      circuit's, and the nodes of the ledgers to tell apart. */
  ghost function LandQueries(c: Config, s: Sys, num: nat, env: Envelope): set<seq<int>> {
    var x := CtxOf(c, s);
    if c.e.order > 0 && num > 0 && s.hist != [] && CallTyped(c, s.chain, SubmitCall(env))
       && s.chain.depHead + env.depositCount <= s.chain.depTail
    then
      if num < |s.hist| then OldQueries(x, s.chain, num, TxsOf(x, s.db, num), env)
      else NewQueries(x, s.chain, NewEpoch(x, s.db).table, env)
    else {}
  }

  /** Hash queries of a landing that should leave the ledger u. */
  ghost function NewQueries(x: Ctx, chain: State, u: Table, env: Envelope): set<seq<int>>
    requires |x.hist| >= 1 && CallTyped(x.c, chain, SubmitCall(env))
             && chain.depHead + env.depositCount <= chain.depTail
  {
    LandingQueries(x.c, chain, Last(x).table, env) + TreeQueries(x.c.e, u, x.c.e.depth, 0)
    + TreeQueries(x.c.e, NextTable(x.c, chain, Last(x).table, SubmitCall(env)), x.c.e.depth, 0)
  }

  lemma {:induction false} DoneChecked(c: Config, s: State, env: Envelope)
    requires CanSubmit(c, s, env) && SubmitSpec(c, s, env).1.Done?
    ensures Verdict(c, s, env).Done? && s.depHead + env.depositCount <= s.depTail
  {
    VerdictChecked(c, s, env);
  }

  /** Whatever its proof, if the contract takes the envelope in flight, the chain's
      ledger becomes the one the sequencer expects. */
  lemma {:induction false} InflightAccepted(c: Config, K: set<seq<int>>, s: Sys, env: Envelope, n: nat)
    requires Inv(c, s) && n == |s.hist| == s.db.confirmed + 1 && n in s.db.batches && Sent(s.db.batches[n].status)
    requires env == s.db.batches[n].envelope && CallTyped(c, s.chain, SubmitCall(env))
    requires SubmitSpec(c, s.chain, env).1.Done? && LandQueries(c, s, n, env) <= K && !Breaks(c.e, K)
    ensures var x, next := CtxOf(c, s), SubmitSpec(c, s.chain, env).0;
            && NextTable(c, s.chain, Last(x).table, SubmitCall(env)) == NewEpoch(x, s.db).table
            && LandedAs(x, s.chain, next, NewEpoch(x, s.db).table, |DepsOf(x, s.db, n)|)
  {
    var x := CtxOf(c, s);
    DoneChecked(c, s.chain, env);
    StoredEnvelope(x, s.db, n);
    NewEpochTable(x, s.db, n);
    AcceptedLands(x, K, s.chain, env, NewEpoch(x, s.db).table);
  }

  lemma {:induction false} LandingStep(c: Config, K: set<seq<int>>, s: Sys, env: Envelope, n: nat)
    requires Inv(c, s) && n == |s.hist| == s.db.confirmed + 1 && n in s.db.batches && Sent(s.db.batches[n].status)
    requires env == s.db.batches[n].envelope && CallTyped(c, s.chain, SubmitCall(env))
    requires SubmitSpec(c, s.chain, env).1.Done? && LandQueries(c, s, n, env) <= K && !Breaks(c.e, K)
    ensures var x, next := CtxOf(c, s), SubmitSpec(c, s.chain, env).0;
            && NewEpoch(x, s.db) == Epoch(NextTable(c, s.chain, Last(x).table, SubmitCall(env)), next.depHead)
            && |next.tokens| == |s.chain.tokens| && ChainOk(x.(hist := s.hist + [NewEpoch(x, s.db)]), next)
  {
    var x := CtxOf(c, s);
    InflightAccepted(c, K, s, env, n);
    LandedChainOk(x, s.chain, SubmitSpec(c, s.chain, env).0, NewEpoch(x, s.db), |DepsOf(x, s.db, n)|);
  }

  lemma {:induction false} LandingInv(c: Config, s: Sys, chain: State, n: nat)
    requires Inv(c, s) && n == |s.hist| == s.db.confirmed + 1 && n in s.db.batches && Sent(s.db.batches[n].status)
    requires |chain.tokens| == |s.chain.tokens|
    requires ChainOk(CtxOf(c, s).(hist := s.hist + [NewEpoch(CtxOf(c, s), s.db)]), chain)
    ensures Inv(c, s.(chain := chain, hist := s.hist + [NewEpoch(CtxOf(c, s), s.db)]))
  {
    var x := CtxOf(c, s);
    NewEpochFits(x, s.db, n);
    if Running(s) { ProcessLater(x, x.(hist := s.hist + [NewEpoch(x, s.db)]), s.db, s.process.value); }
  }

  lemma {:induction false} LedgerIs(c: Config, s: Sys)
    requires s.hist != []
    ensures ChainLedger(s) == Last(CtxOf(c, s)).table
  {}

  lemma {:induction false} LandedNext(c: Config, s: Sys, ev: Event, epoch: Epoch)
    requires ev.Lands? && Possible(c, s, ev) && s.hist != [] && SubmitSpec(c, s.chain, ev.env).1.Done?
    requires epoch == Epoch(NextTable(c, s.chain, Last(CtxOf(c, s)).table, SubmitCall(ev.env)),
                            SubmitSpec(c, s.chain, ev.env).0.depHead)
    ensures ChainNext(c, s, ev) == s.(chain := SubmitSpec(c, s.chain, ev.env).0, hist := s.hist + [epoch])
  {
    LedgerIs(c, s);
  }

  lemma {:induction false} LandingKeeps(c: Config, K: set<seq<int>>, s: Sys, ev: Event)
    requires ev.Lands? && CallTyped(c, s.chain, SubmitCall(ev.env)) && SubmitSpec(c, s.chain, ev.env).1.Done?
    requires Inv(c, s) && Possible(c, s, ev) && ev.num == |s.hist|
    requires LandQueries(c, s, ev.num, ev.env) <= K && !Breaks(c.e, K)
    ensures Inv(c, ChainNext(c, s, ev))
  {
    SentRange(c, s, ev.num, ev.env);
    LandingStep(c, K, s, ev.env, ev.num);
    LandingInv(c, s, SubmitSpec(c, s.chain, ev.env).0, ev.num);
    LandedNext(c, s, ev, NewEpoch(CtxOf(c, s), s.db));
  }

  /** What the envelope of a landed row claims. */
  lemma {:induction false} LandedClaims(x: Ctx, db: Db, k: nat)
    requires CtxOk(x) && BatchRows(x, db.batches, db.mempool) && TxsOk(x, db.mempool) && k in db.batches && k < |x.hist|
    ensures OldClaims(x, k, DepsOf(x, db, k), TxsOf(x, db, k), db.batches[k].envelope)
  {
    StoredRecords(x, db, k);
    StoredReplay(x, db, k);
    BuiltParts(x.c.e, x.hist[k - 1].table, x.c.dSlots, x.c.nSlots, Requests(DepsOf(x, db, k)),
               AllSigned(x.c.e, TxsOf(x, db, k)));
  }

  lemma {:induction false} OldRefused(c: Config, K: set<seq<int>>, s: Sys, num: nat, env: Envelope)
    requires CallTyped(c, s.chain, SubmitCall(env)) && Inv(c, s) && LandQueries(c, s, num, env) <= K && !Breaks(c.e, K)
    requires num in s.db.batches && num < |s.hist| && env == s.db.batches[num].envelope
    ensures SubmitSpec(c, s.chain, env).0 == s.chain && !SubmitSpec(c, s.chain, env).1.Done?
  {
    var x := CtxOf(c, s);
    LandedClaims(x, s.db, num);
    StaleRefused(x, K, s.chain, num, DepsOf(x, s.db, num), TxsOf(x, s.db, num), env);
  }

  lemma {:induction false} LandsKeeps(c: Config, K: set<seq<int>>, s: Sys, ev: Event)
    requires Inv(c, s) && ev.Lands? && Possible(c, s, ev)
    requires LandQueries(c, s, ev.num, ev.env) <= K && !Breaks(c.e, K)
    ensures Inv(c, ChainNext(c, s, ev))
  {
    SentRange(c, s, ev.num, ev.env);
    if ev.num < |s.hist| {
      OldRefused(c, K, s, ev.num, ev.env);
    } else if SubmitSpec(c, s.chain, ev.env).1.Done? {
      LandingKeeps(c, K, s, ev);
    }
  }

  // ---------- every step ----------

  lemma {:induction false} DeathKeeps(c: Config, s: Sys, ev: Event)
    requires Inv(c, s) && ev.Dies? && Possible(c, s, ev)
    ensures Inv(c, ChainNext(c, s, ev))
  {}

  lemma {:induction false} ChainEventKeeps(c: Config, K: set<seq<int>>, s: Sys, ev: Event)
    requires Inv(c, s) && Possible(c, s, ev) && OnChain(ev) && StepQueries(c, s, ev) <= K && !Breaks(c.e, K)
    ensures Inv(c, ChainNext(c, s, ev))
  {
    match ev
    case Deposits(_, _, _) => DepositKeeps(c, s, ev);
    case Lands(_, _) => LandsKeeps(c, K, s, ev);
    case Dies => DeathKeeps(c, s, ev);
  }

  /** Hash queries a step makes. */
  ghost function StepQueries(c: Config, s: Sys, ev: Event): set<seq<int>> {
    if ev.Lands? then LandQueries(c, s, ev.num, ev.env) else {}
  }

  /** One step of the system, including a command cut short by a crash, keeps the
      invariant, as long as a landing's queries do not break the hash. */
  lemma {:induction false} StepKeeps(c: Config, K: set<seq<int>>, s: Sys, ev: Event, cut: Option<nat>)
    requires Inv(c, s) && Possible(c, s, ev)
    requires StepQueries(c, s, ev) <= K && !Breaks(c.e, K)
    ensures Inv(c, Next(c, s, ev, cut))
  {
    if OnChain(ev) { ChainEventKeeps(c, K, s, ev); } else { EngineEventKeeps(c, s, ev, cut); }
  }

  // ---------- every run ----------

  /** An event, and where a crash cut its command short, if one did. */
  datatype Move = Move(ev: Event, cut: Option<nat>)

  /** The events of a run, and the states before, between and after them. */
  datatype Trace = Trace(states: seq<Sys>, moves: seq<Move>)

  ghost predicate StepAt(c: Config, r: Trace, i: nat)
    requires c.e.p > 0 && c.e.order > 0 && i < |r.moves| && |r.states| == |r.moves| + 1
  {
    && Possible(c, r.states[i], r.moves[i].ev)
    && r.states[i + 1] == Next(c, r.states[i], r.moves[i].ev, r.moves[i].cut)
  }

  ghost predicate IsTrace(c: Config, r: Trace) {
    && c.e.p > 0 && c.e.order > 0 && |r.states| == |r.moves| + 1
    && forall i: nat {:trigger StepAt(c, r, i)} :: i < |r.moves| ==> StepAt(c, r, i)
  }

  /** A fresh contract and an empty database. */
  function Genesis(c: Config, tokens: seq<nat>): Sys {
    Sys(EMPTY_DB, None, State(Root(c.e, map[]), 0, 0, 0, map[], tokens), [], [Epoch(map[], 0)], {})
  }

  /** A deployment, and a run from its genesis that ends in s. */
  ghost predicate RunTo(c: Config, tokens: seq<nat>, r: Trace, s: Sys) {
    && Deployed(c) && c.self < |tokens| && IsTrace(c, r)
    && r.states[0] == Genesis(c, tokens) && s == r.states[|r.moves|]
  }

  lemma {:induction false} TraceGrows(c: Config, r: Trace, move: Move, next: Sys)
    requires IsTrace(c, r) && Possible(c, r.states[|r.moves|], move.ev)
    requires next == Next(c, r.states[|r.moves|], move.ev, move.cut)
    ensures IsTrace(c, Trace(r.states + [next], r.moves + [move]))
  {
    var longer, n := Trace(r.states + [next], r.moves + [move]), |r.moves|;
    forall i: nat | i < |longer.moves| ensures StepAt(c, longer, i) {
      if i < n {
        EarlierStep(c, r, longer, i);
      } else {
        assert longer.states[n] == r.states[n] && longer.states[n + 1] == next && longer.moves[n] == move;
      }
    }
  }

  lemma {:induction false} EarlierStep(c: Config, r: Trace, longer: Trace, i: nat)
    requires IsTrace(c, r) && i < |r.moves| < |longer.moves| && |longer.states| == |longer.moves| + 1
    requires longer.states[i] == r.states[i] && longer.states[i + 1] == r.states[i + 1]
             && longer.moves[i] == r.moves[i]
    ensures StepAt(c, longer, i)
  {
    assert StepAt(c, r, i);
  }

  /** Every possible event extends a run. */
  lemma {:induction false} RunGrows(c: Config, tokens: seq<nat>, r: Trace, s: Sys, move: Move, next: Sys)
    requires RunTo(c, tokens, r, s) && Possible(c, s, move.ev) && next == Next(c, s, move.ev, move.cut)
    ensures RunTo(c, tokens, Trace(r.states + [next], r.moves + [move]), next)
  {
    TraceGrows(c, r, move, next);
  }

  lemma {:induction false} GenesisDb(x: Ctx)
    requires Deployed(x.c) && x.log == [] && x.hist == [Epoch(map[], 0)]
    ensures DbInv(x, EMPTY_DB)
  {
    assert CtxOk(x);
    assert BatchRows(x, EMPTY_DB.batches, EMPTY_DB.mempool);
    assert TxTagsOk(EMPTY_DB.batches, 0, EMPTY_DB.mempool);
    NothingInflight(x, EMPTY_DB);
    assert TagsInv(x, EMPTY_DB);
  }

  lemma {:induction false} GenesisInv(c: Config, tokens: seq<nat>)
    requires Deployed(c) && c.self < |tokens|
    ensures Inv(c, Genesis(c, tokens))
  {
    GenesisDb(CtxOf(c, Genesis(c, tokens)));
    GenesisSolvent(c, tokens);
  }

  // ---------- the queries of a run ----------

  /** The hash queries of all its steps. */
  ghost function Queries(c: Config, r: Trace): set<seq<int>>
    requires |r.moves| < |r.states|
  {
    set i: nat, q | i < |r.moves| && q in StepQueries(c, r.states[i], r.moves[i].ev) :: q
  }

  lemma {:induction false} QueriesHold(c: Config, r: Trace, i: nat)
    requires i < |r.moves| < |r.states|
    ensures StepQueries(c, r.states[i], r.moves[i].ev) <= Queries(c, r)
  {
    forall q | q in StepQueries(c, r.states[i], r.moves[i].ev) ensures q in Queries(c, r) {}
  }

  /** One step of a run, without naming the command. */
  lemma {:induction false} RunStepKeeps(c: Config, r: Trace, i: nat)
    requires IsTrace(c, r) && i < |r.moves| && Inv(c, r.states[i]) && !Breaks(c.e, Queries(c, r))
    ensures Inv(c, r.states[i + 1])
  {
    assert StepAt(c, r, i);
    QueriesHold(c, r, i);
    StepKeeps(c, Queries(c, r), r.states[i], r.moves[i].ev, r.moves[i].cut);
  }

  /** Induction along a run. */
  lemma {:induction false} Along<S>(p: S -> bool, states: seq<S>, m: nat, k: nat)
    requires m <= k < |states| && p(states[m])
    requires forall i: nat {:trigger states[i]} :: m <= i < k && p(states[i]) ==> p(states[i + 1])
    ensures p(states[k])
    decreases k - m
  {
    if m < k { Along(p, states, m, k - 1); }
  }

  /** Every state of a run from genesis. */
  lemma {:induction false} StateInv(c: Config, tokens: seq<nat>, r: Trace, s: Sys, n: nat)
    requires RunTo(c, tokens, r, s) && n <= |r.moves| && !Breaks(c.e, Queries(c, r))
    ensures Inv(c, r.states[n])
  {
    var p := (u: Sys) => Inv(c, u);
    GenesisInv(c, tokens);
    assert p(r.states[0]);
    forall i: nat | i < n && p(r.states[i]) ensures p(r.states[i + 1]) { RunStepKeeps(c, r, i); }
    Along(p, r.states, 0, n);
  }

  /** The invariant holds after every run from genesis, crashes, reboots, late
      landings and dishonest proofs included, or the run's own queries break the
      hash. */
  lemma {:induction false} InvariantOverEveryRun(c: Config, tokens: seq<nat>, r: Trace, s: Sys)
    requires RunTo(c, tokens, r, s)
    ensures Inv(c, s) || Breaks(c.e, Queries(c, r))
  {
    if !Breaks(c.e, Queries(c, r)) { StateInv(c, tokens, r, s, |r.moves|); }
  }
}
