/** The sequencer and the contract together: engine commands, the driver's
    phases, the watcher's reports, L1 deposits, late landings, crashes between
    any two statements, and reboots. */
module Protocol {
  import opened Hashing
  import opened Merkle
  import opened Circuit
  import opened Contract
  import opened Custody
  import opened Database
  import opened Commands
  import opened Lifecycle
  import opened Safety
  import opened Pipeline
  import opened Landing

  /** Where the driver (batcher.rs) stands. */
  datatype Phase =
    | Resuming
    | Idle
    | Proves(job: Job)
    | Marks(num: nat, env: Envelope)
    | Sends(num: nat, env: Envelope)
    | Listens(num: nat, env: Envelope)    // the submit call is out
    | Awaits(num: nat, env: Envelope)     // polling the chain's batch number

  datatype Process = Process(tree: Table, phase: Phase)

  /** log, hist and sent are history: every deposit ever enqueued, the state after
      each landed batch, and every envelope ever handed to the network. */
  datatype Sys = Sys(
    db: Db,
    process: Option<Process>,
    chain: State,
    log: seq<PendingDeposit>,
    hist: seq<Epoch>,
    sent: set<(nat, Envelope)>)

  datatype Event =
    | Submits(w: WireTx)                          // POST /tx
    | Observes(from: nat, count: nat)             // watcher report
    | Ticks(waited: bool)                         // TryBuildBatch
    | ProverReturns(proof: Proof, words: seq<int>)  // RecordProof, else FailBatch
    | ProverFails                                 // FailBatch
    | Resumes                                     // boot: resume()
    | MarksNow                                    // MarkSubmitting
    | SendsNow                                    // client.submit_batch
    | Hears(ok: bool)                             // MarkSubmitted on success
    | Polls                                       // batch_num, ConfirmBatch
    | GivesUp                                     // confirmation timed out
    | Boots                                       // load_and_reconcile
    | Dies                                        // the process is killed
    | Deposits(from: nat, pk: nat, amount: int)   // L1
    | Lands(num: nat, env: Envelope)              // a sent envelope is executed on L1

  ghost function CtxOf(c: Config, s: Sys): Ctx {
    Ctx(c, s.log, s.hist, |s.chain.tokens|)
  }

  predicate Running(s: Sys) {
    s.process.Some?
  }

  predicate OnChain(ev: Event) {
    ev.Deposits? || ev.Lands? || ev.Dies?
  }

  /** Events that can happen in s: the driver follows its phases, the watcher
      reports entries of the queue from a cursor no later than the stored one, the
      network executes what was sent. */
  ghost predicate Possible(c: Config, s: Sys, ev: Event) {
    match ev
    case Submits(w) => Running(s) && WireOk(CtxOf(c, s), w)
    case Observes(from, count) => Running(s) && from <= s.db.cursor && from + count <= |s.log|
    case Ticks(_) => Running(s) && s.process.value.phase.Idle?
    case ProverReturns(_, _) => Running(s) && s.process.value.phase.Proves?
    case ProverFails => Running(s) && s.process.value.phase.Proves?
    case Resumes => Running(s) && s.process.value.phase.Resuming?
    case MarksNow => Running(s) && s.process.value.phase.Marks?
    case SendsNow => Running(s) && s.process.value.phase.Sends?
    case Hears(_) => Running(s) && s.process.value.phase.Listens?
    case Polls => Running(s) && s.process.value.phase.Awaits?
    case GivesUp => Running(s) && s.process.value.phase.Awaits?
    case Boots => !Running(s)
    case Dies => Running(s)
    case Deposits(from, pk, amount) => CallTyped(c, s.chain, DepositCall(from, pk, amount))
    case Lands(num, env) => (num, env) in s.sent && CallTyped(c, s.chain, SubmitCall(env))
  }

  /** Statements of one command, and the process after it. */
  datatype Effect = Effect(writes: seq<Write>, process: Option<Process>)

  function At(tree: Table, phase: Phase): Option<Process> {
    Some(Process(tree, phase))
  }

  /** batcher.rs `resume`. */
  function ResumeEffect(db: Db, tree: Table): Effect {
    match Inflight(db)
    case None => Effect([], At(tree, Idle))
    case Some(num) =>
      if db.batches[num].status.Proving? then Effect([Requeue(num)], At(tree, Idle))
      else
        var (writes, reply) := MarkSubmitting(db, num);
        Effect(writes, At(tree, if reply.Ok? then Marks(num, reply.value) else Idle))
  }

  /** batcher.rs `run_pipeline` after the prover: record, or fail and requeue. */
  function ProverEffect(db: Db, tree: Table, num: nat, proof: Proof, words: seq<int>): Effect {
    var (writes, reply) := RecordProof(db, num, proof, words);
    if reply.Ok? then Effect(writes, At(tree, Marks(num, reply.value)))
    else Effect(writes + [Requeue(num)], At(tree, Idle))
  }

  /** batcher.rs `submit_and_confirm`, first step. */
  function MarkEffect(db: Db, tree: Table, num: nat, env: Envelope): Effect {
    var (writes, reply) := MarkSubmitting(db, num);
    Effect(writes, At(tree, if reply.Ok? then Sends(num, env) else Idle))
  }

  function TickEffect(c: Config, db: Db, tree: Table, waited: bool): Effect
    requires c.e.order > 0
  {
    var (writes, reply) := TryBuild(c, db, tree, true, waited);
    Effect(writes, match reply
                   case Ok(job) => At(tree, if job.Some? then Proves(job.value) else Idle)
                   case Err(_) => At(tree, Idle)
                   case Crash => None)
  }

  /** batcher.rs `confirm`: one poll, and the reply of `confirm_batch` if the chain
      has reached the batch. */
  function PollReply(tree: Table, chainNum: nat, num: nat, env: Envelope, reply: (seq<Write>, Table, Answer<()>))
    : Effect {
    if chainNum < num then Effect([], At(tree, Awaits(num, env)))
    else Effect(reply.0, if reply.2.Crash? then None else At(reply.1, Idle))
  }

  function PollEffect(c: Config, db: Db, tree: Table, chainNum: nat, num: nat, env: Envelope): Effect
    requires c.e.p > 0 && c.e.order > 0
  {
    PollReply(tree, chainNum, num, env, Confirm(c, db, tree, num))
  }

  function SubmitEffect(c: Config, db: Db, p: Process, w: WireTx): Effect
    requires c.e.p > 0 && c.e.order > 0
  {
    var (writes, reply) := SubmitTx(c, db, p.tree, w);
    Effect(writes, if reply.Crash? then None else Some(p))
  }

  function BootEffect(e: Env, db: Db, chain: State): Effect {
    var (writes, boot) := Reconcile(e, db, chain.root, chain.batchNum);
    Effect(writes, if boot.Booted? then At(boot.tree, Resuming) else None)
  }

  /** A step of the driver, in the phase it is in. */
  function DriverEffect(c: Config, db: Db, p: Process, chainNum: nat, ev: Event): Effect
    requires c.e.p > 0 && c.e.order > 0
  {
    match (ev, p.phase)
    case (ProverReturns(proof, words), Proves(job)) => ProverEffect(db, p.tree, job.num, proof, words)
    case (ProverFails, Proves(job)) => Effect([Requeue(job.num)], At(p.tree, Idle))
    case (Resumes, Resuming) => ResumeEffect(db, p.tree)
    case (MarksNow, Marks(num, env)) => MarkEffect(db, p.tree, num, env)
    case (SendsNow, Sends(num, env)) => Effect([], At(p.tree, Listens(num, env)))
    case (Hears(ok), Listens(num, env)) =>
      Effect(if ok then [SetStatus(num, Submitted)] else [], At(p.tree, Awaits(num, env)))
    case (Polls, Awaits(num, env)) => PollEffect(c, db, p.tree, chainNum, num, env)
    case (GivesUp, Awaits(_, _)) => Effect([], At(p.tree, Idle))
    case _ => Effect([], Some(p))
  }

  function EffectOf(c: Config, s: Sys, ev: Event): Effect
    requires c.e.p > 0 && c.e.order > 0 && !OnChain(ev) && (Running(s) <==> !ev.Boots?)
    requires ev.Observes? ==> ev.from + ev.count <= |s.log|
  {
    match ev
    case Boots => BootEffect(c.e, s.db, s.chain)
    case Submits(w) => SubmitEffect(c, s.db, s.process.value, w)
    case Observes(from, count) => Effect(ObservedDeposits(Seen(s.log, from, count)), s.process)
    case Ticks(waited) => TickEffect(c, s.db, s.process.value.tree, waited)
    case _ => DriverEffect(c, s.db, s.process.value, s.chain.batchNum, ev)
  }

  function SentBy(s: Sys, ev: Event): set<(nat, Envelope)> {
    if ev.SendsNow? && Running(s) && s.process.value.phase.Sends?
      then {(s.process.value.phase.num, s.process.value.phase.env)} else {}
  }

  /** The ledger behind the contract's root. */
  function ChainLedger(s: Sys): Table {
    if s.hist == [] then map[] else s.hist[|s.hist| - 1].table
  }

  /** L1 moves, or the process dies. */
  ghost function ChainNext(c: Config, s: Sys, ev: Event): Sys
    requires OnChain(ev) && Possible(c, s, ev)
  {
    match ev
    case Deposits(from, pk, amount) =>
      var (chain, reply) := DepositSpec(c, s.chain, from, pk, amount);
      s.(chain := chain, log := if reply.Done? then s.log + [PendingDeposit(pk, amount)] else s.log)
    case Lands(num, env) =>
      var (chain, reply) := SubmitSpec(c, s.chain, env);
      var next := Epoch(NextTable(c, s.chain, ChainLedger(s), SubmitCall(env)), chain.depHead);
      s.(chain := chain, hist := if reply.Done? then s.hist + [next] else s.hist)
    case Dies => s.(process := None)
  }

  /** How many of its statements a command runs. cut: it was interrupted by a crash
      after that many. */
  function RunCount(ws: seq<Write>, cut: Option<nat>): (n: nat)
    ensures n <= |ws|
  {
    match cut case None => |ws| case Some(n) => if n < |ws| then n else |ws|
  }

  /** The system after a command with this effect, whole or cut short. */
  function Ran(s: Sys, f: Effect, cut: Option<nat>, sent: set<(nat, Envelope)>): Sys {
    var db := ApplyAll(s.db, f.writes[..RunCount(f.writes, cut)]);
    if cut.None? then s.(db := db, process := f.process, sent := s.sent + sent) else s.(db := db, process := None)
  }

  /** The system after an event. */
  ghost function Next(c: Config, s: Sys, ev: Event, cut: Option<nat>): Sys
    requires c.e.p > 0 && c.e.order > 0 && Possible(c, s, ev)
  {
    if OnChain(ev) then ChainNext(c, s, ev) else Ran(s, EffectOf(c, s, ev), cut, SentBy(s, ev))
  }

  // ---------- the invariant ----------

  predicate PhaseOk(x: Ctx, db: Db, phase: Phase)
    requires x.c.e.order > 0
  {
    match phase
    case Resuming => !Unproved(db)
    case Idle => true
    case Proves(job) => true
    case Marks(num, env) => Proven(db, num, env)
    case Sends(num, env) => Proven(db, num, env) && Sent(db.batches[num].status)
    case Listens(num, env) => Proven(db, num, env) && Sent(db.batches[num].status)
    case Awaits(num, env) => Proven(db, num, env) && Sent(db.batches[num].status)
  }

  /** A running process holds the confirmed ledger, with every input of the batch in
      flight taken. */
  ghost predicate ProcessOk(x: Ctx, db: Db, p: Process)
    requires x.c.e.order > 0
  {
    && db.confirmed < |x.hist| && p.tree == x.hist[db.confirmed].table && Settled(x, db)
    && PhaseOk(x, db, p.phase) && (p.phase.Proves? ==> JobHonest(x, db, p.phase.job))
  }

  /** Every envelope ever sent is still that of its batch's row. */
  ghost predicate SentOk(db: Db, sent: set<(nat, Envelope)>) {
    forall n, env :: (n, env) in sent ==> n in db.batches && Sent(db.batches[n].status) && db.batches[n].envelope == env
  }

  ghost predicate Inv(c: Config, s: Sys) {
    var x := CtxOf(c, s);
    && DbInv(x, s.db) && ChainOk(x, s.chain) && SentOk(s.db, s.sent)
    && (Running(s) ==> ProcessOk(x, s.db, s.process.value))
  }

  // ---------- commands that leave the batches alone ----------

  /** New rows may have come in; everything that was there is unchanged. */
  predicate Quiet(db: Db, next: Db) {
    && next.batches == db.batches && next.confirmed == db.confirmed
    && |db.mempool| <= |next.mempool| && (forall i :: 0 <= i < |db.mempool| ==> next.mempool[i] == db.mempool[i])
    && (forall i :: i in db.deposits ==> i in next.deposits && next.deposits[i] == db.deposits[i])
  }

  predicate QuietWrite(w: Write) {
    w.AddTx? || w.AddDeposit? || w.SetCursor?
  }

  lemma {:induction false} QuietWrites(db: Db, ws: seq<Write>)
    requires forall i :: 0 <= i < |ws| ==> QuietWrite(ws[i])
    ensures Quiet(db, ApplyAll(db, ws))
    decreases |ws|
  {
    if ws != [] { QuietWrites(Apply(db, ws[0]), ws[1..]); }
  }

  lemma {:induction false} QuietSettled(x: Ctx, db: Db, next: Db)
    requires TagsInv(x, db) && Settled(x, db) && Quiet(db, next)
    ensures Settled(x, next)
  {
    forall id: nat | Lists(next.batches, next.confirmed + 1, id)
      ensures id < |next.mempool| && next.mempool[id].status.TxBatching? {
      assert Lists(db.batches, db.confirmed + 1, id);
    }
  }

  lemma {:induction false} QuietJob(x: Ctx, db: Db, next: Db, job: Job)
    requires x.c.e.order > 0 && TagsInv(x, db) && JobHonest(x, db, job) && Quiet(db, next)
    ensures JobHonest(x, next, job)
  {
    QuietSettled(x, db, next);
    ReplayStays(x, x, db.mempool, next.mempool, job.num, db.batches[job.num].depositCount,
                BlobIds(db.batches[job.num].blob));
  }

  lemma {:induction false} QuietProcess(x: Ctx, db: Db, next: Db, p: Process)
    requires x.c.e.order > 0 && TagsInv(x, db) && ProcessOk(x, db, p) && Quiet(db, next)
    ensures ProcessOk(x, next, p)
  {
    QuietSettled(x, db, next);
    if p.phase.Proves? { QuietJob(x, db, next, p.phase.job); }
  }

  lemma {:induction false} AddsAreQuiet(deps: seq<(nat, PendingDeposit)>)
    ensures forall i :: 0 <= i < |AddDeposits(deps)| ==> QuietWrite(AddDeposits(deps)[i])
  {
    if deps != [] { AddsAreQuiet(deps[1..]); }
  }

  // ---------- what each command does ----------

  /** A command whose statements are all allowed, and which leaves the process
      consistent with the tables. */
  ghost predicate EffectOk(x: Ctx, db: Db, f: Effect)
    requires x.c.e.order > 0
  {
    AllOk(x, db, f.writes) && (f.process.Some? ==> ProcessOk(x, ApplyAll(db, f.writes), f.process.value))
  }

  lemma {:induction false} SubmitKeepsProcess(x: Ctx, db: Db, p: Process, w: WireTx)
    requires x.c.e.p > 0 && x.c.e.order > 0 && TagsInv(x, db) && ProcessOk(x, db, p)
    ensures ProcessOk(x, ApplyAll(db, SubmitTx(x.c, db, p.tree, w).0), p)
  {
    var ws := SubmitTx(x.c, db, p.tree, w).0;
    SubmitWrites(x.c, db, p.tree, w);
    QuietWrites(db, ws);
    QuietProcess(x, db, ApplyAll(db, ws), p);
  }

  lemma {:induction false} SubmitEffectOk(x: Ctx, db: Db, p: Process, w: WireTx)
    requires DbInv(x, db) && ProcessOk(x, db, p) && WireOk(x, w)
    ensures EffectOk(x, db, SubmitEffect(x.c, db, p, w))
  {
    assert Past(x, db.confirmed);
    SubmitOk(x, db, p.tree, w);
    SubmitKeepsProcess(x, db, p, w);
  }

  lemma {:induction false} ObserveEffectOk(x: Ctx, db: Db, p: Process, from: nat, count: nat)
    requires DbInv(x, db) && ProcessOk(x, db, p) && from <= db.cursor && from + count <= |x.log|
    ensures EffectOk(x, db, Effect(ObservedDeposits(Seen(x.log, from, count)), Some(p)))
  {
    var ws := ObservedDeposits(Seen(x.log, from, count));
    ObservedOk(x, db, from, count);
    AddsAreQuiet(Seen(x.log, from, count));
    QuietWrites(db, ws);
    QuietProcess(x, db, ApplyAll(db, ws), p);
  }

  lemma {:induction false} TickEffectOk(x: Ctx, db: Db, p: Process, waited: bool)
    requires DbInv(x, db) && ProcessOk(x, db, p)
    ensures EffectOk(x, db, TickEffect(x.c, db, p.tree, waited))
  {
    TryBuildOk(x, db, p.tree, waited);
  }

  lemma {:induction false} RequeuedProcess(x: Ctx, db: Db, next: Db, tree: Table, n: nat)
    requires x.c.e.order > 0 && db.confirmed < |x.hist| && tree == x.hist[db.confirmed].table && n == db.confirmed + 1
    requires next.confirmed == db.confirmed && n !in next.batches
    ensures ProcessOk(x, next, Process(tree, Idle)) && ProcessOk(x, next, Process(tree, Resuming))
  {
    NothingInflight(x, next);
  }

  /** Failing an unproved batch. */
  lemma {:induction false} FailEffectOk(x: Ctx, db: Db, tree: Table, n: nat)
    requires DbInv(x, db) && Unproved(db) && n == db.confirmed + 1 && tree == x.hist[db.confirmed].table
    ensures EffectOk(x, db, Effect([Requeue(n)], At(tree, Idle)))
            && EffectOk(x, db, Effect([Requeue(n)], At(tree, Resuming)))
  {
    UnprovedNotLanded(x, db);
    RequeueOk(x, db);
    RequeuedProcess(x, db, ApplyAll(db, [Requeue(n)]), tree, n);
  }

  lemma {:induction false} RecordedEffectOk(x: Ctx, db: Db, tree: Table, n: nat, proof: Proof, words: seq<int>)
    requires x.c.e.order > 0 && n == db.confirmed + 1 && Unproved(db) && Settled(x, db)
             && tree == x.hist[db.confirmed].table
    requires RecordProof(db, n, proof, words).1.Ok?
    ensures EffectOk(x, db, ProverEffect(db, tree, n, proof, words))
  {
    RecordProofOk(x, db, n, proof, words);
  }

  lemma {:induction false} RefusedEffect(db: Db, tree: Table, n: nat, proof: Proof, words: seq<int>)
    requires !RecordProof(db, n, proof, words).1.Ok?
    ensures ProverEffect(db, tree, n, proof, words) == Effect([Requeue(n)], At(tree, Idle))
  {
    assert [] + [Requeue(n)] == [Requeue(n)];
  }

  lemma {:induction false} ProverEffectOk(x: Ctx, db: Db, tree: Table, n: nat, proof: Proof, words: seq<int>)
    requires DbInv(x, db) && n == db.confirmed + 1 && Unproved(db) && Settled(x, db)
             && tree == x.hist[db.confirmed].table
    ensures EffectOk(x, db, ProverEffect(db, tree, n, proof, words))
  {
    if RecordProof(db, n, proof, words).1.Ok? {
      RecordedEffectOk(x, db, tree, n, proof, words);
    } else {
      FailEffectOk(x, db, tree, n);
      RefusedEffect(db, tree, n, proof, words);
    }
  }

  lemma {:induction false} MarkedSettled(x: Ctx, db: Db, status: BatchStatus)
    requires db.confirmed + 1 in db.batches && Settled(x, db)
    ensures Settled(x, ApplyAll(db, [SetStatus(db.confirmed + 1, status)]))
    ensures ApplyAll(db, [SetStatus(db.confirmed + 1, status)]).confirmed == db.confirmed
  {
    assert [SetStatus(db.confirmed + 1, status)][1..] == [];
    SettledMoves(x, db, db.batches[db.confirmed + 1].(status := status));
  }

  lemma {:induction false} ResumeEffectOk(x: Ctx, db: Db, tree: Table)
    requires DbInv(x, db) && ProcessOk(x, db, Process(tree, Resuming))
    ensures EffectOk(x, db, ResumeEffect(db, tree))
  {
    InflightIs(x, db);
    if db.confirmed + 1 in db.batches {
      ProvenRow(x, db);
      MarkSubmittingOk(x, db);
      MarkedSettled(x, db, Submitting);
    }
  }

  lemma {:induction false} MarkEffectOk(x: Ctx, db: Db, tree: Table, num: nat, env: Envelope)
    requires DbInv(x, db) && ProcessOk(x, db, Process(tree, Marks(num, env)))
    ensures EffectOk(x, db, MarkEffect(db, tree, num, env))
  {
    ProvenRow(x, db);
    MarkSubmittingOk(x, db);
    MarkedSettled(x, db, Submitting);
  }

  lemma {:induction false} HearEffectOk(x: Ctx, db: Db, tree: Table, num: nat, env: Envelope, ok: bool)
    requires DbInv(x, db) && ProcessOk(x, db, Process(tree, Listens(num, env)))
    ensures EffectOk(x, db, Effect(if ok then [SetStatus(num, Submitted)] else [], At(tree, Awaits(num, env))))
  {
    MarkSubmittedOk(x, db, env);
    MarkedSettled(x, db, Submitted);
  }

  lemma {:induction false} ConfirmedProcess(x: Ctx, db: Db, next: Db)
    requires x.c.e.order > 0 && TagsInv(x, db) && next.confirmed == db.confirmed + 1 < |x.hist|
             && next.batches.Keys == db.batches.Keys
    ensures ProcessOk(x, next, Process(x.hist[db.confirmed + 1].table, Idle))
  {
    assert db.confirmed + 2 !in db.batches;
    NothingInflight(x, next);
  }

  lemma {:induction false} PollReplyOk(x: Ctx, db: Db, tree: Table, num: nat, env: Envelope,
                                       r: (seq<Write>, Table, Answer<()>))
    requires x.c.e.order > 0 && TagsInv(x, db) && ProcessOk(x, db, Process(tree, Awaits(num, env)))
    requires |x.hist| == num + 1 ==> ConfirmedAs(x, db, num, r)
    ensures EffectOk(x, db, PollReply(tree, |x.hist| - 1, num, env, r))
  {
    if |x.hist| == num + 1 { ConfirmedProcess(x, db, ApplyAll(db, r.0)); }
  }

  lemma {:induction false} PollEffectOk(x: Ctx, db: Db, tree: Table, num: nat, env: Envelope)
    requires DbInv(x, db) && ProcessOk(x, db, Process(tree, Awaits(num, env)))
    ensures EffectOk(x, db, PollEffect(x.c, db, tree, |x.hist| - 1, num, env))
  {
    if |x.hist| == num + 1 { ConfirmOk(x, db, tree, num); }
    PollReplyOk(x, db, tree, num, env, Confirm(x.c, db, tree, num));
  }

  lemma {:induction false} BootEffectIs(x: Ctx, db: Db, chain: State)
    requires DbInv(x, db) && ChainOk(x, chain)
    ensures BootEffect(x.c.e, db, chain)
         == Effect(if Unproved(db) then [Requeue(db.confirmed + 1)] else [], At(x.hist[db.confirmed].table, Resuming))
  {
    ReconcileOk(x, db);
  }

  /** Boot never refuses. */
  lemma {:induction false} BootEffectOk(x: Ctx, db: Db, chain: State)
    requires DbInv(x, db) && ChainOk(x, chain)
    ensures EffectOk(x, db, BootEffect(x.c.e, db, chain)) && BootEffect(x.c.e, db, chain).process.Some?
  {
    BootEffectIs(x, db, chain);
    if Unproved(db) { FailEffectOk(x, db, x.hist[db.confirmed].table, db.confirmed + 1); }
  }

  // ---------- a command, whole or cut short ----------

  lemma {:induction false} SentStays(db: Db, next: Db, sent: set<(nat, Envelope)>)
    requires SentOk(db, sent) && SentKept(db, next)
    ensures SentOk(next, sent)
  {}

  lemma {:induction false} MoreSent(db: Db, sent: set<(nat, Envelope)>, more: set<(nat, Envelope)>)
    requires SentOk(db, sent) && SentOk(db, more)
    ensures SentOk(db, sent + more)
  {}

  /** What may be sent along with an effect. */
  ghost predicate SendFits(db: Db, f: Effect, sent: set<(nat, Envelope)>) {
    sent != {} ==> f.writes == [] && SentOk(db, sent)
  }

  /** A command that ran to its end, or that a crash interrupted. */
  lemma {:induction false} RanKeeps(c: Config, s: Sys, f: Effect, cut: Option<nat>, sent: set<(nat, Envelope)>)
    requires Inv(c, s) && EffectOk(CtxOf(c, s), s.db, f) && SendFits(s.db, f, sent)
    ensures Inv(c, Ran(s, f, cut, sent))
  {
    var n := RunCount(f.writes, cut);
    var next := ApplyAll(s.db, f.writes[..n]);
    PrefixKeeps(CtxOf(c, s), s.db, f.writes, n);
    SentStays(s.db, next, s.sent);
    if cut.None? {
      assert f.writes[..n] == f.writes;
      MoreSent(next, s.sent, sent);
    }
  }

  // ---------- what the driver does ----------

  lemma {:induction false} StayOk(x: Ctx, db: Db, p: Process)
    requires x.c.e.order > 0 && ProcessOk(x, db, p)
    ensures EffectOk(x, db, Effect([], Some(p)))
  {}

  /** The driver is in the phase the event belongs to. */
  predicate InPhase(phase: Phase, ev: Event) {
    match ev
    case ProverReturns(_, _) => phase.Proves?
    case ProverFails => phase.Proves?
    case Resumes => phase.Resuming?
    case MarksNow => phase.Marks?
    case SendsNow => phase.Sends?
    case Hears(_) => phase.Listens?
    case Polls => phase.Awaits?
    case GivesUp => phase.Awaits?
    case _ => false
  }

  lemma {:induction false} ProvingOk(x: Ctx, db: Db, p: Process, ev: Event)
    requires DbInv(x, db) && ProcessOk(x, db, p) && InPhase(p.phase, ev)
    requires ev.ProverReturns? || ev.ProverFails? || ev.Resumes?
    ensures EffectOk(x, db, DriverEffect(x.c, db, p, |x.hist| - 1, ev))
  {
    match ev
    case ProverReturns(proof, words) => ProverEffectOk(x, db, p.tree, p.phase.job.num, proof, words);
    case ProverFails => FailEffectOk(x, db, p.tree, p.phase.job.num);
    case Resumes => ResumeEffectOk(x, db, p.tree);
  }

  lemma {:induction false} SendingOk(x: Ctx, db: Db, p: Process, ev: Event)
    requires DbInv(x, db) && ProcessOk(x, db, p) && InPhase(p.phase, ev)
    requires ev.MarksNow? || ev.SendsNow? || ev.Hears? || ev.Polls? || ev.GivesUp?
    ensures EffectOk(x, db, DriverEffect(x.c, db, p, |x.hist| - 1, ev))
  {
    match ev
    case MarksNow => MarkEffectOk(x, db, p.tree, p.phase.num, p.phase.env);
    case SendsNow => StayOk(x, db, Process(p.tree, Listens(p.phase.num, p.phase.env)));
    case Hears(ok) => HearEffectOk(x, db, p.tree, p.phase.num, p.phase.env, ok);
    case Polls => PollEffectOk(x, db, p.tree, p.phase.num, p.phase.env);
    case GivesUp => StayOk(x, db, Process(p.tree, Idle));
  }

  lemma {:induction false} DriverEffectOk(x: Ctx, db: Db, p: Process, ev: Event)
    requires DbInv(x, db) && ProcessOk(x, db, p) && InPhase(p.phase, ev)
    ensures EffectOk(x, db, DriverEffect(x.c, db, p, |x.hist| - 1, ev))
  {
    if ev.ProverReturns? || ev.ProverFails? || ev.Resumes? {
      ProvingOk(x, db, p, ev);
    } else {
      SendingOk(x, db, p, ev);
    }
  }

  // ---------- engine events keep the invariant ----------

  lemma {:induction false} CommandEffectOk(c: Config, s: Sys, ev: Event)
    requires Inv(c, s) && Possible(c, s, ev) && (ev.Submits? || ev.Observes? || ev.Ticks?)
    ensures EffectOk(CtxOf(c, s), s.db, EffectOf(c, s, ev))
  {
    var x, p := CtxOf(c, s), s.process.value;
    match ev
    case Submits(w) => SubmitEffectOk(x, s.db, p, w);
    case Observes(from, count) => ObserveEffectOk(x, s.db, p, from, count);
    case Ticks(waited) => TickEffectOk(x, s.db, p, waited);
  }

  lemma {:induction false} EventEffectOk(c: Config, s: Sys, ev: Event)
    requires Inv(c, s) && Possible(c, s, ev) && !OnChain(ev)
    ensures EffectOk(CtxOf(c, s), s.db, EffectOf(c, s, ev))
  {
    if ev.Boots? {
      BootEffectOk(CtxOf(c, s), s.db, s.chain);
    } else if ev.Submits? || ev.Observes? || ev.Ticks? {
      CommandEffectOk(c, s, ev);
    } else {
      DriverEffectOk(CtxOf(c, s), s.db, s.process.value, ev);
    }
  }

  lemma {:induction false} SendOk(c: Config, s: Sys, ev: Event)
    requires Inv(c, s) && Possible(c, s, ev) && !OnChain(ev)
    ensures SendFits(s.db, EffectOf(c, s, ev), SentBy(s, ev))
  {}

  lemma {:induction false} EngineEventKeeps(c: Config, s: Sys, ev: Event, cut: Option<nat>)
    requires Inv(c, s) && Possible(c, s, ev) && !OnChain(ev)
    ensures Inv(c, Ran(s, EffectOf(c, s, ev), cut, SentBy(s, ev)))
  {
    EventEffectOk(c, s, ev);
    SendOk(c, s, ev);
    RanKeeps(c, s, EffectOf(c, s, ev), cut, SentBy(s, ev));
  }
}
