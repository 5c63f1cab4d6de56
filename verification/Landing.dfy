/** The sequencer's envelopes against the contract: the batch in flight always
    lands in full, and no older envelope ever does. */
module Landing {
  import opened Field
  import opened Hashing
  import opened Merkle
  import opened Ledger
  import opened Circuit
  import opened Soundness
  import opened Builder
  import opened Completeness
  import opened Binding
  import opened Contract
  import opened Custody
  import opened Database
  import opened Lifecycle
  import opened Pipeline

  /** The contract holds the last epoch, and its queue is the rest of the log. */
  ghost predicate ChainOk(x: Ctx, s: State) {
    && |x.hist| >= 1 && s.batchNum == |x.hist| - 1
    && Solvent(x.c, s, Last(x).table)
    && s.depHead == Last(x).head && s.depTail == |x.log| && |s.tokens| == x.holders
    && (forall i :: s.depHead <= i < s.depTail ==> s.queue[i] == x.log[i])
  }

  // ---------- both folds agree ----------

  lemma {:induction false} PairsOfLog(queue: map<nat, PendingDeposit>, log: seq<PendingDeposit>, i: nat, count: nat)
    requires i + count <= |log| && forall k :: i <= k < i + count ==> k in queue && queue[k] == log[k]
    ensures QueuePairs(queue, i, count) == DepositPairs(Requests(log[i..i + count]))
    decreases count
  {
    if count != 0 {
      var deps := log[i..i + count];
      PairsOfLog(queue, log, i + 1, count - 1);
      assert deps[0] == log[i] && deps[1..] == log[i + 1..i + count];
    }
  }

  lemma {:induction false} QueueIsLog(x: Ctx, s: State, i: nat, count: nat)
    requires ChainOk(x, s) && s.depHead <= i && i + count <= s.depTail
    ensures QueuePairs(s.queue, i, count) == DepositPairs(Requests(x.log[i..i + count]))
  {
    PairsOfLog(s.queue, x.log, i, count);
  }

  lemma {:induction false} PayoutsAreExits(x: Ctx, txs: seq<StoredTx>)
    requires x.c.e.order > 0 && forall i :: 0 <= i < |txs| ==> TxOk(x, txs[i])
    ensures var ws := WithdrawalsOf(txs);
            && PayoutPairs(x.c, ws) == ExitPairs(AllSigned(x.c.e, txs))
            && AmountsOk(ws) && (forall i :: 0 <= i < |ws| ==> ws[i].dest < x.holders)
  {
    if txs != [] {
      PayoutsAreExits(x, txs[1..]);
      var tail := WithdrawalsOf(txs[1..]);
      assert AllSigned(x.c.e, txs)[1..] == AllSigned(x.c.e, txs[1..]);
      if txs[0].isWithdraw {
        PayoutsNext(x.c, Withdrawal(txs[0].dest, txs[0].amount), tail);
      } else {
        assert [] + tail == tail;
      }
    }
  }

  lemma {:induction false} PayoutsNext(c: Config, w: Withdrawal, ws: seq<Withdrawal>)
    ensures PayoutPairs(c, [w] + ws) == [(AddressToField(c, w.dest), w.amount)] + PayoutPairs(c, ws)
  {
    assert ([w] + ws)[1..] == ws;
  }

  lemma {:induction false} NodeInField(e: Env, t: Table, l: nat, i: nat)
    requires ValidEnv(e)
    ensures InField(e.p, Node(e, t, l, i))
  {}

  lemma {:induction false} RenderLengths(w: BatchWitness)
    ensures |Render(w).deposits| == |w.deposits| && |Render(w).txs| == |w.txs|
  {}

  /** Inputs that build on the last epoch, the deposits being the queue's head. */
  ghost predicate Aligned(x: Ctx, s: State, deps: seq<PendingDeposit>, txs: seq<StoredTx>) {
    && Deployed(x.c) && ChainOk(x, s) && InputsOk(x, deps, txs) && WellFormed(x.c.e, Last(x).table)
    && s.depHead + |deps| <= s.depTail && deps == x.log[s.depHead..s.depHead + |deps|]
    && Rebuild(x.c, Last(x).table, deps, txs).outcome.Built?
  }

  lemma {:induction false} BuiltCanonical(x: Ctx, t: Table, deps: seq<PendingDeposit>, txs: seq<StoredTx>)
    requires ValidEnv(x.c.e) && Rebuild(x.c, t, deps, txs).outcome.Built?
    ensures var pub := Rebuild(x.c, t, deps, txs).outcome.value.pub;
            InField(x.c.e.p, Root(x.c.e, t)) && InField(x.c.e.p, pub.newRoot) && InField(x.c.e.p, pub.daCommitment)
  {
    var e, ts := x.c.e, AllSigned(x.c.e, txs);
    BuiltParts(e, t, x.c.dSlots, x.c.nSlots, Requests(deps), ts);
    NodeInField(e, t, e.depth, 0);
    NodeInField(e, Rebuild(x.c, t, deps, txs).table, e.depth, 0);
    FoldMessagesInField(e, RequestMessages(e, ts));
  }

  lemma {:induction false} BuiltPublics(x: Ctx, t: Table, deps: seq<PendingDeposit>, txs: seq<StoredTx>)
    requires x.c.e.order > 0 && Rebuild(x.c, t, deps, txs).outcome.Built?
    ensures var pub := Rebuild(x.c, t, deps, txs).outcome.value.pub;
            && pub.oldRoot == Root(x.c.e, t)
            && pub.depositHash == FoldPairs(x.c.e, DOMAIN_DEP, 0, DepositPairs(Requests(deps)))
            && pub.withdrawHash == FoldPairs(x.c.e, DOMAIN_WD, 0, ExitPairs(AllSigned(x.c.e, txs)))
  {
    BuiltParts(x.c.e, t, x.c.dSlots, x.c.nSlots, Requests(deps), AllSigned(x.c.e, txs));
  }

  lemma {:induction false} SameFolds(x: Ctx, s: State, deps: seq<PendingDeposit>, txs: seq<StoredTx>)
    requires Aligned(x, s, deps, txs)
    ensures QueuePairs(s.queue, s.depHead, |deps|) == DepositPairs(Requests(deps))
    ensures PayoutPairs(x.c, WithdrawalsOf(txs)) == ExitPairs(AllSigned(x.c.e, txs))
    ensures s.root == Root(x.c.e, Last(x).table)
  {
    AlignedFold(x, s, deps);
    PayoutsAreExits(x, txs);
  }

  lemma {:induction false} AlignedFold(x: Ctx, s: State, deps: seq<PendingDeposit>)
    requires ChainOk(x, s) && s.depHead + |deps| <= s.depTail && deps == x.log[s.depHead..s.depHead + |deps|]
    ensures QueuePairs(s.queue, s.depHead, |deps|) == DepositPairs(Requests(deps))
  {
    QueueIsLog(x, s, s.depHead, |deps|);
  }

  /** The public inputs the contract assembles are those of the honest build. */
  lemma {:induction false} PublicsAgree(x: Ctx, s: State, deps: seq<PendingDeposit>, txs: seq<StoredTx>, pub: Public,
                                        env: Envelope)
    requires Aligned(x, s, deps, txs) && pub == Rebuild(x.c, Last(x).table, deps, txs).outcome.value.pub
    requires env.newRoot == pub.newRoot && env.daCommitment == pub.daCommitment
    requires env.depositCount == |deps| && env.withdrawals == WithdrawalsOf(txs)
    ensures Publics(x.c, s, env) == pub
  {
    BuiltPublics(x, Last(x).table, deps, txs);
    SameFolds(x, s, deps, txs);
  }

  lemma {:induction false} HonestTotals(x: Ctx, t: Table, deps: seq<PendingDeposit>, txs: seq<StoredTx>)
    requires ValidEnv(x.c.e) && WellFormed(x.c.e, t) && InputsOk(x, deps, txs)
             && Rebuild(x.c, t, deps, txs).outcome.Built?
    ensures var e, u := x.c.e, Rebuild(x.c, t, deps, txs).table;
            && WellFormed(e, u) && TotalBalance(e, u) >= 0
            && TotalBalance(e, u) == TotalBalance(e, t) + Amounts(DepositPairs(Requests(deps)))
               - Amounts(ExitPairs(AllSigned(e, txs)))
  {
    var e, b := x.c.e, Rebuild(x.c, t, deps, txs);
    RebuildIsHonest(x, t, deps, txs);
    Conservation(e, t, BatchOps(e, Render(b.outcome.value)));
    SlotWithinTotal(e, b.table, 0, Pow2(e.depth));
  }

  /** The balances move by the queue prefix and the payouts. */
  lemma {:induction false} HonestBalance(x: Ctx, s: State, deps: seq<PendingDeposit>, txs: seq<StoredTx>)
    requires Aligned(x, s, deps, txs)
    ensures var e, t, u := x.c.e, Last(x).table, Rebuild(x.c, Last(x).table, deps, txs).table;
            && WellFormed(e, u) && TotalBalance(e, u) >= 0
            && TotalBalance(e, u) == TotalBalance(e, t) + Amounts(QueuePairs(s.queue, s.depHead, |deps|))
               - PayoutTotal(WithdrawalsOf(txs))
  {
    HonestTotals(x, Last(x).table, deps, txs);
    SameFolds(x, s, deps, txs);
    PayoutTotalIs(x.c, WithdrawalsOf(txs));
  }

  // ---------- the current envelope ----------

  /** An envelope that claims what a build of these inputs published, with a proof of
      the right length. */
  predicate Claims(env: Envelope, pub: Public, count: nat, txs: seq<StoredTx>) {
    && env.newRoot == pub.newRoot && env.daCommitment == pub.daCommitment && env.depositCount == count
    && env.withdrawals == WithdrawalsOf(txs) && |env.withdrawals| <= MAX_WITHDRAWALS
  }

  lemma {:induction false} ClaimedPublics(x: Ctx, s: State, b: Step<BatchWitness>, deps: seq<PendingDeposit>,
                                          txs: seq<StoredTx>, env: Envelope)
    requires Aligned(x, s, deps, txs) && b == Rebuild(x.c, Last(x).table, deps, txs)
    requires b.outcome.Built? && Claims(env, b.outcome.value.pub, |deps|, txs)
    ensures s.depHead + env.depositCount <= s.depTail
    ensures Publics(x.c, s, env) == b.outcome.value.pub
  {
    PublicsAgree(x, s, deps, txs, b.outcome.value.pub, env);
  }

  lemma {:induction false} ClaimedTyped(x: Ctx, s: State, deps: seq<PendingDeposit>, txs: seq<StoredTx>, env: Envelope)
    requires Aligned(x, s, deps, txs) && env.withdrawals == WithdrawalsOf(txs)
    ensures CallTyped(x.c, s, SubmitCall(env)) && AmountsOk(env.withdrawals)
  {
    PayoutsAreExits(x, txs);
  }

  /** Of all the contract's checks only the proof is left. */
  lemma {:induction false} ClaimedVerdict(x: Ctx, s: State, b: Step<BatchWitness>, deps: seq<PendingDeposit>,
                                          txs: seq<StoredTx>, env: Envelope)
    requires Aligned(x, s, deps, txs) && b == Rebuild(x.c, Last(x).table, deps, txs)
    requires b.outcome.Built? && Claims(env, b.outcome.value.pub, |deps|, txs) && env.proof.bytes == PROOF_BYTES
    requires CanSubmit(x.c, s, env) && AmountsOk(env.withdrawals)
    ensures Verdict(x.c, s, env).Done? <==> Verifies(x.c, b.outcome.value.pub, env.proof)
    ensures !Verdict(x.c, s, env).Done? ==> Verdict(x.c, s, env) == Refused(VerificationFailed)
  {
    ClaimedPublics(x, s, b, deps, txs, env);
    BuiltCanonical(x, Last(x).table, deps, txs);
  }

  /** The contract after a landing. */
  ghost predicate LandedAs(x: Ctx, s: State, next: State, u: Table, count: nat) {
    && Solvent(x.c, next, u)
    && next.batchNum == s.batchNum + 1 && next.depHead == s.depHead + count && next.depTail == s.depTail
    && |next.tokens| == |s.tokens| && next.queue == Dequeued(s.queue, s.depHead, count)
  }

  /** The transition of a claimed batch pays out in full. */
  lemma {:induction false} ClaimedPays(x: Ctx, s: State, b: Step<BatchWitness>, deps: seq<PendingDeposit>,
                                       txs: seq<StoredTx>, env: Envelope)
    requires Aligned(x, s, deps, txs) && b == Rebuild(x.c, Last(x).table, deps, txs)
    requires b.outcome.Built? && Claims(env, b.outcome.value.pub, |deps|, txs)
    requires CanSubmit(x.c, s, env) && AmountsOk(env.withdrawals)
    ensures LandSpec(x.c, s, env).1.Done? && LandedAs(x, s, LandSpec(x.c, s, env).0, b.table, |deps|)
  {
    HonestBalance(x, s, deps, txs);
    RebuildRoots(x, Last(x).table, deps, txs);
    LandedSolvent(x.c, s, Last(x).table, b.table, env);
  }

  /** An envelope built on the current ledger from the queue's head lands if and only
      if its proof verifies for the build's own public inputs; it then pays out in full
      and moves the contract to what the build left, and is otherwise refused as
      unverified. */
  lemma {:induction false} ClaimedLandsIff(x: Ctx, s: State, b: Step<BatchWitness>, deps: seq<PendingDeposit>,
                                           txs: seq<StoredTx>, env: Envelope)
    requires Aligned(x, s, deps, txs) && b == Rebuild(x.c, Last(x).table, deps, txs)
    requires b.outcome.Built? && Claims(env, b.outcome.value.pub, |deps|, txs) && env.proof.bytes == PROOF_BYTES
    ensures CallTyped(x.c, s, SubmitCall(env))
    ensures var (next, reply) := SubmitSpec(x.c, s, env);
            if Verifies(x.c, b.outcome.value.pub, env.proof)
            then reply.Done? && LandedAs(x, s, next, b.table, |deps|) && next.root == env.newRoot
            else next == s && reply == Refused(VerificationFailed)
  {
    ClaimedTyped(x, s, deps, txs, env);
    ClaimedVerdict(x, s, b, deps, txs, env);
    ClaimedPays(x, s, b, deps, txs, env);
  }

  /** What an honest prover returns for a build. */
  predicate Honest(w: BatchWitness, proof: Proof) {
    proof.bytes == PROOF_BYTES && w.pub in proof.wits && proof.wits[w.pub] == Render(w)
  }

  /** An honest proof verifies. */
  lemma {:induction false} HonestVerifies(x: Ctx, t: Table, b: Step<BatchWitness>, deps: seq<PendingDeposit>,
                                          txs: seq<StoredTx>, proof: Proof)
    requires ValidEnv(x.c.e) && WellFormed(x.c.e, t) && InputsOk(x, deps, txs) && b == Rebuild(x.c, t, deps, txs)
    requires b.outcome.Built? && Honest(b.outcome.value, proof)
    ensures Verifies(x.c, b.outcome.value.pub, proof)
  {
    RebuildIsHonest(x, t, deps, txs);
    RenderLengths(b.outcome.value);
  }

  /** An honest envelope for the current ledger lands. */
  lemma {:induction false} HonestLands(x: Ctx, s: State, b: Step<BatchWitness>, deps: seq<PendingDeposit>,
                                       txs: seq<StoredTx>, env: Envelope)
    requires Aligned(x, s, deps, txs) && b == Rebuild(x.c, Last(x).table, deps, txs)
    requires b.outcome.Built? && Claims(env, b.outcome.value.pub, |deps|, txs) && Honest(b.outcome.value, env.proof)
    ensures CallTyped(x.c, s, SubmitCall(env)) && SubmitSpec(x.c, s, env).1.Done?
    ensures LandedAs(x, s, SubmitSpec(x.c, s, env).0, b.table, |deps|)
  {
    HonestVerifies(x, Last(x).table, b, deps, txs, env.proof);
    ClaimedLandsIff(x, s, b, deps, txs, env);
  }

  // ---------- older envelopes ----------

  lemma {:induction false} DepositsSpendNothing(e: Env, ds: seq<DepositWitness>)
    ensures Spends(AllDepositOps(ds)) == 0
  {
    if ds != [] {
      DepositsSpendNothing(e, ds[1..]);
      PublishedAppend(e, DepositOps(ds[0]), AllDepositOps(ds[1..]));
    }
  }

  lemma {:induction false} TxsSpendWithin(e: Env, ts: seq<TxWitness>)
    requires e.order > 0
    ensures Spends(AllTxOps(e, ts)) <= |ts|
  {
    if ts != [] {
      TxsSpendWithin(e, ts[1..]);
      PublishedAppend(e, TxOps(e, ts[0]), AllTxOps(e, ts[1..]));
    }
  }

  lemma {:induction false} BatchSpends(e: Env, w: Witness)
    requires e.order > 0
    ensures Spends(BatchOps(e, w)) <= |w.txs|
  {
    DepositsSpendNothing(e, w.deposits);
    TxsSpendWithin(e, w.txs);
    PublishedAppend(e, AllDepositOps(w.deposits), AllTxOps(e, w.txs));
  }

  /** No batch can take the nonces of a well-formed ledger past the modulus. */
  lemma {:induction false} BoundedProgress(c: Config, t: Table, ops: seq<Op>)
    requires Deployed(c) && WellFormed(c.e, t) && Legal(c.e, t, ops) && Spends(ops) <= c.nSlots
    ensures TableOk(c.e, Run(c.e, t, ops)) && (ops != [] ==> Before(c.e, t, Run(c.e, t, ops)))
  {
    NonceBound(c.e, t, Pow2(c.e.depth));
    Progress(c.e, t, ops);
    Conservation(c.e, t, ops);
  }

  /** Whatever lands moves the ledger strictly forward, unless it had no active
      entry. */
  lemma {:induction false} LandingAdvances(c: Config, K: set<seq<int>>, s: State, t: Table, env: Envelope)
    requires Deployed(c) && WellFormed(c.e, t) && Solvent(c, s, t)
    requires CallTyped(c, s, SubmitCall(env)) && Verdict(c, s, env).Done?
    requires LandingQueries(c, s, t, env) <= K && !Breaks(c.e, K)
    ensures var ops := BatchOps(c.e, Behind(c, s, env));
            && Legal(c.e, t, ops) && env.newRoot == Root(c.e, Run(c.e, t, ops))
            && TableOk(c.e, Run(c.e, t, ops)) && (ops != [] ==> Before(c.e, t, Run(c.e, t, ops)))
  {
    LandingIsReal(c, K, s, t, env);
    BatchSpends(c.e, Behind(c, s, env));
    BoundedProgress(c, t, BatchOps(c.e, Behind(c, s, env)));
  }

  lemma {:induction false} LastWellFormed(x: Ctx)
    requires CtxOk(x)
    ensures WellFormed(x.c.e, Last(x).table)
  {
    assert Past(x, |x.hist| - 1);
  }

  /** What an envelope of landed row k claims. */
  ghost predicate OldClaims(x: Ctx, k: nat, deps: seq<PendingDeposit>, txs: seq<StoredTx>, env: Envelope)
    requires x.c.e.order > 0
  {
    && 1 <= k < |x.hist| && (deps != [] || txs != [])
    && env.newRoot == Root(x.c.e, x.hist[k].table) && env.depositCount == |deps|
    && env.daCommitment == FoldMessages(x.c.e, 0, RequestMessages(x.c.e, AllSigned(x.c.e, txs)))
  }

  /** Hash queries of offering an old envelope again: the contract's and the
      circuit's, the nodes of the ledger it left then and of the one it would leave
      now, and the fold of its messages. */
  ghost function OldQueries(x: Ctx, s: State, k: nat, txs: seq<StoredTx>, env: Envelope): set<seq<int>>
    requires x.c.e.order > 0 && 1 <= k < |x.hist| && CallTyped(x.c, s, SubmitCall(env))
    requires s.depHead + env.depositCount <= s.depTail
  {
    LandingQueries(x.c, s, Last(x).table, env)
    + TreeQueries(x.c.e, x.hist[k].table, x.c.e.depth, 0)
    + TreeQueries(x.c.e, NextTable(x.c, s, Last(x).table, SubmitCall(env)), x.c.e.depth, 0)
    + MessageQueries(x.c.e, 0, RequestMessages(x.c.e, AllSigned(x.c.e, txs)))
  }

  /** No ledger after the last one has an old root. */
  lemma {:induction false} NoOldRoot(x: Ctx, K: set<seq<int>>, k: nat, v: Table)
    requires CtxOk(x) && 1 <= k < |x.hist| && SlotsInRange(x.c.e, v) && Before(x.c.e, Last(x).table, v)
    requires !Breaks(x.c.e, K)
    requires TreeQueries(x.c.e, x.hist[k].table, x.c.e.depth, 0) <= K && TreeQueries(x.c.e, v, x.c.e.depth, 0) <= K
    ensures Root(x.c.e, v) != Root(x.c.e, x.hist[k].table)
  {
    var e, left := x.c.e, x.hist[k].table;
    if k < |x.hist| - 1 { LaterTables(x, k, |x.hist| - 1); }
    BeforeTransitive(e, left, Last(x).table, v);
    assert Past(x, k);
    if Root(e, v) == Root(e, left) { SameRootBreaks(e, left, v); }
    FewerQueries(e, TreeQueries(e, left, e.depth, 0) + TreeQueries(e, v, e.depth, 0), K);
  }

  /** Without one it would carry no deposit and no message. */
  lemma {:induction false} PaddingCarriesNothing(x: Ctx, K: set<seq<int>>, s: State, txs: seq<StoredTx>, env: Envelope)
    requires ChainOk(x, s) && CallTyped(x.c, s, SubmitCall(env)) && Verdict(x.c, s, env).Done?
    requires s.depHead + env.depositCount <= s.depTail && BatchOps(x.c.e, Behind(x.c, s, env)) == []
    requires LandingQueries(x.c, s, Last(x).table, env) <= K && !Breaks(x.c.e, K)
    requires env.daCommitment == FoldMessages(x.c.e, 0, RequestMessages(x.c.e, AllSigned(x.c.e, txs)))
    requires MessageQueries(x.c.e, 0, RequestMessages(x.c.e, AllSigned(x.c.e, txs))) <= K
    ensures env.depositCount == 0 && txs == []
  {
    var e := x.c.e;
    var msgs := RequestMessages(e, AllSigned(e, txs));
    LandingIsReal(x.c, K, s, Last(x).table, env);
    RequestMessageCount(e, AllSigned(e, txs));
    MessagesBind(e, K, msgs, []);
  }

  lemma {:induction false} OldVerdict(x: Ctx, K: set<seq<int>>, s: State, k: nat, deps: seq<PendingDeposit>,
                                          txs: seq<StoredTx>, env: Envelope)
    requires CtxOk(x) && ChainOk(x, s) && CallTyped(x.c, s, SubmitCall(env)) && OldClaims(x, k, deps, txs, env)
    requires s.depHead + env.depositCount <= s.depTail && OldQueries(x, s, k, txs, env) <= K && !Breaks(x.c.e, K)
    ensures !SubmitSpec(x.c, s, env).1.Done?
  {
    var t, ops := Last(x).table, BatchOps(x.c.e, Behind(x.c, s, env));
    if SubmitSpec(x.c, s, env).1.Done? {
      LastWellFormed(x);
      LandingAdvances(x.c, K, s, t, env);
      if ops == [] { PaddingCarriesNothing(x, K, s, txs, env); } else { NoOldRoot(x, K, k, Run(x.c.e, t, ops)); }
    }
  }

  /** An envelope that landed before is refused from then on, whatever its proof can
      be made to pass for: it would bring back an old root, or carry nothing. */
  lemma {:induction false} StaleRefused(x: Ctx, K: set<seq<int>>, s: State, k: nat, deps: seq<PendingDeposit>,
                                        txs: seq<StoredTx>, env: Envelope)
    requires CtxOk(x) && ChainOk(x, s) && CallTyped(x.c, s, SubmitCall(env)) && OldClaims(x, k, deps, txs, env)
    requires s.depHead + env.depositCount <= s.depTail ==> OldQueries(x, s, k, txs, env) <= K
    requires !Breaks(x.c.e, K)
    ensures SubmitSpec(x.c, s, env).0 == s && !SubmitSpec(x.c, s, env).1.Done?
  {
    if s.depHead + env.depositCount <= s.depTail { OldVerdict(x, K, s, k, deps, txs, env); }
  }

  /** Any envelope the contract accepts, whoever proved it: the witness behind it
      leaves the ledger u with the published root. */
  lemma {:induction false} AcceptedLands(x: Ctx, K: set<seq<int>>, s: State, env: Envelope, u: Table)
    requires ChainOk(x, s) && CallTyped(x.c, s, SubmitCall(env)) && SubmitSpec(x.c, s, env).1.Done?
    requires s.depHead + env.depositCount <= s.depTail && env.newRoot == Root(x.c.e, u) && SlotsInRange(x.c.e, u)
    requires LandingQueries(x.c, s, Last(x).table, env) <= K && !Breaks(x.c.e, K)
    requires var v := NextTable(x.c, s, Last(x).table, SubmitCall(env));
             TreeQueries(x.c.e, u, x.c.e.depth, 0) + TreeQueries(x.c.e, v, x.c.e.depth, 0) <= K
    ensures NextTable(x.c, s, Last(x).table, SubmitCall(env)) == u
    ensures LandedAs(x, s, SubmitSpec(x.c, s, env).0, u, env.depositCount)
  {
    var e, t := x.c.e, Last(x).table;
    var v := NextTable(x.c, s, t, SubmitCall(env));
    LandingIsReal(x.c, K, s, t, env);
    RootInjective(e, u, v);
    FewerQueries(e, TreeQueries(e, u, e.depth, 0) + TreeQueries(e, v, e.depth, 0), K);
    LandingKeepsSolvent(x.c, K, s, t, env);
  }
}
