/** With the supply below 2^64 no credit of any build overflows: not a deposit on
    top of other deposits, not a transfer on top of other transfers. */
module Overflow {
  import opened Field
  import opened Hashing
  import opened Merkle
  import opened Ledger
  import opened Circuit
  import opened Trees
  import opened Builder
  import opened Completeness
  import opened Contract
  import opened Custody
  import opened Database
  import opened Eviction
  import opened Admission

  predicate Overflowed<T>(o: Outcome<T>) {
    o.Failed? && o.error.BalanceOverflow?
  }

  lemma {:induction false} DepositFits(e: Env, t: Table, i: nat, req: DepositRequest)
    requires ValidEnv(e) && WellFormed(e, t) && RequestTyped(e, req) && TotalBalance(e, t) + req.amount < U64
    ensures !Overflowed(DepositStep(e, t, i, req).outcome)
  {
    var found := Find(e, t, req.pk);
    var target := if found.Some? then found else FreeIndex(e, t);
    if target.Some? { SlotWithinTotal(e, t, target.value, Pow2(e.depth)); }
  }

  lemma {:induction false} AmountsNonNegative(e: Env, ds: seq<DepositRequest>)
    requires forall j :: 0 <= j < |ds| ==> RequestTyped(e, ds[j])
    ensures Amounts(DepositPairs(ds)) >= 0
    decreases |ds|
  {
    if ds != [] {
      AmountsNonNegative(e, ds[1..]);
      assert DepositPairs(ds)[1..] == DepositPairs(ds[1..]);
    }
  }

  lemma {:induction false} DepositsFit(e: Env, t: Table, i: nat, ds: seq<DepositRequest>)
    requires ValidEnv(e) && WellFormed(e, t) && i <= |ds| && (forall j :: 0 <= j < |ds| ==> RequestTyped(e, ds[j]))
    requires TotalBalance(e, t) + Amounts(DepositPairs(ds[i..])) < U64
    ensures !Overflowed(BuildDeposits(e, t, i, ds).outcome)
    decreases |ds| - i
  {
    if i < |ds| {
      assert ds[i..][0] == ds[i] && ds[i..][1..] == ds[i + 1..];
      assert DepositPairs(ds[i..])[1..] == DepositPairs(ds[i + 1..]);
      AmountsNonNegative(e, ds[i + 1..]);
      DepositFits(e, t, i, ds[i]);
      if DepositStep(e, t, i, ds[i]).outcome.Built? {
        DepositGives(e, t, i, ds[i]);
        DepositsFit(e, DepositStep(e, t, i, ds[i]).table, i + 1, ds);
      }
    }
  }

  lemma {:induction false} TxFits(e: Env, u: Table, i: nat, req: SignedTx)
    requires ValidEnv(e) && WellFormed(e, u) && SignedTyped(e, req) && TotalBalance(e, u) < U64
    ensures !Overflowed(TxStep(e, u, i, req).outcome)
  {
    var found := Find(e, u, req.fromPkX);
    if found.Some? && req.amount <= u[found.value].balance && u[found.value].nonce + 1 < U64 {
      RecipientBuilds(e, u, i, req, found.value);
    }
  }

  /** A built transaction leaves no more in total than it found. */
  lemma {:induction false} TxKeepsTotal(e: Env, u: Table, i: nat, req: SignedTx)
    requires ValidEnv(e) && WellFormed(e, u) && SignedTyped(e, req) && TxStep(e, u, i, req).outcome.Built?
    ensures WellFormed(e, TxStep(e, u, i, req).table)
            && TotalBalance(e, TxStep(e, u, i, req).table) <= TotalBalance(e, u)
  {
    var s := TxStep(e, u, i, req);
    TxStepLegal(e, u, i, req);
    ExecKeeps(e, u, RequestOp(req, s.outcome.value.fromIndex, s.outcome.value.toIndex));
  }

  lemma {:induction false} TxsFit(e: Env, u: Table, i: nat, ts: seq<SignedTx>)
    requires ValidEnv(e) && WellFormed(e, u) && i <= |ts| && (forall j :: 0 <= j < |ts| ==> SignedTyped(e, ts[j]))
    requires TotalBalance(e, u) < U64
    ensures !Overflowed(BuildTxs(e, u, i, ts).outcome)
    decreases |ts| - i
  {
    if i < |ts| {
      TxFits(e, u, i, ts[i]);
      if TxStep(e, u, i, ts[i]).outcome.Built? {
        TxKeepsTotal(e, u, i, ts[i]);
        TxsFit(e, TxStep(e, u, i, ts[i]).table, i + 1, ts);
      }
    }
  }

  /** A build whose balances and deposits stay below 2^64 in total never reports a
      balance overflow, on any of its intermediate tables. */
  lemma {:induction false} BuildNeverOverflows(e: Env, t: Table, dSlots: nat, nSlots: nat, ds: seq<DepositRequest>,
                                               ts: seq<SignedTx>)
    requires ValidEnv(e) && WellFormed(e, t) && AllTyped(e, ds, ts)
    requires TotalBalance(e, t) + Amounts(DepositPairs(ds)) < U64
    ensures !Overflowed(Build(e, t, dSlots, nSlots, ds, ts).outcome)
  {
    assert ds[0..] == ds;
    DepositsFit(e, t, 0, ds);
    if BuildDeposits(e, t, 0, ds).outcome.Built? {
      DepositsGive(e, t, 0, ds);
      TxsFit(e, BuildDeposits(e, t, 0, ds).table, 0, ts);
    }
  }

  /** Balances and any queue prefix are covered by escrow, so by the supply. */
  lemma {:induction false} EscrowBoundsPrefix(c: Config, s: State, t: Table, m: nat)
    requires Solvent(c, s, t) && s.depHead + m <= s.depTail && Supply(s.tokens) < U64
    ensures TotalBalance(c.e, t) + Amounts(QueuePairs(s.queue, s.depHead, m)) < U64
  {
    QueueAfterLanding(c, s, m);
    HolderWithinSupply(s.tokens, c.self, |s.tokens|);
  }

  /** In any solvent state with the supply below 2^64: building any prefix of the
      queue and any typed transactions never overflows a balance. */
  lemma {:induction false} QueueNeverOverflows(c: Config, s: State, t: Table, m: nat, ds: seq<DepositRequest>,
                                               ts: seq<SignedTx>)
    requires Solvent(c, s, t) && WellFormed(c.e, t) && Supply(s.tokens) < U64 && s.depHead + m <= s.depTail
    requires AllTyped(c.e, ds, ts) && DepositPairs(ds) == QueuePairs(s.queue, s.depHead, m)
    ensures !Overflowed(Build(c.e, t, c.dSlots, c.nSlots, ds, ts).outcome)
  {
    EscrowBoundsPrefix(c, s, t, m);
    BuildNeverOverflows(c.e, t, c.dSlots, c.nSlots, ds, ts);
  }

  // ---------- what can stall the eviction loop ----------

  /** A typed, authentic transaction that fails names itself. */
  lemma {:induction false} FailureNamesTx(e: Env, u: Table, i: nat, tx: StoredTx)
    requires ValidEnv(e) && WellFormed(e, u) && Typed(e, tx) && TotalBalance(e, u) < U64
    requires TxStep(e, u, i, RowToSigned(e, tx)).outcome.Failed?
    ensures BadTx(TxStep(e, u, i, RowToSigned(e, tx)).outcome.error).Some?
  {
    StoredIsSignedTyped(e, tx);
    TxFits(e, u, i, RowToSigned(e, tx));
  }

  lemma {:induction false} PassNeverStalls(e: Env, u: Table, cs: seq<Candidate>)
    requires ValidEnv(e) && WellFormed(e, u) && AllTypedTxs(e, cs) && TotalBalance(e, u) < U64
    ensures OnePass(e, u, cs).halt != Some(Stalled)
    decreases |cs|
  {
    if cs != [] {
      var s := TxStep(e, u, 0, RowToSigned(e, cs[0].tx));
      if s.outcome.Built? {
        StepKeeps(e, u, 0, cs[0].tx);
        PassNeverStalls(e, s.table, cs[1..]);
      } else if s.outcome.Failed? {
        FailureNamesTx(e, u, 0, cs[0].tx);
        PassNeverStalls(e, u, cs[1..]);
      }
    }
  }

  /** What the contract checked before it enqueued the deposit. */
  predicate Creditable(e: Env, d: DepositRequest) {
    RequestTyped(e, d) && d.amount > 0 && d.pk > 0 && d.pk != PAD_PK_X
  }

  lemma {:induction false} DepositsFailOnlyFull(c: Config, t: Table, i: nat, ds: seq<DepositRequest>)
    requires ValidEnv(c.e) && WellFormed(c.e, t) && i <= |ds|
    requires forall j :: 0 <= j < |ds| ==> Creditable(c.e, ds[j])
    requires TotalBalance(c.e, t) + Amounts(DepositPairs(ds[i..])) < U64
    requires BuildDeposits(c.e, t, i, ds).outcome.Failed?
    ensures BuildDeposits(c.e, t, i, ds).outcome.error == TreeFull
    decreases |ds| - i
  {
    assert ds[i..][0] == ds[i] && ds[i..][1..] == ds[i + 1..];
    assert DepositPairs(ds[i..])[1..] == DepositPairs(ds[i + 1..]);
    assert Creditable(c.e, ds[i]);
    AmountsNonNegative(c.e, ds[i + 1..]);
    DepositFits(c.e, t, i, ds[i]);
    if DepositStep(c.e, t, i, ds[i]).outcome.Built? {
      DepositGives(c.e, t, i, ds[i]);
      DepositsFailOnlyFull(c, DepositStep(c.e, t, i, ds[i]).table, i + 1, ds);
    }
  }

  /** The only jam is a full tree: otherwise the loop ends with a batch, with a
      nonce at its maximum, or with nothing left to build. */
  lemma {:induction false} JamIsTreeFull(c: Config, t: Table, ds: seq<DepositRequest>, cs: seq<Candidate>)
    requires ValidEnv(c.e) && WellFormed(c.e, t) && AllTypedTxs(c.e, cs) && |ds| <= c.dSlots && |cs| <= c.nSlots
    requires forall j :: 0 <= j < |ds| ==> Creditable(c.e, ds[j])
    requires TotalBalance(c.e, t) + Amounts(DepositPairs(ds)) < U64
    requires Restart(c, t, ds, cs).attempt.Stalled?
    ensures || BuildDeposits(c.e, t, 0, ds).outcome == Failed(TreeFull)
            || (ds == [] && |Restart(c, t, ds, cs).dropped| == |cs|)
  {
    assert ds[0..] == ds;
    RestartIsOnePass(c, t, ds, cs);
    DepositErrorsNameNoTx(c.e, t, 0, ds);
    var d := BuildDeposits(c.e, t, 0, ds);
    if d.outcome.Built? {
      DepositsGive(c.e, t, 0, ds);
      PassNeverStalls(c.e, d.table, cs);
      PassSplits(c.e, d.table, cs);
      assert [] + OnePass(c.e, d.table, cs).kept == OnePass(c.e, d.table, cs).kept;
    } else {
      DepositsFailOnlyFull(c, t, 0, ds);
    }
  }
}
