/** Whole runs of the contract, driven by any mix of depositors and provers. */
module Custody {
  import opened Field
  import opened Hashing
  import opened Merkle
  import opened Ledger
  import opened Soundness
  import opened Binding
  import opened Contract

  datatype Call =
    | DepositCall(from: nat, pk: nat, amount: int)
    | SubmitCall(env: Envelope)

  /** Arguments as the host types them: known addresses, 32-byte words, and a
      depositor other than the contract itself (it authorised the call). */
  ghost predicate CallTyped(c: Config, s: State, call: Call) {
    ValidConfig(c) && ValidState(c, s) &&
    match call
    case DepositCall(from, pk, amount) => from < |s.tokens| && from != c.self
    case SubmitCall(env) => DestsKnown(s, env.withdrawals)
  }

  ghost function NextState(c: Config, s: State, call: Call): State
    requires CallTyped(c, s, call)
  {
    match call
    case DepositCall(from, pk, amount) => DepositSpec(c, s, from, pk, amount).0
    case SubmitCall(env) => SubmitSpec(c, s, env).0
  }

  ghost predicate Lands(c: Config, s: State, call: Call)
    requires CallTyped(c, s, call)
  {
    call.SubmitCall? && SubmitSpec(c, s, call.env).1.Done?
  }

  /** The ledger behind the root: it moves when a batch lands, by the operations
      of the batch's witness. */
  ghost function NextTable(c: Config, s: State, t: Table, call: Call): Table
    requires CallTyped(c, s, call)
  {
    if Lands(c, s, call) && Legal(c.e, t, BatchOps(c.e, Behind(c, s, call.env)))
    then Run(c.e, t, BatchOps(c.e, Behind(c, s, call.env))) else t
  }

  /** Hash queries of one landing: the circuit's, and both sides of both folds. */
  ghost function LandingQueries(c: Config, s: State, t: Table, env: Envelope): set<seq<int>>
    requires CallTyped(c, s, SubmitCall(env)) && s.depHead + env.depositCount <= s.depTail
  {
    var ops := BatchOps(c.e, Behind(c, s, env));
    BatchQueries(c.e, t, Behind(c, s, env))
    + ListQueries(c.e, DOMAIN_DEP, 0, QueuePairs(s.queue, s.depHead, env.depositCount))
    + ListQueries(c.e, DOMAIN_DEP, 0, Deposits(ops))
    + ListQueries(c.e, DOMAIN_WD, 0, PayoutPairs(c, env.withdrawals))
    + ListQueries(c.e, DOMAIN_WD, 0, Exits(ops))
  }

  ghost function CallQueries(c: Config, s: State, t: Table, call: Call): set<seq<int>>
    requires CallTyped(c, s, call)
  {
    if Lands(c, s, call) then LandingQueries(c, s, t, call.env) else {}
  }

  // ---------- the invariant ----------

  predicate EntryOk(c: Config, d: PendingDeposit) {
    0 < d.amount < U64 && 0 < d.pk < c.e.p && d.pk != PAD_PK_X
  }

  ghost function Queued(s: State): int
    requires s.depHead <= s.depTail && forall i :: s.depHead <= i < s.depTail ==> i in s.queue
  {
    Amounts(QueuePairs(s.queue, s.depHead, s.depTail - s.depHead))
  }

  /** The root is the ledger's, every queue entry is creditable, and escrow
      covers every L2 balance and every queued deposit. */
  ghost predicate Solvent(c: Config, s: State, t: Table) {
    && ValidConfig(c) && ValidState(c, s)
    && TableOk(c.e, t) && s.root == Root(c.e, t)
    && (forall i :: i in s.queue ==> EntryOk(c, s.queue[i]))
    && s.tokens[c.self] >= TotalBalance(c.e, t) + Queued(s)
  }

  // ---------- queue sums ----------

  lemma {:induction false} QueueSplit(queue: map<nat, PendingDeposit>, head: nat, a: nat, b: nat)
    requires forall i :: head <= i < head + a + b ==> i in queue
    ensures QueuePairs(queue, head, a + b) == QueuePairs(queue, head, a) + QueuePairs(queue, head + a, b)
    decreases a
  {
    if a == 0 {
      assert QueuePairs(queue, head, 0) + QueuePairs(queue, head, b) == QueuePairs(queue, head, b);
    } else {
      QueueSplit(queue, head + 1, a - 1, b);
    }
  }

  lemma {:induction false} QueueSame(q: map<nat, PendingDeposit>, r: map<nat, PendingDeposit>, head: nat, count: nat)
    requires forall i :: head <= i < head + count ==> i in q && i in r && q[i] == r[i]
    ensures QueuePairs(q, head, count) == QueuePairs(r, head, count)
    decreases count
  {
    if count != 0 { QueueSame(q, r, head + 1, count - 1); }
  }

  lemma {:induction false} QueueAmounts(c: Config, queue: map<nat, PendingDeposit>, head: nat, count: nat)
    requires forall i :: head <= i < head + count ==> i in queue && EntryOk(c, queue[i])
    ensures Amounts(QueuePairs(queue, head, count)) >= 0
    ensures forall i :: head <= i < head + count ==> queue[i].amount <= Amounts(QueuePairs(queue, head, count))
    decreases count
  {
    if count != 0 {
      QueueAmounts(c, queue, head + 1, count - 1);
      assert QueuePairs(queue, head, count)[1..] == QueuePairs(queue, head + 1, count - 1);
    }
  }

  // ---------- deposits ----------

  lemma {:induction false} DepositKeepsSolvent(c: Config, s: State, t: Table, from: nat, pk: nat, amount: int)
    requires Solvent(c, s, t) && CallTyped(c, s, DepositCall(from, pk, amount))
    ensures Solvent(c, NextState(c, s, DepositCall(from, pk, amount)), t)
  {
    var (s1, reply) := DepositSpec(c, s, from, pk, amount);
    if reply.Done? {
      var n := s.depTail - s.depHead;
      QueueSplit(s1.queue, s.depHead, n, 1);
      QueueSame(s.queue, s1.queue, s.depHead, n);
      var last := QueuePairs(s1.queue, s.depTail, 1);
      assert last == [(pk, amount)] by { assert QueuePairs(s1.queue, s.depTail + 1, 0) == []; }
      AmountsAppend(QueuePairs(s1.queue, s.depHead, n), last);
      assert last[1..] == [];
    }
  }

  // ---------- landings ----------

  function PayoutTotal(ws: seq<Withdrawal>): int {
    if ws == [] then 0 else ws[0].amount + PayoutTotal(ws[1..])
  }

  lemma {:induction false} PayoutTotalIs(c: Config, ws: seq<Withdrawal>)
    ensures Amounts(PayoutPairs(c, ws)) == PayoutTotal(ws)
  {
    if ws != [] {
      PayoutTotalIs(c, ws[1..]);
      assert PayoutPairs(c, ws)[1..] == PayoutPairs(c, ws[1..]);
    }
  }

  lemma {:induction false} PayoutTotalNonNegative(ws: seq<Withdrawal>)
    requires AmountsOk(ws)
    ensures PayoutTotal(ws) >= 0
  {
    if ws != [] { PayoutTotalNonNegative(ws[1..]); }
  }

  /** Escrow that covers the payouts pays all of them, and loses at most their
      total: a payout to the contract itself changes nothing. */
  lemma {:induction false} EscrowPays(self: nat, tokens: seq<nat>, ws: seq<Withdrawal>)
    requires self < |tokens| && AmountsOk(ws) && forall i :: 0 <= i < |ws| ==> ws[i].dest < |tokens|
    requires tokens[self] >= PayoutTotal(ws)
    ensures PayAll(self, tokens, ws).Some?
    ensures PayAll(self, tokens, ws).value[self] >= tokens[self] - PayoutTotal(ws)
    decreases |ws|
  {
    if ws != [] {
      PayoutTotalNonNegative(ws[1..]);
      EscrowPays(self, Transfer(tokens, self, ws[0].dest, ws[0].amount).value, ws[1..]);
    }
  }

  /** What a passing verdict means: the witness is a real transition of the
      ledger behind the root, its credits are exactly the queue prefix and its
      exits exactly the payouts. */
  lemma {:induction false} LandingIsReal(c: Config, K: set<seq<int>>, s: State, t: Table, env: Envelope)
    requires Solvent(c, s, t) && CallTyped(c, s, SubmitCall(env)) && Verdict(c, s, env).Done?
    requires LandingQueries(c, s, t, env) <= K && !Breaks(c.e, K)
    ensures var ops := BatchOps(c.e, Behind(c, s, env));
            && Legal(c.e, t, ops)
            && env.newRoot == Root(c.e, Run(c.e, t, ops)) && TableOk(c.e, Run(c.e, t, ops))
            && Deposits(ops) == QueuePairs(s.queue, s.depHead, env.depositCount)
            && Exits(ops) == PayoutPairs(c, env.withdrawals)
            && env.daCommitment == FoldMessages(c.e, 0, Messages(c.e, ops))
            && |Behind(c, s, env).txs| == c.nSlots
            && TotalBalance(c.e, Run(c.e, t, ops))
               == TotalBalance(c.e, t) + Amounts(Deposits(ops)) - Amounts(Exits(ops))
  {
    var ops := BatchOps(c.e, Behind(c, s, env));
    var pub := Publics(c, s, env);
    CircuitSoundUnbroken(c.e, K, t, pub, Behind(c, s, env));
    FoldsBind(c.e, K, DOMAIN_DEP, Deposits(ops), QueuePairs(s.queue, s.depHead, env.depositCount));
    FoldsBind(c.e, K, DOMAIN_WD, Exits(ops), PayoutPairs(c, env.withdrawals));
  }

  /** The deposits still queued after a landing, and their worth. */
  lemma {:induction false} QueueAfterLanding(c: Config, s: State, count: nat)
    requires ValidState(c, s) && s.depHead + count <= s.depTail
    requires forall i :: i in s.queue ==> EntryOk(c, s.queue[i])
    ensures var n := s.depTail - s.depHead - count;
            var q := Dequeued(s.queue, s.depHead, count);
            && (forall i :: s.depHead + count <= i < s.depTail ==> i in q)
            && Amounts(QueuePairs(q, s.depHead + count, n)) >= 0
            && Queued(s) == Amounts(QueuePairs(s.queue, s.depHead, count))
               + Amounts(QueuePairs(q, s.depHead + count, n))
  {
    var n := s.depTail - s.depHead - count;
    var q := Dequeued(s.queue, s.depHead, count);
    QueueSplit(s.queue, s.depHead, count, n);
    AmountsAppend(QueuePairs(s.queue, s.depHead, count), QueuePairs(s.queue, s.depHead + count, n));
    QueueSame(s.queue, q, s.depHead + count, n);
    QueueAmounts(c, q, s.depHead + count, n);
  }

  /** The arithmetic of a landing: escrow covers the payouts and what remains. */
  lemma {:induction false} LandedSolvent(c: Config, s: State, t: Table, u: Table, env: Envelope)
    requires Solvent(c, s, t) && AmountsOk(env.withdrawals) && DestsKnown(s, env.withdrawals)
    requires s.depHead + env.depositCount <= s.depTail
    requires TableOk(c.e, u) && env.newRoot == Root(c.e, u) && TotalBalance(c.e, u) >= 0
    requires TotalBalance(c.e, u) == TotalBalance(c.e, t)
             + Amounts(QueuePairs(s.queue, s.depHead, env.depositCount)) - PayoutTotal(env.withdrawals)
    ensures LandSpec(c, s, env).1.Done? && Solvent(c, LandSpec(c, s, env).0, u)
  {
    QueueAfterLanding(c, s, env.depositCount);
    EscrowPays(c.self, s.tokens, env.withdrawals);
  }

  /** What a landing does to the balances, from its public lists. */
  lemma {:induction false} LandingBalance(c: Config, K: set<seq<int>>, s: State, t: Table, env: Envelope)
    requires Solvent(c, s, t) && CallTyped(c, s, SubmitCall(env)) && Verdict(c, s, env).Done?
    requires LandingQueries(c, s, t, env) <= K && !Breaks(c.e, K)
    ensures Legal(c.e, t, BatchOps(c.e, Behind(c, s, env)))
    ensures var u := Run(c.e, t, BatchOps(c.e, Behind(c, s, env)));
            && TableOk(c.e, u) && env.newRoot == Root(c.e, u) && TotalBalance(c.e, u) >= 0
            && TotalBalance(c.e, u) == TotalBalance(c.e, t)
               + Amounts(QueuePairs(s.queue, s.depHead, env.depositCount)) - PayoutTotal(env.withdrawals)
  {
    LandingIsReal(c, K, s, t, env);
    PayoutTotalIs(c, env.withdrawals);
    SlotWithinTotal(c.e, Run(c.e, t, BatchOps(c.e, Behind(c, s, env))), 0, Pow2(c.e.depth));
  }

  /** A batch that passes the checks pays out in full, and keeps the invariant. */
  lemma {:induction false} LandingKeepsSolvent(c: Config, K: set<seq<int>>, s: State, t: Table, env: Envelope)
    requires Solvent(c, s, t) && CallTyped(c, s, SubmitCall(env)) && Verdict(c, s, env).Done?
    requires LandingQueries(c, s, t, env) <= K && !Breaks(c.e, K)
    ensures SubmitSpec(c, s, env).1.Done?
    ensures Solvent(c, SubmitSpec(c, s, env).0, NextTable(c, s, t, SubmitCall(env)))
  {
    LandingBalance(c, K, s, t, env);
    VerdictChecked(c, s, env);
    LandedSolvent(c, s, t, Run(c.e, t, BatchOps(c.e, Behind(c, s, env))), env);
  }

  lemma {:induction false} VerdictChecked(c: Config, s: State, env: Envelope)
    requires CanSubmit(c, s, env) && Verdict(c, s, env).Done?
    ensures AmountsOk(env.withdrawals) && s.depHead + env.depositCount <= s.depTail
  {}

  lemma {:induction false} CallKeepsSolvent(c: Config, K: set<seq<int>>, s: State, t: Table, call: Call)
    requires Solvent(c, s, t) && CallTyped(c, s, call)
    requires CallQueries(c, s, t, call) <= K && !Breaks(c.e, K)
    ensures Solvent(c, NextState(c, s, call), NextTable(c, s, t, call))
  {
    match call
    case DepositCall(from, pk, amount) => DepositKeepsSolvent(c, s, t, from, pk, amount);
    case SubmitCall(env) =>
      if Lands(c, s, call) { LandingKeepsSolvent(c, K, s, t, env); }
  }

  // ---------- runs ----------

  /** Every call is well typed in the state it meets. */
  ghost predicate RunTyped(c: Config, s: State, calls: seq<Call>)
    decreases |calls|
  {
    calls == [] || (CallTyped(c, s, calls[0]) && RunTyped(c, NextState(c, s, calls[0]), calls[1..]))
  }

  ghost function After(c: Config, s: State, t: Table, calls: seq<Call>): (State, Table)
    requires RunTyped(c, s, calls)
    decreases |calls|
  {
    if calls == [] then (s, t)
    else After(c, NextState(c, s, calls[0]), NextTable(c, s, t, calls[0]), calls[1..])
  }

  ghost function RunQueries(c: Config, s: State, t: Table, calls: seq<Call>): set<seq<int>>
    requires RunTyped(c, s, calls)
    decreases |calls|
  {
    if calls == [] then {}
    else CallQueries(c, s, t, calls[0])
         + RunQueries(c, NextState(c, s, calls[0]), NextTable(c, s, t, calls[0]), calls[1..])
  }

  lemma {:induction false} RunKeepsSolvent(c: Config, K: set<seq<int>>, s: State, t: Table, calls: seq<Call>)
    requires Solvent(c, s, t) && RunTyped(c, s, calls)
    requires RunQueries(c, s, t, calls) <= K && !Breaks(c.e, K)
    ensures Solvent(c, After(c, s, t, calls).0, After(c, s, t, calls).1)
    decreases |calls|
  {
    if calls != [] {
      CallKeepsSolvent(c, K, s, t, calls[0]);
      RunKeepsSolvent(c, K, NextState(c, s, calls[0]), NextTable(c, s, t, calls[0]), calls[1..]);
    }
  }

  /** Solvency over every run: whatever is called by whomever, escrow covers all
      L2 balances and all queued deposits, or the run's own queries break the
      hash. */
  lemma {:induction false} SolvencyOverEveryRun(c: Config, s: State, t: Table, calls: seq<Call>)
    requires Solvent(c, s, t) && RunTyped(c, s, calls)
    ensures Solvent(c, After(c, s, t, calls).0, After(c, s, t, calls).1)
            || Breaks(c.e, RunQueries(c, s, t, calls))
  {
    if !Breaks(c.e, RunQueries(c, s, t, calls)) {
      RunKeepsSolvent(c, RunQueries(c, s, t, calls), s, t, calls);
    }
  }

  /** The empty tree at deployment is solvent. */
  lemma {:induction false} GenesisSolvent(c: Config, tokens: seq<nat>)
    requires ValidConfig(c) && c.self < |tokens|
    ensures Solvent(c, State(Root(c.e, map[]), 0, 0, 0, map[], tokens), map[])
  {
    EmptyTotals(Pow2(c.e.depth));
  }

  lemma {:induction false} EmptyTotals(n: nat)
    ensures SumBalances(map[], n) == 0 && SumNonces(map[], n) == 0
  {
    if n != 0 { EmptyTotals(n - 1); }
  }

  // ---------- overflow is unreachable under the supply bound ----------

  /** Balances of the first n holders. */
  function SupplyOf(tokens: seq<nat>, n: nat): nat
    requires n <= |tokens|
  {
    if n == 0 then 0 else SupplyOf(tokens, n - 1) + tokens[n - 1]
  }

  function Supply(tokens: seq<nat>): nat {
    SupplyOf(tokens, |tokens|)
  }

  lemma {:induction false} SupplyUpdate(tokens: seq<nat>, i: nat, v: nat, n: nat)
    requires i < |tokens| && n <= |tokens|
    ensures SupplyOf(tokens[i := v], n) == SupplyOf(tokens, n) + if i < n then v - tokens[i] else 0
  {
    if n != 0 { SupplyUpdate(tokens, i, v, n - 1); }
  }

  lemma {:induction false} HolderWithinSupply(tokens: seq<nat>, i: nat, n: nat)
    requires i < n <= |tokens|
    ensures tokens[i] <= SupplyOf(tokens, n)
    decreases n
  {
    if i < n - 1 { HolderWithinSupply(tokens, i, n - 1); }
  }

  lemma {:induction false} TransferKeepsSupply(tokens: seq<nat>, from: nat, to: nat, amount: nat)
    requires from < |tokens| && to < |tokens| && tokens[from] >= amount
    ensures Supply(Transfer(tokens, from, to, amount).value) == Supply(tokens)
  {
    var debited := tokens[from := tokens[from] - amount];
    var credit: nat := debited[to] + amount;
    SupplyUpdate(tokens, from, tokens[from] - amount, |tokens|);
    SupplyUpdate(debited, to, credit, |tokens|);
  }

  lemma {:induction false} PayAllKeepsSupply(self: nat, tokens: seq<nat>, ws: seq<Withdrawal>)
    requires self < |tokens| && AmountsOk(ws) && forall i :: 0 <= i < |ws| ==> ws[i].dest < |tokens|
    ensures PayAll(self, tokens, ws).Some? ==> Supply(PayAll(self, tokens, ws).value) == Supply(tokens)
    decreases |ws|
  {
    if ws != [] && tokens[self] >= ws[0].amount {
      TransferKeepsSupply(tokens, self, ws[0].dest, ws[0].amount);
      PayAllKeepsSupply(self, Transfer(tokens, self, ws[0].dest, ws[0].amount).value, ws[1..]);
    }
  }

  lemma {:induction false} RunKeepsSupply(c: Config, s: State, t: Table, calls: seq<Call>)
    requires RunTyped(c, s, calls)
    ensures Supply(After(c, s, t, calls).0.tokens) == Supply(s.tokens)
    decreases |calls|
  {
    if calls != [] {
      match calls[0] {
        case DepositCall(from, pk, amount) =>
          if DepositSpec(c, s, from, pk, amount).1.Done? { TransferKeepsSupply(s.tokens, from, c.self, amount); }
        case SubmitCall(env) =>
          if Verdict(c, s, env).Done? { PayAllKeepsSupply(c.self, s.tokens, env.withdrawals); }
      }
      RunKeepsSupply(c, NextState(c, s, calls[0]), NextTable(c, s, t, calls[0]), calls[1..]);
    }
  }

  /** No credit can overflow: neither a queued deposit into any slot, nor a
      transfer of any amount its sender holds into any slot. */
  ghost predicate NoOverflow(c: Config, s: State, t: Table) {
    && (forall i, slot: nat :: i in s.queue && slot < Pow2(c.e.depth) ==> Balance(t, slot) + s.queue[i].amount < U64)
    && (forall from, slot :: from in t && slot in t && from != slot ==> t[from].balance + t[slot].balance < U64)
  }

  lemma {:induction false} TwoWithinTotal(e: Env, t: Table, i: nat, j: nat, n: nat)
    requires TableOk(e, t) && i < j < n
    ensures Balance(t, i) + Balance(t, j) <= SumBalances(t, n)
  {
    if j == n - 1 { SlotWithinTotal(e, t, i, n - 1); } else { TwoWithinTotal(e, t, i, j, n - 1); }
  }

  lemma {:induction false} SolventMeansNoOverflow(c: Config, s: State, t: Table)
    requires Solvent(c, s, t) && Supply(s.tokens) < U64
    ensures NoOverflow(c, s, t)
  {
    var n := Pow2(c.e.depth);
    HolderWithinSupply(s.tokens, c.self, |s.tokens|);
    QueueAmounts(c, s.queue, s.depHead, s.depTail - s.depHead);
    forall i, slot: nat | i in s.queue && slot < n ensures Balance(t, slot) + s.queue[i].amount < U64 {
      SlotWithinTotal(c.e, t, slot, n);
    }
    forall from, slot | from in t && slot in t && from != slot ensures t[from].balance + t[slot].balance < U64 {
      if from < slot { TwoWithinTotal(c.e, t, from, slot, n); } else { TwoWithinTotal(c.e, t, slot, from, n); }
    }
  }

  /** Under the deployment invariant (total supply at most 2^64 - 1) the queue
      head can always be credited, in every reachable state. */
  lemma {:induction false} OverflowUnreachable(c: Config, s: State, t: Table, calls: seq<Call>)
    requires Solvent(c, s, t) && RunTyped(c, s, calls) && Supply(s.tokens) < U64
    ensures NoOverflow(c, After(c, s, t, calls).0, After(c, s, t, calls).1)
            || Breaks(c.e, RunQueries(c, s, t, calls))
  {
    var (s1, t1) := After(c, s, t, calls);
    SolvencyOverEveryRun(c, s, t, calls);
    RunKeepsSupply(c, s, t, calls);
    if Solvent(c, s1, t1) { SolventMeansNoOverflow(c, s1, t1); }
  }

  // ---------- strict progress and no replay ----------

  /** Spends of all batches that land in a run. */
  ghost function RunSpends(c: Config, s: State, t: Table, calls: seq<Call>): nat
    requires RunTyped(c, s, calls)
    decreases |calls|
  {
    if calls == [] then 0
    else (if Lands(c, s, calls[0]) then Spends(BatchOps(c.e, Behind(c, s, calls[0].env))) else 0)
         + RunSpends(c, NextState(c, s, calls[0]), NextTable(c, s, t, calls[0]), calls[1..])
  }

  /** No batch that lands in the run has an active entry. */
  ghost predicate Idle(c: Config, s: State, calls: seq<Call>)
    requires RunTyped(c, s, calls)
    decreases |calls|
  {
    calls == [] ||
    ((Lands(c, s, calls[0]) ==> BatchOps(c.e, Behind(c, s, calls[0].env)) == [])
     && Idle(c, NextState(c, s, calls[0]), calls[1..]))
  }

  lemma {:induction false} BeforeTransitive(e: Env, t: Table, u: Table, v: Table)
    requires (t == u || Before(e, t, u)) && (u == v || Before(e, u, v))
    ensures t == v || Before(e, t, v)
    ensures Before(e, t, u) || Before(e, u, v) ==> Before(e, t, v)
  {}

  /** Along any run the ledger only moves forward, and strictly so unless every
      batch that landed was pure padding. */
  lemma {:induction false} RunProgress(c: Config, K: set<seq<int>>, s: State, t: Table, calls: seq<Call>)
    requires Solvent(c, s, t) && RunTyped(c, s, calls)
    requires RunQueries(c, s, t, calls) <= K && !Breaks(c.e, K)
    requires TotalNonce(c.e, t) + RunSpends(c, s, t, calls) < c.e.p
    ensures var u := After(c, s, t, calls).1;
            if Idle(c, s, calls) then u == t else Before(c.e, t, u)
    decreases |calls|
  {
    if calls != [] {
      var call := calls[0];
      var s1, t1 := NextState(c, s, call), NextTable(c, s, t, call);
      CallKeepsSolvent(c, K, s, t, call);
      if Lands(c, s, call) {
        LandingIsReal(c, K, s, t, call.env);
        var ops := BatchOps(c.e, Behind(c, s, call.env));
        Progress(c.e, t, ops);
        NoncesGrow(c.e, t, ops);
      }
      RunProgress(c, K, s1, t1, calls[1..]);
      BeforeTransitive(c.e, t, t1, After(c, s, t, calls).1);
    }
  }

  /** No root recurs: if a run brings the register back to its first root, no
      batch that landed in between had an active entry. */
  lemma {:induction false} NoRootRecurs(c: Config, s: State, t: Table, calls: seq<Call>)
    requires Solvent(c, s, t) && RunTyped(c, s, calls)
    requires TotalNonce(c.e, t) + RunSpends(c, s, t, calls) < c.e.p
    requires After(c, s, t, calls).0.root == s.root
    ensures var u := After(c, s, t, calls).1;
            Idle(c, s, calls)
            || Breaks(c.e,
                      RunQueries(c, s, t, calls) + TreeQueries(c.e, t, c.e.depth, 0)
                        + TreeQueries(c.e, u, c.e.depth, 0))
  {
    var (s1, u) := After(c, s, t, calls);
    var K := RunQueries(c, s, t, calls) + TreeQueries(c.e, t, c.e.depth, 0) + TreeQueries(c.e, u, c.e.depth, 0);
    if !Breaks(c.e, K) {
      RunKeepsSolvent(c, K, s, t, calls);
      RootInjective(c.e, t, u);
      FewerQueries(c.e, TreeQueries(c.e, t, c.e.depth, 0) + TreeQueries(c.e, u, c.e.depth, 0), K);
      RunProgress(c, K, s, t, calls);
    }
  }

  lemma {:induction false} FewerQueries(e: Env, A: set<seq<int>>, B: set<seq<int>>)
    requires A <= B && !Breaks(e, B)
    ensures !Breaks(e, A)
  {}

  /** The last call of the run is a batch that lands. */
  ghost predicate LastLands(c: Config, s: State, calls: seq<Call>)
    requires RunTyped(c, s, calls) && calls != []
    decreases |calls|
  {
    if |calls| == 1 then Lands(c, s, calls[0]) else LastLands(c, NextState(c, s, calls[0]), calls[1..])
  }

  /** The operations behind the last call, in the state it meets. */
  ghost function LastOps(c: Config, s: State, calls: seq<Call>): seq<Op>
    requires RunTyped(c, s, calls) && calls != [] && LastLands(c, s, calls)
    decreases |calls|
  {
    if |calls| == 1 then BatchOps(c.e, Behind(c, s, calls[0].env))
      else LastOps(c, NextState(c, s, calls[0]), calls[1..])
  }

  /** Its root is then the register's, and if the run was idle so was it. */
  lemma {:induction false} LastLanding(c: Config, s: State, t: Table, calls: seq<Call>)
    requires RunTyped(c, s, calls) && calls != [] && LastLands(c, s, calls)
    ensures var last := calls[|calls| - 1];
            && last.SubmitCall? && After(c, s, t, calls).0.root == last.env.newRoot
            && (Idle(c, s, calls) ==> LastOps(c, s, calls) == [])
    decreases |calls|
  {
    if |calls| > 1 { LastLanding(c, NextState(c, s, calls[0]), NextTable(c, s, t, calls[0]), calls[1..]); }
  }

  lemma {:induction false} FirstLanding(c: Config, K: set<seq<int>>, s: State, t: Table, calls: seq<Call>)
    requires Solvent(c, s, t) && RunTyped(c, s, calls) && calls != [] && Lands(c, s, calls[0])
    requires TotalNonce(c.e, t) + RunSpends(c, s, t, calls) < c.e.p
    requires RunQueries(c, s, t, calls) <= K && !Breaks(c.e, K)
    ensures var s1, u := NextState(c, s, calls[0]), NextTable(c, s, t, calls[0]);
            && Solvent(c, s1, u) && s1.root == calls[0].env.newRoot
            && TotalNonce(c.e, u) + RunSpends(c, s1, u, calls[1..]) < c.e.p
  {
    CallKeepsSolvent(c, K, s, t, calls[0]);
    LandingIsReal(c, K, s, t, calls[0].env);
    NoncesGrow(c.e, t, BatchOps(c.e, Behind(c, s, calls[0].env)));
  }

  lemma {:induction false} SameRootIdle(c: Config, K: set<seq<int>>, s: State, t: Table, calls: seq<Call>)
    requires Solvent(c, s, t) && RunTyped(c, s, calls) && calls != [] && LastLands(c, s, calls)
    requires calls[|calls| - 1].SubmitCall? && calls[|calls| - 1].env.newRoot == s.root
    requires TotalNonce(c.e, t) + RunSpends(c, s, t, calls) < c.e.p && !Breaks(c.e, K)
    requires RunQueries(c, s, t, calls) <= K && TreeQueries(c.e, t, c.e.depth, 0) <= K
    requires TreeQueries(c.e, After(c, s, t, calls).1, c.e.depth, 0) <= K
    ensures LastOps(c, s, calls) == []
  {
    LastLanding(c, s, t, calls);
    NoRootRecurs(c, s, t, calls);
    FewerQueries(c.e, RunQueries(c, s, t, calls) + TreeQueries(c.e, t, c.e.depth, 0)
                      + TreeQueries(c.e, After(c, s, t, calls).1, c.e.depth, 0), K);
  }

  /** A run after its first call. */
  lemma {:induction false} RestOfRun(c: Config, s: State, t: Table, calls: seq<Call>, s1: State, u: Table,
                                     rest: seq<Call>)
    requires RunTyped(c, s, calls) && |calls| >= 2 && LastLands(c, s, calls) && rest == calls[1..]
    requires s1 == NextState(c, s, calls[0]) && u == NextTable(c, s, t, calls[0])
    ensures RunTyped(c, s1, rest) && rest[|rest| - 1] == calls[|calls| - 1]
    ensures LastLands(c, s1, rest) && LastOps(c, s1, rest) == LastOps(c, s, calls)
    ensures RunQueries(c, s1, u, rest) <= RunQueries(c, s, t, calls) && After(c, s1, u, rest) == After(c, s, t, calls)
  {}

  /** Two batches that land with the same new root, whatever their proofs and
      whatever happens in between: the second had no active entry. In particular no
      envelope lands twice. */
  lemma {:induction false} NoReplay(c: Config, s: State, t: Table, calls: seq<Call>)
    requires Solvent(c, s, t) && RunTyped(c, s, calls) && |calls| >= 2
    requires TotalNonce(c.e, t) + RunSpends(c, s, t, calls) < c.e.p
    requires Lands(c, s, calls[0]) && LastLands(c, s, calls)
    requires calls[|calls| - 1].SubmitCall? && calls[0].env.newRoot == calls[|calls| - 1].env.newRoot
    ensures var u := NextTable(c, s, t, calls[0]);
            var v := After(c, s, t, calls).1;
            LastOps(c, s, calls) == []
            || Breaks(c.e,
                      RunQueries(c, s, t, calls) + TreeQueries(c.e, u, c.e.depth, 0)
                        + TreeQueries(c.e, v, c.e.depth, 0))
  {
    var s1, u, rest := NextState(c, s, calls[0]), NextTable(c, s, t, calls[0]), calls[1..];
    var v := After(c, s, t, calls).1;
    var K := RunQueries(c, s, t, calls) + TreeQueries(c.e, u, c.e.depth, 0) + TreeQueries(c.e, v, c.e.depth, 0);
    if !Breaks(c.e, K) {
      FirstLanding(c, K, s, t, calls);
      RestOfRun(c, s, t, calls, s1, u, rest);
      SameRootIdle(c, K, s1, u, rest);
    }
  }
}
