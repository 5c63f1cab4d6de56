/** The honest witness builder (harness batch.rs): what it reports and what it
    leaves in the tree, for every input. */
module Builder {
  import opened Field
  import opened Hashing
  import opened Merkle
  import opened Ledger
  import opened Circuit
  import opened Trees
  import opened Soundness

  /** keys.rs: the scalar s is reduced modulo the scalar order. */
  datatype Signature = Signature(rX: int, rY: int, s: int)

  datatype DepositRequest = DepositRequest(pk: int, amount: int)

  datatype SignedTx = SignedTx(
    fromPkX: int,
    fromPkY: int,
    toField: int,
    amount: int,
    nonce: int,
    isWithdraw: bool,
    sig: Signature)

  datatype DepositEntry = DepositEntry(
    pk: int,
    amount: int,
    index: nat,
    prior: Account,        // zeros for an empty slot
    siblings: seq<int>,
    isActive: bool)

  datatype TxEntry = TxEntry(
    from: Account,
    fromPkY: int,
    fromIndex: nat,
    fromSiblings: seq<int>,
    toField: int,
    toIndex: nat,
    toBalanceOrLeaf: int,
    toNonce: int,
    toSiblings: seq<int>,
    amount: int,
    isWithdraw: bool,
    isActive: bool,
    sig: Signature)

  datatype BatchWitness = BatchWitness(pub: Public, deposits: seq<DepositEntry>, txs: seq<TxEntry>)

  datatype BuildError =
    | SenderNotFound(txIndex: nat)
    | NonceMismatch(txIndex: nat, expected: int, got: int)
    | InsufficientBalance(txIndex: nat, balance: int, amount: int)
    | RecipientNotFound(txIndex: nat)
    | BadSignature(txIndex: nat)
    | ZeroDepositPk
    | ZeroAmount
    | ReservedPaddingPk
    | DepositPkMismatch(depositIndex: nat)
    | BalanceOverflow(depositIndex: nat)
    | TreeFull
    | TooManyEntries

  /** Aborted: the checked u64 addition of a nonce overflowed (panic = abort). */
  datatype Outcome<+T> = Built(value: T) | Failed(error: BuildError) | Aborted

  /** The table left behind, also on failure, and the outcome. */
  datatype Step<+T> = Step(table: Table, outcome: Outcome<T>)

  /** The ranges the Rust types impose on a request. */
  predicate RequestTyped(e: Env, d: DepositRequest) {
    InField(e.p, d.pk) && IsU64(d.amount)
  }

  predicate SignedTyped(e: Env, t: SignedTx) {
    && InField(e.p, t.fromPkX) && InField(e.p, t.fromPkY) && InField(e.p, t.toField)
    && IsU64(t.amount) && IsU64(t.nonce)
    && InField(e.p, t.sig.rX) && InField(e.p, t.sig.rY) && 0 <= t.sig.s < e.order
  }

  predicate AllTyped(e: Env, ds: seq<DepositRequest>, ts: seq<SignedTx>) {
    && (forall i :: 0 <= i < |ds| ==> RequestTyped(e, ds[i]))
    && (forall i :: 0 <= i < |ts| ==> SignedTyped(e, ts[i]))
  }

  // ---------- deposits ----------

  const NO_ACCOUNT := Account(0, 0, 0)

  function Prior(t: Table, i: nat): Account {
    if i in t then t[i] else NO_ACCOUNT
  }

  function ActiveDeposit(e: Env, t: Table, req: DepositRequest, index: nat): DepositEntry {
    DepositEntry(req.pk, req.amount, index, Prior(t, index), Siblings(e, t, index), true)
  }

  /** One deposit: existing slot first, else the lowest free one. */
  function DepositStep(e: Env, t: Table, i: nat, req: DepositRequest): Step<DepositEntry> {
    if req.pk == 0 then Step(t, Failed(ZeroDepositPk))
    else if req.pk == PAD_PK_X then Step(t, Failed(ReservedPaddingPk))
    else if req.amount == 0 then Step(t, Failed(ZeroAmount))
    else
      var found := Find(e, t, req.pk);
      var target := if found.Some? then found else FreeIndex(e, t);
      if target.None? then Step(t, Failed(TreeFull))
      else
        var index := target.value;
        if index in t && t[index].pk != req.pk then Step(t, Failed(DepositPkMismatch(i)))
        else if index in t && t[index].balance + req.amount >= U64 then Step(t, Failed(BalanceOverflow(i)))
        else
          var credited := Account(req.pk, Balance(t, index) + req.amount, Nonce(t, index));
          Step(t[index := credited], Built(ActiveDeposit(e, t, req, index)))
  }

  function PadDeposit(e: Env, t: Table): DepositEntry {
    DepositEntry(0, 0, 0, Prior(t, 0), Siblings(e, t, 0), false)
  }

  function Prepend<T>(x: T, s: Step<seq<T>>): Step<seq<T>> {
    Step(s.table,
         match s.outcome case Built(xs) => Built([x] + xs) case Failed(err) => Failed(err) case Aborted => Aborted)
  }

  function BuildDeposits(e: Env, t: Table, i: nat, reqs: seq<DepositRequest>): (r: Step<seq<DepositEntry>>)
    requires i <= |reqs|
    ensures r.outcome.Built? ==> |r.outcome.value| == |reqs| - i
    decreases |reqs| - i
  {
    if i == |reqs| then Step(t, Built([]))
    else
      var s := DepositStep(e, t, i, reqs[i]);
      match s.outcome
      case Built(entry) => Prepend(entry, BuildDeposits(e, s.table, i + 1, reqs))
      case Failed(err) => Step(s.table, Failed(err))
      case Aborted => Step(s.table, Aborted)
  }

  // ---------- transactions ----------

  /** keys.rs `pk_from_coords` and `verify`: even y, nonzero s, and the equation. */
  predicate SignatureOk(e: Env, req: SignedTx) {
    var msg := e.hash(MessageInput(req.fromPkX, req.toField, req.amount, req.nonce, req.isWithdraw));
    && req.fromPkY % 2 == 0 && req.sig.s != 0
    && e.schnorr(req.fromPkX, req.fromPkY, msg, req.sig.rX, req.sig.rY, req.sig.s)
  }

  function HoldersOf(t: Table, pk: int): set<nat> {
    set i | i in t && t[i].pk == pk
  }

  /** The ledger operation of a request once its slots are known. */
  function RequestOp(req: SignedTx, slot: nat, toSlot: nat): Op {
    Spend(slot, req.fromPkX, req.nonce, req.amount, req.isWithdraw, req.toField, toSlot,
          Auth(req.fromPkY, req.sig.rX, req.sig.rY, req.sig.s))
  }

  /** The debit of build_batch: plain u64 nonce addition. */
  function Debit(t: Table, slot: nat, amount: int): Table
    requires slot in t
  {
    t[slot := Account(t[slot].pk, t[slot].balance - amount, t[slot].nonce + 1)]
  }

  function ActiveTx(e: Env, t: Table, t1: Table, req: SignedTx, slot: nat, toSlot: nat, toBalanceOrLeaf: int,
                    toNonce: int): TxEntry
    requires slot in t
  {
    TxEntry(t[slot], req.fromPkY, slot, Siblings(e, t, slot),
            req.toField, toSlot, toBalanceOrLeaf, toNonce, Siblings(e, t1, toSlot),
            req.amount, req.isWithdraw, true, req.sig)
  }

  /** One transaction. The sender is debited before the recipient is looked up,
      so a failing recipient leaves a debited table behind. */
  function TxStep(e: Env, t: Table, i: nat, req: SignedTx): Step<TxEntry> {
    if req.amount == 0 then Step(t, Failed(ZeroAmount))
    else if req.fromPkX == PAD_PK_X then Step(t, Failed(ReservedPaddingPk))
    else
      var found := Find(e, t, req.fromPkX);
      if found.None? then Step(t, Failed(SenderNotFound(i)))
      else
        var slot := found.value;
        var sender := t[slot];
        if sender.nonce != req.nonce then Step(t, Failed(NonceMismatch(i, sender.nonce, req.nonce)))
        else if sender.balance < req.amount then Step(t, Failed(InsufficientBalance(i, sender.balance, req.amount)))
        else if !SignatureOk(e, req) then Step(t, Failed(BadSignature(i)))
        else if |HoldersOf(t, req.fromPkX)| != 1 then Step(t, Failed(SenderNotFound(i)))
        else if sender.nonce + 1 >= U64 then Step(t, Aborted)
        else TxRecipient(e, t, i, req, slot)
  }

  function TxRecipient(e: Env, t: Table, i: nat, req: SignedTx, slot: nat): Step<TxEntry>
    requires slot in t
  {
    var t1 := Debit(t, slot, req.amount);
    if req.isWithdraw then
      Step(t1, Built(ActiveTx(e, t, t1, req, slot, 0, TableLeaf(e, t1, 0), 0)))
    else
      var to := Find(e, t1, req.toField);
      if to.None? then Step(t1, Failed(RecipientNotFound(i)))
      else
        var r := t1[to.value];
        if r.balance + req.amount >= U64 then Step(t1, Failed(BalanceOverflow(i)))
        else
          Step(t1[to.value := Account(r.pk, r.balance + req.amount, r.nonce)],
               Built(ActiveTx(e, t, t1, req, slot, to.value, r.balance, r.nonce)))
  }

  const PAD_SIGNATURE := Signature(PAD_R_X, PAD_R_Y, PAD_S_LO + PAD_S_HI * U128)

  function PadTx(e: Env, t: Table): TxEntry {
    TxEntry(Prior(t, 0), 0, 0, Siblings(e, t, 0), 0, 0, TableLeaf(e, t, 0), 0, Siblings(e, t, 0),
            0, false, false, PAD_SIGNATURE)
  }

  function BuildTxs(e: Env, t: Table, i: nat, reqs: seq<SignedTx>): (r: Step<seq<TxEntry>>)
    requires i <= |reqs|
    ensures r.outcome.Built? ==> |r.outcome.value| == |reqs| - i
    decreases |reqs| - i
  {
    if i == |reqs| then Step(t, Built([]))
    else
      var s := TxStep(e, t, i, reqs[i]);
      match s.outcome
      case Built(entry) => Prepend(entry, BuildTxs(e, s.table, i + 1, reqs))
      case Failed(err) => Step(s.table, Failed(err))
      case Aborted => Step(s.table, Aborted)
  }

  // ---------- the whole batch ----------

  function RequestPair(d: DepositRequest): (int, int) {
    (d.pk, d.amount)
  }

  function DepositPairs(ds: seq<DepositRequest>): seq<(int, int)> {
    if ds == [] then [] else [RequestPair(ds[0])] + DepositPairs(ds[1..])
  }

  function ExitPairs(ts: seq<SignedTx>): seq<(int, int)> {
    if ts == [] then []
    else (if ts[0].isWithdraw then [(ts[0].toField, ts[0].amount)] else []) + ExitPairs(ts[1..])
  }

  function RequestMessage(e: Env, t: SignedTx): int {
    e.hash(MessageInput(t.fromPkX, t.toField, t.amount, t.nonce, t.isWithdraw))
  }

  function RequestMessages(e: Env, ts: seq<SignedTx>): seq<int> {
    if ts == [] then [] else [RequestMessage(e, ts[0])] + RequestMessages(e, ts[1..])
  }

  function Repeat<T>(x: T, n: nat): (r: seq<T>)
    ensures |r| == n && forall i :: 0 <= i < n ==> r[i] == x
  {
    if n == 0 then [] else [x] + Repeat(x, n - 1)
  }

  /** Table and outcome of `build_batch` with dSlots deposit and nSlots
      transaction slots; the folds run over the requests. */
  function Build(e: Env, t: Table, dSlots: nat, nSlots: nat, ds: seq<DepositRequest>, ts: seq<SignedTx>)
    : Step<BatchWitness> {
    if |ds| > dSlots || |ts| > nSlots then Step(t, Failed(TooManyEntries))
    else
      var s1 := BuildDeposits(e, t, 0, ds);
      match s1.outcome
      case Failed(err) => Step(s1.table, Failed(err))
      case Aborted => Step(s1.table, Aborted)
      case Built(depEntries) =>
        var s2 := BuildTxs(e, s1.table, 0, ts);
        match s2.outcome
        case Failed(err) => Step(s2.table, Failed(err))
        case Aborted => Step(s2.table, Aborted)
        case Built(txEntries) =>
          var pub := Public(
            Root(e, t),
            Root(e, s2.table),
            FoldPairs(e, DOMAIN_DEP, 0, DepositPairs(ds)),
            FoldPairs(e, DOMAIN_WD, 0, ExitPairs(ts)),
            FoldMessages(e, 0, RequestMessages(e, ts)));
          Step(s2.table, Built(BatchWitness(
            pub,
            depEntries + Repeat(PadDeposit(e, s1.table), dSlots - |ds|),
            txEntries + Repeat(PadTx(e, s2.table), nSlots - |ts|))))
  }

  // ---------- rendering (prover.rs) ----------

  function RenderDeposit(d: DepositEntry): DepositWitness {
    DepositWitness(d.pk, d.amount, d.index, d.prior.pk, d.prior.balance, d.prior.nonce, d.siblings, BitOf(d.isActive))
  }

  /** keys.rs `s_limbs`: low and high 128 bits. */
  function Limbs(s: int): (int, int) {
    (s % U128, s / U128)
  }

  function RenderTx(t: TxEntry): TxWitness {
    TxWitness(t.from.pk, t.fromPkY, t.fromIndex, t.from.balance, t.from.nonce, t.fromSiblings,
              t.toField, t.toIndex, t.toBalanceOrLeaf, t.toNonce, t.toSiblings,
              t.amount, BitOf(t.isWithdraw), BitOf(t.isActive),
              SigWitness(t.sig.rX, t.sig.rY, Limbs(t.sig.s).0, Limbs(t.sig.s).1))
  }

  function RenderDeposits(ds: seq<DepositEntry>): (r: seq<DepositWitness>)
    ensures |r| == |ds|
  {
    if ds == [] then [] else [RenderDeposit(ds[0])] + RenderDeposits(ds[1..])
  }

  function RenderTxs(ts: seq<TxEntry>): (r: seq<TxWitness>)
    ensures |r| == |ts|
  {
    if ts == [] then [] else [RenderTx(ts[0])] + RenderTxs(ts[1..])
  }

  /** prover.rs `to_prover_toml`. */
  function Render(w: BatchWitness): Witness {
    Witness(RenderDeposits(w.deposits), RenderTxs(w.txs))
  }

  // ---------- the method ----------

  lemma {:induction false} StepsAgree(e: Env, t: Table, i: nat, ds: seq<DepositRequest>, done: seq<DepositEntry>)
    requires i < |ds|
    ensures var s := DepositStep(e, t, i, ds[i]);
            After(done, BuildDeposits(e, t, i, ds)) ==
            match s.outcome
            case Built(entry) => After(done + [entry], BuildDeposits(e, s.table, i + 1, ds))
            case Failed(err) => Step(s.table, Failed(err))
            case Aborted => Step(s.table, Aborted)
  {
    var s := DepositStep(e, t, i, ds[i]);
    if s.outcome.Built? { AfterPrepend(done, s.outcome.value, BuildDeposits(e, s.table, i + 1, ds)); }
  }

  lemma {:induction false} TxStepsAgree(e: Env, t: Table, i: nat, ts: seq<SignedTx>, done: seq<TxEntry>)
    requires i < |ts|
    ensures var s := TxStep(e, t, i, ts[i]);
            After(done, BuildTxs(e, t, i, ts)) ==
            match s.outcome
            case Built(entry) => After(done + [entry], BuildTxs(e, s.table, i + 1, ts))
            case Failed(err) => Step(s.table, Failed(err))
            case Aborted => Step(s.table, Aborted)
  {
    var s := TxStep(e, t, i, ts[i]);
    if s.outcome.Built? { AfterPrepend(done, s.outcome.value, BuildTxs(e, s.table, i + 1, ts)); }
  }

  /** Entries already pushed, followed by the rest of the loop. */
  function After<T>(done: seq<T>, s: Step<seq<T>>): Step<seq<T>> {
    Step(s.table,
         match s.outcome case Built(xs) => Built(done + xs) case Failed(err) => Failed(err) case Aborted => Aborted)
  }

  lemma {:induction false} AfterNothing<T>(s: Step<seq<T>>)
    ensures After([], s) == s
  {
    if s.outcome.Built? { assert [] + s.outcome.value == s.outcome.value; }
  }

  lemma {:induction false} AfterAll<T>(done: seq<T>, t: Table)
    ensures After(done, Step(t, Built([]))) == Step(t, Built(done))
  {
    assert done + [] == done;
  }

  lemma {:induction false} AfterPrepend<T>(done: seq<T>, x: T, s: Step<seq<T>>)
    ensures After(done, Prepend(x, s)) == After(done + [x], s)
  {
    if s.outcome.Built? { assert done + ([x] + s.outcome.value) == done + [x] + s.outcome.value; }
  }

  /** Appending one more pair to a fold. */
  lemma {:induction false} FoldSnoc(e: Env, domain: int, xs: seq<(int, int)>, x: (int, int))
    ensures FoldPairs(e, domain, 0, xs + [x]) == e.hash([domain, FoldPairs(e, domain, 0, xs), x.0, x.1])
  {
    FoldPairsAppend(e, domain, 0, xs, [x]);
  }

  lemma {:induction false} FoldMessageSnoc(e: Env, xs: seq<int>, x: int)
    ensures FoldMessages(e, 0, xs + [x]) == e.hash([DOMAIN_DA, FoldMessages(e, 0, xs), x])
  {
    FoldMessagesAppend(e, 0, xs, [x]);
  }

  lemma {:induction false} DepositPairsSnoc(ds: seq<DepositRequest>, d: DepositRequest)
    ensures DepositPairs(ds + [d]) == DepositPairs(ds) + [RequestPair(d)]
    decreases |ds|
  {
    if ds != [] {
      assert (ds + [d])[1..] == ds[1..] + [d];
      DepositPairsSnoc(ds[1..], d);
    }
  }

  lemma {:induction false} ExitPairsSnoc(ts: seq<SignedTx>, t: SignedTx)
    ensures ExitPairs(ts + [t]) == ExitPairs(ts) + if t.isWithdraw then [(t.toField, t.amount)] else []
    decreases |ts|
  {
    if ts != [] {
      assert (ts + [t])[1..] == ts[1..] + [t];
      ExitPairsSnoc(ts[1..], t);
    }
  }

  lemma {:induction false} RequestMessagesSnoc(e: Env, ts: seq<SignedTx>, t: SignedTx)
    ensures RequestMessages(e, ts + [t]) == RequestMessages(e, ts) + [RequestMessage(e, t)]
    decreases |ts|
  {
    if ts != [] {
      assert (ts + [t])[1..] == ts[1..] + [t];
      RequestMessagesSnoc(e, ts[1..], t);
    }
  }

  lemma {:induction false} DepositFoldNext(e: Env, ds: seq<DepositRequest>, i: nat)
    requires i < |ds|
    ensures FoldPairs(e, DOMAIN_DEP, 0, DepositPairs(ds[..i + 1]))
         == e.hash([DOMAIN_DEP, FoldPairs(e, DOMAIN_DEP, 0, DepositPairs(ds[..i])), ds[i].pk, ds[i].amount])
  {
    TakeSnoc(ds, i);
    DepositPairsSnoc(ds[..i], ds[i]);
    FoldSnoc(e, DOMAIN_DEP, DepositPairs(ds[..i]), RequestPair(ds[i]));
  }

  lemma {:induction false} ExitFoldNext(e: Env, ts: seq<SignedTx>, i: nat)
    requires i < |ts|
    ensures var acc := FoldPairs(e, DOMAIN_WD, 0, ExitPairs(ts[..i]));
            FoldPairs(e, DOMAIN_WD, 0, ExitPairs(ts[..i + 1]))
            == if ts[i].isWithdraw then e.hash([DOMAIN_WD, acc, ts[i].toField, ts[i].amount]) else acc
  {
    TakeSnoc(ts, i);
    ExitPairsSnoc(ts[..i], ts[i]);
    if ts[i].isWithdraw {
      FoldSnoc(e, DOMAIN_WD, ExitPairs(ts[..i]), (ts[i].toField, ts[i].amount));
    } else {
      assert ExitPairs(ts[..i]) + [] == ExitPairs(ts[..i]);
    }
  }

  lemma {:induction false} MessageFoldNext(e: Env, ts: seq<SignedTx>, i: nat)
    requires i < |ts|
    ensures FoldMessages(e, 0, RequestMessages(e, ts[..i + 1]))
         == e.hash([DOMAIN_DA, FoldMessages(e, 0, RequestMessages(e, ts[..i])), RequestMessage(e, ts[i])])
  {
    TakeSnoc(ts, i);
    RequestMessagesSnoc(e, ts[..i], ts[i]);
    FoldMessageSnoc(e, RequestMessages(e, ts[..i]), RequestMessage(e, ts[i]));
  }

  lemma {:induction false} RepeatSnoc<T>(x: T, n: nat)
    ensures Repeat(x, n) + [x] == Repeat(x, n + 1)
  {}

  /** One pass of the first loop of `build_batch`. */
  method PushDeposit(e: Env, tree: Tree, i: nat, req: DepositRequest) returns (outcome: Outcome<DepositEntry>)
    requires SlotsInRange(e, tree.leaves)
    modifies tree
    ensures Step(tree.leaves, outcome) == DepositStep(e, old(tree.leaves), i, req)
    ensures SlotsInRange(e, tree.leaves)
  {
    if req.pk == 0 { return Failed(ZeroDepositPk); }
    if req.pk == PAD_PK_X { return Failed(ReservedPaddingPk); }
    if req.amount == 0 { return Failed(ZeroAmount); }
    var found := Find(e, tree.leaves, req.pk);
    if found.None? { found := FreeIndex(e, tree.leaves); }
    if found.None? { return Failed(TreeFull); }
    var index := found.value;
    var prior := Prior(tree.leaves, index);
    var siblings, _ := tree.ComputePath(e, index);
    var credited := Account(req.pk, req.amount, 0);
    if index in tree.leaves {
      if prior.pk != req.pk { return Failed(DepositPkMismatch(i)); }
      if prior.balance + req.amount >= U64 { return Failed(BalanceOverflow(i)); }
      credited := Account(req.pk, prior.balance + req.amount, prior.nonce);
    }
    tree.Set(e, index, credited);
    outcome := Built(DepositEntry(req.pk, req.amount, index, prior, siblings, true));
  }

  /** The first loop of `build_batch`. */
  method PushDeposits(e: Env, tree: Tree, ds: seq<DepositRequest>)
    returns (outcome: Outcome<seq<DepositEntry>>, depositHash: int)
    requires SlotsInRange(e, tree.leaves)
    modifies tree
    ensures Step(tree.leaves, outcome) == BuildDeposits(e, old(tree.leaves), 0, ds)
    ensures outcome.Built? ==> depositHash == FoldPairs(e, DOMAIN_DEP, 0, DepositPairs(ds))
    ensures SlotsInRange(e, tree.leaves)
  {
    ghost var all := BuildDeposits(e, tree.leaves, 0, ds);
    depositHash := 0;
    var entries: seq<DepositEntry> := [];
    AfterNothing(all);
    for i := 0 to |ds|
      invariant SlotsInRange(e, tree.leaves)
      invariant all == After(entries, BuildDeposits(e, tree.leaves, i, ds))
      invariant depositHash == FoldPairs(e, DOMAIN_DEP, 0, DepositPairs(ds[..i]))
    {
      var req := ds[i];
      ghost var t := tree.leaves;
      var step := PushDeposit(e, tree, i, req);
      StepsAgree(e, t, i, ds, entries);
      if step.Failed? { return Failed(step.error), depositHash; }
      if step.Aborted? { return Aborted, depositHash; }
      DepositFoldNext(e, ds, i);
      depositHash := e.hash([DOMAIN_DEP, depositHash, req.pk, req.amount]);
      entries := entries + [step.value];
    }
    assert ds[..|ds|] == ds;
    AfterAll(entries, tree.leaves);
    outcome := Built(entries);
  }

  /** Deposit padding: identity updates of slot 0. */
  method PadDeposits(e: Env, tree: Tree, dSlots: nat, active: seq<DepositEntry>) returns (entries: seq<DepositEntry>)
    requires |active| <= dSlots
    ensures entries == active + Repeat(PadDeposit(e, tree.leaves), dSlots - |active|)
  {
    entries := active;
    while |entries| < dSlots
      invariant |active| <= |entries| <= dSlots
      invariant entries == active + Repeat(PadDeposit(e, tree.leaves), |entries| - |active|)
    {
      RepeatSnoc(PadDeposit(e, tree.leaves), |entries| - |active|);
      var siblings, _ := tree.ComputePath(e, 0);
      entries := entries + [DepositEntry(0, 0, 0, Prior(tree.leaves, 0), siblings, false)];
    }
  }

  lemma {:induction false} TakeSnoc<T>(s: seq<T>, i: nat)
    requires i < |s|
    ensures s[..i + 1] == s[..i] + [s[i]]
  {}

  /** One pass of the second loop of `build_batch`. */
  method PushTx(e: Env, tree: Tree, i: nat, req: SignedTx) returns (outcome: Outcome<TxEntry>)
    requires SlotsInRange(e, tree.leaves)
    modifies tree
    ensures Step(tree.leaves, outcome) == TxStep(e, old(tree.leaves), i, req)
    ensures SlotsInRange(e, tree.leaves)
  {
    if req.amount == 0 { return Failed(ZeroAmount); }
    if req.fromPkX == PAD_PK_X { return Failed(ReservedPaddingPk); }
    var found := Find(e, tree.leaves, req.fromPkX);
    if found.None? { return Failed(SenderNotFound(i)); }
    var slot := found.value;
    var sender := tree.leaves[slot];
    if sender.nonce != req.nonce { return Failed(NonceMismatch(i, sender.nonce, req.nonce)); }
    if sender.balance < req.amount { return Failed(InsufficientBalance(i, sender.balance, req.amount)); }
    if !SignatureOk(e, req) { return Failed(BadSignature(i)); }
    if |HoldersOf(tree.leaves, req.fromPkX)| != 1 { return Failed(SenderNotFound(i)); }
    var fromSiblings, _ := tree.ComputePath(e, slot);
    if sender.nonce + 1 >= U64 { return Aborted; }
    tree.Set(e, slot, Account(sender.pk, sender.balance - req.amount, sender.nonce + 1));
    if req.isWithdraw {
      var toSiblings, _ := tree.ComputePath(e, 0);
      outcome := Built(TxEntry(sender, req.fromPkY, slot, fromSiblings,
        req.toField, 0, TableLeaf(e, tree.leaves, 0), 0, toSiblings, req.amount, true, true, req.sig));
    } else {
      var to := Find(e, tree.leaves, req.toField);
      if to.None? { return Failed(RecipientNotFound(i)); }
      var recipient := tree.leaves[to.value];
      var toSiblings, _ := tree.ComputePath(e, to.value);
      if recipient.balance + req.amount >= U64 { return Failed(BalanceOverflow(i)); }
      tree.Set(e, to.value, Account(recipient.pk, recipient.balance + req.amount, recipient.nonce));
      outcome := Built(TxEntry(sender, req.fromPkY, slot, fromSiblings,
        req.toField, to.value, recipient.balance, recipient.nonce, toSiblings, req.amount, false, true, req.sig));
    }
  }

  /** The second loop of `build_batch`. */
  method PushTxs(e: Env, tree: Tree, ts: seq<SignedTx>)
    returns (outcome: Outcome<seq<TxEntry>>, withdrawHash: int, daCommitment: int)
    requires SlotsInRange(e, tree.leaves)
    modifies tree
    ensures Step(tree.leaves, outcome) == BuildTxs(e, old(tree.leaves), 0, ts)
    ensures outcome.Built? ==> withdrawHash == FoldPairs(e, DOMAIN_WD, 0, ExitPairs(ts))
    ensures outcome.Built? ==> daCommitment == FoldMessages(e, 0, RequestMessages(e, ts))
    ensures SlotsInRange(e, tree.leaves)
  {
    ghost var all := BuildTxs(e, tree.leaves, 0, ts);
    withdrawHash, daCommitment := 0, 0;
    var entries: seq<TxEntry> := [];
    AfterNothing(all);
    for i := 0 to |ts|
      invariant SlotsInRange(e, tree.leaves)
      invariant all == After(entries, BuildTxs(e, tree.leaves, i, ts))
      invariant withdrawHash == FoldPairs(e, DOMAIN_WD, 0, ExitPairs(ts[..i]))
      invariant daCommitment == FoldMessages(e, 0, RequestMessages(e, ts[..i]))
    {
      var req := ts[i];
      ghost var t := tree.leaves;
      var step := PushTx(e, tree, i, req);
      TxStepsAgree(e, t, i, ts, entries);
      if step.Failed? { return Failed(step.error), withdrawHash, daCommitment; }
      if step.Aborted? { return Aborted, withdrawHash, daCommitment; }
      ExitFoldNext(e, ts, i);
      MessageFoldNext(e, ts, i);
      if req.isWithdraw {
        withdrawHash := e.hash([DOMAIN_WD, withdrawHash, req.toField, req.amount]);
      }
      daCommitment := e.hash([DOMAIN_DA, daCommitment, RequestMessage(e, req)]);
      entries := entries + [step.value];
    }
    assert ts[..|ts|] == ts;
    AfterAll(entries, tree.leaves);
    outcome := Built(entries);
  }

  /** Transaction padding: identity updates of slot 0 with the fixed signature. */
  method PadTxs(e: Env, tree: Tree, nSlots: nat, active: seq<TxEntry>) returns (entries: seq<TxEntry>)
    requires |active| <= nSlots
    ensures entries == active + Repeat(PadTx(e, tree.leaves), nSlots - |active|)
  {
    entries := active;
    while |entries| < nSlots
      invariant |active| <= |entries| <= nSlots
      invariant entries == active + Repeat(PadTx(e, tree.leaves), |entries| - |active|)
    {
      RepeatSnoc(PadTx(e, tree.leaves), |entries| - |active|);
      var siblings, _ := tree.ComputePath(e, 0);
      entries := entries
                 + [TxEntry(Prior(tree.leaves, 0), 0, 0, siblings, 0, 0, TableLeaf(e, tree.leaves, 0), 0, siblings,
                            0, false, false, PAD_SIGNATURE)];
    }
  }

  /** `build_batch`: mutates the given tree in place, also when it fails. */
  method BuildBatch(e: Env, tree: Tree, dSlots: nat, nSlots: nat, ds: seq<DepositRequest>, ts: seq<SignedTx>)
    returns (outcome: Outcome<BatchWitness>)
    requires SlotsInRange(e, tree.leaves)
    modifies tree
    ensures Step(tree.leaves, outcome) == Build(e, old(tree.leaves), dSlots, nSlots, ds, ts)
  {
    if |ds| > dSlots || |ts| > nSlots { return Failed(TooManyEntries); }
    var oldRoot := tree.ComputeRoot(e);
    var deps, depositHash := PushDeposits(e, tree, ds);
    if deps.Failed? { return Failed(deps.error); }
    if deps.Aborted? { return Aborted; }
    var depEntries := PadDeposits(e, tree, dSlots, deps.value);
    var txs, withdrawHash, daCommitment := PushTxs(e, tree, ts);
    if txs.Failed? { return Failed(txs.error); }
    if txs.Aborted? { return Aborted; }
    var txEntries := PadTxs(e, tree, nSlots, txs.value);
    var newRoot := tree.ComputeRoot(e);
    outcome := Built(BatchWitness(Public(oldRoot, newRoot, depositHash, withdrawHash, daCommitment), depEntries,
                                  txEntries));
  }
}
