/** The honest builder is never rejected: on a well-formed tree, every batch it
    builds passes every check of the circuit and is the ledger transition of the
    requests, in order. */
module Completeness {
  import opened Field
  import opened Hashing
  import opened Merkle
  import opened Ledger
  import opened Circuit
  import opened Trees
  import opened Soundness
  import opened Builder

  ghost predicate DistinctKeys(t: Table) {
    forall i, j :: i in t && j in t && t[i].pk == t[j].pk ==> i == j
  }

  /** What the sequencer keeps of its tree: u64 nonces and one slot per key. */
  ghost predicate WellFormed(e: Env, t: Table) {
    TableOk(e, t) && DistinctKeys(t) && forall i :: i in t ==> t[i].nonce < U64
  }

  // ---------- honest entries are typed ----------

  lemma {:induction false} PathInField(e: Env, t: Table, l: nat, i: nat, n: nat)
    requires ValidEnv(e)
    ensures AllInField(e.p, Path(e, t, l, i, n))
    decreases n
  {
    if n != 0 { PathInField(e, t, l + 1, i / 2, n - 1); }
  }

  lemma {:induction false} TableLeafIs(e: Env, t: Table, i: nat)
    requires ValidEnv(e) && TableOk(e, t)
    ensures LeafValue(e, Prior(t, i)) == TableLeaf(e, t, i)
    ensures InField(e.p, TableLeaf(e, t, i))
  {}

  // ---------- deposits ----------

  /** Installing or crediting an account keeps the tree well formed. */
  lemma {:induction false} CreditKeepsWellFormed(e: Env, t: Table, req: DepositRequest, slot: nat)
    requires ValidEnv(e) && WellFormed(e, t) && Enabled(e, t, Credit(slot, req.pk, req.amount))
    requires slot in t || Find(e, t, req.pk).None?
    ensures WellFormed(e, Exec(e, t, Credit(slot, req.pk, req.amount)))
  {
    ExecKeeps(e, t, Credit(slot, req.pk, req.amount));
  }

  /** A built deposit is an enabled credit; the table moves by exactly it. */
  lemma {:induction false} DepositStepLegal(e: Env, t: Table, i: nat, req: DepositRequest)
    requires ValidEnv(e) && WellFormed(e, t) && RequestTyped(e, req)
    requires DepositStep(e, t, i, req).outcome.Built?
    ensures var s := DepositStep(e, t, i, req);
            var op := Credit(s.outcome.value.index, req.pk, req.amount);
            && s.outcome.value == ActiveDeposit(e, t, req, op.slot)
            && Enabled(e, t, op) && s.table == Exec(e, t, op) && WellFormed(e, s.table)
  {
    var slot := DepositStep(e, t, i, req).outcome.value.index;
    CreditKeepsWellFormed(e, t, req, slot);
  }

  /** The circuit accepts the honest witness of an enabled credit. */
  lemma {:induction false} CreditAccepted(e: Env, t: Table, acc: int, req: DepositRequest, slot: nat)
    requires ValidEnv(e) && WellFormed(e, t) && RequestTyped(e, req) && InField(e.p, acc)
    requires Enabled(e, t, Credit(slot, req.pk, req.amount))
    ensures var d := RenderDeposit(ActiveDeposit(e, t, req, slot));
            && Circuit.DepositTyped(e, d) && DepositChecks(e, Root(e, t), d)
            && DepositRoot(e, d) == Root(e, Exec(e, t, Credit(slot, req.pk, req.amount)))
            && DepositAcc(e, acc, d) == e.hash([DOMAIN_DEP, acc, req.pk, req.amount])
  {
    var d := RenderDeposit(ActiveDeposit(e, t, req, slot));
    PathInField(e, t, 0, slot, e.depth);
    TableLeafIs(e, t, slot);
    PathToRoot(e, t, slot);
    FlagIsBit(e.p, d.isActive);
    FlagIsBit(e.p, IsEmpty(d));
    SelectBit(e.p, IsEmpty(d), d.amount, Add(e.p, d.oldBalance, d.amount));
    DepositPlain(e, Root(e, t), acc, d);
    AccountUpdates(e, t, slot, Exec(e, t, Credit(slot, req.pk, req.amount))[slot], d.siblings);
  }

  /** Deposit padding is an identity the circuit accepts. */
  lemma {:induction false} PadDepositAccepted(e: Env, t: Table, acc: int)
    requires ValidEnv(e) && WellFormed(e, t) && InField(e.p, acc)
    ensures var d := RenderDeposit(PadDeposit(e, t));
            && Circuit.DepositTyped(e, d) && DepositChecks(e, Root(e, t), d)
            && DepositRoot(e, d) == Root(e, t) && DepositAcc(e, acc, d) == acc
  {
    var d := RenderDeposit(PadDeposit(e, t));
    PathInField(e, t, 0, 0, e.depth);
    TableLeafIs(e, t, 0);
    PathToRoot(e, t, 0);
    FlagIsBit(e.p, d.isActive);
    FlagIsBit(e.p, IsEmpty(d));
    SelectBit(e.p, IsEmpty(d), d.amount, Add(e.p, d.oldBalance, d.amount));
    DepositPlain(e, Root(e, t), acc, d);
  }

  lemma {:induction false} PadDepositsAccepted(e: Env, t: Table, acc: int, n: nat)
    requires ValidEnv(e) && WellFormed(e, t) && InField(e.p, acc)
    ensures var ds := RenderDeposits(Repeat(PadDeposit(e, t), n));
            && AfterDeposits(e, Root(e, t), acc, ds) == Some((Root(e, t), acc))
            && AllDepositOps(ds) == []
  {
    if n > 0 {
      PadDepositAccepted(e, t, acc);
      PadDepositsAccepted(e, t, acc, n - 1);
    }
  }

  lemma {:induction false} AfterDepositsAppend(e: Env, root: int, acc: int, xs: seq<DepositWitness>,
                                               ys: seq<DepositWitness>)
    requires e.p > 0
    ensures AfterDeposits(e, root, acc, xs + ys) ==
            match AfterDeposits(e, root, acc, xs) case None => None case Some((r, a)) => AfterDeposits(e, r, a, ys)
    decreases |xs|
  {
    if xs == [] {
      assert xs + ys == ys;
    } else {
      assert (xs + ys)[0] == xs[0] && (xs + ys)[1..] == xs[1..] + ys;
      if Circuit.DepositTyped(e, xs[0]) && DepositChecks(e, root, xs[0]) {
        AfterDepositsAppend(e, DepositRoot(e, xs[0]), DepositAcc(e, acc, xs[0]), xs[1..], ys);
      }
    }
  }

  lemma {:induction false} RenderDepositsAppend(xs: seq<DepositEntry>, ys: seq<DepositEntry>)
    ensures RenderDeposits(xs + ys) == RenderDeposits(xs) + RenderDeposits(ys)
    decreases |xs|
  {
    if xs == [] {
      assert xs + ys == ys;
    } else {
      assert (xs + ys)[0] == xs[0] && (xs + ys)[1..] == xs[1..] + ys;
      RenderDepositsAppend(xs[1..], ys);
    }
  }

  lemma {:induction false} DepositOpsAppend(xs: seq<DepositWitness>, ys: seq<DepositWitness>)
    ensures AllDepositOps(xs + ys) == AllDepositOps(xs) + AllDepositOps(ys)
    decreases |xs|
  {
    if xs == [] {
      assert xs + ys == ys;
    } else {
      assert (xs + ys)[0] == xs[0] && (xs + ys)[1..] == xs[1..] + ys;
      DepositOpsAppend(xs[1..], ys);
      assert AllDepositOps(xs + ys) == DepositOps(xs[0]) + (AllDepositOps(xs[1..]) + AllDepositOps(ys));
    }
  }

  lemma {:induction false} DepositsComplete(e: Env, t: Table, acc: int, i: nat, ds: seq<DepositRequest>)
    requires ValidEnv(e) && WellFormed(e, t) && InField(e.p, acc) && i <= |ds|
    requires forall k :: 0 <= k < |ds| ==> RequestTyped(e, ds[k])
    requires BuildDeposits(e, t, i, ds).outcome.Built?
    ensures var s := BuildDeposits(e, t, i, ds);
            var ws := RenderDeposits(s.outcome.value);
            && WellFormed(e, s.table)
            && AfterDeposits(e, Root(e, t), acc, ws)
               == Some((Root(e, s.table), FoldPairs(e, DOMAIN_DEP, acc, DepositPairs(ds[i..]))))
            && Legal(e, t, AllDepositOps(ws)) && Run(e, t, AllDepositOps(ws)) == s.table
            && Deposits(AllDepositOps(ws)) == DepositPairs(ds[i..])
    decreases |ds| - i
  {
    if i < |ds| {
      var req, s := ds[i], DepositStep(e, t, i, ds[i]);
      DepositStepLegal(e, t, i, req);
      var op := Credit(s.outcome.value.index, req.pk, req.amount);
      CreditAccepted(e, t, acc, req, op.slot);
      DepositsComplete(e, s.table, e.hash([DOMAIN_DEP, acc, req.pk, req.amount]), i + 1, ds);
      assert ds[i..][0] == req && ds[i..][1..] == ds[i + 1..];
      var rest := AllDepositOps(RenderDeposits(BuildDeposits(e, s.table, i + 1, ds).outcome.value));
      LegalCons(e, t, op, rest);
    }
  }

  lemma {:induction false} LegalCons(e: Env, t: Table, op: Op, rest: seq<Op>)
    requires Enabled(e, t, op) && Legal(e, Exec(e, t, op), rest)
    ensures Legal(e, t, [op] + rest) && Run(e, t, [op] + rest) == Run(e, Exec(e, t, op), rest)
    ensures Deposits([op] + rest) == DepositOf(op) + Deposits(rest)
    ensures Exits([op] + rest) == ExitOf(op) + Exits(rest)
    ensures Messages(e, [op] + rest) == MessageOf(e, op) + Messages(e, rest)
  {
    assert ([op] + rest)[1..] == rest;
  }

  // ---------- transactions ----------

  /** What a built transaction checked, and the entry and table it left. */
  lemma {:induction false} TxStepShape(e: Env, t: Table, i: nat, req: SignedTx)
    requires TxStep(e, t, i, req).outcome.Built? && SlotsInRange(e, t)
    ensures var s := TxStep(e, t, i, req);
            var x := s.outcome.value;
            var slot, toSlot := x.fromIndex, x.toIndex;
            && req.amount != 0 && slot in t && t[slot].pk == req.fromPkX && t[slot].nonce == req.nonce
            && req.amount <= t[slot].balance && t[slot].nonce + 1 < U64 && SignatureOk(e, req)
            && var t1 := Debit(t, slot, req.amount);
            && x == ActiveTx(e, t, t1, req, slot, toSlot, x.toBalanceOrLeaf, x.toNonce)
            && toSlot < Pow2(e.depth)
            && (req.isWithdraw ==>
                  toSlot == 0 && x.toBalanceOrLeaf == TableLeaf(e, t1, 0) && x.toNonce == 0 && s.table == t1)
            && (!req.isWithdraw ==>
                  && toSlot in t1 && t1[toSlot] == Account(req.toField, x.toBalanceOrLeaf, x.toNonce)
                  && x.toBalanceOrLeaf + req.amount < U64
                  && s.table == t1[toSlot := Account(req.toField, x.toBalanceOrLeaf + req.amount, x.toNonce)])
  {
    assert Pow2(e.depth) >= 1;
  }

  lemma {:induction false} SpendKeepsWellFormed(e: Env, t: Table, op: Op)
    requires ValidEnv(e) && WellFormed(e, t) && op.Spend? && Enabled(e, t, op) && t[op.slot].nonce + 1 < U64
    ensures WellFormed(e, Exec(e, t, op))
  {
    ExecKeeps(e, t, op);
  }

  /** A built transaction is an enabled spend; the table moves by exactly it. */
  lemma {:induction false} TxStepLegal(e: Env, t: Table, i: nat, req: SignedTx)
    requires ValidEnv(e) && WellFormed(e, t) && SignedTyped(e, req)
    requires TxStep(e, t, i, req).outcome.Built?
    ensures var s := TxStep(e, t, i, req);
            var x := s.outcome.value;
            var op := RequestOp(req, x.fromIndex, x.toIndex);
            && Enabled(e, t, op) && s.table == Exec(e, t, op) && WellFormed(e, s.table)
            && t[op.slot].nonce + 1 < U64 && op.auth.s != 0 && op.toSlot < Pow2(e.depth)
            && x == ActiveTx(e, t, Debit(t, op.slot, op.amount), req, op.slot, op.toSlot, x.toBalanceOrLeaf, x.toNonce)
            && (op.exit ==>
                  && op.toSlot == 0 && x.toNonce == 0
                  && x.toBalanceOrLeaf == TableLeaf(e, Debit(t, op.slot, op.amount), 0))
            && (!op.exit
                ==> Account(req.toField, x.toBalanceOrLeaf, x.toNonce) == Debit(t, op.slot, op.amount)[op.toSlot])
  {
    TxStepShape(e, t, i, req);
    var x := TxStep(e, t, i, req).outcome.value;
    ShapeLegal(e, t, req, x.fromIndex, x.toIndex, x.toBalanceOrLeaf, x.toNonce);
  }

  lemma {:induction false} ShapeLegal(e: Env, t: Table, req: SignedTx, slot: nat, toSlot: nat, toBalance: int,
                                      toNonce: int)
    requires ValidEnv(e) && WellFormed(e, t) && SignedTyped(e, req)
    requires req.amount != 0 && slot in t && t[slot].pk == req.fromPkX && t[slot].nonce == req.nonce
    requires req.amount <= t[slot].balance && t[slot].nonce + 1 < U64 && SignatureOk(e, req)
    requires var t1 := Debit(t, slot, req.amount);
             !req.isWithdraw ==>
               toSlot in t1 && t1[toSlot] == Account(req.toField, toBalance, toNonce) && toBalance + req.amount < U64
    ensures var op, t1 := RequestOp(req, slot, toSlot), Debit(t, slot, req.amount);
            && Enabled(e, t, op) && op.auth.s != 0
            && Exec(e, t, op)
               == (if req.isWithdraw then t1 else t1[toSlot := Account(req.toField, toBalance + req.amount, toNonce)])
            && WellFormed(e, Exec(e, t, op))
  {
    var op := RequestOp(req, slot, toSlot);
    assert Debit(t, slot, req.amount) == Debited(e, t, op);
    assert Message(e, op) == RequestMessage(e, req);
    assert Enabled(e, t, op);
    SpendKeepsWellFormed(e, t, op);
  }

  lemma {:induction false} SigRenders(e: Env, pkX: int, pkY: int, msg: int, sig: Signature)
    requires ValidEnv(e) && 0 < sig.s < e.order && e.schnorr(pkX, pkY, msg, sig.rX, sig.rY, sig.s)
    ensures 0 <= Limbs(sig.s).0 < U128 && 0 <= Limbs(sig.s).1 < U128
    ensures VerifySig(e, pkX, pkY, msg, SigWitness(sig.rX, sig.rY, Limbs(sig.s).0, Limbs(sig.s).1))
    ensures (Limbs(sig.s).0 + Limbs(sig.s).1 * U128) % e.order == sig.s
  {
    var (lo, hi) := Limbs(sig.s);
    assert lo + hi * U128 == sig.s;
    RemUnique(sig.s, e.order, 0, sig.s);
  }

  /** The range and flag part of the circuit's checks on an honest entry. */
  lemma {:induction false} SpendTyped(e: Env, t: Table, req: SignedTx, op: Op, x: TxEntry)
    requires ValidEnv(e) && WellFormed(e, t) && SignedTyped(e, req)
    requires op.Spend? && op == RequestOp(req, op.slot, op.toSlot) && Enabled(e, t, op) && op.toSlot < Pow2(e.depth)
    requires InField(e.p, x.toBalanceOrLeaf) && InField(e.p, x.toNonce)
    requires x == ActiveTx(e, t, Debit(t, op.slot, op.amount), req, op.slot, op.toSlot, x.toBalanceOrLeaf, x.toNonce)
    ensures Circuit.TxTyped(e, RenderTx(x))
  {
    PathInField(e, t, 0, op.slot, e.depth);
    PathInField(e, Debit(t, op.slot, op.amount), 0, op.toSlot, e.depth);
  }

  /** The sender's leaf, before and after, opens the roots around the debit. */
  lemma {:induction false} SpendSender(e: Env, t: Table, da: int, req: SignedTx, op: Op, x: TxEntry)
    requires ValidEnv(e) && WellFormed(e, t) && SignedTyped(e, req) && InField(e.p, da)
    requires op.Spend? && op == RequestOp(req, op.slot, op.toSlot) && Enabled(e, t, op)
    requires op.auth.s != 0 && t[op.slot].nonce + 1 < U64
    requires x == ActiveTx(e, t, Debit(t, op.slot, op.amount), req, op.slot, op.toSlot, x.toBalanceOrLeaf, x.toNonce)
    requires Circuit.TxTyped(e, RenderTx(x))
    ensures var w := RenderTx(x);
            && TxSigOk(e, w)
            && IsU64(Select(e.p, w.isActive, TxDebited(e, w), 0))
            && Opens(e, TxOldSender(e, w), w.fromIndex, w.fromSiblings, Root(e, t))
            && TxRoot1(e, w) == Root(e, Debit(t, op.slot, op.amount))
            && TxDaAcc(e, da, w) == e.hash([DOMAIN_DA, da, Message(e, op)])
  {
    var w := RenderTx(x);
    TxPlainSender(e, da, w);
    assert [DOMAIN_TX, w.fromPkX, w.toField, w.amount, w.fromNonce, w.isWithdraw]
        == MessageInput(op.pk, op.to, op.amount, op.nonce, op.exit);
    SigRenders(e, op.pk, op.auth.pkY, Message(e, op), req.sig);
    RangeChecksDecide(e.p, t[op.slot].balance, op.amount);
    PathToRoot(e, t, op.slot);
    AccountUpdates(e, t, op.slot, Debit(t, op.slot, op.amount)[op.slot], w.fromSiblings);
  }

  /** The recipient's leaf, or the raw leaf of slot 0 on an exit. */
  lemma {:induction false} SpendRecipient(e: Env, t1: Table, wd: int, w: TxWitness)
    requires ValidEnv(e) && TableOk(e, t1) && InField(e.p, wd) && Circuit.TxTyped(e, w)
    requires w.isActive == 1 && (w.isWithdraw == 0 || w.isWithdraw == 1)
    requires w.toIndex < Pow2(e.depth) && w.toSiblings == Siblings(e, t1, w.toIndex) && IsU64(w.amount)
    requires w.isWithdraw == 1 ==> w.toBalance == TableLeaf(e, t1, w.toIndex)
    requires w.isWithdraw == 0 ==> w.toIndex in t1 && t1[w.toIndex] == Account(w.toField, w.toBalance, w.toNonce)
                                   && w.toBalance + w.amount < U64
    ensures IsFlag(e.p, IsTransfer(e, w)) && IsFlag(e.p, IsWithdrawal(e, w))
    ensures IsTransfer(e, w) == 1 ==> w.toField != 0 && w.toField != PAD_PK_X
    ensures IsU64(Select(e.p, IsTransfer(e, w), TxCredited(e, w), 0))
    ensures Opens(e, TxOldRecipient(e, w), w.toIndex, w.toSiblings, Root(e, t1))
    ensures TxRoot2(e, w) == if w.isWithdraw == 1 then Root(e, t1)
                             else Root(e, t1[w.toIndex := Account(w.toField, w.toBalance + w.amount, w.toNonce)])
    ensures TxWdAcc(e, wd, w) == if w.isWithdraw == 1 then e.hash([DOMAIN_WD, wd, w.toField, w.amount]) else wd
  {
    MulBits(e.p, w.isActive, Sub(e.p, 1, w.isWithdraw));
    MulBits(e.p, w.isActive, w.isWithdraw);
    FlagIsBit(e.p, IsTransfer(e, w));
    FlagIsBit(e.p, IsWithdrawal(e, w));
    TxPlainRecipient(e, wd, w);
    PathToRoot(e, t1, w.toIndex);
    if w.isWithdraw == 0 {
      RangeChecksDecide(e.p, w.toBalance, w.amount);
      AccountUpdates(e, t1, w.toIndex, Account(w.toField, w.toBalance + w.amount, w.toNonce), w.toSiblings);
    }
  }

  /** Its recipient side: the checks, and the root and exits it leaves. */
  lemma {:induction false} SpendReceived(e: Env, t: Table, wd: int, req: SignedTx, op: Op, x: TxEntry)
    requires ValidEnv(e) && WellFormed(e, t) && SignedTyped(e, req) && InField(e.p, wd)
    requires op.Spend? && op == RequestOp(req, op.slot, op.toSlot) && Enabled(e, t, op)
    requires t[op.slot].nonce + 1 < U64 && op.auth.s != 0 && op.toSlot < Pow2(e.depth)
    requires x == ActiveTx(e, t, Debit(t, op.slot, op.amount), req, op.slot, op.toSlot, x.toBalanceOrLeaf, x.toNonce)
    requires op.exit ==> x.toBalanceOrLeaf == TableLeaf(e, Debit(t, op.slot, op.amount), op.toSlot) && x.toNonce == 0
    requires !op.exit ==> Account(req.toField, x.toBalanceOrLeaf, x.toNonce) == Debit(t, op.slot, op.amount)[op.toSlot]
    ensures var w := RenderTx(x);
            && Circuit.TxTyped(e, w)
            && IsFlag(e.p, IsTransfer(e, w)) && IsFlag(e.p, IsWithdrawal(e, w))
            && (IsTransfer(e, w) == 1 ==> w.toField != 0 && w.toField != PAD_PK_X)
            && IsU64(Select(e.p, IsTransfer(e, w), TxCredited(e, w), 0))
            && Opens(e, TxOldRecipient(e, w), w.toIndex, w.toSiblings, Root(e, Debit(t, op.slot, op.amount)))
            && TxRoot2(e, w) == Root(e, Exec(e, t, op))
            && TxWdAcc(e, wd, w) == (if op.exit then e.hash([DOMAIN_WD, wd, op.to, op.amount]) else wd)
  {
    var w, t1 := RenderTx(x), Debit(t, op.slot, op.amount);
    assert t1 == Debited(e, t, op);
    DebitedOk(e, t, op);
    TableLeafIs(e, t1, op.toSlot);
    SpendTyped(e, t, req, op, x);
    SpendRecipient(e, t1, wd, w);
  }

  /** The circuit accepts the honest witness of an enabled spend. */
  lemma {:induction false} SpendAccepted(e: Env, t: Table, wd: int, da: int, req: SignedTx, op: Op, x: TxEntry)
    requires ValidEnv(e) && WellFormed(e, t) && SignedTyped(e, req) && InField(e.p, wd) && InField(e.p, da)
    requires op.Spend? && op == RequestOp(req, op.slot, op.toSlot) && Enabled(e, t, op)
    requires t[op.slot].nonce + 1 < U64 && op.auth.s != 0 && op.toSlot < Pow2(e.depth)
    requires x == ActiveTx(e, t, Debit(t, op.slot, op.amount), req, op.slot, op.toSlot, x.toBalanceOrLeaf, x.toNonce)
    requires op.exit ==> x.toBalanceOrLeaf == TableLeaf(e, Debit(t, op.slot, op.amount), op.toSlot) && x.toNonce == 0
    requires !op.exit ==> Account(req.toField, x.toBalanceOrLeaf, x.toNonce) == Debit(t, op.slot, op.amount)[op.toSlot]
    ensures var w := RenderTx(x);
            && Circuit.TxTyped(e, w) && TxChecks(e, Root(e, t), w)
            && TxRoot2(e, w) == Root(e, Exec(e, t, op))
            && TxWdAcc(e, wd, w) == (if op.exit then e.hash([DOMAIN_WD, wd, op.to, op.amount]) else wd)
            && TxDaAcc(e, da, w) == e.hash([DOMAIN_DA, da, Message(e, op)])
  {
    var w := RenderTx(x);
    SpendReceived(e, t, wd, req, op, x);
    SpendSender(e, t, da, req, op, x);
    FlagIsBit(e.p, w.isActive);
    FlagIsBit(e.p, w.isWithdraw);
  }

  /** The circuit accepts the honest witness of a built transaction. */
  lemma {:induction false} TxAccepted(e: Env, t: Table, wd: int, da: int, i: nat, req: SignedTx)
    requires ValidEnv(e) && WellFormed(e, t) && SignedTyped(e, req) && InField(e.p, wd) && InField(e.p, da)
    requires TxStep(e, t, i, req).outcome.Built?
    ensures var s := TxStep(e, t, i, req);
            var w := RenderTx(s.outcome.value);
            && Circuit.TxTyped(e, w) && TxChecks(e, Root(e, t), w)
            && TxRoot2(e, w) == Root(e, s.table)
            && TxWdAcc(e, wd, w) == (if req.isWithdraw then e.hash([DOMAIN_WD, wd, req.toField, req.amount]) else wd)
            && TxDaAcc(e, da, w) == e.hash([DOMAIN_DA, da, RequestMessage(e, req)])
  {
    var x := TxStep(e, t, i, req).outcome.value;
    TxStepLegal(e, t, i, req);
    SpendAccepted(e, t, wd, da, req, RequestOp(req, x.fromIndex, x.toIndex), x);
  }

  /** Transaction padding is an identity the circuit accepts. */
  lemma {:induction false} PadTxAccepted(e: Env, t: Table, wd: int, da: int)
    requires ValidEnv(e) && WellFormed(e, t) && InField(e.p, wd) && InField(e.p, da)
    ensures var w := RenderTx(PadTx(e, t));
            && Circuit.TxTyped(e, w) && TxChecks(e, Root(e, t), w)
            && TxRoot2(e, w) == Root(e, t) && TxWdAcc(e, wd, w) == wd && TxDaAcc(e, da, w) == da
  {
    var w := RenderTx(PadTx(e, t));
    PathInField(e, t, 0, 0, e.depth);
    TableLeafIs(e, t, 0);
    PathToRoot(e, t, 0);
    FlagIsBit(e.p, w.isActive);
    FlagIsBit(e.p, w.isWithdraw);
    MulBits(e.p, w.isActive, Sub(e.p, 1, w.isWithdraw));
    MulBits(e.p, w.isActive, w.isWithdraw);
    FlagIsBit(e.p, IsTransfer(e, w));
    FlagIsBit(e.p, IsWithdrawal(e, w));
    TxPlainSender(e, da, w);
    TxPlainRecipient(e, wd, w);
    RemUnique(PAD_S_LO + PAD_S_HI * U128, e.order, 0, PAD_S_LO + PAD_S_HI * U128);
  }

  lemma {:induction false} PadTxsAccepted(e: Env, t: Table, wd: int, da: int, n: nat)
    requires ValidEnv(e) && WellFormed(e, t) && InField(e.p, wd) && InField(e.p, da)
    ensures var ws := RenderTxs(Repeat(PadTx(e, t), n));
            && AfterTxs(e, Root(e, t), wd, da, ws) == Some((Root(e, t), wd, da))
            && AllTxOps(e, ws) == []
  {
    if n > 0 {
      PadTxAccepted(e, t, wd, da);
      PadTxsAccepted(e, t, wd, da, n - 1);
    }
  }

  lemma {:induction false} AfterTxsAppend(e: Env, root: int, wd: int, da: int, xs: seq<TxWitness>, ys: seq<TxWitness>)
    requires e.p > 0 && e.order > 0
    ensures AfterTxs(e, root, wd, da, xs + ys) ==
            match AfterTxs(e, root, wd, da, xs) case None => None case Some((r, a, b)) => AfterTxs(e, r, a, b, ys)
    decreases |xs|
  {
    if xs == [] {
      assert xs + ys == ys;
    } else {
      assert (xs + ys)[0] == xs[0] && (xs + ys)[1..] == xs[1..] + ys;
      if Circuit.TxTyped(e, xs[0]) && TxChecks(e, root, xs[0]) {
        AfterTxsAppend(e, TxRoot2(e, xs[0]), TxWdAcc(e, wd, xs[0]), TxDaAcc(e, da, xs[0]), xs[1..], ys);
      }
    }
  }

  lemma {:induction false} RenderTxsAppend(xs: seq<TxEntry>, ys: seq<TxEntry>)
    ensures RenderTxs(xs + ys) == RenderTxs(xs) + RenderTxs(ys)
    decreases |xs|
  {
    if xs == [] {
      assert xs + ys == ys;
    } else {
      assert (xs + ys)[0] == xs[0] && (xs + ys)[1..] == xs[1..] + ys;
      RenderTxsAppend(xs[1..], ys);
    }
  }

  lemma {:induction false} TxOpsAppend(e: Env, xs: seq<TxWitness>, ys: seq<TxWitness>)
    requires e.order > 0
    ensures AllTxOps(e, xs + ys) == AllTxOps(e, xs) + AllTxOps(e, ys)
    decreases |xs|
  {
    if xs == [] {
      assert xs + ys == ys;
    } else {
      assert (xs + ys)[0] == xs[0] && (xs + ys)[1..] == xs[1..] + ys;
      TxOpsAppend(e, xs[1..], ys);
      assert AllTxOps(e, xs + ys) == TxOps(e, xs[0]) + (AllTxOps(e, xs[1..]) + AllTxOps(e, ys));
    }
  }

  /** The operation the circuit reads off a rendered entry is the request's. */
  lemma {:induction false} RenderedOp(e: Env, t: Table, i: nat, req: SignedTx)
    requires ValidEnv(e) && WellFormed(e, t) && SignedTyped(e, req)
    requires TxStep(e, t, i, req).outcome.Built?
    ensures var x := TxStep(e, t, i, req).outcome.value;
            TxOps(e, RenderTx(x)) == [RequestOp(req, x.fromIndex, x.toIndex)]
  {
    var x := TxStep(e, t, i, req).outcome.value;
    TxStepLegal(e, t, i, req);
    SigRenders(e, req.fromPkX, req.fromPkY, RequestMessage(e, req), req.sig);
  }

  lemma {:induction false} TxsComplete(e: Env, t: Table, wd: int, da: int, i: nat, ts: seq<SignedTx>)
    requires ValidEnv(e) && WellFormed(e, t) && InField(e.p, wd) && InField(e.p, da) && i <= |ts|
    requires forall k :: 0 <= k < |ts| ==> SignedTyped(e, ts[k])
    requires BuildTxs(e, t, i, ts).outcome.Built?
    ensures var s := BuildTxs(e, t, i, ts);
            var ws := RenderTxs(s.outcome.value);
            && WellFormed(e, s.table)
            && AfterTxs(e, Root(e, t), wd, da, ws)
               == Some((Root(e, s.table), FoldPairs(e, DOMAIN_WD, wd, ExitPairs(ts[i..])),
                        FoldMessages(e, da, RequestMessages(e, ts[i..]))))
            && Legal(e, t, AllTxOps(e, ws)) && Run(e, t, AllTxOps(e, ws)) == s.table
            && Exits(AllTxOps(e, ws)) == ExitPairs(ts[i..])
            && Messages(e, AllTxOps(e, ws)) == RequestMessages(e, ts[i..])
    decreases |ts| - i
  {
    if i < |ts| {
      var req, s := ts[i], TxStep(e, t, i, ts[i]);
      var x := s.outcome.value;
      var op := RequestOp(req, x.fromIndex, x.toIndex);
      TxStepLegal(e, t, i, req);
      TxAccepted(e, t, wd, da, i, req);
      RenderedOp(e, t, i, req);
      var wd1, da1 := TxWdAcc(e, wd, RenderTx(x)), TxDaAcc(e, da, RenderTx(x));
      assert InField(e.p, wd1) && InField(e.p, da1);
      TxsComplete(e, s.table, wd1, da1, i + 1, ts);
      assert ExitOf(op) == if req.isWithdraw then [(req.toField, req.amount)] else [];
      assert ts[i..][0] == req && ts[i..][1..] == ts[i + 1..];
      var rest := AllTxOps(e, RenderTxs(BuildTxs(e, s.table, i + 1, ts).outcome.value));
      LegalCons(e, t, op, rest);
      FoldPairsAppend(e, DOMAIN_WD, wd, ExitOf(op), ExitPairs(ts[i + 1..]));
    }
  }

  // ---------- the whole batch ----------

  /** What a built batch is: accepted, of the circuit's shape, and the ledger
      transition of exactly the requests. */
  ghost predicate HonestBatch(e: Env, t: Table, dSlots: nat, nSlots: nat, ds: seq<DepositRequest>, ts: seq<SignedTx>,
                              u: Table, w: BatchWitness)
    requires e.p > 0 && e.order > 0
  {
    var ops := BatchOps(e, Render(w));
    && Accepts(e, w.pub, Render(w))
    && |w.deposits| == dSlots && |w.txs| == nSlots
    && w.pub.oldRoot == Root(e, t) && w.pub.newRoot == Root(e, u)
    && Legal(e, t, ops) && Run(e, t, ops) == u
    && Deposits(ops) == DepositPairs(ds)
    && Exits(ops) == ExitPairs(ts)
    && Messages(e, ops) == RequestMessages(e, ts)
  }

  lemma {:induction false} DepositHalf(e: Env, t: Table, dSlots: nat, ds: seq<DepositRequest>)
    requires ValidEnv(e) && WellFormed(e, t) && |ds| <= dSlots
    requires forall k :: 0 <= k < |ds| ==> RequestTyped(e, ds[k])
    requires BuildDeposits(e, t, 0, ds).outcome.Built?
    ensures var s := BuildDeposits(e, t, 0, ds);
            var ws := RenderDeposits(s.outcome.value + Repeat(PadDeposit(e, s.table), dSlots - |ds|));
            && WellFormed(e, s.table)
            && AfterDeposits(e, Root(e, t), 0, ws)
               == Some((Root(e, s.table), FoldPairs(e, DOMAIN_DEP, 0, DepositPairs(ds))))
            && Legal(e, t, AllDepositOps(ws)) && Run(e, t, AllDepositOps(ws)) == s.table
            && Deposits(AllDepositOps(ws)) == DepositPairs(ds)
  {
    var s := BuildDeposits(e, t, 0, ds);
    DepositsComplete(e, t, 0, 0, ds);
    assert ds[0..] == ds;
    FoldInField(e, DOMAIN_DEP, DepositPairs(ds));
    PaddedDeposits(e, Root(e, t), s.table, FoldPairs(e, DOMAIN_DEP, 0, DepositPairs(ds)), s.outcome.value,
                   dSlots - |ds|);
  }

  /** Padding after a list of entries changes neither the loop's result nor the
      operations. */
  lemma {:induction false} PaddedDeposits(e: Env, root: int, t: Table, acc: int, active: seq<DepositEntry>, n: nat)
    requires ValidEnv(e) && WellFormed(e, t) && InField(e.p, acc)
    requires AfterDeposits(e, root, 0, RenderDeposits(active)) == Some((Root(e, t), acc))
    ensures var ws := RenderDeposits(active + Repeat(PadDeposit(e, t), n));
            && AfterDeposits(e, root, 0, ws) == Some((Root(e, t), acc))
            && AllDepositOps(ws) == AllDepositOps(RenderDeposits(active))
  {
    var pad := Repeat(PadDeposit(e, t), n);
    PadDepositsAccepted(e, t, acc, n);
    RenderDepositsAppend(active, pad);
    AfterDepositsAppend(e, root, 0, RenderDeposits(active), RenderDeposits(pad));
    DepositOpsAppend(RenderDeposits(active), RenderDeposits(pad));
  }

  lemma {:induction false} FoldInField(e: Env, domain: int, xs: seq<(int, int)>)
    requires ValidEnv(e)
    ensures InField(e.p, FoldPairs(e, domain, 0, xs))
  {
    if xs != [] {
      var n := |xs| - 1;
      assert xs == xs[..n] + [xs[n]];
      FoldSnoc(e, domain, xs[..n], xs[n]);
    }
  }

  lemma {:induction false} FoldMessagesInField(e: Env, xs: seq<int>)
    requires ValidEnv(e)
    ensures InField(e.p, FoldMessages(e, 0, xs))
  {
    if xs != [] {
      var n := |xs| - 1;
      assert xs == xs[..n] + [xs[n]];
      FoldMessageSnoc(e, xs[..n], xs[n]);
    }
  }

  lemma {:induction false} TxHalf(e: Env, t: Table, nSlots: nat, ts: seq<SignedTx>)
    requires ValidEnv(e) && WellFormed(e, t) && |ts| <= nSlots
    requires forall k :: 0 <= k < |ts| ==> SignedTyped(e, ts[k])
    requires BuildTxs(e, t, 0, ts).outcome.Built?
    ensures var s := BuildTxs(e, t, 0, ts);
            var ws := RenderTxs(s.outcome.value + Repeat(PadTx(e, s.table), nSlots - |ts|));
            && WellFormed(e, s.table)
            && AfterTxs(e, Root(e, t), 0, 0, ws)
               == Some((Root(e, s.table), FoldPairs(e, DOMAIN_WD, 0, ExitPairs(ts)),
                        FoldMessages(e, 0, RequestMessages(e, ts))))
            && Legal(e, t, AllTxOps(e, ws)) && Run(e, t, AllTxOps(e, ws)) == s.table
            && Exits(AllTxOps(e, ws)) == ExitPairs(ts)
            && Messages(e, AllTxOps(e, ws)) == RequestMessages(e, ts)
  {
    var s := BuildTxs(e, t, 0, ts);
    var wd, da := FoldPairs(e, DOMAIN_WD, 0, ExitPairs(ts)), FoldMessages(e, 0, RequestMessages(e, ts));
    TxsComplete(e, t, 0, 0, 0, ts);
    assert ts[0..] == ts;
    FoldInField(e, DOMAIN_WD, ExitPairs(ts));
    FoldMessagesInField(e, RequestMessages(e, ts));
    PaddedTxs(e, Root(e, t), s.table, wd, da, s.outcome.value, nSlots - |ts|);
  }

  lemma {:induction false} PaddedTxs(e: Env, root: int, t: Table, wd: int, da: int, active: seq<TxEntry>, n: nat)
    requires ValidEnv(e) && WellFormed(e, t) && InField(e.p, wd) && InField(e.p, da)
    requires AfterTxs(e, root, 0, 0, RenderTxs(active)) == Some((Root(e, t), wd, da))
    ensures var ws := RenderTxs(active + Repeat(PadTx(e, t), n));
            && AfterTxs(e, root, 0, 0, ws) == Some((Root(e, t), wd, da))
            && AllTxOps(e, ws) == AllTxOps(e, RenderTxs(active))
  {
    var pad := Repeat(PadTx(e, t), n);
    PadTxsAccepted(e, t, wd, da, n);
    RenderTxsAppend(active, pad);
    AfterTxsAppend(e, root, 0, 0, RenderTxs(active), RenderTxs(pad));
    TxOpsAppend(e, RenderTxs(active), RenderTxs(pad));
  }

  lemma {:induction false} BuiltParts(e: Env, t: Table, dSlots: nat, nSlots: nat, ds: seq<DepositRequest>,
                                      ts: seq<SignedTx>)
    requires Build(e, t, dSlots, nSlots, ds, ts).outcome.Built?
    ensures |ds| <= dSlots && |ts| <= nSlots
    ensures BuildDeposits(e, t, 0, ds).outcome.Built?
    ensures var s1 := BuildDeposits(e, t, 0, ds);
            var s2 := BuildTxs(e, s1.table, 0, ts);
            var s := Build(e, t, dSlots, nSlots, ds, ts);
            && s2.outcome.Built? && s.table == s2.table
            && s.outcome.value.deposits == s1.outcome.value + Repeat(PadDeposit(e, s1.table), dSlots - |ds|)
            && s.outcome.value.txs == s2.outcome.value + Repeat(PadTx(e, s2.table), nSlots - |ts|)
            && |s.outcome.value.deposits| == dSlots && |s.outcome.value.txs| == nSlots
            && s.outcome.value.pub == Public(
                 Root(e, t), Root(e, s.table), FoldPairs(e, DOMAIN_DEP, 0, DepositPairs(ds)),
                 FoldPairs(e, DOMAIN_WD, 0, ExitPairs(ts)), FoldMessages(e, 0, RequestMessages(e, ts)))
  {
  }

  /** Builder completeness, for every well-formed tree and every request list. */
  lemma {:induction false} BuilderComplete(e: Env, t: Table, dSlots: nat, nSlots: nat, ds: seq<DepositRequest>,
                                           ts: seq<SignedTx>)
    requires ValidEnv(e) && WellFormed(e, t) && AllTyped(e, ds, ts)
    requires Build(e, t, dSlots, nSlots, ds, ts).outcome.Built?
    ensures var s := Build(e, t, dSlots, nSlots, ds, ts);
            WellFormed(e, s.table) && HonestBatch(e, t, dSlots, nSlots, ds, ts, s.table, s.outcome.value)
  {
    var s := Build(e, t, dSlots, nSlots, ds, ts);
    var w := s.outcome.value;
    BuiltParts(e, t, dSlots, nSlots, ds, ts);
    var t1 := BuildDeposits(e, t, 0, ds).table;
    DepositHalf(e, t, dSlots, ds);
    TxHalf(e, t1, nSlots, ts);
    RunAppend(e, t, AllDepositOps(Render(w).deposits), AllTxOps(e, Render(w).txs));
    BatchPublishes(e, Render(w));
  }
}
