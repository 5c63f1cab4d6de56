/** Anything the circuit accepts is a ledger transition: the checker over field
    elements, selectors and paths refines the reference ledger. */
module Soundness {
  import opened Field
  import opened Hashing
  import opened Merkle
  import opened Ledger
  import opened Circuit

  // ---------- fold accumulators ----------

  /** The contract's and the harness's list fold: acc' = H(domain, acc, a, b). */
  function FoldPairs(e: Env, domain: int, acc: int, list: seq<(int, int)>): int
    decreases |list|
  {
    if list == [] then acc
    else FoldPairs(e, domain, e.hash([domain, acc, list[0].0, list[0].1]), list[1..])
  }

  function FoldMessages(e: Env, acc: int, msgs: seq<int>): int
    decreases |msgs|
  {
    if msgs == [] then acc else FoldMessages(e, e.hash([DOMAIN_DA, acc, msgs[0]]), msgs[1..])
  }

  lemma {:induction false} FoldPairsAppend(e: Env, domain: int, acc: int, xs: seq<(int, int)>, ys: seq<(int, int)>)
    ensures FoldPairs(e, domain, acc, xs + ys) == FoldPairs(e, domain, FoldPairs(e, domain, acc, xs), ys)
    decreases |xs|
  {
    if xs == [] {
      assert xs + ys == ys;
    } else {
      assert (xs + ys)[0] == xs[0] && (xs + ys)[1..] == xs[1..] + ys;
      FoldPairsAppend(e, domain, e.hash([domain, acc, xs[0].0, xs[0].1]), xs[1..], ys);
    }
  }

  lemma {:induction false} FoldMessagesAppend(e: Env, acc: int, xs: seq<int>, ys: seq<int>)
    ensures FoldMessages(e, acc, xs + ys) == FoldMessages(e, FoldMessages(e, acc, xs), ys)
    decreases |xs|
  {
    if xs == [] {
      assert xs + ys == ys;
    } else {
      assert (xs + ys)[0] == xs[0] && (xs + ys)[1..] == xs[1..] + ys;
      FoldMessagesAppend(e, e.hash([DOMAIN_DA, acc, xs[0]]), xs[1..], ys);
    }
  }

  // ---------- the ledger operation a witness entry stands for ----------

  function DepositOps(d: DepositWitness): seq<Op>
  {
    if d.isActive == 1 then [Credit(d.index, d.pkX, d.amount)] else []
  }

  function TxOp(e: Env, t: TxWitness): Op
    requires e.order > 0
  {
    Spend(t.fromIndex, t.fromPkX, t.fromNonce, t.amount, t.isWithdraw == 1, t.toField, t.toIndex,
          Auth(t.fromPkY, t.sig.rX, t.sig.rY, (t.sig.sLo + t.sig.sHi * U128) % e.order))
  }

  function TxOps(e: Env, t: TxWitness): seq<Op>
    requires e.order > 0
  {
    if t.isActive == 1 then [TxOp(e, t)] else []
  }

  function AllDepositOps(ds: seq<DepositWitness>): seq<Op>
  {
    if ds == [] then [] else DepositOps(ds[0]) + AllDepositOps(ds[1..])
  }

  function AllTxOps(e: Env, ts: seq<TxWitness>): seq<Op>
    requires e.order > 0
  {
    if ts == [] then [] else TxOps(e, ts[0]) + AllTxOps(e, ts[1..])
  }

  /** Active deposits first, then active transactions. */
  function BatchOps(e: Env, w: Witness): seq<Op>
    requires e.order > 0
  {
    AllDepositOps(w.deposits) + AllTxOps(e, w.txs)
  }

  // ---------- hash queries of a batch ----------

  function DepositQueries(e: Env, t: Table, d: DepositWitness): set<seq<int>>
  {
    CheckQueries(e, t, d.index, DepositOldLeaf(e, d), d.siblings)
    + {LeafInput(Account(d.oldPkX, d.oldBalance, d.oldNonce))}
  }

  /** The table the recipient's path is opened against. */
  function MidTable(e: Env, t: Table, w: TxWitness): Table
    requires e.order > 0
  {
    if w.isActive == 1 && w.fromIndex in t then Debited(e, t, TxOp(e, w)) else t
  }

  function TxQueries(e: Env, t: Table, w: TxWitness): set<seq<int>>
    requires e.order > 0 && e.p > 0
  {
    CheckQueries(e, t, w.fromIndex, TxOldSender(e, w), w.fromSiblings)
    + {LeafInput(Account(w.fromPkX, w.fromBalance, w.fromNonce))}
    + CheckQueries(e, MidTable(e, t, w), w.toIndex, TxOldRecipient(e, w), w.toSiblings)
    + {LeafInput(Account(w.toField, w.toBalance, w.toNonce))}
  }

  function AllDepositQueries(e: Env, t: Table, ds: seq<DepositWitness>): set<seq<int>>
    decreases |ds|
  {
    if ds == [] then {}
    else DepositQueries(e, t, ds[0])
         + (if Legal(e, t, DepositOps(ds[0]))
            then AllDepositQueries(e, Run(e, t, DepositOps(ds[0])), ds[1..]) else {})
  }

  function AllTxQueries(e: Env, t: Table, ts: seq<TxWitness>): set<seq<int>>
    requires e.order > 0 && e.p > 0
    decreases |ts|
  {
    if ts == [] then {}
    else TxQueries(e, t, ts[0])
         + (if Legal(e, t, TxOps(e, ts[0]))
            then AllTxQueries(e, Run(e, t, TxOps(e, ts[0])), ts[1..]) else {})
  }

  /** Every query whose collision or zero image could fool the circuit. */
  function BatchQueries(e: Env, t: Table, w: Witness): set<seq<int>>
    requires e.order > 0 && e.p > 0
  {
    AllDepositQueries(e, t, w.deposits)
    + (if Legal(e, t, AllDepositOps(w.deposits))
       then AllTxQueries(e, Run(e, t, AllDepositOps(w.deposits)), w.txs) else {})
  }

  // ---------- one deposit ----------

  /** Without the selectors: an inactive entry is an identity, an active one
      installs the credited account. */
  lemma {:induction false} DepositPlain(e: Env, root: int, acc: int, d: DepositWitness)
    requires ValidEnv(e) && DepositTyped(e, d) && DepositChecks(e, root, d) && InField(e.p, acc)
    ensures d.isActive == 0 || d.isActive == 1
    ensures DepositNewBalance(e, d) == if d.oldPkX == 0 then d.amount else Add(e.p, d.oldBalance, d.amount)
    ensures d.isActive == 0 ==> DepositNewLeaf(e, d) == DepositOldLeaf(e, d) && DepositAcc(e, acc, d) == acc
    ensures d.isActive == 1 ==>
              && DepositNewLeaf(e, d)
                 == LeafValue(e, Account(d.pkX, DepositNewBalance(e, d), if d.oldPkX == 0 then 0 else d.oldNonce))
              && DepositAcc(e, acc, d) == e.hash([DOMAIN_DEP, acc, d.pkX, d.amount])
  {
    FlagIsBit(e.p, d.isActive);
    SelectBit(e.p, IsEmpty(d), d.amount, Add(e.p, d.oldBalance, d.amount));
    SelectBit(e.p, IsEmpty(d), 0, d.oldNonce);
    var newNonce := Select(e.p, IsEmpty(d), 0, d.oldNonce);
    SelectBit(e.p, d.isActive, LeafValue(e, Account(d.pkX, DepositNewBalance(e, d), newNonce)), DepositOldLeaf(e, d));
    SelectBit(e.p, d.isActive, e.hash([DOMAIN_DEP, acc, d.pkX, d.amount]), acc);
  }

  lemma {:induction false} DepositSound(e: Env, K: set<seq<int>>, t: Table, acc: int, d: DepositWitness)
    requires ValidEnv(e) && TableOk(e, t) && InField(e.p, acc)
    requires DepositTyped(e, d) && DepositChecks(e, Root(e, t), d)
    requires DepositQueries(e, t, d) <= K && !Breaks(e, K)
    ensures Legal(e, t, DepositOps(d))
    ensures TableOk(e, Run(e, t, DepositOps(d)))
    ensures DepositRoot(e, d) == Root(e, Run(e, t, DepositOps(d)))
    ensures DepositAcc(e, acc, d) == FoldPairs(e, DOMAIN_DEP, acc, Deposits(DepositOps(d)))
    ensures InField(e.p, DepositAcc(e, acc, d))
  {
    DepositPlain(e, Root(e, t), acc, d);
    if d.isActive == 1 {
      var prior := Account(d.oldPkX, d.oldBalance, d.oldNonce);
      if d.oldPkX == 0 {
        RootBindsEmpty(e, K, t, d.index, d.siblings);
      } else {
        RootBindsAccount(e, K, t, d.index, prior, d.siblings);
        RangeChecksDecide(e.p, d.oldBalance, d.amount);
      }
      var op := Credit(d.index, d.pkX, d.amount);
      assert Enabled(e, t, op);
      ExecKeeps(e, t, op);
      UpdateRoot(e, t, d.index, Exec(e, t, op)[d.index]);
      assert DepositOps(d)[1..] == [];
      assert Deposits(DepositOps(d)) == [(d.pkX, d.amount)];
    }
  }

  // ---------- one transaction ----------

  lemma {:induction false} TxPlain(e: Env, root: int, wd: int, da: int, t: TxWitness)
    requires ValidEnv(e) && TxTyped(e, t) && TxChecks(e, root, t) && InField(e.p, wd) && InField(e.p, da)
    ensures t.isActive == 0 || t.isActive == 1
    ensures t.isWithdraw == 0 || t.isWithdraw == 1
    ensures t.isActive == 0 ==>
              && TxSenderLeaf(e, t) == TxOldSender(e, t) && TxDaAcc(e, da, t) == da
    ensures t.isActive == 1 ==>
              && VerifySig(e, t.fromPkX, t.fromPkY, TxMessage(e, t), t.sig)
              && IsU64(TxDebited(e, t))
              && TxSenderLeaf(e, t) == LeafValue(e, Account(t.fromPkX, TxDebited(e, t), Add(e.p, t.fromNonce, 1)))
              && TxDaAcc(e, da, t) == e.hash([DOMAIN_DA, da, TxMessage(e, t)])
    ensures t.isActive == 1 && t.isWithdraw == 1 ==>
              TxWdAcc(e, wd, t) == e.hash([DOMAIN_WD, wd, t.toField, t.amount])
    ensures !(t.isActive == 1 && t.isWithdraw == 1) ==> TxWdAcc(e, wd, t) == wd
    ensures t.isActive == 1 && t.isWithdraw == 0 ==>
              && t.toField != 0 && t.toField != PAD_PK_X && IsU64(TxCredited(e, t))
              && TxOldRecipient(e, t) == LeafValue(e, Account(t.toField, t.toBalance, t.toNonce))
              && TxNewRecipient(e, t) == LeafValue(e, Account(t.toField, TxCredited(e, t), t.toNonce))
    ensures !(t.isActive == 1 && t.isWithdraw == 0) ==> TxNewRecipient(e, t) == TxOldRecipient(e, t)
  {
    FlagIsBit(e.p, t.isActive);
    FlagIsBit(e.p, t.isWithdraw);
    MulBits(e.p, t.isActive, Sub(e.p, 1, t.isWithdraw));
    MulBits(e.p, t.isActive, t.isWithdraw);
    TxPlainSender(e, da, t);
    TxPlainRecipient(e, wd, t);
  }

  lemma {:induction false} TxPlainSender(e: Env, da: int, t: TxWitness)
    requires ValidEnv(e) && TxTyped(e, t) && InField(e.p, da)
    requires t.isActive == 0 || t.isActive == 1
    ensures t.isActive == 0 ==> TxSenderLeaf(e, t) == TxOldSender(e, t) && TxDaAcc(e, da, t) == da
    ensures t.isActive == 1 ==>
              && TxSigOk(e, t) == VerifySig(e, t.fromPkX, t.fromPkY, TxMessage(e, t), t.sig)
              && Select(e.p, t.isActive, TxDebited(e, t), 0) == TxDebited(e, t)
              && TxSenderLeaf(e, t) == LeafValue(e, Account(t.fromPkX, TxDebited(e, t), Add(e.p, t.fromNonce, 1)))
              && TxDaAcc(e, da, t) == e.hash([DOMAIN_DA, da, TxMessage(e, t)])
    ensures t.isActive == 0 ==>
              && TxSigOk(e, t)
                 == VerifySig(e, PAD_PK_X, PAD_PK_Y, PAD_MSG, SigWitness(PAD_R_X, PAD_R_Y, PAD_S_LO, PAD_S_HI))
              && Select(e.p, t.isActive, TxDebited(e, t), 0) == 0
  {
    SelectBit(e.p, t.isActive, t.fromPkX, PAD_PK_X);
    SelectBit(e.p, t.isActive, t.fromPkY, PAD_PK_Y);
    SelectBit(e.p, t.isActive, TxMessage(e, t), PAD_MSG);
    SelectBit(e.p, t.isActive, t.sig.rX, PAD_R_X);
    SelectBit(e.p, t.isActive, t.sig.rY, PAD_R_Y);
    SelectBit(e.p, t.isActive, t.sig.sLo, PAD_S_LO);
    SelectBit(e.p, t.isActive, t.sig.sHi, PAD_S_HI);
    SelectBit(e.p, t.isActive, TxDebited(e, t), 0);
    SelectBit(e.p, t.isActive, LeafValue(e, Account(t.fromPkX, TxDebited(e, t), Add(e.p, t.fromNonce, 1))),
              TxOldSender(e, t));
    SelectBit(e.p, t.isActive, e.hash([DOMAIN_DA, da, TxMessage(e, t)]), da);
  }

  lemma {:induction false} TxPlainRecipient(e: Env, wd: int, t: TxWitness)
    requires ValidEnv(e) && TxTyped(e, t) && InField(e.p, wd)
    requires IsTransfer(e, t) == 0 || IsTransfer(e, t) == 1
    requires IsWithdrawal(e, t) == 0 || IsWithdrawal(e, t) == 1
    ensures IsTransfer(e, t) == 1 ==>
              && Select(e.p, IsTransfer(e, t), TxCredited(e, t), 0) == TxCredited(e, t)
              && TxOldRecipient(e, t) == LeafValue(e, Account(t.toField, t.toBalance, t.toNonce))
              && TxNewRecipient(e, t) == LeafValue(e, Account(t.toField, TxCredited(e, t), t.toNonce))
    ensures IsTransfer(e, t) == 0 ==>
              && Select(e.p, IsTransfer(e, t), TxCredited(e, t), 0) == 0
              && TxOldRecipient(e, t) == t.toBalance && TxNewRecipient(e, t) == t.toBalance
    ensures IsWithdrawal(e, t) == 1 ==> TxWdAcc(e, wd, t) == e.hash([DOMAIN_WD, wd, t.toField, t.amount])
    ensures IsWithdrawal(e, t) == 0 ==> TxWdAcc(e, wd, t) == wd
  {
    SelectBit(e.p, IsTransfer(e, t), TxCredited(e, t), 0);
    SelectBit(e.p, IsTransfer(e, t), LeafValue(e, Account(t.toField, t.toBalance, t.toNonce)), t.toBalance);
    SelectBit(e.p, IsTransfer(e, t), LeafValue(e, Account(t.toField, TxCredited(e, t), t.toNonce)), t.toBalance);
    SelectBit(e.p, IsWithdrawal(e, t), e.hash([DOMAIN_WD, wd, t.toField, t.amount]), wd);
  }

  /** The sender's half: the account opened at fromIndex can afford the amount,
      and the intermediate root is that of the debited table. */
  lemma {:induction false} DebitSound(e: Env, K: set<seq<int>>, t: Table, op: Op, sender: Account, siblings: seq<int>)
    requires ValidEnv(e) && TableOk(e, t) && op.Spend?
    requires sender.pk != 0 && IsU64(op.amount) && InField(e.p, sender.nonce) && InField(e.p, sender.balance)
    requires op.slot < Pow2(e.depth) && |siblings| == e.depth
    requires Fold(e, LeafValue(e, sender), op.slot, siblings) == Root(e, t)
    requires CheckQueries(e, t, op.slot, LeafValue(e, sender), siblings) + {LeafInput(sender)} <= K && !Breaks(e, K)
    requires IsU64(Sub(e.p, sender.balance, op.amount))
    ensures op.slot in t && t[op.slot] == sender
    ensures op.amount <= sender.balance
    ensures Fold(e, LeafValue(e, Account(sender.pk, Sub(e.p, sender.balance, op.amount), Add(e.p, sender.nonce, 1))),
                 op.slot, siblings)
         == Root(e, Debited(e, t, op))
  {
    RootBindsAccount(e, K, t, op.slot, sender, siblings);
    RangeChecksDecide(e.p, sender.balance, op.amount);
    var debited := Account(sender.pk, Sub(e.p, sender.balance, op.amount), Add(e.p, sender.nonce, 1));
    AccountUpdates(e, t, op.slot, debited, siblings);
  }

  /** The new leaf folded along the true path is the updated table's root. */
  lemma {:induction false} AccountUpdates(e: Env, t: Table, slot: nat, a: Account, siblings: seq<int>)
    requires slot < Pow2(e.depth) && siblings == Siblings(e, t, slot) && a.pk != 0
    ensures Fold(e, LeafValue(e, a), slot, siblings) == Root(e, t[slot := a])
  {
    UpdateRoot(e, t, slot, a);
  }

  lemma {:induction false} DebitedOk(e: Env, t: Table, op: Op)
    requires ValidEnv(e) && TableOk(e, t) && op.Spend? && op.slot in t && 0 <= op.amount <= t[op.slot].balance
    ensures TableOk(e, Debited(e, t, op))
  {
  }

  /** The recipient's half, against the debited table t1. */
  lemma {:induction false} CreditSound(e: Env, K: set<seq<int>>, t1: Table, slot: nat, recipient: Account, amount: int,
                                       siblings: seq<int>)
    requires ValidEnv(e) && TableOk(e, t1) && IsU64(amount)
    requires recipient.pk != 0 && InField(e.p, recipient.balance)
    requires slot < Pow2(e.depth) && |siblings| == e.depth
    requires Fold(e, LeafValue(e, recipient), slot, siblings) == Root(e, t1)
    requires CheckQueries(e, t1, slot, LeafValue(e, recipient), siblings) + {LeafInput(recipient)} <= K && !Breaks(e, K)
    requires IsU64(Add(e.p, recipient.balance, amount))
    ensures slot in t1 && t1[slot] == recipient
    ensures recipient.balance + amount < U64
    ensures Fold(e, LeafValue(e, Account(recipient.pk, Add(e.p, recipient.balance, amount), recipient.nonce)), slot,
                 siblings)
         == Root(e, t1[slot := Account(recipient.pk, recipient.balance + amount, recipient.nonce)])
  {
    RootBindsAccount(e, K, t1, slot, recipient, siblings);
    RangeChecksDecide(e.p, recipient.balance, amount);
    AccountUpdates(e, t1, slot, Account(recipient.pk, recipient.balance + amount, recipient.nonce), siblings);
  }

  /** The sender's half of an active witness entry. */
  lemma {:induction false} ActiveDebit(e: Env, K: set<seq<int>>, t: Table, w: TxWitness)
    requires ValidEnv(e) && TableOk(e, t) && TxTyped(e, w) && TxChecks(e, Root(e, t), w)
    requires TxQueries(e, t, w) <= K && !Breaks(e, K)
    requires w.isActive == 1
    ensures w.fromIndex in t && t[w.fromIndex] == Account(w.fromPkX, w.fromBalance, w.fromNonce)
    ensures w.amount <= w.fromBalance
    ensures TxRoot1(e, w) == Root(e, Debited(e, t, TxOp(e, w)))
    ensures TableOk(e, Debited(e, t, TxOp(e, w)))
  {
    TxPlain(e, Root(e, t), 0, 0, w);
    DebitSound(e, K, t, TxOp(e, w), Account(w.fromPkX, w.fromBalance, w.fromNonce), w.fromSiblings);
    DebitedOk(e, t, TxOp(e, w));
  }

  lemma {:induction false} ActiveEnabled(e: Env, t: Table, w: TxWitness)
    requires e.order > 0 && (w.isWithdraw == 0 || w.isWithdraw == 1)
    requires w.fromIndex < Pow2(e.depth) && 0 < w.amount < U64
    requires w.fromIndex in t && t[w.fromIndex] == Account(w.fromPkX, w.fromBalance, w.fromNonce)
    requires w.amount <= w.fromBalance && w.fromPkY % 2 == 0
    requires VerifySig(e, w.fromPkX, w.fromPkY, TxMessage(e, w), w.sig)
    requires var t1 := Debited(e, t, TxOp(e, w));
             w.isWithdraw == 0 ==>
               w.toIndex in t1 && t1[w.toIndex] == Account(w.toField, w.toBalance, w.toNonce)
               && w.toBalance + w.amount < U64
    ensures Enabled(e, t, TxOp(e, w))
    ensures var t1 := Debited(e, t, TxOp(e, w));
            Exec(e, t, TxOp(e, w))
            == if w.isWithdraw == 1 then t1
               else t1[w.toIndex := Account(w.toField, w.toBalance + w.amount, w.toNonce)]
  {
    TxMessageIs(e, w);
  }

  /** The recipient's half of an active witness entry: an exit leaves the root,
      a transfer credits the account opened in the debited table. */
  lemma {:induction false} ActiveCredit(e: Env, K: set<seq<int>>, t1: Table, root: int, w: TxWitness)
    requires ValidEnv(e) && TableOk(e, t1) && TxTyped(e, w) && TxChecks(e, root, w)
    requires w.isActive == 1 && TxRoot1(e, w) == Root(e, t1)
    requires CheckQueries(e, t1, w.toIndex, TxOldRecipient(e, w), w.toSiblings)
             + {LeafInput(Account(w.toField, w.toBalance, w.toNonce))} <= K && !Breaks(e, K)
    ensures w.isWithdraw == 1 ==> TxRoot2(e, w) == Root(e, t1)
    ensures w.isWithdraw == 0 ==>
              && w.toIndex in t1 && t1[w.toIndex] == Account(w.toField, w.toBalance, w.toNonce)
              && w.toBalance + w.amount < U64
              && TxRoot2(e, w) == Root(e, t1[w.toIndex := Account(w.toField, w.toBalance + w.amount, w.toNonce)])
  {
    TxPlain(e, root, 0, 0, w);
    if w.isWithdraw == 0 {
      CreditSound(e, K, t1, w.toIndex, Account(w.toField, w.toBalance, w.toNonce), w.amount, w.toSiblings);
      RangeChecksDecide(e.p, w.toBalance, w.amount);
    }
  }

  lemma {:induction false} ActiveTxSound(e: Env, K: set<seq<int>>, t: Table, w: TxWitness)
    requires ValidEnv(e) && TableOk(e, t) && TxTyped(e, w) && TxChecks(e, Root(e, t), w)
    requires TxQueries(e, t, w) <= K && !Breaks(e, K)
    requires w.isActive == 1
    ensures Enabled(e, t, TxOp(e, w))
    ensures TxRoot2(e, w) == Root(e, Exec(e, t, TxOp(e, w)))
  {
    ActiveDebit(e, K, t, w);
    ActiveCredit(e, K, MidTable(e, t, w), Root(e, t), w);
    TxPlain(e, Root(e, t), 0, 0, w);
    ActiveEnabled(e, t, w);
  }

  lemma {:induction false} TxMessageIs(e: Env, w: TxWitness)
    requires e.order > 0 && (w.isWithdraw == 0 || w.isWithdraw == 1)
    ensures Message(e, TxOp(e, w)) == TxMessage(e, w)
  {
    var op := TxOp(e, w);
    assert MessageInput(op.pk, op.to, op.amount, op.nonce, op.exit)
        == [DOMAIN_TX, w.fromPkX, w.toField, w.amount, w.fromNonce, w.isWithdraw];
  }

  lemma {:induction false} TxSound(e: Env, K: set<seq<int>>, t: Table, wd: int, da: int, w: TxWitness)
    requires ValidEnv(e) && TableOk(e, t) && InField(e.p, wd) && InField(e.p, da)
    requires TxTyped(e, w) && TxChecks(e, Root(e, t), w)
    requires TxQueries(e, t, w) <= K && !Breaks(e, K)
    ensures Legal(e, t, TxOps(e, w))
    ensures TableOk(e, Run(e, t, TxOps(e, w)))
    ensures TxRoot2(e, w) == Root(e, Run(e, t, TxOps(e, w)))
    ensures TxWdAcc(e, wd, w) == FoldPairs(e, DOMAIN_WD, wd, Exits(TxOps(e, w)))
    ensures TxDaAcc(e, da, w) == FoldMessages(e, da, Messages(e, TxOps(e, w)))
    ensures InField(e.p, TxWdAcc(e, wd, w)) && InField(e.p, TxDaAcc(e, da, w))
  {
    TxPlain(e, Root(e, t), wd, da, w);
    if w.isActive == 1 {
      var op := TxOp(e, w);
      ActiveTxSound(e, K, t, w);
      ExecKeeps(e, t, op);
      assert TxOps(e, w)[1..] == [];
      assert Messages(e, TxOps(e, w)) == [Message(e, op)];
      TxMessageIs(e, w);
      assert Exits(TxOps(e, w)) == if w.isWithdraw == 1 then [(w.toField, w.amount)] else [];
    }
  }

  // ---------- the two loops ----------

  lemma {:induction false} DepositsSound(e: Env, K: set<seq<int>>, t: Table, acc: int, ds: seq<DepositWitness>)
    requires ValidEnv(e) && TableOk(e, t) && InField(e.p, acc)
    requires AllDepositQueries(e, t, ds) <= K && !Breaks(e, K)
    requires AfterDeposits(e, Root(e, t), acc, ds).Some?
    ensures Legal(e, t, AllDepositOps(ds))
    ensures var u := Run(e, t, AllDepositOps(ds));
            TableOk(e, u)
            && AfterDeposits(e, Root(e, t), acc, ds)
               == Some((Root(e, u), FoldPairs(e, DOMAIN_DEP, acc, Deposits(AllDepositOps(ds)))))
    decreases |ds|
  {
    if ds != [] {
      DepositSound(e, K, t, acc, ds[0]);
      var head, tail := DepositOps(ds[0]), AllDepositOps(ds[1..]);
      var t1, acc1 := Run(e, t, head), DepositAcc(e, acc, ds[0]);
      DepositsSound(e, K, t1, acc1, ds[1..]);
      RunAppend(e, t, head, tail);
      PublishedAppend(e, head, tail);
      FoldPairsAppend(e, DOMAIN_DEP, acc, Deposits(head), Deposits(tail));
    }
  }

  lemma {:induction false} TxsSound(e: Env, K: set<seq<int>>, t: Table, wd: int, da: int, ts: seq<TxWitness>)
    requires ValidEnv(e) && TableOk(e, t) && InField(e.p, wd) && InField(e.p, da)
    requires AllTxQueries(e, t, ts) <= K && !Breaks(e, K)
    requires AfterTxs(e, Root(e, t), wd, da, ts).Some?
    ensures Legal(e, t, AllTxOps(e, ts))
    ensures var u := Run(e, t, AllTxOps(e, ts));
            TableOk(e, u)
            && AfterTxs(e, Root(e, t), wd, da, ts)
               == Some((Root(e, u), FoldPairs(e, DOMAIN_WD, wd, Exits(AllTxOps(e, ts))),
                        FoldMessages(e, da, Messages(e, AllTxOps(e, ts)))))
    decreases |ts|
  {
    if ts != [] {
      TxSound(e, K, t, wd, da, ts[0]);
      var head, tail := TxOps(e, ts[0]), AllTxOps(e, ts[1..]);
      var t1 := Run(e, t, head);
      TxsSound(e, K, t1, TxWdAcc(e, wd, ts[0]), TxDaAcc(e, da, ts[0]), ts[1..]);
      RunAppend(e, t, head, tail);
      PublishedAppend(e, head, tail);
      FoldPairsAppend(e, DOMAIN_WD, wd, Exits(head), Exits(tail));
      FoldMessagesAppend(e, da, Messages(e, head), Messages(e, tail));
    }
  }

  lemma {:induction false} NoExitsInDeposits(e: Env, ds: seq<DepositWitness>)
    ensures Exits(AllDepositOps(ds)) == [] && Messages(e, AllDepositOps(ds)) == []
  {
    if ds != [] {
      NoExitsInDeposits(e, ds[1..]);
      PublishedAppend(e, DepositOps(ds[0]), AllDepositOps(ds[1..]));
    }
  }

  lemma {:induction false} NoDepositsInTxs(e: Env, ts: seq<TxWitness>)
    requires e.order > 0
    ensures Deposits(AllTxOps(e, ts)) == []
  {
    if ts != [] {
      NoDepositsInTxs(e, ts[1..]);
      PublishedAppend(e, TxOps(e, ts[0]), AllTxOps(e, ts[1..]));
    }
  }

  /** An accepted witness of the tree with root oldRoot: its active entries are
      legal ledger operations, in order, and every public input is what the
      ledger says it is. */
  ghost predicate RealTransition(e: Env, t: Table, pub: Public, w: Witness)
    requires e.order > 0
  {
    var ops := BatchOps(e, w);
    && Legal(e, t, ops)
    && pub.newRoot == Root(e, Run(e, t, ops))
    && TableOk(e, Run(e, t, ops))
    && TotalBalance(e, Run(e, t, ops)) == TotalBalance(e, t) + Amounts(Deposits(ops)) - Amounts(Exits(ops))
    && pub.depositHash == FoldPairs(e, DOMAIN_DEP, 0, Deposits(ops))
    && pub.withdrawHash == FoldPairs(e, DOMAIN_WD, 0, Exits(ops))
    && pub.daCommitment == FoldMessages(e, 0, Messages(e, ops))
  }

  lemma {:induction false} CircuitSoundUnbroken(e: Env, K: set<seq<int>>, t: Table, pub: Public, w: Witness)
    requires ValidEnv(e) && TableOk(e, t)
    requires pub.oldRoot == Root(e, t) && Accepts(e, pub, w)
    requires BatchQueries(e, t, w) <= K && !Breaks(e, K)
    ensures RealTransition(e, t, pub, w)
  {
    var depOps, txOps := AllDepositOps(w.deposits), AllTxOps(e, w.txs);
    DepositsSound(e, K, t, 0, w.deposits);
    TxsSound(e, K, Run(e, t, depOps), 0, 0, w.txs);
    RunAppend(e, t, depOps, txOps);
    Conservation(e, t, depOps + txOps);
    BatchPublishes(e, w);
  }

  lemma {:induction false} BatchPublishes(e: Env, w: Witness)
    requires e.order > 0
    ensures Deposits(BatchOps(e, w)) == Deposits(AllDepositOps(w.deposits))
    ensures Exits(BatchOps(e, w)) == Exits(AllTxOps(e, w.txs))
    ensures Messages(e, BatchOps(e, w)) == Messages(e, AllTxOps(e, w.txs))
  {
    PublishedAppend(e, AllDepositOps(w.deposits), AllTxOps(e, w.txs));
    NoExitsInDeposits(e, w.deposits);
    NoDepositsInTxs(e, w.txs);
  }

  /** Circuit soundness: acceptance means a real transition, unless the batch's
      own finitely many hash queries break the hash. */
  lemma {:induction false} CircuitSound(e: Env, t: Table, pub: Public, w: Witness)
    requires ValidEnv(e) && TableOk(e, t)
    requires pub.oldRoot == Root(e, t) && Accepts(e, pub, w)
    ensures RealTransition(e, t, pub, w) || Breaks(e, BatchQueries(e, t, w))
  {
    var K := BatchQueries(e, t, w);
    if !Breaks(e, K) {
      CircuitSoundUnbroken(e, K, t, pub, w);
    }
  }
}
