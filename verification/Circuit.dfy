/** The batch circuit: tx.nr and batch.nr, a checker over untrusted witnesses.
    A failed assertion is a rejected witness. */
module Circuit {
  import opened Field
  import opened Hashing
  import opened Merkle

  datatype Option<+T> = None | Some(value: T)

  /** Indices are field elements too, so never negative. */
  datatype DepositWitness = DepositWitness(
    pkX: int,
    amount: int,
    index: nat,
    oldPkX: int,
    oldBalance: int,
    oldNonce: int,
    siblings: seq<int>,
    isActive: int)

  /** The scalar s crosses as two 128-bit limbs. */
  datatype SigWitness = SigWitness(rX: int, rY: int, sLo: int, sHi: int)

  datatype TxWitness = TxWitness(
    fromPkX: int,
    fromPkY: int,
    fromIndex: nat,
    fromBalance: int,
    fromNonce: int,
    fromSiblings: seq<int>,
    toField: int,
    toIndex: nat,
    toBalance: int,
    toNonce: int,
    toSiblings: seq<int>,
    amount: int,
    isWithdraw: int,
    isActive: int,
    sig: SigWitness)

  /** The five public inputs, in order. */
  datatype Public = Public(oldRoot: int, newRoot: int, depositHash: int, withdrawHash: int, daCommitment: int)

  datatype Witness = Witness(deposits: seq<DepositWitness>, txs: seq<TxWitness>)

  // ---------- typing: every witness entry is a field element ----------

  predicate AllInField(p: int, xs: seq<int>) {
    forall i :: 0 <= i < |xs| ==> InField(p, xs[i])
  }

  predicate DepositTyped(e: Env, d: DepositWitness) {
    && InField(e.p, d.pkX) && InField(e.p, d.amount) && InField(e.p, d.index)
    && InField(e.p, d.oldPkX) && InField(e.p, d.oldBalance) && InField(e.p, d.oldNonce)
    && InField(e.p, d.isActive)
    && |d.siblings| == e.depth && AllInField(e.p, d.siblings)
  }

  predicate TxTyped(e: Env, t: TxWitness) {
    && InField(e.p, t.fromPkX) && InField(e.p, t.fromPkY) && InField(e.p, t.fromIndex)
    && InField(e.p, t.fromBalance) && InField(e.p, t.fromNonce)
    && InField(e.p, t.toField) && InField(e.p, t.toIndex)
    && InField(e.p, t.toBalance) && InField(e.p, t.toNonce)
    && InField(e.p, t.amount) && InField(e.p, t.isWithdraw) && InField(e.p, t.isActive)
    && InField(e.p, t.sig.rX) && InField(e.p, t.sig.rY)
    && InField(e.p, t.sig.sLo) && InField(e.p, t.sig.sHi)
    && |t.fromSiblings| == e.depth && AllInField(e.p, t.fromSiblings)
    && |t.toSiblings| == e.depth && AllInField(e.p, t.toSiblings)
  }

  // ---------- merkle.nr ----------

  /** `compute_root`; the index has exactly depth little-endian bits. */
  predicate IndexFits(e: Env, index: int) {
    0 <= index < Pow2(e.depth)
  }

  /** `update_root` accepts: the old leaf opens the old root. */
  predicate Opens(e: Env, leaf: int, index: int, siblings: seq<int>, root: int) {
    IndexFits(e, index) && Fold(e, leaf, index, siblings) == root
  }

  // ---------- tx.nr: apply_deposit ----------

  function DepositOldLeaf(e: Env, d: DepositWitness): int {
    LeafValue(e, Account(d.oldPkX, d.oldBalance, d.oldNonce))
  }

  function IsEmpty(d: DepositWitness): int {
    if d.oldPkX == 0 then 1 else 0
  }

  function DepositNewBalance(e: Env, d: DepositWitness): int
    requires e.p > 0
  {
    Select(e.p, IsEmpty(d), d.amount, Add(e.p, d.oldBalance, d.amount))
  }

  function DepositNewLeaf(e: Env, d: DepositWitness): int
    requires e.p > 0
  {
    var newNonce := Select(e.p, IsEmpty(d), 0, d.oldNonce);
    var active := LeafValue(e, Account(d.pkX, DepositNewBalance(e, d), newNonce));
    Select(e.p, d.isActive, active, DepositOldLeaf(e, d))
  }

  predicate DepositChecks(e: Env, root: int, d: DepositWitness)
    requires e.p > 0
  {
    && IsFlag(e.p, d.isActive)
    && IsU64(d.amount)
    && (d.isActive == 1 ==>
          && d.pkX != 0 && d.amount != 0 && d.pkX != PAD_PK_X
          && (IsEmpty(d) == 0 ==> d.oldPkX == d.pkX)
          && (IsEmpty(d) == 1 ==> d.oldBalance == 0 && d.oldNonce == 0))
    && IsFlag(e.p, IsEmpty(d))
    && IsU64(DepositNewBalance(e, d))
    && Opens(e, DepositOldLeaf(e, d), d.index, d.siblings, root)
  }

  function DepositRoot(e: Env, d: DepositWitness): int
    requires e.p > 0 && IndexFits(e, d.index)
  {
    Fold(e, DepositNewLeaf(e, d), d.index, d.siblings)
  }

  function DepositAcc(e: Env, acc: int, d: DepositWitness): int
    requires e.p > 0
  {
    Select(e.p, d.isActive, e.hash([DOMAIN_DEP, acc, d.pkX, d.amount]), acc)
  }

  // ---------- tx.nr: apply_tx ----------

  function TxMessage(e: Env, t: TxWitness): int {
    e.hash([DOMAIN_TX, t.fromPkX, t.toField, t.amount, t.fromNonce, t.isWithdraw])
  }

  /** schnorr.nr `verify_sig`. */
  predicate VerifySig(e: Env, pkX: int, pkY: int, msg: int, sig: SigWitness)
    requires e.order > 0
  {
    && sig.sLo < U128 && sig.sHi < U128
    && (sig.sLo == 0 ==> sig.sHi != 0)
    && e.schnorr(pkX, pkY, msg, sig.rX, sig.rY, (sig.sLo + sig.sHi * U128) % e.order)
  }

  /** The signature actually checked: the padding one on inactive entries. */
  predicate TxSigOk(e: Env, t: TxWitness)
    requires e.p > 0 && e.order > 0
  {
    VerifySig(e,
      Select(e.p, t.isActive, t.fromPkX, PAD_PK_X),
      Select(e.p, t.isActive, t.fromPkY, PAD_PK_Y),
      Select(e.p, t.isActive, TxMessage(e, t), PAD_MSG),
      SigWitness(
        Select(e.p, t.isActive, t.sig.rX, PAD_R_X),
        Select(e.p, t.isActive, t.sig.rY, PAD_R_Y),
        Select(e.p, t.isActive, t.sig.sLo, PAD_S_LO),
        Select(e.p, t.isActive, t.sig.sHi, PAD_S_HI)))
  }

  function TxOldSender(e: Env, t: TxWitness): int {
    LeafValue(e, Account(t.fromPkX, t.fromBalance, t.fromNonce))
  }

  function TxDebited(e: Env, t: TxWitness): int {
    Sub(e.p, t.fromBalance, t.amount)
  }

  function TxSenderLeaf(e: Env, t: TxWitness): int
    requires e.p > 0
  {
    var newSender := LeafValue(e, Account(t.fromPkX, TxDebited(e, t), Add(e.p, t.fromNonce, 1)));
    Select(e.p, t.isActive, newSender, TxOldSender(e, t))
  }

  function TxRoot1(e: Env, t: TxWitness): int
    requires e.p > 0 && IndexFits(e, t.fromIndex)
  {
    Fold(e, TxSenderLeaf(e, t), t.fromIndex, t.fromSiblings)
  }

  function IsTransfer(e: Env, t: TxWitness): int
    requires e.p > 0
  {
    Mul(e.p, t.isActive, Sub(e.p, 1, t.isWithdraw))
  }

  function IsWithdrawal(e: Env, t: TxWitness): int
    requires e.p > 0
  {
    Mul(e.p, t.isActive, t.isWithdraw)
  }

  function TxCredited(e: Env, t: TxWitness): int {
    Add(e.p, t.toBalance, t.amount)
  }

  /** Withdrawals and padding carry the raw leaf in toBalance and keep it. */
  function TxOldRecipient(e: Env, t: TxWitness): int
    requires e.p > 0
  {
    Select(e.p, IsTransfer(e, t), LeafValue(e, Account(t.toField, t.toBalance, t.toNonce)), t.toBalance)
  }

  function TxNewRecipient(e: Env, t: TxWitness): int
    requires e.p > 0
  {
    Select(e.p, IsTransfer(e, t), LeafValue(e, Account(t.toField, TxCredited(e, t), t.toNonce)), t.toBalance)
  }

  predicate TxChecks(e: Env, root: int, t: TxWitness)
    requires e.p > 0 && e.order > 0
  {
    && IsFlag(e.p, t.isActive) && IsFlag(e.p, t.isWithdraw)
    && IsU64(t.amount)
    && TxSigOk(e, t)
    && (t.isActive == 1 ==>
          t.fromPkX != 0 && t.amount != 0 && t.fromPkX != PAD_PK_X && t.fromPkY % 2 == 0)
    && IsU64(Select(e.p, t.isActive, TxDebited(e, t), 0))
    && Opens(e, TxOldSender(e, t), t.fromIndex, t.fromSiblings, root)
    && IsFlag(e.p, IsTransfer(e, t)) && IsFlag(e.p, IsWithdrawal(e, t))
    && (IsTransfer(e, t) == 1 ==> t.toField != 0 && t.toField != PAD_PK_X)
    && IsU64(Select(e.p, IsTransfer(e, t), TxCredited(e, t), 0))
    && Opens(e, TxOldRecipient(e, t), t.toIndex, t.toSiblings, TxRoot1(e, t))
  }

  function TxRoot2(e: Env, t: TxWitness): int
    requires e.p > 0 && IndexFits(e, t.toIndex)
  {
    Fold(e, TxNewRecipient(e, t), t.toIndex, t.toSiblings)
  }

  function TxWdAcc(e: Env, acc: int, t: TxWitness): int
    requires e.p > 0
  {
    Select(e.p, IsWithdrawal(e, t), e.hash([DOMAIN_WD, acc, t.toField, t.amount]), acc)
  }

  function TxDaAcc(e: Env, acc: int, t: TxWitness): int
    requires e.p > 0
  {
    Select(e.p, t.isActive, e.hash([DOMAIN_DA, acc, TxMessage(e, t)]), acc)
  }

  // ---------- batch.nr ----------

  /** Root and deposit fold after the deposit loop; None if a check fails. */
  function AfterDeposits(e: Env, root: int, acc: int, ds: seq<DepositWitness>): Option<(int, int)>
    requires e.p > 0
    decreases |ds|
  {
    if ds == [] then Some((root, acc))
    else if DepositTyped(e, ds[0]) && DepositChecks(e, root, ds[0])
    then AfterDeposits(e, DepositRoot(e, ds[0]), DepositAcc(e, acc, ds[0]), ds[1..])
    else None
  }

  /** Root, withdrawal fold and DA fold after the transaction loop. */
  function AfterTxs(e: Env, root: int, wd: int, da: int, ts: seq<TxWitness>): Option<(int, int, int)>
    requires e.p > 0 && e.order > 0
    decreases |ts|
  {
    if ts == [] then Some((root, wd, da))
    else if TxTyped(e, ts[0]) && TxChecks(e, root, ts[0])
    then AfterTxs(e, TxRoot2(e, ts[0]), TxWdAcc(e, wd, ts[0]), TxDaAcc(e, da, ts[0]), ts[1..])
    else None
  }

  predicate Accepts(e: Env, pub: Public, w: Witness)
    requires e.p > 0 && e.order > 0
  {
    match AfterDeposits(e, pub.oldRoot, 0, w.deposits)
    case None => false
    case Some((root, dep)) =>
      match AfterTxs(e, root, 0, 0, w.txs)
      case None => false
      case Some((root2, wd, da)) =>
        root2 == pub.newRoot && dep == pub.depositHash && wd == pub.withdrawHash && da == pub.daCommitment
  }

  /** merkle.nr `compute_root`: the loop over little-endian index bits. */
  method ComputeRoot(e: Env, leaf: int, index: int, siblings: seq<int>) returns (root: int)
    requires IndexFits(e, index) && |siblings| == e.depth
    ensures root == Fold(e, leaf, index, siblings)
  {
    root := leaf;
    var rest: nat := index;
    for i := 0 to e.depth
      invariant Fold(e, root, rest, siblings[i..]) == Fold(e, leaf, index, siblings)
    {
      var bit := rest % 2;
      root := if bit == 0 then e.hash([root, siblings[i]]) else e.hash([siblings[i], root]);
      rest := rest / 2;
      assert siblings[i..][1..] == siblings[i + 1..];
    }
    assert siblings[e.depth..] == [];
  }

  /** batch.nr `batch`: two loops threading the root and three accumulators. */
  method Batch(e: Env, pub: Public, w: Witness) returns (ok: bool)
    requires e.p > 0 && e.order > 0
    ensures ok == Accepts(e, pub, w)
  {
    var root, depAcc := pub.oldRoot, 0;
    for i := 0 to |w.deposits|
      invariant AfterDeposits(e, root, depAcc, w.deposits[i..]) == AfterDeposits(e, pub.oldRoot, 0, w.deposits)
    {
      var d := w.deposits[i];
      assert w.deposits[i..][0] == d && w.deposits[i..][1..] == w.deposits[i + 1..];
      if !DepositTyped(e, d) || !DepositChecks(e, root, d) { return false; }
      root, depAcc := DepositRoot(e, d), DepositAcc(e, depAcc, d);
    }
    ghost var mid := root;
    var wdAcc, daAcc := 0, 0;
    for i := 0 to |w.txs|
      invariant AfterTxs(e, root, wdAcc, daAcc, w.txs[i..]) == AfterTxs(e, mid, 0, 0, w.txs)
    {
      var t := w.txs[i];
      assert w.txs[i..][0] == t && w.txs[i..][1..] == w.txs[i + 1..];
      if !TxTyped(e, t) || !TxChecks(e, root, t) { return false; }
      root, wdAcc, daAcc := TxRoot2(e, t), TxWdAcc(e, wdAcc, t), TxDaAcc(e, daAcc, t);
    }
    ok := root == pub.newRoot && depAcc == pub.depositHash
          && wdAcc == pub.withdrawHash && daAcc == pub.daCommitment;
  }
}
