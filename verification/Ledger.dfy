/** The reference ledger: what a batch of deposits and spends means for the
    account table, in plain integers, with no hash, path or field selector. */
module Ledger {
  import opened Field
  import opened Hashing
  import opened Merkle

  /** y coordinate of the signer's key, and the signature (R, s). */
  datatype Auth = Auth(pkY: int, rX: int, rY: int, s: int)

  datatype Op =
    | Credit(slot: nat, pk: int, amount: int)
      /** A transfer to account `to` at `toSlot`, or an exit to L1 address `to`. */
    | Spend(slot: nat, pk: int, nonce: int, amount: int, exit: bool, to: int, toSlot: nat, auth: Auth)

  function Balance(t: Table, i: nat): int {
    if i in t then t[i].balance else 0
  }

  function Nonce(t: Table, i: nat): int {
    if i in t then t[i].nonce else 0
  }

  predicate AccountOk(e: Env, a: Account) {
    && 0 < a.pk < e.p && a.pk != PAD_PK_X
    && IsU64(a.balance)
    && 0 <= a.nonce < e.p
  }

  /** What the circuit keeps of a table. Keys need not be distinct here. */
  predicate TableOk(e: Env, t: Table) {
    SlotsInRange(e, t) && forall i :: i in t ==> AccountOk(e, t[i])
  }

  /** Nonces are field elements in the circuit: they wrap at the modulus. */
  function NextNonce(e: Env, n: int): int {
    if n + 1 == e.p then 0 else n + 1
  }

  function BitOf(b: bool): int {
    if b then 1 else 0
  }

  /** The message a spender signs. */
  function MessageInput(pk: int, to: int, amount: int, nonce: int, exit: bool): seq<int> {
    [DOMAIN_TX, pk, to, amount, nonce, BitOf(exit)]
  }

  function Message(e: Env, op: Op): int
    requires op.Spend?
  {
    e.hash(MessageInput(op.pk, op.to, op.amount, op.nonce, op.exit))
  }

  function Debited(e: Env, t: Table, op: Op): Table
    requires op.Spend? && op.slot in t
  {
    t[op.slot := Account(t[op.slot].pk, t[op.slot].balance - op.amount, NextNonce(e, t[op.slot].nonce))]
  }

  /** The ledger allows op in table t. */
  predicate Enabled(e: Env, t: Table, op: Op) {
    0 < op.amount < U64 && op.slot < Pow2(e.depth) &&
    match op
    case Credit(slot, pk, amount) =>
      && 0 < pk < e.p && pk != PAD_PK_X
      && (slot in t ==> t[slot].pk == pk)
      && Balance(t, slot) + amount < U64
    case Spend(slot, pk, nonce, amount, exit, to, toSlot, auth) =>
      && slot in t && t[slot].pk == pk && t[slot].nonce == nonce
      && amount <= t[slot].balance
      && auth.pkY % 2 == 0
      && e.schnorr(pk, auth.pkY, Message(e, op), auth.rX, auth.rY, auth.s)
      && (!exit ==>
            var t1 := Debited(e, t, op);
            && toSlot in t1 && t1[toSlot].pk == to
            && t1[toSlot].balance + amount < U64)
  }

  /** The table after op. */
  function Exec(e: Env, t: Table, op: Op): Table
    requires Enabled(e, t, op)
  {
    match op
    case Credit(slot, pk, amount) =>
      t[slot := Account(pk, Balance(t, slot) + amount, Nonce(t, slot))]
    case Spend(_, _, _, amount, exit, _, toSlot, _) =>
      var t1 := Debited(e, t, op);
      if exit then t1
      else t1[toSlot := Account(t1[toSlot].pk, t1[toSlot].balance + amount, t1[toSlot].nonce)]
  }

  predicate Legal(e: Env, t: Table, ops: seq<Op>)
    decreases |ops|
  {
    ops == [] || (Enabled(e, t, ops[0]) && Legal(e, Exec(e, t, ops[0]), ops[1..]))
  }

  function Run(e: Env, t: Table, ops: seq<Op>): Table
    requires Legal(e, t, ops)
    decreases |ops|
  {
    if ops == [] then t else Run(e, Exec(e, t, ops[0]), ops[1..])
  }

  // ---------- what a batch publishes ----------

  function DepositOf(op: Op): seq<(int, int)> {
    if op.Credit? then [(op.pk, op.amount)] else []
  }

  function ExitOf(op: Op): seq<(int, int)> {
    if op.Spend? && op.exit then [(op.to, op.amount)] else []
  }

  function MessageOf(e: Env, op: Op): seq<int> {
    if op.Spend? then [Message(e, op)] else []
  }

  /** (pk, amount) of the credits, in order. */
  function Deposits(ops: seq<Op>): seq<(int, int)> {
    if ops == [] then [] else DepositOf(ops[0]) + Deposits(ops[1..])
  }

  /** (destination, amount) of the exits, in order. */
  function Exits(ops: seq<Op>): seq<(int, int)> {
    if ops == [] then [] else ExitOf(ops[0]) + Exits(ops[1..])
  }

  /** Signed messages of the spends, in order. */
  function Messages(e: Env, ops: seq<Op>): seq<int> {
    if ops == [] then [] else MessageOf(e, ops[0]) + Messages(e, ops[1..])
  }

  function Amounts(list: seq<(int, int)>): int {
    if list == [] then 0 else list[0].1 + Amounts(list[1..])
  }

  function Spends(ops: seq<Op>): nat {
    if ops == [] then 0 else (if ops[0].Spend? then 1 else 0) + Spends(ops[1..])
  }

  // ---------- sequences of operations ----------

  lemma {:induction false} RunAppend(e: Env, t: Table, xs: seq<Op>, ys: seq<Op>)
    requires Legal(e, t, xs) && Legal(e, Run(e, t, xs), ys)
    ensures Legal(e, t, xs + ys)
    ensures Run(e, t, xs + ys) == Run(e, Run(e, t, xs), ys)
    decreases |xs|
  {
    if xs == [] {
      assert xs + ys == ys;
    } else {
      assert (xs + ys)[1..] == xs[1..] + ys;
      RunAppend(e, Exec(e, t, xs[0]), xs[1..], ys);
    }
  }

  lemma {:induction false} PublishedAppend(e: Env, xs: seq<Op>, ys: seq<Op>)
    ensures Deposits(xs + ys) == Deposits(xs) + Deposits(ys)
    ensures Exits(xs + ys) == Exits(xs) + Exits(ys)
    ensures Messages(e, xs + ys) == Messages(e, xs) + Messages(e, ys)
    ensures Spends(xs + ys) == Spends(xs) + Spends(ys)
    decreases |xs|
  {
    if xs == [] {
      assert xs + ys == ys;
    } else {
      assert (xs + ys)[0] == xs[0] && (xs + ys)[1..] == xs[1..] + ys;
      PublishedAppend(e, xs[1..], ys);
      assert Deposits(xs + ys) == DepositOf(xs[0]) + (Deposits(xs[1..]) + Deposits(ys));
      assert Exits(xs + ys) == ExitOf(xs[0]) + (Exits(xs[1..]) + Exits(ys));
      assert Messages(e, xs + ys) == MessageOf(e, xs[0]) + (Messages(e, xs[1..]) + Messages(e, ys));
    }
  }

  lemma {:induction false} AmountsAppend(xs: seq<(int, int)>, ys: seq<(int, int)>)
    ensures Amounts(xs + ys) == Amounts(xs) + Amounts(ys)
    decreases |xs|
  {
    if xs == [] {
      assert xs + ys == ys;
    } else {
      assert (xs + ys)[1..] == xs[1..] + ys;
      AmountsAppend(xs[1..], ys);
    }
  }

  // ---------- totals ----------

  /** Balances of the first n slots. */
  function SumBalances(t: Table, n: nat): int {
    if n == 0 then 0 else SumBalances(t, n - 1) + Balance(t, n - 1)
  }

  function SumNonces(t: Table, n: nat): int {
    if n == 0 then 0 else SumNonces(t, n - 1) + Nonce(t, n - 1)
  }

  function TotalBalance(e: Env, t: Table): int {
    SumBalances(t, Pow2(e.depth))
  }

  function TotalNonce(e: Env, t: Table): int {
    SumNonces(t, Pow2(e.depth))
  }

  lemma {:induction false} SumUpdate(t: Table, slot: nat, a: Account, n: nat)
    ensures SumBalances(t[slot := a], n)
         == SumBalances(t, n) + if slot < n then a.balance - Balance(t, slot) else 0
    ensures SumNonces(t[slot := a], n)
         == SumNonces(t, n) + if slot < n then a.nonce - Nonce(t, slot) else 0
  {
    if n != 0 { SumUpdate(t, slot, a, n - 1); }
  }

  /** No single slot exceeds the total. */
  lemma {:induction false} SlotWithinTotal(e: Env, t: Table, slot: nat, n: nat)
    requires TableOk(e, t)
    ensures 0 <= SumBalances(t, n) && 0 <= SumNonces(t, n)
    ensures slot < n ==> Balance(t, slot) <= SumBalances(t, n) && Nonce(t, slot) <= SumNonces(t, n)
  {
    if n != 0 { SlotWithinTotal(e, t, slot, n - 1); }
  }

  /** One operation keeps the table sound and moves exactly its own value. */
  lemma {:induction false} ExecKeeps(e: Env, t: Table, op: Op)
    requires ValidEnv(e) && TableOk(e, t) && Enabled(e, t, op)
    ensures TableOk(e, Exec(e, t, op))
    ensures TotalBalance(e, Exec(e, t, op))
         == TotalBalance(e, t) + (if op.Credit? then op.amount else if op.exit then -op.amount else 0)
  {
    var n := Pow2(e.depth);
    match op
    case Credit(slot, pk, amount) =>
      SumUpdate(t, slot, Account(pk, Balance(t, slot) + amount, Nonce(t, slot)), n);
    case Spend(slot, pk, nonce, amount, exit, to, toSlot, auth) =>
      var t1 := Debited(e, t, op);
      SumUpdate(t, slot, t1[slot], n);
      if !exit {
        SumUpdate(t1, toSlot, Account(t1[toSlot].pk, t1[toSlot].balance + amount, t1[toSlot].nonce), n);
      }
  }

  /** Value conservation over any legal sequence. */
  lemma {:induction false} Conservation(e: Env, t: Table, ops: seq<Op>)
    requires ValidEnv(e) && TableOk(e, t) && Legal(e, t, ops)
    ensures TableOk(e, Run(e, t, ops))
    ensures TotalBalance(e, Run(e, t, ops))
         == TotalBalance(e, t) + Amounts(Deposits(ops)) - Amounts(Exits(ops))
    decreases |ops|
  {
    if ops != [] {
      ExecKeeps(e, t, ops[0]);
      Conservation(e, Exec(e, t, ops[0]), ops[1..]);
      AmountsAppend(DepositOf(ops[0]), Deposits(ops[1..]));
      AmountsAppend(ExitOf(ops[0]), Exits(ops[1..]));
    }
  }

  // ---------- strict progress ----------

  /** While the nonces cannot reach the modulus, each spend raises the nonce
      total by one and nothing else moves it. */
  lemma {:induction false} NoncesGrow(e: Env, t: Table, ops: seq<Op>)
    requires ValidEnv(e) && TableOk(e, t) && Legal(e, t, ops)
    requires TotalNonce(e, t) + Spends(ops) < e.p
    ensures TotalNonce(e, Run(e, t, ops)) == TotalNonce(e, t) + Spends(ops)
    decreases |ops|
  {
    if ops != [] {
      var op, n := ops[0], Pow2(e.depth);
      ExecKeeps(e, t, op);
      SlotWithinTotal(e, t, op.slot, n);
      match op {
        case Credit(slot, pk, amount) =>
          SumUpdate(t, slot, Account(pk, Balance(t, slot) + amount, Nonce(t, slot)), n);
        case Spend(slot, pk, nonce, amount, exit, to, toSlot, auth) =>
          var t1 := Debited(e, t, op);
          SumUpdate(t, slot, t1[slot], n);
          if !exit {
            SumUpdate(t1, toSlot, Account(t1[toSlot].pk, t1[toSlot].balance + amount, t1[toSlot].nonce), n);
          }
      }
      NoncesGrow(e, Exec(e, t, op), ops[1..]);
    }
  }

  /** The order in which tables progress: nonce total, then balance total. */
  predicate Before(e: Env, t: Table, u: Table) {
    || TotalNonce(e, t) < TotalNonce(e, u)
    || (TotalNonce(e, t) == TotalNonce(e, u) && TotalBalance(e, t) < TotalBalance(e, u))
  }

  lemma {:induction false} OnlyCredits(ops: seq<Op>)
    requires Spends(ops) == 0 && forall i :: 0 <= i < |ops| ==> ops[i].amount > 0
    ensures Amounts(Exits(ops)) == 0
    ensures Amounts(Deposits(ops)) >= 0 && (ops != [] ==> Amounts(Deposits(ops)) > 0)
  {
    if ops != [] {
      OnlyCredits(ops[1..]);
      AmountsAppend(DepositOf(ops[0]), Deposits(ops[1..]));
      assert Exits(ops) == Exits(ops[1..]);
    }
  }

  lemma {:induction false} LegalAmounts(e: Env, t: Table, ops: seq<Op>)
    requires Legal(e, t, ops)
    ensures forall i :: 0 <= i < |ops| ==> 0 < ops[i].amount < U64
    decreases |ops|
  {
    if ops != [] {
      LegalAmounts(e, Exec(e, t, ops[0]), ops[1..]);
      forall i | 0 <= i < |ops| ensures 0 < ops[i].amount < U64 {
        if i > 0 { assert ops[i] == ops[1..][i - 1]; }
      }
    }
  }

  /** A legal sequence with at least one operation strictly progresses; an empty
      one changes nothing. */
  lemma {:induction false} Progress(e: Env, t: Table, ops: seq<Op>)
    requires ValidEnv(e) && TableOk(e, t) && Legal(e, t, ops)
    requires TotalNonce(e, t) + Spends(ops) < e.p
    ensures if ops == [] then Run(e, t, ops) == t else Before(e, t, Run(e, t, ops))
  {
    NoncesGrow(e, t, ops);
    Conservation(e, t, ops);
    LegalAmounts(e, t, ops);
    if Spends(ops) == 0 { OnlyCredits(ops); }
  }
}
