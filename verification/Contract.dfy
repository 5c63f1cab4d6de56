/** The custody contract (contracts/rollup): escrow, FIFO deposit queue, root
    register, batch submission with on-chain recomputed folds. */
module Contract {
  import opened Field
  import opened Hashing
  import opened Circuit
  import opened Soundness

  const MAX_WITHDRAWALS := 8
  const PROOF_BYTES := 14592

  /** env: hash and field; dSlots, nSlots: the circuit shape the verification key
      fixes; self: the contract's own address; strkey: the two 28-byte halves of
      an address. An address is its index in the token's balance list. */
  datatype Config = Config(e: Env, dSlots: nat, nSlots: nat, self: nat, strkey: nat -> (int, int))

  datatype PendingDeposit = PendingDeposit(pk: nat, amount: nat)

  datatype Withdrawal = Withdrawal(dest: nat, amount: int)

  /** An ideal proof: its length, and the witness behind it for each list of public
      inputs it passes for. */
  datatype Proof = Proof(bytes: nat, wits: map<Public, Witness>)

  datatype Envelope = Envelope(
    newRoot: int,
    depositCount: nat,
    withdrawals: seq<Withdrawal>,
    daCommitment: int,
    proof: Proof)

  datatype RollupError =
    | InvalidProofLength
    | VerificationFailed
    | InvalidAmount
    | NonCanonicalField
    | TooManyWithdrawals
    | NotEnoughDeposits
    | ReservedPaddingPk

  /** Trapped: the host aborts the call and rolls everything back. */
  datatype Reply<+T> = Done(value: T) | Refused(error: RollupError) | Trapped

  datatype State = State(
    root: int,
    batchNum: nat,
    depHead: nat,
    depTail: nat,
    queue: map<nat, PendingDeposit>,
    tokens: seq<nat>)

  ghost predicate ValidConfig(c: Config) {
    ValidEnv(c.e)
  }

  /** Storage holds exactly the entries between head and tail. */
  ghost predicate ValidState(c: Config, s: State) {
    && c.self < |s.tokens|
    && s.depHead <= s.depTail
    && (forall i :: i in s.queue <==> s.depHead <= i < s.depTail)
  }

  // ---------- publics.rs ----------

  /** `is_canonical_field` on the numeric value of a 32-byte word. */
  predicate IsCanonical(c: Config, word: int) {
    word < c.e.p
  }

  /** `address_to_field`. */
  function AddressToField(c: Config, a: nat): nat {
    c.e.hash([DOMAIN_ADDR, c.strkey(a).0, c.strkey(a).1])
  }

  // ---------- deposit ----------

  function Transfer(tokens: seq<nat>, from: nat, to: nat, amount: nat): Option<seq<nat>>
    requires from < |tokens| && to < |tokens|
  {
    if tokens[from] < amount then None
    else
      var debited := tokens[from := tokens[from] - amount];
      Some(debited[to := debited[to] + amount])
  }

  /** State and reply of `deposit`. */
  function DepositSpec(c: Config, s: State, from: nat, pk: nat, amount: int): (State, Reply<nat>)
    requires from < |s.tokens| && c.self < |s.tokens|
  {
    if amount <= 0 || amount >= U64 then (s, Refused(InvalidAmount))
    else if !IsCanonical(c, pk) || pk == 0 then (s, Refused(NonCanonicalField))
    else if pk == PAD_PK_X then (s, Refused(ReservedPaddingPk))
    else
      match Transfer(s.tokens, from, c.self, amount)
      case None => (s, Trapped)
      case Some(tokens) =>
        (s.(tokens := tokens, depTail := s.depTail + 1, queue := s.queue[s.depTail := PendingDeposit(pk, amount)]),
         Done(s.depTail))
  }

  // ---------- submit_batch ----------

  /** (pk, amount) of the queue entries head, head + 1, ... */
  function QueuePairs(queue: map<nat, PendingDeposit>, head: nat, count: nat): (r: seq<(int, int)>)
    requires forall i :: head <= i < head + count ==> i in queue
    ensures |r| == count
    decreases count
  {
    if count == 0 then []
    else [(queue[head].pk, queue[head].amount)] + QueuePairs(queue, head + 1, count - 1)
  }

  /** (address field, amount) of the payouts. */
  function PayoutPairs(c: Config, ws: seq<Withdrawal>): seq<(int, int)> {
    if ws == [] then [] else [(AddressToField(c, ws[0].dest), ws[0].amount)] + PayoutPairs(c, ws[1..])
  }

  predicate AmountsOk(ws: seq<Withdrawal>) {
    forall i :: 0 <= i < |ws| ==> 0 < ws[i].amount < U64
  }

  predicate DestsKnown(s: State, ws: seq<Withdrawal>) {
    forall i :: 0 <= i < |ws| ==> ws[i].dest < |s.tokens|
  }

  /** Token transfers out of escrow, in order; None if one of them fails. */
  function PayAll(self: nat, tokens: seq<nat>, ws: seq<Withdrawal>): (r: Option<seq<nat>>)
    requires self < |tokens| && AmountsOk(ws) && forall i :: 0 <= i < |ws| ==> ws[i].dest < |tokens|
    ensures r.Some? ==> |r.value| == |tokens|
    decreases |ws|
  {
    if ws == [] then Some(tokens)
    else match Transfer(tokens, self, ws[0].dest, ws[0].amount)
         case None => None
         case Some(next) => PayAll(self, next, ws[1..])
  }

  /** The public inputs the contract assembles from its own state and the envelope. */
  function Publics(c: Config, s: State, env: Envelope): Public
    requires forall i :: s.depHead <= i < s.depHead + env.depositCount ==> i in s.queue
  {
    Public(
      s.root,
      env.newRoot,
      FoldPairs(c.e, DOMAIN_DEP, 0, QueuePairs(s.queue, s.depHead, env.depositCount)),
      FoldPairs(c.e, DOMAIN_WD, 0, PayoutPairs(c, env.withdrawals)),
      env.daCommitment)
  }

  /** A witness of the circuit's shape that satisfies the batch relation. */
  predicate Satisfies(c: Config, pub: Public, w: Witness)
    requires c.e.p > 0 && c.e.order > 0
  {
    |w.deposits| == c.dSlots && |w.txs| == c.nSlots && Accepts(c.e, pub, w)
  }

  /** The ideal verifier: a proof is accepted for some inputs exactly when there is a
      satisfying witness for these inputs behind it. */
  predicate Verifies(c: Config, pub: Public, proof: Proof)
    requires c.e.p > 0 && c.e.order > 0
  {
    pub in proof.wits && Satisfies(c, pub, proof.wits[pub])
  }

  /** The witness behind an envelope's proof for the inputs the contract assembles. */
  ghost function Behind(c: Config, s: State, env: Envelope): Witness {
    if (forall i :: s.depHead <= i < s.depHead + env.depositCount ==> i in s.queue)
       && Publics(c, s, env) in env.proof.wits
    then env.proof.wits[Publics(c, s, env)]
    else Witness([], [])
  }

  function Dequeued(queue: map<nat, PendingDeposit>, head: nat, count: nat): map<nat, PendingDeposit> {
    map i | i in queue && !(head <= i < head + count) :: queue[i]
  }

  ghost predicate CanSubmit(c: Config, s: State, env: Envelope) {
    ValidConfig(c) && ValidState(c, s) && DestsKnown(s, env.withdrawals)
  }

  /** The checks of `submit_batch` before it writes, in order. */
  ghost function Verdict(c: Config, s: State, env: Envelope): Reply<()>
    requires CanSubmit(c, s, env)
  {
    if env.proof.bytes != PROOF_BYTES then Refused(InvalidProofLength)
    else if |env.withdrawals| > MAX_WITHDRAWALS then Refused(TooManyWithdrawals)
    else if s.depHead + env.depositCount > s.depTail then Refused(NotEnoughDeposits)
    else if !AmountsOk(env.withdrawals) then Refused(InvalidAmount)
    else if !IsCanonical(c, s.root) || !IsCanonical(c, env.newRoot) || !IsCanonical(c, env.daCommitment) then Trapped
    else if !Verifies(c, Publics(c, s, env), env.proof) then Refused(VerificationFailed)
    else Done(())
  }

  /** The writes of `submit_batch`: dequeue, advance the root, pay out. */
  function LandSpec(c: Config, s: State, env: Envelope): (State, Reply<()>)
    requires c.self < |s.tokens| && AmountsOk(env.withdrawals) && DestsKnown(s, env.withdrawals)
  {
    match PayAll(c.self, s.tokens, env.withdrawals)
    case None => (s, Trapped)
    case Some(tokens) =>
      (State(env.newRoot, s.batchNum + 1, s.depHead + env.depositCount, s.depTail,
             Dequeued(s.queue, s.depHead, env.depositCount), tokens),
       Done(()))
  }

  /** State and reply of `submit_batch`. */
  ghost function SubmitSpec(c: Config, s: State, env: Envelope): (State, Reply<()>)
    requires CanSubmit(c, s, env)
  {
    if Verdict(c, s, env).Done? then LandSpec(c, s, env) else (s, Verdict(c, s, env))
  }

  // ---------- the contract object ----------

  lemma {:induction false} PairsNext(e: Env, domain: int, acc: int, x: (int, int), rest: seq<(int, int)>)
    ensures FoldPairs(e, domain, acc, [x] + rest) == FoldPairs(e, domain, e.hash([domain, acc, x.0, x.1]), rest)
  {
    assert ([x] + rest)[1..] == rest;
  }

  class Rollup {
    const c: Config
    var root: int
    var batchNum: nat
    var depHead: nat
    var depTail: nat
    var queue: map<nat, PendingDeposit>
    var tokens: seq<nat>

    ghost function View(): State
      reads this
    {
      State(root, batchNum, depHead, depTail, queue, tokens)
    }

    ghost predicate Valid()
      reads this
    {
      ValidConfig(c) && ValidState(c, View())
    }

    /** `__constructor` over a token ledger and a genesis root. */
    constructor (c: Config, genesisRoot: int, tokens: seq<nat>)
      requires ValidConfig(c) && c.self < |tokens|
      ensures Valid() && this.c == c
      ensures View() == State(genesisRoot, 0, 0, 0, map[], tokens)
    {
      this.c := c;
      root, batchNum, depHead, depTail, queue := genesisRoot, 0, 0, 0, map[];
      this.tokens := tokens;
    }

    /** `deposit`; `from` has authorised the call, so it is not the contract. */
    method Deposit(from: nat, pk: nat, amount: int) returns (reply: Reply<nat>)
      requires Valid() && from < |tokens| && from != c.self
      modifies this
      ensures Valid()
      ensures (View(), reply) == DepositSpec(c, old(View()), from, pk, amount)
    {
      if amount <= 0 || amount >= U64 { return Refused(InvalidAmount); }
      if !IsCanonical(c, pk) || pk == 0 { return Refused(NonCanonicalField); }
      if pk == PAD_PK_X { return Refused(ReservedPaddingPk); }
      var moved := Transfer(tokens, from, c.self, amount);
      if moved.None? { return Trapped; }
      tokens := moved.value;
      var seqNo := EnqueueDeposit(PendingDeposit(pk, amount));
      reply := Done(seqNo);
    }

    /** storage.rs `enqueue_deposit`. */
    method EnqueueDeposit(dep: PendingDeposit) returns (tail: nat)
      requires Valid()
      modifies this`queue, this`depTail
      ensures Valid() && tail == old(depTail) && depTail == tail + 1 && queue == old(queue)[tail := dep]
    {
      tail := depTail;
      queue := queue[tail := dep];
      depTail := tail + 1;
    }

    /** storage.rs `dequeue_deposits`: remove entry by entry, then move the head. */
    method DequeueDeposits(count: nat)
      requires Valid() && depHead + count <= depTail
      modifies this`queue, this`depHead
      ensures Valid() && depHead == old(depHead) + count
      ensures queue == Dequeued(old(queue), old(depHead), count)
    {
      var head := depHead;
      ghost var all := queue;
      for i := head to head + count
        invariant depHead == head
        invariant queue == Dequeued(all, head, i - head)
      {
        queue := map k | k in queue && k != i :: queue[k];
      }
      depHead := head + count;
    }

    /** The deposit fold over the queue prefix. */
    method FoldQueue(count: nat) returns (acc: int)
      requires Valid() && depHead + count <= depTail
      ensures acc == FoldPairs(c.e, DOMAIN_DEP, 0, QueuePairs(queue, depHead, count))
    {
      acc := 0;
      for i := depHead to depHead + count
        invariant FoldPairs(c.e, DOMAIN_DEP, acc, QueuePairs(queue, i, depHead + count - i))
               == FoldPairs(c.e, DOMAIN_DEP, 0, QueuePairs(queue, depHead, count))
      {
        var dep := queue[i];
        PairsNext(c.e, DOMAIN_DEP, acc, (dep.pk, dep.amount), QueuePairs(queue, i + 1, depHead + count - i - 1));
        acc := c.e.hash([DOMAIN_DEP, acc, dep.pk, dep.amount]);
      }
    }

    /** The withdrawal fold over the envelope; None on an amount out of range. */
    method FoldPayouts(ws: seq<Withdrawal>) returns (acc: Option<int>)
      ensures acc == if AmountsOk(ws) then Some(FoldPairs(c.e, DOMAIN_WD, 0, PayoutPairs(c, ws))) else None
    {
      var a := 0;
      for i := 0 to |ws|
        invariant forall k :: 0 <= k < i ==> 0 < ws[k].amount < U64
        invariant FoldPairs(c.e, DOMAIN_WD, a, PayoutPairs(c, ws[i..]))
                  == FoldPairs(c.e, DOMAIN_WD, 0, PayoutPairs(c, ws))
      {
        if ws[i].amount <= 0 || ws[i].amount >= U64 { return None; }
        var dest := AddressToField(c, ws[i].dest);
        assert ws[i..][1..] == ws[i + 1..];
        PairsNext(c.e, DOMAIN_WD, a, (dest, ws[i].amount), PayoutPairs(c, ws[i + 1..]));
        a := c.e.hash([DOMAIN_WD, a, dest, ws[i].amount]);
      }
      assert ws[|ws|..] == [];
      return Some(a);
    }

    /** The payout loop of `submit_batch`; false as soon as a transfer traps. */
    method PayOut(ws: seq<Withdrawal>) returns (ok: bool)
      requires c.self < |tokens| && AmountsOk(ws) && DestsKnown(View(), ws)
      modifies this`tokens
      ensures |tokens| == old(|tokens|)
      ensures ok <==> PayAll(c.self, old(tokens), ws).Some?
      ensures ok ==> tokens == PayAll(c.self, old(tokens), ws).value
    {
      ghost var all := PayAll(c.self, tokens, ws);
      for i := 0 to |ws|
        invariant |tokens| == old(|tokens|)
        invariant PayAll(c.self, tokens, ws[i..]) == all
      {
        assert ws[i..][1..] == ws[i + 1..];
        var moved := Transfer(tokens, c.self, ws[i].dest, ws[i].amount);
        if moved.None? { return false; }
        tokens := moved.value;
      }
      assert ws[|ws|..] == [];
      ok := true;
    }

    /** The checks of `submit_batch`, with both folds recomputed on chain. */
    method CheckBatch(env: Envelope) returns (verdict: Reply<()>)
      requires Valid() && DestsKnown(View(), env.withdrawals)
      ensures verdict == Verdict(c, View(), env)
    {
      if env.proof.bytes != PROOF_BYTES { return Refused(InvalidProofLength); }
      if |env.withdrawals| > MAX_WITHDRAWALS { return Refused(TooManyWithdrawals); }
      if depHead + env.depositCount > depTail { return Refused(NotEnoughDeposits); }
      var depositHash := FoldQueue(env.depositCount);
      var withdrawHash := FoldPayouts(env.withdrawals);
      if withdrawHash.None? { return Refused(InvalidAmount); }
      if !IsCanonical(c, root) || !IsCanonical(c, env.newRoot) || !IsCanonical(c, env.daCommitment) { return Trapped; }
      var pis := Public(root, env.newRoot, depositHash, withdrawHash.value, env.daCommitment);
      if !Verifies(c, pis, env.proof) { return Refused(VerificationFailed); }
      verdict := Done(());
    }

    /** The state transition; the host undoes every write of a call that traps. */
    method Land(env: Envelope) returns (reply: Reply<()>)
      requires Valid() && AmountsOk(env.withdrawals) && DestsKnown(View(), env.withdrawals)
      requires depHead + env.depositCount <= depTail
      modifies this
      ensures Valid()
      ensures (View(), reply) == LandSpec(c, old(View()), env)
    {
      var prior := (root, batchNum, depHead, queue, tokens);
      DequeueDeposits(env.depositCount);
      root := env.newRoot;
      batchNum := batchNum + 1;
      var paid := PayOut(env.withdrawals);
      if !paid {
        root, batchNum, depHead, queue, tokens := prior.0, prior.1, prior.2, prior.3, prior.4;
        return Trapped;
      }
      reply := Done(());
    }

    /** `submit_batch`. */
    method SubmitBatch(env: Envelope) returns (reply: Reply<()>)
      requires Valid() && DestsKnown(View(), env.withdrawals)
      modifies this
      ensures Valid()
      ensures (View(), reply) == SubmitSpec(c, old(View()), env)
    {
      reply := CheckBatch(env);
      if reply.Done? { reply := Land(env); }
    }
  }
}
