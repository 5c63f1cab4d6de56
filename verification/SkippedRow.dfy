/** The failing input behind NinthWithdrawalEvicts, written out: nine funded
    accounts each submit a withdrawal, the ninth also a transfer. Every submission
    is stored; the tick that follows evicts the last row. */
module SkippedRow {
  import opened Field
  import opened Hashing
  import opened Merkle
  import opened Ledger
  import opened Circuit
  import opened Trees
  import opened Completeness
  import opened Contract
  import opened Database
  import opened Eviction
  import opened Commands
  import opened Admission

  /** Accounts 1 to 9, each with balance 2 and nonce 0. */
  function Nine(): Table {
    map i: nat | i < 9 && Funded(i) :: Account(i + 1, 2, 0)
  }

  predicate Funded(i: nat) {
    i < 9
  }

  function SenderOf(i: nat): nat {
    if i < 9 then i + 1 else 9
  }

  /** Ten signed rows: accounts 1 to 9 withdraw 1 each, then account 9 sends 1 to
      account 1. */
  predicate TenRows(c: Config, txs: seq<StoredTx>)
    requires c.e.order > 0
  {
    && |txs| == 10 && txs[9].toField == 1
    && forall i :: 0 <= i < 10 ==>
         && txs[i].fromPkX == SenderOf(i) && txs[i].amount == 1 && txs[i].nonce == (if i < 9 then 0 else 1)
         && (txs[i].isWithdraw <==> i < 9) && Typed(c.e, txs[i])
  }

  function Rows(txs: seq<StoredTx>): seq<MempoolRow> {
    seq(|txs|, i requires 0 <= i < |txs| => MempoolRow(txs[i], TxPending, None))
  }

  /** Any tables with these accounts, once these rows have been stored. */
  function Queued(db: Db, txs: seq<StoredTx>): Db {
    db.(leaves := Nine(), mempool := Rows(txs))
  }

  /** The submission w is the wire form of the row tx. */
  predicate Wired(c: Config, w: WireTx, tx: StoredTx)
    requires c.e.p > 0 && c.e.order > 0
  {
    && ParseSender(c.e, w) == Ok((tx.fromPkX, tx.fromPkY, tx.amount)) && ParseTo(c, w.to) == Ok((tx.toField, tx.dest))
    && ParseSigned(c.e, w, tx.fromPkX, tx.fromPkY, tx.amount, tx.toField, tx.dest) == Ok(tx)
  }

  function Numbered(txs: seq<StoredTx>, i: nat): seq<Candidate>
    requires i <= |txs|
  {
    seq(|txs| - i, k requires 0 <= k < |txs| - i => Candidate(i + k, txs[i + k]))
  }

  // ---------- the accounts ----------

  lemma {:induction false} Roomy(depth: nat)
    requires depth >= 4
    ensures Pow2(depth) >= 16
  {
    if depth > 4 { Roomy(depth - 1); } else { assert Pow2(2) == 4; }
  }

  lemma {:induction false} NineWellFormed(e: Env)
    requires ValidEnv(e) && e.depth >= 4
    ensures WellFormed(e, Nine())
  {
    Roomy(e.depth);
  }

  lemma {:induction false} NineFound(e: Env, pk: nat)
    requires e.depth >= 4 && 1 <= pk <= 9
    ensures Find(e, Nine(), pk) == Some(pk - 1)
  {
    Roomy(e.depth);
    assert Funded(pk - 1) && Nine()[pk - 1].pk == pk;
  }

  lemma {:induction false} NineTotal(n: nat)
    ensures SumBalances(Nine(), n) == 2 * (if n <= 9 then n else 9)
  {
    if n > 0 { NineTotal(n - 1); }
  }

  // ---------- the rows ----------

  lemma {:induction false} AllCandidates(txs: seq<StoredTx>, i: nat, limit: nat)
    requires i <= |txs| && limit >= |txs| - i
    ensures PendingTxs(Rows(txs), i, limit) == Numbered(txs, i)
    decreases |txs| - i
  {
    if i < |txs| {
      AllCandidates(txs, i + 1, limit - 1);
      assert Numbered(txs, i) == [Candidate(i, txs[i])] + Numbered(txs, i + 1);
    }
  }

  lemma {:induction false} LiveIsOf(txs: seq<StoredTx>, pk: int, i: nat)
    requires i <= |txs|
    ensures LiveTxs(Rows(txs), pk, i) == Of(txs[i..], pk)
    decreases |txs| - i
  {
    if i < |txs| {
      LiveIsOf(txs, pk, i + 1);
      assert txs[i..][0] == txs[i] && txs[i..][1..] == txs[i + 1..];
    }
  }

  lemma {:induction false} NoneOf(txs: seq<StoredTx>, pk: int)
    requires forall k :: 0 <= k < |txs| ==> txs[k].fromPkX != pk
    ensures Of(txs, pk) == []
  {
    if txs != [] { NoneOf(txs[1..], pk); }
  }

  lemma {:induction false} OneOf(txs: seq<StoredTx>, pk: int, i: nat)
    requires i < |txs| && forall k :: 0 <= k < |txs| ==> (txs[k].fromPkX == pk <==> k == i)
    ensures Of(txs, pk) == [txs[i]]
  {
    assert txs == txs[..i] + ([txs[i]] + txs[i + 1..]);
    OfAppend(txs[..i], [txs[i]] + txs[i + 1..], pk);
    OfAppend([txs[i]], txs[i + 1..], pk);
    OfOne(txs[i], pk);
    NoneOf(txs[..i], pk);
    NoneOf(txs[i + 1..], pk);
  }

  /** What a sender has waiting after all ten rows. */
  lemma {:induction false} WaitingOf(c: Config, txs: seq<StoredTx>, pk: int)
    requires c.e.order > 0 && TenRows(c, txs)
    ensures LiveTxs(Rows(txs), pk, 0) ==
            if 1 <= pk <= 8 then [txs[pk - 1]] else if pk == 9 then [txs[8], txs[9]] else []
  {
    assert txs[0..] == txs;
    LiveIsOf(txs, pk, 0);
    if 1 <= pk <= 8 {
      OneOf(txs, pk, pk - 1);
    } else if pk == 9 {
      assert txs == txs[..9] + [txs[9]];
      OneOf(txs[..9], pk, 8);
      OfSnoc(txs[..9], txs[9], pk);
    } else {
      NoneOf(txs, pk);
    }
  }

  lemma {:induction false} TotalOnes(txs: seq<StoredTx>)
    requires forall k :: 0 <= k < |txs| ==> txs[k].amount == 1
    ensures Total(txs) == |txs|
  {
    if txs != [] { TotalOnes(txs[1..]); }
  }

  /** One or two rows of 1 each, from nonce 0, fit an account of the nine. */
  lemma {:induction false} RowsFit(e: Env, pk: nat, live: seq<StoredTx>)
    requires e.depth >= 4 && 1 <= pk <= 9 && |live| <= 2
    requires forall k :: 0 <= k < |live| ==> live[k].amount == 1 && live[k].nonce == k
    ensures Orderly(e, Nine(), pk, live)
  {
    NineFound(e, pk);
    TotalOnes(live);
  }

  lemma {:induction false} WaitingOrderly(c: Config, txs: seq<StoredTx>, pk: nat)
    requires ValidEnv(c.e) && c.e.depth >= 4 && TenRows(c, txs)
    requires 1 <= pk <= 9
    ensures Orderly(c.e, Nine(), pk, LiveTxs(Rows(txs), pk, 0))
  {
    WaitingOf(c, txs, pk);
    RowsFit(c.e, pk, LiveTxs(Rows(txs), pk, 0));
  }

  lemma {:induction false} WaitingBefore(c: Config, txs: seq<StoredTx>, i: nat)
    requires c.e.order > 0 && TenRows(c, txs) && i < 10
    ensures LiveTxs(Rows(txs[..i]), SenderOf(i), 0) == if i < 9 then [] else [txs[8]]
  {
    assert txs[..i][0..] == txs[..i];
    LiveIsOf(txs[..i], SenderOf(i), 0);
    if i < 9 { NoneOf(txs[..i], i + 1); } else { OneOf(txs[..9], 9, 8); }
  }

  /** Each row is admitted when the ones before it are stored. */
  lemma {:induction false} EachAdmitted(c: Config, db: Db, txs: seq<StoredTx>, i: nat)
    requires ValidEnv(c.e) && c.e.depth >= 4 && TenRows(c, txs) && i < 10
    ensures Commands.Admission(c.e, Queued(db, txs[..i]), Nine(), txs[i]) == Ok(())
  {
    WaitingBefore(c, txs, i);
    NineFound(c.e, SenderOf(i));
    NineFound(c.e, 1);
    TotalOnes(LiveTxs(Rows(txs[..i]), SenderOf(i), 0));
  }

  lemma {:induction false} FewPending(rows: seq<MempoolRow>, i: nat)
    requires i <= |rows|
    ensures CountPendingTxs(rows, i) <= |rows| - i
    decreases |rows| - i
  {
    if i < |rows| { FewPending(rows, i + 1); }
  }

  /** No two of the rows have the same sender and nonce. */
  lemma {:induction false} NewRow(c: Config, txs: seq<StoredTx>, i: nat)
    requires c.e.order > 0 && TenRows(c, txs) && i < 10
    ensures FindTx(Rows(txs[..i]), txs[i].fromPkX, txs[i].nonce, 0).None?
  {}

  /** `submit_tx` stores w as row i when the rows before it are stored. */
  predicate Stored(c: Config, db: Db, txs: seq<StoredTx>, w: WireTx, i: nat)
    requires c.e.p > 0 && c.e.order > 0 && i < |txs|
  {
    && SubmitTx(c, Queued(db, txs[..i]), Nine(), w) == ([AddTx(txs[i])], Ok(Receipt(i, TxPending)))
    && Apply(Queued(db, txs[..i]), AddTx(txs[i])) == Queued(db, txs[..i + 1])
  }

  lemma {:induction false} EachStored(c: Config, db: Db, txs: seq<StoredTx>, w: WireTx, i: nat)
    requires ValidEnv(c.e) && c.e.depth >= 4 && TenRows(c, txs) && i < 10 && Wired(c, w, txs[i])
    ensures Stored(c, db, txs, w, i)
  {
    FewPending(Rows(txs[..i]), 0);
    NewRow(c, txs, i);
    EachAdmitted(c, db, txs, i);
    NextQueued(db, txs, i);
  }

  lemma {:induction false} NextQueued(db: Db, txs: seq<StoredTx>, i: nat)
    requires i < |txs|
    ensures Apply(Queued(db, txs[..i]), AddTx(txs[i])) == Queued(db, txs[..i + 1])
  {
    assert Rows(txs[..i]) + [MempoolRow(txs[i], TxPending, None)] == Rows(txs[..i + 1]);
  }

  // ---------- the build ----------

  lemma {:induction false} FirstEightFair(c: Config, txs: seq<StoredTx>, cs: seq<Candidate>)
    requires c.e.order > 0 && TenRows(c, txs) && cs == Numbered(txs, 0)[..8]
    ensures Fair(Rows(txs), cs)
  {
    forall k | 0 <= k < 8 ensures FairFor(Rows(txs), cs, cs[k].tx.fromPkX) {
      WaitingOf(c, txs, k + 1);
      OneOf(Txs(cs), k + 1, k);
    }
  }

  /** The candidates: eight withdrawals of other senders, then the ninth account's
      two rows. */
  lemma {:induction false} TenCandidates(c: Config, txs: seq<StoredTx>, cs: seq<Candidate>, a: Candidate, b: Candidate)
    requires c.e.order > 0 && c.nSlots > MAX_WITHDRAWALS && TenRows(c, txs)
    requires cs == Numbered(txs, 0)[..8] && a == Candidate(8, txs[8]) && b == Candidate(9, txs[9])
    ensures PendingTxs(Rows(txs), 0, 4 * c.nSlots) == cs + [a, b] && LiveTxs(Rows(txs), 9, 0) == [a.tx, b.tx]
    ensures forall k :: 0 <= k < 8 ==> cs[k].tx.isWithdraw && cs[k].tx.fromPkX != 9
    ensures AllTypedTxs(c.e, cs + [b]) && Reachable(Nine(), [], cs)
  {
    AllCandidates(txs, 0, 4 * c.nSlots);
    assert Numbered(txs, 0) == cs + [a, b];
    WaitingOf(c, txs, 9);
  }

  lemma {:induction false} EvictionOfTenth(c: Config, db: Db, txs: seq<StoredTx>, cs: seq<Candidate>, a: Candidate,
                                           b: Candidate)
    requires ValidEnv(c.e) && c.e.depth >= 4 && c.nSlots > MAX_WITHDRAWALS && TenRows(c, txs)
    requires cs == Numbered(txs, 0)[..8] && a == Candidate(8, txs[8]) && b == Candidate(9, txs[9])
    ensures var r := Restart(c, Nine(), [], SelectedTxs(c, Queued(db, txs))); r.dropped == [b] && r.attempt.Ready?
  {
    TenCandidates(c, txs, cs, a, b);
    NineWellFormed(c.e);
    NineTotal(Pow2(c.e.depth));
    forall k | 0 <= k < |cs + [b]|
      ensures Orderly(c.e, Nine(), (cs + [b])[k].tx.fromPkX, LiveTxs(Rows(txs), (cs + [b])[k].tx.fromPkX, 0))
    {
      WaitingOrderly(c, txs, SenderOf(if k < 8 then k else 9));
    }
    FirstEightFair(c, txs, cs);
    NinthWithdrawalEvicts(c, Nine(), [], Queued(db, txs), cs, a, b);
  }

  lemma {:induction false} AllPendingRows(txs: seq<StoredTx>, i: nat)
    requires i <= |txs|
    ensures CountPendingTxs(Rows(txs), i) == |txs| - i
    decreases |txs| - i
  {
    if i < |txs| { AllPendingRows(txs, i + 1); }
  }

  lemma {:induction false} FirstRejected(c: Config, db: Db, b: Candidate, waited: bool)
    requires c.e.order > 0 && PendingDeposits(db, 0, c.dSlots) == [] && Inflight(db).None?
    requires var r := Restart(c, db.leaves, [], SelectedTxs(c, db)); r.dropped == [b] && r.attempt.Ready?
    requires CountPendingTxs(db.mempool, 0) > 1
    ensures var writes := TryBuild(c, db, db.leaves, true, waited).0; writes != [] && writes[0] == RejectTx(b.id)
  {
    assert Requests(DepositsAt(db, [])) == [];
    assert Rejects([b]) == [RejectTx(b.id)];
  }

  /** Admission does not imply building. On any tables with these nine accounts, no
      waiting deposit and no batch in flight: all ten submissions are stored, and the
      next tick's first statement evicts the tenth row, although its sender could pay
      for both of its own. */
  lemma {:induction false} TenthRowEvicted(c: Config, db: Db, txs: seq<StoredTx>, ws: seq<WireTx>, waited: bool)
    requires ValidEnv(c.e) && c.e.depth >= 4 && c.nSlots > MAX_WITHDRAWALS && TenRows(c, txs)
    requires |ws| == 10 && forall i :: 0 <= i < 10 ==> Wired(c, ws[i], txs[i])
    requires PendingDeposits(Queued(db, txs), 0, c.dSlots) == [] && Inflight(Queued(db, txs)).None?
    ensures forall i :: 0 <= i < 10 ==> Stored(c, db, txs, ws[i], i)
    ensures var writes := TryBuild(c, Queued(db, txs), Nine(), true, waited).0; writes != [] && writes[0] == RejectTx(9)
  {
    forall i | 0 <= i < 10 ensures Stored(c, db, txs, ws[i], i) { EachStored(c, db, txs, ws[i], i); }
    EvictionOfTenth(c, db, txs, Numbered(txs, 0)[..8], Candidate(8, txs[8]), Candidate(9, txs[9]));
    AllPendingRows(txs, 0);
    FirstRejected(c, Queued(db, txs), Candidate(9, txs[9]), waited);
  }
}
