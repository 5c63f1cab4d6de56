/** Admission against building: when every sender's waiting rows fit its account,
    and exactly which selections then build without evicting anyone. */
module Admission {
  import opened Field
  import opened Hashing
  import opened Merkle
  import opened Ledger
  import opened Circuit
  import opened Trees
  import opened Builder
  import opened Completeness
  import opened Contract
  import opened Database
  import opened Eviction
  import opened Commands
  import opened Lifecycle
  import opened Safety

  // ---------- one sender's transactions ----------

  function Of(txs: seq<StoredTx>, pk: int): seq<StoredTx> {
    if txs == [] then [] else (if txs[0].fromPkX == pk then [txs[0]] else []) + Of(txs[1..], pk)
  }

  lemma {:induction false} OfAppend(xs: seq<StoredTx>, ys: seq<StoredTx>, pk: int)
    ensures Of(xs + ys, pk) == Of(xs, pk) + Of(ys, pk)
    decreases |xs|
  {
    if xs == [] {
      assert xs + ys == ys;
    } else {
      assert (xs + ys)[0] == xs[0] && (xs + ys)[1..] == xs[1..] + ys;
      OfAppend(xs[1..], ys, pk);
    }
  }

  lemma {:induction false} OfOne(tx: StoredTx, pk: int)
    ensures Of([tx], pk) == if tx.fromPkX == pk then [tx] else []
  {
    assert [tx][1..] == [];
  }

  lemma {:induction false} OfSnoc(txs: seq<StoredTx>, tx: StoredTx, pk: int)
    ensures Of(txs + [tx], pk) == if tx.fromPkX == pk then Of(txs, pk) + [tx] else Of(txs, pk)
  {
    OfAppend(txs, [tx], pk);
    OfOne(tx, pk);
  }

  lemma {:induction false} OfTake(txs: seq<StoredTx>, k: nat, pk: int)
    requires k <= |txs|
    ensures Of(txs[..k], pk) <= Of(txs, pk)
  {
    assert txs == txs[..k] + txs[k..];
    OfAppend(txs[..k], txs[k..], pk);
  }

  lemma {:induction false} TotalAppend(xs: seq<StoredTx>, ys: seq<StoredTx>)
    ensures Total(xs + ys) == Total(xs) + Total(ys)
    decreases |xs|
  {
    if xs == [] {
      assert xs + ys == ys;
    } else {
      assert (xs + ys)[0] == xs[0] && (xs + ys)[1..] == xs[1..] + ys;
      TotalAppend(xs[1..], ys);
    }
  }

  lemma {:induction false} TotalPrefix(xs: seq<StoredTx>, ys: seq<StoredTx>)
    requires xs <= ys
    ensures Total(xs) <= Total(ys)
  {
    assert ys == xs + ys[|xs|..];
    TotalAppend(xs, ys[|xs|..]);
  }

  /** Entry m of a sender's list stands at some place j after m others of his. */
  lemma {:induction false} OfAt(txs: seq<StoredTx>, pk: int, m: nat) returns (j: nat)
    requires m < |Of(txs, pk)|
    ensures j < |txs| && txs[j] == Of(txs, pk)[m] && txs[j].fromPkX == pk && |Of(txs[..j], pk)| == m
    decreases |txs|
  {
    var last := |txs| - 1;
    assert txs == txs[..last] + [txs[last]];
    OfSnoc(txs[..last], txs[last], pk);
    if m < |Of(txs[..last], pk)| {
      j := OfAt(txs[..last], pk, m);
      assert txs[..last][..j] == txs[..j];
    } else {
      j := last;
    }
  }

  // ---------- accounts and waiting rows ----------

  predicate Consecutive(txs: seq<StoredTx>, nonce: int) {
    forall j :: 0 <= j < |txs| ==> txs[j].nonce == nonce + j
  }

  predicate Holds(t: Table, pk: int) {
    exists i :: i in t && t[i].pk == pk
  }

  lemma {:induction false} FindHolds(e: Env, t: Table, pk: int)
    requires SlotsInRange(e, t)
    ensures Find(e, t, pk).Some? <==> Holds(t, pk)
  {}

  /** A sender's waiting rows carry the nonces that follow its account's, in id
      order, and together fit its balance. */
  predicate Orderly(e: Env, t: Table, pk: int, live: seq<StoredTx>) {
    live != [] ==>
      && Find(e, t, pk).Some?
      && Consecutive(live, t[Find(e, t, pk).value].nonce)
      && Total(live) <= t[Find(e, t, pk).value].balance
  }

  /** Every candidate's sender is orderly. */
  predicate SendersOrderly(e: Env, t: Table, rows: seq<MempoolRow>, cs: seq<Candidate>) {
    forall k :: 0 <= k < |cs| ==> Orderly(e, t, cs[k].tx.fromPkX, LiveTxs(rows, cs[k].tx.fromPkX, 0))
  }

  // ---------- how far a build has come ----------

  /** After `done`, a slot's nonce has moved by its holder's transactions and its
      balance has lost at most their amounts. */
  predicate TrackSlot(t: Table, u: Table, done: seq<StoredTx>, i: nat)
    requires i in t
  {
    && i in u && u[i].pk == t[i].pk
    && u[i].nonce == t[i].nonce + |Of(done, t[i].pk)|
    && u[i].balance >= t[i].balance - Total(Of(done, t[i].pk))
  }

  ghost predicate Tracks(t: Table, u: Table, done: seq<StoredTx>) {
    forall i {:trigger TrackSlot(t, u, done, i)} :: i in t ==> TrackSlot(t, u, done, i)
  }

  lemma {:induction false} TracksStart(t: Table)
    ensures Tracks(t, t, [])
  {}

  lemma {:induction false} DepositTracks(e: Env, t: Table, u: Table, i: nat, req: DepositRequest)
    requires Tracks(t, u, []) && req.amount >= 0 && DepositStep(e, u, i, req).outcome.Built?
    ensures Tracks(t, DepositStep(e, u, i, req).table, [])
  {
    var next := DepositStep(e, u, i, req).table;
    forall k | k in t ensures TrackSlot(t, next, [], k) {
      assert TrackSlot(t, u, [], k);
    }
  }

  lemma {:induction false} DepositsTrack(e: Env, t: Table, u: Table, i: nat, ds: seq<DepositRequest>)
    requires i <= |ds| && Tracks(t, u, []) && BuildDeposits(e, u, i, ds).outcome.Built?
    requires forall k :: 0 <= k < |ds| ==> ds[k].amount >= 0
    ensures Tracks(t, BuildDeposits(e, u, i, ds).table, [])
    decreases |ds| - i
  {
    if i < |ds| {
      DepositTracks(e, t, u, i, ds[i]);
      DepositsTrack(e, t, DepositStep(e, u, i, ds[i]).table, i + 1, ds);
    }
  }

  /** The slot that spends is the sender's, and only it moves its nonce. */
  lemma {:induction false} TxMoves(e: Env, u: Table, i: nat, req: SignedTx)
    requires WellFormed(e, u) && req.amount >= 0 && TxStep(e, u, i, req).outcome.Built?
    ensures var next := TxStep(e, u, i, req).table;
            && next.Keys == u.Keys
            && (forall k :: k in u ==>
                  && next[k].pk == u[k].pk
                  && next[k].nonce == u[k].nonce + (if u[k].pk == req.fromPkX then 1 else 0)
                  && next[k].balance >= u[k].balance - (if u[k].pk == req.fromPkX then req.amount else 0))
  {
    TxStepShape(e, u, i, req);
    var slot := TxStep(e, u, i, req).outcome.value.fromIndex;
    assert forall k :: k in u && u[k].pk == req.fromPkX ==> k == slot;
  }

  lemma {:induction false} TxTracks(e: Env, t: Table, u: Table, done: seq<StoredTx>, i: nat, tx: StoredTx)
    requires e.order > 0 && WellFormed(e, u) && Tracks(t, u, done) && TxStep(e, u, i, RowToSigned(e, tx)).outcome.Built?
    ensures Tracks(t, TxStep(e, u, i, RowToSigned(e, tx)).table, done + [tx])
  {
    var next := TxStep(e, u, i, RowToSigned(e, tx)).table;
    TxMoves(e, u, i, RowToSigned(e, tx));
    forall k | k in t ensures TrackSlot(t, next, done + [tx], k) {
      assert TrackSlot(t, u, done, k);
      OfSnoc(done, tx, t[k].pk);
      TotalAppend(Of(done, t[k].pk), [tx]);
      assert Total([tx]) == tx.amount by { assert [tx][1..] == []; }
    }
  }

  // ---------- when one transaction builds ----------

  lemma {:induction false} OneHolder(e: Env, u: Table, pk: int)
    requires WellFormed(e, u) && Find(e, u, pk).Some?
    ensures |HoldersOf(u, pk)| == 1
  {
    assert HoldersOf(u, pk) == {Find(e, u, pk).value};
  }

  lemma {:induction false} DebitTotal(e: Env, u: Table, slot: nat, amount: int)
    requires ValidEnv(e) && WellFormed(e, u) && slot in u && 0 <= amount <= u[slot].balance && u[slot].nonce + 1 < U64
    ensures TableOk(e, Debit(u, slot, amount)) && TotalBalance(e, Debit(u, slot, amount)) == TotalBalance(e, u) - amount
  {
    SumUpdate(u, slot, Debit(u, slot, amount)[slot], Pow2(e.depth));
  }

  lemma {:induction false} DebitHolds(u: Table, slot: nat, amount: int, pk: int)
    requires slot in u
    ensures Holds(Debit(u, slot, amount), pk) <==> Holds(u, pk)
  {
    var t1 := Debit(u, slot, amount);
    if Holds(u, pk) { var i :| i in u && u[i].pk == pk; assert i in t1 && t1[i].pk == pk; }
    if Holds(t1, pk) { var i :| i in t1 && t1[i].pk == pk; assert i in u && u[i].pk == pk; }
  }

  /** With total balances below 2^64, the recipient's side fails only for want of a
      recipient. */
  lemma {:induction false} RecipientBuilds(e: Env, u: Table, i: nat, req: SignedTx, slot: nat)
    requires ValidEnv(e) && WellFormed(e, u) && slot in u && 0 <= req.amount <= u[slot].balance
    requires u[slot].nonce + 1 < U64 && TotalBalance(e, u) < U64
    ensures var o := TxRecipient(e, u, i, req, slot).outcome;
            if req.isWithdraw || Holds(u, req.toField) then o.Built? else o == Failed(RecipientNotFound(i))
  {
    var t1 := Debit(u, slot, req.amount);
    DebitTotal(e, u, slot, req.amount);
    DebitHolds(u, slot, req.amount, req.toField);
    FindHolds(e, t1, req.toField);
    if !req.isWithdraw && Holds(u, req.toField) {
      SlotWithinTotal(e, t1, Find(e, t1, req.toField).value, Pow2(e.depth));
    }
  }

  /** What a transaction needs of the table it meets. */
  predicate Payable(e: Env, u: Table, tx: StoredTx) {
    && Find(e, u, tx.fromPkX).Some?
    && var a := u[Find(e, u, tx.fromPkX).value];
    && a.nonce == tx.nonce && tx.amount <= a.balance && tx.nonce + 1 < U64
    && (tx.isWithdraw || Holds(u, tx.toField))
  }

  predicate Typed(e: Env, tx: StoredTx)
    requires e.order > 0
  {
    StoredTyped(e, tx) && tx.amount > 0 && Authentic(e, tx)
  }

  lemma {:induction false} PayableBuilds(e: Env, u: Table, i: nat, tx: StoredTx)
    requires ValidEnv(e) && WellFormed(e, u) && Typed(e, tx) && TotalBalance(e, u) < U64 && Payable(e, u, tx)
    ensures TxStep(e, u, i, RowToSigned(e, tx)).outcome.Built?
  {
    OneHolder(e, u, tx.fromPkX);
    RecipientBuilds(e, u, i, RowToSigned(e, tx), Find(e, u, tx.fromPkX).value);
  }

  lemma {:induction false} BuiltWasPayable(e: Env, u: Table, i: nat, tx: StoredTx)
    requires e.order > 0 && WellFormed(e, u) && TxStep(e, u, i, RowToSigned(e, tx)).outcome.Built?
    ensures Payable(e, u, tx)
  {
    var slot := Find(e, u, tx.fromPkX).value;
    DebitHolds(u, slot, tx.amount, tx.toField);
    if !tx.isWithdraw {
      var t1 := Debit(u, slot, tx.amount);
      assert Holds(t1, tx.toField);
    }
  }

  lemma {:induction false} SamePksHold(u: Table, v: Table, pk: int)
    requires u.Keys == v.Keys && forall k :: k in u ==> v[k].pk == u[k].pk
    ensures Holds(u, pk) <==> Holds(v, pk)
  {
    if Holds(u, pk) { var i :| i in u && u[i].pk == pk; assert i in v && v[i].pk == pk; }
    if Holds(v, pk) { var i :| i in v && v[i].pk == pk; assert i in u && u[i].pk == pk; }
  }

  /** A built transaction keeps the table well formed, its keys, and the total
      within what it was. */
  lemma {:induction false} StepKeeps(e: Env, u: Table, i: nat, tx: StoredTx)
    requires ValidEnv(e) && WellFormed(e, u) && StoredTyped(e, tx) && TxStep(e, u, i, RowToSigned(e, tx)).outcome.Built?
    ensures var next := TxStep(e, u, i, RowToSigned(e, tx)).table;
            && WellFormed(e, next) && TotalBalance(e, next) <= TotalBalance(e, u)
            && (forall pk :: Holds(next, pk) <==> Holds(u, pk))
  {
    var req := RowToSigned(e, tx);
    var s := TxStep(e, u, i, req);
    StoredIsSignedTyped(e, tx);
    TxStepLegal(e, u, i, req);
    ExecKeeps(e, u, RequestOp(req, s.outcome.value.fromIndex, s.outcome.value.toIndex));
    TxMoves(e, u, i, req);
    forall pk ensures Holds(s.table, pk) <==> Holds(u, pk) {
      SamePksHold(u, s.table, pk);
    }
  }

  // ---------- selections ----------

  /** A sender's selected rows are its first waiting rows: none was skipped before a
      selected one. */
  predicate FairFor(rows: seq<MempoolRow>, cs: seq<Candidate>, pk: int) {
    Of(Txs(cs), pk) <= LiveTxs(rows, pk, 0)
  }

  predicate Fair(rows: seq<MempoolRow>, cs: seq<Candidate>) {
    forall k :: 0 <= k < |cs| ==> FairFor(rows, cs, cs[k].tx.fromPkX)
  }

  /** The recipient of a transfer has an account, and the nonce can still move. */
  predicate Deliverable(t1: Table, tx: StoredTx) {
    (tx.isWithdraw || Holds(t1, tx.toField)) && tx.nonce + 1 < U64
  }

  predicate AllDeliverable(t1: Table, cs: seq<Candidate>) {
    forall k :: 0 <= k < |cs| ==> Deliverable(t1, cs[k].tx)
  }

  predicate AllTypedTxs(e: Env, cs: seq<Candidate>)
    requires e.order > 0
  {
    forall k :: 0 <= k < |cs| ==> Typed(e, cs[k].tx)
  }

  predicate KeepsAll(e: Env, u: Table, cs: seq<Candidate>)
    requires e.order > 0
  {
    var p := OnePass(e, u, cs);
    p.kept == cs && p.dropped == [] && p.halt.None?
  }

  /** Where a build of cs stands after its first k transactions. */
  ghost predicate At(e: Env, t: Table, t1: Table, u: Table, cs: seq<Candidate>, k: nat)
    requires k <= |cs|
  {
    && WellFormed(e, u) && Tracks(t, u, Txs(cs[..k]))
    && (forall pk :: Holds(u, pk) <==> Holds(t1, pk))
  }

  lemma {:induction false} TxsTake(cs: seq<Candidate>, k: nat)
    requires k < |cs|
    ensures Txs(cs[..k + 1]) == Txs(cs[..k]) + [cs[k].tx] && Txs(cs)[..k] == Txs(cs[..k])
  {
    assert |Txs(cs[..k + 1])| == k + 1;
    forall j | 0 <= j <= k ensures Txs(cs[..k + 1])[j] == (Txs(cs[..k]) + [cs[k].tx])[j] {}
  }

  lemma {:induction false} AtNext(e: Env, t: Table, t1: Table, u: Table, cs: seq<Candidate>, k: nat)
    requires ValidEnv(e) && k < |cs| && Typed(e, cs[k].tx) && At(e, t, t1, u, cs, k)
    requires TxStep(e, u, 0, RowToSigned(e, cs[k].tx)).outcome.Built?
    ensures At(e, t, t1, TxStep(e, u, 0, RowToSigned(e, cs[k].tx)).table, cs, k + 1)
  {
    StepKeeps(e, u, 0, cs[k].tx);
    TxTracks(e, t, u, Txs(cs[..k]), 0, cs[k].tx);
    TxsTake(cs, k);
  }

  lemma {:induction false} KeepsNext(e: Env, u: Table, cs: seq<Candidate>, k: nat)
    requires e.order > 0 && k < |cs|
    ensures var s := TxStep(e, u, 0, RowToSigned(e, cs[k].tx));
            KeepsAll(e, u, cs[k..]) <==> s.outcome.Built? && KeepsAll(e, s.table, cs[k + 1..])
  {
    assert cs[k..][0] == cs[k] && cs[k..][1..] == cs[k + 1..];
    assert cs[k..] == [cs[k]] + cs[k + 1..];
    var s := TxStep(e, u, 0, RowToSigned(e, cs[k].tx));
    if s.outcome.Built? {
      var r := OnePass(e, s.table, cs[k + 1..]);
      if [cs[k]] + r.kept == cs[k..] { assert r.kept == ([cs[k]] + r.kept)[1..]; }
    } else if s.outcome.Failed? && BadTx(s.outcome.error).Some? {
      assert OnePass(e, u, cs[k..]).dropped != [];
    }
  }

  lemma {:induction false} TxsUpTo(cs: seq<Candidate>, k: nat)
    requires k <= |cs|
    ensures Txs(cs)[..k] == Txs(cs[..k])
  {}

  /** A sender's selected rows up to the k-th are its first waiting rows. */
  lemma {:induction false} WaitingPrefix(rows: seq<MempoolRow>, cs: seq<Candidate>, k: nat, pk: int)
    requires k < |cs| && FairFor(rows, cs, pk) && cs[k].tx.fromPkX == pk
    ensures Of(Txs(cs[..k]), pk) + [cs[k].tx] <= LiveTxs(rows, pk, 0)
  {
    TxsTake(cs, k);
    OfSnoc(Txs(cs[..k]), cs[k].tx, pk);
    TxsUpTo(cs, k + 1);
    OfTake(Txs(cs), k + 1, pk);
  }

  lemma {:induction false} TotalWithin(before: seq<StoredTx>, tx: StoredTx, live: seq<StoredTx>)
    requires before + [tx] <= live
    ensures |before| < |live| && live[|before|] == tx && Total(before) + tx.amount <= Total(live)
  {
    assert (before + [tx])[|before|] == live[|before|];
    TotalPrefix(before + [tx], live);
    TotalAppend(before, [tx]);
    assert Total([tx]) == tx.amount by { assert [tx][1..] == []; }
  }

  /** A sender's next selected row is the next of its waiting rows. */
  lemma {:induction false} NextWaiting(rows: seq<MempoolRow>, cs: seq<Candidate>, k: nat, live: seq<StoredTx>)
    requires k < |cs| && FairFor(rows, cs, cs[k].tx.fromPkX) && live == LiveTxs(rows, cs[k].tx.fromPkX, 0)
    ensures var m := |Of(Txs(cs[..k]), cs[k].tx.fromPkX)|;
            && m < |live| && live[m] == cs[k].tx
            && Total(Of(Txs(cs[..k]), cs[k].tx.fromPkX)) + cs[k].tx.amount <= Total(live)
  {
    WaitingPrefix(rows, cs, k, cs[k].tx.fromPkX);
    TotalWithin(Of(Txs(cs[..k]), cs[k].tx.fromPkX), cs[k].tx, live);
  }

  lemma {:induction false} TracksSender(e: Env, t: Table, u: Table, done: seq<StoredTx>, pk: int)
    requires WellFormed(e, t) && WellFormed(e, u) && Tracks(t, u, done) && Find(e, t, pk).Some?
    ensures var i := Find(e, t, pk).value;
            && Find(e, u, pk) == Some(i) && TrackSlot(t, u, done, i) && t[i].pk == pk
  {
    var i := Find(e, t, pk).value;
    assert TrackSlot(t, u, done, i);
  }

  lemma {:induction false} FairIsPayable(e: Env, t: Table, t1: Table, u: Table, rows: seq<MempoolRow>,
                                         cs: seq<Candidate>, k: nat)
    requires WellFormed(e, t) && SendersOrderly(e, t, rows, cs) && k < |cs| && At(e, t, t1, u, cs, k)
    requires Fair(rows, cs) && Deliverable(t1, cs[k].tx)
    ensures Payable(e, u, cs[k].tx)
  {
    var tx, pk := cs[k].tx, cs[k].tx.fromPkX;
    var live := LiveTxs(rows, pk, 0);
    NextWaiting(rows, cs, k, live);
    TracksSender(e, t, u, Txs(cs[..k]), pk);
  }

  /** A fair, deliverable selection builds to the end. */
  lemma {:induction false} FairBuilds(e: Env, t: Table, t1: Table, u: Table, rows: seq<MempoolRow>, cs: seq<Candidate>,
                                      k: nat)
    requires ValidEnv(e) && WellFormed(e, t) && SendersOrderly(e, t, rows, cs) && k <= |cs| && At(e, t, t1, u, cs, k)
    requires AllTypedTxs(e, cs) && Fair(rows, cs) && AllDeliverable(t1, cs) && TotalBalance(e, u) < U64
    ensures KeepsAll(e, u, cs[k..])
    decreases |cs| - k
  {
    if k < |cs| {
      var next := TxStep(e, u, 0, RowToSigned(e, cs[k].tx)).table;
      FairIsPayable(e, t, t1, u, rows, cs, k);
      PayableBuilds(e, u, 0, cs[k].tx);
      StepKeeps(e, u, 0, cs[k].tx);
      AtNext(e, t, t1, u, cs, k);
      FairBuilds(e, t, t1, next, rows, cs, k + 1);
      KeepsNext(e, u, cs, k);
    }
  }

  /** The nonce of the k-th selected row counts its sender's earlier ones. */
  predicate Counts(e: Env, t: Table, cs: seq<Candidate>, k: nat)
    requires k < |cs|
  {
    var tx := cs[k].tx;
    Find(e, t, tx.fromPkX).Some? ==>
      tx.nonce == t[Find(e, t, tx.fromPkX).value].nonce + |Of(Txs(cs[..k]), tx.fromPkX)|
  }

  lemma {:induction false} BuiltCounts(e: Env, t: Table, t1: Table, u: Table, cs: seq<Candidate>, k: nat)
    requires ValidEnv(e) && WellFormed(e, t) && k < |cs| && At(e, t, t1, u, cs, k) && Typed(e, cs[k].tx)
    requires TxStep(e, u, 0, RowToSigned(e, cs[k].tx)).outcome.Built?
    ensures Counts(e, t, cs, k) && Deliverable(t1, cs[k].tx)
  {
    BuiltWasPayable(e, u, 0, cs[k].tx);
    if Find(e, t, cs[k].tx.fromPkX).Some? { TracksSender(e, t, u, Txs(cs[..k]), cs[k].tx.fromPkX); }
  }

  /** A selection that builds to the end had every nonce in turn, and every
      recipient. */
  lemma {:induction false} BuildsCount(e: Env, t: Table, t1: Table, u: Table, cs: seq<Candidate>, k: nat)
    requires ValidEnv(e) && WellFormed(e, t) && k <= |cs| && At(e, t, t1, u, cs, k) && AllTypedTxs(e, cs)
    requires KeepsAll(e, u, cs[k..])
    ensures forall j :: k <= j < |cs| ==> Counts(e, t, cs, j) && Deliverable(t1, cs[j].tx)
    decreases |cs| - k
  {
    if k < |cs| {
      KeepsNext(e, u, cs, k);
      BuiltCounts(e, t, t1, u, cs, k);
      AtNext(e, t, t1, u, cs, k);
      BuildsCount(e, t, t1, TxStep(e, u, 0, RowToSigned(e, cs[k].tx)).table, cs, k + 1);
    }
  }

  lemma {:induction false} LiveHas(rows: seq<MempoolRow>, pk: int, i: nat, id: nat) returns (m: nat)
    requires i <= id < |rows| && LiveFor(rows[id], pk)
    ensures m < |LiveTxs(rows, pk, i)| && LiveTxs(rows, pk, i)[m] == rows[id].tx
    decreases |rows| - i
  {
    if i == id {
      m := 0;
    } else {
      m := LiveHas(rows, pk, i + 1, id);
      if LiveFor(rows[i], pk) { m := m + 1; }
    }
  }

  /** Rows whose nonces come in turn are the first waiting rows. */
  lemma {:induction false} CountsAreFirst(e: Env, t: Table, rows: seq<MempoolRow>, cs: seq<Candidate>, pk: int, m: nat)
    requires Orderly(e, t, pk, LiveTxs(rows, pk, 0)) && AllPending(rows, cs)
    requires (forall j :: 0 <= j < |cs| ==> Counts(e, t, cs, j)) && m < |Of(Txs(cs), pk)|
    ensures m < |LiveTxs(rows, pk, 0)| && LiveTxs(rows, pk, 0)[m] == Of(Txs(cs), pk)[m]
  {
    var j := OfAt(Txs(cs), pk, m);
    assert Txs(cs)[j] == cs[j].tx && Txs(cs)[..j] == Txs(cs[..j]);
    assert RowPending(rows, cs[j].id) && rows[cs[j].id].tx == cs[j].tx;
    var q := LiveHas(rows, pk, 0, cs[j].id);
    assert Counts(e, t, cs, j);
  }

  lemma {:induction false} CountsAreFair(e: Env, t: Table, rows: seq<MempoolRow>, cs: seq<Candidate>, pk: int)
    requires Orderly(e, t, pk, LiveTxs(rows, pk, 0)) && AllPending(rows, cs)
    requires forall j :: 0 <= j < |cs| ==> Counts(e, t, cs, j)
    ensures FairFor(rows, cs, pk)
  {
    var sel, live := Of(Txs(cs), pk), LiveTxs(rows, pk, 0);
    forall m: nat | m < |sel| ensures m < |live| && live[m] == sel[m] {
      CountsAreFirst(e, t, rows, cs, pk, m);
    }
    if sel != [] { CountsAreFirst(e, t, rows, cs, pk, |sel| - 1); }
  }

  /** A selection the pass keeps whole is fair and deliverable. */
  lemma {:induction false} KeptIsFair(e: Env, t: Table, t1: Table, rows: seq<MempoolRow>, cs: seq<Candidate>)
    requires ValidEnv(e) && WellFormed(e, t) && WellFormed(e, t1) && Tracks(t, t1, [])
    requires SendersOrderly(e, t, rows, cs) && AllPending(rows, cs) && AllTypedTxs(e, cs) && KeepsAll(e, t1, cs)
    ensures Fair(rows, cs) && AllDeliverable(t1, cs)
  {
    assert cs[0..] == cs && Txs(cs[..0]) == [];
    BuildsCount(e, t, t1, t1, cs, 0);
    forall k | 0 <= k < |cs| ensures FairFor(rows, cs, cs[k].tx.fromPkX) {
      CountsAreFair(e, t, rows, cs, cs[k].tx.fromPkX);
    }
  }

  /** The pass over a selection keeps everything exactly when the selection is fair
      and deliverable. */
  lemma {:induction false} KeepsAllIff(e: Env, t: Table, t1: Table, rows: seq<MempoolRow>, cs: seq<Candidate>)
    requires ValidEnv(e) && WellFormed(e, t) && WellFormed(e, t1) && TotalBalance(e, t1) < U64 && Tracks(t, t1, [])
    requires SendersOrderly(e, t, rows, cs) && AllPending(rows, cs) && AllTypedTxs(e, cs)
    ensures KeepsAll(e, t1, cs) <==> Fair(rows, cs) && AllDeliverable(t1, cs)
  {
    assert cs[0..] == cs && Txs(cs[..0]) == [];
    if KeepsAll(e, t1, cs) { KeptIsFair(e, t, t1, rows, cs); }
    if Fair(rows, cs) && AllDeliverable(t1, cs) { FairBuilds(e, t, t1, t1, rows, cs, 0); }
  }

  // ---------- deposits come first ----------

  predicate Credited(ds: seq<DepositRequest>, i: nat, pk: int) {
    exists j :: i <= j < |ds| && ds[j].pk == pk
  }

  /** A built deposit credits its amount and makes its key known. */
  lemma {:induction false} DepositGives(e: Env, t: Table, i: nat, req: DepositRequest)
    requires ValidEnv(e) && WellFormed(e, t) && RequestTyped(e, req) && DepositStep(e, t, i, req).outcome.Built?
    ensures var next := DepositStep(e, t, i, req).table;
            && WellFormed(e, next) && TotalBalance(e, next) == TotalBalance(e, t) + req.amount
            && (forall pk :: Holds(next, pk) <==> Holds(t, pk) || pk == req.pk)
  {
    var s := DepositStep(e, t, i, req);
    var slot := s.outcome.value.index;
    DepositStepLegal(e, t, i, req);
    ExecKeeps(e, t, Credit(slot, req.pk, req.amount));
    forall pk ensures Holds(s.table, pk) <==> Holds(t, pk) || pk == req.pk {
      if Holds(t, pk) { var k :| k in t && t[k].pk == pk; assert k in s.table && s.table[k].pk == pk; }
      assert slot in s.table && s.table[slot].pk == req.pk;
      if Holds(s.table, pk) && pk != req.pk {
        var k :| k in s.table && s.table[k].pk == pk;
        assert k in t && t[k].pk == pk;
      }
    }
  }

  lemma {:induction false} DepositsGive(e: Env, t: Table, i: nat, ds: seq<DepositRequest>)
    requires ValidEnv(e) && WellFormed(e, t) && i <= |ds| && (forall j :: 0 <= j < |ds| ==> RequestTyped(e, ds[j]))
    requires BuildDeposits(e, t, i, ds).outcome.Built?
    ensures var next := BuildDeposits(e, t, i, ds).table;
            && WellFormed(e, next) && TotalBalance(e, next) == TotalBalance(e, t) + Amounts(DepositPairs(ds[i..]))
            && (forall pk :: Holds(next, pk) <==> Holds(t, pk) || Credited(ds, i, pk))
    decreases |ds| - i
  {
    if i < |ds| {
      var u := DepositStep(e, t, i, ds[i]).table;
      DepositGives(e, t, i, ds[i]);
      DepositsGive(e, u, i + 1, ds);
      assert ds[i..][0] == ds[i] && ds[i..][1..] == ds[i + 1..];
      assert DepositPairs(ds[i..])[1..] == DepositPairs(ds[i + 1..]);
      forall pk ensures Credited(ds, i, pk) <==> pk == ds[i].pk || Credited(ds, i + 1, pk) {
        if Credited(ds, i + 1, pk) { var j :| i + 1 <= j < |ds| && ds[j].pk == pk; assert i <= j; }
      }
    }
  }

  /** A recipient in the tree or among the deposits taken, and a nonce that can move:
      what can be read off a row before building it. */
  predicate Reaches(t: Table, ds: seq<DepositRequest>, tx: StoredTx) {
    (tx.isWithdraw || Holds(t, tx.toField) || Credited(ds, 0, tx.toField)) && tx.nonce + 1 < U64
  }

  predicate Reachable(t: Table, ds: seq<DepositRequest>, cs: seq<Candidate>) {
    forall k :: 0 <= k < |cs| ==> Reaches(t, ds, cs[k].tx)
  }

  /** The keys known once the deposits are credited. */
  ghost predicate KnownAfter(t: Table, ds: seq<DepositRequest>, t1: Table) {
    forall pk {:trigger Holds(t1, pk)} :: Holds(t1, pk) <==> Holds(t, pk) || Credited(ds, 0, pk)
  }

  lemma {:induction false} ReachesIs(t: Table, t1: Table, ds: seq<DepositRequest>, tx: StoredTx)
    requires KnownAfter(t, ds, t1)
    ensures Reaches(t, ds, tx) <==> Deliverable(t1, tx)
  {
    assert Holds(t1, tx.toField) <==> Holds(t, tx.toField) || Credited(ds, 0, tx.toField);
  }

  lemma {:induction false} ReachableIs(t: Table, t1: Table, ds: seq<DepositRequest>, cs: seq<Candidate>)
    requires KnownAfter(t, ds, t1)
    ensures Reachable(t, ds, cs) <==> AllDeliverable(t1, cs)
  {
    forall k | 0 <= k < |cs| ensures Reaches(t, ds, cs[k].tx) <==> Deliverable(t1, cs[k].tx) {
      ReachesIs(t, t1, ds, cs[k].tx);
    }
  }

  lemma {:induction false} NothingDropped(e: Env, u: Table, cs: seq<Candidate>)
    requires e.order > 0
    ensures OnePass(e, u, cs).dropped == [] && OnePass(e, u, cs).halt.None? <==> KeepsAll(e, u, cs)
    decreases |cs|
  {
    if cs != [] {
      assert cs[0..] == cs;
      KeepsNext(e, u, cs, 0);
      var s := TxStep(e, u, 0, RowToSigned(e, cs[0].tx));
      NothingDropped(e, s.table, cs[1..]);
    }
  }

  /** No eviction and a batch: the pass from the credited table kept everything. */
  lemma {:induction false} NoEvictionIsKeepsAll(c: Config, t: Table, ds: seq<DepositRequest>, cs: seq<Candidate>)
    requires c.e.order > 0 && |ds| <= c.dSlots && |cs| <= c.nSlots && BuildDeposits(c.e, t, 0, ds).outcome.Built?
    ensures var r := Restart(c, t, ds, cs);
            r.dropped == [] && r.attempt.Ready? <==> KeepsAll(c.e, BuildDeposits(c.e, t, 0, ds).table, cs)
  {
    var t1 := BuildDeposits(c.e, t, 0, ds).table;
    RestartIsOnePass(c, t, ds, cs);
    PassSplits(c.e, t1, cs);
    NothingDropped(c.e, t1, cs);
  }

  lemma {:induction false} CreditedTable(e: Env, t: Table, ds: seq<DepositRequest>, cs: seq<Candidate>)
    requires ValidEnv(e) && WellFormed(e, t) && (forall j :: 0 <= j < |ds| ==> RequestTyped(e, ds[j]))
    requires BuildDeposits(e, t, 0, ds).outcome.Built?
    ensures var t1 := BuildDeposits(e, t, 0, ds).table;
            && WellFormed(e, t1) && TotalBalance(e, t1) == TotalBalance(e, t) + Amounts(DepositPairs(ds))
            && Tracks(t, t1, []) && KnownAfter(t, ds, t1) && (Reachable(t, ds, cs) <==> AllDeliverable(t1, cs))
  {
    var t1 := BuildDeposits(e, t, 0, ds).table;
    DepositsGive(e, t, 0, ds);
    assert ds[0..] == ds;
    TracksStart(t);
    DepositsTrack(e, t, t, 0, ds);
    ReachableIs(t, t1, ds, cs);
  }

  /** Under orderly waiting rows, a selection builds without a single eviction
      exactly when no waiting row of a selected sender was skipped before a
      selected one, every recipient is in the tree or among the deposits taken, and
      no nonce is at its maximum. */
  lemma {:induction false} NoEvictionIff(c: Config, t: Table, ds: seq<DepositRequest>, rows: seq<MempoolRow>,
                                         cs: seq<Candidate>)
    requires ValidEnv(c.e) && WellFormed(c.e, t) && SendersOrderly(c.e, t, rows, cs)
    requires AllPending(rows, cs) && AllTypedTxs(c.e, cs) && |cs| <= c.nSlots
    requires |ds| <= c.dSlots && (forall j :: 0 <= j < |ds| ==> RequestTyped(c.e, ds[j]))
    requires BuildDeposits(c.e, t, 0, ds).outcome.Built?
    requires TotalBalance(c.e, t) + Amounts(DepositPairs(ds)) < U64
    ensures var r := Restart(c, t, ds, cs);
            r.dropped == [] && r.attempt.Ready? <==> Fair(rows, cs) && Reachable(t, ds, cs)
  {
    NoEvictionIsKeepsAll(c, t, ds, cs);
    CreditedTable(c.e, t, ds, cs);
    KeepsAllIff(c.e, t, BuildDeposits(c.e, t, 0, ds).table, rows, cs);
  }

  // ---------- a window with few withdrawals is fair ----------

  /** The waiting rows among the first candidates. */
  lemma {:induction false} PendingPrefix(rows: seq<MempoolRow>, i: nat, limit: nat, k: nat, pk: int)
    requires k <= |PendingTxs(rows, i, limit)|
    requires forall id :: i <= id < |rows| ==> !rows[id].status.TxBatching?
    ensures Of(Txs(PendingTxs(rows, i, limit)[..k]), pk) <= LiveTxs(rows, pk, i)
    decreases |rows| - i
  {
    if k > 0 {
      var all := PendingTxs(rows, i, limit);
      if rows[i].status.TxPending? {
        var rest := PendingTxs(rows, i + 1, limit - 1);
        PendingPrefix(rows, i + 1, limit - 1, k - 1, pk);
        assert all[..k] == [all[0]] + rest[..k - 1];
        assert Txs(all[..k]) == [all[0].tx] + Txs(rest[..k - 1]);
        OfAppend([all[0].tx], Txs(rest[..k - 1]), pk);
        OfOne(all[0].tx, pk);
      } else {
        PendingPrefix(rows, i + 1, limit, k, pk);
      }
    }
  }

  /** With no more withdrawals than fit, the window is the first candidates. */
  lemma {:induction false} WindowIsPrefix(cs: seq<Candidate>, room: nat, exits: nat)
    requires ExitCount(cs) <= exits
    ensures Window(cs, room, exits) == cs[..if room <= |cs| then room else |cs|]
    decreases |cs|
  {
    if cs != [] && room > 0 {
      if cs[0].tx.isWithdraw {
        WindowIsPrefix(cs[1..], room - 1, exits - 1);
      } else {
        WindowIsPrefix(cs[1..], room - 1, exits);
      }
      var n := if room <= |cs| then room else |cs|;
      assert cs[..n] == [cs[0]] + cs[1..][..n - 1];
    }
  }

  /** With no batch in flight and at most eight withdrawals among the candidates,
      every selection is fair. */
  lemma {:induction false} FewWithdrawalsAreFair(c: Config, db: Db)
    requires forall id :: 0 <= id < |db.mempool| ==> !db.mempool[id].status.TxBatching?
    requires ExitCount(PendingTxs(db.mempool, 0, 4 * c.nSlots)) <= MAX_WITHDRAWALS
    ensures Fair(db.mempool, SelectedTxs(c, db))
  {
    var all := PendingTxs(db.mempool, 0, 4 * c.nSlots);
    var n := if c.nSlots <= |all| then c.nSlots else |all|;
    WindowIsPrefix(all, c.nSlots, MAX_WITHDRAWALS);
    forall k | 0 <= k < |all[..n]|
      ensures FairFor(db.mempool, all[..n], all[..n][k].tx.fromPkX) {
      PendingPrefix(db.mempool, 0, 4 * c.nSlots, n, all[..n][k].tx.fromPkX);
    }
  }

  // ---------- where admission does not imply building ----------

  lemma {:induction false} FullWindow(cs: seq<Candidate>, a: Candidate, b: Candidate, room: nat)
    requires (forall k :: 0 <= k < |cs| ==> cs[k].tx.isWithdraw) && a.tx.isWithdraw && !b.tx.isWithdraw && room > |cs|
    ensures Window(cs + [a, b], room, |cs|) == cs + [b]
    decreases |cs|
  {
    if cs == [] {
      assert [a, b][1..] == [b] && [b][1..] == [];
      assert Window([b], room, 0) == [b] + Window([], room - 1, 0);
      assert Window([a, b], room, 0) == Window([b], room, 0);
      assert cs + [a, b] == [a, b] && cs + [b] == [b];
    } else {
      assert (cs + [a, b])[0] == cs[0] && (cs + [a, b])[1..] == cs[1..] + [a, b];
      FullWindow(cs[1..], a, b, room - 1);
      assert [cs[0]] + (cs[1..] + [b]) == cs + [b];
    }
  }

  lemma {:induction false} PassThenDrop(e: Env, u: Table, cs: seq<Candidate>, b: Candidate)
    requires e.order > 0 && KeepsAll(e, u, cs)
    requires var s := TxStep(e, OnePass(e, u, cs).table, 0, RowToSigned(e, b.tx));
             s.outcome.Failed? && BadTx(s.outcome.error).Some?
    ensures var p := OnePass(e, u, cs + [b]); p.kept == cs && p.dropped == [b] && p.halt.None?
    decreases |cs|
  {
    if cs == [] {
      assert cs + [b] == [b] && [b][1..] == [];
    } else {
      assert (cs + [b])[0] == cs[0] && (cs + [b])[1..] == cs[1..] + [b];
      assert cs[0..] == cs;
      KeepsNext(e, u, cs, 0);
      PassThenDrop(e, TxStep(e, u, 0, RowToSigned(e, cs[0].tx)).table, cs[1..], b);
      assert [cs[0]] + cs[1..] == cs;
    }
  }

  lemma {:induction false} PassEndsAt(e: Env, t: Table, t1: Table, u: Table, cs: seq<Candidate>, k: nat)
    requires ValidEnv(e) && k <= |cs| && AllTypedTxs(e, cs) && At(e, t, t1, u, cs, k) && KeepsAll(e, u, cs[k..])
    ensures At(e, t, t1, OnePass(e, u, cs[k..]).table, cs, |cs|)
    decreases |cs| - k
  {
    if k < |cs| {
      KeepsNext(e, u, cs, k);
      AtNext(e, t, t1, u, cs, k);
      PassEndsAt(e, t, t1, TxStep(e, u, 0, RowToSigned(e, cs[k].tx)).table, cs, k + 1);
      assert cs[k..][0] == cs[k] && cs[k..][1..] == cs[k + 1..];
    }
  }

  lemma {:induction false} OthersOnly(cs: seq<Candidate>, pk: int)
    requires forall k :: 0 <= k < |cs| ==> cs[k].tx.fromPkX != pk
    ensures Of(Txs(cs), pk) == []
    decreases |cs|
  {
    if cs != [] { OthersOnly(cs[1..], pk); }
  }

  /** A sender's second row met without its first is a nonce ahead. */
  lemma {:induction false} AheadIsEvicted(e: Env, t: Table, t1: Table, u: Table, cs: seq<Candidate>, a: StoredTx,
                                          b: StoredTx)
    requires ValidEnv(e) && WellFormed(e, t) && At(e, t, t1, u, cs, |cs|) && Typed(e, b)
    requires Orderly(e, t, b.fromPkX, [a, b]) && Of(Txs(cs), b.fromPkX) == []
    ensures var s := TxStep(e, u, 0, RowToSigned(e, b)); s.outcome.Failed? && BadTx(s.outcome.error) == Some(0)
  {
    assert [a, b][1] == b;
    assert cs[..|cs|] == cs;
    TracksSender(e, t, u, Txs(cs), b.fromPkX);
  }

  /** Admission does not imply building. Eight withdrawals of other senders, then one
      sender's withdrawal a and transfer b, all admitted and able to build: the
      window skips a, takes b, and b is evicted. */
  lemma {:induction false} NinthWithdrawalEvicts(c: Config, t: Table, ds: seq<DepositRequest>, db: Db,
                                                 cs: seq<Candidate>, a: Candidate, b: Candidate)
    requires ValidEnv(c.e) && WellFormed(c.e, t) && SendersOrderly(c.e, t, db.mempool, cs + [b])
    requires PendingTxs(db.mempool, 0, 4 * c.nSlots) == cs + [a, b] && |cs| == MAX_WITHDRAWALS < c.nSlots
    requires (forall k :: 0 <= k < |cs| ==> cs[k].tx.isWithdraw && cs[k].tx.fromPkX != b.tx.fromPkX)
    requires a.tx.isWithdraw && !b.tx.isWithdraw && LiveTxs(db.mempool, b.tx.fromPkX, 0) == [a.tx, b.tx]
    requires AllTypedTxs(c.e, cs + [b]) && Fair(db.mempool, cs) && Reachable(t, ds, cs)
    requires |ds| <= c.dSlots && (forall j :: 0 <= j < |ds| ==> RequestTyped(c.e, ds[j]))
    requires BuildDeposits(c.e, t, 0, ds).outcome.Built? && TotalBalance(c.e, t) + Amounts(DepositPairs(ds)) < U64
    ensures SelectedTxs(c, db) == cs + [b] && !Fair(db.mempool, SelectedTxs(c, db))
    ensures var r := Restart(c, t, ds, SelectedTxs(c, db)); r.dropped == [b] && r.attempt.Ready? && r.attempt.rows == cs
  {
    var e, t1 := c.e, BuildDeposits(c.e, t, 0, ds).table;
    FullWindow(cs, a, b, c.nSlots);
    CreditedTable(e, t, ds, cs);
    assert forall k :: 0 <= k < |cs| ==> cs[k] == (cs + [b])[k];
    assert (cs + [b])[|cs|] == b;
    assert cs[0..] == cs && Txs(cs[..0]) == [];
    FairBuilds(e, t, t1, t1, db.mempool, cs, 0);
    PassEndsAt(e, t, t1, t1, cs, 0);
    OthersOnly(cs, b.tx.fromPkX);
    AheadIsEvicted(e, t, t1, OnePass(e, t1, cs).table, cs, a.tx, b.tx);
    PassThenDrop(e, t1, cs, b);
    RestartIsOnePass(c, t, ds, cs + [b]);
    assert [] + cs == cs;
    UnfairSelection(db.mempool, cs, a, b);
  }

  lemma {:induction false} UnfairSelection(rows: seq<MempoolRow>, cs: seq<Candidate>, a: Candidate, b: Candidate)
    requires (forall k :: 0 <= k < |cs| ==> cs[k].tx.fromPkX != b.tx.fromPkX) && a.tx.isWithdraw && !b.tx.isWithdraw
    requires LiveTxs(rows, b.tx.fromPkX, 0) == [a.tx, b.tx]
    ensures !Fair(rows, cs + [b])
  {
    OthersOnly(cs, b.tx.fromPkX);
    OfSnoc(Txs(cs), b.tx, b.tx.fromPkX);
    assert Txs(cs + [b]) == Txs(cs) + [b.tx];
    assert (cs + [b])[|cs|] == b;
    assert [b.tx][0] != [a.tx, b.tx][0];
  }

  /** The evicted row then blocks its sender: while it holds the nonce the sender is
      expected to use next, no submission of that sender is ever stored. */
  lemma {:induction false} EvictedSenderIsStuck(c: Config, db: Db, t: Table, w: WireTx, id: nat)
    requires c.e.p > 0 && c.e.order > 0 && ParseSender(c.e, w).Ok? && id < |db.mempool|
    requires var pk := ParseSender(c.e, w).value.0;
             && db.mempool[id].tx.fromPkX == pk && Find(c.e, t, pk).Some?
             && db.mempool[id].tx.nonce == t[Find(c.e, t, pk).value].nonce + |LiveTxs(db.mempool, pk, 0)|
    ensures SubmitTx(c, db, t, w).0 == []
  {
    SubmitWrites(c, db, t, w);
    var ws := SubmitTx(c, db, t, w).0;
    if ws != [] {
      var (x, y, amount) := ParseSender(c.e, w).value;
      var (to, dest) := ParseTo(c, w.to).value;
      SignedKeeps(c.e, w, x, y, amount, to, dest);
    }
  }
}
