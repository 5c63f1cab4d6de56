/** The engine object (engine.rs): tables and live tree updated in place, each
    command refining its function in Commands. */
module Sequencer {
  import opened Hashing
  import opened Merkle
  import opened Circuit
  import opened Trees
  import opened Builder
  import opened Contract
  import opened Database
  import opened Eviction
  import opened Commands

  /** Entries already parsed, followed by the parse of the rest. */
  function Joined<T>(done: seq<T>, rest: Option<seq<T>>): Option<seq<T>> {
    match rest case None => None case Some(xs) => Some(done + xs)
  }

  lemma {:induction false} ParseDepositsNext(e: Env, ds: seq<BlobDeposit>, i: nat, done: seq<DepositRequest>)
    requires e.p > 0 && i < |ds|
    ensures var d := ParseDeposit(e, ds[i]);
            Joined(done, ParseDeposits(e, ds[i..]))
            == if d.None? then None else Joined(done + [d.value], ParseDeposits(e, ds[i + 1..]))
  {
    assert ds[i..][1..] == ds[i + 1..];
    var d, rest := ParseDeposit(e, ds[i]), ParseDeposits(e, ds[i + 1..]);
    if d.Some? && rest.Some? { assert done + ([d.value] + rest.value) == done + [d.value] + rest.value; }
  }

  lemma {:induction false} ParseTxsNext(e: Env, ts: seq<BlobTx>, i: nat, done: seq<SignedTx>)
    requires e.p > 0 && e.order > 0 && i < |ts|
    ensures var t := ParseTx(e, ts[i]);
            Joined(done, ParseTxs(e, ts[i..]))
            == if t.None? then None else Joined(done + [t.value], ParseTxs(e, ts[i + 1..]))
  {
    assert ts[i..][1..] == ts[i + 1..];
    var t, rest := ParseTx(e, ts[i]), ParseTxs(e, ts[i + 1..]);
    if t.Some? && rest.Some? { assert done + ([t.value] + rest.value) == done + [t.value] + rest.value; }
  }

  lemma {:induction false} JoinedNothing<T>(r: Option<seq<T>>)
    ensures Joined([], r) == r
  {
    if r.Some? { assert [] + r.value == r.value; }
  }

  method ParseStoredDeposits(e: Env, bs: seq<BlobDeposit>) returns (r: Option<seq<DepositRequest>>)
    requires e.p > 0
    ensures r == ParseDeposits(e, bs)
  {
    var ds: seq<DepositRequest> := [];
    JoinedNothing(ParseDeposits(e, bs));
    for i := 0 to |bs|
      invariant ParseDeposits(e, bs) == Joined(ds, ParseDeposits(e, bs[i..]))
    {
      ParseDepositsNext(e, bs, i, ds);
      var d := ParseDeposit(e, bs[i]);
      if d.None? { return None; }
      ds := ds + [d.value];
    }
    assert ds + [] == ds;
    return Some(ds);
  }

  method ParseStoredTxs(e: Env, bs: seq<BlobTx>) returns (r: Option<seq<SignedTx>>)
    requires e.p > 0 && e.order > 0
    ensures r == ParseTxs(e, bs)
  {
    var ts: seq<SignedTx> := [];
    JoinedNothing(ParseTxs(e, bs));
    for i := 0 to |bs|
      invariant ParseTxs(e, bs) == Joined(ts, ParseTxs(e, bs[i..]))
    {
      ParseTxsNext(e, bs, i, ts);
      var t := ParseTx(e, bs[i]);
      if t.None? { return None; }
      ts := ts + [t.value];
    }
    assert ts + [] == ts;
    return Some(ts);
  }

  /** `parse_blob`: two loops that push, giving up at the first bad entry. */
  method ParseStored(e: Env, b: Blob) returns (r: Option<(seq<DepositRequest>, seq<SignedTx>)>)
    requires e.p > 0 && e.order > 0
    ensures r == ParseBlob(e, b)
  {
    var ds := ParseStoredDeposits(e, b.deposits);
    if ds.None? { return None; }
    var ts := ParseStoredTxs(e, b.txs);
    if ts.None? { return None; }
    return Some((ds.value, ts.value));
  }

  /** Rows taken so far, followed by what the window takes from the rest. */
  function Taken(txs: seq<Candidate>, rest: seq<Candidate>, room: nat, exits: nat): seq<Candidate> {
    txs + Window(rest, room, exits)
  }

  lemma {:induction false} TakenNext(txs: seq<Candidate>, cs: seq<Candidate>, i: nat, room: nat, exits: nat)
    requires i < |cs|
    ensures var t := cs[i];
            Taken(txs, cs[i..], room, exits) ==
            if room == 0 || (t.tx.isWithdraw && exits == 0) then Taken(txs, cs[i + 1..], room, exits)
            else Taken(txs + [t], cs[i + 1..], room - 1, if t.tx.isWithdraw then exits - 1 else exits)
  {
    var t := cs[i];
    assert cs[i..][0] == t && cs[i..][1..] == cs[i + 1..];
    if room != 0 && !(t.tx.isWithdraw && exits == 0) {
      var rest := Window(cs[i + 1..], room - 1, if t.tx.isWithdraw then exits - 1 else exits);
      assert txs + ([t] + rest) == txs + [t] + rest;
    }
  }

  /** The `retain` loop of `build_batch_now`. */
  method SelectTxs(c: Config, candidates: seq<Candidate>) returns (txs: seq<Candidate>)
    ensures txs == Window(candidates, c.nSlots, MAX_WITHDRAWALS)
  {
    txs := [];
    var withdrawals := 0;
    assert candidates[0..] == candidates;
    assert [] + Window(candidates, c.nSlots, MAX_WITHDRAWALS) == Window(candidates, c.nSlots, MAX_WITHDRAWALS);
    for i := 0 to |candidates|
      invariant |txs| <= c.nSlots && withdrawals <= MAX_WITHDRAWALS
      invariant Taken(txs, candidates[i..], c.nSlots - |txs|, MAX_WITHDRAWALS - withdrawals)
             == Window(candidates, c.nSlots, MAX_WITHDRAWALS)
    {
      var t := candidates[i];
      TakenNext(txs, candidates, i, c.nSlots - |txs|, MAX_WITHDRAWALS - withdrawals);
      if |txs| < c.nSlots && !(t.tx.isWithdraw && withdrawals >= MAX_WITHDRAWALS) {
        if t.tx.isWithdraw { withdrawals := withdrawals + 1; }
        txs := txs + [t];
      }
    }
    assert txs + [] == txs;
  }

  // ---------- one more statement of a loop ----------

  lemma {:induction false} AddDepositsNext(log: seq<Write>, deps: seq<(nat, PendingDeposit)>, i: nat)
    requires i < |deps|
    ensures log + AddDeposits(deps[i..]) == log + [AddDeposit(deps[i].0, deps[i].1)] + AddDeposits(deps[i + 1..])
    ensures MaxSeq(deps[i..]) == Max(deps[i].0, MaxSeq(deps[i + 1..]))
  {
    assert deps[i..][1..] == deps[i + 1..];
  }

  lemma {:induction false} TakeDepositsNext(log: seq<Write>, seqs: seq<nat>, num: nat, i: nat)
    requires i < |seqs|
    ensures log + TakeDeposits(seqs[i..], num) == log + [TakeDeposit(seqs[i], num)] + TakeDeposits(seqs[i + 1..], num)
  {
    assert seqs[i..][1..] == seqs[i + 1..];
  }

  lemma {:induction false} TakeTxsNext(log: seq<Write>, cs: seq<Candidate>, num: nat, i: nat)
    requires i < |cs|
    ensures log + TakeTxs(cs[i..], num) == log + [TakeTx(cs[i].id, num)] + TakeTxs(cs[i + 1..], num)
  {
    assert cs[i..][1..] == cs[i + 1..];
  }

  /** What is already logged, and what the loop still has to do. */
  function Remaining(log: seq<Write>, r: Eviction): (seq<Write>, Attempt) {
    (log + Rejects(r.dropped), r.attempt)
  }

  lemma {:induction false} RestartNext(c: Config, t: Table, ds: seq<DepositRequest>, txs: seq<Candidate>,
                                       log: seq<Write>, i: nat)
    requires c.e.order > 0 && i < |txs|
    requires var b := Build(c.e, t, c.dSlots, c.nSlots, ds, Signed(c.e, txs)).outcome;
             b.Failed? && !(Jam(b.error) && ds != []) && BadTx(b.error) == Some(i)
    ensures Remaining(log, Restart(c, t, ds, txs)) ==
            if Without(txs, i) == [] && ds == [] then (log + [RejectTx(txs[i].id)], Stalled)
            else Remaining(log + [RejectTx(txs[i].id)], Restart(c, t, ds, Without(txs, i)))
  {
    if Without(txs, i) == [] && ds == [] {
      RemainingCons(log, txs[i], Eviction([], Stalled));
    } else {
      RemainingCons(log, txs[i], Restart(c, t, ds, Without(txs, i)));
    }
  }

  lemma {:induction false} RemainingCons(log: seq<Write>, x: Candidate, r: Eviction)
    ensures Remaining(log, Eviction([x] + r.dropped, r.attempt)) == Remaining(log + [RejectTx(x.id)], r)
    ensures Remaining(log, Eviction([x], r.attempt)) == (log + [RejectTx(x.id)], r.attempt)
  {
    RejectsCons(x, r.dropped);
    RejectsCons(x, []);
    assert [x] + [] == [x] && [RejectTx(x.id)] + [] == [RejectTx(x.id)];
    assert log + ([RejectTx(x.id)] + Rejects(r.dropped)) == log + [RejectTx(x.id)] + Rejects(r.dropped);
  }

  lemma {:induction false} RejectsCons(x: Candidate, cs: seq<Candidate>)
    ensures Rejects([x] + cs) == [RejectTx(x.id)] + Rejects(cs)
  {
    assert ([x] + cs)[1..] == cs;
  }

  lemma {:induction false} WritesRegroup(a: seq<Write>, b: seq<Write>, c: seq<Write>)
    ensures a + b + c == a + (b + c)
  {}

  predicate TakenBy(row: MempoolRow, num: nat) {
    row.status.TxBatching? && row.batchNum == Some(num)
  }

  predicate DepositTakenBy(row: DepositRow, num: nat) {
    row.status.DepBatching? && row.batchNum == Some(num)
  }

  class Engine {
    const c: Config
    var db: Db
    var tree: Tree
    var synced: bool
    ghost var log: seq<Write>   // every statement executed so far
    ghost const start: Db       // the tables this process opened

    ghost predicate Valid()
      reads this, tree
    {
      ValidConfig(c) && SlotsInRange(c.e, tree.leaves) && db == ApplyAll(start, log)
    }

    /** `spawn`. */
    constructor (c: Config, db: Db, tree: Tree)
      requires ValidConfig(c) && SlotsInRange(c.e, tree.leaves)
      ensures Valid() && this.c == c && this.db == db && this.tree == tree && synced && log == []
    {
      this.c, this.db, this.tree, this.synced := c, db, tree, true;
      log, start := [], db;
    }

    /** One statement on the connection. */
    method Execute(w: Write)
      requires Valid()
      modifies this`db, this`log
      ensures Valid() && db == Apply(old(db), w) && log == old(log) + [w]
    {
      ApplyAppend(start, log, [w]);
      assert [w][1..] == [];
      db := Apply(db, w);
      log := log + [w];
    }

    method SubmitTx(w: WireTx) returns (reply: Answer<Receipt>)
      requires Valid()
      modifies this`db, this`log
      ensures Valid()
      ensures var (writes, r) := Commands.SubmitTx(c, old(db), tree.leaves, w);
              log == old(log) + writes && reply == r
    {
      assert log + [] == log;
      if CountPendingTxs(db.mempool, 0) >= MEMPOOL_MAX_PENDING { return Err(RateLimited); }
      var sender := ParseSender(c.e, w);
      if sender.Err? { return Err(sender.error); }
      if sender.Crash? { return Crash; }
      var (x, y, amount) := sender.value;
      var known := FindTx(db.mempool, x, w.nonce, 0);
      if known.Some? { return Ok(Receipt(known.value, db.mempool[known.value].status)); }
      var to := ParseTo(c, w.to);
      if to.Err? { return Err(to.error); }
      if to.Crash? { return Crash; }
      var signed := ParseSigned(c.e, w, x, y, amount, to.value.0, to.value.1);
      if signed.Err? { return Err(signed.error); }
      if signed.Crash? { return Crash; }
      var admitted := Admission(c.e, db, tree.leaves, signed.value);
      if admitted.Err? { return Err(admitted.error); }
      if admitted.Crash? { return Crash; }
      var id := |db.mempool|;
      Execute(AddTx(signed.value));
      return Ok(Receipt(id, TxPending));
    }

    method ObservedDeposits(deps: seq<(nat, PendingDeposit)>)
      requires Valid()
      modifies this`db, this`log
      ensures Valid()
      ensures log == old(log) + Commands.ObservedDeposits(deps)
    {
      assert deps[0..] == deps && log + [] == log;
      var maxSeq := 0;
      for i := 0 to |deps|
        invariant Valid()
        invariant log + AddDeposits(deps[i..]) == old(log) + AddDeposits(deps)
        invariant Max(maxSeq, MaxSeq(deps[i..])) == MaxSeq(deps)
      {
        AddDepositsNext(log, deps, i);
        maxSeq := Max(maxSeq, deps[i].0);
        Execute(AddDeposit(deps[i].0, deps[i].1));
      }
      assert log + [] == log;
      if deps != [] { Execute(SetCursor(maxSeq + 1)); }
    }

    method TryBuildBatch(waited: bool) returns (reply: Answer<Option<Job>>)
      requires Valid()
      modifies this`db, this`log
      ensures Valid()
      ensures var (writes, r) := TryBuild(c, old(db), tree.leaves, synced, waited);
              log == old(log) + writes && reply == r
    {
      assert log + [] == log;
      if !synced || Inflight(db).Some? { return Ok(None); }
      var txs, deps := CountPendingTxs(db.mempool, 0), CountPendingDeposits(db, 0);
      if txs == 0 && deps == 0 { return Ok(None); }
      if !(txs > 1 || deps >= c.dSlots || waited) { return Ok(None); }
      reply := BuildBatchNow();
    }

    method BuildBatchNow() returns (reply: Answer<Option<Job>>)
      requires Valid()
      modifies this`db, this`log
      ensures Valid()
      ensures var (writes, r) := BuildNow(c, old(db), tree.leaves);
              log == old(log) + writes && reply == r
    {
      var seqs := PendingDeposits(db, 0, c.dSlots);
      var deps := DepositsAt(db, seqs);
      var txs := SelectTxs(c, PendingTxs(db.mempool, 0, 4 * c.nSlots));
      assert txs == SelectedTxs(c, db);
      ghost var r := Restart(c, tree.leaves, Requests(deps), SelectedTxs(c, db));
      ghost var num, taken := db.confirmed + 1, db.confirmed + 1 in db.batches;
      ghost var spec := BuildNow(c, db, tree.leaves);
      assert spec == Settle(num, taken, seqs, deps, r);
      var attempt := EvictAndBuild(Requests(deps), txs);
      reply := SettleBatch(attempt, seqs, deps, old(log), r, num, taken);
    }

    /** After the loop: the batch row and its inputs, or nothing. */
    method SettleBatch(attempt: Attempt, seqs: seq<nat>, deps: seq<PendingDeposit>,
                       ghost before: seq<Write>, ghost r: Eviction, ghost num: nat, ghost taken: bool)
      returns (reply: Answer<Option<Job>>)
      requires Valid() && |seqs| == |deps| && attempt == r.attempt && log == before + Rejects(r.dropped)
      requires num == db.confirmed + 1 && taken == (num in db.batches)
      modifies this`db, this`log
      ensures Valid()
      ensures var (writes, answer) := Settle(num, taken, seqs, deps, r);
              log == before + writes && reply == answer
    {
      match attempt
      case Stalled => return Ok(None);
      case Died => return Crash;
      case Ready(kept, wit) =>
        WritesRegroup(before, Rejects(r.dropped), Commands.InsertBatch(num, taken, wit, seqs, deps, kept).0);
        reply := InsertBatch(wit, seqs, deps, kept);
    }

    /** The `loop` of `build_batch_now`: `txs` shrinks by one per failed build. */
    method EvictAndBuild(ds: seq<DepositRequest>, selected: seq<Candidate>) returns (attempt: Attempt)
      requires Valid()
      modifies this`db, this`log
      ensures Valid() && db.confirmed == old(db.confirmed) && db.batches == old(db.batches)
      ensures var r := Restart(c, tree.leaves, ds, selected);
              log == old(log) + Rejects(r.dropped) && attempt == r.attempt
    {
      var txs := selected;
      assert log + [] == log;
      ghost var all := Remaining(log, Restart(c, tree.leaves, ds, selected));
      while true
        invariant Valid() && db.confirmed == old(db.confirmed) && db.batches == old(db.batches)
        invariant all == Remaining(log, Restart(c, tree.leaves, ds, txs))
        decreases |txs|
      {
        var work := new Tree.Clone(tree.leaves);
        var signed := Signed(c.e, txs);
        var outcome := BuildBatch(c.e, work, c.dSlots, c.nSlots, ds, signed);
        assert log + [] == log;
        match outcome {
          case Built(wit) => return Ready(txs, wit);
          case Aborted => return Died;
          case Failed(err) =>
            if Jam(err) && ds != [] { return Stalled; }
            var bad := BadTx(err);
            if bad.None? { return Stalled; }
            BadTxInRange(c.e, tree.leaves, c.dSlots, c.nSlots, ds, signed);
            RestartNext(c, tree.leaves, ds, txs, log, bad.value);
            var evicted := txs[bad.value];
            txs := Without(txs, bad.value);
            Execute(RejectTx(evicted.id));
            if txs == [] && ds == [] { return Stalled; }
        }
      }
    }

    /** The three writes of a build, in the source's order. */
    method InsertBatch(wit: BatchWitness, seqs: seq<nat>, deps: seq<PendingDeposit>, txs: seq<Candidate>)
      returns (reply: Answer<Option<Job>>)
      requires Valid() && |seqs| == |deps|
      modifies this`db, this`log
      ensures Valid()
      ensures var num := old(db).confirmed + 1;
              var (writes, r) := Commands.InsertBatch(num, num in old(db).batches, wit, seqs, deps, txs);
              log == old(log) + writes && reply == r
    {
      assert log + [] == log;
      ghost var log0 := log;
      var num := db.confirmed + 1;
      if num in db.batches { return Err(Internal); }
      Execute(AddBatch(num, NewBatch(wit, seqs, deps, txs)));
      SetDepositsBatching(seqs, num);
      SetTxsBatching(txs, num);
      WritesRegroup(log0, [AddBatch(num, NewBatch(wit, seqs, deps, txs))], TakeDeposits(seqs, num));
      WritesRegroup(log0, [AddBatch(num, NewBatch(wit, seqs, deps, txs))] + TakeDeposits(seqs, num), TakeTxs(txs, num));
      return Ok(Some(Job(num, wit)));
    }

    /** db.rs `deposits_set_status`, one statement per row. */
    method SetDepositsBatching(seqs: seq<nat>, num: nat)
      requires Valid()
      modifies this`db, this`log
      ensures Valid() && log == old(log) + TakeDeposits(seqs, num)
    {
      assert seqs[0..] == seqs;
      for i := 0 to |seqs|
        invariant Valid() && log + TakeDeposits(seqs[i..], num) == old(log) + TakeDeposits(seqs, num)
      {
        TakeDepositsNext(log, seqs, num, i);
        Execute(TakeDeposit(seqs[i], num));
      }
      assert log + [] == log;
    }

    /** db.rs `mempool_set_status`, one statement per row. */
    method SetTxsBatching(txs: seq<Candidate>, num: nat)
      requires Valid()
      modifies this`db, this`log
      ensures Valid() && log == old(log) + TakeTxs(txs, num)
    {
      assert txs[0..] == txs;
      for i := 0 to |txs|
        invariant Valid() && log + TakeTxs(txs[i..], num) == old(log) + TakeTxs(txs, num)
      {
        TakeTxsNext(log, txs, num, i);
        Execute(TakeTx(txs[i].id, num));
      }
      assert log + [] == log;
    }

    method RecordProof(num: nat, proof: Proof, words: seq<int>) returns (reply: Answer<Envelope>)
      requires Valid()
      modifies this`db, this`log
      ensures Valid()
      ensures var (writes, r) := Commands.RecordProof(old(db), num, proof, words);
              log == old(log) + writes && reply == r
      ensures reply.Ok? <==>
              && num in old(db.batches) && |words| == 5 && proof.bytes == PROOF_BYTES
              && words[0] == old(db.batches)[num].oldRoot && words[1] == old(db.batches)[num].newRoot
              && words[4] == old(db.batches)[num].daCommitment
      ensures db == if reply.Ok? then old(db).(batches := db.batches) else old(db)
      ensures reply.Ok? ==>
              && num in db.batches && db.batches == old(db.batches)[num := db.batches[num]]
                 && reply.value == db.batches[num].envelope
              && db.batches[num].proof == Some(proof) == Some(reply.value.proof) && db.batches[num].status.Proved?
    {
      assert log + [] == log;
      if num !in db.batches { return Err(NotFound); }
      var batch := db.batches[num];
      if |words| != 5 || words[0] != batch.oldRoot || words[1] != batch.newRoot || words[4] != batch.daCommitment {
        return Err(Internal);
      }
      if proof.bytes != PROOF_BYTES { return Err(Internal); }
      Execute(SetProof(num, proof));
      return Ok(batch.envelope.(proof := proof));
    }

    method MarkSubmitting(num: nat) returns (reply: Answer<Envelope>)
      requires Valid()
      modifies this`db, this`log
      ensures Valid()
      ensures var (writes, r) := Commands.MarkSubmitting(old(db), num);
              log == old(log) + writes && reply == r
      ensures reply.Ok? <==> num in old(db.batches) && old(db.batches)[num].proof.Some?
      ensures reply.Ok? ==>
              && reply.value == old(db.batches)[num].envelope
              && db == old(db).(batches := old(db.batches)[num := old(db.batches)[num].(status := Submitting)])
      ensures !reply.Ok? ==> db == old(db)
    {
      assert log + [] == log;
      if num !in db.batches { return Err(NotFound); }
      var batch := db.batches[num];
      if batch.proof.None? { return Err(Internal); }
      Execute(SetStatus(num, Submitting));
      return Ok(batch.envelope);
    }

    method MarkSubmitted(num: nat)
      requires Valid()
      modifies this`db, this`log
      ensures Valid() && log == old(log) + [SetStatus(num, Submitted)]
    {
      Execute(SetStatus(num, Submitted));
    }

    /** Replay on a clone; the live tree moves only if the stored root comes out. */
    method ConfirmBatch(num: nat) returns (reply: Answer<()>)
      requires Valid()
      modifies this`db, this`log, this`tree
      ensures Valid() && (tree == old(tree) || fresh(tree))
      ensures var (writes, leaves, r) := Confirm(c, old(db), old(tree.leaves), num);
              log == old(log) + writes && tree.leaves == leaves && reply == r
    {
      assert log + [] == log;
      if num !in db.batches { return Err(NotFound); }
      var batch := db.batches[num];
      var inputs := ParseStored(c.e, batch.blob);
      if inputs.None? { return Err(Internal); }
      var work := new Tree.Clone(tree.leaves);
      var outcome := BuildBatch(c.e, work, c.dSlots, c.nSlots, inputs.value.0, inputs.value.1);
      BuildKeepsRange(c.e, tree.leaves, c.dSlots, c.nSlots, inputs.value.0, inputs.value.1);
      if outcome.Failed? { return Err(Internal); }
      if outcome.Aborted? { return Crash; }
      if outcome.value.pub.newRoot != batch.newRoot { return Err(Internal); }
      tree := work;
      Execute(Finish(num, tree.leaves, BlobSeqs(batch.blob), BlobIds(batch.blob)));
      return Ok(());
    }

    /** Every row tagged with the number is freed, no other row changes, and the batch
        is gone. */
    method FailBatch(num: nat)
      requires Valid()
      modifies this`db, this`log
      ensures Valid() && log == old(log) + [Requeue(num)]
      ensures |db.mempool| == |old(db.mempool)|
      ensures forall i :: 0 <= i < |db.mempool| ==>
                db.mempool[i] == if TakenBy(old(db.mempool[i]), num)
                  then MempoolRow(old(db.mempool[i]).tx, TxPending, None)
                                 else old(db.mempool[i])
      ensures db.deposits.Keys == old(db.deposits.Keys)
      ensures forall i :: i in db.deposits ==>
                db.deposits[i] == if DepositTakenBy(old(db.deposits[i]), num)
                                  then DepositRow(old(db.deposits[i]).dep, DepPending, None) else old(db.deposits[i])
      ensures db.batches == map n | n in old(db.batches) && n != num :: old(db.batches[n])
      ensures (db.leaves, db.confirmed, db.cursor) == old((db.leaves, db.confirmed, db.cursor))
    {
      Execute(Requeue(num));
    }
  }

  lemma {:induction false} DepositsKeepRange(e: Env, t: Table, i: nat, ds: seq<DepositRequest>)
    requires SlotsInRange(e, t) && i <= |ds|
    ensures SlotsInRange(e, BuildDeposits(e, t, i, ds).table)
    decreases |ds| - i
  {
    if i < |ds| { DepositsKeepRange(e, DepositStep(e, t, i, ds[i]).table, i + 1, ds); }
  }

  lemma {:induction false} TxsKeepRange(e: Env, t: Table, i: nat, ts: seq<SignedTx>)
    requires SlotsInRange(e, t) && i <= |ts|
    ensures SlotsInRange(e, BuildTxs(e, t, i, ts).table)
    decreases |ts| - i
  {
    if i < |ts| { TxsKeepRange(e, TxStep(e, t, i, ts[i]).table, i + 1, ts); }
  }

  lemma {:induction false} BuildKeepsRange(e: Env, t: Table, dSlots: nat, nSlots: nat, ds: seq<DepositRequest>,
                                           ts: seq<SignedTx>)
    requires SlotsInRange(e, t)
    ensures SlotsInRange(e, Build(e, t, dSlots, nSlots, ds, ts).table)
  {
    DepositsKeepRange(e, t, 0, ds);
    TxsKeepRange(e, BuildDeposits(e, t, 0, ds).table, 0, ts);
  }

  /** The loop of `load_and_reconcile` that fills a fresh tree row by row. */
  method LoadTree(e: Env, leaves: Table) returns (tree: Tree)
    requires SlotsInRange(e, leaves)
    ensures fresh(tree) && tree.leaves == leaves
  {
    tree := new Tree();
    var rest := leaves.Keys;
    while rest != {}
      invariant rest <= leaves.Keys
      invariant tree.leaves.Keys == leaves.Keys - rest && forall i :: i in tree.leaves ==> tree.leaves[i] == leaves[i]
      decreases |rest|
    {
      var i :| i in rest;
      tree.Set(e, i, leaves[i]);
      rest := rest - {i};
    }
  }

  /** `load_and_reconcile` and `spawn`; None when boot refuses to go on. */
  method Start(c: Config, db: Db, chainRoot: int, chainNum: nat) returns (engine: Engine?)
    requires ValidConfig(c) && SlotsInRange(c.e, db.leaves)
    ensures var (writes, boot) := Reconcile(c.e, db, chainRoot, chainNum);
            && (engine == null <==> boot.Halted?)
            && (engine != null ==>
                  && fresh(engine) && fresh(engine.tree) && engine.Valid() && engine.c == c && engine.synced
                  && engine.db == ApplyAll(db, writes) && engine.tree.leaves == boot.tree)
  {
    var tree := LoadTree(c.e, db.leaves);
    var inflight := Inflight(db);
    if chainNum == db.confirmed + 1 {
      if inflight.Some? && db.batches[inflight.value].newRoot == chainRoot {
        engine := new Engine(c, db, tree);
        return;
      }
      return null;
    }
    if chainNum != db.confirmed { return null; }
    var localRoot := tree.ComputeRoot(c.e);
    if localRoot != chainRoot { return null; }
    var next := db;
    if inflight.Some? && db.batches[inflight.value].status.Proving? {
      next := Apply(db, Requeue(inflight.value));
      assert [Requeue(inflight.value)][1..] == [];
    }
    engine := new Engine(c, next, tree);
  }
}
