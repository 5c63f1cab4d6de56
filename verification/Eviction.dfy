/** How the engine picks the transactions of a batch (engine.rs
    `build_batch_now`): the window, the restart-on-error loop, and the single
    left-to-right pass it amounts to. */
module Eviction {
  import opened Hashing
  import opened Merkle
  import opened Circuit
  import opened Builder
  import opened Contract
  import opened Database

  function ExitCount(cs: seq<Candidate>): nat {
    if cs == [] then 0 else (if cs[0].tx.isWithdraw then 1 else 0) + ExitCount(cs[1..])
  }

  predicate Ascending(cs: seq<Candidate>) {
    forall j, k :: 0 <= j < k < |cs| ==> cs[j].id < cs[k].id
  }

  /** xs is ys with some entries left out. */
  predicate SubSeq(xs: seq<Candidate>, ys: seq<Candidate>)
    decreases |ys|
  {
    if ys == [] then xs == []
    else SubSeq(xs, ys[1..]) || (xs != [] && xs[0] == ys[0] && SubSeq(xs[1..], ys[1..]))
  }

  lemma {:induction false} SubSeqWithin(xs: seq<Candidate>, ys: seq<Candidate>)
    requires SubSeq(xs, ys)
    ensures forall x :: x in xs ==> x in ys
    ensures |xs| <= |ys| && ExitCount(xs) <= ExitCount(ys)
    decreases |ys|
  {
    if ys != [] {
      if SubSeq(xs, ys[1..]) {
        SubSeqWithin(xs, ys[1..]);
      } else {
        SubSeqWithin(xs[1..], ys[1..]);
        assert xs == [xs[0]] + xs[1..];
      }
    }
  }

  lemma {:induction false} SubSeqAscends(xs: seq<Candidate>, ys: seq<Candidate>)
    requires SubSeq(xs, ys) && Ascending(ys)
    ensures Ascending(xs)
    decreases |ys|
  {
    if ys != [] {
      if SubSeq(xs, ys[1..]) {
        SubSeqAscends(xs, ys[1..]);
      } else {
        SubSeqAscends(xs[1..], ys[1..]);
        SubSeqWithin(xs[1..], ys[1..]);
        forall j, k | 0 <= j < k < |xs| ensures xs[j].id < xs[k].id {
          assert xs[k] == xs[1..][k - 1] && xs[k] in ys[1..];
          if j > 0 { assert xs[j] == xs[1..][j - 1]; }
        }
      }
    }
  }

  lemma {:induction false} PendingAscends(rows: seq<MempoolRow>, i: nat, limit: nat)
    ensures Ascending(PendingTxs(rows, i, limit))
    decreases |rows| - i
  {
    if i < |rows| && limit > 0 {
      if rows[i].status.TxPending? {
        PendingAscends(rows, i + 1, limit - 1);
      } else {
        PendingAscends(rows, i + 1, limit);
      }
    }
  }

  /** The `retain` closure: take candidates in order, at most `room` of them and at
      most `exits` withdrawals. */
  function Window(cs: seq<Candidate>, room: nat, exits: nat): (r: seq<Candidate>)
    ensures |r| <= room
    decreases |cs|
  {
    if cs == [] || room == 0 then []
    else if !cs[0].tx.isWithdraw then [cs[0]] + Window(cs[1..], room - 1, exits)
    else if exits == 0 then Window(cs[1..], room, exits)
    else [cs[0]] + Window(cs[1..], room - 1, exits - 1)
  }

  lemma {:induction false} WindowLimits(cs: seq<Candidate>, room: nat, exits: nat)
    ensures ExitCount(Window(cs, room, exits)) <= exits
    ensures cs != [] && room > 0 && exits > 0 ==> Window(cs, room, exits) != []
    decreases |cs|
  {
    if cs != [] && room > 0 {
      if !cs[0].tx.isWithdraw { WindowLimits(cs[1..], room - 1, exits); }
      else if exits == 0 { WindowLimits(cs[1..], room, exits); }
      else { WindowLimits(cs[1..], room - 1, exits - 1); }
    }
  }

  lemma {:induction false} EmptyIsSubSeq(ys: seq<Candidate>)
    ensures SubSeq([], ys)
  {
    if ys != [] { EmptyIsSubSeq(ys[1..]); }
  }

  lemma {:induction false} WindowIsSubSeq(cs: seq<Candidate>, room: nat, exits: nat)
    ensures SubSeq(Window(cs, room, exits), cs)
    decreases |cs|
  {
    if cs == [] || room == 0 { EmptyIsSubSeq(cs); }
    else if !cs[0].tx.isWithdraw { WindowIsSubSeq(cs[1..], room - 1, exits); }
    else if exits == 0 { WindowIsSubSeq(cs[1..], room, exits); }
    else { WindowIsSubSeq(cs[1..], room - 1, exits - 1); }
  }

  // ---------- the restart loop ----------

  /** How the loop ends: a batch of the surviving rows, no batch this tick, or the
      process aborting inside `build_batch`. */
  datatype Attempt = Ready(rows: seq<Candidate>, wit: BatchWitness) | Stalled | Died

  datatype Eviction = Eviction(dropped: seq<Candidate>, attempt: Attempt)

  /** Errors that name a transaction to evict. */
  function BadTx(err: BuildError): Option<nat> {
    match err
    case SenderNotFound(i) => Some(i)
    case NonceMismatch(i, _, _) => Some(i)
    case InsufficientBalance(i, _, _) => Some(i)
    case RecipientNotFound(i) => Some(i)
    case BadSignature(i) => Some(i)
    case _ => None
  }

  predicate Jam(err: BuildError) {
    err.TreeFull? || err.BalanceOverflow?
  }

  function Signed(e: Env, cs: seq<Candidate>): (r: seq<SignedTx>)
    requires e.order > 0
    ensures |r| == |cs| && forall k :: 0 <= k < |cs| ==> r[k] == RowToSigned(e, cs[k].tx)
  {
    AllSigned(e, Txs(cs))
  }

  function Without(cs: seq<Candidate>, i: nat): seq<Candidate>
    requires i < |cs|
  {
    cs[..i] + cs[i + 1..]
  }

  lemma {:induction false} DepositErrorsNameNoTx(e: Env, t: Table, i: nat, ds: seq<DepositRequest>)
    requires i <= |ds|
    ensures !BuildDeposits(e, t, i, ds).outcome.Aborted?
    ensures BuildDeposits(e, t, i, ds).outcome.Failed? ==> BadTx(BuildDeposits(e, t, i, ds).outcome.error).None?
    decreases |ds| - i
  {
    if i < |ds| { DepositErrorsNameNoTx(e, DepositStep(e, t, i, ds[i]).table, i + 1, ds); }
  }

  /** An error that names a transaction names one of the list. */
  lemma {:induction false} TxErrorsInRange(e: Env, t: Table, i: nat, ts: seq<SignedTx>)
    requires i <= |ts| && BuildTxs(e, t, i, ts).outcome.Failed?
    ensures BadTx(BuildTxs(e, t, i, ts).outcome.error).Some? ==> BadTx(BuildTxs(e, t, i, ts).outcome.error).value < |ts|
    decreases |ts| - i
  {
    if i < |ts| && TxStep(e, t, i, ts[i]).outcome.Built? {
      TxErrorsInRange(e, TxStep(e, t, i, ts[i]).table, i + 1, ts);
    }
  }

  lemma {:induction false} BadTxInRange(e: Env, t: Table, dSlots: nat, nSlots: nat, ds: seq<DepositRequest>,
                                        ts: seq<SignedTx>)
    requires Build(e, t, dSlots, nSlots, ds, ts).outcome.Failed?
    ensures var bad := BadTx(Build(e, t, dSlots, nSlots, ds, ts).outcome.error); bad.Some? ==> bad.value < |ts|
  {
    DepositErrorsNameNoTx(e, t, 0, ds);
    var s1 := BuildDeposits(e, t, 0, ds);
    if s1.outcome.Built? && BuildTxs(e, s1.table, 0, ts).outcome.Failed? { TxErrorsInRange(e, s1.table, 0, ts); }
  }

  /** The loop of `build_batch_now`: build on a fresh clone, evict the transaction
      the error names, start again. It ends because each round drops one. */
  function Restart(c: Config, t: Table, ds: seq<DepositRequest>, cs: seq<Candidate>): Eviction
    requires c.e.order > 0
    decreases |cs|
  {
    match Build(c.e, t, c.dSlots, c.nSlots, ds, Signed(c.e, cs)).outcome
    case Built(w) => Eviction([], Ready(cs, w))
    case Aborted => Eviction([], Died)
    case Failed(err) =>
      if (Jam(err) && ds != []) || BadTx(err).None? then Eviction([], Stalled)
      else
        BadTxInRange(c.e, t, c.dSlots, c.nSlots, ds, Signed(c.e, cs));
        var i := BadTx(err).value;
        var rest := Without(cs, i);
        if rest == [] && ds == [] then Eviction([cs[i]], Stalled)
        else var r := Restart(c, t, ds, rest); Eviction([cs[i]] + r.dropped, r.attempt)
  }

  lemma {:induction false} ReadyIsBuilt(c: Config, t: Table, ds: seq<DepositRequest>, cs: seq<Candidate>)
    requires c.e.order > 0 && Restart(c, t, ds, cs).attempt.Ready?
    ensures var a := Restart(c, t, ds, cs).attempt;
            Build(c.e, t, c.dSlots, c.nSlots, ds, Signed(c.e, a.rows)).outcome == Built(a.wit)
    decreases |cs|
  {
    var b := Build(c.e, t, c.dSlots, c.nSlots, ds, Signed(c.e, cs)).outcome;
    if b.Failed? {
      BadTxInRange(c.e, t, c.dSlots, c.nSlots, ds, Signed(c.e, cs));
      ReadyIsBuilt(c, t, ds, Without(cs, BadTx(b.error).value));
    }
  }

  // ---------- one pass ----------

  datatype Pass = Pass(kept: seq<Candidate>, dropped: seq<Candidate>, table: Table, halt: Option<Attempt>)

  /** The greedy pass: apply each transaction to the table its predecessors left;
      skip it, leaving that table alone, when it is at fault; stop when an error
      blames no transaction. */
  function OnePass(e: Env, t: Table, cs: seq<Candidate>): Pass
    requires e.order > 0
    decreases |cs|
  {
    if cs == [] then Pass([], [], t, None)
    else
      var s := TxStep(e, t, 0, RowToSigned(e, cs[0].tx));
      match s.outcome
      case Built(_) =>
        var r := OnePass(e, s.table, cs[1..]);
        Pass([cs[0]] + r.kept, r.dropped, r.table, r.halt)
      case Failed(err) =>
        if BadTx(err).Some? then
          var r := OnePass(e, t, cs[1..]);
          Pass(r.kept, [cs[0]] + r.dropped, r.table, r.halt)
        else Pass([], [], t, Some(Stalled))
      case Aborted => Pass([], [], t, Some(Died))
  }

  /** The pass splits the list in two, each part in order. */
  lemma {:induction false} PassSplits(e: Env, t: Table, cs: seq<Candidate>)
    requires e.order > 0
    ensures var p := OnePass(e, t, cs);
            && SubSeq(p.kept, cs) && SubSeq(p.dropped, cs)
            && |p.kept| + |p.dropped| <= |cs| && (p.halt.None? ==> |p.kept| + |p.dropped| == |cs|)
            && (p.halt.Some? ==> !p.halt.value.Ready?)
    decreases |cs|
  {
    if cs != [] {
      var s := TxStep(e, t, 0, RowToSigned(e, cs[0].tx));
      EmptyIsSubSeq(cs);
      PassSplits(e, s.table, cs[1..]);
      PassSplits(e, t, cs[1..]);
    }
  }

  /** No row is in both. */
  predicate Apart(kept: seq<Candidate>, dropped: seq<Candidate>) {
    forall x, y :: x in kept && y in dropped ==> x.id != y.id
  }

  lemma {:induction false} PassDisjoint(e: Env, t: Table, cs: seq<Candidate>)
    requires e.order > 0 && Ascending(cs)
    ensures Apart(OnePass(e, t, cs).kept, OnePass(e, t, cs).dropped)
    decreases |cs|
  {
    if cs != [] {
      var s := TxStep(e, t, 0, RowToSigned(e, cs[0].tx));
      var u := if s.outcome.Built? then s.table else t;
      PassDisjoint(e, u, cs[1..]);
      PassSplits(e, u, cs[1..]);
      ApartFirst(cs, OnePass(e, u, cs[1..]).kept, OnePass(e, u, cs[1..]).dropped);
    }
  }

  lemma {:induction false} ApartFirst(cs: seq<Candidate>, kept: seq<Candidate>, dropped: seq<Candidate>)
    requires cs != [] && Ascending(cs) && SubSeq(kept, cs[1..]) && SubSeq(dropped, cs[1..]) && Apart(kept, dropped)
    ensures Apart([cs[0]] + kept, dropped) && Apart(kept, [cs[0]] + dropped)
  {
    SubSeqWithin(kept, cs[1..]);
    SubSeqWithin(dropped, cs[1..]);
    assert forall x :: x in cs[1..] ==> x.id != cs[0].id;
  }

  /** A step's verdict does not depend on the position it reports. */
  lemma {:induction false} StepIndexFree(e: Env, t: Table, i: nat, j: nat, req: SignedTx)
    ensures var a, b := TxStep(e, t, i, req), TxStep(e, t, j, req);
            && a.table == b.table
            && (a.outcome.Built? <==> b.outcome.Built?)
            && (a.outcome.Aborted? <==> b.outcome.Aborted?)
            && (a.outcome.Failed? ==> BadTx(a.outcome.error) == if BadTx(b.outcome.error).Some? then Some(i) else None)
  {}

  /** The same table and the same verdict. */
  predicate SameFate(a: Step<seq<TxEntry>>, b: Step<seq<TxEntry>>) {
    && a.table == b.table
    && (a.outcome.Built? <==> b.outcome.Built?)
    && (a.outcome.Aborted? <==> b.outcome.Aborted?)
    && (a.outcome.Failed? ==> a.outcome.error == b.outcome.error)
  }

  lemma {:induction false} FateNext(e: Env, t: Table, i: nat, ts: seq<SignedTx>)
    requires i < |ts| && TxStep(e, t, i, ts[i]).outcome.Built?
    ensures SameFate(BuildTxs(e, t, i, ts), BuildTxs(e, TxStep(e, t, i, ts[i]).table, i + 1, ts))
  {}

  /** Where the loop over xs + ys stands after xs built. */
  lemma {:induction false} BuildThrough(e: Env, t: Table, i: nat, xs: seq<SignedTx>, ys: seq<SignedTx>)
    requires i <= |xs| && BuildTxs(e, t, i, xs).outcome.Built?
    ensures SameFate(BuildTxs(e, t, i, xs + ys), BuildTxs(e, BuildTxs(e, t, i, xs).table, |xs|, xs + ys))
    decreases |xs| - i
  {
    if i < |xs| {
      assert (xs + ys)[i] == xs[i];
      FateNext(e, t, i, xs);
      FateNext(e, t, i, xs + ys);
      BuildThrough(e, TxStep(e, t, i, xs[i]).table, i + 1, xs, ys);
    }
  }

  lemma {:induction false} FateOfLast(e: Env, t: Table, i: nat, ts: seq<SignedTx>)
    requires |ts| == i + 1
    ensures var s := TxStep(e, t, i, ts[i]);
            && (s.outcome.Failed? ==> BuildTxs(e, t, i, ts).outcome == Failed(s.outcome.error))
            && (s.outcome.Aborted? ==> BuildTxs(e, t, i, ts).outcome.Aborted?)
            && (s.outcome.Built? ==> BuildTxs(e, t, i, ts).outcome.Built? && BuildTxs(e, t, i, ts).table == s.table)
  {
    assert BuildTxs(e, TxStep(e, t, i, ts[i]).table, i + 1, ts).outcome.Built?;
  }

  lemma {:induction false} FateStops(e: Env, t: Table, i: nat, ts: seq<SignedTx>)
    requires i < |ts|
    ensures var s := TxStep(e, t, i, ts[i]);
            && (s.outcome.Failed? ==> BuildTxs(e, t, i, ts).outcome == Failed(s.outcome.error))
            && (s.outcome.Aborted? ==> BuildTxs(e, t, i, ts).outcome.Aborted?)
  {}

  /** One more transaction after a list that built. */
  lemma {:induction false} NextTx(e: Env, t: Table, xs: seq<SignedTx>, y: SignedTx, ys: seq<SignedTx>)
    requires BuildTxs(e, t, 0, xs).outcome.Built?
    ensures var s := TxStep(e, BuildTxs(e, t, 0, xs).table, |xs|, y);
            && (s.outcome.Failed? ==> BuildTxs(e, t, 0, xs + ([y] + ys)).outcome == Failed(s.outcome.error))
            && (s.outcome.Aborted? ==> BuildTxs(e, t, 0, xs + ([y] + ys)).outcome.Aborted?)
            && (s.outcome.Built? ==>
                  BuildTxs(e, t, 0, xs + [y]).outcome.Built? && BuildTxs(e, t, 0, xs + [y]).table == s.table)
  {
    var u := BuildTxs(e, t, 0, xs).table;
    assert (xs + ([y] + ys))[|xs|] == y && (xs + [y])[|xs|] == y;
    BuildThrough(e, t, 0, xs, [y] + ys);
    FateStops(e, u, |xs|, xs + ([y] + ys));
    BuildThrough(e, t, 0, xs, [y]);
    FateOfLast(e, u, |xs|, xs + [y]);
  }

  /** The loop's result r, read against the pass p over what follows `kept`. */
  predicate Agrees(e: Env, ds: seq<DepositRequest>, kept: seq<Candidate>, r: Eviction, p: Pass) {
    && r.dropped == p.dropped
    && match p.halt
       case Some(a) => r.attempt == a
       case None =>
         if kept + p.kept == [] && ds == [] && p.dropped != [] then r.attempt == Stalled
         else && r.attempt.Ready? && r.attempt.rows == kept + p.kept
              && r.attempt.wit.pub.newRoot == Root(e, p.table)
  }

  /** `kept` builds, on the credited table, to u. */
  predicate Reached(c: Config, t: Table, ds: seq<DepositRequest>, kept: seq<Candidate>, u: Table)
    requires c.e.order > 0
  {
    var d := BuildDeposits(c.e, t, 0, ds);
    && d.outcome.Built?
    && BuildTxs(c.e, d.table, 0, Signed(c.e, kept)).outcome.Built?
    && BuildTxs(c.e, d.table, 0, Signed(c.e, kept)).table == u
  }

  lemma {:induction false} SignedSplit(e: Env, kept: seq<Candidate>, rest: seq<Candidate>)
    requires e.order > 0 && rest != []
    ensures Signed(e, kept + rest) == Signed(e, kept) + ([RowToSigned(e, rest[0].tx)] + Signed(e, rest[1..]))
    ensures Signed(e, kept + [rest[0]]) == Signed(e, kept) + [RowToSigned(e, rest[0].tx)]
    ensures kept + [rest[0]] + rest[1..] == kept + rest
  {}

  /** What the next candidate does to the build of everything. */
  lemma {:induction false} NextCandidate(c: Config, t: Table, ds: seq<DepositRequest>, kept: seq<Candidate>, u: Table,
                                         rest: seq<Candidate>)
    requires c.e.order > 0 && |ds| <= c.dSlots && |kept + rest| <= c.nSlots && rest != []
    requires Reached(c, t, ds, kept, u)
    ensures var s := TxStep(c.e, u, 0, RowToSigned(c.e, rest[0].tx));
            var b := Build(c.e, t, c.dSlots, c.nSlots, ds, Signed(c.e, kept + rest)).outcome;
            && (s.outcome.Built? ==> Reached(c, t, ds, kept + [rest[0]], s.table))
            && (s.outcome.Aborted? ==> b.Aborted?)
            && (s.outcome.Failed? ==>
                  b.Failed? && BadTx(b.error) == if BadTx(s.outcome.error).Some? then Some(|kept|) else None)
  {
    var y := RowToSigned(c.e, rest[0].tx);
    SignedSplit(c.e, kept, rest);
    NextTx(c.e, BuildDeposits(c.e, t, 0, ds).table, Signed(c.e, kept), y, Signed(c.e, rest[1..]));
    StepIndexFree(c.e, u, |kept|, 0, y);
  }

  lemma {:induction false} JamNamesNoTx(err: BuildError)
    ensures BadTx(err).Some? ==> !Jam(err)
  {}

  lemma {:induction false} DroppedOne(c: Config, t: Table, ds: seq<DepositRequest>, kept: seq<Candidate>,
                                      rest: seq<Candidate>)
    requires c.e.order > 0 && rest != []
    requires var b := Build(c.e, t, c.dSlots, c.nSlots, ds, Signed(c.e, kept + rest)).outcome;
             b.Failed? && BadTx(b.error) == Some(|kept|)
    ensures Restart(c, t, ds, kept + rest) ==
            if kept + rest[1..] == [] && ds == [] then Eviction([rest[0]], Stalled)
            else var r := Restart(c, t, ds, kept + rest[1..]); Eviction([rest[0]] + r.dropped, r.attempt)
  {
    JamNamesNoTx(Build(c.e, t, c.dSlots, c.nSlots, ds, Signed(c.e, kept + rest)).outcome.error);
    assert Without(kept + rest, |kept|) == kept + rest[1..];
    assert (kept + rest)[|kept|] == rest[0];
  }

  lemma {:induction false} AgreesAtEnd(c: Config, t: Table, ds: seq<DepositRequest>, kept: seq<Candidate>, u: Table)
    requires c.e.order > 0 && |ds| <= c.dSlots && |kept| <= c.nSlots && Reached(c, t, ds, kept, u)
    ensures Agrees(c.e, ds, kept, Restart(c, t, ds, kept), Pass([], [], u, None))
  {
    assert kept + [] == kept;
  }

  lemma {:induction false} AgreesKeeping(e: Env, ds: seq<DepositRequest>, kept: seq<Candidate>, x: Candidate,
                                         r: Eviction, p: Pass)
    requires Agrees(e, ds, kept + [x], r, p)
    ensures Agrees(e, ds, kept, r, Pass([x] + p.kept, p.dropped, p.table, p.halt))
  {
    assert kept + [x] + p.kept == kept + ([x] + p.kept);
  }

  /** After an eviction the loop goes on, unless nothing is left at all. */
  lemma {:induction false} AgreesDropping(e: Env, ds: seq<DepositRequest>, kept: seq<Candidate>, x: Candidate,
                                          rest: seq<Candidate>, r: Eviction, p: Pass)
    requires Agrees(e, ds, kept, r, p)
    requires |p.kept| + |p.dropped| <= |rest| && (p.halt.None? ==> |p.kept| + |p.dropped| == |rest|)
    requires rest == [] ==> p.halt.None?
    ensures Agrees(e, ds, kept,
              if kept + rest == [] && ds == [] then Eviction([x], Stalled) else Eviction([x] + r.dropped, r.attempt),
              Pass(p.kept, [x] + p.dropped, p.table, p.halt))
  {
    assert |kept + rest| == |kept| + |rest| && |kept + p.kept| == |kept| + |p.kept|;
    if kept + rest == [] { assert rest == []; }
  }

  lemma {:induction false} Regroup(kept: seq<Candidate>, rest: seq<Candidate>)
    requires rest != []
    ensures kept + [rest[0]] + rest[1..] == kept + rest
  {}

  lemma {:induction false} LoopFrom(c: Config, t: Table, ds: seq<DepositRequest>, kept: seq<Candidate>, u: Table,
                                    rest: seq<Candidate>)
    requires c.e.order > 0 && |ds| <= c.dSlots && |kept + rest| <= c.nSlots
    requires Reached(c, t, ds, kept, u)
    ensures Agrees(c.e, ds, kept, Restart(c, t, ds, kept + rest), OnePass(c.e, u, rest))
    decreases |rest|
  {
    if rest == [] {
      assert kept + rest == kept;
      AgreesAtEnd(c, t, ds, kept, u);
    } else {
      NextCandidate(c, t, ds, kept, u, rest);
      var s := TxStep(c.e, u, 0, RowToSigned(c.e, rest[0].tx));
      if s.outcome.Built? {
        Regroup(kept, rest);
        LoopFrom(c, t, ds, kept + [rest[0]], s.table, rest[1..]);
        AgreesKeeping(c.e, ds, kept, rest[0], Restart(c, t, ds, kept + rest), OnePass(c.e, s.table, rest[1..]));
      } else if s.outcome.Failed? && BadTx(s.outcome.error).Some? {
        LoopFrom(c, t, ds, kept, u, rest[1..]);
        DroppedOne(c, t, ds, kept, rest);
        PassSplits(c.e, u, rest[1..]);
        AgreesDropping(c.e, ds, kept, rest[0], rest[1..], Restart(c, t, ds, kept + rest[1..]),
                       OnePass(c.e, u, rest[1..]));
      }
    }
  }

  /** The restart loop is the single pass. With deposits that do not apply it
      evicts nothing and stalls; otherwise it evicts exactly what one pass from
      the credited table skips, keeps exactly what the pass keeps, and the root it
      publishes is that of the table the pass ends with. */
  lemma {:induction false} RestartIsOnePass(c: Config, t: Table, ds: seq<DepositRequest>, cs: seq<Candidate>)
    requires c.e.order > 0 && |ds| <= c.dSlots && |cs| <= c.nSlots
    ensures var d := BuildDeposits(c.e, t, 0, ds);
            var r := Restart(c, t, ds, cs);
            if d.outcome.Built? then Agrees(c.e, ds, [], r, OnePass(c.e, d.table, cs)) else r == Eviction([], Stalled)
  {
    DepositErrorsNameNoTx(c.e, t, 0, ds);
    var d := BuildDeposits(c.e, t, 0, ds);
    if d.outcome.Built? {
      LoopFrom(c, t, ds, [], d.table, cs);
      assert [] + cs == cs;
    }
  }

  /** The survivors are an ordered selection apart from the evicted rows; some input
      survives whenever there was one. */
  lemma {:induction false} ReadySelection(c: Config, t: Table, ds: seq<DepositRequest>, cs: seq<Candidate>)
    requires c.e.order > 0 && |ds| <= c.dSlots && |cs| <= c.nSlots && Ascending(cs)
    ensures var r := Restart(c, t, ds, cs);
            && SubSeq(r.dropped, cs)
            && (r.attempt.Ready? ==>
                  && SubSeq(r.attempt.rows, cs)
                  && Apart(r.attempt.rows, r.dropped)
                  && (cs != [] || ds != [] ==> r.attempt.rows != [] || ds != []))
  {
    RestartIsOnePass(c, t, ds, cs);
    var d := BuildDeposits(c.e, t, 0, ds);
    EmptyIsSubSeq(cs);
    PassSplits(c.e, d.table, cs);
    PassDisjoint(c.e, d.table, cs);
    var p := OnePass(c.e, d.table, cs);
    assert [] + p.kept == p.kept;
  }
}
