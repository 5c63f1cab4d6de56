/** Fold hashes bind the lists they were computed over. */
module Binding {
  import opened Hashing
  import opened Merkle
  import opened Ledger
  import opened Circuit
  import opened Soundness

  function ListQueries(e: Env, domain: int, acc: int, list: seq<(int, int)>): set<seq<int>>
    decreases |list|
  {
    if list == [] then {}
    else {[domain, acc, list[0].0, list[0].1]}
         + ListQueries(e, domain, e.hash([domain, acc, list[0].0, list[0].1]), list[1..])
  }

  lemma {:induction false} ListQueriesAppend(e: Env, domain: int, acc: int, xs: seq<(int, int)>, ys: seq<(int, int)>)
    ensures ListQueries(e, domain, acc, xs + ys)
         == ListQueries(e, domain, acc, xs) + ListQueries(e, domain, FoldPairs(e, domain, acc, xs), ys)
    decreases |xs|
  {
    if xs == [] {
      assert xs + ys == ys;
    } else {
      assert (xs + ys)[0] == xs[0] && (xs + ys)[1..] == xs[1..] + ys;
      ListQueriesAppend(e, domain, e.hash([domain, acc, xs[0].0, xs[0].1]), xs[1..], ys);
    }
  }

  /** The last step of a nonempty fold. */
  lemma {:induction false} FoldLast(e: Env, domain: int, xs: seq<(int, int)>)
    requires xs != []
    ensures var n := |xs| - 1;
            var q := [domain, FoldPairs(e, domain, 0, xs[..n]), xs[n].0, xs[n].1];
            && FoldPairs(e, domain, 0, xs) == e.hash(q)
            && ListQueries(e, domain, 0, xs) == ListQueries(e, domain, 0, xs[..n]) + {q}
  {
    var n := |xs| - 1;
    assert xs == xs[..n] + [xs[n]];
    FoldPairsAppend(e, domain, 0, xs[..n], [xs[n]]);
    ListQueriesAppend(e, domain, 0, xs[..n], [xs[n]]);
  }

  lemma {:induction false} FoldNonzero(e: Env, K: set<seq<int>>, domain: int, xs: seq<(int, int)>)
    requires xs != [] && ListQueries(e, domain, 0, xs) <= K && !Breaks(e, K)
    ensures FoldPairs(e, domain, 0, xs) != 0
  {
    var n := |xs| - 1;
    FoldLast(e, domain, xs);
    NoZero(e, K, [domain, FoldPairs(e, domain, 0, xs[..n]), xs[n].0, xs[n].1]);
  }

  /** Equal folds from zero come from equal lists, of whatever lengths. */
  lemma {:induction false} FoldsBind(e: Env, K: set<seq<int>>, domain: int, xs: seq<(int, int)>, ys: seq<(int, int)>)
    requires FoldPairs(e, domain, 0, xs) == FoldPairs(e, domain, 0, ys)
    requires ListQueries(e, domain, 0, xs) + ListQueries(e, domain, 0, ys) <= K && !Breaks(e, K)
    ensures xs == ys
    decreases |xs|
  {
    if xs != [] { FoldNonzero(e, K, domain, xs); }
    if ys != [] { FoldNonzero(e, K, domain, ys); }
    if xs != [] && ys != [] {
      FoldLast(e, domain, xs);
      FoldLast(e, domain, ys);
      var m, n := |xs| - 1, |ys| - 1;
      var p := [domain, FoldPairs(e, domain, 0, xs[..m]), xs[m].0, xs[m].1];
      var q := [domain, FoldPairs(e, domain, 0, ys[..n]), ys[n].0, ys[n].1];
      NoBreak(e, K, p, q);
      assert p[1] == q[1] && p[2] == q[2] && p[3] == q[3];
      FoldsBind(e, K, domain, xs[..m], ys[..n]);
      assert xs == xs[..m] + [xs[m]] && ys == ys[..n] + [ys[n]];
    }
  }

  function MessageQueries(e: Env, acc: int, msgs: seq<int>): set<seq<int>>
    decreases |msgs|
  {
    if msgs == [] then {}
    else {[DOMAIN_DA, acc, msgs[0]]} + MessageQueries(e, e.hash([DOMAIN_DA, acc, msgs[0]]), msgs[1..])
  }

  lemma {:induction false} MessageQueriesAppend(e: Env, acc: int, xs: seq<int>, ys: seq<int>)
    ensures MessageQueries(e, acc, xs + ys)
         == MessageQueries(e, acc, xs) + MessageQueries(e, FoldMessages(e, acc, xs), ys)
    decreases |xs|
  {
    if xs == [] {
      assert xs + ys == ys;
    } else {
      assert (xs + ys)[0] == xs[0] && (xs + ys)[1..] == xs[1..] + ys;
      MessageQueriesAppend(e, e.hash([DOMAIN_DA, acc, xs[0]]), xs[1..], ys);
    }
  }

  lemma {:induction false} MessagesSnoc(e: Env, ys: seq<int>, x: int)
    ensures var q := [DOMAIN_DA, FoldMessages(e, 0, ys), x];
            && FoldMessages(e, 0, ys + [x]) == e.hash(q)
            && MessageQueries(e, 0, ys + [x]) == MessageQueries(e, 0, ys) + {q}
  {
    FoldMessagesAppend(e, 0, ys, [x]);
    MessageQueriesAppend(e, 0, ys, [x]);
    OneMessage(e, FoldMessages(e, 0, ys), x);
  }

  lemma {:induction false} OneMessage(e: Env, acc: int, x: int)
    ensures FoldMessages(e, acc, [x]) == e.hash([DOMAIN_DA, acc, x])
    ensures MessageQueries(e, acc, [x]) == {[DOMAIN_DA, acc, x]}
  {
    assert [x][1..] == [];
  }

  lemma {:induction false} MessagesNonzero(e: Env, K: set<seq<int>>, ys: seq<int>, x: int)
    requires MessageQueries(e, 0, ys + [x]) <= K && !Breaks(e, K)
    ensures FoldMessages(e, 0, ys + [x]) != 0
  {
    MessagesSnoc(e, ys, x);
    NoZero(e, K, [DOMAIN_DA, FoldMessages(e, 0, ys), x]);
  }

  lemma {:induction false} LastMessagesAgree(e: Env, K: set<seq<int>>, xs: seq<int>, x: int, ys: seq<int>, y: int)
    requires FoldMessages(e, 0, xs + [x]) == FoldMessages(e, 0, ys + [y])
    requires MessageQueries(e, 0, xs + [x]) + MessageQueries(e, 0, ys + [y]) <= K && !Breaks(e, K)
    ensures FoldMessages(e, 0, xs) == FoldMessages(e, 0, ys) && x == y
    ensures MessageQueries(e, 0, xs) + MessageQueries(e, 0, ys) <= K
  {
    MessagesSnoc(e, xs, x);
    MessagesSnoc(e, ys, y);
    var p, q := [DOMAIN_DA, FoldMessages(e, 0, xs), x], [DOMAIN_DA, FoldMessages(e, 0, ys), y];
    NoBreak(e, K, p, q);
    assert p[1] == q[1] && p[2] == q[2];
  }

  lemma {:induction false} SplitLast(xs: seq<int>)
    requires xs != []
    ensures xs == xs[..|xs| - 1] + [xs[|xs| - 1]]
  {}

  /** The data-availability commitment binds the published message list. */
  lemma {:induction false} MessagesBind(e: Env, K: set<seq<int>>, xs: seq<int>, ys: seq<int>)
    requires FoldMessages(e, 0, xs) == FoldMessages(e, 0, ys)
    requires MessageQueries(e, 0, xs) + MessageQueries(e, 0, ys) <= K && !Breaks(e, K)
    ensures xs == ys
    decreases |xs|
  {
    var m, n := |xs| - 1, |ys| - 1;
    if xs != [] { SplitLast(xs); MessagesNonzero(e, K, xs[..m], xs[m]); }
    if ys != [] { SplitLast(ys); MessagesNonzero(e, K, ys[..n], ys[n]); }
    if xs != [] && ys != [] {
      LastMessagesAgree(e, K, xs[..m], xs[m], ys[..n], ys[n]);
      MessagesBind(e, K, xs[..m], ys[..n]);
    }
  }

  // ---------- the transactions behind the messages ----------

  /** What a spend publishes: the signed fields, without slots and signature. */
  datatype Published = Published(pk: int, to: int, amount: int, nonce: int, exit: bool)

  function PublishedBy(ops: seq<Op>): seq<Published> {
    if ops == [] then []
    else if ops[0].Spend? then
      [Published(ops[0].pk, ops[0].to, ops[0].amount, ops[0].nonce, ops[0].exit)] + PublishedBy(ops[1..])
    else PublishedBy(ops[1..])
  }

  function InputOf(tx: Published): seq<int> {
    MessageInput(tx.pk, tx.to, tx.amount, tx.nonce, tx.exit)
  }

  function Hashes(e: Env, txs: seq<Published>): seq<int> {
    if txs == [] then [] else [e.hash(InputOf(txs[0]))] + Hashes(e, txs[1..])
  }

  /** The hash queries of a commitment: its messages and its fold. */
  function CommitmentQueries(e: Env, txs: seq<Published>): set<seq<int>> {
    (set i | 0 <= i < |txs| :: InputOf(txs[i])) + MessageQueries(e, 0, Hashes(e, txs))
  }

  lemma {:induction false} MessagesAre(e: Env, ops: seq<Op>)
    ensures Messages(e, ops) == Hashes(e, PublishedBy(ops))
  {
    if ops != [] { MessagesAre(e, ops[1..]); }
  }

  lemma {:induction false} InputsBind(e: Env, K: set<seq<int>>, x: Published, y: Published)
    requires {InputOf(x), InputOf(y)} <= K && !Breaks(e, K) && e.hash(InputOf(x)) == e.hash(InputOf(y))
    ensures x == y
  {
    var p, q := InputOf(x), InputOf(y);
    NoBreak(e, K, p, q);
    assert p[1] == q[1] && p[2] == q[2] && p[3] == q[3] && p[4] == q[4] && p[5] == q[5];
  }

  lemma {:induction false} HashesBind(e: Env, K: set<seq<int>>, xs: seq<Published>, ys: seq<Published>)
    requires Hashes(e, xs) == Hashes(e, ys) && !Breaks(e, K)
    requires forall i :: 0 <= i < |xs| ==> InputOf(xs[i]) in K
    requires forall i :: 0 <= i < |ys| ==> InputOf(ys[i]) in K
    ensures xs == ys
  {
    if xs != [] && ys != [] {
      assert Hashes(e, xs)[0] == Hashes(e, ys)[0] && Hashes(e, xs)[1..] == Hashes(e, ys)[1..];
      InputsBind(e, K, xs[0], ys[0]);
      HashesBind(e, K, xs[1..], ys[1..]);
      assert xs == [xs[0]] + xs[1..] && ys == [ys[0]] + ys[1..];
    }
  }

  /** Equal commitments come from equal transactions: senders, recipients, amounts,
      nonces and kinds, in order. */
  lemma {:induction false} TransactionsBind(e: Env, K: set<seq<int>>, xs: seq<Op>, ys: seq<Op>)
    requires FoldMessages(e, 0, Messages(e, xs)) == FoldMessages(e, 0, Messages(e, ys))
    requires CommitmentQueries(e, PublishedBy(xs)) + CommitmentQueries(e, PublishedBy(ys)) <= K && !Breaks(e, K)
    ensures PublishedBy(xs) == PublishedBy(ys)
  {
    MessagesAre(e, xs);
    MessagesAre(e, ys);
    MessagesBind(e, K, Messages(e, xs), Messages(e, ys));
    HashesBind(e, K, PublishedBy(xs), PublishedBy(ys));
  }

  lemma {:induction false} FewerBreak(e: Env, K: set<seq<int>>, L: set<seq<int>>)
    requires K <= L && !Breaks(e, L)
    ensures !Breaks(e, K)
  {}

  /** The queries that would have to break the hash for a batch to pass as another. */
  function BatchCommitment(e: Env, t: Table, w: Witness): set<seq<int>>
    requires e.order > 0 && e.p > 0
  {
    BatchQueries(e, t, w) + CommitmentQueries(e, PublishedBy(BatchOps(e, w)))
  }

  /** Whatever two accepted batches, of whatever ledgers: with one commitment they
      applied the same transactions. */
  lemma {:induction false} CommitmentBinds(e: Env, t: Table, pub: Public, w: Witness,
                                           u: Table, qub: Public, v: Witness)
    requires ValidEnv(e) && TableOk(e, t) && pub.oldRoot == Root(e, t) && Accepts(e, pub, w)
    requires TableOk(e, u) && qub.oldRoot == Root(e, u) && Accepts(e, qub, v)
    requires pub.daCommitment == qub.daCommitment
    ensures || PublishedBy(BatchOps(e, w)) == PublishedBy(BatchOps(e, v))
            || Breaks(e, BatchCommitment(e, t, w) + BatchCommitment(e, u, v))
  {
    var K := BatchCommitment(e, t, w) + BatchCommitment(e, u, v);
    if !Breaks(e, K) {
      FewerBreak(e, BatchQueries(e, t, w), K);
      FewerBreak(e, BatchQueries(e, u, v), K);
      CircuitSound(e, t, pub, w);
      CircuitSound(e, u, qub, v);
      TransactionsBind(e, K, BatchOps(e, w), BatchOps(e, v));
    }
  }
}
