/** Multi-replica transactions are ordered alike everywhere, and which of them get copies. */
module TxnOrder {
  import opened Filters
  import opened Txns
  import opened LocalPaxos
  import opened ReplicaLogs
  import opened ReplicaSafety
  import opened ReplicaOrder

  function IdOf(t: Txn): nat {
    t.id
  }

  function TxnIds(txns: seq<Txn>): (r: seq<nat>)
    ensures |r| == |txns| && forall i :: 0 <= i < |r| ==> r[i] == txns[i].id
  {
    Mapped(txns, IdOf)
  }

  /** The multi-replica transactions that run with origin `a`, be they copies or not. */
  function MultiFor(a: nat): Txn -> bool {
    (t: Txn) => IsMultiFor(t, a)
  }

  /** Which transactions of replica 0's log appear with origin `a`: all that involve 0 with origin 0, and those that
      are not copies themselves with another. */
  predicate Appears(t: Txn, a: nat) {
    IsMultiFor(t, a) && (a != 0 ==> !t.newGenerated)
  }

  function AppearsFor(a: nat): Txn -> bool {
    (t: Txn) => Appears(t, a)
  }

  /** The transactions in a series of batches, as the schedulers receive them. */
  function Received(contents: map<nat, seq<Txn>>, bs: Sequence): seq<Txn> {
    if bs == [] then []
    else
      var b := bs[|bs| - 1];
      Received(contents, bs[..|bs| - 1]) + if b.id in contents then contents[b.id] else []
  }

  /** What the global log of `c` brings from `a`. */
  function RunAt(s: System, c: nat, a: nat): seq<Txn>
    requires c < |s.leaders|
  {
    Received(s.contents, Flatten(From(s.leaders[c].globalLog, a)))
  }

  function MultiAt(s: System, c: nat, a: nat): seq<Txn>
    requires c < |s.leaders|
  {
    Filter(RunAt(s, c, a), MultiFor(a))
  }

  /** The order that the global log of `c` gives to the multi-replica transactions of origin `a`. */
  function TxnOrderAt(s: System, c: nat, a: nat): seq<nat>
    requires c < |s.leaders|
  {
    TxnIds(MultiAt(s, c, a))
  }

  /** The transactions of the sequencers' batches `q`, one batch after the other. */
  function AllTxns(cfg: Config, q: seq<nat>): seq<Txn> {
    if q == [] then [] else AllTxns(cfg, q[..|q| - 1]) + cfg.content(q[|q| - 1])
  }

  /** What is to appear with origin `a` of the batches `q`. */
  function ToAppear(cfg: Config, q: seq<nat>, a: nat): seq<Txn> {
    Stripped(Filter(AllTxns(cfg, q), AppearsFor(a)))
  }

  // -------- batches and what they stand for

  lemma SinglesHaveNoPart(txns: seq<Txn>, a: nat)
    requires SingleReplica(txns)
    ensures Filter(txns, MultiFor(a)) == []
  {
    forall i | 0 <= i < |txns| ensures !MultiFor(a)(txns[i]) {
      assert txns[i] in txns;
    }
    FilterNone(txns, MultiFor(a));
  }

  /** A copy involves the replicas of the original, and differs from it only as copies do. */
  lemma CopiesAreMulti(txns: seq<Txn>, a: nat)
    ensures Filter(Copies(MultiPart(txns, a), a), MultiFor(a)) == Copies(MultiPart(txns, a), a)
    ensures Stripped(Copies(MultiPart(txns, a), a)) == Stripped(MultiPart(txns, a))
  {
    var part, copies := MultiPart(txns, a), Copies(MultiPart(txns, a), a);
    forall i | 0 <= i < |copies| ensures MultiFor(a)(copies[i]) {
      var j := FilterPlace(txns, Forwarded(a), i);
      assert Entries(copies[i]) == Entries(part[i]);
    }
    FilterAll(copies, MultiFor(a));
  }

  lemma ForwardedAppear(txns: seq<Txn>, a: nat)
    ensures a != 0 ==> MultiPart(txns, a) == Filter(txns, AppearsFor(a))
    ensures a == 0 ==> Filter(txns, MultiFor(a)) == Filter(txns, AppearsFor(a))
  {
    if a != 0 {
      FilterAlike(txns, Forwarded(a), AppearsFor(a));
    } else {
      FilterAlike(txns, MultiFor(a), AppearsFor(a));
    }
  }

  /** What one batch contributes with origin `a` is what is to appear of the batch it stands for. */
  lemma BatchPart(cfg: Config, contents: map<nat, seq<Txn>>, a: nat, b: Batch)
    requires Honest(cfg, contents, a, b)
    ensures var part := Stripped(Filter(contents[b.id], MultiFor(a)));
            part == if b.source.Some? then Stripped(Filter(cfg.content(b.source.value), AppearsFor(a)))
                    else if a == 0 then Stripped(Filter(cfg.content(b.id), AppearsFor(a)))
                    else []
  {
    if b.source.Some? {
      CopiesAreMulti(cfg.content(b.source.value), a);
      ForwardedAppear(cfg.content(b.source.value), a);
    } else if a != 0 {
      SinglesHaveNoPart(contents[b.id], a);
    } else {
      ForwardedAppear(cfg.content(b.id), a);
    }
  }

  lemma AllTxnsMore(cfg: Config, q: seq<nat>, b: nat)
    ensures AllTxns(cfg, q + [b]) == AllTxns(cfg, q) + cfg.content(b)
  {
    assert (q + [b])[..|q|] == q;
  }

  lemma ToAppearMore(cfg: Config, q: seq<nat>, b: nat, a: nat)
    ensures ToAppear(cfg, q + [b], a) == ToAppear(cfg, q, a) + Stripped(Filter(cfg.content(b), AppearsFor(a)))
  {
    AllTxnsMore(cfg, q, b);
    FilterConcat(AllTxns(cfg, q), cfg.content(b), AppearsFor(a));
    MappedConcat(Filter(AllTxns(cfg, q), AppearsFor(a)), Filter(cfg.content(b), AppearsFor(a)), Strip);
  }

  /** The series `bs` of `a` names the batches `Named(bs)` of replica 0. */
  function Named(a: nat, bs: Sequence): seq<nat> {
    if a == 0 then Ids(bs) else Sources(bs)
  }

  lemma NamedMore(a: nat, bs: Sequence, b: Batch)
    ensures Named(a, bs + [b]) == Named(a, bs) + if a == 0 then [b.id] else if b.source.Some? then [b.source.value] else []
  {
    assert (bs + [b])[..|bs|] == bs;
    assert a == 0 ==> Ids(bs + [b]) == Ids(bs) + [b.id];
  }

  lemma ReceivedMore(contents: map<nat, seq<Txn>>, bs: Sequence, b: Batch, a: nat)
    requires b.id in contents
    ensures Received(contents, bs + [b]) == Received(contents, bs) + contents[b.id]
    ensures Stripped(Filter(Received(contents, bs + [b]), MultiFor(a)))
            == Stripped(Filter(Received(contents, bs), MultiFor(a))) + Stripped(Filter(contents[b.id], MultiFor(a)))
  {
    assert (bs + [b])[..|bs|] == bs;
    FilterConcat(Received(contents, bs), contents[b.id], MultiFor(a));
    MappedConcat(Filter(Received(contents, bs), MultiFor(a)), Filter(contents[b.id], MultiFor(a)), Strip);
  }

  ghost predicate ReceivedIsNamed(cfg: Config, contents: map<nat, seq<Txn>>, a: nat, bs: Sequence) {
    Stripped(Filter(Received(contents, bs), MultiFor(a))) == ToAppear(cfg, Named(a, bs), a)
  }

  lemma OneMoreNamed(cfg: Config, contents: map<nat, seq<Txn>>, a: nat, bs: Sequence, b: Batch)
    requires ReceivedIsNamed(cfg, contents, a, bs) && Honest(cfg, contents, a, b)
    ensures ReceivedIsNamed(cfg, contents, a, bs + [b])
  {
    ReceivedMore(contents, bs, b, a);
    NamedMore(a, bs, b);
    BatchPart(cfg, contents, a, b);
    if b.source.Some? {
      ToAppearMore(cfg, Named(a, bs), b.source.value, a);
    } else if a == 0 {
      ToAppearMore(cfg, Named(a, bs), b.id, a);
    } else {
      assert Named(a, bs + [b]) == Named(a, bs);
    }
  }

  /** What is received in the batches of `a` is what is to appear of the batches they stand for. */
  lemma {:induction false} ReceivedAreNamed(cfg: Config, contents: map<nat, seq<Txn>>, a: nat, bs: Sequence)
    requires AllHonest(cfg, contents, a, bs)
    ensures ReceivedIsNamed(cfg, contents, a, bs)
  {
    if bs != [] {
      var init, b := bs[..|bs| - 1], bs[|bs| - 1];
      assert bs == init + [b];
      ReceivedAreNamed(cfg, contents, a, init);
      OneMoreNamed(cfg, contents, a, init, b);
    }
  }

  /** Batches without transactions to forward make no difference. */
  lemma {:induction false} ForReplicaHasAll(cfg: Config, a: nat, bs: Sequence)
    requires a != 0
    ensures ToAppear(cfg, ForReplica(cfg, a, bs), a) == ToAppear(cfg, Ids(bs), a)
  {
    if bs != [] {
      var init, b := bs[..|bs| - 1], bs[|bs| - 1];
      assert bs == init + [b];
      ForReplicaHasAll(cfg, a, init);
      ForReplicaMore(cfg, a, init, b);
      NamedMore(0, init, b);
      ToAppearMore(cfg, Ids(init), b.id, a);
      ForwardedAppear(cfg.content(b.id), a);
      if MultiPart(cfg.content(b.id), a) != [] {
        ToAppearMore(cfg, ForReplica(cfg, a, init), b.id, a);
      } else {
        assert Stripped(Filter(cfg.content(b.id), AppearsFor(a))) == [];
        assert ForReplica(cfg, a, bs) == ForReplica(cfg, a, init);
        assert ToAppear(cfg, Ids(init), a) + [] == ToAppear(cfg, Ids(init), a);
      }
    }
  }

  lemma {:induction false} ToAppearPrefix(cfg: Config, a: nat, p: seq<nat>, q: seq<nat>)
    requires IsPrefix(p, q)
    ensures ToAppear(cfg, p, a) <= ToAppear(cfg, q, a)
    decreases |q|
  {
    if p != q {
      var init, b := q[..|q| - 1], q[|q| - 1];
      assert q == init + [b] && IsPrefix(p, init);
      ToAppearPrefix(cfg, a, p, init);
      ToAppearMore(cfg, init, b, a);
    }
  }

  // -------- agreement

  lemma LoggedAreHonest(cfg: Config, s: System, c: nat, a: nat)
    requires OrderInv(cfg, s) && c < cfg.replicas && a < cfg.replicas
    ensures AllHonest(cfg, s.contents, a, Flatten(From(s.leaders[c].globalLog, a)))
  {
    var bs, own := Flatten(From(s.leaders[c].globalLog, a)), Own(s.leaders[a], a);
    LoggedIsPrefix(cfg, s, a, c);
    FlattenPrefix(From(s.leaders[c].globalLog, a), s.leaders[a].localLog);
    assert ReplicaInv(cfg, s, a);
    forall i | 0 <= i < |bs| ensures Honest(cfg, s.contents, a, bs[i]) {
      assert bs[i] == own[i];
    }
  }

  /** In every global log the multi-replica transactions of origin `a` are, in order, the first of those in replica 0's
      log that are to appear with this origin: none that is itself a copy, unless `a` is replica 0. */
  lemma LoggedInBaseOrder(cfg: Config, s: System, c: nat, a: nat)
    requires OrderInv(cfg, s) && c < cfg.replicas && a < cfg.replicas
    ensures Stripped(MultiAt(s, c, a)) <= ToAppear(cfg, BaseOrder(s), a)
  {
    var bs, base := Flatten(From(s.leaders[c].globalLog, a)), Flatten(s.leaders[0].localLog);
    LoggedAreHonest(cfg, s, c, a);
    ReceivedAreNamed(cfg, s.contents, a, bs);
    if a == 0 {
      LoggedIsPrefix(cfg, s, 0, c);
      FlattenPrefix(From(s.leaders[c].globalLog, 0), s.leaders[0].localLog);
      assert IsPrefix(Ids(bs), Ids(base));
      ToAppearPrefix(cfg, a, Ids(bs), Ids(base));
    } else {
      OrderIsPrefix(cfg, s, c, a);
      ToAppearPrefix(cfg, a, Sources(bs), ForReplica(cfg, a, base));
      ForReplicaHasAll(cfg, a, base);
    }
  }

  ghost predicate Comes(q: seq<nat>, x: nat, y: nat) {
    exists i, j :: 0 <= i < j < |q| && q[i] == x && q[j] == y
  }

  lemma LoggedFollowsBase(cfg: Config, s: System, c: nat, a: nat, x: nat, y: nat)
    requires OrderInv(cfg, s) && c < cfg.replicas && a < cfg.replicas && Comes(TxnOrderAt(s, c, a), x, y)
    ensures Comes(TxnIds(AllTxns(cfg, BaseOrder(s))), x, y)
  {
    var order, all := TxnOrderAt(s, c, a), AllTxns(cfg, BaseOrder(s));
    var k, l :| 0 <= k < l < |order| && order[k] == x && order[l] == y;
    LoggedInBaseOrder(cfg, s, c, a);
    assert Stripped(MultiAt(s, c, a))[k] == ToAppear(cfg, BaseOrder(s), a)[k];
    assert Stripped(MultiAt(s, c, a))[l] == ToAppear(cfg, BaseOrder(s), a)[l];
    var i, j := FilterKeepsOrder(all, AppearsFor(a), k, l);
    assert TxnIds(all)[i] == x && TxnIds(all)[j] == y;
  }

  /** Transaction ids are unique: no transaction is in two batches, or twice in one. */
  ghost predicate UniqueTxns(cfg: Config) {
    forall b, c, i, j :: (0 <= i < |cfg.content(b)| && 0 <= j < |cfg.content(c)|
      && cfg.content(b)[i].id == cfg.content(c)[j].id) ==> b == c && i == j
  }

  lemma {:induction false} TxnBatch(cfg: Config, q: seq<nat>, k: nat) returns (p: nat, i: nat)
    requires k < |AllTxns(cfg, q)|
    ensures p < |q| && i < |cfg.content(q[p])| && cfg.content(q[p])[i] == AllTxns(cfg, q)[k]
  {
    var last := |q| - 1;
    var n := |AllTxns(cfg, q[..last])|;
    if k < n {
      p, i := TxnBatch(cfg, q[..last], k);
    } else {
      p, i := last, k - n;
    }
  }

  lemma {:induction false} TxnsDistinct(cfg: Config, q: seq<nat>)
    requires UniqueTxns(cfg) && NoDuplicates(q)
    ensures NoDuplicates(TxnIds(AllTxns(cfg, q)))
  {
    if q != [] {
      var last := |q| - 1;
      var all, before := AllTxns(cfg, q), AllTxns(cfg, q[..last]);
      TxnsDistinct(cfg, q[..last]);
      forall k, l | 0 <= k < l < |all| ensures all[k].id != all[l].id {
        if l < |before| {
          assert TxnIds(before)[k] != TxnIds(before)[l];
        } else if k < |before| {
          var p, i := TxnBatch(cfg, q[..last], k);
          assert q[p] != q[last];
        }
      }
    }
  }

  lemma NeverBothWays(q: seq<nat>, x: nat, y: nat)
    requires NoDuplicates(q) && Comes(q, x, y)
    ensures x != y && !Comes(q, y, x)
  {
  }

  lemma OneWayOrOther(q: seq<nat>, x: nat, y: nat)
    requires x in q && y in q && x != y
    ensures Comes(q, x, y) || Comes(q, y, x)
  {
    var i :| 0 <= i < |q| && q[i] == x;
    var j :| 0 <= j < |q| && q[j] == y;
    assert i < j ==> Comes(q, x, y);
  }

  /** Any two multi-replica transactions are ordered alike everywhere: whichever replicas' global logs `c` and `d`
      are asked, and whichever origins `a` and `b` the copies have, they agree on which of the two comes first. */
  lemma MultiReplicaOrderAgreement(cfg: Config, run: seq<Event>, c: nat, a: nat, d: nat, b: nat, x: nat, y: nat)
    requires ValidRun(cfg, run) && UniqueTxns(cfg)
    requires c < cfg.replicas && a < cfg.replicas && d < cfg.replicas && b < cfg.replicas
    requires |After(cfg, run).leaders| == cfg.replicas && Comes(TxnOrderAt(After(cfg, run), c, a), x, y)
    ensures var other := TxnOrderAt(After(cfg, run), d, b);
            && x != y && !Comes(other, y, x)
            && (x in other && y in other ==> Comes(other, x, y))
  {
    var s := After(cfg, run);
    RunKeepsOrder(cfg, run);
    BaseDistinct(cfg, s);
    TxnsDistinct(cfg, BaseOrder(s));
    LoggedFollowsBase(cfg, s, c, a, x, y);
    var other := TxnOrderAt(s, d, b);
    if Comes(other, y, x) {
      LoggedFollowsBase(cfg, s, d, b, y, x);
    }
    NeverBothWays(TxnIds(AllTxns(cfg, BaseOrder(s))), x, y);
    if x != y && x in other && y in other {
      OneWayOrOther(other, x, y);
    }
  }
}
