/** What each origin has logged once everything has settled: the same for every replica, nothing twice, and the
    transactions of several origins in one order. */
module Streams {
  import opened Filters
  import opened Txns
  import opened LocalPaxos
  import opened ReplicaLogs
  import opened ReplicaSafety
  import opened ReplicaOrder
  import opened ReplicaProgress
  import opened TxnOrder
  import opened TxnCopies
  import opened Merge

  /** All that replica `a` has logged of its own, as the schedulers receive it. */
  function RunOf(s: System, a: nat): seq<Txn>
    requires a < |s.leaders|
  {
    Received(s.contents, Flatten(s.leaders[a].localLog))
  }

  /** The transactions that run with origin `a`, in the order of its log. */
  function Stream(s: System, a: nat): seq<Txn>
    requires a < |s.leaders|
  {
    Stripped(Filter(RunOf(s, a), InvolvesFor(a)))
  }

  /** The transactions of several origins, in the order of replica 0's log. */
  function Multis(cfg: Config, s: System): seq<Txn>
    requires s.leaders != []
  {
    Stripped(Filter(AllTxns(cfg, BaseOrder(s)), IsMulti))
  }

  /** Replica 0 has logged no transaction of several origins that is marked as a copy. */
  ghost predicate NoneGenerated(cfg: Config, s: System)
    requires s.leaders != []
  {
    forall t :: t in AllTxns(cfg, BaseOrder(s)) && IsMulti(t) ==> !t.newGenerated
  }

  lemma SettledRun(cfg: Config, s: System, c: nat, a: nat)
    requires PairsInv(cfg, s) && Settled(cfg, s) && c < cfg.replicas && a < cfg.replicas
    ensures RunAt(s, c, a) == RunOf(s, a)
  {
    SettledHasAll(cfg, s, c, a);
  }

  // -------- transactions of several origins

  lemma StripKeepsInvolved(t: Txn)
    ensures Involved(Strip(t)) == Involved(t)
  {
    assert Entries(Strip(t)) == Entries(t);
  }

  lemma StrippedPick(txns: seq<Txn>, p: Txn -> bool)
    requires forall t :: p(Strip(t)) == p(t)
    ensures Filter(Stripped(txns), p) == Stripped(Filter(txns, p))
  {
    FilterMapped(txns, Strip, p, p);
  }

  lemma InvolvementIsShared(a: nat)
    ensures forall t :: InvolvesFor(a)(Strip(t)) == InvolvesFor(a)(t)
    ensures forall t :: IsMulti(Strip(t)) == IsMulti(t)
  {
    forall t: Txn ensures InvolvesFor(a)(Strip(t)) == InvolvesFor(a)(t) && IsMulti(Strip(t)) == IsMulti(t) {
      StripKeepsInvolved(t);
    }
  }

  lemma StreamMultis(s: System, a: nat)
    requires a < |s.leaders|
    ensures Filter(Stream(s, a), IsMulti) == Stripped(Filter(RunOf(s, a), MultiFor(a)))
  {
    InvolvementIsShared(a);
    StrippedPick(Filter(RunOf(s, a), InvolvesFor(a)), IsMulti);
    FilterTwice(RunOf(s, a), InvolvesFor(a), IsMulti, MultiFor(a));
  }

  lemma MultisFor(cfg: Config, s: System, a: nat)
    requires s.leaders != [] && NoneGenerated(cfg, s)
    ensures Filter(Multis(cfg, s), InvolvesFor(a)) == ToAppear(cfg, BaseOrder(s), a)
  {
    var all := AllTxns(cfg, BaseOrder(s));
    InvolvementIsShared(a);
    StrippedPick(Filter(all, IsMulti), InvolvesFor(a));
    FilterTwice(all, IsMulti, InvolvesFor(a), MultiFor(a));
    forall i | 0 <= i < |all| ensures MultiFor(a)(all[i]) == AppearsFor(a)(all[i]) {
      assert all[i] in all;
    }
    FilterAlike(all, MultiFor(a), AppearsFor(a));
  }

  /** The transactions of several origins are logged by each of these in the order of replica 0. */
  lemma StreamMeets(cfg: Config, s: System, a: nat)
    requires OrderInv(cfg, s) && Settled(cfg, s) && a < cfg.replicas && NoneGenerated(cfg, s)
    ensures Meets(Stream(s, a), Multis(cfg, s), a)
  {
    SettledRun(cfg, s, a, a);
    SettledInBaseOrder(cfg, s, a, a);
    StreamMultis(s, a);
    MultisFor(cfg, s, a);
    var picked := Filter(RunOf(s, a), InvolvesFor(a));
    forall i | 0 <= i < |Stream(s, a)| ensures Involves(Stream(s, a)[i], a) {
      var j := FilterPlace(RunOf(s, a), InvolvesFor(a), i);
      StripKeepsInvolved(picked[i]);
    }
  }

  // -------- nothing twice

  lemma PickedIdsDiffer(txns: seq<Txn>, p: Txn -> bool)
    requires NoDuplicates(TxnIds(txns))
    ensures NoDuplicates(TxnIds(Filter(txns, p)))
  {
    var picked := Filter(txns, p);
    forall k, l | 0 <= k < l < |picked| ensures TxnIds(picked)[k] != TxnIds(picked)[l] {
      var i, j := FilterKeepsOrder(txns, p, k, l);
      assert TxnIds(txns)[i] != TxnIds(txns)[j];
    }
  }

  lemma CopyIsMulti(txns: seq<Txn>, a: nat, u: Txn)
    requires u in Copies(MultiPart(txns, a), a)
    ensures IsMulti(u)
  {
    var k :| 0 <= k < |MultiPart(txns, a)| && Copies(MultiPart(txns, a), a)[k] == u;
    var i := FilterPlace(txns, Forwarded(a), k);
    assert Entries(u) == Entries(txns[i]);
  }

  /** A transaction of one origin comes from a sequencer's batch. */
  lemma {:induction false} SingleIsSequenced(cfg: Config, contents: map<nat, seq<Txn>>, a: nat, bs: Sequence, u: Txn)
    returns (p: nat, i: nat)
    requires AllHonest(cfg, contents, a, bs) && u in Received(contents, bs) && IsSingle(u)
    ensures p < |bs| && i < |cfg.content(bs[p].id)| && cfg.content(bs[p].id)[i] == u
  {
    var init, b := bs[..|bs| - 1], bs[|bs| - 1];
    assert Honest(cfg, contents, a, b) && AllHonest(cfg, contents, a, init);
    if u in contents[b.id] {
      if b.source.Some? {
        CopyIsMulti(cfg.content(b.source.value), a, u);
      }
      p := |init|;
      i :| 0 <= i < |contents[b.id]| && contents[b.id][i] == u;
    } else {
      p, i := SingleIsSequenced(cfg, contents, a, init, u);
    }
  }

  lemma BatchIdsDiffer(cfg: Config, b: nat)
    requires UniqueTxns(cfg)
    ensures NoDuplicates(TxnIds(cfg.content(b)))
  {
  }

  /** The transactions of one origin in a batch. */
  lemma SinglesOfBatch(cfg: Config, contents: map<nat, seq<Txn>>, a: nat, b: Batch)
    requires Honest(cfg, contents, a, b) && UniqueTxns(cfg)
    ensures var singles := Filter(contents[b.id], IsSingle);
            && NoDuplicates(TxnIds(singles))
            && forall u :: u in singles ==> IsSingle(u) && u in contents[b.id] && u in cfg.content(b.id)
  {
    var singles := Filter(contents[b.id], IsSingle);
    forall u | u in singles ensures IsSingle(u) && u in contents[b.id] && u in cfg.content(b.id) {
      FilterHas(contents[b.id], IsSingle, u);
      if b.source.Some? {
        CopyIsMulti(cfg.content(b.source.value), a, u);
      }
    }
    if b.source.Some? {
      assert forall k :: 0 <= k < |singles| ==> singles[k] in singles;
      CopiesAreNotSingle(cfg.content(b.source.value), a);
    } else {
      BatchIdsDiffer(cfg, b.id);
      PickedIdsDiffer(contents[b.id], IsSingle);
    }
  }

  lemma CopiesAreNotSingle(txns: seq<Txn>, a: nat)
    ensures Filter(Copies(MultiPart(txns, a), a), IsSingle) == []
  {
    var copies := Copies(MultiPart(txns, a), a);
    forall i | 0 <= i < |copies| ensures !IsSingle(copies[i]) {
      CopyIsMulti(txns, a, copies[i]);
    }
    FilterNone(copies, IsSingle);
  }

  lemma NoDuplicatesConcat(p: seq<nat>, q: seq<nat>)
    requires NoDuplicates(p) && NoDuplicates(q) && forall x, y :: x in p && y in q ==> x != y
    ensures NoDuplicates(p + q)
  {
    forall i, j | 0 <= i < j < |p + q| ensures (p + q)[i] != (p + q)[j] {
      assert i < |p| <= j ==> p[i] in p && q[j - |p|] in q;
    }
  }

  lemma IdsApartSingles(cfg: Config, contents: map<nat, seq<Txn>>, a: nat, init: Sequence, b: Batch, x: nat, y: nat)
    requires AllHonest(cfg, contents, a, init) && Honest(cfg, contents, a, b) && UniqueTxns(cfg)
    requires b.id !in Ids(init)
    requires x in TxnIds(Filter(Received(contents, init), IsSingle)) && y in TxnIds(Filter(contents[b.id], IsSingle))
    ensures x != y
  {
    var ps, qs := Filter(Received(contents, init), IsSingle), Filter(contents[b.id], IsSingle);
    var k :| 0 <= k < |ps| && TxnIds(ps)[k] == x;
    var l :| 0 <= l < |qs| && TxnIds(qs)[l] == y;
    FilterHas(Received(contents, init), IsSingle, ps[k]);
    SinglesOfBatch(cfg, contents, a, b);
    assert qs[l] in qs;
    var p, i := SingleIsSequenced(cfg, contents, a, init, ps[k]);
    var j :| 0 <= j < |cfg.content(b.id)| && cfg.content(b.id)[j] == qs[l];
    assert Ids(init)[p] in Ids(init);
    BatchesDiffer(cfg, init[p].id, i, b.id, j);
  }

  lemma BatchesDiffer(cfg: Config, b: nat, i: nat, c: nat, j: nat)
    requires UniqueTxns(cfg) && b != c && i < |cfg.content(b)| && j < |cfg.content(c)|
    ensures cfg.content(b)[i].id != cfg.content(c)[j].id
  {
  }

  lemma {:induction false} SinglesDiffer(cfg: Config, contents: map<nat, seq<Txn>>, a: nat, bs: Sequence)
    requires AllHonest(cfg, contents, a, bs) && NoDuplicates(Ids(bs)) && UniqueTxns(cfg)
    ensures NoDuplicates(TxnIds(Filter(Received(contents, bs), IsSingle)))
  {
    if bs != [] {
      var init, b := bs[..|bs| - 1], bs[|bs| - 1];
      assert bs == init + [b];
      assert Honest(cfg, contents, a, b) && AllHonest(cfg, contents, a, init);
      assert NoDuplicates(Ids(init)) && b.id !in Ids(init) by {
        assert forall i :: 0 <= i < |init| ==> Ids(init)[i] == Ids(bs)[i];
        assert Ids(bs)[|init|] == b.id;
      }
      SinglesDiffer(cfg, contents, a, init);
      ReceivedMore(contents, init, b, a);
      FilterConcat(Received(contents, init), contents[b.id], IsSingle);
      SinglesOfBatch(cfg, contents, a, b);
      var ps, qs := Filter(Received(contents, init), IsSingle), Filter(contents[b.id], IsSingle);
      MappedConcat(ps, qs, IdOf);
      forall x, y | x in TxnIds(ps) && y in TxnIds(qs) ensures x != y {
        IdsApartSingles(cfg, contents, a, init, b, x, y);
      }
      NoDuplicatesConcat(TxnIds(ps), TxnIds(qs));
    }
  }

  lemma OwnIsLogged(cfg: Config, s: System, a: nat)
    requires OrderInv(cfg, s) && Settled(cfg, s) && a < cfg.replicas
    ensures Own(s.leaders[a], a) == Flatten(s.leaders[a].localLog)
    ensures AllHonest(cfg, s.contents, a, Flatten(s.leaders[a].localLog))
    ensures NoDuplicates(Ids(Flatten(s.leaders[a].localLog)))
  {
    assert Own(s.leaders[a], a) == Flatten(s.leaders[a].localLog);
    assert ReplicaInv(cfg, s, a) && IdsApart(s, a, a);
  }

  lemma MultiIdsDiffer(cfg: Config, s: System, a: nat)
    requires OrderInv(cfg, s) && Settled(cfg, s) && a < cfg.replicas && UniqueTxns(cfg)
    ensures NoDuplicates(TxnIds(Filter(RunOf(s, a), MultiFor(a))))
  {
    SettledRun(cfg, s, a, a);
    SettledInBaseOrder(cfg, s, a, a);
    BaseDistinct(cfg, s);
    TxnsDistinct(cfg, BaseOrder(s));
    PickedIdsDiffer(AllTxns(cfg, BaseOrder(s)), AppearsFor(a));
    StrippedIds(MultiAt(s, a, a), Filter(AllTxns(cfg, BaseOrder(s)), AppearsFor(a)));
  }

  lemma SameKind(x: Txn, y: Txn)
    requires Strip(x) == Strip(y)
    ensures IsMulti(x) == IsMulti(y) && IdOf(x) == IdOf(y)
  {
    StripKeepsInvolved(x);
    StripKeepsInvolved(y);
  }

  ghost predicate IdsDiffer(txns: seq<Txn>) {
    forall k, l :: 0 <= k < l < |txns| ==> txns[k].id != txns[l].id
  }

  lemma DistinctIdsDiffer(txns: seq<Txn>)
    requires NoDuplicates(TxnIds(txns))
    ensures IdsDiffer(txns)
  {
    forall k, l | 0 <= k < l < |txns| ensures txns[k].id != txns[l].id {
      assert TxnIds(txns)[k] != TxnIds(txns)[l];
    }
  }

  lemma PickedByIds(run: seq<Txn>, p: Txn -> bool, i: nat, j: nat)
    requires IdsDiffer(Filter(run, p)) && i < j < |run| && p(run[i]) && p(run[j])
    ensures run[i].id != run[j].id
  {
    PickedDiffer(run, p, IdOf, i, j);
  }

  /** What involves its origin does not appear twice in what the origin logs, be its origins one or several. */
  lemma InvolvedDiffer(run: seq<Txn>, a: nat, i: nat, j: nat, x: Txn, y: Txn)
    requires IdsDiffer(Filter(run, IsSingle)) && IdsDiffer(Filter(run, MultiFor(a)))
    requires i < j < |run| && run[i] == x && run[j] == y && Involves(x, a) && Involves(y, a)
    ensures Strip(x) != Strip(y)
  {
    if Strip(x) == Strip(y) {
      SameKind(x, y);
      if IsSingle(x) {
        PickedByIds(run, IsSingle, i, j);
      } else {
        assert MultiFor(a)(x) && MultiFor(a)(y);
        PickedByIds(run, MultiFor(a), i, j);
      }
    }
  }

  lemma StreamDiffers(cfg: Config, s: System, a: nat)
    requires OrderInv(cfg, s) && Settled(cfg, s) && a < cfg.replicas && UniqueTxns(cfg)
    ensures NoDuplicates(Stream(s, a))
  {
    var run, picked := RunOf(s, a), Filter(RunOf(s, a), InvolvesFor(a));
    OwnIsLogged(cfg, s, a);
    SinglesDiffer(cfg, s.contents, a, Flatten(s.leaders[a].localLog));
    MultiIdsDiffer(cfg, s, a);
    DistinctIdsDiffer(Filter(run, IsSingle));
    DistinctIdsDiffer(Filter(run, MultiFor(a)));
    forall k, l | 0 <= k < l < |picked| ensures Stream(s, a)[k] != Stream(s, a)[l] {
      var i, j := FilterKeepsOrder(run, InvolvesFor(a), k, l);
      FilterHas(run, InvolvesFor(a), picked[k]);
      FilterHas(run, InvolvesFor(a), picked[l]);
      assert picked[k] in picked && picked[l] in picked;
      InvolvedDiffer(run, a, i, j, picked[k], picked[l]);
    }
  }

  // -------- where everything comes from

  /** Every transaction that is received is a transaction of a sequencer, or a copy of one. */
  lemma {:induction false} ReceivedIsSequenced(cfg: Config, contents: map<nat, seq<Txn>>, a: nat, bs: Sequence, u: Txn)
    returns (b: nat, i: nat)
    requires AllHonest(cfg, contents, a, bs) && u in Received(contents, bs)
    ensures i < |cfg.content(b)| && Strip(cfg.content(b)[i]) == Strip(u)
  {
    var init, last := bs[..|bs| - 1], bs[|bs| - 1];
    assert Honest(cfg, contents, a, last) && AllHonest(cfg, contents, a, init);
    if u in contents[last.id] {
      b, i := BatchIsSequenced(cfg, contents, a, last, u);
    } else {
      b, i := ReceivedIsSequenced(cfg, contents, a, init, u);
    }
  }

  lemma BatchIsSequenced(cfg: Config, contents: map<nat, seq<Txn>>, a: nat, last: Batch, u: Txn) returns (b: nat, i: nat)
    requires Honest(cfg, contents, a, last) && u in contents[last.id]
    ensures i < |cfg.content(b)| && Strip(cfg.content(b)[i]) == Strip(u)
  {
    var k :| 0 <= k < |contents[last.id]| && contents[last.id][k] == u;
    if last.source.Some? {
      b := last.source.value;
      i := FilterPlace(cfg.content(b), Forwarded(a), k);
    } else {
      b, i := last.id, k;
    }
  }
}
