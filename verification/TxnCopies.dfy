/** Which multi-replica transactions get copies at the other replicas, and what becomes of those that do not. */
module TxnCopies {
  import opened Filters
  import opened Txns
  import opened Exchange
  import opened LocalPaxos
  import opened ReplicaLogs
  import opened ReplicaSafety
  import opened ReplicaOrder
  import opened ReplicaProgress
  import opened TxnOrder
  import ExchangeRuns

  // -------- what a settled system has logged

  lemma SettledHasAll(cfg: Config, s: System, c: nat, a: nat)
    requires PairsInv(cfg, s) && Settled(cfg, s) && c < cfg.replicas && a < cfg.replicas
    ensures From(s.leaders[c].globalLog, a) == s.leaders[a].localLog
  {
    if a == c {
      assert OwnInv(s.leaders[a], a);
    } else {
      QuietPair(cfg, s, a, c);
    }
  }

  lemma SettledHasRegenerated(cfg: Config, s: System, a: nat)
    requires OrderInv(cfg, s) && Settled(cfg, s) && 0 < a < cfg.replicas
    ensures Sources(Flatten(s.leaders[a].localLog)) == ForReplica(cfg, a, Flatten(s.leaders[0].localLog))
  {
    var l := s.leaders[a];
    assert ReplicaInv(cfg, s, a);
    SettledHasAll(cfg, s, a, 0);
    assert Own(l, a) == Flatten(l.localLog);
    assert Seen(l) == Flatten(From(l.globalLog, 0));
  }

  /** Once everything has settled, each global log has of each origin exactly what is to appear, in replica 0's order. */
  lemma SettledInBaseOrder(cfg: Config, s: System, c: nat, a: nat)
    requires OrderInv(cfg, s) && Settled(cfg, s) && c < cfg.replicas && a < cfg.replicas
    ensures Stripped(MultiAt(s, c, a)) == ToAppear(cfg, BaseOrder(s), a)
  {
    var bs := Flatten(s.leaders[a].localLog);
    SettledHasAll(cfg, s, c, a);
    LoggedAreHonest(cfg, s, c, a);
    ReceivedAreNamed(cfg, s.contents, a, bs);
    if a != 0 {
      SettledHasRegenerated(cfg, s, a);
      ForReplicaHasAll(cfg, a, Flatten(s.leaders[0].localLog));
    }
  }

  lemma StrippedIds(p: seq<Txn>, q: seq<Txn>)
    requires Stripped(p) == Stripped(q)
    ensures TxnIds(p) == TxnIds(q)
  {
    forall i | 0 <= i < |p| ensures |p| == |Stripped(q)| && p[i].id == q[i].id {
      assert Stripped(p)[i] == Strip(p[i]) && Stripped(q)[i] == Strip(q[i]);
    }
  }

  lemma IdStandsFor(txns: seq<Txn>, t: Txn, u: Txn)
    requires NoDuplicates(TxnIds(txns)) && t in txns && u in txns && t.id == u.id
    ensures t == u
  {
    var i :| 0 <= i < |txns| && txns[i] == t;
    var j :| 0 <= j < |txns| && txns[j] == u;
    assert TxnIds(txns)[i] == TxnIds(txns)[j];
  }

  lemma PickedIds(txns: seq<Txn>, p: Txn -> bool, t: Txn)
    requires NoDuplicates(TxnIds(txns)) && t in txns
    ensures t.id in TxnIds(Filter(txns, p)) <==> p(t)
  {
    var picked := Filter(txns, p);
    FilterHas(txns, p, t);
    if t.id in TxnIds(picked) {
      var k :| 0 <= k < |picked| && TxnIds(picked)[k] == t.id;
      var i := FilterPlace(txns, p, k);
      IdStandsFor(txns, t, txns[i]);
    }
    if p(t) {
      var k :| 0 <= k < |picked| && picked[k] == t;
      assert TxnIds(picked)[k] == t.id;
    }
  }

  /** A multi-replica transaction that replica 0 has logged gets copies at the other replicas it involves if and only if
      it is not marked as a copy itself: then, once everything has settled, every global log has them. */
  lemma CopiedIffNotGenerated(cfg: Config, run: seq<Event>, c: nat, a: nat, t: Txn)
    requires ValidRun(cfg, run) && UniqueTxns(cfg) && Settled(cfg, After(cfg, run)) && c < cfg.replicas && 0 < a < cfg.replicas
    requires t in AllTxns(cfg, BaseOrder(After(cfg, run))) && IsMultiFor(t, a)
    ensures t.id in TxnOrderAt(After(cfg, run), c, a) <==> !t.newGenerated
  {
    var s := After(cfg, run);
    RunKeepsOrder(cfg, run);
    BaseDistinct(cfg, s);
    TxnsDistinct(cfg, BaseOrder(s));
    SettledInBaseOrder(cfg, s, c, a);
    StrippedIds(MultiAt(s, c, a), Filter(AllTxns(cfg, BaseOrder(s)), AppearsFor(a)));
    PickedIds(AllTxns(cfg, BaseOrder(s)), AppearsFor(a), t);
  }

  /** In no run, settled or not, does one that is so marked get a copy. */
  lemma GeneratedIsNotCopied(cfg: Config, run: seq<Event>, c: nat, a: nat, t: Txn)
    requires ValidRun(cfg, run) && UniqueTxns(cfg) && c < cfg.replicas && 0 < a < cfg.replicas
    requires |After(cfg, run).leaders| == cfg.replicas && t in AllTxns(cfg, BaseOrder(After(cfg, run))) && t.newGenerated
    ensures t.id !in TxnOrderAt(After(cfg, run), c, a)
  {
    var s := After(cfg, run);
    var order, all := TxnOrderAt(s, c, a), AllTxns(cfg, BaseOrder(s));
    RunKeepsOrder(cfg, run);
    BaseDistinct(cfg, s);
    TxnsDistinct(cfg, BaseOrder(s));
    LoggedInBaseOrder(cfg, s, c, a);
    PickedIds(all, AppearsFor(a), t);
    forall k | 0 <= k < |order| ensures order[k] in TxnIds(Filter(all, AppearsFor(a))) {
      assert Stripped(MultiAt(s, c, a))[k] == ToAppear(cfg, BaseOrder(s), a)[k];
      assert TxnIds(Filter(all, AppearsFor(a)))[k] == order[k];
    }
  }

  // -------- resubmission

  /** The transaction as it is logged again at replica `r`: the sequencer there sets its origin and nothing else. */
  function LoggedAgain(t: Txn, objects: map<Key, Record>, newId: nat, r: nat): Txn
    requires HasAll(t, objects)
  {
    Again(t, objects, newId).txn.(origin := r)
  }

  /** An aborted transaction that is made again at replica 0 with several masters is forwarded at the other replicas it
      then involves if and only if what aborted, at the shard that made it again, was not a copy. */
  lemma AgainIsForwardedIff(t: Txn, objects: map<Key, Record>, newId: nat, a: nat)
    requires HasAll(t, objects) && |Again(t, objects, newId).involved| > 1
    ensures var again := Again(t, objects, newId);
            && again.destination == 0
            && (a in again.involved ==>
                  (MultiPart([LoggedAgain(t, objects, newId, 0)], a) != [] <==> !t.newGenerated))
  {
    var u := LoggedAgain(t, objects, newId, 0);
    assert Entries(u) == Entries(Again(t, objects, newId).txn);
    assert [u] == [] + [u];
    FilterMore([], u, Forwarded(a));
  }

  lemma ReadAll(site: Site, t: Txn, m: Manager)
    requires m.objects == ObjectsAt(site, t, Entries(t), Shards(site, t))
    ensures HasAll(t, m.objects) && forall k :: k in m.objects ==> m.objects[k] == site.store(k)
  {
    forall e | e in Entries(t) ensures e.key in m.objects {
      assert Home(site, t, e) in Shards(site, t);
      assert e.key in KeysAt(site, t, Entries(t), Shards(site, t));
    }
  }

  /** What runs of a transaction of replica 0's log at origin `a`: the transaction itself, or the copy made there. */
  function RunsAt(t: Txn, a: nat): Txn {
    if a == 0 then t else CopyFor(t, a)
  }

  /** Of all aborted transactions of replica 0's log, those that get copies again are the ones whose smallest shard has
      origin 0, and that are not copies themselves. */
  lemma ResubmittedIsForwardedIff(site: Site, t: Txn, run: seq<ExchangeRuns.Event>, q: Shard, newId: nat, a: nat)
    requires ExchangeRuns.ValidRun(site, t, run) && DistinctKeys(t) && site.mode == 2
    requires q in ExchangeRuns.After(site, t, run).managers && Ready(t, ExchangeRuns.After(site, t, run).managers[q])
    requires Resubmits(t, q.1, q, ExchangeRuns.After(site, t, run).managers[q])
    ensures var objects := ExchangeRuns.After(site, t, run).managers[q].objects;
            && HasAll(t, objects) && q == Chosen(Shards(site, t))
            && var again := Again(RunsAt(t, q.1), objects, newId);
               |again.involved| > 1 && a in again.involved ==>
                 (MultiPart([LoggedAgain(RunsAt(t, q.1), objects, newId, 0)], a) != []
                  <==> Chosen(Shards(site, t)).1 == 0 && !t.newGenerated)
  {
    var objects := ExchangeRuns.After(site, t, run).managers[q].objects;
    ExchangeRuns.DecidesGlobally(site, t, run, q);
    ReadAll(site, t, ExchangeRuns.After(site, t, run).managers[q]);
    var copy := RunsAt(t, q.1);
    assert Entries(copy) == Entries(t);
    if |Again(copy, objects, newId).involved| > 1 {
      AgainIsForwardedIff(copy, objects, newId, a);
    }
  }

  /** Without the copies at another of its shards, a transaction never becomes ready at any shard. */
  lemma NeverReadyWithout(site: Site, t: Txn, run: seq<ExchangeRuns.Event>, missing: Shard, q: Shard)
    requires ExchangeRuns.ValidRun(site, t, run) && DistinctKeys(t)
    requires missing in Shards(site, t) && missing !in ExchangeRuns.After(site, t, run).managers
    requires q in ExchangeRuns.After(site, t, run).managers
    ensures !Ready(t, ExchangeRuns.After(site, t, run).managers[q])
  {
    ExchangeRuns.ReadyWhenAllReported(site, t, run, q);
  }

  // -------- an example

  const X := KeyEntry("x", 1, 0)
  const Y := KeyEntry("y", 0, 0)

  /** A transaction on a record of partition 0 that replica 1 masters, and one of partition 1 that replica 0 masters. */
  const Crossed := Txn(7, 0, false, false, [], [X, Y])

  function PartitionOf(k: Key): nat {
    if k == "x" then 0 else 1
  }

  /** The record of the first has been away and is back, with a higher counter. */
  function Stored(k: Key): Record {
    if k == "x" then Record("", 1, 2) else Record("", 0, 0)
  }

  const Storage := Site(2, PartitionOf, Stored)

  const FirstShard: Shard := (0, 1)
  const SecondShard: Shard := (1, 0)

  lemma CrossedDistinct()
    ensures DistinctKeys(Crossed) && Entries(Crossed) == [X, Y]
  {
    assert Crossed.readWriteSet + Crossed.readSet == [X, Y];
  }

  lemma CrossedHomes(es: seq<KeyEntry>)
    requires es == [X, Y]
    ensures Homes(Storage, Crossed, es) == {FirstShard, SecondShard}
  {
    assert Home(Storage, Crossed, X) == FirstShard && Home(Storage, Crossed, Y) == SecondShard;
    assert es[0] in es && es[1] in es;
  }

  lemma CrossedShards()
    ensures Shards(Storage, Crossed) == Writers(Storage, Crossed) == {FirstShard, SecondShard}
    ensures DistinctKeys(Crossed) && Chosen(Shards(Storage, Crossed)) == FirstShard
  {
    CrossedDistinct();
    CrossedHomes(Entries(Crossed));
    CrossedHomes(Crossed.readWriteSet);
    MinUnique({FirstShard, SecondShard} + {Sentinel}, FirstShard, Chosen({FirstShard, SecondShard}));
  }

  const Steps := [ExchangeRuns.Begin(FirstShard, false), ExchangeRuns.Begin(SecondShard, false),
                  ExchangeRuns.Deliver(SecondShard, FirstShard)]

  lemma OneMoreEvent(site: Site, t: Txn, run: seq<ExchangeRuns.Event>, e: ExchangeRuns.Event)
    requires ExchangeRuns.ValidRun(site, t, run) && ExchangeRuns.Enabled(site, t, ExchangeRuns.After(site, t, run), e)
    ensures ExchangeRuns.ValidRun(site, t, run + [e])
    ensures ExchangeRuns.After(site, t, run + [e]) == ExchangeRuns.Apply(site, t, ExchangeRuns.After(site, t, run), e)
  {
    assert ExchangeRuns.Before(run + [e]) == run;
  }

  lemma BothBegin(site: Site, t: Txn, run: seq<ExchangeRuns.Event>, p: Shard, q: Shard)
    requires p in Writers(site, t) && q in Shards(site, t) && p != q && ExchangeRuns.ValidRun(site, t, run)
    requires p in ExchangeRuns.After(site, t, run).managers && q !in ExchangeRuns.After(site, t, run).managers
    ensures ExchangeRuns.ValidRun(site, t, run + [ExchangeRuns.Begin(q, false)])
    ensures var w := ExchangeRuns.After(site, t, run + [ExchangeRuns.Begin(q, false)]);
            p in w.managers && q in w.managers && (q, p) in w.links
  {
    OneMoreEvent(site, t, run, ExchangeRuns.Begin(q, false));
    ExchangeRuns.BeginLinks(site, t, ExchangeRuns.After(site, t, run), q, false, q, p);
  }

  lemma OneHears(site: Site, t: Txn, run: seq<ExchangeRuns.Event>, p: Shard, q: Shard)
    requires Shards(site, t) == {p, q} && p in Writers(site, t) && DistinctKeys(t) && ExchangeRuns.ValidRun(site, t, run)
    requires var w := ExchangeRuns.After(site, t, run); p in w.managers && q in w.managers && (q, p) in w.links
    ensures ExchangeRuns.ValidRun(site, t, run + [ExchangeRuns.Deliver(q, p)])
    ensures var w := ExchangeRuns.After(site, t, run + [ExchangeRuns.Deliver(q, p)]);
            p in w.managers && Ready(t, w.managers[p])
  {
    OneMoreEvent(site, t, run, ExchangeRuns.Deliver(q, p));
    ExchangeRuns.ReadyWhenAllReported(site, t, run + [ExchangeRuns.Deliver(q, p)], p);
  }

  /** Two shards that both write: one hears from the other. */
  lemma TwoShards(site: Site, t: Txn, p: Shard, q: Shard)
    requires Shards(site, t) == Writers(site, t) == {p, q} && p != q && DistinctKeys(t)
    ensures var run := [ExchangeRuns.Begin(p, false)] + [ExchangeRuns.Begin(q, false)] + [ExchangeRuns.Deliver(q, p)];
            && ExchangeRuns.ValidRun(site, t, run) && p in ExchangeRuns.After(site, t, run).managers
            && Ready(t, ExchangeRuns.After(site, t, run).managers[p])
  {
    OneMoreEvent(site, t, [], ExchangeRuns.Begin(p, false));
    assert [] + [ExchangeRuns.Begin(p, false)] == [ExchangeRuns.Begin(p, false)];
    BothBegin(site, t, [ExchangeRuns.Begin(p, false)], p, q);
    OneHears(site, t, [ExchangeRuns.Begin(p, false)] + [ExchangeRuns.Begin(q, false)], p, q);
  }

  lemma CrossedRun()
    ensures ExchangeRuns.ValidRun(Storage, Crossed, Steps) && FirstShard in ExchangeRuns.After(Storage, Crossed, Steps).managers
    ensures Ready(Crossed, ExchangeRuns.After(Storage, Crossed, Steps).managers[FirstShard])
  {
    CrossedShards();
    TwoShards(Storage, Crossed, FirstShard, SecondShard);
    assert Steps == [ExchangeRuns.Begin(FirstShard, false)] + [ExchangeRuns.Begin(SecondShard, false)]
                    + [ExchangeRuns.Deliver(SecondShard, FirstShard)];
  }

  lemma CrossedMismatch()
    ensures !AllMatch(Storage, Entries(Crossed))
  {
    assert X in Entries(Crossed) && !Matches(Storage, X);
  }

  lemma CrossedAborts() returns (m: Manager)
    ensures ExchangeRuns.ValidRun(Storage, Crossed, Steps) && FirstShard in ExchangeRuns.After(Storage, Crossed, Steps).managers
    ensures m == ExchangeRuns.After(Storage, Crossed, Steps).managers[FirstShard]
    ensures Resubmits(Crossed, 1, FirstShard, m) && HasAll(Crossed, m.objects)
    ensures forall k :: k in m.objects ==> m.objects[k] == Storage.store(k)
  {
    CrossedRun();
    CrossedShards();
    CrossedMismatch();
    m := ExchangeRuns.After(Storage, Crossed, Steps).managers[FirstShard];
    ExchangeRuns.ResubmitsIf(Storage, Crossed, Steps, 1, FirstShard);
    ExchangeRuns.DecidesGlobally(Storage, Crossed, Steps, FirstShard);
    ReadAll(Storage, Crossed, m);
  }

  lemma CrossedMasters()
    ensures (set e | e in Entries(Crossed) :: Storage.store(e.key).master) == {0, 1}
  {
    assert Entries(Crossed) == [X, Y];
    assert Storage.store(X.key).master == 1 && Storage.store(Y.key).master == 0;
    assert X in Entries(Crossed) && Y in Entries(Crossed);
  }

  lemma CrossedAgain(objects: map<Key, Record>, newId: nat)
    requires HasAll(Crossed, objects) && forall k :: k in objects ==> objects[k] == Storage.store(k)
    ensures HasAll(CopyFor(Crossed, 1), objects) && Again(CopyFor(Crossed, 1), objects, newId).involved == {0, 1}
  {
    var copy := CopyFor(Crossed, 1);
    assert Entries(copy) == Entries(Crossed);
    CrossedMasters();
    AgainMatches(Storage, copy, objects, newId);
  }

  /** It aborts, the shard at replica 1 makes it again, still with two masters, and sends it to replica 0; there it is
      logged, but replica 1 gets no copy. */
  lemma ResubmittedCopyIsLost(newId: nat) returns (m: Manager)
    ensures ExchangeRuns.ValidRun(Storage, Crossed, Steps) && FirstShard in ExchangeRuns.After(Storage, Crossed, Steps).managers
    ensures m == ExchangeRuns.After(Storage, Crossed, Steps).managers[FirstShard]
    ensures Resubmits(Crossed, 1, FirstShard, m) && HasAll(RunsAt(Crossed, 1), m.objects)
    ensures var again := Again(RunsAt(Crossed, 1), m.objects, newId);
            && again.involved == {0, 1} && again.destination == 0
            && MultiPart([LoggedAgain(RunsAt(Crossed, 1), m.objects, newId, 0)], 1) == []
  {
    m := CrossedAborts();
    CrossedAgain(m.objects, newId);
    AgainIsForwardedIff(RunsAt(Crossed, 1), m.objects, newId, 1);
  }
}
