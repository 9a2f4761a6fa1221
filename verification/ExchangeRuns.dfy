/** All shards of one transaction at a replica: in whatever order they begin and hear of each other, they
    become ready on the same records and decide alike. */
module ExchangeRuns {
  import opened Txns
  import opened Exchange

  /** `links[(p, q)]` are the results of `p` on their way to `q`. */
  datatype World = World(managers: map<Shard, Manager>, links: map<(Shard, Shard), seq<ReadResult>>)

  datatype Event = Begin(shard: Shard, early: bool) | Deliver(from: Shard, to: Shard)

  predicate Enabled(site: Site, t: Txn, w: World, e: Event) {
    match e
    case Begin(q, early) => q in Shards(site, t) && q !in w.managers && EarlyIsRight(site, t, q, early)
    case Deliver(p, q) => (p, q) in w.links && q in w.managers
  }

  function Apply(site: Site, t: Txn, w: World, e: Event): World
    requires Enabled(site, t, w, e)
  {
    match e
    case Begin(q, early) =>
      var m := Begun(site, t, q, early);
      World(w.managers[q := m], w.links + map to | to in Pairs(q, m.targets) :: m.localEntries)
    case Deliver(p, q) =>
      var m := w.managers[q];
      World(w.managers[q := m.(objects := Absorb(m.objects, w.links[(p, q)]))], w.links - {(p, q)})
  }

  function Pairs(q: Shard, targets: set<Shard>): set<(Shard, Shard)> {
    set r | r in targets :: (q, r)
  }

  function Before(run: seq<Event>): seq<Event>
    requires run != []
  {
    run[..|run| - 1]
  }

  predicate ValidRun(site: Site, t: Txn, run: seq<Event>)
    decreases |run|, 0
  {
    run == [] || (ValidRun(site, t, Before(run)) && Enabled(site, t, After(site, t, Before(run)), run[|run| - 1]))
  }

  function After(site: Site, t: Txn, run: seq<Event>): World
    requires ValidRun(site, t, run)
    decreases |run|, 1
  {
    if run == [] then World(map[], map[]) else Apply(site, t, After(site, t, Before(run)), run[|run| - 1])
  }

  /** The results of `p` have reached `q`. */
  predicate Heard(site: Site, t: Txn, w: World, p: Shard, q: Shard) {
    p == q || (p in w.managers && q in Writers(site, t) && (p, q) !in w.links)
  }

  function HeardBy(site: Site, t: Txn, w: World, q: Shard): set<Shard> {
    set p | p in w.managers && Heard(site, t, w, p, q)
  }

  ghost predicate ManagerInv(site: Site, t: Txn, w: World, q: Shard)
    requires q in w.managers
  {
    var m := w.managers[q];
    && q in Shards(site, t) && EarlyIsRight(site, t, q, m.early)
    && m == Begun(site, t, q, m.early).(objects := ObjectsAt(site, t, Entries(t), HeardBy(site, t, w, q)))
  }

  ghost predicate LinkInv(site: Site, t: Txn, w: World, p: Shard, q: Shard)
    requires (p, q) in w.links
  {
    p in w.managers && q in Writers(site, t) && p != q && w.links[(p, q)] == ResultsOf(site, t, Entries(t), p)
  }

  /** What was sent to a shard that has not begun is still on its link. */
  ghost predicate KeptFor(site: Site, t: Txn, w: World, p: Shard, q: Shard) {
    p in w.managers && q in Writers(site, t) && q != p && q !in w.managers ==> (p, q) in w.links
  }

  ghost predicate Inv(site: Site, t: Txn, w: World) {
    && (forall q :: q in w.managers ==> ManagerInv(site, t, w, q))
    && (forall p, q :: (p, q) in w.links ==> LinkInv(site, t, w, p, q))
    && (forall p, q :: KeptFor(site, t, w, p, q))
  }

  lemma BeginLinks(site: Site, t: Txn, w: World, q: Shard, early: bool, p: Shard, r: Shard)
    requires Enabled(site, t, w, Begin(q, early))
    ensures var w' := Apply(site, t, w, Begin(q, early));
            && ((p, r) in w'.links <==> (p, r) in w.links || (p == q && r in Writers(site, t) && r != q))
            && (p != q && (p, r) in w.links ==> w'.links[(p, r)] == w.links[(p, r)])
            && (p == q && (p, r) in w'.links && (p, r) !in w.links ==> w'.links[(p, r)] == w'.managers[q].localEntries)
  {
  }

  lemma BeginHeard(site: Site, t: Txn, w: World, q: Shard, early: bool, r: Shard)
    requires Inv(site, t, w) && Enabled(site, t, w, Begin(q, early)) && (r in w.managers || r == q)
    ensures HeardBy(site, t, Apply(site, t, w, Begin(q, early)), r)
            == if r == q then {q} else HeardBy(site, t, w, r)
  {
    var w' := Apply(site, t, w, Begin(q, early));
    forall p | p in w'.managers
      ensures Heard(site, t, w', p, r) <==> if r == q then p == q else p in w.managers && Heard(site, t, w, p, r)
    {
      BeginLinks(site, t, w, q, early, p, r);
      assert KeptFor(site, t, w, p, r);
    }
  }

  lemma BeginKeepsLink(site: Site, t: Txn, w: World, q: Shard, early: bool, p: Shard, r: Shard)
    requires Inv(site, t, w) && Enabled(site, t, w, Begin(q, early))
    ensures var w' := Apply(site, t, w, Begin(q, early));
            KeptFor(site, t, w', p, r) && ((p, r) in w'.links ==> LinkInv(site, t, w', p, r))
  {
    BeginLinks(site, t, w, q, early, p, r);
    assert KeptFor(site, t, w, p, r);
    if (p, r) in w.links {
      assert LinkInv(site, t, w, p, r);
    }
  }

  lemma BeginKeepsInv(site: Site, t: Txn, w: World, q: Shard, early: bool)
    requires Inv(site, t, w) && Enabled(site, t, w, Begin(q, early))
    ensures Inv(site, t, Apply(site, t, w, Begin(q, early)))
  {
    var w' := Apply(site, t, w, Begin(q, early));
    forall r | r in w'.managers ensures ManagerInv(site, t, w', r) {
      BeginHeard(site, t, w, q, early, r);
      assert r != q ==> ManagerInv(site, t, w, r);
    }
    forall p, r ensures KeptFor(site, t, w', p, r) && ((p, r) in w'.links ==> LinkInv(site, t, w', p, r)) {
      BeginKeepsLink(site, t, w, q, early, p, r);
    }
  }

  lemma DeliverHeardFrom(site: Site, t: Txn, w: World, p: Shard, q: Shard, r: Shard, a: Shard)
    requires Inv(site, t, w) && Enabled(site, t, w, Deliver(p, q)) && r in w.managers
    ensures a in HeardBy(site, t, Apply(site, t, w, Deliver(p, q)), r)
            <==> a in HeardBy(site, t, w, r) || (r == q && a == p)
  {
    var w' := Apply(site, t, w, Deliver(p, q));
    assert LinkInv(site, t, w, p, q);
    assert (a, r) in w'.links <==> (a, r) in w.links && (a, r) != (p, q);
    assert w'.managers.Keys == w.managers.Keys;
  }

  lemma DeliverHeard(site: Site, t: Txn, w: World, p: Shard, q: Shard, r: Shard)
    requires Inv(site, t, w) && Enabled(site, t, w, Deliver(p, q)) && r in w.managers
    ensures HeardBy(site, t, Apply(site, t, w, Deliver(p, q)), r)
            == HeardBy(site, t, w, r) + if r == q then {p} else {}
  {
    forall a ensures a in HeardBy(site, t, Apply(site, t, w, Deliver(p, q)), r)
                     <==> a in HeardBy(site, t, w, r) + if r == q then {p} else {}
    {
      DeliverHeardFrom(site, t, w, p, q, r, a);
    }
  }

  lemma DeliverKeepsManager(site: Site, t: Txn, w: World, p: Shard, q: Shard, r: Shard)
    requires Inv(site, t, w) && Enabled(site, t, w, Deliver(p, q)) && r in w.managers
    ensures ManagerInv(site, t, Apply(site, t, w, Deliver(p, q)), r)
  {
    DeliverHeard(site, t, w, p, q, r);
    assert ManagerInv(site, t, w, r) && LinkInv(site, t, w, p, q);
    if r == q {
      AbsorbUnion(site, t, HeardBy(site, t, w, q), p);
    } else {
      assert HeardBy(site, t, w, r) + {} == HeardBy(site, t, w, r);
    }
  }

  lemma DeliverKeepsInv(site: Site, t: Txn, w: World, p: Shard, q: Shard)
    requires Inv(site, t, w) && Enabled(site, t, w, Deliver(p, q))
    ensures Inv(site, t, Apply(site, t, w, Deliver(p, q)))
  {
    var w' := Apply(site, t, w, Deliver(p, q));
    forall r | r in w'.managers ensures ManagerInv(site, t, w', r) {
      DeliverKeepsManager(site, t, w, p, q, r);
    }
    forall a, b | (a, b) in w'.links ensures LinkInv(site, t, w', a, b) {
      assert LinkInv(site, t, w, a, b);
    }
    forall a, b ensures KeptFor(site, t, w', a, b) {
      assert KeptFor(site, t, w, a, b);
    }
  }

  lemma {:induction false} RunKeepsInv(site: Site, t: Txn, run: seq<Event>)
    requires ValidRun(site, t, run)
    ensures Inv(site, t, After(site, t, run))
  {
    if run != [] {
      var w := After(site, t, Before(run));
      RunKeepsInv(site, t, Before(run));
      match run[|run| - 1]
      case Begin(q, early) => BeginKeepsInv(site, t, w, q, early);
      case Deliver(p, q) => DeliverKeepsInv(site, t, w, p, q);
    }
  }

  // -------- the main results

  /** A shard is ready exactly when every other shard has begun and its results have arrived. */
  lemma ReadyWhenAllReported(site: Site, t: Txn, run: seq<Event>, q: Shard)
    requires ValidRun(site, t, run) && DistinctKeys(t) && q in After(site, t, run).managers
    ensures var w := After(site, t, run);
            Ready(t, w.managers[q]) <==>
              forall p :: p in Shards(site, t) && p != q ==>
                p in w.managers && q in Writers(site, t) && (p, q) !in w.links
  {
    var w := After(site, t, run);
    RunKeepsInv(site, t, run);
    assert ManagerInv(site, t, w, q);
    ReadyIffAllHeard(site, t, w.managers[q], HeardBy(site, t, w, q));
  }

  /** A message always finds its shard still waiting: none arrives after the shard has become ready. */
  lemma NoMessageComesLate(site: Site, t: Txn, run: seq<Event>, p: Shard, q: Shard)
    requires ValidRun(site, t, run) && DistinctKeys(t)
    requires var w := After(site, t, run); (p, q) in w.links && q in w.managers
    ensures !Ready(t, After(site, t, run).managers[q])
  {
    var w := After(site, t, run);
    RunKeepsInv(site, t, run);
    ReadyWhenAllReported(site, t, run, q);
    assert LinkInv(site, t, w, p, q) && ManagerInv(site, t, w, p);
  }

  lemma ReadyHasHeardAll(site: Site, t: Txn, run: seq<Event>, q: Shard)
    requires ValidRun(site, t, run) && DistinctKeys(t) && q in After(site, t, run).managers
    requires Ready(t, After(site, t, run).managers[q])
    ensures var w := After(site, t, run);
            Inv(site, t, w) && Shards(site, t) <= HeardBy(site, t, w, q)
            && w.managers[q].objects == ObjectsAt(site, t, Entries(t), Shards(site, t))
  {
    var w := After(site, t, run);
    RunKeepsInv(site, t, run);
    assert ManagerInv(site, t, w, q);
    var heard := HeardBy(site, t, w, q);
    ReadyIffAllHeard(site, t, w.managers[q], heard);
    forall p | p in heard ensures p in Shards(site, t) {
      assert ManagerInv(site, t, w, p);
    }
    assert heard == Shards(site, t);
  }

  /** Shards agree without a vote: all that are ready hold the same records, and each commits exactly if every entry
      of the transaction names the master and counter that was read. */
  lemma ShardsAgree(site: Site, t: Txn, run: seq<Event>, p: Shard, q: Shard)
    requires ValidRun(site, t, run) && DistinctKeys(t)
    requires var w := After(site, t, run); p in w.managers && q in w.managers
    requires var w := After(site, t, run); Ready(t, w.managers[p]) && Ready(t, w.managers[q])
    ensures var w := After(site, t, run);
            && w.managers[p].objects == w.managers[q].objects
            && (site.mode == 2 ==> (Commits(t, w.managers[p]) <==> AllMatch(site, Entries(t))))
            && (site.mode == 2 ==> (Commits(t, w.managers[p]) <==> Commits(t, w.managers[q])))
  {
    DecidesGlobally(site, t, run, p);
    DecidesGlobally(site, t, run, q);
  }

  lemma DecidesGlobally(site: Site, t: Txn, run: seq<Event>, q: Shard)
    requires ValidRun(site, t, run) && DistinctKeys(t) && q in After(site, t, run).managers
    requires Ready(t, After(site, t, run).managers[q])
    ensures var m := After(site, t, run).managers[q];
            && m.objects == ObjectsAt(site, t, Entries(t), Shards(site, t))
            && (site.mode == 2 ==> m.involved == Shards(site, t) && (Commits(t, m) <==> AllMatch(site, Entries(t))))
  {
    var w := After(site, t, run);
    ReadyHasHeardAll(site, t, run, q);
    assert ManagerInv(site, t, w, q);
    if site.mode == 2 {
      DecisionIsGlobal(site, t, q, w.managers[q], Shards(site, t));
    }
  }

  ghost predicate Complete(site: Site, t: Txn, w: World) {
    w.managers.Keys == Shards(site, t) && w.links == map[]
  }

  /** Once all messages have arrived all shards are ready, exactly if each of them writes or there is only one. */
  lemma AllReadyIffAllWrite(site: Site, t: Txn, run: seq<Event>)
    requires ValidRun(site, t, run) && DistinctKeys(t) && Complete(site, t, After(site, t, run))
    ensures (forall q :: q in Shards(site, t) ==> Ready(t, After(site, t, run).managers[q])) <==>
            (Shards(site, t) == Writers(site, t) || |Shards(site, t)| == 1 || Shards(site, t) == {})
  {
    var w, all := After(site, t, run), Shards(site, t);
    forall q | q in all ensures Ready(t, w.managers[q]) <==> q in Writers(site, t) || all == {q} {
      ReadyWhenAllReported(site, t, run, q);
      assert q !in Writers(site, t) && all != {q} ==> exists p :: p in all && p != q;
    }
    assert Writers(site, t) <= all;
    if |all| == 1 {
      var q :| q in all;
      Singleton(all, q);
    }
  }

  // -------- resubmission, over all replicas

  /** At one replica the chosen shard resubmits an aborted transaction, if it is a copy of that replica; nobody else. */
  lemma ResubmitsIf(site: Site, t: Txn, run: seq<Event>, replica: nat, q: Shard)
    requires ValidRun(site, t, run) && DistinctKeys(t) && site.mode == 2 && q in After(site, t, run).managers
    requires Ready(t, After(site, t, run).managers[q])
    ensures Resubmits(t, replica, q, After(site, t, run).managers[q]) <==>
            !AllMatch(site, Entries(t)) && q == Chosen(Shards(site, t)) && replica == q.1
  {
    DecidesGlobally(site, t, run, q);
  }

  /** All replicas place keys alike and run in mode 2, with partitions below the search's start value. */
  ghost predicate Alike(sites: nat -> Site) {
    && (forall r :: sites(r).mode == 2 && sites(r).partition == sites(0).partition)
    && (forall k :: sites(0).partition(k) < INT_MAX)
  }

  lemma SameShards(sites: nat -> Site, t: Txn, r: nat)
    requires Alike(sites)
    ensures Shards(sites(r), t) == Shards(sites(0), t)
  {
    assert forall e :: Home(sites(r), t, e) == Home(sites(0), t, e);
  }

  /** Over all replicas and shards at most one resubmits, whatever each of them has read. */
  lemma AtMostOneResubmits(sites: nat -> Site, t: Txn, runs: nat -> seq<Event>, r: nat, q: Shard, r': nat, q': Shard)
    requires Alike(sites) && DistinctKeys(t)
    requires ValidRun(sites(r), t, runs(r)) && ValidRun(sites(r'), t, runs(r'))
    requires var w := After(sites(r), t, runs(r)); q in w.managers && Ready(t, w.managers[q]) && Resubmits(t, r, q, w.managers[q])
    requires var w := After(sites(r'), t, runs(r'));
             q' in w.managers && Ready(t, w.managers[q']) && Resubmits(t, r', q', w.managers[q'])
    ensures r == r' && q == q'
  {
    ResubmitsIf(sites(r), t, runs(r), r, q);
    ResubmitsIf(sites(r'), t, runs(r'), r', q');
    SameShards(sites, t, r);
    SameShards(sites, t, r');
  }

  /** And one does: the smallest shard, at the replica that masters it, exactly if the transaction aborts there. */
  lemma OneResubmits(sites: nat -> Site, t: Txn, run: seq<Event>)
    requires Alike(sites) && DistinctKeys(t) && Entries(t) != []
    ensures var q := Chosen(Shards(sites(0), t));
            q in Shards(sites(q.1), t) &&
            (ValidRun(sites(q.1), t, run) && q in After(sites(q.1), t, run).managers
             && Ready(t, After(sites(q.1), t, run).managers[q]) ==>
               (Resubmits(t, q.1, q, After(sites(q.1), t, run).managers[q]) <==> !AllMatch(sites(q.1), Entries(t))))
  {
    var all := Shards(sites(0), t);
    assert Home(sites(0), t, Entries(t)[0]) in all;
    ChosenIsInvolved(all);
    var q := Chosen(all);
    SameShards(sites, t, q.1);
    if ValidRun(sites(q.1), t, run) && q in After(sites(q.1), t, run).managers
       && Ready(t, After(sites(q.1), t, run).managers[q]) {
      ResubmitsIf(sites(q.1), t, run, q.1, q);
    }
  }
}
