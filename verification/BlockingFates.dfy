/** Where each fetched transaction goes (mode 2): to the lock manager, into the queue of its origin, or off without locks. */
module BlockingFates {
  import opened Filters
  import opened Txns
  import opened Blocking
  import opened BlockingRuns
  import opened RemasterOrder

  // -------- what a run says

  /** Everything that the run fetches, in order. */
  function FetchedIn(run: seq<Event>): seq<Txn> {
    if run == [] then []
    else
      FetchedIn(Before(run)) +
      match run[|run| - 1]
      case Fetch(t) => [t]
      case _ => []
  }

  /** How often the run has remastered a record. */
  function ExecutedIn(run: seq<Event>, k: Key): nat {
    if run == [] then 0 else ExecutedIn(Before(run), k) + if run[|run| - 1] == Execute(k) then 1 else 0
  }

  /** After the run, `t` names a local record whose counter has moved on since, and none that is yet to get there. */
  predicate BehindAfter(cfg: NodeConfig, run: seq<Event>, t: Txn) {
    && !t.remaster
    && (forall e :: e in Entries(t) && LocalEntry(cfg, t, e) ==> e.counter <= ExecutedIn(run, e.key))
    && (exists e :: e in Entries(t) && LocalEntry(cfg, t, e) && e.counter < ExecutedIn(run, e.key))
  }

  /** The transactions of the run that were behind when they were fetched, in order, or all the others. */
  function FetchedWhen(cfg: NodeConfig, run: seq<Event>, behind: bool): seq<Txn> {
    if run == [] then []
    else
      FetchedWhen(cfg, Before(run), behind) +
      match run[|run| - 1]
      case Fetch(t) => if BehindAfter(cfg, Before(run), t) == behind then [t] else []
      case _ => []
  }

  // -------- proofs

  lemma {:induction false} CountersAreExecuted(cfg: NodeConfig, run: seq<Event>, k: Key)
    ensures CounterOf(After(cfg, run).counters, k) == ExecutedIn(run, k)
  {
    if run != [] {
      CountersAreExecuted(cfg, Before(run), k);
    }
  }

  lemma BehindIsDoomed(cfg: NodeConfig, run: seq<Event>, t: Txn)
    ensures BehindAfter(cfg, run, t) <==> Doomed(cfg, After(cfg, run), t)
  {
    BehindIs(cfg, After(cfg, run).counters, t);
    forall k ensures CounterOf(After(cfg, run).counters, k) == ExecutedIn(run, k) {
      CountersAreExecuted(cfg, run, k);
    }
  }

  lemma {:induction false} DoneSendsNone(s: State, v: Wait)
    ensures RemasterDone(s, v).unlocked == s.unlocked
    decreases |ListOf(s.byKey, v)|
  {
    if ListOf(s.byKey, v) != [] {
      DoneSendsNone(WakeFirst(s, v), v);
    }
  }

  lemma FetchSends(cfg: NodeConfig, w: World, t: Txn)
    ensures var w' := Apply(cfg, w, Fetch(t));
            && w'.s.unlocked == w.s.unlocked + (if Doomed(cfg, w, t) then [t] else [])
            && w'.fetched == w.fetched + (if Doomed(cfg, w, t) then [] else [t])
  {
    assert w.s.unlocked + [] == w.s.unlocked;
  }

  /** In every run, what is sent off without locks is, in order, what was behind storage and ahead of it nowhere when it was
      fetched; everything else goes to the lock manager or a queue. */
  lemma {:induction false} SentOffAreBehind(cfg: NodeConfig, run: seq<Event>)
    ensures After(cfg, run).s.unlocked == FetchedWhen(cfg, run, true)
    ensures After(cfg, run).fetched == FetchedWhen(cfg, run, false)
  {
    if run != [] {
      var w := After(cfg, Before(run));
      SentOffAreBehind(cfg, Before(run));
      match run[|run| - 1]
      case Fetch(t) =>
        BehindIsDoomed(cfg, Before(run), t);
        FetchSends(cfg, w, t);
      case Execute(_) =>
      case Handle(v) => DoneSendsNone(w.s, v);
    }
  }

  /** The transactions of an origin that are with the lock manager, in the queue, or sent off. */
  function Holdings(s: State, o: nat): multiset<Txn> {
    multiset(Filter(s.given, OriginIs(o))) + multiset(QueueOf(s, o)) + multiset(Filter(s.unlocked, OriginIs(o)))
  }

  function One(t: Txn, o: nat): seq<Txn> {
    if t.origin == o then [t] else []
  }

  lemma OneMore(p: seq<Txn>, q: seq<Txn>, r: seq<Txn>, t: Txn, o: nat)
    ensures multiset(p + One(t, o)) == multiset(p) + multiset(One(t, o))
    ensures multiset(p + One(t, o)) + multiset(q) + multiset(r) == multiset(p) + multiset(q) + multiset(r) + multiset(One(t, o))
    ensures multiset(p) + multiset(q + One(t, o)) + multiset(r) == multiset(p) + multiset(q) + multiset(r) + multiset(One(t, o))
    ensures multiset(p) + multiset(q) + multiset(r + One(t, o)) == multiset(p) + multiset(q) + multiset(r) + multiset(One(t, o))
  {
  }

  /** A fetch adds the transaction to one of the three, at its end. */
  lemma FetchPuts(cfg: NodeConfig, counters: Counters, s: State, t: Txn, o: nat)
    ensures var f := FetchOp(cfg, counters, s, t);
            || (f.given == s.given + [t] && QueueOf(f, o) == QueueOf(s, o) && f.unlocked == s.unlocked)
            || (f.given == s.given && QueueOf(f, o) == QueueOf(s, o) + One(t, o) && f.unlocked == s.unlocked)
            || (f.given == s.given && QueueOf(f, o) == QueueOf(s, o) && f.unlocked == s.unlocked + [t])
  {
  }

  lemma FetchKeepsAll(cfg: NodeConfig, w: World, t: Txn, o: nat)
    ensures Holdings(FetchOp(cfg, w.counters, w.s, t), o) == Holdings(w.s, o) + multiset(One(t, o))
  {
    var given, queue, unlocked := Filter(w.s.given, OriginIs(o)), QueueOf(w.s, o), Filter(w.s.unlocked, OriginIs(o));
    FilterMore(w.s.given, t, OriginIs(o));
    FilterMore(w.s.unlocked, t, OriginIs(o));
    FetchPuts(cfg, w.counters, w.s, t, o);
    OneMore(given, queue, unlocked, t, o);
  }

  lemma DoneKeepsAll(s: State, v: Wait, o: nat)
    requires QueuesByOrigin(s)
    ensures Holdings(RemasterDone(s, v), o) == Holdings(s, o)
  {
    DoneKeepsLockOrder(s, v, o);
    DoneSendsNone(s, v);
    var d := RemasterDone(s, v);
    assert multiset(Filter(d.given, OriginIs(o)) + QueueOf(d, o)) == multiset(Filter(s.given, OriginIs(o)) + QueueOf(s, o));
  }

  lemma FetchAccounts(cfg: NodeConfig, w: World, t: Txn, o: nat, all: seq<Txn>)
    requires multiset(Filter(all, OriginIs(o))) == Holdings(w.s, o)
    ensures multiset(Filter(all + [t], OriginIs(o))) == Holdings(FetchOp(cfg, w.counters, w.s, t), o)
  {
    FilterMore(all, t, OriginIs(o));
    OneMore(Filter(all, OriginIs(o)), [], [], t, o);
    FetchKeepsAll(cfg, w, t, o);
  }

  lemma {:induction false} AllAccounted(cfg: NodeConfig, run: seq<Event>, o: nat)
    requires ValidRun(cfg, run)
    ensures multiset(Filter(FetchedIn(run), OriginIs(o))) == Holdings(After(cfg, run).s, o)
  {
    if run != [] {
      AllAccounted(cfg, Before(run), o);
      var w, all := After(cfg, Before(run)), FetchedIn(Before(run));
      match run[|run| - 1]
      case Fetch(t) => FetchAccounts(cfg, w, t, o, all);
      case Execute(_) => assert all + [] == all;
      case Handle(v) =>
        assert all + [] == all;
        GivenInFetchOrder(cfg, Before(run), o);
        DoneKeepsAll(w.s, v, o);
    }
  }

  /** In every run each fetch of an origin's transactions, remasters included, leaves it in exactly one place: with the lock
      manager, in the queue, or sent off. */
  lemma NoneIsLost(cfg: NodeConfig, run: seq<Event>, o: nat)
    requires ValidRun(cfg, run)
    ensures var s := After(cfg, run).s;
            multiset(Filter(FetchedIn(run), OriginIs(o))) ==
            multiset(Filter(s.given, OriginIs(o))) + multiset(QueueOf(s, o)) + multiset(Filter(s.unlocked, OriginIs(o)))
  {
    AllAccounted(cfg, run, o);
  }
}
