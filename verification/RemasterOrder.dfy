/** Remasters overtake the transactions that wait (mode 2): when locks are requested in the order of the log, and what
    happens when they are not. */
module RemasterOrder {
  import opened Filters
  import opened Txns
  import opened Blocking
  import opened BlockingRuns

  predicate FromOrigin(t: Txn, o: nat) {
    t.origin == o
  }

  function OriginIs(o: nat): Txn -> bool {
    (t: Txn) => FromOrigin(t, o)
  }

  /** The calls to Lock for origin `o`, remasters included, followed by its queue. */
  function LockOrder(s: State, o: nat): seq<Txn> {
    Filter(s.given, OriginIs(o)) + QueueOf(s, o)
  }

  function FetchOrder(w: World, o: nat): seq<Txn> {
    Filter(w.fetched, OriginIs(o))
  }

  /** A remaster is fetched while transactions of its origin wait. */
  predicate Overtakes(w: World, e: Event, o: nat) {
    e.Fetch? && e.txn.remaster && e.txn.origin == o && QueueOf(w.s, o) != []
  }

  predicate NeverOvertakes(cfg: NodeConfig, run: seq<Event>, o: nat) {
    run == [] || (NeverOvertakes(cfg, Before(run), o) && !Overtakes(After(cfg, Before(run)), run[|run| - 1], o))
  }

  // -------- waking

  lemma DrainKeepsLockOrder(s: State, p: nat, o: nat)
    requires QueuesByOrigin(s)
    ensures LockOrder(Drain(s, p), o) == LockOrder(s, o)
  {
    var q := QueueOf(s, p);
    var n := Free(q, s.waiting);
    assert forall i :: 0 <= i < n ==> q[..n][i] in q;
    FilterConcat(s.given, q[..n], OriginIs(o));
    if o == p {
      FilterAll(q[..n], OriginIs(o));
      Regroup(Filter(s.given, OriginIs(o)), q, n);
    } else {
      FilterNone(q[..n], OriginIs(o));
    }
  }

  lemma {:induction false} DoneKeepsLockOrder(s: State, v: Wait, o: nat)
    requires QueuesByOrigin(s)
    ensures LockOrder(RemasterDone(s, v), o) == LockOrder(s, o)
    decreases |ListOf(s.byKey, v)|
  {
    if ListOf(s.byKey, v) != [] {
      WakeFirstKeepsOrigins(s, v);
      DrainKeepsLockOrder(Forget(s, v), s.byKey[v][0].origin, o);
      DoneKeepsLockOrder(WakeFirst(s, v), v, o);
    }
  }

  // -------- fetching

  /** What a fetch adds to the transactions of `o`. */
  function Extra(cfg: NodeConfig, w: World, t: Txn, o: nat): seq<Txn> {
    if t.origin == o && !Doomed(cfg, w, t) then [t] else []
  }

  lemma FetchExtendsFetched(cfg: NodeConfig, w: World, t: Txn, o: nat)
    ensures FetchOrder(Apply(cfg, w, Fetch(t)), o) == FetchOrder(w, o) + Extra(cfg, w, t, o)
  {
    FilterMore(w.fetched, t, OriginIs(o));
    assert w.fetched + [] == w.fetched;
  }

  lemma LockedAtOnce(s: State, t: Txn, o: nat)
    requires t.origin == o ==> QueueOf(s, o) == []
    ensures LockOrder(s.(given := s.given + [t]), o) == LockOrder(s, o) + if t.origin == o then [t] else []
  {
    FilterMore(s.given, t, OriginIs(o));
    if t.origin != o {
      assert Filter(s.given, OriginIs(o)) + [] == Filter(s.given, OriginIs(o));
      assert LockOrder(s, o) + [] == LockOrder(s, o);
    }
  }

  lemma QueuedForLater(s: State, f: State, t: Txn, o: nat)
    requires f.given == s.given && QueueOf(f, o) == QueueOf(s, o) + if t.origin == o then [t] else []
    ensures LockOrder(f, o) == LockOrder(s, o) + if t.origin == o then [t] else []
  {
  }

  lemma FetchExtendsLocked(cfg: NodeConfig, w: World, t: Txn, o: nat)
    requires !Overtakes(w, Fetch(t), o)
    ensures LockOrder(FetchOp(cfg, w.counters, w.s, t), o) == LockOrder(w.s, o) + Extra(cfg, w, t, o)
  {
    var s, f := w.s, FetchOp(cfg, w.counters, w.s, t);
    if f.given == s.given + [t] {
      LockedAtOnce(s, t, o);
    } else if !Doomed(cfg, w, t) {
      QueuedForLater(s, f, t, o);
    }
  }

  lemma OvertakingComesEarlier(cfg: NodeConfig, w: World, t: Txn, o: nat)
    requires Overtakes(w, Fetch(t), o) && QueuesByOrigin(w.s)
    ensures LockOrder(FetchOp(cfg, w.counters, w.s, t), o) != FetchOrder(Apply(cfg, w, Fetch(t)), o)
  {
    var q, f := QueueOf(w.s, o), FetchOp(cfg, w.counters, w.s, t);
    FetchExtendsFetched(cfg, w, t, o);
    var locked, fetched := LockOrder(f, o), FetchOrder(Apply(cfg, w, Fetch(t)), o);
    assert QueueOf(f, o) == q && q[|q| - 1] in q;
    assert locked[|locked| - 1] == q[|q| - 1];
    assert fetched[|fetched| - 1] == t;
  }

  lemma SameEnds<T>(p: seq<T>, q: seq<T>, x: seq<T>)
    ensures p + x == q + x <==> p == q
  {
    if p + x == q + x {
      assert |p| == |q| && (p + x)[..|p|] == p && (q + x)[..|q|] == q;
    }
  }

  /** For each origin, remasters included, locks are requested in the order of the log if and only if no remaster was
      fetched while transactions of its origin waited. */
  lemma {:induction false} LockedInFetchOrderIff(cfg: NodeConfig, run: seq<Event>, o: nat)
    requires ValidRun(cfg, run)
    ensures LockOrder(After(cfg, run).s, o) == FetchOrder(After(cfg, run), o) <==> NeverOvertakes(cfg, run, o)
  {
    if run != [] {
      var w, e := After(cfg, Before(run)), run[|run| - 1];
      LockedInFetchOrderIff(cfg, Before(run), o);
      GivenInFetchOrder(cfg, Before(run), o);
      if Overtakes(w, e, o) {
        OvertakingComesEarlier(cfg, w, e.txn, o);
      } else if e.Fetch? {
        FetchExtendsFetched(cfg, w, e.txn, o);
        FetchExtendsLocked(cfg, w, e.txn, o);
        SameEnds(LockOrder(w.s, o), FetchOrder(w, o), Extra(cfg, w, e.txn, o));
      } else if e.Handle? {
        DoneKeepsLockOrder(w.s, e.wait, o);
      }
    }
  }

  // -------- an example

  /** Master and counter of each record. */
  type Owners = map<Key, (nat, nat)>

  predicate AllOwned(own: Owners, t: Txn) {
    forall e :: e in Entries(t) ==> e.key in own && own[e.key] == (e.master, e.counter)
  }

  /** A remaster that commits hands its record to `to(t)`. */
  function Moved(own: Owners, t: Txn, to: Txn -> nat): Owners {
    if t.remaster && t.readWriteSet != [] then own[t.readWriteSet[0].key := (to(t), t.readWriteSet[0].counter + 1)] else own
  }

  /** The transactions of `q` that commit when they run one after the other, as conflicting ones do in Lock order. */
  function Committed(own: Owners, q: seq<Txn>, to: Txn -> nat): seq<Txn> {
    if q == [] then []
    else if AllOwned(own, q[0]) then [q[0]] + Committed(Moved(own, q[0], to), q[1..], to)
    else Committed(own, q[1..], to)
  }

  const MoveJ := Txn(1, 1, true, false, [], [KeyEntry("j", 1, 0)])
  const Both := Txn(2, 0, false, false, [], [KeyEntry("k", 0, 0), KeyEntry("j", 0, 1)])
  const MoveK := Txn(3, 0, true, false, [], [KeyEntry("k", 0, 0)])

  const J: Wait := ("j", 1)

  /** Replica 1 has handed record j to replica 0, where a transaction on j and k is logged, and then a remaster of k. */
  const Prompt := [Fetch(MoveJ), Execute("j"), Handle(J), Fetch(Both), Fetch(MoveK)]
  const Late := [Fetch(MoveJ), Fetch(Both), Fetch(MoveK), Execute("j"), Handle(J)]

  const Given: State := State(map[], {}, map[], map[], [MoveJ], [])
  const Waits: State := State(map[0 := [Both]], {Both}, map[2 := {J}], map[J := [Both]], [MoveJ], [])

  function Target(t: Txn): nat {
    if t.id == 3 then 1 else 0
  }

  const Before0: Owners := map["j" := (1, 0), "k" := (0, 0)]

  lemma AheadOfBoth(cfg: NodeConfig, counters: Counters)
    requires forall k :: cfg.partition(k) == cfg.node
    requires counters == map[] || counters == map["j" := 1]
    ensures Ahead(cfg, counters, Both) == if counters == map[] then {J} else {}
    ensures !Stale(cfg, counters, Both)
  {
    var es := Both.readSet + Both.readWriteSet;
    assert es[0] == KeyEntry("k", 0, 0) && es[1] == KeyEntry("j", 0, 1);
    assert Checked(cfg, Both) == {("k", 0), J} by {
      assert es[0] in es && es[1] in es;
    }
  }

  lemma OneMore(cfg: NodeConfig, run: seq<Event>, e: Event)
    requires ValidRun(cfg, run) && Enabled(cfg, After(cfg, run), e)
    ensures ValidRun(cfg, run + [e]) && After(cfg, run + [e]) == Apply(cfg, After(cfg, run), e)
  {
    assert Before(run + [e]) == run;
  }

  /** In time: the record has come when the transaction is fetched. */
  lemma PromptRun(cfg: NodeConfig)
    requires forall k :: cfg.partition(k) == cfg.node
    ensures ValidRun(cfg, Prompt)
    ensures After(cfg, Prompt) == World(Given.(given := [MoveJ, Both, MoveK]), map["j" := 1], {}, [MoveJ, Both, MoveK])
  {
    AheadOfBoth(cfg, map["j" := 1]);
    OneMore(cfg, [], Fetch(MoveJ));
    OneMore(cfg, [] + [Fetch(MoveJ)], Execute("j"));
    assert WakesDefined(Given, J);
    OneMore(cfg, [] + [Fetch(MoveJ)] + [Execute("j")], Handle(J));
    OneMore(cfg, [] + [Fetch(MoveJ)] + [Execute("j")] + [Handle(J)], Fetch(Both));
    OneMore(cfg, [] + [Fetch(MoveJ)] + [Execute("j")] + [Handle(J)] + [Fetch(Both)], Fetch(MoveK));
    assert Prompt == [] + [Fetch(MoveJ)] + [Execute("j")] + [Handle(J)] + [Fetch(Both)] + [Fetch(MoveK)];
  }

  lemma BothBlocks(cfg: NodeConfig)
    requires forall k :: cfg.partition(k) == cfg.node
    ensures FetchOp(cfg, map[], Given, Both) == Waits
  {
    AheadOfBoth(cfg, map[]);
    FetchBlocks(cfg, map[], Given, Both);
    var b := Block(Given, {J}, Both);
    assert b.blocking[0] == [Both] && b.byKey[J] == [Both];
    assert b.byKey == Waits.byKey;
  }

  const Woken: State := State(map[0 := []], {}, map[], map[], [MoveJ, MoveK, Both], [])

  lemma JWakesBoth()
    ensures RemasterDone(Waits.(given := [MoveJ, MoveK]), J) == Woken && WakesDefined(Waits.(given := [MoveJ, MoveK]), J)
  {
    var s := Waits.(given := [MoveJ, MoveK]);
    assert WaitsOf(s, Both) - {J} == {};
    var f := Forget(s, J);
    assert f.byKey == map[] && f.byTxn == map[] && f.waiting == {};
    assert WakeFirst(s, J) == Woken;
  }

  /** Late: the transaction has to wait, and the remaster behind it does not. */
  lemma LateRun(cfg: NodeConfig)
    requires forall k :: cfg.partition(k) == cfg.node
    ensures ValidRun(cfg, Late)
    ensures After(cfg, Late) == World(Woken, map["j" := 1], {}, [MoveJ, Both, MoveK])
  {
    LateStart(cfg);
    LateEnd(cfg, [] + [Fetch(MoveJ)] + [Fetch(Both)] + [Fetch(MoveK)]);
    assert Late == [] + [Fetch(MoveJ)] + [Fetch(Both)] + [Fetch(MoveK)] + [Execute("j")] + [Handle(J)];
  }

  lemma LateStart(cfg: NodeConfig)
    requires forall k :: cfg.partition(k) == cfg.node
    ensures var run := [] + [Fetch(MoveJ)] + [Fetch(Both)] + [Fetch(MoveK)];
            && ValidRun(cfg, run)
            && After(cfg, run) == World(Waits.(given := [MoveJ, MoveK]), map[], {}, [MoveJ, Both, MoveK])
  {
    OneMore(cfg, [], Fetch(MoveJ));
    assert After(cfg, [] + [Fetch(MoveJ)]) == World(Given, map[], {}, [MoveJ]);
    BothIsFetched(cfg, [] + [Fetch(MoveJ)]);
    OneMore(cfg, [] + [Fetch(MoveJ)] + [Fetch(Both)], Fetch(MoveK));
  }

  lemma BothIsFetched(cfg: NodeConfig, run: seq<Event>)
    requires forall k :: cfg.partition(k) == cfg.node
    requires ValidRun(cfg, run) && After(cfg, run) == World(Given, map[], {}, [MoveJ])
    ensures ValidRun(cfg, run + [Fetch(Both)]) && After(cfg, run + [Fetch(Both)]) == World(Waits, map[], {}, [MoveJ, Both])
  {
    OneMore(cfg, run, Fetch(Both));
    BothBlocks(cfg);
    AheadOfBoth(cfg, map[]);
  }

  lemma LateEnd(cfg: NodeConfig, run: seq<Event>)
    requires ValidRun(cfg, run) && After(cfg, run) == World(Waits.(given := [MoveJ, MoveK]), map[], {}, [MoveJ, Both, MoveK])
    ensures ValidRun(cfg, run + [Execute("j")] + [Handle(J)])
    ensures After(cfg, run + [Execute("j")] + [Handle(J)]) == World(Woken, map["j" := 1], {}, [MoveJ, Both, MoveK])
  {
    OneMore(cfg, run, Execute("j"));
    assert After(cfg, run + [Execute("j")]) == World(Waits.(given := [MoveJ, MoveK]), map["j" := 1], {J}, [MoveJ, Both, MoveK]);
    JWakesBoth();
    OneMore(cfg, run + [Execute("j")], Handle(J));
  }

  lemma CommittedFirst(own: Owners, t: Txn, q: seq<Txn>, to: Txn -> nat)
    ensures Committed(own, [t] + q, to)
            == if AllOwned(own, t) then [t] + Committed(Moved(own, t, to), q, to) else Committed(own, q, to)
  {
    assert ([t] + q)[1..] == q;
  }

  lemma CommittedInTime()
    ensures Committed(Before0, [MoveJ, Both, MoveK], Target) == [MoveJ, Both, MoveK]
  {
    var own1 := Moved(Before0, MoveJ, Target);
    assert own1 == map["j" := (0, 1), "k" := (0, 0)];
    assert Entries(MoveJ) == [KeyEntry("j", 1, 0)] && Entries(MoveK) == [KeyEntry("k", 0, 0)];
    assert Entries(Both) == [KeyEntry("k", 0, 0), KeyEntry("j", 0, 1)];
    assert AllOwned(Before0, MoveJ) && AllOwned(own1, Both) && AllOwned(own1, MoveK);
    CommittedFirst(Before0, MoveJ, [Both, MoveK], Target);
    CommittedFirst(own1, Both, [MoveK], Target);
    CommittedFirst(own1, MoveK, [], Target);
    assert [MoveJ, Both, MoveK] == [MoveJ] + [Both, MoveK] && [Both, MoveK] == [Both] + [MoveK] && [MoveK] == [MoveK] + [];
  }

  lemma CommittedLate()
    ensures Committed(Before0, [MoveJ, MoveK, Both], Target) == [MoveJ, MoveK]
  {
    var own1 := Moved(Before0, MoveJ, Target);
    var own2 := Moved(own1, MoveK, Target);
    assert own1 == map["j" := (0, 1), "k" := (0, 0)] && own2 == map["j" := (0, 1), "k" := (1, 1)];
    assert Entries(MoveJ) == [KeyEntry("j", 1, 0)] && Entries(MoveK) == [KeyEntry("k", 0, 0)];
    assert KeyEntry("k", 0, 0) in Entries(Both);
    assert AllOwned(Before0, MoveJ) && AllOwned(own1, MoveK) && !AllOwned(own2, Both);
    CommittedFirst(Before0, MoveJ, [MoveK, Both], Target);
    CommittedFirst(own1, MoveK, [Both], Target);
    CommittedFirst(own2, Both, [], Target);
    assert [MoveJ, MoveK, Both] == [MoveJ] + [MoveK, Both] && [MoveK, Both] == [MoveK] + [Both] && [Both] == [Both] + [];
  }

  /** Two replicas that read the same from their logs, in the same order, can end with different records: where the
      remaster of one record comes late, a transaction that waits for it is overtaken by the remaster of its other
      record and aborts; elsewhere it commits. */
  lemma SameLogsDiverge(cfg: NodeConfig)
    requires forall k :: cfg.partition(k) == cfg.node
    ensures ValidRun(cfg, Prompt) && ValidRun(cfg, Late)
    ensures var w, v := After(cfg, Prompt), After(cfg, Late);
            && w.fetched == v.fetched && w.pending == v.pending == {} && w.counters == v.counters
            && Both in Committed(Before0, w.s.given, Target) && Both !in Committed(Before0, v.s.given, Target)
    ensures NeverOvertakes(cfg, Prompt, 0) && !NeverOvertakes(cfg, Late, 0)
  {
    PromptRun(cfg);
    LateRun(cfg);
    CommittedInTime();
    CommittedLate();
    LockedInFetchOrderIff(cfg, Prompt, 0);
    LockedInFetchOrderIff(cfg, Late, 0);
    OrdersOfZero();
  }

  lemma OrdersOfZero()
    ensures Filter([MoveJ, Both, MoveK], OriginIs(0)) == [Both, MoveK]
    ensures Filter([MoveJ, MoveK, Both], OriginIs(0)) == [MoveK, Both]
  {
    var zero := OriginIs(0);
    assert [MoveJ] == [] + [MoveJ] && [MoveJ, Both] == [MoveJ] + [Both] && [MoveJ, MoveK] == [MoveJ] + [MoveK];
    FilterMore([], MoveJ, zero);
    FilterMore([MoveJ], Both, zero);
    FilterMore([MoveJ], MoveK, zero);
    FilterMore([MoveJ, Both], MoveK, zero);
    FilterMore([MoveJ, MoveK], Both, zero);
    assert [MoveJ, Both, MoveK] == [MoveJ, Both] + [MoveK] && [MoveJ, MoveK, Both] == [MoveJ, MoveK] + [Both];
  }
}
