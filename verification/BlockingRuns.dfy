/** Whole runs of the blocking queues: transactions are fetched, remasters execute, and their completion
    is handled later. */
module BlockingRuns {
  import opened Txns
  import opened Blocking

  /** `counters` is storage; `pending` are executed remasters whose completion is not handled yet. */
  datatype World = World(s: State, counters: Counters, pending: set<Wait>, fetched: seq<Txn>)

  const Start := World(Initial, map[], {}, [])

  datatype Event =
    | Fetch(txn: Txn)
    | Execute(key: Key)
    | Handle(wait: Wait)

  /** A completion is handled once; beyond an empty queue's front nothing is known. */
  predicate Enabled(cfg: NodeConfig, w: World, e: Event) {
    e.Handle? ==> e.wait in w.pending && WakesDefined(w.s, e.wait)
  }

  /** No transaction blocks under an id that is already waiting. */
  ghost predicate Safe(cfg: NodeConfig, w: World, e: Event) {
    e.Fetch? ==> MayFetch(cfg, w.counters, w.s, e.txn)
  }

  predicate Doomed(cfg: NodeConfig, w: World, t: Txn) {
    !t.remaster && Ahead(cfg, w.counters, t) == {} && Stale(cfg, w.counters, t)
  }

  function Apply(cfg: NodeConfig, w: World, e: Event): World {
    match e
    case Fetch(t) =>
      w.(s := FetchOp(cfg, w.counters, w.s, t), fetched := w.fetched + if Doomed(cfg, w, t) then [] else [t])
    case Execute(k) =>
      var next := CounterOf(w.counters, k) + 1;
      w.(counters := w.counters[k := next], pending := w.pending + {(k, next)})
    case Handle(v) => w.(s := RemasterDone(w.s, v), pending := w.pending - {v})
  }

  /** The transactions of one origin, without the remasters. */
  function OfOrigin(q: seq<Txn>, o: nat): seq<Txn> {
    if q == [] then []
    else
      var t := q[|q| - 1];
      OfOrigin(q[..|q| - 1], o) + if t.origin == o && !t.remaster then [t] else []
  }

  // -------- order

  lemma OfOriginAppend(q: seq<Txn>, t: Txn, o: nat)
    ensures OfOrigin(q + [t], o) == OfOrigin(q, o) + if t.origin == o && !t.remaster then [t] else []
  {
    assert (q + [t])[..|q|] == q;
  }

  lemma Regrouped<T>(p: seq<T>, q: seq<T>, x: T)
    ensures p + (q + [x]) == (p + q) + [x]
  {
  }

  lemma OwnByOne(q: seq<Txn>, r: seq<Txn>, t: Txn, o: nat)
    requires OfOrigin(q + r, o) == OfOrigin(q, o) + r && t.origin == o && !t.remaster
    ensures OfOrigin(q + (r + [t]), o) == OfOrigin(q, o) + (r + [t])
  {
    OfOriginAppend(q + r, t, o);
    Regrouped(q, r, t);
    Regrouped(OfOrigin(q, o), r, t);
  }

  lemma {:induction false} OfOriginOwn(q: seq<Txn>, r: seq<Txn>, o: nat)
    requires forall i :: 0 <= i < |r| ==> r[i].origin == o && !r[i].remaster
    ensures OfOrigin(q + r, o) == OfOrigin(q, o) + r
  {
    if r == [] {
      assert q + r == q && OfOrigin(q, o) + r == OfOrigin(q, o);
    } else {
      var init, t := r[..|r| - 1], r[|r| - 1];
      assert r == init + [t];
      OfOriginOwn(q, init, o);
      OwnByOne(q, init, t, o);
    }
  }

  lemma OtherByOne(q: seq<Txn>, r: seq<Txn>, t: Txn, o: nat)
    requires OfOrigin(q + r, o) == OfOrigin(q, o) && t.origin != o
    ensures OfOrigin(q + (r + [t]), o) == OfOrigin(q, o)
  {
    OfOriginAppend(q + r, t, o);
    Regrouped(q, r, t);
  }

  lemma {:induction false} OfOriginOther(q: seq<Txn>, r: seq<Txn>, o: nat)
    requires forall i :: 0 <= i < |r| ==> r[i].origin != o
    ensures OfOrigin(q + r, o) == OfOrigin(q, o)
  {
    if r == [] {
      assert q + r == q;
    } else {
      var init, t := r[..|r| - 1], r[|r| - 1];
      assert r == init + [t];
      OfOriginOther(q, init, o);
      OtherByOne(q, init, t, o);
    }
  }

  /** The calls to Lock for an origin, followed by its queue. */
  function InOrder(s: State, o: nat): seq<Txn> {
    OfOrigin(s.given, o) + QueueOf(s, o)
  }

  lemma Regroup(g: seq<Txn>, q: seq<Txn>, n: nat)
    requires n <= |q|
    ensures (g + q[..n]) + q[n..] == g + q
  {
  }

  lemma DrainKeepsOrder(s: State, p: nat, o: nat)
    requires QueuesByOrigin(s)
    ensures InOrder(Drain(s, p), o) == InOrder(s, o)
  {
    var q := QueueOf(s, p);
    var n := Free(q, s.waiting);
    assert forall i :: 0 <= i < n ==> q[..n][i] in q;
    if o == p {
      OfOriginOwn(s.given, q[..n], o);
      Regroup(OfOrigin(s.given, o), q, n);
    } else {
      OfOriginOther(s.given, q[..n], o);
    }
  }

  lemma WakeFirstKeepsOrigins(s: State, v: Wait)
    requires QueuesByOrigin(s) && ListOf(s.byKey, v) != []
    ensures QueuesByOrigin(Forget(s, v)) && QueuesByOrigin(WakeFirst(s, v))
  {
    var f, k := Forget(s, v), WakeFirst(s, v);
    assert forall p :: QueueOf(f, p) == QueueOf(s, p);
    forall p, u | u in QueueOf(k, p) ensures u in QueueOf(f, p) {
    }
  }

  lemma {:induction false} DoneKeepsOrder(s: State, v: Wait, o: nat)
    requires QueuesByOrigin(s)
    ensures QueuesByOrigin(RemasterDone(s, v)) && InOrder(RemasterDone(s, v), o) == InOrder(s, o)
    decreases |ListOf(s.byKey, v)|
  {
    if ListOf(s.byKey, v) != [] {
      WakeFirstKeepsOrigins(s, v);
      DrainKeepsOrder(Forget(s, v), s.byKey[v][0].origin, o);
      DoneKeepsOrder(WakeFirst(s, v), v, o);
    }
  }

  /** What `t` adds to the transactions of `o`. */
  function Share(t: Txn, o: nat): seq<Txn> {
    if t.origin == o && !t.remaster then [t] else []
  }

  lemma LockExtends(s: State, t: Txn, o: nat)
    requires t.remaster || QueueOf(s, t.origin) == []
    ensures InOrder(s.(given := s.given + [t]), o) == InOrder(s, o) + Share(t, o)
  {
    OfOriginAppend(s.given, t, o);
    assert OfOrigin(s.given, o) + [] == OfOrigin(s.given, o);
  }

  lemma EnqueueExtends(s: State, t: Txn, o: nat)
    requires !t.remaster
    ensures InOrder(Enqueue(s, t), o) == InOrder(s, o) + Share(t, o)
  {
  }

  lemma FetchExtends(cfg: NodeConfig, w: World, t: Txn, o: nat)
    ensures InOrder(FetchOp(cfg, w.counters, w.s, t), o) ==
            InOrder(w.s, o) + if Doomed(cfg, w, t) then [] else Share(t, o)
  {
    var f := FetchOp(cfg, w.counters, w.s, t);
    if f.given == w.s.given + [t] {
      LockExtends(w.s, t, o);
    } else if !Doomed(cfg, w, t) {
      EnqueueExtends(w.s, t, o);
    }
  }

  lemma FetchExtendsOrder(cfg: NodeConfig, w: World, t: Txn, o: nat)
    requires InOrder(w.s, o) == OfOrigin(w.fetched, o)
    ensures var w' := Apply(cfg, w, Fetch(t)); InOrder(w'.s, o) == OfOrigin(w'.fetched, o)
  {
    FetchExtends(cfg, w, t, o);
    OfOriginAppend(w.fetched, t, o);
    assert w.fetched + [] == w.fetched;
  }

  // -------- waiting for the truth

  /** What `t` still waits for. */
  function Waits(s: State, t: Txn): set<Wait> {
    if t in s.waiting then WaitsOf(s, t) else {}
  }

  /** `t` waits for every counter storage has not reached, and for nothing but those and what is pending. */
  predicate Truthful(cfg: NodeConfig, w: World, t: Txn) {
    Ahead(cfg, w.counters, t) <= Waits(w.s, t) <= Ahead(cfg, w.counters, t) + w.pending
  }

  ghost predicate QueuedTruthful(cfg: NodeConfig, w: World) {
    forall t :: Queued(w.s, t) ==> Truthful(cfg, w, t)
  }

  /** Nothing given to the lock manager names a counter that storage has not reached. */
  ghost predicate GivenReached(cfg: NodeConfig, w: World) {
    forall t :: t in w.s.given && !t.remaster ==> Ahead(cfg, w.counters, t) == {}
  }

  ghost predicate PendingReached(w: World) {
    forall v :: v in w.pending ==> v.1 <= CounterOf(w.counters, v.0)
  }

  ghost predicate Ordered(w: World) {
    forall o :: InOrder(w.s, o) == OfOrigin(w.fetched, o)
  }

  ghost predicate WorldInv(cfg: NodeConfig, w: World) {
    Inv(w.s) && Ordered(w) && QueuedTruthful(cfg, w) && GivenReached(cfg, w) && PendingReached(w)
  }

  lemma AheadShrinks(cfg: NodeConfig, counters: Counters, k: Key, t: Txn)
    ensures var next := CounterOf(counters, k) + 1;
            Ahead(cfg, counters[k := next], t) == Ahead(cfg, counters, t) - {(k, next)}
  {
  }

  lemma ForgetWaits(s: State, v: Wait, t: Txn)
    requires Inv(s) && ListOf(s.byKey, v) != []
    ensures Waits(Forget(s, v), t) == Waits(s, t) - if t == s.byKey[v][0] then {v} else {}
  {
    HeadOfList(s, v);
    forall u ensures u in Waits(Forget(s, v), t) <==> u in Waits(s, t) && !(u == v && t == s.byKey[v][0]) {
      ForgottenWait(s, v, u, t);
    }
  }

  /** Waking on `v` strikes `v` from everybody's waits and changes no other wait. */
  lemma {:induction false} DoneStrikes(s: State, v: Wait, t: Txn)
    requires Inv(s)
    ensures Waits(RemasterDone(s, v), t) == Waits(s, t) - {v}
    decreases |ListOf(s.byKey, v)|
  {
    if ListOf(s.byKey, v) != [] {
      ForgetWaits(s, v, t);
      WakeFirstKeepsInv(s, v);
      DoneStrikes(WakeFirst(s, v), v, t);
      assert Waits(WakeFirst(s, v), t) == Waits(Forget(s, v), t);
    } else {
      assert v in Waits(s, t) ==> WaitsFor(s, v, t);
      assert Lists(s, v, t) <==> WaitsFor(s, v, t);
    }
  }

  /** Where the transactions of `s'` come from when `s'` was reached by waking. */
  ghost predicate ComesFrom(s': State, s: State, t: Txn) {
    && (Queued(s', t) ==> Queued(s, t))
    && (t in s'.given && t !in s.given ==> Queued(s, t) && t !in s'.waiting)
    && (t in s'.waiting ==> t in s.waiting)
  }

  lemma DrainComesFrom(s: State, o: nat, t: Txn)
    requires QueuesByOrigin(s)
    ensures ComesFrom(Drain(s, o), s, t)
  {
    var q := QueueOf(s, o);
    assert t in q ==> t.origin == o;
    var n := Free(q, s.waiting);
    if t in q[..n] {
      var i :| 0 <= i < n && q[i] == t;
    }
  }

  lemma WakeFirstComesFrom(s: State, v: Wait, t: Txn)
    requires Inv(s) && ListOf(s.byKey, v) != []
    ensures ComesFrom(WakeFirst(s, v), s, t)
  {
    var f := Forget(s, v);
    ForgetKeepsQueues(s, v);
    assert QueueOf(f, t.origin) == QueueOf(s, t.origin);
    DrainComesFrom(f, s.byKey[v][0].origin, t);
  }

  lemma {:induction false} DoneComesFrom(s: State, v: Wait, t: Txn)
    requires Inv(s)
    ensures ComesFrom(RemasterDone(s, v), s, t)
    decreases |ListOf(s.byKey, v)|
  {
    if ListOf(s.byKey, v) != [] {
      WakeFirstKeepsInv(s, v);
      WakeFirstComesFrom(s, v, t);
      DoneComesFrom(WakeFirst(s, v), v, t);
    }
  }

  lemma FetchTruthful(cfg: NodeConfig, w: World, t: Txn, u: Txn)
    requires WorldInv(cfg, w) && MayFetch(cfg, w.counters, w.s, t)
    ensures var w' := Apply(cfg, w, Fetch(t)); Queued(w'.s, u) ==> Truthful(cfg, w', u)
  {
    var w' := Apply(cfg, w, Fetch(t));
    if Queued(w'.s, u) && u != t {
      assert Queued(w.s, u);
      assert Waits(w'.s, u) == Waits(w.s, u);
    } else if Queued(w'.s, u) && !t.remaster {
      assert t in w.s.waiting ==> Queued(w.s, t);
      assert Ahead(cfg, w.counters, t) == {} ==> Waits(w'.s, t) == Waits(w.s, t);
    }
  }

  lemma FetchKeeps(cfg: NodeConfig, w: World, t: Txn)
    requires WorldInv(cfg, w) && MayFetch(cfg, w.counters, w.s, t)
    ensures WorldInv(cfg, Apply(cfg, w, Fetch(t)))
  {
    var w' := Apply(cfg, w, Fetch(t));
    FetchKeepsInv(cfg, w.counters, w.s, t);
    forall o ensures InOrder(w'.s, o) == OfOrigin(w'.fetched, o) {
      FetchExtendsOrder(cfg, w, t, o);
    }
    forall u | Queued(w'.s, u) ensures Truthful(cfg, w', u) {
      FetchTruthful(cfg, w, t, u);
    }
    assert GivenReached(cfg, w');
  }

  lemma ExecuteKeeps(cfg: NodeConfig, w: World, k: Key)
    requires WorldInv(cfg, w)
    ensures WorldInv(cfg, Apply(cfg, w, Execute(k)))
  {
    var w' := Apply(cfg, w, Execute(k));
    forall t ensures Queued(w'.s, t) ==> Truthful(cfg, w', t) {
      AheadShrinks(cfg, w.counters, k, t);
    }
    forall t | t in w'.s.given && !t.remaster ensures Ahead(cfg, w'.counters, t) == {} {
      AheadShrinks(cfg, w.counters, k, t);
    }
  }

  lemma HandleKeeps(cfg: NodeConfig, w: World, v: Wait)
    requires WorldInv(cfg, w) && v in w.pending
    ensures WorldInv(cfg, Apply(cfg, w, Handle(v)))
  {
    var w' := Apply(cfg, w, Handle(v));
    RemasterDoneKeepsInv(w.s, v);
    forall o ensures InOrder(w'.s, o) == OfOrigin(w'.fetched, o) {
      DoneKeepsOrder(w.s, v, o);
    }
    forall t | Queued(w'.s, t) ensures Truthful(cfg, w', t) {
      DoneComesFrom(w.s, v, t);
      DoneStrikes(w.s, v, t);
    }
    forall t | t in w'.s.given && !t.remaster ensures Ahead(cfg, w'.counters, t) == {} {
      DoneComesFrom(w.s, v, t);
      DoneStrikes(w.s, v, t);
      assert t !in w.s.given ==> Truthful(cfg, w, t) && Waits(w'.s, t) == {};
    }
  }

  // -------- whole runs

  function Before(run: seq<Event>): seq<Event>
    requires run != []
  {
    run[..|run| - 1]
  }

  function After(cfg: NodeConfig, run: seq<Event>): World {
    if run == [] then Start else Apply(cfg, After(cfg, Before(run)), run[|run| - 1])
  }

  predicate ValidRun(cfg: NodeConfig, run: seq<Event>) {
    run == [] || (ValidRun(cfg, Before(run)) && Enabled(cfg, After(cfg, Before(run)), run[|run| - 1]))
  }

  ghost predicate SafeRun(cfg: NodeConfig, run: seq<Event>) {
    run == [] || (SafeRun(cfg, Before(run)) && Safe(cfg, After(cfg, Before(run)), run[|run| - 1]))
  }

  lemma {:induction false} RunKeepsInv(cfg: NodeConfig, run: seq<Event>)
    requires ValidRun(cfg, run) && SafeRun(cfg, run)
    ensures WorldInv(cfg, After(cfg, run))
  {
    if run == [] {
      StartInv(cfg);
    } else {
      var before := After(cfg, Before(run));
      RunKeepsInv(cfg, Before(run));
      match run[|run| - 1]
      case Fetch(t) => FetchKeeps(cfg, before, t);
      case Execute(k) => ExecuteKeeps(cfg, before, k);
      case Handle(v) => HandleKeeps(cfg, before, v);
    }
  }

  /** The guard of handling a completion is never what stands in the way: no empty queue's front is looked at. */
  lemma WakesAreDefined(cfg: NodeConfig, run: seq<Event>, v: Wait)
    requires ValidRun(cfg, run) && SafeRun(cfg, run) && v in After(cfg, run).pending
    ensures Enabled(cfg, After(cfg, run), Handle(v))
  {
    RunKeepsInv(cfg, run);
    InvDefinesWakes(After(cfg, run).s, v);
  }

  lemma StartInv(cfg: NodeConfig)
    ensures WorldInv(cfg, Start)
  {
    InitialInv();
  }

  lemma FetchKeepsOrigins(cfg: NodeConfig, counters: Counters, s: State, t: Txn)
    requires QueuesByOrigin(s)
    ensures QueuesByOrigin(FetchOp(cfg, counters, s, t))
  {
    var f := FetchOp(cfg, counters, s, t);
    forall o, u | u in QueueOf(f, o) ensures u in QueueOf(s, o) || (u == t && o == t.origin && !t.remaster) {
    }
  }

  /** In every run, reused ids or not: for each origin the calls to Lock followed by the queue are the fetched
      transactions, in order. */
  lemma {:induction false} GivenInFetchOrder(cfg: NodeConfig, run: seq<Event>, o: nat)
    requires ValidRun(cfg, run)
    ensures var w := After(cfg, run);
            QueuesByOrigin(w.s) && OfOrigin(w.s.given, o) + QueueOf(w.s, o) == OfOrigin(w.fetched, o)
  {
    if run != [] {
      var w := After(cfg, Before(run));
      GivenInFetchOrder(cfg, Before(run), o);
      match run[|run| - 1]
      case Fetch(t) =>
        FetchKeepsOrigins(cfg, w.counters, w.s, t);
        FetchExtendsOrder(cfg, w, t, o);
      case Execute(_) =>
      case Handle(v) => DoneKeepsOrder(w.s, v, o);
    }
  }

  /** Position of the first transaction that storage has not caught up with. */
  function ReachedPrefix(cfg: NodeConfig, counters: Counters, q: seq<Txn>): nat {
    if q == [] || Ahead(cfg, counters, q[0]) != {} then 0 else 1 + ReachedPrefix(cfg, counters, q[1..])
  }

  lemma {:induction false} ReachedPrefixIs(cfg: NodeConfig, counters: Counters, q: seq<Txn>, n: nat)
    requires n <= |q| && (n < |q| ==> Ahead(cfg, counters, q[n]) != {})
    requires forall i :: 0 <= i < n ==> Ahead(cfg, counters, q[i]) == {}
    ensures ReachedPrefix(cfg, counters, q) == n
  {
    if n > 0 {
      ReachedPrefixIs(cfg, counters, q[1..], n - 1);
    }
  }

  lemma {:induction false} OfOriginMembers(q: seq<Txn>, o: nat, t: Txn)
    ensures t in OfOrigin(q, o) <==> t in q && t.origin == o && !t.remaster
  {
    if q != [] {
      OfOriginMembers(q[..|q| - 1], o, t);
      assert q == q[..|q| - 1] + [q[|q| - 1]];
    }
  }

  /** No wake-up is lost and none comes early: once every finished remaster has been handled, what
      each origin has been locked is the longest prefix of what was fetched that storage has caught up with. */
  lemma GivenIsReachedPrefix(cfg: NodeConfig, run: seq<Event>, o: nat)
    requires ValidRun(cfg, run) && SafeRun(cfg, run) && After(cfg, run).pending == {}
    ensures var w := After(cfg, run);
            var all := OfOrigin(w.fetched, o);
            var n := ReachedPrefix(cfg, w.counters, all);
            n <= |all| && OfOrigin(w.s.given, o) == all[..n] && QueueOf(w.s, o) == all[n..]
  {
    RunKeepsInv(cfg, run);
    var w := After(cfg, run);
    var given, q, all := OfOrigin(w.s.given, o), QueueOf(w.s, o), OfOrigin(w.fetched, o);
    assert InOrder(w.s, o) == all && all == given + q;
    forall i | 0 <= i < |given| ensures Ahead(cfg, w.counters, all[i]) == {} {
      OfOriginMembers(w.s.given, o, given[i]);
    }
    if q != [] {
      assert HeadWaits(w.s, o);
      assert Queued(w.s, q[0]) && Truthful(cfg, w, q[0]);
      assert Waits(w.s, q[0]) != {};
    }
    ReachedPrefixIs(cfg, w.counters, all, |given|);
  }

  /** While a completion is still unhandled nothing is given early either. */
  lemma NothingIsGivenEarly(cfg: NodeConfig, run: seq<Event>, t: Txn)
    requires ValidRun(cfg, run) && SafeRun(cfg, run) && t in After(cfg, run).s.given && !t.remaster
    ensures Ahead(cfg, After(cfg, run).counters, t) == {}
  {
    RunKeepsInv(cfg, run);
  }
}
