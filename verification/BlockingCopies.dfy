/** What happens when a copy of a transaction blocks while another copy waits under the same id. */
module BlockingCopies {
  import opened Txns
  import opened Blocking
  import opened BlockingRuns

  /** A transaction has one copy for each origin. */
  predicate AreCopies(t: Txn, u: Txn) {
    Strip(t) == Strip(u) && (t.origin == u.origin ==> t == u)
  }

  /** Copies with different origins never wait for the same record and counter. */
  lemma CopiesCheckApart(cfg: NodeConfig, t: Txn, u: Txn)
    requires AreCopies(t, u) && t.origin != u.origin && DistinctKeys(t)
    ensures Checked(cfg, t) !! Checked(cfg, u)
  {
    var es, fs := t.readSet + t.readWriteSet, t.readWriteSet + t.readSet;
    assert Entries(t) == es && Entries(u) == es;
    forall e, f | e in es && f in es && e.key == f.key ensures e == f {
      assert e in fs && f in fs;
    }
  }

  /** Fetching a copy keeps the indexes inverse if and only if it need not wait, or no other copy does. */
  lemma FetchKeepsInverse(cfg: NodeConfig, counters: Counters, s: State, t: Txn)
    requires Inv(s) && !t.remaster && DistinctKeys(t) && t !in s.waiting
    requires forall u :: u in s.waiting && u.id == t.id ==> AreCopies(t, u) && WaitsOf(s, u) <= Checked(cfg, u)
    ensures Inverse(FetchOp(cfg, counters, s, t)) <==> MayFetch(cfg, counters, s, t)
  {
    var keys := Ahead(cfg, counters, t);
    if keys == {} {
      FetchKeepsInv(cfg, counters, s, t);
    } else {
      BlockKeepsInverse(s, keys, t);
      forall u | u in s.waiting && u.id == t.id ensures WaitsOf(s, u) != keys {
        CopiesCheckApart(cfg, t, u);
        assert keys <= Checked(cfg, t);
      }
    }
  }

  // -------- a transaction nobody will wake

  /** Still marked as waiting and still in its queue, but on no list. */
  ghost predicate Forgotten(s: State, u: Txn) {
    u in s.waiting && Queued(s, u) && forall w :: !Lists(s, w, u)
  }

  lemma WakeFirstKeepsForgotten(s: State, w: Wait, u: Txn)
    requires QueuesByOrigin(s) && ListOf(s.byKey, w) != [] && Forgotten(s, u)
    ensures Forgotten(WakeFirst(s, w), u) && (u in WakeFirst(s, w).given <==> u in s.given)
  {
    var f := Forget(s, w);
    WakeFirstKeepsOrigins(s, w);
    assert !Lists(s, w, u);
    assert QueueOf(f, u.origin) == QueueOf(s, u.origin);
    DrainKeepsWaiter(f, s.byKey[w][0].origin, u);
    forall v ensures !Lists(WakeFirst(s, w), v, u) {
      assert !Lists(s, v, u) && !Lists(f, v, u);
    }
  }

  lemma DrainKeepsWaiter(s: State, o: nat, u: Txn)
    requires QueuesByOrigin(s) && u in s.waiting && Queued(s, u)
    ensures Queued(Drain(s, o), u) && (u in Drain(s, o).given <==> u in s.given)
  {
    DrainKeepsQueued(s, o, u);
    var q := QueueOf(s, o);
    var n := Free(q, s.waiting);
    assert forall i :: 0 <= i < n ==> q[..n][i] == q[i] != u;
  }

  lemma {:induction false} DoneKeepsForgotten(s: State, w: Wait, u: Txn)
    requires QueuesByOrigin(s) && Forgotten(s, u)
    ensures QueuesByOrigin(RemasterDone(s, w)) && Forgotten(RemasterDone(s, w), u)
    ensures u in RemasterDone(s, w).given <==> u in s.given
    decreases |ListOf(s.byKey, w)|
  {
    if ListOf(s.byKey, w) != [] {
      WakeFirstKeepsForgotten(s, w, u);
      WakeFirstKeepsOrigins(s, w);
      DoneKeepsForgotten(WakeFirst(s, w), w, u);
    }
  }

  lemma FetchKeepsForgotten(cfg: NodeConfig, counters: Counters, s: State, t: Txn, u: Txn)
    requires QueuesByOrigin(s) && Forgotten(s, u) && t != u
    ensures Forgotten(FetchOp(cfg, counters, s, t), u) && (u in FetchOp(cfg, counters, s, t).given <==> u in s.given)
  {
    var f := FetchOp(cfg, counters, s, t);
    forall w ensures !Lists(f, w, u) {
      assert !Lists(s, w, u);
    }
  }

  /** Whatever is fetched, executed and completed afterwards, a forgotten transaction stays forgotten and is not given
      to the lock manager; nor, with `GivenInFetchOrder`, is anything behind it in its queue. */
  lemma {:induction false} ForgottenForGood(cfg: NodeConfig, run: seq<Event>, rest: seq<Event>, u: Txn)
    requires ValidRun(cfg, run + rest) && Forgotten(After(cfg, run).s, u)
    requires forall i :: 0 <= i < |rest| ==> rest[i] != Fetch(u)
    ensures Forgotten(After(cfg, run + rest).s, u)
    ensures u in After(cfg, run + rest).s.given <==> u in After(cfg, run).s.given
  {
    if rest == [] {
      assert run + rest == run;
    } else {
      var init, e := rest[..|rest| - 1], rest[|rest| - 1];
      assert Before(run + rest) == run + init && (run + rest)[|run + rest| - 1] == e;
      ForgottenForGood(cfg, run, init, u);
      GivenInFetchOrder(cfg, run + init, u.origin);
      var w := After(cfg, run + init);
      match e
      case Fetch(t) => FetchKeepsForgotten(cfg, w.counters, w.s, t, u);
      case Execute(_) =>
      case Handle(v) => DoneKeepsForgotten(w.s, v, u);
    }
  }

  // -------- how a copy comes to be forgotten

  /** The waits kept under the id of `u` are `keys`, and only another transaction is listed under those. */
  ghost predicate Overwritten(s: State, u: Txn, keys: set<Wait>) {
    && QueuesByOrigin(s) && u in s.waiting && Queued(s, u)
    && u.id in s.byTxn && s.byTxn[u.id] == keys && keys != {}
    && forall w, x :: Lists(s, w, x) && x.id == u.id && w !in keys ==> x == u
  }

  lemma ForgetShrinksLists(s: State, w: Wait, v: Wait, x: Txn)
    requires ListOf(s.byKey, w) != [] && Lists(Forget(s, w), v, x)
    ensures Lists(s, v, x)
  {
  }

  lemma WakeFirstKeepsOverwritten(s: State, w: Wait, u: Txn, keys: set<Wait>)
    requires Overwritten(s, u, keys) && w !in keys && ListOf(s.byKey, w) != []
    ensures Overwritten(WakeFirst(s, w), u, keys)
  {
    var a, f := s.byKey[w][0], Forget(s, w);
    assert Lists(s, w, a);
    WakeFirstKeepsOrigins(s, w);
    assert keys - {w} == keys;
    assert QueueOf(f, u.origin) == QueueOf(s, u.origin);
    DrainKeepsWaiter(f, a.origin, u);
    forall v, x | Lists(f, v, x) ensures Lists(s, v, x) {
      ForgetShrinksLists(s, w, v, x);
    }
  }

  /** Completing what `u` waits for strikes it from the list and changes nothing else about it. */
  lemma {:induction false} DoneKeepsOverwritten(s: State, w: Wait, u: Txn, keys: set<Wait>)
    requires Overwritten(s, u, keys) && w !in keys
    ensures Overwritten(RemasterDone(s, w), u, keys) && !Lists(RemasterDone(s, w), w, u)
    ensures forall v, x :: Lists(RemasterDone(s, w), v, x) ==> Lists(s, v, x)
    decreases |ListOf(s.byKey, w)|
  {
    if ListOf(s.byKey, w) != [] {
      WakeFirstKeepsOverwritten(s, w, u, keys);
      DoneKeepsOverwritten(WakeFirst(s, w), w, u, keys);
      forall v, x | Lists(WakeFirst(s, w), v, x) ensures Lists(s, v, x) {
        ForgetShrinksLists(s, w, v, x);
      }
    }
  }

  /** Several completions, one after the other. */
  function DoneAll(s: State, ws: seq<Wait>): State {
    if ws == [] then s else RemasterDone(DoneAll(s, ws[..|ws| - 1]), ws[|ws| - 1])
  }

  lemma {:induction false} AllDoneIsForgotten(s: State, ws: seq<Wait>, u: Txn, keys: set<Wait>)
    requires Overwritten(s, u, keys) && forall w :: w in ws ==> w !in keys
    ensures Overwritten(DoneAll(s, ws), u, keys)
    ensures forall w :: w in ws ==> !Lists(DoneAll(s, ws), w, u)
    ensures forall v, x :: Lists(DoneAll(s, ws), v, x) ==> Lists(s, v, x)
  {
    if ws != [] {
      var init, w := ws[..|ws| - 1], ws[|ws| - 1];
      AllDoneIsForgotten(s, init, u, keys);
      DoneKeepsOverwritten(DoneAll(s, init), w, u, keys);
      assert forall v :: v in ws ==> v in init || v == w;
    }
  }

  lemma BlockOverwrites(s: State, keys: set<Wait>, t: Txn, u: Txn)
    requires Inv(s) && u in s.waiting && u.id == t.id && t !in s.waiting && keys != {} && !t.remaster
    ensures Overwritten(Block(s, keys, t), u, keys)
    ensures forall w :: w !in keys ==> (Lists(Block(s, keys, t), w, u) <==> w in WaitsOf(s, u))
  {
    var b := Block(s, keys, t);
    assert forall o :: QueueOf(b, o) == if o == t.origin then QueueOf(s, o) + [t] else QueueOf(s, o);
    assert Queued(s, u);
    forall w, x | Lists(b, w, x) && x.id == u.id && w !in keys ensures x == u {
      assert Lists(s, w, x) && WaitsFor(s, w, x);
    }
    forall w | w !in keys ensures Lists(b, w, u) <==> w in WaitsOf(s, u) {
      assert Lists(b, w, u) <==> Lists(s, w, u);
      assert Lists(s, w, u) <==> WaitsFor(s, w, u);
    }
  }

  /** Every reuse loses a wake-up: whenever a copy `t` blocks while `u` waits under the same id, completing exactly
      what `u` waits for, in whatever order, leaves `u` forgotten. */
  lemma ReuseForgets(cfg: NodeConfig, counters: Counters, s: State, t: Txn, u: Txn, ws: seq<Wait>)
    requires Inv(s) && u in s.waiting && AreCopies(t, u) && t.origin != u.origin && DistinctKeys(t)
    requires t !in s.waiting && !t.remaster && Ahead(cfg, counters, t) != {}
    requires WaitsOf(s, u) <= Checked(cfg, u) && forall w :: w in ws <==> w in WaitsOf(s, u)
    ensures Overwritten(FetchOp(cfg, counters, s, t), u, Ahead(cfg, counters, t))
    ensures forall w :: w in ws ==> w !in Ahead(cfg, counters, t)
    ensures Forgotten(DoneAll(FetchOp(cfg, counters, s, t), ws), u)
  {
    var keys := Ahead(cfg, counters, t);
    var b := Block(s, keys, t);
    CopiesCheckApart(cfg, t, u);
    BlockOverwrites(s, keys, t, u);
    AllDoneIsForgotten(b, ws, u, keys);
    forall w ensures !Lists(DoneAll(b, ws), w, u) {
      assert w in keys ==> !Lists(s, w, u) by {
        assert Lists(s, w, u) <==> WaitsFor(s, w, u);
      }
      assert w in keys ==> !Lists(b, w, u);
    }
  }

  // -------- these completions can happen

  /** The indexes are right for all that wait under other ids. */
  ghost predicate OthersListed(s: State, id: nat) {
    && QueuesByOrigin(s) && ListsTidy(s)
    && (forall w, x :: Lists(s, w, x) && x.id != id ==> WaitsFor(s, w, x) && Queued(s, x))
    && (forall x, y :: x in s.waiting && y in s.waiting && x.id == y.id && x.id != id ==> x == y)
  }

  lemma ForgetKeepsOthers(s: State, w: Wait, id: nat)
    requires OthersListed(s, id) && ListOf(s.byKey, w) != []
    requires s.byKey[w][0].id == id ==> !IsFreed(s, w)
    ensures OthersListed(Forget(s, w), id)
  {
    var a, f := s.byKey[w][0], Forget(s, w);
    assert Lists(s, w, a);
    assert forall o :: QueueOf(f, o) == QueueOf(s, o);
    forall v, x | Lists(f, v, x) && x.id != id ensures WaitsFor(f, v, x) && Queued(f, x) {
      ForgottenList(s, w, v, x);
      assert Lists(s, v, x) && WaitsFor(s, v, x) && Queued(s, x);
      if x.id == a.id {
        assert WaitsFor(s, w, a) && x == a;
        assert v in WaitsOf(s, a) - {w};
      }
    }
    assert ListsTidy(f);
  }

  lemma DrainKeepsOthers(s: State, o: nat, id: nat)
    requires OthersListed(s, id)
    ensures OthersListed(Drain(s, o), id)
  {
    var d := Drain(s, o);
    forall p, u | u in QueueOf(d, p) ensures u in QueueOf(s, p) {
    }
    forall v, x | Lists(d, v, x) && x.id != id ensures WaitsFor(d, v, x) && Queued(d, x) {
      assert Lists(s, v, x);
      DrainKeepsQueued(s, o, x);
    }
  }

  /** Handling what an overwritten transaction waits for never looks at the front of an empty queue. */
  lemma {:induction false} OverwrittenWakes(s: State, w: Wait, u: Txn, keys: set<Wait>)
    requires Overwritten(s, u, keys) && OthersListed(s, u.id) && w !in keys
    ensures WakesDefined(s, w) && OthersListed(RemasterDone(s, w), u.id)
    decreases |ListOf(s.byKey, w)|
  {
    if ListOf(s.byKey, w) != [] {
      var a := s.byKey[w][0];
      assert Lists(s, w, a);
      assert a.id == u.id ==> a == u && !IsFreed(s, w) by {
        var k :| k in keys;
        assert a == u ==> k in WaitsOf(s, a) && k != w;
      }
      ForgetKeepsOthers(s, w, u.id);
      DrainKeepsOthers(Forget(s, w), a.origin, u.id);
      WakeFirstKeepsOverwritten(s, w, u, keys);
      OverwrittenWakes(WakeFirst(s, w), w, u, keys);
    }
  }

  lemma BlockListsOthers(s: State, keys: set<Wait>, t: Txn)
    requires Inv(s) && t !in s.waiting && !t.remaster
    ensures OthersListed(Block(s, keys, t), t.id)
  {
    var b := Block(s, keys, t);
    BlockKeepsTidy(s, keys, t);
    EnqueueKeepsQueues(s, t, b.waiting);
    SameQueues(Enqueue(s, t).(waiting := b.waiting), b);
    forall w, x | Lists(b, w, x) && x.id != t.id ensures WaitsFor(b, w, x) && Queued(b, x) {
      assert Lists(s, w, x) && WaitsFor(s, w, x) && Queued(s, x);
    }
  }

  function Handles(ws: seq<Wait>): (es: seq<Event>)
    ensures |es| == |ws| && forall i :: 0 <= i < |es| ==> es[i] == Handle(ws[i])
  {
    seq(|ws|, i requires 0 <= i < |ws| => Handle(ws[i]))
  }

  lemma HandlesMore(run: seq<Event>, ws: seq<Wait>)
    requires ws != []
    ensures Before(run + Handles(ws)) == run + Handles(ws[..|ws| - 1])
    ensures (run + Handles(ws))[|run + Handles(ws)| - 1] == Handle(ws[|ws| - 1])
  {
  }

  /** Completions that are pending are handled in any order. */
  lemma {:induction false} HandlesAreValid(cfg: NodeConfig, run: seq<Event>, ws: seq<Wait>, u: Txn, keys: set<Wait>)
    requires ValidRun(cfg, run) && NoDuplicates(ws) && forall w :: w in ws ==> w in After(cfg, run).pending && w !in keys
    requires Overwritten(After(cfg, run).s, u, keys) && OthersListed(After(cfg, run).s, u.id)
    ensures ValidRun(cfg, run + Handles(ws))
    ensures var w := After(cfg, run + Handles(ws));
            && w.s == DoneAll(After(cfg, run).s, ws) && OthersListed(w.s, u.id)
            && (forall v :: v in After(cfg, run).pending && v !in ws ==> v in w.pending)
  {
    if ws == [] {
      assert run + Handles(ws) == run;
    } else {
      var init, w := ws[..|ws| - 1], ws[|ws| - 1];
      assert w !in init && forall v :: v in ws <==> v in init || v == w;
      HandlesAreValid(cfg, run, init, u, keys);
      AllDoneIsForgotten(After(cfg, run).s, init, u, keys);
      OverwrittenWakes(DoneAll(After(cfg, run).s, init), w, u, keys);
      HandlesMore(run, ws);
    }
  }

  /** The completion is yet to come, or has come and is yet to be handled. */
  predicate ToCome(w: World, v: Wait) {
    v in w.pending || v.1 > CounterOf(w.counters, v.0)
  }

  predicate OnlyExecutes(es: seq<Event>) {
    forall i :: 0 <= i < |es| ==> es[i].Execute?
  }

  /** With remasters executed, nothing about who waits changes, and no completion is lost. */
  ghost predicate Raised(cfg: NodeConfig, run: seq<Event>, es: seq<Event>) {
    && OnlyExecutes(es) && ValidRun(cfg, run + es) && After(cfg, run + es).s == After(cfg, run).s
    && After(cfg, run).pending <= After(cfg, run + es).pending
    && (forall v :: ToCome(After(cfg, run), v) ==> ToCome(After(cfg, run + es), v))
  }

  lemma RaisedNothing(cfg: NodeConfig, run: seq<Event>)
    requires ValidRun(cfg, run)
    ensures Raised(cfg, run, [])
  {
    assert run + [] == run;
  }

  lemma RaisedMore(cfg: NodeConfig, run: seq<Event>, es: seq<Event>, fs: seq<Event>)
    requires Raised(cfg, run, es) && Raised(cfg, run + es, fs)
    ensures Raised(cfg, run, es + fs) && After(cfg, run + (es + fs)) == After(cfg, run + es + fs)
  {
    assert run + (es + fs) == run + es + fs;
  }

  lemma ExecuteLosesNothing(cfg: NodeConfig, w: World, k: Key)
    ensures var w' := Apply(cfg, w, Execute(k));
            && w'.s == w.s && w.pending <= w'.pending && (forall v :: ToCome(w, v) ==> ToCome(w', v))
  {
  }

  lemma RaisedByOne(cfg: NodeConfig, run: seq<Event>, k: Key)
    requires ValidRun(cfg, run)
    ensures Raised(cfg, run, [Execute(k)]) && After(cfg, run + [Execute(k)]) == Apply(cfg, After(cfg, run), Execute(k))
  {
    assert Before(run + [Execute(k)]) == run;
    ExecuteLosesNothing(cfg, After(cfg, run), k);
  }

  /** Storage can reach the counter of `w`. */
  lemma {:induction false} RaiseOne(cfg: NodeConfig, run: seq<Event>, w: Wait) returns (es: seq<Event>)
    requires ValidRun(cfg, run) && ToCome(After(cfg, run), w)
    ensures Raised(cfg, run, es) && w in After(cfg, run + es).pending
    decreases if w in After(cfg, run).pending then 0 else 1 + w.1 - CounterOf(After(cfg, run).counters, w.0)
  {
    if w in After(cfg, run).pending {
      es := [];
      RaisedNothing(cfg, run);
    } else {
      RaisedByOne(cfg, run, w.0);
      var rest := RaiseOne(cfg, run + [Execute(w.0)], w);
      es := [Execute(w.0)] + rest;
      RaisedMore(cfg, run, [Execute(w.0)], rest);
    }
  }

  /** Storage can reach the counters of all `ws`. */
  lemma {:induction false} RaiseAll(cfg: NodeConfig, run: seq<Event>, ws: seq<Wait>) returns (es: seq<Event>)
    requires ValidRun(cfg, run) && forall w :: w in ws ==> ToCome(After(cfg, run), w)
    ensures Raised(cfg, run, es) && forall w :: w in ws ==> w in After(cfg, run + es).pending
  {
    if ws == [] {
      es := [];
      RaisedNothing(cfg, run);
    } else {
      var init, w := ws[..|ws| - 1], ws[|ws| - 1];
      assert ws == init + [w];
      var first := RaiseAll(cfg, run, init);
      var last := RaiseOne(cfg, run + first, w);
      es := first + last;
      RaisedMore(cfg, run, first, last);
    }
  }

  // -------- in every run

  ghost predicate WaitsChecked(cfg: NodeConfig, s: State) {
    forall u :: Waits(s, u) <= Checked(cfg, u)
  }

  lemma FetchChecked(cfg: NodeConfig, counters: Counters, s: State, t: Txn, u: Txn)
    requires Inv(s) && MayFetch(cfg, counters, s, t) && Waits(s, u) <= Checked(cfg, u)
    ensures Waits(FetchOp(cfg, counters, s, t), u) <= Checked(cfg, u)
  {
    assert Ahead(cfg, counters, t) <= Checked(cfg, t);
  }

  lemma {:induction false} RunKeepsChecked(cfg: NodeConfig, run: seq<Event>)
    requires ValidRun(cfg, run) && SafeRun(cfg, run)
    ensures WaitsChecked(cfg, After(cfg, run).s)
  {
    if run != [] {
      var w := After(cfg, Before(run));
      RunKeepsChecked(cfg, Before(run));
      RunKeepsInv(cfg, Before(run));
      match run[|run| - 1]
      case Fetch(t) =>
        forall u ensures Waits(FetchOp(cfg, w.counters, w.s, t), u) <= Checked(cfg, u) {
          FetchChecked(cfg, w.counters, w.s, t, u);
        }
      case Execute(_) =>
      case Handle(v) =>
        forall u ensures Waits(RemasterDone(w.s, v), u) <= Checked(cfg, u) {
          DoneStrikes(w.s, v, u);
        }
    }
  }

  /** Only copies of `t` wait under its id. */
  ghost predicate OnlyCopies(s: State, t: Txn) {
    forall u :: u in s.waiting && u.id == t.id ==> AreCopies(t, u)
  }

  /** In whatever order the completions `waits` are handled, the run can go on, with nothing but remasters executed
      before, so that it ends with `u` forgotten. */
  ghost predicate Loses(cfg: NodeConfig, run: seq<Event>, waits: set<Wait>, u: Txn) {
    forall ws :: NoDuplicates(ws) && (forall v :: v in ws <==> v in waits) ==> LosesAfter(cfg, run, ws, u)
  }

  ghost predicate LosesAfter(cfg: NodeConfig, run: seq<Event>, ws: seq<Wait>, u: Txn) {
    exists es :: OnlyExecutes(es) && ValidRun(cfg, run + es + Handles(ws)) && Forgotten(After(cfg, run + es + Handles(ws)).s, u)
  }

  lemma ReuseLosesAfter(cfg: NodeConfig, run: seq<Event>, t: Txn, u: Txn, ws: seq<Wait>)
    requires ValidRun(cfg, run) && WorldInv(cfg, After(cfg, run)) && WaitsChecked(cfg, After(cfg, run).s)
    requires !t.remaster && DistinctKeys(t) && NoDuplicates(ws)
    requires var w := After(cfg, run);
             && Ahead(cfg, w.counters, t) != {} && t !in w.s.waiting && u in w.s.waiting && u.id == t.id
             && AreCopies(t, u) && t.origin != u.origin && forall v :: v in ws <==> v in WaitsOf(w.s, u)
    ensures LosesAfter(cfg, run + [Fetch(t)], ws, u)
  {
    var w, fetched := After(cfg, run), run + [Fetch(t)];
    var keys := Ahead(cfg, w.counters, t);
    assert Before(fetched) == run;
    assert Waits(w.s, u) <= Checked(cfg, u) && Queued(w.s, u) && Truthful(cfg, w, u);
    ReuseForgets(cfg, w.counters, w.s, t, u, ws);
    BlockListsOthers(w.s, keys, t);
    var es := RaiseAll(cfg, fetched, ws);
    HandlesAreValid(cfg, fetched + es, ws, u, keys);
  }

  /** After any safe run, fetching the copy of a transaction keeps the indexes inverse if and only if the copy need not
      wait or none of its copies does; and if it breaks them, one of these copies is lost: whenever what it waits
      for completes, in whatever order, the run can end with that copy forgotten. */
  lemma ReuseIsTheOnlyFault(cfg: NodeConfig, run: seq<Event>, t: Txn)
    requires ValidRun(cfg, run) && SafeRun(cfg, run) && !t.remaster && DistinctKeys(t)
    requires var s := After(cfg, run).s; t !in s.waiting && OnlyCopies(s, t)
    ensures ValidRun(cfg, run + [Fetch(t)])
    ensures var w, s' := After(cfg, run), After(cfg, run + [Fetch(t)]).s;
            && (Inverse(s') <==> MayFetch(cfg, w.counters, w.s, t))
            && (!Inverse(s') ==>
                  exists u :: u in w.s.waiting && u.id == t.id && Loses(cfg, run + [Fetch(t)], WaitsOf(w.s, u), u))
  {
    var w := After(cfg, run);
    assert Before(run + [Fetch(t)]) == run;
    RunKeepsInv(cfg, run);
    RunKeepsChecked(cfg, run);
    forall u | u in w.s.waiting ensures WaitsOf(w.s, u) <= Checked(cfg, u) {
      assert Waits(w.s, u) <= Checked(cfg, u);
    }
    FetchKeepsInverse(cfg, w.counters, w.s, t);
    if !MayFetch(cfg, w.counters, w.s, t) {
      var u :| u in w.s.waiting && u.id == t.id;
      forall ws | NoDuplicates(ws) && forall v :: v in ws <==> v in WaitsOf(w.s, u)
        ensures LosesAfter(cfg, run + [Fetch(t)], ws, u)
      {
        ReuseLosesAfter(cfg, run, t, u, ws);
      }
      assert Loses(cfg, run + [Fetch(t)], WaitsOf(w.s, u), u);
    }
  }

  // -------- examples

  const X: Wait := ("x", 1)
  const Z: Wait := ("z", 1)
  const Y: Wait := ("y", 1)

  /** Two copies of a transaction on a record of replica 0 and one of replica 1, and of one with two of replica 0. */
  const Copy0 := Txn(7, 0, false, false, [], [KeyEntry("x", 0, 1), KeyEntry("y", 1, 1)])
  const Copy1 := Copy0.(origin := 1, newGenerated := true)
  const Wide0 := Txn(7, 0, false, false, [], [KeyEntry("x", 0, 1), KeyEntry("z", 0, 1), KeyEntry("y", 1, 1)])
  const Wide1 := Wide0.(origin := 1, newGenerated := true)

  const OneWaits := State(map[0 := [Copy0]], {Copy0}, map[7 := {X}], map[X := [Copy0]], [], [])
  const BothWait := State(map[0 := [Copy0], 1 := [Copy1]], {Copy0, Copy1}, map[7 := {Y}],
                          map[X := [Copy0], Y := [Copy1]], [], [])
  const XIsDone := BothWait.(byKey := map[Y := [Copy1]])
  const Stuck := State(map[0 := [Copy0], 1 := []], {Copy0}, map[], map[], [Copy1], [])

  lemma AheadOfCopies(cfg: NodeConfig)
    requires forall k :: cfg.partition(k) == cfg.node
    ensures Ahead(cfg, map[], Copy0) == {X} && Ahead(cfg, map[], Copy1) == {Y}
  {
    var es := Copy0.readSet + Copy0.readWriteSet;
    assert es[0] == KeyEntry("x", 0, 1) && es[1] == KeyEntry("y", 1, 1);
    assert es[0] in es && es[1] in es;
  }

  lemma BlockFirst()
    ensures Block(Initial, {X}, Copy0) == OneWaits
  {
    var b := Block(Initial, {X}, Copy0);
    assert b.blocking[0] == [Copy0] && b.byKey[X] == [Copy0];
    assert b.byKey == OneWaits.byKey;
  }

  lemma BlockSecond()
    ensures Block(OneWaits, {Y}, Copy1) == BothWait
  {
    var b := Block(OneWaits, {Y}, Copy1);
    assert X != Y;
    assert b.blocking[1] == [Copy1] && b.byKey[X] == [Copy0] && b.byKey[Y] == [Copy1];
    assert b.byKey == BothWait.byKey && b.byTxn == BothWait.byTxn && b.blocking == BothWait.blocking;
  }

  lemma FetchCopies(cfg: NodeConfig)
    requires forall k :: cfg.partition(k) == cfg.node
    ensures FetchOp(cfg, map[], FetchOp(cfg, map[], Initial, Copy0), Copy1) == BothWait
  {
    AheadOfCopies(cfg);
    FetchBlocks(cfg, map[], Initial, Copy0);
    BlockFirst();
    FetchBlocks(cfg, map[], OneWaits, Copy1);
    BlockSecond();
  }

  lemma XWakesNobody()
    ensures RemasterDone(BothWait, X) == XIsDone
  {
    assert X != Y;
    assert WaitsOf(BothWait, Copy0) - {X} == {Y};
    var f := Forget(BothWait, X);
    assert f.byKey == XIsDone.byKey && f.byTxn == XIsDone.byTxn;
    assert WakeFirst(BothWait, X) == f;
  }

  lemma YWakesOne()
    ensures RemasterDone(XIsDone, Y) == Stuck
  {
    assert Forget(XIsDone, Y) == XIsDone.(byKey := map[], byTxn := map[], waiting := {Copy0});
    assert WakeFirst(XIsDone, Y) == Stuck;
  }

  /** Both remasters are done, the first copy still waits, and it is on no list. */
  lemma CopiesLoseWakeup(cfg: NodeConfig)
    requires forall k :: cfg.partition(k) == cfg.node
    ensures var s := FetchOp(cfg, map[], FetchOp(cfg, map[], Initial, Copy0), Copy1);
            var end := RemasterDone(RemasterDone(s, X), Y);
            AreCopies(Copy1, Copy0) && !Inverse(s) && Forgotten(end, Copy0) && end.byKey == map[]
  {
    FetchCopies(cfg);
    XWakesNobody();
    YWakesOne();
    StuckIsForgotten();
  }

  lemma StuckIsForgotten()
    ensures !Inverse(BothWait) && Forgotten(Stuck, Copy0)
  {
    assert Lists(BothWait, X, Copy0) && !WaitsFor(BothWait, X, Copy0);
  }

  const WideWaits := State(map[0 := [Wide0]], {Wide0}, map[7 := {X, Z}], map[X := [Wide0], Z := [Wide0]], [], [])
  const BothWide := State(map[0 := [Wide0], 1 := [Wide1]], {Wide0, Wide1}, map[7 := {Y}],
                          map[X := [Wide0], Z := [Wide0], Y := [Wide1]], [], [])
  const YIsDone := State(map[0 := [Wide0], 1 := []], {Wide0}, map[], map[X := [Wide0], Z := [Wide0]], [Wide1], [])
  const Early := State(map[0 := [], 1 := []], {}, map[], map[Z := [Wide0]], [Wide1, Wide0], [])

  lemma AheadOfWide(cfg: NodeConfig)
    requires forall k :: cfg.partition(k) == cfg.node
    ensures Ahead(cfg, map[], Wide0) == {X, Z} && Ahead(cfg, map[], Wide1) == {Y}
  {
    var es := Wide0.readSet + Wide0.readWriteSet;
    assert es[0] == KeyEntry("x", 0, 1) && es[1] == KeyEntry("z", 0, 1) && es[2] == KeyEntry("y", 1, 1);
    assert es[0] in es && es[1] in es && es[2] in es;
  }

  lemma BlockWideFirst()
    ensures Block(Initial, {X, Z}, Wide0) == WideWaits
  {
    var b := Block(Initial, {X, Z}, Wide0);
    assert b.blocking[0] == [Wide0] && b.byKey[X] == [Wide0] && b.byKey[Z] == [Wide0];
    assert b.byKey == WideWaits.byKey;
  }

  lemma BlockWideSecond()
    ensures Block(WideWaits, {Y}, Wide1) == BothWide
  {
    var b := Block(WideWaits, {Y}, Wide1);
    assert X != Y && Z != Y;
    assert b.blocking[1] == [Wide1] && b.byKey[X] == [Wide0] && b.byKey[Z] == [Wide0] && b.byKey[Y] == [Wide1];
    assert b.byKey == BothWide.byKey && b.byTxn == BothWide.byTxn && b.blocking == BothWide.blocking;
  }

  lemma YWakesWide()
    ensures RemasterDone(BothWide, Y) == YIsDone
  {
    assert X != Y && Z != Y;
    var f := Forget(BothWide, Y);
    assert f.byKey == YIsDone.byKey && f.byTxn == map[] && f.waiting == {Wide0};
    assert WakeFirst(BothWide, Y) == YIsDone;
  }

  lemma XWakesEarly()
    ensures RemasterDone(YIsDone, X) == Early
  {
    assert X != Z;
    var f := Forget(YIsDone, X);
    assert f.byKey == Early.byKey && f.byTxn == map[] && f.waiting == {};
    assert WakeFirst(YIsDone, X) == Early;
  }

  lemma EarlyIsUndefined()
    ensures Wide0 in Early.given && Lists(Early, Z, Wide0) && !WakesDefined(Early, Z)
  {
    assert ListOf(Early.byKey, Z) == [Wide0];
    assert QueueOf(Forget(Early, Z), 0) == [] && Wide0 !in Forget(Early, Z).waiting;
    assert !FrontDefined(Early, Z);
  }

  lemma FetchWide(cfg: NodeConfig)
    requires forall k :: cfg.partition(k) == cfg.node
    ensures FetchOp(cfg, map[], FetchOp(cfg, map[], Initial, Wide0), Wide1) == BothWide
  {
    AheadOfWide(cfg);
    FetchBlocks(cfg, map[], Initial, Wide0);
    BlockWideFirst();
    FetchBlocks(cfg, map[], WideWaits, Wide1);
    BlockWideSecond();
  }

  /** The other way round the first copy goes to the lock manager while it still has to wait for a record, and
      the completion of that record's remaster looks at the front of an empty queue. */
  lemma CopiesAreGivenEarly(cfg: NodeConfig)
    requires forall k :: cfg.partition(k) == cfg.node
    ensures var s := FetchOp(cfg, map[], FetchOp(cfg, map[], Initial, Wide0), Wide1);
            var end := RemasterDone(RemasterDone(s, Y), X);
            Wide0 in end.given && Lists(end, Z, Wide0) && !WakesDefined(end, Z)
  {
    FetchWide(cfg);
    YWakesWide();
    XWakesEarly();
    EarlyIsUndefined();
  }
}
