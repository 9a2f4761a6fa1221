/** The lock manager thread's bookkeeping for transactions that wait for a remaster. */
module BlockingScheduler {
  import opened Txns
  import opened Blocking

  /** The lists once the first `i` waiters for `w` have been struck. */
  ghost function Struck(byKey: map<Wait, seq<Txn>>, w: Wait, i: nat): map<Wait, seq<Txn>>
    requires w in byKey && i <= |byKey[w]|
  {
    if i == |byKey[w]| then byKey - {w} else byKey[w := byKey[w][i..]]
  }

  lemma DroppedStruck(byKey: map<Wait, seq<Txn>>, w: Wait, i: nat)
    requires w in byKey && i < |byKey[w]|
    ensures var lists := Struck(byKey, w, i);
            ListOf(lists, w) != [] && lists[w][0] == byKey[w][i] && Dropped(lists, w) == Struck(byKey, w, i + 1)
  {
    var lists := Struck(byKey, w, i);
    assert lists[w][1..] == byKey[w][i + 1..];
    assert Dropped(lists, w) == Struck(byKey, w, i + 1);
  }

  /** A state from which waking on `w` ends in `end`. */
  ghost predicate LeadsTo(s: State, w: Wait, end: State) {
    WakesDefined(s, w) && Blocking.RemasterDone(s, w) == end
  }

  lemma StepLeadsTo(s: State, w: Wait, end: State)
    requires LeadsTo(s, w, end) && ListOf(s.byKey, w) != []
    ensures FrontDefined(s, w) && LeadsTo(WakeFirst(s, w), w, end)
  {
  }

  /** A list is made for its first waiter, and goes when its record has come. */
  ghost predicate NoListEmpty(s: State) {
    forall w :: w in s.byKey ==> s.byKey[w] != []
  }

  lemma FetchKeepsLists(cfg: NodeConfig, counters: Counters, s: State, t: Txn)
    requires NoListEmpty(s)
    ensures NoListEmpty(FetchOp(cfg, counters, s, t))
  {
  }

  lemma {:induction false} DoneKeepsLists(s: State, w: Wait)
    requires NoListEmpty(s)
    ensures NoListEmpty(Blocking.RemasterDone(s, w))
    decreases |ListOf(s.byKey, w)|
  {
    if ListOf(s.byKey, w) != [] {
      DoneKeepsLists(WakeFirst(s, w), w);
    }
  }

  lemma FetchKeeps(cfg: NodeConfig, counters: Counters, s: State, t: Txn)
    ensures var f := FetchOp(cfg, counters, s, t);
            && f.unlocked == s.unlocked + (if !t.remaster && IsBehind(cfg, counters, t) then [t] else [])
            && (NoListEmpty(s) ==> NoListEmpty(f)) && (Inv(s) && MayFetch(cfg, counters, s, t) ==> Inv(f))
  {
    FetchSendsOff(cfg, counters, s, t);
    if NoListEmpty(s) {
      FetchKeepsLists(cfg, counters, s, t);
    }
    if Inv(s) && MayFetch(cfg, counters, s, t) {
      FetchKeepsInv(cfg, counters, s, t);
    }
  }

  class BlockingQueues {
    const cfg: NodeConfig
    var blocking: map<nat, seq<Txn>>
    var waiting: set<Txn>
    var byTxn: map<nat, set<Wait>>
    var byKey: map<Wait, seq<Txn>>
    var given: seq<Txn>
    var unlocked: seq<Txn>

    function View(): State
      reads this
    {
      State(blocking, waiting, byTxn, byKey, given, unlocked)
    }

    constructor (cfg: NodeConfig)
      ensures this.cfg == cfg && View() == Initial && Inv(View()) && NoListEmpty(View())
    {
      this.cfg := cfg;
      blocking, waiting, byTxn, byKey, given, unlocked := map[], {}, map[], map[], [], [];
      new;
      InitialInv();
    }

    /** Adds the entries of `es` that are ahead of storage, and notes whether one is behind it. */
    method CheckEntries(t: Txn, es: seq<KeyEntry>, counters: Counters, keys0: set<Wait>, aborted0: bool)
      returns (keys: set<Wait>, aborted: bool)
      ensures keys == keys0 + set w | w in CheckedOf(cfg, t, es) && w.1 > CounterOf(counters, w.0)
      ensures aborted <==> aborted0 || exists w :: w in CheckedOf(cfg, t, es) && w.1 < CounterOf(counters, w.0)
    {
      keys, aborted := keys0, aborted0;
      for i := 0 to |es|
        invariant keys == keys0 + set w | w in CheckedOf(cfg, t, es[..i]) && w.1 > CounterOf(counters, w.0)
        invariant aborted <==>
                  aborted0 || exists w :: w in CheckedOf(cfg, t, es[..i]) && w.1 < CounterOf(counters, w.0)
      {
        CheckedOneMore(cfg, t, es, i);
        var e := es[i];
        if cfg.partition(e.key) == cfg.node && e.master == t.origin {
          if e.counter > CounterOf(counters, e.key) {
            keys := keys + {(e.key, e.counter)};
          } else if e.counter < CounterOf(counters, e.key) {
            aborted := true;
          }
        }
      }
      assert es[..|es|] == es;
    }

    method VerifyStorageCounters(t: Txn, counters: Counters)
      returns (canExecute: bool, keys: set<Wait>, aborted: bool)
      ensures keys == Ahead(cfg, counters, t) && canExecute == (keys == {})
      ensures aborted == Stale(cfg, counters, t)
    {
      keys, aborted := CheckEntries(t, t.readSet, counters, {}, false);
      keys, aborted := CheckEntries(t, t.readWriteSet, counters, keys, aborted);
      canExecute := keys == {};
      CheckedBoth(cfg, t);
    }

    method AddToLists(keys: set<Wait>, t: Txn)
      modifies this`byKey
      ensures byKey == AddWaiter(old(byKey), keys, t)
    {
      var todo := keys;
      AddNoWaiter(byKey, t);
      assert keys - todo == {};
      while todo != {}
        invariant todo <= keys && byKey == AddWaiter(old(byKey), keys - todo, t)
        decreases |todo|
      {
        var w :| w in todo;
        AddNextWaiter(old(byKey), keys, todo, w, t);
        byKey := PutWaiter(byKey, w, t);
        todo := todo - {w};
      }
      assert keys - todo == keys;
    }

    /** A transaction is taken from its batch: it blocks, aborts at once, queues, or goes to the lock manager. */
    method Fetch(t: Txn, counters: Counters)
      modifies this
      ensures View() == FetchOp(cfg, counters, old(View()), t)
      ensures unlocked == old(unlocked) + if !t.remaster && IsBehind(cfg, counters, t) then [t] else []
      ensures old(NoListEmpty(View())) ==> NoListEmpty(View())
      ensures old(Inv(View()) && MayFetch(cfg, counters, View(), t)) ==> Inv(View())
    {
      FetchKeeps(cfg, counters, View(), t);
      if !t.remaster {
        var canExecute, keys, aborted := VerifyStorageCounters(t, counters);
        if !canExecute {
          blocking := blocking[t.origin := QueueOf(View(), t.origin) + [t]];
          waiting := waiting + {t};
          byTxn := byTxn[t.id := keys];
          AddToLists(keys, t);
          return;
        } else if aborted {
          unlocked := unlocked + [t];
          return;
        } else if QueueOf(View(), t.origin) != [] {
          blocking := blocking[t.origin := QueueOf(View(), t.origin) + [t]];
          return;
        }
      }
      given := given + [t];
    }

    /** Pops from the queue of `o` as long as its front waits for nothing. */
    method PopFree(o: nat) returns (ready: seq<Txn>)
      requires QueueOf(View(), o) != [] && blocking[o][0] !in waiting
      modifies this`blocking
      ensures var q := old(blocking[o]);
              var n := Free(q, waiting);
              ready == q[..n] && blocking == old(blocking)[o := q[n..]]
    {
      ghost var q := blocking[o];
      ready := [blocking[o][0]];
      blocking := blocking[o := blocking[o][1..]];
      while blocking[o] != [] && blocking[o][0] !in waiting
        invariant |ready| <= |q| && ready == q[..|ready|]
        invariant o in blocking && blocking == old(blocking)[o := q[|ready|..]]
        invariant forall i :: 0 <= i < |ready| ==> q[i] !in waiting
        decreases |blocking[o]|
      {
        assert blocking[o][0] == q[|ready|];
        ready := ready + [blocking[o][0]];
        blocking := blocking[o := blocking[o][1..]];
      }
      FreeIs(q, waiting, |ready|);
    }

    /** Strikes `w` from what `a` waits for, and collects what that frees. `rest` stands for the lists
        without the waiters already struck, which the caller removes at the end. */
    method Strike(w: Wait, a: Txn, ghost rest: map<Wait, seq<Txn>>, ghost g: seq<Txn>) returns (ready: seq<Txn>)
      requires ListOf(rest, w) != [] && rest[w][0] == a && FrontDefined(View().(byKey := rest, given := g), w)
      modifies this`blocking, this`waiting, this`byTxn
      ensures View().(byKey := Dropped(rest, w), given := g + ready)
              == WakeFirst(old(View()).(byKey := rest, given := g), w)
    {
      ghost var s := View().(byKey := rest, given := g);
      ghost var f := Forget(s, w);
      ready := [];
      var left := WaitsOf(View(), a) - {w};
      byTxn := byTxn[a.id := left];
      if left == {} {
        waiting := waiting - {a};
        byTxn := byTxn - {a.id};
        assert byTxn == f.byTxn;
        assert View().(byKey := f.byKey, given := g) == f;
        if blocking[a.origin][0] == a {
          ready := PopFree(a.origin);
        }
      } else {
        assert View().(byKey := f.byKey, given := g) == f;
      }
      assert g + [] == g;
    }

    /** The state with `i` waiters for `w` struck and `ready` handed over. */
    ghost function Midway(w: Wait, i: nat, ready: seq<Txn>): State
      requires w in byKey && i <= |byKey[w]|
      reads this
    {
      View().(byKey := Struck(byKey, w, i), given := given + ready)
    }

    method StrikeNext(w: Wait, i: nat, ready: seq<Txn>, ghost end: State) returns (more: seq<Txn>)
      requires w in byKey && i < |byKey[w]| && LeadsTo(Midway(w, i, ready), w, end)
      modifies this`blocking, this`waiting, this`byTxn
      ensures LeadsTo(Midway(w, i + 1, more), w, end)
    {
      ghost var s := Midway(w, i, ready);
      DroppedStruck(byKey, w, i);
      StepLeadsTo(s, w, end);
      more := Strike(w, byKey[w][i], s.byKey, s.given);
      assert s.given + more == given + (ready + more);
      more := ready + more;
    }

    /** Wakes all who wait for `w`, in the order they blocked, and collects what may now be locked. */
    method WakeAll(w: Wait) returns (ready: seq<Txn>)
      requires w in byKey && byKey[w] != [] && WakesDefined(View(), w)
      modifies this`blocking, this`waiting, this`byTxn
      ensures View().(byKey := byKey - {w}, given := given + ready) == Blocking.RemasterDone(old(View()), w)
    {
      ghost var end := Blocking.RemasterDone(View(), w);
      ready := [];
      assert Midway(w, 0, ready) == View() && LeadsTo(View(), w, end);
      for i := 0 to |byKey[w]|
        invariant LeadsTo(Midway(w, i, ready), w, end)
      {
        ready := StrikeNext(w, i, ready, end);
      }
    }

    /** Hands transactions to the lock manager. */
    method LockAll(ready: seq<Txn>)
      modifies this`given
      ensures given == old(given) + ready
    {
      for i := 0 to |ready|
        invariant given == old(given) + ready[..i]
      {
        given := given + [ready[i]];
      }
    }

    /** A remaster of `key` to `counter` is done. Beyond the front of an empty queue nothing is known. */
    method RemasterDone(key: Key, counter: nat)
      requires NoListEmpty(View()) && WakesDefined(View(), (key, counter))
      modifies this
      ensures View() == Blocking.RemasterDone(old(View()), (key, counter)) && NoListEmpty(View())
      ensures old(Inv(View())) ==> Inv(View())
    {
      var w := (key, counter);
      DoneKeepsLists(View(), w);
      if Inv(View()) {
        RemasterDoneKeepsInv(View(), w);
      }
      if w in byKey {
        var ready := WakeAll(w);
        byKey := byKey - {w};
        LockAll(ready);
      }
    }
  }
}
