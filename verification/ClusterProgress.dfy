/** Deadlock freedom and termination of the cluster, and when a run can finish at all. */
module ClusterProgress {
  import opened Txns
  import opened LockQueue
  import opened LockSpec
  import opened Cluster
  import opened ClusterSafety

  /** Read results go to writers only, so a shard that only reads must be alone. */
  ghost predicate EveryShardIsFed(w: World) {
    forall i, n: nat :: 0 <= i < |w.order| && n < w.nodes && Participates(w, n, w.order[i]) ==> Fed(w, n, w.order[i])
  }

  ghost predicate Fed(w: World, n: nat, t: Txn) {
    Writes(w, n, t) || forall m: nat :: m < w.nodes && Participates(w, m, t) ==> m == n
  }

  ghost predicate ReleasedEverywhere(w: World, s: State, t: Txn) {
    forall n: nat :: n < w.nodes && Participates(w, n, t) ==> (n, t) in s.released
  }

  ghost predicate Complete(w: World, s: State) {
    forall i :: 0 <= i < |w.order| ==> ReleasedEverywhere(w, s, w.order[i])
  }

  ghost predicate CanStep(w: World, s: State) {
    exists e :: Enabled(w, s, e)
  }

  // ---------------------------------------------------------------- Deadlock freedom

  lemma {:induction false} OldestUnfinished(w: World, s: State, n: nat) returns (i: nat)
    requires n <= |w.order| && exists j :: 0 <= j < n && !ReleasedEverywhere(w, s, w.order[j])
    ensures i < n && !ReleasedEverywhere(w, s, w.order[i])
    ensures forall j :: 0 <= j < i ==> ReleasedEverywhere(w, s, w.order[j])
  {
    if exists j :: 0 <= j < n - 1 && !ReleasedEverywhere(w, s, w.order[j]) {
      i := OldestUnfinished(w, s, n - 1);
    } else {
      i := n - 1;
    }
  }

  /** At each of its participants the oldest unfinished transaction is ready, or something can happen. */
  lemma OldestBecomesReady(w: World, s: State, m: nat, i: nat)
    requires ValidWorld(w) && ClusterInv(w, s) && i < |w.order| && m < w.nodes && Participates(w, m, w.order[i])
    requires forall j :: 0 <= j < i ==> ReleasedEverywhere(w, s, w.order[j])
    ensures CanStep(w, s) || (m in s.locks && w.order[i] in s.locks[m].ready)
  {
    var p := |LocalOrder(w, m, i)|;
    LocalPosition(w, m, |w.order|, i);
    assert NodeInv(w, s, m);
    if s.next[m] <= p {
      assert Enabled(w, s, Event.Lock(m, Input(w, m)[s.next[m]]));
    } else {
      var locked := Input(w, m)[..s.next[m]];
      forall q, k | 0 <= q < p && k in Keys(w.Config(m), locked[q]) ensures (locked[q], k) in Gone(w, s, m) {
        LocalPrefix(w, m, i, |w.order|);
        var j := LocalMembers(w, m, i, q);
        assert ReleasedEverywhere(w, s, w.order[j]);
        GoneMembers(w, s, m, locked[q], k);
      }
      OldestIsReady(w.Config(m), locked, Gone(w, s, m), {}, s.locks[m], p);
    }
  }

  /** There it has read all its records, or something can happen. */
  lemma OldestReads(w: World, s: State, m: nat, i: nat)
    requires ValidWorld(w) && ClusterInv(w, s) && i < |w.order| && m < w.nodes && Participates(w, m, w.order[i])
    requires forall j :: 0 <= j < i ==> ReleasedEverywhere(w, s, w.order[j])
    ensures CanStep(w, s) || FullyRead(w, s, m, w.order[i])
  {
    var t := w.order[i];
    OldestBecomesReady(w, s, m, i);
    if (m, t) !in s.readings {
      assert CanStep(w, s) || Enabled(w, s, Event.Start(m, t));
    } else if !FullyRead(w, s, m, t) {
      var k :| k in Keys(w.Config(m), t) && k !in s.readings[(m, t)];
      KeysAtNode(w, m, t, k);
      assert k in w.initial;
      assert Enabled(w, s, Event.Read(m, t, k));
    }
  }

  /** What a node has finished it can release. */
  lemma FinishedCanRelease(w: World, s: State, n: nat, t: Txn)
    requires ValidWorld(w) && ClusterInv(w, s) && n < w.nodes && Finished(w, s, n, t) && (n, t) !in s.released
    ensures Enabled(w, s, Event.Release(n, t))
  {
    assert NodeInv(w, s, n) && FullyRead(w, s, n, t);
    var i := ReadyIsLocked(w, s, n, t);
    forall k ensures (t, k) !in Gone(w, s, n) {
      GoneMembers(w, s, n, t, k);
    }
    ReleaseKeepsInv(w.Config(n), Input(w, n)[..s.next[n]], Gone(w, s, n), {}, s.locks[n], t);
  }

  /** A transaction whose participants have all read can make its next move at any of them. */
  lemma StartedMoves(w: World, s: State, n: nat, i: nat)
    requires ValidWorld(w) && ClusterInv(w, s) && i < |w.order| && n < w.nodes && Participates(w, n, w.order[i])
    requires (n, w.order[i]) !in s.released && Fed(w, n, w.order[i])
    requires forall m: nat :: m < w.nodes && Participates(w, m, w.order[i]) ==> FullyRead(w, s, m, w.order[i])
    ensures CanStep(w, s)
  {
    var t := w.order[i];
    if m: nat :| m < w.nodes && Participates(w, m, t) && m != n && (m, n, t) !in s.delivered {
      assert Enabled(w, s, Event.Deliver(m, n, t));
    } else if (n, t) !in s.outputs {
      assert Enabled(w, s, Event.Execute(n, t));
    } else if k :| k in WriteKeys(w.Config(n), t) && (t, k) !in s.written {
      assert Enabled(w, s, Event.Write(n, t, k));
    } else {
      FinishedCanRelease(w, s, n, t);
    }
  }

  /** No reachable state is stuck before every transaction is finished everywhere. */
  lemma DeadlockFreedom(w: World, es: seq<Event>)
    requires ValidWorld(w) && ValidRun(w, es) && EveryShardIsFed(w)
    requires !Complete(w, After(w, es))
    ensures CanStep(w, After(w, es))
  {
    var s := After(w, es);
    RunKeepsInv(w, es);
    var i := OldestUnfinished(w, s, |w.order|);
    var n: nat :| n < w.nodes && Participates(w, n, w.order[i]) && (n, w.order[i]) !in s.released;
    if !CanStep(w, s) {
      forall m: nat | m < w.nodes && Participates(w, m, w.order[i]) ensures FullyRead(w, s, m, w.order[i]) {
        OldestReads(w, s, m, i);
      }
      StartedMoves(w, s, n, i);
    }
  }

  /** A shard that only reads, with another participant, never executes in any run. */
  lemma UnfedShardNeverExecutes(w: World, es: seq<Event>, n: nat, t: Txn)
    requires ValidWorld(w) && ValidRun(w, es) && !Fed(w, n, t)
    ensures (n, t) !in After(w, es).outputs
  {
    RunKeepsInv(w, es);
    var s := After(w, es);
    var m: nat :| m < w.nodes && Participates(w, m, t) && m != n;
    assert (n, t) in s.outputs ==> HasAllReads(w, s, n, t);
  }

  // ---------------------------------------------------------------- Termination

  /** The lasting trace of each kind of event. */
  ghost predicate Happened(w: World, s: State, e: Event) {
    match e
    case Lock(n, t) => n in s.next && s.next[n] <= |Input(w, n)| && t in Input(w, n)[..s.next[n]]
    case Start(n, t) => (n, t) in s.readings
    case Read(n, t, k) => Sent(s, n, t, k)
    case Deliver(m, n, t) => (m, n, t) in s.delivered
    case Execute(n, t) => (n, t) in s.outputs
    case Write(n, t, k) => (t, k) in s.written
    case Release(n, t) => (n, t) in s.released
  }

  ghost function Nodes(w: World): set<nat> {
    set n: nat | n < w.nodes && IsNode(w, n)
  }

  /** Everything that can ever happen: a finite set. */
  ghost function AllEvents(w: World): set<Event> {
    (set n, t | n in Nodes(w) && t in w.order :: Event.Lock(n, t))
    + (set n, t | n in Nodes(w) && t in w.order :: Event.Start(n, t))
    + (set n, t, k | n in Nodes(w) && t in w.order && k in AllKeys(t) :: Event.Read(n, t, k))
    + (set m, n, t | m in Nodes(w) && n in Nodes(w) && t in w.order :: Event.Deliver(m, n, t))
    + (set n, t | n in Nodes(w) && t in w.order :: Event.Execute(n, t))
    + (set n, t, k | n in Nodes(w) && t in w.order && k in AllKeys(t) :: Event.Write(n, t, k))
    + (set n, t | n in Nodes(w) && t in w.order :: Event.Release(n, t))
  }

  lemma StartedIsKnown(w: World, s: State, n: nat, t: Txn)
    requires ValidWorld(w) && ClusterInv(w, s) && n in s.locks && t in s.locks[n].ready
    ensures n in Nodes(w) && t in w.order
  {
    assert IsNode(w, n);
    var j := ReadyIsLocked(w, s, n, t);
  }

  lemma EnabledIsNew(w: World, s: State, e: Event)
    requires ValidWorld(w) && ClusterInv(w, s) && Enabled(w, s, e)
    ensures e in AllEvents(w) && !Happened(w, s, e)
  {
    match e {
      case Lock(n, t) =>
        assert IsNode(w, n);
        InputDistinct(w, n);
        var j := LocalMembers(w, n, |w.order|, s.next[n]);
      case Start(n, t) => StartedIsKnown(w, s, n, t);
      case Deliver(m, n, t) =>
        StartedIsKnown(w, s, m, t);
        assert IsNode(w, n);
      case Read(n, t, k) =>
        StartedIsKnown(w, s, n, t);
        KeysAtNode(w, n, t, k);
      case Execute(n, t) => StartedIsKnown(w, s, n, t);
      case Write(n, t, k) =>
        StartedIsKnown(w, s, n, t);
        KeysAtNode(w, n, t, k);
      case Release(n, t) => StartedIsKnown(w, s, n, t);
    }
  }

  lemma HappenedLasts(w: World, s: State, e: Event, f: Event)
    requires Enabled(w, s, e)
    ensures Happened(w, Apply(w, s, e), e)
    ensures Happened(w, s, f) ==> Happened(w, Apply(w, s, e), f)
  {
    var s' := Apply(w, s, e);
    if e.Lock? {
      var input := Input(w, e.n);
      assert input[..s.next[e.n] + 1] == input[..s.next[e.n]] + [e.t];
      assert s'.next[e.n] == s.next[e.n] + 1;
    }
  }

  lemma {:induction false} PrefixIsValid(w: World, es: seq<Event>, i: nat)
    requires ValidRun(w, es) && i <= |es|
    ensures ValidRun(w, es[..i])
    decreases |es|
  {
    if i < |es| {
      PrefixIsValid(w, es[..|es| - 1], i);
      assert es[..|es| - 1][..i] == es[..i];
    } else {
      assert es[..i] == es;
    }
  }

  /** Each event of a run was new when it happened, and has left its trace ever since. */
  lemma {:induction false} EventHappened(w: World, es: seq<Event>, i: nat)
    requires ValidWorld(w) && ValidRun(w, es) && i < |es|
    ensures es[i] in AllEvents(w) && Happened(w, After(w, es), es[i])
    ensures i < |es| - 1 ==> es[i] != es[|es| - 1]
    decreases |es|
  {
    var init := es[..|es| - 1];
    var e := es[|es| - 1];
    RunKeepsInv(w, init);
    EnabledIsNew(w, After(w, init), e);
    if i < |es| - 1 {
      EventHappened(w, init, i);
    }
    HappenedLasts(w, After(w, init), e, es[i]);
  }

  lemma RunEventsAreDistinct(w: World, es: seq<Event>)
    requires ValidWorld(w) && ValidRun(w, es)
    ensures NoDuplicates(es) && forall e :: e in es ==> e in AllEvents(w)
  {
    forall e | e in es ensures e in AllEvents(w) {
      var i :| 0 <= i < |es| && es[i] == e;
      EventHappened(w, es, i);
    }
    forall i, j | 0 <= i < j < |es| ensures es[i] != es[j] {
      PrefixIsValid(w, es, j + 1);
      EventHappened(w, es[..j + 1], i);
    }
  }

  lemma {:induction false} DistinctIsBounded(es: seq<Event>, all: set<Event>)
    requires NoDuplicates(es) && forall e :: e in es ==> e in all
    ensures |es| <= |all|
  {
    if es != [] {
      var e := es[|es| - 1];
      assert e !in es[..|es| - 1];
      DistinctIsBounded(es[..|es| - 1], all - {e});
      assert all == all - {e} + {e};
    }
  }

  /** No run is longer than the number of events there are. */
  lemma Termination(w: World, es: seq<Event>)
    requires ValidWorld(w) && ValidRun(w, es)
    ensures |es| <= |AllEvents(w)|
  {
    RunEventsAreDistinct(w, es);
    DistinctIsBounded(es, AllEvents(w));
  }

  // ---------------------------------------------------------------- Outcome

  /** Nobody holds or waits for a lock at node `n`. */
  ghost predicate IsIdle(s: State, n: nat) {
    n in s.locks && s.locks[n].queues == map[] && s.locks[n].waits == map[]
  }

  /** A run that cannot go on has finished everything exactly when every read-only shard is alone. */
  lemma StuckRunIsComplete(w: World, es: seq<Event>)
    requires ValidWorld(w) && ValidRun(w, es) && !CanStep(w, After(w, es))
    ensures Complete(w, After(w, es)) <==> EveryShardIsFed(w)
  {
    var s := After(w, es);
    RunKeepsInv(w, es);
    if !EveryShardIsFed(w) {
      var i, n: nat :| 0 <= i < |w.order| && n < w.nodes && Participates(w, n, w.order[i]) && !Fed(w, n, w.order[i]);
      UnfedShardNeverExecutes(w, es, n, w.order[i]);
      assert !ReleasedEverywhere(w, s, w.order[i]);
    } else if !Complete(w, s) {
      DeadlockFreedom(w, es);
    }
  }

  lemma {:induction false} ExtendWithin(w: World, es: seq<Event>, limit: nat) returns (fs: seq<Event>)
    requires ValidRun(w, es) && forall run :: ValidRun(w, run) ==> |run| <= limit
    ensures ValidRun(w, fs) && es <= fs && !CanStep(w, After(w, fs))
    decreases limit - |es|
  {
    if CanStep(w, After(w, es)) {
      var e :| Enabled(w, After(w, es), e);
      var longer := es + [e];
      assert longer[..|longer| - 1] == es && ValidRun(w, longer);
      fs := ExtendWithin(w, longer, limit);
    } else {
      fs := es;
    }
  }

  lemma ExtendToEnd(w: World, es: seq<Event>) returns (fs: seq<Event>)
    requires ValidWorld(w) && ValidRun(w, es)
    ensures ValidRun(w, fs) && es <= fs && !CanStep(w, After(w, fs))
  {
    forall run | ValidRun(w, run) ensures |run| <= |AllEvents(w)| {
      Termination(w, run);
    }
    fs := ExtendWithin(w, es, |AllEvents(w)|);
  }

  /** Every run, however far it has come, can be driven to the end; there the store is the serial one,
      and every lock table is empty. */
  lemma EveryRunCanFinish(w: World, es: seq<Event>) returns (fs: seq<Event>)
    requires ValidWorld(w) && ValidRun(w, es) && EveryShardIsFed(w)
    ensures ValidRun(w, fs) && es <= fs
    ensures Complete(w, After(w, fs)) && After(w, fs).data == Serial(w, |w.order|)
    ensures forall n: nat :: n < w.nodes ==> IsIdle(After(w, fs), n)
  {
    fs := ExtendToEnd(w, es);
    StuckRunIsComplete(w, fs);
    CompleteRunIsClean(w, fs);
  }

  lemma CompleteNodeIsIdle(w: World, s: State, n: nat)
    requires ValidWorld(w) && Complete(w, s) && n < w.nodes && NodeInv(w, s, n)
    ensures IsIdle(s, n)
  {
    var locked := Input(w, n)[..s.next[n]];
    forall k ensures k !in s.locks[n].queues {
      forall t | t in locked && k in Keys(w.Config(n), t) ensures (t, k) in Gone(w, s, n) {
        var p :| 0 <= p < |locked| && locked[p] == t;
        var j := LocalMembers(w, n, |w.order|, p);
        assert ReleasedEverywhere(w, s, w.order[j]);
        GoneMembers(w, s, n, t, k);
      }
      ProjectAllGone(w.Config(n), locked, Gone(w, s, n), k);
      assert QueueOf(s.locks[n].queues, k) == [];
    }
    forall t ensures t !in s.locks[n].waits {
      assert Outstanding(s.locks[n].queues, {}, t) == {};
      assert CountExact(s.locks[n].waits, t, Outstanding(s.locks[n].queues, {}, t));
    }
  }

  lemma CompleteRunIsClean(w: World, es: seq<Event>)
    requires ValidWorld(w) && ValidRun(w, es) && Complete(w, After(w, es))
    ensures After(w, es).data == Serial(w, |w.order|)
    ensures forall n: nat :: n < w.nodes ==> IsIdle(After(w, es), n)
  {
    var s := After(w, es);
    RunKeepsInv(w, es);
    forall n: nat, i | n < w.nodes && 0 <= i < |w.order| && Participates(w, n, w.order[i])
      ensures Finished(w, s, n, w.order[i])
    {
      assert ReleasedEverywhere(w, s, w.order[i]);
    }
    SerialEquivalence(w, es);
    forall n: nat | n < w.nodes ensures IsIdle(s, n) {
      CompleteNodeIsIdle(w, s, n);
    }
  }
}
