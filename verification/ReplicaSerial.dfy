/** Serial equivalence, freedom from deadlock and termination for a replica whose machines serve all origins at once. */
module ReplicaSerial {
  import opened Filters
  import opened Txns
  import opened LockQueue
  import opened LockSpec
  import opened Cluster
  import opened ClusterSafety
  import opened ClusterProgress
  import opened Machines
  import opened MachinesSafety
  import opened MachineRuns

  ghost predicate CanGoOn(r: Replica, s: System) {
    exists e :: Possible(r, s, e)
  }

  // -------- what the shards can do, the machines can do

  /** A transaction of a shard's input is there for a record of the shard. */
  lemma ShardHasRecord(r: Replica, order: seq<Txn>, p: nat, i: nat) returns (m: nat, a: nat)
    requires ValidReplica(r, order) && i < |Input(Sharded(r, order), p)|
    ensures m < r.machines && a < r.origins && p == r.number(m, a)
  {
    var w := Sharded(r, order);
    var j := LocalMembers(w, p, |order|, i);
    var k :| k in Keys(w.Config(p), order[j]);
    KeysAtNode(w, p, order[j], k);
    m, a := r.partition(k), r.master(k);
  }

  lemma LockComesBack(r: Replica, order: seq<Txn>, s: System, c: State, p: nat, t: Txn)
    requires Simulated(r, order, s, c) && Enabled(Sharded(r, order), c, Event.Lock(p, t))
    ensures CanGoOn(r, s)
  {
    var m, a := ShardHasRecord(r, order, p, c.next[p]);
    assert MachineInv(r, s, m) && NextAgrees(r, s, c, m, a) && InputAgrees(r, order, m);
    assert r.inputs(m)[..|r.inputs(m)|] == r.inputs(m);
    assert Possible(r, s, LockNext(m));
  }

  /** What is ready at a shard is there as a copy at the shard's machine. */
  lemma ReadyCopy(r: Replica, order: seq<Txn>, s: System, c: State, p: nat, t: Txn) returns (m: nat, u: Txn)
    requires Simulated(r, order, s, c) && p in c.locks && t in c.locks[p].ready
    ensures m < r.machines && u in r.inputs(m) && r.ShardOf(m, u) == p && Strip(u) == t
    ensures m in s.locks && u in s.locks[m].ready
  {
    var w := Sharded(r, order);
    var j := ReadyIsLocked(w, c, p, t);
    var a;
    m, a := ShardHasRecord(r, order, p, |LocalOrder(w, p, j)|);
    assert InputAgrees(r, order, m);
    var picked := Filter(r.inputs(m), OfOrigin(a));
    u := picked[|LocalOrder(w, p, j)|];
    assert Stripped(picked)[|LocalOrder(w, p, j)|] == Strip(u);
    FilterHas(r.inputs(m), OfOrigin(a), u);
    ReadyAlike(r, order, s, c, m, u);
  }

  lemma StartComesBack(r: Replica, order: seq<Txn>, s: System, c: State, p: nat, t: Txn)
    requires Simulated(r, order, s, c) && Enabled(Sharded(r, order), c, Start(p, t))
    ensures CanGoOn(r, s)
  {
    var m, u := ReadyCopy(r, order, s, c, p, t);
    assert Possible(r, s, Begin(m, u));
  }

  lemma ReadyIsReleasable(r: Replica, order: seq<Txn>, s: System, c: State, m: nat, u: Txn)
    requires Simulated(r, order, s, c) && m in s.locks && u in s.locks[m].ready
    requires (r.ShardOf(m, u), Strip(u)) !in s.work.released
    ensures Releasable(s.locks[m], Held(r.Config(m), u))
  {
    ReadyIsRead(r, s, m, u);
    assert MachineInv(r, s, m);
    forall k ensures (u, k) !in GoneAt(r, s, m) {
      GoneAtMembers(r, s, m, u, k);
    }
    ReleaseKeepsInv(r.Config(m), r.inputs(m)[..s.next[m]], GoneAt(r, s, m), {}, s.locks[m], u);
  }

  lemma ReleaseComesBack(r: Replica, order: seq<Txn>, s: System, c: State, p: nat, t: Txn)
    requires Simulated(r, order, s, c) && Enabled(Sharded(r, order), c, Release(p, t))
    ensures CanGoOn(r, s)
  {
    assert FullyRead(Sharded(r, order), c, p, t);
    var m, u := ReadyCopy(r, order, s, c, p, t);
    ReadyIsReleasable(r, order, s, c, m, u);
    FinishedIsTheSame(r, order, c, p, t);
    assert Possible(r, s, Free(m, u));
  }

  /** If some shard can make a step, so can some machine. */
  lemma StepsComeBack(r: Replica, order: seq<Txn>, s: System, c: State)
    requires Simulated(r, order, s, c) && CanStep(Sharded(r, order), c)
    ensures CanGoOn(r, s)
  {
    var e :| Enabled(Sharded(r, order), c, e);
    match e
    case Lock(p, t) => LockComesBack(r, order, s, c, p, t);
    case Start(p, t) => StartComesBack(r, order, s, c, p, t);
    case Release(p, t) => ReleaseComesBack(r, order, s, c, p, t);
    case _ =>
      SameGuard(r, order, c, e);
      assert Possible(r, s, Work(e));
  }

  // -------- what follows for a replica

  /** In every run of the machines each execution, at each shard, reads the values of the serial execution. */
  lemma EveryShardReadsSerially(r: Replica, order: seq<Txn>, run: seq<Step>, p: nat, t: Txn)
    requires ValidReplica(r, order) && IsRun(r, run + [Work(Execute(p, t))])
    ensures IsRun(r, run)
    ensures exists i :: 0 <= i < |order| && order[i] == t
              && View(Sharded(r, order), End(r, run).work, p, t) == SerialView(Sharded(r, order), i)
  {
    var w, longer := Sharded(r, order), run + [Work(Execute(p, t))];
    assert Before(longer) == run;
    RunsAreClusterRuns(r, order, run);
    var c := After(w, Abstract(r, run));
    SameGuard(r, order, c, Execute(p, t));
    var i := ReadyIsLocked(w, c, p, t);
    ExecutionSeesSerialReads(w, c, p, i);
    SameView(r, order, c, p, t);
    assert View(w, WithoutLocks(c), p, t) == View(w, c, p, t);
  }

  /** Once all shards have written everything, the records are those of running the agreed order one transaction at a
      time, although no machine locks in that order. */
  lemma ReplicaIsSerial(r: Replica, order: seq<Txn>, run: seq<Step>)
    requires ValidReplica(r, order) && IsRun(r, run) && AllFinished(Sharded(r, order), End(r, run).work)
    ensures End(r, run).work.data == Serial(Sharded(r, order), |order|)
    ensures EndsWith(r.execute, r.initial, order, End(r, run).work.data)
  {
    var w := Sharded(r, order);
    RunsAreClusterRuns(r, order, run);
    var c := After(w, Abstract(r, run));
    forall n: nat, i | n < w.nodes && 0 <= i < |order| && Participates(w, n, order[i]) ensures Finished(w, c, n, order[i]) {
      assert Finished(w, WithoutLocks(c), n, order[i]);
    }
    SerialEquivalence(w, Abstract(r, run));
  }

  /** Machines that cannot go on have finished everything if and only if every shard that only reads is alone. */
  lemma StuckReplicaIsComplete(r: Replica, order: seq<Txn>, run: seq<Step>)
    requires ValidReplica(r, order) && IsRun(r, run) && !CanGoOn(r, End(r, run))
    ensures Complete(Sharded(r, order), End(r, run).work) <==> EveryShardIsFed(Sharded(r, order))
  {
    var w := Sharded(r, order);
    RunsAreClusterRuns(r, order, run);
    var c := After(w, Abstract(r, run));
    if CanStep(w, c) {
      StepsComeBack(r, order, End(r, run), c);
    }
    StuckRunIsComplete(w, Abstract(r, run));
    assert forall t :: ReleasedEverywhere(w, c, t) == ReleasedEverywhere(w, WithoutLocks(c), t);
  }

  /** No run of the machines is longer than the number of events of the shards. */
  lemma ReplicaTerminates(r: Replica, order: seq<Txn>, run: seq<Step>)
    requires ValidReplica(r, order) && IsRun(r, run)
    ensures |run| <= |AllEvents(Sharded(r, order))|
  {
    RunsAreClusterRuns(r, order, run);
    Termination(Sharded(r, order), Abstract(r, run));
  }

  lemma {:induction false} GoOnWithin(r: Replica, run: seq<Step>, limit: nat) returns (full: seq<Step>)
    requires IsRun(r, run) && forall steps :: IsRun(r, steps) ==> |steps| <= limit
    ensures IsRun(r, full) && run <= full && !CanGoOn(r, End(r, full))
    decreases limit - |run|
  {
    if CanGoOn(r, End(r, run)) {
      var e :| Possible(r, End(r, run), e);
      var longer := run + [e];
      assert Before(longer) == run && IsRun(r, longer);
      full := GoOnWithin(r, longer, limit);
    } else {
      full := run;
    }
  }

  /** Nobody holds or waits for a lock at machine `m`. */
  ghost predicate IsUnlocked(s: System, m: nat) {
    m in s.locks && s.locks[m].queues == map[] && s.locks[m].waits == map[]
  }

  lemma NoQueueLeft(r: Replica, order: seq<Txn>, s: System, c: State, m: nat, k: Key)
    requires Simulated(r, order, s, c) && m < r.machines
    requires r.partition(k) == m ==> IsIdle(c, r.number(m, r.master(k)))
    ensures m in s.locks && k !in s.locks[m].queues
  {
    assert MachineInv(r, s, m);
    var q := LockSpec.QueueOf(s.locks[m].queues, k);
    if q != [] {
      InQueue(r, s, m, k, q[0].txn);
      assert InputSound(r, m) && CopyRight(r, q[0].txn);
      KeysAlike(r, m, q[0].txn, order);
      QueuesAlike(r, order, s, c, m, k);
    }
  }

  lemma MachineIsUnlocked(r: Replica, order: seq<Txn>, s: System, c: State, m: nat)
    requires Simulated(r, order, s, c) && m < r.machines && forall n: nat :: n < r.shards ==> IsIdle(c, n)
    ensures IsUnlocked(s, m)
  {
    assert MachineInv(r, s, m);
    forall k ensures k !in s.locks[m].queues {
      assert r.partition(k) == m ==> r.number(m, r.master(k)) < r.shards;
      NoQueueLeft(r, order, s, c, m, k);
    }
    forall t ensures t !in s.locks[m].waits {
      assert Outstanding(s.locks[m].queues, {}, t) == {};
      assert CountExact(s.locks[m].waits, t, Outstanding(s.locks[m].queues, {}, t));
    }
  }

  /** A replica that has released everything everywhere has the records of the agreed order. */
  lemma CompleteReplicaIsSerial(r: Replica, order: seq<Txn>, run: seq<Step>)
    requires ValidReplica(r, order) && IsRun(r, run) && Complete(Sharded(r, order), End(r, run).work)
    ensures End(r, run).work.data == Serial(Sharded(r, order), |order|)
    ensures EndsWith(r.execute, r.initial, order, End(r, run).work.data)
    ensures forall m: nat :: m < r.machines ==> IsUnlocked(End(r, run), m)
  {
    var w := Sharded(r, order);
    RunsAreClusterRuns(r, order, run);
    var c := After(w, Abstract(r, run));
    assert forall t :: ReleasedEverywhere(w, c, t) == ReleasedEverywhere(w, WithoutLocks(c), t);
    CompleteRunIsClean(w, Abstract(r, run));
    SerialEndsWith(w, c.data);
    forall m: nat | m < r.machines ensures IsUnlocked(End(r, run), m) {
      MachineIsUnlocked(r, order, End(r, run), c, m);
    }
  }

  /** Every run of the machines, however far it has come, can be driven to the end; there the records are the serial
      ones, and every lock table is empty. */
  lemma EveryReplicaRunCanFinish(r: Replica, order: seq<Txn>, run: seq<Step>) returns (full: seq<Step>)
    requires ValidReplica(r, order) && IsRun(r, run) && EveryShardIsFed(Sharded(r, order))
    ensures IsRun(r, full) && run <= full && Complete(Sharded(r, order), End(r, full).work)
    ensures EndsWith(r.execute, r.initial, order, End(r, full).work.data)
    ensures forall m: nat :: m < r.machines ==> IsUnlocked(End(r, full), m)
  {
    var w := Sharded(r, order);
    forall steps | IsRun(r, steps) ensures |steps| <= |AllEvents(w)| {
      ReplicaTerminates(r, order, steps);
    }
    full := GoOnWithin(r, run, |AllEvents(w)|);
    StuckReplicaIsComplete(r, order, full);
    CompleteReplicaIsSerial(r, order, full);
  }
}
