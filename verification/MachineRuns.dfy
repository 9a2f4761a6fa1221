/** The simulation: with one lock manager for all origins a machine grants exactly what its shards would be granted. */
module MachineRuns {
  import opened Filters
  import opened Txns
  import opened LockQueue
  import opened LockSpec
  import opened Cluster
  import opened ClusterSafety
  import opened ClusterProgress
  import opened Machines
  import opened MachinesSafety

  predicate IsFreed(r: Replica, s: System, m: nat, u: Txn) {
    (r.ShardOf(m, u), Strip(u)) in s.work.released
  }

  ghost function GoneAt(r: Replica, s: System, m: nat): set<(Txn, Key)> {
    set u, k | u in r.inputs(m) && IsFreed(r, s, m, u) && k in Keys(r.Config(m), u) :: (u, k)
  }

  ghost predicate MachineInv(r: Replica, s: System, m: nat) {
    && m in s.locks && m in s.next && s.next[m] <= |r.inputs(m)|
    && Inv(r.Config(m), r.inputs(m)[..s.next[m]], GoneAt(r, s, m), {}, s.locks[m])
  }

  /** A shard has locked what its machine has locked for the shard's origin. */
  ghost predicate NextAgrees(r: Replica, s: System, c: State, m: nat, a: nat) {
    && r.number(m, a) in c.next && m in s.next && s.next[m] <= |r.inputs(m)|
    && c.next[r.number(m, a)] == |Shared(r.inputs(m)[..s.next[m]], a)|
  }

  /** Every machine keeps its locks exactly, whatever the order in which it reads copies. */
  ghost predicate MachinesInv(r: Replica, s: System) {
    && Sound(r) && (forall m: nat :: m in s.locks || m in s.next ==> m < r.machines)
    && (forall m: nat :: m < r.machines ==> MachineInv(r, s, m))
  }

  ghost predicate Related(r: Replica, s: System, c: State) {
    && s.work == WithoutLocks(c)
    && (forall m: nat, a: nat :: m < r.machines && a < r.origins ==> NextAgrees(r, s, c, m, a))
  }

  ghost predicate Simulated(r: Replica, order: seq<Txn>, s: System, c: State) {
    ValidReplica(r, order) && MachinesInv(r, s) && ClusterInv(Sharded(r, order), c) && Related(r, s, c)
  }

  // -------- the same transactions are ready

  lemma GoneAtMembers(r: Replica, s: System, m: nat, u: Txn, k: Key)
    ensures (u, k) in GoneAt(r, s, m) <==> u in r.inputs(m) && IsFreed(r, s, m, u) && k in Keys(r.Config(m), u)
  {
  }

  lemma LockedAgree(r: Replica, order: seq<Txn>, s: System, c: State, m: nat, a: nat)
    requires Simulated(r, order, s, c) && m < r.machines && a < r.origins
    ensures m in s.next && s.next[m] <= |r.inputs(m)| && NodeInv(Sharded(r, order), c, r.number(m, a))
    ensures Shared(r.inputs(m)[..s.next[m]], a)
            == Input(Sharded(r, order), r.number(m, a))[..c.next[r.number(m, a)]]
  {
    assert MachineInv(r, s, m) && NextAgrees(r, s, c, m, a) && InputAgrees(r, order, m);
    assert NodeInv(Sharded(r, order), c, r.number(m, a));
    SharedPrefix(r.inputs(m)[..s.next[m]], r.inputs(m), a);
  }

  lemma CopiesAreRight(r: Replica, m: nat, locked: seq<Txn>)
    requires InputSound(r, m) && locked <= r.inputs(m)
    ensures forall u :: u in locked ==> u.origin < r.origins && MastersRight(r, Strip(u))
  {
    forall u | u in locked ensures u.origin < r.origins && MastersRight(r, Strip(u)) {
      assert u in r.inputs(m) && CopyRight(r, u);
    }
  }

  lemma GoneAgrees(r: Replica, order: seq<Txn>, s: System, c: State, m: nat, k: Key)
    requires Sound(r) && s.work == WithoutLocks(c) && m < r.machines && r.partition(k) == m
    ensures GoneAlike(r.inputs(m), r.master(k), k, GoneAt(r, s, m), Gone(Sharded(r, order), c, r.number(m, r.master(k))))
  {
    var w, a := Sharded(r, order), r.master(k);
    forall u | u in r.inputs(m) && u.origin == a
      ensures (u, k) in GoneAt(r, s, m) <==> (Strip(u), k) in Gone(w, c, r.number(m, a))
    {
      assert InputSound(r, m) && CopyRight(r, u);
      GoneAtMembers(r, s, m, u, k);
      GoneMembers(w, c, r.number(m, a), Strip(u), k);
      KeysAlike(r, m, u, order);
    }
  }

  lemma QueuesAlike(r: Replica, order: seq<Txn>, s: System, c: State, m: nat, k: Key)
    requires Simulated(r, order, s, c) && m < r.machines && r.partition(k) == m
    ensures m in s.locks && r.number(m, r.master(k)) in c.locks
    ensures Renamed(LockSpec.QueueOf(s.locks[m].queues, k)) == LockSpec.QueueOf(c.locks[r.number(m, r.master(k))].queues, k)
  {
    LockedAgree(r, order, s, c, m, r.master(k));
    assert MachineInv(r, s, m);
    var locked := r.inputs(m)[..s.next[m]];
    assert InputSound(r, m);
    CopiesAreRight(r, m, locked);
    GoneAgrees(r, order, s, c, m, k);
    ProjectAlike(r, order, m, locked, k, GoneAt(r, s, m), Gone(Sharded(r, order), c, r.number(m, r.master(k))));
  }

  /** A request in the queue of a record of a machine is of a copy that was locked there and has the record. */
  lemma InQueue(r: Replica, s: System, m: nat, k: Key, u: Txn)
    requires MachineInv(r, s, m) && Find(LockSpec.QueueOf(s.locks[m].queues, k), u) < |LockSpec.QueueOf(s.locks[m].queues, k)|
    ensures u in r.inputs(m) && k in Keys(r.Config(m), u)
  {
    ProjectSound(r.Config(m), r.inputs(m)[..s.next[m]], GoneAt(r, s, m), k);
  }

  lemma BlockedAlike(r: Replica, order: seq<Txn>, s: System, c: State, m: nat, u: Txn, k: Key)
    requires Simulated(r, order, s, c) && m < r.machines && u in r.inputs(m)
    requires r.partition(k) == m && r.master(k) == u.origin
    ensures m in s.locks && r.ShardOf(m, u) in c.locks
    ensures Blocked(LockSpec.QueueOf(s.locks[m].queues, k), u)
            <==> Blocked(LockSpec.QueueOf(c.locks[r.ShardOf(m, u)].queues, k), Strip(u))
  {
    QueuesAlike(r, order, s, c, m, k);
    var q := LockSpec.QueueOf(s.locks[m].queues, k);
    forall i | 0 <= i < |q| && Strip(q[i].txn) == Strip(u) ensures q[i].txn == u {
      assert MachineInv(r, s, m);
      ProjectSound(r.Config(m), r.inputs(m)[..s.next[m]], GoneAt(r, s, m), k);
      assert InputSound(r, m) && CopyRight(r, q[i].txn);
      KeysAlike(r, m, q[i].txn, order);
      CopyIsKnown(r, m, q[i].txn, u);
    }
    BlockedRenamed(q, u);
  }

  /** At the machine and at its shard a transaction waits for the same records. */
  lemma WaitingAlike(r: Replica, order: seq<Txn>, s: System, c: State, m: nat, u: Txn)
    requires Simulated(r, order, s, c) && m < r.machines && u in r.inputs(m)
    ensures m in s.locks && r.ShardOf(m, u) in c.locks
    ensures Waiting(s.locks[m].queues, u) == Waiting(c.locks[r.ShardOf(m, u)].queues, Strip(u))
  {
    var p, w := r.ShardOf(m, u), Sharded(r, order);
    assert InputSound(r, m) && CopyRight(r, u);
    KeysAlike(r, m, u, order);
    LockedAgree(r, order, s, c, m, u.origin);
    assert MachineInv(r, s, m);
    forall k ensures k in Waiting(s.locks[m].queues, u) <==> k in Waiting(c.locks[p].queues, Strip(u)) {
      if k in Waiting(s.locks[m].queues, u) {
        InQueue(r, s, m, k, u);
        BlockedAlike(r, order, s, c, m, u, k);
      } else if k in Waiting(c.locks[p].queues, Strip(u)) {
        InNodeQueue(w, c, p, k, Strip(u));
        BlockedAlike(r, order, s, c, m, u, k);
      }
    }
  }

  lemma InNodeQueue(w: World, c: State, p: nat, k: Key, t: Txn)
    requires NodeInv(w, c, p) && Find(LockSpec.QueueOf(c.locks[p].queues, k), t) < |LockSpec.QueueOf(c.locks[p].queues, k)|
    ensures k in Keys(w.Config(p), t)
  {
    ProjectSound(w.Config(p), Input(w, p)[..c.next[p]], Gone(w, c, p), k);
  }

  lemma LockedAlike(r: Replica, m: nat, n: nat, u: Txn)
    requires InputSound(r, m) && u in r.inputs(m) && n <= |r.inputs(m)|
    ensures u in r.inputs(m)[..n] <==> Strip(u) in Shared(r.inputs(m)[..n], u.origin)
  {
    var locked := r.inputs(m)[..n];
    var picked := Filter(locked, OfOrigin(u.origin));
    FilterHas(locked, OfOrigin(u.origin), u);
    if u in locked {
      var i :| 0 <= i < |picked| && picked[i] == u;
      assert Stripped(picked)[i] == Strip(u);
    }
    if Strip(u) in Stripped(picked) {
      var i :| 0 <= i < |picked| && Stripped(picked)[i] == Strip(u);
      FilterHas(locked, OfOrigin(u.origin), picked[i]);
      CopyIsKnown(r, m, picked[i], u);
    }
  }

  lemma NothingLost(queues: map<Key, Queue>, t: Txn)
    ensures Outstanding(queues, {}, t) == Waiting(queues, t)
  {
  }

  /** A copy is ready at its machine exactly when the transaction is ready at the shard. */
  lemma ReadyAlike(r: Replica, order: seq<Txn>, s: System, c: State, m: nat, u: Txn)
    requires Simulated(r, order, s, c) && m < r.machines && u in r.inputs(m)
    ensures m in s.locks && r.ShardOf(m, u) in c.locks
    ensures u in s.locks[m].ready <==> Strip(u) in c.locks[r.ShardOf(m, u)].ready
  {
    var p := r.ShardOf(m, u);
    assert InputSound(r, m) && CopyRight(r, u);
    WaitingAlike(r, order, s, c, m, u);
    LockedAgree(r, order, s, c, m, u.origin);
    LockedAlike(r, m, s.next[m], u);
    assert MachineInv(r, s, m);
    NothingLost(s.locks[m].queues, u);
    NothingLost(c.locks[p].queues, Strip(u));
  }

  // -------- steps

  /** The step of the cluster that a step of a machine is. */
  ghost function Lifted(r: Replica, s: System, e: Step): Event
    requires Possible(r, s, e)
  {
    match e
    case LockNext(m) => Event.Lock(r.ShardOf(m, r.inputs(m)[s.next[m]]), Strip(r.inputs(m)[s.next[m]]))
    case Begin(m, u) => Start(r.ShardOf(m, u), Strip(u))
    case Work(event) => event
    case Free(m, u) => Release(r.ShardOf(m, u), Strip(u))
  }

  lemma SameView(r: Replica, order: seq<Txn>, c: State, n: nat, t: Txn)
    ensures View(Sharded(r, []), WithoutLocks(c), n, t) == View(Sharded(r, order), c, n, t)
    ensures HasAllReads(Sharded(r, []), WithoutLocks(c), n, t) <==> HasAllReads(Sharded(r, order), c, n, t)
    ensures FullyRead(Sharded(r, []), WithoutLocks(c), n, t) <==> FullyRead(Sharded(r, order), c, n, t)
  {
    var w, v := Sharded(r, []), Sharded(r, order);
    assert forall m :: w.Config(m) == v.Config(m);
    assert forall m :: Participates(w, m, t) == Participates(v, m, t);
  }

  /** What shards do with records does not depend on the order, nor on how locks are kept. */
  lemma SameGuard(r: Replica, order: seq<Txn>, c: State, e: Event)
    requires IsWork(e)
    ensures Enabled(Sharded(r, []), WithoutLocks(c), e) <==> Enabled(Sharded(r, order), c, e)
  {
    assert forall m :: Sharded(r, []).Config(m) == Sharded(r, order).Config(m);
    match e
    case Deliver(m, n, t) => SameView(r, order, c, m, t);
    case Execute(n, t) => SameView(r, order, c, n, t);
    case _ =>
  }

  lemma SameEffect(r: Replica, order: seq<Txn>, c: State, e: Event)
    requires IsWork(e) && Enabled(Sharded(r, []), WithoutLocks(c), e) && Enabled(Sharded(r, order), c, e)
    ensures var c' := Apply(Sharded(r, order), c, e);
            && Apply(Sharded(r, []), WithoutLocks(c), e) == WithoutLocks(c')
            && c'.locks == c.locks && c'.next == c.next && c'.released == c.released
  {
    if e.Execute? {
      SameView(r, order, c, e.n, e.t);
    }
  }

  lemma ReadyIsRead(r: Replica, s: System, m: nat, u: Txn)
    requires MachinesInv(r, s) && m in s.locks && u in s.locks[m].ready
    ensures m < r.machines && u in r.inputs(m) && CopyRight(r, u) && r.ShardOf(m, u) < r.shards
  {
    assert MachineInv(r, s, m) && InputSound(r, m);
  }

  lemma FinishedIsTheSame(r: Replica, order: seq<Txn>, c: State, n: nat, t: Txn)
    ensures Finished(Sharded(r, []), WithoutLocks(c), n, t) <==> Finished(Sharded(r, order), c, n, t)
  {
    assert Sharded(r, []).Config(n) == Sharded(r, order).Config(n);
  }

  lemma NextIsNew(r: Replica, s: System, m: nat)
    requires MachinesInv(r, s) && Possible(r, s, LockNext(m))
    ensures var locked, u := r.inputs(m)[..s.next[m]], r.inputs(m)[s.next[m]];
            && m < r.machines && CopyRight(r, u) && u !in locked && NoDuplicates(locked + [u])
            && r.inputs(m)[..s.next[m] + 1] == locked + [u]
  {
    assert MachineInv(r, s, m) && InputSound(r, m);
    InputsDistinct(r, m);
    assert r.inputs(m)[s.next[m]] in r.inputs(m);
    assert r.inputs(m)[..s.next[m] + 1] == r.inputs(m)[..s.next[m]] + [r.inputs(m)[s.next[m]]];
  }

  /** The next copy a machine locks is the next of its shard. */
  lemma NextIsNext(r: Replica, order: seq<Txn>, s: System, c: State, m: nat)
    requires Simulated(r, order, s, c) && Possible(r, s, LockNext(m))
    ensures var u := r.inputs(m)[s.next[m]];
            && m < r.machines && CopyRight(r, u)
            && Enabled(Sharded(r, order), c, Event.Lock(r.ShardOf(m, u), Strip(u)))
            && Shared(r.inputs(m)[..s.next[m] + 1], u.origin) == Shared(r.inputs(m)[..s.next[m]], u.origin) + [Strip(u)]
  {
    var n, u := s.next[m], r.inputs(m)[s.next[m]];
    NextIsNew(r, s, m);
    LockedAgree(r, order, s, c, m, u.origin);
    SharedMore(r.inputs(m)[..n], u, u.origin);
    SharedPrefix(r.inputs(m)[..n + 1], r.inputs(m), u.origin);
    assert InputAgrees(r, order, m) && NextAgrees(r, s, c, m, u.origin);
  }

  lemma MachineFrame(r: Replica, s: System, s': System, m: nat)
    requires MachineInv(r, s, m) && m in s'.locks && m in s'.next
    requires s'.locks[m] == s.locks[m] && s'.next[m] == s.next[m]
    requires forall u :: u in r.inputs(m) ==> IsFreed(r, s', m, u) == IsFreed(r, s, m, u)
    ensures MachineInv(r, s', m)
  {
    forall u, k ensures (u, k) in GoneAt(r, s', m) <==> (u, k) in GoneAt(r, s, m) {
      GoneAtMembers(r, s, m, u, k);
      GoneAtMembers(r, s', m, u, k);
    }
    assert GoneAt(r, s', m) == GoneAt(r, s, m);
  }

  lemma SameGone(r: Replica, s: System, s': System, m: nat)
    requires s'.work == s.work
    ensures GoneAt(r, s', m) == GoneAt(r, s, m)
  {
    forall u, k ensures (u, k) in GoneAt(r, s', m) <==> (u, k) in GoneAt(r, s, m) {
      GoneAtMembers(r, s, m, u, k);
      GoneAtMembers(r, s', m, u, k);
    }
  }

  lemma LockKeepsMachine(r: Replica, s: System, m: nat)
    requires MachineInv(r, s, m) && Possible(r, s, LockNext(m)) && DistinctKeys(r.inputs(m)[s.next[m]])
    requires NoDuplicates(r.inputs(m)[..s.next[m]] + [r.inputs(m)[s.next[m]]])
    requires r.inputs(m)[s.next[m]] !in r.inputs(m)[..s.next[m]]
    ensures MachineInv(r, Do(r, s, LockNext(m)), m)
  {
    var locked, u := r.inputs(m)[..s.next[m]], r.inputs(m)[s.next[m]];
    assert r.inputs(m)[..s.next[m] + 1] == locked + [u];
    SameGone(r, s, Do(r, s, LockNext(m)), m);
    LockKeepsInv(r.Config(m), locked, GoneAt(r, s, m), {}, s.locks[m], u);
  }

  lemma LockKeepsMachines(r: Replica, s: System, m: nat)
    requires MachinesInv(r, s) && Possible(r, s, LockNext(m))
    ensures MachinesInv(r, Do(r, s, LockNext(m)))
  {
    NextIsNew(r, s, m);
    forall n: nat | n < r.machines ensures MachineInv(r, Do(r, s, LockNext(m)), n) {
      assert MachineInv(r, s, n);
      if n == m {
        LockKeepsMachine(r, s, m);
      } else {
        MachineFrame(r, s, Do(r, s, LockNext(m)), n);
      }
    }
  }

  lemma FreeKeepsMachine(r: Replica, s: System, m: nat, u: Txn)
    requires MachinesInv(r, s) && Possible(r, s, Free(m, u))
    ensures MachineInv(r, Do(r, s, Free(m, u)), m)
  {
    var s' := Do(r, s, Free(m, u));
    ReadyIsRead(r, s, m, u);
    assert MachineInv(r, s, m) && InputSound(r, m);
    var locked := r.inputs(m)[..s.next[m]];
    forall k ensures (u, k) !in GoneAt(r, s, m) {
      GoneAtMembers(r, s, m, u, k);
    }
    ReleaseKeepsInv(r.Config(m), locked, GoneAt(r, s, m), {}, s.locks[m], u);
    forall v, k ensures (v, k) in GoneAt(r, s', m) <==> (v, k) in GoneWith(r.Config(m), GoneAt(r, s, m), u) {
      GoneAtMembers(r, s, m, v, k);
      GoneAtMembers(r, s', m, v, k);
      if v in r.inputs(m) && r.ShardOf(m, v) == r.ShardOf(m, u) && Strip(v) == Strip(u) {
        assert CopyRight(r, v);
        CopyIsKnown(r, m, v, u);
      }
    }
    assert GoneAt(r, s', m) == GoneWith(r.Config(m), GoneAt(r, s, m), u);
  }

  lemma FreeLeavesOthers(r: Replica, s: System, m: nat, u: Txn, n: nat)
    requires MachinesInv(r, s) && Possible(r, s, Free(m, u)) && n < r.machines && n != m
    ensures MachineInv(r, Do(r, s, Free(m, u)), n)
  {
    var s' := Do(r, s, Free(m, u));
    ReadyIsRead(r, s, m, u);
    assert MachineInv(r, s, n) && InputSound(r, n);
    forall v | v in r.inputs(n) ensures IsFreed(r, s', n, v) == IsFreed(r, s, n, v) {
      assert CopyRight(r, v);
    }
    MachineFrame(r, s, s', n);
  }

  lemma FreeKeepsMachines(r: Replica, s: System, m: nat, u: Txn)
    requires MachinesInv(r, s) && Possible(r, s, Free(m, u))
    ensures MachinesInv(r, Do(r, s, Free(m, u)))
  {
    ReadyIsRead(r, s, m, u);
    forall n: nat | n < r.machines ensures MachineInv(r, Do(r, s, Free(m, u)), n) {
      if n == m {
        FreeKeepsMachine(r, s, m, u);
      } else {
        FreeLeavesOthers(r, s, m, u, n);
      }
    }
  }

  lemma SameLocksKeepMachines(r: Replica, s: System, s': System)
    requires MachinesInv(r, s) && s'.locks == s.locks && s'.next == s.next && s'.work.released == s.work.released
    ensures MachinesInv(r, s')
  {
    forall n: nat | n < r.machines ensures MachineInv(r, s', n) {
      MachineFrame(r, s, s', n);
    }
  }

  /** Whatever the inputs, so long as they hold no copy twice, the machines keep their locks exactly. */
  lemma StepKeepsMachines(r: Replica, s: System, e: Step)
    requires MachinesInv(r, s) && Possible(r, s, e)
    ensures MachinesInv(r, Do(r, s, e))
  {
    match e
    case LockNext(m) => LockKeepsMachines(r, s, m);
    case Free(m, u) => FreeKeepsMachines(r, s, m, u);
    case _ => SameLocksKeepMachines(r, s, Do(r, s, e));
  }

  lemma StartKeepsMachines(r: Replica)
    requires Sound(r)
    ensures MachinesInv(r, StartUp(r))
  {
    var s := StartUp(r);
    forall m: nat | m < r.machines ensures MachineInv(r, s, m) {
      assert IsMachine(r, m);
      InvInit(r.Config(m));
      assert r.inputs(m)[..0] == [];
      assert GoneAt(r, s, m) == {};
    }
  }

  lemma {:induction false} RunKeepsMachines(r: Replica, run: seq<Step>)
    requires Sound(r) && IsRun(r, run)
    ensures MachinesInv(r, End(r, run))
  {
    if run == [] {
      StartKeepsMachines(r);
    } else {
      RunKeepsMachines(r, Before(run));
      StepKeepsMachines(r, End(r, Before(run)), run[|run| - 1]);
    }
  }

  // -------- the simulation

  lemma LockKeepsNext(r: Replica, order: seq<Txn>, s: System, c: State, m: nat, n: nat, a: nat)
    requires Simulated(r, order, s, c) && Possible(r, s, LockNext(m)) && n < r.machines && a < r.origins
    requires Enabled(Sharded(r, order), c, Lifted(r, s, LockNext(m)))
    ensures NextAgrees(r, Do(r, s, LockNext(m)), Apply(Sharded(r, order), c, Lifted(r, s, LockNext(m))), n, a)
  {
    var u := r.inputs(m)[s.next[m]];
    NextIsNext(r, order, s, c, m);
    assert NextAgrees(r, s, c, n, a);
    if n == m && a != u.origin {
      assert r.inputs(m)[..s.next[m] + 1] == r.inputs(m)[..s.next[m]] + [u];
      SharedMore(r.inputs(m)[..s.next[m]], u, a);
    }
  }

  lemma LockNextStep(r: Replica, order: seq<Txn>, s: System, c: State, m: nat)
    requires Simulated(r, order, s, c) && Possible(r, s, LockNext(m))
    ensures Enabled(Sharded(r, order), c, Lifted(r, s, LockNext(m)))
    ensures Related(r, Do(r, s, LockNext(m)), Apply(Sharded(r, order), c, Lifted(r, s, LockNext(m))))
  {
    NextIsNext(r, order, s, c, m);
    forall n: nat, a: nat | n < r.machines && a < r.origins
      ensures NextAgrees(r, Do(r, s, LockNext(m)), Apply(Sharded(r, order), c, Lifted(r, s, LockNext(m))), n, a)
    {
      LockKeepsNext(r, order, s, c, m, n, a);
    }
  }

  lemma SameNextRelated(r: Replica, s: System, s': System, c: State, c': State)
    requires Related(r, s, c) && s'.next == s.next && c'.next == c.next && s'.work == WithoutLocks(c')
    ensures Related(r, s', c')
  {
    forall n: nat, a: nat | n < r.machines && a < r.origins ensures NextAgrees(r, s', c', n, a) {
      assert NextAgrees(r, s, c, n, a);
    }
  }

  lemma BeginStep(r: Replica, order: seq<Txn>, s: System, c: State, m: nat, u: Txn)
    requires Simulated(r, order, s, c) && Possible(r, s, Begin(m, u))
    ensures var e := Start(r.ShardOf(m, u), Strip(u));
            Enabled(Sharded(r, order), c, e) && Related(r, Do(r, s, Begin(m, u)), Apply(Sharded(r, order), c, e))
  {
    ReadyIsRead(r, s, m, u);
    ReadyAlike(r, order, s, c, m, u);
    SameNextRelated(r, s, Do(r, s, Begin(m, u)), c, Apply(Sharded(r, order), c, Start(r.ShardOf(m, u), Strip(u))));
  }

  lemma WorkStep(r: Replica, order: seq<Txn>, s: System, c: State, e: Event)
    requires Simulated(r, order, s, c) && Possible(r, s, Work(e))
    ensures Enabled(Sharded(r, order), c, e) && Related(r, Do(r, s, Work(e)), Apply(Sharded(r, order), c, e))
  {
    SameGuard(r, order, c, e);
    SameEffect(r, order, c, e);
    SameNextRelated(r, s, Do(r, s, Work(e)), c, Apply(Sharded(r, order), c, e));
  }

  lemma FreeStep(r: Replica, order: seq<Txn>, s: System, c: State, m: nat, u: Txn)
    requires Simulated(r, order, s, c) && Possible(r, s, Free(m, u))
    ensures var e := Release(r.ShardOf(m, u), Strip(u));
            Enabled(Sharded(r, order), c, e) && Related(r, Do(r, s, Free(m, u)), Apply(Sharded(r, order), c, e))
  {
    var p, w := r.ShardOf(m, u), Sharded(r, order);
    ReadyIsRead(r, s, m, u);
    FinishedIsTheSame(r, order, c, p, Strip(u));
    FinishedCanRelease(w, c, p, Strip(u));
    SameNextRelated(r, s, Do(r, s, Free(m, u)), c, Apply(w, c, Release(p, Strip(u))));
  }

  /** Every step of a machine is a step of its shards. */
  lemma StepSimulates(r: Replica, order: seq<Txn>, s: System, c: State, e: Step)
    requires Simulated(r, order, s, c) && Possible(r, s, e)
    ensures Enabled(Sharded(r, order), c, Lifted(r, s, e))
    ensures Simulated(r, order, Do(r, s, e), Apply(Sharded(r, order), c, Lifted(r, s, e)))
  {
    StepKeepsMachines(r, s, e);
    match e {
      case LockNext(m) => LockNextStep(r, order, s, c, m);
      case Begin(m, u) => BeginStep(r, order, s, c, m, u);
      case Work(event) => WorkStep(r, order, s, c, event);
      case Free(m, u) => FreeStep(r, order, s, c, m, u);
    }
    ClusterSafety.StepKeepsInv(Sharded(r, order), c, Lifted(r, s, e));
  }

  lemma StartSimulates(r: Replica, order: seq<Txn>)
    requires ValidReplica(r, order)
    ensures Simulated(r, order, StartUp(r), Init(Sharded(r, order)))
  {
    var s, c := StartUp(r), Init(Sharded(r, order));
    InitInv(Sharded(r, order));
    ValidIsSound(r, order);
    StartKeepsMachines(r);
    forall m: nat, a: nat | m < r.machines && a < r.origins ensures NextAgrees(r, s, c, m, a) {
      assert IsNode(Sharded(r, order), r.number(m, a)) && IsMachine(r, m);
      assert r.inputs(m)[..0] == [];
    }
  }

  /** The run of the cluster that a run of the machines is. */
  ghost function Abstract(r: Replica, run: seq<Step>): (es: seq<Event>)
    requires IsRun(r, run)
    ensures |es| == |run|
  {
    if run == [] then [] else Abstract(r, Before(run)) + [Lifted(r, End(r, Before(run)), run[|run| - 1])]
  }

  /** Every run of a replica's machines is a run of the cluster with one node for each shard, and does the same to the
      records. */
  lemma {:induction false} RunsAreClusterRuns(r: Replica, order: seq<Txn>, run: seq<Step>)
    requires ValidReplica(r, order) && IsRun(r, run)
    ensures ValidRun(Sharded(r, order), Abstract(r, run))
    ensures Simulated(r, order, End(r, run), After(Sharded(r, order), Abstract(r, run)))
    ensures End(r, run).work == WithoutLocks(After(Sharded(r, order), Abstract(r, run)))
  {
    if run == [] {
      StartSimulates(r, order);
    } else {
      var init, es := Before(run), Abstract(r, Before(run));
      RunsAreClusterRuns(r, order, init);
      StepSimulates(r, order, End(r, init), After(Sharded(r, order), es), run[|run| - 1]);
      assert Abstract(r, run)[..|run| - 1] == es;
    }
  }
}
