/** One replica in mode 1: each machine has one lock manager for the transactions of all origins, and runs a shard of a
    transaction for every origin that masters some of its records there. */
module Machines {
  import opened Txns
  import opened LockSpec
  import opened Cluster

  /** `inputs(m)` is what the scheduler of machine `m` reads, in the order of the replica's global log; `number` gives
      each shard, by machine and origin, a number below `shards`. Masters never change in this mode. */
  datatype Replica = Replica(machines: nat, origins: nat, partition: Key -> nat, master: Key -> nat, shards: nat,
                             number: (nat, nat) -> nat, inputs: nat -> seq<Txn>, initial: Store,
                             execute: (Txn, Store) -> Store)
  {
    function Config(m: nat): NodeConfig {
      NodeConfig(1, m, partition)
    }

    /** The shard that stores a record. */
    function Place(): Key -> nat {
      k => number(partition(k), master(k))
    }

    function ShardOf(m: nat, u: Txn): nat {
      number(m, u.origin)
    }
  }

  /** The shards as nodes of their own that agree on `order`. */
  function Sharded(r: Replica, order: seq<Txn>): World {
    World(r.shards, r.Place(), order, r.initial, r.execute)
  }

  /** One lock manager for each machine; `work` is what the shards do, which has locks of its own in `Cluster` only. */
  datatype System = System(locks: map<nat, LockState>, next: map<nat, nat>, work: State)

  datatype Step =
    | LockNext(m: nat)
    | Begin(m: nat, u: Txn)
    | Work(event: Event)
    | Free(m: nat, u: Txn)

  predicate IsMachine(r: Replica, m: nat) {
    m < r.machines
  }

  function WithoutLocks(s: State): State {
    s.(locks := map[], next := map[])
  }

  ghost function StartUp(r: Replica): System {
    System(map m: nat | m < r.machines && IsMachine(r, m) :: Empty, map m: nat | m < r.machines && IsMachine(r, m) :: 0,
           WithoutLocks(Init(Sharded(r, []))))
  }

  predicate IsWork(e: Event) {
    e.Read? || e.Deliver? || e.Execute? || e.Write?
  }

  ghost predicate Possible(r: Replica, s: System, e: Step) {
    match e
    case LockNext(m) => m in s.next && m in s.locks && s.next[m] < |r.inputs(m)|
    case Begin(m, u) => m in s.locks && u in s.locks[m].ready && (r.ShardOf(m, u), Strip(u)) !in s.work.readings
    case Work(event) => IsWork(event) && Enabled(Sharded(r, []), s.work, event)
    case Free(m, u) =>
      && m in s.locks && u in s.locks[m].ready
      && Finished(Sharded(r, []), s.work, r.ShardOf(m, u), Strip(u)) && (r.ShardOf(m, u), Strip(u)) !in s.work.released
      && Releasable(s.locks[m], Held(r.Config(m), u))
  }

  ghost function Do(r: Replica, s: System, e: Step): System
    requires Possible(r, s, e)
  {
    match e
    case LockNext(m) =>
      s.(locks := s.locks[m := LockOp(r.Config(m), s.locks[m], r.inputs(m)[s.next[m]]).0],
         next := s.next[m := s.next[m] + 1])
    case Begin(m, u) => s.(work := s.work.(readings := s.work.readings[(r.ShardOf(m, u), Strip(u)) := map[]]))
    case Work(event) => s.(work := Apply(Sharded(r, []), s.work, event))
    case Free(m, u) =>
      s.(locks := s.locks[m := ReleaseAll(s.locks[m], Held(r.Config(m), u), u)],
         work := s.work.(released := s.work.released + {(r.ShardOf(m, u), Strip(u))}))
  }

  function Before(run: seq<Step>): seq<Step>
    requires run != []
  {
    run[..|run| - 1]
  }

  ghost predicate IsRun(r: Replica, run: seq<Step>)
    decreases |run|, 0
  {
    run == [] || (IsRun(r, Before(run)) && Possible(r, End(r, Before(run)), run[|run| - 1]))
  }

  ghost function End(r: Replica, run: seq<Step>): System
    requires IsRun(r, run)
    decreases |run|, 1
  {
    if run == [] then StartUp(r) else Do(r, End(r, Before(run)), run[|run| - 1])
  }
}
