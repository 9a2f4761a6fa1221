/** A transaction that lacks the copy for one of its shards never executes at any of them. */
module Stranded {
  import opened Txns
  import opened LockQueue
  import opened LockSpec
  import opened Cluster
  import opened ClusterSafety
  import opened Machines
  import opened MachinesSafety
  import opened MachineRuns

  /** Some machine reads the copy of `t` for the shard `p`. */
  ghost predicate HasCopy(r: Replica, p: nat, t: Txn) {
    exists m: nat, u :: m < r.machines && u in r.inputs(m) && r.ShardOf(m, u) == p && Strip(u) == t
  }

  ghost predicate ReadsCopies(r: Replica, s: System) {
    forall p, t :: (p, t) in s.work.readings ==> HasCopy(r, p, t)
  }

  ghost predicate ReleasedComputed(s: System) {
    forall p, t :: (p, t) in s.work.released ==> (p, t) in s.work.outputs
  }

  /** Shards read for copies they have, hear from shards that have read, and compute when they have heard all. */
  ghost predicate WorkInv(r: Replica, s: System) {
    && ReadsCopies(r, s) && ReleasedComputed(s)
    && DeliveredInv(Sharded(r, []), s.work) && ComputedInv(Sharded(r, []), s.work)
  }

  lemma BeginKeepsWork(r: Replica, s: System, m: nat, u: Txn)
    requires MachinesInv(r, s) && WorkInv(r, s) && Possible(r, s, Begin(m, u))
    ensures WorkInv(r, Do(r, s, Begin(m, u)))
  {
    var w, s' := Sharded(r, []), Do(r, s, Begin(m, u));
    ReadyIsRead(r, s, m, u);
    assert HasCopy(r, r.ShardOf(m, u), Strip(u));
    forall n, t | FullyRead(w, s.work, n, t) ensures FullyRead(w, s'.work, n, t) {
    }
    forall n, t | (n, t) in s'.work.outputs ensures FullyRead(w, s'.work, n, t) && HasAllReads(w, s'.work, n, t) {
      assert FullyRead(w, s.work, n, t) && HasAllReads(w, s.work, n, t);
    }
  }

  lemma EventKeepsWork(r: Replica, s: System, e: Event)
    requires WorkInv(r, s) && Possible(r, s, Work(e))
    ensures WorkInv(r, Do(r, s, Work(e)))
  {
    DeliveredKept(Sharded(r, []), s.work, e);
    ComputedKept(Sharded(r, []), s.work, e);
    var s' := Do(r, s, Work(e));
    forall p, t | (p, t) in s'.work.readings ensures HasCopy(r, p, t) {
      assert (p, t) in s.work.readings;
    }
  }

  lemma FreeKeepsWork(r: Replica, s: System, m: nat, u: Txn)
    requires WorkInv(r, s) && Possible(r, s, Free(m, u))
    ensures WorkInv(r, Do(r, s, Free(m, u)))
  {
    var w, s' := Sharded(r, []), Do(r, s, Free(m, u));
    forall n, t | (n, t) in s'.work.outputs ensures FullyRead(w, s'.work, n, t) && HasAllReads(w, s'.work, n, t) {
      assert FullyRead(w, s.work, n, t) && HasAllReads(w, s.work, n, t);
    }
    forall m, n, t | (m, n, t) in s'.work.delivered ensures FullyRead(w, s'.work, m, t) && Writes(w, n, t) {
      assert (m, n, t) in s.work.delivered && FullyRead(w, s.work, m, t);
    }
  }

  lemma {:induction false} RunKeepsWork(r: Replica, run: seq<Step>)
    requires Sound(r) && IsRun(r, run)
    ensures WorkInv(r, End(r, run))
  {
    if run != [] {
      var s := End(r, Before(run));
      RunKeepsWork(r, Before(run));
      RunKeepsMachines(r, Before(run));
      match run[|run| - 1]
      case LockNext(m) => assert Do(r, s, LockNext(m)).work == s.work;
      case Begin(m, u) => BeginKeepsWork(r, s, m, u);
      case Work(e) => EventKeepsWork(r, s, e);
      case Free(m, u) => FreeKeepsWork(r, s, m, u);
    }
  }

  /** Where a transaction has been computed, all its shards have their copies. */
  lemma ComputedHasCopies(r: Replica, s: System, p: nat, t: Txn, q: nat)
    requires WorkInv(r, s) && (p, t) in s.work.outputs && q < r.shards && Participates(Sharded(r, []), q, t)
    ensures HasCopy(r, q, t)
  {
    var w := Sharded(r, []);
    assert FullyRead(w, s.work, p, t) && HasAllReads(w, s.work, p, t);
    assert p != q ==> (q, p, t) in s.work.delivered;
    assert FullyRead(w, s.work, q, t);
  }

  /** Without the copy for shard `q`, in no run does any shard of the transaction compute it, or release its locks. */
  lemma NeverWithoutCopy(r: Replica, run: seq<Step>, q: nat, t: Txn, p: nat)
    requires Sound(r) && IsRun(r, run) && q < r.shards
    requires Participates(Sharded(r, []), q, t) && !HasCopy(r, q, t)
    ensures (p, t) !in End(r, run).work.outputs && (p, t) !in End(r, run).work.released
  {
    RunKeepsWork(r, run);
    if (p, t) in End(r, run).work.outputs {
      ComputedHasCopies(r, End(r, run), p, t, q);
    }
  }
}
