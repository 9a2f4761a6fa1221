/** Whole runs of one lock manager, in any mode: Lock calls on new transactions mixed with the release of
    locked ones, whether they have become ready or are cancelled while they wait. */
module LockRuns {
  import opened Txns
  import opened LockQueue
  import opened LockSpec

  datatype Op = Lock(txn: Txn) | Release(txn: Txn)

  type Run = seq<Op>

  /** The transactions locked by a run, in Lock order. */
  function Locked(ops: Run): seq<Txn> {
    if ops == [] then
      []
    else
      var op := ops[|ops| - 1];
      Locked(ops[..|ops| - 1]) + if op.Lock? then [op.txn] else []
  }

  /** The requests released by a run. */
  ghost function Gone(cfg: NodeConfig, ops: Run): set<(Txn, Key)> {
    if ops == [] then
      {}
    else
      var op := ops[|ops| - 1];
      var before := Gone(cfg, ops[..|ops| - 1]);
      if op.Release? then GoneWith(cfg, before, op.txn) else before
  }

  /** The requests released before they were granted. */
  ghost function Lost(cfg: NodeConfig, ops: Run): set<(Txn, Key)>
    requires ValidRun(cfg, ops)
    decreases |ops|, 2
  {
    if ops == [] then
      {}
    else
      match Last(ops)
      case Lock(_) => Lost(cfg, Before(ops))
      case Release(t) => LostAll(After(cfg, Before(ops)), Lost(cfg, Before(ops)), Held(cfg, t), t)
  }

  ghost predicate Allowed(cfg: NodeConfig, ops: Run, s: LockState, op: Op) {
    match op
    case Lock(t) => t !in Locked(ops) && DistinctKeys(t)
    case Release(t) => t in Locked(ops) && Op.Release(t) !in ops && Releasable(s, Held(cfg, t))
  }

  ghost predicate ValidRun(cfg: NodeConfig, ops: Run)
    decreases |ops|, 0
  {
    ops == [] || (ValidRun(cfg, Before(ops)) && Allowed(cfg, Before(ops), After(cfg, Before(ops)), Last(ops)))
  }

  function Before(ops: Run): Run
    requires ops != []
  {
    ops[..|ops| - 1]
  }

  function Last(ops: Run): Op
    requires ops != []
  {
    ops[|ops| - 1]
  }

  ghost function After(cfg: NodeConfig, ops: Run): LockState
    requires ValidRun(cfg, ops)
    decreases |ops|, 1
  {
    if ops == [] then
      Empty
    else
      match Last(ops)
      case Lock(t) => LockOp(cfg, After(cfg, Before(ops)), t).0
      case Release(t) => ReleaseAll(After(cfg, Before(ops)), Held(cfg, t), t)
  }

  lemma {:induction false} GoneIsReleased(cfg: NodeConfig, ops: Run, t: Txn, k: Key)
    ensures (t, k) in Gone(cfg, ops) <==> Op.Release(t) in ops && k in Keys(cfg, t)
  {
    if ops != [] {
      GoneIsReleased(cfg, Before(ops), t, k);
      assert ops == Before(ops) + [Last(ops)];
    }
  }

  lemma {:induction false} LockedIsDistinctKeys(cfg: NodeConfig, ops: Run, t: Txn)
    requires ValidRun(cfg, ops) && t in Locked(ops)
    ensures DistinctKeys(t)
  {
    if t in Locked(Before(ops)) {
      LockedIsDistinctKeys(cfg, Before(ops), t);
    }
  }

  /** In every run, queues, wait counts and the ready queue are exact. */
  lemma {:induction false} RunKeepsInv(cfg: NodeConfig, ops: Run)
    requires ValidRun(cfg, ops)
    ensures Inv(cfg, Locked(ops), Gone(cfg, ops), Lost(cfg, ops), After(cfg, ops))
    decreases |ops|
  {
    if ops == [] {
      InvInit(cfg);
    } else {
      var before := Before(ops);
      RunKeepsInv(cfg, before);
      match Last(ops) {
        case Lock(t) =>
          LockKeepsInv(cfg, Locked(before), Gone(cfg, before), Lost(cfg, before), After(cfg, before), t);
        case Release(t) =>
          LockedIsDistinctKeys(cfg, before, t);
          forall k ensures (t, k) !in Gone(cfg, before) {
            GoneIsReleased(cfg, before, t, k);
          }
          ReleaseKeepsInv(cfg, Locked(before), Gone(cfg, before), Lost(cfg, before), After(cfg, before), t);
          assert Locked(ops) == Locked(before);
      }
    }
  }

  ghost predicate AllReleasedBefore(ops: Run, i: nat)
    requires i <= |Locked(ops)|
  {
    forall j :: 0 <= j < i ==> Op.Release(Locked(ops)[j]) in ops
  }

  /** What is lost belongs to transactions that have been released. */
  lemma {:induction false} LostIsReleased(cfg: NodeConfig, ops: Run, t: Txn, k: Key)
    requires ValidRun(cfg, ops) && (t, k) in Lost(cfg, ops)
    ensures Op.Release(t) in ops
  {
    assert ops == Before(ops) + [Last(ops)];
    if (t, k) in Lost(cfg, Before(ops)) {
      LostIsReleased(cfg, Before(ops), t, k);
    }
  }

  lemma UnreleasedIsReleasable(cfg: NodeConfig, ops: Run, t: Txn)
    requires ValidRun(cfg, ops) && t in Locked(ops) && Op.Release(t) !in ops
    ensures Allowed(cfg, ops, After(cfg, ops), Op.Release(t))
  {
    RunKeepsInv(cfg, ops);
    LockedIsDistinctKeys(cfg, ops, t);
    forall k ensures (t, k) !in Gone(cfg, ops) {
      GoneIsReleased(cfg, ops, t, k);
    }
    ReleaseKeepsInv(cfg, Locked(ops), Gone(cfg, ops), Lost(cfg, ops), After(cfg, ops), t);
  }

  /** The oldest unreleased transaction holds all its locks and may be released, losing nothing. */
  lemma OldestMayBeReleased(cfg: NodeConfig, ops: Run, i: nat)
    requires ValidRun(cfg, ops) && i < |Locked(ops)| && AllReleasedBefore(ops, i)
    requires Op.Release(Locked(ops)[i]) !in ops
    ensures var release := Op.Release(Locked(ops)[i]);
            && Locked(ops)[i] in After(cfg, ops).ready && Allowed(cfg, ops, After(cfg, ops), release)
            && ValidRun(cfg, ops + [release]) && Lost(cfg, ops + [release]) == Lost(cfg, ops)
  {
    var s, order, t := After(cfg, ops), Locked(ops), Locked(ops)[i];
    RunKeepsInv(cfg, ops);
    UnreleasedIsReleasable(cfg, ops, t);
    forall j, k | 0 <= j < i && k in Keys(cfg, order[j]) ensures (order[j], k) in Gone(cfg, ops) {
      GoneIsReleased(cfg, ops, order[j], k);
    }
    forall k ensures (t, k) !in Lost(cfg, ops) && (t, k) !in Gone(cfg, ops) {
      GoneIsReleased(cfg, ops, t, k);
      if (t, k) in Lost(cfg, ops) {
        LostIsReleased(cfg, ops, t, k);
      }
    }
    OldestIsReady(cfg, order, Gone(cfg, ops), Lost(cfg, ops), s, i);
    LockedIsDistinctKeys(cfg, ops, t);
    ReleaseKeepsInv(cfg, order, Gone(cfg, ops), Lost(cfg, ops), s, t);
    assert Before(ops + [Op.Release(t)]) == ops;
  }

  lemma {:induction false} DrainFrom(cfg: NodeConfig, ops: Run, i: nat) returns (full: Run)
    requires ValidRun(cfg, ops) && i <= |Locked(ops)| && AllReleasedBefore(ops, i)
    ensures ValidRun(cfg, full) && ops <= full && Locked(full) == Locked(ops)
    ensures AllReleasedBefore(full, |Locked(full)|) && Lost(cfg, full) == Lost(cfg, ops)
    decreases |Locked(ops)| - i
  {
    if i == |Locked(ops)| {
      full := ops;
    } else if Op.Release(Locked(ops)[i]) in ops {
      full := DrainFrom(cfg, ops, i + 1);
    } else {
      OldestMayBeReleased(cfg, ops, i);
      var longer := ops + [Op.Release(Locked(ops)[i])];
      assert Before(longer) == ops;
      full := DrainFrom(cfg, longer, i + 1);
    }
  }

  /** Local progress: releasing the oldest transaction over and over, which is always ready, empties the lock table.
      By then all have become ready but those that were cancelled while they waited, and these are exactly the
      ones that keep a wait count. */
  lemma EveryRunDrains(cfg: NodeConfig, ops: Run) returns (full: Run)
    requires ValidRun(cfg, ops)
    ensures ValidRun(cfg, full) && ops <= full && Locked(full) == Locked(ops) && Lost(cfg, full) == Lost(cfg, ops)
    ensures After(cfg, full).queues == map[]
    ensures forall t :: t in After(cfg, full).waits <==> Cancelled(Lost(cfg, ops), t) != {}
    ensures forall t :: t in Locked(ops) ==> (t in After(cfg, full).ready <==> Cancelled(Lost(cfg, ops), t) == {})
  {
    full := DrainFrom(cfg, ops, 0);
    RunKeepsInv(cfg, full);
    var s := After(cfg, full);
    forall k ensures k !in s.queues {
      forall t | t in Locked(full) && k in Keys(cfg, t) ensures (t, k) in Gone(cfg, full) {
        GoneIsReleased(cfg, full, t, k);
      }
      ProjectAllGone(cfg, Locked(full), Gone(cfg, full), k);
      assert QueueOf(s.queues, k) == [];
    }
    forall t ensures Outstanding(s.queues, Lost(cfg, ops), t) == Cancelled(Lost(cfg, ops), t)
      ensures CountExact(s.waits, t, Outstanding(s.queues, Lost(cfg, ops), t))
    {
    }
  }
}
