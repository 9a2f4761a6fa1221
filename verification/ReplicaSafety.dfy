/** What every run of the replicas keeps: each local log reaches every other replica in order, exactly once. */
module ReplicaSafety {
  import opened Txns
  import opened LocalPaxos
  import opened ReplicaLogs

  // -------- pairs that an event does not concern

  /** For the pair (`a`, `b`) the sender looks the same. */
  predicate SameSender(l: Leader, l': Leader, b: nat) {
    && |l.readers| == |l'.readers| && (b < |l.readers| ==> l.readers[b] == l'.readers[b])
    && (b in l.todo <==> b in l'.todo) && l.localLog == l'.localLog
  }

  predicate SameReceiver(l: Leader, l': Leader, a: nat) {
    From(Taken(l), a) == From(Taken(l'), a)
  }

  lemma PairUnaffected(cfg: Config, s: System, s': System, a: nat, b: nat)
    requires Shape(cfg, s) && Shape(cfg, s') && a < cfg.replicas && b < cfg.replicas && PairInv(cfg, s, a, b)
    requires SameSender(s.leaders[a], s'.leaders[a], b) && SameReceiver(s.leaders[b], s'.leaders[b], a)
    requires s.ships(a, b) == s'.ships(a, b) && s.acks(a, b) == s'.acks(a, b)
    ensures PairInv(cfg, s', a, b)
  {
  }

  // -------- rounds

  lemma BeginTaken(l: Leader, me: nat, a: nat)
    requires l.phase.Idle? && (l.open != [] || l.remote != []) && a != me
    ensures SameReceiver(l, Begin(l, me), a)
  {
    if PrefersLocal(l) {
      FromTaken(l, a);
      FromTaken(Begin(l, me), a);
      FromOne(Tagged(l.open, me), a);
    } else {
      BeginRemoteTaken(l, me);
    }
  }

  lemma BeginRemoteTaken(l: Leader, me: nat)
    requires l.phase.Idle? && !PrefersLocal(l)
    ensures Taken(Begin(l, me)) == Taken(l)
  {
    assert l.remote == [l.remote[0]] + l.remote[1..];
  }

  lemma CommitTaken(l: Leader, me: nat, replicas: nat)
    requires CanCommit(l, replicas)
    ensures Taken(Commit(l, me, replicas)) == Taken(l)
  {
  }

  lemma CommitOwn(l: Leader, me: nat, replicas: nat)
    requires CanCommit(l, replicas) && OwnInv(l, me)
    ensures OwnInv(Commit(l, me, replicas), me)
  {
    FromConcat(l.globalLog, [l.phase.round], me);
    FromOne(l.phase.round, me);
  }

  lemma CommitShape(cfg: Config, l: Leader, a: nat)
    requires LeaderShape(cfg, l, a) && CanCommit(l, cfg.replicas) && a < cfg.replicas
    ensures LeaderShape(cfg, Commit(l, a, cfg.replicas), a)
  {
  }

  lemma BeginShape(cfg: Config, l: Leader, a: nat)
    requires LeaderShape(cfg, l, a) && (l.open != [] || l.remote != []) && l.phase.Idle? && a < cfg.replicas
    ensures LeaderShape(cfg, Begin(l, a), a)
  {
  }

  /** A local commit ships to exactly those who have nothing outstanding. */
  lemma CommitPair(cfg: Config, l: Leader, a: nat, b: nat, ships: seq<Shipment>, acks: seq<nat>, taken: seq<Sequence>)
    requires LeaderShape(cfg, l, a) && CanCommit(l, cfg.replicas) && IsOther(a, cfg.replicas, b)
    requires OneOutstanding(l, ships, acks, b) && ShippedOnce(l, ships, taken, b)
    ensures var l' := Commit(l, a, cfg.replicas);
            var out := Shipped(l, a, cfg.replicas);
            var ships' := if b in out then ships + [out[b]] else ships;
            OneOutstanding(l', ships', acks, b) && ShippedOnce(l', ships', taken, b)
  {
    var l' := Commit(l, a, cfg.replicas);
    var out := Shipped(l, a, cfg.replicas);
    if b in out {
      assert b in Targets(l, a, cfg.replicas);
      assert ships == [] && acks == [];
      assert taken == l.localLog[..l.readers[b]];
      assert l'.localLog[..l.readers[b]] == l.localLog[..l.readers[b]];
      assert l'.localLog[..l.readers[b]] + l'.localLog[l.readers[b]..] == l'.localLog;
    } else {
      assert b !in Targets(l, a, cfg.replicas);
      assert l'.readers[b] == l.readers[b];
      assert l'.localLog[..l.readers[b]] == l.localLog[..l.readers[b]];
    }
  }

  /** The leader never finds the log without news when it ships, so the version it sends is never zero. */
  lemma ShippedVersionIsPositive(cfg: Config, s: System, a: nat, b: nat)
    requires PairsInv(cfg, s) && a < cfg.replicas && CanCommit(s.leaders[a], cfg.replicas)
    requires b in Shipped(s.leaders[a], a, cfg.replicas)
    ensures var m := Shipped(s.leaders[a], a, cfg.replicas)[b]; m.version > 0 && m.sequences != []
  {
    assert s.leaders[a].readers[b] <= |s.leaders[a].localLog|;
  }

  // -------- messages

  lemma Reassociate<T>(p: seq<T>, q: seq<T>, r: seq<T>)
    ensures p + (q + r) == (p + q) + r
  {
  }

  lemma ReceiveTaken(l: Leader, from: nat, m: Shipment, a: nat)
    ensures From(Taken(ReceiveShipment(l, from, m)), a) == From(Taken(l), a) + if a == from then m.sequences else []
  {
    var tagged := Tag(m.sequences, from);
    FromTag(m.sequences, from, a);
    Reassociate(l.globalLog + Current(l.phase), l.remote, tagged);
    FromConcat(Taken(l), tagged, a);
  }

  lemma AckPair(cfg: Config, l: Leader, a: nat, b: nat, ships: seq<Shipment>, acks: seq<nat>, taken: seq<Sequence>)
    requires LeaderShape(cfg, l, a) && IsOther(a, cfg.replicas, b) && acks != []
    requires OneOutstanding(l, ships, acks, b) && ShippedOnce(l, ships, taken, b)
    ensures var (l', reply) := ReceiveAck(l, b, acks[0]);
            var ships' := if reply.Some? then ships + [reply.value] else ships;
            LeaderShape(cfg, l', a) && OneOutstanding(l', ships', acks[1..], b) && ShippedOnce(l', ships', taken, b)
  {
    assert l.localLog[..l.readers[b]] + l.localLog[l.readers[b]..] == l.localLog;
  }

  // -------- one step

  /** Replacing one leader by one that ships and has taken the same keeps all pairs. */
  lemma LeaderReplaced(cfg: Config, s: System, s': System, c: nat, l: Leader)
    requires PairsInv(cfg, s) && c < cfg.replicas && LeaderShape(cfg, l, c) && OwnInv(l, c)
    requires s'.leaders == s.leaders[c := l] && s'.ships == s.ships && s'.acks == s.acks
    requires forall b :: SameSender(s.leaders[c], l, b)
    requires forall a :: a != c ==> SameReceiver(s.leaders[c], l, a)
    ensures PairsInv(cfg, s')
  {
    assert Shape(cfg, s');
    forall a: nat, b: nat | a < cfg.replicas && IsOther(a, cfg.replicas, b) ensures PairInv(cfg, s', a, b) {
      PairUnaffected(cfg, s, s', a, b);
    }
    assert forall a :: 0 <= a < cfg.replicas && OwnInv(s.leaders[a], a) ==> OwnInv(s'.leaders[a], a);
  }

  lemma BeginKeepsPairs(cfg: Config, s: System, c: nat)
    requires PairsInv(cfg, s) && Enabled(cfg, s, BeginRound(c))
    ensures PairsInv(cfg, Apply(cfg, s, BeginRound(c)))
  {
    var l := s.leaders[c];
    assert LeaderShape(cfg, l, c) && OwnInv(l, c);
    BeginShape(cfg, l, c);
    forall a | a != c ensures SameReceiver(l, Begin(l, c), a) {
      BeginTaken(l, c, a);
    }
    LeaderReplaced(cfg, s, Apply(cfg, s, BeginRound(c)), c, Begin(l, c));
  }

  lemma CommitKeepsPair(cfg: Config, s: System, c: nat, a: nat, b: nat)
    requires Shape(cfg, s) && Enabled(cfg, s, CommitRound(c)) && a < cfg.replicas && IsOther(a, cfg.replicas, b)
    requires PairInv(cfg, s, a, b) && Shape(cfg, Apply(cfg, s, CommitRound(c)))
    ensures PairInv(cfg, Apply(cfg, s, CommitRound(c)), a, b)
  {
    var l := s.leaders[c];
    CommitTaken(l, c, cfg.replicas);
    if a == c {
      assert LeaderShape(cfg, l, c);
      CommitPair(cfg, l, c, b, s.ships(c, b), s.acks(c, b), From(Taken(s.leaders[b]), c));
    } else {
      PairUnaffected(cfg, s, Apply(cfg, s, CommitRound(c)), a, b);
    }
  }

  lemma CommitKeepsPairs(cfg: Config, s: System, c: nat)
    requires PairsInv(cfg, s) && Enabled(cfg, s, CommitRound(c))
    ensures PairsInv(cfg, Apply(cfg, s, CommitRound(c)))
  {
    var s' := Apply(cfg, s, CommitRound(c));
    CommitShape(cfg, s.leaders[c], c);
    CommitOwn(s.leaders[c], c, cfg.replicas);
    assert Shape(cfg, s');
    forall a: nat, b: nat | a < cfg.replicas && IsOther(a, cfg.replicas, b) ensures PairInv(cfg, s', a, b) {
      assert PairInv(cfg, s, a, b);
      CommitKeepsPair(cfg, s, c, a, b);
    }
    forall a | 0 <= a < cfg.replicas ensures OwnInv(s'.leaders[a], a) && s'.ships(a, a) == [] {
      assert OwnInv(s.leaders[a], a);
      assert c !in Targets(s.leaders[c], c, cfg.replicas);
    }
  }

  lemma ShipmentPair(l: Leader, ships: seq<Shipment>, acks: seq<nat>, taken: seq<Sequence>, b: nat)
    requires b < |l.readers| && ships != [] && OneOutstanding(l, ships, acks, b) && ShippedOnce(l, ships, taken, b)
    ensures OneOutstanding(l, ships[1..], acks + [ships[0].version], b)
    ensures ShippedOnce(l, ships[1..], taken + ships[0].sequences, b)
  {
    assert ships[1..] == [] && acks == [];
  }

  lemma ShipmentKeepsPair(cfg: Config, s: System, c: nat, d: nat, a: nat, b: nat)
    requires Shape(cfg, s) && Enabled(cfg, s, DeliverShipment(c, d)) && a < cfg.replicas && b < cfg.replicas
    requires PairInv(cfg, s, a, b) && Shape(cfg, Apply(cfg, s, DeliverShipment(c, d)))
    ensures PairInv(cfg, Apply(cfg, s, DeliverShipment(c, d)), a, b)
  {
    ReceiveTaken(s.leaders[d], c, s.ships(c, d)[0], a);
    if a == c && b == d {
      ShipmentPair(s.leaders[c], s.ships(c, d), s.acks(c, d), From(Taken(s.leaders[d]), c), d);
    } else {
      ShipmentElsewhere(cfg, s, c, d, a, b);
    }
  }

  lemma ShipmentElsewhere(cfg: Config, s: System, c: nat, d: nat, a: nat, b: nat)
    requires Shape(cfg, s) && Enabled(cfg, s, DeliverShipment(c, d)) && a < cfg.replicas && b < cfg.replicas
    requires PairInv(cfg, s, a, b) && Shape(cfg, Apply(cfg, s, DeliverShipment(c, d))) && (a != c || b != d)
    ensures PairInv(cfg, Apply(cfg, s, DeliverShipment(c, d)), a, b)
  {
    ReceiveTaken(s.leaders[d], c, s.ships(c, d)[0], a);
    PairUnaffected(cfg, s, Apply(cfg, s, DeliverShipment(c, d)), a, b);
  }

  lemma ShipmentKeepsPairs(cfg: Config, s: System, c: nat, d: nat)
    requires PairsInv(cfg, s) && Enabled(cfg, s, DeliverShipment(c, d))
    ensures PairsInv(cfg, Apply(cfg, s, DeliverShipment(c, d)))
  {
    var s' := Apply(cfg, s, DeliverShipment(c, d));
    assert c != d && LeaderShape(cfg, s.leaders[d], d);
    assert LeaderShape(cfg, s'.leaders[d], d) && Shape(cfg, s');
    forall a: nat, b: nat | a < cfg.replicas && IsOther(a, cfg.replicas, b) ensures PairInv(cfg, s', a, b) {
      assert PairInv(cfg, s, a, b);
      ShipmentKeepsPair(cfg, s, c, d, a, b);
    }
    assert forall a :: 0 <= a < cfg.replicas && OwnInv(s.leaders[a], a) ==> OwnInv(s'.leaders[a], a);
  }

  lemma AckKeepsPair(cfg: Config, s: System, c: nat, d: nat, a: nat, b: nat)
    requires Shape(cfg, s) && Enabled(cfg, s, DeliverAck(c, d)) && a < cfg.replicas && IsOther(a, cfg.replicas, b)
    requires PairInv(cfg, s, a, b) && Shape(cfg, Apply(cfg, s, DeliverAck(c, d)))
    ensures PairInv(cfg, Apply(cfg, s, DeliverAck(c, d)), a, b)
  {
    AckTaken(s.leaders[c], d, s.acks(c, d)[0]);
    if a == c && b == d {
      assert LeaderShape(cfg, s.leaders[c], c);
      AckPair(cfg, s.leaders[c], c, d, s.ships(c, d), s.acks(c, d), From(Taken(s.leaders[d]), c));
    } else {
      PairUnaffected(cfg, s, Apply(cfg, s, DeliverAck(c, d)), a, b);
    }
  }

  lemma AckTaken(l: Leader, d: nat, version: nat)
    requires d < |l.readers| && l.readers[d] <= |l.localLog|
    ensures var l' := ReceiveAck(l, d, version).0;
            Taken(l') == Taken(l) && forall b :: b != d ==> SameSender(l, l', b)
  {
  }

  lemma AckKeepsPairs(cfg: Config, s: System, c: nat, d: nat)
    requires PairsInv(cfg, s) && Enabled(cfg, s, DeliverAck(c, d))
    ensures PairsInv(cfg, Apply(cfg, s, DeliverAck(c, d)))
  {
    var s' := Apply(cfg, s, DeliverAck(c, d));
    assert c != d && PairInv(cfg, s, c, d);
    AckPair(cfg, s.leaders[c], c, d, s.ships(c, d), s.acks(c, d), From(Taken(s.leaders[d]), c));
    assert Shape(cfg, s');
    forall a: nat, b: nat | a < cfg.replicas && IsOther(a, cfg.replicas, b) ensures PairInv(cfg, s', a, b) {
      assert PairInv(cfg, s, a, b);
      AckKeepsPair(cfg, s, c, d, a, b);
    }
    assert forall a :: 0 <= a < cfg.replicas && OwnInv(s.leaders[a], a) ==> OwnInv(s'.leaders[a], a);
  }

  /** Between rounds and messages a leader only grows its open sequence and its stock of multi-replica batches. */
  lemma QuietStep(cfg: Config, l: Leader, l': Leader, c: nat)
    requires LeaderShape(cfg, l, c) && OwnInv(l, c) && LeaderShape(cfg, l', c)
    requires l' == l.(open := l'.open, multi := l'.multi, phase := l'.phase)
    requires Current(l'.phase) == Current(l.phase)
    ensures OwnInv(l', c) && (forall b :: SameSender(l, l', b)) && (forall a :: SameReceiver(l, l', a))
  {
    assert Taken(l') == Taken(l);
  }

  lemma LocalKeepsPairs(cfg: Config, s: System, e: Event)
    requires PairsInv(cfg, s) && Enabled(cfg, s, e) && (e.Append? || e.MultiArrives? || e.RegenerateNext?)
    ensures PairsInv(cfg, Apply(cfg, s, e))
  {
    var s' := Apply(cfg, s, e);
    var l, l' := s.leaders[e.a], s'.leaders[e.a];
    assert LeaderShape(cfg, l, e.a) && OwnInv(l, e.a);
    QuietStep(cfg, l, l', e.a);
    LeaderReplaced(cfg, s, s', e.a, l');
  }

  lemma StepKeepsPairs(cfg: Config, s: System, e: Event)
    requires PairsInv(cfg, s) && Enabled(cfg, s, e)
    ensures PairsInv(cfg, Apply(cfg, s, e))
  {
    match e
    case DeliverShipment(a, b) => ShipmentKeepsPairs(cfg, s, a, b);
    case DeliverAck(a, b) => AckKeepsPairs(cfg, s, a, b);
    case BeginRound(a) => BeginKeepsPairs(cfg, s, a);
    case CommitRound(a) => CommitKeepsPairs(cfg, s, a);
    case _ => LocalKeepsPairs(cfg, s, e);
  }

  lemma {:induction false} RunKeepsPairs(cfg: Config, run: seq<Event>)
    requires ValidRun(cfg, run)
    ensures PairsInv(cfg, After(cfg, run))
  {
    if run != [] {
      RunKeepsPairs(cfg, Before(run));
      StepKeepsPairs(cfg, After(cfg, Before(run)), run[|run| - 1]);
    }
  }

  // -------- what it means

  /** Exactly one message or note stands for the traffic from `a` to `b`, and what `b` took with what is under way
      is exactly the local log of `a` up to the reader. */
  lemma ExactlyOneOutstanding(cfg: Config, run: seq<Event>, a: nat, b: nat)
    requires ValidRun(cfg, run) && a < cfg.replicas && IsOther(a, cfg.replicas, b)
    ensures var s := After(cfg, run);
            var l := s.leaders[a];
            && (l.localLog == [] ==> s.ships(a, b) == [] && s.acks(a, b) == [] && b !in l.todo)
            && (l.localLog != [] ==>
                  || (|s.ships(a, b)| == 1 && s.acks(a, b) == [] && b !in l.todo)
                  || (s.ships(a, b) == [] && |s.acks(a, b)| == 1 && b !in l.todo)
                  || (s.ships(a, b) == [] && s.acks(a, b) == [] && b in l.todo))
            && b < |l.readers| && l.readers[b] <= |l.localLog|
            && From(Taken(s.leaders[b]), a) + UnderWay(s.ships(a, b)) == l.localLog[..l.readers[b]]
  {
    RunKeepsPairs(cfg, run);
    assert PairInv(cfg, After(cfg, run), a, b);
  }

  predicate IsPrefix<T(==)>(p: seq<T>, q: seq<T>) {
    |p| <= |q| && p == q[..|p|]
  }

  lemma TakenIsPrefix(cfg: Config, s: System, a: nat, b: nat)
    requires PairsInv(cfg, s) && a < cfg.replicas && IsOther(a, cfg.replicas, b)
    ensures IsPrefix(From(Taken(s.leaders[b]), a), s.leaders[a].localLog)
  {
    assert PairInv(cfg, s, a, b);
    var taken, log := From(Taken(s.leaders[b]), a), s.leaders[a].localLog;
    assert log[..|taken|] == (taken + UnderWay(s.ships(a, b)))[..|taken|];
  }

  lemma LoggedIsPrefix(cfg: Config, s: System, a: nat, b: nat)
    requires PairsInv(cfg, s) && a < cfg.replicas && b < cfg.replicas
    ensures IsPrefix(From(s.leaders[b].globalLog, a), s.leaders[a].localLog)
  {
    if a == b {
      assert OwnInv(s.leaders[b], b);
    } else {
      TakenIsPrefix(cfg, s, a, b);
      FromTaken(s.leaders[b], a);
    }
  }

  /** In every run, at every replica, the part of the global log that comes from `a` is a prefix of the local log of `a`. */
  lemma GlobalLogHasLocalPrefixes(cfg: Config, run: seq<Event>, a: nat, b: nat)
    requires ValidRun(cfg, run) && a < cfg.replicas && b < cfg.replicas
    ensures var s := After(cfg, run);
            |s.leaders| == cfg.replicas && IsPrefix(From(s.leaders[b].globalLog, a), s.leaders[a].localLog)
  {
    RunKeepsPairs(cfg, run);
    LoggedIsPrefix(cfg, After(cfg, run), a, b);
  }

  /** Nothing is under way from `a` to `b`, and `b` has handled all it took. */
  predicate Quiet(s: System, a: nat, b: nat) {
    && s.ships(a, b) == [] && s.acks(a, b) == []
    && b < |s.leaders| && s.leaders[b].phase.Idle? && s.leaders[b].remote == []
  }

  lemma QuietPair(cfg: Config, s: System, a: nat, b: nat)
    requires PairsInv(cfg, s) && Quiet(s, a, b) && a < cfg.replicas && IsOther(a, cfg.replicas, b)
    ensures From(s.leaders[b].globalLog, a) == s.leaders[a].localLog
  {
    assert PairInv(cfg, s, a, b);
    assert Taken(s.leaders[b]) == s.leaders[b].globalLog;
  }

  /** Nothing is lost: a quiet replica has the whole local log of `a`. */
  lemma QuietReplicaHasEverything(cfg: Config, run: seq<Event>, a: nat, b: nat)
    requires ValidRun(cfg, run) && a < cfg.replicas && IsOther(a, cfg.replicas, b) && Quiet(After(cfg, run), a, b)
    ensures var s := After(cfg, run);
            |s.leaders| == cfg.replicas && From(s.leaders[b].globalLog, a) == s.leaders[a].localLog
  {
    RunKeepsPairs(cfg, run);
    QuietPair(cfg, After(cfg, run), a, b);
  }

  /** A round that is being proposed can always be committed, and the version check never fails. */
  lemma CommitNeverFails(cfg: Config, run: seq<Event>, a: nat, b: nat)
    requires ValidRun(cfg, run) && a < cfg.replicas
    requires var s := After(cfg, run); |s.leaders| == cfg.replicas && s.leaders[a].phase.Proposing?
    ensures var s := After(cfg, run);
            CanCommit(s.leaders[a], cfg.replicas)
            && (b in Shipped(s.leaders[a], a, cfg.replicas) ==> Shipped(s.leaders[a], a, cfg.replicas)[b].version != 0)
  {
    var s := After(cfg, run);
    RunKeepsPairs(cfg, run);
    assert LeaderShape(cfg, s.leaders[a], a);
    if b in Shipped(s.leaders[a], a, cfg.replicas) {
      ShippedVersionIsPositive(cfg, s, a, b);
    }
  }
}
