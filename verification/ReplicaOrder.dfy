/** Copies of multi-replica batches follow the order of replica 0 in every log, and no batch is ordered twice. */
module ReplicaOrder {
  import opened Txns
  import opened LocalPaxos
  import opened ReplicaLogs
  import opened ReplicaSafety

  // -------- sequences of batches

  function Flatten(ss: seq<Sequence>): Sequence {
    if ss == [] then [] else Flatten(ss[..|ss| - 1]) + ss[|ss| - 1]
  }

  function Ids(bs: Sequence): (r: seq<nat>)
    ensures |r| == |bs| && forall i :: 0 <= i < |r| ==> r[i] == bs[i].id
  {
    seq(|bs|, i requires 0 <= i < |bs| => bs[i].id)
  }

  /** The batches of replica 0 that the regenerated ones among `bs` stand for. */
  function Sources(bs: Sequence): seq<nat> {
    if bs == [] then []
    else
      var b := bs[|bs| - 1];
      Sources(bs[..|bs| - 1]) + if b.source.Some? then [b.source.value] else []
  }

  /** The batches that have transactions for replica `a`. */
  function ForReplica(cfg: Config, a: nat, bs: Sequence): seq<nat> {
    if bs == [] then []
    else
      var b := bs[|bs| - 1];
      ForReplica(cfg, a, bs[..|bs| - 1]) + if MultiPart(cfg.content(b.id), a) != [] then [b.id] else []
  }

  lemma FlattenMore(log: seq<Sequence>, x: Sequence)
    ensures Flatten(log + [x]) == Flatten(log) + x
  {
    assert (log + [x])[..|log|] == log;
  }

  lemma {:induction false} FlattenConcat(p: seq<Sequence>, q: seq<Sequence>)
    ensures Flatten(p + q) == Flatten(p) + Flatten(q)
  {
    if q == [] {
      assert p + q == p;
    } else {
      var init, x := q[..|q| - 1], q[|q| - 1];
      FlattenConcat(p, init);
      FlattenMore(p + init, x);
      Reassociate(Flatten(p), Flatten(init), x);
      assert p + q == (p + init) + [x];
    }
  }

  lemma {:induction false} SourcesConcat(p: Sequence, q: Sequence)
    ensures Sources(p + q) == Sources(p) + Sources(q)
  {
    if q == [] {
      assert p + q == p;
    } else {
      SourcesConcat(p, q[..|q| - 1]);
      assert (p + q)[..|p + q| - 1] == p + q[..|q| - 1];
    }
  }

  lemma ForReplicaMore(cfg: Config, a: nat, p: Sequence, b: Batch)
    ensures ForReplica(cfg, a, p + [b]) == ForReplica(cfg, a, p) + if MultiPart(cfg.content(b.id), a) != [] then [b.id] else []
  {
    assert (p + [b])[..|p|] == p;
  }

  lemma {:induction false} ForReplicaConcat(cfg: Config, a: nat, p: Sequence, q: Sequence)
    ensures ForReplica(cfg, a, p + q) == ForReplica(cfg, a, p) + ForReplica(cfg, a, q)
  {
    if q == [] {
      assert p + q == p;
    } else {
      var init, b := q[..|q| - 1], q[|q| - 1];
      ForReplicaConcat(cfg, a, p, init);
      ForReplicaMore(cfg, a, p + init, b);
      Reassociate(ForReplica(cfg, a, p), ForReplica(cfg, a, init), if MultiPart(cfg.content(b.id), a) != [] then [b.id] else []);
      assert p + q == (p + init) + [b];
    }
  }

  // -------- what a replica has put into its own sequences

  /** The round's sequence if it came from `a`. */
  function RoundOf(p: Phase, a: nat): Sequence {
    if p.Proposing? && p.round.from == a then p.round.sequence else []
  }

  /** All batches the leader of `a` has accepted itself, in order. */
  function Own(l: Leader, a: nat): Sequence {
    Flatten(l.localLog) + RoundOf(l.phase, a) + l.open
  }

  /** How much of the current round has been regenerated. */
  function Handled(p: Phase): Sequence {
    if p.Regenerating? && p.next <= |p.round.sequence| then p.round.sequence[..p.next] else RoundOf(p, 0)
  }

  /** The batches of replica 0 for which everything has been regenerated. */
  function Seen(l: Leader): Sequence {
    Flatten(From(l.globalLog, 0)) + Handled(l.phase)
  }

  /** What one step adds to the replica's own batches. */
  function Added(s: System, e: Event, a: nat): Sequence {
    if e.a != a || a >= |s.leaders| then []
    else
      match e
      case Append(_, id) => [Batch(id, None)]
      case RegenerateNext(_, id) => Produced(s.leaders[a], id)
      case _ => []
  }

  function Produced(l: Leader, id: nat): Sequence {
    if CanRegenerate(l) && l.multi[l.phase.round.sequence[l.phase.next].id] != [] then
      [Batch(id, Some(l.phase.round.sequence[l.phase.next].id))]
    else
      []
  }

  /** What one step adds to the batches of replica 0 handled at `a`. */
  function Progressed(s: System, e: Event, a: nat): Sequence {
    if e.RegenerateNext? && e.a == a && a < |s.leaders| && CanRegenerate(s.leaders[a]) then
      [s.leaders[a].phase.round.sequence[s.leaders[a].phase.next]]
    else
      []
  }

  lemma BeginKeepsOwn(cfg: Config, l: Leader, a: nat)
    requires LeaderShape(cfg, l, a) && l.phase.Idle? && (l.open != [] || l.remote != [])
    ensures Own(Begin(l, a), a) == Own(l, a)
    ensures a != 0 ==> Seen(Begin(l, a)) == Seen(l)
  {
    var l' := Begin(l, a);
    if PrefersLocal(l) {
      assert Own(l', a) == (Flatten(l.localLog) + l.open) + [] == Flatten(l.localLog) + [] + l.open;
    } else {
      assert l.remote[0] in l.remote && RoundOf(l'.phase, a) == [];
      assert a != 0 ==> Handled(l'.phase) == [];
    }
  }

  lemma CommitKeepsOwn(l: Leader, a: nat, replicas: nat)
    requires CanCommit(l, replicas)
    ensures Own(Commit(l, a, replicas), a) == Own(l, a)
  {
    var l', t := Commit(l, a, replicas), l.phase.round;
    if t.from == a {
      FlattenMore(l.localLog, t.sequence);
      assert l'.localLog == l.localLog + [t.sequence];
    } else {
      assert l'.localLog == l.localLog;
    }
    assert RoundOf(l'.phase, a) == [];
  }

  lemma CommitKeepsSeen(l: Leader, a: nat, replicas: nat)
    requires CanCommit(l, replicas)
    ensures Seen(Commit(l, a, replicas)) == Seen(l)
  {
    var l', t := Commit(l, a, replicas), l.phase.round;
    FromConcat(l.globalLog, [t], 0);
    FromOne(t, 0);
    if t.from == 0 {
      FlattenMore(From(l.globalLog, 0), t.sequence);
    } else {
      assert From(l'.globalLog, 0) == From(l.globalLog, 0);
    }
    assert Handled(l'.phase) == [];
  }

  lemma RegenerateAdds(l: Leader, a: nat, id: nat)
    requires CanRegenerate(l) && a != 0 && l.phase.round.from == 0
    ensures var l' := Regenerate(l, id);
            && Own(l', a) == Own(l, a) + Produced(l, id)
            && Seen(l') == Seen(l) + [l.phase.round.sequence[l.phase.next]]
  {
    var l', t, n := Regenerate(l, id), l.phase.round, l.phase.next;
    assert t.sequence[..n] + [t.sequence[n]] == t.sequence[..n + 1];
    assert Handled(l'.phase) == t.sequence[..n + 1];
    assert l.open + [] == l.open;
  }

  lemma RoundStepAppends(cfg: Config, l: Leader, e: Event, a: nat)
    requires LeaderShape(cfg, l, a)
    requires e.BeginRound? ==> l.phase.Idle? && (l.open != [] || l.remote != [])
    requires e.CommitRound? ==> CanCommit(l, cfg.replicas)
    ensures e.BeginRound? ==> Own(Begin(l, a), a) == Own(l, a) && (a != 0 ==> Seen(Begin(l, a)) == Seen(l))
    ensures e.CommitRound? ==>
              Own(Commit(l, a, cfg.replicas), a) == Own(l, a) && Seen(Commit(l, a, cfg.replicas)) == Seen(l)
  {
    if e.BeginRound? {
      BeginKeepsOwn(cfg, l, a);
    }
    if e.CommitRound? {
      CommitKeepsOwn(l, a, cfg.replicas);
      CommitKeepsSeen(l, a, cfg.replicas);
    }
  }

  /** Messages to a leader leave its own batches and its rounds alone. */
  lemma MessagesKeepOwn(cfg: Config, s: System, e: Event, a: nat)
    requires Enabled(cfg, s, e) && a < cfg.replicas && (e.a != a || e.DeliverShipment? || e.DeliverAck? || e.MultiArrives?)
    ensures var l' := Apply(cfg, s, e).leaders[a];
            Own(l', a) == Own(s.leaders[a], a) && Seen(l') == Seen(s.leaders[a])
  {
  }

  lemma OwnStepAppends(cfg: Config, s: System, e: Event, a: nat)
    requires Shape(cfg, s) && Enabled(cfg, s, e) && e.a == a
    requires e.Append? || e.RegenerateNext? || e.BeginRound? || e.CommitRound?
    ensures var l' := Apply(cfg, s, e).leaders[a];
            && Own(l', a) == Own(s.leaders[a], a) + Added(s, e, a)
            && (a != 0 ==> Seen(l') == Seen(s.leaders[a]) + Progressed(s, e, a))
  {
    var l := s.leaders[a];
    assert LeaderShape(cfg, l, a);
    assert Own(l, a) + [] == Own(l, a) && Seen(l) + [] == Seen(l);
    if e.RegenerateNext? {
      RegenerateAdds(l, a, e.id);
    } else {
      RoundStepAppends(cfg, l, e, a);
    }
  }

  /** A step only ever appends to a replica's own batches, and to the batches it has handled for replica 0. */
  lemma StepAppends(cfg: Config, s: System, e: Event, a: nat)
    requires Shape(cfg, s) && Enabled(cfg, s, e) && a < cfg.replicas
    ensures var s' := Apply(cfg, s, e);
            && |s'.leaders| == cfg.replicas
            && Own(s'.leaders[a], a) == Own(s.leaders[a], a) + Added(s, e, a)
            && (a != 0 ==> Seen(s'.leaders[a]) == Seen(s.leaders[a]) + Progressed(s, e, a))
  {
    if e.a != a || e.DeliverShipment? || e.DeliverAck? || e.MultiArrives? {
      MessagesKeepOwn(cfg, s, e, a);
      var l := s.leaders[a];
      assert Own(l, a) + [] == Own(l, a) && Seen(l) + [] == Seen(l);
    } else {
      OwnStepAppends(cfg, s, e, a);
    }
  }

  // -------- the invariant of the order

  ghost predicate MultiHonest(cfg: Config, l: Leader, a: nat) {
    forall id :: id in l.multi ==> l.multi[id] == MultiPart(cfg.content(id), a)
  }

  /** The regenerated batches stand for exactly the batches handled so far that have something for `a`, in order. */
  ghost predicate RegeneratesInOrder(cfg: Config, l: Leader, a: nat) {
    a != 0 ==> Sources(Own(l, a)) == ForReplica(cfg, a, Seen(l))
  }

  /** What the schedulers are sent as batch `b` of `a`: a sequencer's batch, or copies of a part of one. */
  ghost predicate Honest(cfg: Config, contents: map<nat, seq<Txn>>, a: nat, b: Batch) {
    && b.id in contents
    && if b.source.None? then contents[b.id] == cfg.content(b.id) && (a != 0 ==> SingleReplica(cfg.content(b.id)))
       else a != 0 && contents[b.id] == Copies(MultiPart(cfg.content(b.source.value), a), a)
  }

  ghost predicate AllHonest(cfg: Config, contents: map<nat, seq<Txn>>, a: nat, bs: Sequence) {
    forall i :: 0 <= i < |bs| ==> Honest(cfg, contents, a, bs[i])
  }

  ghost predicate Apart(p: Sequence, q: Sequence, same: bool) {
    forall i, j :: 0 <= i < |p| && 0 <= j < |q| && p[i].id == q[j].id ==> same && i == j
  }

  /** No batch of `a` has the id of a different batch of `b`. */
  ghost predicate IdsApart(s: System, a: nat, b: nat)
    requires a < |s.leaders| && b < |s.leaders|
  {
    Apart(Own(s.leaders[a], a), Own(s.leaders[b], b), a == b)
  }

  ghost predicate ReplicaInv(cfg: Config, s: System, a: nat)
    requires a < |s.leaders|
  {
    && MultiHonest(cfg, s.leaders[a], a) && RegeneratesInOrder(cfg, s.leaders[a], a)
    && AllHonest(cfg, s.contents, a, Own(s.leaders[a], a))
  }

  ghost predicate OrderInv(cfg: Config, s: System) {
    && PairsInv(cfg, s)
    && (forall a :: 0 <= a < cfg.replicas ==> ReplicaInv(cfg, s, a))
    && (forall a, b :: 0 <= a < cfg.replicas && 0 <= b < cfg.replicas ==> IdsApart(s, a, b))
  }

  lemma AddedIsFresh(cfg: Config, s: System, e: Event, a: nat)
    requires Enabled(cfg, s, e)
    ensures Added(s, e, a) == [] || (a == e.a && |Added(s, e, a)| == 1 && Added(s, e, a)[0].id !in s.contents)
  {
  }

  lemma AddedIsHonest(cfg: Config, s: System, e: Event, a: nat)
    requires Shape(cfg, s) && Enabled(cfg, s, e) && a < cfg.replicas && MultiHonest(cfg, s.leaders[a], a)
    ensures AllHonest(cfg, Apply(cfg, s, e).contents, a, Added(s, e, a))
  {
    assert LeaderShape(cfg, s.leaders[a], a);
  }

  /** A batch once sent stays what it is. */
  lemma ContentsKept(cfg: Config, s: System, e: Event, a: nat, b: Batch)
    requires Enabled(cfg, s, e) && Honest(cfg, s.contents, a, b)
    ensures Honest(cfg, Apply(cfg, s, e).contents, a, b)
  {
  }

  lemma StepKeepsRegeneration(cfg: Config, s: System, e: Event, a: nat)
    requires OrderInv(cfg, s) && Enabled(cfg, s, e) && 0 < a < cfg.replicas
    ensures RegeneratesInOrder(cfg, Apply(cfg, s, e).leaders[a], a)
  {
    var l := s.leaders[a];
    assert ReplicaInv(cfg, s, a);
    StepAppends(cfg, s, e, a);
    SourcesConcat(Own(l, a), Added(s, e, a));
    ForReplicaConcat(cfg, a, Seen(l), Progressed(s, e, a));
    AddedMatches(cfg, s, e, a);
  }

  lemma AddedMatches(cfg: Config, s: System, e: Event, a: nat)
    requires Enabled(cfg, s, e) && a < cfg.replicas && MultiHonest(cfg, s.leaders[a], a)
    ensures Sources(Added(s, e, a)) == ForReplica(cfg, a, Progressed(s, e, a))
  {
    var added, progressed := Added(s, e, a), Progressed(s, e, a);
    assert added != [] ==> added[..|added| - 1] == [];
    assert progressed != [] ==> progressed[..|progressed| - 1] == [];
  }

  lemma StepKeepsMulti(cfg: Config, s: System, e: Event, a: nat)
    requires Enabled(cfg, s, e) && a < cfg.replicas && MultiHonest(cfg, s.leaders[a], a)
    ensures |Apply(cfg, s, e).leaders| == cfg.replicas && MultiHonest(cfg, Apply(cfg, s, e).leaders[a], a)
  {
  }

  lemma StepKeepsHonest(cfg: Config, s: System, e: Event, a: nat)
    requires OrderInv(cfg, s) && Enabled(cfg, s, e) && a < cfg.replicas
    ensures |Apply(cfg, s, e).leaders| == cfg.replicas
    ensures AllHonest(cfg, Apply(cfg, s, e).contents, a, Own(Apply(cfg, s, e).leaders[a], a))
  {
    var own, s' := Own(s.leaders[a], a), Apply(cfg, s, e);
    assert ReplicaInv(cfg, s, a);
    StepAppends(cfg, s, e, a);
    AddedIsHonest(cfg, s, e, a);
    forall i | 0 <= i < |own| ensures Honest(cfg, s'.contents, a, own[i]) {
      ContentsKept(cfg, s, e, a, own[i]);
    }
  }

  lemma HonestIsUsed(cfg: Config, contents: map<nat, seq<Txn>>, a: nat, bs: Sequence)
    requires AllHonest(cfg, contents, a, bs)
    ensures forall i :: 0 <= i < |bs| ==> bs[i].id in contents
  {
    forall i | 0 <= i < |bs| ensures bs[i].id in contents {
      assert Honest(cfg, contents, a, bs[i]);
    }
  }

  lemma NewIdsApart(p: Sequence, x: Sequence, q: Sequence, y: Sequence, contents: map<nat, seq<Txn>>, same: bool)
    requires Apart(p, q, same) && (same ==> p == q && x == y) && (!same ==> x == [] || y == [])
    requires (forall i :: 0 <= i < |p| ==> p[i].id in contents) && (forall j :: 0 <= j < |q| ==> q[j].id in contents)
    requires x == [] || (|x| == 1 && x[0].id !in contents)
    requires y == [] || (|y| == 1 && y[0].id !in contents)
    ensures Apart(p + x, q + y, same)
  {
    ApartAppend(p, x, q, y, contents.Keys, same);
  }

  lemma StepKeepsApart(cfg: Config, s: System, e: Event, a: nat, b: nat)
    requires Shape(cfg, s) && Enabled(cfg, s, e) && a < cfg.replicas && b < cfg.replicas
    requires AllHonest(cfg, s.contents, a, Own(s.leaders[a], a)) && AllHonest(cfg, s.contents, b, Own(s.leaders[b], b))
    requires IdsApart(s, a, b)
    ensures |Apply(cfg, s, e).leaders| == cfg.replicas && IdsApart(Apply(cfg, s, e), a, b)
  {
    var p, q := Own(s.leaders[a], a), Own(s.leaders[b], b);
    AddedIsFresh(cfg, s, e, a);
    AddedIsFresh(cfg, s, e, b);
    HonestIsUsed(cfg, s.contents, a, p);
    HonestIsUsed(cfg, s.contents, b, q);
    NewIdsApart(p, Added(s, e, a), q, Added(s, e, b), s.contents, a == b);
    StepAppends(cfg, s, e, a);
    StepAppends(cfg, s, e, b);
  }

  lemma ApartAppend(p: Sequence, x: Sequence, q: Sequence, y: Sequence, used: set<nat>, same: bool)
    requires Apart(p, q, same) && |x| <= 1 && |y| <= 1 && (same ==> p == q && x == y)
    requires (forall i :: 0 <= i < |p| ==> p[i].id in used) && (forall j :: 0 <= j < |q| ==> q[j].id in used)
    requires (forall i :: 0 <= i < |x| ==> x[i].id !in used) && (forall j :: 0 <= j < |y| ==> y[j].id !in used)
    requires !same ==> x == [] || y == []
    ensures Apart(p + x, q + y, same)
  {
  }

  lemma StepKeepsOrder(cfg: Config, s: System, e: Event)
    requires OrderInv(cfg, s) && Enabled(cfg, s, e)
    ensures OrderInv(cfg, Apply(cfg, s, e))
  {
    var s' := Apply(cfg, s, e);
    StepKeepsPairs(cfg, s, e);
    forall a | 0 <= a < cfg.replicas ensures ReplicaInv(cfg, s', a) {
      assert ReplicaInv(cfg, s, a);
      StepKeepsMulti(cfg, s, e, a);
      StepKeepsHonest(cfg, s, e, a);
      if a != 0 {
        StepKeepsRegeneration(cfg, s, e, a);
      }
    }
    forall a, b | 0 <= a < cfg.replicas && 0 <= b < cfg.replicas ensures IdsApart(s', a, b) {
      assert ReplicaInv(cfg, s, a) && ReplicaInv(cfg, s, b);
      StepKeepsApart(cfg, s, e, a, b);
    }
  }

  lemma FirstLeader(cfg: Config, a: nat)
    ensures var l := InitialLeader(cfg.replicas);
            Own(l, a) == [] && MultiHonest(cfg, l, a) && RegeneratesInOrder(cfg, l, a)
  {
    assert Seen(InitialLeader(cfg.replicas)) == [];
  }

  lemma StartOrder(cfg: Config)
    ensures OrderInv(cfg, Start(cfg))
  {
    RunKeepsPairs(cfg, []);
    var s := Start(cfg);
    forall a: nat | a < cfg.replicas ensures Own(s.leaders[a], a) == [] && ReplicaInv(cfg, s, a) {
      FirstLeader(cfg, a);
    }
    assert forall a, b :: 0 <= a < cfg.replicas && 0 <= b < cfg.replicas ==> IdsApart(s, a, b);
  }

  lemma {:induction false} RunKeepsOrder(cfg: Config, run: seq<Event>)
    requires ValidRun(cfg, run)
    ensures OrderInv(cfg, After(cfg, run))
  {
    if run == [] {
      StartOrder(cfg);
    } else {
      RunKeepsOrder(cfg, Before(run));
      StepKeepsOrder(cfg, After(cfg, Before(run)), run[|run| - 1]);
    }
  }

  // -------- order agreement

  /** The batches of replica 0 whose copies for origin `a` are in the global log of `c`, in its order. */
  function Order(s: System, c: nat, a: nat): seq<nat>
    requires c < |s.leaders|
  {
    var mine := Flatten(From(s.leaders[c].globalLog, a));
    if a == 0 then Ids(mine) else Sources(mine)
  }

  lemma PrefixTransitive<T>(p: seq<T>, q: seq<T>, r: seq<T>)
    requires IsPrefix(p, q) && IsPrefix(q, r)
    ensures IsPrefix(p, r)
  {
  }

  lemma FlattenPrefix(p: seq<Sequence>, q: seq<Sequence>)
    requires IsPrefix(p, q)
    ensures IsPrefix(Flatten(p), Flatten(q))
  {
    FlattenConcat(p, q[|p|..]);
    assert q == p + q[|p|..];
  }

  lemma SourcesPrefix(p: Sequence, q: Sequence)
    requires IsPrefix(p, q)
    ensures IsPrefix(Sources(p), Sources(q))
  {
    SourcesConcat(p, q[|p|..]);
    assert q == p + q[|p|..];
  }

  lemma ForReplicaPrefix(cfg: Config, a: nat, p: Sequence, q: Sequence)
    requires IsPrefix(p, q)
    ensures IsPrefix(ForReplica(cfg, a, p), ForReplica(cfg, a, q))
  {
    ForReplicaConcat(cfg, a, p, q[|p|..]);
    assert q == p + q[|p|..];
  }

  /** What the current round took from replica 0. */
  function TakenRound(l: Leader): seq<Sequence> {
    if !l.phase.Idle? && l.phase.round.from == 0 then [l.phase.round.sequence] else []
  }

  lemma HandledIsPrefix(l: Leader)
    requires l.phase.Regenerating? ==> l.phase.round.from == 0
    ensures IsPrefix(Seen(l), Flatten(From(l.globalLog, 0) + TakenRound(l)))
  {
    var logged := From(l.globalLog, 0);
    if TakenRound(l) == [] {
      assert logged + [] == logged;
    } else {
      FlattenMore(logged, l.phase.round.sequence);
    }
  }

  lemma RoundIsTaken(l: Leader)
    ensures IsPrefix(From(l.globalLog, 0) + TakenRound(l), From(Taken(l), 0))
  {
    FromTaken(l, 0);
    if !l.phase.Idle? {
      FromOne(l.phase.round, 0);
    }
  }

  /** Replica `a` has handled a prefix of what replica 0 logged. */
  lemma SeenIsPrefix(cfg: Config, s: System, a: nat)
    requires PairsInv(cfg, s) && 0 < a < cfg.replicas
    ensures IsPrefix(Seen(s.leaders[a]), Flatten(s.leaders[0].localLog))
  {
    var l, zero := s.leaders[a], s.leaders[0].localLog;
    var taken := From(l.globalLog, 0) + TakenRound(l);
    TakenIsPrefix(cfg, s, 0, a);
    assert LeaderShape(cfg, l, a);
    RoundIsTaken(l);
    PrefixTransitive(taken, From(Taken(l), 0), zero);
    HandledIsPrefix(l);
    FlattenPrefix(taken, zero);
    PrefixTransitive(Seen(l), Flatten(taken), Flatten(zero));
  }

  /** The batches regenerated at `a` and logged anywhere stand for a prefix of those replica 0 logged for `a`. */
  lemma OrderIsPrefix(cfg: Config, s: System, c: nat, a: nat)
    requires OrderInv(cfg, s) && c < cfg.replicas && 0 < a < cfg.replicas
    ensures IsPrefix(Order(s, c, a), ForReplica(cfg, a, Flatten(s.leaders[0].localLog)))
  {
    var l := s.leaders[a];
    LoggedIsPrefix(cfg, s, a, c);
    FlattenPrefix(From(s.leaders[c].globalLog, a), l.localLog);
    assert IsPrefix(Flatten(l.localLog), Own(l, a));
    PrefixTransitive(Flatten(From(s.leaders[c].globalLog, a)), Flatten(l.localLog), Own(l, a));
    SourcesPrefix(Flatten(From(s.leaders[c].globalLog, a)), Own(l, a));
    SeenIsPrefix(cfg, s, a);
    ForReplicaPrefix(cfg, a, Seen(l), Flatten(s.leaders[0].localLog));
    assert ReplicaInv(cfg, s, a);
    PrefixTransitive(Order(s, c, a), ForReplica(cfg, a, Seen(l)), ForReplica(cfg, a, Flatten(s.leaders[0].localLog)));
  }

  /** The order of replica 0's local log. */
  function BaseOrder(s: System): seq<nat>
    requires s.leaders != []
  {
    Ids(Flatten(s.leaders[0].localLog))
  }

  lemma BaseDistinct(cfg: Config, s: System)
    requires OrderInv(cfg, s) && cfg.replicas > 0
    ensures NoDuplicates(BaseOrder(s))
  {
    var own, base := Own(s.leaders[0], 0), Flatten(s.leaders[0].localLog);
    assert IdsApart(s, 0, 0);
    assert forall i :: 0 <= i < |base| ==> base[i] == own[i];
  }

  // -------- no batch is ordered twice

  lemma {:induction false} FlattenAt(ss: seq<Sequence>, p: nat, i: nat)
    requires p < |ss| && i < |ss[p]|
    ensures |Flatten(ss[..p])| + i < |Flatten(ss[..p + 1])| <= |Flatten(ss)|
    ensures Flatten(ss)[|Flatten(ss[..p])| + i] == ss[p][i]
  {
    FlattenMore(ss[..p], ss[p]);
    assert ss[..p] + [ss[p]] == ss[..p + 1];
    FlattenPrefix(ss[..p + 1], ss);
  }

  lemma FromAt(q: seq<Tagged>, p: nat)
    requires p < |q|
    ensures var a := q[p].from;
            && IsPrefix(From(q[..p + 1], a), From(q, a)) && |From(q[..p], a)| < |From(q[..p + 1], a)|
            && From(q, a)[|From(q[..p], a)|] == q[p].sequence
  {
    var a := q[p].from;
    assert q[..p + 1] == q[..p] + [q[p]] && q == q[..p + 1] + q[p + 1..];
    FromConcat(q[..p], [q[p]], a);
    FromConcat(q[..p + 1], q[p + 1..], a);
    FromOne(q[p], a);
  }

  lemma FromRank(q: seq<Tagged>, p: nat)
    requires p < |q|
    ensures var a := q[p].from;
            IsPrefix(From(q[..p], a), From(q, a)) && |From(q[..p], a)| < |From(q, a)|
  {
    var a := q[p].from;
    FromAt(q, p);
    FromConcat(q[..p], q[p..], a);
    assert q == q[..p] + q[p..];
  }

  /** Where batch `i` of entry `p` stands among all batches with the entry's origin. */
  function At(g: seq<Tagged>, p: nat, i: nat): nat
    requires p < |g|
  {
    |Flatten(From(g[..p], g[p].from))| + i
  }

  lemma AtIsThere(g: seq<Tagged>, p: nat, i: nat)
    requires p < |g| && i < |g[p].sequence|
    ensures var all := Flatten(From(g, g[p].from)); At(g, p, i) < |all| && all[At(g, p, i)] == g[p].sequence[i]
  {
    var ss := From(g, g[p].from);
    var rank := |From(g[..p], g[p].from)|;
    FromAt(g, p);
    FromRank(g, p);
    FlattenAt(ss, rank, i);
  }

  /** A batch in a global log is one of its origin's own. */
  lemma LoggedBatchIsOwn(cfg: Config, s: System, c: nat, p: nat, i: nat)
    requires OrderInv(cfg, s) && c < cfg.replicas && p < |s.leaders[c].globalLog|
    requires i < |s.leaders[c].globalLog[p].sequence| && s.leaders[c].globalLog[p].from < cfg.replicas
    ensures var g := s.leaders[c].globalLog;
            var own := Own(s.leaders[g[p].from], g[p].from);
            At(g, p, i) < |own| && own[At(g, p, i)] == g[p].sequence[i]
  {
    var g := s.leaders[c].globalLog;
    var a := g[p].from;
    AtIsThere(g, p, i);
    LoggedIsPrefix(cfg, s, a, c);
    FlattenPrefix(From(g, a), s.leaders[a].localLog);
  }

  predicate KnownOrigins(l: Leader, replicas: nat) {
    && (forall i :: 0 <= i < |l.globalLog| ==> l.globalLog[i].from < replicas)
    && (forall i :: 0 <= i < |l.remote| ==> l.remote[i].from < replicas)
    && (!l.phase.Idle? ==> l.phase.round.from < replicas)
  }

  predicate AllKnown(cfg: Config, s: System) {
    |s.leaders| == cfg.replicas && forall a :: 0 <= a < cfg.replicas ==> KnownOrigins(s.leaders[a], cfg.replicas)
  }

  lemma RoundKeepsOrigins(l: Leader, a: nat, replicas: nat)
    requires KnownOrigins(l, replicas) && a < replicas
    ensures l.open != [] || l.remote != [] ==> KnownOrigins(Begin(l, a), replicas)
    ensures CanCommit(l, replicas) ==> KnownOrigins(Commit(l, a, replicas), replicas)
  {
  }

  lemma StepKeepsOriginsAt(cfg: Config, s: System, e: Event, a: nat)
    requires AllKnown(cfg, s) && Enabled(cfg, s, e) && a < cfg.replicas
    ensures |Apply(cfg, s, e).leaders| == cfg.replicas && KnownOrigins(Apply(cfg, s, e).leaders[a], cfg.replicas)
  {
    assert KnownOrigins(s.leaders[a], cfg.replicas);
    if e.BeginRound? || e.CommitRound? {
      RoundKeepsOrigins(s.leaders[a], a, cfg.replicas);
    }
  }

  lemma StepKeepsOrigins(cfg: Config, s: System, e: Event)
    requires AllKnown(cfg, s) && Enabled(cfg, s, e)
    ensures AllKnown(cfg, Apply(cfg, s, e))
  {
    forall a: nat | a < cfg.replicas
      ensures |Apply(cfg, s, e).leaders| == cfg.replicas && KnownOrigins(Apply(cfg, s, e).leaders[a], cfg.replicas)
    {
      StepKeepsOriginsAt(cfg, s, e, a);
    }
  }

  lemma {:induction false} RunKeepsOrigins(cfg: Config, run: seq<Event>)
    requires ValidRun(cfg, run)
    ensures AllKnown(cfg, After(cfg, run))
  {
    if run != [] {
      RunKeepsOrigins(cfg, Before(run));
      StepKeepsOrigins(cfg, After(cfg, Before(run)), run[|run| - 1]);
    }
  }

  lemma EarlierIsEarlier(g: seq<Tagged>, p: nat, q: nat, i: nat)
    requires p < q < |g| && g[p].from == g[q].from && i < |g[p].sequence|
    ensures At(g, p, i) < At(g, q, 0)
  {
    var h := g[..q];
    assert h[..p] == g[..p] && h[p] == g[p];
    AtIsThere(h, p, i);
  }

  /** The global order never names a batch twice, so every batch is handed to the schedulers once. */
  lemma GlobalLogOrdersOnce(cfg: Config, run: seq<Event>, c: nat, p: nat, i: nat, q: nat, j: nat)
    requires ValidRun(cfg, run) && c < cfg.replicas && |After(cfg, run).leaders| == cfg.replicas
    requires var g := After(cfg, run).leaders[c].globalLog;
             && p < |g| && i < |g[p].sequence| && q < |g| && j < |g[q].sequence|
             && g[p].sequence[i].id == g[q].sequence[j].id
    ensures p == q && i == j
  {
    var s := After(cfg, run);
    var g := s.leaders[c].globalLog;
    RunKeepsOrder(cfg, run);
    RunKeepsOrigins(cfg, run);
    assert KnownOrigins(s.leaders[c], cfg.replicas);
    LoggedBatchIsOwn(cfg, s, c, p, i);
    LoggedBatchIsOwn(cfg, s, c, q, j);
    assert IdsApart(s, g[p].from, g[q].from);
    if p < q {
      EarlierIsEarlier(g, p, q, i);
    } else if q < p {
      EarlierIsEarlier(g, q, p, j);
    }
  }
}
