/** Every run of the replicas can be driven to a state in which everything has reached everybody. */
module ReplicaProgress {
  import opened Txns
  import opened LocalPaxos
  import opened ReplicaLogs
  import opened ReplicaSafety
  import opened ReplicaOrder

  /** Nothing is open, queued, in a round or under way. */
  ghost predicate Settled(cfg: Config, s: System) {
    && |s.leaders| == cfg.replicas
    && (forall a :: 0 <= a < cfg.replicas ==>
          s.leaders[a].phase.Idle? && s.leaders[a].open == [] && s.leaders[a].remote == [])
    && (forall a, b :: 0 <= a < cfg.replicas && 0 <= b < cfg.replicas ==> s.ships(a, b) == [] && s.acks(a, b) == [])
  }

  // -------- sums

  function Sum(n: nat, f: nat -> nat): nat {
    if n == 0 then 0 else Sum(n - 1, f) + f(n - 1)
  }

  lemma {:induction false} SumOneChanged(n: nat, f: nat -> nat, g: nat -> nat, i: nat)
    requires i < n && forall j: nat :: j < n && j != i ==> f(j) == g(j)
    ensures Sum(n, g) + f(i) == Sum(n, f) + g(i)
  {
    if i < n - 1 {
      SumOneChanged(n - 1, f, g, i);
    } else {
      SumBounded(n - 1, f, g, 0);
      SumBounded(n - 1, g, f, 0);
    }
  }

  lemma {:induction false} SumBounded(n: nat, f: nat -> nat, g: nat -> nat, c: nat)
    requires forall j: nat :: j < n ==> g(j) <= f(j) + c
    ensures Sum(n, g) <= Sum(n, f) + n * c
  {
    if n > 0 {
      SumBounded(n - 1, f, g, c);
      assert n * c == (n - 1) * c + c;
    }
  }

  // -------- the work that is left

  function Minus(x: nat, y: nat): nat {
    if x >= y then x - y else 0
  }

  /** What an open batch may still cost: its round, and for every replica a shipment, an acknowledgement and a round. */
  function CopyWeight(cfg: Config): nat {
    6 * cfg.replicas + 2
  }

  /** A batch of replica 0 may moreover be regenerated at every replica. */
  function BatchWeight(cfg: Config, a: nat): nat {
    if a == 0 then CopyWeight(cfg) + cfg.replicas * (CopyWeight(cfg) + 1) else CopyWeight(cfg)
  }

  /** Work left at replica `a` itself, when a batch weighs `w`. */
  function LocalWork(w: nat, l: Leader, a: nat): nat {
    (if l.phase.Idle? then 1 else 0) + w * (|l.open| + |RoundOf(l.phase, a)|)
  }

  /** Batches of replica 0 that the leader has yet to regenerate. */
  function RegenerationWork(w: nat, base: nat, l: Leader, a: nat): nat {
    if a == 0 then 0 else (w + 1) * Minus(base, |Seen(l)|)
  }

  function Base(s: System): nat {
    if s.leaders == [] then 0 else |Flatten(s.leaders[0].localLog)|
  }

  function LeaderWork(cfg: Config, base: nat, l: Leader, a: nat): nat {
    LocalWork(BatchWeight(cfg, a), l, a) + RegenerationWork(CopyWeight(cfg), base, l, a)
  }

  function WorkAt(cfg: Config, s: System): nat -> nat {
    (a: nat) => if a < |s.leaders| then LeaderWork(cfg, Base(s), s.leaders[a], a) else 0
  }

  /** Work left to bring the local log of `a` to `b`. */
  function PairWork(l: Leader, logged: nat, ships: seq<Shipment>, acks: seq<nat>, b: nat): nat {
    4 * Minus(|l.localLog|, logged) + 2 * (if b < |l.readers| then Minus(|l.localLog|, l.readers[b]) else 0)
    + 2 * |ships| + |acks|
  }

  function PairWorkIn(s: System, a: nat, b: nat): nat {
    if a < |s.leaders| && b < |s.leaders| && a != b then
      PairWork(s.leaders[a], |From(s.leaders[b].globalLog, a)|, s.ships(a, b), s.acks(a, b), b)
    else
      0
  }

  function WorkBetween(s: System, a: nat): nat -> nat {
    (b: nat) => PairWorkIn(s, a, b)
  }

  function WorkFrom(cfg: Config, s: System): nat -> nat {
    (a: nat) => Sum(cfg.replicas, WorkBetween(s, a))
  }

  function WorkLeft(cfg: Config, s: System): nat {
    Sum(cfg.replicas, WorkAt(cfg, s)) + Sum(cfg.replicas, WorkFrom(cfg, s))
  }

  // -------- steps of one leader

  /** A leader's own round is never empty. */
  predicate OwnRoundsFull(cfg: Config, s: System) {
    |s.leaders| == cfg.replicas && forall a :: 0 <= a < cfg.replicas ==> OwnRoundFull(s.leaders[a], a)
  }

  predicate OwnRoundFull(l: Leader, a: nat) {
    && (OwnRound(l, a) ==> l.phase.round.sequence != [])
    && (forall t :: t in l.remote ==> t.from != a) && (l.phase.Regenerating? ==> a != 0 && l.phase.round.from == 0)
  }

  ghost predicate ProgressInv(cfg: Config, s: System) {
    OrderInv(cfg, s) && AllKnown(cfg, s) && OwnRoundsFull(cfg, s)
  }

  lemma StepKeepsRound(cfg: Config, s: System, e: Event, a: nat)
    requires |s.leaders| == cfg.replicas && Enabled(cfg, s, e) && a < cfg.replicas && OwnRoundFull(s.leaders[a], a)
    requires |Apply(cfg, s, e).leaders| == cfg.replicas && LeaderShape(cfg, Apply(cfg, s, e).leaders[a], a)
    ensures OwnRoundFull(Apply(cfg, s, e).leaders[a], a)
  {
  }

  lemma StepKeepsRounds(cfg: Config, s: System, e: Event)
    requires OwnRoundsFull(cfg, s) && Enabled(cfg, s, e) && Shape(cfg, Apply(cfg, s, e))
    ensures OwnRoundsFull(cfg, Apply(cfg, s, e))
  {
    forall a: nat | a < cfg.replicas ensures OwnRoundFull(Apply(cfg, s, e).leaders[a], a) {
      assert LeaderShape(cfg, Apply(cfg, s, e).leaders[a], a);
      StepKeepsRound(cfg, s, e, a);
    }
  }

  lemma {:induction false} RunKeepsProgressInv(cfg: Config, run: seq<Event>)
    requires ValidRun(cfg, run)
    ensures ProgressInv(cfg, After(cfg, run))
  {
    RunKeepsOrder(cfg, run);
    RunKeepsOrigins(cfg, run);
    if run != [] {
      RunKeepsProgressInv(cfg, Before(run));
      StepKeepsRounds(cfg, After(cfg, Before(run)), run[|run| - 1]);
    }
  }

  lemma SamePairWork(s: System, s': System, c: nat, l: Leader, a: nat, b: nat)
    requires c < |s.leaders| && s'.leaders == s.leaders[c := l] && s'.ships == s.ships && s'.acks == s.acks
    requires l.localLog == s.leaders[c].localLog && l.globalLog == s.leaders[c].globalLog
    requires l.readers == s.leaders[c].readers
    ensures PairWorkIn(s', a, b) == PairWorkIn(s, a, b)
  {
  }

  /** A step that only concerns one leader, without its logs and readers, takes that leader's work down. */
  lemma LeaderWorks(cfg: Config, s: System, s': System, c: nat, l: Leader)
    requires |s.leaders| == cfg.replicas && c < cfg.replicas
    requires s'.leaders == s.leaders[c := l] && s'.ships == s.ships && s'.acks == s.acks
    requires l.localLog == s.leaders[c].localLog && l.globalLog == s.leaders[c].globalLog
    requires l.readers == s.leaders[c].readers
    requires LeaderWork(cfg, Base(s), l, c) < LeaderWork(cfg, Base(s), s.leaders[c], c)
    ensures WorkLeft(cfg, s') < WorkLeft(cfg, s)
  {
    assert Base(s') == Base(s);
    SumOneChanged(cfg.replicas, WorkAt(cfg, s), WorkAt(cfg, s'), c);
    forall a: nat ensures WorkFrom(cfg, s')(a) <= WorkFrom(cfg, s)(a) {
      forall b: nat ensures WorkBetween(s', a)(b) <= WorkBetween(s, a)(b) {
        SamePairWork(s, s', c, l, a, b);
      }
      SumBounded(cfg.replicas, WorkBetween(s, a), WorkBetween(s', a), 0);
    }
    SumBounded(cfg.replicas, WorkFrom(cfg, s), WorkFrom(cfg, s'), 0);
  }

  lemma BeginCost(cfg: Config, base: nat, l: Leader, l': Leader, c: nat)
    requires |l.open| + |RoundOf(l.phase, c)| == |l'.open| + |RoundOf(l'.phase, c)|
    requires c != 0 ==> |Seen(l)| == |Seen(l')|
    requires l.phase.Idle? && !l'.phase.Idle?
    ensures LeaderWork(cfg, base, l', c) < LeaderWork(cfg, base, l, c)
  {
  }

  lemma BeginMovesOpen(cfg: Config, l: Leader, c: nat)
    requires LeaderShape(cfg, l, c) && l.phase.Idle? && (l.open != [] || l.remote != [])
    ensures |l.open| + |RoundOf(l.phase, c)| == |Begin(l, c).open| + |RoundOf(Begin(l, c).phase, c)|
  {
    assert l.remote != [] ==> l.remote[0] in l.remote;
  }

  lemma BeginWorks(cfg: Config, s: System, c: nat)
    requires ProgressInv(cfg, s) && Enabled(cfg, s, BeginRound(c))
    ensures WorkLeft(cfg, Apply(cfg, s, BeginRound(c))) < WorkLeft(cfg, s)
  {
    var l := s.leaders[c];
    assert LeaderShape(cfg, l, c);
    BeginKeepsOwn(cfg, l, c);
    BeginMovesOpen(cfg, l, c);
    BeginCost(cfg, Base(s), l, Begin(l, c), c);
    LeaderWorks(cfg, s, Apply(cfg, s, BeginRound(c)), c, Begin(l, c));
  }

  lemma RegenerateWorks(cfg: Config, s: System, c: nat, id: nat)
    requires ProgressInv(cfg, s) && Enabled(cfg, s, RegenerateNext(c, id))
    ensures WorkLeft(cfg, Apply(cfg, s, RegenerateNext(c, id))) < WorkLeft(cfg, s)
  {
    var s' := Apply(cfg, s, RegenerateNext(c, id));
    var l, l' := s.leaders[c], Regenerate(s.leaders[c], id);
    assert LeaderShape(cfg, l, c);
    StepKeepsPairs(cfg, s, RegenerateNext(c, id));
    RegenerateAdds(l, c, id);
    SeenIsPrefix(cfg, s, c);
    SeenIsPrefix(cfg, s', c);
    assert s'.leaders[c] == l' && s'.leaders[0] == s.leaders[0];
    RegenerateCost(cfg, Base(s), l, l', c);
    LeaderWorks(cfg, s, s', c, l');
  }

  lemma RegenerateCost(cfg: Config, base: nat, l: Leader, l': Leader, c: nat)
    requires c != 0 && |Seen(l')| == |Seen(l)| + 1 <= base && |l'.open| <= |l.open| + 1
    requires l.phase.Regenerating? && !l'.phase.Idle? && RoundOf(l.phase, c) == [] == RoundOf(l'.phase, c)
    ensures LeaderWork(cfg, base, l', c) < LeaderWork(cfg, base, l, c)
  {
    CostArithmetic(CopyWeight(cfg), |l.open|, |l'.open|, Minus(base, |Seen(l')|));
  }

  lemma CostArithmetic(w: nat, open: nat, open': nat, left: nat)
    requires open' <= open + 1
    ensures w * open' + (w + 1) * left < w * open + (w + 1) * (left + 1)
  {
    assert w * open' <= w * (open + 1) == w * open + w;
    assert (w + 1) * (left + 1) == (w + 1) * left + w + 1;
  }

  // -------- messages

  /** A step that takes the work of one pair down and leaves everything else alone. */
  lemma PairWorks(cfg: Config, s: System, s': System, c: nat, d: nat)
    requires |s.leaders| == |s'.leaders| == cfg.replicas && c < cfg.replicas && d < cfg.replicas
    requires forall a: nat :: a < cfg.replicas ==> WorkAt(cfg, s')(a) <= WorkAt(cfg, s)(a)
    requires forall a: nat, b: nat :: a != c || b != d ==> PairWorkIn(s', a, b) <= PairWorkIn(s, a, b)
    requires PairWorkIn(s', c, d) < PairWorkIn(s, c, d)
    ensures WorkLeft(cfg, s') < WorkLeft(cfg, s)
  {
    SumBounded(cfg.replicas, WorkAt(cfg, s), WorkAt(cfg, s'), 0);
    forall a: nat ensures WorkFrom(cfg, s')(a) <= WorkFrom(cfg, s)(a) {
      if a != c {
        SumBounded(cfg.replicas, WorkBetween(s, a), WorkBetween(s', a), 0);
      } else {
        SumLess(cfg.replicas, WorkBetween(s, c), WorkBetween(s', c), d);
      }
    }
    SumLess(cfg.replicas, WorkBetween(s, c), WorkBetween(s', c), d);
    SumLess(cfg.replicas, WorkFrom(cfg, s), WorkFrom(cfg, s'), c);
  }

  lemma {:induction false} SumLess(n: nat, f: nat -> nat, g: nat -> nat, i: nat)
    requires i < n && g(i) < f(i) && forall j: nat :: j < n ==> g(j) <= f(j)
    ensures Sum(n, g) < Sum(n, f)
  {
    if i < n - 1 {
      SumLess(n - 1, f, g, i);
    } else {
      SumBounded(n - 1, f, g, 0);
    }
  }

  lemma ShipmentSameLeaders(cfg: Config, s: System, c: nat, d: nat, a: nat)
    requires Enabled(cfg, s, DeliverShipment(c, d)) && a < cfg.replicas
    ensures WorkAt(cfg, Apply(cfg, s, DeliverShipment(c, d)))(a) == WorkAt(cfg, s)(a)
  {
    assert Base(Apply(cfg, s, DeliverShipment(c, d))) == Base(s);
  }

  lemma ShipmentToOtherWorks(cfg: Config, s: System, c: nat, d: nat)
    requires Enabled(cfg, s, DeliverShipment(c, d)) && c != d
    ensures WorkLeft(cfg, Apply(cfg, s, DeliverShipment(c, d))) < WorkLeft(cfg, s)
  {
    var s' := Apply(cfg, s, DeliverShipment(c, d));
    forall a: nat, b: nat | a != c || b != d ensures PairWorkIn(s', a, b) <= PairWorkIn(s, a, b) {
      ShipmentSamePair(cfg, s, c, d, a, b);
    }
    ShipmentPair(cfg, s, c, d);
    forall a: nat | a < cfg.replicas ensures WorkAt(cfg, s')(a) <= WorkAt(cfg, s)(a) {
      ShipmentSameLeaders(cfg, s, c, d, a);
    }
    PairWorks(cfg, s, s', c, d);
  }

  lemma ShipmentWorks(cfg: Config, s: System, c: nat, d: nat)
    requires ProgressInv(cfg, s) && Enabled(cfg, s, DeliverShipment(c, d))
    ensures WorkLeft(cfg, Apply(cfg, s, DeliverShipment(c, d))) < WorkLeft(cfg, s)
  {
    assert s.ships(c, c) == [] && c != d;
    ShipmentToOtherWorks(cfg, s, c, d);
  }

  lemma ShipmentSamePair(cfg: Config, s: System, c: nat, d: nat, a: nat, b: nat)
    requires Enabled(cfg, s, DeliverShipment(c, d)) && (a != c || b != d)
    ensures PairWorkIn(Apply(cfg, s, DeliverShipment(c, d)), a, b) == PairWorkIn(s, a, b)
  {
  }

  lemma ShipmentPair(cfg: Config, s: System, c: nat, d: nat)
    requires Enabled(cfg, s, DeliverShipment(c, d)) && c != d
    ensures PairWorkIn(Apply(cfg, s, DeliverShipment(c, d)), c, d) < PairWorkIn(s, c, d)
  {
  }

  lemma AckSamePair(cfg: Config, s: System, c: nat, d: nat, a: nat, b: nat)
    requires Enabled(cfg, s, DeliverAck(c, d)) && (a != c || b != d)
    ensures PairWorkIn(Apply(cfg, s, DeliverAck(c, d)), a, b) == PairWorkIn(s, a, b)
  {
  }

  lemma AckPairWork(cfg: Config, s: System, c: nat, d: nat)
    requires Enabled(cfg, s, DeliverAck(c, d)) && c != d && d < cfg.replicas
    requires s.acks(c, d)[0] <= s.leaders[c].readers[d]
    ensures PairWorkIn(Apply(cfg, s, DeliverAck(c, d)), c, d) < PairWorkIn(s, c, d)
  {
  }

  lemma AckIsCurrent(cfg: Config, s: System, c: nat, d: nat)
    requires PairsInv(cfg, s) && Enabled(cfg, s, DeliverAck(c, d)) && d < cfg.replicas
    ensures c != d && s.acks(c, d)[0] <= s.leaders[c].readers[d]
  {
    assert c != d && PairInv(cfg, s, c, d);
  }

  lemma AckSameLeaders(cfg: Config, s: System, c: nat, d: nat, a: nat)
    requires Enabled(cfg, s, DeliverAck(c, d)) && a < cfg.replicas
    ensures WorkAt(cfg, Apply(cfg, s, DeliverAck(c, d)))(a) == WorkAt(cfg, s)(a)
  {
    assert Base(Apply(cfg, s, DeliverAck(c, d))) == Base(s);
  }

  lemma CurrentAckWorks(cfg: Config, s: System, c: nat, d: nat)
    requires Enabled(cfg, s, DeliverAck(c, d)) && d < cfg.replicas && c != d
    requires s.acks(c, d)[0] <= s.leaders[c].readers[d]
    ensures WorkLeft(cfg, Apply(cfg, s, DeliverAck(c, d))) < WorkLeft(cfg, s)
  {
    var s' := Apply(cfg, s, DeliverAck(c, d));
    forall a: nat, b: nat | a != c || b != d ensures PairWorkIn(s', a, b) <= PairWorkIn(s, a, b) {
      AckSamePair(cfg, s, c, d, a, b);
    }
    AckPairWork(cfg, s, c, d);
    forall a: nat | a < cfg.replicas ensures WorkAt(cfg, s')(a) <= WorkAt(cfg, s)(a) {
      AckSameLeaders(cfg, s, c, d, a);
    }
    PairWorks(cfg, s, s', c, d);
  }

  lemma AckWorks(cfg: Config, s: System, c: nat, d: nat)
    requires ProgressInv(cfg, s) && Enabled(cfg, s, DeliverAck(c, d)) && d < cfg.replicas
    ensures WorkLeft(cfg, Apply(cfg, s, DeliverAck(c, d))) < WorkLeft(cfg, s)
  {
    AckIsCurrent(cfg, s, c, d);
    CurrentAckWorks(cfg, s, c, d);
  }

  // -------- commits

  /** A commit costs each pair at most a shipment, an acknowledgement and a round. */
  lemma CommitPairWork(cfg: Config, l: Leader, c: nat, b: nat, logged: nat, ships: seq<Shipment>, acks: seq<nat>)
    requires LeaderShape(cfg, l, c) && CanCommit(l, cfg.replicas) && IsOther(c, cfg.replicas, b)
    ensures var l' := Commit(l, c, cfg.replicas);
            var out := Shipped(l, c, cfg.replicas);
            var ships' := if b in out then ships + [out[b]] else ships;
            && PairWork(l', logged, ships', acks, b) <= PairWork(l, logged, ships, acks, b) + 6
            && (!OwnRound(l, c) ==> PairWork(l', logged, ships', acks, b) == PairWork(l, logged, ships, acks, b))
  {
    assert b in Shipped(l, c, cfg.replicas) <==> b in Targets(l, c, cfg.replicas);
  }

  lemma CommitLogs(l: Leader, c: nat, replicas: nat, a: nat)
    requires CanCommit(l, replicas)
    ensures |From(Commit(l, c, replicas).globalLog, a)|
            == |From(l.globalLog, a)| + if l.phase.round.from == a then 1 else 0
  {
    FromConcat(l.globalLog, [l.phase.round], a);
    FromOne(l.phase.round, a);
  }

  /** What a commit at `c` does to the work of a pair. */
  lemma CommitPairIn(cfg: Config, s: System, c: nat, a: nat, b: nat)
    requires ProgressInv(cfg, s) && Enabled(cfg, s, CommitRound(c)) && a < cfg.replicas && b < cfg.replicas
    ensures var s', l := Apply(cfg, s, CommitRound(c)), s.leaders[c];
            && (OwnRound(l, c) && a == c ==> PairWorkIn(s', a, b) <= PairWorkIn(s, a, b) + 6)
            && (OwnRound(l, c) && a != c ==> PairWorkIn(s', a, b) == PairWorkIn(s, a, b))
            && (!OwnRound(l, c) && a == l.phase.round.from && b == c ==> PairWorkIn(s', a, b) + 4 == PairWorkIn(s, a, b))
            && (!OwnRound(l, c) && (a != l.phase.round.from || b != c) ==> PairWorkIn(s', a, b) == PairWorkIn(s, a, b))
  {
    var l := s.leaders[c];
    assert LeaderShape(cfg, l, c);
    CommitLogs(l, c, cfg.replicas, a);
    if a == c && b != c {
      CommitPairWork(cfg, l, c, b, |From(s.leaders[b].globalLog, a)|, s.ships(a, b), s.acks(a, b));
    } else if b == c && a != c {
      LoggedAfterRound(cfg, s, c, a);
    }
  }

  /** The round at `c` is a sequence of its origin that `c` has not logged yet. */
  lemma LoggedAfterRound(cfg: Config, s: System, c: nat, a: nat)
    requires PairsInv(cfg, s) && c < cfg.replicas && a < cfg.replicas && a != c && !s.leaders[c].phase.Idle?
    ensures |From(s.leaders[c].globalLog, a)| + (if s.leaders[c].phase.round.from == a then 1 else 0)
            <= |s.leaders[a].localLog|
  {
    TakenIsPrefix(cfg, s, a, c);
    FromTaken(s.leaders[c], a);
    FromOne(s.leaders[c].phase.round, a);
  }

  lemma CommitLeaderWork(cfg: Config, base: nat, l: Leader, c: nat)
    requires CanCommit(l, cfg.replicas)
    ensures LeaderWork(cfg, base, Commit(l, c, cfg.replicas), c) + BatchWeight(cfg, c) * |RoundOf(l.phase, c)|
            == LeaderWork(cfg, base, l, c) + 1
  {
    var l' := Commit(l, c, cfg.replicas);
    CommitKeepsSeen(l, c, cfg.replicas);
    assert RoundOf(l'.phase, c) == [] && l'.open == l.open;
    Distribute(BatchWeight(cfg, c), |l.open|, |RoundOf(l.phase, c)|);
  }

  lemma Distribute(w: nat, p: nat, q: nat)
    ensures w * (p + q) == w * p + w * q
  {
  }

  lemma RemoteCommitLeaders(cfg: Config, s: System, c: nat)
    requires ProgressInv(cfg, s) && Enabled(cfg, s, CommitRound(c)) && !OwnRound(s.leaders[c], c)
    ensures Sum(cfg.replicas, WorkAt(cfg, Apply(cfg, s, CommitRound(c)))) <= Sum(cfg.replicas, WorkAt(cfg, s)) + 1
  {
    var s', l := Apply(cfg, s, CommitRound(c)), s.leaders[c];
    assert s'.leaders[c].localLog == l.localLog && Base(s') == Base(s);
    CommitLeaderWork(cfg, Base(s), l, c);
    SumOneChanged(cfg.replicas, WorkAt(cfg, s), WorkAt(cfg, s'), c);
  }

  /** One pair has `d` less work, all others the same. */
  ghost predicate OnePairLess(cfg: Config, s: System, s': System, a: nat, b: nat, d: nat) {
    forall x: nat, y: nat :: x < cfg.replicas && y < cfg.replicas ==>
      WorkBetween(s', x)(y) + (if x == a && y == b then d else 0) == WorkBetween(s, x)(y)
  }

  lemma OnePairSums(cfg: Config, s: System, s': System, a: nat, b: nat, d: nat)
    requires a < cfg.replicas && b < cfg.replicas && OnePairLess(cfg, s, s', a, b, d)
    ensures Sum(cfg.replicas, WorkFrom(cfg, s')) + d == Sum(cfg.replicas, WorkFrom(cfg, s))
  {
    SumOneChanged(cfg.replicas, WorkBetween(s, a), WorkBetween(s', a), b);
    forall x: nat | x < cfg.replicas && x != a ensures WorkFrom(cfg, s')(x) == WorkFrom(cfg, s)(x) {
      SumBounded(cfg.replicas, WorkBetween(s, x), WorkBetween(s', x), 0);
      SumBounded(cfg.replicas, WorkBetween(s', x), WorkBetween(s, x), 0);
    }
    SumOneChanged(cfg.replicas, WorkFrom(cfg, s), WorkFrom(cfg, s'), a);
  }

  lemma RemoteCommitWorks(cfg: Config, s: System, c: nat)
    requires ProgressInv(cfg, s) && Enabled(cfg, s, CommitRound(c)) && !OwnRound(s.leaders[c], c)
    ensures WorkLeft(cfg, Apply(cfg, s, CommitRound(c))) < WorkLeft(cfg, s)
  {
    var s', a := Apply(cfg, s, CommitRound(c)), s.leaders[c].phase.round.from;
    assert KnownOrigins(s.leaders[c], cfg.replicas);
    RemoteCommitLeaders(cfg, s, c);
    forall x: nat, y: nat | x < cfg.replicas && y < cfg.replicas
      ensures WorkBetween(s', x)(y) + (if x == a && y == c then 4 else 0) == WorkBetween(s, x)(y)
    {
      CommitPairIn(cfg, s, c, x, y);
    }
    OnePairSums(cfg, s, s', a, c, 4);
  }

  /** A row of pairs has at most `d` more work for each, the others the same. */
  ghost predicate OneRowMore(cfg: Config, s: System, s': System, c: nat, d: nat) {
    forall a: nat, b: nat :: a < cfg.replicas && b < cfg.replicas ==>
      if a == c then WorkBetween(s', a)(b) <= WorkBetween(s, a)(b) + d else WorkBetween(s', a)(b) == WorkBetween(s, a)(b)
  }

  lemma OneRowSums(cfg: Config, s: System, s': System, c: nat, d: nat)
    requires c < cfg.replicas && OneRowMore(cfg, s, s', c, d)
    ensures Sum(cfg.replicas, WorkFrom(cfg, s')) <= Sum(cfg.replicas, WorkFrom(cfg, s)) + cfg.replicas * d
  {
    SumBounded(cfg.replicas, WorkBetween(s, c), WorkBetween(s', c), d);
    forall a: nat | a < cfg.replicas && a != c ensures WorkFrom(cfg, s')(a) == WorkFrom(cfg, s)(a) {
      SumBounded(cfg.replicas, WorkBetween(s, a), WorkBetween(s', a), 0);
      SumBounded(cfg.replicas, WorkBetween(s', a), WorkBetween(s, a), 0);
    }
    SumOneChanged(cfg.replicas, WorkFrom(cfg, s), WorkFrom(cfg, s'), c);
  }

  /** Pairs: a local commit adds at most six for each replica. */
  lemma OwnCommitPairs(cfg: Config, s: System, c: nat)
    requires ProgressInv(cfg, s) && Enabled(cfg, s, CommitRound(c)) && OwnRound(s.leaders[c], c)
    ensures Sum(cfg.replicas, WorkFrom(cfg, Apply(cfg, s, CommitRound(c))))
            <= Sum(cfg.replicas, WorkFrom(cfg, s)) + cfg.replicas * 6
  {
    var s' := Apply(cfg, s, CommitRound(c));
    forall a: nat, b: nat | a < cfg.replicas && b < cfg.replicas
      ensures if a == c then WorkBetween(s', a)(b) <= WorkBetween(s, a)(b) + 6
              else WorkBetween(s', a)(b) == WorkBetween(s, a)(b)
    {
      CommitPairIn(cfg, s, c, a, b);
    }
    OneRowSums(cfg, s, s', c, 6);
  }

  lemma OwnCommitElsewhere(cfg: Config, s: System, c: nat)
    requires ProgressInv(cfg, s) && Enabled(cfg, s, CommitRound(c)) && OwnRound(s.leaders[c], c) && c != 0
    ensures Sum(cfg.replicas, WorkAt(cfg, Apply(cfg, s, CommitRound(c))))
            + CopyWeight(cfg) * |s.leaders[c].phase.round.sequence|
            <= Sum(cfg.replicas, WorkAt(cfg, s)) + 1
  {
    var s' := Apply(cfg, s, CommitRound(c));
    CommitLeaderWork(cfg, Base(s), s.leaders[c], c);
    assert Base(s') == Base(s);
    SumOneChanged(cfg.replicas, WorkAt(cfg, s), WorkAt(cfg, s'), c);
  }

  function WorkMidwayAt(cfg: Config, s: System, s': System, x: nat): nat {
    if x == 0 then WorkAt(cfg, s')(x) else WorkAt(cfg, s)(x)
  }

  /** The work of the leaders after a commit at replica 0, but before the others learn of it. */
  function WorkMidway(cfg: Config, s: System, s': System): nat -> nat {
    (x: nat) => WorkMidwayAt(cfg, s, s', x)
  }

  lemma LearnMore(w: nat, base: nat, n: nat, l: Leader, x: nat)
    ensures RegenerationWork(w, base + n, l, x) <= RegenerationWork(w, base, l, x) + (w + 1) * n
    ensures x == 0 ==> RegenerationWork(w, base + n, l, x) == RegenerationWork(w, base, l, x)
  {
    MoreToRegenerate(w, base, n, |Seen(l)|);
  }

  lemma LearnCost(cfg: Config, base: nat, n: nat, l: Leader, x: nat)
    ensures LeaderWork(cfg, base + n, l, x) <= LeaderWork(cfg, base, l, x) + (CopyWeight(cfg) + 1) * n
    ensures x == 0 ==> LeaderWork(cfg, base + n, l, x) == LeaderWork(cfg, base, l, x)
  {
    LearnMore(CopyWeight(cfg), base, n, l, x);
  }

  lemma ZeroCommits(cfg: Config, s: System)
    requires |s.leaders| == cfg.replicas && Enabled(cfg, s, CommitRound(0)) && OwnRound(s.leaders[0], 0)
    ensures var s', n := Apply(cfg, s, CommitRound(0)), |s.leaders[0].phase.round.sequence|;
            && Base(s') == Base(s) + n && |s'.leaders| == cfg.replicas
            && s'.leaders[0] == Commit(s.leaders[0], 0, cfg.replicas)
            && (forall x :: 0 < x < cfg.replicas ==> s'.leaders[x] == s.leaders[x])
  {
    FlattenMore(s.leaders[0].localLog, s.leaders[0].phase.round.sequence);
  }

  /** The others have more to regenerate, by at most the round. */
  lemma OthersLearn(cfg: Config, s: System, cost: nat)
    requires |s.leaders| == cfg.replicas && Enabled(cfg, s, CommitRound(0)) && OwnRound(s.leaders[0], 0)
    requires forall l, x :: LeaderWork(cfg, Base(s) + |s.leaders[0].phase.round.sequence|, l, x)
                            <= LeaderWork(cfg, Base(s), l, x) + cost
    ensures var s' := Apply(cfg, s, CommitRound(0));
            Sum(cfg.replicas, WorkAt(cfg, s')) <= Sum(cfg.replicas, WorkMidway(cfg, s, s')) + cfg.replicas * cost
  {
    var s' := Apply(cfg, s, CommitRound(0));
    ZeroCommits(cfg, s);
    SumBounded(cfg.replicas, WorkMidway(cfg, s, s'), WorkAt(cfg, s'), cost);
  }

  lemma ZeroPays(cfg: Config, s: System)
    requires |s.leaders| == cfg.replicas && Enabled(cfg, s, CommitRound(0)) && OwnRound(s.leaders[0], 0)
    ensures var s', n := Apply(cfg, s, CommitRound(0)), |s.leaders[0].phase.round.sequence|;
            Sum(cfg.replicas, WorkMidway(cfg, s, s')) + BatchWeight(cfg, 0) * n == Sum(cfg.replicas, WorkAt(cfg, s)) + 1
  {
    var s', l := Apply(cfg, s, CommitRound(0)), s.leaders[0];
    ZeroCommits(cfg, s);
    CommitLeaderWork(cfg, Base(s), l, 0);
    LearnCost(cfg, Base(s), |l.phase.round.sequence|, s'.leaders[0], 0);
    SumOneChanged(cfg.replicas, WorkAt(cfg, s), WorkMidway(cfg, s, s'), 0);
  }

  lemma OwnCommitAtZero(cfg: Config, s: System)
    requires |s.leaders| == cfg.replicas && Enabled(cfg, s, CommitRound(0)) && OwnRound(s.leaders[0], 0)
    ensures Sum(cfg.replicas, WorkAt(cfg, Apply(cfg, s, CommitRound(0))))
            + CopyWeight(cfg) * |s.leaders[0].phase.round.sequence|
            <= Sum(cfg.replicas, WorkAt(cfg, s)) + 1
  {
    var n := |s.leaders[0].phase.round.sequence|;
    forall l, x ensures LeaderWork(cfg, Base(s) + n, l, x) <= LeaderWork(cfg, Base(s), l, x) + (CopyWeight(cfg) + 1) * n {
      LearnCost(cfg, Base(s), n, l, x);
    }
    OthersLearn(cfg, s, (CopyWeight(cfg) + 1) * n);
    ZeroPays(cfg, s);
    PaysForCopies(cfg.replicas, CopyWeight(cfg), n);
  }

  /** Leaders: the weight of the round pays for the regeneration it causes. */
  lemma OwnCommitLeaders(cfg: Config, s: System, c: nat)
    requires ProgressInv(cfg, s) && Enabled(cfg, s, CommitRound(c)) && OwnRound(s.leaders[c], c)
    ensures Sum(cfg.replicas, WorkAt(cfg, Apply(cfg, s, CommitRound(c))))
            + CopyWeight(cfg) * |s.leaders[c].phase.round.sequence|
            <= Sum(cfg.replicas, WorkAt(cfg, s)) + 1
  {
    if c == 0 {
      OwnCommitAtZero(cfg, s);
    } else {
      OwnCommitElsewhere(cfg, s, c);
    }
  }

  lemma MoreToRegenerate(w: nat, base: nat, n: nat, seen: nat)
    ensures (w + 1) * Minus(base + n, seen) <= (w + 1) * Minus(base, seen) + (w + 1) * n
  {
    assert Minus(base + n, seen) <= Minus(base, seen) + n;
    assert (w + 1) * Minus(base + n, seen) <= (w + 1) * (Minus(base, seen) + n);
  }

  lemma PaysForCopies(replicas: nat, w: nat, n: nat)
    ensures (w + replicas * (w + 1)) * n == w * n + replicas * ((w + 1) * n)
  {
    assert replicas * (w + 1) * n == replicas * ((w + 1) * n);
  }

  lemma RoundPays(cfg: Config, n: nat)
    requires n >= 1
    ensures cfg.replicas * 6 + 1 < CopyWeight(cfg) * n
  {
    assert CopyWeight(cfg) * n >= CopyWeight(cfg) * 1;
  }

  lemma OwnCommitWorks(cfg: Config, s: System, c: nat)
    requires ProgressInv(cfg, s) && Enabled(cfg, s, CommitRound(c)) && OwnRound(s.leaders[c], c)
    ensures WorkLeft(cfg, Apply(cfg, s, CommitRound(c))) < WorkLeft(cfg, s)
  {
    assert OwnRoundFull(s.leaders[c], c);
    RoundPays(cfg, |s.leaders[c].phase.round.sequence|);
    OwnCommitPairs(cfg, s, c);
    OwnCommitLeaders(cfg, s, c);
    Adds(Sum(cfg.replicas, WorkAt(cfg, s)), Sum(cfg.replicas, WorkFrom(cfg, s)),
         Sum(cfg.replicas, WorkAt(cfg, Apply(cfg, s, CommitRound(c)))),
         Sum(cfg.replicas, WorkFrom(cfg, Apply(cfg, s, CommitRound(c)))),
         CopyWeight(cfg) * |s.leaders[c].phase.round.sequence|, cfg.replicas * 6);
  }

  lemma Adds(p: nat, q: nat, p': nat, q': nat, gain: nat, cost: nat)
    requires p' + gain <= p + 1 && q' <= q + cost && cost + 1 < gain
    ensures p' + q' < p + q
  {
  }

  lemma CommitWorks(cfg: Config, s: System, c: nat)
    requires ProgressInv(cfg, s) && Enabled(cfg, s, CommitRound(c))
    ensures WorkLeft(cfg, Apply(cfg, s, CommitRound(c))) < WorkLeft(cfg, s)
  {
    if OwnRound(s.leaders[c], c) {
      OwnCommitWorks(cfg, s, c);
    } else {
      RemoteCommitWorks(cfg, s, c);
    }
  }

  // -------- driving a run to the end

  lemma {:induction false} Bound(s: set<nat>) returns (b: nat)
    ensures forall x :: x in s ==> x < b
  {
    if s == {} {
      b := 0;
    } else {
      var x :| x in s;
      var rest := Bound(s - {x});
      b := if x < rest then rest else x + 1;
      assert forall y :: y in s ==> y == x || y in s - {x};
    }
  }

  lemma ArrivalKeepsWork(cfg: Config, s: System, c: nat, id: nat)
    requires Enabled(cfg, s, MultiArrives(c, id))
    ensures WorkLeft(cfg, Apply(cfg, s, MultiArrives(c, id))) <= WorkLeft(cfg, s)
  {
    var s' := Apply(cfg, s, MultiArrives(c, id));
    var l' := s'.leaders[c];
    assert Base(s') == Base(s);
    assert Seen(l') == Seen(s.leaders[c]);
    SumBounded(cfg.replicas, WorkAt(cfg, s), WorkAt(cfg, s'), 0);
    forall a: nat ensures WorkFrom(cfg, s')(a) <= WorkFrom(cfg, s)(a) {
      forall b: nat ensures WorkBetween(s', a)(b) <= WorkBetween(s, a)(b) {
        SamePairWork(s, s', c, l', a, b);
      }
      SumBounded(cfg.replicas, WorkBetween(s, a), WorkBetween(s', a), 0);
    }
    SumBounded(cfg.replicas, WorkFrom(cfg, s), WorkFrom(cfg, s'), 0);
  }

  /** The run goes on with an event that is not a client's. */
  ghost predicate GoesOn(cfg: Config, run: seq<Event>, more: seq<Event>) {
    && ValidRun(cfg, run) && ValidRun(cfg, more) && run <= more
    && forall i :: |run| <= i < |more| ==> !more[i].Append?
  }

  lemma Extend(cfg: Config, run: seq<Event>, e: Event)
    requires ValidRun(cfg, run) && Enabled(cfg, After(cfg, run), e) && !e.Append?
    ensures GoesOn(cfg, run, run + [e]) && After(cfg, run + [e]) == Apply(cfg, After(cfg, run), e)
  {
    assert Before(run + [e]) == run;
  }

  /** What the leaders do themselves, other than what clients and sequencers bring them. */
  predicate IsWork(e: Event) {
    !e.Append? && !e.MultiArrives?
  }

  lemma WorkStep(cfg: Config, s: System, e: Event)
    requires ProgressInv(cfg, s) && Enabled(cfg, s, e)
    requires IsWork(e)
    ensures WorkLeft(cfg, Apply(cfg, s, e)) < WorkLeft(cfg, s)
  {
    match e
    case DeliverShipment(a, b) => ShipmentWorks(cfg, s, a, b);
    case DeliverAck(a, b) =>
      assert LeaderShape(cfg, s.leaders[a], a);
      AckWorks(cfg, s, a, b);
    case BeginRound(a) => BeginWorks(cfg, s, a);
    case RegenerateNext(a, id) => RegenerateWorks(cfg, s, a, id);
    case CommitRound(a) => CommitWorks(cfg, s, a);
  }

  lemma AckPossible(cfg: Config, s: System, a: nat, b: nat)
    requires Shape(cfg, s) && a < cfg.replicas && b < cfg.replicas && s.acks(a, b) != [] && Listens(s.leaders[a])
    ensures Enabled(cfg, s, DeliverAck(a, b))
  {
    assert LeaderShape(cfg, s.leaders[a], a);
  }

  lemma CommitPossible(cfg: Config, s: System, c: nat)
    requires Shape(cfg, s) && c < cfg.replicas && s.leaders[c].phase.Proposing?
    ensures Enabled(cfg, s, CommitRound(c))
  {
    assert LeaderShape(cfg, s.leaders[c], c);
  }

  /** Outside of rounds that wait for multi-replica batches, an unsettled system can do some work. */
  lemma SomeWork(cfg: Config, s: System) returns (e: Event)
    requires Shape(cfg, s) && !Settled(cfg, s)
    requires forall a :: 0 <= a < cfg.replicas ==> !s.leaders[a].phase.Regenerating?
    ensures Enabled(cfg, s, e) && IsWork(e)
  {
    if c: nat :| c < cfg.replicas && s.leaders[c].phase.Proposing? {
      CommitPossible(cfg, s, c);
      e := CommitRound(c);
    } else if a: nat, b: nat :| a < cfg.replicas && b < cfg.replicas && s.ships(a, b) != [] {
      e := DeliverShipment(a, b);
    } else if a: nat, b: nat :| a < cfg.replicas && b < cfg.replicas && s.acks(a, b) != [] {
      AckPossible(cfg, s, a, b);
      e := DeliverAck(a, b);
    } else {
      var c: nat :| c < cfg.replicas && (s.leaders[c].open != [] || s.leaders[c].remote != []);
      assert s.leaders[c].phase.Idle?;
      e := BeginRound(c);
    }
  }

  /** A leader that waits for a multi-replica batch can be given it, and goes on. */
  lemma RegenerationGoesOn(cfg: Config, run: seq<Event>, c: nat) returns (more: seq<Event>)
    requires ValidRun(cfg, run) && c < cfg.replicas
    requires var s := After(cfg, run); |s.leaders| == cfg.replicas && s.leaders[c].phase.Regenerating?
    ensures GoesOn(cfg, run, more) && WorkLeft(cfg, After(cfg, more)) < WorkLeft(cfg, After(cfg, run))
  {
    var s := After(cfg, run);
    RunKeepsProgressInv(cfg, run);
    assert LeaderShape(cfg, s.leaders[c], c);
    var arrive := MultiArrives(c, s.leaders[c].phase.round.sequence[s.leaders[c].phase.next].id);
    Extend(cfg, run, arrive);
    ArrivalKeepsWork(cfg, s, c, arrive.id);
    var longer := run + [arrive];
    RunKeepsProgressInv(cfg, longer);
    var id := Bound(After(cfg, longer).contents.Keys);
    Extend(cfg, longer, RegenerateNext(c, id));
    WorkStep(cfg, After(cfg, longer), RegenerateNext(c, id));
    more := longer + [RegenerateNext(c, id)];
  }

  lemma OneMoreStep(cfg: Config, run: seq<Event>) returns (more: seq<Event>)
    requires ValidRun(cfg, run) && !Settled(cfg, After(cfg, run))
    ensures GoesOn(cfg, run, more) && WorkLeft(cfg, After(cfg, more)) < WorkLeft(cfg, After(cfg, run))
  {
    var s := After(cfg, run);
    RunKeepsProgressInv(cfg, run);
    if c: nat :| c < cfg.replicas && s.leaders[c].phase.Regenerating? {
      more := RegenerationGoesOn(cfg, run, c);
    } else {
      var e := SomeWork(cfg, s);
      WorkStep(cfg, s, e);
      Extend(cfg, run, e);
      more := run + [e];
    }
  }

  /** The leader waits for a multi-replica batch that its sequencers have yet to bring. */
  predicate WaitsForBatch(l: Leader) {
    l.phase.Regenerating? && !CanRegenerate(l)
  }

  lemma SettledHasNoWork(cfg: Config, s: System, e: Event)
    requires Shape(cfg, s) && Settled(cfg, s) && IsWork(e)
    ensures !Enabled(cfg, s, e)
  {
    if e.a < cfg.replicas {
      assert LeaderShape(cfg, s.leaders[e.a], e.a);
    }
  }

  /** The system has settled if and only if it can do no work and no leader waits for a multi-replica batch. */
  lemma NoWorkIffSettled(cfg: Config, run: seq<Event>)
    requires ValidRun(cfg, run)
    ensures var s := After(cfg, run);
            |s.leaders| == cfg.replicas
            && (Settled(cfg, s) <==>
                  (forall e :: IsWork(e) ==> !Enabled(cfg, s, e))
                  && (forall c :: 0 <= c < cfg.replicas ==> !WaitsForBatch(s.leaders[c])))
  {
    var s := After(cfg, run);
    RunKeepsPairs(cfg, run);
    if Settled(cfg, s) {
      forall e | IsWork(e) ensures !Enabled(cfg, s, e) {
        SettledHasNoWork(cfg, s, e);
      }
    } else if c: nat :| c < cfg.replicas && s.leaders[c].phase.Regenerating? {
      if !WaitsForBatch(s.leaders[c]) {
        var id := Bound(s.contents.Keys);
        assert IsWork(RegenerateNext(c, id)) && Enabled(cfg, s, RegenerateNext(c, id));
      }
    } else {
      var e := SomeWork(cfg, s);
    }
  }

  function WorkDone(es: seq<Event>): nat {
    if es == [] then 0 else WorkDone(es[..|es| - 1]) + Count(IsWork(es[|es| - 1]))
  }

  lemma LastEvent(cfg: Config, run: seq<Event>, more: seq<Event>)
    requires GoesOn(cfg, run, more) && run != more
    ensures var init, e := Before(more), more[|more| - 1];
            && GoesOn(cfg, run, init) && !e.Append? && Enabled(cfg, After(cfg, init), e)
            && After(cfg, more) == Apply(cfg, After(cfg, init), e)
            && WorkDone(more[|run|..]) == WorkDone(init[|run|..]) + Count(IsWork(e))
  {
    var last := more[|run|..];
    assert last[..|last| - 1] == Before(more)[|run|..];
  }

  /** However a run goes on without new batches from clients, the leaders' steps are no more than the work left. */
  lemma {:induction false} WorkIsBounded(cfg: Config, run: seq<Event>, more: seq<Event>)
    requires GoesOn(cfg, run, more)
    ensures WorkDone(more[|run|..]) + WorkLeft(cfg, After(cfg, more)) <= WorkLeft(cfg, After(cfg, run))
    decreases |more|
  {
    if run == more {
      assert more[|run|..] == [];
    } else {
      var init, e := Before(more), more[|more| - 1];
      LastEvent(cfg, run, more);
      WorkIsBounded(cfg, run, init);
      RunKeepsProgressInv(cfg, init);
      if IsWork(e) {
        WorkStep(cfg, After(cfg, init), e);
      } else {
        ArrivalKeepsWork(cfg, After(cfg, init), e.a, e.id);
      }
    }
  }

  lemma {:induction false} SettleFrom(cfg: Config, run: seq<Event>) returns (full: seq<Event>)
    requires ValidRun(cfg, run)
    ensures GoesOn(cfg, run, full) && Settled(cfg, After(cfg, full))
    decreases WorkLeft(cfg, After(cfg, run))
  {
    if Settled(cfg, After(cfg, run)) {
      full := run;
    } else {
      var more := OneMoreStep(cfg, run);
      full := SettleFrom(cfg, more);
    }
  }

  /** Every run can be continued, without new batches from clients, to a state where nothing is left to do; there every
      global log has the whole local log of every replica. */
  lemma EveryRunSettles(cfg: Config, run: seq<Event>) returns (full: seq<Event>)
    requires ValidRun(cfg, run)
    ensures GoesOn(cfg, run, full) && Settled(cfg, After(cfg, full))
    ensures forall a: nat, b: nat :: a < cfg.replicas && IsOther(a, cfg.replicas, b) ==>
              Quiet(After(cfg, full), a, b)
              && From(After(cfg, full).leaders[b].globalLog, a) == After(cfg, full).leaders[a].localLog
  {
    full := SettleFrom(cfg, run);
    forall a: nat, b: nat | a < cfg.replicas && IsOther(a, cfg.replicas, b)
      ensures Quiet(After(cfg, full), a, b)
              && From(After(cfg, full).leaders[b].globalLog, a) == After(cfg, full).leaders[a].localLog
    {
      QuietReplicaHasEverything(cfg, full, a, b);
    }
  }
}
