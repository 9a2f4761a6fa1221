/** All replicas together: local logs are shipped to every other replica, and batches with multi-replica
    transactions are regenerated in the order of replica 0. */
module ReplicaLogs {
  import opened Txns
  import opened LocalPaxos

  /** `content(b)`: the transactions of batch `b` of some sequencer. */
  datatype Config = Config(replicas: nat, content: nat -> seq<Txn>)

  /** Transactions of several replicas are routed to replica 0. */
  predicate SingleReplica(txns: seq<Txn>) {
    forall t :: t in txns ==> |Involved(t)| <= 1
  }

  /** `ships(a, b)` and `acks(a, b)`: the sequences of `a` under way to `b`, and the acknowledgements of those on
      their way back. `contents` are the batches sent to the schedulers so far, under their ids. */
  datatype System = System(
    leaders: seq<Leader>,
    ships: (nat, nat) -> seq<Shipment>,
    acks: (nat, nat) -> seq<nat>,
    contents: map<nat, seq<Txn>>)

  datatype Event =
    | Append(a: nat, id: nat)
    | MultiArrives(a: nat, id: nat)
    | DeliverShipment(a: nat, b: nat)
    | DeliverAck(a: nat, b: nat)
    | BeginRound(a: nat)
    | RegenerateNext(a: nat, id: nat)
    | CommitRound(a: nat)

  function Start(cfg: Config): System {
    System(seq(cfg.replicas, i => InitialLeader(cfg.replicas)), (a: nat, b: nat) => [], (a: nat, b: nat) => [], map[])
  }

  /** The leader is at a point where it looks at its messages. */
  predicate Listens(l: Leader) {
    !l.phase.Proposing?
  }

  /** Batch ids are never given out twice. */
  predicate Enabled(cfg: Config, s: System, e: Event) {
    && |s.leaders| == cfg.replicas && e.a < cfg.replicas
    && match e
       case Append(a, id) => id !in s.contents && (a != 0 ==> SingleReplica(cfg.content(id)))
       case MultiArrives(a, id) => true
       case DeliverShipment(a, b) => b < cfg.replicas && s.ships(a, b) != [] && Listens(s.leaders[b])
       case DeliverAck(a, b) => s.acks(a, b) != [] && Listens(s.leaders[a])
                                && b < |s.leaders[a].readers| && s.leaders[a].readers[b] <= |s.leaders[a].localLog|
       case BeginRound(a) => s.leaders[a].phase.Idle? && (s.leaders[a].open != [] || s.leaders[a].remote != [])
       case RegenerateNext(a, id) => id !in s.contents && CanRegenerate(s.leaders[a])
       case CommitRound(a) => CanCommit(s.leaders[a], cfg.replicas)
  }

  function Put<T>(f: (nat, nat) -> T, a: nat, b: nat, v: T): (nat, nat) -> T {
    (x: nat, y: nat) => if x == a && y == b then v else f(x, y)
  }

  function PutAll(f: (nat, nat) -> seq<Shipment>, a: nat, out: map<nat, Shipment>): (nat, nat) -> seq<Shipment> {
    (x: nat, y: nat) => if x == a && y in out then f(x, y) + [out[y]] else f(x, y)
  }

  function Apply(cfg: Config, s: System, e: Event): System
    requires Enabled(cfg, s, e)
  {
    var a := e.a;
    var l := s.leaders[a];
    match e
    case Append(_, id) =>
      s.(leaders := s.leaders[a := l.(open := l.open + [Batch(id, None)])], contents := s.contents[id := cfg.content(id)])
    case MultiArrives(_, id) =>
      s.(leaders := s.leaders[a := l.(multi := l.multi[id := MultiPart(cfg.content(id), a)])])
    case DeliverShipment(_, b) =>
      var m := s.ships(a, b)[0];
      s.(leaders := s.leaders[b := ReceiveShipment(s.leaders[b], a, m)],
         ships := Put(s.ships, a, b, s.ships(a, b)[1..]),
         acks := Put(s.acks, a, b, s.acks(a, b) + [m.version]))
    case DeliverAck(_, b) =>
      var (l', reply) := ReceiveAck(l, b, s.acks(a, b)[0]);
      s.(leaders := s.leaders[a := l'],
         acks := Put(s.acks, a, b, s.acks(a, b)[1..]),
         ships := if reply.Some? then Put(s.ships, a, b, s.ships(a, b) + [reply.value]) else s.ships)
    case BeginRound(_) => s.(leaders := s.leaders[a := Begin(l, a)])
    case RegenerateNext(_, id) =>
      var txns := l.multi[l.phase.round.sequence[l.phase.next].id];
      s.(leaders := s.leaders[a := Regenerate(l, id)],
         contents := if txns == [] then s.contents else s.contents[id := Copies(txns, a)])
    case CommitRound(_) =>
      s.(leaders := s.leaders[a := Commit(l, a, cfg.replicas)],
         ships := PutAll(s.ships, a, Shipped(l, a, cfg.replicas)))
  }

  function Before(run: seq<Event>): seq<Event>
    requires run != []
  {
    run[..|run| - 1]
  }

  predicate ValidRun(cfg: Config, run: seq<Event>)
    decreases |run|, 0
  {
    run == [] || (ValidRun(cfg, Before(run)) && Enabled(cfg, After(cfg, Before(run)), run[|run| - 1]))
  }

  function After(cfg: Config, run: seq<Event>): System
    requires ValidRun(cfg, run)
    decreases |run|, 1
  {
    if run == [] then Start(cfg) else Apply(cfg, After(cfg, Before(run)), run[|run| - 1])
  }

  // -------- what a leader has taken from another replica

  /** The sequences that come from `a`. */
  function From(q: seq<Tagged>, a: nat): seq<Sequence> {
    if q == [] then []
    else
      var t := q[|q| - 1];
      From(q[..|q| - 1], a) + if t.from == a then [t.sequence] else []
  }

  lemma {:induction false} FromConcat(p: seq<Tagged>, q: seq<Tagged>, a: nat)
    ensures From(p + q, a) == From(p, a) + From(q, a)
  {
    if q == [] {
      assert p + q == p;
    } else {
      var init := q[..|q| - 1];
      FromConcat(p, init, a);
      assert (p + q)[..|p + q| - 1] == p + init;
    }
  }

  lemma {:induction false} FromTag(ss: seq<Sequence>, b: nat, a: nat)
    ensures From(Tag(ss, b), a) == if a == b then ss else []
  {
    if ss != [] {
      var init := ss[..|ss| - 1];
      FromTag(init, b, a);
      assert Tag(ss, b)[..|ss| - 1] == Tag(init, b);
      assert a == b ==> init + [ss[|ss| - 1]] == ss;
    }
  }

  function Current(p: Phase): seq<Tagged> {
    if p.Idle? then [] else [p.round]
  }

  /** Everything the leader has taken off the network: in its log, in its round, or queued. */
  function Taken(l: Leader): seq<Tagged> {
    l.globalLog + Current(l.phase) + l.remote
  }

  lemma FromTaken(l: Leader, a: nat)
    ensures From(Taken(l), a) == From(l.globalLog, a) + From(Current(l.phase), a) + From(l.remote, a)
  {
    FromConcat(l.globalLog + Current(l.phase), l.remote, a);
    FromConcat(l.globalLog, Current(l.phase), a);
  }

  lemma FromOne(t: Tagged, a: nat)
    ensures From([t], a) == if t.from == a then [t.sequence] else []
  {
    assert [t][..0] == [];
  }

  // -------- the invariant of one ordered pair of replicas

  function Count(c: bool): nat { if c then 1 else 0 }

  /** After the first local entry of `a` exactly one of three things holds: sequences are under way to `b`, their
      acknowledgement is under way back, or `a` knows that `b` has everything. */
  predicate OneOutstanding(l: Leader, ships: seq<Shipment>, acks: seq<nat>, b: nat)
    requires b < |l.readers|
  {
    && |ships| + |acks| + Count(b in l.todo) == Count(l.localLog != [])
    && (ships != [] ==> ships[0].version == l.readers[b])
    && (acks != [] ==> acks[0] == l.readers[b])
    && (b in l.todo ==> l.readers[b] == |l.localLog|)
  }

  function UnderWay(ships: seq<Shipment>): seq<Sequence> {
    if ships == [] then [] else ships[0].sequences
  }

  /** What `b` has taken, with what is under way to it, is the local log of `a` up to the reader for `b`. */
  predicate ShippedOnce(l: Leader, ships: seq<Shipment>, taken: seq<Sequence>, b: nat)
    requires b < |l.readers|
  {
    l.readers[b] <= |l.localLog| && taken + UnderWay(ships) == l.localLog[..l.readers[b]]
  }

  predicate Shape(cfg: Config, s: System) {
    |s.leaders| == cfg.replicas && forall a :: 0 <= a < cfg.replicas ==> LeaderShape(cfg, s.leaders[a], a)
  }

  predicate LeaderShape(cfg: Config, l: Leader, a: nat) {
    && |l.readers| == cfg.replicas && (forall i :: i in l.todo ==> i < cfg.replicas && i != a)
    && (l.isFirst <==> l.localLog == [])
    && (forall i :: 0 <= i < cfg.replicas ==> l.readers[i] <= |l.localLog|)
    && (l.phase.Regenerating? ==> a != 0 && l.phase.round.from == 0 && l.phase.next < |l.phase.round.sequence|)
    && (forall t :: t in l.remote ==> t.from != a)
  }

  predicate PairInv(cfg: Config, s: System, a: nat, b: nat)
    requires Shape(cfg, s) && a < cfg.replicas && b < cfg.replicas
  {
    && OneOutstanding(s.leaders[a], s.ships(a, b), s.acks(a, b), b)
    && ShippedOnce(s.leaders[a], s.ships(a, b), From(Taken(s.leaders[b]), a), b)
  }

  /** A replica's own sequences are its local log. */
  predicate OwnInv(l: Leader, a: nat) {
    From(l.globalLog, a) == l.localLog
  }

  ghost predicate PairsInv(cfg: Config, s: System) {
    && Shape(cfg, s)
    && (forall a, b :: 0 <= a < cfg.replicas && IsOther(a, cfg.replicas, b) ==> PairInv(cfg, s, a, b))
    && (forall a :: 0 <= a < cfg.replicas ==> OwnInv(s.leaders[a], a) && s.ships(a, a) == [] && s.acks(a, a) == [])
  }
}
