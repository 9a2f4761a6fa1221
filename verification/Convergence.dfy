/** From the logs of all replicas to the same records at all of them (mode 1). */
module Convergence {
  import opened Filters
  import opened Txns
  import opened LocalPaxos
  import opened ReplicaSafety
  import opened ReplicaOrder
  import opened ReplicaProgress
  import opened TxnOrder
  import opened Merge
  import opened Streams
  import opened MachinesSafety
  import Cluster
  import ClusterProgress
  import ClusterSafety
  import Logs = ReplicaLogs
  import Machines
  import ReplicaSerial

  /** Where records are stored and mastered, their first values, and the transaction logic. */
  datatype Deployment = Deployment(machines: nat, partition: Key -> nat, master: Key -> nat, initial: Cluster.Store,
                                   execute: (Txn, Cluster.Store) -> Cluster.Store)

  // -------- what a replica's machines read

  function AllSequences(log: seq<Tagged>): seq<Sequence> {
    if log == [] then [] else AllSequences(log[..|log| - 1]) + [log[|log| - 1].sequence]
  }

  /** All transactions that the global log of replica `c` brings, in its order. */
  function Arrivals(s: Logs.System, c: nat): seq<Txn>
    requires c < |s.leaders|
  {
    Received(s.contents, Flatten(AllSequences(s.leaders[c].globalLog)))
  }

  /** A machine is sent a copy if it stores a record that is mastered where the copy comes from. */
  predicate Concerns(d: Deployment, m: nat, u: Txn) {
    Keys(NodeConfig(1, m, d.partition), u) != {}
  }

  function ConcernsAt(d: Deployment, m: nat): Txn -> bool {
    (u: Txn) => Concerns(d, m, u)
  }

  function InputsOf(d: Deployment, arrivals: seq<Txn>): nat -> seq<Txn> {
    (m: nat) => Filter(arrivals, ConcernsAt(d, m))
  }

  function Number(replicas: nat, m: nat, a: nat): nat {
    m * replicas + a
  }

  function Numbering(replicas: nat): (nat, nat) -> nat {
    (m: nat, a: nat) => Number(replicas, m, a)
  }

  /** The machines of replica `c`. */
  function MachinesAt(cfg: Logs.Config, s: Logs.System, d: Deployment, c: nat): Machines.Replica
    requires c < |s.leaders|
  {
    Machines.Replica(d.machines, cfg.replicas, d.partition, d.master, d.machines * cfg.replicas, Numbering(cfg.replicas),
                     InputsOf(d, Arrivals(s, c)), d.initial, d.execute)
  }

  // -------- what is assumed of the batches

  predicate Sensible(d: Deployment, t: Txn) {
    && DistinctKeys(t) && Cluster.AllKeys(t) <= d.initial.Keys
    && (forall e :: e in Entries(t) ==> e.master == d.master(e.key))
  }

  /** Transactions name distinct stored records with their masters, which never change. */
  ghost predicate AllSensible(cfg: Logs.Config, d: Deployment) {
    && (forall k :: d.partition(k) < d.machines && d.master(k) < cfg.replicas)
    && (forall b, i :: 0 <= i < |cfg.content(b)| ==> Sensible(d, cfg.content(b)[i]))
  }

  ghost predicate AllFrom(txns: seq<Txn>, a: nat) {
    forall i :: 0 <= i < |txns| ==> HasOrigin(txns[i], a)
  }

  /** A sequencer gives its transactions the origin of its replica. */
  ghost predicate OriginSet(cfg: Logs.Config, s: Logs.System, a: nat)
    requires a < |s.leaders|
  {
    forall i :: 0 <= i < |Flatten(s.leaders[a].localLog)| && Flatten(s.leaders[a].localLog)[i].source.None? ==>
      AllFrom(cfg.content(Flatten(s.leaders[a].localLog)[i].id), a)
  }

  ghost predicate OriginsSet(cfg: Logs.Config, s: Logs.System) {
    |s.leaders| == cfg.replicas && forall a :: 0 <= a < cfg.replicas ==> OriginSet(cfg, s, a)
  }

  /** Everything has settled, and no id is given out twice. */
  ghost predicate AllSettled(cfg: Logs.Config, s: Logs.System) {
    |s.leaders| == cfg.replicas > 0 && Settled(cfg, s) && UniqueTxns(cfg) && OriginsSet(cfg, s)
  }

  /** With what holds in every run of the leaders. */
  ghost predicate Logged(cfg: Logs.Config, s: Logs.System) {
    AllSettled(cfg, s) && OrderInv(cfg, s) && AllKnown(cfg, s)
  }

  /** Moreover replica 0 has logged no transaction of several origins that is marked as a copy. */
  ghost predicate Ordered(cfg: Logs.Config, s: Logs.System) {
    Logged(cfg, s) && NoneGenerated(cfg, s)
  }

  // -------- arrivals by origin

  lemma {:induction false} ReceivedConcat(contents: map<nat, seq<Txn>>, p: Sequence, q: Sequence)
    ensures Received(contents, p + q) == Received(contents, p) + Received(contents, q)
  {
    if q == [] {
      assert p + q == p;
    } else {
      var init, b := q[..|q| - 1], q[|q| - 1];
      assert q == init + [b];
      ReceivedConcat(contents, p, init);
      assert (p + q)[..|p + q| - 1] == p + init;
      Regrouped(Received(contents, p), Received(contents, init), if b.id in contents then contents[b.id] else []);
    }
  }

  lemma {:induction false} ReceivedFrom(contents: map<nat, seq<Txn>>, bs: Sequence, a: nat)
    requires forall i :: 0 <= i < |bs| && bs[i].id in contents ==> AllFrom(contents[bs[i].id], a)
    ensures AllFrom(Received(contents, bs), a)
  {
    if bs != [] {
      var init, b := bs[..|bs| - 1], bs[|bs| - 1];
      assert bs == init + [b];
      ReceivedFrom(contents, init, a);
    }
  }

  /** What the batches of each entry bring has the entry's origin. */
  ghost predicate EntriesFrom(contents: map<nat, seq<Txn>>, log: seq<Tagged>) {
    forall p :: 0 <= p < |log| ==> AllFrom(Received(contents, log[p].sequence), log[p].from)
  }

  lemma OneOriginOnly(txns: seq<Txn>, a: nat, b: nat)
    requires AllFrom(txns, b)
    ensures Filter(txns, OfOrigin(a)) == if a == b then txns else []
  {
    if a == b {
      FilterAll(txns, OfOrigin(a));
    } else {
      FilterNone(txns, OfOrigin(a));
    }
  }

  lemma FromMore(init: seq<Tagged>, t: Tagged, a: nat)
    ensures Logs.From(init + [t], a) == Logs.From(init, a) + if t.from == a then [t.sequence] else []
    ensures AllSequences(init + [t]) == AllSequences(init) + [t.sequence]
  {
    assert (init + [t])[..|init|] == init;
  }

  lemma {:induction false} ArrivalsByOrigin(contents: map<nat, seq<Txn>>, log: seq<Tagged>, a: nat)
    requires EntriesFrom(contents, log)
    ensures Filter(Received(contents, Flatten(AllSequences(log))), OfOrigin(a)) == Received(contents, Flatten(Logs.From(log, a)))
  {
    if log != [] {
      var init, t := log[..|log| - 1], log[|log| - 1];
      assert log == init + [t];
      assert AllFrom(Received(contents, log[|init|].sequence), log[|init|].from);
      ArrivalsByOrigin(contents, init, a);
      FromMore(init, t, a);
      FlattenMore(AllSequences(init), t.sequence);
      ReceivedConcat(contents, Flatten(AllSequences(init)), t.sequence);
      FilterConcat(Received(contents, Flatten(AllSequences(init))), Received(contents, t.sequence), OfOrigin(a));
      OneOriginOnly(Received(contents, t.sequence), a, t.from);
      if t.from == a {
        FlattenMore(Logs.From(init, a), t.sequence);
        ReceivedConcat(contents, Flatten(Logs.From(init, a)), t.sequence);
      } else {
        assert Logs.From(log, a) == Logs.From(init, a);
      }
    }
  }

  lemma BatchFrom(cfg: Logs.Config, s: Logs.System, a: nat, i: nat)
    requires Logged(cfg, s) && a < cfg.replicas && i < |Flatten(s.leaders[a].localLog)|
    ensures var b := Flatten(s.leaders[a].localLog)[i];
            b.id in s.contents && AllFrom(s.contents[b.id], a)
  {
    OwnIsLogged(cfg, s, a);
    assert OriginSet(cfg, s, a);
    assert Honest(cfg, s.contents, a, Flatten(s.leaders[a].localLog)[i]);
  }

  lemma EntryFrom(cfg: Logs.Config, s: Logs.System, c: nat, p: nat)
    requires Logged(cfg, s) && c < cfg.replicas && p < |s.leaders[c].globalLog|
    ensures AllFrom(Received(s.contents, s.leaders[c].globalLog[p].sequence), s.leaders[c].globalLog[p].from)
  {
    var log := s.leaders[c].globalLog;
    var a, bs := log[p].from, log[p].sequence;
    assert KnownOrigins(s.leaders[c], cfg.replicas);
    OwnIsLogged(cfg, s, a);
    forall i | 0 <= i < |bs| && bs[i].id in s.contents ensures AllFrom(s.contents[bs[i].id], a) {
      LoggedBatchIsOwn(cfg, s, c, p, i);
      BatchFrom(cfg, s, a, At(log, p, i));
    }
    ReceivedFrom(s.contents, bs, a);
  }

  /** What arrives of origin `a` at any replica is what replica `a` has logged. */
  lemma ArrivalsAreRuns(cfg: Logs.Config, s: Logs.System, c: nat, a: nat)
    requires Logged(cfg, s) && c < cfg.replicas && a < cfg.replicas
    ensures Filter(Arrivals(s, c), OfOrigin(a)) == RunOf(s, a)
  {
    forall p | 0 <= p < |s.leaders[c].globalLog|
      ensures AllFrom(Received(s.contents, s.leaders[c].globalLog[p].sequence), s.leaders[c].globalLog[p].from)
    {
      EntryFrom(cfg, s, c, p);
    }
    ArrivalsByOrigin(s.contents, s.leaders[c].globalLog, a);
    SettledRun(cfg, s, c, a);
  }

  // -------- what a machine reads is what its shards have in the agreed order

  predicate TakesPart(w: Cluster.World, p: nat, t: Txn) {
    Cluster.Participates(w, p, t)
  }

  function TakesPartAt(w: Cluster.World, p: nat): Txn -> bool {
    (t: Txn) => TakesPart(w, p, t)
  }

  lemma {:induction false} LocalOrderIsPicked(w: Cluster.World, p: nat, i: nat)
    requires i <= |w.order|
    ensures Cluster.LocalOrder(w, p, i) == Filter(w.order[..i], TakesPartAt(w, p))
  {
    if i > 0 {
      LocalOrderIsPicked(w, p, i - 1);
      assert w.order[..i] == w.order[..i - 1] + [w.order[i - 1]];
      FilterMore(w.order[..i - 1], w.order[i - 1], TakesPartAt(w, p));
    }
  }

  lemma InputIsPicked(w: Cluster.World, p: nat)
    ensures Cluster.Input(w, p) == Filter(w.order, TakesPartAt(w, p))
  {
    LocalOrderIsPicked(w, p, |w.order|);
    assert w.order[..|w.order|] == w.order;
  }

  lemma ParticipantIsInvolved(r: Machines.Replica, order: seq<Txn>, m: nat, a: nat, t: Txn)
    requires NumbersShards(r) && m < r.machines && a < r.origins && MastersRight(r, t)
    requires Cluster.Participates(Machines.Sharded(r, order), r.number(m, a), t)
    ensures Involves(t, a)
  {
    var w := Machines.Sharded(r, order);
    var k :| k in Keys(w.Config(r.number(m, a)), t);
    ClusterSafety.KeysAtNode(w, r.number(m, a), t, k);
    var e :| e in t.readWriteSet + t.readSet && e.key == k;
    assert e in Entries(t) && e.master == r.master(k);
  }

  /** A machine is sent a copy exactly if its shard for the copy's origin takes part. */
  lemma ConcernsIffTakesPart(r: Machines.Replica, order: seq<Txn>, d: Deployment, m: nat, u: Txn)
    requires NumbersShards(r) && r.partition == d.partition && m < r.machines && u.origin < r.origins && MastersRight(r, Strip(u))
    ensures Concerns(d, m, u) <==> TakesPart(Machines.Sharded(r, order), r.number(m, u.origin), Strip(u))
  {
    KeysAlike(r, m, u, order);
  }

  /** The transactions of a run that concern a machine are those of the run's stream in which the shard takes part. */
  lemma ConcernedOfRun(r: Machines.Replica, order: seq<Txn>, d: Deployment, m: nat, a: nat, run: seq<Txn>)
    requires NumbersShards(r) && r.partition == d.partition && m < r.machines && a < r.origins && AllFrom(run, a)
    requires forall i :: 0 <= i < |run| ==> MastersRight(r, Strip(run[i]))
    ensures Stripped(Filter(run, ConcernsAt(d, m)))
            == Filter(Stripped(Filter(run, InvolvesFor(a))), TakesPartAt(Machines.Sharded(r, order), r.number(m, a)))
  {
    var part := TakesPartAt(Machines.Sharded(r, order), r.number(m, a));
    forall i | 0 <= i < |run| ensures ConcernsAt(d, m)(run[i]) == part(Strip(run[i])) {
      assert HasOrigin(run[i], a);
      ConcernsIffTakesPart(r, order, d, m, run[i]);
    }
    FilterMapped(run, Strip, ConcernsAt(d, m), part);
    InvolvementIsShared(a);
    StrippedPick(run, InvolvesFor(a));
    var shared := Stripped(run);
    forall i | 0 <= i < |shared| ensures part(shared[i]) <==> InvolvesFor(a)(shared[i]) && part(shared[i]) {
      if part(shared[i]) {
        ParticipantIsInvolved(r, order, m, a, shared[i]);
      }
    }
    FilterTwice(shared, InvolvesFor(a), part, part);
  }

  predicate IsFor(d: Deployment, m: nat, a: nat, u: Txn) {
    Concerns(d, m, u) && HasOrigin(u, a)
  }

  lemma ConcernsOfOrigin(arrivals: seq<Txn>, d: Deployment, m: nat, a: nat)
    ensures Shared(Filter(arrivals, ConcernsAt(d, m)), a) == Stripped(Filter(Filter(arrivals, OfOrigin(a)), ConcernsAt(d, m)))
  {
    var both := (u: Txn) => IsFor(d, m, a, u);
    FilterTwice(arrivals, ConcernsAt(d, m), OfOrigin(a), both);
    FilterTwice(arrivals, OfOrigin(a), ConcernsAt(d, m), both);
  }

  lemma OrderOfShard(r: Machines.Replica, order: seq<Txn>, m: nat, a: nat)
    requires NumbersShards(r) && m < r.machines && a < r.origins
    requires forall i :: 0 <= i < |order| ==> MastersRight(r, order[i])
    ensures Cluster.Input(Machines.Sharded(r, order), r.number(m, a))
            == Filter(Filter(order, InvolvesFor(a)), TakesPartAt(Machines.Sharded(r, order), r.number(m, a)))
  {
    var w := Machines.Sharded(r, order);
    var part := TakesPartAt(w, r.number(m, a));
    InputIsPicked(w, r.number(m, a));
    forall i | 0 <= i < |order| ensures part(order[i]) <==> InvolvesFor(a)(order[i]) && part(order[i]) {
      if part(order[i]) {
        ParticipantIsInvolved(r, order, m, a, order[i]);
      }
    }
    FilterTwice(order, InvolvesFor(a), part, part);
  }

  // -------- the replicas' machines

  lemma NumbersGrow(n: nat, m: nat, a: nat, k: nat)
    requires a < n && m < k
    ensures Number(n, m, a) < k * n
  {
    assert k * n >= (m + 1) * n == m * n + n;
  }

  lemma NumbersDiffer(n: nat, m: nat, a: nat, k: nat, b: nat)
    requires a < n && b < n && Number(n, m, a) == Number(n, k, b)
    ensures m == k && a == b
  {
    if m < k {
      NumbersGrow(n, m, a, k);
    } else if k < m {
      NumbersGrow(n, k, b, m);
    }
  }

  lemma ShardsAreNumbered(cfg: Logs.Config, s: Logs.System, d: Deployment, c: nat)
    requires c < |s.leaders| && AllSensible(cfg, d)
    ensures NumbersShards(MachinesAt(cfg, s, d, c))
  {
    var r := MachinesAt(cfg, s, d, c);
    forall m: nat, a: nat | m < r.machines && a < r.origins ensures r.number(m, a) < r.shards {
      NumbersGrow(cfg.replicas, m, a, d.machines);
    }
    forall m: nat, a: nat, n: nat, b: nat
      | m < r.machines && a < r.origins && n < r.machines && b < r.origins && r.number(m, a) == r.number(n, b)
      ensures m == n && a == b
    {
      NumbersDiffer(cfg.replicas, m, a, n, b);
    }
  }

  // -------- the agreed order

  function AllStreams(cfg: Logs.Config, s: Logs.System): (qs: seq<seq<Txn>>)
    requires |s.leaders| == cfg.replicas
    ensures |qs| == cfg.replicas && forall a :: 0 <= a < cfg.replicas ==> qs[a] == Stream(s, a)
  {
    seq(cfg.replicas, a requires 0 <= a < cfg.replicas => Stream(s, a))
  }

  /** One order of everything that runs, out of the orders in which the origins have logged it. */
  function AgreedOrder(cfg: Logs.Config, s: Logs.System): seq<Txn>
    requires |s.leaders| == cfg.replicas > 0
  {
    Merged(AllStreams(cfg, s), Multis(cfg, s))
  }

  lemma SensibleInvolved(cfg: Logs.Config, d: Deployment, t: Txn, a: nat)
    requires AllSensible(cfg, d) && Sensible(d, t) && a in Involved(t)
    ensures a < cfg.replicas
  {
    var e :| e in Entries(t) && e.master == a;
    assert e.master == d.master(e.key);
  }

  lemma MultiIsSensible(cfg: Logs.Config, s: Logs.System, d: Deployment, i: nat)
    requires s.leaders != [] && AllSensible(cfg, d) && i < |Multis(cfg, s)|
    ensures IsMulti(Multis(cfg, s)[i]) && forall a :: a in Involved(Multis(cfg, s)[i]) ==> a < cfg.replicas
  {
    var all := AllTxns(cfg, BaseOrder(s));
    var j := FilterPlace(all, IsMulti, i);
    var p, k := TxnBatch(cfg, BaseOrder(s), j);
    StripKeepsInvolved(all[j]);
    forall a | a in Involved(Multis(cfg, s)[i]) ensures a < cfg.replicas {
      SensibleInvolved(cfg, d, all[j], a);
    }
  }

  lemma StreamsMeet(cfg: Logs.Config, s: Logs.System, d: Deployment)
    requires Ordered(cfg, s) && AllSensible(cfg, d)
    ensures Meet(AllStreams(cfg, s), Multis(cfg, s))
  {
    forall i | 0 <= i < |Multis(cfg, s)|
      ensures IsMulti(Multis(cfg, s)[i]) && forall a :: a in Involved(Multis(cfg, s)[i]) ==> a < cfg.replicas
    {
      MultiIsSensible(cfg, s, d, i);
    }
    forall a | 0 <= a < cfg.replicas ensures Meets(AllStreams(cfg, s)[a], Multis(cfg, s), a) {
      StreamMeets(cfg, s, a);
    }
  }

  /** The agreed order has for each origin exactly what this has logged, in the order of its log, and nothing twice. */
  lemma AgreedOrderIsLogged(cfg: Logs.Config, s: Logs.System, d: Deployment)
    requires Ordered(cfg, s) && AllSensible(cfg, d)
    ensures NoDuplicates(AgreedOrder(cfg, s))
    ensures forall a :: 0 <= a < cfg.replicas ==> Filter(AgreedOrder(cfg, s), InvolvesFor(a)) == Stream(s, a)
    ensures forall t :: t in AgreedOrder(cfg, s) ==> exists a :: 0 <= a < cfg.replicas && t in Stream(s, a)
  {
    var qs, multi := AllStreams(cfg, s), Multis(cfg, s);
    StreamsMeet(cfg, s, d);
    forall a | 0 <= a < cfg.replicas ensures Filter(AgreedOrder(cfg, s), InvolvesFor(a)) == Stream(s, a) && NoDuplicates(qs[a]) {
      MergedProjects(qs, multi, a);
      StreamDiffers(cfg, s, a);
    }
    MergedDiffer(qs, multi);
    forall t | t in AgreedOrder(cfg, s) ensures exists a :: 0 <= a < cfg.replicas && t in Stream(s, a) {
      var a := MergedMembers(qs, multi, t);
      FilterHas(AgreedOrder(cfg, s), InvolvesFor(a), t);
    }
  }

  lemma StrippedIsSensible(d: Deployment, t: Txn)
    requires Sensible(d, t)
    ensures Sensible(d, Strip(t))
  {
    assert Entries(Strip(t)) == Entries(t);
    assert Strip(t).readWriteSet == t.readWriteSet && Strip(t).readSet == t.readSet;
  }

  lemma RunIsSensible(cfg: Logs.Config, s: Logs.System, d: Deployment, a: nat, u: Txn)
    requires Logged(cfg, s) && AllSensible(cfg, d) && a < cfg.replicas && u in RunOf(s, a)
    ensures Sensible(d, Strip(u))
  {
    OwnIsLogged(cfg, s, a);
    var b, i := ReceivedIsSequenced(cfg, s.contents, a, Flatten(s.leaders[a].localLog), u);
    StrippedIsSensible(d, cfg.content(b)[i]);
  }

  lemma StreamIsSequenced(cfg: Logs.Config, s: Logs.System, a: nat, t: Txn) returns (b: nat, i: nat)
    requires Logged(cfg, s) && a < cfg.replicas && t in Stream(s, a)
    ensures i < |cfg.content(b)| && t == Strip(cfg.content(b)[i])
  {
    var picked := Filter(RunOf(s, a), InvolvesFor(a));
    var k :| 0 <= k < |picked| && Stream(s, a)[k] == t;
    FilterHas(RunOf(s, a), InvolvesFor(a), picked[k]);
    OwnIsLogged(cfg, s, a);
    b, i := ReceivedIsSequenced(cfg, s.contents, a, Flatten(s.leaders[a].localLog), picked[k]);
  }

  /** Everything in the agreed order is a transaction of some sequencer. */
  lemma OrderIsSequenced(cfg: Logs.Config, s: Logs.System, d: Deployment, t: Txn) returns (b: nat, i: nat)
    requires Ordered(cfg, s) && AllSensible(cfg, d) && t in AgreedOrder(cfg, s)
    ensures i < |cfg.content(b)| && t == Strip(cfg.content(b)[i])
  {
    AgreedOrderIsLogged(cfg, s, d);
    var a :| 0 <= a < cfg.replicas && t in Stream(s, a);
    b, i := StreamIsSequenced(cfg, s, a, t);
  }

  lemma OrderIsSensible(cfg: Logs.Config, s: Logs.System, d: Deployment, t: Txn)
    requires Ordered(cfg, s) && AllSensible(cfg, d) && t in AgreedOrder(cfg, s)
    ensures Sensible(d, t) && Strip(t) == t
  {
    var b, i := OrderIsSequenced(cfg, s, d, t);
    StrippedIsSensible(d, cfg.content(b)[i]);
  }

  /** What a machine reads of an origin is what its shard has in the agreed order. */
  lemma StreamAgrees(cfg: Logs.Config, s: Logs.System, d: Deployment, c: nat, m: nat, a: nat)
    requires Ordered(cfg, s) && AllSensible(cfg, d) && c < cfg.replicas && m < d.machines && a < cfg.replicas
    ensures var r := MachinesAt(cfg, s, d, c);
            Shared(r.inputs(m), a) == Cluster.Input(Machines.Sharded(r, AgreedOrder(cfg, s)), r.number(m, a))
  {
    var r, order, run := MachinesAt(cfg, s, d, c), AgreedOrder(cfg, s), RunOf(s, a);
    ShardsAreNumbered(cfg, s, d, c);
    ArrivalsAreRuns(cfg, s, c, a);
    ConcernsOfOrigin(Arrivals(s, c), d, m, a);
    forall i | 0 <= i < |run| ensures HasOrigin(run[i], a) && MastersRight(r, Strip(run[i])) {
      FilterHas(Arrivals(s, c), OfOrigin(a), run[i]);
      RunIsSensible(cfg, s, d, a, run[i]);
    }
    ConcernedOfRun(r, order, d, m, a, run);
    forall i | 0 <= i < |order| ensures MastersRight(r, order[i]) {
      OrderIsSensible(cfg, s, d, order[i]);
    }
    AgreedOrderIsLogged(cfg, s, d);
    OrderOfShard(r, order, m, a);
  }

  lemma ArrivalHasOrigin(cfg: Logs.Config, s: Logs.System, c: nat, u: Txn)
    requires Logged(cfg, s) && c < cfg.replicas && u in Arrivals(s, c)
    ensures u.origin < cfg.replicas
  {
    var log := s.leaders[c].globalLog;
    forall p | 0 <= p < |log| ensures AllFrom(Received(s.contents, log[p].sequence), log[p].from) && log[p].from < cfg.replicas {
      EntryFrom(cfg, s, c, p);
      assert KnownOrigins(s.leaders[c], cfg.replicas);
    }
    ArrivalIsFrom(s.contents, log, cfg.replicas, u);
  }

  lemma {:induction false} ArrivalIsFrom(contents: map<nat, seq<Txn>>, log: seq<Tagged>, n: nat, u: Txn)
    requires EntriesFrom(contents, log) && forall p :: 0 <= p < |log| ==> log[p].from < n
    requires u in Received(contents, Flatten(AllSequences(log)))
    ensures u.origin < n
  {
    var init, t := log[..|log| - 1], log[|log| - 1];
    assert log == init + [t];
    FromMore(init, t, 0);
    FlattenMore(AllSequences(init), t.sequence);
    ReceivedConcat(contents, Flatten(AllSequences(init)), t.sequence);
    if u in Received(contents, t.sequence) {
      assert AllFrom(Received(contents, log[|init|].sequence), log[|init|].from);
      var i :| 0 <= i < |Received(contents, t.sequence)| && Received(contents, t.sequence)[i] == u;
      assert HasOrigin(u, t.from);
    } else {
      ArrivalIsFrom(contents, init, n, u);
    }
  }

  lemma MachineAgrees(cfg: Logs.Config, s: Logs.System, d: Deployment, c: nat, m: nat)
    requires Ordered(cfg, s) && AllSensible(cfg, d) && c < cfg.replicas && m < d.machines
    ensures InputAgrees(MachinesAt(cfg, s, d, c), AgreedOrder(cfg, s), m)
  {
    var r := MachinesAt(cfg, s, d, c);
    forall i | 0 <= i < |r.inputs(m)| ensures r.inputs(m)[i].origin < r.origins {
      FilterHas(Arrivals(s, c), ConcernsAt(d, m), r.inputs(m)[i]);
      ArrivalHasOrigin(cfg, s, c, r.inputs(m)[i]);
    }
    forall a: nat | a < r.origins
      ensures Shared(r.inputs(m), a) == Cluster.Input(Machines.Sharded(r, AgreedOrder(cfg, s)), r.number(m, a))
    {
      StreamAgrees(cfg, s, d, c, m, a);
    }
  }

  lemma OrderIsValid(cfg: Logs.Config, s: Logs.System, d: Deployment, c: nat)
    requires Ordered(cfg, s) && AllSensible(cfg, d) && c < cfg.replicas
    ensures var order := AgreedOrder(cfg, s);
            && Cluster.ValidWorld(Machines.Sharded(MachinesAt(cfg, s, d, c), order))
            && forall i :: 0 <= i < |order| ==> Strip(order[i]) == order[i] && MastersRight(MachinesAt(cfg, s, d, c), order[i])
  {
    var order := AgreedOrder(cfg, s);
    ShardsAreNumbered(cfg, s, d, c);
    AgreedOrderIsLogged(cfg, s, d);
    forall i | 0 <= i < |order| ensures Sensible(d, order[i]) && Strip(order[i]) == order[i] {
      OrderIsSensible(cfg, s, d, order[i]);
    }
  }

  /** Once everything has settled, the machines of every replica agree with one and the same order. */
  lemma MachinesAgree(cfg: Logs.Config, s: Logs.System, d: Deployment, c: nat)
    requires Ordered(cfg, s) && AllSensible(cfg, d) && c < cfg.replicas
    ensures ValidReplica(MachinesAt(cfg, s, d, c), AgreedOrder(cfg, s))
  {
    ShardsAreNumbered(cfg, s, d, c);
    OrderIsValid(cfg, s, d, c);
    forall m: nat | m < d.machines ensures InputAgrees(MachinesAt(cfg, s, d, c), AgreedOrder(cfg, s), m) {
      MachineAgrees(cfg, s, d, c, m);
    }
  }

  // -------- convergence

  /** The shards of all replicas, and the order they agree on. */
  function AgreedWorld(cfg: Logs.Config, s: Logs.System, d: Deployment): Cluster.World
    requires |s.leaders| == cfg.replicas > 0
  {
    Machines.Sharded(MachinesAt(cfg, s, d, 0), AgreedOrder(cfg, s))
  }

  predicate HasRecord(d: Deployment, es: seq<KeyEntry>, m: nat, a: nat) {
    exists e :: e in es && d.partition(e.key) == m && d.master(e.key) == a
  }

  /** The shard at machine `m` of origin `a` has nothing of `t`, or writes, or is the only shard. */
  ghost predicate FedAt(d: Deployment, t: Txn, m: nat, a: nat) {
    HasRecord(d, Entries(t), m, a) && !HasRecord(d, t.readWriteSet, m, a) ==>
      forall n, b :: HasRecord(d, Entries(t), n, b) ==> n == m && b == a
  }

  /** Every shard of a transaction writes, or is its only one. */
  ghost predicate AllFed(cfg: Logs.Config, d: Deployment) {
    forall b, i, m, a :: 0 <= i < |cfg.content(b)| ==> FedAt(d, cfg.content(b)[i], m, a)
  }

  lemma ParticipantHasRecord(cfg: Logs.Config, s: Logs.System, d: Deployment, p: nat, t: Txn) returns (m: nat, a: nat)
    requires AllSettled(cfg, s) && Cluster.Participates(AgreedWorld(cfg, s, d), p, Strip(t))
    ensures HasRecord(d, Entries(t), m, a) && p == Number(cfg.replicas, m, a)
    ensures HasRecord(d, t.readWriteSet, m, a) ==> Cluster.Writes(AgreedWorld(cfg, s, d), p, Strip(t))
  {
    var w := AgreedWorld(cfg, s, d);
    var k :| k in Keys(w.Config(p), Strip(t));
    ClusterSafety.KeysAtNode(w, p, Strip(t), k);
    var e :| e in t.readWriteSet + t.readSet && e.key == k;
    assert e in Entries(t);
    m, a := d.partition(k), d.master(k);
    if HasRecord(d, t.readWriteSet, m, a) {
      var f :| f in t.readWriteSet && d.partition(f.key) == m && d.master(f.key) == a;
      assert f in Strip(t).readWriteSet && f.key in Cluster.AllWriteKeys(Strip(t));
      ClusterSafety.KeysAtNode(w, p, Strip(t), f.key);
    }
  }

  lemma ShardIsFed(cfg: Logs.Config, s: Logs.System, d: Deployment, p: nat, t: Txn)
    requires AllSettled(cfg, s) && Cluster.Participates(AgreedWorld(cfg, s, d), p, Strip(t))
    requires forall m, a :: FedAt(d, t, m, a)
    ensures ClusterProgress.Fed(AgreedWorld(cfg, s, d), p, Strip(t))
  {
    var w := AgreedWorld(cfg, s, d);
    var m, a := ParticipantHasRecord(cfg, s, d, p, t);
    assert FedAt(d, t, m, a);
    if !HasRecord(d, t.readWriteSet, m, a) {
      forall q: nat | q < w.nodes && Cluster.Participates(w, q, Strip(t)) ensures q == p {
        var n, b := ParticipantHasRecord(cfg, s, d, q, t);
      }
    }
  }

  lemma AgreedAreFed(cfg: Logs.Config, s: Logs.System, d: Deployment)
    requires Ordered(cfg, s) && AllSensible(cfg, d) && AllFed(cfg, d)
    ensures ClusterProgress.EveryShardIsFed(AgreedWorld(cfg, s, d))
  {
    var w := AgreedWorld(cfg, s, d);
    forall i, p: nat | 0 <= i < |w.order| && p < w.nodes && Cluster.Participates(w, p, w.order[i])
      ensures ClusterProgress.Fed(w, p, w.order[i])
    {
      var b, j := OrderIsSequenced(cfg, s, d, w.order[i]);
      ShardIsFed(cfg, s, d, p, cfg.content(b)[j]);
    }
  }

  lemma RunIsLogged(cfg: Logs.Config, run: seq<Logs.Event>)
    requires Logs.ValidRun(cfg, run) && AllSettled(cfg, Logs.After(cfg, run))
    ensures Logged(cfg, Logs.After(cfg, run))
  {
    RunKeepsOrder(cfg, run);
    RunKeepsOrigins(cfg, run);
  }

  /** In mode 1 all replicas end alike: for any run of the log leaders that has settled, and any run of the machines of any
      replica that cannot go on, everything is released and the records are those of the agreed order, run one
      transaction at a time. */
  lemma ReplicasConverge(cfg: Logs.Config, run: seq<Logs.Event>, d: Deployment, c: nat, steps: seq<Machines.Step>)
    requires Logs.ValidRun(cfg, run) && AllSettled(cfg, Logs.After(cfg, run)) && NoneGenerated(cfg, Logs.After(cfg, run))
    requires AllSensible(cfg, d) && AllFed(cfg, d) && c < cfg.replicas
    requires var r := MachinesAt(cfg, Logs.After(cfg, run), d, c);
             Machines.IsRun(r, steps) && !ReplicaSerial.CanGoOn(r, Machines.End(r, steps))
    ensures var w, end := AgreedWorld(cfg, Logs.After(cfg, run), d),
                          Machines.End(MachinesAt(cfg, Logs.After(cfg, run), d, c), steps);
            && ClusterProgress.Complete(w, end.work) && end.work.data == Cluster.Serial(w, |w.order|)
            && Cluster.EndsWith(d.execute, d.initial, w.order, end.work.data)
            && forall a :: 0 <= a < cfg.replicas ==> Filter(w.order, InvolvesFor(a)) == Stream(Logs.After(cfg, run), a)
  {
    var s := Logs.After(cfg, run);
    RunIsLogged(cfg, run);
    MachinesAgree(cfg, s, d, c);
    AgreedAreFed(cfg, s, d);
    AgreedOrderIsLogged(cfg, s, d);
    ReplicaSerial.StuckReplicaIsComplete(MachinesAt(cfg, s, d, c), AgreedOrder(cfg, s), steps);
    ReplicaSerial.CompleteReplicaIsSerial(MachinesAt(cfg, s, d, c), AgreedOrder(cfg, s), steps);
  }
}
