/** What becomes of transactions of several origins that replica 0 logs although they are marked as copies. */
module ConvergenceLimits {
  import opened Filters
  import opened Txns
  import opened LocalPaxos
  import opened ReplicaSafety
  import opened ReplicaOrder
  import opened TxnOrder
  import opened Merge
  import opened Streams
  import opened MachinesSafety
  import opened Convergence
  import Cluster
  import ClusterProgress
  import ClusterSafety
  import Logs = ReplicaLogs
  import Machines
  import ReplicaSerial
  import Stranded
  import TxnCopies

  lemma ConcernedIsInvolved(d: Deployment, m: nat, u: Txn)
    requires Concerns(d, m, u)
    ensures Involves(u, u.origin)
  {
    var k :| k in Keys(NodeConfig(1, m, d.partition), u);
    var e :| e in u.readWriteSet + u.readSet && Wanted(NodeConfig(1, m, d.partition), u, e);
    assert e in Entries(u);
  }

  lemma ArrivalsDiffer(cfg: Logs.Config, s: Logs.System, c: nat, i: nat, j: nat)
    requires Logged(cfg, s) && c < cfg.replicas && i < j < |Arrivals(s, c)|
    requires var u, v := Arrivals(s, c)[i], Arrivals(s, c)[j];
             u.origin == v.origin < cfg.replicas && Involves(u, u.origin) && Involves(v, v.origin)
    ensures Strip(Arrivals(s, c)[i]) != Strip(Arrivals(s, c)[j])
  {
    var a := Arrivals(s, c)[i].origin;
    var both := (u: Txn) => HasOrigin(u, a) && Involves(u, a);
    var picked := Filter(Arrivals(s, c), both);
    FilterTwice(Arrivals(s, c), OfOrigin(a), InvolvesFor(a), both);
    ArrivalsAreRuns(cfg, s, c, a);
    StreamDiffers(cfg, s, a);
    forall k, l | 0 <= k < l < |picked| ensures Strip(picked[k]) != Strip(picked[l]) {
      assert Stream(s, a)[k] != Stream(s, a)[l];
    }
    PickedDiffer(Arrivals(s, c), both, Strip, i, j);
  }

  lemma InputsAreSound(cfg: Logs.Config, s: Logs.System, d: Deployment, c: nat, m: nat)
    requires Logged(cfg, s) && AllSensible(cfg, d) && c < cfg.replicas
    ensures InputSound(MachinesAt(cfg, s, d, c), m)
  {
    var r := MachinesAt(cfg, s, d, c);
    forall u | u in r.inputs(m) ensures CopyRight(r, u) {
      FilterHas(Arrivals(s, c), ConcernsAt(d, m), u);
      ArrivalHasOrigin(cfg, s, c, u);
      ArrivalsAreRuns(cfg, s, c, u.origin);
      FilterHas(Arrivals(s, c), OfOrigin(u.origin), u);
      RunIsSensible(cfg, s, d, u.origin, u);
    }
    forall k, l | 0 <= k < l < |r.inputs(m)| && r.inputs(m)[k].origin == r.inputs(m)[l].origin
      ensures Strip(r.inputs(m)[k]) != Strip(r.inputs(m)[l])
    {
      var i, j := FilterKeepsOrder(Arrivals(s, c), ConcernsAt(d, m), k, l);
      FilterHas(Arrivals(s, c), ConcernsAt(d, m), r.inputs(m)[k]);
      FilterHas(Arrivals(s, c), ConcernsAt(d, m), r.inputs(m)[l]);
      assert r.inputs(m)[k] in r.inputs(m) && r.inputs(m)[l] in r.inputs(m);
      ConcernedIsInvolved(d, m, r.inputs(m)[k]);
      ConcernedIsInvolved(d, m, r.inputs(m)[l]);
      ArrivalHasOrigin(cfg, s, c, r.inputs(m)[k]);
      ArrivalsDiffer(cfg, s, c, i, j);
    }
  }

  lemma MachinesAreSound(cfg: Logs.Config, s: Logs.System, d: Deployment, c: nat)
    requires Logged(cfg, s) && AllSensible(cfg, d) && c < cfg.replicas
    ensures Sound(MachinesAt(cfg, s, d, c))
  {
    ShardsAreNumbered(cfg, s, d, c);
    forall m: nat | m < d.machines ensures InputSound(MachinesAt(cfg, s, d, c), m) {
      InputsAreSound(cfg, s, d, c, m);
    }
  }

  lemma BaseIsSensible(cfg: Logs.Config, s: Logs.System, d: Deployment, t: Txn)
    requires s.leaders != [] && AllSensible(cfg, d) && t in AllTxns(cfg, BaseOrder(s))
    ensures Sensible(d, t) && forall a :: a in Involved(t) ==> a < cfg.replicas
  {
    var all := AllTxns(cfg, BaseOrder(s));
    var k :| 0 <= k < |all| && all[k] == t;
    var p, i := TxnBatch(cfg, BaseOrder(s), k);
    assert Sensible(d, cfg.content(BaseOrder(s)[p])[i]);
    forall a | a in Involved(t) ensures a < cfg.replicas {
      SensibleInvolved(cfg, d, t, a);
    }
  }

  /** A transaction takes part at the shards of its records. */
  lemma TakesPartThere(cfg: Logs.Config, s: Logs.System, d: Deployment, c: nat, t: Txn, a: nat) returns (m: nat)
    requires c < |s.leaders| && AllSensible(cfg, d) && Sensible(d, t) && a in Involved(t) && a < cfg.replicas
    ensures m < d.machines && Number(cfg.replicas, m, a) < d.machines * cfg.replicas
    ensures Cluster.Participates(Machines.Sharded(MachinesAt(cfg, s, d, c), []), Number(cfg.replicas, m, a), Strip(t))
  {
    var w := Machines.Sharded(MachinesAt(cfg, s, d, c), []);
    var e :| e in Entries(t) && e.master == a;
    m := d.partition(e.key);
    NumbersGrow(cfg.replicas, m, a, d.machines);
    assert e in Strip(t).readWriteSet + Strip(t).readSet && e.key in Cluster.AllKeys(Strip(t));
    ClusterSafety.KeysAtNode(w, Number(cfg.replicas, m, a), Strip(t), e.key);
    assert e.key in Keys(w.Config(Number(cfg.replicas, m, a)), Strip(t));
  }

  /** What replica `a` has logged of several origins has its place in the order of `a`. */
  lemma LoggedMultiHasPlace(cfg: Logs.Config, s: Logs.System, a: nat, u: Txn)
    requires Logged(cfg, s) && a < cfg.replicas && u in RunOf(s, a) && IsMultiFor(u, a)
    ensures u.id in TxnOrderAt(s, a, a)
  {
    SettledRun(cfg, s, a, a);
    FilterHas(RunOf(s, a), MultiFor(a), u);
    var multi := MultiAt(s, a, a);
    var k :| 0 <= k < |multi| && multi[k] == u;
    assert TxnOrderAt(s, a, a)[k] == u.id;
  }

  lemma CopyIsMissing(cfg: Logs.Config, run: seq<Logs.Event>, d: Deployment, c: nat, t: Txn, m: nat, a: nat)
    requires Logs.ValidRun(cfg, run) && AllSettled(cfg, Logs.After(cfg, run)) && AllSensible(cfg, d) && c < cfg.replicas
    requires t in AllTxns(cfg, BaseOrder(Logs.After(cfg, run))) && t.newGenerated && IsMultiFor(t, a)
    requires 0 < a < cfg.replicas && m < d.machines
    ensures !Stranded.HasCopy(MachinesAt(cfg, Logs.After(cfg, run), d, c), Number(cfg.replicas, m, a), Strip(t))
  {
    var s := Logs.After(cfg, run);
    var r := MachinesAt(cfg, s, d, c);
    RunIsLogged(cfg, run);
    MachinesAreSound(cfg, s, d, c);
    forall n: nat, u | n < r.machines && u in r.inputs(n) && r.ShardOf(n, u) == Number(cfg.replicas, m, a)
      ensures Strip(u) != Strip(t)
    {
      assert InputSound(r, n) && CopyRight(r, u);
      NumbersDiffer(cfg.replicas, n, u.origin, m, a);
      if Strip(u) == Strip(t) {
        FilterHas(Arrivals(s, c), ConcernsAt(d, n), u);
        FilterHas(Arrivals(s, c), OfOrigin(a), u);
        ArrivalsAreRuns(cfg, s, c, a);
        StripKeepsInvolved(u);
        StripKeepsInvolved(t);
        LoggedMultiHasPlace(cfg, s, a, u);
        TxnCopies.GeneratedIsNotCopied(cfg, run, a, a, t);
      }
    }
  }

  lemma OtherOrigin(t: Txn) returns (a: nat)
    requires IsMulti(t)
    ensures 0 < a && IsMultiFor(t, a)
  {
    if forall b :: b in Involved(t) ==> b == 0 {
      SubsetCardinality(Involved(t), {0});
    }
    a :| a in Involved(t) && a != 0;
  }

  /** A transaction of several origins that is marked as a copy when replica 0 logs it executes nowhere: in no run of any
      replica's machines is it computed or released at any of its shards. */
  lemma GeneratedNeverRuns(cfg: Logs.Config, run: seq<Logs.Event>, d: Deployment, c: nat, steps: seq<Machines.Step>, t: Txn, p: nat)
    requires Logs.ValidRun(cfg, run) && AllSettled(cfg, Logs.After(cfg, run)) && AllSensible(cfg, d) && c < cfg.replicas
    requires t in AllTxns(cfg, BaseOrder(Logs.After(cfg, run))) && t.newGenerated && IsMulti(t)
    requires Machines.IsRun(MachinesAt(cfg, Logs.After(cfg, run), d, c), steps)
    ensures var work := Machines.End(MachinesAt(cfg, Logs.After(cfg, run), d, c), steps).work;
            (p, Strip(t)) !in work.outputs && (p, Strip(t)) !in work.released
  {
    var s := Logs.After(cfg, run);
    RunIsLogged(cfg, run);
    MachinesAreSound(cfg, s, d, c);
    BaseIsSensible(cfg, s, d, t);
    var a := OtherOrigin(t);
    var m := TakesPartThere(cfg, s, d, c, t, a);
    CopyIsMissing(cfg, run, d, c, t, m, a);
    Stranded.NeverWithoutCopy(MachinesAt(cfg, s, d, c), steps, Number(cfg.replicas, m, a), Strip(t), p);
  }

  lemma MultiIsAgreed(cfg: Logs.Config, s: Logs.System, d: Deployment, t: Txn)
    requires Ordered(cfg, s) && AllSensible(cfg, d) && t in AllTxns(cfg, BaseOrder(s)) && IsMulti(t)
    ensures Strip(t) in AgreedOrder(cfg, s)
  {
    var all := AllTxns(cfg, BaseOrder(s));
    FilterHas(all, IsMulti, t);
    var picked := Filter(all, IsMulti);
    var k :| 0 <= k < |picked| && picked[k] == t;
    assert Multis(cfg, s)[k] == Strip(t);
    var a := OtherOrigin(t);
    BaseIsSensible(cfg, s, d, t);
    StripKeepsInvolved(t);
    StreamMeets(cfg, s, a);
    FilterHas(Multis(cfg, s), InvolvesFor(a), Strip(t));
    FilterHas(Stream(s, a), IsMulti, Strip(t));
    AgreedOrderIsLogged(cfg, s, d);
    FilterHas(AgreedOrder(cfg, s), InvolvesFor(a), Strip(t));
  }

  /** Shard `p` has released its locks for `t`, if it takes part. */
  ghost predicate ReleasedAt(r: Machines.Replica, work: Cluster.State, p: nat, t: Txn) {
    p < r.shards && Cluster.Participates(Machines.Sharded(r, []), p, Strip(t)) ==> (p, Strip(t)) in work.released
  }

  /** All transactions of several origins that replica 0 has logged have been released at all their shards. */
  ghost predicate MultisRun(cfg: Logs.Config, s: Logs.System, r: Machines.Replica, work: Cluster.State)
    requires s.leaders != []
  {
    forall t, p :: t in AllTxns(cfg, BaseOrder(s)) && IsMulti(t) ==> ReleasedAt(r, work, p, t)
  }

  lemma MultisRunIfNone(cfg: Logs.Config, run: seq<Logs.Event>, d: Deployment, c: nat, steps: seq<Machines.Step>)
    requires Logs.ValidRun(cfg, run) && AllSettled(cfg, Logs.After(cfg, run)) && NoneGenerated(cfg, Logs.After(cfg, run))
    requires AllSensible(cfg, d) && AllFed(cfg, d) && c < cfg.replicas
    requires var r := MachinesAt(cfg, Logs.After(cfg, run), d, c);
             Machines.IsRun(r, steps) && !ReplicaSerial.CanGoOn(r, Machines.End(r, steps))
    ensures var s := Logs.After(cfg, run);
            var r := MachinesAt(cfg, s, d, c);
            MultisRun(cfg, s, r, Machines.End(r, steps).work)
  {
    var s := Logs.After(cfg, run);
    var r := MachinesAt(cfg, s, d, c);
    RunIsLogged(cfg, run);
    ReplicasConverge(cfg, run, d, c, steps);
    forall t, p | t in AllTxns(cfg, BaseOrder(s)) && IsMulti(t) ensures ReleasedAt(r, Machines.End(r, steps).work, p, t) {
      MultiIsAgreed(cfg, s, d, t);
      assert ClusterProgress.ReleasedEverywhere(AgreedWorld(cfg, s, d), Machines.End(r, steps).work, Strip(t));
    }
  }

  /** Machines that cannot go on have run all transactions of several origins if and only if replica 0 has logged none
      that is marked as a copy. */
  lemma MultisRunIffNoneGenerated(cfg: Logs.Config, run: seq<Logs.Event>, d: Deployment, c: nat, steps: seq<Machines.Step>)
    requires Logs.ValidRun(cfg, run) && AllSettled(cfg, Logs.After(cfg, run))
    requires AllSensible(cfg, d) && AllFed(cfg, d) && c < cfg.replicas
    requires var r := MachinesAt(cfg, Logs.After(cfg, run), d, c);
             Machines.IsRun(r, steps) && !ReplicaSerial.CanGoOn(r, Machines.End(r, steps))
    ensures var s := Logs.After(cfg, run);
            var r := MachinesAt(cfg, s, d, c);
            MultisRun(cfg, s, r, Machines.End(r, steps).work) <==> NoneGenerated(cfg, s)
  {
    var s := Logs.After(cfg, run);
    if NoneGenerated(cfg, s) {
      MultisRunIfNone(cfg, run, d, c, steps);
    } else {
      var r := MachinesAt(cfg, s, d, c);
      var t :| t in AllTxns(cfg, BaseOrder(s)) && IsMulti(t) && t.newGenerated;
      BaseIsSensible(cfg, s, d, t);
      var a := OtherOrigin(t);
      var m := TakesPartThere(cfg, s, d, c, t, a);
      GeneratedNeverRuns(cfg, run, d, c, steps, t, Number(cfg.replicas, m, a));
      assert !ReleasedAt(r, Machines.End(r, steps).work, Number(cfg.replicas, m, a), t);
    }
  }
}
