/** What machines do before the logs have settled is already right: it fits every order that may come of it. */
module EarlyRuns {
  import opened Filters
  import opened Txns
  import opened LocalPaxos
  import opened ReplicaSafety
  import opened ReplicaOrder
  import opened TxnOrder
  import opened Streams
  import opened MachinesSafety
  import opened Convergence
  import Cluster
  import ClusterSafety
  import Logs = ReplicaLogs
  import Machines
  import ReplicaSerial

  // -------- machines that have more to read

  /** The same machines, with more to read. */
  ghost predicate ReadsMore(r: Machines.Replica, r': Machines.Replica) {
    r == r'.(inputs := r.inputs) && forall m :: r.inputs(m) <= r'.inputs(m)
  }

  lemma MoreIsPossible(r: Machines.Replica, r': Machines.Replica, s: Machines.System, e: Machines.Step)
    requires ReadsMore(r, r') && Machines.Possible(r, s, e)
    ensures Machines.Possible(r', s, e) && Machines.Do(r', s, e) == Machines.Do(r, s, e)
  {
    assert Machines.Sharded(r, []) == Machines.Sharded(r', []);
    if e.LockNext? {
      assert r.inputs(e.m) <= r'.inputs(e.m);
    }
  }

  lemma {:induction false} RunsStayRuns(r: Machines.Replica, r': Machines.Replica, steps: seq<Machines.Step>)
    requires ReadsMore(r, r') && Machines.IsRun(r, steps)
    ensures Machines.IsRun(r', steps) && Machines.End(r', steps) == Machines.End(r, steps)
  {
    if steps == [] {
      assert Machines.Sharded(r, []) == Machines.Sharded(r', []);
    } else {
      RunsStayRuns(r, r', Machines.Before(steps));
      MoreIsPossible(r, r', Machines.End(r, Machines.Before(steps)), steps[|steps| - 1]);
    }
  }

  // -------- logs grow

  predicate ContentsKept(before: map<nat, seq<Txn>>, after: map<nat, seq<Txn>>) {
    forall id :: id in before ==> id in after && after[id] == before[id]
  }

  ghost predicate Grown(cfg: Logs.Config, s: Logs.System, s': Logs.System) {
    && |s.leaders| == |s'.leaders| == cfg.replicas && ContentsKept(s.contents, s'.contents)
    && (forall c :: 0 <= c < cfg.replicas ==> s.leaders[c].globalLog <= s'.leaders[c].globalLog)
  }

  lemma StepGrows(cfg: Logs.Config, s: Logs.System, e: Logs.Event)
    requires Logs.Enabled(cfg, s, e)
    ensures Grown(cfg, s, Logs.Apply(cfg, s, e))
  {
  }

  lemma {:induction false} RunGrows(cfg: Logs.Config, run: seq<Logs.Event>, full: seq<Logs.Event>)
    requires Logs.ValidRun(cfg, run) && Logs.ValidRun(cfg, full) && run <= full
    requires |Logs.After(cfg, run).leaders| == cfg.replicas
    ensures Grown(cfg, Logs.After(cfg, run), Logs.After(cfg, full))
    decreases |full|
  {
    if run != full {
      RunGrows(cfg, run, Logs.Before(full));
      StepGrows(cfg, Logs.After(cfg, Logs.Before(full)), full[|full| - 1]);
    }
  }

  lemma {:induction false} ReceivedKept(before: map<nat, seq<Txn>>, after: map<nat, seq<Txn>>, bs: Sequence)
    requires ContentsKept(before, after) && forall i :: 0 <= i < |bs| ==> bs[i].id in before
    ensures Received(after, bs) == Received(before, bs)
  {
    if bs != [] {
      ReceivedKept(before, after, bs[..|bs| - 1]);
    }
  }

  lemma {:induction false} SequencesPrefix(g: seq<Tagged>, h: seq<Tagged>)
    requires g <= h
    ensures AllSequences(g) <= AllSequences(h)
    decreases |h|
  {
    if g != h {
      SequencesPrefix(g, h[..|h| - 1]);
    }
  }

  /** Every batch of a global log has been sent to the schedulers. */
  lemma {:induction false} LoggedIsSent(contents: map<nat, seq<Txn>>, log: seq<Tagged>, i: nat)
    requires forall p, j :: 0 <= p < |log| && 0 <= j < |log[p].sequence| ==> log[p].sequence[j].id in contents
    requires i < |Flatten(AllSequences(log))|
    ensures Flatten(AllSequences(log))[i].id in contents
  {
    var init, t := log[..|log| - 1], log[|log| - 1];
    assert log == init + [t];
    FromMore(init, t, 0);
    FlattenMore(AllSequences(init), t.sequence);
    var n := |Flatten(AllSequences(init))|;
    if i < n {
      LoggedIsSent(contents, init, i);
    } else {
      assert log[|init|].sequence[i - n].id in contents;
    }
  }

  lemma EntryIsSent(cfg: Logs.Config, s: Logs.System, c: nat, p: nat, j: nat)
    requires OrderInv(cfg, s) && AllKnown(cfg, s) && c < cfg.replicas && p < |s.leaders[c].globalLog|
    requires j < |s.leaders[c].globalLog[p].sequence|
    ensures s.leaders[c].globalLog[p].sequence[j].id in s.contents
  {
    var log := s.leaders[c].globalLog;
    assert KnownOrigins(s.leaders[c], cfg.replicas);
    LoggedBatchIsOwn(cfg, s, c, p, j);
    assert ReplicaInv(cfg, s, log[p].from);
    assert Honest(cfg, s.contents, log[p].from, Own(s.leaders[log[p].from], log[p].from)[At(log, p, j)]);
  }

  lemma PrefixReceived(contents: map<nat, seq<Txn>>, p: Sequence, q: Sequence)
    requires p <= q
    ensures Received(contents, p) <= Received(contents, q)
  {
    ReceivedConcat(contents, p, q[|p|..]);
    assert q == p + q[|p|..];
  }

  /** What has arrived at a replica stays the beginning of what arrives there. */
  lemma ArrivalsGrow(cfg: Logs.Config, run: seq<Logs.Event>, full: seq<Logs.Event>, c: nat)
    requires Logs.ValidRun(cfg, run) && Logs.ValidRun(cfg, full) && run <= full && c < cfg.replicas
    requires |Logs.After(cfg, run).leaders| == |Logs.After(cfg, full).leaders| == cfg.replicas
    ensures Arrivals(Logs.After(cfg, run), c) <= Arrivals(Logs.After(cfg, full), c)
  {
    var s, s' := Logs.After(cfg, run), Logs.After(cfg, full);
    RunGrows(cfg, run, full);
    RunKeepsOrder(cfg, run);
    RunKeepsOrigins(cfg, run);
    var g, h := s.leaders[c].globalLog, s'.leaders[c].globalLog;
    var bs := Flatten(AllSequences(g));
    forall p, j | 0 <= p < |g| && 0 <= j < |g[p].sequence| ensures g[p].sequence[j].id in s.contents {
      EntryIsSent(cfg, s, c, p, j);
    }
    forall i | 0 <= i < |bs| ensures bs[i].id in s.contents {
      LoggedIsSent(s.contents, g, i);
    }
    ReceivedKept(s.contents, s'.contents, bs);
    SequencesPrefix(g, h);
    FlattenPrefix(AllSequences(g), AllSequences(h));
    PrefixReceived(s'.contents, bs, Flatten(AllSequences(h)));
  }

  lemma MachinesReadMore(cfg: Logs.Config, run: seq<Logs.Event>, full: seq<Logs.Event>, d: Deployment, c: nat)
    requires Logs.ValidRun(cfg, run) && Logs.ValidRun(cfg, full) && run <= full && c < cfg.replicas
    requires |Logs.After(cfg, run).leaders| == |Logs.After(cfg, full).leaders| == cfg.replicas
    ensures ReadsMore(MachinesAt(cfg, Logs.After(cfg, run), d, c), MachinesAt(cfg, Logs.After(cfg, full), d, c))
  {
    ArrivalsGrow(cfg, run, full, c);
    forall m: nat
      ensures InputsOf(d, Arrivals(Logs.After(cfg, run), c))(m) <= InputsOf(d, Arrivals(Logs.After(cfg, full), c))(m)
    {
      FilterPrefix(Arrivals(Logs.After(cfg, run), c), Arrivals(Logs.After(cfg, full), c), ConcernsAt(d, m));
    }
  }

  // -------- executions

  /** At shard `p` the transaction `t` sees what the serial execution of `w` gives it. */
  ghost predicate SeesSerially(w: Cluster.World, s: Cluster.State, p: nat, t: Txn) {
    exists i :: 0 <= i < |w.order| && w.order[i] == t && Cluster.View(w, s, p, t) == ClusterSafety.SerialView(w, i)
  }

  lemma EarlyShards(r: Machines.Replica, r': Machines.Replica, order: seq<Txn>, steps: seq<Machines.Step>, p: nat, t: Txn)
    requires ReadsMore(r, r') && ValidReplica(r', order) && Machines.IsRun(r, steps + [Machines.Work(Cluster.Execute(p, t))])
    ensures Machines.IsRun(r, steps) && SeesSerially(Machines.Sharded(r', order), Machines.End(r, steps).work, p, t)
  {
    var longer := steps + [Machines.Work(Cluster.Execute(p, t))];
    assert Machines.Before(longer) == steps;
    RunsStayRuns(r, r', steps);
    RunsStayRuns(r, r', longer);
    ReplicaSerial.EveryShardReadsSerially(r', order, steps, p, t);
  }

  /** While logs still grow and machines have read only part of them, each execution at each shard of each replica already
      reads the values of the serial execution, in the order of every continuation in which all settles. */
  lemma EarlyExecutionsAreSerial(cfg: Logs.Config, run: seq<Logs.Event>, full: seq<Logs.Event>, d: Deployment, c: nat,
                                 steps: seq<Machines.Step>, p: nat, t: Txn)
    requires Logs.ValidRun(cfg, run) && Logs.ValidRun(cfg, full) && run <= full && c < cfg.replicas
    requires |Logs.After(cfg, run).leaders| == cfg.replicas
    requires AllSettled(cfg, Logs.After(cfg, full)) && NoneGenerated(cfg, Logs.After(cfg, full)) && AllSensible(cfg, d)
    requires var r := MachinesAt(cfg, Logs.After(cfg, run), d, c);
             Machines.IsRun(r, steps + [Machines.Work(Cluster.Execute(p, t))])
    ensures var r := MachinesAt(cfg, Logs.After(cfg, run), d, c);
            && Machines.IsRun(r, steps)
            && SeesSerially(AgreedWorld(cfg, Logs.After(cfg, full), d), Machines.End(r, steps).work, p, t)
  {
    var s, s' := Logs.After(cfg, run), Logs.After(cfg, full);
    MachinesReadMore(cfg, run, full, d, c);
    RunIsLogged(cfg, full);
    MachinesAgree(cfg, s', d, c);
    EarlyShards(MachinesAt(cfg, s, d, c), MachinesAt(cfg, s', d, c), AgreedOrder(cfg, s'), steps, p, t);
  }
}
