/** The leader of one replica in the geo-replicated log: what it does with each message and each round. */
module LocalPaxos {
  import opened Txns
  import opened Filters

  /** A batch in a sequence. `source` remembers which batch of replica 0 it was regenerated from, if any. */
  datatype Batch = Batch(id: nat, source: Option<nat>)

  type Sequence = seq<Batch>

  datatype Tagged = Tagged(sequence: Sequence, from: nat)

  /** Several sequences of a local log, with the version of the last one. */
  datatype Shipment = Shipment(sequences: seq<Sequence>, version: nat)

  /** Between rounds, waiting for multi-replica batch number `next` of the round's sequence, or collecting acks. */
  datatype Phase = Idle | Regenerating(round: Tagged, next: nat) | Proposing(round: Tagged)

  /** Sequence number n of a log has version n + 1. `readers[r]` counts the local entries read for replica r. */
  datatype Leader = Leader(
    open: Sequence,
    localLog: seq<Sequence>,
    globalLog: seq<Tagged>,
    remote: seq<Tagged>,
    readers: seq<nat>,
    todo: set<nat>,
    isFirst: bool,
    alternate: nat,
    phase: Phase,
    multi: map<nat, seq<Txn>>)

  function InitialLeader(replicas: nat): Leader {
    Leader([], [], [], [], seq(replicas, i => 0), {}, true, 0, Idle, map[])
  }

  // -------- the handlers as functions

  function Tag(sequences: seq<Sequence>, from: nat): (q: seq<Tagged>)
    ensures |q| == |sequences| && forall i :: 0 <= i < |q| ==> q[i] == Tagged(sequences[i], from)
  {
    seq(|sequences|, i requires 0 <= i < |sequences| => Tagged(sequences[i], from))
  }

  /** New sequences of another replica are queued, and their version acknowledged. */
  function ReceiveShipment(l: Leader, from: nat, s: Shipment): Leader {
    l.(remote := l.remote + Tag(s.sequences, from))
  }

  /** What a reader finds: the rest of the log, and the version of the last entry, or `version` if there is none. */
  function ReadRest(log: seq<Sequence>, reader: nat, version: nat): Shipment
    requires reader <= |log|
  {
    Shipment(log[reader..], if reader < |log| then |log| else version)
  }

  /** An acknowledgement is answered by what was appended since, or noted if the version does not grow. */
  function ReceiveAck(l: Leader, from: nat, version: nat): (Leader, Option<Shipment>)
    requires from < |l.readers| && l.readers[from] <= |l.localLog|
  {
    var news := ReadRest(l.localLog, l.readers[from], version);
    var read := l.(readers := l.readers[from := |l.localLog|]);
    if news.version == version then (read.(todo := l.todo + {from}), None) else (read, Some(news))
  }

  function NextPhase(t: Tagged, next: nat): Phase {
    if next < |t.sequence| then Regenerating(t, next) else Proposing(t)
  }

  /** Local sequences get one round in ten, and every round when nothing else is queued. */
  predicate PrefersLocal(l: Leader) {
    ((l.alternate + 1) % 10 < 1 && l.open != []) || l.remote == []
  }

  function Begin(l: Leader, me: nat): Leader
    requires l.open != [] || l.remote != []
  {
    var l' := l.(alternate := (l.alternate + 1) % 10);
    if PrefersLocal(l) then
      l'.(open := [], phase := Proposing(Tagged(l.open, me)))
    else
      var t := l.remote[0];
      l'.(remote := l.remote[1..], phase := if me != 0 && t.from == 0 then NextPhase(t, 0) else Proposing(t))
  }

  predicate CanRegenerate(l: Leader) {
    && l.phase.Regenerating? && l.phase.next < |l.phase.round.sequence|
    && l.phase.round.sequence[l.phase.next].id in l.multi
  }

  /** The next batch of replica 0 is regenerated under a new id, unless it has nothing for this replica. */
  function Regenerate(l: Leader, newId: nat): Leader
    requires CanRegenerate(l)
  {
    var b := l.phase.round.sequence[l.phase.next];
    l.(open := if l.multi[b.id] == [] then l.open else l.open + [Batch(newId, Some(b.id))],
       phase := NextPhase(l.phase.round, l.phase.next + 1))
  }

  predicate OwnRound(l: Leader, me: nat) {
    l.phase.Proposing? && l.phase.round.from == me
  }

  predicate IsOther(me: nat, replicas: nat, i: nat) {
    i < replicas && i != me
  }

  function Others(me: nat, replicas: nat): set<nat> {
    set i: nat | i < replicas && IsOther(me, replicas, i)
  }

  function Targets(l: Leader, me: nat, replicas: nat): set<nat> {
    if !OwnRound(l, me) then {}
    else if l.isFirst then Others(me, replicas)
    else l.todo
  }

  predicate CanCommit(l: Leader, replicas: nat) {
    && l.phase.Proposing? && |l.readers| == replicas
    && (forall i :: i in l.todo ==> i < replicas)
    && (forall i :: 0 <= i < replicas ==> l.readers[i] <= |l.localLog|)
  }

  /** The round's sequence enters the logs. A local one is shipped: the first to every other replica, a later
      one to those who are waiting for it. */
  function Commit(l: Leader, me: nat, replicas: nat): Leader
    requires CanCommit(l, replicas)
  {
    var targets := Targets(l, me, replicas);
    var log := l.localLog + if OwnRound(l, me) then [l.phase.round.sequence] else [];
    l.(globalLog := l.globalLog + [l.phase.round],
       localLog := log,
       readers := seq(replicas, i requires 0 <= i < replicas => if i in targets then |log| else l.readers[i]),
       todo := if OwnRound(l, me) && !l.isFirst then {} else l.todo,
       isFirst := l.isFirst && !OwnRound(l, me),
       phase := Idle)
  }

  /** What the commit sends to each replica. */
  function Shipped(l: Leader, me: nat, replicas: nat): map<nat, Shipment>
    requires CanCommit(l, replicas)
  {
    var log := l.localLog + if OwnRound(l, me) then [l.phase.round.sequence] else [];
    map i | i in Targets(l, me, replicas) && i < replicas :: ReadRest(log, l.readers[i], 0)
  }

  predicate IsMultiFor(t: Txn, me: nat) {
    |Involved(t)| > 1 && me in Involved(t)
  }

  /** A transaction that is itself a copy is not copied again. */
  predicate IsForwarded(t: Txn, me: nat) {
    IsMultiFor(t, me) && !t.newGenerated
  }

  function Forwarded(me: nat): Txn -> bool {
    (t: Txn) => IsForwarded(t, me)
  }

  /** The transactions among `txns` that the sequencer forwards to the leader of this replica. */
  function MultiPart(txns: seq<Txn>, me: nat): seq<Txn> {
    Filter(txns, Forwarded(me))
  }

  function CopyFor(t: Txn, me: nat): Txn {
    t.(origin := me, newGenerated := true)
  }

  /** Transactions copied for this replica: they get its origin and are marked as copies. */
  function Copies(txns: seq<Txn>, me: nat): (r: seq<Txn>)
    ensures |r| == |txns| && forall i :: 0 <= i < |r| ==> r[i] == CopyFor(txns[i], me)
  {
    seq(|txns|, i requires 0 <= i < |txns| => CopyFor(txns[i], me))
  }

  /** What arrives on the channel between leaders, and from the sequencers. */
  datatype Message = MultiBatch(id: nat, txns: seq<Txn>) | NewSequence(from: nat, shipment: Shipment) | Ack(from: nat, version: nat)

  // -------- the handlers as code

  /** What the sequencer of replica `me` forwards of a batch of replica 0. */
  method ForwardMulti(txns: seq<Txn>, me: nat) returns (forwarded: seq<Txn>)
    ensures forwarded == MultiPart(txns, me)
  {
    forwarded := [];
    for i := 0 to |txns|
      invariant forwarded == MultiPart(txns[..i], me)
    {
      assert txns[..i + 1] == txns[..i] + [txns[i]];
      FilterMore(txns[..i], txns[i], Forwarded(me));
      if |Involved(txns[i])| > 1 && !txns[i].newGenerated && me in Involved(txns[i]) {
        forwarded := forwarded + [txns[i]];
      }
    }
    assert txns[..|txns|] == txns;
  }

  class LocalPaxosLeader {
    const me: nat
    const replicas: nat
    var open: Sequence
    var localLog: seq<Sequence>
    var globalLog: seq<Tagged>
    var remote: seq<Tagged>
    var readers: seq<nat>
    var todo: set<nat>
    var isFirst: bool
    var alternate: nat
    var phase: Phase
    var multi: map<nat, seq<Txn>>

    ghost function View(): Leader
      reads this
    {
      Leader(open, localLog, globalLog, remote, readers, todo, isFirst, alternate, phase, multi)
    }

    constructor (me: nat, replicas: nat)
      ensures this.me == me && this.replicas == replicas && View() == InitialLeader(replicas)
    {
      this.me, this.replicas := me, replicas;
      open, localLog, globalLog, remote, todo, isFirst := [], [], [], [], {}, true;
      readers := seq(replicas, i => 0);
      alternate, phase, multi := 0, Idle, map[];
    }

    method Append(b: Batch)
      modifies this`open
      ensures View() == old(View()).(open := old(open) + [b])
    {
      open := open + [b];
    }

    method HandleMultiBatch(id: nat, txns: seq<Txn>)
      modifies this`multi
      ensures View() == old(View()).(multi := old(multi)[id := txns])
    {
      multi := multi[id := txns];
    }

    method HandleNewSequence(from: nat, s: Shipment) returns (ack: nat)
      modifies this`remote
      ensures View() == ReceiveShipment(old(View()), from, s) && ack == s.version
    {
      for i := 0 to |s.sequences|
        invariant remote == old(remote) + Tag(s.sequences, from)[..i]
      {
        remote := remote + [Tagged(s.sequences[i], from)];
      }
      ack := s.version;
    }

    /** Reads everything in the local log that the replica's reader has not seen. */
    method ReadNew(replica: nat, version: nat) returns (news: Shipment)
      requires replica < |readers| && readers[replica] <= |localLog|
      modifies this`readers
      ensures readers == old(readers)[replica := |localLog|]
      ensures news == ReadRest(localLog, old(readers[replica]), version)
    {
      ghost var start := readers[replica];
      var sequences, latest := [], version;
      while readers[replica] < |localLog|
        invariant |readers| == |old(readers)| && start <= readers[replica] <= |localLog|
        invariant readers == old(readers)[replica := readers[replica]]
        invariant sequences == localLog[start..readers[replica]]
        invariant latest == if readers[replica] == start then version else readers[replica]
        decreases |localLog| - readers[replica]
      {
        var r := readers[replica];
        sequences, latest := sequences + [localLog[r]], r + 1;
        readers := readers[replica := r + 1];
      }
      news := Shipment(sequences, latest);
    }

    method HandleAck(from: nat, version: nat) returns (reply: Option<Shipment>)
      requires from < |readers| && readers[from] <= |localLog|
      modifies this`readers, this`todo
      ensures (View(), reply) == ReceiveAck(old(View()), from, version)
    {
      var news := ReadNew(from, version);
      if news.version == version {
        todo := todo + {from};
        reply := None;
      } else {
        reply := Some(news);
      }
    }

    /** Handles one message; `ack` and `reply` are what is sent back. */
    method ReceiveMessage(m: Message) returns (ack: Option<nat>, reply: Option<Shipment>)
      requires m.Ack? ==> m.from < |readers| && readers[m.from] <= |localLog|
      modifies this
      ensures match m
              case MultiBatch(id, txns) => View() == old(View()).(multi := old(multi)[id := txns]) && ack.None? && reply.None?
              case NewSequence(from, s) => View() == ReceiveShipment(old(View()), from, s) && ack == Some(s.version) && reply.None?
              case Ack(from, version) => (View(), reply) == ReceiveAck(old(View()), from, version) && ack.None?
    {
      ack, reply := None, None;
      match m
      case MultiBatch(id, txns) => HandleMultiBatch(id, txns);
      case NewSequence(from, s) =>
        var version := HandleNewSequence(from, s);
        ack := Some(version);
      case Ack(from, version) => reply := HandleAck(from, version);
    }

    method BeginRound()
      requires open != [] || remote != []
      modifies this
      ensures View() == Begin(old(View()), me)
    {
      alternate := (alternate + 1) % 10;
      if (alternate < 1 && open != []) || remote == [] {
        phase := Proposing(Tagged(open, me));
        open := [];
      } else {
        var t := remote[0];
        remote := remote[1..];
        if me != 0 && t.from == 0 {
          phase := NextPhase(t, 0);
        } else {
          phase := Proposing(t);
        }
      }
    }

    /** Handles the next batch of replica 0; `batch` holds the transactions to send under `newId`, if any. */
    method RegenerateNext(newId: nat) returns (batch: seq<Txn>)
      requires CanRegenerate(View())
      modifies this`open, this`phase
      ensures View() == Regenerate(old(View()), newId)
      ensures batch == Copies(multi[old(phase.round.sequence[phase.next].id)], me)
    {
      var round, next := phase.round, phase.next;
      var source := round.sequence[next].id;
      var txns := multi[source];
      batch := [];
      for i := 0 to |txns|
        invariant batch == Copies(txns, me)[..i]
      {
        batch := batch + [txns[i].(newGenerated := true, origin := me)];
      }
      if |batch| > 0 {
        open := open + [Batch(newId, Some(source))];
      }
      phase := NextPhase(round, next + 1);
    }

    /** Ships the local log to each replica of `targets`. */
    method ShipTo(targets: set<nat>) returns (out: map<nat, Shipment>)
      requires forall i :: i in targets ==> i < |readers|
      requires forall i :: 0 <= i < |readers| ==> readers[i] <= |localLog|
      modifies this`readers
      ensures |readers| == |old(readers)|
      ensures forall i :: 0 <= i < |readers| ==> readers[i] == if i in targets then |localLog| else old(readers)[i]
      ensures out == map i: nat | i in targets && i < |readers| :: ReadRest(localLog, old(readers)[i], 0)
    {
      out := map[];
      var rest := targets;
      while rest != {}
        invariant rest <= targets && |readers| == |old(readers)|
        invariant forall i :: 0 <= i < |readers| ==>
                    readers[i] == if i in targets && i !in rest then |localLog| else old(readers)[i]
        invariant out.Keys == targets - rest
        invariant forall i :: i in out ==> out[i] == ReadRest(localLog, old(readers)[i], 0)
        decreases |rest|
      {
        var i :| i in rest;
        rest := rest - {i};
        var news := ReadNew(i, 0);
        out := out[i := news];
      }
    }

    /** The round enters the logs; the result is whom to ship to. */
    method LogRound() returns (targets: set<nat>)
      requires phase.Proposing?
      modifies this`localLog, this`globalLog, this`todo, this`isFirst
      ensures targets == Targets(old(View()), me, replicas)
      ensures globalLog == old(globalLog) + [phase.round]
      ensures localLog == old(localLog) + if OwnRound(old(View()), me) then [phase.round.sequence] else []
      ensures todo == if OwnRound(old(View()), me) && !old(isFirst) then {} else old(todo)
      ensures isFirst == (old(isFirst) && !OwnRound(old(View()), me))
    {
      var round := phase.round;
      targets := {};
      if round.from == me {
        localLog := localLog + [round.sequence];
        targets := if isFirst then Others(me, replicas) else todo;
        if !isFirst {
          todo := {};
        }
        isFirst := false;
      }
      globalLog := globalLog + [round];
    }

    method CommitRound() returns (out: map<nat, Shipment>)
      requires CanCommit(View(), replicas)
      modifies this
      ensures View() == Commit(old(View()), me, replicas)
      ensures out == Shipped(old(View()), me, replicas)
    {
      var targets := LogRound();
      out := ShipTo(targets);
      phase := Idle;
      assert readers == Commit(old(View()), me, replicas).readers;
    }
  }
}
