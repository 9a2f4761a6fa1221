/** The fixed-leader majority log of the original CalvinDB, fed by the sequencer's vote counter. */
module Paxos {
  import opened Txns

  type BatchId = nat

  datatype Entry = Entry(version: nat, batches: seq<BatchId>)

  datatype Message = Data(entry: Entry) | Commit

  /** Participant 0. `sequence` is the open, unproposed sequence; while `proposal` is present the leader
      counts acknowledgements for it. */
  datatype Leader = Leader(sequence: seq<BatchId>, nextVersion: nat, proposal: Option<Entry>, acks: nat, log: seq<Entry>)

  datatype Follower = Follower(uncommitted: seq<Entry>, log: seq<Entry>)

  /** FIFO links between the leader and follower `i`: `down[i]` carries messages, `up[i]` acknowledged versions. */
  type Links<T> = map<nat, seq<T>>

  function Quorum(participants: nat): nat {
    participants / 2 + 1
  }

  // ---------------------------------------------------------------- The handlers as functions

  function Append(l: Leader, b: BatchId): Leader {
    l.(sequence := l.sequence + [b])
  }

  function Propose(l: Leader): Leader {
    l.(sequence := [], nextVersion := l.nextVersion + 1, proposal := Some(Entry(l.nextVersion, l.sequence)), acks := 1)
  }

  /** An acknowledgement of an earlier version is ignored. */
  function CountAck(l: Leader, version: nat): Leader
    requires l.proposal.Some?
  {
    if version == l.proposal.value.version then l.(acks := l.acks + 1) else l
  }

  function CommitProposal(l: Leader): Leader
    requires l.proposal.Some?
  {
    l.(proposal := None, log := l.log + [l.proposal.value])
  }

  /** A follower queues and acknowledges a proposal, and moves the oldest one to its log on a commit. */
  function Receive(f: Follower, m: Message): Follower
    requires m.Commit? ==> f.uncommitted != []
  {
    match m
    case Data(e) => f.(uncommitted := f.uncommitted + [e])
    case Commit => Follower(f.uncommitted[1..], f.log + [f.uncommitted[0]])
  }

  function Broadcast<T>(links: Links<T>, m: T): Links<T> {
    map i | i in links :: links[i] + [m]
  }

  /** The vote counter: the number of votes of a batch so far, forgotten once every replica has voted. */
  function CountVote(votes: map<BatchId, nat>, replicas: nat, b: BatchId): (map<BatchId, nat>, nat) {
    var n := if b in votes then votes[b] + 1 else 1;
    (if n == replicas then votes - {b} else votes[b := n], n)
  }

  // ---------------------------------------------------------------- The handlers as code

  /** Leader side: the body of the leader's loop, cut at the points where it waits for messages. */
  class PaxosLeader {
    const participants: nat
    var sequence: seq<BatchId>
    var nextVersion: nat
    var proposal: Option<Entry>
    var acks: nat
    var log: seq<Entry>

    ghost function State(): Leader
      reads this
    {
      Leader(sequence, nextVersion, proposal, acks, log)
    }

    constructor (participants: nat)
      ensures this.participants == participants && State() == Leader([], 0, None, 0, [])
    {
      this.participants := participants;
      sequence, nextVersion, proposal, acks, log := [], 0, None, 0, [];
    }

    method AppendBatch(b: BatchId)
      modifies `sequence
      ensures State() == Append(old(State()), b)
    {
      sequence := sequence + [b];
    }

    method ProposeSequence(down: Links<Message>) returns (down': Links<Message>)
      requires proposal.None? && sequence != []
      requires down.Keys == Followers(participants)
      modifies this
      ensures State() == Propose(old(State()))
      ensures down' == Broadcast(down, Data(Entry(old(nextVersion), old(sequence))))
    {
      var version := nextVersion;
      nextVersion := nextVersion + 1;
      var encoded := sequence;
      sequence := [];
      down' := SendToAll(down, Data(Entry(version, encoded)));
      proposal := Some(Entry(version, encoded));
      acks := 1;
    }

    method HandleAck(version: nat)
      requires proposal.Some?
      modifies `acks
      ensures State() == CountAck(old(State()), version)
    {
      if version == proposal.value.version {
        acks := acks + 1;
      }
    }

    method CommitAndAppend(down: Links<Message>) returns (down': Links<Message>)
      requires proposal.Some? && 2 * acks > participants
      requires down.Keys == Followers(participants)
      modifies `proposal, `log
      ensures State() == CommitProposal(old(State()))
      ensures down' == Broadcast(down, Commit)
    {
      down' := SendToAll(down, Commit);
      log := log + [proposal.value];
      proposal := None;
    }

    method SendToAll(down: Links<Message>, m: Message) returns (down': Links<Message>)
      requires down.Keys == Followers(participants)
      ensures down' == Broadcast(down, m)
    {
      down' := down;
      var i := 1;
      while i < participants
        invariant participants > 0 ==> 1 <= i <= participants
        invariant down'.Keys == down.Keys
        invariant forall j :: j in down ==> down'[j] == if j < i then down[j] + [m] else down[j]
      {
        assert i in down;
        down' := down'[i := down'[i] + [m]];
        i := i + 1;
      }
    }
  }

  class PaxosFollower {
    var uncommitted: seq<Entry>
    var log: seq<Entry>

    ghost function State(): Follower
      reads this
    {
      Follower(uncommitted, log)
    }

    constructor ()
      ensures State() == Follower([], [])
    {
      uncommitted, log := [], [];
    }

    /** Handles one message; `ack` is the version acknowledged to the leader, if any. */
    method Handle(m: Message) returns (ack: Option<nat>)
      requires m.Commit? ==> uncommitted != []
      modifies this
      ensures State() == Receive(old(State()), m)
      ensures ack == if m.Data? then Some(m.entry.version) else None
    {
      if m.Data? {
        uncommitted := uncommitted + [m.entry];
        ack := Some(m.entry.version);
      } else {
        var entry := uncommitted[0];
        uncommitted := uncommitted[1..];
        log := log + [entry];
        ack := None;
      }
    }
  }

  class VoteCounter {
    const replicas: nat
    var votes: map<BatchId, nat>

    constructor (replicas: nat)
      ensures this.replicas == replicas && votes == map[]
    {
      this.replicas := replicas;
      votes := map[];
    }

    /** Counts a vote; at exactly the majority vote the batch is appended to the leader's open sequence. */
    method Vote(b: BatchId, log: PaxosLeader)
      modifies this, log`sequence
      ensures votes == CountVote(old(votes), replicas, b).0
      ensures log.State() == if CountVote(old(votes), replicas, b).1 == replicas / 2 + 1 then Append(old(log.State()), b)
                             else old(log.State())
    {
      var n := 0;
      if b !in votes {
        n := 1;
        votes := votes[b := 1];
      } else {
        n := votes[b] + 1;
        votes := votes[b := n];
      }
      if n == replicas {
        assert votes - {b} == old(votes) - {b};
        votes := votes - {b};
      }
      if n == replicas / 2 + 1 {
        log.AppendBatch(b);
      }
    }
  }

  // ---------------------------------------------------------------- The protocol

  predicate IsFollower(participants: nat, i: nat) {
    1 <= i < participants
  }

  function Followers(participants: nat): set<nat> {
    set i: nat | i < participants && IsFollower(participants, i)
  }

  datatype System = System(leader: Leader, followers: map<nat, Follower>, down: Links<Message>, up: Links<nat>,
                           votes: map<BatchId, nat>)

  datatype Event = Vote(replica: nat, b: BatchId) | ProposeNext | Deliver(i: nat) | DeliverAck(i: nat) | CommitNext

  function Init(participants: nat): System {
    var fs := Followers(participants);
    System(Leader([], 0, None, 0, []), map i | i in fs :: Follower([], []), map i | i in fs :: [], map i | i in fs :: [],
           map[])
  }

  ghost predicate Enabled(participants: nat, s: System, past: seq<Event>, e: Event) {
    match e
    case Vote(r, b) => r < participants && e !in past
    case ProposeNext => s.leader.proposal.None? && s.leader.sequence != []
    case Deliver(i) =>
      i in s.down && i in s.followers && i in s.up && s.down[i] != []
      && (s.down[i][0].Commit? ==> s.followers[i].uncommitted != [])
    case DeliverAck(i) =>
      i in s.up && s.up[i] != [] && s.leader.proposal.Some? && s.leader.acks < Quorum(participants)
    case CommitNext => s.leader.proposal.Some? && s.leader.acks >= Quorum(participants)
  }

  ghost function Apply(participants: nat, s: System, past: seq<Event>, e: Event): System
    requires Enabled(participants, s, past, e)
  {
    match e
    case Vote(r, b) =>
      var (votes, n) := CountVote(s.votes, participants, b);
      s.(votes := votes, leader := if n == participants / 2 + 1 then Append(s.leader, b) else s.leader)
    case ProposeNext =>
      s.(leader := Propose(s.leader),
         down := Broadcast(s.down, Data(Entry(s.leader.nextVersion, s.leader.sequence))))
    case Deliver(i) =>
      var m := s.down[i][0];
      s.(followers := s.followers[i := Receive(s.followers[i], m)],
         down := s.down[i := s.down[i][1..]],
         up := if m.Data? then s.up[i := s.up[i] + [m.entry.version]] else s.up)
    case DeliverAck(i) =>
      s.(leader := CountAck(s.leader, s.up[i][0]), up := s.up[i := s.up[i][1..]])
    case CommitNext =>
      s.(leader := CommitProposal(s.leader), down := Broadcast(s.down, Commit))
  }
}
