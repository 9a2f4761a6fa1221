/** Majority log safety and vote conservation, in every run of the Paxos system. */
module PaxosSafety {
  import opened Txns
  import opened Paxos

  type Run = seq<Event>

  ghost predicate ValidRun(participants: nat, es: Run)
    decreases |es|, 0
  {
    es == [] || (ValidRun(participants, es[..|es| - 1])
                 && Enabled(participants, After(participants, es[..|es| - 1]), es[..|es| - 1], es[|es| - 1]))
  }

  ghost function After(participants: nat, es: Run): System
    requires ValidRun(participants, es)
    decreases |es|, 1
  {
    if es == [] then
      Init(participants)
    else
      Apply(participants, After(participants, es[..|es| - 1]), es[..|es| - 1], es[|es| - 1])
  }

  // ---------------------------------------------------------------- Invariant of the log

  /** Everything proposed so far: the committed log and the proposal still being acknowledged. */
  function Proposals(l: Leader): seq<Entry> {
    l.log + if l.proposal.Some? then [l.proposal.value] else []
  }

  function SentLength(l: Leader): nat {
    2 * |l.log| + if l.proposal.Some? then 1 else 0
  }

  /** The whole stream sent to each follower: every proposal, each followed by its commit. */
  ghost function Sent(l: Leader): seq<Message> {
    seq(SentLength(l), c requires 0 <= c < SentLength(l) => if c % 2 == 0 then Data(Proposals(l)[c / 2]) else Commit)
  }

  ghost predicate LeaderInv(l: Leader) {
    && l.nextVersion == |Proposals(l)|
    && (forall v :: 0 <= v < |Proposals(l)| ==> Proposals(l)[v].version == v)
  }

  /** Number of proposals a follower holds, in its log or uncommitted. */
  function Held(f: Follower): nat {
    |f.log| + |f.uncommitted|
  }

  ghost predicate FollowerInv(l: Leader, f: Follower, down: seq<Message>, up: seq<nat>) {
    && |f.uncommitted| <= 1
    && Held(f) <= |Proposals(l)| && f.log + f.uncommitted == Proposals(l)[..Held(f)]
    && 2 * |f.log| + |f.uncommitted| <= SentLength(l) && down == Sent(l)[2 * |f.log| + |f.uncommitted|..]
    && |up| <= Held(f) && (forall j :: 0 <= j < |up| ==> up[j] == Held(f) - |up| + j)
  }

  ghost predicate SameKeys(participants: nat, s: System) {
    s.followers.Keys == s.down.Keys == s.up.Keys == Followers(participants)
  }

  ghost predicate LinksInv(participants: nat, s: System) {
    && SameKeys(participants, s)
    && (forall i :: i in s.followers ==> FollowerInv(s.leader, s.followers[i], s.down[i], s.up[i]))
  }

  /** Followers whose acknowledgements up to the last proposal have all been read. */
  ghost function Acked(participants: nat, s: System): set<nat>
    requires SameKeys(participants, s)
  {
    set i | i in s.followers && Held(s.followers[i]) - |s.up[i]| == s.leader.nextVersion
  }

  /** Participants that hold proposal `v`; the leader holds all it proposed. */
  ghost function Holders(participants: nat, s: System, v: nat): set<nat>
    requires SameKeys(participants, s)
  {
    {0} + set i | i in s.followers && Held(s.followers[i]) > v
  }

  ghost predicate CountsInv(participants: nat, s: System)
    requires SameKeys(participants, s)
  {
    && (s.leader.proposal.Some? ==> s.leader.acks == 1 + |Acked(participants, s)|)
    && (forall v :: 0 <= v < |s.leader.log| ==> |Holders(participants, s, v)| >= Quorum(participants))
  }

  ghost predicate Inv(participants: nat, s: System) {
    LeaderInv(s.leader) && LinksInv(participants, s) && CountsInv(participants, s)
  }

  // ---------------------------------------------------------------- Steps

  lemma SentGrows(l: Leader, l': Leader, m: Message)
    requires SentLength(l') == SentLength(l) + 1 && Proposals(l) <= Proposals(l')
    requires m == if SentLength(l) % 2 == 0 then Data(Proposals(l')[SentLength(l) / 2]) else Commit
    ensures Sent(l') == Sent(l) + [m]
  {
  }

  lemma BroadcastKeepsFollower(l: Leader, l': Leader, f: Follower, down: seq<Message>, up: seq<nat>, m: Message)
    requires FollowerInv(l, f, down, up) && Proposals(l) <= Proposals(l')
    requires SentLength(l') == SentLength(l) + 1 && Sent(l') == Sent(l) + [m]
    ensures FollowerInv(l', f, down + [m], up)
  {
    var c := 2 * |f.log| + |f.uncommitted|;
    assert Sent(l')[c..] == Sent(l)[c..] + [m];
    assert Proposals(l')[..Held(f)] == Proposals(l)[..Held(f)];
  }

  lemma ProposeKeepsLinks(participants: nat, s: System, past: Run)
    requires LeaderInv(s.leader) && LinksInv(participants, s) && Enabled(participants, s, past, ProposeNext)
    ensures var s' := Apply(participants, s, past, ProposeNext); LeaderInv(s'.leader) && LinksInv(participants, s')
  {
    var s' := Apply(participants, s, past, ProposeNext);
    var m := Data(Entry(s.leader.nextVersion, s.leader.sequence));
    SentGrows(s.leader, s'.leader, m);
    forall i | i in s'.followers ensures FollowerInv(s'.leader, s'.followers[i], s'.down[i], s'.up[i]) {
      BroadcastKeepsFollower(s.leader, s'.leader, s.followers[i], s.down[i], s.up[i], m);
    }
  }

  lemma ProposeStep(participants: nat, s: System, past: Run)
    requires Inv(participants, s) && Enabled(participants, s, past, ProposeNext)
    ensures Inv(participants, Apply(participants, s, past, ProposeNext))
  {
    var s' := Apply(participants, s, past, ProposeNext);
    ProposeKeepsLinks(participants, s, past);
    assert Acked(participants, s') == {};
    forall v | 0 <= v < |s'.leader.log| ensures |Holders(participants, s', v)| >= Quorum(participants) {
      assert Holders(participants, s', v) == Holders(participants, s, v);
    }
  }

  lemma CommitStep(participants: nat, s: System, past: Run)
    requires Inv(participants, s) && Enabled(participants, s, past, CommitNext)
    ensures Inv(participants, Apply(participants, s, past, CommitNext))
  {
    var s' := Apply(participants, s, past, CommitNext);
    CommitKeepsLinks(participants, s, past);
    forall v | 0 <= v < |s'.leader.log| ensures |Holders(participants, s', v)| >= Quorum(participants) {
      assert Holders(participants, s', v) == Holders(participants, s, v);
      if v == |s.leader.log| {
        QuorumHolds(participants, s);
      }
    }
  }

  lemma CommitKeepsLinks(participants: nat, s: System, past: Run)
    requires Inv(participants, s) && Enabled(participants, s, past, CommitNext)
    ensures var s' := Apply(participants, s, past, CommitNext); LeaderInv(s'.leader) && LinksInv(participants, s')
  {
    var s' := Apply(participants, s, past, CommitNext);
    assert Proposals(s'.leader) == Proposals(s.leader);
    SentGrows(s.leader, s'.leader, Commit);
    forall i | i in s'.followers ensures FollowerInv(s'.leader, s'.followers[i], s'.down[i], s'.up[i]) {
      BroadcastKeepsFollower(s.leader, s'.leader, s.followers[i], s.down[i], s.up[i], Commit);
    }
  }

  /** Whoever acknowledged the proposal holds it, and the leader does too. */
  lemma QuorumHolds(participants: nat, s: System)
    requires Inv(participants, s) && s.leader.proposal.Some?
    ensures |Holders(participants, s, |s.leader.log|)| >= s.leader.acks
  {
    var acked := Acked(participants, s);
    assert 0 !in acked;
    assert |{0} + acked| == 1 + |acked|;
    SubsetCardinality({0} + acked, Holders(participants, s, |s.leader.log|));
  }

  /** A follower has been sent what it has not yet received, so its next message follows from what it holds. */
  lemma NextMessage(l: Leader, f: Follower, down: seq<Message>, up: seq<nat>)
    requires FollowerInv(l, f, down, up) && down != []
    ensures var c := 2 * |f.log| + |f.uncommitted|;
            && down[1..] == Sent(l)[c + 1..] && c + 1 <= SentLength(l)
            && down[0] == if f.uncommitted == [] then Data(Proposals(l)[|f.log|]) else Commit
  {
    assert down[0] == Sent(l)[2 * |f.log| + |f.uncommitted|];
  }

  lemma DataKeepsFollower(l: Leader, f: Follower, down: seq<Message>, up: seq<nat>)
    requires LeaderInv(l) && FollowerInv(l, f, down, up) && down != [] && f.uncommitted == []
    ensures FollowerInv(l, Receive(f, down[0]), down[1..], up + [down[0].entry.version])
  {
    NextMessage(l, f, down, up);
    var e := Proposals(l)[|f.log|];
    assert f.log + [] == f.log;
    assert Proposals(l)[..|f.log|] + [e] == Proposals(l)[..|f.log| + 1];
  }

  lemma CommitKeepsFollower(l: Leader, f: Follower, down: seq<Message>, up: seq<nat>)
    requires FollowerInv(l, f, down, up) && down != [] && f.uncommitted != []
    ensures FollowerInv(l, Receive(f, Commit), down[1..], up)
  {
    NextMessage(l, f, down, up);
    var f' := Receive(f, Commit);
    assert f'.log + f'.uncommitted == f.log + f.uncommitted;
  }

  lemma DeliverKeepsFollower(l: Leader, f: Follower, down: seq<Message>, up: seq<nat>)
    requires LeaderInv(l) && FollowerInv(l, f, down, up) && down != []
    ensures down[0].Commit? ==> f.uncommitted != []
    ensures var f' := Receive(f, down[0]);
            && FollowerInv(l, f', down[1..], if down[0].Data? then up + [down[0].entry.version] else up)
            && Held(f') == Held(f) + if down[0].Data? then 1 else 0
  {
    NextMessage(l, f, down, up);
    if f.uncommitted == [] {
      DataKeepsFollower(l, f, down, up);
    } else {
      CommitKeepsFollower(l, f, down, up);
    }
  }

  /** Steps that leave the log alone, drop no entry and read no acknowledgement keep the counts. */
  lemma CountsFrame(participants: nat, s: System, s': System)
    requires SameKeys(participants, s) && SameKeys(participants, s') && CountsInv(participants, s)
    requires s'.leader.log == s.leader.log && s'.leader.proposal == s.leader.proposal
    requires s'.leader.nextVersion == s.leader.nextVersion && s'.leader.acks == s.leader.acks
    requires forall i :: i in s.followers ==>
               Held(s'.followers[i]) >= Held(s.followers[i])
               && Held(s'.followers[i]) - |s'.up[i]| == Held(s.followers[i]) - |s.up[i]|
    ensures CountsInv(participants, s')
  {
    assert Acked(participants, s') == Acked(participants, s);
    forall v | 0 <= v < |s'.leader.log| ensures |Holders(participants, s', v)| >= Quorum(participants) {
      SubsetCardinality(Holders(participants, s, v), Holders(participants, s', v));
    }
  }

  lemma LinksAfterChange(participants: nat, s: System, s': System, i: nat, f: Follower, down: seq<Message>, up: seq<nat>)
    requires LinksInv(participants, s) && i in s.followers && s'.leader == s.leader
    requires s'.followers == s.followers[i := f] && s'.down == s.down[i := down] && s'.up == s.up[i := up]
    requires FollowerInv(s.leader, f, down, up)
    ensures LinksInv(participants, s')
  {
    forall j | j in s'.followers ensures FollowerInv(s'.leader, s'.followers[j], s'.down[j], s'.up[j]) {
      if j != i {
        assert FollowerInv(s.leader, s.followers[j], s.down[j], s.up[j]);
      }
    }
  }

  lemma DeliverKeepsLinks(participants: nat, s: System, past: Run, i: nat)
    requires LeaderInv(s.leader) && LinksInv(participants, s) && Enabled(participants, s, past, Deliver(i))
    ensures LinksInv(participants, Apply(participants, s, past, Deliver(i)))
  {
    var s' := Apply(participants, s, past, Deliver(i));
    DeliverKeepsFollower(s.leader, s.followers[i], s.down[i], s.up[i]);
    assert s'.up == s.up[i := s'.up[i]];
    LinksAfterChange(participants, s, s', i, s'.followers[i], s'.down[i], s'.up[i]);
  }

  lemma DeliverKeepsHeld(participants: nat, s: System, past: Run, i: nat, j: nat)
    requires LeaderInv(s.leader) && LinksInv(participants, s) && Enabled(participants, s, past, Deliver(i))
    requires j in s.followers
    ensures var s' := Apply(participants, s, past, Deliver(i));
            && Held(s'.followers[j]) >= Held(s.followers[j])
            && Held(s'.followers[j]) - |s'.up[j]| == Held(s.followers[j]) - |s.up[j]|
  {
    DeliverKeepsFollower(s.leader, s.followers[i], s.down[i], s.up[i]);
  }

  lemma DeliverStep(participants: nat, s: System, past: Run, i: nat)
    requires Inv(participants, s) && Enabled(participants, s, past, Deliver(i))
    ensures Inv(participants, Apply(participants, s, past, Deliver(i)))
  {
    var s' := Apply(participants, s, past, Deliver(i));
    DeliverKeepsLinks(participants, s, past, i);
    forall j | j in s.followers
      ensures Held(s'.followers[j]) >= Held(s.followers[j])
              && Held(s'.followers[j]) - |s'.up[j]| == Held(s.followers[j]) - |s.up[j]|
    {
      DeliverKeepsHeld(participants, s, past, i, j);
    }
    CountsFrame(participants, s, s');
  }

  lemma OldestAck(l: Leader, f: Follower, down: seq<Message>, up: seq<nat>)
    requires LeaderInv(l) && FollowerInv(l, f, down, up) && up != [] && l.proposal.Some?
    ensures up[0] == Held(f) - |up| < l.nextVersion && l.proposal.value.version == l.nextVersion - 1
  {
    assert l.proposal.value == Proposals(l)[|l.log|];
  }

  lemma AckCounts(participants: nat, s: System, past: Run, i: nat)
    requires SameKeys(participants, s) && CountsInv(participants, s) && Enabled(participants, s, past, DeliverAck(i))
    requires s.up[i][0] == Held(s.followers[i]) - |s.up[i]| < s.leader.nextVersion
    requires s.leader.proposal.value.version == s.leader.nextVersion - 1
    ensures CountsInv(participants, Apply(participants, s, past, DeliverAck(i)))
  {
    var s' := Apply(participants, s, past, DeliverAck(i));
    if s.up[i][0] == s.leader.proposal.value.version {
      assert i !in Acked(participants, s);
      assert Acked(participants, s') == Acked(participants, s) + {i};
    } else {
      assert Acked(participants, s') == Acked(participants, s);
    }
    forall v | 0 <= v < |s'.leader.log| ensures |Holders(participants, s', v)| >= Quorum(participants) {
      assert Holders(participants, s', v) == Holders(participants, s, v);
    }
  }

  lemma DeliverAckStep(participants: nat, s: System, past: Run, i: nat)
    requires Inv(participants, s) && Enabled(participants, s, past, DeliverAck(i))
    ensures Inv(participants, Apply(participants, s, past, DeliverAck(i)))
  {
    DeliverAckKeepsLinks(participants, s, past, i);
    OldestAck(s.leader, s.followers[i], s.down[i], s.up[i]);
    AckCounts(participants, s, past, i);
  }

  lemma ReadAckKeepsFollower(l: Leader, f: Follower, down: seq<Message>, up: seq<nat>)
    requires FollowerInv(l, f, down, up) && up != []
    ensures FollowerInv(l, f, down, up[1..])
  {
  }

  lemma SameLogFollower(l: Leader, l': Leader, f: Follower, down: seq<Message>, up: seq<nat>)
    requires FollowerInv(l, f, down, up) && l'.log == l.log && l'.proposal == l.proposal
    ensures FollowerInv(l', f, down, up)
  {
    assert Proposals(l') == Proposals(l) && Sent(l') == Sent(l);
  }

  lemma DeliverAckKeepsLinks(participants: nat, s: System, past: Run, i: nat)
    requires LeaderInv(s.leader) && LinksInv(participants, s) && Enabled(participants, s, past, DeliverAck(i))
    ensures var s' := Apply(participants, s, past, DeliverAck(i)); LeaderInv(s'.leader) && LinksInv(participants, s')
  {
    var s' := Apply(participants, s, past, DeliverAck(i));
    forall j | j in s'.followers ensures FollowerInv(s'.leader, s'.followers[j], s'.down[j], s'.up[j]) {
      SameLogFollower(s.leader, s'.leader, s.followers[j], s.down[j], s.up[j]);
      if j == i {
        ReadAckKeepsFollower(s'.leader, s.followers[j], s.down[j], s.up[j]);
      }
    }
  }

  lemma VoteStep(participants: nat, s: System, past: Run, r: nat, b: BatchId)
    requires Inv(participants, s) && Enabled(participants, s, past, Vote(r, b))
    ensures Inv(participants, Apply(participants, s, past, Vote(r, b)))
  {
    var s' := Apply(participants, s, past, Vote(r, b));
    assert Proposals(s'.leader) == Proposals(s.leader) && Sent(s'.leader) == Sent(s.leader);
    assert LinksInv(participants, s');
    CountsFrame(participants, s, s');
  }

  lemma {:induction false} RunKeepsInv(participants: nat, es: Run)
    requires ValidRun(participants, es)
    ensures Inv(participants, After(participants, es))
    decreases |es|
  {
    if es != [] {
      var past := es[..|es| - 1];
      RunKeepsInv(participants, past);
      var s := After(participants, past);
      match es[|es| - 1] {
        case Vote(r, b) => VoteStep(participants, s, past, r, b);
        case ProposeNext => ProposeStep(participants, s, past);
        case Deliver(i) => DeliverStep(participants, s, past, i);
        case DeliverAck(i) => DeliverAckStep(participants, s, past, i);
        case CommitNext => CommitStep(participants, s, past);
      }
    }
  }

  // ---------------------------------------------------------------- Log safety

  /** Every follower's log is a prefix of the leader's, whose versions count from zero without gaps. */
  lemma FollowersArePrefixes(participants: nat, es: Run, i: nat)
    requires ValidRun(participants, es) && IsFollower(participants, i)
    ensures var s := After(participants, es);
      && i in s.followers && s.followers[i].log <= s.leader.log
      && (forall v :: 0 <= v < |s.leader.log| ==> s.leader.log[v].version == v)
  {
    RunKeepsInv(participants, es);
    var s := After(participants, es);
    assert i in Followers(participants);
    var f := s.followers[i];
    assert f.log == (f.log + f.uncommitted)[..|f.log|];
    forall v | 0 <= v < |s.leader.log| ensures s.leader.log[v].version == v {
      assert Proposals(s.leader)[v] == s.leader.log[v];
    }
  }

  /** The followers that have entry `e`, in the log or still uncommitted. */
  ghost function Having(s: System, e: Entry): set<nat> {
    set i | i in s.followers && e in s.followers[i].log + s.followers[i].uncommitted
  }

  lemma HasEntry(l: Leader, f: Follower, down: seq<Message>, up: seq<nat>, v: nat)
    requires FollowerInv(l, f, down, up) && v < Held(f) && v < |l.log|
    ensures l.log[v] in f.log + f.uncommitted
  {
    assert (f.log + f.uncommitted)[v] == Proposals(l)[v];
  }

  /** A committed entry is held by more than half of the participants, the leader among them. */
  lemma CommittedIsHeldByMajority(participants: nat, es: Run, v: nat)
    requires ValidRun(participants, es) && v < |After(participants, es).leader.log|
    ensures var s := After(participants, es);
            0 !in Having(s, s.leader.log[v]) && 2 * (1 + |Having(s, s.leader.log[v])|) > participants
  {
    RunKeepsInv(participants, es);
    var s := After(participants, es);
    var having := Having(s, s.leader.log[v]);
    forall i | i in s.followers && Held(s.followers[i]) > v ensures i in having {
      HasEntry(s.leader, s.followers[i], s.down[i], s.up[i], v);
    }
    SubsetCardinality(Holders(participants, s, v), {0} + having);
  }

  /** Participant `p` has the entry, as the leader in its log, as a follower in its log or still uncommitted. */
  ghost predicate HasIt(s: System, p: nat, e: Entry) {
    if p == 0 then e in s.leader.log else p in s.followers && e in s.followers[p].log + s.followers[p].uncommitted
  }

  lemma MajoritiesMeet(participants: nat, p: set<nat>, q: set<nat>) returns (i: nat)
    requires (forall i :: i in p + q ==> i < participants) && |p| + |q| > participants
    ensures i in p && i in q
  {
    AtMost(p + q, participants);
    assert |p + q| + |p * q| == |p| + |q|;
    i :| i in p * q;
  }

  /** Every majority of the participants has one among them that has everything committed; so any two committed entries are
      had together, whoever a minority is that cannot be asked. */
  lemma EveryMajorityHasLog(participants: nat, es: Run, asked: set<nat>) returns (p: nat)
    requires ValidRun(participants, es) && 2 * |asked| > participants && forall i :: i in asked ==> i < participants
    ensures p in asked && forall v :: 0 <= v < |After(participants, es).leader.log| ==>
              HasIt(After(participants, es), p, After(participants, es).leader.log[v])
  {
    RunKeepsInv(participants, es);
    var s := After(participants, es);
    if s.leader.log == [] {
      p :| p in asked;
    } else {
      var holders := Holders(participants, s, |s.leader.log| - 1);
      p := MajoritiesMeet(participants, holders, asked);
      forall v | 0 <= v < |s.leader.log| ensures HasIt(s, p, s.leader.log[v]) {
        if p != 0 {
          HasEntry(s.leader, s.followers[p], s.down[p], s.up[p], v);
        }
      }
    }
  }

  /** A proposal can be committed as soon as the leader and the followers whose acknowledgement of it has been read are more
      than half, and not before. */
  lemma CommitsAtMajority(participants: nat, es: Run)
    requires ValidRun(participants, es) && After(participants, es).leader.proposal.Some?
    ensures var s := After(participants, es);
            var read := set i | i in s.followers && i in s.up && Held(s.followers[i]) - |s.up[i]| == s.leader.nextVersion;
            Enabled(participants, s, es, CommitNext) <==> 2 * (1 + |read|) > participants
  {
    RunKeepsInv(participants, es);
    var s := After(participants, es);
    assert Acked(participants, s) ==
           set i | i in s.followers && i in s.up && Held(s.followers[i]) - |s.up[i]| == s.leader.nextVersion;
  }

  /** A commit never reaches a follower that has nothing uncommitted. */
  lemma CommitFindsItsProposal(participants: nat, es: Run, i: nat)
    requires ValidRun(participants, es) && IsFollower(participants, i)
    ensures var s := After(participants, es);
      i in s.down && i in s.followers && (s.down[i] != [] && s.down[i][0].Commit? ==> |s.followers[i].uncommitted| == 1)
  {
    RunKeepsInv(participants, es);
    var s := After(participants, es);
    assert i in Followers(participants);
    if s.down[i] != [] {
      DeliverKeepsFollower(s.leader, s.followers[i], s.down[i], s.up[i]);
    }
  }

  lemma {:induction false} FollowerCount(participants: nat)
    requires participants >= 1
    ensures |Followers(participants)| == participants - 1
  {
    if participants == 1 {
      assert Followers(1) == {};
    } else {
      FollowerCount(participants - 1);
      assert IsFollower(participants, participants - 1);
      assert forall j :: IsFollower(participants - 1, j) ==> IsFollower(participants, j);
      assert Followers(participants) == Followers(participants - 1) + {participants - 1};
    }
  }

  /** While a proposal lacks acknowledgements, some follower still has a message or an answer on its way. */
  lemma MissingAckIsOnItsWay(participants: nat, s: System) returns (i: nat)
    requires participants >= 1 && Inv(participants, s)
    requires s.leader.proposal.Some? && s.leader.acks < Quorum(participants)
    ensures i in s.followers && (s.up[i] != [] || s.down[i] != [])
  {
    FollowerCount(participants);
    if Followers(participants) <= Acked(participants, s) {
      SubsetCardinality(Followers(participants), Acked(participants, s));
      assert false;
    }
    i :| i in Followers(participants) && i !in Acked(participants, s);
    assert FollowerInv(s.leader, s.followers[i], s.down[i], s.up[i]);
  }

  /** No deadlock: while anything is unproposed or uncommitted, the log can make a move of its own. */
  lemma LogNeverStuck(participants: nat, es: Run)
    requires participants >= 1 && ValidRun(participants, es)
    requires var l := After(participants, es).leader; l.sequence != [] || l.proposal.Some?
    ensures exists e: Event :: !e.Vote? && Enabled(participants, After(participants, es), es, e)
  {
    RunKeepsInv(participants, es);
    var s := After(participants, es);
    if s.leader.proposal.None? {
      assert Enabled(participants, s, es, ProposeNext);
    } else if s.leader.acks >= Quorum(participants) {
      assert Enabled(participants, s, es, CommitNext);
    } else {
      var i := MissingAckIsOnItsWay(participants, s);
      if s.up[i] != [] {
        assert Enabled(participants, s, es, DeliverAck(i));
      } else {
        DeliverKeepsFollower(s.leader, s.followers[i], s.down[i], s.up[i]);
        assert Enabled(participants, s, es, Deliver(i));
      }
    }
  }

  // ---------------------------------------------------------------- From votes to the log

  function Flatten(entries: seq<Entry>): seq<BatchId> {
    if entries == [] then [] else Flatten(entries[..|entries| - 1]) + entries[|entries| - 1].batches
  }

  /** Every batch the log has taken in: committed, being proposed, or in the open sequence. */
  function Logged(l: Leader): seq<BatchId> {
    Flatten(Proposals(l)) + l.sequence
  }

  ghost function Voters(participants: nat, es: Run, b: BatchId): set<nat> {
    set r: nat | r < participants && Vote(r, b) in es
  }

  /** The batches that reached a majority of votes, in the order in which they did. */
  ghost function Reached(participants: nat, es: Run): seq<BatchId> {
    if es == [] then
      []
    else
      var past := es[..|es| - 1];
      var e := es[|es| - 1];
      Reached(participants, past)
      + if e.Vote? && |Voters(participants, es, e.b)| == participants / 2 + 1 && e !in past then [e.b] else []
  }

  ghost predicate VotesInv(participants: nat, s: System, es: Run) {
    && (forall b :: b in s.votes <==> 0 < |Voters(participants, es, b)| < participants)
    && (forall b :: b in s.votes ==> s.votes[b] == |Voters(participants, es, b)|)
  }

  lemma VotersAfter(participants: nat, past: Run, e: Event, b: BatchId)
    ensures Voters(participants, past + [e], b)
         == Voters(participants, past, b) + (if e.Vote? && e.b == b && e.replica < participants then {e.replica} else {})
    ensures |Voters(participants, past, b)| <= participants
    ensures e.Vote? && e.replica < participants && e !in past ==> |Voters(participants, past, e.b)| < participants
  {
    AtMost(Voters(participants, past, b), participants);
    AtMost(Voters(participants, past + [e], b), participants);
    if e.Vote? && e.replica < participants && e !in past {
      var voters := Voters(participants, past, e.b);
      assert e.replica !in voters;
      AtMost(voters + {e.replica}, participants);
    }
  }

  lemma {:induction false} AtMost(s: set<nat>, n: nat)
    requires forall i :: i in s ==> i < n
    ensures |s| <= n
  {
    if n > 0 {
      AtMost(s - {n - 1}, n - 1);
      SubsetCardinality(s, s - {n - 1} + {n - 1});
    } else {
      assert s == {};
    }
  }

  lemma {:induction false} VotesCounted(participants: nat, es: Run)
    requires ValidRun(participants, es)
    ensures VotesInv(participants, After(participants, es), es)
    decreases |es|
  {
    if es == [] {
      assert forall b :: Voters(participants, es, b) == {};
    } else {
      var past, e := es[..|es| - 1], es[|es| - 1];
      VotesCounted(participants, past);
      assert es == past + [e];
      forall b
        ensures b in After(participants, es).votes <==> 0 < |Voters(participants, es, b)| < participants
        ensures b in After(participants, es).votes ==> After(participants, es).votes[b] == |Voters(participants, es, b)|
      {
        VotersAfter(participants, past, e, b);
      }
    }
  }

  lemma FlattenAppend(entries: seq<Entry>, e: Entry)
    ensures Flatten(entries + [e]) == Flatten(entries) + e.batches
  {
    assert (entries + [e])[..|entries|] == entries;
  }

  lemma StepLogs(participants: nat, s: System, past: Run, e: Event)
    requires Enabled(participants, s, past, e)
    ensures var s' := Apply(participants, s, past, e);
            Logged(s'.leader) == Logged(s.leader)
              + if e.Vote? && CountVote(s.votes, participants, e.b).1 == participants / 2 + 1 then [e.b] else []
  {
    var s' := Apply(participants, s, past, e);
    if e.ProposeNext? {
      assert Proposals(s.leader) == s.leader.log;
      FlattenAppend(s.leader.log, s'.leader.proposal.value);
    } else {
      assert Proposals(s'.leader) == Proposals(s.leader);
    }
  }

  /** Conservation: at every moment the log, the proposal in flight and the open sequence together list
      exactly the batches that have reached a majority of votes, in that order. */
  lemma {:induction false} LoggedIsReached(participants: nat, es: Run)
    requires ValidRun(participants, es)
    ensures Logged(After(participants, es).leader) == Reached(participants, es)
    decreases |es|
  {
    if es != [] {
      var past, e := es[..|es| - 1], es[|es| - 1];
      LoggedIsReached(participants, past);
      assert es == past + [e];
      StepLogs(participants, After(participants, past), past, e);
      if e.Vote? {
        VotesCounted(participants, past);
        VotersAfter(participants, past, e, e.b);
      }
    }
  }

  lemma ReachedStep(participants: nat, past: Run, e: Event, b: BatchId)
    requires ValidRun(participants, past + [e])
    requires b in Reached(participants, past) <==> |Voters(participants, past, b)| >= participants / 2 + 1
    ensures b in Reached(participants, past + [e]) <==> |Voters(participants, past + [e], b)| >= participants / 2 + 1
    ensures e.Vote? && |Voters(participants, past + [e], e.b)| == participants / 2 + 1 && b == e.b ==>
              b !in Reached(participants, past)
  {
    var es := past + [e];
    assert es[..|es| - 1] == past && es[|es| - 1] == e;
    VotersAfter(participants, past, e, b);
  }

  /** Exactly once: a batch is logged when, and only when, a majority has voted for it, and only once. */
  lemma {:induction false} ReachedOnce(participants: nat, es: Run)
    requires ValidRun(participants, es)
    ensures NoDuplicates(Reached(participants, es))
    ensures forall b :: b in Reached(participants, es) <==> |Voters(participants, es, b)| >= participants / 2 + 1
    decreases |es|
  {
    if es == [] {
      assert forall b :: Voters(participants, es, b) == {};
    } else {
      var past, e := es[..|es| - 1], es[|es| - 1];
      ReachedOnce(participants, past);
      assert es == past + [e];
      forall b ensures b in Reached(participants, es) <==> |Voters(participants, es, b)| >= participants / 2 + 1 {
        ReachedStep(participants, past, e, b);
      }
      if e.Vote? {
        ReachedStep(participants, past, e, e.b);
      }
    }
  }
}
