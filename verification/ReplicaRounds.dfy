/** How often a leader's own batches get a round. */
module ReplicaRounds {
  import opened LocalPaxos
  import opened ReplicaLogs
  import opened ReplicaSafety

  /** The rounds that the leader of `a` begins in `es`. */
  function RoundsBegun(es: seq<Event>, a: nat): nat {
    if es == [] then 0 else RoundsBegun(Before(es), a) + Count(es[|es| - 1] == BeginRound(a))
  }

  lemma {:induction false} PrefixIsValid(cfg: Config, run: seq<Event>, i: nat)
    requires ValidRun(cfg, run) && i <= |run|
    ensures ValidRun(cfg, run[..i])
    decreases |run|
  {
    if i < |run| {
      PrefixIsValid(cfg, Before(run), i);
      assert Before(run)[..i] == run[..i];
    } else {
      assert run[..i] == run;
    }
  }

  lemma RoundsMore(run: seq<Event>, a: nat, i: nat)
    requires i < |run|
    ensures RoundsBegun(run[..i + 1], a) == RoundsBegun(run[..i], a) + Count(run[i] == BeginRound(a))
  {
    assert Before(run[..i + 1]) == run[..i];
  }

  lemma StepCounts(cfg: Config, s: System, e: Event, a: nat)
    requires |s.leaders| == cfg.replicas && a < cfg.replicas && Enabled(cfg, s, e) && s.leaders[a].alternate < 10
    ensures |Apply(cfg, s, e).leaders| == cfg.replicas
    ensures Apply(cfg, s, e).leaders[a].alternate == (s.leaders[a].alternate + Count(e == BeginRound(a))) % 10
  {
  }

  lemma NextTurn(n: nat, k: nat)
    ensures (n % 10 + k) % 10 == (n + k) % 10
  {
  }

  /** The leader counts its rounds modulo ten. */
  lemma {:induction false} AlternateCountsRounds(cfg: Config, run: seq<Event>, a: nat)
    requires ValidRun(cfg, run) && a < cfg.replicas
    ensures |After(cfg, run).leaders| == cfg.replicas
    ensures After(cfg, run).leaders[a].alternate == RoundsBegun(run, a) % 10
    decreases |run|
  {
    if run != [] {
      AlternateCountsRounds(cfg, Before(run), a);
      StepCounts(cfg, After(cfg, Before(run)), run[|run| - 1], a);
      NextTurn(RoundsBegun(Before(run), a), Count(run[|run| - 1] == BeginRound(a)));
    }
  }

  lemma {:induction false} RoundsGrow(run: seq<Event>, a: nat, i: nat, j: nat)
    requires i <= j <= |run|
    ensures RoundsBegun(run[..i], a) <= RoundsBegun(run[..j], a)
    decreases j
  {
    if i < j {
      RoundsGrow(run, a, i, j - 1);
      RoundsMore(run, a, j - 1);
    }
  }

  /** The round number `k` of `a` between two points of a run. */
  lemma {:induction false} RoundNumber(run: seq<Event>, a: nat, i: nat, j: nat, k: nat) returns (p: nat)
    requires i <= j <= |run| && RoundsBegun(run[..i], a) <= k < RoundsBegun(run[..j], a)
    ensures i <= p < j && run[p] == BeginRound(a) && RoundsBegun(run[..p], a) == k
    decreases j
  {
    RoundsMore(run, a, j - 1);
    if k < RoundsBegun(run[..j - 1], a) {
      p := RoundNumber(run, a, i, j - 1, k);
    } else {
      p := j - 1;
    }
  }

  predicate IsTurn(n: nat) {
    (n + 1) % 10 == 0
  }

  lemma OneInTen(n: nat) returns (k: nat)
    ensures n <= k < n + 10 && IsTurn(k)
    ensures forall m: nat :: n <= m < n + 10 && IsTurn(m) ==> m == k
  {
    k := n + 9 - n % 10;
    forall m: nat | n <= m < n + 10 && IsTurn(m) ensures m == k {
      assert m + 1 == 10 * ((m + 1) / 10) && k + 1 == 10 * ((k + 1) / 10);
    }
  }

  lemma TurnAfter(cfg: Config, run: seq<Event>, a: nat)
    requires ValidRun(cfg, run) && a < cfg.replicas
    ensures |After(cfg, run).leaders| == cfg.replicas
    ensures (After(cfg, run).leaders[a].alternate + 1) % 10 == (RoundsBegun(run, a) + 1) % 10
  {
    AlternateCountsRounds(cfg, run, a);
    NextTurn(RoundsBegun(run, a), 1);
  }

  /** The leader of `a` just before step `p`. */
  function LeaderAt(cfg: Config, run: seq<Event>, a: nat, p: nat): Leader
    requires p <= |run| && ValidRun(cfg, run[..p]) && a < |After(cfg, run[..p]).leaders|
  {
    After(cfg, run[..p]).leaders[a]
  }

  predicate IsRound(cfg: Config, run: seq<Event>, a: nat, p: nat) {
    p < |run| && run[p] == BeginRound(a) && ValidRun(cfg, run[..p]) && a < |After(cfg, run[..p]).leaders|
  }

  predicate HasOwn(cfg: Config, run: seq<Event>, a: nat, p: nat) {
    IsRound(cfg, run, a, p) && LeaderAt(cfg, run, a, p).open != []
  }

  /** Step `p` begins a round for all the batches the leader of `a` has. */
  predicate TakesOwn(cfg: Config, run: seq<Event>, a: nat, p: nat) {
    && HasOwn(cfg, run, a, p) && ValidRun(cfg, run[..p + 1]) && a < |After(cfg, run[..p + 1]).leaders|
    && LeaderAt(cfg, run, a, p + 1).phase == Proposing(Tagged(LeaderAt(cfg, run, a, p).open, a))
    && LeaderAt(cfg, run, a, p + 1).open == []
  }

  /** Step `p` begins a round for the first sequence that waits, if there is one. */
  predicate TakesRemote(cfg: Config, run: seq<Event>, a: nat, p: nat) {
    && IsRound(cfg, run, a, p) && ValidRun(cfg, run[..p + 1]) && a < |After(cfg, run[..p + 1]).leaders|
    && var l := LeaderAt(cfg, run, a, p);
       l.remote != [] ==> Current(LeaderAt(cfg, run, a, p + 1).phase) == [l.remote[0]]
  }

  lemma NextLeader(cfg: Config, run: seq<Event>, a: nat, p: nat)
    requires ValidRun(cfg, run) && a < cfg.replicas && p < |run| && run[p] == BeginRound(a)
    ensures ValidRun(cfg, run[..p]) && |After(cfg, run[..p]).leaders| == cfg.replicas
    ensures ValidRun(cfg, run[..p + 1]) && |After(cfg, run[..p + 1]).leaders| == cfg.replicas
    ensures var l := LeaderAt(cfg, run, a, p);
            (l.open != [] || l.remote != []) && LeaderAt(cfg, run, a, p + 1) == Begin(l, a)
  {
    PrefixIsValid(cfg, run, p);
    AlternateCountsRounds(cfg, run[..p], a);
    PrefixIsValid(cfg, run, p + 1);
    assert Before(run[..p + 1]) == run[..p];
  }

  lemma BeginTurn(l: Leader, a: nat)
    requires l.open != [] || l.remote != []
    ensures (l.alternate + 1) % 10 == 0 && l.open != [] ==>
              Begin(l, a).phase == Proposing(Tagged(l.open, a)) && Begin(l, a).open == []
    ensures (l.alternate + 1) % 10 != 0 && l.remote != [] ==> Current(Begin(l, a).phase) == [l.remote[0]]
  {
  }

  lemma RoundIs(cfg: Config, run: seq<Event>, a: nat, p: nat)
    requires ValidRun(cfg, run) && a < cfg.replicas && p < |run| && run[p] == BeginRound(a)
    ensures IsTurn(RoundsBegun(run[..p], a)) && HasOwn(cfg, run, a, p) ==> TakesOwn(cfg, run, a, p)
    ensures !IsTurn(RoundsBegun(run[..p], a)) ==> TakesRemote(cfg, run, a, p)
  {
    NextLeader(cfg, run, a, p);
    TurnAfter(cfg, run[..p], a);
    BeginTurn(LeaderAt(cfg, run, a, p), a);
  }

  /** In any part of a run with ten rounds of a leader that always has batches of its own, one of the rounds is for
      these, and all others are for the sequences that wait, while there are any. */
  lemma LocalRoundWithinTen(cfg: Config, run: seq<Event>, a: nat, i: nat, j: nat) returns (turn: nat)
    requires ValidRun(cfg, run) && a < cfg.replicas && i <= j <= |run|
    requires RoundsBegun(run[..j], a) == RoundsBegun(run[..i], a) + 10
    requires forall p :: i <= p < j && run[p] == BeginRound(a) ==> HasOwn(cfg, run, a, p)
    ensures i <= turn < j && TakesOwn(cfg, run, a, turn)
    ensures forall p :: i <= p < j && run[p] == BeginRound(a) && p != turn ==> TakesRemote(cfg, run, a, p)
  {
    var k := OneInTen(RoundsBegun(run[..i], a));
    turn := RoundNumber(run, a, i, j, k);
    RoundIs(cfg, run, a, turn);
    forall p | i <= p < j && run[p] == BeginRound(a) && p != turn ensures TakesRemote(cfg, run, a, p) {
      OtherRound(run, a, i, j, turn, p);
      RoundIs(cfg, run, a, p);
    }
  }

  /** Different rounds have different numbers. */
  lemma OtherRound(run: seq<Event>, a: nat, i: nat, j: nat, p: nat, q: nat)
    requires i <= p < j <= |run| && i <= q < j && p != q && run[p] == run[q] == BeginRound(a)
    ensures RoundsBegun(run[..p], a) != RoundsBegun(run[..q], a)
    ensures RoundsBegun(run[..i], a) <= RoundsBegun(run[..q], a) < RoundsBegun(run[..j], a)
  {
    RoundsMore(run, a, p);
    RoundsMore(run, a, q);
    RoundsGrow(run, a, i, q);
    RoundsGrow(run, a, q + 1, j);
    if p < q {
      RoundsGrow(run, a, p + 1, q);
    } else {
      RoundsGrow(run, a, q + 1, p);
    }
  }
}
