/** Whole runs of the master lookup: transactions arrive, and the owners of their records reply in any order. */
module LookupRuns {
  import opened Txns
  import opened Exchange
  import opened MasterLookup

  /** `here` is the replica, `me` the machine in it. */
  datatype Config = Config(me: nat, here: nat, partition: Key -> nat)

  /** `original` are the transactions so far, `known` what has been learnt for each, and `asked` the machines
      that have not replied about it yet. */
  datatype World = World(s: State, original: map<nat, Txn>, known: map<nat, Answers>, asked: map<nat, set<nat>>)

  datatype Event = Arrive(txn: Txn, storage: Key -> Answer) | Reply(id: nat, from: nat, answers: Answers)

  const Start := World(State(map[], map[], []), map[], map[], map[])

  /** The other machines that own records of `t`. */
  function Owners(cfg: Config, t: Txn): set<nat> {
    set e | e in Entries(t) && cfg.partition(e.key) != cfg.me :: cfg.partition(e.key)
  }

  function KeysOwned(cfg: Config, t: Txn, p: nat): set<Key> {
    set e | e in Entries(t) && cfg.partition(e.key) == p :: e.key
  }

  /** Ids are unique, and each machine asked replies once, about its own records. */
  predicate Enabled(cfg: Config, w: World, e: Event) {
    match e
    case Arrive(t, storage) => t.id !in w.original
    case Reply(id, p, answers) =>
      id in w.original && id in w.asked && id in w.known && p in w.asked[id]
      && answers.Keys == KeysOwned(cfg, w.original[id], p)
  }

  /** A reply finds its transaction waiting, with a count that the reply cannot exceed. */
  predicate Safe(cfg: Config, w: World, e: Event) {
    match e
    case Arrive(t, storage) => HitsOf(t, Local(t, cfg.me, cfg.partition, storage)) <= |Entries(t)|
    case Reply(id, p, answers) =>
      id in w.s.expected && w.s.expected[id].1.id == id && HitsOf(w.s.expected[id].1, answers) <= w.s.expected[id].0
  }

  function Apply(cfg: Config, w: World, e: Event): World
    requires Enabled(cfg, w, e) && Safe(cfg, w, e)
  {
    match e
    case Arrive(t, storage) =>
      var local := Local(t, cfg.me, cfg.partition, storage);
      World(Learn(w.s, cfg.here, t, |Entries(t)|, local), w.original[t.id := t], w.known[t.id := local],
            w.asked[t.id := Owners(cfg, t)])
    case Reply(id, p, answers) =>
      var (missing, t) := w.s.expected[id];
      World(Learn(w.s, cfg.here, t, missing, answers), w.original, w.known[id := w.known[id] + answers],
            w.asked[id := w.asked[id] - {p}])
  }

  // -------- the invariant of one transaction

  /** What was routed under an id. */
  function RoutedFor(routed: seq<Routed>, id: nat): seq<Routed> {
    if routed == [] then []
    else
      var r := routed[|routed| - 1];
      RoutedFor(routed[..|routed| - 1], id) + if r.txn.id == id then [r] else []
  }

  /** What is known concerns exactly the entries whose owners have replied. */
  predicate KnownInv(cfg: Config, t: Txn, known: Answers, asked: set<nat>) {
    && asked <= Owners(cfg, t)
    && forall e :: e in Entries(t) ==> (e.key in known <==> cfg.partition(e.key) !in asked)
  }

  /** While owners have yet to reply the transaction waits: the count is that of its unresolved entries, and the
      resolved ones carry what their owners said. */
  ghost predicate WaitingInv(cfg: Config, s: State, t: Txn, known: Answers) {
    && t.id in s.expected
    && s.expected[t.id] == (|Entries(t)| - HitsOf(t, known), ResolveTxn(t, known))
    && InvolvedIn(s.involved, t.id) == MastersFor(t, known)
    && HitsOf(t, known) <= |Entries(t)|
    && RoutedFor(s.routed, t.id) == []
  }

  /** It is routed once, with what is known, to the place its masters require. */
  ghost predicate RoutedOnce(cfg: Config, s: State, t: Txn, known: Answers) {
    var masters := MastersFor(t, known);
    && t.id !in s.expected && t.id !in s.involved
    && RoutedFor(s.routed, t.id) == [Routed(ResolveTxn(t, known), masters, Route(masters, cfg.here))]
  }

  ghost predicate TxnInv(cfg: Config, s: State, t: Txn, known: Answers, asked: set<nat>) {
    && KnownInv(cfg, t, known, asked)
    && (asked != {} ==> WaitingInv(cfg, s, t, known))
    && (asked == {} ==> RoutedOnce(cfg, s, t, known))
  }

  ghost predicate OneInv(cfg: Config, w: World, id: nat)
    requires w.original.Keys == w.known.Keys == w.asked.Keys
  {
    if id in w.original then
      w.original[id].id == id && TxnInv(cfg, w.s, w.original[id], w.known[id], w.asked[id])
    else
      NeverSeen(w.s, id)
  }

  ghost predicate Inv(cfg: Config, w: World) {
    w.original.Keys == w.known.Keys == w.asked.Keys && forall id: nat :: OneInv(cfg, w, id)
  }

  ghost predicate NeverSeen(s: State, id: nat) {
    id !in s.expected && id !in s.involved && RoutedFor(s.routed, id) == []
  }

  // -------- arithmetic of answers

  lemma {:induction false} HitsAll(es: seq<KeyEntry>, answers: Answers)
    ensures Hits(es, answers) <= |es|
    ensures Hits(es, answers) == |es| <==> forall e :: e in es ==> e.key in answers
  {
    if es != [] {
      HitsAll(es[..|es| - 1], answers);
      assert es == es[..|es| - 1] + [es[|es| - 1]];
    }
  }

  lemma {:induction false} HitsUnion(es: seq<KeyEntry>, known: Answers, more: Answers)
    requires known.Keys !! more.Keys
    ensures Hits(es, known + more) == Hits(es, known) + Hits(Resolve(es, known), more)
  {
    if es != [] {
      var init := es[..|es| - 1];
      HitsUnion(init, known, more);
      assert Resolve(es, known)[..|es| - 1] == Resolve(init, known);
    }
  }

  lemma ResolveUnion(es: seq<KeyEntry>, known: Answers, more: Answers)
    requires known.Keys !! more.Keys
    ensures Resolve(Resolve(es, known), more) == Resolve(es, known + more)
    ensures Masters(es, known) + Masters(Resolve(es, known), more) == Masters(es, known + more)
  {
    var us := Resolve(es, known);
    assert forall i :: 0 <= i < |es| ==> us[i].key == es[i].key;
    forall m | m in Masters(es, known + more) ensures m in Masters(es, known) + Masters(us, more) {
      var e :| e in es && e.key in known + more && (known + more)[e.key].master == m;
      var i :| 0 <= i < |es| && es[i] == e;
      assert us[i] in us;
    }
    forall m | m in Masters(us, more) ensures m in Masters(es, known + more) {
      var u :| u in us && u.key in more && more[u.key].master == m;
      var i :| 0 <= i < |us| && us[i] == u;
      assert es[i] in es;
    }
  }

  lemma LearnUnion(t: Txn, known: Answers, more: Answers)
    requires known.Keys !! more.Keys
    ensures HitsOf(t, known + more) == HitsOf(t, known) + HitsOf(ResolveTxn(t, known), more)
    ensures ResolveTxn(ResolveTxn(t, known), more) == ResolveTxn(t, known + more)
    ensures MastersFor(t, known) + MastersFor(ResolveTxn(t, known), more) == MastersFor(t, known + more)
  {
    HitsUnion(t.readSet, known, more);
    HitsUnion(t.readWriteSet, known, more);
    ResolveUnion(t.readSet, known, more);
    ResolveUnion(t.readWriteSet, known, more);
  }

  /** Nothing is missing exactly when everybody asked has replied. */
  lemma CompleteIffAllReplied(cfg: Config, t: Txn, known: Answers, asked: set<nat>)
    requires KnownInv(cfg, t, known, asked)
    ensures HitsOf(t, known) <= |Entries(t)|
    ensures HitsOf(t, known) == |Entries(t)| <==> asked == {}
  {
    HitsAll(t.readSet, known);
    HitsAll(t.readWriteSet, known);
    assert forall e :: e in Entries(t) <==> e in t.readSet || e in t.readWriteSet;
    if asked != {} {
      var p :| p in asked;
      assert p in Owners(cfg, t);
      var e :| e in Entries(t) && cfg.partition(e.key) == p;
      assert e.key !in known;
    }
  }

  // -------- one step

  lemma RoutedMore(routed: seq<Routed>, r: Routed, id: nat)
    ensures RoutedFor(routed + [r], id) == RoutedFor(routed, id) + if r.txn.id == id then [r] else []
  {
    assert (routed + [r])[..|routed|] == routed;
  }

  lemma DoneRouted(s: State, here: nat, t: Txn, id: nat)
    ensures var involved := InvolvedIn(s.involved, t.id);
            RoutedFor(Done(s, here, t).routed, id)
            == RoutedFor(s.routed, id) + if t.id == id then [Routed(t, involved, Route(involved, here))] else []
  {
    var involved := InvolvedIn(s.involved, t.id);
    RoutedMore(s.routed, Routed(t, involved, Route(involved, here)), id);
  }

  /** For id `id` the two states are the same. */
  predicate SameFor(s: State, s': State, id: nat) {
    && RoutedFor(s'.routed, id) == RoutedFor(s.routed, id)
    && (id in s'.expected <==> id in s.expected) && (id in s.expected ==> s'.expected[id] == s.expected[id])
    && (id in s'.involved <==> id in s.involved) && InvolvedIn(s'.involved, id) == InvolvedIn(s.involved, id)
  }

  lemma SettledFrame(here: nat, s: State, t: Txn, left: nat, id: nat)
    requires id != t.id
    ensures SameFor(s, Settled(s, here, t, left), id)
  {
    DoneRouted(s, here, t, id);
  }

  /** Learning about `t` leaves every other id as it was. */
  lemma OthersUnaffected(here: nat, s: State, t: Txn, missing: nat, answers: Answers, id: nat)
    requires HitsOf(t, answers) <= missing && id != t.id
    ensures SameFor(s, Learn(s, here, t, missing, answers), id)
  {
    var more := s.(involved := Added(s.involved, t.id, MastersFor(t, answers)));
    assert SameFor(s, more, id);
    SettledFrame(here, more, ResolveTxn(t, answers), missing - HitsOf(t, answers), id);
  }

  lemma LearnFrame(cfg: Config, s: State, t: Txn, missing: nat, answers: Answers, u: Txn, known: Answers, asked: set<nat>)
    requires HitsOf(t, answers) <= missing && u.id != t.id
    ensures var s' := Learn(s, cfg.here, t, missing, answers);
            && (TxnInv(cfg, s, u, known, asked) ==> TxnInv(cfg, s', u, known, asked))
            && (NeverSeen(s, u.id) ==> NeverSeen(s', u.id))
  {
    OthersUnaffected(cfg.here, s, t, missing, answers, u.id);
  }

  /** The transaction itself: it waits on, or is routed with everything that is known. */
  lemma SettledInv(cfg: Config, s: State, t: Txn, known: Answers, asked: set<nat>)
    requires KnownInv(cfg, t, known, asked) && RoutedFor(s.routed, t.id) == []
    requires InvolvedIn(s.involved, t.id) == MastersFor(t, known) && HitsOf(t, known) <= |Entries(t)|
    ensures TxnInv(cfg, Settled(s, cfg.here, ResolveTxn(t, known), |Entries(t)| - HitsOf(t, known)), t, known, asked)
  {
    CompleteIffAllReplied(cfg, t, known, asked);
    DoneRouted(s, cfg.here, ResolveTxn(t, known), t.id);
  }

  lemma ArriveIsSafe(cfg: Config, t: Txn, storage: Key -> Answer)
    ensures HitsOf(t, Local(t, cfg.me, cfg.partition, storage)) <= |Entries(t)|
    ensures KnownInv(cfg, t, Local(t, cfg.me, cfg.partition, storage), Owners(cfg, t))
  {
    var local := Local(t, cfg.me, cfg.partition, storage);
    HitsAll(t.readSet, local);
    HitsAll(t.readWriteSet, local);
    forall e | e in Entries(t) ensures e.key in local <==> cfg.partition(e.key) !in Owners(cfg, t) {
      if cfg.partition(e.key) != cfg.me {
        assert cfg.partition(e.key) in Owners(cfg, t);
      }
      assert e.key in AllKeys(Entries(t));
    }
  }

  lemma ArriveKeepsTxn(cfg: Config, w: World, t: Txn, storage: Key -> Answer)
    requires NeverSeen(w.s, t.id)
    ensures var local := Local(t, cfg.me, cfg.partition, storage);
            && HitsOf(t, local) <= |Entries(t)|
            && TxnInv(cfg, Learn(w.s, cfg.here, t, |Entries(t)|, local), t, local, Owners(cfg, t))
  {
    var local := Local(t, cfg.me, cfg.partition, storage);
    var more := w.s.(involved := Added(w.s.involved, t.id, MastersFor(t, local)));
    ArriveIsSafe(cfg, t, storage);
    assert InvolvedIn(more.involved, t.id) == MastersFor(t, local);
    SettledInv(cfg, more, t, local, Owners(cfg, t));
  }

  lemma ReplyKnown(cfg: Config, t: Txn, known: Answers, asked: set<nat>, p: nat, answers: Answers)
    requires KnownInv(cfg, t, known, asked) && p in asked && answers.Keys == KeysOwned(cfg, t, p)
    ensures known.Keys !! answers.Keys && KnownInv(cfg, t, known + answers, asked - {p})
  {
    forall k | k in answers ensures k !in known {
      var e :| e in Entries(t) && cfg.partition(e.key) == p && e.key == k;
    }
    forall e | e in Entries(t) ensures e.key in known + answers <==> cfg.partition(e.key) !in asked - {p} {
      assert cfg.partition(e.key) == p ==> e.key in KeysOwned(cfg, t, p);
      if e.key in answers {
        var f :| f in Entries(t) && cfg.partition(f.key) == p && f.key == e.key;
      }
    }
  }

  lemma AddedInvolves(involved: map<nat, set<nat>>, id: nat, found: set<nat>)
    ensures InvolvedIn(Added(involved, id, found), id) == InvolvedIn(involved, id) + found
  {
  }

  lemma LearnIsSettled(s: State, here: nat, t: Txn, missing: nat, answers: Answers, u: Txn, left: nat, found: set<nat>)
    requires missing == HitsOf(t, answers) + left && u == ResolveTxn(t, answers) && found == MastersFor(t, answers)
    ensures Learn(s, here, t, missing, answers) == Settled(s.(involved := Added(s.involved, t.id, found)), here, u, left)
  {
  }

  lemma LearnKeepsTxn(cfg: Config, s: State, t: Txn, known: Answers, asked: set<nat>, answers: Answers)
    requires WaitingInv(cfg, s, t, known) && known.Keys !! answers.Keys && KnownInv(cfg, t, known + answers, asked)
    ensures var (missing, t') := s.expected[t.id];
            HitsOf(t', answers) <= missing
            && TxnInv(cfg, Learn(s, cfg.here, t', missing, answers), t, known + answers, asked)
  {
    var (missing, t') := s.expected[t.id];
    var all, found := known + answers, MastersFor(t', answers);
    CompleteIffAllReplied(cfg, t, all, asked);
    LearnUnion(t, known, answers);
    LearnIsSettled(s, cfg.here, t', missing, answers, ResolveTxn(t, all), |Entries(t)| - HitsOf(t, all), found);
    AddedInvolves(s.involved, t.id, found);
    SettledInv(cfg, s.(involved := Added(s.involved, t.id, found)), t, all, asked);
  }

  lemma ReplyKeepsTxn(cfg: Config, s: State, t: Txn, known: Answers, asked: set<nat>, p: nat, answers: Answers)
    requires TxnInv(cfg, s, t, known, asked) && p in asked && answers.Keys == KeysOwned(cfg, t, p)
    ensures t.id in s.expected && s.expected[t.id].1.id == t.id
            && var (missing, t') := s.expected[t.id];
               HitsOf(t', answers) <= missing
               && TxnInv(cfg, Learn(s, cfg.here, t', missing, answers), t, known + answers, asked - {p})
  {
    ReplyKnown(cfg, t, known, asked, p, answers);
    LearnKeepsTxn(cfg, s, t, known, asked - {p}, answers);
  }

  lemma StepKeepsInv(cfg: Config, w: World, e: Event)
    requires Inv(cfg, w) && Enabled(cfg, w, e)
    ensures Safe(cfg, w, e) && Inv(cfg, Apply(cfg, w, e))
  {
    match e
    case Arrive(t, storage) => ArriveKeepsInv(cfg, w, t, storage);
    case Reply(id, p, answers) => ReplyKeepsInv(cfg, w, id, p, answers);
  }

  lemma ArriveKeepsOne(cfg: Config, w: World, t: Txn, storage: Key -> Answer, id: nat)
    requires w.original.Keys == w.known.Keys == w.asked.Keys && t.id !in w.original
    requires OneInv(cfg, w, t.id) && OneInv(cfg, w, id) && Safe(cfg, w, Arrive(t, storage))
    ensures var w' := Apply(cfg, w, Arrive(t, storage));
            w'.original.Keys == w'.known.Keys == w'.asked.Keys && OneInv(cfg, w', id)
  {
    var local := Local(t, cfg.me, cfg.partition, storage);
    if id == t.id {
      ArriveKeepsTxn(cfg, w, t, storage);
    } else if id in w.original {
      LearnFrame(cfg, w.s, t, |Entries(t)|, local, w.original[id], w.known[id], w.asked[id]);
    } else {
      LearnFrame(cfg, w.s, t, |Entries(t)|, local, t.(id := id), map[], {});
    }
  }

  lemma ArriveKeepsInv(cfg: Config, w: World, t: Txn, storage: Key -> Answer)
    requires Inv(cfg, w) && Enabled(cfg, w, Arrive(t, storage))
    ensures Safe(cfg, w, Arrive(t, storage)) && Inv(cfg, Apply(cfg, w, Arrive(t, storage)))
  {
    ArriveIsSafe(cfg, t, storage);
    var w' := Apply(cfg, w, Arrive(t, storage));
    assert OneInv(cfg, w, t.id);
    forall id: nat ensures w'.original.Keys == w'.known.Keys == w'.asked.Keys && OneInv(cfg, w', id) {
      assert OneInv(cfg, w, id);
      ArriveKeepsOne(cfg, w, t, storage, id);
    }
  }

  lemma ReplyKeepsOther(cfg: Config, w: World, id: nat, p: nat, answers: Answers, j: nat)
    requires w.original.Keys == w.known.Keys == w.asked.Keys && Enabled(cfg, w, Reply(id, p, answers))
    requires OneInv(cfg, w, j) && j != id && Safe(cfg, w, Reply(id, p, answers))
    ensures var w' := Apply(cfg, w, Reply(id, p, answers));
            w'.original.Keys == w'.known.Keys == w'.asked.Keys && OneInv(cfg, w', j)
  {
    var (missing, t) := w.s.expected[id];
    if j in w.original {
      LearnFrame(cfg, w.s, t, missing, answers, w.original[j], w.known[j], w.asked[j]);
    } else {
      LearnFrame(cfg, w.s, t, missing, answers, t.(id := j), map[], {});
    }
  }

  lemma ReplyKeepsSame(cfg: Config, w: World, id: nat, p: nat, answers: Answers)
    requires w.original.Keys == w.known.Keys == w.asked.Keys && Enabled(cfg, w, Reply(id, p, answers)) && OneInv(cfg, w, id)
    ensures Safe(cfg, w, Reply(id, p, answers))
    ensures var w' := Apply(cfg, w, Reply(id, p, answers));
            w'.original.Keys == w'.known.Keys == w'.asked.Keys && OneInv(cfg, w', id)
  {
    ReplyKeepsTxn(cfg, w.s, w.original[id], w.known[id], w.asked[id], p, answers);
  }

  lemma ReplyKeepsInv(cfg: Config, w: World, id: nat, p: nat, answers: Answers)
    requires Inv(cfg, w) && Enabled(cfg, w, Reply(id, p, answers))
    ensures Safe(cfg, w, Reply(id, p, answers)) && Inv(cfg, Apply(cfg, w, Reply(id, p, answers)))
  {
    assert OneInv(cfg, w, id);
    ReplyKeepsSame(cfg, w, id, p, answers);
    var w' := Apply(cfg, w, Reply(id, p, answers));
    forall j: nat ensures w'.original.Keys == w'.known.Keys == w'.asked.Keys && OneInv(cfg, w', j) {
      if j != id {
        assert OneInv(cfg, w, j);
        ReplyKeepsOther(cfg, w, id, p, answers, j);
      }
    }
  }

  // -------- whole runs

  function Before(run: seq<Event>): seq<Event>
    requires run != []
  {
    run[..|run| - 1]
  }

  ghost predicate ValidRun(cfg: Config, run: seq<Event>)
    decreases |run|, 0
  {
    run == [] || (ValidRun(cfg, Before(run)) && Enabled(cfg, After(cfg, Before(run)), run[|run| - 1]))
  }

  /** A reply that would not be safe has no effect; `NoReplyIsLost` says that there is none. */
  ghost function After(cfg: Config, run: seq<Event>): World
    requires ValidRun(cfg, run)
    decreases |run|, 1
  {
    if run == [] then Start
    else
      var w := After(cfg, Before(run));
      if Safe(cfg, w, run[|run| - 1]) then Apply(cfg, w, run[|run| - 1]) else w
  }

  lemma {:induction false} RunKeepsInv(cfg: Config, run: seq<Event>)
    requires ValidRun(cfg, run)
    ensures Inv(cfg, After(cfg, run))
  {
    if run != [] {
      RunKeepsInv(cfg, Before(run));
      StepKeepsInv(cfg, After(cfg, Before(run)), run[|run| - 1]);
    }
  }

  /** A reply always finds its transaction waiting, and never settles more entries than are counted. */
  lemma NoReplyIsLost(cfg: Config, run: seq<Event>, e: Event)
    requires ValidRun(cfg, run) && Enabled(cfg, After(cfg, run), e)
    ensures Safe(cfg, After(cfg, run), e)
  {
    RunKeepsInv(cfg, run);
    StepKeepsInv(cfg, After(cfg, run), e);
  }

  /** The pending count is the number of entries still unresolved, whatever the order of the replies. */
  lemma PendingCountIsExact(cfg: Config, run: seq<Event>, id: nat)
    requires ValidRun(cfg, run) && id in After(cfg, run).s.expected
    ensures var w := After(cfg, run);
            && id in w.original && id in w.known && id in w.asked && w.asked[id] != {}
            && w.s.expected[id].0 == |Entries(w.original[id])| - HitsOf(w.original[id], w.known[id]) > 0
            && RoutedFor(w.s.routed, id) == []
  {
    var w := After(cfg, run);
    RunKeepsInv(cfg, run);
    assert OneInv(cfg, w, id);
    CompleteIffAllReplied(cfg, w.original[id], w.known[id], w.asked[id]);
  }

  lemma {:induction false} ResolvedMasters(es: seq<KeyEntry>, answers: Answers)
    requires forall e :: e in es ==> e.key in answers
    ensures Masters(es, answers) == MastersOf(Resolve(es, answers))
  {
    var us := Resolve(es, answers);
    forall e | e in es ensures answers[e.key].master in MastersOf(us) {
      var i :| 0 <= i < |es| && es[i] == e;
      assert us[i] in us;
    }
    forall u | u in us ensures u.master in Masters(es, answers) {
      var i :| 0 <= i < |us| && us[i] == u;
      assert es[i] in es;
    }
  }

  /** A transaction that has arrived and lacks no reply has left the table and was routed exactly once: with the
      owners' masters and counters in every entry, the set of exactly those masters, and one destination. */
  lemma RoutedExactlyOnce(cfg: Config, run: seq<Event>, id: nat)
    requires ValidRun(cfg, run)
    requires var w := After(cfg, run); id in w.original && id in w.asked && w.asked[id] == {}
    ensures var w := After(cfg, run);
            && id !in w.s.expected && id in w.known
            && (forall e :: e in Entries(w.original[id]) ==> e.key in w.known[id])
            && (var u := ResolveTxn(w.original[id], w.known[id]);
                RoutedFor(w.s.routed, id) == [Routed(u, MastersOf(Entries(u)), Route(MastersOf(Entries(u)), cfg.here))])
  {
    var w := After(cfg, run);
    RunKeepsInv(cfg, run);
    var t, known := w.original[id], w.known[id];
    assert forall e :: e in Entries(t) <==> e in t.readSet || e in t.readWriteSet;
    assert OneInv(cfg, w, id);
    ResolvedMasters(t.readSet, known);
    ResolvedMasters(t.readWriteSet, known);
    var u := ResolveTxn(t, known);
    assert MastersOf(Entries(u)) == MastersFor(t, known);
  }

  // -------- what the owners said

  /** Event `e` tells that the owner of record `k` has `a` for it, to fill in transaction `id`. */
  predicate Tells(cfg: Config, e: Event, id: nat, k: Key, a: Answer) {
    match e
    case Arrive(t, storage) => t.id == id && cfg.partition(k) == cfg.me && storage(k) == a
    case Reply(about, from, answers) => about == id && cfg.partition(k) == from && k in answers && answers[k] == a
  }

  ghost predicate Told(cfg: Config, run: seq<Event>, id: nat, k: Key, a: Answer) {
    exists e :: e in run && Tells(cfg, e, id, k, a)
  }

  lemma ToldEarlier(cfg: Config, run: seq<Event>, id: nat, k: Key, a: Answer)
    requires run != [] && Told(cfg, Before(run), id, k, a)
    ensures Told(cfg, run, id, k, a)
  {
    var e :| e in Before(run) && Tells(cfg, e, id, k, a);
    assert e in run;
  }

  /** What is known of a record is what its owner said. */
  ghost predicate KnownIsTold(cfg: Config, run: seq<Event>, known: map<nat, Answers>) {
    forall id, k :: id in known && k in known[id] ==> Told(cfg, run, id, k, known[id][k])
  }

  lemma LearntIsTold(cfg: Config, w: World, e: Event, id: nat, k: Key)
    requires Enabled(cfg, w, e) && Safe(cfg, w, e)
    requires var w' := Apply(cfg, w, e); id in w'.known && k in w'.known[id]
    ensures var w' := Apply(cfg, w, e);
            (id in w.known && k in w.known[id] && w'.known[id][k] == w.known[id][k]) || Tells(cfg, e, id, k, w'.known[id][k])
  {
  }

  lemma {:induction false} OnlyToldIsKnown(cfg: Config, run: seq<Event>)
    requires ValidRun(cfg, run)
    ensures KnownIsTold(cfg, run, After(cfg, run).known)
  {
    if run != [] {
      var w, w', e := After(cfg, Before(run)), After(cfg, run), run[|run| - 1];
      OnlyToldIsKnown(cfg, Before(run));
      forall id, k | id in w'.known && k in w'.known[id] ensures Told(cfg, run, id, k, w'.known[id][k]) {
        if id in w.known && k in w.known[id] && w'.known[id][k] == w.known[id][k] {
          ToldEarlier(cfg, run, id, k, w'.known[id][k]);
        } else {
          NoReplyIsLost(cfg, Before(run), e);
          LearntIsTold(cfg, w, e, id, k);
          assert e in run;
        }
      }
    }
  }

  predicate IsReply(e: Event, id: nat, p: nat) {
    e.Reply? && e.id == id && e.from == p
  }

  /** Machine `p` has replied about transaction `id`. */
  ghost predicate Replied(run: seq<Event>, id: nat, p: nat) {
    exists e :: e in run && IsReply(e, id, p)
  }

  /** The transaction arrived in this run. */
  predicate Arrives(e: Event, t: Txn) {
    e.Arrive? && e.txn == t
  }

  ghost predicate Arrived(run: seq<Event>, t: Txn) {
    exists e :: e in run && Arrives(e, t)
  }

  lemma {:induction false} RepliedHasArrived(cfg: Config, run: seq<Event>, id: nat, p: nat)
    requires ValidRun(cfg, run) && Replied(run, id, p)
    ensures id in After(cfg, run).original
  {
    var init, last := Before(run), run[|run| - 1];
    assert run == init + [last];
    NoReplyIsLost(cfg, init, last);
    if Replied(init, id, p) {
      RepliedHasArrived(cfg, init, id, p);
    } else {
      var e :| e in run && IsReply(e, id, p);
      assert e !in init;
    }
  }

  /** An arrival is not preceded by replies. */
  lemma FirstArrival(cfg: Config, run: seq<Event>, t: Txn, p: nat)
    requires run != [] && ValidRun(cfg, run) && Arrived(run, t) && !Arrived(Before(run), t)
    ensures Arrives(run[|run| - 1], t) && !Replied(run, t.id, p)
  {
    var init, last := Before(run), run[|run| - 1];
    assert run == init + [last];
    var e :| e in run && Arrives(e, t);
    assert e !in init;
    if Replied(run, t.id, p) {
      var f :| f in run && IsReply(f, t.id, p);
      assert f in init;
      RepliedHasArrived(cfg, init, t.id, p);
    }
  }

  /** Who is still asked about a transaction has not replied. */
  lemma {:induction false} AskedHaveNotReplied(cfg: Config, run: seq<Event>, t: Txn)
    requires ValidRun(cfg, run) && Arrived(run, t)
    ensures var w := After(cfg, run);
            && t.id in w.original && w.original[t.id] == t && t.id in w.asked
            && forall p :: p in w.asked[t.id] ==> p in Owners(cfg, t) && !Replied(run, t.id, p)
  {
    var init, last := Before(run), run[|run| - 1];
    assert run == init + [last];
    NoReplyIsLost(cfg, init, last);
    if Arrived(init, t) {
      AskedHaveNotReplied(cfg, init, t);
      forall p | p in After(cfg, run).asked[t.id] ensures !Replied(run, t.id, p) {
        assert !IsReply(last, t.id, p);
      }
    } else {
      forall p ensures Arrives(last, t) && !Replied(run, t.id, p) {
        FirstArrival(cfg, run, t, p);
      }
    }
  }

  /** Each entry names the same record as before, with the master and counter that the record's owner told. */
  ghost predicate FilledAsTold(cfg: Config, run: seq<Event>, id: nat, es: seq<KeyEntry>, us: seq<KeyEntry>) {
    |us| == |es| && forall i :: 0 <= i < |es| ==>
      us[i].key == es[i].key && Told(cfg, run, id, es[i].key, Answer(us[i].master, us[i].counter))
  }

  lemma ResolvedAsTold(cfg: Config, run: seq<Event>, id: nat, es: seq<KeyEntry>, known: map<nat, Answers>)
    requires KnownIsTold(cfg, run, known) && id in known && forall e :: e in es ==> e.key in known[id]
    ensures FilledAsTold(cfg, run, id, es, Resolve(es, known[id]))
  {
    var us := Resolve(es, known[id]);
    forall i | 0 <= i < |es|
      ensures us[i].key == es[i].key && Told(cfg, run, id, es[i].key, Answer(us[i].master, us[i].counter))
    {
      assert es[i].key in known[id] && Told(cfg, run, id, es[i].key, known[id][es[i].key]);
    }
  }

  /** When every owner of its records has replied, in whatever order, the transaction that arrived has been routed exactly
      once: it asks for the same, entry by entry, with what the owners told; its replicas are the masters among that,
      and it stays here if that is this replica alone, or several at replica 0, goes to the only one, or to replica 0. */
  lemma RoutedWithOwnersAnswers(cfg: Config, run: seq<Event>, t: Txn) returns (r: Routed)
    requires ValidRun(cfg, run) && Arrived(run, t)
    requires forall e :: e in Entries(t) && cfg.partition(e.key) != cfg.me ==> Replied(run, t.id, cfg.partition(e.key))
    ensures RoutedFor(After(cfg, run).s.routed, t.id) == [r] && SameRequest(t, r.txn)
    ensures FilledAsTold(cfg, run, t.id, t.readSet, r.txn.readSet)
    ensures FilledAsTold(cfg, run, t.id, t.readWriteSet, r.txn.readWriteSet)
    ensures r.involved == set e | e in r.txn.readSet + r.txn.readWriteSet :: e.master
    ensures r.to == OwnBatch <==> r.involved == {cfg.here} || (|r.involved| > 1 && cfg.here == 0)
    ensures forall m :: r.involved == {m} && m != cfg.here ==> r.to == Replica(m)
    ensures |r.involved| != 1 && r.to != OwnBatch ==> r.to == Replica(0)
  {
    AskedHaveNotReplied(cfg, run, t);
    RunKeepsInv(cfg, run);
    OnlyToldIsKnown(cfg, run);
    var w := After(cfg, run);
    RoutedExactlyOnce(cfg, run, t.id);
    var known := w.known[t.id];
    var u := ResolveTxn(t, known);
    r := RoutedFor(w.s.routed, t.id)[0];
    ResolveFills(t, known);
    ResolvedAsTold(cfg, run, t.id, t.readSet, w.known);
    ResolvedAsTold(cfg, run, t.id, t.readWriteSet, w.known);
  }
}
