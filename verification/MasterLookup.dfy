/** Finding the masters of a new transaction's records before it is routed. */
module MasterLookup {
  import opened Txns
  import opened Exchange

  datatype Answer = Answer(master: nat, counter: nat)

  type Answers = map<Key, Answer>

  datatype Destination = OwnBatch | Replica(id: nat)

  datatype Routed = Routed(txn: Txn, involved: set<nat>, to: Destination)

  /** `expected` has for each waiting transaction the number of its entries still without a master. */
  datatype State = State(expected: map<nat, (nat, Txn)>, involved: map<nat, set<nat>>, routed: seq<Routed>)

  function Resolved(e: KeyEntry, answers: Answers): KeyEntry {
    if e.key in answers then KeyEntry(e.key, answers[e.key].master, answers[e.key].counter) else e
  }

  function Resolve(es: seq<KeyEntry>, answers: Answers): (r: seq<KeyEntry>)
    ensures |r| == |es| && forall i :: 0 <= i < |r| ==> r[i] == Resolved(es[i], answers)
  {
    seq(|es|, i requires 0 <= i < |es| => Resolved(es[i], answers))
  }

  function ResolveTxn(t: Txn, answers: Answers): Txn {
    t.(readSet := Resolve(t.readSet, answers), readWriteSet := Resolve(t.readWriteSet, answers))
  }

  /** The number of entries that the answers concern. */
  function Hits(es: seq<KeyEntry>, answers: Answers): nat {
    if es == [] then 0 else Hits(es[..|es| - 1], answers) + if es[|es| - 1].key in answers then 1 else 0
  }

  function HitsOf(t: Txn, answers: Answers): nat {
    Hits(t.readSet, answers) + Hits(t.readWriteSet, answers)
  }

  /** The masters that the answers give to entries. */
  function Masters(es: seq<KeyEntry>, answers: Answers): set<nat> {
    set e | e in es && e.key in answers :: answers[e.key].master
  }

  function MastersFor(t: Txn, answers: Answers): set<nat> {
    Masters(t.readSet, answers) + Masters(t.readWriteSet, answers)
  }

  /** What this machine knows itself. */
  function Local(t: Txn, me: nat, partition: Key -> nat, storage: Key -> Answer): Answers {
    map k | k in AllKeys(Entries(t)) && partition(k) == me :: storage(k)
  }

  function InvolvedIn(involved: map<nat, set<nat>>, id: nat): set<nat> {
    if id in involved then involved[id] else {}
  }

  /** The answers are about the entries stored here, as storage has them. */
  ghost predicate KnownHere(es: seq<KeyEntry>, me: nat, partition: Key -> nat, storage: Key -> Answer, answers: Answers) {
    && (forall e :: e in es ==> (e.key in answers <==> partition(e.key) == me))
    && (forall k :: k in answers ==> answers[k] == storage(k))
  }

  lemma LocalIsKnownHere(t: Txn, me: nat, partition: Key -> nat, storage: Key -> Answer)
    ensures var answers := Local(t, me, partition, storage);
            KnownHere(t.readSet, me, partition, storage, answers) && KnownHere(t.readWriteSet, me, partition, storage, answers)
  {
    assert forall e :: e in t.readSet || e in t.readWriteSet ==> e in Entries(t);
  }

  /** A transaction of one replica goes there; one of several is handled by replica 0. */
  function Route(involved: set<nat>, here: nat): Destination {
    if |involved| == 1 then (if TheOne(involved) == here then OwnBatch else Replica(TheOne(involved)))
    else if |involved| > 1 && here == 0 then OwnBatch
    else Replica(0)
  }

  /** The replica whose sequencer puts the transaction into a batch. */
  function Handler(to: Destination, here: nat): nat {
    if to.OwnBatch? then here else to.id
  }

  /** Wherever a transaction arrives, the same replica handles it: its only master's, or replica 0. */
  lemma HandledAlikeEverywhere(involved: set<nat>, here: nat)
    ensures forall r :: involved == {r} ==> Handler(Route(involved, here), here) == r
    ensures |involved| != 1 ==> Handler(Route(involved, here), here) == 0
  {
    forall r | involved == {r} ensures TheOne(involved) == r {
      assert r in {TheOne(involved)};
    }
  }

  /** An aborted transaction is sent back to where the sequencer would have sent it. */
  lemma ResubmittedLikeNew(t: Txn, objects: map<Key, Record>, newId: nat, here: nat)
    requires HasAll(t, objects)
    ensures var again := Again(t, objects, newId); again.destination == Handler(Route(again.involved, here), here)
  {
  }

  function Done(s: State, here: nat, t: Txn): State {
    var involved := InvolvedIn(s.involved, t.id);
    State(s.expected - {t.id}, s.involved - {t.id}, s.routed + [Routed(t, involved, Route(involved, here))])
  }

  /** What `involved` becomes when the masters `found` are added for `id`. */
  function Added(before: map<nat, set<nat>>, id: nat, found: set<nat>): map<nat, set<nat>> {
    if found == {} then before else before[id := InvolvedIn(before, id) + found]
  }

  /** Transaction `t` leaves the table if no entry is left without a master, and waits otherwise. */
  function Settled(s: State, here: nat, t: Txn, left: nat): State {
    if left == 0 then Done(s, here, t) else s.(expected := s.expected[t.id := (left, t)])
  }

  /** `answers` become known for the waiting or new transaction `t`, which still lacked `missing` masters. */
  function Learn(s: State, here: nat, t: Txn, missing: nat, answers: Answers): State
    requires HitsOf(t, answers) <= missing
  {
    Settled(s.(involved := Added(s.involved, t.id, MastersFor(t, answers))), here, ResolveTxn(t, answers),
            missing - HitsOf(t, answers))
  }

  lemma {:induction false} HitsAtMost(es: seq<KeyEntry>, answers: Answers)
    ensures Hits(es, answers) <= |es|
  {
    if es != [] {
      HitsAtMost(es[..|es| - 1], answers);
    }
  }

  lemma HitsMore(es: seq<KeyEntry>, e: KeyEntry, answers: Answers)
    ensures Hits(es + [e], answers) == Hits(es, answers) + if e.key in answers then 1 else 0
    ensures Masters(es + [e], answers)
            == Masters(es, answers) + if e.key in answers then {answers[e.key].master} else {}
  {
    assert (es + [e])[..|es|] == es;
    assert e in es + [e];
  }

  lemma AddedTwice(before: map<nat, set<nat>>, id: nat, p: set<nat>, q: set<nat>)
    ensures Added(Added(before, id, p), id, q) == Added(before, id, p + q)
  {
    assert p == {} ==> p + q == q;
    assert q == {} ==> p + q == p;
    assert p != {} && q != {} ==> InvolvedIn(before, id) + p + q == InvolvedIn(before, id) + (p + q);
  }

  function Found(e: KeyEntry, answers: Answers): set<nat> {
    if e.key in answers then {answers[e.key].master} else {}
  }

  /** The first `i` entries are resolved in `us`, the others are as in `es`. */
  predicate Halfway(es: seq<KeyEntry>, us: seq<KeyEntry>, i: nat, answers: Answers) {
    && |us| == |es| && i <= |es|
    && forall j :: 0 <= j < |es| ==> us[j] == if j < i then Resolved(es[j], answers) else es[j]
  }

  lemma HalfwayStep(es: seq<KeyEntry>, us: seq<KeyEntry>, i: nat, answers: Answers)
    requires Halfway(es, us, i, answers) && i < |es|
    ensures Halfway(es, us[i := Resolved(es[i], answers)], i + 1, answers)
    ensures es[i].key !in answers ==> us[i := Resolved(es[i], answers)] == us
  {
  }

  lemma CountStep(before: map<nat, set<nat>>, id: nat, es: seq<KeyEntry>, i: nat, answers: Answers)
    requires i < |es|
    ensures Hits(es[..i + 1], answers) == Hits(es[..i], answers) + if es[i].key in answers then 1 else 0
    ensures Added(before, id, Masters(es[..i + 1], answers))
            == Added(Added(before, id, Masters(es[..i], answers)), id, Found(es[i], answers))
  {
    assert es[..i + 1] == es[..i] + [es[i]];
    HitsMore(es[..i], es[i], answers);
    AddedTwice(before, id, Masters(es[..i], answers), Found(es[i], answers));
  }

  lemma AskStep(asked: Requests, me: nat, partition: Key -> nat, es: seq<KeyEntry>, i: nat)
    requires i < |es|
    ensures var before, p := Ask(asked, me, partition, es[..i]), partition(es[i].key);
            Ask(asked, me, partition, es[..i + 1])
            == if p == me then before else before[p := AskedOf(before, p) + {es[i].key}]
  {
    assert es[..i + 1] == es[..i] + [es[i]];
    AskMore(asked, me, partition, es[..i], es[i]);
  }

  /** The entries name the same records, one by one, and those the answers concern have the master and counter answered. */
  predicate Filled(es: seq<KeyEntry>, answers: Answers, us: seq<KeyEntry>) {
    |us| == |es| && forall i :: 0 <= i < |es| ==>
      && us[i].key == es[i].key
      && (es[i].key in answers ==> us[i].master == answers[es[i].key].master && us[i].counter == answers[es[i].key].counter)
      && (es[i].key !in answers ==> us[i] == es[i])
  }

  /** Likewise for what this machine stores. */
  predicate LookedUp(es: seq<KeyEntry>, me: nat, partition: Key -> nat, storage: Key -> Answer, us: seq<KeyEntry>) {
    |us| == |es| && forall i :: 0 <= i < |es| ==>
      && us[i].key == es[i].key
      && (partition(es[i].key) == me ==>
            us[i].master == storage(es[i].key).master && us[i].counter == storage(es[i].key).counter)
      && (partition(es[i].key) != me ==> us[i] == es[i])
  }

  /** The transactions differ in their entries' masters and counters at most. */
  predicate SameRequest(t: Txn, u: Txn) {
    u.id == t.id && u.origin == t.origin && u.remaster == t.remaster && u.newGenerated == t.newGenerated
  }

  lemma ResolveFills(t: Txn, answers: Answers)
    ensures var u := ResolveTxn(t, answers);
            SameRequest(t, u) && Filled(t.readSet, answers, u.readSet) && Filled(t.readWriteSet, answers, u.readWriteSet)
  {
  }

  lemma LocalIsLookedUp(t: Txn, me: nat, partition: Key -> nat, storage: Key -> Answer)
    ensures var u := ResolveTxn(t, Local(t, me, partition, storage));
            && LookedUp(t.readSet, me, partition, storage, u.readSet)
            && LookedUp(t.readWriteSet, me, partition, storage, u.readWriteSet)
  {
    LocalIsKnownHere(t, me, partition, storage);
    ResolveFills(t, Local(t, me, partition, storage));
  }

  type Requests = map<nat, set<Key>>

  function AskedOf(asked: Requests, p: nat): set<Key> {
    if p in asked then asked[p] else {}
  }

  /** The keys asked of each other machine. */
  function Ask(asked: Requests, me: nat, partition: Key -> nat, es: seq<KeyEntry>): Requests {
    if es == [] then asked
    else
      var before := Ask(asked, me, partition, es[..|es| - 1]);
      var k := es[|es| - 1].key;
      if partition(k) == me then before else before[partition(k) := AskedOf(before, partition(k)) + {k}]
  }

  lemma AskMore(asked: Requests, me: nat, partition: Key -> nat, es: seq<KeyEntry>, e: KeyEntry)
    ensures var before := Ask(asked, me, partition, es);
            Ask(asked, me, partition, es + [e]) ==
            if partition(e.key) == me then before
            else before[partition(e.key) := AskedOf(before, partition(e.key)) + {e.key}]
  {
    assert (es + [e])[..|es|] == es;
  }

  /** Every key of another machine is asked of its owner, and nothing else is asked. */
  lemma {:induction false} OwnersAreAsked(asked: Requests, me: nat, partition: Key -> nat, es: seq<KeyEntry>, p: nat, k: Key)
    ensures k in AskedOf(Ask(asked, me, partition, es), p)
            <==> k in AskedOf(asked, p) || (k in AllKeys(es) && partition(k) == p && p != me)
  {
    if es != [] {
      OwnersAreAsked(asked, me, partition, es[..|es| - 1], p, k);
      assert es == es[..|es| - 1] + [es[|es| - 1]];
    }
  }

  class LookupTable {
    const me: nat
    const here: nat
    const partition: Key -> nat
    var expected: map<nat, (nat, Txn)>
    var involved: map<nat, set<nat>>
    var routed: seq<Routed>

    ghost function View(): State
      reads this
    {
      State(expected, involved, routed)
    }

    /** The transaction `id` as it now waits, or as it was routed just now. */
    ghost function Current(id: nat): Txn
      requires id in expected || routed != []
      reads this
    {
      if id in expected then expected[id].1 else routed[|routed| - 1].txn
    }

    constructor (me: nat, here: nat, partition: Key -> nat)
      ensures this.me == me && this.here == here && this.partition == partition && View() == State(map[], map[], [])
    {
      this.me, this.here, this.partition := me, here, partition;
      expected, involved, routed := map[], map[], [];
    }

    method Settle(id: nat, e: KeyEntry, a: Answer) returns (u: KeyEntry)
      modifies this`involved
      ensures u == KeyEntry(e.key, a.master, a.counter) && involved == Added(old(involved), id, {a.master})
    {
      u := KeyEntry(e.key, a.master, a.counter);
      involved := involved[id := InvolvedIn(involved, id) + {a.master}];
    }

    /** Fills in the answers, counting the entries they settle. */
    method FillIn(id: nat, es: seq<KeyEntry>, answers: Answers) returns (us: seq<KeyEntry>, hits: nat)
      modifies this`involved
      ensures us == Resolve(es, answers) && hits == Hits(es, answers)
      ensures involved == Added(old(involved), id, Masters(es, answers))
    {
      us, hits := es, 0;
      ghost var before := involved;
      for i := 0 to |es|
        invariant Halfway(es, us, i, answers) && hits == Hits(es[..i], answers)
        invariant involved == Added(before, id, Masters(es[..i], answers))
      {
        HalfwayStep(es, us, i, answers);
        CountStep(before, id, es, i, answers);
        if es[i].key in answers {
          var u := Settle(id, es[i], answers[es[i].key]);
          us := us[i := u];
          hits := hits + 1;
        }
      }
      assert es[..|es|] == es && us == Resolve(es, answers);
    }

    /** Looks up what is stored here, and notes what has to be asked of whom. */
    method LookUp(id: nat, es: seq<KeyEntry>, storage: Key -> Answer, asked0: Requests, ghost answers: Answers)
      returns (us: seq<KeyEntry>, remote: nat, asked: Requests)
      requires KnownHere(es, me, partition, storage, answers)
      modifies this`involved
      ensures us == Resolve(es, answers) && remote + Hits(es, answers) == |es|
      ensures involved == Added(old(involved), id, Masters(es, answers)) && asked == Ask(asked0, me, partition, es)
    {
      us, remote, asked := es, 0, asked0;
      ghost var before := involved;
      for i := 0 to |es|
        invariant Halfway(es, us, i, answers) && remote + Hits(es[..i], answers) == i
        invariant involved == Added(before, id, Masters(es[..i], answers))
        invariant asked == Ask(asked0, me, partition, es[..i])
      {
        HalfwayStep(es, us, i, answers);
        CountStep(before, id, es, i, answers);
        AskStep(asked0, me, partition, es, i);
        var p := partition(es[i].key);
        if p == me {
          var u := Settle(id, es[i], storage(es[i].key));
          us := us[i := u];
        } else {
          remote := remote + 1;
          asked := asked[p := AskedOf(asked, p) + {es[i].key}];
        }
      }
      assert es[..|es|] == es && us == Resolve(es, answers);
    }

    /** The transaction is complete: it leaves the table and is routed. */
    method Finish(t: Txn)
      modifies this
      ensures View() == Done(old(View()), here, t)
    {
      var replicas := InvolvedIn(involved, t.id);
      expected, involved := expected - {t.id}, involved - {t.id};
      if |replicas| == 1 && TheOne(replicas) == here {
        routed := routed + [Routed(t, replicas, OwnBatch)];
      } else if |replicas| == 1 && TheOne(replicas) != here {
        routed := routed + [Routed(t, replicas, Replica(TheOne(replicas)))];
      } else if |replicas| > 1 && here == 0 {
        routed := routed + [Routed(t, replicas, OwnBatch)];
      } else {
        routed := routed + [Routed(t, replicas, Replica(0))];
      }
    }

    method FinishOrWait(t: Txn, left: nat)
      modifies this
      ensures View() == Settled(old(View()), here, t, left)
    {
      if left == 0 {
        Finish(t);
      } else {
        expected := expected[t.id := (left, t)];
      }
    }

    method LookUpBoth(t: Txn, storage: Key -> Answer) returns (t': Txn, remote: nat, asked: Requests)
      modifies this`involved
      ensures var answers := Local(t, me, partition, storage);
              && t' == ResolveTxn(t, answers) && remote + HitsOf(t, answers) == |Entries(t)|
              && involved == Added(old(involved), t.id, MastersFor(t, answers))
      ensures asked == Ask(map[], me, partition, Entries(t))
    {
      ghost var answers := Local(t, me, partition, storage);
      LocalIsKnownHere(t, me, partition, storage);
      AddedTwice(involved, t.id, Masters(t.readSet, answers), Masters(t.readWriteSet, answers));
      AskBoth(map[], me, partition, t.readSet, t.readWriteSet);
      var readSet, remote1, asked1 := LookUp(t.id, t.readSet, storage, map[], answers);
      var writeSet, remote2, asked2 := LookUp(t.id, t.readWriteSet, storage, asked1, answers);
      t', remote, asked := t.(readSet := readSet, readWriteSet := writeSet), remote1 + remote2, asked2;
    }

    /** A new transaction; `asked` are the requests to other machines. */
    method NewTxn(t: Txn, storage: Key -> Answer) returns (asked: Requests)
      modifies this
      ensures HitsOf(t, Local(t, me, partition, storage)) <= |Entries(t)|
      ensures View() == Learn(old(View()), here, t, |Entries(t)|, Local(t, me, partition, storage))
      ensures asked == Ask(map[], me, partition, Entries(t))
      ensures t.id in expected || |routed| == |old(routed)| + 1
      ensures SameRequest(t, Current(t.id))
      ensures LookedUp(t.readSet, me, partition, storage, Current(t.id).readSet)
      ensures LookedUp(t.readWriteSet, me, partition, storage, Current(t.id).readWriteSet)
    {
      var t', remote, asked' := LookUpBoth(t, storage);
      asked := asked';
      LocalIsLookedUp(t, me, partition, storage);
      FinishOrWait(t', remote);
    }

    /** An owner's reply about a waiting transaction. */
    method HandleReply(id: nat, answers: Answers)
      requires id in expected && expected[id].1.id == id && HitsOf(expected[id].1, answers) <= expected[id].0
      modifies this
      ensures View() == Learn(old(View()), here, old(expected[id].1), old(expected[id].0), answers)
      ensures id in expected || |routed| == |old(routed)| + 1
      ensures SameRequest(old(expected[id].1), Current(id))
      ensures Filled(old(expected[id].1.readSet), answers, Current(id).readSet)
      ensures Filled(old(expected[id].1.readWriteSet), answers, Current(id).readWriteSet)
    {
      var (missing, t) := expected[id];
      ResolveFills(t, answers);
      ghost var before := involved;
      var readSet, hits := FillIn(id, t.readSet, answers);
      var writeSet, more := FillIn(id, t.readWriteSet, answers);
      AddedTwice(before, id, Masters(t.readSet, answers), Masters(t.readWriteSet, answers));
      FinishOrWait(t.(readSet := readSet, readWriteSet := writeSet), missing - hits - more);
    }
  }

  lemma {:induction false} AskBoth(asked: Requests, me: nat, partition: Key -> nat, es: seq<KeyEntry>, fs: seq<KeyEntry>)
    ensures Ask(Ask(asked, me, partition, es), me, partition, fs) == Ask(asked, me, partition, es + fs)
  {
    if fs == [] {
      assert es + fs == es;
    } else {
      var init, f := fs[..|fs| - 1], fs[|fs| - 1];
      AskBoth(asked, me, partition, es, init);
      AskMore(asked, me, partition, es + init, f);
      assert es + fs == (es + init) + [f];
    }
  }
}
