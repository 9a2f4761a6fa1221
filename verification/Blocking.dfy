/** Transactions that wait for a remaster (mode 2): what the scheduler keeps while they wait, and how
    a finished remaster wakes them. */
module Blocking {
  import opened Txns

  /** A record, and the counter that a transaction waits for it to reach. */
  type Wait = (Key, nat)

  type Counters = map<Key, nat>

  /** `given` are the calls to Lock; `unlocked` are the transactions sent off to abort without locks. */
  datatype State = State(
    blocking: map<nat, seq<Txn>>,
    waiting: set<Txn>,
    byTxn: map<nat, set<Wait>>,
    byKey: map<Wait, seq<Txn>>,
    given: seq<Txn>,
    unlocked: seq<Txn>)

  const Initial := State(map[], {}, map[], map[], [], [])

  function QueueOf(s: State, o: nat): seq<Txn> {
    if o in s.blocking then s.blocking[o] else []
  }

  function CounterOf(counters: Counters, k: Key): nat {
    if k in counters then counters[k] else 0
  }

  /** The entries this node checks for `t`: its own records, as mastered where `t` comes from. */
  function Checked(cfg: NodeConfig, t: Txn): set<Wait> {
    CheckedOf(cfg, t, t.readSet + t.readWriteSet)
  }

  function CheckedOf(cfg: NodeConfig, t: Txn, es: seq<KeyEntry>): set<Wait> {
    set e | e in es && cfg.partition(e.key) == cfg.node && e.master == t.origin :: (e.key, e.counter)
  }

  lemma CheckedOneMore(cfg: NodeConfig, t: Txn, es: seq<KeyEntry>, i: nat)
    requires i < |es|
    ensures CheckedOf(cfg, t, es[..i + 1]) ==
            CheckedOf(cfg, t, es[..i]) + CheckedOf(cfg, t, [es[i]])
  {
    assert es[..i + 1] == es[..i] + [es[i]];
  }

  lemma CheckedBoth(cfg: NodeConfig, t: Txn)
    ensures Checked(cfg, t) == CheckedOf(cfg, t, t.readSet) + CheckedOf(cfg, t, t.readWriteSet)
  {
  }

  /** The checked entries that storage has not reached. */
  function Ahead(cfg: NodeConfig, counters: Counters, t: Txn): set<Wait> {
    set w | w in Checked(cfg, t) && w.1 > CounterOf(counters, w.0)
  }

  /** Storage has passed an entry: the transaction cannot commit. */
  predicate Stale(cfg: NodeConfig, counters: Counters, t: Txn) {
    exists w :: w in Checked(cfg, t) && w.1 < CounterOf(counters, w.0)
  }

  /** A record of this node that `t` names as mastered where it comes from. */
  predicate LocalEntry(cfg: NodeConfig, t: Txn, e: KeyEntry) {
    e in Entries(t) && cfg.partition(e.key) == cfg.node && e.master == t.origin
  }

  /** Storage has passed a local entry and reached all of them. */
  predicate IsBehind(cfg: NodeConfig, counters: Counters, t: Txn) {
    && (forall e :: e in Entries(t) && LocalEntry(cfg, t, e) ==> e.counter <= CounterOf(counters, e.key))
    && (exists e :: e in Entries(t) && LocalEntry(cfg, t, e) && e.counter < CounterOf(counters, e.key))
  }

  lemma CheckedAreLocal(cfg: NodeConfig, t: Txn)
    ensures forall e :: e in Entries(t) && LocalEntry(cfg, t, e) ==> (e.key, e.counter) in Checked(cfg, t)
    ensures forall w :: w in Checked(cfg, t) ==>
              exists e :: e in Entries(t) && LocalEntry(cfg, t, e) && (e.key, e.counter) == w
  {
    forall w | w in Checked(cfg, t) ensures exists e :: e in Entries(t) && LocalEntry(cfg, t, e) && (e.key, e.counter) == w {
      var e :| e in t.readSet + t.readWriteSet && cfg.partition(e.key) == cfg.node && e.master == t.origin
               && (e.key, e.counter) == w;
      assert e in Entries(t) && LocalEntry(cfg, t, e);
    }
  }

  /** What is checked without locks: storage has reached all local entries, and passed one. */
  lemma BehindIs(cfg: NodeConfig, counters: Counters, t: Txn)
    ensures IsBehind(cfg, counters, t) <==> Ahead(cfg, counters, t) == {} && Stale(cfg, counters, t)
  {
    CheckedAreLocal(cfg, t);
    if IsBehind(cfg, counters, t) {
      var e :| e in Entries(t) && LocalEntry(cfg, t, e) && e.counter < CounterOf(counters, e.key);
      assert (e.key, e.counter) in Checked(cfg, t);
    }
    if Ahead(cfg, counters, t) == {} && Stale(cfg, counters, t) {
      forall e | e in Entries(t) && LocalEntry(cfg, t, e) ensures e.counter <= CounterOf(counters, e.key) {
        assert (e.key, e.counter) !in Ahead(cfg, counters, t);
      }
    }
  }

  // -------- the operations

  function ListOf(byKey: map<Wait, seq<Txn>>, w: Wait): seq<Txn> {
    if w in byKey then byKey[w] else []
  }

  function AddWaiter(byKey: map<Wait, seq<Txn>>, keys: set<Wait>, t: Txn): map<Wait, seq<Txn>> {
    map w | w in byKey.Keys + keys :: ListOf(byKey, w) + if w in keys then [t] else []
  }

  function PutWaiter(byKey: map<Wait, seq<Txn>>, w: Wait, t: Txn): map<Wait, seq<Txn>> {
    byKey[w := ListOf(byKey, w) + [t]]
  }

  lemma AddNoWaiter(byKey: map<Wait, seq<Txn>>, t: Txn)
    ensures AddWaiter(byKey, {}, t) == byKey
  {
    assert forall w :: w in byKey ==> byKey[w] + [] == byKey[w];
  }

  lemma AddOneWaiter(byKey: map<Wait, seq<Txn>>, keys: set<Wait>, w: Wait, t: Txn)
    requires w !in keys
    ensures AddWaiter(byKey, keys + {w}, t) == PutWaiter(AddWaiter(byKey, keys, t), w, t)
  {
    var lists, more := AddWaiter(byKey, keys, t), AddWaiter(byKey, keys + {w}, t);
    assert ListOf(byKey, w) + [] == ListOf(byKey, w);
    assert ListOf(lists, w) == ListOf(byKey, w);
    assert forall v :: v in more && v != w ==> v in lists && more[v] == lists[v];
  }

  lemma AddNextWaiter(byKey: map<Wait, seq<Txn>>, keys: set<Wait>, todo: set<Wait>, w: Wait, t: Txn)
    requires w in todo && todo <= keys
    ensures AddWaiter(byKey, keys - (todo - {w}), t) == PutWaiter(AddWaiter(byKey, keys - todo, t), w, t)
  {
    AddOneWaiter(byKey, keys - todo, w, t);
    assert keys - (todo - {w}) == keys - todo + {w};
  }

  function Enqueue(s: State, t: Txn): State {
    s.(blocking := s.blocking[t.origin := QueueOf(s, t.origin) + [t]])
  }

  function Block(s: State, keys: set<Wait>, t: Txn): State {
    Enqueue(s, t).(waiting := s.waiting + {t}, byTxn := s.byTxn[t.id := keys], byKey := AddWaiter(s.byKey, keys, t))
  }

  /** A transaction fetched from its batch. */
  function FetchOp(cfg: NodeConfig, counters: Counters, s: State, t: Txn): State {
    if t.remaster then s.(given := s.given + [t])
    else if Ahead(cfg, counters, t) != {} then Block(s, Ahead(cfg, counters, t), t)
    else if Stale(cfg, counters, t) then s.(unlocked := s.unlocked + [t])
    else if QueueOf(s, t.origin) != [] then Enqueue(s, t)
    else s.(given := s.given + [t])
  }

  /** Exactly what is behind storage is sent off. */
  lemma FetchSendsOff(cfg: NodeConfig, counters: Counters, s: State, t: Txn)
    ensures FetchOp(cfg, counters, s, t).unlocked
            == s.unlocked + if !t.remaster && IsBehind(cfg, counters, t) then [t] else []
  {
    BehindIs(cfg, counters, t);
    assert s.unlocked + [] == s.unlocked;
  }

  /** Length of the longest prefix of `q` that waits for nothing. */
  function Free(q: seq<Txn>, waiting: set<Txn>): (n: nat)
    ensures n <= |q| && (n < |q| ==> q[n] in waiting)
    ensures forall i :: 0 <= i < n ==> q[i] !in waiting
  {
    if q == [] || q[0] in waiting then 0 else 1 + Free(q[1..], waiting)
  }

  /** Hands the free front of a queue to the lock manager. */
  function Drain(s: State, o: nat): State {
    var q := QueueOf(s, o);
    var n := Free(q, s.waiting);
    s.(blocking := s.blocking[o := q[n..]], given := s.given + q[..n])
  }

  lemma {:induction false} FreeIs(q: seq<Txn>, waiting: set<Txn>, n: nat)
    requires n <= |q| && (n < |q| ==> q[n] in waiting)
    requires forall i :: 0 <= i < n ==> q[i] !in waiting
    ensures Free(q, waiting) == n
  {
    if n > 0 {
      FreeIs(q[1..], waiting, n - 1);
    }
  }

  /** The lists without the first waiter for `w`. */
  function Dropped(byKey: map<Wait, seq<Txn>>, w: Wait): map<Wait, seq<Txn>>
    requires ListOf(byKey, w) != []
  {
    if |byKey[w]| == 1 then byKey - {w} else byKey[w := byKey[w][1..]]
  }

  /** The first transaction waiting for `w` stops waiting for it. */
  function Forget(s: State, w: Wait): State
    requires ListOf(s.byKey, w) != []
  {
    var a := s.byKey[w][0];
    var left := WaitsOf(s, a) - {w};
    var rest := Dropped(s.byKey, w);
    if left != {} then s.(byKey := rest, byTxn := s.byTxn[a.id := left])
    else s.(byKey := rest, byTxn := s.byTxn - {a.id}, waiting := s.waiting - {a})
  }

  /** The first transaction waiting for `w` waits for nothing else. */
  predicate IsFreed(s: State, w: Wait)
    requires ListOf(s.byKey, w) != []
  {
    WaitsOf(s, s.byKey[w][0]) <= {w}
  }

  function WakeFirst(s: State, w: Wait): State
    requires ListOf(s.byKey, w) != []
  {
    var a := s.byKey[w][0];
    var f := Forget(s, w);
    var q := QueueOf(f, a.origin);
    if IsFreed(s, w) && q != [] && q[0] == a then Drain(f, a.origin) else f
  }

  /** A remaster has brought a record to a counter: all who wait for that are woken, in turn. */
  function RemasterDone(s: State, w: Wait): State
    decreases |ListOf(s.byKey, w)|
  {
    if ListOf(s.byKey, w) == [] then s else RemasterDone(WakeFirst(s, w), w)
  }

  lemma FetchBlocks(cfg: NodeConfig, counters: Counters, s: State, t: Txn)
    requires !t.remaster && Ahead(cfg, counters, t) != {}
    ensures FetchOp(cfg, counters, s, t) == Block(s, Ahead(cfg, counters, t), t)
  {
  }

  // -------- the invariant

  predicate Lists(s: State, w: Wait, t: Txn) {
    w in s.byKey && t in s.byKey[w]
  }

  predicate WaitsFor(s: State, w: Wait, t: Txn) {
    t in s.waiting && t.id in s.byTxn && w in s.byTxn[t.id]
  }

  function WaitsOf(s: State, t: Txn): set<Wait> {
    if t.id in s.byTxn then s.byTxn[t.id] else {}
  }

  /** The two indexes are exact inverses. */
  ghost predicate Inverse(s: State) {
    forall w, t :: Lists(s, w, t) <==> WaitsFor(s, w, t)
  }

  ghost predicate QueuesByOrigin(s: State) {
    forall o, t :: t in QueueOf(s, o) ==> t.origin == o && !t.remaster
  }

  predicate Queued(s: State, t: Txn) {
    t in QueueOf(s, t.origin)
  }

  ghost predicate WaitersQueued(s: State) {
    forall t :: t in s.waiting ==> Queued(s, t)
  }

  ghost predicate WaiterIds(s: State) {
    forall t, u :: t in s.waiting && u in s.waiting && t.id == u.id ==> t == u
  }

  ghost predicate WaitersWait(s: State) {
    forall t :: t in s.waiting ==> t.id in s.byTxn && s.byTxn[t.id] != {}
  }

  ghost predicate ListsTidy(s: State) {
    forall w :: w in s.byKey ==> s.byKey[w] != [] && NoDuplicates(s.byKey[w])
  }

  ghost predicate SomeoneWaitsAs(s: State, id: nat) {
    exists t :: t in s.waiting && t.id == id
  }

  /** The index by id has an entry only for those who wait. */
  ghost predicate IdsTidy(s: State) {
    forall id :: id in s.byTxn ==> s.byTxn[id] != {} && SomeoneWaitsAs(s, id)
  }

  /** Everything about the indexes alone. */
  ghost predicate Indexed(s: State) {
    WaiterIds(s) && WaitersWait(s) && Inverse(s) && ListsTidy(s) && IdsTidy(s)
  }

  ghost predicate HeadWaits(s: State, o: nat) {
    QueueOf(s, o) != [] ==> QueueOf(s, o)[0] in s.waiting
  }

  ghost predicate HeadsWait(s: State) {
    forall o :: HeadWaits(s, o)
  }

  ghost predicate Inv(s: State) {
    QueuesByOrigin(s) && WaitersQueued(s) && Indexed(s) && HeadsWait(s)
  }

  ghost predicate NobodyWaitsAs(s: State, id: nat) {
    forall u :: u in s.waiting ==> u.id != id
  }

  /** What fetching has to avoid: blocking under an id that is already waiting. */
  ghost predicate MayFetch(cfg: NodeConfig, counters: Counters, s: State, t: Txn) {
    t.remaster || Ahead(cfg, counters, t) == {} || NobodyWaitsAs(s, t.id)
  }

  // -------- fetching

  /** Blocking keeps the indexes inverse exactly when nobody waits under the same id for other records. */
  lemma BlockKeepsInverse(s: State, keys: set<Wait>, t: Txn)
    requires Inverse(s) && t !in s.waiting
    ensures Inverse(Block(s, keys, t)) <==> forall u :: u in s.waiting && u.id == t.id ==> WaitsOf(s, u) == keys
  {
    var b := Block(s, keys, t);
    assert forall w, u :: Lists(b, w, u) <==> Lists(s, w, u) || (u == t && w in keys);
    assert forall w :: WaitsFor(b, w, t) <==> w in keys;
    assert forall w, u: Txn :: u.id != t.id ==> WaitsFor(b, w, u) == WaitsFor(s, w, u);
    forall u | u in s.waiting && u.id == t.id
      ensures (forall w :: Lists(b, w, u) <==> WaitsFor(b, w, u)) <==> WaitsOf(s, u) == keys
    {
      assert forall w :: WaitsFor(b, w, u) <==> w in keys;
      assert forall w :: Lists(b, w, u) <==> w in WaitsOf(s, u);
    }
  }

  lemma BlockKeepsTidy(s: State, keys: set<Wait>, t: Txn)
    requires ListsTidy(s) && Inverse(s) && t !in s.waiting
    ensures ListsTidy(Block(s, keys, t))
  {
    var b := Block(s, keys, t);
    forall w | w in b.byKey ensures b.byKey[w] != [] && NoDuplicates(b.byKey[w]) {
      assert Lists(s, w, t) == WaitsFor(s, w, t);
    }
  }

  lemma BlockKeepsIndexed(s: State, keys: set<Wait>, t: Txn)
    requires Indexed(s) && NobodyWaitsAs(s, t.id) && keys != {}
    ensures Indexed(Block(s, keys, t))
  {
    BlockKeepsInverse(s, keys, t);
    BlockKeepsTidy(s, keys, t);
    assert WaitersWait(Block(s, keys, t)) && WaiterIds(Block(s, keys, t));
    forall id | id in Block(s, keys, t).byTxn ensures SomeoneWaitsAs(Block(s, keys, t), id) {
      var u :| u in s.waiting + {t} && u.id == id;
    }
  }

  lemma EnqueueKeepsQueues(s: State, t: Txn, waiting: set<Txn>)
    requires QueuesByOrigin(s) && WaitersQueued(s) && !t.remaster && waiting <= s.waiting + {t}
    ensures var e := Enqueue(s, t).(waiting := waiting); QueuesByOrigin(e) && WaitersQueued(e)
  {
    var e := Enqueue(s, t).(waiting := waiting);
    assert forall o :: QueueOf(e, o) == if o == t.origin then QueueOf(s, o) + [t] else QueueOf(s, o);
    forall u | u in waiting ensures Queued(e, u) {
      assert u != t ==> Queued(s, u);
    }
  }

  /** Only the queues and the flags matter for how transactions stand in line. */
  lemma SameQueues(s: State, f: State)
    requires s.blocking == f.blocking && s.waiting == f.waiting
    ensures QueuesByOrigin(s) == QueuesByOrigin(f) && WaitersQueued(s) == WaitersQueued(f) && HeadsWait(s) == HeadsWait(f)
  {
    assert forall o :: QueueOf(f, o) == QueueOf(s, o) && HeadWaits(f, o) == HeadWaits(s, o);
    assert forall t :: Queued(f, t) == Queued(s, t);
  }

  lemma InitialInv()
    ensures Inv(Initial)
  {
    assert forall o :: QueueOf(Initial, o) == [];
  }

  lemma SameIndexes(s: State, f: State)
    requires Indexed(s) && s.waiting == f.waiting && s.byTxn == f.byTxn && s.byKey == f.byKey
    ensures Indexed(f)
  {
    assert forall w, t :: Lists(f, w, t) == Lists(s, w, t) && WaitsFor(f, w, t) == WaitsFor(s, w, t);
    assert forall id :: SomeoneWaitsAs(f, id) == SomeoneWaitsAs(s, id);
  }

  lemma EnqueueKeepsHeads(s: State, t: Txn, waiting: set<Txn>)
    requires HeadsWait(s) && s.waiting <= waiting && (QueueOf(s, t.origin) == [] ==> t in waiting)
    ensures HeadsWait(Enqueue(s, t).(waiting := waiting))
  {
    forall o ensures HeadWaits(Enqueue(s, t).(waiting := waiting), o) {
      assert HeadWaits(s, o);
    }
  }

  /** Fetching keeps the indexes inverse and a waiting transaction at the head of every queue. */
  lemma FetchKeepsInv(cfg: NodeConfig, counters: Counters, s: State, t: Txn)
    requires Inv(s) && MayFetch(cfg, counters, s, t)
    ensures Inv(FetchOp(cfg, counters, s, t))
  {
    var f, keys := FetchOp(cfg, counters, s, t), Ahead(cfg, counters, t);
    if !t.remaster && keys != {} {
      BlockKeepsIndexed(s, keys, t);
      EnqueueKeepsQueues(s, t, s.waiting + {t});
      EnqueueKeepsHeads(s, t, s.waiting + {t});
      SameQueues(Enqueue(s, t).(waiting := s.waiting + {t}), f);
    } else if !t.remaster && !Stale(cfg, counters, t) && QueueOf(s, t.origin) != [] {
      EnqueueKeepsQueues(s, t, s.waiting);
      EnqueueKeepsHeads(s, t, s.waiting);
      SameIndexes(s, f);
    } else {
      SameQueues(s, f);
      SameIndexes(s, f);
    }
  }

  // -------- waking

  lemma HeadOfList(s: State, w: Wait)
    requires Indexed(s) && ListOf(s.byKey, w) != []
    ensures var a := s.byKey[w][0]; WaitsFor(s, w, a) && a !in s.byKey[w][1..]
  {
    assert Lists(s, w, s.byKey[w][0]);
  }

  lemma ForgottenList(s: State, w: Wait, v: Wait, u: Txn)
    requires ListOf(s.byKey, w) != [] && NoDuplicates(s.byKey[w])
    ensures Lists(Forget(s, w), v, u) <==> Lists(s, v, u) && !(v == w && u == s.byKey[w][0])
  {
    assert s.byKey[w] == [s.byKey[w][0]] + s.byKey[w][1..];
  }

  lemma ForgottenWait(s: State, w: Wait, v: Wait, u: Txn)
    requires ListOf(s.byKey, w) != [] && WaiterIds(s) && WaitsFor(s, w, s.byKey[w][0])
    ensures WaitsFor(Forget(s, w), v, u) <==> WaitsFor(s, v, u) && !(v == w && u == s.byKey[w][0])
  {
    var a := s.byKey[w][0];
    var left := WaitsOf(s, a) - {w};
    if u == a {
      assert v in left <==> WaitsFor(s, v, a) && v != w;
    }
  }

  lemma ForgetKeepsIndexed(s: State, w: Wait)
    requires Indexed(s) && ListOf(s.byKey, w) != []
    ensures Indexed(Forget(s, w))
  {
    var f := Forget(s, w);
    HeadOfList(s, w);
    forall v, u ensures Lists(f, v, u) <==> WaitsFor(f, v, u) {
      ForgottenList(s, w, v, u);
      ForgottenWait(s, w, v, u);
    }
    assert WaitersWait(f) && WaiterIds(f) && ListsTidy(f);
    forall id | id in f.byTxn ensures SomeoneWaitsAs(f, id) {
      var u :| u in s.waiting && u.id == id;
      assert u in f.waiting;
    }
  }

  lemma DrainKeepsQueued(s: State, o: nat, u: Txn)
    requires QueuesByOrigin(s) && Queued(s, u) && u in s.waiting
    ensures Queued(Drain(s, o), u)
  {
    var q := QueueOf(s, o);
    var n := Free(q, s.waiting);
    if u.origin == o {
      var i :| 0 <= i < |q| && q[i] == u;
      assert q[n..][i - n] == u;
    }
  }

  lemma DrainKeepsQueues(s: State, o: nat)
    requires QueuesByOrigin(s) && WaitersQueued(s)
    ensures QueuesByOrigin(Drain(s, o)) && WaitersQueued(Drain(s, o)) && HeadWaits(Drain(s, o), o)
  {
    forall u | u in s.waiting ensures Queued(Drain(s, o), u) {
      DrainKeepsQueued(s, o, u);
    }
    forall p, u | u in QueueOf(Drain(s, o), p) ensures u in QueueOf(s, p) {
      DrainOnlyRemoves(s, o, p, u);
    }
  }

  lemma DrainOnlyRemoves(s: State, o: nat, p: nat, u: Txn)
    requires u in QueueOf(Drain(s, o), p)
    ensures u in QueueOf(s, p)
  {
  }

  lemma ForgetKeepsQueues(s: State, w: Wait)
    requires QueuesByOrigin(s) && WaitersQueued(s) && ListOf(s.byKey, w) != []
    ensures QueuesByOrigin(Forget(s, w)) && WaitersQueued(Forget(s, w))
  {
    var f := Forget(s, w);
    assert forall o :: QueueOf(f, o) == QueueOf(s, o);
    forall u | u in f.waiting ensures Queued(f, u) {
      assert Queued(s, u);
    }
  }

  lemma WakeFirstKeepsHeads(s: State, w: Wait)
    requires Inv(s) && ListOf(s.byKey, w) != []
    ensures HeadsWait(WakeFirst(s, w))
  {
    var a, f, k := s.byKey[w][0], Forget(s, w), WakeFirst(s, w);
    ForgetKeepsQueues(s, w);
    DrainKeepsQueues(f, a.origin);
    forall o ensures HeadWaits(k, o) {
      assert HeadWaits(s, o);
      assert QueueOf(f, o) == QueueOf(s, o);
      if o != a.origin {
        assert QueueOf(k, o) == QueueOf(s, o);
      }
    }
  }

  lemma WakeFirstKeepsInv(s: State, w: Wait)
    requires Inv(s) && ListOf(s.byKey, w) != []
    ensures Inv(WakeFirst(s, w))
  {
    ForgetKeepsIndexed(s, w);
    ForgetKeepsQueues(s, w);
    DrainKeepsQueues(Forget(s, w), s.byKey[w][0].origin);
    WakeFirstKeepsHeads(s, w);
    SameIndexes(Forget(s, w), WakeFirst(s, w));
  }

  /** Waking keeps the invariant too, and leaves nobody waiting for what has happened. */
  lemma {:induction false} RemasterDoneKeepsInv(s: State, w: Wait)
    requires Inv(s)
    ensures Inv(RemasterDone(s, w)) && w !in RemasterDone(s, w).byKey
    decreases |ListOf(s.byKey, w)|
  {
    if ListOf(s.byKey, w) != [] {
      WakeFirstKeepsInv(s, w);
      RemasterDoneKeepsInv(WakeFirst(s, w), w);
    }
  }

  /** When the first waiter for `w` has nothing left to wait for, its queue has a front to look at. */
  predicate FrontDefined(s: State, w: Wait)
    requires ListOf(s.byKey, w) != []
  {
    IsFreed(s, w) ==> QueueOf(s, s.byKey[w][0].origin) != []
  }

  /** Waking on `w` never looks at the front of an empty queue. */
  predicate WakesDefined(s: State, w: Wait)
    decreases |ListOf(s.byKey, w)|
  {
    ListOf(s.byKey, w) == [] || (FrontDefined(s, w) && WakesDefined(WakeFirst(s, w), w))
  }

  lemma {:induction false} InvDefinesWakes(s: State, w: Wait)
    requires Inv(s)
    ensures WakesDefined(s, w)
    decreases |ListOf(s.byKey, w)|
  {
    if ListOf(s.byKey, w) != [] {
      HeadOfList(s, w);
      assert Queued(s, s.byKey[w][0]);
      WakeFirstKeepsInv(s, w);
      InvDefinesWakes(WakeFirst(s, w), w);
    }
  }
}
