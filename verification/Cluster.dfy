/** One replica of the original CalvinDB (mode 0): nodes that lock, read record by record, exchange what they
    read, compute and write record by record, each step at any time its guard allows. */
module Cluster {
  import opened Txns
  import opened LockQueue
  import opened LockSpec

  type Value = string
  type Store = map<Key, Value>

  /** What a run is about: the agreed order, the placement of keys, the initial records, and the
      transaction logic, an arbitrary function of the values read. */
  datatype World = World(nodes: nat, partition: Key -> nat, order: seq<Txn>, initial: Store,
                         execute: (Txn, Store) -> Store)
  {
    function Config(n: nat): NodeConfig {
      NodeConfig(0, n, partition)
    }
  }

  function AllKeys(t: Txn): set<Key> {
    set e | e in t.readWriteSet + t.readSet :: e.key
  }

  function AllWriteKeys(t: Txn): set<Key> {
    set e | e in t.readWriteSet :: e.key
  }

  /** Node `n` takes part in `t` when it stores one of its keys. */
  predicate Participates(w: World, n: nat, t: Txn) {
    Keys(w.Config(n), t) != {}
  }

  predicate Writes(w: World, n: nat, t: Txn) {
    WriteKeys(w.Config(n), t) != {}
  }

  ghost predicate ValidWorld(w: World) {
    && NoDuplicates(w.order)
    && (forall i :: 0 <= i < |w.order| ==> DistinctKeys(w.order[i]) && AllKeys(w.order[i]) <= w.initial.Keys)
    && (forall k :: w.partition(k) < w.nodes)
  }

  function Restrict(s: Store, keys: set<Key>): Store {
    map k | k in keys && k in s :: s[k]
  }

  /** The values `t` writes, given the values of all its keys. */
  function Output(w: World, t: Txn, view: Store): Store {
    Restrict(w.execute(t, view), AllWriteKeys(t))
  }

  /** The store after running the first `i` transactions one by one. */
  ghost function Serial(w: World, i: nat): Store
    requires i <= |w.order|
  {
    if i == 0 then
      w.initial
    else
      var before := Serial(w, i - 1);
      var t := w.order[i - 1];
      before + Output(w, t, Restrict(before, AllKeys(t)))
  }

  // ---------------------------------------------------------------- One transaction after another

  /** What `t` leaves behind when it runs alone: the logic is given the values of the records that `t` names, and the
      values it returns for the records in the read-write set replace the old ones; nothing else changes. */
  ghost predicate RunsAlone(execute: (Txn, Store) -> Store, t: Txn, before: Store, after: Store) {
    var values := execute(t, map k | k in before && NamedIn(Entries(t), k) :: before[k]);
    forall k ::
      && (k in after <==> k in before || (NamedIn(t.readWriteSet, k) && k in values))
      && (k in after ==> after[k] == if NamedIn(t.readWriteSet, k) && k in values then values[k] else before[k])
  }

  /** `history` holds the records before the first of the transactions, and behind each of them. */
  ghost predicate OneByOne(execute: (Txn, Store) -> Store, initial: Store, order: seq<Txn>, history: seq<Store>) {
    && |history| == |order| + 1 && history[0] == initial
    && forall i :: 0 <= i < |order| ==> RunsAlone(execute, order[i], history[i], history[i + 1])
  }

  /** The records that running the transactions of `order` one by one ends with. */
  ghost predicate EndsWith(execute: (Txn, Store) -> Store, initial: Store, order: seq<Txn>, end: Store) {
    exists history :: OneByOne(execute, initial, order, history) && history[|order|] == end
  }

  // ---------------------------------------------------------------- Steps

  /** `data` is the union of the nodes' disjoint stores; `readings` holds what each node has read locally for a
      transaction; `delivered` which (sender, receiver, transaction) messages have arrived; `outputs` what
      each node has computed to write, and `written` which records have been written. */
  datatype State = State(locks: map<nat, LockState>, next: map<nat, nat>, data: Store,
                         readings: map<(nat, Txn), Store>, delivered: set<(nat, nat, Txn)>,
                         outputs: map<(nat, Txn), Store>, written: set<(Txn, Key)>, released: set<(nat, Txn)>)

  datatype Event =
    | Lock(n: nat, t: Txn)
    | Start(n: nat, t: Txn)
    | Read(n: nat, t: Txn, k: Key)
    | Deliver(from: nat, to: nat, t: Txn)
    | Execute(n: nat, t: Txn)
    | Write(n: nat, t: Txn, k: Key)
    | Release(n: nat, t: Txn)

  /** The transactions node `n` receives: the agreed order without those that do not concern it. */
  ghost function LocalOrder(w: World, n: nat, i: nat): seq<Txn>
    requires i <= |w.order|
  {
    if i == 0 then
      []
    else
      LocalOrder(w, n, i - 1) + if Participates(w, n, w.order[i - 1]) then [w.order[i - 1]] else []
  }

  ghost function Input(w: World, n: nat): seq<Txn> {
    LocalOrder(w, n, |w.order|)
  }

  predicate IsNode(w: World, n: nat) {
    n < w.nodes
  }

  ghost function Init(w: World): State {
    State(map n: nat | n < w.nodes && IsNode(w, n) :: Empty, map n: nat | n < w.nodes && IsNode(w, n) :: 0,
          w.initial, map[], {}, map[], {}, {})
  }

  /** Node `n` has read all its records of `t`; then it sends them off. */
  predicate FullyRead(w: World, s: State, n: nat, t: Txn) {
    (n, t) in s.readings && Keys(w.Config(n), t) <= s.readings[(n, t)].Keys
  }

  /** All the values `t` needs are at node `n`: its own, and those its peers sent. */
  ghost predicate HasAllReads(w: World, s: State, n: nat, t: Txn) {
    forall m: nat :: m < w.nodes && Participates(w, m, t) && m != n ==> (m, n, t) in s.delivered
  }

  /** Node `n` has computed and written all its records of `t`. */
  predicate Finished(w: World, s: State, n: nat, t: Txn) {
    (n, t) in s.outputs && forall k :: k in WriteKeys(w.Config(n), t) ==> (t, k) in s.written
  }

  ghost predicate Enabled(w: World, s: State, e: Event) {
    match e
    case Lock(n, t) =>
      n in s.next && n in s.locks && s.next[n] < |Input(w, n)| && Input(w, n)[s.next[n]] == t
    case Start(n, t) =>
      n in s.locks && t in s.locks[n].ready && (n, t) !in s.readings
    case Read(n, t, k) =>
      (n, t) in s.readings && k in Keys(w.Config(n), t) && k !in s.readings[(n, t)] && k in s.data
    case Deliver(m, n, t) =>
      // Reads are sent to the other writers only.
      FullyRead(w, s, m, t) && n < w.nodes && n != m && Writes(w, n, t) && (m, n, t) !in s.delivered
    case Execute(n, t) =>
      FullyRead(w, s, n, t) && (n, t) !in s.outputs && HasAllReads(w, s, n, t)
    case Write(n, t, k) =>
      (n, t) in s.outputs && k in WriteKeys(w.Config(n), t) && (t, k) !in s.written
    case Release(n, t) =>
      Finished(w, s, n, t) && (n, t) !in s.released
      && n in s.locks && Releasable(s.locks[n], Held(w.Config(n), t))
  }

  /** What node `n` sees of the keys of `t`: its own records, and the delivered values of the others. */
  ghost function View(w: World, s: State, n: nat, t: Txn): Store {
    map k | k in AllKeys(t) && (if w.partition(k) == n then k in s.data else Sent(s, w.partition(k), t, k)) ::
      if w.partition(k) == n then s.data[k] else s.readings[(w.partition(k), t)][k]
  }

  predicate Sent(s: State, m: nat, t: Txn, k: Key) {
    (m, t) in s.readings && k in s.readings[(m, t)]
  }

  ghost function Apply(w: World, s: State, e: Event): State
    requires Enabled(w, s, e)
  {
    match e
    case Lock(n, t) =>
      s.(locks := s.locks[n := LockOp(w.Config(n), s.locks[n], t).0], next := s.next[n := s.next[n] + 1])
    case Start(n, t) =>
      s.(readings := s.readings[(n, t) := map[]])
    case Read(n, t, k) =>
      s.(readings := s.readings[(n, t) := s.readings[(n, t)][k := s.data[k]]])
    case Deliver(m, n, t) =>
      s.(delivered := s.delivered + {(m, n, t)})
    case Execute(n, t) =>
      s.(outputs := s.outputs[(n, t) := Output(w, t, View(w, s, n, t))])
    case Write(n, t, k) =>
      s.(data := if k in s.outputs[(n, t)] then s.data[k := s.outputs[(n, t)][k]] else s.data,
         written := s.written + {(t, k)})
    case Release(n, t) =>
      s.(locks := s.locks[n := ReleaseAll(s.locks[n], Held(w.Config(n), t), t)],
         released := s.released + {(n, t)})
  }

  ghost predicate ValidRun(w: World, es: seq<Event>)
    decreases |es|, 0
  {
    es == [] || (ValidRun(w, es[..|es| - 1]) && Enabled(w, After(w, es[..|es| - 1]), es[|es| - 1]))
  }

  ghost function After(w: World, es: seq<Event>): State
    requires ValidRun(w, es)
    decreases |es|, 1
  {
    if es == [] then Init(w) else Apply(w, After(w, es[..|es| - 1]), es[|es| - 1])
  }
}
