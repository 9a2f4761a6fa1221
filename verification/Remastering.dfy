/** One replica in mode 2: masters move, transactions abort, and locks may be requested in any order. */
module Remastering {
  import opened Txns
  import opened LockSpec
  import opened Exchange

  type Records = map<Key, Record>

  /** What a committed transaction writes, a remaster its record's new master and counter, is an arbitrary function of what
      it reads. */
  datatype World = World(machines: nat, partition: Key -> nat, execute: (Txn, Records) -> Records, initial: Records)
  {
    function Config(m: nat): NodeConfig {
      NodeConfig(2, m, partition)
    }
  }

  /** A copy of a transaction at a machine: the shard that works on the records mastered where the copy comes from. */
  type Part = (nat, Txn)

  function KeysAt(w: World, p: Part): set<Key> {
    Keys(w.Config(p.0), p.1)
  }

  function WritesAt(w: World, p: Part): set<Key> {
    WriteKeys(w.Config(p.0), p.1)
  }

  /** The part of the transaction that reads the entry. */
  function PartFor(w: World, t: Txn, e: KeyEntry): Part {
    (w.partition(e.key), t.(origin := e.master))
  }

  function Parts(w: World, t: Txn): set<Part> {
    set e | e in Entries(t) :: PartFor(w, t, e)
  }

  /** Partition and origin of each part. */
  function ShardsOf(w: World, t: Txn): set<Shard> {
    set e | e in Entries(t) :: (w.partition(e.key), e.master)
  }

  function Keyed(t: Txn): set<Key> {
    set e | e in Entries(t) :: e.key
  }

  function Written(t: Txn): set<Key> {
    set e | e in t.readWriteSet :: e.key
  }

  /** `readings` is what a transaction's parts have read, `begun` which of them have; those in `early` were found doomed before,
      and those in `unlocked` have no locks. `log` records the transactions in the order in which the last of their parts
      began, if all have locks. */
  datatype State = State(locks: map<nat, LockState>, locked: map<nat, seq<Txn>>, store: Records,
                         readings: map<(Txn, Key), Record>, begun: set<Part>, early: set<Part>, unlocked: set<Part>,
                         delivered: set<(Part, Part)>, decided: map<Part, bool>, written: set<(Txn, Key)>,
                         released: set<Part>, log: seq<Txn>)

  datatype Event =
    | Request(m: nat, u: Txn)
    | Begin(p: Part, early: bool)
    | BeginUnlocked(p: Part)
    | Send(from: Part, to: Part)
    | Decide(p: Part)
    | Write(p: Part, k: Key)
    | Release(p: Part)

  predicate IsMachine(w: World, m: nat) {
    m < w.machines
  }

  function Start(w: World): State {
    State(map m: nat | m < w.machines && IsMachine(w, m) :: Empty, map m: nat | m < w.machines && IsMachine(w, m) :: [],
          w.initial, map[], {}, {}, {}, {}, map[], {}, {}, [])
  }

  /** A copy of a transaction with distinct stored keys, with something to do at machine `m`; copies are told apart by their
      origin alone. */
  predicate IsCopy(w: World, m: nat, u: Txn) {
    m < w.machines && !u.newGenerated && DistinctKeys(u) && Keyed(u) <= w.initial.Keys && KeysAt(w, (m, u)) != {}
  }

  /** Some entry of the part is behind storage. */
  predicate Behind(w: World, s: State, p: Part) {
    exists e :: e in Entries(p.1) && PartFor(w, Strip(p.1), e) == p && e.key in s.store && e.counter < s.store[e.key].counter
  }

  function PairsOf(t: Txn, keys: set<Key>): set<(Txn, Key)> {
    set k | k in keys :: (t, k)
  }

  /** Reading the records of a part. */
  function ReadsOf(w: World, s: State, p: Part): map<(Txn, Key), Record> {
    map x | x in PairsOf(Strip(p.1), KeysAt(w, p)) && x.1 in s.store :: s.store[x.1]
  }

  /** What is known of the transaction's records once all its parts have been heard. */
  function Objects(s: State, t: Txn): Records {
    map k | k in Keyed(t) && (t, k) in s.readings :: s.readings[(t, k)]
  }

  predicate HeardAll(w: World, s: State, p: Part) {
    forall q :: q in Parts(w, Strip(p.1)) && q != p ==> (q, p) in s.delivered
  }

  predicate OwnMatch(w: World, s: State, p: Part) {
    forall e :: e in Entries(p.1) && PartFor(w, Strip(p.1), e) == p ==> ObjectMatches(Objects(s, Strip(p.1)), e)
  }

  /** The shard's decision, with its short cuts. */
  predicate Verdict(w: World, s: State, p: Part) {
    var t := Strip(p.1);
    Commits(t, Manager(Objects(s, t), [], OwnMatch(w, s, p), ShardsOf(w, t), {}, p in s.early))
  }

  function Output(w: World, t: Txn, objects: Records): Records {
    var out := w.execute(t, objects);
    map k | k in Written(t) && k in out :: out[k]
  }

  /** The part has decided, and written everything if it commits. */
  predicate Done(w: World, s: State, p: Part) {
    p in s.decided && (s.decided[p] ==> forall k :: k in WritesAt(w, p) ==> (Strip(p.1), k) in s.written)
  }

  ghost predicate Enabled(w: World, s: State, e: Event) {
    match e
    case Request(m, u) => IsCopy(w, m, u) && m in s.locks && m in s.locked && u !in s.locked[m] && (m, u) !in s.unlocked
    case Begin(p, early) =>
      p.0 in s.locks && p.1 in s.locks[p.0].ready && p !in s.begun && (early ==> Behind(w, s, p))
    case BeginUnlocked(p) =>
      IsCopy(w, p.0, p.1) && p !in s.begun && Behind(w, s, p) && (p.0 in s.locked ==> p.1 !in s.locked[p.0])
    case Send(p, q) => p in s.begun && q in Parts(w, Strip(p.1)) && q != p && WritesAt(w, q) != {}
    case Decide(p) => p in s.begun && p !in s.decided && HeardAll(w, s, p)
    case Write(p, k) => p in s.decided && s.decided[p] && k in WritesAt(w, p) && (Strip(p.1), k) !in s.written
    case Release(p) =>
      && Done(w, s, p) && p !in s.released && p !in s.unlocked
      && p.0 in s.locks && Releasable(s.locks[p.0], Held(w.Config(p.0), p.1))
  }

  /** The log, once part `p` has begun. */
  function Logged(w: World, s: State, p: Part): seq<Txn> {
    if Parts(w, Strip(p.1)) <= s.begun + {p} && Parts(w, Strip(p.1)) !! s.unlocked then s.log + [Strip(p.1)] else s.log
  }

  ghost function Apply(w: World, s: State, e: Event): State
    requires Enabled(w, s, e)
  {
    match e
    case Request(m, u) =>
      s.(locks := s.locks[m := LockOp(w.Config(m), s.locks[m], u).0], locked := s.locked[m := s.locked[m] + [u]])
    case Begin(p, early) =>
      s.(readings := s.readings + ReadsOf(w, s, p), begun := s.begun + {p}, early := if early then s.early + {p} else s.early,
         log := Logged(w, s, p))
    case BeginUnlocked(p) =>
      s.(readings := s.readings + ReadsOf(w, s, p), begun := s.begun + {p}, early := s.early + {p}, unlocked := s.unlocked + {p})
    case Send(p, q) => s.(delivered := s.delivered + {(p, q)})
    case Decide(p) => s.(decided := s.decided[p := Verdict(w, s, p)])
    case Write(p, k) =>
      var out := Output(w, Strip(p.1), Objects(s, Strip(p.1)));
      s.(store := if k in out then s.store[k := out[k]] else s.store, written := s.written + {(Strip(p.1), k)})
    case Release(p) =>
      s.(locks := s.locks[p.0 := ReleaseAll(s.locks[p.0], Held(w.Config(p.0), p.1), p.1)], released := s.released + {p})
  }

  function Before(run: seq<Event>): seq<Event>
    requires run != []
  {
    run[..|run| - 1]
  }

  ghost predicate ValidRun(w: World, run: seq<Event>)
    decreases |run|, 0
  {
    run == [] || (ValidRun(w, Before(run)) && Enabled(w, After(w, Before(run)), run[|run| - 1]))
  }

  ghost function After(w: World, run: seq<Event>): State
    requires ValidRun(w, run)
    decreases |run|, 1
  {
    if run == [] then Start(w) else Apply(w, After(w, Before(run)), run[|run| - 1])
  }

  // -------- one at a time

  predicate AllCurrent(records: Records, t: Txn) {
    forall e :: e in Entries(t) ==> ObjectMatches(records, e)
  }

  function Seen(records: Records, t: Txn): Records {
    map k | k in Keyed(t) && k in records :: records[k]
  }

  /** A transaction alone: it commits if every entry names the record's master and counter. */
  function RunOne(w: World, records: Records, t: Txn): Records {
    if AllCurrent(records, t) then records + Output(w, t, Seen(records, t)) else records
  }

  function RunAll(w: World, log: seq<Txn>): Records {
    if log == [] then w.initial else RunOne(w, RunAll(w, log[..|log| - 1]), log[|log| - 1])
  }

  /** What `t` leaves behind when it runs alone: nothing changes unless each record that it names has the master and counter
      named; then the logic is given the records named, and its results for those in the read-write set replace them. */
  ghost predicate RunsAlone(execute: (Txn, Records) -> Records, t: Txn, before: Records, after: Records) {
    var values := execute(t, map k | k in before && NamedIn(Entries(t), k) :: before[k]);
    var commits := forall e :: e in Entries(t) ==>
                     e.key in before && before[e.key].master == e.master && before[e.key].counter == e.counter;
    forall k ::
      var replaced := commits && NamedIn(t.readWriteSet, k) && k in values;
      && (k in after <==> k in before || replaced)
      && (k in after ==> after[k] == if replaced then values[k] else before[k])
  }

  ghost predicate OneByOne(execute: (Txn, Records) -> Records, initial: Records, order: seq<Txn>, history: seq<Records>) {
    && |history| == |order| + 1 && history[0] == initial
    && forall i :: 0 <= i < |order| ==> RunsAlone(execute, order[i], history[i], history[i + 1])
  }

  /** The records that running the transactions of `order` one by one ends with. */
  ghost predicate EndsWith(execute: (Txn, Records) -> Records, initial: Records, order: seq<Txn>, end: Records) {
    exists history :: OneByOne(execute, initial, order, history) && history[|order|] == end
  }
}
