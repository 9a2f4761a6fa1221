/** Serial equivalence of every run of the cluster. */
module ClusterSafety {
  import opened Txns
  import opened LockQueue
  import opened LockSpec
  import opened Cluster

  // ---------------------------------------------------------------- Local orders

  lemma {:induction false} LocalPrefix(w: World, n: nat, i: nat, j: nat)
    requires i <= j <= |w.order|
    ensures LocalOrder(w, n, i) <= LocalOrder(w, n, j)
  {
    if i < j {
      LocalPrefix(w, n, i, j - 1);
    }
  }

  /** A participant's transaction sits in its input right behind the earlier ones that concern it. */
  lemma LocalPosition(w: World, n: nat, i: nat, j: nat)
    requires j < i <= |w.order| && Participates(w, n, w.order[j])
    ensures |LocalOrder(w, n, j)| < |LocalOrder(w, n, i)| && LocalOrder(w, n, i)[|LocalOrder(w, n, j)|] == w.order[j]
  {
    LocalPrefix(w, n, j + 1, i);
    assert LocalOrder(w, n, j + 1)[|LocalOrder(w, n, j)|] == w.order[j];
  }

  lemma {:induction false} LocalMembers(w: World, n: nat, i: nat, p: nat) returns (j: nat)
    requires i <= |w.order| && p < |LocalOrder(w, n, i)|
    ensures j < i && w.order[j] == LocalOrder(w, n, i)[p] && Participates(w, n, w.order[j]) && p == |LocalOrder(w, n, j)|
  {
    if p < |LocalOrder(w, n, i - 1)| {
      j := LocalMembers(w, n, i - 1, p);
    } else {
      j := i - 1;
    }
  }

  lemma InputDistinct(w: World, n: nat)
    requires NoDuplicates(w.order)
    ensures NoDuplicates(Input(w, n))
  {
    forall p, q | 0 <= p < q < |Input(w, n)| ensures Input(w, n)[p] != Input(w, n)[q] {
      var i := LocalMembers(w, n, |w.order|, p);
      var j := LocalMembers(w, n, |w.order|, q);
      assert i != j;
    }
  }

  lemma KeysAtNode(w: World, n: nat, t: Txn, k: Key)
    ensures k in Keys(w.Config(n), t) <==> k in AllKeys(t) && w.partition(k) == n
    ensures k in WriteKeys(w.Config(n), t) <==> k in AllWriteKeys(t) && w.partition(k) == n
    ensures k in AllWriteKeys(t) ==> k in AllKeys(t)
  {
    assert k in AllKeys(t) <==> exists e :: e in t.readWriteSet + t.readSet && e.key == k;
    assert k in AllWriteKeys(t) <==> exists e :: e in t.readWriteSet && e.key == k;
  }

  // ---------------------------------------------------------------- Invariant

  ghost function Gone(w: World, s: State, n: nat): set<(Txn, Key)> {
    set p, k | p in s.released && p.0 == n && k in Keys(w.Config(n), p.1) :: (p.1, k)
  }

  ghost predicate NodeInv(w: World, s: State, n: nat) {
    && n in s.locks && n in s.next && s.next[n] <= |Input(w, n)|
    && LockSpec.Inv(w.Config(n), Input(w, n)[..s.next[n]], Gone(w, s, n), {}, s.locks[n])
  }

  ghost predicate LocksInv(w: World, s: State) {
    && (forall n: nat :: n in s.locks ==> n < w.nodes)
    && (forall n: nat :: n < w.nodes ==> NodeInv(w, s, n))
  }

  /** What a node reads for is ready there. */
  ghost predicate ReadsInv(w: World, s: State) {
    forall n, t :: (n, t) in s.readings ==> n in s.locks && t in s.locks[n].ready
  }

  ghost predicate DeliveredInv(w: World, s: State) {
    forall m, n, t :: (m, n, t) in s.delivered ==> FullyRead(w, s, m, t) && Writes(w, n, t)
  }

  ghost predicate ComputedInv(w: World, s: State) {
    forall n, t :: (n, t) in s.outputs ==> FullyRead(w, s, n, t) && HasAllReads(w, s, n, t)
  }

  ghost predicate WrittenInv(w: World, s: State) {
    forall t, k :: (t, k) in s.written ==> k in AllWriteKeys(t) && (w.partition(k), t) in s.outputs
  }

  ghost predicate ReleasedInv(w: World, s: State) {
    forall n, t :: (n, t) in s.released ==> Finished(w, s, n, t)
  }

  /** A transaction passes through reading, exchange, computation, writing and release at a node in this order. */
  ghost predicate PhaseInv(w: World, s: State) {
    ReadsInv(w, s) && DeliveredInv(w, s) && ComputedInv(w, s) && WrittenInv(w, s) && ReleasedInv(w, s)
  }

  /** A node starts a transaction only after it has released every earlier conflicting one. */
  ghost predicate RivalsReleased(w: World, s: State, n: nat, j: nat)
    requires j < |w.order|
  {
    forall i, k :: 0 <= i < j && Conflict(w.Config(n), w.order[i], w.order[j], k) ==> (n, w.order[i]) in s.released
  }

  ghost predicate OrderInv(w: World, s: State) {
    forall n, j :: 0 <= j < |w.order| && (n, w.order[j]) in s.readings ==> RivalsReleased(w, s, n, j)
  }

  /** The writers of `k` that have written it are exactly those before position `c`. */
  ghost predicate Cut(w: World, s: State, k: Key, c: nat) {
    && c <= |w.order|
    && (forall j :: 0 <= j < |w.order| && k in AllWriteKeys(w.order[j]) ==> ((w.order[j], k) in s.written <==> j < c))
  }

  ghost predicate ValueAt(w: World, s: State, k: Key, c: nat) {
    Cut(w, s, k, c) && k in s.data && k in Serial(w, c) && s.data[k] == Serial(w, c)[k]
  }

  ghost predicate HasValue(w: World, s: State, k: Key) {
    exists c :: ValueAt(w, s, k, c)
  }

  /** Every record has the value of the serial execution up to those of its writers that have written it. */
  ghost predicate DataInv(w: World, s: State) {
    s.data.Keys == w.initial.Keys && forall k :: k in w.initial ==> HasValue(w, s, k)
  }

  ghost predicate ReadIs(w: World, s: State, n: nat, i: nat, k: Key)
    requires i < |w.order|
  {
    Sent(s, n, w.order[i], k) ==>
      k in Keys(w.Config(n), w.order[i]) && k in Serial(w, i) && s.readings[(n, w.order[i])][k] == Serial(w, i)[k]
  }

  /** What a node has read for a transaction is what the serial execution would have read. */
  ghost predicate MailInv(w: World, s: State) {
    forall n, i, k :: 0 <= i < |w.order| ==> ReadIs(w, s, n, i, k)
  }

  /** What the serial execution reads for its `i`-th transaction. */
  ghost function SerialView(w: World, i: nat): Store
    requires i < |w.order|
  {
    Restrict(Serial(w, i), AllKeys(w.order[i]))
  }

  /** What a node has computed is what the serial execution computes. */
  ghost predicate OutputInv(w: World, s: State) {
    forall n, i :: 0 <= i < |w.order| && (n, w.order[i]) in s.outputs ==>
      s.outputs[(n, w.order[i])] == Output(w, w.order[i], SerialView(w, i))
  }

  ghost predicate ClusterInv(w: World, s: State) {
    LocksInv(w, s) && PhaseInv(w, s) && OrderInv(w, s) && DataInv(w, s) && MailInv(w, s) && OutputInv(w, s)
  }

  // ---------------------------------------------------------------- The serial execution

  lemma {:induction false} SerialKeys(w: World, i: nat)
    requires ValidWorld(w) && i <= |w.order|
    ensures Serial(w, i).Keys == w.initial.Keys
  {
    if i > 0 {
      SerialKeys(w, i - 1);
      var t := w.order[i - 1];
      forall k | k in AllWriteKeys(t) ensures k in w.initial {
        KeysAtNode(w, 0, t, k);
      }
    }
  }

  lemma NamedKeys(t: Txn, k: Key)
    ensures NamedIn(Entries(t), k) <==> k in AllKeys(t)
    ensures NamedIn(t.readWriteSet, k) <==> k in AllWriteKeys(t)
  {
    assert forall e :: e in Entries(t) <==> e in t.readWriteSet + t.readSet;
  }

  /** The view of a transaction that runs behind `i` others holds their values of exactly the records it names. */
  lemma SerialViewHolds(w: World, i: nat)
    requires i < |w.order|
    ensures forall k :: k in SerialView(w, i) <==> k in Serial(w, i) && NamedIn(Entries(w.order[i]), k)
    ensures forall k :: k in SerialView(w, i) ==> SerialView(w, i)[k] == Serial(w, i)[k]
  {
    forall k ensures NamedIn(Entries(w.order[i]), k) <==> k in AllKeys(w.order[i]) {
      NamedKeys(w.order[i], k);
    }
  }

  /** One step of the serial execution: the logic computes from the values that the transactions before left in the records
      named, its values for records in the read-write set take effect, and all others stay. */
  lemma SerialStepComputes(w: World, i: nat, view: Store)
    requires i < |w.order|
    requires forall k :: k in view <==> k in Serial(w, i) && NamedIn(Entries(w.order[i]), k)
    requires forall k :: k in view ==> view[k] == Serial(w, i)[k]
    ensures Serial(w, 0) == w.initial
    ensures var t, values := w.order[i], w.execute(w.order[i], view);
            && (forall k :: NamedIn(t.readWriteSet, k) && k in values ==>
                  k in Serial(w, i + 1) && Serial(w, i + 1)[k] == values[k])
            && (forall k :: !(NamedIn(t.readWriteSet, k) && k in values) ==>
                  (k in Serial(w, i + 1) <==> k in Serial(w, i))
                  && (k in Serial(w, i) ==> Serial(w, i + 1)[k] == Serial(w, i)[k]))
  {
    SerialViewHolds(w, i);
    assert view == SerialView(w, i);
    forall k ensures NamedIn(w.order[i].readWriteSet, k) <==> k in AllWriteKeys(w.order[i]) {
      NamedKeys(w.order[i], k);
    }
  }

  lemma AloneIsDetermined(execute: (Txn, Store) -> Store, t: Txn, before: Store, one: Store, other: Store)
    requires RunsAlone(execute, t, before, one) && RunsAlone(execute, t, before, other)
    ensures one == other
  {
    forall k ensures k in one <==> k in other {
    }
  }

  lemma SerialRunsAlone(w: World, i: nat)
    requires i < |w.order|
    ensures RunsAlone(w.execute, w.order[i], Serial(w, i), Serial(w, i + 1))
  {
    var t, before := w.order[i], Serial(w, i);
    SerialStepComputes(w, i, map k | k in before && NamedIn(Entries(t), k) :: before[k]);
  }

  lemma {:induction false} SerialIsOneByOneTo(w: World, history: seq<Store>, n: nat)
    requires n <= |w.order| && OneByOne(w.execute, w.initial, w.order, history)
    ensures history[n] == Serial(w, n)
  {
    if n > 0 {
      SerialIsOneByOneTo(w, history, n - 1);
      SerialRunsAlone(w, n - 1);
      AloneIsDetermined(w.execute, w.order[n - 1], Serial(w, n - 1), history[n], Serial(w, n));
    }
  }

  /** The serial execution is the only way to run the order one transaction after another. */
  lemma SerialIsOneByOne(w: World, history: seq<Store>)
    ensures OneByOne(w.execute, w.initial, w.order, history) <==>
            |history| == |w.order| + 1 && forall i :: 0 <= i <= |w.order| ==> history[i] == Serial(w, i)
  {
    if OneByOne(w.execute, w.initial, w.order, history) {
      forall i | 0 <= i <= |w.order| ensures history[i] == Serial(w, i) {
        SerialIsOneByOneTo(w, history, i);
      }
    } else if |history| == |w.order| + 1 && forall i :: 0 <= i <= |w.order| ==> history[i] == Serial(w, i) {
      forall i | 0 <= i < |w.order| ensures RunsAlone(w.execute, w.order[i], history[i], history[i + 1]) {
        SerialRunsAlone(w, i);
      }
    }
  }

  lemma SerialEndsWith(w: World, end: Store)
    ensures EndsWith(w.execute, w.initial, w.order, end) <==> end == Serial(w, |w.order|)
  {
    var stores := seq(|w.order| + 1, i requires 0 <= i <= |w.order| => Serial(w, i));
    SerialIsOneByOne(w, stores);
    forall history | OneByOne(w.execute, w.initial, w.order, history) ensures history[|w.order|] == Serial(w, |w.order|) {
      SerialIsOneByOne(w, history);
    }
  }

  lemma SerialUnwritten(w: World, i: nat, k: Key)
    requires i < |w.order| && k in Serial(w, i) && k !in AllWriteKeys(w.order[i])
    ensures k in Serial(w, i + 1) && Serial(w, i + 1)[k] == Serial(w, i)[k]
  {
  }

  /** A record keeps its value while no transaction writes it. */
  lemma {:induction false} SerialStable(w: World, k: Key, a: nat, b: nat)
    requires a <= b <= |w.order| && k in Serial(w, a)
    requires forall j :: a <= j < b ==> k !in AllWriteKeys(w.order[j])
    ensures k in Serial(w, b) && Serial(w, b)[k] == Serial(w, a)[k]
    decreases b - a
  {
    if a < b {
      SerialUnwritten(w, a, k);
      SerialStable(w, k, a + 1, b);
    }
  }

  lemma CutsAgree(w: World, s: State, k: Key, a: nat, b: nat)
    requires Cut(w, s, k, a) && Cut(w, s, k, b) && k in Serial(w, a) && k in Serial(w, b)
    ensures Serial(w, a)[k] == Serial(w, b)[k]
  {
    if a <= b {
      SerialStable(w, k, a, b);
    } else {
      SerialStable(w, k, b, a);
    }
  }

  /** Whoever writes a record at a node with a later place waits for the earlier to be released there. */
  lemma LaterHasNotWritten(w: World, s: State, i: nat, j: nat, k: Key)
    requires OrderInv(w, s) && PhaseInv(w, s) && i < j < |w.order|
    requires k in AllKeys(w.order[i]) && k in AllWriteKeys(w.order[j]) && (w.partition(k), w.order[i]) !in s.released
    ensures (w.order[j], k) !in s.written
  {
    var n := w.partition(k);
    KeysAtNode(w, n, w.order[i], k);
    KeysAtNode(w, n, w.order[j], k);
    if (w.order[j], k) in s.written {
      assert (n, w.order[j]) in s.readings && RivalsReleased(w, s, n, j);
      assert Conflict(w.Config(n), w.order[i], w.order[j], k);
    }
  }

  lemma EarlierHasWritten(w: World, s: State, i: nat, j: nat, k: Key)
    requires PhaseInv(w, s) && j < i < |w.order| && RivalsReleased(w, s, w.partition(k), i)
    requires k in AllKeys(w.order[i]) && k in AllWriteKeys(w.order[j])
    ensures (w.order[j], k) in s.written
  {
    var n := w.partition(k);
    KeysAtNode(w, n, w.order[i], k);
    KeysAtNode(w, n, w.order[j], k);
    assert Conflict(w.Config(n), w.order[j], w.order[i], k);
    assert Finished(w, s, n, w.order[j]);
  }

  lemma CutWhileLocked(w: World, s: State, i: nat, k: Key)
    requires OrderInv(w, s) && PhaseInv(w, s)
    requires i < |w.order| && k in AllKeys(w.order[i]) && (w.order[i], k) !in s.written
    requires (w.partition(k), w.order[i]) !in s.released && RivalsReleased(w, s, w.partition(k), i)
    ensures Cut(w, s, k, i)
  {
    forall j | 0 <= j < |w.order| && k in AllWriteKeys(w.order[j]) ensures (w.order[j], k) in s.written <==> j < i {
      if j < i {
        EarlierHasWritten(w, s, i, j, k);
      } else if j > i {
        LaterHasNotWritten(w, s, i, j, k);
      }
    }
  }

  lemma ValueAtCut(w: World, s: State, i: nat, k: Key)
    requires ValidWorld(w) && HasValue(w, s, k) && Cut(w, s, k, i) && k in w.initial
    ensures ValueAt(w, s, k, i)
  {
    SerialKeys(w, i);
    var c :| ValueAt(w, s, k, c);
    CutsAgree(w, s, k, i, c);
  }

  /** While a transaction is at work at a node, the node's records of it that it has not written are the serial ones. */
  lemma DataWhileLocked(w: World, s: State, i: nat, k: Key)
    requires ValidWorld(w) && DataInv(w, s) && OrderInv(w, s) && PhaseInv(w, s)
    requires i < |w.order| && k in AllKeys(w.order[i]) && (w.order[i], k) !in s.written
    requires (w.partition(k), w.order[i]) !in s.released && RivalsReleased(w, s, w.partition(k), i)
    ensures ValueAt(w, s, k, i)
  {
    CutWhileLocked(w, s, i, k);
    assert k in w.initial;
    assert HasValue(w, s, k);
    ValueAtCut(w, s, i, k);
  }

  /** A transaction that a node has yet to compute has neither written there nor been released. */
  lemma NotYetComputed(w: World, s: State, n: nat, t: Txn, k: Key)
    requires PhaseInv(w, s) && (n, t) !in s.outputs && w.partition(k) == n
    ensures (t, k) !in s.written && (n, t) !in s.released
  {
  }

  lemma ReadIsSerial(w: World, s: State, n: nat, i: nat, k: Key)
    requires ValidWorld(w) && ClusterInv(w, s)
    requires i < |w.order| && (n, w.order[i]) in s.readings && (n, w.order[i]) !in s.outputs
    requires HasAllReads(w, s, n, w.order[i]) && k in AllKeys(w.order[i])
    ensures k in View(w, s, n, w.order[i]) && k in Serial(w, i)
    ensures View(w, s, n, w.order[i])[k] == Serial(w, i)[k]
  {
    var t := w.order[i];
    var m := w.partition(k);
    KeysAtNode(w, m, t, k);
    if m == n {
      NotYetComputed(w, s, n, t, k);
      DataWhileLocked(w, s, i, k);
    } else {
      assert Participates(w, m, t);
      assert (m, n, t) in s.delivered && FullyRead(w, s, m, t);
      assert ReadIs(w, s, m, i, k);
    }
  }

  /** A node about to execute a transaction sees exactly what the serial execution reads. */
  lemma ExecutionSeesSerialReads(w: World, s: State, n: nat, i: nat)
    requires ValidWorld(w) && ClusterInv(w, s)
    requires i < |w.order| && Enabled(w, s, Event.Execute(n, w.order[i]))
    ensures View(w, s, n, w.order[i]) == SerialView(w, i)
  {
    forall k | k in AllKeys(w.order[i])
      ensures k in View(w, s, n, w.order[i]) && k in Serial(w, i)
      ensures View(w, s, n, w.order[i])[k] == Serial(w, i)[k]
    {
      ReadIsSerial(w, s, n, i, k);
    }
  }

  // ---------------------------------------------------------------- Steps keep the invariant

  lemma GoneMembers(w: World, s: State, n: nat, t: Txn, k: Key)
    ensures (t, k) in Gone(w, s, n) <==> (n, t) in s.released && k in Keys(w.Config(n), t)
  {
    if (n, t) in s.released && k in Keys(w.Config(n), t) {
      var p := (n, t);
      assert p in s.released;
    }
  }

  /** Who is ready at a node has been locked there, at a place given by the agreed order. */
  lemma ReadyIsLocked(w: World, s: State, n: nat, t: Txn) returns (j: nat)
    requires ValidWorld(w) && n < w.nodes && NodeInv(w, s, n) && t in s.locks[n].ready
    ensures j < |w.order| && w.order[j] == t && Participates(w, n, t)
    ensures |LocalOrder(w, n, j)| < s.next[n] && Input(w, n)[|LocalOrder(w, n, j)|] == t
  {
    var locked := Input(w, n)[..s.next[n]];
    var p :| 0 <= p < |locked| && locked[p] == t;
    j := LocalMembers(w, n, |w.order|, p);
  }

  lemma StartHasNoRivals(w: World, s: State, n: nat, t: Txn, j: nat)
    requires ValidWorld(w) && LocksInv(w, s) && PhaseInv(w, s)
    requires Enabled(w, s, Event.Start(n, t)) && j < |w.order| && w.order[j] == t
    ensures RivalsReleased(w, s, n, j)
  {
    var h := ReadyIsLocked(w, s, n, t);
    assert h == j;
    var locked := Input(w, n)[..s.next[n]];
    forall i, k | 0 <= i < j && Conflict(w.Config(n), w.order[i], t, k) ensures (n, w.order[i]) in s.released {
      LocalPosition(w, n, j, i);
      LocalPosition(w, n, |w.order|, i);
      GoneMembers(w, s, n, t, k);
      GoneMembers(w, s, n, w.order[i], k);
      ReadyHasNoRival(w.Config(n), locked, Gone(w, s, n), {}, s.locks[n], |LocalOrder(w, n, i)|, |LocalOrder(w, n, j)|, k);
    }
  }

  lemma NodeFrame(w: World, s: State, s': State, m: nat)
    requires NodeInv(w, s, m) && m in s'.locks && m in s'.next
    requires s'.locks[m] == s.locks[m] && s'.next[m] == s.next[m]
    requires forall t :: (m, t) in s'.released <==> (m, t) in s.released
    ensures NodeInv(w, s', m)
  {
    forall t, k ensures (t, k) in Gone(w, s', m) <==> (t, k) in Gone(w, s, m) {
      GoneMembers(w, s, m, t, k);
      GoneMembers(w, s', m, t, k);
    }
    assert Gone(w, s', m) == Gone(w, s, m);
  }

  /** The next transaction a node locks is in the agreed order. */
  lemma NextLocked(w: World, s: State, n: nat, t: Txn)
    requires ValidWorld(w) && NodeInv(w, s, n) && Enabled(w, s, Event.Lock(n, t))
    ensures var locked := Input(w, n)[..s.next[n]];
            Input(w, n)[..s.next[n] + 1] == locked + [t] && t !in locked && NoDuplicates(locked + [t]) && DistinctKeys(t)
  {
    var input := Input(w, n);
    InputDistinct(w, n);
    assert input[..s.next[n] + 1] == input[..s.next[n]] + [t];
    var j := LocalMembers(w, n, |w.order|, s.next[n]);
  }

  lemma LockKeepsNode(w: World, s: State, n: nat, t: Txn)
    requires ValidWorld(w) && NodeInv(w, s, n) && Enabled(w, s, Event.Lock(n, t))
    ensures NodeInv(w, Apply(w, s, Event.Lock(n, t)), n)
  {
    var s' := Apply(w, s, Event.Lock(n, t));
    NextLocked(w, s, n, t);
    assert Gone(w, s', n) == Gone(w, s, n);
    LockKeepsInv(w.Config(n), Input(w, n)[..s.next[n]], Gone(w, s, n), {}, s.locks[n], t);
  }

  lemma LockKeepsLocks(w: World, s: State, n: nat, t: Txn)
    requires ValidWorld(w) && LocksInv(w, s) && Enabled(w, s, Event.Lock(n, t))
    ensures LocksInv(w, Apply(w, s, Event.Lock(n, t)))
  {
    var s' := Apply(w, s, Event.Lock(n, t));
    LockKeepsNode(w, s, n, t);
    forall m: nat | m < w.nodes && m != n ensures NodeInv(w, s', m) {
      NodeFrame(w, s, s', m);
    }
  }

  lemma ReleaseKeepsNode(w: World, s: State, n: nat, t: Txn)
    requires ValidWorld(w) && NodeInv(w, s, n) && n < w.nodes && Enabled(w, s, Event.Release(n, t))
    requires t in s.locks[n].ready
    ensures NodeInv(w, Apply(w, s, Event.Release(n, t)), n)
  {
    var s' := Apply(w, s, Event.Release(n, t));
    var j := ReadyIsLocked(w, s, n, t);
    forall k ensures (t, k) !in Gone(w, s, n) {
      GoneMembers(w, s, n, t, k);
    }
    ReleaseKeepsInv(w.Config(n), Input(w, n)[..s.next[n]], Gone(w, s, n), {}, s.locks[n], t);
    forall u, k ensures (u, k) in Gone(w, s', n) <==> (u, k) in GoneWith(w.Config(n), Gone(w, s, n), t) {
      GoneMembers(w, s, n, u, k);
      GoneMembers(w, s', n, u, k);
    }
    assert Gone(w, s', n) == GoneWith(w.Config(n), Gone(w, s, n), t);
  }

  lemma ReleaseKeepsLocks(w: World, s: State, n: nat, t: Txn)
    requires ValidWorld(w) && LocksInv(w, s) && PhaseInv(w, s) && Enabled(w, s, Event.Release(n, t))
    ensures LocksInv(w, Apply(w, s, Event.Release(n, t)))
  {
    var s' := Apply(w, s, Event.Release(n, t));
    ReleaseKeepsNode(w, s, n, t);
    forall m: nat | m < w.nodes && m != n ensures NodeInv(w, s', m) {
      NodeFrame(w, s, s', m);
    }
  }

  lemma OtherStepKeepsLocks(w: World, s: State, s': State)
    requires LocksInv(w, s) && s'.locks == s.locks && s'.next == s.next && s'.released == s.released
    ensures LocksInv(w, s')
  {
    forall m: nat | m < w.nodes ensures NodeInv(w, s', m) {
      NodeFrame(w, s, s', m);
    }
  }

  lemma ReadsKept(w: World, s: State, e: Event)
    requires ReadsInv(w, s) && Enabled(w, s, e)
    ensures ReadsInv(w, Apply(w, s, e))
  {
    var s' := Apply(w, s, e);
    if e.Release? {
      ReleaseAppendsToReady(s.locks[e.n], Held(w.Config(e.n), e.t), e.t);
    }
    forall n, t | (n, t) in s'.readings ensures n in s'.locks && t in s'.locks[n].ready {
      assert n in s.locks && t in s.locks[n].ready;
    }
  }

  lemma FullyReadLasts(w: World, s: State, e: Event, n: nat, t: Txn)
    requires Enabled(w, s, e) && FullyRead(w, s, n, t)
    ensures FullyRead(w, Apply(w, s, e), n, t)
  {
  }

  lemma DeliveredKept(w: World, s: State, e: Event)
    requires DeliveredInv(w, s) && Enabled(w, s, e)
    ensures DeliveredInv(w, Apply(w, s, e))
  {
    var s' := Apply(w, s, e);
    forall m, n, t | (m, n, t) in s'.delivered ensures FullyRead(w, s', m, t) && Writes(w, n, t) {
      FullyReadLasts(w, s, e, m, t);
    }
  }

  lemma ComputedKept(w: World, s: State, e: Event)
    requires ComputedInv(w, s) && Enabled(w, s, e)
    ensures ComputedInv(w, Apply(w, s, e))
  {
    var s' := Apply(w, s, e);
    forall n, t | (n, t) in s'.outputs ensures FullyRead(w, s', n, t) && HasAllReads(w, s', n, t) {
      FullyReadLasts(w, s, e, n, t);
      assert HasAllReads(w, s, n, t);
    }
  }

  lemma WrittenKept(w: World, s: State, e: Event)
    requires WrittenInv(w, s) && Enabled(w, s, e)
    ensures WrittenInv(w, Apply(w, s, e))
  {
    if e.Write? {
      KeysAtNode(w, e.n, e.t, e.k);
    }
  }

  lemma ReleasedKept(w: World, s: State, e: Event)
    requires ReleasedInv(w, s) && Enabled(w, s, e)
    ensures ReleasedInv(w, Apply(w, s, e))
  {
    var s' := Apply(w, s, e);
    forall n, t | (n, t) in s'.released ensures Finished(w, s', n, t) {
      assert Finished(w, s, n, t);
    }
  }

  lemma PhasesKept(w: World, s: State, e: Event)
    requires PhaseInv(w, s) && Enabled(w, s, e)
    ensures PhaseInv(w, Apply(w, s, e))
  {
    ReadsKept(w, s, e);
    DeliveredKept(w, s, e);
    ComputedKept(w, s, e);
    WrittenKept(w, s, e);
    ReleasedKept(w, s, e);
  }

  lemma OrderKept(w: World, s: State, e: Event)
    requires ValidWorld(w) && LocksInv(w, s) && PhaseInv(w, s) && OrderInv(w, s) && Enabled(w, s, e)
    ensures OrderInv(w, Apply(w, s, e))
  {
    var s' := Apply(w, s, e);
    forall n, j | 0 <= j < |w.order| && (n, w.order[j]) in s'.readings ensures RivalsReleased(w, s', n, j) {
      if e == Event.Start(n, w.order[j]) {
        StartHasNoRivals(w, s, n, w.order[j], j);
      } else {
        assert RivalsReleased(w, s, n, j);
      }
    }
  }

  /** A node reads the serial value of a record. */
  lemma ReadReadsSerial(w: World, s: State, n: nat, i: nat, k: Key)
    requires ValidWorld(w) && ClusterInv(w, s) && i < |w.order| && Enabled(w, s, Event.Read(n, w.order[i], k))
    ensures k in Serial(w, i) && s.data[k] == Serial(w, i)[k]
  {
    KeysAtNode(w, n, w.order[i], k);
    assert !FullyRead(w, s, n, w.order[i]);
    NotYetComputed(w, s, n, w.order[i], k);
    DataWhileLocked(w, s, i, k);
  }

  lemma ReadKeepsMail(w: World, s: State, m: nat, t: Txn, j: Key)
    requires ValidWorld(w) && ClusterInv(w, s) && Enabled(w, s, Event.Read(m, t, j))
    ensures MailInv(w, Apply(w, s, Event.Read(m, t, j)))
  {
    var s' := Apply(w, s, Event.Read(m, t, j));
    forall n, i, k | 0 <= i < |w.order| ensures ReadIs(w, s', n, i, k) {
      assert ReadIs(w, s, n, i, k);
      if n == m && w.order[i] == t && k == j {
        ReadReadsSerial(w, s, m, i, j);
      }
    }
  }

  lemma OtherStepKeepsMail(w: World, s: State, s': State)
    requires MailInv(w, s)
    requires forall n, t, k :: Sent(s', n, t, k) ==> Sent(s, n, t, k) && s'.readings[(n, t)][k] == s.readings[(n, t)][k]
    ensures MailInv(w, s')
  {
    forall n, i, k | 0 <= i < |w.order| ensures ReadIs(w, s', n, i, k) {
      assert ReadIs(w, s, n, i, k);
    }
  }

  lemma MailKept(w: World, s: State, e: Event)
    requires ValidWorld(w) && ClusterInv(w, s) && Enabled(w, s, e)
    ensures MailInv(w, Apply(w, s, e))
  {
    if e.Read? {
      ReadKeepsMail(w, s, e.n, e.t, e.k);
    } else {
      OtherStepKeepsMail(w, s, Apply(w, s, e));
    }
  }

  lemma ExecuteKeepsOutputs(w: World, s: State, m: nat, t: Txn)
    requires ValidWorld(w) && ClusterInv(w, s) && Enabled(w, s, Event.Execute(m, t))
    ensures OutputInv(w, Apply(w, s, Event.Execute(m, t)))
  {
    forall i | 0 <= i < |w.order| && w.order[i] == t ensures View(w, s, m, t) == SerialView(w, i) {
      ExecutionSeesSerialReads(w, s, m, i);
    }
  }

  lemma OutputsKept(w: World, s: State, e: Event)
    requires ValidWorld(w) && ClusterInv(w, s) && Enabled(w, s, e)
    ensures OutputInv(w, Apply(w, s, e))
  {
    if e.Execute? {
      ExecuteKeepsOutputs(w, s, e.n, e.t);
    } else {
      assert Apply(w, s, e).outputs == s.outputs;
    }
  }

  /** A step that neither writes the record nor marks it as written keeps its value. */
  lemma CutFrame(w: World, s: State, s': State, k: Key)
    requires HasValue(w, s, k) && k in s.data && k in s'.data && s'.data[k] == s.data[k]
    requires forall t :: (t, k) in s'.written <==> (t, k) in s.written
    ensures HasValue(w, s', k)
  {
    var c :| ValueAt(w, s, k, c);
    assert ValueAt(w, s', k, c);
  }

  lemma CutAfterWrite(w: World, s: State, s': State, i: nat, k: Key)
    requires NoDuplicates(w.order) && i < |w.order| && Cut(w, s, k, i)
    requires s'.written == s.written + {(w.order[i], k)}
    ensures Cut(w, s', k, i + 1)
  {
  }

  lemma SerialStep(w: World, i: nat, k: Key)
    requires i < |w.order| && k in Serial(w, i)
    ensures var out := Output(w, w.order[i], SerialView(w, i));
            k in Serial(w, i + 1) && Serial(w, i + 1)[k] == if k in out then out[k] else Serial(w, i)[k]
  {
  }

  lemma WriteKeepsKeys(w: World, s: State, n: nat, i: nat, k: Key)
    requires ValidWorld(w) && DataInv(w, s) && i < |w.order| && Enabled(w, s, Event.Write(n, w.order[i], k))
    ensures k in w.initial && Apply(w, s, Event.Write(n, w.order[i], k)).data.Keys == w.initial.Keys
  {
    KeysAtNode(w, n, w.order[i], k);
    assert k in AllKeys(w.order[i]);
  }

  /** A write brings its record up to the serial state behind the transaction. */
  lemma WriteBringsUp(w: World, s: State, n: nat, i: nat, k: Key)
    requires ValidWorld(w) && ClusterInv(w, s) && i < |w.order| && Enabled(w, s, Event.Write(n, w.order[i], k))
    ensures ValueAt(w, Apply(w, s, Event.Write(n, w.order[i], k)), k, i + 1)
  {
    var t, s' := w.order[i], Apply(w, s, Event.Write(n, w.order[i], k));
    KeysAtNode(w, n, t, k);
    assert !Finished(w, s, n, t) && RivalsReleased(w, s, n, i);
    DataWhileLocked(w, s, i, k);
    SerialStep(w, i, k);
    CutAfterWrite(w, s, s', i, k);
  }

  lemma WrittenValue(w: World, s: State, n: nat, i: nat, k: Key, view: Store)
    requires OutputInv(w, s) && i < |w.order| && Enabled(w, s, Event.Write(n, w.order[i], k))
    requires view == SerialView(w, i) && s.data.Keys == w.initial.Keys && k in w.initial
    ensures var data, values := Apply(w, s, Event.Write(n, w.order[i], k)).data, w.execute(w.order[i], view);
            data == if k in values then s.data[k := values[k]] else s.data
  {
    KeysAtNode(w, n, w.order[i], k);
  }

  lemma ViewIsSerial(w: World, i: nat, view: Store)
    requires i < |w.order|
    requires forall k :: k in view <==> k in Serial(w, i) && NamedIn(Entries(w.order[i]), k)
    requires forall k :: k in view ==> view[k] == Serial(w, i)[k]
    ensures view == SerialView(w, i)
  {
    SerialViewHolds(w, i);
  }

  lemma WriteReaches(w: World, s: State, n: nat, i: nat, k: Key)
    requires ValidWorld(w) && ClusterInv(w, s) && i < |w.order| && Enabled(w, s, Event.Write(n, w.order[i], k))
    ensures var data := Apply(w, s, Event.Write(n, w.order[i], k)).data;
            k in data && k in Serial(w, i + 1) && data[k] == Serial(w, i + 1)[k]
  {
    WriteBringsUp(w, s, n, i, k);
  }

  /** What a write puts into its record is what the logic computes from the values that the transactions before have left in
      the records named; it leaves all other records alone, and this one if the logic has no value for it. */
  lemma WriteIsSerial(w: World, s: State, n: nat, i: nat, k: Key, view: Store)
    requires ValidWorld(w) && ClusterInv(w, s) && i < |w.order| && Enabled(w, s, Event.Write(n, w.order[i], k))
    requires forall j :: j in view <==> j in Serial(w, i) && NamedIn(Entries(w.order[i]), j)
    requires forall j :: j in view ==> view[j] == Serial(w, i)[j]
    ensures var data, values := Apply(w, s, Event.Write(n, w.order[i], k)).data, w.execute(w.order[i], view);
            && data == (if k in values then s.data[k := values[k]] else s.data)
            && k in data && k in Serial(w, i + 1) && data[k] == Serial(w, i + 1)[k]
  {
    ViewIsSerial(w, i, view);
    WriteKeepsKeys(w, s, n, i, k);
    WrittenValue(w, s, n, i, k, view);
    WriteReaches(w, s, n, i, k);
  }

  /** A node that has computed a transaction has locked it, at a place given by the agreed order. */
  lemma ComputedIsLocked(w: World, s: State, n: nat, t: Txn) returns (i: nat)
    requires ValidWorld(w) && LocksInv(w, s) && PhaseInv(w, s) && (n, t) in s.outputs
    ensures i < |w.order| && w.order[i] == t
  {
    assert FullyRead(w, s, n, t);
    i := ReadyIsLocked(w, s, n, t);
  }

  /** A step that changes at most record `k`, which has its value afterwards, keeps all values. */
  lemma OneRecordChanged(w: World, s: State, s': State, k: Key)
    requires DataInv(w, s) && s'.data.Keys == w.initial.Keys && (k in w.initial ==> HasValue(w, s', k))
    requires forall j :: j in w.initial && j != k ==> s'.data[j] == s.data[j]
    requires forall t, j :: j != k ==> ((t, j) in s'.written <==> (t, j) in s.written)
    ensures DataInv(w, s')
  {
    forall j | j in w.initial && j != k ensures HasValue(w, s', j) {
      CutFrame(w, s, s', j);
    }
  }

  lemma WriteChangesOne(w: World, s: State, n: nat, t: Txn, k: Key)
    requires Enabled(w, s, Event.Write(n, t, k))
    ensures var s' := Apply(w, s, Event.Write(n, t, k));
            && (forall j :: j in s.data && j != k ==> j in s'.data && s'.data[j] == s.data[j])
            && (forall u, j :: j != k ==> ((u, j) in s'.written <==> (u, j) in s.written))
  {
  }

  lemma WriteKeepsData(w: World, s: State, n: nat, t: Txn, k: Key)
    requires ValidWorld(w) && ClusterInv(w, s) && Enabled(w, s, Event.Write(n, t, k))
    ensures DataInv(w, Apply(w, s, Event.Write(n, t, k)))
  {
    var i := ComputedIsLocked(w, s, n, t);
    WriteKeepsKeys(w, s, n, i, k);
    WriteBringsUp(w, s, n, i, k);
    WriteChangesOne(w, s, n, t, k);
    OneRecordChanged(w, s, Apply(w, s, Event.Write(n, t, k)), k);
  }

  lemma DataKept(w: World, s: State, e: Event)
    requires ValidWorld(w) && ClusterInv(w, s) && Enabled(w, s, e)
    ensures DataInv(w, Apply(w, s, e))
  {
    if e.Write? {
      WriteKeepsData(w, s, e.n, e.t, e.k);
    } else {
      forall k | k in w.initial ensures HasValue(w, Apply(w, s, e), k) {
        CutFrame(w, s, Apply(w, s, e), k);
      }
    }
  }

  /** Every step keeps the invariant. */
  lemma StepKeepsInv(w: World, s: State, e: Event)
    requires ValidWorld(w) && ClusterInv(w, s) && Enabled(w, s, e)
    ensures ClusterInv(w, Apply(w, s, e))
  {
    match e {
      case Lock(n, t) => LockKeepsLocks(w, s, n, t);
      case Release(n, t) => ReleaseKeepsLocks(w, s, n, t);
      case _ => OtherStepKeepsLocks(w, s, Apply(w, s, e));
    }
    PhasesKept(w, s, e);
    OrderKept(w, s, e);
    MailKept(w, s, e);
    OutputsKept(w, s, e);
    DataKept(w, s, e);
  }

  lemma InitInv(w: World)
    requires ValidWorld(w)
    ensures ClusterInv(w, Init(w))
  {
    var s := Init(w);
    forall n: nat | n < w.nodes ensures NodeInv(w, s, n) {
      assert IsNode(w, n);
      InvInit(w.Config(n));
      assert Input(w, n)[..0] == [];
      assert Gone(w, s, n) == {};
    }
    forall k | k in w.initial ensures HasValue(w, s, k) {
      assert ValueAt(w, s, k, 0);
    }
  }

  lemma {:induction false} RunKeepsInv(w: World, es: seq<Event>)
    requires ValidWorld(w) && ValidRun(w, es)
    ensures ClusterInv(w, After(w, es))
    decreases |es|
  {
    if es == [] {
      InitInv(w);
    } else {
      RunKeepsInv(w, es[..|es| - 1]);
      StepKeepsInv(w, After(w, es[..|es| - 1]), es[|es| - 1]);
    }
  }

  // ---------------------------------------------------------------- Main results

  /** In every run, a transaction executes everywhere on the values the serial execution gives it. */
  lemma EveryExecutionIsSerial(w: World, es: seq<Event>, n: nat, t: Txn)
    requires ValidWorld(w) && ValidRun(w, es + [Event.Execute(n, t)])
    ensures exists i :: 0 <= i < |w.order| && w.order[i] == t
              && ValidRun(w, es) && View(w, After(w, es), n, t) == SerialView(w, i)
  {
    var run := es + [Event.Execute(n, t)];
    assert run[..|run| - 1] == es;
    RunKeepsInv(w, es);
    var i := ReadyIsLocked(w, After(w, es), n, t);
    ExecutionSeesSerialReads(w, After(w, es), n, i);
  }

  ghost predicate AllFinished(w: World, s: State) {
    forall n: nat, i :: n < w.nodes && 0 <= i < |w.order| && Participates(w, n, w.order[i]) ==>
      Finished(w, s, n, w.order[i])
  }

  lemma FinalValue(w: World, s: State, k: Key)
    requires ValidWorld(w) && DataInv(w, s) && AllFinished(w, s) && k in w.initial
    ensures k in s.data && k in Serial(w, |w.order|) && s.data[k] == Serial(w, |w.order|)[k]
  {
    assert HasValue(w, s, k);
    var c :| ValueAt(w, s, k, c);
    forall j | 0 <= j < |w.order| && k in AllWriteKeys(w.order[j]) ensures (w.order[j], k) in s.written {
      KeysAtNode(w, w.partition(k), w.order[j], k);
      assert Participates(w, w.partition(k), w.order[j]);
      assert Finished(w, s, w.partition(k), w.order[j]);
    }
    SerialKeys(w, |w.order|);
    CutsAgree(w, s, k, c, |w.order|);
  }

  lemma FinalStore(w: World, s: State)
    requires ValidWorld(w) && DataInv(w, s) && AllFinished(w, s)
    ensures s.data == Serial(w, |w.order|)
  {
    SerialKeys(w, |w.order|);
    forall k | k in w.initial ensures k in s.data && k in Serial(w, |w.order|) && s.data[k] == Serial(w, |w.order|)[k] {
      FinalValue(w, s, k);
    }
  }

  /** Serial equivalence: once every participant has written everything, however the reads and writes of single
      records were interleaved, the records are those of running the order one transaction at a time. */
  lemma SerialEquivalence(w: World, es: seq<Event>)
    requires ValidWorld(w) && ValidRun(w, es) && AllFinished(w, After(w, es))
    ensures After(w, es).data == Serial(w, |w.order|)
    ensures EndsWith(w.execute, w.initial, w.order, After(w, es).data)
  {
    RunKeepsInv(w, es);
    FinalStore(w, After(w, es));
    SerialEndsWith(w, After(w, es).data);
  }
}
