/** The records in mode 2 are those of running the log one transaction at a time. */
module RemasteringSerial {
  import opened Txns
  import Exchange
  import opened Remastering
  import opened RemasteringSafety

  /** The `i`-th transaction of the log commits when its turn comes. */
  predicate Effective(w: World, log: seq<Txn>, i: nat)
    requires i < |log|
  {
    AllCurrent(RunAll(w, log[..i]), log[i])
  }

  /** The writers of `k` that have written it are exactly those before position `c`. */
  ghost predicate Cut(w: World, s: State, k: Key, c: nat) {
    && c <= |s.log|
    && (forall j :: 0 <= j < |s.log| && k in Written(s.log[j]) && Effective(w, s.log, j) ==> ((s.log[j], k) in s.written <==> j < c))
  }

  ghost predicate ValueAt(w: World, s: State, k: Key, c: nat) {
    && Cut(w, s, k, c) && k in s.store && k in RunAll(w, s.log[..c]) && s.store[k] == RunAll(w, s.log[..c])[k]
  }

  ghost predicate HasValue(w: World, s: State, k: Key) {
    exists c :: ValueAt(w, s, k, c)
  }

  ghost predicate DataInv(w: World, s: State) {
    s.store.Keys == w.initial.Keys && forall k :: k in w.initial ==> HasValue(w, s, k)
  }

  /** What the `i`-th transaction has read is what it reads when its turn comes. */
  ghost predicate ReadsInOrder(w: World, s: State, i: nat)
    requires i < |s.log|
  {
    Objects(s, s.log[i]) == Seen(RunAll(w, s.log[..i]), s.log[i])
  }

  ghost predicate SerialInv(w: World, s: State) {
    forall i :: 0 <= i < |s.log| ==> ReadsInOrder(w, s, i)
  }

  ghost predicate LogFits(w: World, log: seq<Txn>) {
    forall i :: 0 <= i < |log| ==> Keyed(log[i]) <= w.initial.Keys
  }

  // -------- the serial execution

  lemma WrittenAreKeyed(t: Txn)
    ensures Written(t) <= Keyed(t)
  {
    forall k | k in Written(t) ensures k in Keyed(t) {
      var e :| e in t.readWriteSet && e.key == k;
      assert e in Entries(t);
    }
  }

  lemma {:induction false} RunKeys(w: World, log: seq<Txn>)
    requires LogFits(w, log)
    ensures RunAll(w, log).Keys == w.initial.Keys
  {
    if log != [] {
      var init, t := log[..|log| - 1], log[|log| - 1];
      assert LogFits(w, init);
      RunKeys(w, init);
      WrittenAreKeyed(t);
    }
  }

  lemma RunMore(w: World, log: seq<Txn>, i: nat)
    requires i < |log|
    ensures RunAll(w, log[..i + 1]) == RunOne(w, RunAll(w, log[..i]), log[i])
  {
    assert log[..i + 1][..i] == log[..i];
  }

  lemma RunUnwritten(w: World, log: seq<Txn>, i: nat, k: Key)
    requires i < |log| && k in RunAll(w, log[..i]) && (k in Written(log[i]) ==> !Effective(w, log, i))
    ensures k in RunAll(w, log[..i + 1]) && RunAll(w, log[..i + 1])[k] == RunAll(w, log[..i])[k]
  {
    RunMore(w, log, i);
  }

  lemma {:induction false} RunStable(w: World, log: seq<Txn>, k: Key, a: nat, b: nat)
    requires a <= b <= |log| && k in RunAll(w, log[..a])
    requires forall j :: a <= j < b && k in Written(log[j]) ==> !Effective(w, log, j)
    ensures k in RunAll(w, log[..b]) && RunAll(w, log[..b])[k] == RunAll(w, log[..a])[k]
    decreases b - a
  {
    if a < b {
      RunUnwritten(w, log, a, k);
      RunStable(w, log, k, a + 1, b);
    }
  }

  lemma CutsAgree(w: World, s: State, k: Key, a: nat, b: nat)
    requires Cut(w, s, k, a) && Cut(w, s, k, b) && k in RunAll(w, s.log[..a]) && k in RunAll(w, s.log[..b])
    ensures RunAll(w, s.log[..a])[k] == RunAll(w, s.log[..b])[k]
  {
    if a <= b {
      RunStable(w, s.log, k, a, b);
    } else {
      RunStable(w, s.log, k, b, a);
    }
  }

  lemma ValueAtCut(w: World, s: State, k: Key, c: nat)
    requires LogFits(w, s.log) && HasValue(w, s, k) && Cut(w, s, k, c) && k in w.initial
    ensures ValueAt(w, s, k, c)
  {
    RunKeys(w, s.log[..c]);
    var b :| ValueAt(w, s, k, b);
    CutsAgree(w, s, k, b, c);
  }

  // -------- one transaction after another

  lemma NamedKeys(t: Txn, k: Key)
    ensures NamedIn(Entries(t), k) <==> k in Keyed(t)
    ensures NamedIn(t.readWriteSet, k) <==> k in Written(t)
  {
  }

  lemma SeenIs(records: Records, t: Txn)
    ensures Seen(records, t) == map k | k in records && NamedIn(Entries(t), k) :: records[k]
  {
    forall k ensures NamedIn(Entries(t), k) <==> k in Keyed(t) {
      NamedKeys(t, k);
    }
  }

  lemma ViewIsSeen(records: Records, t: Txn, view: Records)
    requires forall k :: k in view <==> k in records && NamedIn(Entries(t), k)
    requires forall k :: k in view ==> view[k] == records[k]
    ensures view == Seen(records, t)
  {
    SeenIs(records, t);
  }

  lemma OneRunsAlone(w: World, records: Records, t: Txn)
    ensures RunsAlone(w.execute, t, records, RunOne(w, records, t))
  {
    SeenIs(records, t);
    forall k ensures NamedIn(t.readWriteSet, k) <==> k in Written(t) {
      NamedKeys(t, k);
    }
  }

  lemma AloneIsDetermined(execute: (Txn, Records) -> Records, t: Txn, before: Records, one: Records, other: Records)
    requires RunsAlone(execute, t, before, one) && RunsAlone(execute, t, before, other)
    ensures one == other
  {
    forall k ensures k in one <==> k in other {
    }
  }

  lemma {:induction false} RunIsOneByOneTo(w: World, log: seq<Txn>, history: seq<Records>, n: nat)
    requires n <= |log| && OneByOne(w.execute, w.initial, log, history)
    ensures history[n] == RunAll(w, log[..n])
  {
    if n > 0 {
      RunIsOneByOneTo(w, log, history, n - 1);
      RunMore(w, log, n - 1);
      OneRunsAlone(w, RunAll(w, log[..n - 1]), log[n - 1]);
      AloneIsDetermined(w.execute, log[n - 1], RunAll(w, log[..n - 1]), history[n], RunAll(w, log[..n]));
    }
  }

  function RunUpTo(w: World, log: seq<Txn>, i: nat): Records
    requires i <= |log|
  {
    RunAll(w, log[..i])
  }

  /** Running the log is the only way to run its transactions one after another. */
  lemma RunEndsWith(w: World, log: seq<Txn>, end: Records)
    ensures EndsWith(w.execute, w.initial, log, end) <==> end == RunAll(w, log)
  {
    assert log[..|log|] == log;
    var stores := seq(|log| + 1, i requires 0 <= i <= |log| => RunUpTo(w, log, i));
    forall i | 0 <= i < |log| ensures RunsAlone(w.execute, log[i], stores[i], stores[i + 1]) {
      RunMore(w, log, i);
      OneRunsAlone(w, RunAll(w, log[..i]), log[i]);
    }
    assert OneByOne(w.execute, w.initial, log, stores);
    forall history | OneByOne(w.execute, w.initial, log, history) ensures history[|log|] == RunAll(w, log) {
      RunIsOneByOneTo(w, log, history, |log|);
    }
  }

  // -------- decisions are serial

  lemma SeenIsEnough(records: Records, t: Txn)
    ensures AllCurrent(Seen(records, t), t) <==> AllCurrent(records, t)
  {
    forall e | e in Entries(t) ensures Exchange.ObjectMatches(Seen(records, t), e) <==> Exchange.ObjectMatches(records, e) {
      assert e.key in Keyed(t);
    }
  }

  /** A part decides what its transaction does when its turn comes. */
  lemma DecisionIsSerial(w: World, s: State, p: Part, i: nat)
    requires DecidedInv(w, s) && p in s.decided && i < |s.log| && ReadsInOrder(w, s, i) && s.log[i] == Strip(p.1)
    ensures s.decided[p] <==> Effective(w, s.log, i)
  {
    assert DecidedAt(w, s, p);
    SeenIsEnough(RunAll(w, s.log[..i]), s.log[i]);
  }

  /** Where it has been released, a transaction that commits has written. */
  lemma ClearedHasWritten(w: World, s: State, j: nat, u: Txn, k: Key)
    requires LogInv(w, s) && WrittenInv(w, s) && DecidedInv(w, s) && j < |s.log| && ReadsInOrder(w, s, j)
    requires Cleared(w, s, s.log[j], u) && k in Written(s.log[j]) && k in Keyed(u) && Effective(w, s.log, j)
    ensures (s.log[j], k) in s.written
  {
    var t := s.log[j];
    var e :| e in t.readWriteSet && e.key == k;
    var f :| f in Entries(u) && f.key == k;
    assert e in Entries(t) && LoggedAt(w, s, t);
    var p := PartFor(w, t, e);
    EntryIsAt(w, t, e);
    PartOfOne(w, t, p);
    assert Done(w, s, p);
    DecisionIsSerial(w, s, p, j);
  }

  lemma LaterWriterWaits(w: World, s: State, i: nat, j: nat, k: Key, e: KeyEntry)
    requires OrderInv(w, s) && i < j < |s.log| && e in Entries(s.log[i]) && e.key == k && k in Written(s.log[j])
    ensures PartFor(w, s.log[i], e) in s.released
  {
    assert Cleared(w, s, s.log[i], s.log[j]);
    var f :| f in s.log[j].readWriteSet && f.key == k;
    assert f in Entries(s.log[j]);
  }

  /** While the `i`-th transaction holds a record it has not written, exactly the writers before it have written. */
  lemma CutWhileHeld(w: World, s: State, i: nat, k: Key, e: KeyEntry)
    requires LogInv(w, s) && OrderInv(w, s) && WrittenInv(w, s) && DecidedInv(w, s) && SerialInv(w, s)
    requires i < |s.log| && e in Entries(s.log[i]) && e.key == k && (s.log[i], k) !in s.written
    requires PartFor(w, s.log[i], e) !in s.released
    ensures Cut(w, s, k, i)
  {
    forall j | 0 <= j < |s.log| && k in Written(s.log[j]) && Effective(w, s.log, j)
      ensures (s.log[j], k) in s.written <==> j < i
    {
      if j < i {
        assert Cleared(w, s, s.log[j], s.log[i]) && k in Keyed(s.log[i]) && ReadsInOrder(w, s, j);
        ClearedHasWritten(w, s, j, s.log[i], k);
      } else if i < j {
        LaterWriterWaits(w, s, i, j, k, e);
      }
    }
  }

  // -------- writing

  lemma CutAfterWrite(w: World, s: State, s': State, i: nat, k: Key)
    requires NoDuplicates(s.log) && s'.log == s.log && i < |s.log| && Cut(w, s, k, i)
    requires s'.written == s.written + {(s.log[i], k)}
    ensures Cut(w, s', k, i + 1)
  {
  }

  lemma CutElsewhere(w: World, s: State, s': State, k: Key, j: Key)
    requires s'.log == s.log && HasValue(w, s, j) && j != k
    requires forall t :: (t, j) in s'.written <==> (t, j) in s.written
    requires j in s'.store && j in s.store && s'.store[j] == s.store[j]
    ensures HasValue(w, s', j)
  {
    var c :| ValueAt(w, s, j, c);
    assert ValueAt(w, s', j, c);
  }

  lemma WriteBringsUp(w: World, s: State, p: Part, k: Key, i: nat)
    requires LogInv(w, s) && OrderInv(w, s) && WrittenInv(w, s) && DecidedInv(w, s) && SerialInv(w, s) && DataInv(w, s)
    requires LogFits(w, s.log) && Enabled(w, s, Write(p, k)) && i < |s.log| && s.log[i] == Strip(p.1) && IsCopy(w, p.0, p.1)
    ensures k in w.initial && ValueAt(w, Apply(w, s, Write(p, k)), k, i + 1)
  {
    var t, s' := s.log[i], Apply(w, s, Write(p, k));
    var e := EntryOf(w, p, k);
    SameEntries(p.1);
    WrittenAt(w, p, k);
    assert p in s.released ==> Done(w, s, p);
    CutWhileHeld(w, s, i, k, e);
    assert Keyed(t) <= w.initial.Keys;
    ValueAtCut(w, s, k, i);
    assert ReadsInOrder(w, s, i);
    DecisionIsSerial(w, s, p, i);
    RunMore(w, s.log, i);
    CutAfterWrite(w, s, s', i, k);
    RunKeys(w, s.log[..i]);
  }

  lemma WrittenRecord(w: World, s: State, p: Part, k: Key)
    requires Enabled(w, s, Write(p, k)) && IsCopy(w, p.0, p.1)
    ensures var store, values := Apply(w, s, Write(p, k)).store, w.execute(Strip(p.1), Objects(s, Strip(p.1)));
            store == if k in values then s.store[k := values[k]] else s.store
  {
    WrittenAt(w, p, k);
  }

  /** What a committed transaction puts into a record is what the logic computes from the records that the log before the
      transaction leaves, and it changes no other. */
  lemma WriteIsSerial(w: World, s: State, p: Part, k: Key, i: nat, view: Records)
    requires LogInv(w, s) && OrderInv(w, s) && WrittenInv(w, s) && DecidedInv(w, s) && SerialInv(w, s) && DataInv(w, s)
    requires LogFits(w, s.log) && Enabled(w, s, Write(p, k)) && i < |s.log| && s.log[i] == Strip(p.1) && IsCopy(w, p.0, p.1)
    requires forall j :: j in view <==> j in RunAll(w, s.log[..i]) && NamedIn(Entries(p.1), j)
    requires forall j :: j in view ==> view[j] == RunAll(w, s.log[..i])[j]
    ensures var store, values := Apply(w, s, Write(p, k)).store, w.execute(Strip(p.1), view);
            && store == (if k in values then s.store[k := values[k]] else s.store)
            && k in store && k in RunAll(w, s.log[..i + 1]) && store[k] == RunAll(w, s.log[..i + 1])[k]
  {
    SameEntries(p.1);
    assert ReadsInOrder(w, s, i);
    ViewIsSeen(RunAll(w, s.log[..i]), s.log[i], view);
    WrittenRecord(w, s, p, k);
    WriteBringsUp(w, s, p, k, i);
  }

  lemma OneRecordChanged(w: World, s: State, s': State, t: Txn, k: Key)
    requires DataInv(w, s) && s'.store.Keys == s.store.Keys && s'.log == s.log && HasValue(w, s', k)
    requires forall j :: j in s.store && j != k ==> j in s'.store && s'.store[j] == s.store[j]
    requires s'.written == s.written + {(t, k)}
    ensures DataInv(w, s')
  {
    forall j | j in w.initial ensures HasValue(w, s', j) {
      if j != k {
        CutElsewhere(w, s, s', k, j);
      }
    }
  }

  lemma WriteKeepsKeys(w: World, s: State, p: Part, k: Key)
    requires Enabled(w, s, Write(p, k)) && k in s.store
    ensures Apply(w, s, Write(p, k)).store.Keys == s.store.Keys
  {
  }

  lemma LoggedWriteKeepsData(w: World, s: State, p: Part, k: Key, i: nat)
    requires LogInv(w, s) && OrderInv(w, s) && WrittenInv(w, s) && DecidedInv(w, s) && SerialInv(w, s) && DataInv(w, s)
    requires LogFits(w, s.log) && Enabled(w, s, Write(p, k)) && i < |s.log| && s.log[i] == Strip(p.1) && IsCopy(w, p.0, p.1)
    ensures DataInv(w, Apply(w, s, Write(p, k)))
  {
    WriteBringsUp(w, s, p, k, i);
    WriteKeepsKeys(w, s, p, k);
    WriteChanges(w, s, p, k);
    OneRecordChanged(w, s, Apply(w, s, Write(p, k)), Strip(p.1), k);
  }

  lemma WriteKeepsData(w: World, s: State, p: Part, k: Key)
    requires BegunInv(w, s) && EarlyInv(w, s) && LogInv(w, s) && OrderInv(w, s) && WrittenInv(w, s) && DecidedInv(w, s)
    requires SerialInv(w, s) && DataInv(w, s) && LogFits(w, s.log) && Enabled(w, s, Write(p, k))
    ensures DataInv(w, Apply(w, s, Write(p, k)))
  {
    CommitterIsLogged(w, s, p);
    var i :| 0 <= i < |s.log| && s.log[i] == Strip(p.1);
    LoggedWriteKeepsData(w, s, p, k, i);
  }

  // -------- the log grows

  lemma PrefixesStay(w: World, log: seq<Txn>, t: Txn, c: nat)
    requires c <= |log|
    ensures RunAll(w, (log + [t])[..c]) == RunAll(w, log[..c])
  {
    assert (log + [t])[..c] == log[..c];
  }

  lemma EffectsStay(w: World, log: seq<Txn>, t: Txn, i: nat)
    requires i < |log|
    ensures Effective(w, log + [t], i) == Effective(w, log, i)
  {
    PrefixesStay(w, log, t, i);
  }

  /** A transaction that has written nothing joins the log behind all that have. */
  lemma CutGrows(w: World, s: State, s': State, t: Txn, k: Key, c: nat)
    requires Cut(w, s, k, c) && s'.log == s.log + [t] && s'.written == s.written && (t, k) !in s.written
    ensures Cut(w, s', k, c)
  {
    forall j | 0 <= j < |s'.log| && k in Written(s'.log[j]) && Effective(w, s'.log, j)
      ensures (s'.log[j], k) in s'.written <==> j < c
    {
      if j < |s.log| {
        EffectsStay(w, s.log, t, j);
      }
    }
  }

  lemma ValueGrows(w: World, s: State, s': State, t: Txn, k: Key)
    requires HasValue(w, s, k) && s'.log == s.log + [t] && s'.written == s.written && s'.store == s.store
    requires (t, k) !in s.written
    ensures HasValue(w, s', k)
  {
    var c :| ValueAt(w, s, k, c);
    CutGrows(w, s, s', t, k, c);
    PrefixesStay(w, s.log, t, c);
    assert ValueAt(w, s', k, c);
  }

  lemma ReadsStay(w: World, s: State, s': State, i: nat)
    requires i < |s.log| && s.log <= s'.log && ReadsInOrder(w, s, i) && Objects(s', s.log[i]) == Objects(s, s.log[i])
    ensures ReadsInOrder(w, s', i)
  {
    assert s'.log[..i] == s.log[..i] && s'.log[i] == s.log[i];
  }

  /** When the last part of `t` begins, whatever it reads was last written by a transaction of the log that is done there. */
  lemma CutAtEnd(w: World, s: State, s': State, t: Txn, k: Key)
    requires LogInv(w, s') && OrderInv(w, s') && WrittenInv(w, s') && DecidedInv(w, s')
    requires s'.log == s.log + [t] && k in Keyed(t) && (t, k) !in s'.written
    requires forall i :: 0 <= i < |s.log| ==> ReadsInOrder(w, s', i)
    ensures Cut(w, s', k, |s.log|)
  {
    forall j | 0 <= j < |s'.log| && k in Written(s'.log[j]) && Effective(w, s'.log, j)
      ensures (s'.log[j], k) in s'.written <==> j < |s.log|
    {
      if j < |s.log| {
        assert Cleared(w, s', s'.log[j], s'.log[|s.log|]);
        ClearedHasWritten(w, s', j, t, k);
      }
    }
  }

  /** What the newest transaction has read are the records after the log before it. */
  lemma NewestReads(w: World, s: State, s': State, t: Txn, e: KeyEntry)
    requires LogInv(w, s') && OrderInv(w, s') && WrittenInv(w, s') && DecidedInv(w, s') && CurrentInv(w, s') && BegunInv(w, s')
    requires LogFits(w, s'.log) && DataInv(w, s')
    requires s'.log == s.log + [t] && forall i :: 0 <= i < |s.log| ==> ReadsInOrder(w, s', i)
    requires e in Entries(t) && (t, e.key) !in s'.written && PartFor(w, t, e) !in s'.released
    ensures (t, e.key) in s'.readings && e.key in RunAll(w, s.log)
    ensures s'.readings[(t, e.key)] == RunAll(w, s.log)[e.key]
  {
    var p := PartFor(w, t, e);
    assert s'.log[|s.log|] == t && t in s'.log && LoggedAt(w, s', t) && Keyed(s'.log[|s.log|]) <= w.initial.Keys;
    EntryIsAt(w, t, e);
    PartOfOne(w, t, p);
    assert CurrentAt(w, s', p);
    CutAtEnd(w, s, s', t, e.key);
    ValueAtCut(w, s', e.key, |s.log|);
    assert s'.log[..|s.log|] == s.log;
  }

  lemma NewestReadsInOrder(w: World, s: State, s': State, p: Part, t: Txn)
    requires WrittenInv(w, s) && DecidedInv(w, s) && s'.released == s.released && s'.written == s.written
    requires p !in s.begun && p in Parts(w, t) && t == Strip(t)
    requires LogInv(w, s') && OrderInv(w, s') && WrittenInv(w, s') && DecidedInv(w, s') && CurrentInv(w, s') && BegunInv(w, s')
    requires LogFits(w, s'.log) && DataInv(w, s')
    requires s'.log == s.log + [t] && forall i :: 0 <= i < |s.log| ==> ReadsInOrder(w, s', i)
    ensures ReadsInOrder(w, s', |s.log|)
  {
    assert s'.log[..|s.log|] == s.log && s'.log[|s.log|] == t;
    forall k | k in Keyed(t)
      ensures (t, k) in s'.readings && k in RunAll(w, s.log) && s'.readings[(t, k)] == RunAll(w, s.log)[k]
    {
      var e :| e in Entries(t) && e.key == k;
      EntryIsAt(w, t, e);
      PartOfOne(w, t, PartFor(w, t, e));
      NothingYet(w, s, p, PartFor(w, t, e), k);
      NewestReads(w, s, s', t, e);
    }
  }

  // -------- every run

  ghost predicate ReplicaInv(w: World, s: State) {
    && LocksInv(w, s) && BegunInv(w, s) && EarlyInv(w, s) && DecidedInv(w, s) && WrittenInv(w, s) && LogInv(w, s)
    && OrderInv(w, s) && CurrentInv(w, s) && LogFits(w, s.log) && DataInv(w, s) && SerialInv(w, s)
  }

  lemma ControlKept(w: World, s: State, e: Event)
    requires LocksInv(w, s) && BegunInv(w, s) && EarlyInv(w, s) && DecidedInv(w, s) && WrittenInv(w, s) && LogInv(w, s)
    requires OrderInv(w, s) && CurrentInv(w, s) && w.initial.Keys <= s.store.Keys && Enabled(w, s, e)
    ensures var s' := Apply(w, s, e);
            && LocksInv(w, s') && BegunInv(w, s') && EarlyInv(w, s') && DecidedInv(w, s') && WrittenInv(w, s') && LogInv(w, s')
            && OrderInv(w, s') && CurrentInv(w, s')
  {
    if e.Release? {
      assert DecidedAt(w, s, e.p);
    }
    LocksKept(w, s, e);
    BegunKept(w, s, e);
    EarlyKept(w, s, e);
    DecidedKept(w, s, e);
    WrittenKept(w, s, e);
    LogKept(w, s, e);
    OrderKept(w, s, e);
    CurrentKept(w, s, e);
  }

  lemma FitKept(w: World, s: State)
    requires LogInv(w, s)
    ensures LogFits(w, s.log)
  {
    forall i | 0 <= i < |s.log| ensures Keyed(s.log[i]) <= w.initial.Keys {
      assert LoggedAt(w, s, s.log[i]);
    }
  }

  /** Only writes change records and what has been written. */
  lemma OnlyWrites(w: World, s: State, e: Event)
    requires Enabled(w, s, e) && !e.Write?
    ensures Apply(w, s, e).store == s.store && Apply(w, s, e).written == s.written
  {
  }

  lemma DataKept(w: World, s: State, e: Event)
    requires ReplicaInv(w, s) && Enabled(w, s, e)
    ensures DataInv(w, Apply(w, s, e))
  {
    var s' := Apply(w, s, e);
    if e.Write? {
      WriteKeepsData(w, s, e.p, e.k);
    } else {
      OnlyWrites(w, s, e);
      LogGrows(w, s, e);
      if s'.log != s.log {
        ReadyIsCopy(w, s, e.p.0, e.p.1);
        PartIsOne(w, e.p);
      }
      forall k | k in w.initial ensures HasValue(w, s', k) {
        ValueKept(w, s, s', e, k);
      }
    }
  }

  lemma ValueKept(w: World, s: State, s': State, e: Event, k: Key)
    requires HasValue(w, s, k) && WrittenInv(w, s) && DecidedInv(w, s) && s'.store == s.store && s'.written == s.written
    requires s'.log == s.log || (e.Begin? && s'.log == s.log + [Strip(e.p.1)] && e.p !in s.begun && e.p in Parts(w, Strip(e.p.1)))
    ensures HasValue(w, s', k)
  {
    if s'.log == s.log {
      var c :| ValueAt(w, s, k, c);
      assert ValueAt(w, s', k, c);
    } else {
      NothingYet(w, s, e.p, e.p, k);
      ValueGrows(w, s, s', Strip(e.p.1), k);
    }
  }

  lemma OldReadsKept(w: World, s: State, e: Event, i: nat)
    requires ReplicaInv(w, s) && Enabled(w, s, e) && i < |s.log|
    ensures var s' := Apply(w, s, e); i < |s'.log| && ReadsInOrder(w, s', i)
  {
    assert LoggedAt(w, s, s.log[i]) && ReadsInOrder(w, s, i);
    ObjectsLast(w, s, e, s.log[i]);
    LogGrows(w, s, e);
    ReadsStay(w, s, Apply(w, s, e), i);
  }

  lemma SerialKept(w: World, s: State, e: Event)
    requires ReplicaInv(w, s) && Enabled(w, s, e)
    requires var s' := Apply(w, s, e);
             && LogInv(w, s') && OrderInv(w, s') && WrittenInv(w, s') && DecidedInv(w, s') && CurrentInv(w, s') && BegunInv(w, s')
             && LogFits(w, s'.log) && DataInv(w, s')
    ensures SerialInv(w, Apply(w, s, e))
  {
    var s' := Apply(w, s, e);
    forall i | 0 <= i < |s.log| ensures i < |s'.log| && ReadsInOrder(w, s', i) {
      OldReadsKept(w, s, e, i);
    }
    LogGrows(w, s, e);
    if s'.log != s.log {
      OnlyWrites(w, s, e);
      ReadyIsCopy(w, s, e.p.0, e.p.1);
      PartIsOne(w, e.p);
      NewestReadsInOrder(w, s, s', e.p, Strip(e.p.1));
    }
  }

  lemma StepKeepsInv(w: World, s: State, e: Event)
    requires ReplicaInv(w, s) && Enabled(w, s, e)
    ensures ReplicaInv(w, Apply(w, s, e))
  {
    ControlKept(w, s, e);
    FitKept(w, Apply(w, s, e));
    DataKept(w, s, e);
    SerialKept(w, s, e);
  }

  lemma StartInv(w: World)
    ensures ReplicaInv(w, Start(w))
  {
    var s := Start(w);
    forall m: nat | m < w.machines ensures MachineInv(w, s, m) {
      assert IsMachine(w, m);
      LockSpec.InvInit(w.Config(m));
      assert Gone(w, s, m) == {};
    }
    forall k | k in w.initial ensures HasValue(w, s, k) {
      assert ValueAt(w, s, k, 0);
    }
  }

  lemma {:induction false} RunKeepsInv(w: World, run: seq<Event>)
    requires ValidRun(w, run)
    ensures ReplicaInv(w, After(w, run))
  {
    if run == [] {
      StartInv(w);
    } else {
      RunKeepsInv(w, Before(run));
      StepKeepsInv(w, After(w, Before(run)), run[|run| - 1]);
    }
  }

  // -------- main results

  /** In every run, at whatever part, a transaction of the log has read what the serial execution of the log reads, and
      commits if and only if it does so there. */
  lemma EveryDecisionIsSerial(w: World, run: seq<Event>, p: Part, i: nat)
    requires ValidRun(w, run) && p in After(w, run).decided && i < |After(w, run).log| && After(w, run).log[i] == Strip(p.1)
    ensures var s := After(w, run);
            && Objects(s, s.log[i]) == Seen(RunAll(w, s.log[..i]), s.log[i])
            && (s.decided[p] <==> AllCurrent(RunAll(w, s.log[..i]), s.log[i]))
  {
    RunKeepsInv(w, run);
    assert ReadsInOrder(w, After(w, run), i);
    DecisionIsSerial(w, After(w, run), p, i);
  }

  /** A transaction some part of which has no locks commits nowhere. */
  lemma UnlockedNeverCommits(w: World, run: seq<Event>, p: Part, q: Part)
    requires ValidRun(w, run) && p in After(w, run).decided && q in After(w, run).unlocked && Strip(q.1) == Strip(p.1)
    ensures !After(w, run).decided[p]
  {
    var s := After(w, run);
    RunKeepsInv(w, run);
    assert BegunAt(w, s, q);
    PartIsOne(w, q);
    assert Strip(p.1) in s.log ==> LoggedAt(w, s, Strip(p.1));
    if s.decided[p] {
      CommitterIsLogged(w, s, p);
    }
  }

  /** While one part of a transaction has not begun, no part of it decides, writes or is released. */
  lemma NothingWithoutPart(w: World, run: seq<Event>, p: Part, q: Part, k: Key)
    requires ValidRun(w, run) && q in Parts(w, Strip(p.1)) && q !in After(w, run).begun
    ensures var s := After(w, run); p !in s.decided && p !in s.released && (Strip(p.1), k) !in s.written
  {
    var s := After(w, run);
    RunKeepsInv(w, run);
    NothingYet(w, s, q, p, k);
    assert p in s.decided ==> DecidedAt(w, s, p);
  }

  ghost predicate AllDone(w: World, s: State) {
    forall t, p :: t in s.log && p in Parts(w, t) ==> Done(w, s, p)
  }

  lemma FinalCut(w: World, s: State, k: Key)
    requires ReplicaInv(w, s) && AllDone(w, s)
    ensures Cut(w, s, k, |s.log|)
  {
    forall j | 0 <= j < |s.log| && k in Written(s.log[j]) && Effective(w, s.log, j) ensures (s.log[j], k) in s.written {
      var t := s.log[j];
      var e :| e in t.readWriteSet && e.key == k;
      assert e in Entries(t) && LoggedAt(w, s, t) && ReadsInOrder(w, s, j);
      var p := PartFor(w, t, e);
      EntryIsAt(w, t, e);
      PartOfOne(w, t, p);
      assert Done(w, s, p);
      DecisionIsSerial(w, s, p, j);
    }
  }

  /** Serializability in mode 2: however requests for locks, reads, decisions and writes were interleaved, and in whatever
      order each machine asked for its locks, once what has begun everywhere is done the records are those of running the
      transactions one at a time, in the order in which the last of their parts began. */
  lemma Serializable(w: World, run: seq<Event>)
    requires ValidRun(w, run) && AllDone(w, After(w, run))
    ensures After(w, run).store == RunAll(w, After(w, run).log)
    ensures EndsWith(w.execute, w.initial, After(w, run).log, After(w, run).store)
  {
    var s := After(w, run);
    RunKeepsInv(w, run);
    RunKeys(w, s.log);
    assert s.log[..|s.log|] == s.log;
    forall k | k in w.initial ensures k in s.store && s.store[k] == RunAll(w, s.log)[k] {
      FinalCut(w, s, k);
      ValueAtCut(w, s, k, |s.log|);
    }
    RunEndsWith(w, s.log, s.store);
  }
}
