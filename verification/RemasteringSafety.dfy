/** Serializability in mode 2: whatever the order of the locks, what commits at a replica is a serial execution. */
module RemasteringSafety {
  import opened Txns
  import opened LockSpec
  import Exchange
  import opened Remastering

  // -------- parts and keys

  lemma SameEntries(t: Txn)
    ensures Entries(Strip(t)) == Entries(t) && Keyed(Strip(t)) == Keyed(t) && Written(Strip(t)) == Written(t)
    ensures DistinctKeys(Strip(t)) == DistinctKeys(t)
  {
    assert Strip(t).readWriteSet == t.readWriteSet && Strip(t).readSet == t.readSet;
  }

  /** A record of a part, by the entry that names it. */
  lemma EntryOf(w: World, p: Part, k: Key) returns (e: KeyEntry)
    requires !p.1.newGenerated && k in KeysAt(w, p)
    ensures e in Entries(p.1) && e.key == k && PartFor(w, Strip(p.1), e) == p
    ensures k in WritesAt(w, p) ==> e in p.1.readWriteSet
  {
    if k in WritesAt(w, p) {
      e :| e in p.1.readWriteSet && Wanted(w.Config(p.0), p.1, e) && e.key == k;
    } else {
      e :| e in p.1.readSet && Wanted(w.Config(p.0), p.1, e) && e.key == k;
    }
  }

  lemma EntryIsAt(w: World, t: Txn, e: KeyEntry)
    requires e in Entries(t)
    ensures var p := PartFor(w, t, e);
            && p in Parts(w, t) && e.key in KeysAt(w, p) && e.key in Keyed(t)
            && (e in t.readWriteSet ==> e.key in WritesAt(w, p) && e.key in Written(t))
  {
    var p := PartFor(w, t, e);
    assert Wanted(w.Config(p.0), p.1, e);
    if e in t.readWriteSet {
      assert e in p.1.readWriteSet;
    } else {
      assert e in p.1.readSet;
    }
  }

  lemma PartIsOne(w: World, p: Part)
    requires IsCopy(w, p.0, p.1)
    ensures p in Parts(w, Strip(p.1))
  {
    var k :| k in KeysAt(w, p);
    var e := EntryOf(w, p, k);
    SameEntries(p.1);
  }

  lemma OneEntry(t: Txn, e: KeyEntry, f: KeyEntry)
    requires DistinctKeys(t) && e in Entries(t) && f in Entries(t) && e.key == f.key
    ensures e == f
  {
    Exchange.DistinctEntries(t);
  }

  /** A record belongs to one part of a transaction only. */
  lemma OnePart(w: World, p: Part, q: Part, k: Key)
    requires !p.1.newGenerated && !q.1.newGenerated && Strip(p.1) == Strip(q.1) && DistinctKeys(p.1)
    requires k in KeysAt(w, p) && k in KeysAt(w, q)
    ensures p == q
  {
    var e := EntryOf(w, p, k);
    var f := EntryOf(w, q, k);
    SameEntries(p.1);
    SameEntries(q.1);
    OneEntry(p.1, e, f);
  }

  lemma WrittenAt(w: World, p: Part, k: Key)
    requires !p.1.newGenerated && k in WritesAt(w, p)
    ensures k in KeysAt(w, p) && k in Written(Strip(p.1)) && k in Keyed(Strip(p.1))
  {
    var e := EntryOf(w, p, k);
    SameEntries(p.1);
  }

  // -------- locks

  ghost function Gone(w: World, s: State, m: nat): set<(Txn, Key)> {
    set p, k | p in s.released && p.0 == m && k in KeysAt(w, p) :: (p.1, k)
  }

  lemma GoneMembers(w: World, s: State, m: nat, u: Txn, k: Key)
    ensures (u, k) in Gone(w, s, m) <==> (m, u) in s.released && k in KeysAt(w, (m, u))
  {
    if (m, u) in s.released && k in KeysAt(w, (m, u)) {
      var p := (m, u);
      assert p in s.released;
    }
  }

  ghost predicate MachineInv(w: World, s: State, m: nat) {
    && m in s.locks && m in s.locked
    && Inv(w.Config(m), s.locked[m], Gone(w, s, m), {}, s.locks[m])
    && (forall u :: u in s.locked[m] ==> IsCopy(w, m, u) && (m, u) !in s.unlocked)
  }

  ghost predicate LocksInv(w: World, s: State) {
    && (forall m :: m in s.locks || m in s.locked ==> m < w.machines)
    && (forall m: nat :: m < w.machines ==> MachineInv(w, s, m))
  }

  lemma MachineFrame(w: World, s: State, s': State, m: nat)
    requires MachineInv(w, s, m) && m in s'.locks && m in s'.locked
    requires s'.locks[m] == s.locks[m] && s'.locked[m] == s.locked[m]
    requires forall u :: (m, u) in s'.released <==> (m, u) in s.released
    requires forall u :: u in s.locked[m] ==> (m, u) !in s'.unlocked
    ensures MachineInv(w, s', m)
  {
    forall u, k ensures (u, k) in Gone(w, s', m) <==> (u, k) in Gone(w, s, m) {
      GoneMembers(w, s, m, u, k);
      GoneMembers(w, s', m, u, k);
    }
    assert Gone(w, s', m) == Gone(w, s, m);
  }

  lemma RequestKeepsMachine(w: World, s: State, m: nat, u: Txn)
    requires MachineInv(w, s, m) && Enabled(w, s, Request(m, u))
    ensures MachineInv(w, Apply(w, s, Request(m, u)), m)
  {
    var s' := Apply(w, s, Request(m, u));
    forall v, k ensures (v, k) in Gone(w, s', m) <==> (v, k) in Gone(w, s, m) {
      GoneMembers(w, s, m, v, k);
      GoneMembers(w, s', m, v, k);
    }
    assert Gone(w, s', m) == Gone(w, s, m);
    LockKeepsInv(w.Config(m), s.locked[m], Gone(w, s, m), {}, s.locks[m], u);
  }

  /** What a part with locks has begun is ready at its machine. */
  ghost predicate BegunAt(w: World, s: State, p: Part) {
    && IsCopy(w, p.0, p.1)
    && (p !in s.unlocked ==> p.0 in s.locks && p.1 in s.locks[p.0].ready)
    && (forall k :: k in KeysAt(w, p) ==> (Strip(p.1), k) in s.readings)
  }

  ghost predicate BegunInv(w: World, s: State) {
    (forall p :: p in s.begun ==> BegunAt(w, s, p)) && s.unlocked <= s.early <= s.begun
  }

  /** Of two copies locked one after the other that conflict, the second is ready only if the first has been released. */
  lemma NotBefore(w: World, s: State, m: nat, i: nat, j: nat, k: Key)
    requires MachineInv(w, s, m) && i < |s.locked[m]| && j < |s.locked[m]| && s.locked[m][j] in s.locks[m].ready
    requires (m, s.locked[m][i]) !in s.released && (m, s.locked[m][j]) !in s.released
    requires Conflict(w.Config(m), s.locked[m][i], s.locked[m][j], k)
    ensures j <= i
  {
    GoneMembers(w, s, m, s.locked[m][i], k);
    GoneMembers(w, s, m, s.locked[m][j], k);
    if i < j {
      ReadyHasNoRival(w.Config(m), s.locked[m], Gone(w, s, m), {}, s.locks[m], i, j, k);
    }
  }

  /** Of the parts that have begun with locks and not been released, no two conflict. */
  lemma OneHolder(w: World, s: State, p: Part, q: Part, k: Key)
    requires LocksInv(w, s) && BegunInv(w, s) && p in s.begun && q in s.begun && p.0 == q.0
    requires p !in s.unlocked && q !in s.unlocked && p !in s.released && q !in s.released
    requires k in KeysAt(w, p) && k in KeysAt(w, q) && (k in WritesAt(w, p) || k in WritesAt(w, q))
    ensures p == q
  {
    var m := p.0;
    assert BegunAt(w, s, p) && BegunAt(w, s, q) && MachineInv(w, s, m);
    var i :| 0 <= i < |s.locked[m]| && s.locked[m][i] == p.1;
    var j :| 0 <= j < |s.locked[m]| && s.locked[m][j] == q.1;
    NotBefore(w, s, m, i, j, k);
    NotBefore(w, s, m, j, i, k);
  }

  lemma ReleaseKeepsMachine(w: World, s: State, p: Part)
    requires LocksInv(w, s) && BegunInv(w, s) && Enabled(w, s, Release(p)) && p in s.begun
    ensures MachineInv(w, Apply(w, s, Release(p)), p.0)
  {
    var s', m := Apply(w, s, Release(p)), p.0;
    assert BegunAt(w, s, p) && MachineInv(w, s, m);
    forall k ensures (p.1, k) !in Gone(w, s, m) {
      GoneMembers(w, s, m, p.1, k);
    }
    ReleaseKeepsInv(w.Config(m), s.locked[m], Gone(w, s, m), {}, s.locks[m], p.1);
    forall u, k ensures (u, k) in Gone(w, s', m) <==> (u, k) in GoneWith(w.Config(m), Gone(w, s, m), p.1) {
      GoneMembers(w, s, m, u, k);
      GoneMembers(w, s', m, u, k);
    }
    assert Gone(w, s', m) == GoneWith(w.Config(m), Gone(w, s, m), p.1);
  }

  lemma LocksKept(w: World, s: State, e: Event)
    requires LocksInv(w, s) && BegunInv(w, s) && Enabled(w, s, e) && (e.Release? ==> e.p in s.begun)
    ensures LocksInv(w, Apply(w, s, e))
  {
    var s' := Apply(w, s, e);
    forall m: nat | m < w.machines ensures MachineInv(w, s', m) {
      assert MachineInv(w, s, m);
      if e.Request? && e.m == m {
        RequestKeepsMachine(w, s, m, e.u);
      } else if e.Release? && e.p.0 == m {
        ReleaseKeepsMachine(w, s, e.p);
      } else {
        MachineFrame(w, s, s', m);
      }
    }
    if e.Release? {
      assert BegunAt(w, s, e.p);
    }
  }

  lemma ReadyIsCopy(w: World, s: State, m: nat, u: Txn)
    requires LocksInv(w, s) && m in s.locks && u in s.locks[m].ready
    ensures IsCopy(w, m, u) && (m, u) !in s.unlocked
  {
    assert MachineInv(w, s, m);
  }

  lemma ReadyStays(w: World, s: State, e: Event, m: nat, u: Txn)
    requires Enabled(w, s, e) && m in s.locks && u in s.locks[m].ready
    ensures var s' := Apply(w, s, e); m in s'.locks && u in s'.locks[m].ready
  {
    if e.Release? {
      ReleaseAppendsToReady(s.locks[e.p.0], Held(w.Config(e.p.0), e.p.1), e.p.1);
    }
  }

  lemma ReadsAll(w: World, s: State, p: Part)
    requires IsCopy(w, p.0, p.1) && w.initial.Keys <= s.store.Keys
    ensures forall k :: k in KeysAt(w, p) ==>
              k in s.store && (Strip(p.1), k) in ReadsOf(w, s, p) && ReadsOf(w, s, p)[(Strip(p.1), k)] == s.store[k]
  {
    forall k | k in KeysAt(w, p) ensures k in s.store && (Strip(p.1), k) in ReadsOf(w, s, p) {
      var e := EntryOf(w, p, k);
      assert k in Keyed(p.1);
      assert (Strip(p.1), k) in PairsOf(Strip(p.1), KeysAt(w, p));
    }
  }

  lemma BegunKept(w: World, s: State, e: Event)
    requires LocksInv(w, s) && BegunInv(w, s) && Enabled(w, s, e) && w.initial.Keys <= s.store.Keys
    ensures BegunInv(w, Apply(w, s, e))
  {
    var s' := Apply(w, s, e);
    if e.Begin? {
      ReadyIsCopy(w, s, e.p.0, e.p.1);
    }
    forall p | p in s'.begun ensures BegunAt(w, s', p) {
      if p in s.begun {
        assert BegunAt(w, s, p);
        if p !in s.unlocked {
          ReadyStays(w, s, e, p.0, p.1);
        }
      } else {
        ReadsAll(w, s, p);
      }
    }
  }

  // -------- what a transaction has read

  /** What a part has read stays. */
  lemma ReadingsLast(w: World, s: State, e: Event, p: Part, k: Key)
    requires BegunInv(w, s) && LocksInv(w, s) && Enabled(w, s, e) && p in s.begun && k in KeysAt(w, p)
    ensures (Strip(p.1), k) in s.readings && (Strip(p.1), k) in Apply(w, s, e).readings
    ensures Apply(w, s, e).readings[(Strip(p.1), k)] == s.readings[(Strip(p.1), k)]
  {
    assert BegunAt(w, s, p);
    if e.Begin? {
      ReadyIsCopy(w, s, e.p.0, e.p.1);
    }
    if (e.Begin? || e.BeginUnlocked?) && Strip(e.p.1) == Strip(p.1) && k in KeysAt(w, e.p) {
      OnePart(w, p, e.p, k);
    }
  }

  lemma OthersUnread(w: World, s: State, p: Part, t: Txn, k: Key)
    requires Strip(p.1) != t
    ensures (t, k) !in ReadsOf(w, s, p)
  {
  }

  /** Once all parts of a transaction have begun, what it has read stays. */
  lemma ObjectsLast(w: World, s: State, e: Event, t: Txn)
    requires LocksInv(w, s) && Enabled(w, s, e) && Parts(w, t) <= s.begun
    ensures Objects(Apply(w, s, e), t) == Objects(s, t)
  {
    var s' := Apply(w, s, e);
    if e.Begin? || e.BeginUnlocked? {
      if e.Begin? {
        ReadyIsCopy(w, s, e.p.0, e.p.1);
      }
      PartIsOne(w, e.p);
      forall k ensures (t, k) in s'.readings <==> (t, k) in s.readings {
        OthersUnread(w, s, e.p, t, k);
      }
    }
  }

  /** An early part has read a record that is ahead of its entry. */
  ghost predicate StaleRead(w: World, s: State, p: Part) {
    exists e :: e in Entries(p.1) && PartFor(w, Strip(p.1), e) == p && (Strip(p.1), e.key) in s.readings
      && e.counter < s.readings[(Strip(p.1), e.key)].counter
  }

  ghost predicate EarlyInv(w: World, s: State) {
    forall p :: p in s.early ==> StaleRead(w, s, p)
  }

  lemma StaleLasts(w: World, s: State, e: Event, p: Part)
    requires BegunInv(w, s) && LocksInv(w, s) && Enabled(w, s, e) && p in s.begun && StaleRead(w, s, p)
    ensures StaleRead(w, Apply(w, s, e), p)
  {
    var f :| f in Entries(p.1) && PartFor(w, Strip(p.1), f) == p && (Strip(p.1), f.key) in s.readings
             && f.counter < s.readings[(Strip(p.1), f.key)].counter;
    SameEntries(p.1);
    EntryIsAt(w, Strip(p.1), f);
    assert BegunAt(w, s, p);
    ReadingsLast(w, s, e, p, f.key);
  }

  lemma EarlyKept(w: World, s: State, e: Event)
    requires LocksInv(w, s) && BegunInv(w, s) && EarlyInv(w, s) && Enabled(w, s, e) && w.initial.Keys <= s.store.Keys
    ensures EarlyInv(w, Apply(w, s, e))
  {
    var s' := Apply(w, s, e);
    forall p | p in s'.early ensures StaleRead(w, s', p) {
      if p in s.early {
        StaleLasts(w, s, e, p);
      } else {
        if e.Begin? {
          ReadyIsCopy(w, s, p.0, p.1);
        }
        BehindIsStale(w, s, s', p);
      }
    }
  }

  lemma BehindIsStale(w: World, s: State, s': State, p: Part)
    requires Behind(w, s, p) && IsCopy(w, p.0, p.1) && w.initial.Keys <= s.store.Keys
    requires s'.readings == s.readings + ReadsOf(w, s, p)
    ensures StaleRead(w, s', p)
  {
    var f :| f in Entries(p.1) && PartFor(w, Strip(p.1), f) == p && f.key in s.store && f.counter < s.store[f.key].counter;
    SameEntries(p.1);
    EntryIsAt(w, Strip(p.1), f);
    ReadsAll(w, s, p);
  }

  // -------- decisions

  lemma AllObjects(w: World, s: State, t: Txn)
    requires BegunInv(w, s) && Parts(w, t) <= s.begun && t == Strip(t)
    ensures forall e :: e in Entries(t) ==> e.key in Objects(s, t) && Objects(s, t)[e.key] == s.readings[(t, e.key)]
  {
    forall e | e in Entries(t) ensures e.key in Objects(s, t) && Objects(s, t)[e.key] == s.readings[(t, e.key)] {
      EntryIsAt(w, t, e);
      assert BegunAt(w, s, PartFor(w, t, e));
      SameEntries(PartFor(w, t, e).1);
    }
  }

  lemma ShardsAreParts(w: World, t: Txn, e: KeyEntry, p: Part)
    requires e in Entries(t) && |ShardsOf(w, t)| == 1 && p in Parts(w, t)
    ensures PartFor(w, t, e) == p
  {
    var f :| f in Entries(t) && PartFor(w, t, f) == p;
    assert (w.partition(e.key), e.master) in ShardsOf(w, t) && (w.partition(f.key), f.master) in ShardsOf(w, t);
    Exchange.Singleton(ShardsOf(w, t), (w.partition(e.key), e.master));
  }

  /** Short cuts or not, early or not: a part that has heard all commits exactly if every entry is what was read. */
  lemma VerdictIsGlobal(w: World, s: State, p: Part)
    requires BegunInv(w, s) && EarlyInv(w, s) && p in s.begun && Parts(w, Strip(p.1)) <= s.begun
    ensures Verdict(w, s, p) <==> AllCurrent(Objects(s, Strip(p.1)), Strip(p.1))
  {
    var t := Strip(p.1);
    assert BegunAt(w, s, p);
    SameEntries(p.1);
    PartIsOne(w, p);
    AllObjects(w, s, t);
    if p in s.early {
      assert StaleRead(w, s, p);
    }
    if |ShardsOf(w, t)| == 1 {
      forall e | e in Entries(t) ensures PartFor(w, t, e) == p {
        ShardsAreParts(w, t, e, p);
      }
    }
  }

  ghost predicate DecidedAt(w: World, s: State, p: Part)
    requires p in s.decided
  {
    p in s.begun && Parts(w, Strip(p.1)) <= s.begun
    && (s.decided[p] <==> AllCurrent(Objects(s, Strip(p.1)), Strip(p.1)))
  }

  ghost predicate DecidedInv(w: World, s: State) {
    (forall p, q :: (p, q) in s.delivered ==> p in s.begun) && forall p :: p in s.decided ==> DecidedAt(w, s, p)
  }

  lemma DecidedKept(w: World, s: State, e: Event)
    requires LocksInv(w, s) && BegunInv(w, s) && EarlyInv(w, s) && DecidedInv(w, s) && Enabled(w, s, e)
    ensures DecidedInv(w, Apply(w, s, e))
  {
    var s' := Apply(w, s, e);
    forall p | p in s'.decided ensures DecidedAt(w, s', p) {
      if p in s.decided {
        assert DecidedAt(w, s, p);
      } else {
        assert Parts(w, Strip(p.1)) <= s.begun by {
          forall q | q in Parts(w, Strip(p.1)) ensures q in s.begun {
            assert q != p ==> (q, p) in s.delivered;
          }
        }
        VerdictIsGlobal(w, s, p);
      }
      ObjectsLast(w, s, e, Strip(p.1));
    }
  }

  /** Whoever writes has decided to commit; whoever is released is done. */
  ghost predicate WriterDecided(w: World, s: State, t: Txn, k: Key) {
    exists p :: p in s.decided && s.decided[p] && Strip(p.1) == t && k in WritesAt(w, p)
  }

  ghost predicate WrittenInv(w: World, s: State) {
    && (forall t, k :: (t, k) in s.written ==> WriterDecided(w, s, t, k))
    && (forall p :: p in s.released ==> Done(w, s, p) && p !in s.unlocked)
  }

  lemma DecisionLasts(w: World, s: State, e: Event, p: Part)
    requires Enabled(w, s, e) && p in s.decided
    ensures var s' := Apply(w, s, e); p in s'.decided && s'.decided[p] == s.decided[p]
  {
  }

  lemma WriterLasts(w: World, s: State, e: Event, t: Txn, k: Key)
    requires Enabled(w, s, e) && WriterDecided(w, s, t, k)
    ensures WriterDecided(w, Apply(w, s, e), t, k)
  {
    var p :| p in s.decided && s.decided[p] && Strip(p.1) == t && k in WritesAt(w, p);
    DecisionLasts(w, s, e, p);
  }

  lemma DoneLasts(w: World, s: State, e: Event, p: Part)
    requires Enabled(w, s, e) && Done(w, s, p)
    ensures Done(w, Apply(w, s, e), p)
  {
    DecisionLasts(w, s, e, p);
  }

  lemma WrittenKept(w: World, s: State, e: Event)
    requires WrittenInv(w, s) && DecidedInv(w, s) && Enabled(w, s, e)
    ensures WrittenInv(w, Apply(w, s, e))
  {
    var s' := Apply(w, s, e);
    forall t, k | (t, k) in s'.written ensures WriterDecided(w, s', t, k) {
      if (t, k) in s.written {
        WriterLasts(w, s, e, t, k);
      } else {
        assert WriterDecided(w, s, t, k);
        WriterLasts(w, s, e, t, k);
      }
    }
    forall p | p in s'.released ensures Done(w, s', p) && p !in s'.unlocked {
      DoneLasts(w, s, e, p);
      assert p in s.decided && DecidedAt(w, s, p);
    }
  }

  // -------- the log

  ghost predicate LoggedAt(w: World, s: State, t: Txn) {
    && t == Strip(t) && DistinctKeys(t) && Keyed(t) <= w.initial.Keys && Entries(t) != []
    && Parts(w, t) <= s.begun && Parts(w, t) !! s.unlocked
  }

  ghost predicate LogInv(w: World, s: State) {
    && NoDuplicates(s.log) && (forall t :: t in s.log ==> LoggedAt(w, s, t))
    && (forall p :: p in s.begun && Parts(w, Strip(p.1)) <= s.begun && Parts(w, Strip(p.1)) !! s.unlocked ==>
          Strip(p.1) in s.log)
  }

  lemma PartOfOne(w: World, t: Txn, p: Part)
    requires t == Strip(t) && p in Parts(w, t)
    ensures Strip(p.1) == t
  {
  }

  lemma NewIsNotLogged(w: World, s: State, p: Part)
    requires LogInv(w, s) && IsCopy(w, p.0, p.1) && p !in s.begun
    ensures Strip(p.1) !in s.log
  {
    PartIsOne(w, p);
    assert Strip(p.1) in s.log ==> LoggedAt(w, s, Strip(p.1));
  }

  lemma BeginKeepsLog(w: World, s: State, p: Part, early: bool)
    requires LogInv(w, s) && LocksInv(w, s) && Enabled(w, s, Begin(p, early))
    ensures LogInv(w, Apply(w, s, Begin(p, early)))
  {
    var s', t := Apply(w, s, Begin(p, early)), Strip(p.1);
    ReadyIsCopy(w, s, p.0, p.1);
    NewIsNotLogged(w, s, p);
    SameEntries(p.1);
    PartIsOne(w, p);
    forall u | u in s'.log ensures LoggedAt(w, s', u) {
      assert u in s.log ==> LoggedAt(w, s, u);
    }
    forall q | q in s'.begun && Parts(w, Strip(q.1)) <= s'.begun && Parts(w, Strip(q.1)) !! s'.unlocked
      ensures Strip(q.1) in s'.log
    {
      if Strip(q.1) != t {
        if p in Parts(w, Strip(q.1)) {
          PartOfOne(w, Strip(q.1), p);
        }
        assert Parts(w, Strip(q.1)) <= s.begun;
      }
    }
  }

  lemma BeginUnlockedKeepsLog(w: World, s: State, p: Part)
    requires LogInv(w, s) && Enabled(w, s, BeginUnlocked(p))
    ensures LogInv(w, Apply(w, s, BeginUnlocked(p)))
  {
    var s' := Apply(w, s, BeginUnlocked(p));
    PartIsOne(w, p);
    forall u | u in s'.log ensures LoggedAt(w, s', u) {
      assert LoggedAt(w, s, u);
    }
    forall q | q in s'.begun && Parts(w, Strip(q.1)) <= s'.begun && Parts(w, Strip(q.1)) !! s'.unlocked
      ensures Strip(q.1) in s'.log
    {
      assert p !in Parts(w, Strip(q.1));
    }
  }

  lemma LogKept(w: World, s: State, e: Event)
    requires LogInv(w, s) && LocksInv(w, s) && Enabled(w, s, e)
    ensures LogInv(w, Apply(w, s, e)) && s.log <= Apply(w, s, e).log
  {
    var s' := Apply(w, s, e);
    if e.Begin? {
      BeginKeepsLog(w, s, e.p, e.early);
    } else if e.BeginUnlocked? {
      BeginUnlockedKeepsLog(w, s, e.p);
    } else {
      forall u | u in s'.log ensures LoggedAt(w, s', u) {
        assert LoggedAt(w, s, u);
      }
    }
  }

  // -------- who comes first

  /** Where `t` and `u` conflict, `t` has been released. */
  ghost predicate Cleared(w: World, s: State, t: Txn, u: Txn) {
    forall e, f :: e in Entries(t) && f in Entries(u) && e.key == f.key && (e in t.readWriteSet || f in u.readWriteSet) ==>
      PartFor(w, t, e) in s.released
  }

  ghost predicate OrderInv(w: World, s: State) {
    forall i, j :: 0 <= i < j < |s.log| ==> Cleared(w, s, s.log[i], s.log[j])
  }

  lemma ReleasedHasBegun(w: World, s: State, q: Part)
    requires WrittenInv(w, s) && DecidedInv(w, s) && q in s.released
    ensures Parts(w, Strip(q.1)) <= s.begun
  {
    assert Done(w, s, q) && DecidedAt(w, s, q);
  }

  lemma WrittenHasBegun(w: World, s: State, t: Txn, k: Key)
    requires WrittenInv(w, s) && DecidedInv(w, s) && (t, k) in s.written
    ensures Parts(w, t) <= s.begun
  {
    assert WriterDecided(w, s, t, k);
    var r :| r in s.decided && s.decided[r] && Strip(r.1) == t && k in WritesAt(w, r);
    assert DecidedAt(w, s, r);
  }

  /** A transaction one of whose parts has not begun has decided nothing, so it is neither released nor written. */
  lemma NothingYet(w: World, s: State, p: Part, q: Part, k: Key)
    requires WrittenInv(w, s) && DecidedInv(w, s) && p !in s.begun && p in Parts(w, Strip(q.1))
    ensures q !in s.released && (Strip(q.1), k) !in s.written
  {
    if q in s.released {
      ReleasedHasBegun(w, s, q);
    }
    if (Strip(q.1), k) in s.written {
      WrittenHasBegun(w, s, Strip(q.1), k);
    }
  }

  /** When the last part of `u` has begun, whoever is in the log and conflicts has been released there. */
  lemma LastClears(w: World, s: State, s': State, p: Part, t: Txn, u: Txn)
    requires LocksInv(w, s') && BegunInv(w, s') && WrittenInv(w, s) && DecidedInv(w, s) && s'.released == s.released
    requires LoggedAt(w, s', t) && LoggedAt(w, s', u) && t != u && p !in s.begun && p in Parts(w, u)
    ensures Cleared(w, s', t, u)
  {
    forall e, f | e in Entries(t) && f in Entries(u) && e.key == f.key && (e in t.readWriteSet || f in u.readWriteSet)
      ensures PartFor(w, t, e) in s'.released
    {
      var x, y := PartFor(w, t, e), PartFor(w, u, f);
      EntryIsAt(w, t, e);
      EntryIsAt(w, u, f);
      PartOfOne(w, u, y);
      PartOfOne(w, t, x);
      NothingYet(w, s, p, y, e.key);
      if x !in s'.released {
        OneHolder(w, s', x, y, e.key);
      }
    }
  }

  lemma ClearedLasts(w: World, s: State, s': State, t: Txn, u: Txn)
    requires Cleared(w, s, t, u) && s.released <= s'.released
    ensures Cleared(w, s', t, u)
  {
  }

  /** The log grows by the transaction whose last part begins. */
  lemma LogGrows(w: World, s: State, e: Event)
    requires Enabled(w, s, e)
    ensures var s' := Apply(w, s, e);
            && s.released <= s'.released
            && (s'.log == s.log || (e.Begin? && s'.log == s.log + [Strip(e.p.1)] && s'.released == s.released))
  {
  }

  lemma NewestCleared(w: World, s: State, s': State, p: Part, t: Txn, i: nat)
    requires LocksInv(w, s') && BegunInv(w, s') && LogInv(w, s') && WrittenInv(w, s) && DecidedInv(w, s)
    requires s'.released == s.released && s'.log == s.log + [t] && i < |s.log|
    requires p !in s.begun && p in Parts(w, t)
    ensures Cleared(w, s', s.log[i], t)
  {
    assert s'.log[i] == s.log[i] && s'.log[|s.log|] == t;
    assert s.log[i] in s'.log && t in s'.log;
    LastClears(w, s, s', p, s.log[i], t);
  }

  lemma OrderKept(w: World, s: State, e: Event)
    requires LocksInv(w, s) && OrderInv(w, s) && WrittenInv(w, s) && DecidedInv(w, s) && Enabled(w, s, e)
    requires var s' := Apply(w, s, e); LocksInv(w, s') && BegunInv(w, s') && LogInv(w, s')
    ensures OrderInv(w, Apply(w, s, e))
  {
    var s' := Apply(w, s, e);
    LogGrows(w, s, e);
    if s'.log != s.log {
      ReadyIsCopy(w, s, e.p.0, e.p.1);
      PartIsOne(w, e.p);
    }
    forall i, j | 0 <= i < j < |s'.log| ensures Cleared(w, s', s'.log[i], s'.log[j]) {
      if j < |s.log| {
        assert Cleared(w, s, s.log[i], s.log[j]);
        ClearedLasts(w, s, s', s.log[i], s.log[j]);
      } else {
        NewestCleared(w, s, s', e.p, Strip(e.p.1), i);
      }
    }
  }

  // -------- reads stay current

  ghost predicate CurrentAt(w: World, s: State, p: Part) {
    p in s.begun && p !in s.unlocked && p !in s.released ==>
      forall k :: k in KeysAt(w, p) && (Strip(p.1), k) !in s.written ==>
        k in s.store && (Strip(p.1), k) in s.readings && s.store[k] == s.readings[(Strip(p.1), k)]
  }

  ghost predicate CurrentInv(w: World, s: State) {
    forall p :: CurrentAt(w, s, p)
  }

  /** Who commits has read everything with locks, and is in the log. */
  lemma CommitterIsLogged(w: World, s: State, p: Part)
    requires BegunInv(w, s) && EarlyInv(w, s) && DecidedInv(w, s) && LogInv(w, s) && p in s.decided && s.decided[p]
    ensures Strip(p.1) in s.log && p in s.begun && p !in s.unlocked && IsCopy(w, p.0, p.1)
  {
    var t := Strip(p.1);
    assert DecidedAt(w, s, p) && BegunAt(w, s, p);
    PartIsOne(w, p);
    AllObjects(w, s, t);
    forall q | q in Parts(w, t) ensures q !in s.unlocked {
      if q in s.unlocked {
        assert StaleRead(w, s, q);
        PartOfOne(w, t, q);
        SameEntries(q.1);
      }
    }
  }

  /** Nobody else holds a lock on a record that is being written. */
  lemma WriterIsAlone(w: World, s: State, q: Part, k: Key, p: Part)
    requires LocksInv(w, s) && BegunInv(w, s) && EarlyInv(w, s) && DecidedInv(w, s) && LogInv(w, s) && WrittenInv(w, s)
    requires Enabled(w, s, Write(q, k))
    requires p in s.begun && p !in s.unlocked && p !in s.released && k in KeysAt(w, p)
    ensures p == q
  {
    CommitterIsLogged(w, s, q);
    WrittenAt(w, q, k);
    assert q in s.released ==> Done(w, s, q);
    assert BegunAt(w, s, p);
    var e := EntryOf(w, p, k);
    var f := EntryOf(w, q, k);
    OneHolder(w, s, p, q, k);
  }

  lemma WriteChanges(w: World, s: State, q: Part, k: Key)
    requires Enabled(w, s, Write(q, k))
    ensures var s' := Apply(w, s, Write(q, k));
            && s'.begun == s.begun && s'.unlocked == s.unlocked && s'.released == s.released && s'.readings == s.readings
            && s'.written == s.written + {(Strip(q.1), k)} && s'.log == s.log
            && (forall j :: j in s.store && j != k ==> j in s'.store && s'.store[j] == s.store[j])
  {
  }

  lemma WriteKeepsCurrent(w: World, s: State, q: Part, k: Key, p: Part)
    requires LocksInv(w, s) && BegunInv(w, s) && EarlyInv(w, s) && DecidedInv(w, s) && LogInv(w, s) && WrittenInv(w, s)
    requires CurrentAt(w, s, p) && Enabled(w, s, Write(q, k))
    ensures CurrentAt(w, Apply(w, s, Write(q, k)), p)
  {
    WriteChanges(w, s, q, k);
    if p in s.begun && p !in s.unlocked && p !in s.released && k in KeysAt(w, p) {
      WriterIsAlone(w, s, q, k, p);
    }
  }

  lemma CurrentKept(w: World, s: State, e: Event)
    requires LocksInv(w, s) && BegunInv(w, s) && EarlyInv(w, s) && DecidedInv(w, s) && LogInv(w, s) && WrittenInv(w, s)
    requires CurrentInv(w, s) && Enabled(w, s, e) && w.initial.Keys <= s.store.Keys
    ensures CurrentInv(w, Apply(w, s, e))
  {
    forall p ensures CurrentAt(w, Apply(w, s, e), p) {
      assert CurrentAt(w, s, p);
      if e.Write? {
        WriteKeepsCurrent(w, s, e.p, e.k, p);
      } else {
        ReadingKeepsCurrent(w, s, e, p);
      }
    }
  }

  lemma ReadingKeepsCurrent(w: World, s: State, e: Event, p: Part)
    requires LocksInv(w, s) && BegunInv(w, s) && CurrentAt(w, s, p) && Enabled(w, s, e) && !e.Write?
    requires w.initial.Keys <= s.store.Keys
    ensures CurrentAt(w, Apply(w, s, e), p)
  {
    var s' := Apply(w, s, e);
    if p in s'.begun && p !in s'.unlocked && p !in s'.released {
      if p in s.begun {
        forall k | k in KeysAt(w, p) && (Strip(p.1), k) !in s'.written
          ensures k in s'.store && (Strip(p.1), k) in s'.readings && s'.store[k] == s'.readings[(Strip(p.1), k)]
        {
          ReadingsLast(w, s, e, p, k);
        }
      } else {
        ReadyIsCopy(w, s, p.0, p.1);
        ReadsAll(w, s, p);
      }
    }
  }
}
