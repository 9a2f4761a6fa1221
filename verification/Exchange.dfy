/** How the shards of one transaction exchange what they read and decide, each alone, to commit or abort. */
module Exchange {
  import opened Txns

  datatype Record = Record(value: string, master: nat, counter: nat)

  datatype ReadResult = ReadResult(key: Key, record: Record)

  /** One replica: its mode, the placement of keys, and the records, which locks keep still. */
  datatype Site = Site(mode: nat, partition: Key -> nat, store: Key -> Record)

  /** A partition, and the origin of the copy of the transaction that runs there. */
  type Shard = (nat, nat)

  /** What one shard of a transaction knows. `early` is set when the scheduler already found it doomed. */
  datatype Manager = Manager(
    objects: map<Key, Record>,
    localEntries: seq<ReadResult>,
    localCommit: bool,
    involved: set<Shard>,
    targets: set<Shard>,
    early: bool)

  /** The shard that reads an entry: in the original mode every record is mastered where the transaction is. */
  function Home(site: Site, t: Txn, e: KeyEntry): Shard {
    (site.partition(e.key), if site.mode == 0 then t.origin else e.master)
  }

  function Homes(site: Site, t: Txn, es: seq<KeyEntry>): set<Shard> {
    set e | e in es :: Home(site, t, e)
  }

  function Shards(site: Site, t: Txn): set<Shard> {
    Homes(site, t, Entries(t))
  }

  function Writers(site: Site, t: Txn): set<Shard> {
    Homes(site, t, t.readWriteSet)
  }

  predicate Matches(site: Site, e: KeyEntry) {
    e.master == site.store(e.key).master && e.counter == site.store(e.key).counter
  }

  predicate AllMatch(site: Site, es: seq<KeyEntry>) {
    forall e :: e in es ==> Matches(site, e)
  }

  // -------- what the shards do, as functions

  function KeysAt(site: Site, t: Txn, es: seq<KeyEntry>, qs: set<Shard>): set<Key> {
    set e | e in es && Home(site, t, e) in qs :: e.key
  }

  /** The records read by the shards `qs`. */
  function ObjectsAt(site: Site, t: Txn, es: seq<KeyEntry>, qs: set<Shard>): map<Key, Record> {
    map k | k in KeysAt(site, t, es, qs) :: site.store(k)
  }

  function ResultsOf(site: Site, t: Txn, es: seq<KeyEntry>, q: Shard): seq<ReadResult> {
    if es == [] then []
    else
      var e := es[|es| - 1];
      ResultsOf(site, t, es[..|es| - 1], q) + if Home(site, t, e) == q then [ReadResult(e.key, site.store(e.key))] else []
  }

  predicate LocalMatch(site: Site, t: Txn, es: seq<KeyEntry>, q: Shard) {
    forall e :: e in es && Home(site, t, e) == q ==> Matches(site, e)
  }

  /** A shard reads its own records and sends them to every other shard that writes. */
  function Begun(site: Site, t: Txn, q: Shard, early: bool): Manager {
    Reading(site, t, q, Entries(t), Writers(site, t) - {q}, early)
  }

  /** A shard that has read the entries `es` and will tell `targets`. */
  function Reading(site: Site, t: Txn, q: Shard, es: seq<KeyEntry>, targets: set<Shard>, early: bool): Manager {
    Manager(ObjectsAt(site, t, es, {q}), ResultsOf(site, t, es, q), LocalMatch(site, t, es, q),
            if site.mode == 2 then Homes(site, t, es) else {}, targets, early)
  }

  lemma HomesMore(site: Site, t: Txn, es: seq<KeyEntry>, e: KeyEntry)
    ensures Homes(site, t, es + [e]) == Homes(site, t, es) + {Home(site, t, e)}
    ensures forall q :: LocalMatch(site, t, es + [e], q)
                        <==> LocalMatch(site, t, es, q) && (Home(site, t, e) == q ==> Matches(site, e))
  {
    assert e in es + [e];
  }

  /** The entries that shard `q` reads: what its partition stores, and unless in the original mode, is mastered where the copy
      comes from. */
  predicate ReadAt(site: Site, t: Txn, q: Shard, e: KeyEntry) {
    e in Entries(t) && site.partition(e.key) == q.0 && (if site.mode == 0 then t.origin == q.1 else e.master == q.1)
  }

  lemma {:induction false} ResultsAre(site: Site, t: Txn, es: seq<KeyEntry>, q: Shard)
    ensures forall r :: r in ResultsOf(site, t, es, q) <==>
              exists e :: e in es && Home(site, t, e) == q && r == ReadResult(e.key, site.store(e.key))
  {
    if es != [] {
      var init, e := es[..|es| - 1], es[|es| - 1];
      assert es == init + [e];
      ResultsAre(site, t, init, q);
    }
  }

  /** What a shard knows and whom it tells when it has begun. */
  lemma BegunKnows(site: Site, t: Txn, q: Shard, early: bool)
    ensures var m := Begun(site, t, q, early);
            && (forall k :: k in m.objects <==> exists e :: e in Entries(t) && ReadAt(site, t, q, e) && e.key == k)
            && (forall k :: k in m.objects ==> m.objects[k] == site.store(k))
            && (forall r :: r in m.localEntries <==>
                  exists e :: e in Entries(t) && ReadAt(site, t, q, e) && r == ReadResult(e.key, site.store(e.key)))
            && (m.localCommit <==> forall e :: e in Entries(t) && ReadAt(site, t, q, e) ==>
                  e.master == site.store(e.key).master && e.counter == site.store(e.key).counter)
    ensures var m := Begun(site, t, q, early);
            && (forall p :: p in m.targets <==> p != q && exists e :: e in t.readWriteSet && ReadAt(site, t, p, e))
            && (forall p :: p in m.involved <==> site.mode == 2 && exists e :: e in Entries(t) && ReadAt(site, t, p, e))
  {
    ResultsAre(site, t, Entries(t), q);
    assert forall e, p :: e in Entries(t) ==> (Home(site, t, e) == p <==> ReadAt(site, t, p, e));
    assert forall e :: e in t.readWriteSet ==> e in Entries(t);
  }

  function Absorb(objects: map<Key, Record>, results: seq<ReadResult>): map<Key, Record> {
    if results == [] then objects
    else
      var r := results[|results| - 1];
      Absorb(objects, results[..|results| - 1])[r.key := r.record]
  }

  predicate Ready(t: Txn, m: Manager) {
    |m.objects| == |t.readSet| + |t.readWriteSet|
  }

  predicate ObjectMatches(objects: map<Key, Record>, e: KeyEntry) {
    e.key in objects && e.master == objects[e.key].master && e.counter == objects[e.key].counter
  }

  /** The decision of a shard, with its three short cuts. */
  predicate Commits(t: Txn, m: Manager) {
    if m.early then false
    else if !m.localCommit then false
    else if |m.involved| == 1 then true
    else forall e :: e in Entries(t) ==> ObjectMatches(m.objects, e)
  }

  // -------- ready exactly when everybody has reported

  lemma DistinctEntries(t: Txn)
    requires DistinctKeys(t)
    ensures var es := Entries(t); forall i, j :: 0 <= i < j < |es| ==> es[i].key != es[j].key
  {
    var es, fs := Entries(t), t.readWriteSet + t.readSet;
    var n, m := |t.readSet|, |t.readWriteSet|;
    forall i, j | 0 <= i < j < |es| ensures es[i].key != es[j].key {
      var p := if i < n then i + m else i - n;
      var q := if j < n then j + m else j - n;
      assert es[i] == fs[p] && es[j] == fs[q];
    }
  }

  function AllKeys(es: seq<KeyEntry>): set<Key> {
    set e | e in es :: e.key
  }

  lemma {:induction false} AsManyKeysAsEntries(es: seq<KeyEntry>)
    requires forall i, j :: 0 <= i < j < |es| ==> es[i].key != es[j].key
    ensures |AllKeys(es)| == |es|
  {
    if es != [] {
      var init, e := es[..|es| - 1], es[|es| - 1];
      AsManyKeysAsEntries(init);
      assert es == init + [e];
      assert AllKeys(es) == AllKeys(init) + {e.key};
      assert e.key !in AllKeys(init);
    }
  }

  lemma Singleton<T>(s: set<T>, x: T)
    requires |s| == 1 && x in s
    ensures s == {x}
  {
    SubsetCardinality({x}, s);
  }

  lemma KeysOfAll(site: Site, t: Txn, heard: set<Shard>)
    requires DistinctKeys(t)
    ensures KeysAt(site, t, Entries(t), heard) == AllKeys(Entries(t)) <==> Shards(site, t) <= heard
  {
    var es := Entries(t);
    DistinctEntries(t);
    if KeysAt(site, t, es, heard) == AllKeys(es) {
      forall q | q in Shards(site, t) ensures q in heard {
        var e :| e in es && Home(site, t, e) == q;
        assert e.key in KeysAt(site, t, es, heard);
        var f :| f in es && Home(site, t, f) in heard && f.key == e.key;
        assert f == e;
      }
    }
  }

  /** A shard that holds the records of `heard` is ready exactly when that is all shards. */
  lemma ReadyIffAllHeard(site: Site, t: Txn, m: Manager, heard: set<Shard>)
    requires DistinctKeys(t) && m.objects == ObjectsAt(site, t, Entries(t), heard)
    ensures Ready(t, m) <==> Shards(site, t) <= heard
  {
    var es := Entries(t);
    DistinctEntries(t);
    AsManyKeysAsEntries(es);
    KeysOfAll(site, t, heard);
    assert m.objects.Keys == KeysAt(site, t, es, heard);
    SubsetCardinality(m.objects.Keys, AllKeys(es));
  }

  /** One more entry, read at `q` or not. */
  lemma ObjectsMore(site: Site, t: Txn, es: seq<KeyEntry>, e: KeyEntry, q: Shard)
    ensures var before, after := ObjectsAt(site, t, es, {q}), ObjectsAt(site, t, es + [e], {q});
            after == if Home(site, t, e) == q then before[e.key := site.store(e.key)] else before
  {
    var before, after := KeysAt(site, t, es, {q}), KeysAt(site, t, es + [e], {q});
    assert after == if Home(site, t, e) == q then before + {e.key} else before by {
      assert e in es + [e];
    }
  }

  lemma ResultsMore(site: Site, t: Txn, es: seq<KeyEntry>, e: KeyEntry, q: Shard)
    ensures ResultsOf(site, t, es + [e], q)
            == ResultsOf(site, t, es, q) + if Home(site, t, e) == q then [ReadResult(e.key, site.store(e.key))] else []
  {
    assert (es + [e])[..|es|] == es;
  }

  lemma AbsorbMore(objects: map<Key, Record>, results: seq<ReadResult>, r: ReadResult)
    ensures Absorb(objects, results + [r]) == Absorb(objects, results)[r.key := r.record]
  {
    assert (results + [r])[..|results|] == results;
  }

  lemma PutIntoUnion(objects: map<Key, Record>, local: map<Key, Record>, k: Key, r: Record)
    ensures objects + local[k := r] == (objects + local)[k := r]
  {
  }

  lemma AbsorbStep(objects: map<Key, Record>, site: Site, t: Txn, es: seq<KeyEntry>, e: KeyEntry, q: Shard)
    requires Absorb(objects, ResultsOf(site, t, es, q)) == objects + ObjectsAt(site, t, es, {q})
    ensures Absorb(objects, ResultsOf(site, t, es + [e], q)) == objects + ObjectsAt(site, t, es + [e], {q})
  {
    var results, local := ResultsOf(site, t, es, q), ObjectsAt(site, t, es, {q});
    ResultsMore(site, t, es, e, q);
    ObjectsMore(site, t, es, e, q);
    if Home(site, t, e) == q {
      AbsorbMore(objects, results, ReadResult(e.key, site.store(e.key)));
      PutIntoUnion(objects, local, e.key, site.store(e.key));
    } else {
      assert results + [] == results;
    }
  }

  lemma {:induction false} AbsorbAdds(objects: map<Key, Record>, site: Site, t: Txn, es: seq<KeyEntry>, q: Shard)
    ensures Absorb(objects, ResultsOf(site, t, es, q)) == objects + ObjectsAt(site, t, es, {q})
  {
    if es == [] {
      assert ObjectsAt(site, t, es, {q}) == map[];
    } else {
      AbsorbAdds(objects, site, t, es[..|es| - 1], q);
      AbsorbStep(objects, site, t, es[..|es| - 1], es[|es| - 1], q);
      assert es == es[..|es| - 1] + [es[|es| - 1]];
    }
  }

  lemma AbsorbUnion(site: Site, t: Txn, heard: set<Shard>, q: Shard)
    ensures Absorb(ObjectsAt(site, t, Entries(t), heard), ResultsOf(site, t, Entries(t), q))
            == ObjectsAt(site, t, Entries(t), heard + {q})
  {
    AbsorbAdds(ObjectsAt(site, t, Entries(t), heard), site, t, Entries(t), q);
  }

  // -------- one decision

  /** What the scheduler promises of a transaction it found doomed: some local entry is behind storage. */
  predicate EarlyIsRight(site: Site, t: Txn, q: Shard, early: bool) {
    early ==> exists e :: e in Entries(t) && Home(site, t, e) == q && e.counter < site.store(e.key).counter
  }

  /** In spite of the short cuts, a shard that has heard everybody commits exactly if every entry matches. */
  lemma DecisionIsGlobal(site: Site, t: Txn, q: Shard, m: Manager, heard: set<Shard>)
    requires site.mode == 2 && q in Shards(site, t) && EarlyIsRight(site, t, q, m.early)
    requires m == Begun(site, t, q, m.early).(objects := ObjectsAt(site, t, Entries(t), heard))
    requires Shards(site, t) <= heard
    ensures Commits(t, m) <==> AllMatch(site, Entries(t))
  {
    var es := Entries(t);
    forall e | e in es ensures ObjectMatches(m.objects, e) <==> Matches(site, e) {
      assert Home(site, t, e) in Shards(site, t);
      assert e.key in KeysAt(site, t, es, heard);
    }
    if |m.involved| == 1 {
      Singleton(m.involved, q);
      assert forall e :: e in es ==> Home(site, t, e) in m.involved;
      assert forall e :: e in es ==> Home(site, t, e) == q;
    }
  }

  /** The copy that runs at a shard has that shard's origin, and everything that matters is the same for it. */
  lemma CopyBehavesAlike(site: Site, t: Txn, q: Shard, newGenerated: bool, m: Manager)
    requires site.mode != 0 || q.1 == t.origin
    ensures var copy := t.(origin := q.1, newGenerated := newGenerated);
            && Begun(site, copy, q, m.early) == Begun(site, t, q, m.early)
            && Ready(copy, m) == Ready(t, m) && Commits(copy, m) == Commits(t, m)
  {
    var copy := t.(origin := q.1, newGenerated := newGenerated);
    assert forall e :: Home(site, copy, e) == Home(site, t, e);
    SameResults(site, t, copy, Entries(t), q);
  }

  lemma {:induction false} SameResults(site: Site, t: Txn, copy: Txn, es: seq<KeyEntry>, q: Shard)
    requires forall e :: Home(site, copy, e) == Home(site, t, e)
    ensures ResultsOf(site, t, es, q) == ResultsOf(site, copy, es, q)
  {
    if es != [] {
      SameResults(site, t, copy, es[..|es| - 1], q);
    }
  }

  // -------- one resubmission

  const INT_MAX := 2147483647
  const Sentinel: Shard := (INT_MAX, INT_MAX)

  predicate AtMost(p: Shard, q: Shard) {
    p.0 < q.0 || (p.0 == q.0 && p.1 <= q.1)
  }

  ghost predicate IsMin(qs: set<Shard>, m: Shard) {
    m in qs && forall q :: q in qs ==> AtMost(m, q)
  }

  lemma {:induction false} MinExists(qs: set<Shard>)
    requires qs != {}
    ensures exists m :: IsMin(qs, m)
    decreases |qs|
  {
    var q :| q in qs;
    if qs == {q} {
      assert IsMin(qs, q);
    } else {
      var rest := qs - {q};
      MinExists(rest);
      var m :| IsMin(rest, m);
      assert qs == rest + {q};
      assert IsMin(qs, if AtMost(m, q) then m else q);
    }
  }

  ghost function MinOf(qs: set<Shard>): (m: Shard)
    requires qs != {}
    ensures IsMin(qs, m)
  {
    MinExists(qs);
    var m :| IsMin(qs, m);
    m
  }

  lemma MinMore(qs: set<Shard>, m: Shard, q: Shard)
    requires IsMin(qs, m)
    ensures IsMin(qs + {q}, if AtMost(m, q) then m else q)
  {
  }

  lemma MinUnique(qs: set<Shard>, m: Shard, n: Shard)
    requires IsMin(qs, m) && IsMin(qs, n)
    ensures m == n
  {
    assert AtMost(m, n) && AtMost(n, m);
  }

  /** The shard that generates the new transaction, found by a search that starts from the largest value. */
  ghost function Chosen(involved: set<Shard>): Shard {
    MinOf(involved + {Sentinel})
  }

  lemma ChosenIsInvolved(involved: set<Shard>)
    requires involved != {} && forall q :: q in involved ==> q.0 < INT_MAX
    ensures Chosen(involved) == MinOf(involved) && Chosen(involved) in involved
  {
    var q :| q in involved;
    assert AtMost(Chosen(involved), q);
  }

  datatype Resubmission = Resubmission(txn: Txn, involved: set<nat>, destination: nat)

  predicate HasAll(t: Txn, objects: map<Key, Record>) {
    forall e :: e in Entries(t) ==> e.key in objects
  }

  /** The entries with the masters and counters that were read. */
  function Updated(es: seq<KeyEntry>, objects: map<Key, Record>): (r: seq<KeyEntry>)
    requires forall e :: e in es ==> e.key in objects
    ensures |r| == |es|
    ensures forall i :: 0 <= i < |r| ==> r[i] == KeyEntry(es[i].key, objects[es[i].key].master, objects[es[i].key].counter)
  {
    seq(|es|, i requires 0 <= i < |es| => KeyEntry(es[i].key, objects[es[i].key].master, objects[es[i].key].counter))
  }

  lemma MastersMore(es: seq<KeyEntry>, e: KeyEntry)
    ensures MastersOf(es + [e]) == MastersOf(es) + {e.master}
  {
    assert e in es + [e];
  }

  /** The transaction under a new id with what is now known; one with several masters starts at replica 0. */
  function Again(t: Txn, objects: map<Key, Record>, newId: nat): Resubmission
    requires HasAll(t, objects)
  {
    var u := t.(id := newId, readSet := Updated(t.readSet, objects), readWriteSet := Updated(t.readWriteSet, objects));
    var masters := MastersOf(Entries(u));
    Resubmission(u, masters, if |masters| == 1 then TheOne(masters) else 0)
  }

  function TheOne(s: set<nat>): (x: nat)
    requires |s| == 1
    ensures s == {x}
  {
    var y :| y in s;
    Singleton(s, y);
    assert forall z :: z in s ==> z == y;
    var x: nat :| x in s && forall z :: z in s ==> z == x;
    x
  }

  ghost predicate Resubmits(t: Txn, replica: nat, q: Shard, m: Manager) {
    !Commits(t, m) && replica == q.1 && q == Chosen(m.involved)
  }

  /** The entries name the same records, one by one, with the masters and counters in `objects`. */
  predicate Refreshed(es: seq<KeyEntry>, objects: map<Key, Record>, us: seq<KeyEntry>) {
    |us| == |es| && forall i :: 0 <= i < |es| ==>
      && us[i].key == es[i].key && es[i].key in objects
      && us[i].master == objects[es[i].key].master && us[i].counter == objects[es[i].key].counter
  }

  /** A remade transaction has a new id and refreshed entries, and is otherwise the old one; it goes to the replica that masters
      all its records, or to replica 0 if there is none. */
  lemma AgainIs(t: Txn, objects: map<Key, Record>, newId: nat)
    requires HasAll(t, objects)
    ensures var u := Again(t, objects, newId).txn;
            && u.id == newId && u.origin == t.origin && u.remaster == t.remaster && u.newGenerated == t.newGenerated
            && Refreshed(t.readSet, objects, u.readSet) && Refreshed(t.readWriteSet, objects, u.readWriteSet)
    ensures var r := Again(t, objects, newId);
            && r.involved == (set e | e in Entries(t) :: objects[e.key].master)
            && (r.involved == {r.destination} || (r.destination == 0 && forall m :: r.involved != {m}))
  {
    var u := Again(t, objects, newId).txn;
    MastersAre(t, u, objects, newId);
  }

  /** The new transaction is the old one under a new id, with the masters and counters that storage has for the records named;
      it commits unless one of them is remastered again. */
  lemma AgainMatches(site: Site, t: Txn, objects: map<Key, Record>, newId: nat)
    requires HasAll(t, objects) && forall k :: k in objects ==> objects[k] == site.store(k)
    ensures var u := Again(t, objects, newId).txn;
            && AllMatch(site, Entries(u)) && (DistinctKeys(t) ==> DistinctKeys(u))
            && u.id == newId && u.origin == t.origin && u.remaster == t.remaster && u.newGenerated == t.newGenerated
            && |u.readSet| == |t.readSet| && |u.readWriteSet| == |t.readWriteSet|
            && (forall i :: 0 <= i < |t.readSet| ==>
                  u.readSet[i].key == t.readSet[i].key && u.readSet[i].master == site.store(t.readSet[i].key).master
                  && u.readSet[i].counter == site.store(t.readSet[i].key).counter)
            && (forall i :: 0 <= i < |t.readWriteSet| ==>
                  u.readWriteSet[i].key == t.readWriteSet[i].key
                  && u.readWriteSet[i].master == site.store(t.readWriteSet[i].key).master
                  && u.readWriteSet[i].counter == site.store(t.readWriteSet[i].key).counter)
    ensures var r := Again(t, objects, newId);
            && r.involved == (set e | e in Entries(t) :: site.store(e.key).master)
            && (r.involved == {r.destination} || (r.destination == 0 && forall m :: r.involved != {m}))
  {
    var u := Again(t, objects, newId).txn;
    AgainIs(t, objects, newId);
    assert forall e :: e in Entries(t) ==> objects[e.key] == site.store(e.key);
    if DistinctKeys(t) {
      var fs, gs := t.readWriteSet + t.readSet, u.readWriteSet + u.readSet;
      assert |fs| == |gs| && forall i :: 0 <= i < |fs| ==> fs[i].key == gs[i].key;
    }
  }

  lemma MastersAre(t: Txn, u: Txn, objects: map<Key, Record>, newId: nat)
    requires HasAll(t, objects) && u == Again(t, objects, newId).txn
    ensures MastersOf(Entries(u)) == set e | e in Entries(t) :: objects[e.key].master
  {
    var es, us := Entries(t), Entries(u);
    assert forall i :: 0 <= i < |es| ==> us[i].master == objects[es[i].key].master;
    forall e | e in es ensures objects[e.key].master in MastersOf(us) {
      var i :| 0 <= i < |es| && es[i] == e;
      assert us[i] in us;
    }
  }
}
