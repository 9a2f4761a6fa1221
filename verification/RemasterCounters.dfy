/** What remasters do to the records' counters, and what counters do to transactions that come late. */
module RemasterCounters {
  import opened Txns
  import Blocking
  import Exchange
  import opened Remastering
  import opened RemasteringSafety
  import opened RemasteringSerial

  /** The record a remaster is for: the first of its read-write set. */
  predicate Moves(t: Txn, k: Key) {
    t.remaster && t.readWriteSet != [] && t.readWriteSet[0].key == k
  }

  /** The transaction logic gives the record of a remaster the next counter, and otherwise leaves masters and counters alone. */
  ghost predicate MovesOnly(execute: (Txn, Records) -> Records, t: Txn, objects: Records) {
    var values := execute(t, objects);
    forall k :: k in Written(t) && k in objects ==>
      if Moves(t, k) then
        k in values && values[k].counter == objects[k].counter + 1
      else
        k in values ==> values[k].counter == objects[k].counter && values[k].master == objects[k].master
  }

  ghost predicate OnlyRemastersMove(w: World) {
    forall t, objects :: AllCurrent(objects, t) ==> MovesOnly(w.execute, t, objects)
  }

  /** How many of the first `i` transactions of the log remaster record `k`. */
  function Remastered(w: World, log: seq<Txn>, k: Key, i: nat): nat
    requires i <= |log|
  {
    if i == 0 then 0
    else Remastered(w, log, k, i - 1) + if Moves(log[i - 1], k) && Effective(w, log, i - 1) then 1 else 0
  }

  lemma MoveIsStep(w: World, log: seq<Txn>, k: Key, i: nat)
    requires OnlyRemastersMove(w) && LogFits(w, log) && i < |log| && k in w.initial
    ensures k in RunAll(w, log[..i]) && k in RunAll(w, log[..i + 1])
    ensures var moved, before, after := Moves(log[i], k) && Effective(w, log, i), RunAll(w, log[..i])[k], RunAll(w, log[..i + 1])[k];
            after.counter == before.counter + (if moved then 1 else 0) && (!moved ==> after.master == before.master)
  {
    var t, before := log[i], RunAll(w, log[..i]);
    RunKeys(w, log[..i]);
    RunKeys(w, log[..i + 1]);
    RunMore(w, log, i);
    NamedKeys(t, k);
    WrittenAreKeyed(t);
    if Effective(w, log, i) {
      SeenIsEnough(before, t);
      assert MovesOnly(w.execute, t, Seen(before, t));
      if Moves(t, k) {
        assert t.readWriteSet[0] in t.readWriteSet;
      }
    }
  }

  /** A record's counter is the number of its remasters that have committed. */
  lemma {:induction false} CounterCounts(w: World, log: seq<Txn>, k: Key, i: nat)
    requires OnlyRemastersMove(w) && LogFits(w, log) && i <= |log| && k in w.initial
    ensures k in RunAll(w, log[..i]) && RunAll(w, log[..i])[k].counter == w.initial[k].counter + Remastered(w, log, k, i)
  {
    if i == 0 {
    } else {
      var j: nat := i - 1;
      assert log[..j + 1] == log[..i];
      CounterCounts(w, log, k, j);
      MoveIsStep(w, log, k, j);
    }
  }

  lemma {:induction false} RemasteredGrows(w: World, log: seq<Txn>, k: Key, i: nat, j: nat)
    requires i <= j <= |log|
    ensures Remastered(w, log, k, i) <= Remastered(w, log, k, j)
    decreases j - i
  {
    if i < j {
      RemasteredGrows(w, log, k, i, j - 1);
    }
  }

  /** In every run in which what has begun everywhere is done, each record's counter has grown by the number of its
      remasters that committed. */
  lemma CountersCountRemasters(w: World, run: seq<Event>, k: Key)
    requires OnlyRemastersMove(w) && ValidRun(w, run) && AllDone(w, After(w, run)) && k in w.initial
    ensures var s := After(w, run);
            k in s.store && s.store[k].counter == w.initial[k].counter + Remastered(w, s.log, k, |s.log|)
  {
    var s := After(w, run);
    RunKeepsInv(w, run);
    Serializable(w, run);
    assert s.log[..|s.log|] == s.log;
    CounterCounts(w, s.log, k, |s.log|);
  }

  /** Once some part of a record's remaster has decided to commit, no part of any transaction behind it in the log commits that
      names this record with the counter the remaster named, or with a lower one; so of several remasters that name the
      same counter one commits at most. */
  lemma StaleNeverCommits(w: World, run: seq<Event>, i: nat, j: nat, q: Part, p: Part, e: KeyEntry)
    requires OnlyRemastersMove(w) && ValidRun(w, run)
    requires var log := After(w, run).log; i < j < |log| && log[i] == Strip(q.1) && log[j] == Strip(p.1)
    requires q in After(w, run).decided && After(w, run).decided[q] && p in After(w, run).decided
    requires q.1.remaster && q.1.readWriteSet != [] && e in Entries(p.1)
    requires e.key == q.1.readWriteSet[0].key && e.counter <= q.1.readWriteSet[0].counter
    ensures !After(w, run).decided[p]
  {
    var s := After(w, run);
    var f := s.log[i].readWriteSet[0];
    RunKeepsInv(w, run);
    EveryDecisionIsSerial(w, run, q, i);
    EveryDecisionIsSerial(w, run, p, j);
    SameEntries(p.1);
    assert f in Entries(s.log[i]) && f.key in Keyed(s.log[i]);
    MoveIsStep(w, s.log, f.key, i);
    CounterCounts(w, s.log, f.key, i);
    CounterCounts(w, s.log, f.key, i + 1);
    CounterCounts(w, s.log, f.key, j);
    RemasteredGrows(w, s.log, f.key, i + 1, j);
    assert Exchange.ObjectMatches(RunAll(w, s.log[..i]), f);
    assert !Exchange.ObjectMatches(RunAll(w, s.log[..j]), e);
  }

  /** What the scheduler sends off without locks, as its records' counters are, can begin without locks. */
  lemma SentOffMayBegin(w: World, s: State, p: Part, counters: Blocking.Counters)
    requires IsCopy(w, p.0, p.1) && w.initial.Keys <= s.store.Keys && p !in s.begun
    requires p.0 in s.locked ==> p.1 !in s.locked[p.0]
    requires forall k :: k in s.store ==> Blocking.CounterOf(counters, k) == s.store[k].counter
    requires Blocking.IsBehind(w.Config(p.0), counters, p.1)
    ensures Enabled(w, s, BeginUnlocked(p))
  {
    var e :| e in Entries(p.1) && Blocking.LocalEntry(w.Config(p.0), p.1, e) && e.counter < Blocking.CounterOf(counters, e.key);
    assert e.key in Keyed(p.1);
    assert PartFor(w, Strip(p.1), e) == p;
  }
}
