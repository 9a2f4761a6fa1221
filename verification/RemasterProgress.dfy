/** In mode 2 whatever has begun everywhere comes to its end, unless one of its parts only reads beside others. */
module RemasterProgress {
  import opened Txns
  import opened LockSpec
  import opened Remastering
  import opened RemasteringSafety
  import opened RemasteringSerial

  /** Steps that end what has begun: a message that has not been delivered yet, a decision, a write, or a release. */
  ghost predicate Works(w: World, s: State, e: Event) {
    && Enabled(w, s, e)
    && match e
       case Send(p, q) => (p, q) !in s.delivered
       case Decide(p) => true
       case Write(p, k) => true
       case Release(p) => true
       case _ => false
  }

  predicate IsStart(e: Event) {
    e.Request? || e.Begin? || e.BeginUnlocked?
  }

  ghost predicate AtRest(w: World, s: State) {
    forall e :: !Works(w, s, e)
  }

  /** The part writes, or it is the only one. */
  predicate Fed(w: World, p: Part) {
    WritesAt(w, p) != {} || Parts(w, Strip(p.1)) == {p}
  }

  // -------- who is told and who decides

  /** Reads are sent to parts that write, and a part decides when it has heard all others. */
  ghost predicate ToldInv(w: World, s: State) {
    && (forall p, q :: (p, q) in s.delivered ==> WritesAt(w, q) != {})
    && (forall p :: p in s.decided ==> HeardAll(w, s, p))
  }

  lemma HeardLasts(w: World, s: State, e: Event, p: Part)
    requires Enabled(w, s, e) && HeardAll(w, s, p)
    ensures HeardAll(w, Apply(w, s, e), p)
  {
  }

  lemma ToldKept(w: World, s: State, e: Event)
    requires ToldInv(w, s) && Enabled(w, s, e)
    ensures ToldInv(w, Apply(w, s, e))
  {
    forall p | p in Apply(w, s, e).decided ensures HeardAll(w, Apply(w, s, e), p) {
      HeardLasts(w, s, e, p);
    }
  }

  lemma {:induction false} RunKeepsTold(w: World, run: seq<Event>)
    requires ValidRun(w, run)
    ensures ToldInv(w, After(w, run))
  {
    if run != [] {
      RunKeepsTold(w, Before(run));
      ToldKept(w, After(w, Before(run)), run[|run| - 1]);
    }
  }

  // -------- at rest

  lemma RestHasHeard(w: World, s: State, t: Txn, p: Part)
    requires AtRest(w, s) && t == Strip(t) && Parts(w, t) <= s.begun && p in Parts(w, t) && Fed(w, p)
    ensures HeardAll(w, s, p)
  {
    PartOfOne(w, t, p);
    forall q | q in Parts(w, t) && q != p ensures (q, p) in s.delivered {
      PartOfOne(w, t, q);
      assert !Works(w, s, Send(q, p));
    }
  }

  lemma RestHasDecided(w: World, s: State, t: Txn, p: Part)
    requires AtRest(w, s) && t == Strip(t) && Parts(w, t) <= s.begun && p in Parts(w, t) && Fed(w, p)
    ensures Done(w, s, p)
  {
    RestHasHeard(w, s, t, p);
    assert !Works(w, s, Decide(p));
    forall k | s.decided[p] && k in WritesAt(w, p) ensures (Strip(p.1), k) in s.written {
      assert !Works(w, s, Write(p, k));
    }
  }

  lemma HeldIsReleasable(w: World, s: State, p: Part)
    requires LocksInv(w, s) && BegunInv(w, s) && p in s.begun && p !in s.unlocked && p !in s.released
    ensures p.0 in s.locks && Releasable(s.locks[p.0], Held(w.Config(p.0), p.1))
  {
    var m := p.0;
    assert BegunAt(w, s, p) && MachineInv(w, s, m);
    forall k ensures (p.1, k) !in Gone(w, s, m) {
      GoneMembers(w, s, m, p.1, k);
    }
    ReleaseKeepsInv(w.Config(m), s.locked[m], Gone(w, s, m), {}, s.locks[m], p.1);
  }

  lemma RestHasReleased(w: World, s: State, t: Txn, p: Part)
    requires LocksInv(w, s) && BegunInv(w, s) && LoggedAt(w, s, t) && AtRest(w, s) && p in Parts(w, t) && Fed(w, p)
    ensures p in s.released
  {
    RestHasDecided(w, s, t, p);
    assert !Works(w, s, Release(p));
    if p !in s.released {
      HeldIsReleasable(w, s, p);
    }
  }

  /** A part that only reads, beside others, hears nothing and is never released. */
  lemma UnfedIsNotReleased(w: World, s: State, t: Txn, p: Part)
    requires WrittenInv(w, s) && ToldInv(w, s) && LoggedAt(w, s, t) && p in Parts(w, t) && !Fed(w, p)
    ensures p !in s.decided && p !in s.released
  {
    PartOfOne(w, t, p);
    var q :| q in Parts(w, t) && q != p;
    assert (q, p) !in s.delivered;
    assert p in s.released ==> Done(w, s, p);
  }

  /** When what has begun can go on no further, a transaction all of whose parts have begun with locks has been released
      everywhere if and only if each part writes or is the only one. */
  lemma RestIsComplete(w: World, run: seq<Event>, t: Txn)
    requires ValidRun(w, run) && AtRest(w, After(w, run)) && t in After(w, run).log
    ensures (forall p :: p in Parts(w, t) ==> p in After(w, run).released) <==> forall p :: p in Parts(w, t) ==> Fed(w, p)
  {
    var s := After(w, run);
    RunKeepsInv(w, run);
    RunKeepsTold(w, run);
    assert LoggedAt(w, s, t);
    forall p | p in Parts(w, t) ensures p in s.released <==> Fed(w, p) {
      if Fed(w, p) {
        RestHasReleased(w, s, t, p);
      } else {
        UnfedIsNotReleased(w, s, t, p);
      }
    }
  }

  // -------- getting there

  function ToSend(w: World, begun: set<Part>): set<(Part, Part)> {
    set p, q | p in begun && q in Parts(w, Strip(p.1)) :: (p, q)
  }

  function ToWrite(w: World, begun: set<Part>): set<(Txn, Key)> {
    set p, k | p in begun && k in WritesAt(w, p) :: (Strip(p.1), k)
  }

  function WorkLeft(w: World, s: State): nat {
    |ToSend(w, s.begun) - s.delivered| + |s.begun - s.decided.Keys| + |ToWrite(w, s.begun) - s.written| + |s.begun - s.released|
  }

  lemma OneLess<T>(all: set<T>, before: set<T>, after: set<T>, x: T)
    requires x in all && x !in before && after == before + {x}
    ensures |all - after| == |all - before| - 1
  {
    assert all - before == (all - after) + {x};
  }

  lemma SendGoesDown(w: World, s: State, p: Part, q: Part)
    requires Works(w, s, Send(p, q))
    ensures WorkLeft(w, Apply(w, s, Send(p, q))) == WorkLeft(w, s) - 1
  {
    var s' := Apply(w, s, Send(p, q));
    OneLess(ToSend(w, s.begun), s.delivered, s'.delivered, (p, q));
  }

  lemma OneMoreDecided(begun: set<Part>, decided: map<Part, bool>, p: Part, commits: bool)
    requires p in begun && p !in decided
    ensures |begun - decided[p := commits].Keys| == |begun - decided.Keys| - 1
  {
    OneLess(begun, decided.Keys, decided[p := commits].Keys, p);
  }

  lemma DecideGoesDown(w: World, s: State, p: Part)
    requires Works(w, s, Decide(p))
    ensures WorkLeft(w, Apply(w, s, Decide(p))) == WorkLeft(w, s) - 1
  {
    OneMoreDecided(s.begun, s.decided, p, Verdict(w, s, p));
  }

  lemma WriteGoesDown(w: World, s: State, p: Part, k: Key)
    requires Works(w, s, Write(p, k)) && p in s.begun
    ensures WorkLeft(w, Apply(w, s, Write(p, k))) == WorkLeft(w, s) - 1
  {
    var s' := Apply(w, s, Write(p, k));
    OneLess(ToWrite(w, s.begun), s.written, s'.written, (Strip(p.1), k));
  }

  lemma ReleaseGoesDown(w: World, s: State, p: Part)
    requires Works(w, s, Release(p)) && p in s.begun
    ensures WorkLeft(w, Apply(w, s, Release(p))) == WorkLeft(w, s) - 1
  {
    var s' := Apply(w, s, Release(p));
    OneLess(s.begun, s.released, s'.released, p);
  }

  lemma DecidedHasBegun(w: World, s: State, p: Part)
    requires DecidedInv(w, s) && p in s.decided
    ensures p in s.begun
  {
    assert DecidedAt(w, s, p);
  }

  lemma WorkGoesDown(w: World, s: State, e: Event)
    requires DecidedInv(w, s) && Works(w, s, e)
    ensures WorkLeft(w, Apply(w, s, e)) == WorkLeft(w, s) - 1
  {
    match e {
      case Send(p, q) => SendGoesDown(w, s, p, q);
      case Decide(p) => DecideGoesDown(w, s, p);
      case Write(p, k) =>
        DecidedHasBegun(w, s, p);
        WriteGoesDown(w, s, p, k);
      case Release(p) =>
        DecidedHasBegun(w, s, p);
        ReleaseGoesDown(w, s, p);
    }
  }

  lemma WorkStep(w: World, run: seq<Event>, e: Event)
    requires ValidRun(w, run) && Works(w, After(w, run), e)
    ensures ValidRun(w, run + [e]) && WorkLeft(w, After(w, run + [e])) == WorkLeft(w, After(w, run)) - 1 && !IsStart(e)
  {
    assert Before(run + [e]) == run;
    RunKeepsInv(w, run);
    WorkGoesDown(w, After(w, run), e);
  }

  lemma NothingStarts(run: seq<Event>, e: Event, full: seq<Event>)
    requires run + [e] <= full && !IsStart(e) && forall i :: |run| + 1 <= i < |full| ==> !IsStart(full[i])
    ensures run <= full && forall i :: |run| <= i < |full| ==> !IsStart(full[i])
  {
    assert full[|run|] == e;
  }

  lemma {:induction false} ComesToRest(w: World, run: seq<Event>, left: nat) returns (full: seq<Event>)
    requires ValidRun(w, run) && WorkLeft(w, After(w, run)) == left
    ensures ValidRun(w, full) && run <= full && AtRest(w, After(w, full)) && |full| - |run| <= left
    ensures forall i :: |run| <= i < |full| ==> !IsStart(full[i])
    decreases left
  {
    if AtRest(w, After(w, run)) {
      full := run;
    } else {
      var e :| Works(w, After(w, run), e);
      WorkStep(w, run, e);
      full := ComesToRest(w, run + [e], left - 1);
      NothingStarts(run, e, full);
    }
  }

  /** Every run can go on with what has begun until that is at rest; each such step leaves one less to do. */
  lemma EveryRunComesToRest(w: World, run: seq<Event>) returns (full: seq<Event>)
    requires ValidRun(w, run)
    ensures ValidRun(w, full) && run <= full && AtRest(w, After(w, full))
    ensures forall i :: |run| <= i < |full| ==> !IsStart(full[i])
  {
    full := ComesToRest(w, run, WorkLeft(w, After(w, run)));
  }

  /** At rest, the records are those of the log, one transaction after another, if each part of the log writes or is alone. */
  lemma RestIsSerial(w: World, run: seq<Event>)
    requires ValidRun(w, run) && AtRest(w, After(w, run))
    requires forall t, p :: t in After(w, run).log && p in Parts(w, t) ==> Fed(w, p)
    ensures EndsWith(w.execute, w.initial, After(w, run).log, After(w, run).store)
  {
    var s := After(w, run);
    RunKeepsInv(w, run);
    forall t, p | t in s.log && p in Parts(w, t) ensures Done(w, s, p) {
      assert LoggedAt(w, s, t);
      RestHasDecided(w, s, t, p);
    }
    Serializable(w, run);
  }
}
