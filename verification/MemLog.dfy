/** The in-memory log and its readers. */
module MemLog {

  datatype Entry = Entry(version: nat, data: string)

  /** Where a seek ends: at an offset, nowhere, or in a failed CHECK that stops the process. */
  datatype SeekOutcome = Found(offset: nat) | NotFound | CheckFailed

  ghost predicate Increasing(es: seq<Entry>) {
    forall i, j :: 0 <= i < j < |es| ==> es[i].version < es[j].version
  }

  ghost predicate NonDecreasing(es: seq<Entry>) {
    forall i, j :: 0 <= i < j < |es| ==> es[i].version <= es[j].version
  }

  /** Position of the first entry whose version is at least `target`, or the length. */
  function FirstAtLeast(es: seq<Entry>, target: nat): nat {
    if es == [] || es[0].version >= target then 0 else 1 + FirstAtLeast(es[1..], target)
  }

  lemma {:induction false} FirstAtLeastIsFirst(es: seq<Entry>, target: nat)
    ensures FirstAtLeast(es, target) <= |es|
    ensures forall i :: 0 <= i < FirstAtLeast(es, target) ==> es[i].version < target
    ensures FirstAtLeast(es, target) < |es| ==> es[FirstAtLeast(es, target)].version >= target
  {
    if es != [] && es[0].version < target {
      FirstAtLeastIsFirst(es[1..], target);
      var rest := es[1..];
      assert forall i :: 1 <= i < |es| ==> es[i] == rest[i - 1];
    }
  }

  lemma FirstAtLeastUnique(es: seq<Entry>, target: nat, p: nat)
    requires p <= |es| && (p < |es| ==> es[p].version >= target)
    requires forall i :: 0 <= i < p ==> es[i].version < target
    ensures FirstAtLeast(es, target) == p
  {
    FirstAtLeastIsFirst(es, target);
  }

  /** What the log interface promises of a seek to a version above zero. */
  function Promised(es: seq<Entry>, target: nat): SeekOutcome {
    if FirstAtLeast(es, target) < |es| then Found(FirstAtLeast(es, target)) else NotFound
  }

  /** What the reader does: past the end it finds nothing, below the first version its last CHECK fails, and in
      between it stops at the first entry not below the target, or at another one with just that version. */
  predicate Lands(es: seq<Entry>, target: nat, outcome: SeekOutcome) {
    if target == 0 then outcome == CheckFailed
    else if es == [] || target > es[|es| - 1].version then outcome == NotFound
    else if target < es[0].version then outcome == CheckFailed
    else outcome.Found? && outcome.offset < |es|
         && (outcome.offset == FirstAtLeast(es, target) || es[outcome.offset].version == target)
  }

  /** With increasing versions the reader keeps the promise exactly when the target is not below the first version. */
  lemma LandsAsPromised(es: seq<Entry>, target: nat, outcome: SeekOutcome)
    requires Increasing(es) && target > 0 && Lands(es, target, outcome)
    ensures outcome == Promised(es, target) <==> es == [] || target >= es[0].version
  {
    FirstAtLeastIsFirst(es, target);
    if outcome.Found? && es[outcome.offset].version == target {
      FirstAtLeastUnique(es, target, outcome.offset);
    }
  }

  /** A log that starts at version 5 cannot be sought at version 3, where entry 0 is promised. */
  lemma SeekBelowFirstVersionFails(data: string, outcome: SeekOutcome)
    requires Lands([Entry(5, data)], 3, outcome)
    ensures Promised([Entry(5, data)], 3) == Found(0) && outcome == CheckFailed
  {
    assert FirstAtLeast([Entry(5, data)], 3) == 0;
  }

  lemma AboveAllKeepsIncreasing(es: seq<Entry>, version: nat, data: string)
    requires Increasing(es)
    ensures Increasing(es + [Entry(version, data)]) <==> forall e :: e in es ==> e.version < version
  {
    var more := es + [Entry(version, data)];
    forall e | Increasing(more) && e in es ensures e.version < version {
      var i :| 0 <= i < |es| && es[i] == e;
      assert more[i] == e && more[|es|].version == version;
    }
  }

  class LocalMemLog {
    var entries: array<Entry>
    var size: nat
    var capacity: nat
    var maxVersion: nat

    ghost predicate Valid()
      reads this, entries
    {
      && size <= capacity == entries.Length && capacity > 0
      && NonDecreasing(Entries())
      && maxVersion == if size == 0 then 0 else Entries()[size - 1].version
    }

    ghost function Entries(): seq<Entry>
      requires size <= entries.Length
      reads this, entries
    {
      entries[..size]
    }

    constructor ()
      ensures Valid() && fresh(entries) && Entries() == []
    {
      entries := new Entry[1024 * 1024];
      size, capacity, maxVersion := 0, 1024 * 1024, 0;
    }

    /** Appends an entry, doubling the array when it is full; a version below an earlier one fails a CHECK. */
    method Append(version: nat, data: string) returns (ok: bool)
      requires Valid()
      modifies this, entries
      ensures Valid() && (entries == old(entries) || fresh(entries))
      ensures ok <==> forall e :: e in old(Entries()) ==> e.version <= version
      ensures Entries() == old(Entries()) + if ok then [Entry(version, data)] else []
    {
      assert size > 0 ==> Entries()[size - 1] in Entries();
      if version < maxVersion {
        return false;
      }
      if size >= capacity {
        Reallocate();
      }
      entries[size] := Entry(version, data);
      size := size + 1;
      maxVersion := version;
      ok := true;
    }

    method Reallocate()
      requires Valid() && size == capacity
      modifies this
      ensures Valid() && fresh(entries) && capacity == 2 * old(capacity)
      ensures size == old(size) && Entries() == old(Entries())
    {
      var bigger := new Entry[capacity * 2];
      var i := 0;
      while i < size
        modifies bigger
        invariant i <= size
        invariant bigger[..i] == entries[..i]
      {
        bigger[i] := entries[i];
        i := i + 1;
      }
      capacity := capacity * 2;
      entries := bigger;
    }

    method LastVersion() returns (version: nat)
      requires Valid()
      ensures (forall e :: e in Entries() ==> e.version <= version)
      ensures if Entries() == [] then version == 0 else exists e :: e in Entries() && e.version == version
    {
      version := maxVersion;
      assert size > 0 ==> Entries()[size - 1] in Entries();
    }
  }

  /** `news` is what the log holds from position `start` up to position `end`. */
  ghost predicate ReadSoFar(es: seq<Entry>, start: nat, end: nat, news: seq<Entry>) {
    start <= end <= |es| && news == es[start..end]
  }

  lemma ReadOneMore(es: seq<Entry>, start: nat, end: nat, news: seq<Entry>)
    requires ReadSoFar(es, start, end, news) && end < |es|
    ensures ReadSoFar(es, start, end + 1, news + [es[end]])
  {
  }

  class LogReader {
    const log: LocalMemLog
    var started: bool
    var offset: nat
    var entry: Entry

    /** Number of entries up to and including the current one. */
    ghost function Position(): nat
      reads this
    {
      if started then offset + 1 else 0
    }

    ghost predicate Valid()
      reads this, log, log.entries
    {
      && log.Valid() && Position() <= log.size
      && (started ==> entry == log.Entries()[offset])
    }

    constructor (log: LocalMemLog)
      requires log.Valid()
      ensures Valid() && this.log == log && Position() == 0
    {
      this.log := log;
      started, offset, entry := false, 0, Entry(0, "");
    }

    /** Advances to the next entry, if there is one. */
    method Next() returns (ok: bool)
      requires Valid()
      modifies this
      ensures Valid()
      ensures ok <==> old(Position()) < log.size
      ensures Position() == old(Position()) + if ok then 1 else 0
      ensures ok ==> entry == log.Entries()[old(Position())]
    {
      if log.size == 0 || (started && offset == log.size - 1) {
        return false;
      }
      if !started {
        started, offset := true, 0;
      } else {
        offset := offset + 1;
      }
      assert offset < log.size;
      entry := log.entries[offset];
      ok := true;
    }

    /** The loop that ships a log: every entry appended since the last visit, in order, each once. */
    method ReadNew() returns (news: seq<Entry>)
      requires Valid()
      modifies this
      ensures Valid() && Position() == log.size
      ensures news == log.Entries()[old(Position())..]
    {
      news := [];
      ghost var es, start := log.Entries(), Position();
      ghost var end := start;
      while true
        invariant Valid() && log.Entries() == es && Position() == end
        invariant ReadSoFar(es, start, end, news)
        decreases |es| - end
      {
        var found := Next();
        if !found {
          break;
        }
        ReadOneMore(es, start, end, news);
        news, end := news + [entry], end + 1;
      }
    }

    /** Moves to the first entry whose version is at least `target`. */
    method Seek(target: nat) returns (outcome: SeekOutcome)
      requires Valid()
      modifies this
      ensures Lands(log.Entries(), target, outcome)
      ensures Increasing(log.Entries()) && target > 0 ==>
                (outcome == Promised(log.Entries(), target)
                 <==> log.Entries() == [] || target >= log.Entries()[0].version)
      ensures outcome.Found? ==> Valid() && started && offset == outcome.offset
      ensures outcome.NotFound? ==>
                Valid() && started == old(started) && offset == old(offset) && entry == old(entry)
    {
      outcome := Locate(target);
      if outcome.Found? {
        started := true;
        MoveTo(outcome.offset);
      }
    }

    /** Where the seek ends. */
    method Locate(target: nat) returns (outcome: SeekOutcome)
      requires log.Valid()
      ensures Lands(log.Entries(), target, outcome)
      ensures Increasing(log.Entries()) && target > 0 ==>
                (outcome == Promised(log.Entries(), target)
                 <==> log.Entries() == [] || target >= log.Entries()[0].version)
    {
      if target == 0 {
        return CheckFailed;
      }
      if target > log.maxVersion {
        outcome := NotFound;
      } else {
        outcome := Search(target);
      }
      ghost var es := log.Entries();
      if Increasing(es) {
        LandsAsPromised(es, target, outcome);
      }
    }

    method MoveTo(position: nat)
      requires log.Valid() && position < log.size && started
      modifies this`offset, this`entry
      ensures Valid() && offset == position
    {
      offset, entry := position, log.entries[position];
    }

    /** The binary search, over the entries present when the seek began. */
    method Search(target: nat) returns (outcome: SeekOutcome)
      requires log.Valid() && 0 < target <= log.maxVersion
      ensures Lands(log.Entries(), target, outcome) && !outcome.NotFound?
    {
      ghost var es := log.Entries();
      var min, max := 0, log.size - 1;
      var e := log.entries;
      if e[min].version == target {
        return Found(min);
      } else if e[max].version == target {
        return Found(max);
      }
      while max > min + 1
        invariant 0 <= min <= max < |es|
        invariant target < es[max].version
        invariant if es[0].version < target then es[min].version < target else min == 0
        decreases max - min
      {
        var mid := (min + max) / 2;
        assert e[mid] == es[mid];
        if e[mid].version == target {
          return Found(mid);
        } else if target < e[mid].version {
          max := mid;
        } else {
          min := mid;
        }
      }
      if !(e[min].version < target) || !(e[max].version > target) {
        return CheckFailed;
      }
      FirstAtLeastUnique(es, target, max);
      outcome := Found(max);
    }
  }

  /** An append does not disturb a reader that is part-way: it stays valid, where it was. */
  twostate lemma AppendKeepsReader(r: LogReader, news: seq<Entry>)
    requires old(r.Valid()) && unchanged(r) && r.log.Valid()
    requires r.log.Entries() == old(r.log.Entries()) + news
    ensures r.Valid() && r.Position() == old(r.Position())
    ensures old(r.log.Entries())[..r.Position()] == r.log.Entries()[..r.Position()]
  {
    assert |old(r.log.Entries())| == old(r.log.size);
  }
}
