/** The storage manager of one shard of one transaction. */
module StorageManager {
  import opened Txns
  import opened Exchange

  datatype Status = New | Aborted | AbortedWithoutLock | Committed

  class ShardManager {
    const site: Site
    const me: nat
    const localReplica: nat
    const t: Txn
    var objects: map<Key, Record>
    var localEntries: seq<ReadResult>
    var localCommit: bool
    var involved: set<Shard>
    var targets: set<Shard>
    var status: Status
    var minPartition: nat
    var minOrigin: nat
    const early: bool

    function Self(): Shard {
      (me, t.origin)
    }

    ghost function View(): Manager
      reads this
    {
      Manager(objects, localEntries, localCommit, involved, targets, early)
    }

    ghost predicate Valid()
      reads this
    {
      && (early <==> status == AbortedWithoutLock)
      && (site.mode == 2 ==> (minPartition, minOrigin) == Chosen(involved))
    }

    /** Reads what is local and notes whom to tell: every writer of the transaction except this shard. */
    constructor (site: Site, me: nat, localReplica: nat, t: Txn, status: Status)
      ensures this.site == site && this.me == me && this.localReplica == localReplica && this.t == t
      ensures this.status == status && early == (status == AbortedWithoutLock)
      ensures Valid() && View() == Begun(site, t, Self(), early)
      ensures forall k :: k in objects <==> exists e :: e in Entries(t) && ReadAt(site, t, Self(), e) && e.key == k
      ensures forall k :: k in objects ==> objects[k] == site.store(k)
      ensures forall p :: p in targets <==> p != Self() && exists e :: e in t.readWriteSet && ReadAt(site, t, p, e)
    {
      this.site, this.me, this.localReplica, this.t := site, me, localReplica, t;
      this.status, early := status, status == AbortedWithoutLock;
      objects, localEntries, localCommit, involved, targets := map[], [], true, {}, {};
      minPartition, minOrigin := INT_MAX, INT_MAX;
      new;
      ReadReadSet();
      ReadWriteSet();
      if site.mode == 2 {
        FindMin();
      }
      BegunKnows(site, t, Self(), early);
    }

    method ReadReadSet()
      requires View() == Reading(site, t, Self(), [], {}, early)
      modifies this`objects, this`localEntries, this`localCommit, this`involved
      ensures View() == Reading(site, t, Self(), t.readSet, {}, early)
    {
      for i := 0 to |t.readSet|
        invariant View() == Reading(site, t, Self(), t.readSet[..i], {}, early)
      {
        assert t.readSet[..i] + [t.readSet[i]] == t.readSet[..i + 1];
        ReadEntry(t.readSet[i], t.readSet[..i], {});
      }
      assert t.readSet[..|t.readSet|] == t.readSet;
    }

    method ReadWriteSet()
      requires View() == Reading(site, t, Self(), t.readSet, {}, early)
      modifies this`objects, this`localEntries, this`localCommit, this`involved, this`targets
      ensures View() == Begun(site, t, Self(), early)
    {
      assert t.readSet + t.readWriteSet[..0] == t.readSet;
      for i := 0 to |t.readWriteSet|
        invariant View() == Reading(site, t, Self(), t.readSet + t.readWriteSet[..i],
                                    Homes(site, t, t.readWriteSet[..i]) - {Self()}, early)
      {
        assert t.readWriteSet[..i] + [t.readWriteSet[i]] == t.readWriteSet[..i + 1];
        assert t.readSet + t.readWriteSet[..i + 1] == (t.readSet + t.readWriteSet[..i]) + [t.readWriteSet[i]];
        ReadEntryToWrite(t.readWriteSet[i], t.readSet + t.readWriteSet[..i], t.readWriteSet[..i]);
      }
      assert t.readWriteSet[..|t.readWriteSet|] == t.readWriteSet;
    }

    /** Like `ReadEntry`, for an entry that is written: another shard that writes has to be told. */
    method ReadEntryToWrite(e: KeyEntry, ghost es: seq<KeyEntry>, ghost ws: seq<KeyEntry>)
      requires View() == Reading(site, t, Self(), es, Homes(site, t, ws) - {Self()}, early)
      modifies this`objects, this`localEntries, this`localCommit, this`involved, this`targets
      ensures View() == Reading(site, t, Self(), es + [e], Homes(site, t, ws + [e]) - {Self()}, early)
    {
      ReadEntry(e, es, targets);
      HomesMore(site, t, ws, e);
      if site.mode != 0 && e.master != t.origin {
        targets := targets + {(site.partition(e.key), e.master)};
      } else if site.partition(e.key) != me {
        targets := targets + {(site.partition(e.key), t.origin)};
      }
      assert targets == Homes(site, t, ws + [e]) - {Self()};
    }

    /** Reads the entry if it is local here, and keeps its record for the other shards. */
    method ReadEntry(e: KeyEntry, ghost es: seq<KeyEntry>, ghost sent: set<Shard>)
      requires View() == Reading(site, t, Self(), es, sent, early)
      modifies this`objects, this`localEntries, this`localCommit, this`involved
      ensures View() == Reading(site, t, Self(), es + [e], sent, early)
    {
      HomesMore(site, t, es, e);
      ObjectsMore(site, t, es, e, Self());
      ResultsMore(site, t, es, e, Self());
      var partition := site.partition(e.key);
      if site.mode == 2 {
        involved := involved + {(partition, e.master)};
      }
      if (site.mode == 0 || e.master == t.origin) && partition == me {
        var record := site.store(e.key);
        objects := objects[e.key := record];
        localEntries := localEntries + [ReadResult(e.key, record)];
        if record.master != e.master || record.counter != e.counter {
          localCommit := false;
        }
      }
    }

    method FindMin()
      modifies this`minPartition, this`minOrigin
      ensures (minPartition, minOrigin) == Chosen(involved)
    {
      var min: Shard := Sentinel;
      var rest := involved;
      ghost var seen: set<Shard> := {};
      while rest != {}
        invariant seen + rest == involved
        invariant IsMin(seen + {Sentinel}, min)
        decreases |rest|
      {
        var q: Shard :| q in rest;
        MinMore(seen + {Sentinel}, min, q);
        assert seen + {Sentinel} + {q} == seen + {q} + {Sentinel};
        if q.0 < min.0 {
          min := q;
        } else if q.0 == min.0 && q.1 < min.1 {
          min := q;
        }
        seen := seen + {q};
        rest := rest - {q};
      }
      minPartition, minOrigin := min.0, min.1;
      assert seen == involved;
      MinUnique(involved + {Sentinel}, min, Chosen(involved));
    }

    method HandleReadResult(results: seq<ReadResult>)
      modifies this`objects
      ensures View() == old(View()).(objects := Absorb(old(objects), results))
    {
      for i := 0 to |results|
        invariant objects == Absorb(old(objects), results[..i])
      {
        assert results[..i + 1] == results[..i] + [results[i]];
        AbsorbMore(old(objects), results[..i], results[i]);
        objects := objects[results[i].key := results[i].record];
      }
      assert results[..|results|] == results;
    }

    method ReadyToExecute() returns (ready: bool)
      ensures ready == Ready(t, View())
      ensures forall heard :: DistinctKeys(t) && objects == ObjectsAt(site, t, Entries(t), heard) ==>
                (ready <==> Shards(site, t) <= heard)
    {
      ready := |objects| == |t.readSet| + |t.readWriteSet|;
      forall heard | DistinctKeys(t) && objects == ObjectsAt(site, t, Entries(t), heard)
        ensures ready <==> Shards(site, t) <= heard
      {
        ReadyIffAllHeard(site, t, View(), heard);
      }
    }

    method CheckEntries(es: seq<KeyEntry>) returns (all: bool)
      requires forall e :: e in es ==> e.key in objects
      ensures all == forall e :: e in es ==> ObjectMatches(objects, e)
    {
      for i := 0 to |es|
        invariant forall j :: 0 <= j < i ==> ObjectMatches(objects, es[j])
      {
        var record := objects[es[i].key];
        if es[i].master != record.master || es[i].counter != record.counter {
          return false;
        }
      }
      all := true;
    }

    /** Decides, and makes the new transaction if this is the shard to do so. */
    method CheckCommitOrAbort(newId: nat) returns (decision: bool, again: Option<Resubmission>)
      requires Valid() && site.mode == 2 && HasAll(t, objects)
      modifies this`status
      ensures Valid() && decision == Commits(t, View())
      ensures status == if decision || early then old(status) else Aborted
      ensures again.Some? <==> Resubmits(t, localReplica, Self(), View())
      ensures again.Some? ==> again.value == Again(t, objects, newId)
      ensures again.Some? ==>
                var u := again.value.txn;
                && u.id == newId && u.origin == t.origin && u.remaster == t.remaster && u.newGenerated == t.newGenerated
                && Refreshed(t.readSet, objects, u.readSet) && Refreshed(t.readWriteSet, objects, u.readWriteSet)
    {
      decision := true;
      if status == AbortedWithoutLock {
        decision := false;
      } else if !localCommit {
        status := Aborted;
        decision := false;
      } else if |involved| == 1 {
        decision := true;
      } else {
        decision := CheckEntries(t.readSet);
        if decision {
          decision := CheckEntries(t.readWriteSet);
        }
        if !decision {
          status := Aborted;
        }
      }
      again := None;
      if !decision && localReplica == t.origin && minPartition == me && minOrigin == t.origin {
        var r := Regenerate(newId);
        AgainIs(t, objects, newId);
        again := Some(r);
      }
    }

    method UpdateEntries(es: seq<KeyEntry>, masters0: set<nat>) returns (us: seq<KeyEntry>, masters: set<nat>)
      requires forall e :: e in es ==> e.key in objects
      ensures us == Updated(es, objects) && masters == masters0 + MastersOf(us)
    {
      us, masters := es, masters0;
      assert us[..0] == Updated(es, objects)[..0];
      for i := 0 to |es|
        invariant |us| == |es| && us[..i] == Updated(es, objects)[..i] && us[i..] == es[i..]
        invariant masters == masters0 + MastersOf(us[..i])
      {
        var record := objects[es[i].key];
        ghost var before := us;
        assert us[i] == es[i];
        if us[i].master != record.master || us[i].counter != record.counter {
          us := us[i := KeyEntry(us[i].key, record.master, record.counter)];
        }
        assert us[i] == Updated(es, objects)[i];
        assert us[..i + 1] == before[..i] + [us[i]];
        assert us[i + 1..] == before[i + 1..] == es[i + 1..];
        MastersMore(before[..i], us[i]);
        masters := masters + {record.master};
      }
      assert us[..|es|] == us && Updated(es, objects)[..|es|] == Updated(es, objects);
    }

    /** The transaction under a new id, with the masters and counters that were read. */
    method Regenerate(newId: nat) returns (r: Resubmission)
      requires HasAll(t, objects)
      ensures r == Again(t, objects, newId)
    {
      var readSet, masters := UpdateEntries(t.readSet, {});
      var writeSet, all := UpdateEntries(t.readWriteSet, masters);
      var u := t.(id := newId, readSet := readSet, readWriteSet := writeSet);
      assert all == MastersOf(Entries(u));
      r := Resubmission(u, all, if |all| == 1 then TheOne(all) else 0);
    }
  }
}
