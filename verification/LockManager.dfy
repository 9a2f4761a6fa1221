/** The deterministic lock manager itself: a hash table of request queues, updated in place. */
module LockManager {
  import opened Txns
  import opened LockQueue
  import opened LockSpec

  const TABLE_SIZE := 1000000

  /** One entry of a hash bucket: a key and its queue. */
  datatype KeysList = KeysList(key: Key, requests: Queue)

  type Table = seq<seq<KeysList>>

  function Bucket(hash: Key -> nat, k: Key): nat {
    hash(k) % TABLE_SIZE
  }

  ghost predicate EntryMatches(hash: Key -> nat, e: KeysList, b: nat, queues: map<Key, Queue>) {
    Bucket(hash, e.key) == b && e.key in queues && queues[e.key] == e.requests && e.requests != []
  }

  ghost predicate BucketMatches(hash: Key -> nat, bucket: seq<KeysList>, b: nat, queues: map<Key, Queue>) {
    && (forall i :: 0 <= i < |bucket| ==> EntryMatches(hash, bucket[i], b, queues))
    && (forall i, j :: 0 <= i < j < |bucket| ==> bucket[i].key != bucket[j].key)
  }

  ghost predicate Lists(bucket: seq<KeysList>, k: Key) {
    exists i :: 0 <= i < |bucket| && bucket[i].key == k
  }

  /** The hash table stores exactly the non-empty queues, each in its key's bucket, once. */
  ghost predicate Matches(hash: Key -> nat, table: Table, queues: map<Key, Queue>) {
    && |table| == TABLE_SIZE
    && (forall b :: 0 <= b < |table| ==> BucketMatches(hash, table[b], b, queues))
    && (forall k :: k in queues ==> Lists(table[Bucket(hash, k)], k))
  }

  lemma MatchesAfterUpdate(hash: Key -> nat, table: Table, queues: map<Key, Queue>, k: Key, q: Queue, i: nat)
    requires Matches(hash, table, queues) && q != []
    requires var bucket := table[Bucket(hash, k)];
             i <= |bucket| && (if i < |bucket| then bucket[i].key == k else k !in queues)
    ensures var bucket := table[Bucket(hash, k)];
            var bucket' := if i < |bucket| then bucket[i := KeysList(k, q)] else bucket + [KeysList(k, q)];
            Matches(hash, table[Bucket(hash, k) := bucket'], queues[k := q])
  {
    var b := Bucket(hash, k);
    var bucket := table[b];
    var bucket' := if i < |bucket| then bucket[i := KeysList(k, q)] else bucket + [KeysList(k, q)];
    var table' := table[b := bucket'];
    var queues' := queues[k := q];
    assert BucketMatches(hash, bucket, b, queues);
    assert BucketMatches(hash, bucket', b, queues');
    forall c | 0 <= c < |table'| && c != b ensures BucketMatches(hash, table'[c], c, queues') {
      assert BucketMatches(hash, table[c], c, queues);
      assert forall j :: 0 <= j < |table[c]| ==> EntryMatches(hash, table[c][j], c, queues);
    }
    forall j | j in queues' ensures Lists(table'[Bucket(hash, j)], j) {
      if j == k {
        assert bucket'[i].key == k;
      } else if Bucket(hash, j) == b {
        var p :| 0 <= p < |bucket| && bucket[p].key == j;
        assert bucket'[p].key == j;
      }
    }
  }

  lemma BucketAfterErase(hash: Key -> nat, bucket: seq<KeysList>, b: nat, queues: map<Key, Queue>, i: nat)
    requires i < |bucket| && BucketMatches(hash, bucket, b, queues)
    ensures BucketMatches(hash, bucket[..i] + bucket[i + 1..], b, queues - {bucket[i].key})
    ensures forall k :: k != bucket[i].key && Lists(bucket, k) ==> Lists(bucket[..i] + bucket[i + 1..], k)
  {
    var bucket' := bucket[..i] + bucket[i + 1..];
    assert forall j :: 0 <= j < |bucket'| ==> bucket'[j] == bucket[if j < i then j else j + 1];
    forall k | k != bucket[i].key && Lists(bucket, k) ensures Lists(bucket', k) {
      var p :| 0 <= p < |bucket| && bucket[p].key == k;
      assert bucket'[if p < i then p else p - 1].key == k;
    }
  }

  lemma MatchesAfterErase(hash: Key -> nat, table: Table, queues: map<Key, Queue>, k: Key, i: nat)
    requires Matches(hash, table, queues) && i < |table[Bucket(hash, k)]| && table[Bucket(hash, k)][i].key == k
    ensures var bucket := table[Bucket(hash, k)];
            Matches(hash, table[Bucket(hash, k) := bucket[..i] + bucket[i + 1..]], queues - {k})
  {
    var b := Bucket(hash, k);
    var table' := table[b := table[b][..i] + table[b][i + 1..]];
    BucketAfterErase(hash, table[b], b, queues, i);
    forall c | 0 <= c < |table'| && c != b ensures BucketMatches(hash, table'[c], c, queues - {k}) {
      assert forall j :: 0 <= j < |table[c]| ==> EntryMatches(hash, table[c][j], c, queues);
    }
  }

  class DeterministicLockManager {
    const cfg: NodeConfig
    const hash: Key -> nat
    const lockTable: array<seq<KeysList>>
    var txnWaits: map<Txn, int>
    var readyTxns: seq<Txn>
    ghost var queues: map<Key, Queue>

    ghost predicate Valid()
      reads this, lockTable
    {
      Matches(hash, lockTable[..], queues)
    }

    /** The abstract state: non-empty queues by key, wait counts, and the ready queue. */
    ghost function State(): LockState
      reads this
    {
      LockState(queues, txnWaits, readyTxns)
    }

    constructor (cfg: NodeConfig, hash: Key -> nat)
      ensures Valid() && fresh(lockTable)
      ensures this.cfg == cfg && this.hash == hash && State() == Empty
    {
      this.cfg := cfg;
      this.hash := hash;
      lockTable := new seq<KeysList>[TABLE_SIZE](_ => []);
      txnWaits := map[];
      readyTxns := [];
      queues := map[];
    }

    /** Walks the bucket of `key` up to its entry. */
    method FindList(key: Key) returns (i: nat)
      requires Valid()
      ensures i <= |lockTable[..][Bucket(hash, key)]|
      ensures if i < |lockTable[..][Bucket(hash, key)]| then
                lockTable[..][Bucket(hash, key)][i].key == key && key in queues
                && lockTable[..][Bucket(hash, key)][i].requests == queues[key]
              else
                key !in queues
    {
      var bucket := lockTable[Bucket(hash, key)];
      assert BucketMatches(hash, lockTable[..][Bucket(hash, key)], Bucket(hash, key), queues);
      i := 0;
      while i < |bucket| && bucket[i].key != key
        invariant i <= |bucket|
        invariant forall j :: 0 <= j < i ==> bucket[j].key != key
      {
        i := i + 1;
      }
      if i < |bucket| {
        assert EntryMatches(hash, bucket[i], Bucket(hash, key), queues);
      } else {
        assert !Lists(bucket, key);
      }
    }

    /** Stores a new queue for `key`, whose entry FindList found (or not) at `i`. */
    method StoreList(key: Key, i: nat, requests: Queue)
      requires Valid() && requests != []
      requires var bucket := lockTable[..][Bucket(hash, key)];
               i <= |bucket| && (if i < |bucket| then bucket[i].key == key else key !in queues)
      modifies `queues, lockTable
      ensures Valid()
      ensures queues == old(queues)[key := requests]
    {
      var b := Bucket(hash, key);
      var bucket := lockTable[b];
      MatchesAfterUpdate(hash, lockTable[..], queues, key, requests, i);
      lockTable[b] := if i < |bucket| then bucket[i := KeysList(key, requests)] else bucket + [KeysList(key, requests)];
      queues := queues[key := requests];
      assert lockTable[..] == old(lockTable[..])[b := lockTable[b]];
    }

    /** Drops the entry at `i`, whose queue has become empty. */
    method EraseList(key: Key, i: nat)
      requires Valid()
      requires i < |lockTable[..][Bucket(hash, key)]| && lockTable[..][Bucket(hash, key)][i].key == key
      modifies `queues, lockTable
      ensures Valid()
      ensures queues == old(queues) - {key}
    {
      var b := Bucket(hash, key);
      var bucket := lockTable[b];
      MatchesAfterErase(hash, lockTable[..], queues, key, i);
      lockTable[b] := bucket[..i] + bucket[i + 1..];
      queues := queues - {key};
      assert lockTable[..] == old(lockTable[..])[b := lockTable[b]];
    }

    /** Queues one request, unless the transaction made the last one, and reports whether the lock was acquired. */
    method Request(key: Key, mode: LockMode, txn: Txn) returns (acquired: bool)
      requires Valid()
      modifies `queues, lockTable
      ensures Valid()
      ensures (queues, acquired) == RequestOne(old(queues), txn, Want(key, mode))
    {
      var i := FindList(key);
      var bucket := lockTable[Bucket(hash, key)];
      var requests := if i < |bucket| then bucket[i].requests else [];
      acquired := true;
      if requests == [] || txn != requests[|requests| - 1].txn {
        if mode == WRITE {
          if |requests| + 1 > 1 {
            acquired := false;
          }
        } else {
          var write := AnyWrite(requests + [LockRequest(mode, txn)]);
          acquired := !write;
          assert forall h :: 0 <= h < |requests| ==> (requests + [LockRequest(mode, txn)])[h] == requests[h];
        }
        StoreList(key, i, requests + [LockRequest(mode, txn)]);
      }
    }

    /** Scans a queue for a write request. */
    method AnyWrite(requests: Queue) returns (found: bool)
      ensures found <==> WritePrecedes(requests, |requests|)
    {
      found := false;
      var j := 0;
      while j < |requests|
        invariant j <= |requests|
        invariant !found && !WritePrecedes(requests, j)
      {
        if requests[j].mode == WRITE {
          return true;
        }
        j := j + 1;
      }
    }

    /** Requests every lock of the transaction; the result is the number it must wait for. */
    method Lock(txn: Txn) returns (notAcquired: nat)
      requires Valid()
      modifies this, lockTable
      ensures Valid()
      ensures (State(), notAcquired) == LockOp(cfg, old(State()), txn)
    {
      SplitRequest(queues, txn, Select(cfg, txn, txn.readWriteSet, WRITE), Select(cfg, txn, txn.readSet, READ));
      var blockedWrites := LockEntries(txn, txn.readWriteSet, WRITE);
      var blockedReads := LockEntries(txn, txn.readSet, READ);
      notAcquired := blockedWrites + blockedReads;
      if notAcquired > 0 {
        txnWaits := txnWaits[txn := notAcquired];
      } else {
        readyTxns := readyTxns + [txn];
      }
    }

    /** The loop that `Lock` runs over each of the two sets of the transaction. */
    method LockEntries(txn: Txn, entries: seq<KeyEntry>, mode: LockMode) returns (notAcquired: nat)
      requires Valid()
      modifies `queues, lockTable
      ensures Valid()
      ensures (queues, notAcquired) == RequestAll(old(queues), txn, Select(cfg, txn, entries, mode))
    {
      notAcquired := 0;
      ghost var rest := Select(cfg, txn, entries, mode);
      ghost var goal := RequestAll(queues, txn, rest);
      assert entries[0..] == entries;
      var i := 0;
      while i < |entries|
        invariant i <= |entries| && Valid()
        invariant rest == Select(cfg, txn, entries[i..], mode)
        invariant RequestsLeft(queues, txn, rest, notAcquired, goal)
      {
        SelectTail(cfg, txn, entries, i, mode);
        rest := Select(cfg, txn, entries[i + 1..], mode);
        if Wanted(cfg, txn, entries[i]) {
          notAcquired := RequestAnother(txn, Want(entries[i].key, mode), notAcquired, rest, goal);
        }
        i := i + 1;
      }
      assert entries[i..] == [] && rest == [];
    }

    /** One more request on top of `n` that were not acquired; `rest` are those to come. */
    method RequestAnother(txn: Txn, want: Want, n: nat, ghost rest: seq<Want>, ghost goal: (map<Key, Queue>, nat))
      returns (notAcquired: nat)
      requires Valid() && RequestsLeft(queues, txn, [want] + rest, n, goal)
      modifies `queues, lockTable
      ensures Valid() && RequestsLeft(queues, txn, rest, notAcquired, goal)
    {
      RequestsLeftStep(queues, txn, want, rest, n, goal);
      var acquired := Request(want.key, want.mode, txn);
      notAcquired := if acquired then n else n + 1;
    }

    /** Releases or cancels the request of `txn` on one key and grants the lock to its successors. */
    method ReleaseKey(key: Key, txn: Txn)
      requires Valid() && key in queues
      modifies this, lockTable
      ensures Valid()
      ensures State() == ReleaseKeyOp(old(State()), key, txn)
    {
      var i := FindList(key);
      var requests := lockTable[Bucket(hash, key)][i].requests;
      var target, writeRequestsPrecedeTarget := FindTarget(requests, txn);
      if target < |requests| {
        if target + 1 < |requests| {
          var newOwners := ChooseOwners(requests, target, writeRequestsPrecedeTarget);
          GrantTo(newOwners);
        }
        DropRequest(key, i, requests, target);
      }
    }

    /** Takes one request out of the list of a key, and the list out of its bucket when it was the last. */
    method DropRequest(key: Key, i: nat, requests: Queue, target: nat)
      requires Valid() && key in queues && i < |lockTable[Bucket(hash, key)]|
      requires lockTable[Bucket(hash, key)][i] == KeysList(key, queues[key])
      requires requests == queues[key] && target < |requests|
      modifies `queues, lockTable
      ensures Valid()
      ensures var rest := Remove(requests, target);
              queues == if rest == [] then old(queues) - {key} else old(queues)[key := rest]
    {
      var rest := requests[..target] + requests[target + 1..];
      if |rest| == 0 {
        EraseList(key, i);
      } else {
        StoreList(key, i, rest);
      }
    }

    /** Seeks the request of `txn`, noting whether any write precedes it. */
    method FindTarget(requests: Queue, txn: Txn) returns (target: nat, writeRequestsPrecedeTarget: bool)
      ensures target == Find(requests, txn)
      ensures writeRequestsPrecedeTarget <==> WritePrecedes(requests, target)
    {
      writeRequestsPrecedeTarget := false;
      target := 0;
      while target < |requests| && requests[target].txn != txn
        invariant target <= |requests|
        invariant forall j :: 0 <= j < target ==> requests[j].txn != txn
        invariant writeRequestsPrecedeTarget <==> WritePrecedes(requests, target)
      {
        if requests[target].mode == WRITE {
          writeRequestsPrecedeTarget := true;
        }
        target := target + 1;
      }
    }

    /** The case split over what follows the released request. */
    method ChooseOwners(requests: Queue, target: nat, writeRequestsPrecedeTarget: bool) returns (newOwners: seq<Txn>)
      requires target + 1 < |requests|
      requires writeRequestsPrecedeTarget <==> WritePrecedes(requests, target)
      ensures newOwners == NewOwners(requests, target)
    {
      newOwners := [];
      var it := target + 1;
      if target == 0 && (requests[target].mode == WRITE ||
                         (requests[target].mode == READ && requests[it].mode == WRITE)) {
        if requests[it].mode == WRITE {
          newOwners := newOwners + [requests[it].txn];
        }
        newOwners := TakeReadRun(requests, it, newOwners);
      } else if !writeRequestsPrecedeTarget && requests[target].mode == WRITE && requests[it].mode == READ {
        newOwners := TakeReadRun(requests, it, newOwners);
      }
    }

    /** Appends the transactions of the read requests that start at `it`. */
    method TakeReadRun(requests: Queue, it: nat, owners: seq<Txn>) returns (newOwners: seq<Txn>)
      requires it <= |requests|
      ensures newOwners == owners + ReadRun(requests, it)
    {
      newOwners := owners;
      var j := it;
      while j < |requests| && requests[j].mode == READ
        invariant it <= j <= |requests|
        invariant owners + ReadRun(requests, it) == newOwners + ReadRun(requests, j)
      {
        newOwners := newOwners + [requests[j].txn];
        j := j + 1;
      }
    }

    /** Counts down every new owner and moves those that reach zero to the ready queue. */
    method GrantTo(newOwners: seq<Txn>)
      modifies `txnWaits, `readyTxns
      ensures State() == WakeAll(old(State()), newOwners)
    {
      var j := 0;
      while j < |newOwners|
        invariant j <= |newOwners|
        invariant WakeAll(State(), newOwners[j..]) == WakeAll(old(State()), newOwners)
      {
        var txn := newOwners[j];
        assert newOwners[j..][1..] == newOwners[j + 1..];
        assert txnWaits[txn := 0] - {txn} == txnWaits - {txn};
        txnWaits := txnWaits[txn := WaitsOf(txnWaits, txn) - 1];
        if txnWaits[txn] == 0 {
          readyTxns := readyTxns + [txn];
          txnWaits := txnWaits - {txn};
        }
        j := j + 1;
      }
    }

    /** Releases every lock of the transaction; each must have a queue. */
    method Release(txn: Txn)
      requires Valid() && Releasable(State(), Held(cfg, txn))
      modifies this, lockTable
      ensures Valid()
      ensures State() == ReleaseAll(old(State()), Held(cfg, txn), txn)
    {
      SplitRelease(State(), SelectKeys(cfg, txn, txn.readSet), SelectKeys(cfg, txn, txn.readWriteSet), txn);
      ReleaseEntries(txn, txn.readSet);
      ReleaseEntries(txn, txn.readWriteSet);
    }

    /** The loop that `Release(txn)` runs over each of its two sets. */
    method ReleaseEntries(txn: Txn, entries: seq<KeyEntry>)
      requires Valid() && Releasable(State(), SelectKeys(cfg, txn, entries))
      modifies this, lockTable
      ensures Valid()
      ensures State() == ReleaseAll(old(State()), SelectKeys(cfg, txn, entries), txn)
    {
      ghost var rest := SelectKeys(cfg, txn, entries);
      assert entries[0..] == entries;
      var i := 0;
      while i < |entries|
        invariant i <= |entries| && Valid()
        invariant rest == SelectKeys(cfg, txn, entries[i..])
        invariant Releasable(State(), rest)
        invariant ReleaseAll(State(), rest, txn) == ReleaseAll(old(State()), SelectKeys(cfg, txn, entries), txn)
      {
        var e := entries[i];
        SelectKeysTail(cfg, txn, entries, i);
        rest := SelectKeys(cfg, txn, entries[i + 1..]);
        if Wanted(cfg, txn, e) {
          ReleaseAllCons(State(), e.key, rest, txn);
          ReleaseKey(e.key, txn);
        }
        i := i + 1;
      }
    }
  }

  /** Making the requests of `rest` on top of the `n` blocked so far gives `goal`. */
  ghost predicate RequestsLeft(queues: map<Key, Queue>, t: Txn, rest: seq<Want>, n: nat, goal: (map<Key, Queue>, nat)) {
    var (queues', m) := RequestAll(queues, t, rest);
    goal == (queues', n + m)
  }

  lemma RequestsLeftStep(queues: map<Key, Queue>, t: Txn, w: Want, rest: seq<Want>, n: nat, goal: (map<Key, Queue>, nat))
    requires RequestsLeft(queues, t, [w] + rest, n, goal)
    ensures var (queues1, acquired) := RequestOne(queues, t, w);
            RequestsLeft(queues1, t, rest, if acquired then n else n + 1, goal)
  {
    RequestAllCons(queues, t, w, rest);
  }

  lemma SelectTail(cfg: NodeConfig, t: Txn, es: seq<KeyEntry>, i: nat, mode: LockMode)
    requires i < |es|
    ensures var rest := Select(cfg, t, es[i + 1..], mode);
            Select(cfg, t, es[i..], mode) == if Wanted(cfg, t, es[i]) then [Want(es[i].key, mode)] + rest else rest
  {
    assert es[i..][1..] == es[i + 1..];
  }

  lemma SelectKeysTail(cfg: NodeConfig, t: Txn, es: seq<KeyEntry>, i: nat)
    requires i < |es|
    ensures var rest := SelectKeys(cfg, t, es[i + 1..]);
            SelectKeys(cfg, t, es[i..]) == if Wanted(cfg, t, es[i]) then [es[i].key] + rest else rest
  {
    assert es[i..][1..] == es[i + 1..];
  }

  lemma {:induction false} SplitRelease(s: LockState, a: seq<Key>, b: seq<Key>, t: Txn)
    requires Releasable(s, a + b)
    ensures Releasable(s, a) && Releasable(ReleaseAll(s, a, t), b)
    ensures ReleaseAll(s, a + b, t) == ReleaseAll(ReleaseAll(s, a, t), b, t)
    decreases |a|
  {
    assert forall i :: 0 <= i < |a| ==> (a + b)[i] == a[i];
    if a == [] {
      assert a + b == b;
    } else {
      assert a + b == [a[0]] + (a[1..] + b);
      ReleaseAllCons(s, a[0], a[1..] + b, t);
      SplitRelease(ReleaseKeyOp(s, a[0], t), a[1..], b, t);
    }
  }

  lemma {:induction false} SplitRequest(queues: map<Key, Queue>, t: Txn, a: seq<Want>, b: seq<Want>)
    ensures var (queues1, n) := RequestAll(queues, t, a);
            RequestAll(queues, t, a + b) == (RequestAll(queues1, t, b).0, n + RequestAll(queues1, t, b).1)
    decreases |a|
  {
    if a == [] {
      assert a + b == b;
    } else {
      assert a + b == [a[0]] + (a[1..] + b);
      RequestAllCons(queues, t, a[0], a[1..] + b);
      SplitRequest(RequestOne(queues, t, a[0]).0, t, a[1..], b);
    }
  }

  lemma RequestAllCons(queues: map<Key, Queue>, t: Txn, w: Want, rest: seq<Want>)
    ensures var (queues1, acquired) := RequestOne(queues, t, w);
            RequestAll(queues, t, [w] + rest)
              == (RequestAll(queues1, t, rest).0, RequestAll(queues1, t, rest).1 + if acquired then 0 else 1)
  {
    assert ([w] + rest)[1..] == rest;
  }

  lemma ReleaseAllCons(s: LockState, k: Key, rest: seq<Key>, t: Txn)
    requires Releasable(s, [k] + rest)
    ensures k in s.queues && Releasable(ReleaseKeyOp(s, k, t), rest)
    ensures ReleaseAll(s, [k] + rest, t) == ReleaseAll(ReleaseKeyOp(s, k, t), rest, t)
  {
    var keys := [k] + rest;
    assert keys[0] == k && keys[1..] == rest;
    assert forall i :: 0 <= i < |rest| ==> keys[i + 1] == rest[i];
  }
}
