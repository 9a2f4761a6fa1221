/** The FIFO queue of lock requests on one key: who holds the lock, and who inherits it. */
module LockQueue {
  import opened Txns

  datatype LockMode = READ | WRITE

  datatype LockRequest = LockRequest(mode: LockMode, txn: Txn)

  type Queue = seq<LockRequest>

  /** A write lock is held by the first request only; a read lock by every request that no write precedes. */
  predicate Granted(q: Queue, i: nat)
    requires i < |q|
  {
    if q[i].mode.WRITE? then i == 0 else !WritePrecedes(q, i)
  }

  predicate WritePrecedes(q: Queue, p: nat)
    requires p <= |q|
  {
    exists j :: 0 <= j < p && q[j].mode.WRITE?
  }

  function Remove(q: Queue, p: nat): Queue
    requires p < |q|
  {
    q[..p] + q[p + 1..]
  }

  /** The transactions of the run of read requests that starts at `i`. */
  function ReadRun(q: Queue, i: nat): seq<Txn>
    requires i <= |q|
    decreases |q| - i
  {
    if i < |q| && q[i].mode.READ? then [q[i].txn] + ReadRun(q, i + 1) else []
  }

  /** Who the release of request `p` makes an owner: the case split of `Release(key, txn)`. */
  function NewOwners(q: Queue, p: nat): seq<Txn>
    requires p < |q|
  {
    if p + 1 == |q| then
      []
    else if p == 0 && (q[p].mode.WRITE? || (q[p].mode.READ? && q[p + 1].mode.WRITE?)) then
      if q[p + 1].mode.WRITE? then [q[p + 1].txn] else ReadRun(q, p + 1)
    else if !WritePrecedes(q, p) && q[p].mode.WRITE? && q[p + 1].mode.READ? then
      ReadRun(q, p + 1)
    else
      []
  }

  /** Request `i` is granted once request `p` is gone, and was not granted before. */
  predicate Newly(q: Queue, p: nat, i: nat)
    requires p < i < |q|
  {
    Granted(Remove(q, p), i - 1) && !Granted(q, i)
  }

  /** Independent account of the new owners: the newly granted requests at `i` and later, in queue order. */
  ghost function NewlyGranted(q: Queue, p: nat, i: nat): seq<Txn>
    requires p < i <= |q|
    decreases |q| - i
  {
    if i == |q| then [] else (if Newly(q, p, i) then [q[i].txn] else []) + NewlyGranted(q, p, i + 1)
  }

  /** A write right behind the front request inherits the lock alone. */
  lemma WriteInherits(q: Queue)
    requires |q| > 1 && q[1].mode.WRITE?
    ensures NewlyGranted(q, 0, 1) == [q[1].txn]
  {
    assert Remove(q, 0)[0] == q[1];
    NothingGrantedBehindWrite(q, 0, 1, 2);
    assert Newly(q, 0, 1);
  }

  /** Releasing or cancelling any request hands the lock to exactly the requests that become granted. */
  lemma GrantExactness(q: Queue, p: nat)
    requires p < |q|
    ensures NewOwners(q, p) == NewlyGranted(q, p, p + 1)
  {
    if p + 1 == |q| {
    } else if p == 0 && q[1].mode.WRITE? {
      WriteInherits(q);
    } else if !WritePrecedes(q, p) && q[p].mode.WRITE? {
      if q[p + 1].mode.READ? {
        ReadRunIsGranted(q, p, p + 1);
      } else {
        NothingGrantedBehindWrite(q, p, p + 1, p + 1);
      }
    } else {
      NothingNew(q, p, p + 1);
    }
  }

  /** Writes ahead of request `i` before and after the removal of request `p`. */
  lemma WritesAfterRemove(q: Queue, p: nat, i: nat)
    requires p < |q| && i < |q|
    ensures i < p ==> (WritePrecedes(Remove(q, p), i) <==> WritePrecedes(q, i))
    ensures i > p ==> (WritePrecedes(q, i) <==> q[p].mode.WRITE? || WritePrecedes(Remove(q, p), i - 1))
    ensures i > p && WritePrecedes(q, p) ==> WritePrecedes(Remove(q, p), i - 1)
    ensures i < p ==> Remove(q, p)[i] == q[i]
    ensures i > p ==> Remove(q, p)[i - 1] == q[i]
  {
    var q' := Remove(q, p);
    assert forall j :: 0 <= j < p ==> q'[j] == q[j];
    assert forall j :: p < j < |q| ==> q'[j - 1] == q[j];
    if i > p {
      if h :| 0 <= h < i && h != p && q[h].mode.WRITE? {
        assert q'[if h < p then h else h - 1].mode.WRITE?;
      }
      if WritePrecedes(q', i - 1) {
        var j :| 0 <= j < i - 1 && q'[j].mode.WRITE?;
        assert q[if j < p then j else j + 1].mode.WRITE?;
      }
    }
  }

  /** No grant is ever taken back, and requests ahead of the released one are not affected. */
  lemma GrantsAreKept(q: Queue, p: nat, i: nat)
    requires p < |q| && i < |q| && i != p
    ensures i < p ==> (Granted(Remove(q, p), i) <==> Granted(q, i))
    ensures i > p && Granted(q, i) ==> Granted(Remove(q, p), i - 1)
  {
    WritesAfterRemove(q, p, i);
  }

  /** Behind a released write that no write precedes, the run of reads is granted and nothing after it. */
  lemma {:induction false} ReadRunIsGranted(q: Queue, p: nat, i: nat)
    requires p < i <= |q| && !WritePrecedes(q, p) && q[p].mode.WRITE?
    requires forall j :: p < j < i ==> q[j].mode.READ?
    requires i == p + 1 ==> i < |q| && q[i].mode.READ?
    ensures ReadRun(q, i) == NewlyGranted(q, p, i)
    decreases |q| - i
  {
    if i < |q| && q[i].mode.READ? {
      RunMemberIsNew(q, p, i);
      ReadRunIsGranted(q, p, i + 1);
      assert NewlyGranted(q, p, i) == [q[i].txn] + NewlyGranted(q, p, i + 1);
    } else if i < |q| {
      NothingGrantedBehindWrite(q, p, i, i);
    }
  }

  lemma RunMemberIsNew(q: Queue, p: nat, i: nat)
    requires p < i < |q| && !WritePrecedes(q, p) && q[p].mode.WRITE? && q[i].mode.READ?
    requires forall j :: p < j < i ==> q[j].mode.READ?
    ensures Newly(q, p, i)
  {
    NoWriteInRun(q, p, i);
    assert q[p].mode.WRITE? && WritePrecedes(q, i);
    assert Remove(q, p)[i - 1] == q[i];
  }

  lemma NoWriteInRun(q: Queue, p: nat, i: nat)
    requires p < i < |q| && !WritePrecedes(q, p)
    requires forall j :: p < j < i ==> q[j].mode.READ?
    ensures !WritePrecedes(Remove(q, p), i - 1)
  {
    var q' := Remove(q, p);
    forall j | 0 <= j < i - 1 ensures q'[j].mode.READ? {
      assert q'[j] == q[if j < p then j else j + 1];
    }
  }

  /** A write that stays behind the released request blocks everything after it. */
  lemma {:induction false} NothingGrantedBehindWrite(q: Queue, p: nat, w: nat, i: nat)
    requires p < w <= i <= |q| && w < |q| && q[w].mode.WRITE?
    requires i == w ==> w > 1
    ensures NewlyGranted(q, p, i) == []
    decreases |q| - i
  {
    if i < |q| {
      assert Remove(q, p)[w - 1] == q[w];
      assert Remove(q, p)[i - 1] == q[i];
      NothingGrantedBehindWrite(q, p, w, i + 1);
    }
  }

  /** Removing a read, or a request that a write precedes, changes no later grant unless a write becomes first. */
  lemma {:induction false} NothingNew(q: Queue, p: nat, i: nat)
    requires p < i <= |q|
    requires q[p].mode.READ? || WritePrecedes(q, p)
    requires p == 0 && |q| > 1 ==> q[1].mode.READ?
    ensures NewlyGranted(q, p, i) == []
    decreases |q| - i
  {
    if i < |q| {
      NotNew(q, p, i);
      NothingNew(q, p, i + 1);
    }
  }

  lemma NotNew(q: Queue, p: nat, i: nat)
    requires p < i < |q|
    requires q[p].mode.READ? || WritePrecedes(q, p)
    requires p == 0 && |q| > 1 ==> q[1].mode.READ?
    ensures !Newly(q, p, i)
  {
    WritesAfterRemove(q, p, i);
  }
}
