/** The growing ring buffer behind every queue between threads, used by one thread at a time. */
module AtomicQueue {

  /** Arithmetic on the 32-bit offsets. */
  const U32: nat := 0x1_0000_0000

  function Wrap(x: int): nat {
    x % U32
  }

  /** Number of elements between two offsets of a ring of `size` slots. */
  function Count(size: nat, front: nat, back: nat): nat
    requires front < size && back < size
  {
    if front <= back then back - front else back + size - front
  }

  /** The slot `i` places behind `front`. */
  function Slot(size: nat, front: nat, i: nat): nat
    requires front < size && i < size
  {
    if front + i < size then front + i else front + i - size
  }

  /** The offset behind `i`, as the 32-bit code computes it. */
  function NextOffset(size: nat, i: nat): (n: nat)
    requires 1 < size <= 0x8000_0000 && i < size
    ensures n == Slot(size, i, 1)
  {
    ModuloIsWrapAround(i + 1, size);
    Wrap(i + 1) % size
  }

  /** The number of elements, as the 32-bit code computes it. */
  function CountOffsets(size: nat, front: nat, back: nat): (n: nat)
    requires 1 < size <= 0x8000_0000 && front < size && back < size
    ensures n == Count(size, front, back)
  {
    ModuloIsWrapAround(back + size - front, size);
    assert Wrap(back + size) == back + size;
    Wrap(Wrap(back + size) - front) % size
  }

  /** The slot `i` places behind `front`, as the 32-bit code computes it. */
  function OffsetBehind(size: nat, front: nat, i: nat): (n: nat)
    requires 1 < size <= 0x8000_0000 && front < size && i < size
    ensures n == Slot(size, front, i)
  {
    ModuloIsWrapAround(front + i, size);
    Wrap(front + i) % size
  }

  /** The elements of the queue, oldest first. */
  function Elements<T>(ring: seq<T>, front: nat, back: nat): (s: seq<T>)
    requires front < |ring| && back < |ring|
    ensures |s| == Count(|ring|, front, back)
    ensures forall i :: 0 <= i < |s| ==> s[i] == ring[Slot(|ring|, front, i)]
  {
    if front <= back then ring[front..back] else ring[front..] + ring[..back]
  }

  lemma ModuloIsWrapAround(x: nat, size: nat)
    requires 0 < size && x < 2 * size
    ensures x % size == if x < size then x else x - size
  {
    if x >= size {
      assert x == 1 * size + (x - size);
      ModuloUnique(x, size, 1, x - size);
    }
  }

  lemma ModuloUnique(x: nat, size: nat, q: nat, r: nat)
    requires 0 < size && x == q * size + r && r < size && q <= 1
    ensures x % size == r
  {
  }

  /** The slot at `back` is free: no element lies in it. */
  lemma BackIsFree(size: nat, front: nat, back: nat, i: nat)
    requires front < size && back < size && i < Count(size, front, back)
    ensures Slot(size, front, i) != back
  {
  }

  /** Writing the free slot at `back` changes no element. */
  lemma WriteElements<T>(ring: seq<T>, front: nat, back: nat, item: T)
    requires front < |ring| && back < |ring|
    ensures Elements(ring[back := item], front, back) == Elements(ring, front, back)
  {
    forall i | 0 <= i < Count(|ring|, front, back) ensures Slot(|ring|, front, i) != back {
      BackIsFree(|ring|, front, back, i);
    }
  }

  /** Advancing `back` over a slot appends what the slot holds, unless the ring is full. */
  lemma PushElements<T>(ring: seq<T>, front: nat, back: nat)
    requires front < |ring| && back < |ring| && |ring| > 1 && Slot(|ring|, back, 1) != front
    ensures Elements(ring, front, Slot(|ring|, back, 1)) == Elements(ring, front, back) + [ring[back]]
  {
    var size := |ring|;
    var n := Count(size, front, back);
    assert Count(size, front, Slot(size, back, 1)) == n + 1;
    assert Slot(size, front, n) == back;
  }

  /** Advancing `front` drops the oldest element. */
  lemma PopElements<T>(ring: seq<T>, front: nat, back: nat)
    requires front < |ring| && back < |ring| && front != back && |ring| > 1
    ensures Elements(ring, front, back) != [] && ring[front] == Elements(ring, front, back)[0]
    ensures Elements(ring, Slot(|ring|, front, 1), back) == Elements(ring, front, back)[1..]
  {
  }

  lemma MovedElements<T>(contents: seq<T>, ring: seq<T>, size: nat)
    requires |contents| < size && |ring| == 2 * size
    requires forall j :: 0 <= j < |contents| ==> ring[size + j] == contents[j]
    ensures Elements(ring, size, size + |contents|) == contents
    ensures Slot(2 * size, size + |contents|, 1) != size
  {
  }

  /** The doubled size, as the 32-bit code computes it. */
  function Doubled(size: nat): (n: nat)
    requires size <= 0x4000_0000
    ensures n == 2 * size
  {
    Wrap(size * 2)
  }

  /** The 32-bit size can be doubled exactly while it is below 2^31, which the doublings of 256 reach; there the
      doubled size is zero. */
  lemma DoublingFits(size: nat)
    requires size <= 0x8000_0000
    ensures Wrap(size * 2) == 2 * size <==> size < 0x8000_0000
    ensures size == 0x8000_0000 ==> Wrap(size * 2) == 0
  {
    if size < 0x8000_0000 {
      ModuloUnique(2 * size, U32, 0, 2 * size);
    }
  }

  /** The sizes that doubling reaches from 256. */
  predicate IsSize(n: nat) {
    n == 256 || (n > 256 && n % 2 == 0 && IsSize(n / 2))
  }

  lemma {:induction false} SizesAreFarApart(m: nat, n: nat)
    requires IsSize(m) && IsSize(n) && m < n
    ensures 2 * m <= n
  {
    if m > 256 {
      SizesAreFarApart(m / 2, n / 2);
    } else {
      assert IsSize(n / 2);
    }
  }

  lemma SizesDouble(n: nat)
    requires IsSize(n)
    ensures IsSize(2 * n) && n >= 256
  {
    assert 2 * n % 2 == 0 && 2 * n / 2 == n;
  }

  lemma LargestSize()
    ensures IsSize(0x8000_0000)
  {
    assert IsSize(0x1_0000);
    assert IsSize(0x100_0000);
    assert IsSize(0x1000_0000);
  }

  class AtomicQueue<T(0)> {
    var queue: array<T>
    var size: nat
    var front: nat
    var back: nat

    ghost predicate Valid()
      reads this
    {
      queue.Length == size && IsSize(size) && 256 <= size <= 0x8000_0000 && front < size && back < size
    }

    ghost function Contents(): seq<T>
      requires Valid()
      reads this, queue
    {
      Elements(queue[..], front, back)
    }

    /** One slot always stays free. */
    ghost predicate Full()
      requires Valid()
      reads this, queue
    {
      |Contents()| == size - 1
    }

    constructor ()
      ensures Valid() && fresh(queue) && Contents() == []
    {
      queue := new T[256];
      size, front, back := 256, 0, 0;
    }

    method Size() returns (n: nat)
      requires Valid()
      ensures n == |Contents()|
    {
      n := CountOffsets(size, front, back);
    }

    method Empty() returns (empty: bool)
      requires Valid()
      ensures empty <==> Contents() == []
    {
      empty := front == back;
    }

    /** Appends; a full ring is doubled first. At 2^31 slots the doubled size is zero: there the source goes on and
        writes out of range, which is where this reports failure. */
    method Push(item: T) returns (pushed: bool)
      requires Valid()
      modifies this, queue
      ensures Valid() && (queue == old(queue) || fresh(queue))
      ensures pushed <==> !(old(Full()) && Wrap(old(size) * 2) == 0)
      ensures Contents() == old(Contents()) + if pushed then [item] else []
      ensures size == if pushed && old(Full()) then 2 * old(size) else old(size)
    {
      if front == NextOffset(size, back) {
        if Wrap(size * 2) == 0 {
          return false;
        }
        LargestSize();
        if size < 0x8000_0000 {
          SizesAreFarApart(size, 0x8000_0000);
        } else {
          DoublingFits(size);
        }
        Resize();
      }
      PushIntoFreeSlot(item);
      pushed := true;
    }

    method PushIntoFreeSlot(item: T)
      requires Valid() && front != Slot(size, back, 1)
      modifies queue, `back
      ensures Valid() && Contents() == old(Contents()) + [item]
    {
      ghost var ring := queue[..][back := item];
      WriteElements(queue[..], front, back, item);
      PushElements(ring, front, back);
      queue[back] := item;
      assert queue[..] == ring;
      back := NextOffset(size, back);
    }

    /** Doubles the ring and moves the elements to its upper half. */
    method Resize()
      requires Valid() && size <= 0x4000_0000
      modifies this
      ensures Valid() && fresh(queue)
      ensures Contents() == old(Contents()) && size == 2 * old(size) && front == old(size)
      ensures front != Slot(size, back, 1)
    {
      SizesDouble(size);
      var count := CountOffsets(size, front, back);
      var bigger := Grow();
      CopyElements(bigger, count);
      MovedElements(Contents(), bigger[..], size);
      queue, front, back, size := bigger, size, size + count, Doubled(size);
    }

    /** The copy loop of the resize. */
    method CopyElements(bigger: array<T>, count: nat)
      requires Valid() && bigger != queue && bigger.Length == 2 * size && count == |Contents()|
      requires forall j :: 0 <= j < size ==> bigger[j] == queue[j]
      modifies bigger
      ensures forall j :: 0 <= j < count ==> bigger[size + j] == Contents()[j]
    {
      var i := 0;
      while i < count
        invariant i <= count
        invariant forall j :: 0 <= j < size ==> bigger[j] == queue[j]
        invariant forall j :: 0 <= j < i ==> bigger[size + j] == Contents()[j]
      {
        bigger[size + i] := bigger[OffsetBehind(size, front, i)];
        i := i + 1;
      }
    }

    /** A buffer of twice the size with the old slots in front. */
    method Grow() returns (bigger: array<T>)
      requires Valid() && size <= 0x4000_0000
      ensures fresh(bigger) && bigger.Length == 2 * size
      ensures forall j :: 0 <= j < size ==> bigger[j] == queue[j]
    {
      bigger := new T[size * 2];
      var j := 0;
      while j < size
        invariant j <= size
        invariant forall k :: 0 <= k < j ==> bigger[k] == queue[k]
      {
        bigger[j] := queue[j];
        j := j + 1;
      }
    }

    /** Removes the oldest element, if there is one. */
    method Pop(default: T) returns (ok: bool, result: T)
      requires Valid()
      modifies this`front
      ensures Valid()
      ensures ok <==> old(Contents()) != []
      ensures if ok then result == old(Contents())[0] && Contents() == old(Contents())[1..]
              else result == default && Contents() == []
    {
      ok, result := false, default;
      if front != back {
        PopElements(queue[..], front, back);
        result := queue[front];
        front := NextOffset(size, front);
        ok := true;
      }
    }

    /** Reads the oldest element, if there is one. */
    method Front(default: T) returns (ok: bool, result: T)
      requires Valid()
      ensures ok <==> Contents() != []
      ensures result == if ok then Contents()[0] else default
    {
      ok, result := false, default;
      if front != back {
        ok, result := true, queue[front];
      }
    }
  }
}
