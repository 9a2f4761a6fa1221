/** Subsequences picked by a predicate, and images under a function. */
module Filters {
  import opened Txns

  function Filter<T>(s: seq<T>, p: T -> bool): seq<T> {
    if s == [] then []
    else
      var x := s[|s| - 1];
      Filter(s[..|s| - 1], p) + if p(x) then [x] else []
  }

  function Mapped<T, U>(s: seq<T>, f: T -> U): (r: seq<U>)
    ensures |r| == |s| && forall i :: 0 <= i < |r| ==> r[i] == f(s[i])
  {
    seq(|s|, i requires 0 <= i < |s| => f(s[i]))
  }

  /** What all copies of the transactions have in common. */
  function Stripped(txns: seq<Txn>): seq<Txn> {
    Mapped(txns, Strip)
  }

  lemma Regrouped<T>(p: seq<T>, q: seq<T>, r: seq<T>)
    ensures p + (q + r) == (p + q) + r
  {
  }

  lemma FilterMore<T>(s: seq<T>, x: T, p: T -> bool)
    ensures Filter(s + [x], p) == Filter(s, p) + if p(x) then [x] else []
  {
    assert (s + [x])[..|s|] == s;
  }

  lemma {:induction false} FilterConcat<T>(s: seq<T>, r: seq<T>, p: T -> bool)
    ensures Filter(s + r, p) == Filter(s, p) + Filter(r, p)
  {
    if r == [] {
      assert s + r == s;
    } else {
      var init, x := r[..|r| - 1], r[|r| - 1];
      assert r == init + [x];
      FilterConcat(s, init, p);
      FilterMore(s + init, x, p);
      FilterMore(init, x, p);
      Regrouped(s, init, [x]);
      Regrouped(Filter(s, p), Filter(init, p), if p(x) then [x] else []);
    }
  }

  lemma FilterPrefix<T>(s: seq<T>, r: seq<T>, p: T -> bool)
    requires s <= r
    ensures Filter(s, p) <= Filter(r, p)
  {
    FilterConcat(s, r[|s|..], p);
    assert r == s + r[|s|..];
  }

  lemma {:induction false} FilterHas<T>(s: seq<T>, p: T -> bool, x: T)
    ensures x in Filter(s, p) <==> x in s && p(x)
  {
    if s != [] {
      assert s == s[..|s| - 1] + [s[|s| - 1]];
      FilterHas(s[..|s| - 1], p, x);
    }
  }

  lemma {:induction false} FilterAll<T>(s: seq<T>, p: T -> bool)
    requires forall i :: 0 <= i < |s| ==> p(s[i])
    ensures Filter(s, p) == s
  {
    if s != [] {
      assert s == s[..|s| - 1] + [s[|s| - 1]];
      FilterAll(s[..|s| - 1], p);
    }
  }

  lemma {:induction false} FilterNone<T>(s: seq<T>, p: T -> bool)
    requires forall i :: 0 <= i < |s| ==> !p(s[i])
    ensures Filter(s, p) == []
  {
    if s != [] {
      FilterNone(s[..|s| - 1], p);
    }
  }

  /** Predicates that agree on the elements pick the same. */
  lemma {:induction false} FilterAlike<T>(s: seq<T>, p: T -> bool, q: T -> bool)
    requires forall i :: 0 <= i < |s| ==> p(s[i]) == q(s[i])
    ensures Filter(s, p) == Filter(s, q)
  {
    if s != [] {
      FilterAlike(s[..|s| - 1], p, q);
    }
  }

  /** Picking twice is picking by both. */
  lemma {:induction false} FilterTwice<T>(s: seq<T>, p: T -> bool, q: T -> bool, both: T -> bool)
    requires forall i :: 0 <= i < |s| ==> (both(s[i]) <==> p(s[i]) && q(s[i]))
    ensures Filter(Filter(s, p), q) == Filter(s, both)
  {
    if s != [] {
      var init, x := s[..|s| - 1], s[|s| - 1];
      FilterTwice(init, p, q, both);
      if p(x) {
        FilterMore(Filter(init, p), x, q);
      } else {
        assert Filter(s, p) == Filter(init, p);
      }
    }
  }

  /** Where two picked elements stand among all. */
  lemma {:induction false} FilterPlace<T>(s: seq<T>, p: T -> bool, k: nat) returns (i: nat)
    requires k < |Filter(s, p)|
    ensures i < |s| && s[i] == Filter(s, p)[k] && p(s[i])
  {
    var init := Filter(s[..|s| - 1], p);
    if k < |init| {
      i := FilterPlace(s[..|s| - 1], p, k);
    } else {
      i := |s| - 1;
    }
  }

  lemma {:induction false} FilterKeepsOrder<T>(s: seq<T>, p: T -> bool, k: nat, l: nat) returns (i: nat, j: nat)
    requires k < l < |Filter(s, p)|
    ensures i < j < |s| && s[i] == Filter(s, p)[k] && s[j] == Filter(s, p)[l]
  {
    var init := Filter(s[..|s| - 1], p);
    if l < |init| {
      i, j := FilterKeepsOrder(s[..|s| - 1], p, k, l);
    } else {
      i := FilterPlace(s[..|s| - 1], p, k);
      j := |s| - 1;
    }
  }

  lemma MappedConcat<T, U>(s: seq<T>, r: seq<T>, f: T -> U)
    ensures Mapped(s + r, f) == Mapped(s, f) + Mapped(r, f)
  {
  }

  /** Picking before a map is picking after it. */
  lemma {:induction false} FilterMapped<T, U>(s: seq<T>, f: T -> U, p: T -> bool, q: U -> bool)
    requires forall i :: 0 <= i < |s| ==> p(s[i]) == q(f(s[i]))
    ensures Mapped(Filter(s, p), f) == Filter(Mapped(s, f), q)
  {
    if s != [] {
      var init, x := s[..|s| - 1], s[|s| - 1];
      FilterMapped(init, f, p, q);
      assert Mapped(s, f) == Mapped(init, f) + [f(x)];
      FilterMore(Mapped(init, f), f(x), q);
      MappedConcat(Filter(init, p), if p(x) then [x] else [], f);
    }
  }

  /** If the images of what is picked are distinct, so are the images of any two elements that are picked. */
  lemma {:induction false} PickedDiffer<T, U>(s: seq<T>, p: T -> bool, f: T -> U, i: nat, j: nat)
    requires forall k, l :: 0 <= k < l < |Filter(s, p)| ==> f(Filter(s, p)[k]) != f(Filter(s, p)[l])
    requires i < j < |s| && p(s[i]) && p(s[j])
    ensures f(s[i]) != f(s[j])
  {
    var init, x := s[..|s| - 1], s[|s| - 1];
    var picked := Filter(init, p);
    assert s == init + [x];
    assert forall k :: 0 <= k < |picked| ==> Filter(s, p)[k] == picked[k];
    if j < |init| {
      PickedDiffer(init, p, f, i, j);
    } else {
      FilterHas(init, p, s[i]);
      var k :| 0 <= k < |picked| && picked[k] == s[i];
      assert Filter(s, p)[k] == s[i] && Filter(s, p)[|picked|] == x;
    }
  }
}
