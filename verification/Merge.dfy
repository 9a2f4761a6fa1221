/** One order of all transactions out of the orders in which the origins have logged them. */
module Merge {
  import opened Filters
  import opened Txns

  predicate Involves(t: Txn, a: nat) {
    a in Involved(t)
  }

  function InvolvesFor(a: nat): Txn -> bool {
    (t: Txn) => Involves(t, a)
  }

  predicate IsMulti(t: Txn) {
    |Involved(t)| > 1
  }

  predicate IsSingle(t: Txn) {
    !IsMulti(t)
  }

  /** A sequence of transactions of origin `a`. */
  ghost predicate AllInvolve(q: seq<Txn>, a: nat) {
    forall i :: 0 <= i < |q| ==> Involves(q[i], a)
  }

  ghost predicate AllSingle(q: seq<Txn>) {
    forall i :: 0 <= i < |q| ==> IsSingle(q[i])
  }

  lemma OneOrigin(t: Txn, a: nat, b: nat)
    requires IsSingle(t) && Involves(t, a) && Involves(t, b)
    ensures a == b
  {
    SubsetCardinality({a, b}, Involved(t));
  }

  /** The transactions behind the last one of several origins. */
  function Tail(q: seq<Txn>): (r: seq<Txn>)
    ensures |r| <= |q| && r == q[|q| - |r|..] && (forall i :: 0 <= i < |r| ==> IsSingle(r[i]))
    ensures |r| < |q| ==> IsMulti(q[|q| - |r| - 1])
  {
    if q == [] || IsMulti(q[|q| - 1]) then [] else Tail(q[..|q| - 1]) + [q[|q| - 1]]
  }

  /** What stands before the last one of several origins. */
  function Front(q: seq<Txn>): seq<Txn> {
    if |Tail(q)| == |q| then [] else q[..|q| - |Tail(q)| - 1]
  }

  function Concat(qs: seq<seq<Txn>>): seq<Txn> {
    if qs == [] then [] else Concat(qs[..|qs| - 1]) + qs[|qs| - 1]
  }

  /** What the origins have behind the last transaction `t` of several. */
  function Tails(qs: seq<seq<Txn>>, t: Txn): (r: seq<seq<Txn>>)
    ensures |r| == |qs| && forall a :: 0 <= a < |qs| ==> r[a] == if Involves(t, a) then Tail(qs[a]) else []
  {
    seq(|qs|, a requires 0 <= a < |qs| => if Involves(t, a) then Tail(qs[a]) else [])
  }

  /** What they have before it. */
  function Fronts(qs: seq<seq<Txn>>, t: Txn): (r: seq<seq<Txn>>)
    ensures |r| == |qs| && forall a :: 0 <= a < |qs| ==> r[a] == if Involves(t, a) then Front(qs[a]) else qs[a]
  {
    seq(|qs|, a requires 0 <= a < |qs| => if Involves(t, a) then Front(qs[a]) else qs[a])
  }

  /** The orders `qs` put together: they meet in `multi`, the transactions of several origins. */
  function Merged(qs: seq<seq<Txn>>, multi: seq<Txn>): seq<Txn>
    decreases |multi|
  {
    if multi == [] then Concat(qs)
    else
      var t := multi[|multi| - 1];
      Merged(Fronts(qs, t), multi[..|multi| - 1]) + [t] + Concat(Tails(qs, t))
  }

  /** Each of `qs` has what involves its origin, and among it the transactions of several origins in the order of `multi`. */
  ghost predicate Meet(qs: seq<seq<Txn>>, multi: seq<Txn>) {
    && (forall i :: 0 <= i < |multi| ==> IsMulti(multi[i]) && forall a :: a in Involved(multi[i]) ==> a < |qs|)
    && (forall a :: 0 <= a < |qs| ==> Meets(qs[a], multi, a))
  }

  ghost predicate Meets(q: seq<Txn>, multi: seq<Txn>, a: nat) {
    AllInvolve(q, a) && Filter(q, IsMulti) == Filter(multi, InvolvesFor(a))
  }

  // -------- the parts

  ghost predicate Singles(qs: seq<seq<Txn>>) {
    forall a :: 0 <= a < |qs| ==> AllInvolve(qs[a], a) && AllSingle(qs[a])
  }

  lemma OthersDropped(q: seq<Txn>, a: nat, b: nat)
    requires AllInvolve(q, a) && AllSingle(q)
    ensures Filter(q, InvolvesFor(b)) == if a == b then q else []
  {
    if a == b {
      FilterAll(q, InvolvesFor(b));
    } else {
      forall i | 0 <= i < |q| ensures !InvolvesFor(b)(q[i]) {
        assert Involves(q[i], a) && IsSingle(q[i]);
        if Involves(q[i], b) {
          OneOrigin(q[i], a, b);
        }
      }
      FilterNone(q, InvolvesFor(b));
    }
  }

  lemma {:induction false} ConcatProjects(qs: seq<seq<Txn>>, b: nat)
    requires Singles(qs)
    ensures Filter(Concat(qs), InvolvesFor(b)) == if b < |qs| then qs[b] else []
  {
    if qs != [] {
      var init, q := qs[..|qs| - 1], qs[|qs| - 1];
      assert qs == init + [q];
      ConcatProjects(init, b);
      assert AllInvolve(qs[|init|], |init|) && AllSingle(qs[|init|]);
      OthersDropped(q, |init|, b);
      FilterConcat(Concat(init), q, InvolvesFor(b));
    }
  }

  lemma {:induction false} ConcatMembers(qs: seq<seq<Txn>>, t: Txn) returns (a: nat)
    requires Singles(qs) && t in Concat(qs)
    ensures a < |qs| && Involves(t, a)
  {
    var init, q := qs[..|qs| - 1], qs[|qs| - 1];
    assert qs == init + [q];
    if t in q {
      a := |init|;
    } else {
      a := ConcatMembers(init, t);
    }
  }

  lemma TailFilter(q: seq<Txn>)
    ensures Filter(Tail(q), IsMulti) == []
  {
    FilterNone(Tail(q), IsMulti);
  }

  lemma AllTail(q: seq<Txn>)
    requires |Tail(q)| == |q|
    ensures Filter(q, IsMulti) == []
  {
    TailFilter(q);
    assert Tail(q) == q;
  }

  lemma SplitAt<T>(q: seq<T>, n: nat)
    requires n < |q|
    ensures q == q[..n] + [q[n]] + q[n + 1..]
  {
  }

  lemma Split(q: seq<Txn>)
    requires |Tail(q)| < |q|
    ensures |Front(q)| < |q| && q == Front(q) + [q[|Front(q)|]] + Tail(q)
  {
    SplitAt(q, |q| - |Tail(q)| - 1);
  }

  lemma EndsAlike<T>(p: seq<T>, x: T, q: seq<T>, y: T)
    requires p + [x] == q + [y]
    ensures p == q && x == y
  {
    assert (p + [x])[..|p|] == p && (q + [y])[..|q|] == q;
    assert (p + [x])[|p|] == x && (q + [y])[|q|] == y;
  }

  /** The last transaction of several origins stands between the front and the tail. */
  lemma LastMulti(q: seq<Txn>, t: Txn, before: seq<Txn>)
    requires Filter(q, IsMulti) == before + [t]
    ensures q == Front(q) + [t] + Tail(q) && Filter(Front(q), IsMulti) == before
  {
    if |Tail(q)| == |q| {
      AllTail(q);
    } else {
      Split(q);
      TailFilter(q);
      var front, x := Front(q), q[|Front(q)|];
      FilterConcat(front + [x], Tail(q), IsMulti);
      FilterMore(front, x, IsMulti);
      assert Filter(q, IsMulti) == Filter(front, IsMulti) + [x];
      EndsAlike(Filter(front, IsMulti), x, before, t);
    }
  }

  lemma NoMultiLeft(q: seq<Txn>, a: nat)
    requires Meets(q, [], a)
    ensures AllSingle(q)
  {
    forall i | 0 <= i < |q| ensures IsSingle(q[i]) {
      FilterHas(q, IsMulti, q[i]);
    }
  }

  lemma PartsInvolve(p: seq<Txn>, q: seq<Txn>, a: nat)
    requires AllInvolve(p + q, a)
    ensures AllInvolve(p, a) && AllInvolve(q, a)
  {
    forall i | 0 <= i < |p| ensures Involves(p[i], a) {
      assert (p + q)[i] == p[i];
    }
    forall i | 0 <= i < |q| ensures Involves(q[i], a) {
      assert (p + q)[|p| + i] == q[i];
    }
  }

  lemma FrontMeets(q: seq<Txn>, init: seq<Txn>, t: Txn, a: nat)
    requires Meets(q, init + [t], a)
    ensures Involves(t, a) ==> q == Front(q) + [t] + Tail(q) && Meets(Front(q), init, a) && AllInvolve(Tail(q), a)
    ensures !Involves(t, a) ==> Meets(q, init, a)
  {
    FilterMore(init, t, InvolvesFor(a));
    if Involves(t, a) {
      LastMulti(q, t, Filter(init, InvolvesFor(a)));
      PartsInvolve(Front(q) + [t], Tail(q), a);
      PartsInvolve(Front(q), [t], a);
    }
  }

  lemma FrontsMeet(qs: seq<seq<Txn>>, init: seq<Txn>, t: Txn)
    requires Meet(qs, init + [t])
    ensures Meet(Fronts(qs, t), init) && Singles(Tails(qs, t)) && IsMulti(t)
  {
    var multi := init + [t];
    assert multi[|init|] == t;
    forall i | 0 <= i < |init| ensures IsMulti(init[i]) && forall a :: a in Involved(init[i]) ==> a < |Fronts(qs, t)| {
      assert multi[i] == init[i];
    }
    forall a | 0 <= a < |qs|
      ensures Meets(Fronts(qs, t)[a], init, a) && AllInvolve(Tails(qs, t)[a], a) && AllSingle(Tails(qs, t)[a])
    {
      assert Meets(qs[a], multi, a);
      FrontMeets(qs[a], init, t, a);
    }
  }

  // -------- the whole

  lemma NoMultisLeft(qs: seq<seq<Txn>>)
    requires Meet(qs, [])
    ensures Singles(qs)
  {
    forall a | 0 <= a < |qs| ensures AllInvolve(qs[a], a) && AllSingle(qs[a]) {
      assert Meets(qs[a], [], a);
      NoMultiLeft(qs[a], a);
    }
  }

  lemma MergedMore(qs: seq<seq<Txn>>, init: seq<Txn>, t: Txn)
    ensures Merged(qs, init + [t]) == Merged(Fronts(qs, t), init) + [t] + Concat(Tails(qs, t))
  {
    assert (init + [t])[..|init|] == init;
  }

  lemma ProjectsMore(qs: seq<seq<Txn>>, init: seq<Txn>, t: Txn, b: nat)
    requires Meet(qs, init + [t]) && b < |qs|
    requires Filter(Merged(Fronts(qs, t), init), InvolvesFor(b)) == Fronts(qs, t)[b]
    ensures Filter(Merged(qs, init + [t]), InvolvesFor(b)) == qs[b]
  {
    FrontsMeet(qs, init, t);
    ConcatProjects(Tails(qs, t), b);
    assert Meets(qs[b], init + [t], b);
    FrontMeets(qs[b], init, t, b);
    MergedMore(qs, init, t);
    FilterMore(Merged(Fronts(qs, t), init), t, InvolvesFor(b));
    FilterConcat(Merged(Fronts(qs, t), init) + [t], Concat(Tails(qs, t)), InvolvesFor(b));
    if !Involves(t, b) {
      assert qs[b] + [] + [] == qs[b];
    }
  }

  /** The merged order has what each origin has, in its order. */
  lemma {:induction false} MergedProjects(qs: seq<seq<Txn>>, multi: seq<Txn>, b: nat)
    requires Meet(qs, multi) && b < |qs|
    ensures Filter(Merged(qs, multi), InvolvesFor(b)) == qs[b]
    decreases |multi|
  {
    if multi == [] {
      NoMultisLeft(qs);
      ConcatProjects(qs, b);
    } else {
      var init, t := multi[..|multi| - 1], multi[|multi| - 1];
      assert multi == init + [t];
      FrontsMeet(qs, init, t);
      MergedProjects(Fronts(qs, t), init, b);
      ProjectsMore(qs, init, t, b);
    }
  }

  lemma InvolvedOne(qs: seq<seq<Txn>>, multi: seq<Txn>, i: nat) returns (a: nat)
    requires Meet(qs, multi) && i < |multi|
    ensures a < |qs| && Involves(multi[i], a)
  {
    assert IsMulti(multi[i]);
    a :| a in Involved(multi[i]);
  }

  lemma InParts<T>(p: seq<T>, x: T, q: seq<T>, y: T)
    requires y in p + [x] + q
    ensures y in p || y == x || y in q
  {
  }

  lemma {:induction false} MergedMembers(qs: seq<seq<Txn>>, multi: seq<Txn>, t: Txn) returns (a: nat)
    requires Meet(qs, multi) && t in Merged(qs, multi)
    ensures a < |qs| && Involves(t, a)
    decreases |multi|
  {
    if multi == [] {
      NoMultisLeft(qs);
      a := ConcatMembers(qs, t);
    } else {
      var init, u := multi[..|multi| - 1], multi[|multi| - 1];
      assert multi == init + [u];
      FrontsMeet(qs, init, u);
      MergedMore(qs, init, u);
      var fronts, tails := Fronts(qs, u), Tails(qs, u);
      InParts(Merged(fronts, init), u, Concat(tails), t);
      if t in Merged(fronts, init) {
        a := MergedMembers(fronts, init, t);
      } else if t == u {
        a := InvolvedOne(qs, multi, |init|);
      } else {
        a := ConcatMembers(tails, t);
      }
    }
  }

  function Same(t: Txn): Txn {
    t
  }

  /** If no origin has a transaction twice, the merged order has none twice. */
  lemma MergedDiffer(qs: seq<seq<Txn>>, multi: seq<Txn>)
    requires Meet(qs, multi) && forall a :: 0 <= a < |qs| ==> NoDuplicates(qs[a])
    ensures NoDuplicates(Merged(qs, multi))
  {
    var order := Merged(qs, multi);
    forall i, j | 0 <= i < j < |order| ensures order[i] != order[j] {
      if order[i] == order[j] {
        var a := MergedMembers(qs, multi, order[i]);
        MergedProjects(qs, multi, a);
        assert NoDuplicates(qs[a]);
        PickedDiffer(order, InvolvesFor(a), Same, i, j);
      }
    }
  }
}
