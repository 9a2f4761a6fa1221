/** How the sequencer cuts a batch into the sub-batches of its replica's nodes, and why every node then
    locks in one global order. */
module Projection {
  import opened Txns
  import opened LockSpec
  import opened Cluster
  import opened ClusterSafety
  import opened Batches

  /** The part of a batch that concerns node `n`. */
  function SubBatchOf(w: World, n: nat, batch: Batch): Batch {
    if batch == [] then
      []
    else
      SubBatchOf(w, n, batch[..|batch| - 1])
      + if Participates(w, n, batch[|batch| - 1]) then [batch[|batch| - 1]] else []
  }

  function Concat(batches: seq<Batch>): Batch {
    if batches == [] then [] else Concat(batches[..|batches| - 1]) + batches[|batches| - 1]
  }

  /** The partitions an entry list touches. */
  method Partitions(w: World, entries: seq<KeyEntry>, start: set<nat>) returns (nodes: set<nat>)
    ensures nodes == start + set e | e in entries :: w.partition(e.key)
  {
    nodes := start;
    var i := 0;
    while i < |entries|
      invariant i <= |entries|
      invariant nodes == start + set e | e in entries[..i] :: w.partition(e.key)
    {
      assert entries[..i + 1] == entries[..i] + [entries[i]];
      nodes := nodes + {w.partition(entries[i].key)};
      i := i + 1;
    }
    assert entries[..i] == entries;
  }

  lemma ParticipantsAreReaders(w: World, t: Txn, n: nat)
    ensures Participates(w, n, t) <==>
      n in (set e | e in t.readSet :: w.partition(e.key)) + (set e | e in t.readWriteSet :: w.partition(e.key))
  {
    var cfg := w.Config(n);
    if e :| e in t.readSet && w.partition(e.key) == n {
      assert e.key in ReadKeys(cfg, t);
    }
    if e :| e in t.readWriteSet && w.partition(e.key) == n {
      assert e.key in WriteKeys(cfg, t);
    }
    if Participates(w, n, t) {
      var k :| k in Keys(cfg, t);
      assert k in ReadKeys(cfg, t) || k in WriteKeys(cfg, t);
    }
  }

  /** The sub-batches hold, for every node, its part of `batch`. */
  ghost predicate IsSplit(w: World, batches: map<nat, Batch>, batch: Batch) {
    && (forall n: nat :: n in batches <==> n < w.nodes)
    && (forall n: nat :: n in batches ==> batches[n] == SubBatchOf(w, n, batch))
  }

  lemma SplitStep(w: World, batches: map<nat, Batch>, batches': map<nat, Batch>, batch: Batch, txn: Txn, readers: set<nat>)
    requires IsSplit(w, batches, batch) && forall n: nat :: n in readers <==> Participates(w, n, txn)
    requires batches' == map n | n in batches :: if n in readers then batches[n] + [txn] else batches[n]
    ensures IsSplit(w, batches', batch + [txn])
  {
    assert (batch + [txn])[..|batch|] == batch;
  }

  /** Appends a transaction to the sub-batches of its readers. */
  method AddToReaders(batches: map<nat, Batch>, txn: Txn, readers: set<nat>) returns (batches': map<nat, Batch>)
    requires readers <= batches.Keys
    ensures batches' == map n | n in batches :: if n in readers then batches[n] + [txn] else batches[n]
  {
    batches' := batches;
    var rest := readers;
    while rest != {}
      invariant rest <= readers && batches'.Keys == batches.Keys
      invariant forall n :: n in batches ==>
        batches'[n] == if n in readers && n !in rest then batches[n] + [txn] else batches[n]
      decreases |rest|
    {
      var n :| n in rest;
      batches' := batches'[n := batches'[n] + [txn]];
      rest := rest - {n};
    }
  }

  /** Cuts one batch: every transaction goes to each partition it reads or writes, in batch order. */
  method SplitBatch(w: World, batch: Batch) returns (batches: map<nat, Batch>)
    requires ValidWorld(w)
    ensures IsSplit(w, batches, batch)
  {
    batches := map n: nat | n < w.nodes && IsNode(w, n) :: [];
    assert forall n: nat :: n < w.nodes ==> IsNode(w, n);
    var i := 0;
    while i < |batch|
      invariant i <= |batch| && IsSplit(w, batches, batch[..i])
    {
      var txn := batch[i];
      var readers := Partitions(w, txn.readSet, {});
      readers := Partitions(w, txn.readWriteSet, readers);
      forall n: nat ensures n in readers <==> Participates(w, n, txn) {
        ParticipantsAreReaders(w, txn, n);
      }
      ghost var before := batches;
      batches := AddToReaders(batches, txn, readers);
      SplitStep(w, before, batches, batch[..i], txn, readers);
      assert batch[..i + 1] == batch[..i] + [txn];
      i := i + 1;
    }
    assert batch[..i] == batch;
  }

  lemma {:induction false} SubBatchOfConcat(w: World, n: nat, a: Batch, b: Batch)
    ensures SubBatchOf(w, n, a + b) == SubBatchOf(w, n, a) + SubBatchOf(w, n, b)
  {
    if b == [] {
      assert a + b == a;
    } else {
      var init := b[..|b| - 1];
      SubBatchOfConcat(w, n, a, init);
      assert (a + b)[..|a + b| - 1] == a + init;
      assert (a + b)[|a + b| - 1] == b[|b| - 1];
    }
  }

  lemma {:induction false} InputIsSubBatch(w: World, n: nat, i: nat)
    requires i <= |w.order|
    ensures SubBatchOf(w, n, w.order[..i]) == LocalOrder(w, n, i)
  {
    if i > 0 {
      InputIsSubBatch(w, n, i - 1);
      assert w.order[..i][..i - 1] == w.order[..i - 1];
    }
  }

  lemma {:induction false} ConcatContents(w: World, n: nat, whole: BatchId -> Batch, part: Source, ids: seq<BatchId>)
    requires forall b :: b in ids ==> part.content(b) == SubBatchOf(w, n, whole(b))
    ensures Concat(Contents(part, ids)) == SubBatchOf(w, n, Concat(Contents(Source(part.sequences, whole), ids)))
  {
    if ids != [] {
      var init, b := ids[..|ids| - 1], ids[|ids| - 1];
      ConcatContents(w, n, whole, part, init);
      assert b in ids;
      SubBatchOfConcat(w, n, Concat(Contents(Source(part.sequences, whole), init)), whole(b));
    }
  }

  /** Every node that reads its sub-batches in the agreed order locks a projection of the one global order:
      the transactions it gets from sequences 1 to `m` are exactly its input in the cluster model. */
  lemma NodeInputIsProjection(w: World, n: nat, whole: BatchId -> Batch, part: Source, m: nat)
    requires forall b :: b in Stream(part, m) ==> part.content(b) == SubBatchOf(w, n, whole(b))
    requires w.order == Concat(Contents(Source(part.sequences, whole), Stream(part, m)))
    ensures Concat(Contents(part, Stream(part, m))) == Input(w, n)
  {
    ConcatContents(w, n, whole, part, Stream(part, m));
    InputIsSubBatch(w, n, |w.order|);
    assert w.order[..|w.order|] == w.order;
  }
}
