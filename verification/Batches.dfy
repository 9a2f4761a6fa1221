/** From batches and their agreed order to one stream of transactions per node. */
module Batches {
  import opened Txns
  import opened LockSpec
  import opened Cluster
  import opened ClusterSafety

  type BatchId = nat
  type Batch = seq<Txn>

  /** What arrives on the scheduler's channel: a node's part of a batch, or the batches of one sequence. */
  datatype Message = SubBatch(id: BatchId, txns: Batch) | Order(number: nat, ids: seq<BatchId>)

  /** What the senders agree on: the batches of every sequence, and the contents of every batch. */
  datatype Source = Source(sequences: nat -> seq<BatchId>, content: BatchId -> Batch)

  /** Sequences are never empty and no batch is ordered twice. */
  ghost predicate ValidSource(src: Source) {
    && (forall n :: n >= 1 ==> src.sequences(n) != [])
    && (forall n, m, i, j ::
          (1 <= n && 1 <= m && 0 <= i < |src.sequences(n)| && 0 <= j < |src.sequences(m)|
           && src.sequences(n)[i] == src.sequences(m)[j]) ==> n == m && i == j)
  }

  /** The concatenation of sequences 1 to `n`. */
  function Stream(src: Source, n: nat): seq<BatchId> {
    if n == 0 then [] else Stream(src, n - 1) + src.sequences(n)
  }

  predicate Honest(src: Source, m: Message) {
    match m
    case SubBatch(b, txns) => txns == src.content(b)
    case Order(n, ids) => ids == src.sequences(n)
  }

  predicate HasOrder(inbox: seq<Message>, n: nat) {
    exists i :: 0 <= i < |inbox| && inbox[i].Order? && inbox[i].number == n
  }

  predicate HasSubBatch(inbox: seq<Message>, b: BatchId) {
    exists i :: 0 <= i < |inbox| && inbox[i].SubBatch? && inbox[i].id == b
  }

  ghost predicate SameSubject(m: Message, m': Message) {
    (m.Order? && m'.Order? && m.number == m'.number) || (m.SubBatch? && m'.SubBatch? && m.id == m'.id)
  }

  ghost predicate NoRepeats(inbox: seq<Message>) {
    forall i, j :: 0 <= i < j < |inbox| ==> !SameSubject(inbox[i], inbox[j])
  }

  lemma Tail(inbox: seq<Message>)
    requires inbox != [] && NoRepeats(inbox)
    ensures NoRepeats(inbox[1..])
    ensures forall n :: HasOrder(inbox, n) <==> HasOrder(inbox[1..], n) || (inbox[0].Order? && inbox[0].number == n)
    ensures forall b :: HasSubBatch(inbox, b) <==> HasSubBatch(inbox[1..], b) || (inbox[0].SubBatch? && inbox[0].id == b)
    ensures inbox[0].Order? ==> !HasOrder(inbox[1..], inbox[0].number)
    ensures inbox[0].SubBatch? ==> !HasSubBatch(inbox[1..], inbox[0].id)
  {
    var rest := inbox[1..];
    assert forall i :: 0 <= i < |rest| ==> rest[i] == inbox[i + 1];
    assert forall i :: 1 <= i < |inbox| ==> inbox[i] == rest[i - 1];
    forall n ensures HasOrder(inbox, n) <==> HasOrder(rest, n) || (inbox[0].Order? && inbox[0].number == n) {
      if i :| 0 < i < |inbox| && inbox[i].Order? && inbox[i].number == n {
        assert rest[i - 1].Order?;
      }
    }
    forall b ensures HasSubBatch(inbox, b) <==> HasSubBatch(rest, b) || (inbox[0].SubBatch? && inbox[0].id == b) {
      if i :| 0 < i < |inbox| && inbox[i].SubBatch? && inbox[i].id == b {
        assert rest[i - 1].SubBatch?;
      }
    }
  }

  lemma Appended(inbox: seq<Message>, m: Message)
    ensures forall n :: HasOrder(inbox + [m], n) <==> HasOrder(inbox, n) || (m.Order? && m.number == n)
    ensures forall b :: HasSubBatch(inbox + [m], b) <==> HasSubBatch(inbox, b) || (m.SubBatch? && m.id == b)
  {
    var more := inbox + [m];
    assert more[|inbox|] == m;
    assert forall i :: 0 <= i < |inbox| ==> more[i] == inbox[i];
  }

  /** The part of the scheduler that turns arriving messages into the next batch. */
  class BatchReader {
    ghost const src: Source
    var currentSequence: Option<seq<BatchId>>
    var currentSequenceId: nat
    var currentIndex: nat
    var batchesData: map<BatchId, Batch>
    var globalOrder: map<nat, seq<BatchId>>
    var inbox: seq<Message>
    ghost var returned: seq<BatchId>

    /** Position in the current sequence. */
    ghost function Index(): nat
      reads this
    {
      if currentSequence.Some? then currentIndex else 0
    }

    ghost predicate Consumed(n: nat)
      reads this
    {
      1 <= n < currentSequenceId || (n == currentSequenceId && currentSequence.Some?)
    }

    /** What has been returned is the stream up to the current position. */
    ghost predicate AtPosition()
      reads this
    {
      && currentSequenceId >= 1
      && (currentSequence.Some? ==>
            currentSequence.value == src.sequences(currentSequenceId) && currentIndex < |currentSequence.value|)
      && returned == Stream(src, currentSequenceId - 1) + src.sequences(currentSequenceId)[..Index()]
    }

    ghost predicate OrdersStored()
      reads this
    {
      && (forall n :: n in globalOrder ==> globalOrder[n] == src.sequences(n) && !Consumed(n) && !HasOrder(inbox, n))
      && (forall n :: HasOrder(inbox, n) ==> !Consumed(n))
    }

    ghost predicate BatchesStored()
      reads this
    {
      && (forall b :: b in batchesData ==> batchesData[b] == src.content(b) && b !in returned && !HasSubBatch(inbox, b))
      && (forall b :: HasSubBatch(inbox, b) ==> b !in returned)
    }

    ghost predicate Valid()
      reads this
    {
      && ValidSource(src) && NoRepeats(inbox) && (forall i :: 0 <= i < |inbox| ==> Honest(src, inbox[i]))
      && AtPosition() && OrdersStored() && BatchesStored()
    }

    /** Sequence `n` has arrived: it is stored, on the channel, or already in use. */
    ghost predicate OrderArrived(n: nat)
      reads this
    {
      n in globalOrder || HasOrder(inbox, n) || Consumed(n)
    }

    ghost predicate BatchArrived(b: BatchId)
      reads this
    {
      b in batchesData || HasSubBatch(inbox, b) || b in returned
    }

    /** The batch that the agreed order puts next. */
    ghost function Next(): BatchId
      requires Valid()
      reads this
    {
      src.sequences(currentSequenceId)[Index()]
    }

    constructor (ghost src: Source)
      requires ValidSource(src)
      ensures Valid() && this.src == src && returned == [] && inbox == []
      ensures (forall n :: !OrderArrived(n)) && (forall b :: !BatchArrived(b))
    {
      this.src := src;
      currentSequence, currentSequenceId, currentIndex := None, 1, 0;
      batchesData, globalOrder, inbox, returned := map[], map[], [], [];
    }

    /** The network delivers a message that has not been delivered before. */
    method Arrive(m: Message)
      requires Valid() && Honest(src, m)
      requires if m.Order? then !OrderArrived(m.number) else !BatchArrived(m.id)
      modifies `inbox
      ensures Valid()
      ensures inbox == old(inbox) + [m]
    {
      Appended(inbox, m);
      forall i | 0 <= i < |inbox| ensures !SameSubject(inbox[i], m) {
        assert inbox[i].Order? ==> HasOrder(inbox, inbox[i].number);
        assert inbox[i].SubBatch? ==> HasSubBatch(inbox, inbox[i].id);
      }
      inbox := inbox + [m];
    }

    /** Nothing that has arrived is forgotten, and nothing else appears. */
    twostate predicate KeepsArrivals()
      reads this
    {
      && (forall n :: OrderArrived(n) <==> old(OrderArrived(n)))
      && (forall b :: BatchArrived(b) <==> old(BatchArrived(b)))
    }

    /** Takes a sub-batch off the channel and stores it for later. */
    method StoreSubBatch()
      requires Valid() && inbox != [] && inbox[0].SubBatch?
      modifies `inbox, `batchesData
      ensures Valid() && KeepsArrivals()
      ensures inbox == old(inbox)[1..]
      ensures batchesData == old(batchesData[inbox[0].id := inbox[0].txns])
    {
      Tail(inbox);
      assert Honest(src, inbox[0]) && HasSubBatch(inbox, inbox[0].id);
      batchesData := batchesData[inbox[0].id := inbox[0].txns];
      inbox := inbox[1..];
    }

    /** Takes an order off the channel and stores it for later. */
    method StoreOrder()
      requires Valid() && inbox != [] && inbox[0].Order?
      modifies `inbox, `globalOrder
      ensures Valid() && KeepsArrivals()
      ensures inbox == old(inbox)[1..]
      ensures globalOrder == old(globalOrder[inbox[0].number := inbox[0].ids])
    {
      Tail(inbox);
      assert Honest(src, inbox[0]) && HasOrder(inbox, inbox[0].number);
      globalOrder := globalOrder[inbox[0].number := inbox[0].ids];
      inbox := inbox[1..];
    }

    /** Makes the first message on the channel, the awaited sequence, the current one. */
    method LoadHead()
      requires Valid() && inbox != [] && currentSequence.None?
      requires inbox[0].Order? && inbox[0].number == currentSequenceId
      modifies `inbox, `currentSequence, `currentIndex
      ensures Valid() && KeepsArrivals()
      ensures currentSequence.Some? && currentIndex == 0
    {
      Tail(inbox);
      assert Honest(src, inbox[0]);
      assert HasOrder(inbox, currentSequenceId);
      currentSequence := Some(inbox[0].ids);
      currentIndex := 0;
      inbox := inbox[1..];
    }

    /** Looks for the next sequence among the stored orders, then on the channel. */
    method FindSequence()
      requires Valid() && currentSequence.None?
      modifies `inbox, `batchesData, `globalOrder, `currentSequence, `currentIndex
      ensures Valid() && KeepsArrivals()
      ensures currentSequence.Some? <==> old(OrderArrived(currentSequenceId))
      ensures currentSequence.Some? ==> currentIndex == 0
    {
      if currentSequenceId in globalOrder {
        currentSequence := Some(globalOrder[currentSequenceId]);
        currentIndex := 0;
        globalOrder := globalOrder - {currentSequenceId};
      } else {
        while inbox != []
          invariant Valid() && KeepsArrivals() && currentSequence.None?
          invariant currentSequenceId !in globalOrder
          decreases |inbox|
        {
          if inbox[0].Order? && inbox[0].number == currentSequenceId {
            LoadHead();
            return;
          }
          if inbox[0].SubBatch? {
            StoreSubBatch();
          } else {
            StoreOrder();
          }
        }
      }
    }

    twostate lemma SameConsumedKeepsOrders()
      requires old(OrdersStored()) && unchanged(this`globalOrder, this`inbox)
      requires forall n :: Consumed(n) <==> old(Consumed(n))
      ensures OrdersStored() && forall n :: OrderArrived(n) <==> old(OrderArrived(n))
    {
    }

    twostate lemma NewlyReturnedKeepsBatches(b: BatchId)
      requires old(BatchesStored()) && unchanged(this`batchesData, this`inbox)
      requires returned == old(returned) + [b] && b !in batchesData && !HasSubBatch(inbox, b)
      ensures BatchesStored()
    {
    }

    /** Moves past the current batch, and on to the next sequence at the end of this one. */
    method Advance()
      requires Valid() && currentSequence.Some?
      requires Next() !in batchesData && !HasSubBatch(inbox, Next())
      modifies `currentSequence, `currentSequenceId, `currentIndex, `returned
      ensures Valid()
      ensures returned == old(returned) + [old(Next())]
      ensures forall n :: OrderArrived(n) <==> old(OrderArrived(n))
    {
      StepInStream(src, currentSequenceId, currentIndex);
      ghost var next := Next();
      returned := returned + [next];
      currentIndex := currentIndex + 1;
      if currentIndex >= |currentSequence.value| {
        currentSequence := None;
        currentSequenceId := currentSequenceId + 1;
      }
      SameConsumedKeepsOrders();
      NewlyReturnedKeepsBatches(next);
    }

    /** The next batch has never been returned before. */
    lemma NextIsNew()
      requires Valid()
      ensures Next() !in returned
    {
      if Next() in returned {
        var n, i := PlaceInStream(src, currentSequenceId, Index(), Next());
        assert false;
      }
    }

    /** The next batch in the agreed order, if both its sequence and its contents have arrived. */
    method GetBatch() returns (batch: Option<Batch>)
      requires Valid()
      modifies this
      ensures Valid() && KeepsArrivals()
      ensures batch.Some? <==> old(OrderArrived(currentSequenceId) && BatchArrived(Next()))
      ensures batch.Some? ==> batch.value == src.content(old(Next())) && returned == old(returned) + [old(Next())]
      ensures batch.None? ==> returned == old(returned)
    {
      if currentSequence.None? {
        FindSequence();
      }
      if currentSequence.None? {
        return None;
      }
      assert currentIndex < |currentSequence.value|;
      var currentBatchId := currentSequence.value[currentIndex];
      NextIsNew();
      if currentBatchId in batchesData {
        var stored := TakeStored();
        batch := Some(stored);
      } else {
        batch := ReceiveBatch(currentBatchId);
      }
    }

    /** Returns the wanted sub-batch, which has been stored before. */
    method TakeStored() returns (txns: Batch)
      requires Valid() && currentSequence.Some? && Next() in batchesData
      modifies this
      ensures Valid() && KeepsArrivals()
      ensures txns == src.content(old(Next())) && returned == old(returned) + [old(Next())]
    {
      var currentBatchId := currentSequence.value[currentIndex];
      txns := batchesData[currentBatchId];
      batchesData := batchesData - {currentBatchId};
      Advance();
    }

    /** Returns the wanted sub-batch, which is the first message on the channel. */
    method TakeHead() returns (txns: Batch)
      requires Valid() && currentSequence.Some? && inbox != []
      requires inbox[0].SubBatch? && inbox[0].id == Next() && Next() !in batchesData
      modifies this
      ensures Valid() && KeepsArrivals()
      ensures txns == src.content(old(Next())) && returned == old(returned) + [old(Next())]
    {
      Tail(inbox);
      assert HasSubBatch(inbox, Next());
      assert Honest(src, inbox[0]);
      txns := inbox[0].txns;
      inbox := inbox[1..];
      Advance();
    }

    /** Receives messages until the wanted sub-batch comes or the channel is empty. */
    method ReceiveBatch(currentBatchId: BatchId) returns (batch: Option<Batch>)
      requires Valid() && currentSequence.Some? && currentBatchId == Next()
      requires currentBatchId !in batchesData && currentBatchId !in returned
      modifies this
      ensures Valid() && KeepsArrivals()
      ensures batch.Some? <==> old(HasSubBatch(inbox, currentBatchId))
      ensures batch.Some? ==> batch.value == src.content(currentBatchId) && returned == old(returned) + [currentBatchId]
      ensures batch.None? ==> returned == old(returned)
    {
      while inbox != []
        invariant Valid() && KeepsArrivals() && currentSequence.Some? && currentBatchId == Next()
        invariant currentBatchId !in batchesData && returned == old(returned)
        decreases |inbox|
      {
        if inbox[0].SubBatch? && inbox[0].id == currentBatchId {
          assert HasSubBatch(inbox, currentBatchId) && BatchArrived(currentBatchId);
          var txns := TakeHead();
          return Some(txns);
        }
        if inbox[0].SubBatch? {
          StoreSubBatch();
        } else {
          StoreOrder();
        }
      }
      assert !BatchArrived(currentBatchId);
      batch := None;
    }

    /** Whatever arrived in whatever order, the batches returned so far are a prefix of the agreed stream. */
    lemma ReturnedIsPrefix(n: nat)
      requires Valid() && currentSequenceId <= n
      ensures returned <= Stream(src, n)
    {
      StreamPrefix(src, currentSequenceId, n);
      assert returned <= Stream(src, currentSequenceId);
    }

    /** Sequences 1 to `n` and all their batches have arrived. */
    ghost predicate AllArrived(n: nat)
      reads this
    {
      && (forall m :: 1 <= m <= n ==> OrderArrived(m))
      && (forall b :: b in Stream(src, n) ==> BatchArrived(b))
    }

    /** One call of the caller's loop: with everything at hand it always returns the next batch. */
    method GetNext(n: nat) returns (batch: Batch)
      requires Valid() && AllArrived(n) && currentSequenceId <= n
      modifies this
      ensures Valid() && AllArrived(n)
      ensures batch == src.content(old(Next())) && returned == old(returned) + [old(Next())]
      ensures |old(returned)| < |Stream(src, n)|
    {
      NextIsOrdered(src, n, currentSequenceId, Index());
      var result := GetBatch();
      batch := result.value;
    }

    /** The caller's loop, from wherever earlier calls have left off: once everything up to sequence `n` has
        arrived, repeated calls return exactly the rest of the agreed stream. */
    method ReadAll(n: nat) returns (batches: seq<Batch>)
      requires Valid() && |returned| <= |Stream(src, n)| && AllArrived(n)
      modifies this
      ensures Valid() && returned == Stream(src, n) && old(returned) <= returned
      ensures batches == Contents(src, returned[|old(returned)|..])
    {
      batches := [];
      ghost var start := returned;
      while currentSequenceId <= n
        invariant Valid() && AllArrived(n) && start <= returned && |returned| <= |Stream(src, n)|
        invariant batches == Contents(src, returned[|start|..])
        decreases |Stream(src, n)| - |returned|
      {
        ContentsAppend(src, returned[|start|..], Next());
        ghost var before, next := returned, Next();
        var batch := GetNext(n);
        assert returned[|start|..] == before[|start|..] + [next];
        batches := batches + [batch];
      }
      StreamPrefix(src, n, currentSequenceId - 1);
    }
  }

  lemma StepInStream(src: Source, n: nat, i: nat)
    requires n >= 1 && i < |src.sequences(n)|
    ensures var sequence, before := src.sequences(n), Stream(src, n - 1);
            && before + sequence[..i] + [sequence[i]] == before + sequence[..i + 1]
            && (i + 1 == |sequence| ==> before + sequence[..i + 1] == Stream(src, n) + src.sequences(n + 1)[..0])
  {
    var sequence := src.sequences(n);
    assert sequence[..i + 1] == sequence[..i] + [sequence[i]];
    assert i + 1 == |sequence| ==> sequence[..i + 1] == sequence;
  }

  lemma {:induction false} StreamPrefix(src: Source, m: nat, n: nat)
    requires m <= n
    ensures Stream(src, m) <= Stream(src, n)
  {
    if m < n {
      StreamPrefix(src, m, n - 1);
    }
  }

  /** Where a batch stands among the sequences before `n` and the first `k` batches of sequence `n`. */
  lemma {:induction false} PlaceInStream(src: Source, n: nat, k: nat, b: BatchId) returns (m: nat, i: nat)
    requires n >= 1 && k <= |src.sequences(n)| && b in Stream(src, n - 1) + src.sequences(n)[..k]
    ensures 1 <= m <= n && i < |src.sequences(m)| && src.sequences(m)[i] == b && (m == n ==> i < k)
  {
    if b in src.sequences(n)[..k] {
      m := n;
      i :| 0 <= i < k && src.sequences(n)[i] == b;
    } else {
      m, i := PlaceInStream(src, n - 1, |src.sequences(n - 1)|, b);
    }
  }

  lemma NextIsOrdered(src: Source, n: nat, m: nat, i: nat)
    requires 1 <= m <= n && i < |src.sequences(m)|
    ensures src.sequences(m)[i] in Stream(src, n)
    ensures |Stream(src, m - 1)| + i < |Stream(src, n)|
  {
    StreamPrefix(src, m, n);
    assert Stream(src, m)[|Stream(src, m - 1)| + i] == src.sequences(m)[i];
  }

  function Contents(src: Source, ids: seq<BatchId>): seq<Batch> {
    if ids == [] then [] else Contents(src, ids[..|ids| - 1]) + [src.content(ids[|ids| - 1])]
  }

  lemma ContentsAppend(src: Source, ids: seq<BatchId>, b: BatchId)
    ensures Contents(src, ids + [b]) == Contents(src, ids) + [src.content(b)]
  {
    assert (ids + [b])[..|ids|] == ids;
  }
}
