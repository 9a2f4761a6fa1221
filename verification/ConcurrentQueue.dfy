/** The same ring buffer with a pushing and a popping thread at work at once. `Push` holds the back lock
    throughout and `Pop` the front lock, so there is one of each; only a resize takes both. */
module ConcurrentQueue {
  import opened AtomicQueue

  datatype Pusher<T> = PushIdle | PushLocked(item: T) | PushFull(item: T) | PushRoom(item: T) | PushWritten(item: T)

  datatype Popper<T> = PopIdle | PopLocked | PopNonEmpty | PopRead(value: T)

  /** `pushed` and `popped` record the items of the calls that have taken effect. */
  datatype State<T> = State(ring: seq<T>, front: nat, back: nat, pusher: Pusher<T>, popper: Popper<T>,
                            pushed: seq<T>, popped: seq<T>)

  /** The moves between two accesses to the shared fields. */
  datatype Event<T> =
    | BeginPush(item: T) | CheckFull | Resize | WriteItem | AdvanceBack
    | BeginPop | CheckEmpty | ReadItem | AdvanceFront | EndFront

  predicate Shape<T>(s: State<T>) {
    256 <= |s.ring| <= 0x8000_0000 && s.front < |s.ring| && s.back < |s.ring|
  }

  predicate Enabled<T>(s: State<T>, e: Event<T>) {
    Shape(s) &&
    match e
    case BeginPush(_) => s.pusher.PushIdle?
    case CheckFull => s.pusher.PushLocked?
    case Resize => s.pusher.PushFull? && s.popper.PopIdle? && |s.ring| <= 0x4000_0000
    case WriteItem => s.pusher.PushRoom?
    case AdvanceBack => s.pusher.PushWritten?
    case BeginPop => s.popper.PopIdle?
    case CheckEmpty => s.popper.PopLocked?
    case ReadItem => s.popper.PopNonEmpty?
    case AdvanceFront => s.popper.PopRead?
    case EndFront => s.popper.PopRead?
  }

  /** The ring after a resize: the elements start at the old size. */
  function Resized<T>(ring: seq<T>, front: nat, back: nat): seq<T>
    requires front < |ring| && back < |ring|
  {
    var moved := Elements(ring, front, back);
    ring + moved + ring[|moved|..]
  }

  function Apply<T>(s: State<T>, e: Event<T>): State<T>
    requires Enabled(s, e)
  {
    match e
    case BeginPush(item) => s.(pusher := PushLocked(item))
    case CheckFull =>
      s.(pusher := if s.front == NextOffset(|s.ring|, s.back) then PushFull(s.pusher.item) else PushRoom(s.pusher.item))
    case Resize =>
      var size := |s.ring|;
      var count := CountOffsets(size, s.front, s.back);
      s.(ring := Resized(s.ring, s.front, s.back), front := size, back := size + count, pusher := PushRoom(s.pusher.item))
    case WriteItem => s.(ring := s.ring[s.back := s.pusher.item], pusher := PushWritten(s.pusher.item))
    case AdvanceBack =>
      s.(back := NextOffset(|s.ring|, s.back), pusher := PushIdle, pushed := s.pushed + [s.pusher.item])
    case BeginPop => s.(popper := PopLocked)
    case CheckEmpty => s.(popper := if s.front != s.back then PopNonEmpty else PopIdle)
    case ReadItem => s.(popper := PopRead(s.ring[s.front]))
    case AdvanceFront =>
      s.(front := NextOffset(|s.ring|, s.front), popper := PopIdle, popped := s.popped + [s.popper.value])
    case EndFront => s.(popper := PopIdle)
  }

  // ---------------------------------------------------------------- Invariant

  ghost function Contents<T>(s: State<T>): seq<T>
    requires Shape(s)
  {
    Elements(s.ring, s.front, s.back)
  }

  ghost predicate Inv<T>(s: State<T>) {
    && Shape(s)
    && (s.pusher.PushRoom? || s.pusher.PushWritten? ==> s.front != Slot(|s.ring|, s.back, 1))
    && (s.pusher.PushWritten? ==> s.ring[s.back] == s.pusher.item)
    && (s.popper.PopNonEmpty? || s.popper.PopRead? ==> s.front != s.back)
    && (s.popper.PopRead? ==> s.popper.value == s.ring[s.front])
    && s.pushed == s.popped + Contents(s)
  }

  lemma ResizedElements<T>(ring: seq<T>, front: nat, back: nat)
    requires front < |ring| && back < |ring|
    ensures |Resized(ring, front, back)| == 2 * |ring|
    ensures Elements(Resized(ring, front, back), |ring|, |ring| + Count(|ring|, front, back)) == Elements(ring, front, back)
  {
    MovedElements(Elements(ring, front, back), Resized(ring, front, back), |ring|);
  }

  lemma ResizeStep<T>(s: State<T>)
    requires Inv(s) && Enabled(s, Event.Resize)
    ensures Inv(Apply(s, Event.Resize)) && Contents(Apply(s, Event.Resize)) == Contents(s)
  {
    ResizedElements(s.ring, s.front, s.back);
  }

  lemma WriteStep<T>(s: State<T>)
    requires Inv(s) && Enabled(s, Event.WriteItem)
    ensures Inv(Apply(s, Event.WriteItem)) && Contents(Apply(s, Event.WriteItem)) == Contents(s)
  {
    WriteElements(s.ring, s.front, s.back, s.pusher.item);
  }

  lemma AdvanceBackStep<T>(s: State<T>)
    requires Inv(s) && Enabled(s, Event.AdvanceBack)
    ensures Inv(Apply(s, Event.AdvanceBack)) && Contents(Apply(s, Event.AdvanceBack)) == Contents(s) + [s.pusher.item]
  {
    PushElements(s.ring, s.front, s.back);
  }

  lemma AdvanceFrontStep<T>(s: State<T>)
    requires Inv(s) && Enabled(s, Event.AdvanceFront)
    ensures Inv(Apply(s, Event.AdvanceFront)) && Contents(s) != [] && s.popper.value == Contents(s)[0]
    ensures Contents(Apply(s, Event.AdvanceFront)) == Contents(s)[1..]
  {
    PopElements(s.ring, s.front, s.back);
    MoveHead(s.popped, Contents(s));
    RoomStays(|s.ring|, s.front, s.back);
  }

  lemma MoveHead<T>(a: seq<T>, b: seq<T>)
    requires b != []
    ensures a + b == (a + [b[0]]) + b[1..]
  {
  }

  lemma RoomStays(size: nat, front: nat, back: nat)
    requires 1 < size && front < size && back < size && front != back
    ensures Slot(size, front, 1) != Slot(size, back, 1)
  {
  }

  /** The moves that touch neither the ring nor the offsets. */
  lemma LocalStep<T>(s: State<T>, e: Event<T>)
    requires Inv(s) && Enabled(s, e)
    requires !e.Resize? && !e.WriteItem? && !e.AdvanceBack? && !e.AdvanceFront?
    ensures Inv(Apply(s, e)) && Contents(Apply(s, e)) == Contents(s)
  {
  }

  /** Every move of either thread keeps the invariant, whatever the other one is doing. A push takes
      effect when `back` advances, a pop when `front` does, and no other move changes the contents. */
  lemma StepKeepsInv<T>(s: State<T>, e: Event<T>)
    requires Inv(s) && Enabled(s, e)
    ensures Inv(Apply(s, e))
    ensures Contents(Apply(s, e)) ==
      if e.AdvanceBack? then Contents(s) + [s.pusher.item] else if e.AdvanceFront? then Contents(s)[1..] else Contents(s)
  {
    match e {
      case Resize => ResizeStep(s);
      case WriteItem => WriteStep(s);
      case AdvanceBack => AdvanceBackStep(s);
      case AdvanceFront => AdvanceFrontStep(s);
      case _ => LocalStep(s, e);
    }
  }

  /** What a call reports: a value only if it is the oldest element, emptiness only of an empty queue. */
  lemma ReportsAreTrue<T>(s: State<T>, e: Event<T>)
    requires Inv(s) && Enabled(s, e)
    ensures e.AdvanceFront? || e.EndFront? ==> Contents(s) != [] && s.popper.value == Contents(s)[0]
    ensures e.CheckEmpty? ==> (Apply(s, e).popper.PopIdle? <==> Contents(s) == [])
  {
    if s.front != s.back {
      PopElements(s.ring, s.front, s.back);
    }
  }

  // ---------------------------------------------------------------- Runs

  ghost predicate ValidRun<T>(init: State<T>, es: seq<Event<T>>)
    decreases |es|, 0
  {
    es == [] || (ValidRun(init, es[..|es| - 1]) && Enabled(After(init, es[..|es| - 1]), es[|es| - 1]))
  }

  ghost function After<T>(init: State<T>, es: seq<Event<T>>): State<T>
    requires ValidRun(init, es)
    decreases |es|, 1
  {
    if es == [] then init else Apply(After(init, es[..|es| - 1]), es[|es| - 1])
  }

  ghost predicate Fresh<T>(s: State<T>) {
    |s.ring| == 256 && s.front == 0 && s.back == 0 && s.pusher.PushIdle? && s.popper.PopIdle? && s.pushed == s.popped == []
  }

  /** The items handed to Push, in the order in which the calls got the back lock. */
  ghost function Begun<T>(es: seq<Event<T>>): seq<T> {
    if es == [] then
      []
    else
      Begun(es[..|es| - 1]) + if es[|es| - 1].BeginPush? then [es[|es| - 1].item] else []
  }

  function InFlight<T>(p: Pusher<T>): seq<T> {
    if p.PushIdle? then [] else [p.item]
  }

  /** The queue is a FIFO under every interleaving: the items popped, followed by those still in the queue,
      followed by the one being pushed, are exactly the items handed to Push, in order. */
  lemma {:induction false} FifoUnderConcurrency<T>(init: State<T>, es: seq<Event<T>>)
    requires Fresh(init) && ValidRun(init, es)
    ensures Inv(After(init, es))
    ensures var s := After(init, es); s.popped + Contents(s) + InFlight(s.pusher) == Begun(es)
    decreases |es|
  {
    if es != [] {
      var earlier := es[..|es| - 1];
      FifoUnderConcurrency(init, earlier);
      StepKeepsInv(After(init, earlier), es[|es| - 1]);
    }
  }
}
