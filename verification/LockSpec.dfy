/** What the lock manager computes, as functions on values, and the invariant every run of it keeps. */
module LockSpec {
  import opened Txns
  import opened LockQueue

  /** `queues` holds the non-empty request queues; `waits` is txn_waits_; `ready` lists, in order, every
      transaction pushed to the ready queue so far. */
  datatype LockState = LockState(queues: map<Key, Queue>, waits: map<Txn, int>, ready: seq<Txn>)

  datatype Want = Want(key: Key, mode: LockMode)

  const Empty := LockState(map[], map[], [])

  function QueueOf(queues: map<Key, Queue>, k: Key): Queue {
    if k in queues then queues[k] else []
  }

  /** Position of the first request of `t`, or the length of the queue. */
  function Find(q: Queue, t: Txn): (p: nat)
    ensures p <= |q|
    ensures p < |q| ==> q[p].txn == t
    ensures forall j :: 0 <= j < p ==> q[j].txn != t
  {
    if q == [] then 0 else if q[0].txn == t then 0 else 1 + Find(q[1..], t)
  }

  // ---------------------------------------------------------------- Lock

  function Select(cfg: NodeConfig, t: Txn, es: seq<KeyEntry>, mode: LockMode): seq<Want> {
    if es == [] then
      []
    else
      (if Wanted(cfg, t, es[0]) then [Want(es[0].key, mode)] else []) + Select(cfg, t, es[1..], mode)
  }

  /** Requests are made for the written keys first, then for the keys only read. */
  function Wants(cfg: NodeConfig, t: Txn): seq<Want> {
    Select(cfg, t, t.readWriteSet, WRITE) + Select(cfg, t, t.readSet, READ)
  }

  /** One request: the new queues, and whether the lock was acquired at once. */
  function RequestOne(queues: map<Key, Queue>, t: Txn, w: Want): (map<Key, Queue>, bool) {
    var q := QueueOf(queues, w.key);
    if q != [] && q[|q| - 1].txn == t then
      (queues, true)
    else
      (queues[w.key := q + [LockRequest(w.mode, t)]], if w.mode.WRITE? then q == [] else !WritePrecedes(q, |q|))
  }

  function RequestAll(queues: map<Key, Queue>, t: Txn, wants: seq<Want>): (map<Key, Queue>, nat)
    decreases |wants|
  {
    if wants == [] then
      (queues, 0)
    else
      var (queues1, acquired) := RequestOne(queues, t, wants[0]);
      var (queues2, n) := RequestAll(queues1, t, wants[1..]);
      (queues2, if acquired then n else n + 1)
  }

  function LockOp(cfg: NodeConfig, s: LockState, t: Txn): (LockState, nat) {
    var (queues, n) := RequestAll(s.queues, t, Wants(cfg, t));
    if n > 0 then
      (LockState(queues, s.waits[t := n], s.ready), n)
    else
      (LockState(queues, s.waits, s.ready + [t]), n)
  }

  // ---------------------------------------------------------------- Release

  function WaitsOf(waits: map<Txn, int>, t: Txn): int {
    if t in waits then waits[t] else 0
  }

  /** Counts down one new owner; at zero it leaves the map and becomes ready. */
  function Wake(s: LockState, t: Txn): LockState {
    var n := WaitsOf(s.waits, t) - 1;
    if n == 0 then
      s.(waits := s.waits - {t}, ready := s.ready + [t])
    else
      s.(waits := s.waits[t := n])
  }

  function WakeAll(s: LockState, owners: seq<Txn>): (s': LockState)
    ensures s'.queues == s.queues
    decreases |owners|
  {
    if owners == [] then s else WakeAll(Wake(s, owners[0]), owners[1..])
  }

  function ReleaseKeyOp(s: LockState, k: Key, t: Txn): (s': LockState)
    requires k in s.queues
    ensures forall j :: j in s.queues && j != k ==> j in s'.queues && s'.queues[j] == s.queues[j]
  {
    var q := s.queues[k];
    var p := Find(q, t);
    if p == |q| then
      s
    else
      var woken := WakeAll(s, NewOwners(q, p));
      var q' := Remove(q, p);
      woken.(queues := if q' == [] then s.queues - {k} else s.queues[k := q'])
  }

  function SelectKeys(cfg: NodeConfig, t: Txn, es: seq<KeyEntry>): seq<Key> {
    if es == [] then
      []
    else
      (if Wanted(cfg, t, es[0]) then [es[0].key] else []) + SelectKeys(cfg, t, es[1..])
  }

  /** Keys are released in the opposite order of sets: those only read come first. */
  function Held(cfg: NodeConfig, t: Txn): seq<Key> {
    SelectKeys(cfg, t, t.readSet) + SelectKeys(cfg, t, t.readWriteSet)
  }

  ghost predicate Releasable(s: LockState, keys: seq<Key>) {
    && NoDuplicates(keys)
    && forall i :: 0 <= i < |keys| ==> keys[i] in s.queues
  }

  ghost function ReleaseAll(s: LockState, keys: seq<Key>, t: Txn): LockState
    requires Releasable(s, keys)
    decreases |keys|
  {
    if keys == [] then s else ReleaseAll(ReleaseKeyOp(s, keys[0], t), keys[1..], t)
  }

  // ---------------------------------------------------------------- Invariant

  /** Does `t` have a request in this queue that is not granted yet? */
  predicate Blocked(q: Queue, t: Txn) {
    Find(q, t) < |q| && !Granted(q, Find(q, t))
  }

  /** The keys on which `t` is still waiting. */
  function Waiting(queues: map<Key, Queue>, t: Txn): set<Key> {
    set k | k in queues && Blocked(queues[k], t)
  }

  function ModeOf(cfg: NodeConfig, t: Txn, k: Key): LockMode {
    if k in WriteKeys(cfg, t) then WRITE else READ
  }

  /** The requests on `k` of the transactions of `order`, in that order, without those in `gone`. */
  ghost function Project(cfg: NodeConfig, order: seq<Txn>, gone: set<(Txn, Key)>, k: Key): Queue {
    if order == [] then
      []
    else
      var t := order[|order| - 1];
      Project(cfg, order[..|order| - 1], gone, k)
      + if k in Keys(cfg, t) && (t, k) !in gone then [LockRequest(ModeOf(cfg, t, k), t)] else []
  }

  /** The keys on which `t` was waiting when it gave its request up. */
  function Cancelled(lost: set<(Txn, Key)>, t: Txn): set<Key> {
    set p | p in lost && p.0 == t :: p.1
  }

  /** The requests of `t` that were never granted: those still waiting and those given up. */
  function Outstanding(queues: map<Key, Queue>, lost: set<(Txn, Key)>, t: Txn): set<Key> {
    Waiting(queues, t) + Cancelled(lost, t)
  }

  predicate CountExact(waits: map<Txn, int>, t: Txn, outstanding: set<Key>) {
    (t in waits <==> outstanding != {}) && (t in waits ==> waits[t] == |outstanding|)
  }

  /** A wait count is the number of requests never granted, and zero counts are not stored. */
  ghost predicate WaitsExact(s: LockState, lost: set<(Txn, Key)>) {
    forall t :: CountExact(s.waits, t, Outstanding(s.queues, lost, t))
  }

  /** The ready queue has received exactly the locked transactions all of whose requests were granted, each once. */
  ghost predicate ReadyExact(order: seq<Txn>, s: LockState, lost: set<(Txn, Key)>) {
    && NoDuplicates(s.ready)
    && (forall t :: t in s.ready <==> t in order && Outstanding(s.queues, lost, t) == {})
  }

  ghost predicate QueuesExact(cfg: NodeConfig, order: seq<Txn>, gone: set<(Txn, Key)>, queues: map<Key, Queue>) {
    && (forall k :: k in queues ==> queues[k] != [])
    && (forall k :: QueueOf(queues, k) == Project(cfg, order, gone, k))
  }

  /** `order` is the order of the Lock calls so far; `gone` the requests released so far, and `lost` those among
      them that were released before they had been granted. */
  ghost predicate Inv(cfg: NodeConfig, order: seq<Txn>, gone: set<(Txn, Key)>, lost: set<(Txn, Key)>, s: LockState) {
    && NoDuplicates(order)
    && lost <= gone && (forall t, k :: (t, k) in gone ==> t in order)
    && QueuesExact(cfg, order, gone, s.queues)
    && WaitsExact(s, lost)
    && ReadyExact(order, s, lost)
  }

  lemma InvInit(cfg: NodeConfig)
    ensures Inv(cfg, [], {}, {}, Empty)
  {
    assert forall t :: Outstanding(Empty.queues, {}, t) == {};
  }

  // ---------------------------------------------------------------- Queues as projections

  ghost predicate NoTxnTwice(q: Queue) {
    forall i, j :: 0 <= i < j < |q| ==> q[i].txn != q[j].txn
  }

  lemma FindUnique(q: Queue, i: nat)
    requires NoTxnTwice(q) && i < |q|
    ensures Find(q, q[i].txn) == i
  {
    assert Find(q, q[i].txn) <= i;
  }

  lemma {:induction false} ProjectSound(cfg: NodeConfig, order: seq<Txn>, gone: set<(Txn, Key)>, k: Key)
    requires NoDuplicates(order)
    ensures forall i :: 0 <= i < |Project(cfg, order, gone, k)| ==>
      var r := Project(cfg, order, gone, k)[i];
      r.txn in order && k in Keys(cfg, r.txn) && (r.txn, k) !in gone && r.mode == ModeOf(cfg, r.txn, k)
    ensures NoTxnTwice(Project(cfg, order, gone, k))
  {
    if order != [] {
      var t := order[|order| - 1];
      var init := order[..|order| - 1];
      ProjectSound(cfg, init, gone, k);
      assert t !in init;
      assert forall u :: u in init ==> u in order;
    }
  }

  /** A live request is in its queue, and a queue keeps the order of the Lock calls. */
  lemma {:induction false} ProjectOrder(cfg: NodeConfig, order: seq<Txn>, gone: set<(Txn, Key)>, k: Key, i: nat, j: nat)
    requires NoDuplicates(order) && i <= j < |order|
    requires k in Keys(cfg, order[i]) && (order[i], k) !in gone
    requires k in Keys(cfg, order[j]) && (order[j], k) !in gone
    ensures var q := Project(cfg, order, gone, k);
            Find(q, order[i]) <= Find(q, order[j]) < |q| && (i < j ==> Find(q, order[i]) < Find(q, order[j]))
  {
    var a := ProjectPosition(cfg, order, gone, k, i, i);
    var b := ProjectPosition(cfg, order, gone, k, i, j);
    ProjectSound(cfg, order, gone, k);
    FindUnique(Project(cfg, order, gone, k), a);
    FindUnique(Project(cfg, order, gone, k), b);
  }

  /** The live request of `order[j]` stands right behind the projection of what precedes it. */
  lemma ProjectPlace(cfg: NodeConfig, order: seq<Txn>, gone: set<(Txn, Key)>, k: Key, j: nat)
    requires j < |order| && k in Keys(cfg, order[j]) && (order[j], k) !in gone
    ensures var q, p := Project(cfg, order, gone, k), |Project(cfg, order[..j], gone, k)|;
            p < |q| && q[p].txn == order[j]
  {
    ProjectPrefix(cfg, order, gone, k, j + 1);
    assert order[..j + 1][..j] == order[..j];
  }

  /** The place of the live request of `order[j]` is past the requests of everything up to `order[i]`. */
  lemma ProjectPosition(cfg: NodeConfig, order: seq<Txn>, gone: set<(Txn, Key)>, k: Key, i: nat, j: nat)
    returns (p: nat)
    requires i <= j < |order| && k in Keys(cfg, order[j]) && (order[j], k) !in gone
    ensures p < |Project(cfg, order, gone, k)| && Project(cfg, order, gone, k)[p].txn == order[j]
    ensures p == |Project(cfg, order[..j], gone, k)|
    ensures i < j && k in Keys(cfg, order[i]) && (order[i], k) !in gone ==> |Project(cfg, order[..i], gone, k)| < p
  {
    ProjectPlace(cfg, order, gone, k, j);
    p := |Project(cfg, order[..j], gone, k)|;
    if i < j && k in Keys(cfg, order[i]) && (order[i], k) !in gone {
      ProjectPlace(cfg, order[..j], gone, k, i);
      assert order[..j][..i] == order[..i];
    }
  }

  lemma {:induction false} ProjectPrefix(cfg: NodeConfig, order: seq<Txn>, gone: set<(Txn, Key)>, k: Key, n: nat)
    requires n <= |order|
    ensures Project(cfg, order[..n], gone, k) <= Project(cfg, order, gone, k)
  {
    if n < |order| {
      ProjectPrefix(cfg, order[..|order| - 1], gone, k, n);
      assert order[..|order| - 1][..n] == order[..n];
    } else {
      assert order[..n] == order;
    }
  }

  lemma {:induction false} ProjectWithoutRequest(cfg: NodeConfig, order: seq<Txn>, gone: set<(Txn, Key)>, k: Key, t: Txn)
    requires NoDuplicates(order) && t in order && k in Keys(cfg, t) && (t, k) !in gone
    ensures var q := Project(cfg, order, gone, k);
            Find(q, t) < |q| && Project(cfg, order, gone + {(t, k)}, k) == Remove(q, Find(q, t))
  {
    var last := order[|order| - 1];
    var init := order[..|order| - 1];
    var q := Project(cfg, order, gone, k);
    var q0 := Project(cfg, init, gone, k);
    ProjectSound(cfg, order, gone, k);
    ProjectSound(cfg, init, gone, k);
    if last == t {
      FindUnique(q, |q| - 1);
      ProjectOtherTxn(cfg, init, gone, k, t, k);
      assert Remove(q, |q| - 1) == q0;
    } else {
      assert t in init;
      ProjectWithoutRequest(cfg, init, gone, k, t);
      FindUnique(q, Find(q0, t));
      RemoveFromPrefix(q0, q[|q0|..], Find(q0, t));
      assert q == q0 + q[|q0|..];
    }
  }

  lemma RemoveFromPrefix(a: Queue, b: Queue, p: nat)
    requires p < |a|
    ensures Remove(a + b, p) == Remove(a, p) + b
  {
  }

  lemma {:induction false} ProjectOtherTxn(cfg: NodeConfig, order: seq<Txn>, gone: set<(Txn, Key)>, k: Key, t: Txn, j: Key)
    requires t !in order || j != k
    ensures Project(cfg, order, gone + {(t, j)}, k) == Project(cfg, order, gone, k)
  {
    if order != [] {
      assert order[|order| - 1] in order;
      ProjectOtherTxn(cfg, order[..|order| - 1], gone, k, t, j);
    }
  }

  /** Once everything `order` asked of `k` is gone, its queue is empty. */
  lemma {:induction false} ProjectAllGone(cfg: NodeConfig, order: seq<Txn>, gone: set<(Txn, Key)>, k: Key)
    requires forall t :: t in order && k in Keys(cfg, t) ==> (t, k) in gone
    ensures Project(cfg, order, gone, k) == []
  {
    if order != [] {
      assert order[|order| - 1] in order;
      ProjectAllGone(cfg, order[..|order| - 1], gone, k);
    }
  }

  // ---------------------------------------------------------------- Lock keeps the invariant

  ghost predicate KeysDiffer(es: seq<KeyEntry>) {
    forall i, j :: 0 <= i < j < |es| ==> es[i].key != es[j].key
  }

  lemma {:induction false} SelectMembers(cfg: NodeConfig, t: Txn, es: seq<KeyEntry>, mode: LockMode)
    ensures forall w :: w in Select(cfg, t, es, mode) ==>
      w.mode == mode && exists e :: e in es && Wanted(cfg, t, e) && e.key == w.key
    ensures forall e :: e in es && Wanted(cfg, t, e) ==> Want(e.key, mode) in Select(cfg, t, es, mode)
  {
    if es != [] {
      SelectMembers(cfg, t, es[1..], mode);
      assert es == [es[0]] + es[1..];
    }
  }

  lemma {:induction false} SelectDistinct(cfg: NodeConfig, t: Txn, es: seq<KeyEntry>, mode: LockMode)
    requires KeysDiffer(es)
    ensures WantsDiffer(Select(cfg, t, es, mode))
  {
    if es != [] {
      SelectDistinct(cfg, t, es[1..], mode);
      SelectMembers(cfg, t, es[1..], mode);
      var rest := Select(cfg, t, es[1..], mode);
      forall i | 0 <= i < |rest| ensures rest[i].key != es[0].key {
        assert rest[i] in rest;
        var e :| e in es[1..] && e.key == rest[i].key;
        var j :| 0 <= j < |es[1..]| && es[1..][j] == e;
        assert es[j + 1] == e;
      }
      if Wanted(cfg, t, es[0]) {
        WantsDifferCons(Want(es[0].key, mode), rest);
      }
    }
  }

  ghost predicate WantsDiffer(ws: seq<Want>) {
    forall i, j :: 0 <= i < j < |ws| ==> ws[i].key != ws[j].key
  }

  lemma WantsDifferCons(w: Want, ws: seq<Want>)
    requires WantsDiffer(ws) && forall i :: 0 <= i < |ws| ==> ws[i].key != w.key
    ensures WantsDiffer([w] + ws)
  {
  }

  ghost function KeysOf(wants: seq<Want>): set<Key> {
    set w | w in wants :: w.key
  }

  ghost predicate WantsExact(cfg: NodeConfig, t: Txn, wants: seq<Want>) {
    && WantsDiffer(wants)
    && (forall w :: w in wants ==> w.key in Keys(cfg, t) && w.mode == ModeOf(cfg, t, w.key))
  }

  lemma SelectedKeys(cfg: NodeConfig, t: Txn)
    ensures KeysOf(Select(cfg, t, t.readWriteSet, WRITE)) == WriteKeys(cfg, t)
    ensures KeysOf(Select(cfg, t, t.readSet, READ)) == ReadKeys(cfg, t)
  {
    SelectMembers(cfg, t, t.readWriteSet, WRITE);
    SelectMembers(cfg, t, t.readSet, READ);
    forall k | k in WriteKeys(cfg, t) ensures k in KeysOf(Select(cfg, t, t.readWriteSet, WRITE)) {
      assert Want(k, WRITE) in Select(cfg, t, t.readWriteSet, WRITE);
    }
    forall k | k in ReadKeys(cfg, t) ensures k in KeysOf(Select(cfg, t, t.readSet, READ)) {
      assert Want(k, READ) in Select(cfg, t, t.readSet, READ);
    }
  }

  lemma WantsAreDistinct(cfg: NodeConfig, t: Txn)
    requires DistinctKeys(t)
    ensures WantsDiffer(Wants(cfg, t))
  {
    var ws := Select(cfg, t, t.readWriteSet, WRITE);
    var rs := Select(cfg, t, t.readSet, READ);
    SplitDistinctKeys(t);
    SelectDistinct(cfg, t, t.readWriteSet, WRITE);
    SelectDistinct(cfg, t, t.readSet, READ);
    SelectedKeys(cfg, t);
    ReadAndWriteKeysDisjoint(cfg, t);
    forall i, j | 0 <= i < |ws| && 0 <= j < |rs| ensures ws[i].key != rs[j].key {
      assert ws[i].key in KeysOf(ws) && rs[j].key in KeysOf(rs);
    }
  }

  lemma SplitDistinctKeys(t: Txn)
    requires DistinctKeys(t)
    ensures KeysDiffer(t.readWriteSet) && KeysDiffer(t.readSet)
  {
    var es := t.readWriteSet + t.readSet;
    assert t.readWriteSet == es[..|t.readWriteSet|] && t.readSet == es[|t.readWriteSet|..];
  }

  lemma WantsAreKeys(cfg: NodeConfig, t: Txn)
    requires DistinctKeys(t)
    ensures WantsExact(cfg, t, Wants(cfg, t))
    ensures KeysOf(Wants(cfg, t)) == Keys(cfg, t)
  {
    var ws := Select(cfg, t, t.readWriteSet, WRITE);
    var rs := Select(cfg, t, t.readSet, READ);
    WantsAreDistinct(cfg, t);
    SelectedKeys(cfg, t);
    ReadAndWriteKeysDisjoint(cfg, t);
    SelectMembers(cfg, t, t.readWriteSet, WRITE);
    SelectMembers(cfg, t, t.readSet, READ);
    forall w | w in Wants(cfg, t) ensures w.key in Keys(cfg, t) && w.mode == ModeOf(cfg, t, w.key) {
      if w in ws {
        assert w.key in KeysOf(ws);
      } else {
        assert w in rs && w.key in KeysOf(rs);
      }
    }
    assert KeysOf(Wants(cfg, t)) == KeysOf(ws) + KeysOf(rs);
  }

  /** During a Lock call: `t` has requested exactly the keys in `done`. */
  ghost predicate Requested(cfg: NodeConfig, order: seq<Txn>, gone: set<(Txn, Key)>, queues: map<Key, Queue>,
                            t: Txn, done: set<Key>) {
    && (forall k :: k in queues ==> queues[k] != [])
    && (forall k :: QueueOf(queues, k) ==
          Project(cfg, order, gone, k) + if k in done then [LockRequest(ModeOf(cfg, t, k), t)] else [])
  }

  lemma BlockedAfterAppend(q: Queue, r: LockRequest, u: Txn)
    requires forall i :: 0 <= i < |q| ==> q[i].txn != r.txn
    ensures var q' := q + [r];
            Blocked(q', u) <==> if u == r.txn then (if r.mode.WRITE? then q != [] else WritePrecedes(q, |q|)) else Blocked(q, u)
  {
    var q' := q + [r];
    var f, f' := Find(q, u), Find(q', u);
    assert forall j :: 0 <= j < |q| ==> q'[j] == q[j];
    if u == r.txn {
      assert q'[|q|].txn == u;
      assert WritePrecedes(q', |q|) <==> WritePrecedes(q, |q|);
    } else if f < |q| {
      assert f' == f;
      assert WritePrecedes(q', f) <==> WritePrecedes(q, f);
    } else {
      assert f' == |q'|;
    }
  }

  lemma WaitingAfterUpdate(queues: map<Key, Queue>, k: Key, q: Queue, u: Txn)
    ensures Waiting(queues[k := q], u) == Waiting(queues, u) - {k} + (if Blocked(q, u) then {k} else {})
    ensures k in Waiting(queues, u) <==> Blocked(QueueOf(queues, k), u)
  {
  }

  /** The effect of one request on who waits: only the requester may start to wait, only here, and exactly if the request
      is reported as not acquired; a request repeated right away is not reported again. */
  lemma WaitingAfterRequest(queues: map<Key, Queue>, t: Txn, w: Want, u: Txn)
    requires forall i :: 0 <= i < |QueueOf(queues, w.key)| - 1 ==> QueueOf(queues, w.key)[i].txn != t
    ensures var (queues', acquired) := RequestOne(queues, t, w);
            && Waiting(queues', u) == Waiting(queues, u) + (if u == t && !acquired then {w.key} else {})
            && (!acquired ==> w.key !in Waiting(queues, t))
    ensures (forall i :: 0 <= i < |QueueOf(queues, w.key)| ==> QueueOf(queues, w.key)[i].txn != t) ==>
              w.key !in Waiting(queues, t)
  {
    var q := QueueOf(queues, w.key);
    if q == [] || q[|q| - 1].txn != t {
      WaitingAfterUpdate(queues, w.key, q + [LockRequest(w.mode, t)], u);
      BlockedAfterAppend(q, LockRequest(w.mode, t), u);
      assert Find(q, t) == |q|;
    }
  }

  lemma RequestOneRequested(cfg: NodeConfig, order: seq<Txn>, gone: set<(Txn, Key)>, queues: map<Key, Queue>,
                            t: Txn, done: set<Key>, w: Want)
    requires NoDuplicates(order) && t !in order
    requires Requested(cfg, order, gone, queues, t, done)
    requires w.key !in done && w.mode == ModeOf(cfg, t, w.key)
    ensures Requested(cfg, order, gone, RequestOne(queues, t, w).0, t, done + {w.key})
    ensures forall i :: 0 <= i < |QueueOf(queues, w.key)| ==> QueueOf(queues, w.key)[i].txn != t
  {
    ProjectSound(cfg, order, gone, w.key);
    assert QueueOf(queues, w.key) == Project(cfg, order, gone, w.key) + [];
    assert QueueOf(queues, w.key) == Project(cfg, order, gone, w.key);
    var queues' := RequestOne(queues, t, w).0;
    assert queues' == queues[w.key := QueueOf(queues, w.key) + [LockRequest(w.mode, t)]];
    forall k ensures QueueOf(queues', k) ==
          Project(cfg, order, gone, k) + if k in done + {w.key} then [LockRequest(ModeOf(cfg, t, k), t)] else []
    {
    }
  }

  lemma {:induction false} RequestAllRequested(cfg: NodeConfig, order: seq<Txn>, gone: set<(Txn, Key)>,
                                               queues: map<Key, Queue>, t: Txn, done: set<Key>, wants: seq<Want>)
    requires NoDuplicates(order) && t !in order
    requires Requested(cfg, order, gone, queues, t, done)
    requires WantsExact(cfg, t, wants) && KeysOf(wants) !! done
    ensures Requested(cfg, order, gone, RequestAll(queues, t, wants).0, t, done + KeysOf(wants))
    decreases |wants|
  {
    if wants != [] {
      var w := wants[0];
      WantsTail(cfg, t, wants);
      RequestOneRequested(cfg, order, gone, queues, t, done, w);
      RequestAllRequested(cfg, order, gone, RequestOne(queues, t, w).0, t, done + {w.key}, wants[1..]);
      assert done + {w.key} + KeysOf(wants[1..]) == done + KeysOf(wants);
    } else {
      assert done + KeysOf(wants) == done;
    }
  }

  lemma {:induction false} RequestAllWaiting(cfg: NodeConfig, order: seq<Txn>, gone: set<(Txn, Key)>,
                                             queues: map<Key, Queue>, t: Txn, done: set<Key>, wants: seq<Want>, u: Txn)
    requires NoDuplicates(order) && t !in order
    requires Requested(cfg, order, gone, queues, t, done)
    requires WantsExact(cfg, t, wants) && KeysOf(wants) !! done
    ensures var (queues', n) := RequestAll(queues, t, wants);
            && (u != t ==> Waiting(queues', u) == Waiting(queues, u))
            && (u == t ==> |Waiting(queues', u)| == |Waiting(queues, u)| + n)
    decreases |wants|
  {
    if wants != [] {
      var w := wants[0];
      WantsTail(cfg, t, wants);
      RequestOneRequested(cfg, order, gone, queues, t, done, w);
      WaitingAfterRequest(queues, t, w, u);
      RequestAllWaiting(cfg, order, gone, RequestOne(queues, t, w).0, t, done + {w.key}, wants[1..], u);
    }
  }

  lemma WantsTail(cfg: NodeConfig, t: Txn, wants: seq<Want>)
    requires wants != [] && WantsExact(cfg, t, wants)
    ensures WantsExact(cfg, t, wants[1..])
    ensures wants[0].mode == ModeOf(cfg, t, wants[0].key)
    ensures KeysOf(wants) == {wants[0].key} + KeysOf(wants[1..]) && wants[0].key !in KeysOf(wants[1..])
  {
    var rest := wants[1..];
    assert wants == [wants[0]] + rest;
    assert forall i :: 0 <= i < |rest| ==> rest[i] == wants[i + 1];
    forall w | w in rest ensures w.key != wants[0].key {
      var i :| 0 <= i < |rest| && rest[i] == w;
      assert wants[i + 1] == w;
    }
  }

  /** Lock appends the transaction to the order, reports exactly how many requests it waits for, and
      makes it ready at once exactly when that is none. */
  lemma LockKeepsInv(cfg: NodeConfig, order: seq<Txn>, gone: set<(Txn, Key)>, lost: set<(Txn, Key)>, s: LockState, t: Txn)
    requires Inv(cfg, order, gone, lost, s) && t !in order && DistinctKeys(t)
    ensures Inv(cfg, order + [t], gone, lost, LockOp(cfg, s, t).0)
    ensures LockOp(cfg, s, t).1 == |Waiting(LockOp(cfg, s, t).0.queues, t)|
  {
    LockKeepsQueues(cfg, order, gone, s.queues, t);
    LockKeepsCounts(cfg, order, gone, lost, s, t);
  }

  lemma LockKeepsCounts(cfg: NodeConfig, order: seq<Txn>, gone: set<(Txn, Key)>, lost: set<(Txn, Key)>, s: LockState, t: Txn)
    requires NoDuplicates(order) && t !in order && DistinctKeys(t)
    requires lost <= gone && forall u, k :: (u, k) in gone ==> u in order
    requires QueuesExact(cfg, order, gone, s.queues) && Requested(cfg, order, gone, s.queues, t, {})
    requires WaitsExact(s, lost) && ReadyExact(order, s, lost)
    ensures WaitsExact(LockOp(cfg, s, t).0, lost) && ReadyExact(order + [t], LockOp(cfg, s, t).0, lost)
    ensures LockOp(cfg, s, t).1 == |Waiting(LockOp(cfg, s, t).0.queues, t)|
  {
    var (s', n) := LockOp(cfg, s, t);
    forall u
      ensures u != t ==> Outstanding(s'.queues, lost, u) == Outstanding(s.queues, lost, u)
    {
      LockOutstanding(cfg, order, gone, lost, s, t, u);
    }
    LockOutstanding(cfg, order, gone, lost, s, t, t);
    CountsAfterLock(order, s, s', lost, t, n);
  }

  lemma LockOutstanding(cfg: NodeConfig, order: seq<Txn>, gone: set<(Txn, Key)>, lost: set<(Txn, Key)>, s: LockState,
                        t: Txn, u: Txn)
    requires NoDuplicates(order) && t !in order && DistinctKeys(t)
    requires lost <= gone && forall u, k :: (u, k) in gone ==> u in order
    requires QueuesExact(cfg, order, gone, s.queues) && Requested(cfg, order, gone, s.queues, t, {})
    ensures var (s', n) := LockOp(cfg, s, t);
            && (u != t ==> Outstanding(s'.queues, lost, u) == Outstanding(s.queues, lost, u))
            && (u == t ==> Outstanding(s.queues, lost, t) == {} && Outstanding(s'.queues, lost, t) == Waiting(s'.queues, t)
                           && |Waiting(s'.queues, t)| == n)
  {
    NeverSeenTxnWaitsForNothing(cfg, order, gone, s.queues, t);
    LockWaiting(cfg, order, gone, s.queues, t, u);
    assert Cancelled(lost, t) == {};
  }

  lemma LockWaiting(cfg: NodeConfig, order: seq<Txn>, gone: set<(Txn, Key)>, queues: map<Key, Queue>, t: Txn, u: Txn)
    requires NoDuplicates(order) && t !in order && DistinctKeys(t)
    requires Requested(cfg, order, gone, queues, t, {}) && Waiting(queues, t) == {}
    ensures var (queues', n) := RequestAll(queues, t, Wants(cfg, t));
            && (u != t ==> Waiting(queues', u) == Waiting(queues, u))
            && (u == t ==> |Waiting(queues', u)| == n)
  {
    WantsAreKeys(cfg, t);
    RequestAllWaiting(cfg, order, gone, queues, t, {}, Wants(cfg, t), u);
  }

  lemma LockKeepsQueues(cfg: NodeConfig, order: seq<Txn>, gone: set<(Txn, Key)>, queues: map<Key, Queue>, t: Txn)
    requires NoDuplicates(order) && t !in order && DistinctKeys(t)
    requires forall u, k :: (u, k) in gone ==> u in order
    requires QueuesExact(cfg, order, gone, queues)
    ensures QueuesExact(cfg, order + [t], gone, RequestAll(queues, t, Wants(cfg, t)).0)
    ensures Requested(cfg, order, gone, queues, t, {})
  {
    var queues' := RequestAll(queues, t, Wants(cfg, t)).0;
    WantsAreKeys(cfg, t);
    RequestAllRequested(cfg, order, gone, queues, t, {}, Wants(cfg, t));
    var order' := order + [t];
    assert order'[..|order'| - 1] == order;
    forall k ensures QueueOf(queues', k) == Project(cfg, order', gone, k) {
      assert (t, k) !in gone;
    }
  }

  lemma CountsAfterLock(order: seq<Txn>, s: LockState, s': LockState, lost: set<(Txn, Key)>, t: Txn, n: nat)
    requires WaitsExact(s, lost) && ReadyExact(order, s, lost) && t !in order
    requires Outstanding(s.queues, lost, t) == {}
    requires forall u :: u != t ==> Outstanding(s'.queues, lost, u) == Outstanding(s.queues, lost, u)
    requires |Outstanding(s'.queues, lost, t)| == n
    requires s'.waits == if n > 0 then s.waits[t := n] else s.waits
    requires s'.ready == if n > 0 then s.ready else s.ready + [t]
    ensures WaitsExact(s', lost) && ReadyExact(order + [t], s', lost)
  {
    assert n == 0 <==> Outstanding(s'.queues, lost, t) == {};
    forall u
      ensures CountExact(s'.waits, u, Outstanding(s'.queues, lost, u))
      ensures u in s'.ready <==> u in order + [t] && Outstanding(s'.queues, lost, u) == {}
    {
      assert CountExact(s.waits, u, Outstanding(s.queues, lost, u));
    }
  }

  lemma NeverSeenTxnWaitsForNothing(cfg: NodeConfig, order: seq<Txn>, gone: set<(Txn, Key)>, queues: map<Key, Queue>, t: Txn)
    requires NoDuplicates(order) && t !in order && QueuesExact(cfg, order, gone, queues)
    ensures Waiting(queues, t) == {}
  {
    forall k | k in queues ensures Find(queues[k], t) == |queues[k]| {
      ProjectSound(cfg, order, gone, k);
      assert queues[k] == QueueOf(queues, k);
    }
  }

  // ---------------------------------------------------------------- Release keeps the invariant

  lemma NewlyGrantedStep(q: Queue, p: nat, i: nat)
    requires p < i < |q|
    ensures NewlyGranted(q, p, i) == (if Newly(q, p, i) then [q[i].txn] else []) + NewlyGranted(q, p, i + 1)
  {
  }

  lemma {:induction false} NewlyGrantedMember(q: Queue, p: nat, i: nat, u: Txn)
    requires p < i <= |q| && NoTxnTwice(q)
    ensures u in NewlyGranted(q, p, i) <==> i <= Find(q, u) < |q| && Newly(q, p, Find(q, u))
    decreases |q| - i
  {
    if i < |q| {
      NewlyGrantedStep(q, p, i);
      NewlyGrantedMember(q, p, i + 1, u);
      FindUnique(q, i);
      assert Find(q, u) == i <==> q[i].txn == u;
    }
  }

  lemma {:induction false} NewlyGrantedOnce(q: Queue, p: nat, i: nat)
    requires p < i <= |q| && NoTxnTwice(q)
    ensures NoDuplicates(NewlyGranted(q, p, i))
    decreases |q| - i
  {
    if i < |q| {
      NewlyGrantedOnce(q, p, i + 1);
      NewlyGrantedMember(q, p, i + 1, q[i].txn);
      FindUnique(q, i);
    }
  }

  lemma FindAfterRemove(q: Queue, p: nat, u: Txn)
    requires NoTxnTwice(q) && p < |q|
    ensures var f := Find(q, u);
            Find(Remove(q, p), u) == if f == |q| || f == p then |q| - 1 else if f < p then f else f - 1
  {
    var q' := Remove(q, p);
    var f, f' := Find(q, u), Find(q', u);
    if f < |q| && f != p {
      assert q'[if f < p then f else f - 1].txn == u;
    }
    if f' < |q'| {
      FindUnique(q, if f' < p then f' else f' + 1);
    }
  }

  lemma BlockedAfterRemove(q: Queue, p: nat, u: Txn)
    requires NoTxnTwice(q) && p < |q|
    ensures Blocked(Remove(q, p), u) <==> Blocked(q, u) && u !in NewOwners(q, p) && u != q[p].txn
    ensures u in NewOwners(q, p) ==> Blocked(q, u) && u != q[p].txn
    ensures NoDuplicates(NewOwners(q, p))
  {
    GrantExactness(q, p);
    NewlyGrantedMember(q, p, p + 1, u);
    NewlyGrantedOnce(q, p, p + 1);
    FindAfterRemove(q, p, u);
    FindUnique(q, p);
    var f := Find(q, u);
    if f < |q| && f != p {
      GrantsAreKept(q, p, f);
    }
  }

  lemma WaitingAfterErase(queues: map<Key, Queue>, k: Key, u: Txn)
    ensures Waiting(queues - {k}, u) == Waiting(queues, u) - {k}
  {
  }

  ghost predicate Wakeable(s: LockState, owners: seq<Txn>) {
    NoDuplicates(owners) && forall u :: u in owners ==> u in s.waits && s.waits[u] >= 1 && u !in s.ready
  }

  lemma WakeStep(s: LockState, owners: seq<Txn>)
    requires owners != [] && Wakeable(s, owners)
    ensures Wakeable(Wake(s, owners[0]), owners[1..])
    ensures forall u :: u in owners <==> u == owners[0] || u in owners[1..]
    ensures owners[0] !in owners[1..]
  {
    assert owners == [owners[0]] + owners[1..];
    assert forall i :: 0 <= i < |owners[1..]| ==> owners[1..][i] == owners[i + 1];
  }

  /** Each owner is counted down once; at zero it moves from the wait map to the ready queue. */
  lemma {:induction false} WakeAllEffect(s: LockState, owners: seq<Txn>, u: Txn)
    requires Wakeable(s, owners)
    ensures var s' := WakeAll(s, owners);
      && (u in s'.waits <==> u in s.waits && !(u in owners && s.waits[u] == 1))
      && (u in s'.waits ==> s'.waits[u] == s.waits[u] - if u in owners then 1 else 0)
      && (u in s'.ready <==> u in s.ready || (u in owners && s.waits[u] == 1))
    decreases |owners|
  {
    if owners != [] {
      WakeStep(s, owners);
      WakeAllEffect(Wake(s, owners[0]), owners[1..], u);
    }
  }

  lemma {:induction false} WakeAllKeepsDistinct(s: LockState, owners: seq<Txn>)
    requires Wakeable(s, owners) && NoDuplicates(s.ready)
    ensures NoDuplicates(WakeAll(s, owners).ready)
    decreases |owners|
  {
    if owners != [] {
      WakeStep(s, owners);
      WakeAllKeepsDistinct(Wake(s, owners[0]), owners[1..]);
    }
  }

  /** Who waits after a release: the new owners stop waiting on this key, and so does the one who released it. */
  lemma WaitingAfterRelease(s: LockState, k: Key, t: Txn, u: Txn)
    requires k in s.queues && NoTxnTwice(s.queues[k]) && Find(s.queues[k], t) < |s.queues[k]|
    ensures var owners := NewOwners(s.queues[k], Find(s.queues[k], t));
            && Waiting(ReleaseKeyOp(s, k, t).queues, u)
               == Waiting(s.queues, u) - (if u in owners || u == t then {k} else {})
            && (u in owners ==> u != t && k in Waiting(s.queues, u))
            && NoDuplicates(owners)
  {
    var q := s.queues[k];
    var q' := Remove(q, Find(q, t));
    WaitingAfterUpdate(s.queues, k, q', u);
    WaitingAfterErase(s.queues, k, u);
    BlockedAfterRemove(q, Find(q, t), u);
  }

  lemma ReleaseKeyQueues(cfg: NodeConfig, order: seq<Txn>, gone: set<(Txn, Key)>, s: LockState, k: Key, t: Txn)
    requires NoDuplicates(order) && QueuesExact(cfg, order, gone, s.queues)
    requires t in order && k in Keys(cfg, t) && (t, k) !in gone
    ensures k in s.queues && NoTxnTwice(s.queues[k]) && Find(s.queues[k], t) < |s.queues[k]|
    ensures forall i :: 0 <= i < |s.queues[k]| ==> s.queues[k][i].txn in order
    ensures QueuesExact(cfg, order, gone + {(t, k)}, ReleaseKeyOp(s, k, t).queues)
  {
    ProjectSound(cfg, order, gone, k);
    ProjectWithoutRequest(cfg, order, gone, k, t);
    assert QueueOf(s.queues, k) == Project(cfg, order, gone, k);
    var s' := ReleaseKeyOp(s, k, t);
    forall j ensures QueueOf(s'.queues, j) == Project(cfg, order, gone + {(t, k)}, j) {
      if j != k {
        ProjectOtherTxn(cfg, order, gone, j, t, k);
        assert QueueOf(s.queues, j) == Project(cfg, order, gone, j);
      }
    }
  }

  /** What is lost when `t` releases its request on `k`: the request, if it has not been granted. */
  ghost function LostWith(s: LockState, lost: set<(Txn, Key)>, k: Key, t: Txn): set<(Txn, Key)> {
    if k in Waiting(s.queues, t) then lost + {(t, k)} else lost
  }

  lemma WaitingIsLive(cfg: NodeConfig, order: seq<Txn>, gone: set<(Txn, Key)>, queues: map<Key, Queue>, k: Key, u: Txn)
    requires NoDuplicates(order) && QueuesExact(cfg, order, gone, queues) && k in Waiting(queues, u)
    ensures u in order && k in Keys(cfg, u) && (u, k) !in gone
  {
    ProjectSound(cfg, order, gone, k);
    assert QueueOf(queues, k) == Project(cfg, order, gone, k);
    assert queues[k][Find(queues[k], u)].txn == u;
  }

  lemma OutstandingAfterRelease(cfg: NodeConfig, order: seq<Txn>, gone: set<(Txn, Key)>, lost: set<(Txn, Key)>,
                                s: LockState, k: Key, t: Txn, u: Txn)
    requires NoDuplicates(order) && lost <= gone && QueuesExact(cfg, order, gone, s.queues)
    requires k in s.queues && NoTxnTwice(s.queues[k]) && Find(s.queues[k], t) < |s.queues[k]|
    ensures var owners := NewOwners(s.queues[k], Find(s.queues[k], t));
            && Outstanding(ReleaseKeyOp(s, k, t).queues, LostWith(s, lost, k, t), u)
               == Outstanding(s.queues, lost, u) - (if u in owners then {k} else {})
            && (u in owners ==> k in Outstanding(s.queues, lost, u) && u in order)
  {
    WaitingAfterRelease(s, k, t, u);
    var lost' := LostWith(s, lost, k, t);
    if k in Waiting(s.queues, u) {
      WaitingIsLive(cfg, order, gone, s.queues, k, u);
      assert k !in Cancelled(lost, u);
    }
    assert Cancelled(lost', u) == Cancelled(lost, u) + if u == t && k in Waiting(s.queues, t) then {k} else {};
  }

  /** Releasing one request, granted or not, keeps the invariant with that request gone. */
  lemma ReleaseKeyKeepsInv(cfg: NodeConfig, order: seq<Txn>, gone: set<(Txn, Key)>, lost: set<(Txn, Key)>,
                           s: LockState, k: Key, t: Txn)
    requires Inv(cfg, order, gone, lost, s)
    requires t in order && k in Keys(cfg, t) && (t, k) !in gone
    ensures k in s.queues
    ensures Inv(cfg, order, gone + {(t, k)}, LostWith(s, lost, k, t), ReleaseKeyOp(s, k, t))
    ensures Waiting(ReleaseKeyOp(s, k, t).queues, t) == Waiting(s.queues, t) - {k}
  {
    ReleaseKeyQueues(cfg, order, gone, s, k, t);
    var s' := ReleaseKeyOp(s, k, t);
    var owners := NewOwners(s.queues[k], Find(s.queues[k], t));
    forall u
      ensures Outstanding(s'.queues, LostWith(s, lost, k, t), u)
              == Outstanding(s.queues, lost, u) - (if u in owners then {k} else {})
      ensures u in owners ==> k in Outstanding(s.queues, lost, u) && u in order
    {
      OutstandingAfterRelease(cfg, order, gone, lost, s, k, t, u);
    }
    WaitingAfterRelease(s, k, t, t);
    CountsAfterRelease(order, s, s', lost, LostWith(s, lost, k, t), owners, k);
  }

  /** Counting the new owners down leaves exact wait counts and an exact ready queue. */
  lemma CountsAfterRelease(order: seq<Txn>, s: LockState, s': LockState, lost: set<(Txn, Key)>, lost': set<(Txn, Key)>,
                           owners: seq<Txn>, k: Key)
    requires WaitsExact(s, lost) && ReadyExact(order, s, lost) && NoDuplicates(owners)
    requires forall u :: Outstanding(s'.queues, lost', u)
                         == Outstanding(s.queues, lost, u) - (if u in owners then {k} else {})
    requires forall u :: u in owners ==> k in Outstanding(s.queues, lost, u) && u in order
    requires s'.waits == WakeAll(s, owners).waits && s'.ready == WakeAll(s, owners).ready
    ensures WaitsExact(s', lost') && ReadyExact(order, s', lost')
  {
    forall u | u in owners ensures u in s.waits && s.waits[u] >= 1 && u !in s.ready {
      assert CountExact(s.waits, u, Outstanding(s.queues, lost, u));
      assert k in Outstanding(s.queues, lost, u);
    }
    WakeAllKeepsDistinct(s, owners);
    forall u
      ensures CountExact(s'.waits, u, Outstanding(s'.queues, lost', u))
      ensures u in s'.ready <==> u in order && Outstanding(s'.queues, lost', u) == {}
    {
      assert CountExact(s.waits, u, Outstanding(s.queues, lost, u));
      WakeAllEffect(s, owners, u);
      CountAfterRelease(Outstanding(s.queues, lost, u), Outstanding(s'.queues, lost', u), k, u in owners);
    }
  }

  lemma CountAfterRelease(before: set<Key>, after: set<Key>, k: Key, owner: bool)
    requires after == before - (if owner then {k} else {})
    requires owner ==> k in before
    ensures |after| == |before| - (if owner then 1 else 0)
    ensures after == {} <==> |after| == 0
    ensures before == {} <==> |before| == 0
  {
  }

  lemma {:induction false} SelectKeysMembers(cfg: NodeConfig, t: Txn, es: seq<KeyEntry>)
    ensures forall k :: k in SelectKeys(cfg, t, es) <==> exists e :: e in es && Wanted(cfg, t, e) && e.key == k
    ensures KeysDiffer(es) ==> NoDuplicates(SelectKeys(cfg, t, es))
  {
    if es != [] {
      SelectKeysMembers(cfg, t, es[1..]);
      assert es == [es[0]] + es[1..];
      if KeysDiffer(es) {
        assert KeysDiffer(es[1..]);
        forall e | e in es[1..] ensures e.key != es[0].key {
          var i :| 0 <= i < |es[1..]| && es[1..][i] == e;
          assert es[i + 1] == e;
        }
        assert es[0].key !in SelectKeys(cfg, t, es[1..]);
      }
    }
  }

  lemma HeldAreKeys(cfg: NodeConfig, t: Txn)
    requires DistinctKeys(t)
    ensures NoDuplicates(Held(cfg, t))
    ensures forall k :: k in Held(cfg, t) <==> k in Keys(cfg, t)
  {
    SelectKeysMembers(cfg, t, t.readSet);
    SelectKeysMembers(cfg, t, t.readWriteSet);
    SplitDistinctKeys(t);
    ReadAndWriteKeysDisjoint(cfg, t);
    forall k ensures k in Held(cfg, t) <==> k in Keys(cfg, t) {
      assert k in SelectKeys(cfg, t, t.readSet) <==> k in ReadKeys(cfg, t);
      assert k in SelectKeys(cfg, t, t.readWriteSet) <==> k in WriteKeys(cfg, t);
    }
    forall k | k in SelectKeys(cfg, t, t.readSet) ensures k !in SelectKeys(cfg, t, t.readWriteSet) {
      assert k in ReadKeys(cfg, t);
    }
    ConcatNoDuplicates(SelectKeys(cfg, t, t.readSet), SelectKeys(cfg, t, t.readWriteSet));
  }

  lemma ConcatNoDuplicates<T>(a: seq<T>, b: seq<T>)
    requires NoDuplicates(a) && NoDuplicates(b) && forall x :: x in a ==> x !in b
    ensures NoDuplicates(a + b)
  {
    forall i, j | 0 <= i < j < |a + b| ensures (a + b)[i] != (a + b)[j] {
      if i < |a| <= j {
        assert a[i] in a && b[j - |a|] in b;
      }
    }
  }

  /** What is lost when `t` releases several requests. */
  ghost function LostAll(s: LockState, lost: set<(Txn, Key)>, keys: seq<Key>, t: Txn): set<(Txn, Key)> {
    lost + set k | k in keys && k in Waiting(s.queues, t) :: (t, k)
  }

  lemma LostFirst(s: LockState, lost: set<(Txn, Key)>, keys: seq<Key>, t: Txn)
    requires keys != [] && NoDuplicates(keys) && keys[0] in s.queues
    requires Waiting(ReleaseKeyOp(s, keys[0], t).queues, t) == Waiting(s.queues, t) - {keys[0]}
    ensures LostAll(ReleaseKeyOp(s, keys[0], t), LostWith(s, lost, keys[0], t), keys[1..], t) == LostAll(s, lost, keys, t)
  {
    assert keys == [keys[0]] + keys[1..];
  }

  lemma GoneFirst(gone: set<(Txn, Key)>, keys: seq<Key>, t: Txn)
    requires keys != []
    ensures gone + {(t, keys[0])} + (set j | j in keys[1..] :: (t, j)) == gone + (set j | j in keys :: (t, j))
  {
    assert keys == [keys[0]] + keys[1..];
  }

  lemma {:induction false} ReleaseAllSteps(cfg: NodeConfig, order: seq<Txn>, gone: set<(Txn, Key)>, lost: set<(Txn, Key)>,
                                           s: LockState, keys: seq<Key>, t: Txn)
    requires Inv(cfg, order, gone, lost, s) && t in order
    requires NoDuplicates(keys) && forall k :: k in keys ==> k in Keys(cfg, t) && (t, k) !in gone
    ensures Releasable(s, keys)
    ensures Inv(cfg, order, gone + (set k | k in keys :: (t, k)), LostAll(s, lost, keys, t), ReleaseAll(s, keys, t))
    decreases |keys|
  {
    AllHaveQueues(cfg, order, gone, lost, s, keys, t);
    if keys != [] {
      var k, rest := keys[0], keys[1..];
      ReleaseKeyKeepsInv(cfg, order, gone, lost, s, k, t);
      forall j | j in rest ensures j in Keys(cfg, t) && (t, j) !in gone + {(t, k)} {
        assert j in keys;
      }
      ReleaseAllSteps(cfg, order, gone + {(t, k)}, LostWith(s, lost, k, t), ReleaseKeyOp(s, k, t), rest, t);
      GoneFirst(gone, keys, t);
      LostFirst(s, lost, keys, t);
    } else {
      assert gone + (set k | k in keys :: (t, k)) == gone && LostAll(s, lost, keys, t) == lost;
    }
  }

  lemma AllHaveQueues(cfg: NodeConfig, order: seq<Txn>, gone: set<(Txn, Key)>, lost: set<(Txn, Key)>, s: LockState,
                      keys: seq<Key>, t: Txn)
    requires Inv(cfg, order, gone, lost, s) && t in order
    requires NoDuplicates(keys) && forall k :: k in keys ==> k in Keys(cfg, t) && (t, k) !in gone
    ensures Releasable(s, keys)
  {
    forall i | 0 <= i < |keys| ensures keys[i] in s.queues {
      ReleaseKeyQueues(cfg, order, gone, s, keys[i], t);
    }
  }

  ghost function GoneWith(cfg: NodeConfig, gone: set<(Txn, Key)>, t: Txn): set<(Txn, Key)> {
    gone + set k | k in Keys(cfg, t) :: (t, k)
  }

  /** Releasing a locked transaction, ready or not, is defined and takes all its requests away. */
  lemma ReleaseKeepsInv(cfg: NodeConfig, order: seq<Txn>, gone: set<(Txn, Key)>, lost: set<(Txn, Key)>, s: LockState, t: Txn)
    requires Inv(cfg, order, gone, lost, s) && DistinctKeys(t)
    requires t in order && forall k :: (t, k) !in gone
    ensures Releasable(s, Held(cfg, t))
    ensures Inv(cfg, order, GoneWith(cfg, gone, t), LostAll(s, lost, Held(cfg, t), t), ReleaseAll(s, Held(cfg, t), t))
    ensures t in s.ready ==> LostAll(s, lost, Held(cfg, t), t) == lost
  {
    HeldAreKeys(cfg, t);
    ReleaseAllSteps(cfg, order, gone, lost, s, Held(cfg, t), t);
    assert (set k | k in Held(cfg, t) :: (t, k)) == (set k | k in Keys(cfg, t) :: (t, k));
    assert t in s.ready ==> Waiting(s.queues, t) == {};
  }

  lemma {:induction false} WakeAllAppends(s: LockState, owners: seq<Txn>)
    ensures s.ready <= WakeAll(s, owners).ready
    decreases |owners|
  {
    if owners != [] {
      WakeAllAppends(Wake(s, owners[0]), owners[1..]);
    }
  }

  /** Releasing only ever appends to the ready queue. */
  lemma {:induction false} ReleaseAppendsToReady(s: LockState, keys: seq<Key>, t: Txn)
    requires Releasable(s, keys)
    ensures s.ready <= ReleaseAll(s, keys, t).ready
    decreases |keys|
  {
    if keys != [] {
      var q := s.queues[keys[0]];
      if Find(q, t) < |q| {
        WakeAllAppends(s, NewOwners(q, Find(q, t)));
      }
      ReleaseAppendsToReady(ReleaseKeyOp(s, keys[0], t), keys[1..], t);
    }
  }

  // ---------------------------------------------------------------- Consequences

  ghost predicate Conflict(cfg: NodeConfig, t: Txn, u: Txn, k: Key) {
    && k in Keys(cfg, t) && k in Keys(cfg, u)
    && (k in WriteKeys(cfg, t) || k in WriteKeys(cfg, u))
  }

  /** A ready transaction has no live conflicting request ahead of it in the Lock order. */
  lemma ReadyHasNoRival(cfg: NodeConfig, order: seq<Txn>, gone: set<(Txn, Key)>, lost: set<(Txn, Key)>, s: LockState,
                        i: nat, j: nat, k: Key)
    requires Inv(cfg, order, gone, lost, s) && i < j < |order|
    requires order[j] in s.ready && (order[j], k) !in gone && Conflict(cfg, order[i], order[j], k)
    ensures (order[i], k) in gone
  {
    var q := Project(cfg, order, gone, k);
    ProjectOrder(cfg, order, gone, k, j, j);
    ProjectSound(cfg, order, gone, k);
    var b := Find(q, order[j]);
    assert q[b].mode == ModeOf(cfg, order[j], k);
    assert QueueOf(s.queues, k) == q;
    assert k !in Outstanding(s.queues, lost, order[j]);
    assert Granted(q, b);
    if (order[i], k) !in gone {
      ProjectOrder(cfg, order, gone, k, i, j);
      assert false;
    }
  }

  /** The oldest transaction with live requests holds every lock it asked for. */
  lemma OldestIsReady(cfg: NodeConfig, order: seq<Txn>, gone: set<(Txn, Key)>, lost: set<(Txn, Key)>, s: LockState, i: nat)
    requires Inv(cfg, order, gone, lost, s) && i < |order| && forall k :: (order[i], k) !in lost
    requires forall j, k :: 0 <= j < i && k in Keys(cfg, order[j]) ==> (order[j], k) in gone
    ensures order[i] in s.ready
  {
    var t := order[i];
    forall k | k in s.queues ensures !Blocked(s.queues[k], t) {
      assert s.queues[k] == QueueOf(s.queues, k);
      OldestIsFirst(cfg, order, gone, k, i);
    }
    assert Waiting(s.queues, t) == {} && Cancelled(lost, t) == {};
  }

  /** A transaction that gave up a request before it was granted never becomes ready. */
  lemma CancelledIsNeverReady(cfg: NodeConfig, order: seq<Txn>, gone: set<(Txn, Key)>, lost: set<(Txn, Key)>, s: LockState,
                              t: Txn, k: Key)
    requires Inv(cfg, order, gone, lost, s) && (t, k) in lost
    ensures t !in s.ready && t in s.waits && s.waits[t] >= 1
  {
    assert k in Cancelled(lost, t) && k in Outstanding(s.queues, lost, t);
    assert CountExact(s.waits, t, Outstanding(s.queues, lost, t));
  }

  lemma OldestIsFirst(cfg: NodeConfig, order: seq<Txn>, gone: set<(Txn, Key)>, k: Key, i: nat)
    requires NoDuplicates(order) && i < |order|
    requires forall j :: 0 <= j < i && k in Keys(cfg, order[j]) ==> (order[j], k) in gone
    ensures var q := Project(cfg, order, gone, k);
            Find(q, order[i]) < |q| ==> Find(q, order[i]) == 0
  {
    var q := Project(cfg, order, gone, k);
    ProjectSound(cfg, order, gone, k);
    if Find(q, order[i]) < |q| {
      var j :| 0 <= j < |order| && order[j] == q[0].txn;
      assert q[Find(q, order[i])].txn == order[i];
      FindUnique(q, 0);
      ProjectOrder(cfg, order, gone, k, i, j);
    }
  }
}
