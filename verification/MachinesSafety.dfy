/** Every run of a replica's machines is a run of the cluster that has one node for each shard. */
module MachinesSafety {
  import opened Filters
  import opened Txns
  import opened LockQueue
  import opened LockSpec
  import opened Cluster
  import opened ClusterSafety
  import opened ClusterProgress
  import opened Machines

  predicate HasOrigin(u: Txn, a: nat) {
    u.origin == a
  }

  function OfOrigin(a: nat): Txn -> bool {
    (u: Txn) => HasOrigin(u, a)
  }

  /** The copies of origin `a`, as the transactions they are copies of. */
  function Shared(txns: seq<Txn>, a: nat): seq<Txn> {
    Stripped(Filter(txns, OfOrigin(a)))
  }

  lemma SharedMore(txns: seq<Txn>, u: Txn, a: nat)
    ensures Shared(txns + [u], a) == Shared(txns, a) + if u.origin == a then [Strip(u)] else []
  {
    FilterMore(txns, u, OfOrigin(a));
    MappedConcat(Filter(txns, OfOrigin(a)), if u.origin == a then [u] else [], Strip);
    assert Stripped([u]) == [Strip(u)];
  }

  lemma SharedPrefix(p: seq<Txn>, q: seq<Txn>, a: nat)
    requires p <= q
    ensures Shared(p, a) <= Shared(q, a)
  {
    FilterPrefix(p, q, OfOrigin(a));
  }

  predicate MastersRight(r: Replica, t: Txn) {
    forall e :: e in Entries(t) ==> e.master == r.master(e.key)
  }

  /** Machine `m` reads of each origin what the agreed order has for the shard there. */
  ghost predicate InputAgrees(r: Replica, order: seq<Txn>, m: nat) {
    && (forall i :: 0 <= i < |r.inputs(m)| ==> r.inputs(m)[i].origin < r.origins)
    && (forall a: nat :: a < r.origins ==> Shared(r.inputs(m), a) == Input(Sharded(r, order), r.number(m, a)))
  }

  ghost predicate NumbersShards(r: Replica) {
    && (forall k :: r.partition(k) < r.machines && r.master(k) < r.origins)
    && (forall m: nat, a: nat :: m < r.machines && a < r.origins ==> r.number(m, a) < r.shards)
    && (forall m: nat, a: nat, n: nat, b: nat ::
          (m < r.machines && a < r.origins && n < r.machines && b < r.origins && r.number(m, a) == r.number(n, b)) ==>
            m == n && a == b)
  }

  ghost predicate ValidReplica(r: Replica, order: seq<Txn>) {
    && NumbersShards(r) && ValidWorld(Sharded(r, order))
    && (forall i :: 0 <= i < |order| ==> Strip(order[i]) == order[i] && MastersRight(r, order[i]))
    && (forall m: nat :: m < r.machines ==> InputAgrees(r, order, m))
  }

  // -------- what a machine reads

  /** A copy as a machine may read it. */
  ghost predicate CopyRight(r: Replica, u: Txn) {
    u.origin < r.origins && MastersRight(r, Strip(u)) && DistinctKeys(u)
  }

  /** Whatever the order, a machine reads copies for known origins, and of no transaction two for the same origin. */
  ghost predicate InputSound(r: Replica, m: nat) {
    && (forall u :: u in r.inputs(m) ==> CopyRight(r, u))
    && (forall i, j :: 0 <= i < j < |r.inputs(m)| && r.inputs(m)[i].origin == r.inputs(m)[j].origin ==>
          Strip(r.inputs(m)[i]) != Strip(r.inputs(m)[j]))
  }

  ghost predicate Sound(r: Replica) {
    NumbersShards(r) && forall m: nat :: m < r.machines ==> InputSound(r, m)
  }

  /** Copies of one origin are known by what they have in common with the others. */
  lemma CopyIsKnown(r: Replica, m: nat, u: Txn, v: Txn)
    requires InputSound(r, m) && u in r.inputs(m) && v in r.inputs(m)
    requires u.origin == v.origin && Strip(u) == Strip(v)
    ensures u == v
  {
    var i :| 0 <= i < |r.inputs(m)| && r.inputs(m)[i] == u;
    var j :| 0 <= j < |r.inputs(m)| && r.inputs(m)[j] == v;
  }

  lemma InputsDistinct(r: Replica, m: nat)
    requires InputSound(r, m)
    ensures NoDuplicates(r.inputs(m))
  {
  }

  lemma CopiesDiffer(r: Replica, order: seq<Txn>, m: nat, i: nat, j: nat)
    requires ValidReplica(r, order) && m < r.machines && i < j < |r.inputs(m)|
    requires r.inputs(m)[i].origin == r.inputs(m)[j].origin
    ensures Strip(r.inputs(m)[i]) != Strip(r.inputs(m)[j])
  {
    var a := r.inputs(m)[i].origin;
    assert InputAgrees(r, order, m);
    InputDistinct(Sharded(r, order), r.number(m, a));
    var picked := Filter(r.inputs(m), OfOrigin(a));
    forall k, l | 0 <= k < l < |picked| ensures Strip(picked[k]) != Strip(picked[l]) {
      assert Stripped(picked)[k] != Stripped(picked)[l];
    }
    PickedDiffer(r.inputs(m), OfOrigin(a), Strip, i, j);
  }

  lemma CopyIsInOrder(r: Replica, order: seq<Txn>, m: nat, u: Txn)
    requires ValidReplica(r, order) && m < r.machines && u in r.inputs(m)
    ensures Strip(u) in order && CopyRight(r, u)
  {
    assert InputAgrees(r, order, m);
    FilterHas(r.inputs(m), OfOrigin(u.origin), u);
    var stream := Filter(r.inputs(m), OfOrigin(u.origin));
    var i :| 0 <= i < |stream| && stream[i] == u;
    assert Stripped(stream)[i] == Strip(u);
    var j := LocalMembers(Sharded(r, order), r.number(m, u.origin), |order|, i);
    assert order[j] == Strip(u) && DistinctKeys(order[j]);
  }

  lemma ValidIsSound(r: Replica, order: seq<Txn>)
    requires ValidReplica(r, order)
    ensures Sound(r)
  {
    forall m: nat | m < r.machines ensures InputSound(r, m) {
      forall u | u in r.inputs(m) ensures CopyRight(r, u) {
        CopyIsInOrder(r, order, m, u);
      }
      forall i, j | 0 <= i < j < |r.inputs(m)| && r.inputs(m)[i].origin == r.inputs(m)[j].origin
        ensures Strip(r.inputs(m)[i]) != Strip(r.inputs(m)[j])
      {
        CopiesDiffer(r, order, m, i, j);
      }
    }
  }

  // -------- keys

  lemma WantedAlike(r: Replica, m: nat, u: Txn, order: seq<Txn>, e: KeyEntry)
    requires NumbersShards(r) && m < r.machines && u.origin < r.origins && MastersRight(r, Strip(u)) && e in Entries(u)
    ensures Wanted(r.Config(m), u, e) <==> Wanted(Sharded(r, order).Config(r.ShardOf(m, u)), Strip(u), e)
    ensures Wanted(r.Config(m), u, e) <==> r.partition(e.key) == m && r.master(e.key) == u.origin
  {
    assert e in Entries(Strip(u));
  }

  /** A machine locks for a copy what the shard locks for the transaction: the records it has there. */
  lemma KeysAlike(r: Replica, m: nat, u: Txn, order: seq<Txn>)
    requires NumbersShards(r) && m < r.machines && u.origin < r.origins && MastersRight(r, Strip(u))
    ensures var cfg := Sharded(r, order).Config(r.ShardOf(m, u));
            && WriteKeys(r.Config(m), u) == WriteKeys(cfg, Strip(u)) && ReadKeys(r.Config(m), u) == ReadKeys(cfg, Strip(u))
            && Keys(r.Config(m), u) == Keys(cfg, Strip(u))
            && (forall k :: k in Keys(r.Config(m), u) ==> r.partition(k) == m && r.master(k) == u.origin)
  {
    forall e | e in Entries(u)
      ensures Wanted(r.Config(m), u, e) <==> Wanted(Sharded(r, order).Config(r.ShardOf(m, u)), Strip(u), e)
      ensures Wanted(r.Config(m), u, e) ==> r.partition(e.key) == m && r.master(e.key) == u.origin
    {
      WantedAlike(r, m, u, order, e);
    }
    assert forall e :: e in u.readSet || e in u.readWriteSet ==> e in Entries(u);
  }

  // -------- queues

  function AsShared(q: LockRequest): LockRequest {
    LockRequest(q.mode, Strip(q.txn))
  }

  function Renamed(q: Queue): Queue {
    Mapped(q, AsShared)
  }

  lemma {:induction false} FindRenamed(q: Queue, u: Txn)
    requires forall i :: 0 <= i < |q| && Strip(q[i].txn) == Strip(u) ==> q[i].txn == u
    ensures Find(Renamed(q), Strip(u)) == Find(q, u)
  {
    if q != [] && q[0].txn != u {
      FindRenamed(q[1..], u);
      assert Renamed(q)[1..] == Renamed(q[1..]);
    }
  }

  lemma GrantedRenamed(q: Queue, i: nat)
    requires i < |q|
    ensures Granted(Renamed(q), i) <==> Granted(q, i)
  {
    assert forall j :: 0 <= j < |q| ==> Renamed(q)[j].mode == q[j].mode;
  }

  lemma BlockedRenamed(q: Queue, u: Txn)
    requires forall i :: 0 <= i < |q| && Strip(q[i].txn) == Strip(u) ==> q[i].txn == u
    ensures Blocked(Renamed(q), Strip(u)) <==> Blocked(q, u)
  {
    FindRenamed(q, u);
    if Find(q, u) < |q| {
      GrantedRenamed(q, Find(q, u));
    }
  }

  /** The request that a call to Lock leaves on `k`, if it makes one. */
  ghost function RequestOf(cfg: NodeConfig, t: Txn, gone: set<(Txn, Key)>, k: Key): Queue {
    if k in Keys(cfg, t) && (t, k) !in gone then [LockRequest(ModeOf(cfg, t, k), t)] else []
  }

  /** One more call to Lock adds a request at the machine exactly if it adds the same at the shard. */
  lemma RequestAlike(r: Replica, order: seq<Txn>, m: nat, u: Txn, k: Key, gone: set<(Txn, Key)>, left: set<(Txn, Key)>)
    requires NumbersShards(r) && m < r.machines && u.origin < r.origins && MastersRight(r, Strip(u))
    requires r.partition(k) == m && (u.origin == r.master(k) ==> ((u, k) in gone <==> (Strip(u), k) in left))
    ensures Renamed(RequestOf(r.Config(m), u, gone, k))
            == if u.origin == r.master(k)
               then RequestOf(Sharded(r, order).Config(r.number(m, r.master(k))), Strip(u), left, k) else []
  {
    KeysAlike(r, m, u, order);
  }

  lemma ProjectMore(cfg: NodeConfig, order: seq<Txn>, t: Txn, gone: set<(Txn, Key)>, k: Key)
    ensures Project(cfg, order + [t], gone, k) == Project(cfg, order, gone, k) + RequestOf(cfg, t, gone, k)
  {
    assert (order + [t])[..|order|] == order;
  }

  ghost predicate GoneAlike(locked: seq<Txn>, a: nat, k: Key, gone: set<(Txn, Key)>, left: set<(Txn, Key)>) {
    forall u :: u in locked && u.origin == a ==> ((u, k) in gone <==> (Strip(u), k) in left)
  }

  lemma ProjectStep(cfg: NodeConfig, node: NodeConfig, init: seq<Txn>, u: Txn, a: nat, k: Key,
                    gone: set<(Txn, Key)>, left: set<(Txn, Key)>)
    requires Renamed(Project(cfg, init, gone, k)) == Project(node, Shared(init, a), left, k)
    requires Renamed(RequestOf(cfg, u, gone, k)) == if u.origin == a then RequestOf(node, Strip(u), left, k) else []
    ensures Renamed(Project(cfg, init + [u], gone, k)) == Project(node, Shared(init + [u], a), left, k)
  {
    ProjectMore(cfg, init, u, gone, k);
    MappedConcat(Project(cfg, init, gone, k), RequestOf(cfg, u, gone, k), AsShared);
    SharedMore(init, u, a);
    if u.origin == a {
      ProjectMore(node, Shared(init, a), Strip(u), left, k);
    } else {
      assert Shared(init, a) + [] == Shared(init, a);
      assert Renamed(Project(cfg, init, gone, k)) + [] == Renamed(Project(cfg, init, gone, k));
    }
  }

  /** The queue of a record at its machine is the queue at its shard, with the copies for the transactions. */
  lemma {:induction false} ProjectAlike(r: Replica, order: seq<Txn>, m: nat, locked: seq<Txn>, k: Key,
                                        gone: set<(Txn, Key)>, left: set<(Txn, Key)>)
    requires NumbersShards(r) && m < r.machines && r.partition(k) == m && GoneAlike(locked, r.master(k), k, gone, left)
    requires forall u :: u in locked ==> u.origin < r.origins && MastersRight(r, Strip(u))
    ensures Renamed(Project(r.Config(m), locked, gone, k))
            == Project(Sharded(r, order).Config(r.number(m, r.master(k))), Shared(locked, r.master(k)), left, k)
  {
    if locked != [] {
      var init, u := locked[..|locked| - 1], locked[|locked| - 1];
      assert locked == init + [u];
      ProjectAlike(r, order, m, init, k, gone, left);
      RequestAlike(r, order, m, u, k, gone, left);
      ProjectStep(r.Config(m), Sharded(r, order).Config(r.number(m, r.master(k))), init, u, r.master(k), k, gone, left);
    }
  }
}
