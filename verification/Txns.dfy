/** Transactions as every component of the system sees them, and what one node locks for them. */
module Txns {

  type Key = string

  /** One record named by a transaction, with the master replica and the remaster counter expected of it. */
  datatype KeyEntry = KeyEntry(key: Key, master: nat, counter: nat)

  /** A transaction. Two transactions are the same object exactly when they are equal: a multi-replica transaction
      has a copy for each replica involved, which differs in `origin` and, when it was made by the leader of
      that replica, is marked as `newGenerated`. */
  datatype Txn = Txn(id: nat, origin: nat, remaster: bool, newGenerated: bool, readSet: seq<KeyEntry>,
                     readWriteSet: seq<KeyEntry>)

  /** What all copies of a transaction have in common. */
  function Strip(t: Txn): Txn {
    t.(origin := 0, newGenerated := false)
  }

  function Entries(t: Txn): seq<KeyEntry> {
    t.readSet + t.readWriteSet
  }

  predicate NamedIn(es: seq<KeyEntry>, k: Key) {
    exists e :: e in es && e.key == k
  }

  function MastersOf(es: seq<KeyEntry>): set<nat> {
    set e | e in es :: e.master
  }

  /** The replicas that master a record of the transaction. */
  function Involved(t: Txn): set<nat> {
    MastersOf(Entries(t))
  }

  datatype Option<+T> = None | Some(value: T)

  /** Execution mode and key placement of one node; `mode` 0 is the original CalvinDB. */
  datatype NodeConfig = NodeConfig(mode: nat, node: nat, partition: Key -> nat)

  predicate NoDuplicates<T(==)>(s: seq<T>) {
    forall i, j :: 0 <= i < j < |s| ==> s[i] != s[j]
  }

  lemma SubsetCardinality<T>(p: set<T>, q: set<T>)
    requires p <= q
    ensures |p| <= |q| && (|p| == |q| <==> p == q)
  {
    assert q == p + (q - p);
  }

  /** The caller's obligation: read and write keys are disjoint and neither repeats a key. */
  predicate DistinctKeys(t: Txn) {
    var es := t.readWriteSet + t.readSet;
    forall i, j :: 0 <= i < j < |es| ==> es[i].key != es[j].key
  }

  /** Does this node lock the entry for `t`? */
  predicate Wanted(cfg: NodeConfig, t: Txn, e: KeyEntry) {
    && (cfg.mode == 0 || e.master == t.origin)
    && cfg.partition(e.key) == cfg.node
  }

  function WriteKeys(cfg: NodeConfig, t: Txn): set<Key> {
    set e | e in t.readWriteSet && Wanted(cfg, t, e) :: e.key
  }

  function ReadKeys(cfg: NodeConfig, t: Txn): set<Key> {
    set e | e in t.readSet && Wanted(cfg, t, e) :: e.key
  }

  /** The keys `t` locks at this node. */
  function Keys(cfg: NodeConfig, t: Txn): set<Key> {
    WriteKeys(cfg, t) + ReadKeys(cfg, t)
  }

  lemma ReadAndWriteKeysDisjoint(cfg: NodeConfig, t: Txn)
    requires DistinctKeys(t)
    ensures WriteKeys(cfg, t) !! ReadKeys(cfg, t)
  {
    var es := t.readWriteSet + t.readSet;
    forall i, j | 0 <= i < |t.readWriteSet| && 0 <= j < |t.readSet|
      ensures t.readWriteSet[i].key != t.readSet[j].key
    {
      assert es[i] == t.readWriteSet[i] && es[|t.readWriteSet| + j] == t.readSet[j];
    }
  }
}
