# TKTCalvin: ordering, locking and agreement

TKTCalvin fixes a global order of transactions first and then locks and executes in that order, on every node and at
every replica, without two-phase commit. This project models the parts that have to be right for that to work and
proves, over all inputs, all runs and all interleavings, what the rest of the system relies on.

- **Locking.** `Txns`, `LockQueue`, `LockSpec`, `LockManager` and `LockRuns` hold the deterministic lock manager: a
  class over the hashed table of request queues, proved equal to a specification on maps and sequences, and the
  invariant of that specification. For each key the queue is the Lock order restricted to the live requests on it;
  every wait count is the number of requests that were never granted, cancelled ones included; every transaction is
  reported ready exactly once, when that number reaches zero, and never if it gave up a request before it was granted.
- **Execution.** `Cluster`, `ClusterSafety` and `ClusterProgress` put many nodes together, each with its own lock
  manager, its own stream of transactions, asynchronous read exchange, single steps for every record read and written,
  and an arbitrary transaction logic. Every run leaves the store of the serial execution; no run deadlocks; every run
  ends. `Machines`, `MachinesSafety`, `MachineRuns` and `ReplicaSerial` are one replica in mode 1, where a single lock
  manager serves the transactions of all origins in the order of the replica's global log: every run is a run of the
  cluster that has one node for each shard, so the same holds, although no machine locks in the agreed order.
- **Batches.** `Batches` is the scheduler's `GetBatch` with its stored orders and sub-batches, `Projection` the
  splitting of batches by node. Together they show that each node locks a projection of one global order, which is the
  assumption `Cluster` starts from.
- **Remastering.** `Blocking`, `BlockingRuns` and `BlockingScheduler` are the queues in which transactions wait until a
  record's remaster counter catches up (mode 2); `BlockingCopies` shows what goes wrong when two copies of a
  transaction wait at one node, `RemasterOrder` what goes wrong when a remaster overtakes those that wait, and
  `BlockingFates` says where each transaction goes.
  `Remastering`, `RemasteringSafety` and `RemasteringSerial` are one replica in mode 2 with moving masters, aborts and
  transactions found doomed, its locks requested in any order: what commits is a serial execution. `RemasterCounters` says
  what remasters do to the records' counters there, and counters to transactions that come late, `RemasterProgress` that what
  has begun everywhere comes to its end.
- **Replicated order.** `Paxos` and `PaxosSafety` are the majority log with its vote counter. `LocalPaxos`,
  `ReplicaLogs`, `ReplicaSafety`, `ReplicaOrder`, `ReplicaProgress`, `ReplicaRounds` and `TxnOrder` are the leaders that
  ship local logs to one another and regenerate multi-replica transactions in the order of replica 0: every log gets
  everywhere, once and in order, and any two multi-replica transactions are ordered alike at all replicas. `TxnCopies`
  says which of them get copies.
- **Convergence.** `Merge` makes one order out of the logs of all origins, `Streams` and `Convergence` show that the
  machines of every replica read projections of it: in mode 1 all replicas end with the same records. `EarlyRuns`
  covers executions before the logs have settled; `Stranded` and `ConvergenceLimits` say exactly when transactions are
  left behind.
- **Agreement of shards.** `Exchange`, `ExchangeRuns` and `StorageManager` are the shards of one transaction that
  exchange reads, decide alone whether to commit, and resubmit an aborted transaction once. `MasterLookup` and
  `LookupRuns` are the sequencer's search for the masters of a new transaction.
- **Supporting structures.** `AtomicQueue` and `ConcurrentQueue` are the growing ring buffer, sequentially and under
  interleaving of its micro-steps; `MemLog` is the in-memory log with its binary-search reader.

Code that changes state in place is a class whose methods are proved equal to functions on values; the functions then
carry the invariants and the theorems about runs. A protocol is a set of events with a guard and an effect; a run is a
sequence of events each of which was enabled, so a statement about every valid run covers every interleaving.

## What the proofs showed about the code

- *A wake-up can be lost.* A multi-replica transaction keeps its id in the copies made for other origins. When a copy
  blocks while another copy waits at the same node, it overwrites the other's entry in the index by id. The indexes stay
  inverse exactly when the copy need not wait or no other copy does, and whenever they break, the run can go on, with
  just what the other copy waits for being completed, so that this copy is on no list
  (`BlockingCopies.ReuseIsTheOnlyFault`), from where nothing that happens later brings it to the lock manager (`BlockingCopies.ForgottenForGood`). With the completions in the other order
  the copy can be locked too early, and a further completion reads the front of an empty queue
  (`BlockingCopies.CopiesAreGivenEarly`).
- *A resubmitted copy may never run.* Copies are marked as `new_generated`, and marked transactions are not forwarded for
  copying (`src/machine/lowlatency_sequencer.cc:484`). The mark is neither cleared when an aborted copy is made into a
  new transaction (`src/backend/storage_manager.cc:218-220`) nor when that is forwarded to replica 0
  (`src/machine/lowlatency_sequencer.cc:140-148`). Replica 0 logs it, but the other replicas get no copies
  (`TxnCopies.CopiedIffNotGenerated`, `TxnCopies.ResubmittedCopyIsLost`); this happens exactly if the smallest shard of
  what aborted has another origin than 0, or the mark was there before (`TxnCopies.ResubmittedIsForwardedIff`). Where
  one shard lacks its copy, no other decides or gives its locks back (`RemasteringSerial.NothingWithoutPart`). On the
  machines of mode 1, all transactions of several origins in replica 0's log run if and only if none of them has the
  mark (`ConvergenceLimits.MultisRunIffNoneGenerated`); aborts belong to mode 2, so in mode 1 none there has it.
- *In mode 2 replicas can diverge.* A remaster goes to the lock manager at once, also when transactions of its origin
  wait in the queue (`src/scheduler/deterministic_scheduler.cc:492-528`). Whether they wait depends on when other remasters
  complete, which differs between replicas. With the same transactions read in the same order, a transaction commits at
  one replica and aborts at another, where its record was remastered first (`RemasterOrder.SameLogsDiverge`). Locks
  are requested in the order of an origin's log if and only if none of its remasters is fetched while its
  transactions wait (`RemasterOrder.LockedInFetchOrderIff`).
- *A seek below the first version stops the process.* The log interface promises the first entry; the reader's final
  CHECK fails instead (`MemLog.SeekBelowFirstVersionFails`). The promise is kept exactly when the target is not below
  the first version (`MemLog.LogReader.Seek`).
- *A shard that only reads never runs* unless it is the only one, because read results go to writers only. All runs
  finish exactly when there is no such shard (`ClusterProgress.StuckRunIsComplete`, `ExchangeRuns.AllReadyIffAllWrite`,
  `RemasterProgress.RestIsComplete`).
- A transaction cancelled while it waits keeps its wait count for good: the count is never removed
  (`LockRuns.EveryRunDrains`).
- The resubmitted transaction is serialised before its client replica is set, so the message carries the old one
  (`src/backend/storage_manager.cc:257-270`). That field is not part of the model.
- `Paxos` numbers its sequences from 0 while the scheduler starts at 1. The two are modelled with their own numbering,
  and `Batches` speaks of sequences from 1 on.

## Model

| member | source | states |
|---|---|---|
| Txns.ReadAndWriteKeysDisjoint | src/scheduler/lock_manager.h:32-35 | the interface's demand that no key is named twice makes the keys read-locked and write-locked at a node disjoint |
| LockQueue.GrantExactness | src/scheduler/deterministic_lock_manager.cc:169-193 | for every queue and every position, cancelled waiters included, the three-way case split yields exactly the requests that are granted after the removal and were not before, in queue order |
| LockQueue.GrantsAreKept | src/scheduler/deterministic_lock_manager.h:46-52 | removing a request revokes no grant, and changes nothing for the requests ahead of it |
| LockQueue.ReadRunIsGranted | src/scheduler/deterministic_lock_manager.cc:185-193 | behind a released write the run of reads is newly granted and nothing beyond it |
| LockSpec.WaitingAfterRequest | src/scheduler/deterministic_lock_manager.cc:50-57 | a request changes the set of keys its own transaction waits for by at most that key, exactly if it is reported as not acquired, and nobody else's; a request repeated right away changes nothing and is not reported again |
| LockSpec.LockKeepsInv | src/scheduler/deterministic_lock_manager.cc:23-107 | Lock of a new transaction keeps queues, wait counts and ready list exact, and returns the number of its ungranted requests |
| LockSpec.WaitingAfterRelease | src/scheduler/deterministic_lock_manager.cc:195-211 | removing a request, granted or waiting, removes its key from what exactly the new owners and the requester wait for, and from nothing else |
| LockSpec.ReleaseKeyKeepsInv | src/scheduler/deterministic_lock_manager.cc:142-215 | releasing or cancelling any live request keeps queues, wait counts and ready list exact, where a request cancelled before it was granted stays counted |
| LockSpec.ReleaseKeepsInv | src/scheduler/deterministic_lock_manager.cc:109-140 | releasing a locked transaction, ready or still waiting, keeps the invariant and finds a queue for each of its keys; a ready one loses no request |
| LockSpec.ReleaseAppendsToReady | src/scheduler/deterministic_lock_manager.cc:195-204 | a release only ever appends to the ready list |
| LockSpec.ReadyHasNoRival | src/scheduler/deterministic_lock_manager.h:46-52 | while a transaction is ready, every conflicting transaction that was locked before it has released the key |
| LockSpec.OldestIsReady | src/scheduler/deterministic_lock_manager.cc:23-107 | a transaction whose predecessors have all released their requests is ready |
| LockSpec.CancelledIsNeverReady | src/scheduler/lock_manager.h:38-43 | a transaction that gave up a request before it was granted is never reported ready, and keeps a wait count |
| LockManager.DeterministicLockManager.Request | src/scheduler/deterministic_lock_manager.cc:36-57 | finding or creating the queue of a key in its bucket and appending a request is the specified update of the queues, and tells whether the request is granted |
| LockManager.DeterministicLockManager.Lock | src/scheduler/deterministic_lock_manager.cc:23-107 | over the hashed table, Lock is the specified operation on queues, waits and ready list |
| LockManager.DeterministicLockManager.FindTarget | src/scheduler/deterministic_lock_manager.cc:153-161 | finds the transaction's request and tells whether a write precedes it |
| LockManager.DeterministicLockManager.ChooseOwners | src/scheduler/deterministic_lock_manager.cc:171-193 | the branches compute the specified new owners |
| LockManager.DeterministicLockManager.TakeReadRun | src/scheduler/deterministic_lock_manager.cc:185-187 | collects the whole run of read requests and nothing more |
| LockManager.DeterministicLockManager.GrantTo | src/scheduler/deterministic_lock_manager.cc:195-204 | counts down each new owner and moves it to the ready list when its count reaches zero |
| LockManager.DeterministicLockManager.ReleaseKey | src/scheduler/deterministic_lock_manager.cc:142-215 | over the hashed table, releasing a key is the specified operation; an empty queue leaves its bucket |
| LockManager.DeterministicLockManager.Release | src/scheduler/deterministic_lock_manager.cc:109-140 | releases every local key of the transaction, reads first, as specified |
| LockRuns.RunKeepsInv | src/scheduler/deterministic_lock_manager.cc:23-215 | in every run of Lock and Release calls, cancellations of waiting transactions included, in any mode, the state is exact |
| LockRuns.OldestMayBeReleased | src/scheduler/deterministic_lock_manager.cc:23-215 | the oldest unreleased transaction is ready, and its release is defined and loses nothing |
| LockRuns.EveryRunDrains | src/scheduler/deterministic_lock_manager.cc:23-215 | every run can be continued until all are released; then the lock table is empty, and exactly those cancelled while they waited have not become ready and keep a wait count |
| ClusterSafety.RunKeepsInv | src/scheduler/deterministic_scheduler.cc:527-540 | in every run of nodes that lock projections of one order, those of a replica in mode 0 or the shards of one in mode 1, locks, phases, order of conflicting transactions, records, exchanged reads and computed writes satisfy the cluster invariant |
| ClusterSafety.ExecutionSeesSerialReads | src/backend/storage_manager.cc:81-109 | a node about to execute the i-th transaction sees on all its keys the store after i serial transactions |
| ClusterSafety.EveryExecutionIsSerial | src/scheduler/deterministic_scheduler.cc:142-158 | in every run each execution, at each participant, reads the values of the serial execution |
| ClusterSafety.WriteIsSerial | src/backend/storage_manager.cc:313-320 | a write gives its record the value that the logic computes from what the transactions before have left in the records named, if it computes one; that is its value in the serial execution, and no other record changes |
| ClusterSafety.SerialStepComputes | src/scheduler/deterministic_scheduler.cc:118-120 | a step of the serial execution: the logic is given the values that the transactions before have left in exactly the records named, its values for records in the read-write set take effect, all other records stay as they are |
| ClusterSafety.SerialIsOneByOne | src/scheduler/deterministic_scheduler.cc:149-151 | a history of stores runs the order one transaction after another if and only if it is the serial execution |
| ClusterSafety.SerialEquivalence | src/scheduler/deterministic_scheduler.cc:527-540 | once all participants have written everything, for every interleaving of single reads and writes and every transaction logic, the store is what running the order one transaction after another ends with: `EndsWith` says of each transaction what it is given, what it replaces and what stays |
| ClusterProgress.DeadlockFreedom | src/scheduler/deterministic_scheduler.cc:534-543 | if read-only shards are alone, some step is possible until every transaction is released everywhere |
| ClusterProgress.UnfedShardNeverExecutes | src/backend/storage_manager.cc:98-110 | a shard that only reads, beside another participant, never executes in any run |
| ClusterProgress.Termination | src/scheduler/deterministic_scheduler.cc:368-543 | no run is longer than the finite number of events |
| ClusterProgress.StuckRunIsComplete | src/backend/storage_manager.cc:98-110 | a run that cannot continue has finished everything if and only if every read-only shard is alone |
| ClusterProgress.EveryRunCanFinish | src/scheduler/deterministic_scheduler.cc:368-543 | every run extends to one that releases everything, with the serial store and empty lock tables |
| MachineRuns.RunKeepsMachines | src/scheduler/deterministic_lock_manager.cc:27-76 | in mode 1, whatever order the copies of different origins are read in, each machine keeps queues, wait counts and ready list exact |
| MachineRuns.ReadyAlike | src/scheduler/deterministic_lock_manager.cc:30-32 | with one lock manager for all origins a copy is ready at a machine exactly when its transaction would be ready at a lock manager for that origin alone |
| MachineRuns.RunsAreClusterRuns | src/scheduler/deterministic_scheduler.cc:368-543 | every run of the machines of a replica in mode 1 is a run of the cluster with one node for each machine and origin, with the same effect on the records |
| ReplicaSerial.EveryShardReadsSerially | src/scheduler/deterministic_scheduler.cc:100-158 | in mode 1 every execution at every shard reads the values of the serial execution in the agreed order |
| ReplicaSerial.ReplicaIsSerial | src/scheduler/deterministic_scheduler.cc:527-540 | in mode 1, once all shards have written everything, the records are what running the agreed order one transaction after another ends with, each computing from what those before it have left |
| ReplicaSerial.StuckReplicaIsComplete | src/backend/storage_manager.cc:130-143 | in mode 1 machines that cannot go on have released everything everywhere if and only if every shard that only reads is alone |
| ReplicaSerial.EveryReplicaRunCanFinish | src/scheduler/deterministic_scheduler.cc:368-543 | every run of the machines extends to one that releases everything, with the records that running the agreed order one by one ends with, and empty lock tables |
| Batches.BatchReader.FindSequence | src/scheduler/deterministic_scheduler.cc:182-218 | takes up the current sequence if it has arrived, and loses no message while looking |
| Batches.BatchReader.ReceiveBatch | src/scheduler/deterministic_scheduler.cc:243-271 | drains the channel up to the wanted batch and keeps all other messages |
| Batches.BatchReader.GetBatch | src/scheduler/deterministic_scheduler.cc:181-273 | returns the next batch of the agreed order, with its contents, exactly if its sequence and its contents have arrived; otherwise nothing, and nothing is lost; the index CHECK holds |
| Batches.BatchReader.ReturnedIsPrefix | src/scheduler/deterministic_scheduler.cc:181-273 | what has been returned is a prefix of the concatenation of the sequences, whatever the arrivals and calls were |
| Batches.BatchReader.ReadAll | src/scheduler/deterministic_scheduler.cc:463-472 | once all messages of the first sequences have arrived, repeated calls return exactly the rest of their concatenation, wherever earlier calls left off |
| Projection.Partitions | src/machine/sequencer.cc:196-206 | collects exactly the partitions of the entries |
| Projection.AddToReaders | src/machine/sequencer.cc:223-226 | appends the transaction to the batch of every reader and to no other |
| Projection.SplitBatch | src/machine/sequencer.cc:189-227 | each node's part of a batch is the subsequence of the transactions it takes part in |
| Projection.NodeInputIsProjection | src/machine/sequencer.cc:189-234 | a node that reads all batches locks exactly the projection of the global order on itself |
| Paxos.PaxosLeader.ProposeSequence | src/log/paxos.cc:87-109 | takes the open sequence as the next version and sends it to every follower |
| PaxosSafety.AckCounts | src/log/paxos.cc:111-126 | reading an acknowledgement keeps the count at one more than the number of followers whose acknowledgement of this proposal was read, stale ones not counted |
| Paxos.PaxosLeader.CommitAndAppend | src/log/paxos.cc:139-149 | with more than half of the participants counted, logs the proposal and sends the commit to every follower |
| PaxosSafety.DeliverKeepsFollower | src/log/paxos.cc:173-206 | after each message a follower's log and queue are the first proposals of the leader, its unread messages continue them, its acknowledgements are consecutive, and a commit finds a queued proposal |
| PaxosSafety.VotesCounted | src/machine/sequencer.cc:244-268 | in every run the counter of a batch is the number of replicas that voted for it, kept exactly while some but not all have |
| PaxosSafety.FollowersArePrefixes | src/log/paxos.cc:73-208 | in every run every follower's log is a prefix of the leader's, whose versions are consecutive |
| PaxosSafety.CommittedIsHeldByMajority | src/log/paxos.cc:109-149 | in every run more than half of the participants, the leader among them, have a committed entry in the log or uncommitted queue |
| PaxosSafety.EveryMajorityHasLog | src/log/paxos.cc:109-149 | any set of more than half of the participants has one in it that has every committed entry, so any two committed entries are had together |
| PaxosSafety.CommitsAtMajority | src/log/paxos.cc:113-127 | a proposal can be committed exactly if the leader and the followers whose acknowledgement of it was read are more than half |
| PaxosSafety.CommitFindsItsProposal | src/log/paxos.cc:185-189 | a commit always finds exactly one uncommitted proposal, so the follower's CHECK never fails |
| PaxosSafety.LogNeverStuck | src/log/paxos.cc:81-152 | while something is open or proposed, some step is possible |
| PaxosSafety.LoggedIsReached | src/machine/sequencer.cc:244-268 | logged, proposed and open batches are together exactly the batches that reached the majority vote, in that order |
| PaxosSafety.ReachedOnce | src/machine/sequencer.cc:257-267 | no batch reaches the majority twice |
| Blocking.BlockKeepsInverse | src/scheduler/deterministic_scheduler.cc:496-507 | blocking a transaction keeps the two waiting indexes inverse if and only if nobody waits under its id for other records |
| Blocking.FetchKeepsInv | src/scheduler/deterministic_scheduler.cc:492-528 | fetching keeps the indexes inverse and a waiting transaction at the head of every non-empty queue, unless it blocks under a waiting id |
| Blocking.RemasterDoneKeepsInv | src/scheduler/deterministic_scheduler.cc:372-416 | waking keeps the same, and leaves nobody listed for what has happened |
| BlockingCopies.ReuseIsTheOnlyFault | src/scheduler/deterministic_scheduler.cc:496-507 | after any run without such reuse, fetching a copy keeps the indexes inverse if and only if it need not wait or no other copy waits; otherwise, whatever the order in which the waits of one of these copies complete, the run has a valid continuation by such completions that ends with that copy on no list |
| BlockingCopies.ForgottenForGood | src/scheduler/deterministic_scheduler.cc:382-408 | whatever follows, a waiting transaction on no list is never given to the lock manager |
| BlockingCopies.CopiesLoseWakeup | src/scheduler/deterministic_scheduler.cc:501-504 | two copies of one transaction: after both remasters the first still waits and is on no list |
| BlockingCopies.CopiesAreGivenEarly | src/scheduler/deterministic_scheduler.cc:385-404 | two copies of one transaction: the first is locked while it is listed for a remaster, whose completion reads the front of an empty queue |
| BlockingRuns.DoneStrikes | src/scheduler/deterministic_scheduler.cc:385-392 | a finished remaster is struck from everybody's waits and no other wait changes |
| BlockingRuns.GivenInFetchOrder | src/scheduler/deterministic_scheduler.cc:376-415 | in every run, ids reused or not, for each origin the calls to Lock followed by the blocking queue are the fetched transactions in order |
| BlockingRuns.NothingIsGivenEarly | src/scheduler/deterministic_scheduler.cc:496-525 | without reuse, nothing is given to the lock manager whose entries are ahead of storage |
| BlockingRuns.WakesAreDefined | src/scheduler/deterministic_scheduler.cc:394-403 | without reuse, waking never reads the front of an empty queue |
| BlockingRuns.GivenIsReachedPrefix | src/scheduler/deterministic_scheduler.cc:372-531 | once finished remasters are handled, what was locked for an origin is exactly the longest prefix of what was fetched that storage has caught up with |
| BlockingFates.SentOffAreBehind | src/scheduler/deterministic_scheduler.cc:507-514 | in every run the transactions sent off without locks are, in the order of their fetches, exactly those that were no remasters and, when fetched, named a local record that had been remastered since and none that was yet to be |
| BlockingFates.NoneIsLost | src/scheduler/deterministic_scheduler.cc:479-531 | in every run each fetch of an origin's transactions, remasters included, leaves it in exactly one place: with the lock manager, in the queue, or sent off without locks |
| BlockingScheduler.BlockingQueues.VerifyStorageCounters | src/scheduler/deterministic_scheduler.cc:280-318 | finds exactly the entries ahead of storage, and whether one is behind |
| BlockingScheduler.BlockingQueues.Fetch | src/scheduler/deterministic_scheduler.cc:492-528 | blocks, sends off without locks, queues or locks any fetched transaction as specified, sends it off exactly if storage has reached all its local entries and passed one, and keeps the invariant unless an id is reused |
| BlockingScheduler.BlockingQueues.PopFree | src/scheduler/deterministic_scheduler.cc:394-403 | pops exactly the longest prefix of the queue that waits for nothing |
| BlockingScheduler.BlockingQueues.WakeAll | src/scheduler/deterministic_scheduler.cc:382-408 | striking the waiters of a list in turn has the specified effect, whenever no empty queue's front would be read |
| BlockingScheduler.BlockingQueues.RemasterDone | src/scheduler/deterministic_scheduler.cc:372-416 | a finished remaster wakes and locks as specified, reused ids or not, whenever no empty queue's front would be read, and keeps the invariant where it holds |
| RemasterOrder.LockedInFetchOrderIff | src/scheduler/deterministic_scheduler.cc:492-528 | in every run, for each origin, remasters included, locks are requested in the order of the log if and only if no remaster was fetched while transactions of its origin waited |
| RemasterOrder.SameLogsDiverge | src/scheduler/deterministic_scheduler.cc:492-528 | two runs that fetch the same transactions in the same order and differ only in when a remaster completes: a transaction commits in one and not in the other |
| RemasteringSafety.OneHolder | src/scheduler/deterministic_lock_manager.h:46-52 | in mode 2 no two parts that have begun with locks and not been released conflict on a record |
| RemasteringSafety.VerdictIsGlobal | src/backend/storage_manager.cc:172-212 | a part that has heard all others commits exactly if every entry names what was read, also if another part was found doomed and read without locks |
| RemasteringSerial.EveryDecisionIsSerial | src/backend/storage_manager.cc:172-212 | in every run each part reads what its transaction reads when run in its turn, in the order in which the last parts began, and commits if and only if it commits there |
| RemasteringSerial.UnlockedNeverCommits | src/scheduler/deterministic_scheduler.cc:507-513 | a transaction sent off without locks at one node commits nowhere |
| RemasteringSerial.NothingWithoutPart | src/backend/storage_manager.cc:297-300 | in mode 2, while one part of a transaction has not begun no part of it decides, writes or is released |
| RemasteringSerial.WriteIsSerial | src/backend/storage_manager.cc:313-320 | in mode 2 a write of a committed transaction gives its record what the logic computes from the records named as the log before it leaves them, and changes no other record |
| RemasteringSerial.Serializable | src/scheduler/deterministic_scheduler.cc:368-543 | in mode 2, whatever order each machine requests its locks in, with aborts and remasters, once what has begun everywhere is done the records are what running the log one transaction after another ends with, where a transaction changes nothing unless every record it names has the master and counter named |
| RemasterCounters.CountersCountRemasters | src/applications/microbenchmark.cc:452-468 | if the logic moves masters and counters in remasters only, as the one cited does, then in every run in which what has begun everywhere is done each record's counter has grown by the number of its remasters that committed |
| RemasterCounters.StaleNeverCommits | src/scheduler/deterministic_scheduler.cc:309-313 | and once a part of a record's remaster has decided to commit, no part of a transaction behind it in the log commits that names the record with the remaster's counter or a lower one; so one remaster at most commits from each counter |
| RemasterCounters.SentOffMayBegin | src/scheduler/deterministic_scheduler.cc:507-513 | what the blocking queues send off without locks, going by the counters in storage, may begin without locks |
| RemasterProgress.RestIsComplete | src/backend/storage_manager.cc:98-110 | in mode 2, when what has begun can go on no further, a transaction all of whose parts have begun with locks has been released everywhere if and only if each part writes or is the only one |
| RemasterProgress.EveryRunComesToRest | src/scheduler/deterministic_scheduler.cc:100-158 | in mode 2 every run can go on to that point without another request or beginning |
| RemasterProgress.RestIsSerial | src/scheduler/deterministic_scheduler.cc:368-543 | and there the records are what running the log one transaction after another ends with, if each part in the log writes or is alone |
| LocalPaxos.LocalPaxosLeader.HandleNewSequence | src/log/local_paxos.cc:101-119 | queues every received sequence in order and acknowledges their version |
| LocalPaxos.LocalPaxosLeader.ReadNew | src/log/local_paxos.cc:129-135 | reads the rest of the local log for one replica, and the version of its last entry |
| LocalPaxos.LocalPaxosLeader.HandleAck | src/log/local_paxos.cc:122-153 | answers an acknowledgement with everything appended since, or notes that there is nothing |
| ReplicaOrder.BeginKeepsOwn | src/log/local_paxos.cc:218-242 | starting a round, local or remote, neither loses nor reorders a batch of the replica, and regenerates nothing yet |
| ReplicaSafety.BeginTaken | src/log/local_paxos.cc:231-237 | starting a round neither loses nor reorders what was taken from another replica |
| ReplicaRounds.LocalRoundWithinTen | src/log/local_paxos.cc:218-231 | in any part of a run with ten rounds of a leader that always has batches of its own, one round is for these and all others are for waiting remote sequences, while there are any |
| LocalPaxos.LocalPaxosLeader.RegenerateNext | src/log/local_paxos.cc:244-295 | makes a batch of copies, with this origin and marked as generated, from a batch of replica 0, unless it has nothing for this replica |
| LocalPaxos.ForwardMulti | src/machine/lowlatency_sequencer.cc:478-495 | forwards exactly the multi-replica transactions of a batch that involve the replica and are not marked as generated, in the order of the batch |
| LocalPaxos.LocalPaxosLeader.ReceiveMessage | src/log/local_paxos.cc:92-153 | stores a multi-replica batch, or queues and acknowledges sequences, or answers an acknowledgement |
| LocalPaxos.LocalPaxosLeader.ShipTo | src/log/local_paxos.cc:399-429 | sends each waiting replica exactly the entries it has not been sent |
| LocalPaxos.LocalPaxosLeader.CommitRound | src/log/local_paxos.cc:353-432 | appends the round to the logs and ships the local one, to everybody the first time and to those waiting afterwards |
| ReplicaSafety.ExactlyOneOutstanding | src/log/local_paxos.cc:101-153 | for each ordered pair of replicas, after the first local entry exactly one of shipment under way, acknowledgement under way and note in the to-do set holds, and what was taken with what is under way is the local log up to the reader |
| ReplicaSafety.GlobalLogHasLocalPrefixes | src/log/local_paxos.cc:353-432 | every replica's global log restricted to an origin is a prefix of that origin's local log |
| ReplicaSafety.QuietReplicaHasEverything | src/log/local_paxos.cc:101-153 | with nothing under way and nothing queued, it is the whole local log |
| ReplicaProgress.EveryRunSettles | src/log/local_paxos.cc:208-436 | every run can be continued without new client batches until nothing is open, queued, in a round or under way, and then every global log has every local log completely |
| ReplicaProgress.WorkIsBounded | src/log/local_paxos.cc:208-436 | however a run goes on without new client batches, the leaders take no more steps than the work that was left |
| ReplicaProgress.NoWorkIffSettled | src/log/local_paxos.cc:208-436 | everything has settled if and only if no leader can take a step and none waits for a multi-replica batch |
| ReplicaSafety.CommitNeverFails | src/log/local_paxos.cc:399-413 | a proposed round can always be committed, and the version shipped is never zero |
| ReplicaOrder.StepAppends | src/log/local_paxos.cc:84-90 | a step only appends to a replica's own batches and to those it has handled for replica 0 |
| ReplicaOrder.OrderIsPrefix | src/log/local_paxos.cc:242-297 | the batches regenerated for an origin, in any global log, stand for a prefix of those replica 0 logged that hold something to forward to the origin |
| TxnOrder.LoggedInBaseOrder | src/log/local_paxos.cc:263-279 | the multi-replica transactions of an origin in any global log are, in order, the first of those that replica 0 logged for it, without those marked as generated unless the origin is 0 |
| TxnCopies.CopiedIffNotGenerated | src/machine/lowlatency_sequencer.cc:478-495 | once all has settled, a multi-replica transaction that replica 0 has logged has its copies for the other replicas it involves in every global log if and only if it is not marked as generated |
| TxnCopies.GeneratedIsNotCopied | src/machine/lowlatency_sequencer.cc:484 | in no run does a transaction marked as generated get a copy |
| TxnCopies.AgainIsForwardedIff | src/backend/storage_manager.cc:218-276 | a transaction made again with several masters goes to replica 0 and is forwarded from there if and only if what aborted was not marked |
| TxnCopies.ResubmittedIsForwardedIff | src/backend/storage_manager.cc:214-276 | which is so exactly if the smallest shard has origin 0 and the original was not marked |
| TxnCopies.ResubmittedCopyIsLost | src/backend/storage_manager.cc:214-276 | a concrete transaction over two replicas whose smallest shard has origin 1: after its abort replica 1 gets no copy of the new one |
| TxnCopies.NeverReadyWithout | src/backend/storage_manager.cc:297-300 | while one shard of a transaction has not begun, no other becomes ready |
| TxnOrder.MultiReplicaOrderAgreement | src/log/local_paxos.cc:242-297 | any two global logs and any two origins agree on the order of any two multi-replica transactions, of different batches or of the same |
| ReplicaOrder.GlobalLogOrdersOnce | src/log/local_paxos.cc:300-361 | no global log names a batch twice |
| Merge.MergedProjects | src/log/local_paxos.cc:242-297 | orders of several origins that agree on the transactions they share can be put together to one order that has each of them as its projection |
| Merge.MergedDiffer | src/log/local_paxos.cc:242-297 | and in which nothing stands twice |
| Streams.StreamMeets | src/log/local_paxos.cc:263-279 | once all has settled, each origin has logged the transactions it shares with others in the order of replica 0 |
| Streams.StreamDiffers | src/log/local_paxos.cc:300-361 | and nothing that involves it twice |
| Convergence.ArrivalsAreRuns | src/scheduler/deterministic_scheduler.cc:181-273 | what the global log of any replica brings of an origin is what that origin has logged |
| Convergence.AgreedOrderIsLogged | src/log/local_paxos.cc:300-361 | the merged order has for each origin exactly what it has logged, in the order of its log |
| Convergence.MachinesAgree | src/machine/lowlatency_sequencer.cc:424-468 | in mode 1 every machine of every replica reads, of each origin, exactly the projection of the merged order on the shard it has for this origin |
| Convergence.ReplicasConverge | src/scheduler/deterministic_scheduler.cc:368-543 | in mode 1, for every run of the leaders that has settled and every run of the machines of every replica that cannot go on, everything is released and the records are what running the merged order one transaction after another ends with, the same at all replicas |
| EarlyRuns.EarlyExecutionsAreSerial | src/scheduler/deterministic_scheduler.cc:100-158 | in mode 1, also while logs still grow, each execution at each replica reads the values of the serial execution in the order of any continuation that settles |
| Stranded.NeverWithoutCopy | src/backend/storage_manager.cc:297-300 | in every run of the machines of a replica, without the copy for one of its shards a transaction is computed and released at none |
| ConvergenceLimits.GeneratedNeverRuns | src/machine/lowlatency_sequencer.cc:484 | a multi-replica transaction that is marked as generated when replica 0 logs it is computed and released at no shard, in no run, at no replica |
| ConvergenceLimits.MultisRunIffNoneGenerated | src/machine/lowlatency_sequencer.cc:478-495 | machines that cannot go on have released all multi-replica transactions that replica 0 has logged if and only if none of them is marked |
| Exchange.ReadyIffAllHeard | src/backend/storage_manager.cc:297-300 | with distinct keys, counting objects tells exactly whether the records of all shards are there |
| Exchange.AbsorbUnion | src/backend/storage_manager.cc:283-295 | absorbing a shard's results adds exactly that shard's records |
| Exchange.DecisionIsGlobal | src/backend/storage_manager.cc:172-212 | in spite of its three short cuts a shard that has heard all commits if and only if every entry matches the record |
| Exchange.CopyBehavesAlike | src/backend/storage_manager.cc:28-96 | the copies of a transaction differ in origin and mark only, and that changes nothing the shards compute |
| Exchange.ChosenIsInvolved | src/backend/storage_manager.cc:127-139 | the search for the smallest shard ends at an involved one if partitions are below its start value |
| Exchange.AgainMatches | src/backend/storage_manager.cc:218-251 | the new transaction has a new id and, entry by entry, the keys of the old one with the masters and counters that storage has, and is the old one in everything else; it involves exactly those masters, and goes to the only one or to replica 0 |
| Exchange.BegunKnows | src/backend/storage_manager.cc:28-139 | a shard that has begun knows exactly the records that its partition stores and, but for the original mode, its origin masters, will tell exactly the other shards that write, notes exactly the shards involved, and finds a mismatch exactly if one of its records has another master or counter than named |
| StorageManager.ShardManager.constructor | src/backend/storage_manager.cc:7-165 | reads exactly the local records, notes local mismatches and involved shards, and tells exactly the other writers, in all three modes |
| StorageManager.ShardManager.FindMin | src/backend/storage_manager.cc:127-139 | finds the lexicographically smallest involved shard |
| StorageManager.ShardManager.HandleReadResult | src/backend/storage_manager.cc:283-295 | absorbs the received records in order |
| StorageManager.ShardManager.ReadyToExecute | src/backend/storage_manager.cc:297-300 | with distinct keys, a shard that has the records of some shards is ready exactly if these are all |
| StorageManager.ShardManager.CheckCommitOrAbort | src/backend/storage_manager.cc:172-280 | decides as specified, sets the status, and makes the new transaction exactly if this is the shard and replica to do so: the old one but for its id and, entry by entry, the masters and counters read |
| StorageManager.ShardManager.UpdateEntries | src/backend/storage_manager.cc:227-247 | brings every entry up to the record read and collects their masters |
| ExchangeRuns.ReadyWhenAllReported | src/backend/storage_manager.cc:297-300 | in every delivery order a shard is ready exactly when every other shard has begun and its results have arrived |
| ExchangeRuns.NoMessageComesLate | src/scheduler/deterministic_scheduler.cc:100-108 | a read result always finds its shard still waiting |
| ExchangeRuns.ShardsAgree | src/backend/storage_manager.cc:172-212 | all ready shards hold the same records and take the same decision, which is whether every entry matches |
| ExchangeRuns.AllReadyIffAllWrite | src/backend/storage_manager.cc:98-110 | when all messages have arrived all shards are ready if and only if each writes or there is only one |
| ExchangeRuns.ResubmitsIf | src/backend/storage_manager.cc:214-215 | a ready shard resubmits if and only if the transaction aborts and it is the smallest shard, at its own replica |
| ExchangeRuns.AtMostOneResubmits | src/backend/storage_manager.cc:214-277 | over all replicas and shards at most one resubmits, even if the replicas read different records |
| ExchangeRuns.OneResubmits | src/backend/storage_manager.cc:214-277 | the smallest shard at its own replica does, if and only if the transaction aborts there |
| MasterLookup.OwnersAreAsked | src/machine/lowlatency_sequencer.cc:264-283 | each record of another machine is asked of its owner, and nothing else is asked |
| MasterLookup.LookupTable.NewTxn | src/machine/lowlatency_sequencer.cc:249-338 | gives each entry stored here its master and counter in storage and changes nothing else in the transaction, counts the entries still missing, and waits or routes |
| MasterLookup.LookupTable.HandleReply | src/machine/lowlatency_sequencer.cc:160-229 | gives each entry that is answered the master and counter answered and changes nothing else in the transaction, counts down by the entries settled, and waits or routes |
| LookupRuns.SettledInv | src/machine/lowlatency_sequencer.cc:194-229 | a transaction waits exactly while a machine asked has not replied; then it leaves the table and is routed once, with what is known, to where its masters require |
| MasterLookup.HandledAlikeEverywhere | src/machine/lowlatency_sequencer.cc:208-224 | wherever a transaction arrives the same replica handles it: that of its only master, or replica 0 |
| MasterLookup.ResubmittedLikeNew | src/backend/storage_manager.cc:260-276 | an aborted transaction is sent to the replica the sequencer would choose for it |
| LookupRuns.CompleteIffAllReplied | src/machine/lowlatency_sequencer.cc:194-229 | no entry is missing exactly when every machine asked has replied |
| LookupRuns.NoReplyIsLost | src/machine/lowlatency_sequencer.cc:160-164 | every reply finds its transaction waiting, so the CHECK holds and the count cannot wrap around |
| LookupRuns.PendingCountIsExact | src/machine/lowlatency_sequencer.cc:164-229 | in every arrival order the pending count is the positive number of unresolved entries, and nothing was routed yet |
| LookupRuns.RoutedExactlyOnce | src/machine/lowlatency_sequencer.cc:194-226 | a transaction lacking no reply was routed once, with exactly the masters in its entries as involved replicas; what its entries say is the subject of `RoutedWithOwnersAnswers` |
| LookupRuns.RoutedWithOwnersAnswers | src/machine/lowlatency_sequencer.cc:160-226 | once every owner of its records has replied, in whatever order, a transaction that arrived has been routed exactly once, the same entry by entry but for the master and counter that the key's owner told in the run, and to where those masters require |
| AtomicQueue.AtomicQueue.Size | src/common/utils.h:93-96 | in 32-bit arithmetic the offsets give the number of elements |
| AtomicQueue.AtomicQueue.Push | src/common/utils.h:104-122 | appends, growing a full buffer, and reports the one case in which the 32-bit size cannot be doubled |
| AtomicQueue.AtomicQueue.Resize | src/common/utils.h:107-118 | doubles the buffer and keeps the contents |
| AtomicQueue.DoublingFits | src/common/utils.h:111-117 | the 32-bit size doubles correctly if and only if it is below 2^31, where the doubled size would be zero |
| AtomicQueue.AtomicQueue.Pop | src/common/utils.h:127-135 | removes and returns the oldest element, or reports emptiness exactly |
| AtomicQueue.AtomicQueue.Front | src/common/utils.h:139-146 | returns the oldest element and changes nothing |
| ConcurrentQueue.StepKeepsInv | src/common/utils.h:104-135 | every micro-step of a pusher and a popper keeps offsets in range and the records of pushed and popped items consistent with the contents |
| ConcurrentQueue.ReportsAreTrue | src/common/utils.h:127-146 | a value is reported only if it is the oldest element at that moment, emptiness only of an empty queue |
| ConcurrentQueue.FifoUnderConcurrency | src/common/utils.h:104-135 | under every interleaving popped items, contents and the item being pushed are the items handed to Push, in order |
| MemLog.FirstAtLeastIsFirst | src/log/log.h:53-57 | the position a seek promises is the first with a version at or above the target |
| MemLog.LandsAsPromised | src/log/log.h:53-57 | for increasing versions, where the reader stops is where the interface promises if and only if the target is not below the first version |
| MemLog.SeekBelowFirstVersionFails | src/log/local_mem_log.cc:159-161 | a concrete log and target for which the final CHECK fails |
| MemLog.LocalMemLog.Append | src/log/local_mem_log.cc:55-70 | appends exactly if no earlier version is higher, repeated versions included, reallocating a full array without loss |
| MemLog.LocalMemLog.LastVersion | src/log/log.h:24-26 | the highest version, or 0 for an empty log |
| MemLog.LogReader.Next | src/log/local_mem_log.cc:94-112 | advances to the next entry if there is one |
| MemLog.LogReader.ReadNew | src/log/local_paxos.cc:129-135 | yields every entry appended since the last visit, once and in order |
| MemLog.LogReader.Search | src/log/local_mem_log.cc:120-165 | the binary search terminates at the first version at or above the target, or at an entry with just that version, or below the first version in its last CHECK |
| MemLog.LogReader.Seek | src/log/local_mem_log.cc:114-166 | for increasing versions keeps the promise if and only if the target is not below the first version, and leaves the reader as it was exactly if the target exceeds the last version |
| MemLog.AppendKeepsReader | src/log/log.h:33-36 | a reader stays valid and where it was when entries are appended |

## Left out

- Transactions are values: two that the code would compare by address are compared by value, and the wait flag and status the code writes into a transaction are kept beside it.
- The hash function is an arbitrary function to the table size, and key placement an arbitrary total function; locking never depends on either.
- LockManager.DeterministicLockManager.ReleaseKey: requires that the key has a queue, because the code dereferences an end iterator otherwise; the run theorems show that the scheduler never gets there.
- The stores of the nodes of a replica are one map, since they are disjoint, and a worker may take any ready transaction, not only the first. What a node computes is one step, a function of what it sees; reading and writing records are steps of their own.
- Writing through `PutObject`, which tests only the partition of a record and not its origin: the shipped workloads write through the record they have read, and so do the models.
- Convergence.ReplicasConverge: assumes of mode 1 that masters never change and that transactions name the right ones, as the sequencer of that mode does.
- RemasteringSerial.Serializable: speaks of one replica at a time, since replicas can diverge in mode 2; as locks may be requested in any order there, a transaction may wait for a lock for good; that what has begun everywhere comes to its end is `RemasterProgress`. A part reads all its records in one step, as the constructor does while it holds their locks.
- RemasterCounters.CountersCountRemasters: what the logic does to masters and counters is assumed; that a record is marked while it is being remastered and that accesses are counted is not modelled.
- RemasterOrder.SameLogsDiverge: conflicting transactions run one after the other in the order of their requests for locks, which is what the lock manager results say.
- Blocking.FetchKeepsInv: excludes blocking under an id that already waits; what happens then is the subject of `BlockingCopies`.
- BlockingRuns.NothingIsGivenEarly: is about runs without such reuse, as are `WakesAreDefined` and `GivenIsReachedPrefix`.
- In mode 2 the release of a transaction that was marked as doomed and also had to wait: the code locks it and then skips the release (`src/scheduler/deterministic_scheduler.cc:419`).
- Exchange.DecisionIsGlobal: assumes that records do not change between being read and the decision, which locks guarantee for locked transactions only, and that a transaction is marked as doomed only if a local entry is behind storage.
- BlockingRuns.GivenIsReachedPrefix: is about runs in which no transaction blocks under a waiting id; `BlockingCopies` shows that this is exactly what has to be excluded.
- BlockingScheduler.BlockingQueues.RemasterDone: requires that no empty queue's front is read, where the code's behaviour is undefined, and that no list is empty, which all operations keep.
- ReplicaLogs does not show the acknowledgement rounds inside a replica again; a round is committed in one step, and `PaxosSafety` treats the majority.
- TxnOrder.MultiReplicaOrderAgreement: assumes that batch and transaction ids are never given out twice, and that multi-replica transactions are routed to replica 0, as `MasterLookup.HandledAlikeEverywhere` shows they are.
- LocalPaxos.LocalPaxosLeader.ReadNew: reads a log that is a sequence, by position; that a reader over the array gives the same is `MemLog.LogReader.ReadNew`.
- ConcurrentQueue.FifoUnderConcurrency: assumes sequentially consistent memory; a resize holds both locks and is one step; `Size` and `Empty` of a concurrent queue are not modelled.
- AtomicQueue.AtomicQueue.Push: reports failure for a full queue of 2^31 slots; there the code resizes to zero and writes out of range.
- The follower of the geo-replicated log and its stronger variant (`RunFollower`, `RunLeaderStrong`): their messages do not fit together in the code.
- Missing records: every key named by a transaction exists in storage.
- `Reset` of a log reader, which puts it before the first entry, and the sequencer's test that sends no batch for an epoch without transactions.
- Transactions marked as fake, which stand in replica 0's log for transactions that do not involve it: its schedulers are not sent them, as here they are not sent what does not concern them.
- ZeroMQ connections, message encoding, threads, clocks, latency reports and random choices of machines; channels are queues or sets of messages in transit, and message order is assumed only between a Paxos leader and its followers.
- Workload generators and transaction logic beyond an arbitrary function of the records read.
