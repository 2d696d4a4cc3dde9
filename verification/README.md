# Verified models of Raft, the versioned key/value store, shard balancing and MapReduce

This project models the distributed-systems code of the repository in Dafny and proves what it is
for. `dafny verify dfyconfig.toml` checks all of it. There are four parts.

**Raft** (`src/raft1/raft.go`). `RaftServer` is the Raft object with its fields updated in place;
every method is proved to do exactly what the matching function of `RaftNode` does to a value, and
`Valid` says that after every method the stable store decodes to the fields in memory. `RaftSystem`
is a cluster of such peers over a network that loses, delays, reorders and (for AppendEntries)
repeats messages; one step is one lock-held section of the source, a crash and restart, a snapshot
taken by the service, or a batch handed to it. The safety proof has two layers.
`RaftLedger`, `RaftProtocol`, `RaftElection` and `RaftReplication` prove the protocol over whole logs
with a history of elections, votes and acceptances. `RaftCompaction`, `RaftSimulation`, `RaftSteps`
and `RaftVoteSteps` prove that every step of the cluster, with its compacted logs, bare vote counters
and hint-based back-up, is a short sequence of protocol actions. `RaftSafety`, `RaftQuorum`,
`RaftClusterSize`, `RaftBackUp`, `RaftApplier` and `RaftDelivery` state the results over all runs;
`RaftTwoRounds` and `RaftCrashRun` construct runs in which the code fails.

**Key/value server, clerk and lock** (`src/kvsrv1`). `KvServer` is the server object and the
sequential specification of `src/models1/kv.go`. `KvHistory` is any number of clerks retrying over a
lossy network, with linearizability and at-most-once results. `KvClerk` has the retry loops
themselves, proved to be runs of that system. `LockProtocol` is any number of lock clients at once,
`KvLock` the lock object, and `KvLockRun` proves that Acquire and Release among other clients are runs
of the protocol.

**Shard balancing** (`src/shardkv1/shardcfg`). `ShardConfig` is the configuration object with the
in-place Rebalance; `ShardBalance` has its termination, balance and minimal movement.

**MapReduce** (`src/mr`, `src/main/mrsequential.go`). `MapReduce` has the data path of both programs,
`MrCoordinator` the coordinator object, and `MrSystem` whole jobs with slow, failing and repeated
workers, ending in the theorem that a finished job holds what the sequential program writes.

## Where the code does not meet its promise

- Election Safety holds of all runs exactly in clusters of at most three peers: `ElectionSafetyBySize`.
  The goroutine of `startElection` reads the current term again when it gets the lock, so several
  timeouts before it runs open several rounds in one term, and votes are counted in a bare integer. Up to
  three peers one granted answer is a majority of distinct voters; from four on,
  `ElectionSafetyNeedsOneRound` builds a run with two leaders in one term. For larger clusters, and for
  the other safety theorems in any cluster, the runs considered are those in which no peer opens two
  rounds in one term.
- A Put answered ErrNoKey is not admitted by the sequential specification in any state.
  `ExplainedIffNeverPutNowhere`: the answers of a run have a linearization exactly when no Put with a
  non-zero version was executed, and answered, while its key was absent.
- InstallSnapshot keeps the tail of the log without comparing terms. `InstallFollowsFigure13`: the
  result is that of Figure 13 of the Raft paper exactly when the tail is empty or the terms agree.
- AppendEntries slices at a negative index, a run-time panic, under the exact condition of
  `CrashesExactlyWhen`; `CrashReached` is a run that gets there. Runs of the cluster include that panic
  as a crash.
- A newer snapshot received while the applier hands over an older one, the only time it lets go of the
  lock in a pass, makes the service miss indexes: `GapNeedsQuiet`. The batch is then free of gaps exactly
  when the snapshot is not ahead of the applied position: `BatchHasNoGap`. Otherwise delivery is in
  order: `DeliversInOrder`.

## Model

| member | source | states |
|---|---|---|
| `RaftServer.Raft.constructor` | src/raft1/raft.go:1101-1144 | a peer restarts as a follower with exactly the stored term, vote, log and snapshot position, applied and committed through the snapshot |
| `RaftServer.Reboot` | src/raft1/raft.go:1101-1144 | a peer killed at any point and made anew from its store has the same term, vote, log and snapshot position |
| `RaftServer.Raft.ReadPersist` | src/raft1/raft.go:155-197 | decoding an empty store changes nothing; otherwise the five stored fields are restored and the applied and commit positions raised to the snapshot |
| `RaftServer.Raft.Persist` | src/raft1/raft.go:126-152 | the store decodes to the fields in memory and the snapshot is kept |
| `RaftServer.Raft.ElectionTimeout` | src/raft1/raft.go:674-696 | once the timeout has elapsed, a peer of any role becomes a candidate of the next term that has voted for itself, written through to the store |
| `RaftServer.Raft.StartElection` | src/raft1/raft.go:699-722 | a round counts one vote and asks with the present term and last entry, whatever term the timeout was in |
| `RaftServer.Raft.RequestVote` | src/raft1/raft.go:323-379 | a vote is granted exactly when the term is not old, no other vote was cast in it and the candidate's log is at least as up to date; the reply carries the term read first; write-through |
| `RaftServer.Raft.HandleVoteReply` | src/raft1/raft.go:732-766 | stale replies change nothing, a newer term steps down, a granted vote counts and a majority makes a leader |
| `RaftServer.Raft.InitializeLeaderState` | src/raft1/raft.go:772-785 | a new leader starts every peer at its last index plus one with nothing matched |
| `RaftServer.Raft.Start` | src/raft1/raft.go:612-645 | only a leader appends, at the returned index and term, written through |
| `RaftServer.Raft.BuildAppend` | src/raft1/raft.go:862-887 | the request is the stretch of the leader's log from nextIndex on |
| `RaftServer.Raft.HandleAppendReply` | src/raft1/raft.go:901-963 | stale replies change nothing; success moves nextIndex, matchIndex and commitment; rejection backs nextIndex up |
| `RaftServer.Raft.BackUpIndex` | src/raft1/raft.go:931-958 | the next index after a rejection: after the leader's last entry of the conflicting term, else the hint, never below 1 |
| `RaftServer.Raft.TryCommit` | src/raft1/raft.go:966-988 | commitment moves to the greatest index of the current term held by a majority, or stays |
| `RaftServer.Raft.CountHolders` | src/raft1/raft.go:974-980 | number of peers, the leader included, whose matchIndex reaches the index |
| `RaftServer.Raft.ConflictStart` | src/raft1/raft.go:435-440 | first index of the run of equal terms that ends at prevLogIndex, not followed below the snapshot |
| `RaftServer.Raft.CheckConsistency` | src/raft1/raft.go:410-445 | accepted exactly when the log holds the entry before the offered ones; otherwise the conflict hint |
| `RaftServer.Raft.CountMatching` | src/raft1/raft.go:454-462 | how many offered entries the log already has by term, wherever the request starts |
| `RaftServer.Raft.MergeEntries` | src/raft1/raft.go:448-469 | the log is cut at the first conflict only, then extended, and written through; or the slice panics, exactly when the conflict is below the stored part |
| `RaftServer.Raft.AppendEntries` | src/raft1/raft.go:382-488 | the whole handler: old terms refused, term adopted, conflict hint, merge, commit clamp, or the panic on a negative slice; write-through in every case |
| `RaftServer.Raft.Hear` | src/raft1/raft.go:393-407 | a request of a current term makes the peer a follower of that term |
| `RaftServer.Raft.SeeTerm` | src/raft1/raft.go:398-404 | a newer term clears the vote and steps down, written through |
| `RaftServer.Raft.Snapshot` | src/raft1/raft.go:210-261 | everything through the index is replaced by a placeholder of its term and saved with the snapshot; an old or unknown index changes nothing |
| `RaftServer.Raft.InstallSnapshot` | src/raft1/raft.go:491-554 | an older snapshot changes nothing but the term; a newer one replaces the log's beginning and raises the commit index, saved together |
| `RaftServer.Raft.InstalledLog` | src/raft1/raft.go:518-529 | a placeholder of the snapshot's term followed by whatever the log held beyond it |
| `RaftServer.Raft.ApplySnapshot` | src/raft1/raft.go:1031-1050 | a snapshot, with the bytes of the store, is handed over exactly when the applied position is behind it |
| `RaftServer.Raft.ApplyBatch` | src/raft1/raft.go:1052-1082 | the rest of the pass hands over the commands of the batch and marks it applied |
| `RaftServer.Raft.CollectBatch` | src/raft1/raft.go:1052-1074 | the commands from the applied position to the commit index, skipping what is inside the snapshot or nil |
| `RaftNode.CommitTarget` | src/raft1/raft.go:966-988 | greatest committable index above the commit index, none above it committable |
| `RaftNode.LastPosition` | src/raft1/raft.go:937-944 | last position of a term in the log, none after it |
| `RaftNode.RunStart` | src/raft1/raft.go:435-440 | all terms from the found index on are equal and the one before differs or is the snapshot |
| `RaftLog.MatchMeaning` | src/raft1/raft.go:454-462 | the match length is exactly where terms first differ or one side ends |
| `RaftLedger.QuorumsMeet` | src/raft1/raft.go:756-760 | two majorities share a peer |
| `RaftLedger.EqualTermsAgree` | src/raft1/raft.go:410-469 | two logs drawn from the leaders' logs that have the same term at an index agree through it |
| `RaftLedger.OneBlock` | src/raft1/raft.go:612-641 | two logs that have one term, at whatever indexes, agree through the lower of the two |
| `RaftLedger.LeaderCompleteness` | src/raft1/raft.go:345-371 | by induction on terms: every later leader starts with all that an earlier term committed |
| `RaftLedger.BackedAgree` | src/raft1/raft.go:966-988 | what any two terms committed never disagrees |
| `RaftElection.FirstToWin` | src/raft1/raft.go:323-379 | a candidate with a majority of distinct voters is the first to win its term |
| `RaftElection.CastVote` | src/raft1/raft.go:355-371 | granting a vote keeps the protocol's invariant |
| `RaftElection.Win` | src/raft1/raft.go:752-764 | a majority of distinct voters makes a leader and keeps the invariant |
| `RaftReplication.Append` | src/raft1/raft.go:612-641 | a leader's own append keeps the invariant and extends its one log of the term |
| `RaftReplication.MergeMeaning` | src/raft1/raft.go:448-469 | merging a stretch of a leader's log yields the old log or a prefix of the leader's, agrees with it through the stretch and loses no earlier agreement |
| `RaftReplication.CommitAgrees` | src/raft1/raft.go:476-485 | a peer in a leader's term agrees with that leader through its own commit index |
| `RaftReplication.AcceptorCommit` | src/raft1/raft.go:448-485 | accepting never cuts at or below the commit index, and the new commit index is justified |
| `RaftReplication.Accept` | src/raft1/raft.go:382-488 | accepting a request keeps the invariant and records the acceptance |
| `RaftProtocol.Commit` | src/raft1/raft.go:966-988 | committing an entry of the leader's term held by a majority keeps the invariant |
| `RaftCompaction.SameIndexes` | src/raft1/raft.go:92-117 | a compacted log has the last index, last term and every later term of the whole log |
| `RaftCompaction.MergeSuffix` | src/raft1/raft.go:448-469 | accepting entries commutes with compaction |
| `RaftCompaction.SnapshotCompacts` | src/raft1/raft.go:210-246 | a snapshot changes the representation only |
| `RaftCompaction.Verdict` | src/raft1/raft.go:410-445 | for a request not reaching below the snapshot the whole log decides whether it is accepted |
| `RaftCompaction.CrashesExactlyWhen` | src/raft1/raft.go:448-462 | the panic occurs exactly for a request of a current term from the very beginning that conflicts at an index below the snapshot |
| `RaftCompaction.LeaderRequestCrashes` | src/raft1/raft.go:448-462 | for requests that leaders send: exactly from index 0, with entries, when the snapshot covers index 2 or more |
| `RaftCrashRun.CrashReached` | src/raft1/raft.go:448-462 | a run of two peers in which a delayed heartbeat reaches that panic |
| `RaftCompaction.CompactionRefines` | src/raft1/raft.go:92-473 | any mix of snapshots, commands and requests not reaching below the snapshot gives the same answers and the same whole log as without snapshots |
| `RaftSteps.SentOk` | src/raft1/raft.go:862-887 | every request built is a stretch of the leader's log reaching its own announced commitment, or one no peer accepts |
| `RaftSteps.CommittableQuorum` | src/raft1/raft.go:966-988 | the commit count is a genuine replication majority |
| `RaftSteps.ClampIdle` | src/raft1/raft.go:475-485 | after merging, the announced commitment lies within the merged log, so the clamp never commits an unmatched entry |
| `RaftSteps.MessageEntry` | src/raft1/raft.go:1052-1074 | every message of a batch is the command at its index |
| `RaftVoteSteps.NewVoter` | src/raft1/raft.go:748-760 | a counted answer comes from a voter not counted before |
| `RaftSafety.Simulate` | src/raft1/raft.go:323-988 | every step of the cluster is matched by protocol actions |
| `RaftSafety.ElectionSafety` | src/raft1/raft.go:323-379 | over all runs without two vote rounds in one term, of any cluster size, at any two moments, at most one peer is leader of a term |
| `RaftClusterSize.SmallClusterElectionSafety` | src/raft1/raft.go:323-379 | with at most three peers, over all runs whatever rounds are opened, at most one peer is leader of a term |
| `RaftTwoRounds.ElectionSafetyNeedsOneRound` | src/raft1/raft.go:674-769 | in every cluster of four or more peers: a run in which two peers lead one term |
| `RaftClusterSize.ElectionSafetyBySize` | src/raft1/raft.go:748-760 | Election Safety holds of all runs of n peers exactly when n is at most three |
| `RaftSafety.LogMatching` | src/raft1/raft.go:410-469 | logs that have one term, at x in one and y in the other, at any two moments, agree at every index up to the lower of the two, so a term's entries are one block |
| `RaftSafety.LeaderHasBlock` | src/raft1/raft.go:612-641 | every entry of a term, in any log at any moment, is within the log of that term's leader at any later moment it leads, and is the same entry there if still stored |
| `RaftSafety.LeaderHasCommitted` | src/raft1/raft.go:966-988 | what a peer knows committed, every leader of its term or a later one holds from then on |
| `RaftSafety.LaterLeaderHadCommitted` | src/raft1/raft.go:345-371 | a leader of a strictly later term held it even earlier |
| `RaftSafety.StateMachineSafety` | src/raft1/raft.go:448-485 | no two peers, at any two moments, know different entries committed at one index |
| `RaftSafety.ServicesAgree` | src/raft1/raft.go:1029-1090 | all services, over all restarts, are handed the same command at each index by the applier's batches |
| `RaftSafety.CommitClamp` | src/raft1/raft.go:862-887 | every request ever sent reaches at least as far as the commitment it announces |
| `RaftSafety.MatchIndexSound` | src/raft1/raft.go:901-930 | while a follower is in the leader's term, matchIndex is an index through which they agree |
| `RaftQuorum.MatchIndexHeld` | src/raft1/raft.go:901-930 | a positive matchIndex records a moment at which that peer, in the leader's term, held the leader's log through it, wherever the peer is now |
| `RaftQuorum.CommitHasQuorum` | src/raft1/raft.go:966-988 | when a leader's commit index rises, a majority of the peers has had such a moment for the new index |
| `RaftSafety.NeverCutsCommitted` | src/raft1/raft.go:448-485 | no step cuts a log at or below the commit index or changes an entry there |
| `RaftSafety.TermAndVoteKept` | src/raft1/raft.go:126-197 | through restarts a peer's term never falls and it never votes for two candidates in one term |
| `RaftBackUp.ConflictLiesBefore` | src/raft1/raft.go:931-958 | the leader's entries of the conflicting term all lie before the point of conflict |
| `RaftBackUp.RejectionAnswer` | src/raft1/raft.go:420-444 | a rejected request gets the conflict hint, which lowers nextIndex but not below 1, or points right after the follower's snapshot |
| `RaftBackUp.AfterSnapshotFits` | src/raft1/raft.go:410-445 | a request that starts right after the follower's snapshot is not rejected |
| `RaftBackUp.Rejections` | src/raft1/raft.go:931-958 | in all fewer rejections in a row than nextIndex before a request is accepted or a snapshot is needed |
| `RaftBackUp.BackUpProgress` | src/raft1/raft.go:931-958 | in every reachable state a rejection strictly lowers nextIndex, keeping it positive, or sets it right after the follower's snapshot; a request from index 0 is never rejected for mismatch; fewer rejections than nextIndex follow one another |
| `RaftApplier.InstallFollowsFigure13` | src/raft1/raft.go:518-529 | installing a snapshot follows Figure 13 exactly when the tail is empty or the terms agree |
| `RaftApplier.InstallCanUnsortTerms` | src/raft1/raft.go:518-529 | a concrete install after which terms fall along the log |
| `RaftApplier.InstallKeepsReach` | src/raft1/raft.go:491-554 | the last index never shrinks, the placeholder has the snapshot's term, later entries and the applied position stay |
| `RaftApplier.BatchHasNoGap` | src/raft1/raft.go:1052-1082 | a batch is one message per index exactly when the snapshot is not ahead of the applied position |
| `RaftApplier.HandlerKeeps` | src/raft1/raft.go:323-988 | every handler, InstallSnapshot included, leaves the applied position alone and only advances commitment and snapshot, with a command at every committed index past the snapshot |
| `RaftApplier.DeliversInOrder` | src/raft1/raft.go:1029-1090 | over a whole run of the applier among all handlers of its peer, each message is the next command or a snapshot ahead, with no gap, repeat or step back |
| `RaftApplier.GapNeedsQuiet` | src/raft1/raft.go:1036-1050 | a newer snapshot received while one is handed over makes the service miss indexes |
| `RaftDelivery.ReachableSane` | src/raft1/raft.go:1052-1082 | in every run with non-nil commands the commit index lies in the log, with a command at every index past the snapshot |
| `RaftDelivery.StepsAreHandlers` | src/raft1/raft.go:323-988 | every step of every run is, at a peer it neither restarts nor applies for, a handler that the applier allows |
| `KvServer.KVServer.constructor` | src/kvsrv1/server.go:29-35 | a fresh server is empty |
| `KvServer.KVServer.Get` | src/kvsrv1/server.go:39-55 | value and version of the key, or ErrNoKey |
| `KvServer.KVServer.Put` | src/kvsrv1/server.go:61-91 | conditional on the version: OK and one more version, ErrVersion, or ErrNoKey, with nothing else changed |
| `KvServer.PutRefinesModel` | src/models1/kv.go:49-67 | key by key the server does what the specification does; OK exactly on the current version, ErrNoKey exactly on an absent key with a non-zero version |
| `KvServer.NoKeyNotAdmitted` | src/models1/kv.go:49-67 | no state of the specification admits a Put answered ErrNoKey |
| `KvHistory.Linearizability` | src/kvsrv1/client.go:30-104 | every history of every run is linearizable: distinct calls with their answers, in real-time order, each key a run of the specification, ending in the server's contents, and covering every answered call but Puts answered ErrNoKey |
| `KvHistory.RealTimeOrder` | src/kvsrv1/client.go:30-104 | a call whose Return step precedes another's Invoke step comes first in the linearization |
| `KvHistory.AtMostOnce` | src/kvsrv1/client.go:67-104 | OK means exactly one effect, ErrVersion and ErrNoKey none, ErrMaybe at most one |
| `KvHistory.VersionCounts` | src/kvsrv1/client.go:67-104 | a key's version lies between the number of Puts answered OK and that plus those answered ErrMaybe or not yet |
| `KvHistory.NoKeyExactlyWhen` | src/kvsrv1/server.go:61-91 | a Put is answered ErrNoKey exactly when an attempt with a non-zero version is executed, and answered, while its key is absent |
| `KvHistory.ExplainedIffNeverPutNowhere` | src/models1/kv.go:49-67 | the answers of a run have a linearization in the specification exactly when no such attempt was made |
| `KvHistory.NoKeyOccurs` | src/kvsrv1/server.go:61-91 | a run in which a Put is answered ErrNoKey |
| `KvClerk.Clerk.Get` | src/kvsrv1/client.go:30-48 | the loop retries until a reply arrives and returns that reply |
| `KvClerk.Clerk.Put` | src/kvsrv1/client.go:67-104 | the loop's effect on the server and its answer under any schedule of losses and other clerks' Puts |
| `KvClerk.GetMeaning` | src/kvsrv1/client.go:30-48 | an answer is the server's contents at the moment of the reply |
| `KvClerk.PutMeaning` | src/kvsrv1/client.go:67-104 | what each answer tells about the number of effects and the key's state, whatever happens in between |
| `KvClerk.PutAlone` | src/kvsrv1/client.go:67-104 | with nobody else at the key, an answered Put at the current version has happened exactly once |
| `KvClerk.PutIsARun` | src/kvsrv1/client.go:67-104 | the loop is a run of the concurrent system with the same store, answer and effects |
| `KvClerk.GetIsARun` | src/kvsrv1/client.go:30-48 | the same for Get |
| `LockProtocol.EffectiveOn` | src/kvsrv1/lock/lock.go:37-84 | a lock Put takes effect only on a lock that is free or the client's own |
| `LockProtocol.MutualExclusion` | src/kvsrv1/lock/lock.go:37-84 | at most one client is between Acquire's return and Release's call, even if clients call Release without holding the lock |
| `LockProtocol.HolderIsCurrent` | src/kvsrv1/lock/lock.go:37-74 | a holder's identity and recorded version are the server's |
| `LockProtocol.ReleaseTakesEffectOnce` | src/kvsrv1/lock/lock.go:76-84 | a holder's Release returns only after its Put freed the lock, exactly once, whatever the clerk reports |
| `LockProtocol.StaleReleaseHarmless` | src/kvsrv1/lock/lock.go:76-84 | a Release by a client that does not hold the lock changes nothing once anyone has taken it |
| `LockProtocol.FreeBetweenOwners` | src/kvsrv1/lock/lock.go:37-84 | the lock is free between any two owners |
| `KvLock.Lock.constructor` | src/kvsrv1/lock/lock.go:25-35 | MakeLock's only effect on the server is its Put of the empty value at version 0 |
| `KvLock.Lock.Acquire` | src/kvsrv1/lock/lock.go:37-74 | the loop's decisions, its effect on the server and the version it records |
| `KvLock.Lock.Release` | src/kvsrv1/lock/lock.go:76-84 | one Put of the empty value at the recorded version |
| `KvLock.AcquireMeaning` | src/kvsrv1/lock/lock.go:37-74 | the moment Acquire returns the server holds the client's identity at the recorded version, whatever others put |
| `KvLock.ReleaseMeaning` | src/kvsrv1/lock/lock.go:76-84 | when a holder's Release returns, the version it held is past; if nobody else wrote the key, it had exactly one effect and the lock is free |
| `KvLockRun.AcquireIsARun` | src/kvsrv1/lock/lock.go:37-74 | Acquire's loop among other lock clients is a run of the protocol and returns exactly when that enters the lock |
| `KvLockRun.AcquireGivesLock` | src/kvsrv1/lock/lock.go:37-74 | in every reachable state, when Acquire returns the server holds the client's identity at the recorded version and no other client is inside |
| `KvLockRun.ReleaseIsARun` | src/kvsrv1/lock/lock.go:76-84 | Release among other lock clients is a run of the protocol; a holder's has exactly one effect by the time it returns |
| `ShardConfig.ShardConfig.constructor` | src/shardkv1/shardcfg/shardcfg.go:44-49 | the first configuration: no groups, all shards unassigned |
| `ShardConfig.ShardConfig.CountShards` | src/shardkv1/shardcfg/shardcfg.go:81-84 | the load of every group |
| `ShardConfig.SortedGids` | src/shardkv1/shardcfg/shardcfg.go:90-98 | the one ascending sequence of the group ids |
| `ShardConfig.ShardConfig.Analyze` | src/shardkv1/shardcfg/shardcfg.go:80-111 | most and least loaded group with their loads, smallest id among equals |
| `ShardConfig.ShardConfig.LeastLoaded` | src/shardkv1/shardcfg/shardcfg.go:115-118 | the least loaded group |
| `ShardConfig.ShardConfig.Unassign` | src/shardkv1/shardcfg/shardcfg.go:124-129 | all shards become 0 |
| `ShardConfig.ShardConfig.AssignOrphans` | src/shardkv1/shardcfg/shardcfg.go:131-138 | shards without a member group go one by one to the least loaded group |
| `ShardConfig.ShardConfig.MoveOne` | src/shardkv1/shardcfg/shardcfg.go:146-152 | the first shard of one group moves to the other |
| `ShardConfig.ShardConfig.Rebalance` | src/shardkv1/shardcfg/shardcfg.go:122-154 | terminates, and leaves a balanced table whatever it held before |
| `ShardConfig.ShardConfig.Clashes` | src/shardkv1/shardcfg/shardcfg.go:164-172 | whether a server is already in some group |
| `ShardConfig.ShardConfig.Join` | src/shardkv1/shardcfg/shardcfg.go:156-183 | succeeds exactly when the groups are new, there is one, and no server is in two groups; then adds them all; otherwise a part at most |
| `ShardConfig.ShardConfig.Leave` | src/shardkv1/shardcfg/shardcfg.go:185-205 | succeeds exactly when the ids are distinct members and there is one; then removes them all; otherwise those before the failing one |
| `ShardConfig.ShardConfig.JoinBalance` | src/shardkv1/shardcfg/shardcfg.go:207-213 | a successful call is a step of the configuration history and ends balanced; a failed one leaves the table alone |
| `ShardConfig.ShardConfig.LeaveBalance` | src/shardkv1/shardcfg/shardcfg.go:215-221 | the same for leaving |
| `ShardBalance.LeastMeaning` | src/shardkv1/shardcfg/shardcfg.go:80-111 | no group has fewer shards, and none with as few a smaller id |
| `ShardBalance.MostMeaning` | src/shardkv1/shardcfg/shardcfg.go:80-111 | no group has more shards, and none with as many a smaller id |
| `ShardBalance.MoveShrinks` | src/shardkv1/shardcfg/shardcfg.go:140-153 | every move strictly lowers the sum of the squared loads |
| `ShardBalance.RebalancedIsBalanced` | src/shardkv1/shardcfg/shardcfg.go:238-279 | every shard on a member group and loads within one of each other, or all 0 without groups |
| `ShardBalance.JoinMovesOntoNewGroups` | src/shardkv1/shardcfg/shardcfg.go:122-154 | groups joining a balanced table: shards move only onto the new groups |
| `ShardBalance.JoinGivesFairShare` | src/shardkv1/shardcfg/shardcfg.go:122-154 | a single new group ends with the whole part of its equal share |
| `ShardBalance.LeaveKeepsOtherShards` | src/shardkv1/shardcfg/shardcfg.go:122-154 | groups leaving, others remaining: every other shard stays |
| `ShardConfig.HistoryBalanced` | src/shardkv1/shardcfg/shardcfg.go:207-221 | every configuration reached by successful calls is balanced |
| `ShardConfig.HistoryJoin` | src/shardkv1/shardcfg/shardcfg.go:207-213 | in every history a join moves shards only onto the new groups, and a single one gets its share |
| `ShardConfig.HistoryLeave` | src/shardkv1/shardcfg/shardcfg.go:215-221 | in every history a leave keeps every shard of a remaining group |
| `MapReduce.SortByKey` | src/mr/worker.go:171-174 | some arrangement sorted by key |
| `MapReduce.RunEnd` | src/mr/worker.go:188-192 | end of the run of equal keys |
| `MapReduce.CollectValues` | src/mr/worker.go:194-198 | the values of a run in order |
| `MapReduce.GroupAndReduce` | src/mr/worker.go:185-208 | on sorted pairs: one line for each key that occurs, with the reduction of all its values, in ascending order of the keys, and no other line |
| `MapReduce.Partition` | src/mr/worker.go:92-104 | each bucket is the pairs whose key hashes to it, in order |
| `MapReduce.ReduceTask` | src/mr/worker.go:143-208 | the output file of the pairs of all its files in some arrangement |
| `MapReduce.Sequential` | src/main/mrsequential.go:50-112 | the output file of the pairs of all inputs in some arrangement |
| `MapReduce.OutputPermuted` | src/mr/worker.go:171-174 | an unstable sort makes no difference when the reduction ignores order |
| `MapReduce.ProducesOutput` | src/mr/worker.go:171-208 | when the reduction ignores order every arrangement gives the output of the pairs as they came |
| `MapReduce.ValuesGathered` | src/mr/worker.go:92-168 | a reduce task sees all values of its own keys, in order, and none of other keys |
| `MapReduce.DistributedMeansSequential` | src/mr/worker.go:92-208 | the reduce tasks' lines together are an output of the sequential program, each key once and in its own partition |
| `MapReduce.OutputUnique` | src/main/mrsequential.go:89-112 | two outputs of the same pairs have the same lines, each as often |
| `MapReduce.FileUnique` | src/mr/worker.go:185-208 | two output files of the same pairs are equal, line by line |
| `MapReduce.FileIsPart` | src/mr/worker.go:92-208 | what a reduce task writes is exactly the lines of its partition in the sequential program's file, in the same order |
| `MapReduce.SameText` | src/mr/worker.go:203-204 | the output files hold the same text lines, each as often, as the sequential program's |
| `MrCoordinator.Coordinator.constructor` | src/mr/coordinator.go:196-232 | all tasks idle, map phase, nothing done |
| `MrCoordinator.Coordinator.GetTask` | src/mr/coordinator.go:51-100 | the first idle task of the phase is issued with its input file, else wait, else exit when done |
| `MrCoordinator.Coordinator.ReportTask` | src/mr/coordinator.go:103-151 | invalid and repeated reports change nothing; success completes and counts; failure makes idle; the phase and the end follow the counts |
| `MrCoordinator.Coordinator.CheckTimeouts` | src/mr/coordinator.go:235-263 | exactly the tasks in progress for more than the limit become idle |
| `MrCoordinator.Coordinator.ResetAll` | src/mr/coordinator.go:242-250 | one scan over a list of tasks |
| `MrCoordinator.Coordinator.Done` | src/mr/coordinator.go:184-189 | true exactly when there are reduce tasks and all are completed |
| `MrCoordinator.FirstIdle` | src/mr/coordinator.go:64-66 | the first idle task, none before it idle |
| `MrCoordinator.ReportKeeps` | src/mr/coordinator.go:103-151 | reports keep the counters equal to the completed tasks, and the phase and the end exact |
| `MrCoordinator.TimeoutsKeep` | src/mr/coordinator.go:235-263 | so do timeouts |
| `MrSystem.Barrier` | src/mr/coordinator.go:61-99 | no reduce task is issued before every map task has completed |
| `MrSystem.CompletionPermanent` | src/mr/coordinator.go:103-151 | completed tasks, the reduce phase and the end are permanent through timeouts and late or repeated reports |
| `MrSystem.CountersExact` | src/mr/coordinator.go:103-151 | mapDone and reduceDone always equal the number of completed tasks |
| `MrSystem.DoneMeansComplete` | src/mr/coordinator.go:103-151 | the end means every map and reduce task is complete; it never comes without inputs or without reduce tasks |
| `MrSystem.ReadsAll` | src/mr/worker.go:143-168 | after the barrier a reduce task reads every intermediate file with its final contents |
| `MrSystem.DoneMeansSequential` | src/mr/worker.go:139-215 | end to end: when the coordinator is done, and the reduction ignores order, every output file is exactly its partition of the sequential program's file, and together they hold its lines, each as often |

## Left out

- RaftSafety.ElectionSafety: for clusters of four or more it is stated for runs in which no peer opens two vote rounds in one term; the exact answer by cluster size is `ElectionSafetyBySize`. A run that breaks the condition need not elect two leaders.
- RaftServer.Raft.BuildAppend: covers the branch that sends entries; the branch that sends a snapshot is not modelled.
- RaftApplier.DeliversInOrder: commands are not nil, no newer snapshot arrives while one is handed over, and accepted requests leave what is committed in the log; `RaftDelivery` proves the last for all runs of the cluster.
- InstallSnapshot in runs of the cluster: a leader whose follower needs a snapshot sends nothing there; only local facts about the handler are proved.
- Timers, randomised timeouts, goroutine scheduling and liveness: a timeout may fire at any moment.
- Encoding: labgob, gob and JSON are taken to be exact, and reflection, sockets and labrpc's internals are not modelled; a labrpc call is executed at most once and its loss is settled when it returns.
- KvServer.KVServer.Put: versions are unbounded, so the wrap-around of a 64-bit version is not modelled.
- KvClerk.Clerk.Put: the retry loop has no bound in the source; the method takes a finite schedule and answers None when the schedule ends first. The same holds for Get and for KvLock.Lock.Acquire.
- LockProtocol.MutualExclusion: client identities are taken to be distinct and non-empty, and one client makes one call at a time.
- ShardConfig.ShardConfig.Join: which part of a failed multi-group call was applied depends on map order and is left open; the process exits of the source appear as the outcome Fatal.
- Key2Shard, GidServers, IsMember, String, FromString and Copy of the shard configuration: easy members.
- MapReduce.SortByKey: the library sort is any method that returns a sorted arrangement; its own algorithm is not the library's.
- MapReduce.Partition: the hash is any function to the naturals, and nReduce is positive, as the source's remainder needs.
- MrSystem.DoneMeansSequential: for reductions that depend only on which values there are and how often, since the source's sort is not stable; each intermediate and output file is written as a whole; reading a file while a late worker rewrites it is not modelled, nor are crashed writes.
- The lab stubs with empty bodies (kvraft1, shardctrler, shardgrp), test code, plugins and drivers other than the sequential program.
