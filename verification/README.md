# Replication, publishing and text handling of the memory server, verified

This project models the Redis-primary / SQLite-fallback replication of the memory server and proves what it promises,
together with three smaller cores: the RESP2 codec, the migration fingerprint, and the chunking, paging and sanitizing
loops of the protocol layer. It is written for Dafny 4.11; `dafny verify dfyconfig.toml` checks everything.

## How it is organised

| File | Content |
|---|---|
| `Wrappers.dfy`, `Texts.dfy`, `Operations.dfy` | result types; lengths and blanks of texts; tool calls and the workspace they name |
| `Outbox.dfy` | the durable outbox: the meaning of its log, compaction, crashes, size, and the object itself |
| `NativeRecords.dfy` | projections, pointwise deltas, the record cache |
| `KeyLayout.dfy`, `RedisServer.dfy` | key names and their injectivity; the queued commands and EXEC |
| `Publish.dfy`, `PublishCalls.dfy`, `Remote.dfy`, `PublishedKeys.dfy` | both publish transactions, their validation, queues and replies, what they do to the content of a namespace, and what that is key by key |
| `Transactions.dfy` | any number of coordinators interleaved command by command |
| `Stores.dfy`, `Replication.dfy` | the local store as hypotheses; every step of one coordinator as a function on the whole world |
| `ReplicationSafety.dfy`, `ReplicationRuns.dfy` | the invariant, and failover safety over whole runs |
| `ReplicationVerdicts.dfy` | what a reconciliation decides about every entry, as a function of what was there before |
| `ReplicationAnswers.dfy` | what the caller of a tool is told, and what has become of the operation |
| `ReplicationCheckpoint.dfy`, `ReplicationForeign.dfy` | the stored snapshot: when it is written, whose image it is, who adopts it; the revision a coordinator knows |
| `ReplicationProgress.dfy`, `ReplicationEvidence.dfy` | draining, and why nothing leaves the outbox silently |
| `ReplicationCalm.dfy`, `ReplicationBacklog.dfy`, `ReplicationOverrun.dfy` | exactly when failover safety holds, and the backlog that breaks it |
| `ReplicationRoom.dfy`, `ReplicationFrozen.dfy` | what the size limit of the log means for single steps, and the invariant once the log is full |
| `ReplicationFull.dfy` | runs that fill the log, and what is left of the coordinator afterwards |
| `ReplicationStandby.dfy` | the standby while Redis stays reachable |
| `ReplicationDatabase.dfy` | whole runs on an actual database, transaction by transaction |
| `Coordinator.dfy` | the coordinator as a class with fields, loops and an outbox object; every method is the step of `Replication.dfy` |
| `RespCodec.dfy`, `RespGrammar.dfy` | the RESP2 codec, and its replies and commands as octets |
| `Fingerprint.dfy`, `Chunking.dfy`, `Sanitizer.dfy`, `JsonText.dfy` | the other smaller cores |

The content of a Redis namespace is an `Image`: revision, snapshot, schema, records per scope, manifests, ledger, markers.
`Represents` says that a database holds exactly the keys of an image, so an index lists exactly the existing entity keys; the
keys of the adapter's fact commands share the namespace and are left alone. A connection is fail-stop: a `Link` says how many
adapter calls it still serves and whether a write that it loses takes effect.
Quantifying over links quantifies over every moment of loss and both outcomes. The outbox is its entries, the length of its log
file and its audit file: an append is refused when it would exceed 8 MiB, an audit record when it would exceed 1 MiB, and a
refusal stops the call where it stops in the program. The class `CoordinatorInner` is the same step for step, refusals included.

The store is a parameter (`Stores.Tools`) with the hypothesis `Lawful`: a deterministic `apply`, a state that is its own exact
snapshot, tools that change at most the projections of the system scope and of the workspace they name, and workspaces that
are only added. Where the size limit matters, `ShortestCompleted` says that no event is shorter than a `Completed` one: digests have
one length, and such an event carries nothing else. SHA-256 is a function with the hypothesis each theorem states: no collision (and 32 bytes, or no separator in
its text form) where that is needed.

## What was found to differ from what the program promises

* **Failover safety does not hold for every run.** A reconciliation that ends with committed entries and no others sets
  `recovery_replay_committed` (src/backend.rs:663-666), a flag meant for a process restart. The next watcher round then runs up
  to 64 of those entries on the active store again (src/backend.rs:501-525). `BacklogOverruns` computes the result for every
  n: after n healthy writes that leave room in the log for their completions, and two rounds, the active state is the fold of the n
  operations followed by the 129th to 192nd once more, so operations run twice exactly when n > 128. `FailoverSafetyIsExact` shows that this
  branch is the only cause: on stores where mutations that succeed accumulate, all states of a run serve the fold of the executed operations if and only if no round
  enters it with a first entry that succeeds on the active store.
  `ShallowRunsAreSafe` gives the condition an operator can watch: an outbox depth of at most 128 whenever a round begins.
* **A log that is full while committed entries wait is full for good.** `mirror_committed_outbox` compacts only after it has
  appended a `Completed` event for every entry of its batch (src/backend.rs:494-498). `MirrorDrainsIff` states exactly when
  that works; once one such event is refused no run of calls, rounds and reconnects ever changes the log again, and every new
  mutation is refused (`RefusedMirrorIsFinal`, `FullLogIsFinal`). `WritesFillLog` gives the healthy runs that get there: writes
  that fit the log but leave no room for the `Completed` events of their first batch, then one watcher round. Two writes whose
  entries have 2 MiB are enough (`TwoLargeWritesFillLog`), as each is written once when queued and once when marked.
* **A failed call that cannot be taken back does no harm to the state served.** Its entry stays in the outbox as if the operation
  were still to be done (src/backend.rs:911-927). `LeftBehindFreezes` and `FrozenTick` show that the log is then full for good and
  that no later round runs the entry, so failover safety holds for these runs too.
* **The count towards the next checkpoint can start from a stale snapshot.** After a reconnect with operations from the fallback
  the coordinator counts from the current revision (src/backend.rs:360), as if the stored snapshot were current. `ReattachStores`
  says that it is exactly when some entry of the batch is neither in the ledger nor marked; otherwise the old snapshot stays.
  `LostWriteLeavesStale` is a run: one write whose acknowledgement is lost, and a reconnect. `SnapshotWasServed` says what remains
  true over every run, `SnapshotIsAnchored` what holds while the connection lives.
* **A failed call forgets an earlier one with the same arguments.** It completes whatever waits under its key
  (src/backend.rs:911-927), also the entry of a call that succeeded offline and has not reached Redis (`FailedReissueForgets`).
* **A ledger status can go back** from committed to conflict when two coordinators interleave between the read and the write
  of `record_operation_conflict` (`InterleavedConflictRegresses`). `LedgerStep` says that this late write is the only step that
  can; without interleaving inside the call the status is monotone (`LedgerMonotone`).
* **A sanitized value can exceed `max_bytes`** exactly when the limit is below the 40 bytes of the size marker
  (`LimitIsKeptIff`). The callers pass 16 KiB.
* **Following `next_start` with an `end` in front of the end of the text never stops** (`ReadingEndsIff`).

## Model

| member | source | states |
|---|---|---|
| OutboxLog.Outbox.PendingEntries | src/backend.rs:98-131 | reading the log returns its replay, and no two entries share a key |
| OutboxLog.Outbox.Append | src/backend.rs:133-154 | an event is appended exactly when the log stays within 8 MiB; the replay takes one step, or nothing changes |
| OutboxLog.Outbox.AppendPending | src/backend.rs:156-165 | a new key is queued last exactly when its event fits, a known one is left alone |
| OutboxLog.Outbox.MarkRedisCommitted | src/backend.rs:167-184 | exactly the entry with the key becomes committed; refused exactly for an unknown key or an event that does not fit |
| OutboxLog.Outbox.Complete | src/backend.rs:186-190 | the entry with the key disappears exactly when the event fits; otherwise nothing changes |
| OutboxLog.Outbox.Reject | src/backend.rs:192-195 | the entry disappears only after its audit record is written; each of the two is refused exactly when it does not fit |
| OutboxLog.Outbox.Audit | src/backend.rs:197-208 | the record is added exactly when it fits; otherwise the file is unchanged |
| OutboxLog.Outbox.Compact | src/backend.rs:210-235 | the rewritten file replays to the same entries and still fits |
| OutboxLog.ReplayDistinct | src/backend.rs:98-131 | no log whatsoever replays to two entries with one key |
| OutboxLog.CompactionUnobservable | src/backend.rs:210-235 | for any log and any later suffix, replaying the compacted log plus the suffix gives the same ordered entries |
| OutboxLog.CrashedCompactionsUnobservable | src/backend.rs:210-235 | the same across any number of compactions that crash before or after the rename or truncation |
| OutboxLog.CompactionShrinks | src/backend.rs:210-235 | a compacted log is never longer than the log it replaces |
| OutboxLog.RunStaysBoundedAndExact | src/backend.rs:133-154 | over every run of appends and compactions the log stays within the limit that only append checks, and means what the uncompacted log means |
| OutboxLog.UpsertMarks | src/backend.rs:167-184 | appending a committed copy of an entry marks that entry in place and moves nothing |
| NativeRecords.DeltaPatches | src/backend.rs:1078-1123 | a delta turns the previous records into the current ones and carries exactly what differs, with no key both changed and removed |
| NativeRecords.ApplyCacheLookup | src/backend.rs:1125-1136 | after the update the cache answers for every published scope, and as before for the others |
| NativeRecords.NativeCache.Update | src/backend.rs:1125-1136 | the in-place loop computes that update |
| NativeRecords.NativeCache.StoreOne | src/backend.rs:1126-1134 | one projection replaces the first of its scope or is added |
| KeyLayout.RenderIsInjective | src/redis.rs:1188-1239 | no two valid keys, of whatever families, scopes, kinds and ids, are written alike |
| KeyLayout.LayoutIsTransparent | src/redis.rs:1188-1235 | a transaction on named keys answers and changes exactly what it does on the keys themselves |
| RedisServer.NamesDoNotMatter | src/redis.rs:1188-1235 | the same for any injective naming |
| RedisServer.ExecReplyCount | src/redis.rs:1159-1186 | EXEC answers with exactly one reply per queued command |
| Publish.DeltaQueueTakes | src/redis.rs:779-857 | run on a database that stores an image, the pointwise queue leaves the patched and stamped image, no command refused, no key of the fact commands touched |
| Publish.StateQueueTakes | src/redis.rs:470-604 | the same for the whole-scope queue: replaced scopes, new snapshot |
| Publish.ClearTakes | src/redis.rs:497-515 | deleting the stale entities and then the indexes leaves neither orphan nor dangling member |
| Publish.OperationsTake | src/redis.rs:815-845 | interleaving ledger records and markers or listing them apart makes no difference |
| Publish.DeltaRecords | src/redis.rs:785-814 | after the pointwise publish every listed scope holds its current records, every other scope what it held |
| Publish.ReplacedRecords | src/redis.rs:497-542 | after the whole publish likewise |
| Publish.PointwiseRefinesWhole | src/backend.rs:1078-1123 | publishing deltas leaves the same revision, schema, entities, indexes, manifests, ledger and markers as publishing whole, and keeps the snapshot key |
| PublishCalls.QueueDeltas | src/redis.rs:779-857 | the loops push exactly the pointwise queue |
| PublishCalls.QueueDelta | src/redis.rs:785-814 | removals before changes, each entity key with its index member |
| PublishCalls.QueueState | src/redis.rs:470-604 | the loops push exactly the whole-scope queue |
| PublishCalls.DeltaQueueAligned | src/redis.rs:875-886 | the computed result count is the number of queued commands, and the second of them is INCR |
| PublishCalls.StateQueueAligned | src/redis.rs:467-627 | the same for the count of the whole-scope publish |
| PublishCalls.RevisionReply | src/redis.rs:887-888 | on a database that stores an image the second reply is the INCR reply and is the next revision |
| PublishCalls.TakeReplies | src/redis.rs:1694-1711 | as many replies as asked for are taken from the front, and only acceptable ones |
| PublishCalls.ConsumeDeltaReplies | src/redis.rs:875-914 | succeeds exactly for as many acceptable replies as were queued with an integer second, and returns that integer |
| PublishCalls.ConsumeStateReplies | src/redis.rs:621-658 | the same for the whole-scope publish |
| PublishCalls.BatchedResult | src/redis.rs:1159-1186 | the EXEC answer is returned exactly when MULTI succeeded, everything was queued and EXEC was not an error |
| PublishCalls.DeltaExchange | src/redis.rs:859-914 | for every input EXEC is answered so that the pointwise call returns expected + 1, and the image is published |
| PublishCalls.StateExchange | src/redis.rs:605-658 | the same for the whole-scope call |
| PublishCalls.ValidateDeltas | src/redis.rs:673-730 | accepts exactly the deltas with distinct named scopes, valid and distinct keys, and totals within the limits |
| PublishCalls.ValidateDelta | src/redis.rs:701-729 | the per-delta part, upserts and deletes sharing one set of seen keys |
| PublishCalls.ValidateOperations | src/redis.rs:731-742 | accepts exactly the operations with digests as distinct keys and plain names |
| PublishCalls.NativeDeltasAreUnique | src/backend.rs:1084-1121 | the uniqueness checks never reject deltas made from projections of distinct scopes |
| PublishCalls.NativeEntities | src/redis.rs:919-950 | reads one record per index member that has one |
| PublishCalls.IndexFetches | src/redis.rs:919-950 | reading an exact index back returns exactly the records of the scope |
| PublishedKeys.DeltasWrite | src/redis.rs:781-857 | after the pointwise transaction the keys of every published scope hold exactly its records, index and manifest with their count, those of every operation its ledger record with name, scope, revision and total, and its marker; the snapshot and all other keys are as they were |
| PublishedKeys.WholeWrites | src/redis.rs:470-620 | the same for the whole-scope transaction, with the new snapshot |
| PublishedKeys.MarkersExpire | src/redis.rs:836-844 | every marker is set to expire after seven days |
| Remote.DeltaTransaction | src/redis.rs:779-857 | the pointwise transaction, however it lists the deltas, is the content-level publish used by the coordinator model |
| Remote.WholeTransaction | src/redis.rs:470-604 | so is the whole-scope transaction |
| Remote.PatchAllRecords | src/backend.rs:449-463 | deltas against a cache that holds what Redis holds set exactly the listed scopes |
| Transactions.StaleIsExact | src/redis.rs:445-466 | the members collected under WATCH are, at EXEC, exactly the stale entity keys |
| Transactions.ExecutePublishes | src/redis.rs:543-627 | a transaction that is not aborted runs at the revision its caller expected, is answered with the next one and stores the published image |
| Transactions.StepKeeps | src/redis.rs:409-658 | every step of every client, lost connections included, keeps the invariant of the interleaving |
| Transactions.OptimisticConcurrency | src/redis.rs:744-788 | in every interleaving no two commits expected the same revision, each reply is expected + 1, and the revision counts the commits |
| Transactions.IndexesAreExact | src/redis.rs:497-542 | at every moment an index lists exactly the existing entity keys of its scope |
| Transactions.SeqlockReads | src/backend.rs:978-990 | a reader that returns (r, s) does so because s was the snapshot whenever the revision was r, and it was r at some moment |
| Transactions.StampsAreTheReply | src/redis.rs:815-857 | the INCR reply is the revision in every manifest and every ledger record of the transaction |
| Transactions.LedgerStep | src/redis.rs:990-1032 | a step keeps the order none, conflict, committed for all operations exactly when it is not a conflict record written after the operation committed |
| Transactions.LedgerMonotone | src/redis.rs:990-1032 | with conflict calls not interleaved, a status never goes back over whole runs |
| Transactions.MarkersImplyLedger | src/redis.rs:815-845 | in such runs a marker implies a committed ledger record |
| Transactions.InterleavedConflictRegresses | src/redis.rs:1003-1032 | a run of five steps in which a committed status becomes a conflict |
| Stores.AllScopesCover | src/backend.rs:1160-1172 | the projections of all workspaces agree with the store on every scope |
| Stores.EntryScopesCover | src/backend.rs:1138-1158 | the projections for some entries include every scope that any of them touches |
| ReplicationSafety.PublishLocalKeeps | src/backend.rs:449-463 | a publish, acknowledged or lost with or without effect, keeps the invariant; acknowledged, it commits all its keys; a lone coordinator is never refused for the revision |
| ReplicationSafety.CheckpointKeeps | src/backend.rs:422-437 | so does a checkpoint, after which no scope is dirty |
| ReplicationSafety.MirrorKeeps | src/backend.rs:469-499 | mirroring keeps the invariant and the active state |
| ReplicationSafety.ScanAllKeeps | src/backend.rs:540-606 | scanning the uncommitted entries of a recovering coordinator rejects nothing and marks only what the ledger has |
| ReplicationSafety.ReconcileKeeps | src/backend.rs:527-668 | a reconciliation that replays nothing committed keeps the invariant and the active state, wherever the connection breaks or an append is refused |
| ReplicationSafety.AttachKeeps | src/backend.rs:295-365 | reconnecting after offline writes keeps both |
| ReplicationSafety.TickKeeps | src/backend.rs:704-722 | a watcher round outside the replay branch keeps both |
| ReplicationSafety.CoverageGrows | src/backend.rs:846-908 | the scopes a mutation touches are covered by its own entry until it is published |
| ReplicationSafety.ExecuteKeeps | src/backend.rs:832-930 | executing a tool keeps the invariant and moves the active state by exactly that tool, or by nothing when the log turns the call away |
| ReplicationRuns.FailoverSafety | src/backend.rs:832-930 | through any mix of calls, losses, rounds and reconnects, and wherever an append is refused, the active state is the ordered fold of all operations that executed, unless a round runs a committed operation a second time |
| ReplicationRuns.DirtyScopesAreCovered | src/backend.rs:539-668 | each scope's Redis records equal the projection of the active state or an uncommitted entry touches the scope; with none left all agree |
| ReplicationRuns.CacheAgrees | src/backend.rs:1125-1136 | while connected the cache of a scope is what reading the scope from Redis returns, and the revision is the server's |
| ReplicationDatabase.TransactionsAreStored | src/redis.rs:470-857 | executed one after the other, adapter transactions keep a database storing the content they are meant to leave, key by key |
| ReplicationDatabase.RunLeads | src/backend.rs:527-930 | whatever a run does to the namespace is a list of such transactions: pointwise and whole publishes, conflict records, expired markers |
| ReplicationDatabase.CacheFollowsDatabase | src/backend.rs:1125-1136 | so from any database that stores the start, a run leads to one from which every index reads back what the cache holds |
| ReplicationRuns.CommittedMeansLedger | src/backend.rs:547-579 | every entry marked committed, and every marker, has a committed ledger record |
| ReplicationRuns.FirstAttachStarts | src/backend.rs:341-364 | attaching to an empty namespace establishes the start of such runs |
| ReplicationProgress.MirrorCount | src/backend.rs:469-499 | a mirror that succeeds removes a full batch of committed entries or all of them |
| ReplicationProgress.ReconcileDrains | src/backend.rs:527-668 | whatever Redis and the ledger hold, a reconciliation that succeeds removes at least min(64, pending) entries |
| ReplicationProgress.DrainsInBatches | src/backend.rs:527-668 | after k successful calls at most n - 64k entries are left, whatever happens in between |
| ReplicationProgress.GoneAfterCeiling | src/backend.rs:527-668 | n entries are gone after ceil(n / 64) successful calls |
| ReplicationEvidence.ReconcileAccounts | src/backend.rs:527-668 | a reconciliation, finished or stopped by a lost connection, a failed replay or a full file, drops only entries whose reason it has seen since they were queued |
| ReplicationEvidence.ExecuteAccounts | src/backend.rs:911-927 | so does executing a tool, which queues at most its own entry |
| ReplicationEvidence.NothingLeavesSilently | src/backend.rs:186-195 | over every run from every world, refused appends included, each completed key was, since it was queued, replayed on the standby, found there, published as locally present, audited as rejected, or failed; every missing entry was completed, every new one queued |
| ReplicationRoom.MirrorDrainsIff | src/backend.rs:469-499 | a mirror succeeds exactly when the standby can run its batch and the log has room for the batch's `Completed` events |
| ReplicationRoom.RefusedMirrorSticks | src/backend.rs:494-498 | a mirror that is refused a `Completed` event leaves a log in which the next one is refused as well |
| ReplicationFull.FullLogIsFinal | src/backend.rs:133-154 | a log without room for any event, with a committed entry in it, is unchanged by every run, and every new mutation is refused |
| ReplicationFull.RefusedMirrorIsFinal | src/backend.rs:494-498 | so, no event being shorter than a `Completed` one, the first refused completion of a mirror is the end of the outbox |
| ReplicationFull.WritesFillLog | src/backend.rs:469-499 | from the start, healthy writes that leave no room to complete their first batch, and one round: its mirror is refused, no later run changes the log or records a mutation, and the fold of the writes is served |
| ReplicationFull.TwoLargeWritesFillLog | src/backend.rs:494-498 | a concrete store and event sizes where two writes are enough |
| ReplicationFrozen.LeftBehindFreezes | src/backend.rs:911-927 | a failed call whose entry cannot be taken back moves nothing, and leaves a log that is full for good |
| ReplicationFrozen.FrozenTick | src/backend.rs:704-722 | with such a log every round outside the replay branch moves neither the active state, the outbox nor the published records; only conflict records, the standby and the audit file can move |
| ReplicationCalm.ReconcileStill | src/backend.rs:663-666 | a reconciliation moves the active store by the replay alone, and asks for one exactly when it ends with committed entries and no others |
| ReplicationVerdicts.ReconcileDecides | src/backend.rs:527-668 | a reconciliation that succeeds, in full, over the namespace, store and outbox as they were: which entries of the batch are run, published, rejected or known already, the ledger record and the audit line of each, what is left of the outbox in which order, and what is served, stored and counted afterwards |
| ReplicationVerdicts.ReconcileRunsOnly | src/backend.rs:540-606 | however a reconciliation ends, it overwrites no ledger record, adds records only about entries the namespace was silent about, and the state served is the stored snapshot or the fold of such entries alone on the earlier state |
| ReplicationVerdicts.ConflictIsRejected | src/backend.rs:562-568 | an entry with a conflict record keeps that record, and leaves the outbox with `redis_ledger_conflict` on file when the call succeeds |
| ReplicationAnswers.AnswerIsTold | src/backend.rs:832-930 | every answer of every call, exactly, as a table over what was there before: failed tools, refused, lost and conflicting publishes, full logs and failed mirrors |
| ReplicationAnswers.ExecuteLeaves | src/backend.rs:832-930 | the state served moves by the tool exactly if it ran; the coordinator falls back exactly when it has no connection or a publish was not acknowledged; the outbox is left as stated for each case |
| ReplicationAnswers.FailedReissueForgets | src/backend.rs:911-927 | a failed call removes whatever waits under its key, published or not |
| ReplicationCheckpoint.RoundCheckpoints | src/backend.rs:408-416 | a round that succeeds leaves the snapshot fewer than 256 revisions behind; it stores the image that is served exactly when it would be further behind, and otherwise reconciling was its last step |
| ReplicationCheckpoint.SnapshotWasServed | src/backend.rs:422-437 | over every run the stored snapshot is the fold of the operations executed up to some moment of the run |
| ReplicationCheckpoint.SnapshotIsAnchored | src/backend.rs:422-437 | while the connection lives that moment is one at which the revision was `lastSnapshot` |
| ReplicationCheckpoint.ReattachStores | src/backend.rs:341-364 | after a reconnect from the fallback the coordinator counts from the current revision, and the stored snapshot is current exactly when some entry of the batch was undecided |
| ReplicationCheckpoint.LostWriteLeavesStale | src/backend.rs:341-364 | a run that serves a write the stored snapshot lacks while the count says that it is current |
| ReplicationCheckpoint.AttachServesSnapshot | src/backend.rs:316-339 | attaching with nothing uncommitted serves the stored snapshot, with one batch of committed entries run on it if there are any, and reads the cache off the snapshot |
| ReplicationForeign.ForeignIsAdopted | src/backend.rs:377-406 | a round that finds a foreign revision takes over snapshot, standby, cache and revision before it reconciles; one that finds its own changes nothing |
| ReplicationForeign.OvertakenServesSnapshot | src/backend.rs:704-718 | so an overtaken coordinator with an empty outbox serves what is stored |
| ReplicationForeign.RemoteIsKnown | src/backend.rs:708-712 | over every run the remote revision that is reported is the server's as long as the connection can take effect |
| ReplicationBacklog.ShallowRunsAreSafe | src/backend.rs:791-800 | if no round begins with more than 128 entries pending, no round double-applies and failover safety holds |
| ReplicationBacklog.FailoverSafetyIsExact | src/backend.rs:501-525 | on a store where successful mutations accumulate, with tools that may fail, every state of a run serves the fold if and only if no round enters the replay branch with an entry that succeeds there |
| ReplicationStandby.StandbyFollows | src/backend.rs:469-499 | as long as no fallback happens and no append is refused, running the pending operations on the standby, in order, gives the active store; an empty outbox means an equal standby |
| ReplicationStandby.MirrorFollows | src/backend.rs:469-499 | such a mirror can fail for nothing but a full log, and runs exactly the first batch |
| ReplicationOverrun.RoundOnBacklog | src/backend.rs:704-722 | one round on a committed backlog: what is left, what the active store becomes, and what the next round will do |
| ReplicationOverrun.BacklogOverruns | src/backend.rs:501-525 | n healthy writes that leave room for their completions, and two rounds, run exactly the 129th to 192nd operation again, so nothing exactly when n <= 128 |
| ReplicationOverrun.LogOverruns | src/backend.rs:501-525 | on a store that only remembers its operations the second run can be read off |
| Coordinator.CoordinatorInner.constructor | src/backend.rs:273-293 | a new coordinator is offline, with empty cache and no flags |
| Coordinator.CoordinatorInner.RecordOperationConflict | src/redis.rs:990-1032 | records a conflict unless the ledger says committed |
| Coordinator.CoordinatorInner.PublishState | src/redis.rs:332-658 | as an adapter call: rejected, conflicted, lost with or without effect, or published |
| Coordinator.CoordinatorInner.PublishLocalDeltas | src/backend.rs:449-463 | publishes the deltas and, acknowledged, remembers revision and records |
| Coordinator.CoordinatorInner.MirrorCommittedOutbox | src/backend.rs:469-499 | the mirror step |
| Coordinator.CoordinatorInner.ReplayCommitted | src/backend.rs:501-525 | the replay step |
| Coordinator.CoordinatorInner.SyncFromRedisCurrent | src/backend.rs:377-447 | adopts the stored snapshot |
| Coordinator.CoordinatorInner.CheckpointSnapshot | src/backend.rs:422-437 | the checkpoint step |
| Coordinator.CoordinatorInner.CheckpointSnapshotIfDue | src/backend.rs:408-416 | the checkpoint step, when 256 revisions have passed |
| Coordinator.CoordinatorInner.ScanEntry | src/backend.rs:547-605 | ledger, conflict, marker, local image, replay, in this order |
| Coordinator.CoordinatorInner.ScanPending | src/backend.rs:540-606 | the scan of one batch |
| Coordinator.CoordinatorInner.PublishScanned | src/backend.rs:608-640 | publishes what was applied, or gives way |
| Coordinator.CoordinatorInner.GiveWayToRedis | src/backend.rs:616-637 | records the conflicts, adopts the snapshot, rejects the entries |
| Coordinator.CoordinatorInner.SettleApplied | src/backend.rs:646-656 | completes local entries and marks the others |
| Coordinator.CoordinatorInner.RejectEntries | src/backend.rs:657-659 | audits and completes the rejected entries |
| Coordinator.CoordinatorInner.FinishReconcile | src/backend.rs:646-666 | settle, reject, compact, mirror, recompute the flags |
| Coordinator.CoordinatorInner.ReconcileOutbox | src/backend.rs:527-668 | the whole reconciliation is the specified step |
| Coordinator.CoordinatorInner.EnterSqliteFallback | src/backend.rs:670-680 | the active image moves to the standby store and the connection is dropped |
| Coordinator.CoordinatorInner.AdoptNamespace | src/backend.rs:309-351 | reads, repairs or initialises the namespace on a new connection |
| Coordinator.CoordinatorInner.AttachRedis | src/backend.rs:295-365 | the whole attachment is the specified step |
| Coordinator.CoordinatorInner.WatcherTick | src/backend.rs:704-722 | the watcher round is the specified step |
| Coordinator.CoordinatorInner.CommitOperation | src/backend.rs:865-908 | publish and mark, or fall back |
| Coordinator.CoordinatorInner.RunMutation | src/backend.rs:848-928 | queue, run, then commit or take back |
| Coordinator.CoordinatorInner.ExecuteTool | src/backend.rs:832-930 | executing a tool is the specified step |
| RespCodec.ValueRoundTrips | src/redis.rs:1742-1808 | wherever it stands, an encoded reply within the limits is read back exactly and the reader stops exactly behind it |
| RespCodec.CommandIsValue | src/redis.rs:1651-1659 | a command is, on the wire, an array of bulk strings |
| RespCodec.PipelineRoundTrips | src/redis.rs:1609-1659 | reading the concatenated encodings of any sendable commands returns those commands in order and consumes exactly their bytes |
| RespCodec.PipelineIsPrefixFree | src/redis.rs:1742-1832 | no strict prefix of a pipeline is accepted |
| RespCodec.AcceptedReplyIsExact | src/redis.rs:1742-1832 | any accepted reply reads the same whatever follows, and no cut of it is accepted |
| RespCodec.NestingBounded | src/redis.rs:1742-1747 | an accepted reply nests no deeper than the bound |
| RespGrammar.ReaderIsGrammar | src/redis.rs:1742-1832 | the reader accepts exactly the octets that are a reply in the RESP2 grammar, written in numbers, returns what they say, and stops right behind them |
| RespGrammar.CommandIsWire | src/redis.rs:1651-1659 | what is sent, octet by octet: the number of arguments, and each with its length in plain ASCII digits |
| RespCodec.ByteStream.ReadLine | src/redis.rs:1810-1826 | reads up to CRLF within the line limit |
| RespCodec.ByteStream.ReadExact | src/redis.rs:1828-1832 | reads exactly the bytes asked for or reports a short stream |
| RespCodec.ByteStream.ReadResp | src/redis.rs:1742-1808 | the mutable reader answers and advances as specified |
| RespCodec.ByteStream.ReadArray | src/redis.rs:1784-1803 | the items of an array, one level deeper |
| RespCodec.ByteStream.ReadReplies | src/redis.rs:1609-1644 | one reply per command, in order |
| RespCodec.AppendCommand | src/redis.rs:1651-1659 | appends the encoding to the request buffer |
| RespCodec.EncodePipeline | src/redis.rs:1609-1625 | the request buffer is the concatenation of the encodings |
| Fingerprint.CellIsPrefixFree | src/migration.rs:387-410 | the first cell is recovered from whatever follows it |
| Fingerprint.CellOctets | src/migration.rs:387-410 | the octets of a cell: its tag, numbers in two's complement with the lowest octet first, lengths in eight octets |
| Fingerprint.FingerprintGivenIff | src/migration.rs:335-385 | a fingerprint is given exactly when every table has columns, is there and has the expected number of rows |
| Fingerprint.RowsAreUniquelyDecodable | src/migration.rs:366-372 | different rows are hashed from different inputs |
| Fingerprint.HashValue | src/migration.rs:387-410 | feeds exactly the tagged, length-prefixed encoding |
| Fingerprint.HashRow | src/migration.rs:367-371 | digests the row's encoding |
| Fingerprint.HashRows | src/migration.rs:365-383 | feeds the row digests in ascending order |
| Fingerprint.FingerprintForTables | src/migration.rs:335-385 | the loops compute the specified digest, or the first table's error |
| Fingerprint.SortedIsUnique | src/migration.rs:373-373 | a multiset of digests has one ascending listing |
| Fingerprint.DigestsDecide | src/migration.rs:366-373 | the multiset of row digests decides the multiset of rows |
| Fingerprint.FingerprintDecidesEquality | src/migration.rs:140-148 | two fingerprints are equal exactly when every table holds the same multiset of projected rows |
| Chunking.ChunkText | src/protocol.rs:4060-4079 | the loop ends, with the chunks and the count that text, size and overlap determine |
| Chunking.ChunksAdvance | src/protocol.rs:4065-4077 | each chunk starts an overlap before the end of the last, adds at least one character, and the last one ends the text |
| Chunking.ChunksRebuild | src/protocol.rs:4065-4077 | dropping the overlaps rebuilds the text |
| Chunking.LoopMeetsClosedForm | src/protocol.rs:1846-1846 | without overlap the loop makes as many chunks as the closed form says |
| Chunking.ChunkFact | src/protocol.rs:5063-5123 | validation, chunking and the page of `exact_chunk_fact` |
| Chunking.ContextMeetsLoop | src/protocol.rs:1846-1863 | the closed form cuts the very window the loop would |
| Chunking.PageOf | src/protocol.rs:5108-5121 | the longest window from the asked chunk on, clamped to the chunks there are, and where the next one starts |
| Chunking.PagesVisitAll | src/protocol.rs:5108-5121 | following `next_chunk` from 0 visits every chunk exactly once, in order |
| Chunking.ReadContext | src/protocol.rs:1713-1746 | accepted exactly for valid bounds; serves the longest slice from the asked start that keeps within the asked end and length, and names what is left |
| Chunking.ReadingEndsIff | src/protocol.rs:1731-1746 | following `next_start` from 0 ends, having read the text once, exactly when no `end` in front of the end of the text is passed |
| Chunking.CharChunksAre | src/protocol.rs:2349-2355 | plain chunks are the contents the paged tool serves at the same size |
| Sanitizer.TruncateIsLongest | src/protocol.rs:2264-2275 | truncation yields the longest prefix within the limit that ends on a character boundary |
| Sanitizer.ExclusionIsInherited | src/protocol.rs:2118-2125 | what lies below an excluded path is excluded |
| Sanitizer.ExclusionsReach | src/protocol.rs:2118-2125 | a path is excluded exactly when an exclusion is the path itself or leads to an object on the way |
| Sanitizer.SanitizedReach | src/protocol.rs:2073-2108 | under object keys that are not sensitive a value is found in the result exactly when it was there and no path on the way is among the exclusions, and then it is the sanitized value |
| Sanitizer.NothingLeaks | src/protocol.rs:2073-2108 | whatever is found in the result was there, no path on the way is excluded, and under a sensitive key it is the marker |
| Sanitizer.TextIsSanitized | src/protocol.rs:2163-2170 | a sensitive text is replaced whatever its length, any other is cut to the longest prefix within 4 KiB |
| JsonText.SizeIsLength | src/protocol.rs:2060-2063 | the size compared with the limit is the length of the compact serialization, octet by octet |
| Sanitizer.SanitizeSanitizes | src/protocol.rs:2073-2108 | no excluded path keeps a value, every sensitive key is redacted, every text is within the limit |
| Sanitizer.SurvivingFields | src/protocol.rs:2076-2091 | of an object exactly the fields survive whose paths are not excluded |
| Sanitizer.HarmlessIsKept | src/protocol.rs:2073-2108 | a value with nothing excluded or sensitive is kept as it is |
| Sanitizer.ShortTextsAreOnlyRedacted | src/protocol.rs:2163-2170 | without a text over the limit, sanitizing is exclusion and redaction alone |
| Sanitizer.PrepareSanitized | src/protocol.rs:2052-2071 | when the result fits, when it is the marker, when it is reported as truncated, and that otherwise only exclusion and redaction changed it |
| Sanitizer.LimitIsKeptIff | src/protocol.rs:2063-2067 | the limit is kept for all values exactly when it is at least the marker's size |

## Left out

- Process restart and the adoption of another coordinator's revision: `AttachServesSnapshot` and `ForeignIsAdopted` say what is served then. The stored snapshot can be older than the records next to it, so that these pointwise updates are kept is not claimed; runs with a lone coordinator never adopt.
- Other coordinators during a single call of the coordinator model: they are interleaved command by command in `Transactions.dfy`, and the draining and evidence theorems hold for any content of Redis, but within one call of `Replication.dfy` the namespace only moves by that call.
- ReplicationRuns.FailoverSafety: assumes that no operation is issued again with the key of an earlier one, which the outbox would merge with it (`FailedReissueForgets`). Every loss of a connection and every refused append is covered.
- Equality of the standby image after a fallback, for tools that are not idempotent: the mirror may run an operation the standby already contains.
- Fingerprint.FingerprintDecidesEquality: compares digests, not their hexadecimal text.
- The text of RESP error and status lines beyond their bytes.
- Coordinator.CoordinatorInner.PublishState: the adapter's own checks are one abstract predicate here, and the transaction is its effect on the content; `PublishCalls.dfy` and `Publish.dfy` have the checks and the keyed transaction.
- The entity checks of the whole-scope publish and the member limit on SMEMBERS: the first repeat those of the deltas, the second is one more refusal.
- Errors of reading projections off SQLite, non-object arguments of stored operations, and file errors other than a full log or audit file.
- The order in which workspaces, upserts and deletes are listed in a publish: the results are proved for every listing.
- Overflow of the revision counter and of SQLite row counts.
- JSON bytes of events, ledgers, manifests and entities: their sizes are parameters.
- Which keys and texts count as sensitive: parameters of the sanitizer.
- Sockets, timeouts, authentication, fsync, torn log lines, metrics, backoff and duration clamping.
- The tool dispatcher, tool schemas, HTTP and LLM providers, ranking and diagnostics: wide, and each claim about them is one branch.
