# block-play-table execution control, verified

A Dafny 4.11 model of the "execution v1" control protocol between the Manager and its Workers, and of the byte
algorithms that feed it. `dafny verify dfyconfig.toml` checks all of it.

**Manager.** `Domain` has the records (tasks, rounds, dispatch intents, workers, interactions) with their transitions,
`Events` the execution events, `ManagerStore` the tables and the commits that change them together, `Projection` the
path of a remote update from the copies it read to the commit it makes, `Service` the user's calls. `ManagerRuns` puts
these into one machine in which any number of calls are in flight and every load and every commit is a step of its
own; `ExactlyOnce` proves the inbox and terminal-pairing laws over its runs. `ManagerInvariants` takes each call as
one atomic step and proves the laws about open rounds, worker leases and questions, and `Interleavings` proves them
over the runs of `ManagerRuns`. `Delivery`, `DeliveryRuns` and `Snapshots` follow one round's event stream.
`StaleReplay`, `ReplayInstance` and `ReusedWorker` show where an invariant breaks. `Lifecycles` takes the transitions
of single records in any order. `LockMap` and `Retries` are the reconciler. The store hands out copies of its records,
so records are values with functions; the store and the service themselves are objects (`MemoryStore.dfy`,
`ServiceObject.dfy`), each method proved to do to the tables what the specification says.

**Worker.** `WorkerStore` has the tables, `Compaction` the paged deletion, `Acceptance` the cursor law over runs,
`Runtime` the emitters and the journal, `Recovery` the startup recovery, `WorkerObject` the store object.

**Bytes.** `Redactor`, `Utf8`, `LogPipeline`, `Cursor`, `ListPaging`.

## Main results

- No lost update, and gap-free exactly-once projection, in every interleaving of loads and commits (`NoLostUpdate`,
  `InboxIsOneToN`, `TerminalPairing`).
- One live round per task, lease conservation and no orphan questions, in runs of atomic calls and in every
  interleaving (`OneLiveRound`, `LeaseConservation`, `NoOrphanQuestions`).
- Convergence of one round's records in every interleaving, and catching up from snapshots (`LaunchesOpen`,
  `DeliveryConverges`, `SnapshotCatchesUp`).
- Safety of the lock map, and the bound of seven claims (`LockMapIsSafe`, `BoundedRetries`).
- Worker journal and runtime: `AcceptedOnceAndInOrder`, `RuntimeAndJournalAgree`, `DeleteExpiredTerminalTurnEvents`,
  `RecoveryUndoesContinue`.
- Bytes: `StreamingEqualsOneShot`, `RedactionIsLeftmostLongest`, `NoSecretComesThrough`, `LogsAreRedactedOutput`,
  `ChunksAreUtf8`, `SplitCutsNoRuneIff`, `CursorRoundTripIff`, `PagingIsPartition`.

## Where the code does less than it promises

- One live round does not survive every accepted update. `applyA2AStatus`
  (manager/internal/app/a2a_projection.go:415-458) applies a terminal status to the task without asking whether the
  round is the task's last, so a replay of an earlier turn's terminal event ends the running turn.
  `RemoteUpdateKeepsInvIff`, `FailRoundKeepsInvIff` and `CommitKeepsOneLiveIff` give the exact conditions,
  `ReplayBreaksOneLive` the failing family and `ReplayEndsRunningTurn` a run that reaches it. `OneLiveRound` and
  `LeaseConservation` are about runs in which these conditions hold at every step (`WellAddressed`, `AimedAt`).
- The version check of a worker (pkg/store/a2a_memory.go:376-381) does not tell a worker from a later one of the same
  id, which starts again at version 1. A call that read the worker before it was deleted and registered again can so
  overwrite the leases of the new one. `CommitKeepsLeasesIff` gives the exact condition and `ReuseLosesLease` a run;
  `Interleavings.LeaseConservation` is about runs in which no worker id is used again.
- Startup recovery compares worktree paths as text (worker/internal/a2astore/maintenance.go:90-163), while beginning a
  turn compares them with symbolic links resolved (worker/internal/a2aruntime/runtime.go:764-781).
  `RecoverySucceedsIff` gives the exact condition, `RespelledWorktreeBlocksStartup` the failing family and
  `RespelledInstance` a run from empty tables that reaches it.
- `splitUTF8` cuts a code point that is wider than its limit; `SplitCutsNoRuneIff` says exactly when. Its one caller
  in the program passes 32 KiB (worker/internal/a2aruntime/runtime.go:625), where this cannot happen
  (`FourBytesSuffice`, `ChunksAreUtf8`).
- The design's state diagram (docs/system-design.md:580-595) has fourteen edges; the code has fourteen more
  (`EdgesAreExact`).

## Words

- *legacy* tasks are those that were active before rounds existed; they have no round until they are migrated or
  retried.
- Remote statuses keep their names. The task statuses COMPLETED and FAILED are `FINISHED` and `BROKEN`, the intent
  statuses COMPLETED and FAILED are `DELIVERED` and `ABANDONED`, and the interaction statuses PENDING and CANCELED are
  `ASKED` and `WITHDRAWN`, so that each name means one thing.

## Model

| member | source | states |
|---|---|---|
| `Redaction.SortSecretsSorts` | pkg/a2aext/redact.go:93-100 | the secrets come out ordered by descending length then text, with the same members |
| `Redaction.MatchIsStable` | pkg/a2aext/redact.go:56-91 | when no longer secret can still match, no continuation of the text changes the decision at this position |
| `Redaction.RedactStep` | pkg/a2aext/redact.go:56-91 | a decision no continuation can change is the decision of the one-shot redaction |
| `Redaction.EmittedIsSettled` | pkg/a2aext/redact.go:56-91 | a non-final call emits exactly the part of the whole answer that no continuation can change; the rest is the redaction of held text plus continuation |
| `Redaction.FinalCallRedacts` | pkg/a2aext/redact.go:56-91 | a final call emits the one-shot redaction and holds nothing |
| `Redaction.Held` | pkg/a2aext/redact.go:56-91 | between calls the held text is empty or a proper prefix of some secret |
| `Redaction.StreamingEqualsOneShot` | pkg/a2aext/redact.go:41-91 | for every secret list and every split into chunks, the outputs ending with a final call concatenate to the redaction of the whole text |
| `Redaction.FirstMatchIsLongest` | pkg/a2aext/redact.go:41-50 | in the sorted list the first secret that matches is the longest one that matches |
| `Redaction.RedactionIsLeftmostLongest` | pkg/a2aext/redact.go:41-50 | the redaction is the rendering of every leftmost-longest reading of the text, so it depends only on the set of secrets |
| `Redaction.ReadingExists` | pkg/a2aext/redact.go:41-50 | every text has a leftmost-longest reading |
| `Redaction.NoSecretComesThrough` | pkg/a2aext/redact.go:41-50 | the first byte of every occurrence of a secret in the text lies in a stretch that became the placeholder |
| `Redaction.Redactor.constructor` | pkg/a2aext/redact.go:20-35 | a new redactor holds the sorted, distinct, non-empty secrets other than the placeholder, and no text |
| `Redaction.Redactor.RedactAll` | pkg/a2aext/redact.go:41-50 | the one-shot method returns the redaction and leaves the held text alone |
| `Redaction.Redactor.WaitForLonger` | pkg/a2aext/redact.go:65-71 | the inner scan finds out whether some longer secret begins with the held text |
| `Redaction.Redactor.Scan` | pkg/a2aext/redact.go:56-91 | the loop emits and holds what the specification of a call says |
| `Redaction.Redactor.RedactChunk` | pkg/a2aext/redact.go:56-91 | output and new held text of a call are the specified functions of the old held text, the chunk and the final flag |
| `Utf8.SplitPieces` | worker/internal/a2aruntime/runtime.go:801-821 | the pieces are non-empty, within the limit and join to the value |
| `Utf8.SplitKeepsRunes` | worker/internal/a2aruntime/runtime.go:801-821 | if every code point fits the limit, every piece of well-formed text is well-formed |
| `Utf8.SplitCutsNoRuneIff` | worker/internal/a2aruntime/runtime.go:801-821 | on well-formed text the splitter cuts no code point exactly when no code point is wider than the limit |
| `Utf8.FourBytesSuffice` | worker/internal/a2aruntime/runtime.go:801-821 | with a limit of at least four no code point of well-formed text is cut |
| `Utf8.FindCut` | worker/internal/a2aruntime/runtime.go:807-813 | the inner loop finds the last code point start within the limit, or the limit when there is none |
| `Utf8.SplitUTF8` | worker/internal/a2aruntime/runtime.go:801-821 | the loop returns the specified pieces |
| `LogPipeline.EmitLogText` | worker/internal/a2aruntime/runtime.go:620-637 | one call extends the text of its own stream by what the redactor emits and no other stream |
| `LogPipeline.RunCallsText` | worker/internal/a2aruntime/runtime.go:620-646 | over any interleaving of calls on several streams, each stream's chunks join to its own redactor's outputs |
| `LogPipeline.LogsAreRedactedOutput` | worker/internal/a2aruntime/runtime.go:620-646 | when no emit fails, each stream read in chunk order after the final flush is the one-shot redaction of everything written to it |
| `LogPipeline.ChunksAreOrderly` | worker/internal/a2aruntime/runtime.go:620-637 | over any interleaving of calls the chunks of each stream are numbered 0, 1, 2, ..., and every chunk is non-empty and at most 32 KiB |
| `LogPipeline.RedactionKeepsUtf8` | pkg/a2aext/redact.go:56-91 | with well-formed secrets and input, every call emits and holds well-formed text |
| `LogPipeline.ChunksAreUtf8` | worker/internal/a2aruntime/runtime.go:620-646 | with well-formed secrets and output every emitted chunk is well-formed |
| `LogPipeline.LogEmitter.EmitChunks` | worker/internal/a2aruntime/runtime.go:625-635 | the emitting loop appends the split pieces with consecutive indices |
| `LogPipeline.LogEmitter.Emit` | worker/internal/a2aruntime/runtime.go:620-637 | redactor, counter and emitted chunks move as the specification of one call says |
| `Cursor.Base64RoundTrip` | worker/internal/a2astore/schema.go:194-204 | unpadded base64url decoding undoes encoding for every byte string |
| `Cursor.CursorRoundTrip` | worker/internal/a2astore/schema.go:194-215 | decoding undoes encoding for positive times and non-empty ids, also for ids containing a bar |
| `Cursor.CursorRoundTripIff` | worker/internal/a2astore/schema.go:194-215 | the encoding of a time and an id decodes to them exactly when the time is positive and the id non-empty, for every 64-bit time |
| `ListPaging.ResumeAfter` | worker/internal/a2astore/store.go:221-288 | the cursor of the k-th matching row resumes exactly after it |
| `ListPaging.NextResumes` | worker/internal/a2astore/store.go:275-281 | the token of a page decodes to the position of its last row, and what it selects is exactly the rest |
| `ListPaging.FollowCollects` | worker/internal/a2astore/store.go:221-288 | all pages from a position together are the rows after it, each once and in order, and there are finitely many |
| `ListPaging.PagingIsPartition` | worker/internal/a2astore/store.go:221-288 | from an empty token, paging returns every matching task exactly once in descending (time, id) order |
| `ListPaging.Scan` | worker/internal/a2astore/store.go:252-271 | the scanning loop collects the rows that match the request and lie after the cursor |
| `ListPaging.ListTasks` | worker/internal/a2astore/store.go:221-288 | one page, its next token and its error are as specified |
| `LockMap.StepKeepsInv` | manager/internal/app/a2a_reconciler.go:333-354 | every step of every goroutine keeps sharing, counting and mutual exclusion |
| `LockMap.DepartKeepsShared` | manager/internal/app/a2a_reconciler.go:347-352 | the entry is dropped only when nobody else is inside for its task |
| `LockMap.RunKeepsInv` | manager/internal/app/a2a_reconciler.go:333-354 | the invariant holds in every state of every interleaving |
| `LockMap.LockMapIsSafe` | manager/internal/app/a2a_reconciler.go:333-354 | in every interleaving at most one goroutine applies for a task, all inside share one lock, refs is their number, an entry exists exactly while somebody is inside, and no counter is decremented below zero |
| `LockMap.ProjectionLocks.Count` | manager/internal/app/a2a_reconciler.go:334-341 | the counted entry is the one the machine's arrival step makes |
| `LockMap.ProjectionLocks.Uncount` | manager/internal/app/a2a_reconciler.go:347-352 | the map after leaving is the one the machine's departure step makes |
| `Retries.RetryIsAhead` | manager/internal/app/a2a_reconciler.go:202-250 | a scheduled retry lies strictly after now and not after creation plus 60 s |
| `Retries.TryStaysOnTime` | manager/internal/app/a2a_reconciler.go:202-250 | a claimed attempt that fails either gives up or is due again in time with one more attempt; the seventh failure gives up |
| `Retries.AttemptsLeft` | manager/internal/app/a2a_reconciler.go:202-250 | an intent with k attempts is claimed at most 7 - k more times, by induction over the whole schedule |
| `Retries.BoundedRetries` | manager/internal/app/a2a_reconciler.go:202-250 | a dispatch whose every attempt fails on the network is claimed at most seven times, on every schedule |
| `Retries.SevenAttemptsHappen` | manager/internal/app/a2a_reconciler.go:202-250 | the bound is reached: there is a schedule with seven claims |
| `Domain.Round.Observe` | pkg/domain/a2a.go:233-271 | an observation succeeds exactly when the sequence does not fall and no terminal status changes; the cursor, status and completion then are as observed |
| `Lifecycles.NewRoundIff` | pkg/domain/a2a.go:157-182 | a round is made exactly of complete names, a positive attempt and turn and a round-creating operation, with the given identity and cursor, open and unbound |
| `Lifecycles.NewIntentIff` | pkg/domain/a2a.go:327-343 | an intent is made exactly of a complete command, belongs to the round, is due at once and has no attempts |
| `Lifecycles.AffectFollows` | pkg/domain/a2a.go:188-298 | a binding, observation, unreachability or error is accepted exactly when a separate predicate says so; it keeps a bound identity, and contact counts as lost since the first failure until the next answer |
| `Lifecycles.RoundLivesAreOrderly` | pkg/domain/a2a.go:188-298 | over any sequence of these calls the version counts the accepted ones, the cursor never falls, a bound identity stays and a completed round stays completed |
| `Lifecycles.TerminalStays` | pkg/domain/a2a.go:233-271 | over any sequence without a binding a terminal status never changes |
| `Domain.Worker.AssignTask` | pkg/domain/worker.go:241-252 | refused exactly for a blank id; the list gains exactly this task and no duplicate |
| `Domain.Worker.ReleaseTask` | pkg/domain/worker.go:254-262 | the list loses exactly this task |
| `Domain.RemovedOnce` | pkg/domain/worker.go:254-262 | cutting one position out of a duplicate-free list removes that element and no other |
| `Lifecycles.PerformFollowsEdge` | pkg/domain/task.go:315-627 | every task transition follows an edge of the state machine or keeps the status, and raises the version by one unless nothing changes |
| `Lifecycles.EdgesAreExact` | pkg/domain/task.go:315-627 | a transition between two different statuses exists exactly for the listed edges: the design diagram's and fourteen more |
| `Lifecycles.PerformKeeps` | pkg/domain/task.go:315-627 | one transition keeps worker, worktree, session, agent and project except where a retry, an assignment or an edit changes them |
| `Lifecycles.LivesAreOrderly` | pkg/domain/task.go:315-627 | over any sequence of calls an archived task stays archived, the version never falls, and without a retry a bound worktree is never exchanged and a session never forgotten |
| `Lifecycles.CountersCount` | pkg/domain/a2a.go:349-417 | over any sequence of calls an intent's version counts the transitions taken and its attempt counter the attempts among them |
| `Lifecycles.DeliveredStays` | pkg/domain/a2a.go:349-417 | without a failure verdict a delivered intent stays delivered and is never attempted again |
| `Projection.AdvanceMovesByOne` | manager/internal/app/a2a_projection.go:88-141 | the cursor moves by one together with a new inbox row for that sequence, and not at all without one |
| `Projection.AskIff` | manager/internal/app/a2a_projection.go:330-353 | a question is recorded exactly when its name is unused, its kind known and the task at work; it then is pending with that name and kind and the task waits |
| `Projection.ResolveIff` | manager/internal/app/a2a_projection.go:354-372 | a resolution is recorded exactly when the question exists, is this task's and the task is active; it answers the question and a waiting task runs again |
| `Projection.ProjectEventKeeps` | manager/internal/app/a2a_projection.go:288-391 | an event keeps the task's activity, identity and worker, and of the round everything but the diagnosis |
| `Projection.ApplyStatusKeeps` | manager/internal/app/a2a_projection.go:415-458 | a status keeps the task's identity and worker and never lowers its version |
| `Projection.StatusFollowsTable` | manager/internal/app/a2a_projection.go:415-458 | a known status moves the task as a separate table says and is refused exactly where the table has no entry or a first WORKING names another worktree |
| `Projection.PlanWrites` | manager/internal/app/a2a_projection.go:47-196 | a planned projection writes successors of the copies it read, expects their versions, and extends the inbox by the next sequence or not at all |
| `Projection.PlanFailureWrites` | manager/internal/app/a2a_projection.go:230-280 | a planned failure writes successors of the copies it read and expects their versions |
| `Service.NextStartIdentity` | manager/internal/app/a2a.go:198-209 | the next attempt is one beyond every earlier one; the first is a START and any later a RETRY |
| `ManagerRuns.PerformRemote` | manager/internal/app/a2a_projection.go:47-196 | a successful remote call is a planned and committed projection of the copies it read |
| `ManagerRuns.ReadsAreCopies` | pkg/store/a2a_memory.go:126-182 | every load hands out records that are stored or were stored, under their ids |
| `ManagerRuns.CopiesStay` | pkg/store/a2a_memory.go:44-92 | a copy stays a possibly outdated one of the stored record: same version means same record |
| `ManagerRuns.AppliedIsCurrent` | pkg/store/a2a_memory.go:369-408 | a projection that passes the version checks computed from exactly the stored records |
| `ManagerRuns.ProjectionForward` | pkg/store/a2a_memory.go:44-92 | a projection commit moves every record forward and keeps the tables sound |
| `ManagerRuns.ParentIsStored` | manager/internal/app/service.go:1328-1397 | when a CONTINUE commits, the round it continues is stored unchanged, with the same execution and a cursor the new round does not exceed |
| `ManagerRuns.CommandForward` | pkg/store/a2a_memory.go:18-38 | a command commit moves every record forward and keeps the tables sound |
| `ManagerRuns.PerformIsGood` | pkg/store/a2a_memory.go:18-120 | every committing call moves the store forward and overwrites only the records it read |
| `ManagerRuns.PerformReplaces` | pkg/store/a2a_memory.go:18-120 | what a commit puts in the place of a stored round, intent or task is the transition the call computed |
| `ManagerRuns.DirectMoves` | manager/internal/app/service.go:571-783 | a direct call saves one task over its predecessor or under a new id, deletes one, or touches workers only |
| `ManagerRuns.DeleteMoves` | pkg/store/memory.go:113-163 | deleting a task takes its rounds, intents and inbox along and nothing of others |
| `ManagerRuns.NextKeepsInv` | pkg/store/a2a_memory.go:18-120 | one step of any goroutine, load or commit, keeps the machine's invariant |
| `ManagerRuns.RunKeepsInv` | pkg/store/a2a_memory.go:18-120 | the invariant holds in every state of every interleaved run |
| `ManagerRuns.NoLostUpdate` | pkg/store/a2a_memory.go:269-408 | in every interleaving of loads and commits, a commit overwrites a round, an intent or a task only when the copy it computed from is the stored record; what it writes is the transition computed from that record, with a strictly higher version |
| `ExactlyOnce.ExtendKeepsGapFree` | manager/internal/app/a2a_projection.go:109-128 | recording the next sequence keeps the inbox gap-free |
| `ExactlyOnce.DeleteKeepsGapFree` | pkg/store/memory.go:113-163 | deleting a task keeps the inboxes of the other executions gap-free |
| `ExactlyOnce.AdvanceIsPaired` | manager/internal/app/a2a_projection.go:393-413 | an update that makes a round terminal carries the terminal event of the same status, or is a bare REJECTED at sequence 0 |
| `ExactlyOnce.PlanIsPaired` | manager/internal/app/a2a_projection.go:47-196 | the whole plan keeps that pairing |
| `ExactlyOnce.PerformKeepsProper` | manager/internal/app/a2a_projection.go:47-280 | every call keeps the inbox gap-free and terminal rounds closed |
| `ExactlyOnce.RunIsProper` | manager/internal/app/a2a_projection.go:47-280 | so does every interleaved run |
| `ExactlyOnce.CountRows` | pkg/store/a2a_memory.go:63-71 | a gap-free inbox of cursor n has n rows |
| `ExactlyOnce.InboxIsOneToN` | manager/internal/app/a2a_projection.go:109-128 | in every state of every interleaved run, the inbox sequences of an execution are exactly 1..N, each in one row, N being the largest cursor of its rounds, also across CONTINUE rounds |
| `ExactlyOnce.TerminalPairing` | manager/internal/app/a2a_projection.go:393-413 | every commit of a remote update in every interleaved run pairs a new terminal status with its recorded terminal event or is a bare REJECTED at sequence 0, and never changes a terminal status |
| `TaskInvariants.OneLiveMeans` | manager/internal/app/service.go:1246-1397 | the invariant's meaning: an active task has exactly one open round, its last, on its own worker, any other task none |
| `TaskInvariants.LaunchKeepsOneLive` | manager/internal/app/service.go:1289-1318 | starting a task with a new last round keeps it |
| `TaskInvariants.FinishKeepsOneLive` | manager/internal/app/a2a_projection.go:156-170 | ending a task together with its open round keeps it |
| `TaskInvariants.RetireKeepsOneLive` | manager/internal/app/a2a_migration.go:19-72 | ending a task that has no round keeps it |
| `TaskInvariants.OrphanBreaksOneLive` | manager/internal/app/a2a_projection.go:415-458 | ending an active task without closing its open round breaks it |
| `TaskInvariants.TopIsLive` | pkg/store/a2a_memory.go:144-158 | the last round in listing order of an active task is its open one |
| `TaskInvariants.LaunchKeepsLeases` | manager/internal/app/service.go:1289-1318 | starting a task and leasing its worker keeps leases and activity in step |
| `TaskInvariants.FinishKeepsLeases` | manager/internal/app/a2a_projection.go:162-170 | ending a task and releasing its worker does too |
| `TaskInvariants.CancelKeepsQuestions` | pkg/store/a2a_memory.go:467-476 | whatever becomes of the task, canceling its pending interactions leaves no orphan |
| `ManagerInvariants.PlanIsPlanned` | manager/internal/app/a2a_projection.go:142-196 | what an update does to task, round, worker and questions, whichever round it addresses |
| `ManagerInvariants.FailureIsPlanned` | manager/internal/app/a2a_projection.go:230-280 | what a failure does to task, round, worker and questions |
| `ManagerInvariants.StartLaunches` | manager/internal/app/service.go:1246-1322 | a planned start launches an inactive task with a round after all its others, on a leased worker |
| `ManagerInvariants.ContinueLaunches` | manager/internal/app/service.go:1328-1397 | a planned continue launches a finished task with the next turn of its last round's execution, on the same worker |
| `ManagerInvariants.NeverDuplicate` | pkg/store/a2a_memory.go:50-71 | in one atomic call an event is seen by the first read or new to the commit |
| `ManagerInvariants.RemoteUpdateKeepsInvIff` | manager/internal/app/a2a_projection.go:415-458 | an accepted remote update keeps one live round and the leases exactly when it addresses the last round, or its status is not terminal, or the task is not active |
| `ManagerInvariants.FailRoundKeepsInvIff` | manager/internal/app/a2a_projection.go:230-280 | a failed round keeps them exactly when it is the task's last, the task is not active, or the round had already failed so |
| `ManagerInvariants.OneLiveRound` | manager/internal/app/service.go:1246-1397 | in every run of atomic calls whose updates are well addressed, an active task has exactly one open round, it comes after all others and runs on the task's worker; any other task has none |
| `ManagerInvariants.LeaseConservation` | pkg/domain/worker.go:241-262 | in the same runs a worker's list names a task, and once, exactly when the task is active and assigned to that worker, and the worker of an active task exists |
| `ManagerInvariants.NoOrphanQuestions` | pkg/store/a2a_memory.go:457-476 | in every run, well addressed or not, a pending interaction belongs to an active task |
| `Interleavings.CommitDid` | pkg/store/a2a_memory.go:18-120 | every commit is one of seven deeds, each computed from the round and task that the store holds, however old the copies of other calls in flight are |
| `Interleavings.LaunchIsLast` | pkg/store/a2a_memory.go:18-48 | the round that a start or continue opens comes after every stored round of its task, whatever was committed since its list was read |
| `Interleavings.CommitKeepsOneLiveIff` | manager/internal/app/a2a_projection.go:230-458 | an update or failure that is committed in any interleaving keeps one live round exactly when it is well addressed at its commit |
| `Interleavings.OneLiveRound` | manager/internal/app/service.go:1246-1397 | one live round in every interleaved run whose updates are well addressed at their commit |
| `Interleavings.CommitKeepsLeasesIff` | pkg/store/a2a_memory.go:369-381 | a commit that writes a worker keeps the leases exactly when its copy of the worker has the stored tasks, apart from its own |
| `Interleavings.LeaseConservation` | pkg/domain/worker.go:241-262 | lease conservation in the same runs, when no worker id is used again and a migration holds its task's worker |
| `Interleavings.NoOrphanQuestions` | pkg/store/a2a_memory.go:457-476 | in every interleaved run a pending interaction belongs to an active task |
| `ReusedWorker.ReuseLosesLease` | pkg/store/a2a_memory.go:369-381 | for all proper names there is an interleaved run in which a worker is deleted and registered again and a start that read the deleted one commits, so that a task is active on a worker that does not have it |
| `ReusedWorker.CastIsProper` | pkg/store/a2a_memory.go:369-381 | such names exist |
| `StaleReplay.ReplayBreaksOneLive` | manager/internal/app/a2a_projection.go:415-458 | every replay of a superseded round's terminal event is accepted and ends the running turn's task under its open round |
| `ReplayInstance.ReplayEndsRunningTurn` | manager/internal/app/a2a_projection.go:415-458 | for all proper names there is a run from a store without rounds (start, claim, worktree, completion, continue) that is in order until the first turn's terminal event is replayed, which leaves an open round without an active task |
| `ReplayInstance.CastIsProper` | manager/internal/app/a2a_projection.go:415-458 | such names exist |
| `Delivery.PlanAdds` | manager/internal/app/a2a_projection.go:288-391 | a plan adds exactly the log or message of its new event |
| `Delivery.ConductEnds` | manager/internal/app/a2a_projection.go:415-458 | a terminal status ends an active task with the status that belongs to it |
| `Delivery.PlanFollows` | manager/internal/app/a2a_projection.go:142-196 | a plan keeps a round's terminal status and its task's status in agreement |
| `DeliveryRuns.DeliveryIsFaithful` | manager/internal/app/a2a_projection.go:47-196 | one delivery appends at most the delivered event to the round's history, and everything stored of the round stays the fold of its history |
| `DeliveryRuns.FailureIsFaithful` | manager/internal/app/a2a_projection.go:230-280 | a failure by the Manager appends at most its ruling to that history, and everything stored stays its fold |
| `Delivery.UnruledIsPlain` | manager/internal/app/a2a_projection.go:47-128 | a history without rulings is that of its events |
| `Delivery.EventDiagnoses` | manager/internal/app/a2a_projection.go:460-473 | an event changes the round's diagnosis exactly as the reference fold says |
| `Delivery.PrefixOfStream` | manager/internal/app/a2a_projection.go:109-128 | consecutively numbered events out of a numbered stream are its prefix |
| `DeliveryRuns.PerformGrows` | pkg/store/a2a_memory.go:81-90 | only a remote update adds inbox rows and lines of a round, and only for the round and the task it read; no commit removes a task or a round |
| `DeliveryRuns.RunIsTidy` | manager/internal/app/a2a_projection.go:47-196 | in every interleaved run a call's task copy is its round's, and every stored line belongs to a stored round of its task |
| `DeliveryRuns.LaunchesOpen` | manager/internal/app/service.go:1246-1397 | in every interleaved run a committed START, RETRY or CONTINUE leaves its round open at its cursor, with nothing recorded or projected and an active task |
| `DeliveryRuns.OtherCommitIsUntouched` | pkg/store/a2a_memory.go:18-120 | no other commit touches a round's position, diagnosis, inbox rows, logs or messages |
| `DeliveryRuns.DirectIsUntouched` | manager/internal/app/service.go:571-783 | nor does any direct call but the deletion of its task |
| `DeliveryRuns.OtherCommitKeepsStatus` | manager/internal/app/service.go:1403-1579 | no other commit moves the task out of or into activity, unless it starts the task, fails one of its rounds or ends it for another round |
| `DeliveryRuns.RunIsFaithful` | manager/internal/app/a2a_projection.go:47-196 | from the opening on, in every interleaved run, the history consists of delivered events and of the Manager's rulings, and everything stored of the round is its fold |
| `DeliveryRuns.DeliveryConverges` | manager/internal/app/a2a_projection.go:88-196 | in every interleaved run with old copies and any other calls in flight, after any deliveries of a numbered stream in any order and number, the recorded events are its prefix up to the cursor, the messages are their fold, and logs and diagnosis are the fold of them and of the rulings with which the Manager failed the round in between (of the events alone when there were none); and a terminal event up to the cursor has decided the task status until the task is moved on |
| `Snapshots.SortBySequenceSorts` | manager/internal/httpapi/a2a_transport.go:816-824 | the replayed events are the same ones in ascending order |
| `Snapshots.SnapshotCarriesAll` | manager/internal/httpapi/a2a_transport.go:646-768 | a snapshot that is let through hands over every one of its events |
| `Snapshots.CommitHas` | manager/internal/httpapi/a2a_transport.go:646-694 | an update that is committed, as news or as a duplicate, leaves its event in the inbox |
| `Snapshots.RecordedOnce` | manager/internal/app/a2a_projection.go:109-128 | two histories that account for the same records have the same events |
| `Snapshots.HadStaysRecorded` | manager/internal/httpapi/a2a_transport.go:646-694 | an event that was in the inbox at some step is among the recorded ones ever after |
| `Snapshots.SnapshotCatchesUp` | manager/internal/httpapi/a2a_transport.go:646-768 | in every interleaved run, a snapshot replayed to its end between any other calls brings the cursor past all its events, and one with a terminal event has ended the task with the snapshot's status |
| `Snapshots.TerminalIsAgreed` | manager/internal/httpapi/a2a_transport.go:696-810 | a terminal snapshot is let through only with exactly one status event, the terminal one, of the same status |
| `StoreObject.MemoryStore.constructor` | pkg/store/memory.go:66-79 | a new store is empty |
| `StoreObject.MemoryStore.CommitCommand` | pkg/store/a2a_memory.go:18-38 | the command commit as specified, or an error and no change |
| `StoreObject.MemoryStore.CheckCommand` | pkg/store/a2a_memory.go:334-367 | the validation accepts exactly what the specification accepts |
| `StoreObject.MemoryStore.CommitProjection` | pkg/store/a2a_memory.go:44-92 | the projection commit as specified with its disposition, or an error and no change |
| `StoreObject.MemoryStore.WriteProjection` | pkg/store/a2a_memory.go:81-90 | the writing part leaves exactly the specified tables |
| `StoreObject.MemoryStore.CheckVersions` | pkg/store/a2a_memory.go:369-408 | the version check accepts exactly the commits that expect the stored versions |
| `StoreObject.MemoryStore.SequenceTaken` | pkg/store/a2a_memory.go:66-70 | finds out whether the execution already has a row with that sequence |
| `StoreObject.MemoryStore.RemoteTaken` | pkg/store/a2a_memory.go:390-396 | finds out whether another round is bound to the remote task |
| `StoreObject.MemoryStore.TurnTaken` | pkg/store/a2a_memory.go:348-354 | finds out whether the execution already has that turn |
| `StoreObject.MemoryStore.CommandTaken` | pkg/store/a2a_memory.go:361-365 | finds out whether an intent already has the command id |
| `StoreObject.MemoryStore.HasRound` | pkg/store/a2a_memory.go:110-114 | finds out whether the task has a round |
| `StoreObject.MemoryStore.LogIDsFree` | pkg/store/a2a_memory.go:429-441 | accepts log ids exactly when they are new and different from each other |
| `StoreObject.MemoryStore.MessageIDsFree` | pkg/store/a2a_memory.go:443-455 | accepts message ids exactly when they are new and different from each other |
| `StoreObject.MemoryStore.CancelPending` | pkg/store/a2a_memory.go:467-476 | every pending interaction of the task is withdrawn and no other changes |
| `StoreObject.MemoryStore.Common` | pkg/store/a2a_memory.go:457-487 | task, worker, interactions, logs and messages become the specified tables |
| `StoreObject.MemoryStore.CommitDispatchResult` | pkg/store/a2a_memory.go:317-332 | round and intent are written together, or neither |
| `StoreObject.MemoryStore.UpdateRound` | pkg/store/a2a_memory.go:269-287 | a round is overwritten exactly when the expected version is stored |
| `StoreObject.MemoryStore.UpdateIntent` | pkg/store/a2a_memory.go:293-311 | an intent is overwritten exactly when the expected version is stored |
| `StoreObject.MemoryStore.CommitMigration` | pkg/store/a2a_memory.go:98-120 | the migration of a task without rounds, or no change |
| `StoreObject.MemoryStore.TaskRounds` | pkg/store/a2a_memory.go:144-158 | the listing has exactly the task's rounds, each once, ordered by attempt and turn |
| `StoreObject.MemoryStore.FindCandidate` | manager/internal/app/service.go:1257-1268 | a candidate that can take the task, or none only if there is none |
| `StoreObject.MemoryStore.DeleteTask` | pkg/store/memory.go:113-163 | the task and exactly its own records are gone, or an error and no change |
| `ServiceObject.Manager.ReadRound` | manager/internal/app/a2a_projection.go:48-64 | the first reads of an update are copies from the store |
| `ServiceObject.Manager.ApplyRemoteUpdate` | manager/internal/app/a2a_projection.go:31-196 | the call on the object does what the specified remote update does to the tables, or fails without change |
| `ServiceObject.Manager.FailRound` | manager/internal/app/a2a_projection.go:230-280 | the same for a failed round |
| `ServiceObject.Manager.StartTask` | manager/internal/app/service.go:1246-1322 | the same for a start |
| `ServiceObject.Manager.ContinueTask` | manager/internal/app/service.go:1328-1397 | the same for a continue |
| `ServiceObject.Manager.InterruptTask` | manager/internal/app/service.go:1403-1436 | the same for an interrupt |
| `ServiceObject.Manager.RespondTaskInteraction` | manager/internal/app/service.go:1470-1579 | the same for an answer |
| `ServiceObject.Manager.Claim` | manager/internal/app/a2a_reconciler.go:40-82 | the same for one claim of the reconciler |
| `ServiceObject.Manager.NetworkFailure` | manager/internal/app/a2a_reconciler.go:202-255 | the same for a network failure up to the point where it gives up |
| `ServiceObject.Manager.Migrate` | manager/internal/app/a2a_migration.go:19-72 | the same for one task of the legacy migration |
| `Compaction.ScanTasks` | worker/internal/a2astore/maintenance.go:486-514 | the task scan collects the turns of ended and of running tasks, or fails exactly when a task names two turns |
| `Compaction.RetentionTargets` | worker/internal/a2astore/maintenance.go:477-557 | the targets are exactly the turns with an ended task and no running one |
| `Compaction.KeptIsFilter` | worker/internal/a2astore/maintenance.go:592-690 | a row is kept exactly when it is not both expired and of a target turn |
| `Compaction.KeptStaysOrdered` | worker/internal/a2astore/maintenance.go:592-690 | the kept rows stay in index order |
| `Compaction.VisitedIs` | worker/internal/a2astore/maintenance.go:592-690 | after m visited rows the table is the kept ones of them, then the rest |
| `Compaction.PageIsNextStretch` | worker/internal/a2astore/maintenance.go:607-631 | the query behind the cursor returns the next stretch of the original table, whatever was deleted before it |
| `Compaction.DeletePage` | worker/internal/a2astore/maintenance.go:653-682 | working through one page visits its rows in order and deletes exactly the doomed ones |
| `Compaction.VisitPage` | worker/internal/a2astore/maintenance.go:607-687 | one round of the loop advances by one page |
| `Compaction.DeletePages` | worker/internal/a2astore/maintenance.go:592-690 | the loop ends, looks at every expired row once and leaves the filter of the table |
| `Compaction.DeleteExpiredTerminalTurnEvents` | worker/internal/a2astore/maintenance.go:592-690 | the paged deletion is the filter, returns the number deleted, looks at every expired row exactly once, and fails exactly when an expired row does not decode to itself, then without change |
| `Acceptance.StepIsNext` | worker/internal/a2astore/extensions.go:433-484 | what one step accepts of an execution continues its cursor without gap up to the new cursor |
| `Acceptance.AcceptedOnceAndInOrder` | worker/internal/a2astore/extensions.go:331-484 | over any run of saves, appends, task syncs and compactions the accepted sequences are exactly those between first and last cursor, each once and in order, although rows are deleted |
| `Runtime.StepKeepsInv` | worker/internal/a2aruntime/runtime.go:648-701 | every step of every emitter keeps counter and published stream in agreement |
| `Runtime.PublishedWithoutGap` | worker/internal/a2aruntime/runtime.go:648-701 | under any interleaving of emitters, invalid events and cancellation the published sequences continue the binding's last one without a gap |
| `Runtime.EachEventOnce` | worker/internal/a2astore/journal.go:120-184 | the journal accepts each event of a stream once, in order and without error, however often, and at whatever states and times, it arrives again |
| `Runtime.TwiceIsComplete` | worker/internal/a2astore/journal.go:19-39 | delivering each event by artifact and again by status message covers the whole stream |
| `Runtime.RuntimeAndJournalAgree` | worker/internal/a2astore/journal.go:19-184 | in any run of the emitters what the journal accepts of the published events, delivered each twice at any states and times, is exactly the published stream, and the cursor ends on its last sequence |
| `Recovery.InterruptedContinueRequest` | worker/internal/a2astore/maintenance.go:167-211 | finds the request of the interrupted CONTINUE, none if there is none, and fails exactly when the candidates disagree with the binding |
| `Recovery.CommandTaskIDs` | worker/internal/a2astore/maintenance.go:214-241 | the ids are exactly those of earlier commands of the same execution and turn before |
| `Recovery.PreviousTerminalTask` | worker/internal/a2astore/maintenance.go:213-294 | the one ended task of the turn before, and an error exactly when there is not exactly one |
| `Recovery.RollBack` | worker/internal/a2astore/maintenance.go:130-163 | rolling one binding back succeeds exactly when it is recoverable and gives the binding of the turn before |
| `Recovery.RollBackAll` | worker/internal/a2astore/maintenance.go:90-165 | the loop succeeds exactly when every binding is recoverable; each binding then is as it was, rolled back, or gone because nothing explains it |
| `Recovery.RecoverStartup` | worker/internal/a2astore/maintenance.go:39-88 | recovery succeeds exactly when every orphaned binding is recoverable, then rolls back each of them, frees its command and counts the deleted rows |
| `Recovery.WhatIsLeft` | worker/internal/a2aruntime/runtime.go:139-217 | what a crash between SaveBinding and the task's creation leaves in the tables |
| `Recovery.PreviousAreTurnTasks` | worker/internal/a2astore/maintenance.go:213-294 | what the lookup finds after the interrupted CONTINUE are the ended tasks of the binding's turn before it, known by their events or by a stored command |
| `Recovery.InterruptedRecoverableIff` | worker/internal/a2astore/maintenance.go:90-163 | that binding is recoverable exactly when, before the CONTINUE, the request spells the worktree as the binding does, no ended task of the context names two turns, and exactly one ended task is of the binding's turn |
| `Recovery.RecoverySucceedsIff` | worker/internal/a2astore/maintenance.go:39-88 | recovery then succeeds exactly when that condition holds and every other binding was recoverable before |
| `Recovery.RecoveryUndoesContinue` | worker/internal/a2astore/maintenance.go:39-294 | after a successful recovery turn, session, worktree and cursor of the binding are back, it stands on the one ended task of its turn, the command is free, and the same CONTINUE is accepted again |
| `Recovery.OwnTaskRestoredIff` | worker/internal/a2astore/maintenance.go:213-294 | the binding is back on its own task exactly when that task is stored, has ended in the context and is known to be of its turn by its events or a stored command |
| `Recovery.RespelledWorktreeBlocksStartup` | worker/internal/a2astore/maintenance.go:90-163 | a CONTINUE whose path is spelled differently but resolves to the same worktree is accepted and, once interrupted, blocks every later start |
| `Recovery.RespelledInstance` | worker/internal/a2astore/maintenance.go:90-163 | an instance of this that starts from empty tables: a first turn, then a respelled CONTINUE |
| `WorkerObject.InsertKeepsOrder` | worker/internal/a2astore/extensions.go:460-470 | a new journal row keeps the index order |
| `WorkerObject.InsertKeepsUnique` | worker/internal/a2astore/extensions.go:460-470 | a new journal row keeps the primary key unique |
| `WorkerObject.Store.constructor` | worker/internal/a2astore/store.go:46-78 | a new store has empty tables |
| `WorkerObject.Store.ReserveCommand` | worker/internal/a2astore/extensions.go:56-99 | the tables become those of the specified reservation, or an error and no change |
| `WorkerObject.Store.BindCommand` | worker/internal/a2astore/extensions.go:105-153 | the same for binding a command |
| `WorkerObject.Store.SaveRuntimeBinding` | worker/internal/a2astore/extensions.go:317-370 | the same for saving a binding |
| `WorkerObject.Store.AppendEvent` | worker/internal/a2astore/extensions.go:414-489 | the same for appending an event, keeping the journal's keys and order |
| `WorkerObject.Store.SyncTaskEvents` | worker/internal/a2astore/journal.go:19-39 | all events of a trigger are appended, or none |
| `WorkerObject.Store.CompactBefore` | worker/internal/a2astore/maintenance.go:391-470 | journal and commands become those of the specified compaction with the number of deleted rows, or an error and no change |
| `WorkerObject.Store.RecoverStartup` | worker/internal/a2astore/maintenance.go:39-88 | the object recovers exactly as specified, with the counts of deleted rows, or fails without change |

## Left out

- The web interface, GraphQL, the FRP tunnel, WebSocket, HTTP and process code, git and the agents' own protocols:
  I/O.
- The A2A SDK, SQL text and drivers: tables are maps and sequences, each transaction or locked method one step.
- JSON encoding and SHA hashing: two contents are equal when their values are; a row that does not decode is a flag.
- UUIDs: new identifiers are parameters that were not issued before. Clocks: times are parameters.
- Domain events, the outbox and `RecordA2ARoundUpdated`: written beside the records and read by nothing modelled here.
- Titles, descriptions, dates, branches, commands and `AgentConfig` of a task; title, body and raw payload of an
  interaction.
- Field-by-field validation of requests and events and `buildA2ARequest`: a validity flag each.
- Log, message and inbox keys: pairs of round and event instead of their joined text.
- `MarkWorkerLost`: fails tasks without their rounds and has no caller.
- Races through `SaveTask` and `SaveWorker`, which check no version: the calls that use them are atomic steps.
- ManagerRuns.NoLostUpdate: not about workers, because a worker id can be registered again after it was deleted.
- Interleavings.LeaseConservation: the source always reads a migrated task's worker after the task; that a migration
  holds it at its commit is a condition here, because the machine leaves open which reads a call makes.
- ExactlyOnce.TerminalPairing: not about failed rounds, where the Manager overwrites the remote status on its own.
- Retries.BoundedRetries: not about an intent found SENDING for too long and claimed again, which is not a recorded
  failure.
- Intent status SENT: nothing but `MarkSent` sets it and nothing calls that.
- The set of active dispatch keys and the deadline watcher of the reconciler: they decide when a call is made, and
  every order of calls is covered.
- `a2aStreamProjector`, which pairs a live status with its event before handing both over: deliveries of any pairing
  are covered.
- Several owners in one Worker database, task row versions, artifact trimming, `FailNonTerminal` and
  `recoverRestartBindingTx`.
- Deletion of bindings: the journal laws hold while the binding exists.
- WorkerObject.Store.SyncTaskEvents: takes the events of a trigger already sorted by sequence.
- WorkerObject.Store.CompactBefore: journal and command rows only, not the shrinking of task snapshots.
- Symbolic links: a parameter that resolves a path or fails, and fails on the empty path.
- LogPipeline.LogsAreRedactedOutput: says nothing when an emit fails, where the source stops the turn.
- LogPipeline.LogEmitter.EmitChunks: an emit that fails midway is not modelled.
- LogPipeline.LogEmitter.Emit: the error return of an emit that fails is not modelled.
- ListPaging.ListTasks: rows decode, and the trimming of history and artifacts in a returned task is left out.
- ManagerRuns.DirectMoves: the calls' tests for an archived project are left out; they only refuse more.
- StoreObject.MemoryStore.DeleteTask: git backups and turn snapshots are not modelled.
- ServiceObject.Manager.StartTask: that the project exists and the request can be built is a flag.
- ServiceObject.Manager.ContinueTask: that the project exists and the request can be built is a flag.
- ServiceObject.Manager.RespondTaskInteraction: that the request can be built is a flag.
- ServiceObject.Manager.Claim: one claim, without the set of active dispatch keys.
- ServiceObject.Manager.NetworkFailure: ends where the source goes on to fail the round, which is `FailRound`.
- Compaction.RetentionTargets: the turns only, not the list of ended tasks whose snapshots are shrunk.
- DeliveryRuns.DeliveryConverges: the task status part, and it alone, is about the time until the task is started,
  retried, archived or failed by the Manager, or ended by another round.
