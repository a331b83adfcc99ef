# AllCallAll agent runtimes: verified models

Dafny models of the stateful parts of the AllCallAll agent services, and proofs of what they keep over every run.
Every component is modelled twice. Its state is a value, its steps are functions on that value, and a run is any
sequence of steps; the results about runs are lemmas over that. Where the source updates an object in place there is
also a class with the same fields, whose methods follow the source's branches and loops and are proved to take the
object's abstract value to exactly what the step function says.

| component | source | files |
|---|---|---|
| checkpoint transactions | `checkpoint/mysql.py` | CheckpointModel, CheckpointVersions, CheckpointIsolation, CheckpointBuffers, CheckpointDeletion, CheckpointSaver |
| admission controller | `admission.py` | AdmissionModel, AdmissionInvariants, AdmissionRuns, AdmissionController |
| tool task queue | `async_tool_queue.py` | ToolQueueModel, ToolQueueRuns, ToolQueueLifecycle, ToolQueueTakeovers, ToolQueueBackoff, ToolQueueWorkers, ToolQueueService |
| supervisor frames | `supervisor_transport.py` | SupervisorFraming |
| agentic retrieval | `retrieval.py`, `scoring.py` | RetrievalText, RetrievalRanking, RetrievalMatches, AgenticRetrieval, RetrievalBlankQuery |
| workflow graph | `dag.py`, `nodes/check.py`, `nodes/role_router.py` | RoleRouter, CheckNodes, WorkflowGraph, WorkflowRuns, WorkflowOutcomes |
| parallel roles | `nodes/parallel_roles.py` | RoleReservation, ParallelRoleGroups, RoleMerge |
| deadline and retries | `deadline.py`, `retry.py` | RetryBudgets, RetrySleepers |
| connection pool | `persistence/mysql_pool.py` | ConnectionPool |

Foundations and KeyedLists hold what they share: orders, sums over maps, and lists with one item for each key.
`dafny verify dfyconfig.toml` checks the whole project.

## Where the code does not do what it or its documentation says

- Checkpoints: deleting a thread under an open transaction can defeat the version check, and two checkpoints come to
  share a version (`DeletionDefeatsTheVersionCheck`). `DeletionBreaksExactly` says which open transactions make a
  deletion harmful; a thread that nobody has open can always be deleted (`UnheldDeletionKeeps`). The reads of an open
  transaction can be misled as well (`DeletionMisleadsReads`), and `ReadsAgreeExactly` says when.
- Admission: a waiter can be granted a lease after its last look and leave without it; the slot is then taken for good.
  `LostExactlyInTheWindow` gives the steps that do it, as the state before them shows.
- Tool queue: the module's documentation (`async_tool_queue.py:9-17`) says a crashed worker cannot lose work. An expired
  lease still counts towards its key's cap. `TakenOverExactly` is the condition under which claims take such a task over;
  otherwise it is lost for good (`WithoutRoomLostForGood`, and `SaturatedRun` for such a run).
- Tool queue: the worker loop (`async_tool_queue.py:297-301`) dates a failure with the claim, so the backoff runs from the
  start of an execution and may be over before it fails (`NoWaitAfterALongRun`). `FullWaitExactly` is the condition for
  a full wait; what always holds is `BackoffLowerBound`, on the dates given.
- Tool queue: `complete` and `fail` do not look at the lease, so a worker that outlives its own can reopen a task that
  another has done (`LateFinishReopens`). `SettlingExactly` says what a late finish breaks, and when. Nothing breaks as
  long as named workers finish before their leases are over (`PunctualWorkersAreDisciplined`).
- Retrieval: the shortcut for the final rerank gives other hits than a rerank when `top_k` is zero or negative and no key
  repeats (`ReuseAgreesExactly`); for a blank query also when a chunk among the hits matches the text that was searched
  instead (`BlankReuseAgreesExactly`, and `BlankQueryDiffers` for an input).
- Workflow: the branch that trims the roles of a chat never applies (`RouteRoles`), and a draft accepted because the
  retries are used up keeps "revise" as its recorded quality decision (`FinalDecision`).
- Retry budget: all the sleeping together need not fit into the time there was at the start (`SleepsOverlap`). With one
  set of limits it does for every interleaving exactly when the delays that fit one by one fit together
  (`OverlapFitsExactly`), and for any limits as long as no delay is asked for while another loop sleeps
  (`OneAtATimeFits`); otherwise only the bound for each retry is left (`AnyInterleaving`).
- Connection pool: the saver's documentation (`checkpoint/mysql.py:136-143`) says the pool never shrinks on transient
  faults. A failed factory call of an acquire takes away one place for good (`FailuresDrainThePool`), and a failed call
  of either kind can leave a thread waiting for a connection that never comes; `StrandedExactlyBy` gives every step that
  does.

## How the outside world appears

Times are reals and are passed in, or kept by a clock that only sleeping and running calls advance. Random jitter
(never negative), the results of role branches, critics and factory calls, and the validity of a JSON message are
parameters of the model and arbitrary. A hash is an arbitrary function; results that need it to tell two given texts
apart say so. Lowercasing is an arbitrary map from characters to strings that keeps whitespace. Scores are integers in
hundredths. A database transaction or a block under a lock is one step.

## Model

| member | source | states |
|---|---|---|
| CheckpointIsolation.OverlayReadIsCommittedRead | services/agent-runtime/allcallall_agent_runtime/checkpoint/mysql.py:467-589 | In a transaction that can still commit, a read with or without a checkpoint id returns exactly what the same read returns after the commit: row, version, parent and pending writes in order |
| CheckpointIsolation.ReachableOverlayRead | services/agent-runtime/allcallall_agent_runtime/checkpoint/mysql.py:467-589 | The same for every open transaction of every reachable state, whatever else was opened, put, committed or aborted before |
| CheckpointIsolation.SelectNewest | services/agent-runtime/allcallall_agent_runtime/checkpoint/mysql.py:485-503 | The unnamed read finds a row that no other row of the namespace beats by version and then by id, and only one row can |
| CheckpointIsolation.ReachableVersions | services/agent-runtime/allcallall_agent_runtime/checkpoint/mysql.py:297-325 | In every reachable state the versions of a namespace are pairwise distinct, at least 1 and at most its current version |
| CheckpointIsolation.VersionsAreStable | services/agent-runtime/allcallall_agent_runtime/checkpoint/mysql.py:339-361 | Over any further run a namespace's version never falls, and a stored checkpoint keeps its version and its origin |
| CheckpointIsolation.StaleBaseConflicts | services/agent-runtime/allcallall_agent_runtime/checkpoint/mysql.py:336-361 | Once a namespace has moved past a base, no transaction holding that base can ever commit |
| CheckpointIsolation.FirstCommitterWins | services/agent-runtime/allcallall_agent_runtime/checkpoint/mysql.py:336-465 | Of two transactions with the same base, when the one with a new checkpoint commits, the other conflicts whatever happens in between, and changes no table |
| CheckpointIsolation.DirectPutForcesConflict | services/agent-runtime/allcallall_agent_runtime/checkpoint/mysql.py:795-870 | A direct put of a new checkpoint id forces that conflict on every transaction whose base it has passed |
| CheckpointDeletion.DeletionBreaksExactly | services/agent-runtime/allcallall_agent_runtime/checkpoint/mysql.py:1009-1019 | After a deletion some continuation gives two checkpoints of a namespace one version exactly when some open transaction has buffered, or has room to put, an id of the thread at a version its base already had (if the transactions with such an id can commit once the thread is gone) |
| CheckpointDeletion.VersionsSurviveDeletions | services/agent-runtime/allcallall_agent_runtime/checkpoint/mysql.py:1009-1019 | Over whole runs with deletions at which no transaction has such an id, versions stay distinct and within the namespace's version |
| CheckpointDeletion.UnheldDeletionKeeps | services/agent-runtime/allcallall_agent_runtime/checkpoint/mysql.py:1009-1019 | Deleting a thread of which no open transaction holds a namespace keeps the whole invariant |
| CheckpointDeletion.OverlayReadsSurviveDeletions | services/agent-runtime/allcallall_agent_runtime/checkpoint/mysql.py:467-589 | With such deletions anywhere in the run, a read inside a transaction still returns what it returns after the commit |
| CheckpointDeletion.ReadsAgreeExactly | services/agent-runtime/allcallall_agent_runtime/checkpoint/mysql.py:467-589 | After deletions under open transactions, the reads of one that can still commit are those after its commit exactly when no id it has buffered was stored again at another version |
| CheckpointDeletion.DeletionMisleadsReads | services/agent-runtime/allcallall_agent_runtime/checkpoint/mysql.py:1009-1019 | A run of six calls after which they are not: the transaction reads its record at a version the record will not have |
| CheckpointDeletion.InheritedBreaksVersions | services/agent-runtime/allcallall_agent_runtime/checkpoint/mysql.py:339-361 | The failing family: from every state with such an id and nothing else in the way of the commit, direct puts up to the old base and then the commit give two checkpoints one version |
| CheckpointDeletion.DeletionDefeatsTheVersionCheck | services/agent-runtime/allcallall_agent_runtime/checkpoint/mysql.py:1009-1019 | Such a state, reached by a put, a transaction that puts the same id again, and the deletion of its thread |
| CheckpointVersions.RunKeeps | services/agent-runtime/allcallall_agent_runtime/checkpoint/mysql.py:133-465 | Every run keeps the invariant: tables bounded and distinct, each snapshot consistent with the tables it was loaded from, each buffered record at its allocated version |
| CheckpointVersions.LoadedSnapshot | services/agent-runtime/allcallall_agent_runtime/checkpoint/mysql.py:297-325 | In a consistent database loading a snapshot cannot fail, and the snapshot agrees with the tables |
| CheckpointVersions.NewRecordIsAlone | services/agent-runtime/allcallall_agent_runtime/checkpoint/mysql.py:393-425 | A record a commit newly inserts shares its version with no other row of the namespace after the commit |
| CheckpointBuffers.ReachableBuffersAreAccounted | services/agent-runtime/allcallall_agent_runtime/checkpoint/mysql.py:120-130 | In every reachable state the payload count of an open transaction is the sum over what it buffers, and the three limits hold |
| CheckpointBuffers.SealedBufferIsFrozen | services/agent-runtime/allcallall_agent_runtime/checkpoint/mysql.py:202-214 | After sealing nothing reaches the buffers until the transaction ends |
| CheckpointBuffers.AcceptedRecordIsFlushed | services/agent-runtime/allcallall_agent_runtime/checkpoint/mysql.py:327-425 | An accepted checkpoint that is not put again is in the table, with its content, after a successful commit |
| CheckpointBuffers.AcceptedWriteIsFlushed | services/agent-runtime/allcallall_agent_runtime/checkpoint/mysql.py:426-452 | An accepted pending write that is not replaced is in the table, with its value, after a successful commit |
| CheckpointSaver.TransactionBuffer.constructor | services/agent-runtime/allcallall_agent_runtime/checkpoint/mysql.py:110-118 | A new transaction is open and holds nothing |
| CheckpointSaver.TransactionBuffer.HoldSnapshot | services/agent-runtime/allcallall_agent_runtime/checkpoint/mysql.py:750-754 | The first use of a namespace loads its snapshot and keeps it; a failed load keeps nothing |
| CheckpointSaver.TransactionBuffer.AllocateVersion | services/agent-runtime/allcallall_agent_runtime/checkpoint/mysql.py:755-760 | A known id keeps its version; a new one gets the next, recorded in the snapshot |
| CheckpointSaver.TransactionBuffer.Record | services/agent-runtime/allcallall_agent_runtime/checkpoint/mysql.py:775-785 | The record replaces the one of its key and the payload count follows, unless a limit would be passed |
| CheckpointSaver.TransactionBuffer.Put | services/agent-runtime/allcallall_agent_runtime/checkpoint/mysql.py:743-785 | The whole new state of a buffered put, the version consumed by one that fails for capacity included |
| CheckpointSaver.TransactionBuffer.PutWrites | services/agent-runtime/allcallall_agent_runtime/checkpoint/mysql.py:915-976 | The whole new state of a buffered batch of writes: all of it or nothing, nothing at all for an empty one |
| CheckpointSaver.TransactionBuffer.Seal | services/agent-runtime/allcallall_agent_runtime/checkpoint/mysql.py:202-204 | Sealing succeeds exactly on an open transaction |
| CheckpointSaver.CollectWrites | services/agent-runtime/allcallall_agent_runtime/checkpoint/mysql.py:923-951 | The batch as one row for each write index, later rows of the same index replacing earlier ones |
| CheckpointSaver.Tables.LoadNamespaceSnapshot | services/agent-runtime/allcallall_agent_runtime/checkpoint/mysql.py:297-325 | The two queries give the specified snapshot, or the error for a version behind its checkpoints |
| CheckpointSaver.Tables.Flush | services/agent-runtime/allcallall_agent_runtime/checkpoint/mysql.py:327-465 | A flush applies the whole transaction exactly when its bases are current and its writes are anchored, and otherwise changes nothing and names the failure |
| CheckpointSaver.Tables.CheckNamespaces | services/agent-runtime/allcallall_agent_runtime/checkpoint/mysql.py:339-361 | The loop over the sorted namespaces finds the first one whose base is stale |
| CheckpointSaver.Tables.CheckWrites | services/agent-runtime/allcallall_agent_runtime/checkpoint/mysql.py:363-391 | The loop finds a write whose checkpoint is neither buffered nor stored, an empty id excepted |
| CheckpointSaver.Tables.UpsertCheckpoints | services/agent-runtime/allcallall_agent_runtime/checkpoint/mysql.py:393-425 | The batch of checkpoint rows: new ones inserted, known ones keeping version and origin |
| CheckpointSaver.Tables.UpsertWrites | services/agent-runtime/allcallall_agent_runtime/checkpoint/mysql.py:426-452 | The batch of write rows replaces the rows of its keys and leaves every other |
| CheckpointSaver.Tables.RaiseVersions | services/agent-runtime/allcallall_agent_runtime/checkpoint/mysql.py:453-461 | Each namespace ends at the version its transaction allocated up to |
| CheckpointSaver.Tables.Put | services/agent-runtime/allcallall_agent_runtime/checkpoint/mysql.py:795-870 | A direct put: a known id keeps its version, a new one raises the namespace's by one |
| CheckpointSaver.Tables.GetTuple | services/agent-runtime/allcallall_agent_runtime/checkpoint/mysql.py:467-589 | The read inside or outside a transaction is the specified overlay or committed read |
| CheckpointSaver.SortPending | services/agent-runtime/allcallall_agent_runtime/checkpoint/mysql.py:548-551 | Pending writes come in the order of index, task id and task path |
| AdmissionRuns.ReachableAccounting | services/agent-runtime/allcallall_agent_runtime/admission.py:199-266 | In every reachable state the active count is the number of granted leases not yet released and the sum of the organisations' counts, and every bound on slots, quotas and queue holds |
| AdmissionRuns.ReachableNoIdleSlot | services/agent-runtime/allcallall_agent_runtime/admission.py:238-266 | In every reachable state each queued, uncancelled waiter is blocked by full slots or its organisation's quota |
| AdmissionRuns.FastPathPassesNoEligibleWaiter | services/agent-runtime/allcallall_agent_runtime/admission.py:157-163 | A call that is granted at once passes no waiter that could have been |
| AdmissionRuns.ReachableFirstComeFirstServed | services/agent-runtime/allcallall_agent_runtime/admission.py:216-266 | Within one organisation leases are granted in order of arrival |
| AdmissionRuns.LostExactlyInTheWindow | services/agent-runtime/allcallall_agent_runtime/admission.py:178-197 | A lease is lost exactly when its caller is past its last look and a closed lease is released whose slot goes, by the queue before the release, to that caller; or when it was granted and its caller leaves without looking |
| AdmissionRuns.OneGrantPerRelease | services/agent-runtime/allcallall_agent_runtime/admission.py:216-266 | A release hands its slot to at most one waiter, the first eligible one, and then nobody queued can be granted |
| AdmissionRuns.GrantedExactly | services/agent-runtime/allcallall_agent_runtime/admission.py:216-266 | A queued caller is granted by exactly those steps: the release that hands over to it |
| AdmissionRuns.LostForGood | services/agent-runtime/allcallall_agent_runtime/admission.py:178-197 | A lost lease is never released: its slot stays taken over every further run |
| AdmissionRuns.LeaseLostInARace | services/agent-runtime/allcallall_agent_runtime/admission.py:189-197 | A run of six steps in which a lease is lost that way |
| AdmissionControl.AdmissionController.Enter | services/agent-runtime/allcallall_agent_runtime/admission.py:157-175 | The locked part of an acquire: granted, refused by a full queue, or queued at its end |
| AdmissionControl.AdmissionController.ReleaseSlot | services/agent-runtime/allcallall_agent_runtime/admission.py:216-227 | A release gives the slot back and hands it on as specified |
| AdmissionControl.AdmissionController.RemoveWaiter | services/agent-runtime/allcallall_agent_runtime/admission.py:229-236 | The waiter is taken out if it is still queued, and nothing else changes |
| AdmissionControl.AdmissionController.FindEligible | services/agent-runtime/allcallall_agent_runtime/admission.py:241-247 | The scan stops at the first waiter that is not cancelled and whose organisation has quota |
| AdmissionControl.AdmissionController.GrantWaiters | services/agent-runtime/allcallall_agent_runtime/admission.py:238-266 | The nested loops end in the specified state of slots and queue |
| AdmissionControl.AdmissionLease.Close | services/agent-runtime/allcallall_agent_runtime/admission.py:56-61 | The first close releases the slot, every other changes nothing, so a lease is released once however often it is closed |
| ToolQueueRuns.ClaimRefinesItsSpecification | services/agent-runtime/allcallall_agent_runtime/async_tool_queue.py:171-197 | A claim returns the task of lowest priority number, earliest inserted, among the eligible and unthrottled ones, and none exactly when there is none |
| ToolQueueRuns.ReachableWithinCap | services/agent-runtime/allcallall_agent_runtime/async_tool_queue.py:180-192 | In every reachable state at most the cap of each rate-limit key is being processed |
| ToolQueueRuns.SaturatedKeyIsStuck | services/agent-runtime/allcallall_agent_runtime/async_tool_queue.py:171-197 | Once tasks being processed hold a key up to its cap, no queued task and no expired lease of that key is claimed at any time, until one of them is finished |
| ToolQueueRuns.SaturatedRun | services/agent-runtime/allcallall_agent_runtime/async_tool_queue.py:171-197 | Such a state is reached with a cap of one, two tasks of one key and a claim whose worker crashes: no time is late enough for either task |
| ToolQueueTakeovers.TakenOverExactly | services/agent-runtime/allcallall_agent_runtime/async_tool_queue.py:171-197 | A crashed worker's task, its lease over, is taken over by claims alone exactly when its key is empty, or the key's tasks being processed and its claimable queued ones ahead leave room below the cap; as many claims as there are tasks are enough |
| ToolQueueTakeovers.WithoutRoomLostForGood | services/agent-runtime/allcallall_agent_runtime/async_tool_queue.py:171-197 | Without that room, once that many claims were made it can never be claimed again, however late, until a task of its key is finished |
| ToolQueueLifecycle.EnqueueIsIdempotent | services/agent-runtime/allcallall_agent_runtime/async_tool_queue.py:126-154 | Enqueueing a key again returns its task and changes nothing; a new key gets a task of its own |
| ToolQueueLifecycle.ReachableExecutions | services/agent-runtime/allcallall_agent_runtime/async_tool_queue.py:171-229 | A task runs once for each failed attempt and once more when done or under way, takeovers apart, and never more than its allowance, as long as only tasks being processed are finished |
| ToolQueueLifecycle.ReachableDeadLetters | services/agent-runtime/allcallall_agent_runtime/async_tool_queue.py:209-222 | The dead-letter list holds each dead task exactly once and nothing else |
| ToolQueueLifecycle.ReachableKeys | services/agent-runtime/allcallall_agent_runtime/async_tool_queue.py:97-111 | Idempotency keys and tasks correspond one to one, whoever finishes tasks |
| ToolQueueLifecycle.DoneAndDeadAreFinal | services/agent-runtime/allcallall_agent_runtime/async_tool_queue.py:200-229 | A task that is done or dead stays as it is over every further run in which only tasks being processed are finished |
| ToolQueueLifecycle.LiveLeaseHolds | services/agent-runtime/allcallall_agent_runtime/async_tool_queue.py:173-179 | A task under a live lease with a named owner is not claimed again, whatever is finished besides |
| ToolQueueLifecycle.RunOnceIsDisciplined | services/agent-runtime/allcallall_agent_runtime/async_tool_queue.py:284-295 | A claim followed at once by the completion or failure of what it claimed keeps the discipline the other results need, whatever the worker's name and timeout |
| ToolQueueLifecycle.FinishingADeadTask | services/agent-runtime/allcallall_agent_runtime/async_tool_queue.py:200-222 | Outside that discipline, failing a dead task again lists it twice, and completing it leaves it listed |
| ToolQueueLifecycle.FinishKeepsCountsExactly | services/agent-runtime/allcallall_agent_runtime/async_tool_queue.py:200-229 | A completion or failure keeps counts, dead letters and index exactly when it meets a task that is being processed or done |
| ToolQueueLifecycle.FinishUndoesFinalityExactly | services/agent-runtime/allcallall_agent_runtime/async_tool_queue.py:200-229 | It changes the status of a finished task exactly when it fails a done one or completes a dead one |
| ToolQueueWorkers.PunctualWorkersAreDisciplined | services/agent-runtime/allcallall_agent_runtime/async_tool_queue.py:284-301 | Named workers that finish what they claimed before their lease is over only ever finish tasks being processed, however their claims and finishes interleave, however many of them crash, and whether they date a failure with its claim, as the loop does, or with the moment it is reported |
| ToolQueueWorkers.WorkersKeepFinality | services/agent-runtime/allcallall_agent_runtime/async_tool_queue.py:284-295 | Whatever such workers do, a task that is done or dead stays as it is |
| ToolQueueWorkers.WorkersKeepCounts | services/agent-runtime/allcallall_agent_runtime/async_tool_queue.py:284-295 | Whatever such workers do, executions, attempts and dead letters add up, and no task passes its allowance |
| ToolQueueWorkers.SettlingExactly | services/agent-runtime/allcallall_agent_runtime/async_tool_queue.py:284-295 | What a worker's finish does, late or not: it keeps the counts exactly when it meets its task being processed or done, and undoes finality exactly when it fails a done task or completes a dead one |
| ToolQueueWorkers.LateFinishReopens | services/agent-runtime/allcallall_agent_runtime/async_tool_queue.py:284-295 | A run in which a worker outlives its lease: the task is done, queued again by the other worker's failure, and executed a third time |
| ToolQueueWorkers.WorkersBackOff | services/agent-runtime/allcallall_agent_runtime/async_tool_queue.py:209-229 | That bound for every run of punctual workers, whether they date a failure with its claim or with the moment it is reported |
| ToolQueueWorkers.FullWaitExactly | services/agent-runtime/allcallall_agent_runtime/async_tool_queue.py:223-229 | After the moment of a failure the whole backoff passes before the task can be claimed exactly when no time passed between the date given to `fail` and that moment |
| ToolQueueWorkers.NoWaitAfterALongRun | services/agent-runtime/allcallall_agent_runtime/async_tool_queue.py:284-301 | A run of the worker loop in which it does not: the failure is dated with its claim, ten seconds back, and the next execution starts at once |
| ToolQueueBackoff.BackoffLowerBound | services/agent-runtime/allcallall_agent_runtime/async_tool_queue.py:223-229 | The m-th execution of a task, takeovers apart, is claimed at least base * (2^(m-1) - 1) after the date given to its first failure, if no failure is dated before its task's latest claim; the dates of different tasks and workers need no order |
| ToolQueueService.AsyncToolQueue.Add | services/agent-runtime/allcallall_agent_runtime/async_tool_queue.py:126-154 | The new queue and the id returned by an enqueue |
| ToolQueueService.AsyncToolQueue.CountInFlight | services/agent-runtime/allcallall_agent_runtime/async_tool_queue.py:182-185 | The counting loop gives, for every key, the number of its tasks being processed |
| ToolQueueService.AsyncToolQueue.ClaimNext | services/agent-runtime/allcallall_agent_runtime/async_tool_queue.py:171-197 | The sorted scan leases exactly the specified task, or nothing |
| ToolQueueService.AsyncToolQueue.Finish | services/agent-runtime/allcallall_agent_runtime/async_tool_queue.py:200-207 | The new queue of a completion |
| ToolQueueService.AsyncToolQueue.ReportFailure | services/agent-runtime/allcallall_agent_runtime/async_tool_queue.py:209-229 | The new queue of a failure: requeued with backoff, or dead and listed |
| ToolQueueService.ToolQueueWorker.Take | services/agent-runtime/allcallall_agent_runtime/async_tool_queue.py:286-288 | The claiming half of a turn, after which other workers may act |
| ToolQueueService.ToolQueueWorker.Settle | services/agent-runtime/allcallall_agent_runtime/async_tool_queue.py:289-294 | The finishing half of a turn, on whatever the queue has become |
| ToolQueueService.ToolQueueWorker.RunOnce | services/agent-runtime/allcallall_agent_runtime/async_tool_queue.py:284-295 | One uninterrupted turn of a worker: a claim, and the finish of the task it has just claimed and of no other |
| SupervisorFraming.DecodeInvertsEncode | services/sandbox-runner/allcallall_sandbox_runner/supervisor_transport.py:177-217 | The bytes of any sequence of sendable frames decode to that sequence and then the end of the stream |
| SupervisorFraming.DecodedIsEncoded | services/sandbox-runner/allcallall_sandbox_runner/supervisor_transport.py:196-205 | A decoded frame is exactly the bytes it was decoded from |
| SupervisorFraming.DecodedPrefix | services/sandbox-runner/allcallall_sandbox_runner/supervisor_transport.py:196-217 | Whatever bytes arrive, the decoded frames re-encode to a prefix of them |
| SupervisorFraming.TruncationLosesOnlyTheTail | services/sandbox-runner/allcallall_sandbox_runner/supervisor_transport.py:208-217 | A stream cut anywhere decodes to the frames that arrived whole and then ends: none is shortened |
| SupervisorFraming.ByteStream.Receive | services/sandbox-runner/allcallall_sandbox_runner/supervisor_transport.py:212-214 | A receive gives a piece of what is pending and leaves the rest, and gives nothing only at the end |
| SupervisorFraming.ReceiveExact | services/sandbox-runner/allcallall_sandbox_runner/supervisor_transport.py:208-217 | The loop gives the next bytes however they are cut up, or the end of the stream exactly when there are too few |
| SupervisorFraming.ReceiveFrame | services/sandbox-runner/allcallall_sandbox_runner/supervisor_transport.py:196-205 | One received frame, or failure, is the first one the pending bytes decode to |
| SupervisorFraming.SocketReader | services/sandbox-runner/allcallall_sandbox_runner/supervisor_transport.py:95-126 | The reader hands over the specified messages and attempts exactly one error before it stops |
| SupervisorFraming.DeliverPayloads | services/sandbox-runner/allcallall_sandbox_runner/supervisor_transport.py:99-105 | The messages handed over are the payloads of the leading valid messages, unchanged and in order |
| SupervisorFraming.DeliverStops | services/sandbox-runner/allcallall_sandbox_runner/supervisor_transport.py:99-126 | Which frames stop the reader and with which error: the first frame that is not a valid message, which it names; the first valid message that the session no longer takes; failing both, the end of the stream |
| SupervisorFraming.ReaderOnSentFrames | services/sandbox-runner/allcallall_sandbox_runner/supervisor_transport.py:95-126 | For the frames of any sender, cut up in any way: the valid messages before the first other frame, as many as the session takes, then that frame's error or the end of the connection |
| RetrievalText.Tokenize | packages/shared/shared/scoring.py:29-37 | The loop gives the distinct kept words of the lowercased text, in order |
| RetrievalText.TokensAreTheKeptWords | packages/shared/shared/scoring.py:29-37 | Tokens are distinct, and are exactly the words of two characters or more that are not stopwords |
| RetrievalText.NormalisedTokens | services/rag-runtime/allcallall_rag_runtime/retrieval.py:345-352 | Normalising the whitespace of a query does not change its tokens |
| RetrievalRanking.OrderedIsStableSort | services/rag-runtime/allcallall_rag_runtime/retrieval.py:97 | The sort is from high to low and keeps the order of equal scores |
| RetrievalRanking.StableSortIsUnique | services/rag-runtime/allcallall_rag_runtime/retrieval.py:97 | Those two properties leave only one result |
| RetrievalRanking.Rerank | services/rag-runtime/allcallall_rag_runtime/retrieval.py:91-110 | The scoring loop, sort, cut and numbering give the specified ranking |
| RetrievalRanking.RerankKeepsTheBest | services/rag-runtime/allcallall_rag_runtime/retrieval.py:97-101 | A rerank returns max(1, top_k) of the candidates or all of them, numbered from the highest score down, and none left out scores higher than one returned |
| RetrievalRanking.FilterExactly | services/rag-runtime/allcallall_rag_runtime/retrieval.py:317-324 | Exactly which chunks a type list admits: none with `none`, all when it is blank or matches nothing, those of its types otherwise |
| RetrievalRanking.ContainedSomewhere | packages/shared/shared/scoring.py:103-104 | A token the substring test accepts stands somewhere in the text |
| RetrievalRanking.StandingIsContained | packages/shared/shared/scoring.py:103-104 | A token that stands anywhere in the text is accepted |
| RetrievalRanking.OverlapDominates | packages/shared/shared/scoring.py:91-111 | One more query token in its text ranks a chunk above any source and any lead of less than 400 places |
| AgenticRetrieval.BuildQueries | services/rag-runtime/allcallall_rag_runtime/retrieval.py:340-352 | The loop gives the distinct non-blank variants, normalised, up to the number of steps |
| AgenticRetrieval.QueriesStartWithTheRequest | services/rag-runtime/allcallall_rag_runtime/retrieval.py:327-352 | There are one to three queries, all different, and the first is the request's own unless that is blank |
| AgenticRetrieval.Merge | services/rag-runtime/allcallall_rag_runtime/retrieval.py:141-145 | The `seen` loops append exactly the chunks whose key is new |
| AgenticRetrieval.StepSettles | services/rag-runtime/allcallall_rag_runtime/retrieval.py:139-160 | The first step settles ranking, candidates and fingerprint, and every later step finds them unchanged |
| AgenticRetrieval.Observe | services/rag-runtime/allcallall_rag_runtime/retrieval.py:139-179 | The loop over the queries ends with the attempts and lists of one filtering and one ranking |
| AgenticRetrieval.ChooseHits | services/rag-runtime/allcallall_rag_runtime/retrieval.py:180-187 | The final choice between the shortcut and a rerank is the specified one |
| AgenticRetrieval.AgenticRetrieve | services/rag-runtime/allcallall_rag_runtime/retrieval.py:113-203 | However many steps run, the response is that of one filtering, one ranking and one choice of hits, with all rejected chunks |
| AgenticRetrieval.CandidatesAreConserved | services/rag-runtime/allcallall_rag_runtime/retrieval.py:188-203 | For every query, top_k and hash, each candidate key is exactly one of selected and rejected, and the slice on the rejected ones drops nothing |
| AgenticRetrieval.OneAttemptOrAll | services/rag-runtime/allcallall_rag_runtime/retrieval.py:161-179 | Every attempt selects the same chunks with the same confidence, so there is one attempt or one for each query |
| AgenticRetrieval.KeyTextTellsDuplicates | services/rag-runtime/allcallall_rag_runtime/retrieval.py:31-37 | Dropping repeated keys changes the hashed text, unless there was none to drop |
| AgenticRetrieval.ReuseExactlyWithoutDuplicates | services/rag-runtime/allcallall_rag_runtime/retrieval.py:180-184 | Without a hash collision the final rerank is skipped exactly when there are candidates and no key repeats |
| AgenticRetrieval.ReuseAgreesExactly | services/rag-runtime/allcallall_rag_runtime/retrieval.py:180-187 | For a query that is not blank the hits are those of a fresh rerank exactly when top_k is at least 1, or there are no candidates, or a key repeats |
| RetrievalBlankQuery.BlankReuseAgreesExactly | services/rag-runtime/allcallall_rag_runtime/retrieval.py:180-187 | For a blank query the hits are those of a fresh rerank exactly when the shortcut is not taken, or top_k is at least 1 and no chunk ranked into the hits matches the text searched instead |
| RetrievalBlankQuery.UnmatchedMeansSilent | services/rag-runtime/allcallall_rag_runtime/retrieval.py:180-187 | Where top_k is at least the number of candidates, that is when the text searched matches no candidate |
| RetrievalMatches.TokensMatterExactly | services/rag-runtime/allcallall_rag_runtime/retrieval.py:91-110 | A ranking is the one without any token exactly when it has no matching chunk among those it returns |
| RetrievalMatches.SilentPrefixStays | services/rag-runtime/allcallall_rag_runtime/retrieval.py:97-101 | Lowering the scores of matching chunks leaves a leading part of the order that has none of them |
| RetrievalBlankQuery.BlankQueryDiffers | services/rag-runtime/allcallall_rag_runtime/retrieval.py:180-187 | A blank query and two chunks for which they do not |
| RoleRouter.RouteRoles | services/agent-runtime/allcallall_agent_runtime/nodes/role_router.py:155-174 | The branches give the preset's roles and a mandatory risk analyst in canonical order; the branch for chat never applies |
| RoleRouter.AllocationIsOrdered | services/agent-runtime/allcallall_agent_runtime/nodes/role_router.py:78-81 | The allocation is an ordered part of the canonical order with searcher and synthesizer, and with the risk analyst exactly when mandatory or the preset is the full chain |
| RoleRouter.NextRoleIsTheNext | services/agent-runtime/allcallall_agent_runtime/nodes/role_router.py:209-226 | In an ordered allocation the next role is the following one, and after the last comes the merge |
| CheckNodes.QualityReview | services/agent-runtime/allcallall_agent_runtime/nodes/check.py:65-138 | Only a failed critic within the retries revises or escalates; missing context comes before failed grounding; a retry is used exactly by a revise and never past the limit |
| CheckNodes.SafetyCheck | services/agent-runtime/allcallall_agent_runtime/nodes/check.py:161-197 | The safety check escalates exactly when some proposal is not gated or a risk flag is raised |
| CheckNodes.OutputDecision.AccumulateQuality | services/agent-runtime/allcallall_agent_runtime/nodes/check.py:141-158 | The whole new decision after a quality outcome |
| CheckNodes.OutputDecision.AccumulateSafety | services/agent-runtime/allcallall_agent_runtime/nodes/check.py:200-211 | The whole new decision after a safety outcome |
| WorkflowGraph.StepDescends | services/agent-runtime/allcallall_agent_runtime/dag.py:116-158 | Every step of the graph uses up a retry, or uses none and moves down the graph; so every run reaches the end |
| WorkflowRuns.RunShape | services/agent-runtime/allcallall_agent_runtime/dag.py:80-158 | The exact list of nodes every run visits, static or routed, and the decision it folds |
| WorkflowRuns.FromQuality | services/agent-runtime/allcallall_agent_runtime/dag.py:145-158 | From a quality check on, the run repeats the pass once for each revision and then closes |
| WorkflowOutcomes.VisitCounts | services/agent-runtime/allcallall_agent_runtime/dag.py:145-158 | One synthesis more than there are revisions, of which there are at most the retries left; one safety check, one approval gate and one end |
| WorkflowOutcomes.FirstPassIsTheAllocation | services/agent-runtime/allcallall_agent_runtime/dag.py:49-77 | The first pass is the allocation whether or not the parallel node stands for two roles, and a mandatory risk analyst is in it and in every pass after a revise |
| WorkflowOutcomes.ReviewedDecision | services/agent-runtime/allcallall_agent_runtime/nodes/check.py:73-158 | What all quality checks together leave of the decision: counts, trend, last judgement |
| WorkflowOutcomes.FinalDecision | services/agent-runtime/allcallall_agent_runtime/nodes/check.py:73-211 | The decision of every run in full: what is unsafe escalates whatever the quality checks said, and an acceptance for used-up retries leaves the rest untouched |
| WorkflowOutcomes.EscalatesExactly | services/agent-runtime/allcallall_agent_runtime/nodes/check.py:161-211 | A fresh run escalates exactly when it is unsafe or the last judgement escalates |
| RoleReservation.ReachableIsBalanced | services/agent-runtime/allcallall_agent_runtime/nodes/parallel_roles.py:80-119 | After any sequence of acquires and releases the used tokens are the sum of the held shares, and a group that holds anything is within both budgets |
| RoleReservation.ReleasedForGood | services/agent-runtime/allcallall_agent_runtime/nodes/parallel_roles.py:111-119 | Once released, a group uses nothing over every further sequence of calls |
| RoleReservation.GroupReservation.Acquire | services/agent-runtime/allcallall_agent_runtime/nodes/parallel_roles.py:80-101 | The refusal, by the first check that fails, and the whole new state |
| RoleReservation.GroupReservation.ReleaseRole | services/agent-runtime/allcallall_agent_runtime/nodes/parallel_roles.py:103-109 | The whole new state of releasing a role, held or not |
| RoleReservation.GroupReservation.Release | services/agent-runtime/allcallall_agent_runtime/nodes/parallel_roles.py:111-119 | The whole new state of releasing the group |
| ParallelRoleGroups.EstimateRoleTokens | services/agent-runtime/allcallall_agent_runtime/nodes/parallel_roles.py:126-133 | An estimate is never below 32 tokens, so no share is empty or negative |
| ParallelRoleGroups.AcquireAll | services/agent-runtime/allcallall_agent_runtime/nodes/parallel_roles.py:314-315 | On the parallel path no acquisition is refused |
| ParallelRoleGroups.Gather | services/agent-runtime/allcallall_agent_runtime/nodes/parallel_roles.py:326-354 | Results are taken as they complete, all dropped at the first failure, and sorted |
| ParallelRoleGroups.TakeTurns | services/agent-runtime/allcallall_agent_runtime/nodes/parallel_roles.py:357-373 | The sequential path: each role acquires, runs and releases before the next |
| ParallelRoleGroups.ExecuteParallelRoles | services/agent-runtime/allcallall_agent_runtime/nodes/parallel_roles.py:272-382 | The result of a group, and a released, empty reservation on every way out |
| ParallelRoleGroups.CompletionOrderDoesNotMatter | services/agent-runtime/allcallall_agent_runtime/nodes/parallel_roles.py:354 | Whatever the order in which successful branches complete, the sorted deltas are those of the canonical order |
| ParallelRoleGroups.ExecutedExactly | services/agent-runtime/allcallall_agent_runtime/nodes/parallel_roles.py:272-382 | When a group succeeds, exactly, and that its result is then complete and in canonical order |
| ParallelRoleGroups.ParallelRefinesSequential | services/agent-runtime/allcallall_agent_runtime/nodes/parallel_roles.py:299-373 | A group that succeeds in parallel would have succeeded in turn, with the same result |
| RoleMerge.MergeRoleDeltas | services/agent-runtime/allcallall_agent_runtime/nodes/parallel_roles.py:212-261 | The merging loops give the specified update |
| RoleMerge.MergeIgnoresOrder | services/agent-runtime/allcallall_agent_runtime/nodes/parallel_roles.py:212-261 | Merging is indifferent to the order in which the deltas of distinct roles arrive |
| RoleMerge.MergeKeepsEverything | services/agent-runtime/allcallall_agent_runtime/nodes/parallel_roles.py:222-261 | Every citation key, action item and risk flag of every delta is in the update, once, and every role's result is in it |
| RoleMerge.MergeInventsNothing | services/agent-runtime/allcallall_agent_runtime/nodes/parallel_roles.py:212-261 | Everything in the update comes from some delta or from before, and of the citations of one key it is one of the first role, in canonical order, that has any |
| RoleMerge.SameUpdateHoweverItRan | services/agent-runtime/allcallall_agent_runtime/nodes/parallel_roles.py:385-405 | The deltas in completion order and the group's result merge to the same update |
| RetryBudgets.SharedBudget | services/agent-runtime/allcallall_agent_runtime/deadline.py:212-251 | However many loops take turns on a budget, the retries stay within it and all the sleeping together is shorter than the time there was at the start |
| RetryBudgets.WakesBeforeTheDeadline | services/agent-runtime/allcallall_agent_runtime/deadline.py:243-251 | A granted delay is at most the maximum and ends strictly before the deadline |
| RetryBudgets.DelaysDouble | services/agent-runtime/allcallall_agent_runtime/deadline.py:233-241 | Raw delays double until they reach the maximum, and jitter never takes a delay past it |
| RetryBudgets.ExecutionDeadline.Cancel | services/agent-runtime/allcallall_agent_runtime/deadline.py:145-157 | A known reason is recorded, an unknown one refused |
| RetryBudgets.ExecutionDeadline.Cancelled | services/agent-runtime/allcallall_agent_runtime/deadline.py:159-170 | A cancellation point passes exactly when nothing was cancelled and the deadline is ahead |
| RetryBudgets.RetryBudget.constructor | services/agent-runtime/allcallall_agent_runtime/deadline.py:189-200 | A budget allows at least one attempt and starts unused |
| RetryBudgets.RetryBudget.NextDelay | services/agent-runtime/allcallall_agent_runtime/deadline.py:212-251 | A delay is granted, and an attempt used, exactly when the budget and the remaining time allow it |
| RetryBudgets.WithRetry | services/agent-runtime/allcallall_agent_runtime/retry.py:45-74 | The result is that of the last call; the calls before it failed retryably; clock, budget and time slept are those of that many granted turns; and a failure is final only when it must be |
| RetryBudgets.TurnsStayInTime | services/agent-runtime/allcallall_agent_runtime/retry.py:45-74 | After any turns that were all granted, as those of the loop are, the next call starts before the deadline and the budget is within its bound |
| RetrySleepers.AnyInterleaving | services/agent-runtime/allcallall_agent_runtime/deadline.py:212-251 | However loops that share a budget interleave, asleep at the same time or not: retries within the budget, every sleeper awake before the deadline, and all the sleeping together less than the starting time for each retry |
| RetrySleepers.OneAtATimeFits | services/agent-runtime/allcallall_agent_runtime/deadline.py:212-251 | If no delay is asked for while a loop sleeps, all the sleeping together is shorter than the time there was at the start |
| RetrySleepers.OverlapFitsExactly | services/agent-runtime/allcallall_agent_runtime/deadline.py:212-251 | With one set of limits for all requests: every interleaving sleeps less in all than the time there was at the start exactly when the delays that fit into it one by one, up to the first that does not or the last attempt, are together less than it |
| RetrySleepers.SleepsOverlap | services/agent-runtime/allcallall_agent_runtime/deadline.py:212-251 | A run of two loops asleep at the same time that together sleep longer than that |
| RetrySleepers.TurnIsAskThenWake | services/agent-runtime/allcallall_agent_runtime/retry.py:60-71 | A turn of a loop is its request for a delay and its waking, with nothing in between |
| ConnectionPool.ReachablePool | services/agent-runtime/allcallall_agent_runtime/persistence/mysql_pool.py:45-90 | For any interleaving, free and used connections never exceed those created nor those the size, are all of them exactly while no factory call of an acquire has failed or is under way, are never in two hands, and never overflow the queue |
| ConnectionPool.LostForGood | services/agent-runtime/allcallall_agent_runtime/persistence/mysql_pool.py:56-64 | What a failed factory call of an acquire took from the capacity is never given back |
| ConnectionPool.FailuresDrainThePool | services/agent-runtime/allcallall_agent_runtime/persistence/mysql_pool.py:56-64 | After as many such failures as the pool has places it serves nobody again |
| ConnectionPool.FailingAcquires | services/agent-runtime/allcallall_agent_runtime/persistence/mysql_pool.py:56-64 | That many failures in a row bring the pool there |
| ConnectionPool.NoneStrandedWithoutFailures | services/agent-runtime/allcallall_agent_runtime/persistence/mysql_pool.py:56-90 | While no factory call has failed, no thread waits on a pool with nothing free, in use or being made |
| ConnectionPool.StrandedExactlyBy | services/agent-runtime/allcallall_agent_runtime/persistence/mysql_pool.py:56-90 | Exactly the steps that strand a waiter: a failed factory call with a waiter and nothing free or in use, or a thread turned to wait by a pool whose every place was lost |
| ConnectionPool.StrandedUntilAnotherComes | services/agent-runtime/allcallall_agent_runtime/persistence/mysql_pool.py:56-64 | A stranded thread waits for ever unless another thread arrives |
| ConnectionPool.WaiterIsForgotten | services/agent-runtime/allcallall_agent_runtime/persistence/mysql_pool.py:56-90 | A run that strands a waiter on an empty pool that is below its size |
| ConnectionPool.MySQLConnectionPool.constructor | services/agent-runtime/allcallall_agent_runtime/persistence/mysql_pool.py:38-43 | A new pool is empty and has room for at least one connection |
| ConnectionPool.MySQLConnectionPool.Acquire | services/agent-runtime/allcallall_agent_runtime/persistence/mysql_pool.py:56-64 | The steps an acquire takes, up to the point where it would block |
| ConnectionPool.MySQLConnectionPool.Release | services/agent-runtime/allcallall_agent_runtime/persistence/mysql_pool.py:66-75 | A release queues the connection, or retires one whose rollback failed |
| ConnectionPool.MySQLConnectionPool.RetireAndReplenish | services/agent-runtime/allcallall_agent_runtime/persistence/mysql_pool.py:77-90 | A retired connection is replaced, or its place given back |

## Left out

- HTTP routes and clients, authentication, the Qdrant and Go bridges and the LLM provider: plumbing over libraries.
- SQL text, lock waits, `GET_LOCK` and `execution_lock`, and the serialisation of checkpoints: a blob is opaque content with a length.
- `list()` and `find_execution_config()` of the checkpoint saver, which read what `get_tuple` reads.
- A direct put or a flush that fails inside the database: the tables are then as before.
- The asynchronous twins of the saver and of `with_retry`, and the shielding of cancellation in them.
- `with_retry` without a budget, whose delays know no deadline.
- ToolQueueBackoff.BackoffLowerBound: takeovers of expired leases are not counted as executions, because they do not wait for a backoff.
- ToolQueueLifecycle.ReachableExecutions: only for runs in which no task is finished that is not being processed, because `complete` and `fail` do not check this; ToolQueueWorkers says which workers see to it and what happens otherwise.
- ToolQueueService.ToolQueueWorker.RunOnce: without other workers in between; their moves interleave in ToolQueueWorkers.
- CheckpointDeletion.DeletionBreaksExactly: a transaction with such an id that cannot commit once the thread is gone, because a pending write of it has no checkpoint or another thread's namespace has moved on, may be harmless all the same.
- RetrySleepers.OverlapFitsExactly: for requests that all give the same limits, jitter function included.
- The tool queue's other stores, its payloads and error texts, and the worker's polling loop.
- The handshake, the writer task and the closing frames of the supervisor client.
- AgenticRetrieval.AgenticRetrieve: route, graph expansion, trace, evidence pack and sufficiency are not part of the response modelled; the confidence curve is an arbitrary function of the gathered chunks, because floating point is not modelled.
- `rerank_prepared` and `prepare_candidates`, which `agentic_retrieve` does not use.
- Lowercasing that depends on neighbouring characters (the final sigma), which concerns no token character.
- The bodies of the graph's nodes other than the router and the two checks; a node that raises ends the run.
- WorkflowRuns.RunShape: for runs in which no node raises or is cancelled.
- `classify_complexity`, `should_terminate_early`, the rationale texts, and the confidence trajectory and check log of a decision.
- Threads of the parallel executor: a run is given the outcome of each branch and the order in which they complete; cancelling the siblings of a failed branch leaves no trace in the result.
- Parsing of RFC 3339 deadlines (section 5.6 of RFC 3339) and the clamp to the local maximum.
- Prometheus metrics, logging and trace events throughout.
