# Llumnix request migration and scheduling, modelled in Dafny

Llumnix serves language-model requests on a fleet of engine instances. Its Manager
moves running requests, with their KV cache, between instances, keeps registries of
the instances, chooses where new requests go and which kind of instance to launch.
This project models that logic and proves what it keeps over whole runs;
`dafny verify dfyconfig.toml` checks all of it.

| file | models |
|---|---|
| `Coordinator.dfy`, `CoordinatorLife.dfy` | the two-phase migration coordinator of one engine, and the life of one request in it |
| `Handover.dfy`, `HandoverRetry.dfy` | a handover between two coordinators with failures and cleanup, and the retry loop around it |
| `LiveMigration.dfy`, `LiveMigrationExamples.dfy`, `Convergence.dfy`, `Ownership.dfy` | the older multi-stage live migration: which blocks reach the destination, when it gets to its end, and which queue owns the request |
| `KvMemory.dfy`, `BlockCopy.dfy` | the block-copy loops of the two migration backends |
| `Membership.dfy`, `Names.dfy` | registered instances, in-flight flags, the rebuild of the migration group |
| `Registry.dfy` | the scheduler's registries of instances, and dispatch on their snapshots |
| `Affinity.dfy`, `Dispatch.dfy` | cache-affinity index, prefix hashes, the dispatch choice |
| `Loads.dfy`, `Sorting.dfy`, `Pairing.dfy` | loads with infinities, stable sorting, the pairing of sources and destinations |
| `PdRatio.dfy` | which kind of instance to launch next under a prefill-to-decode ratio |
| `RequestId.dfy` | routing endpoints inside request ids |
| `Prelude.dfy` | shared vocabulary |

How to read the models:

- An await is a place where other tasks act. What they do is an argument (events,
  moves, scripts, schedules) over which the statement quantifies, or, in the rebuild of
  the migration group, chosen freely inside a method (`Interleave`). Remote calls are atomic steps that may fail.
- Memory that a backend allocates is a set of block ids with contents. Hash functions
  are parameters; a statement that needs a collision-free hash says so.
- A state-changing class is proved against functions on values, and the theorems
  are about those functions or are carried by the methods' own postconditions.

Where the code does not meet the property one would expect, there is an exact
condition:

- Cleanup is documented as target-first, but its calls are submitted together; while the
  source call has taken effect and the target's drop has not, a committed request runs twice
  (`CleanupInAnyOrder`).
- A failure after the source commit loses the KV blocks (`CleanupKeepsBlocksUnlessReleased`).
- An outgoing snapshot of another epoch on the target blocks cleanup and retry (`StaleSnapshotBlocksRetry`,
  `ReturningMeetsStaleSnapshot`).
- An abort of an import at another epoch than its own is accepted and leaves the reservation behind
  (`IncomingAbort`, `WrongEpochLeavesReservation`).
- Blocks appended between reading the table and stopping the request, and a pre-allocation
  that does not grow but answers with its old tail, break the image (`MigrationRefinesCopy`,
  `LateBlockIsMissed`, `SkippedRoomIsOverwritten`).
- A request preempted and resumed while it is being stopped is left in no queue
  (`Ownership.MigrateRunning`, `ResumedIsLost`), and the later recovery stops at it
  (`ClearMigrationStates`).
- A name registered again during a migration of that name breaks the migrating flags (`FlagsAfterRegistration`).
- An exception in a launch callback is subtracted twice from the in-flight count (`DoneKeepsExact`).
- The request counter of a removed decode-only instance stays (`Registry.GlobalScheduler.Unregister`).
- Under the usage ratio as migration metric the balanced policy never pairs two instances that have
  blocks, because a migration does not change its estimate (`OtherMetricsRefuse`).
- An id that ends just short of a marker, and a decode host that completes one, break the
  round trip of request ids (`StripUndoesDecoration`, `AlmostMarkedId`,
  `PrefillIsAttached`, `PrefillIsSwallowed`, `SuffixInHostIsCut`).
- Predicted loads are monotone only without a large enough debt of blocks (`MigrateInNeverLowersLoad`,
  `DebtLowersLoad`).

## Model

| member | source | states |
|---|---|---|
| `Handover.EveryHandoverIsSafe` | llumnix/manager.py:980-1078 | over every run of the driver with a failure at any call before the source commits, target-first cleanup, a second attempt at the same epoch, and any calls for other requests on both sides: the current KV blocks are held by the source or by the committed target; the request never runs on both; no target block id is issued to it twice; whenever an attempt is about to begin or the driver has given up, the request runs at the source with its own blocks, and the target holds nothing of it unless it kept an outgoing snapshot of another epoch; after success only the target runs it, with exactly those blocks |
| `Handover.EveryRunIsSafe` | llumnix/manager.py:1036-1078 | the same safety from any state that satisfies the invariant, together with the invariant in the state reached |
| `Handover.StepKeepsGood` | llumnix/manager.py:1036-1078 | every enabled event, be it a driver call, a failure before or after its effect, a call for another request or decoding at the source, keeps the invariant of both coordinators and of the handover |
| `Handover.UndisturbedHandoverCompletes` | llumnix/manager.py:1036-1078 | with an authentic snapshot of the right size, undamaged blocks, no left-over reservation and no failure, the remaining driver calls of an attempt all succeed from any point of it, so the handover finishes |
| `Handover.ForwardCallSucceeds` | llumnix/manager.py:1036-1078 | the exact condition under which each forward call is accepted: the first needs an authentic snapshot of the right size, the second no left-over reservation, the fourth undamaged blocks, the others nothing |
| `Handover.FinishedCanMoveOn` | llumnix/manager.py:1036-1078 | a finished handover leaves the target in a state from which the request can be handed on to any instance that is clean of it, a former host included |
| `Handover.OtherCallsDoNotMatter` | llumnix/backends/vllm/v1_migration.py:144-235 | a call for one request leaves everything a coordinator records about any other request as it was |
| `Handover.AbortMigratedKeepsInvariant` | llumnix/llumlet/llumlet.py:525-541 | dropping a committed request from the target keeps the coordinator's invariant |
| `Handover.CleanupKeepsBlocksUnlessReleased` | llumnix/manager.py:1141-1153 | cleanup keeps the KV blocks somewhere if and only if the source has not been released; so a failure after the source commit loses them |
| `Handover.CleanupInAnyOrder` | llumnix/manager.py:1141-1153 | whichever of the three cleanup calls have taken effect, in whatever order: the source keeps the blocks, the request runs on both sides if and only if the source call took effect, the target's drop has not and the target was committed, and all three together come to the same state in every order |
| `Handover.StaleSnapshotBlocksRetry` | llumnix/manager.py:1141-1153 | cleanup of an unfinished import clears the target, and a second attempt is not refused as a duplicate epoch, if and only if the target has no outgoing snapshot of that request from another epoch |
| `Handover.ReturningMeetsStaleSnapshot` | llumnix/backends/vllm/v1_migration.py:150-235 | the failing input: a request that left at epoch 1 and is reserved again at epoch 2 meets its old snapshot, and the abort of the import is refused |
| `HandoverRetry.FailureEndsAttempt` | llumnix/manager.py:986-1027 | from every state of the invariant: a failure of any call before the source commits, taken effect or not, is followed by three cleanup calls and then by a second attempt, and by none if it was the second |
| `HandoverRetry.RefusalEndsAttempt` | llumnix/manager.py:986-1027 | the same for a call that is refused |
| `HandoverRetry.SecondAttemptCompletes` | llumnix/manager.py:986-1078 | after a first failure of any kind, eleven undisturbed calls of the driver finish the handover, if the snapshot is deliverable and the target has no outgoing snapshot of another epoch |
| `HandoverRetry.FailureMayHaveTakenEffect` | llumnix/manager.py:1036-1078 | what a failed call leaves behind, depending on whether it took effect: target committed or only ready, reservation made or not, source exported or not |
| `HandoverRetry.EventsAreEnabled` | llumnix/manager.py:1036-1078 | every one of the seven calls up to the source commit may fail, calls for other requests may come at any time, and the request decodes whenever it runs at the source |
| `HandoverRetry.DecodingChangesBlocks` | llumnix/manager.py:1036-1078 | decoding at the source changes the blocks to deliver, and the source holds the new ones |
| `CoordinatorLife.OutgoingLife` | llumnix/backends/vllm/v1_migration.py:150-166 | a request that was prepared and exported, with any calls for other requests in between, is released by a commit at the prepared epoch and by no other, and resumed with its blocks by an abort at that epoch and no other; otherwise it stays ready with its blocks |
| `CoordinatorLife.IncomingLife` | llumnix/backends/vllm/v1_migration.py:168-208 | a migration that was reserved and imported, with any calls for other requests in between, is committed under its reservation and then runs with exactly those blocks; its epoch cannot be reserved again |
| `CoordinatorLife.OthersRun` | llumnix/backends/vllm/v1_migration.py:144-235 | any sequence of calls for other requests, accepted or refused, leaves everything recorded about a request as it was |
| `CoordinatorLife.PrepareReplies` | llumnix/backends/vllm/v1_migration.py:150-160 | exactly which prepare calls are accepted, and which complaint the others get: only a running request, with an authentic snapshot that counts its blocks |
| `CoordinatorLife.OutgoingReplies` | llumnix/backends/vllm/v1_migration.py:162-235 | what every other call answers for an outgoing request, before and after the export |
| `CoordinatorLife.OutgoingEffects` | llumnix/backends/vllm/v1_migration.py:162-235 | the exported blocks stay until the commit, which drops them, and an abort resumes with them |
| `CoordinatorLife.ReserveReplies` | llumnix/backends/vllm/v1_migration.py:168-184 | an epoch is reserved once, by an authentic snapshot, with a group of ids for every group of blocks |
| `CoordinatorLife.ImportReplies` | llumnix/backends/vllm/v1_migration.py:186-197 | an import is accepted if and only if it names the very reservation handed out, has as many blocks, and every block is sound |
| `CoordinatorLife.FirstDefectMeaning` | llumnix/backends/vllm/v1_migration.py:186-197 | the complaint is about the first block that is not sound, and says what is wrong with it |
| `CoordinatorLife.CommitInReplies` | llumnix/backends/vllm/v1_migration.py:199-208 | a commit needs a payload under the epoch it names, and makes that payload live |
| `CoordinatorLife.IncomingRefuses` | llumnix/backends/vllm/v1_migration.py:144-217 | an unfinished import can be neither registered, prepared, exported nor released |
| `CoordinatorLife.IncomingAbort` | llumnix/backends/vllm/v1_migration.py:223-235 | an abort of an import is accepted at every epoch unless an outgoing snapshot of another epoch is left; it drops the reservation and the payload if and only if it names the epoch of the import |
| `CoordinatorLife.WrongEpochLeavesReservation` | llumnix/backends/vllm/v1_migration.py:223-235 | the failing input: a reservation at epoch 1 aborted at epoch 2 is left behind and blocks its epoch |
| `CoordinatorLife.DefectMeaning` | llumnix/backends/vllm/v1_migration.py:60-75 | which fields a snapshot is built from, and the first complaint otherwise |
| `CoordinatorLife.BlockRoundTrip` | llumnix/backends/vllm/v1_migration.py:103-118 | a block built from sound parts is accepted again as it is, and not with a payload of another digest |
| `Coordinator.EveryRun` | llumnix/backends/vllm/v1_migration.py:136-235 | over every call sequence from the empty coordinator, refused calls included: the invariant holds, and the block ids ever reserved are 0, 1, 2, ... in order, so none is reserved twice |
| `Coordinator.CallKeepsInvariant` | llumnix/backends/vllm/v1_migration.py:144-235 | each call keeps: imports have a live reservation of their size and intact blocks; outgoing requests have their snapshot and the advertised number of source blocks; import-ready requests have a payload; released requests have no source blocks; live reservations are disjoint |
| `Coordinator.RejectedChangesNothing` | llumnix/backends/vllm/v1_migration.py:144-235 | a refused call leaves every dictionary and the id counter unchanged |
| `Coordinator.CallIssuesRange` | llumnix/backends/vllm/v1_migration.py:168-184 | the ids a call hands out are exactly those between the old and the new value of the counter |
| `Coordinator.AllocatedIds` | llumnix/backends/vllm/v1_migration.py:168-184 | the ids of the groups are consecutive, of the requested sizes, and add up to the requested total |
| `Coordinator.ReserveKeepsInvariant` | llumnix/backends/vllm/v1_migration.py:168-179 | a reservation keeps the invariant, in particular disjointness from all live reservations |
| `Coordinator.ImportKeepsInvariant` | llumnix/backends/vllm/v1_migration.py:186-197 | an import keeps the invariant |
| `Coordinator.AbortKeepsInvariant` | llumnix/backends/vllm/v1_migration.py:223-235 | an abort keeps the invariant although it drops a reservation and a payload |
| `Coordinator.TamperedSnapshotIsRefused` | llumnix/backends/vllm/v1_migration.py:60-99 | for a collision-free digest, a snapshot carrying the checksum of other fields is accepted by the constructor but refused by reserve and by prepare, and an honest one is not refused for its checksum |
| `Coordinator.MigrationCoordinator.RegisterRunning` | llumnix/backends/vllm/v1_migration.py:144-148 | in place, with the invariant kept, the transition Register |
| `Coordinator.MigrationCoordinator.PrepareMigrationOut` | llumnix/backends/vllm/v1_migration.py:150-160 | in place, with the invariant kept, the transition PrepareOut |
| `Coordinator.MigrationCoordinator.ExportMigration` | llumnix/backends/vllm/v1_migration.py:162-166 | in place, with the invariant kept, the transition Export; its lookups never fail |
| `Coordinator.MigrationCoordinator.ReserveImport` | llumnix/backends/vllm/v1_migration.py:168-179 | in place, group by group, the transition Reserve, with the invariant kept |
| `Coordinator.MigrationCoordinator.ImportBlocks` | llumnix/backends/vllm/v1_migration.py:186-197 | in place, block by block, the transition Import, with the invariant kept |
| `Coordinator.MigrationCoordinator.CommitImport` | llumnix/backends/vllm/v1_migration.py:199-208 | in place, with the invariant kept, the transition CommitIn |
| `Coordinator.MigrationCoordinator.CommitExport` | llumnix/backends/vllm/v1_migration.py:210-217 | in place, with the invariant kept, the transition CommitOut; its lookups never fail |
| `Coordinator.MigrationCoordinator.AbortMigration` | llumnix/backends/vllm/v1_migration.py:223-235 | in place, with the invariant kept, the transition Abort |
| `LiveMigration.MigrationRefinesCopy` | llumnix/llumlet/migration_coordinator.py:90-177 | for every script of what both engines do at the awaits: when the migration finishes, the blocks of its stages concatenate to the source's table as the last stage read it, each sent once; the destination's table is the block-for-block image of the source's whole table if and only if the table at the stop is the table as read and whenever a pre-allocation was to grow there was room; a refusal leaves no pre-allocation |
| `LiveMigration.MigrateOutMultistage` | llumnix/llumlet/migration_coordinator.py:90-110 | the loop over stages performs RunStages on both sides in place |
| `LiveMigration.MigrateOutOneStage` | llumnix/llumlet/migration_coordinator.py:112-177 | one stage performs RunStage on both sides in place, with the same reads, stops, replies and aborts |
| `LiveMigration.StageKeeps` | llumnix/llumlet/migration_coordinator.py:112-177 | a stage that continues has moved the next blocks of the table, at least one, and leaves at least one; a stage that finishes has moved everything that was there when the table was read; by how much the destination's table fell short is given by its free list |
| `LiveMigration.ReadKeeps` | llumnix/llumlet/migration_coordinator.py:112-147 | which blocks and tokens a stage takes, and that the tokens need exactly those blocks |
| `LiveMigration.RunStages` | llumnix/llumlet/migration_coordinator.py:90-110 | never more stages than the limit, and never an unfinished status |
| `LiveMigration.MigrateInGrants` | llumnix/llumlet/migration_coordinator.py:179-195 | a refusal leaves no pre-allocation and gives every block back to the free list; a reply of the right length is the tail of the table, which is new, grown by the reply, or unchanged when too few blocks were free; either way the own blocks and the free list together are the same, and no other request is touched |
| `LiveMigration.ReplyExactly` | llumnix/backends/vllm/scheduler.py:165-189 | when the reply has as many blocks as asked for: a new table needs them beyond the watermark, an existing one needs them free or is itself as long; the resulting table must not be exactly as long as the sliding window |
| `LiveMigration.FreeingGivesBack` | llumnix/backends/vllm/scheduler.py:226-231 | freeing puts exactly the pre-allocated blocks back on the free list |
| `LiveMigration.PreAllocGrants` | llumnix/backends/vllm/scheduler.py:165-189 | pre-allocation neither loses nor shares a block, and what its reply means |
| `LiveMigration.Destination.Allocate` | llumnix/backends/vllm/scheduler.py:165-189 | in place, step by step, the function PreAlloc |
| `LiveMigration.SourceGoesOn` | llumnix/backends/vllm/scheduler.py:115-136 | what a running or stopped request keeps while its engine goes on |
| `LiveMigrationExamples.LateBlockIsMissed` | llumnix/llumlet/migration_coordinator.py:120-139 | the failing input: a block appended while the request is being stopped never reaches the destination, and the migration finishes |
| `LiveMigrationExamples.SkippedRoomIsOverwritten` | llumnix/backends/vllm/scheduler.py:165-189 | the failing input: with no free block left, the second stage is written over the first, and the migration finishes |
| `LiveMigration.SkippedReservationOverwrites` | llumnix/backends/vllm/scheduler.py:165-189 | when an existing pre-allocated table does not grow but its tail is returned, writing there keeps the earlier image if and only if the new blocks have the contents of those they overwrite |
| `LiveMigration.ImageGrows` | llumnix/llumlet/migration_coordinator.py:163-167 | copying the next blocks to fresh ones extends the image |
| `LiveMigration.BlocksAfterFullOnes` | llumnix/backends/vllm/scheduler.py:115-128 | a table of full blocks grows by exactly the blocks the new tokens need |
| `LiveMigration.TokensBeyond` | llumnix/backends/vllm/scheduler.py:115-128 | the tokens beyond the blocks already sent need exactly the remaining blocks |
| `Convergence.FinishesWhenSlow` | llumnix/llumlet/migration_coordinator.py:90-177 | a migration without preemption, finishing or lack of room finishes if and only if it begins with its last stage or, during some stage that has a successor, the table grows by less than the last-stage limit or the request turns blocking; otherwise it uses up its stages and is aborted at the source |
| `Convergence.SecondStageFinishes` | llumnix/llumlet/migration_coordinator.py:90-177 | if fewer blocks than the limit are appended during the first stage, the second one finishes, unless the first one already has |
| `Convergence.LeftUnsent` | llumnix/llumlet/migration_coordinator.py:112-147 | a stage that is not the last one leaves exactly one block and what was appended meanwhile, so the next stage is the last one exactly if that is at most the limit |
| `Convergence.RoomIsGranted` | llumnix/backends/vllm/scheduler.py:165-189 | when the free list suffices the reply has as many blocks as were asked for |
| `Convergence.InterruptedStageAborts` | llumnix/llumlet/migration_coordinator.py:117-161 | a stage during which the request ends or is preempted before the reply is back neither finishes nor goes on, and counts nothing as sent |
| `Convergence.InterruptedSendingAborts` | llumnix/llumlet/migration_coordinator.py:170-173 | an early stage during whose sending the request ends or is preempted is given up |
| `Convergence.GoneStageAborts` | llumnix/llumlet/migration_coordinator.py:117-139 | a request that has ended, or does not run any more when it is to be stopped, is given up at the source |
| `Ownership.MigrateRunning` | llumnix/llumlet/llumlet.py:259-300 | every outcome for a running request, for every script of preemption, resumption, finishing and other requests at the awaits: the status is that of the script; the destination keeps no pre-allocation; a request that has not finished at the source is in exactly one queue of exactly one instance if and only if no last stage that is reached loses it, which is a condition on the script; so it has one owner if it is neither preempted nor finished during its last stage; a lost one is left in the last-stage list alone; the source's queues afterwards are those of the script, and a running request refused in calm is in the running queue |
| `Ownership.CalmLastStagesKeep` | llumnix/llumlet/migration_coordinator.py:112-177 | no script without preemption or finishing between the start of a last stage and the destination's reply loses the request |
| `Ownership.CalmMigrationFinishes` | llumnix/llumlet/migration_coordinator.py:90-177 | with room and without preemption or finishing, the first last stage finishes the migration |
| `Ownership.ResumedIsLost` | llumnix/llumlet/migration_coordinator.py:136-161 | the failing family: a request preempted and resumed while it is being stopped, and otherwise left alone, is lost |
| `Ownership.MigrateWaiting` | llumnix/llumlet/llumlet.py:259-300 | every outcome for a waiting request: one owner, nothing in the last-stage list, no pre-allocation; a refusal with nothing else happening restores a strictly arrival-ordered waiting queue exactly |
| `Ownership.MigrateOutOneStage` | llumnix/llumlet/migration_coordinator.py:112-177 | the status of a stage, both queues and the last-stage list afterwards, by what happens during it: a refused last stage puts the request at the end of the running queue, a refused early one changes nothing; it is lost if and only if it was stopped, the blocks were granted, and it is then found preempted or finished; marks and pre-allocations of other requests are kept |
| `Ownership.MigrateOutMultistage` | llumnix/llumlet/migration_coordinator.py:90-110 | the status of all stages, where the request then is and the source's whole queues, by the script |
| `Ownership.CalmRefusalRuns` | llumnix/llumlet/migration_coordinator.py:112-161 | a running request that is refused at any stage of a calm script is still in the running queue |
| `Ownership.StatusMeaning` | llumnix/llumlet/migration_coordinator.py:112-177 | what a status says: a request that goes on was alive when its blocks had been sent, one that finished was stopped and alive when the room was granted |
| `Ownership.InterruptedStage` | llumnix/llumlet/migration_coordinator.py:112-177 | what finishing or being preempted at each await of a stage leads to |
| `Ownership.MigrateOutWaiting` | llumnix/llumlet/migration_coordinator.py:63-84 | where a waiting request is when its single stage ends, when each status occurs, and the exact restoration on refusal |
| `Ownership.Halt` | llumnix/backends/vllm/llm_engine.py:431-440 | the request is found if and only if it is still running at the end of the step; what the source looks like once the step's output is processed |
| `Ownership.Conclude` | llumnix/llumlet/llumlet.py:284-300 | commit puts the request in the destination's running or waiting queue and clears the list; every other status leaves no pre-allocation |
| `Ownership.TakenAndPutBack` | llumnix/backends/vllm/scheduler.py:138-203 | taking a request out of an arrival-ordered queue and adding it again restores the queue if and only if the next request arrived strictly later |
| `Ownership.EnqueueKeepsOrder` | llumnix/backends/vllm/scheduler.py:195-203 | adding by arrival keeps an arrival-ordered queue ordered |
| `Ownership.BisectSplits` | llumnix/backends/vllm/scheduler.py:195-203 | in an ordered queue the binary search separates those that arrived no later from those that arrived later |
| `Ownership.ClearMigrationStates` | llumnix/llumlet/llumlet.py:635-672 | the last-stage list is emptied and exactly its requests up to the first that is no longer marked as migrating return, those marked running to the end of the running queue, the others to the waiting queue by arrival; all of them return if and only if all are marked |
| `Ownership.Engine.RemoveRunning` | llumnix/backends/vllm/scheduler.py:130-136 | found if and only if the request is in the running queue; one entry is removed and the mark set |
| `Ownership.Engine.RemoveWaiting` | llumnix/backends/vllm/scheduler.py:138-148 | found if and only if it is waiting and its prompt fits; that entry and no other is removed |
| `Ownership.Engine.MigrateInPreAlloc` | llumnix/backends/vllm/scheduler.py:165-189 | a waiting request is granted only if it arrived no later than the head of the destination's waiting queue; a refusal leaves no pre-allocation |
| `Ownership.Engine.CommitDst` | llumnix/backends/vllm/llm_engine.py:381-395 | the pre-allocation is consumed and the request enters exactly one queue, by its status |
| `Ownership.AfterAllKeepsOwner` | llumnix/backends/vllm/scheduler.py:86-93 | whatever the source engine does at an await, only finishing takes the request out of its queues |
| `BlockCopy.MigrateCache` | llumnix/backends/vllm/migration_backend.py:256-265 | for every layer count, layer-batch size and buffer size the chunked, layer-batched transfer leaves each destination layer as the simple copy would, and every message sent is received |
| `BlockCopy.DoSend` | llumnix/backends/vllm/migration_backend.py:267-284 | the messages carry all layers in order, whatever the buffer held before |
| `BlockCopy.DoRecv` | llumnix/backends/vllm/migration_backend.py:286-303 | exactly the messages of this transfer are consumed, in order, and each layer becomes the simple copy; stale slots of a partial last batch do not matter |
| `BlockCopy.MigrateCacheRpc` | llumnix/backends/vllm/migration_backend.py:95-106 | the pipelined transfer, which writes chunk k-1 while chunk k is fetched and flushes after the loop, has the effect of the simple copy; it fails if and only if there is no block |
| `BlockCopy.DoSendRpc` | llumnix/backends/vllm/migration_backend.py:108-123 | the packet holds every layer's blocks |
| `BlockCopy.DoRecvRpc` | llumnix/backends/vllm/migration_backend.py:125-142 | every layer becomes the simple copy of the packet's source |
| `BlockCopy.CopyLayersMeaning` | llumnix/backends/vllm/migration_backend.py:256-303 | what the simple copy means for distinct destination blocks: block dst[i] equals block src[i] in every layer and all other blocks are unchanged |
| `KvMemory.CopyMeaning` | llumnix/backends/vllm/migration_backend.py:267-303 | copying one after the other writes exactly the listed blocks when they are distinct |
| `KvMemory.CopiedIsCopy` | llumnix/backends/vllm/migration_backend.py:267-303 | that meaning determines the memory |
| `KvMemory.CopyInTwoParts` | llumnix/backends/vllm/migration_backend.py:256-265 | copying a list in two parts is copying it whole |
| `Membership.Manager.RebuildMigrationBackend` | llumnix/manager.py:1625-1705 | however the membership changes at the awaits: the loop ends with no pending change, the migration filter is exactly the registered instances in order, and if there are any, all have joined one group under consecutive ranks and have been warmed up in it with no change since, and the group's name is a new one |
| `Membership.Manager.RebuildRound` | llumnix/manager.py:1658-1680 | an iteration never makes the counter negative, and the counter is zero afterwards only if the membership is unchanged and every member joined and warmed up |
| `Membership.Manager.RunTask` | llumnix/manager.py:1634-1651 | every handle looked up exists; dead members are removed; an unchanged counter means that nobody changed, nobody died and every member carried it out |
| `Membership.Manager.ScaleUp` | llumnix/manager.py:1279-1329 | new instances are counted once each, get the given handle and belong to no group of a namesake; a rebuild starts exactly when it should; the migrating flags stay exact if and only if no new name is still an endpoint of an in-flight migration |
| `Membership.Manager.ScaleDown` | llumnix/manager.py:1331-1381 | removed instances are counted once each, with the reset at zero instances; the flags stay exact |
| `Membership.Manager.MigrateRound` | llumnix/manager.py:808-835 | a round of migrations, whatever is still in flight, starts exactly the pairs that RoundOf gives, keeps all in-flight migrations vertex-disjoint and the flags exact, and starts only pairs of registered, free instances |
| `Membership.RoundStartsFree` | llumnix/manager.py:808-835 | a pair offered before any unregistered name is started, behind all others, if and only if neither end takes part in a migration in flight or in one started earlier in the round |
| `Membership.RoundEndsAtUnknown` | llumnix/manager.py:808-835 | an unregistered name ends the round, unless its pair is skipped for the other name first |
| `Membership.WholeRoundStarts` | llumnix/manager.py:808-835 | vertex-disjoint pairs of registered instances that are not migrating are all started, in order |
| `Membership.Manager.MigrateDone` | llumnix/manager.py:755-761 | a completion keeps both, whether or not its endpoints are still registered |
| `Membership.Manager.RunLegacy` | llumnix/manager.py:753-835 | over every interleaving of rounds, completions, removals and registrations of names not in use, in-flight migrations are vertex-disjoint, a registered instance is flagged exactly when it is an endpoint of one, and the registered names and the migrations in flight are what the events leave |
| `Membership.FlagsAfterRegistration` | llumnix/manager.py:1304-1313 | the exact condition under which registration keeps the flags exact |
| `Membership.ReusedNameLosesItsFlag` | llumnix/manager.py:1304-1313 | the failing input: a name registered again while its old migration is in flight |
| `Membership.RanksAreDistinct` | llumnix/backends/vllm/worker.py:127-137 | workers of different instances or positions have different global ranks, all below the group size |
| `Membership.EveryRankIsTaken` | llumnix/backends/vllm/worker.py:127-137 | every rank below the group size belongs to a worker, so ranks are a bijection |
| `Affinity.AffinityIsLongestPrefix` | llumnix/global_scheduler/dispatch_scheduler.py:62-79 | for a chained hash that is injective and never yields the root, the intersection size used for dispatch is the largest number of leading full blocks the prompt shares with any cached sequence |
| `Affinity.HashCachedIffShared` | llumnix/backends/vllm/v1_kv.py:192-240 | the i-th prefix hash of the prompt is in a cached chain if and only if more than i leading blocks are shared |
| `Affinity.HashNamesPrefix` | llumnix/backends/vllm/v1_kv.py:192-240 | equal chained hashes mean equal block sequences |
| `Affinity.PrefixHashes` | llumnix/backends/vllm/v1_kv.py:192-240 | the loop with a running parent computes the hash chain of the full blocks |
| `Affinity.KVCacheAffinityIndex.Apply` | llumnix/backends/vllm/v1_kv.py:167-187 | after a batch the instance owns a hash, at a location, exactly as the events say; all other instances are untouched |
| `Affinity.KVCacheAffinityIndex.BlockHashes` | llumnix/backends/vllm/v1_kv.py:189-190 | exactly the hashes the instance owns, none for an unknown instance |
| `Affinity.ApplyEvent` | llumnix/backends/vllm/v1_kv.py:167-187 | one event: store, remove or clear, with the location of every hash afterwards |
| `Affinity.EventMeaning` | llumnix/backends/vllm/v1_kv.py:167-187 | one more event: storing adds its hashes, removing takes them away, clearing takes all, any other nothing |
| `Affinity.FullBlocksMeaning` | llumnix/backends/vllm/v1_kv.py:192-240 | the blocks are as many as fit, one after the other from the front, and what is left over is less than a block |
| `Affinity.LastTouchDecides` | llumnix/backends/vllm/v1_kv.py:167-187 | a hash is owned if and only if the last event touching it is a store |
| `Affinity.BatchesCompose` | llumnix/backends/vllm/v1_kv.py:167-187 | two batches are the concatenated batch |
| `Affinity.DuplicateBatchIsHarmless` | llumnix/backends/vllm/v1_kv.py:167-187 | a batch applied twice in a row changes no ownership |
| `Affinity.ReplayRestores` | llumnix/backends/vllm/v1_kv.py:97-129 | a full in-order replay of a log, after any events drawn from it, gives the ownership of the log alone |
| `Registry.DispatchScheduler.DispatchCandidates` | llumnix/global_scheduler/dispatch_scheduler.py:55-103 | on the scheduler's snapshots, the chosen instance is a candidate; with hashes and some cached candidate its load is within 0.10 of the least, and no near-best candidate shares more hashes; otherwise the policy chooses; one request is counted for exactly the chosen instance; the failures are exactly no candidate, or an empty top-k without a hit |
| `Dispatch.ChooseAmong` | llumnix/global_scheduler/dispatch_scheduler.py:55-91 | the same choice on any list of snapshots, before the counting |
| `Dispatch.ChooseWithAffinity` | llumnix/global_scheduler/dispatch_scheduler.py:69-79 | the choice among near-best candidates, and when it exists; of those that share as much it has the least load, and of those the last name |
| `Dispatch.LongestPrefixWins` | llumnix/global_scheduler/dispatch_scheduler.py:62-79 | with collision-free chained hashes no near-best candidate has cached a longer prefix of the prompt than the chosen one |
| `Dispatch.NearBestMeaning` | llumnix/global_scheduler/dispatch_scheduler.py:66-70 | near the best means within a tenth of every candidate's load |
| `Dispatch.Best` | llumnix/global_scheduler/dispatch_scheduler.py:72-73 | nobody in the pool is better by hits, then load, then name |
| `Dispatch.Choose` | llumnix/global_scheduler/dispatch_policy.py:57-78 | the Load and Queue policies choose a candidate, whenever there is one and k is positive |
| `Dispatch.ChoiceIsAmongLeast` | llumnix/global_scheduler/dispatch_policy.py:12-25 | the choice of the Load and Queue policies is among the k least: fewer than k candidates have a strictly smaller key |
| `Dispatch.PolicyMeaning` | llumnix/global_scheduler/dispatch_policy.py:57-78 | the Load policy goes by load, the Queue policy by the number waiting |
| `Dispatch.EveryLeastIsChosen` | llumnix/global_scheduler/dispatch_policy.py:12-25 | each of the k least is chosen at some draw |
| `Sorting.SortedMeaning` | llumnix/global_scheduler/dispatch_policy.py:12-19 | ascending means that no later key is smaller, descending that none is larger |
| `Sorting.SortOrders` | llumnix/global_scheduler/dispatch_policy.py:12-19 | the sort orders by load |
| `Sorting.SortIsStable` | llumnix/global_scheduler/migration_policy.py:44-51 | instances of equal load keep their order |
| `Sorting.FewStandBefore` | llumnix/global_scheduler/dispatch_policy.py:12-19 | at most j elements have to stand before the one at position j of the sorted list |
| `Pairing.PairingIsMatching` | llumnix/global_scheduler/migration_scheduler.py:49-53 | for every pair type and policy nobody is both source and destination and nobody is in two pairs |
| `Pairing.FiltersAreExclusive` | llumnix/global_scheduler/migration_filter.py:60-124 | nobody passes both filters |
| `Pairing.PairEnds` | llumnix/global_scheduler/migration_filter.py:60-79 | each pair joins a source and a destination that passed the filters and that the policy accepts |
| `Pairing.PairDirection` | llumnix/global_scheduler/migration_filter.py:60-124 | for each kind of migration, what the two ends of every pair are: prefill to decode, decode to decode, and which loads and killed requests they have |
| `Pairing.FilterMeaning` | llumnix/global_scheduler/migration_filter.py:60-124 | exactly who passes as a source and who as a destination, for each kind, with all registered filters |
| `Pairing.PairsExactly` | llumnix/global_scheduler/migration_policy.py:54-86 | for every policy the pairs are, of the i-th most loaded source and the i-th least loaded destination, exactly those that the policy accepts, in that order |
| `Pairing.DefragPairsByLoad` | llumnix/global_scheduler/migration_policy.py:76-86 | on the instances that pass the filters, the i-th most loaded source goes with the i-th least loaded destination, in rankings that are stable sorts of the two sides, as many pairs as the shorter side has |
| `Pairing.PairMigration` | llumnix/global_scheduler/migration_policy.py:54-86 | the loop builds exactly the accepted pairs of the two sorted lists |
| `Pairing.BalancedAccepts` | llumnix/global_scheduler/migration_policy.py:54-73 | when the loads are estimates under remaining steps with small debts, a pair is accepted if and only if the destination stays within the threshold and below the source afterwards and at least one side changes |
| `Pairing.BalancedMakesProgress` | llumnix/global_scheduler/migration_policy.py:54-73 | of an accepted pair whose destination is not idle, under any metric: the destination stays below the source and strictly closer than before; each side moves towards the other if and only if its block debt is small; at its estimated load the destination does not pass the load filter as a source |
| `Pairing.OtherMetricsRefuse` | llumnix/global_scheduler/migration_policy.py:54-73 | under the usage ratio or remaining tokens a pair is accepted if and only if the metric is the usage ratio and the destination has no blocks at all, because the estimates do not change or move apart |
| `Pairing.OtherMetricsPairNobody` | llumnix/global_scheduler/migration_policy.py:54-73 | so under those metrics the balanced policy pairs nobody with instances that have blocks |
| `Pairing.LoadMeaning` | llumnix/instance_info.py:261-282 | what the three estimates are, cleared of fractions, and when a waiting request counts |
| `Pairing.MigrateInNeverLowersLoad` | llumnix/instance_info.py:239-282 | under remaining steps, predicted migrate-in does not lower the load if and only if available blocks plus requests times moved blocks is not negative |
| `Pairing.MigrateOutNeverRaisesLoad` | llumnix/instance_info.py:239-282 | predicted migrate-out does not raise it under the same condition or when no request is left |
| `Pairing.DebtLowersLoad` | llumnix/instance_info.py:239-282 | the failing input: a first waiting request far larger than the free blocks makes one more request seem to help |
| `Pairing.PairMigrationV1` | llumnix/global_scheduler/v1_migration_scheduler.py:73-96 | the loop joins the pairs of all compatibility groups |
| `Pairing.GroupedPairingIsMatching` | llumnix/global_scheduler/v1_migration_scheduler.py:73-96 | the joined list is still a matching |
| `Pairing.GroupPairEnds` | llumnix/global_scheduler/v1_migration_scheduler.py:36-51 | both ends of each pair are fully capable and have equal compatibility keys |
| `Pairing.CapableMeaning` | llumnix/global_scheduler/v1_migration_scheduler.py:36-51 | without a requirement of their own groups ask for the three migration capabilities, by name |
| `Pairing.EveryGroupIsPaired` | llumnix/global_scheduler/v1_migration_scheduler.py:73-96 | every pair of every group is in the joined list |
| `Pairing.GroupsArePaired` | llumnix/global_scheduler/v1_migration_scheduler.py:73-96 | a group with a source and a destination gets a pair under defragmentation |
| `Pairing.GroupKeys` | llumnix/global_scheduler/v1_migration_scheduler.py:73-88 | the groups have distinct keys and cover every capable instance |
| `PdRatio.LaunchingFromZero` | llumnix/launcher.py:188-222 | from nothing, with ratio a:b and k = n/(a+b), after n launches k*a <= prefill <= (k+1)*a and k*b <= decode <= (k+1)*b |
| `PdRatio.MissingComesFirst` | llumnix/launcher.py:199-202 | whoever is missing comes first, prefill before decode, so two launches from nothing give one of each |
| `PdRatio.RoundBeginsWithPrefill` | llumnix/launcher.py:203-220 | a complete round is followed by a prefill launch |
| `PdRatio.StepCloser` | llumnix/launcher.py:188-222 | outside every such box each launch strictly decreases the absolute value of prefill*b - decode*a |
| `PdRatio.StepStaysBalanced` | llumnix/launcher.py:188-222 | inside a box, each launch stays inside one |
| `PdRatio.DebtIsPaid` | llumnix/launcher.py:188-222 | while a side counts below zero each launch pays one of it, except that a side at zero is served once first |
| `PdRatio.LaunchingRebalances` | llumnix/launcher.py:188-222 | from any counts, negative ones included, as many launches as the debt below zero and then the imbalance, plus one when no side is above zero, suffice to reach a box, and the counts stay in boxes from then on |
| `PdRatio.EveryScheduleFromZero` | llumnix/launcher.py:96-129 | for every interleaving of launches and successful completions from nothing, the totals are in the box of the number of launches |
| `PdRatio.RebalancesAfterLastFailure` | llumnix/launcher.py:96-129 | whatever failed before, raised callbacks included, once launches succeed again that many of them restore the ratio of the counters; as many as the imbalance do when no callback raised |
| `PdRatio.OnlyLaunchesCount` | llumnix/launcher.py:96-129 | completions of ready instances do not change the totals |
| `PdRatio.DoneKeepsExact` | llumnix/launcher.py:96-118 | a completion keeps the in-flight counters equal to the waiting launches if and only if neither callback raises, and keeps the total if and only if it is ready |
| `PdRatio.DoneMeaning` | llumnix/launcher.py:96-118 | what each of the four outcomes does to the totals and to the registered instances |
| `PdRatio.RoundsIsTheBox` | llumnix/launcher.py:188-222 | counts in any box at all are in the one given by their completed rounds |
| `PdRatio.NextTypeMeaning` | llumnix/launcher.py:203-220 | the comparison of gaps compares how far each kind is from completing the round |
| `PdRatio.BalancedIsClose` | llumnix/launcher.py:188-222 | inside a box the imbalance is at most a*b |
| `PdRatio.Launcher.Run` | llumnix/launcher.py:96-129 | any schedule of launches and completions, performed in place, has the effect of RunAll |
| `RequestId.RoundTrip` | llumnix/backends/vllm/v1_kv_transfer.py:93-138 | for a clean id and valid endpoints with underscore-free hosts, the decorated id gives back the id, the decode endpoint and the prefill endpoint |
| `RequestId.HostsAndPortsRoundTrip` | llumnix/backends/vllm/v1_kv_transfer.py:93-138 | for a clean id, all hosts without an underscore and all ports from 1 to 65535, the decorated id gives back the id, both hosts and both port numbers |
| `RequestId.EndpointMeaning` | llumnix/backends/vllm/v1_kv_transfer.py:72-77 | an endpoint is what has a host before and digits behind its last colon, and is valid if these are the decimal digits of 1 to 65535 |
| `RequestId.DecorateReplies` | llumnix/backends/vllm/v1_kv_transfer.py:107-129 | no endpoint or a marked id leaves the id alone, a malformed endpoint is refused, a valid one is attached |
| `RequestId.StripUndoesDecoration` | llumnix/backends/vllm/v1_kv_transfer.py:93-104 | for all valid endpoints strip undoes the decoration if and only if the id followed by one underscore contains neither marker |
| `RequestId.DecodeEndpointParses` | llumnix/backends/vllm/corex_p2p_connector.py:406-427 | the decode endpoint is parsed back if and only if it does not contain the suffix |
| `RequestId.PrefillEndpointParses` | llumnix/backends/vllm/corex_p2p_connector.py:406-427 | likewise for the prefill endpoint, when it is attached |
| `RequestId.PrefillIsAttached` | llumnix/backends/vllm/v1_kv_transfer.py:119-138 | the prefill endpoint is attached if and only if an underscore and the decode endpoint contain no prefill marker |
| `RequestId.DecoratingTwice` | llumnix/backends/vllm/v1_kv_transfer.py:107-138 | decorating twice with the same endpoints equals decorating once, for every id and all endpoints that are accepted |
| `RequestId.DecorationIsInjective` | llumnix/backends/vllm/v1_kv_transfer.py:132-138 | clean ids that differ stay different once decorated |
| `RequestId.AlmostMarkedId` | llumnix/backends/vllm/v1_kv_transfer.py:93-104 | the failing input: an id that ends just short of a marker contains none, yet is not given back |
| `RequestId.PrefillIsSwallowed` | llumnix/backends/vllm/v1_kv_transfer.py:119-138 | the failing input: a decode host that completes a prefill marker keeps the prefill endpoint from being attached |
| `RequestId.SuffixInHostIsCut` | llumnix/backends/vllm/corex_p2p_connector.py:406-427 | the failing input: a decode host with the suffix inside is not parsed back |
| `Registry.GlobalScheduler.Run` | llumnix/global_scheduler/global_scheduler.py:58-125 | over every history of scale-ups, scale-downs, polls, dispatches and role selections all registries agree, and they hold what scale-up and scale-down left |
| `Registry.RegisteredMeaning` | llumnix/global_scheduler/global_scheduler.py:84-111 | an instance is registered if and only if it was scaled up and not scaled down since |
| `Registry.RegisteredType` | llumnix/global_scheduler/global_scheduler.py:84-96 | a registered instance has the type it was scaled up with when it was last new |
| `Registry.GlobalScheduler.Register` | llumnix/global_scheduler/global_scheduler.py:113-118 | one instance enters all registries, and dispatch has no snapshot of it yet |
| `Registry.GlobalScheduler.Unregister` | llumnix/global_scheduler/global_scheduler.py:120-125 | one instance leaves all registries; its request counter stays if and only if it was decode-only and had a counter |
| `Registry.GlobalScheduler.HandleScaleUp` | llumnix/global_scheduler/global_scheduler.py:84-96 | the registered types afterwards; known instances keep theirs |
| `Registry.GlobalScheduler.HandleScaleDown` | llumnix/global_scheduler/global_scheduler.py:98-111 | exactly the named instances are gone |
| `Registry.GlobalScheduler.UpdateInstanceInfos` | llumnix/global_scheduler/global_scheduler.py:58-61 | polled snapshots are filed for registered instances only |
| `Registry.LastAnswerWins` | llumnix/global_scheduler/global_scheduler.py:58-61 | the last answer of each registered instance wins and no other key appears |
| `Registry.GlobalScheduler.BeforeDispatch` | llumnix/global_scheduler/global_scheduler.py:63-67 | every dispatch candidate's snapshot is the last one polled |
| `Registry.GlobalScheduler.SelectRoles` | llumnix/manager.py:471-493 | each role is chosen by the constrained dispatch from the registered instances that last reported the role, on exactly the current snapshots, and both are counted; nothing is chosen if and only if a role has no instance, and only an empty top-k fails |
| `Registry.DispatchScheduler.UpdateInstanceInfos` | llumnix/global_scheduler/dispatch_scheduler.py:105-109 | snapshots are taken over for available instances only |
| `Registry.DispatchScheduler.RemoveInstance` | llumnix/global_scheduler/dispatch_scheduler.py:116-125 | the snapshot goes in every case, the counter only with an available instance |
| `Registry.ScalingScheduler.RemoveInstance` | llumnix/global_scheduler/scaling_scheduler.py:84-91 | the instance leaves the first type set that has it, which the loop finds |
| `Registry.TypesAfterRemove` | llumnix/global_scheduler/scaling_scheduler.py:84-91 | which is the only one that has it, so the type sets still partition the instances |

## Left out

- Handover.EveryHandoverIsSafe: failures are those before the source commit, the cleanup calls all take effect and in the documented order (what another order or a failed cleanup call leaves is stated by CleanupInAnyOrder), and the layers travel in one step; the branches that return without cleanup, when an actor has died and when a request is reported as not migratable, are not modelled, because nothing is promised for them.
- Handover.AbortMigratedKeepsInvariant: the output task is not modelled, and the engine side of the abort is foreign code; its effect is assumed, namely that a committed request is gone with its blocks and its reservations and imports of every epoch. EveryHandoverIsSafe uses this assumption: a retry after the target had committed rests on it.
- Incremental precopy in front of a handover (llumnix/manager.py:1080-1139): it ends in the same handover, and its delta bookkeeping would add a second copy of the coordinator.
- LiveMigration.MigrationRefinesCopy: needs a last-stage limit of at least one block; sizes are in blocks and tokens, not bytes.
- Convergence.FinishesWhenSlow: sufficient room is a condition on the destination's free lists along the run; a reply of the right length without new room is left to MigrationRefinesCopy.
- Ownership.MigrateRunning: the swapped queue and user aborts of a stopped request are not modelled; whether a stage is the last one, and whether blocks can be allocated, are inputs here because LiveMigration and Convergence compute them.
- Membership.Manager.RebuildMigrationBackend: other tasks change the membership finitely often (`budget`, any number); the wait for migrations to end before the loop, a rebuild that returns False and two rebuild tasks at once are not modelled.
- Membership.Manager.MigrateRound: the flags of the V1 migration path are not modelled, because their check and their setting run in different tasks.
- Dispatch.Choose: only the Load and Queue policies; Flood, Balanced and RoundRobin choose from the counters rather than from the candidates; loads are never NaN.
- Affinity.PrefixHashes: the fraction returned by `affinity` and the order of `rank` follow from the intersection size and are not modelled.
- Pairing.MigrateInNeverLowersLoad: loads are real numbers with infinities, without rounding; the sigmoid of `virtual_usage` is not modelled.
- PdRatio.Launcher.Run: prefill-decode disaggregation is enabled; without it every launch is unconstrained, and port numbering is not modelled.
- RequestId.RoundTrip: ports are ASCII digits; other Unicode digits that Python accepts are not modelled.
- Ray actors, placement groups, NCCL, ZMQ and vLLM classes: input, output and foreign code; their effects are arguments or free choices.
- SHA-256, BLAKE2 and the canonical JSON form: replaced by abstract digests.
- Argument parsing, logging, metrics, queues, scaling thresholds and entry points: they would only add easy members.
