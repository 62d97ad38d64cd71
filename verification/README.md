# Canari: a model of its MLS client and services

Canari is a chat application with end-to-end encryption by MLS (RFC 9420). Each device runs one MLS
engine, a delivery service orders commits and keeps devices, a gateway keeps sockets, an SFU carries
calls. This project models the parts of that system that carry state across several operations and
proves what they keep.

| module | models |
|---|---|
| Basics, Listings | options, results, texts, tables written out row by row |
| OpenMls | the MLS library as an abstract group: epoch, roster, pending commit, send generation, storage |
| ErrorKinds | error values, the texts built for them and the classification of those texts |
| Members | bulk add, removal by user or device, leaf selection |
| DeviceSpec | every operation of the MLS engine as a function on device states |
| DeviceManager | the engine as a class whose methods meet those functions |
| DeviceRuns | theorems over arbitrary runs of the engine |
| DeviceAnswers | what each operation of the engine answers, and what the answer means |
| CommitGate | many devices, the server's epoch gate under a Redis lock, external joins, replay |
| SendRatchet | the send ratchet, its ledger and its checkpoints across crashes; the receiving window |
| GateEngine | the gate and one engine per device as one world |
| TwoDevices | a joint run with a second device |
| RatchetEngine | the ratchet's positions are the engine's |
| ByteCompat | the saved state in CBOR (RFC 8949), new and legacy byte buffers |
| StateFile | the engine's snapshot and those bytes, end to end |
| SfuRoom | joins, publications and debounced renegotiation in an SFU room |
| IceBuffer | the buffer of remote ICE candidates |
| WriterGuard | foreground and background writers of the state file |
| BackupMerge | backup export and import |
| StaleSweep | detection and removal of stale devices |
| SessionRegistry | the gateway's sessions and the presence decision |

Foreign calls (OpenMLS, the database, Redis, the ICE agent) are parameters: each call carries the
answer the library gives, so a theorem that quantifies over operations quantifies over every
behaviour of the library. Concurrency is modelled as steps of tasks, and a run is any sequence of
steps, including crashes.

## Where the code and its comments differ

The model follows the code. Each case below names the lemmas that exhibit the difference and those
that give the condition under which the promise holds.

- The snapshot cache is promised to be invalidated by every mutator. Four paths change the device
  without doing so; `DeviceRuns.CoherentStep` names them and proves there is no fifth.
- `drop_group` promises that no Welcome is accepted again. `DeviceRuns.DropAdmitsOnlyTwoEpochs` gives
  the two epochs that are, and `DeviceRuns.ForgetReopensADroppedGroup` those after a later forget.
- A floor is promised to keep stale Welcomes out. `DeviceRuns.FloorStep` says which operations keep
  it; a join that fails half-way and the reload of an older snapshot lose it
  (`DeviceRuns.FailedJoinLosesTheFloor`, `DeviceRuns.ReloadUndoesForget`).
- `join_by_external_commit` promises not to clobber a held group. It protects memory, not storage:
  `DeviceRuns.SyncedStep` and `DeviceRuns.RefusedJoinThenCreateRegresses`.
- Group ids that are not text survive in memory and in storage but are not restored, and a creation
  under the same name replaces them: `DeviceRuns.SaveThenLoad`, `DeviceRuns.CreateKeepsExactly`.
- The commit gate promises that forks cannot happen. That holds while the five-second lock is not
  lost under a request that may still write (`CommitGate.NoFork`). When it is lost, by a lapse or by
  the release of an earlier request of the same device, and another device asks for that epoch, the
  group can fork (`CommitGate.LapseForks`, `CommitGate.TheftForks`); a lapse under requests that are
  closing or behind the epoch is harmless (`CommitGate.DisciplineIsExact`).
- The replay of the commit log promises to catch up. From a log without holes it does if and only if
  the device wrote none of the missed commits itself: `CommitGate.AttemptReplay` and `CommitGate.OwnCommitStopsReplay`.
- The ratchet ledger promises that a reload never reuses a generation. It burns in the epoch of the
  restored snapshot only; `SendRatchet.BurnIsEnoughExactly` gives the condition and
  `SendRatchet.LostEpochIsReachable` a run that breaks it.
- A frame ahead of the group is meant to be the only retryable one. A failed merge can be classed
  like it: `DeviceRuns.RetryIsExact`.
- The foreground guard promises thirty seconds. Reading the clock and storing the deadline are two
  steps, so a late store cuts them short: `WriterGuard.ThirtySecondsFromTheMark` and
  `WriterGuard.ForegroundBlobSurvives` give the exact conditions, `WriterGuard.LateStoreOverwrites` a
  run from the start of the process that overwrites a foreground blob too early.
- The ICE counters promise an account of every candidate; the one that trips an overflow is counted
  nowhere: `IceBuffer.Accounting` and `IceBuffer.OverflowLoses201`.
- A backup promises a full restore. It has no column for a seed's distribution epoch and drops
  messages without a conversation: `BackupMerge.RestoreIsExact`.
- The stale sweep's veto compares device ids without users, and its purge does not look again:
  `StaleSweep.ExpiredSurvivesExactlyWhenShielded` and `StaleSweep.SafeExactlyIfUnlisted`.
- Presence is promised to go only with the last socket. That holds of the decision; the deletion
  follows later: `SessionRegistry.DecisionIsExact` and `SessionRegistry.PresenceIsSafe`.
- A failed channel event removes every session of a key, live ones included:
  `SessionRegistry.TrackedStep` and `SessionRegistry.ChannelFailureHidesALiveTab`.

## Model

| member | source | states |
|---|---|---|
| ErrorKinds.GapIsRetryable | frontend/mls-core/src/lib.rs:132-173 | for all epochs, the text built for a frame ahead of the group is classed as a retryable gap and as nothing else: no earlier marker can hide in the epoch numbers |
| ErrorKinds.PastEpochIsPermanent | frontend/mls-core/src/lib.rs:146-151 | the text of a past-epoch application frame is classed as permanent for all epochs, ahead of the generic process-error arm |
| ErrorKinds.OwnMessageIsRecognised | frontend/mls-core/src/lib.rs:152-159 | the device's own frame is recognised for all epochs |
| ErrorKinds.SameEpochIsPermanent | frontend/mls-core/src/lib.rs:135-168 | whatever text the library produced, a same-epoch refusal is never classed as retryable, and a secret reuse wins over every later marker |
| ErrorKinds.FailedMergeKind | frontend/mls-core/src/lib.rs:132-173 | a failed merge is classed by the library's own text alone: no marker begins in the fixed prefix |
| ErrorKinds.OwnKinds | frontend/mls-core/src/lib.rs:120-173 | an error is classed as an eviction or as unrecoverable if and only if it is one: no library text can imitate either |
| ErrorKinds.RatchetKindsAreExact | frontend/mls-core/src/lib.rs:132-145 | a same-epoch refusal is classed as a secret reuse, or as too far ahead, if and only if the library wrote that marker (and, for the second, not the first): our own words and the epoch numbers never add one |
| Members.PositionsExact | frontend/mls-core/src/members.rs:204-300 | each reported position list holds exactly the input positions with that verdict, in ascending order |
| Members.PositionsPartition | frontend/mls-core/src/members.rs:204-300 | added, skipped and already-member positions partition the input |
| Members.SelectPackages | frontend/mls-core/src/members.rs:204-262 | the selection loop, with its growing set of known identities, computes the declarative triage in which a package is a duplicate if its identity is in the tree or in an earlier valid package |
| Members.KnownIdentities | frontend/mls-core/src/members.rs:214-226 | the identities collected from the tree are exactly those of its readable leaves |
| Members.KeptAreNew | frontend/mls-core/src/members.rs:227-262 | kept identities are pairwise distinct and absent from the tree |
| Members.WithAddedShape | frontend/mls-core/src/members.rs:263-300 | adding keeps every old leaf in place, appends one leaf per package and keeps leaf indices distinct |
| Members.BulkAddIsExact | frontend/mls-core/src/members.rs:204-300 | after a bulk add the tree is the old tree followed by exactly the added packages, with identities and indices still distinct |
| Members.LeafIndicesWhere | frontend/mls-core/src/members.rs:23-35 | the loop returns exactly the indices of the selected leaves in tree order, or the error of the first leaf without a readable identity |
| Members.SelectedIndicesMember | frontend/mls-core/src/members.rs:23-35 | an index is selected if and only if some selected leaf has it |
| Members.RemovalIsExact | frontend/mls-core/src/members.rs:62-135 | removing a set of indices that matches a selection leaves exactly the unselected leaves, in order |
| Members.RemovalOfSelected | frontend/mls-core/src/members.rs:62-135 | removing what the index loop returned leaves exactly the unselected leaves |
| Members.UserMatchIsExact | frontend/mls-core/src/members.rs:62-96 | for user ids without a colon the prefix test selects exactly the identities of those users |
| Members.ColonUserIdRemovesADevice | frontend/mls-core/src/members.rs:62-80 | naming a user selects exactly that user's leaves if and only if the user id has no colon; with a colon it selects only leaves of other users, one of them a single device |
| DeviceManager.MlsManager.Restore | frontend/mls-core/src/state.rs:300-411 | the rebuild loop gives exactly the groups that can be loaded by name from the stored values |
| DeviceManager.MlsManager.LoadOrCreate | frontend/mls-core/src/state.rs:257-411 | loading succeeds exactly when the parts decode, the credential is basic, the identity matches and every listed group loads, with the error of the first failing check otherwise, and prunes with the clock |
| DeviceManager.MlsManager.CreateGroup | frontend/mls-core/src/group.rs:34-92 | create: refuse an orphan, recover it, or build a group, with the cache effect of each branch |
| DeviceManager.MlsManager.ForceCreateGroup | frontend/mls-core/src/group.rs:98-126 | force-create deletes and rebuilds, whatever the two library answers |
| DeviceManager.MlsManager.DropGroup | frontend/mls-core/src/group.rs:218-226 | drop is a forget with the largest floor |
| DeviceManager.MlsManager.ProcessWelcome | frontend/mls-core/src/welcome.rs:134-271 | every branch of the Welcome guard chain, including the floor removed before the group is built |
| DeviceManager.MlsManager.JoinByExternalCommit | frontend/mls-core/src/welcome.rs:35-105 | external join: storage is written by finalisation before the existing-group check |
| DeviceManager.MlsManager.IsReloadMonotonic | frontend/mls-core/src/welcome.rs:114-130 | the loop answers the declarative guard: every live group is present at an epoch not below |
| DeviceManager.MlsManager.SendMessage | frontend/mls-core/src/messaging.rs:12-42 | a send moves the ratchet and marks the state even when serialisation fails afterwards |
| DeviceManager.MlsManager.SkipSendGenerations | frontend/mls-core/src/messaging.rs:71-99 | the burn loop stops at the first failure and has moved the ratchet by the burns before it |
| DeviceManager.MlsManager.ProcessIncomingMessage | frontend/mls-core/src/messaging.rs:103-119 | one frame: lookup, then the group handler, then the cache mark |
| DeviceManager.MlsManager.ProcessIncomingOnGroup | frontend/mls-core/src/messaging.rs:145-410 | every outcome of one frame on a held group |
| DeviceManager.MlsManager.ProcessIncomingMessages | frontend/mls-core/src/messaging.rs:123-143 | the batch loop equals the fold of single-frame processing, outcomes in order and final state |
| DeviceManager.MlsManager.AddMembersBulk | frontend/mls-core/src/members.rs:204-300 | selection, staging and the mark that comes after serialisation |
| DeviceManager.MlsManager.RemoveMembersWhere | frontend/mls-core/src/members.rs:62-135 | remove by user or device: nothing selected, staging, error paths |
| DeviceManager.MlsManager.MergePendingCommitFor | frontend/mls-core/src/members.rs:140-150 | merge of the staged commit with its failure path |
| DeviceManager.MlsManager.ClearPendingCommitFor | frontend/mls-core/src/members.rs:155-165 | clear of the staged commit with its failure path |
| DeviceManager.MlsManager.BuildKeyPackage | frontend/mls-core/src/state.rs:484-531 | minting stores the bundle and marks the state once build, hash and write have all worked; an earlier failure changes nothing, a failed serialisation comes after the mark |
| DeviceManager.MlsManager.PruneExpiredAt | frontend/mls-core/src/state.rs:606-672 | prune deletes exactly the doomed keys, reports their number and marks the state only if there were any |
| DeviceManager.MlsManager.SaveState | frontend/mls-core/src/state.rs:415-468 | save answers the cache when it is clean and rebuilds it when it is not |
| DeviceManager.FindDoomed | frontend/mls-core/src/state.rs:606-672 | the scan loop finds exactly the keys the prune rule names |
| DeviceManager.MissingGroupBatch | frontend/mls-core/src/messaging.rs:123-143 | a batch for an unknown group answers one error per frame and changes nothing |
| DeviceRuns.SyncedStep | frontend/mls-core/src/welcome.rs:83-96 | every operation keeps memory and storage in step, except exactly an external join that finds the group held |
| DeviceRuns.DoomedAreExpired | frontend/mls-core/src/state.rs:606-672 | with labels that keep their prefix, pruning removes exactly the expired key-package bundles |
| DeviceRuns.CoherentStep | frontend/mls-core/src/state.rs:74-111 | a clean cache still describes the device after an operation if and only if the operation is not one of four named leaks |
| DeviceRuns.WelcomeCoherent | frontend/mls-core/src/welcome.rs:206-265 | the Welcome leak exactly: a floor was removed and building the group then failed |
| DeviceRuns.ExternalJoinCoherent | frontend/mls-core/src/welcome.rs:83-105 | the external-join leak exactly: storage was written and the join then refused or failed |
| DeviceRuns.AddCoherent | frontend/mls-core/src/members.rs:263-300 | the bulk-add leak exactly: a commit was staged and its serialisation failed |
| DeviceRuns.ReceiveCoherent | frontend/mls-core/src/messaging.rs:372-410 | the receive leak exactly: the frame was processed and merging its commit failed |
| DeviceRuns.SaveIsCurrent | frontend/mls-core/src/state.rs:415-468 | refinement over whole runs: after any sequence of operations without a leak or an overwrite, the cached save equals a fresh serialisation |
| DeviceRuns.FreshDevicesAreSound | frontend/mls-core/src/state.rs:257-411 | new and restored devices satisfy the invariants the run theorems start from |
| DeviceRuns.SaveThenLoad | frontend/mls-core/src/state.rs:257-468 | save then load restores identity, floors and storage minus expired bundles, and restores all groups if and only if every group id is text |
| DeviceRuns.FloorStep | frontend/mls-core/src/welcome.rs:206-229 | a recorded floor survives one operation if and only if the operation is not a forget or drop that sets another, a forced creation, a Welcome that passes both guards, or an accepted reload of a snapshot without that floor |
| DeviceRuns.FloorPersists | frontend/mls-core/src/group.rs:199-226 | over any run whose operations each leave the floor alone, reloads included, the floor is unchanged |
| DeviceRuns.FloorSafety | frontend/mls-core/src/welcome.rs:206-229 | a Welcome below a floor has no effect after any such run |
| DeviceRuns.ReloadUndoesForget | frontend/src-tauri/src/commands/storage.rs:57-75 | the reload guard sees live groups only: forgetting a group and reloading an older snapshot is accepted, brings the group back and loses its floor |
| DeviceRuns.ForgetAdmitsExactly | frontend/mls-core/src/group.rs:199-212 | after a forget the group is gone, and a Welcome installs if and only if its epoch is zero or at least the floor, the new one or the one kept when none is given |
| DeviceRuns.WelcomeInstallsExactly | frontend/mls-core/src/welcome.rs:206-271 | a Welcome installs its group, clears the floor and marks the state if and only if both guards pass and the library builds it; otherwise nothing, or only the floor, changes |
| DeviceRuns.DropAdmitsOnlyTwoEpochs | frontend/mls-core/src/group.rs:214-226 | after a drop a Welcome is admitted if and only if its epoch is zero or the largest 64-bit number, although the comment says never |
| DeviceRuns.ForgetReopensADroppedGroup | frontend/mls-core/src/group.rs:199-212 | after a drop and a later forget for an epoch, a Welcome installs if and only if it is at epoch zero or from that epoch on |
| DeviceRuns.FailedJoinLosesTheFloor | frontend/mls-core/src/welcome.rs:244-265 | a failed join removes the floor silently, so a stale Welcome that was refused before is then installed |
| DeviceRuns.EpochStep | frontend/mls-core/src/welcome.rs:114-130 | one operation keeps a group held no lower than an epoch, in memory and in what a creation would recover, unless it is a forget, drop, forced creation or epoch-zero Welcome of that group, or an external join on an older base |
| DeviceRuns.EpochNeverFalls | frontend/mls-core/src/welcome.rs:114-130 | over any run without those operations the group stays held at that epoch or above |
| DeviceRuns.EpochFallsExactly | frontend/mls-core/src/welcome.rs:114-271 | one operation lowers or removes a held group if and only if it forgets or drops it, is a creation that recovers a lower record or builds anew, or installs an epoch-zero Welcome over a later epoch; a reload never does |
| DeviceRuns.CreateKeepsExactly | frontend/mls-core/src/group.rs:34-92 | a synchronised device holds every text-id group in that sense; for another id a creation under the same name keeps the epoch if and only if it is zero or the key is already taken by nothing lower, and otherwise replaces the group at epoch zero |
| DeviceRuns.RefusedJoinThenCreateRegresses | frontend/mls-core/src/welcome.rs:83-96 | an external join refused after writing storage lets a later create replace a held group by an older epoch |
| DeviceRuns.ReloadsCompose | frontend/mls-core/src/welcome.rs:114-130 | the reload guard is reflexive and transitive |
| DeviceRuns.StagingOnlyPends | frontend/mls-core/src/members.rs:62-135 | staging an add or a removal changes nothing but the pending commit |
| DeviceRuns.StageThenClearUndoes | frontend/mls-core/src/members.rs:155-165 | clearing undoes staging: the device is back where it was, up to the cache mark |
| DeviceRuns.RemoveUsersThenMerge | frontend/mls-core/src/members.rs:62-150 | removing users and merging leaves exactly the other users' leaves, one epoch later |
| DeviceRuns.BatchSplits | frontend/mls-core/src/messaging.rs:123-143 | a batch can be cut anywhere: outcomes concatenate and the state is threaded |
| DeviceRuns.UnprocessedFrameIsInvisible | frontend/mls-core/src/messaging.rs:123-143 | a frame the library did not process changes neither the final state nor any other frame's outcome |
| DeviceRuns.RetryIsExact | frontend/mls-core/src/messaging.rs:186-371 | for all frames and library texts, a result is retryable if and only if the group is active and the frame is ahead, or a merge failed with a text that mentions a process error and none of the five other markers |
| DeviceRuns.FailedMergeIsRetried | frontend/mls-core/src/messaging.rs:372-410 | the second case occurs: a frame at the group's own epoch is classed as retryable |
| DeviceRuns.RefusalsAreFinal | frontend/mls-core/src/messaging.rs:250-371 | no refusal at the same or a past epoch is retryable, whatever the library text |
| DeviceRuns.BurnReportsItsProgress | frontend/mls-core/src/messaging.rs:71-99 | a burn, complete or failed, has moved the ratchet by exactly the number it reports |
| DeviceAnswers.PlaintextComesOut | frontend/mls-core/src/messaging.rs:372-382 | a text comes out if and only if the frame is readable and the library decrypted an application message, and it is that text |
| DeviceAnswers.SilentFrames | frontend/mls-core/src/messaging.rs:186-410 | a frame is consumed without a text if and only if it is a commit that merged, a proposal, a past handshake or a generation too old to read |
| DeviceAnswers.UnreadableFrames | frontend/mls-core/src/messaging.rs:145-245 | malformed, evicted and ahead, in that order, each with its error and without a trace |
| DeviceAnswers.FailedFrames | frontend/mls-core/src/messaging.rs:250-410 | which error each other readable frame gets |
| DeviceAnswers.ProcessedFrameIsKept | frontend/mls-core/src/messaging.rs:372-410 | what the library made of a frame is what memory and store hold afterwards |
| DeviceAnswers.BatchAnswers | frontend/mls-core/src/messaging.rs:123-143 | each frame of a batch gets the answer it would get alone on the state its predecessors left |
| DeviceAnswers.AddMembersThenMerge | frontend/mls-core/src/members.rs:204-300 | an addition reports exactly the added and skipped positions, and one epoch later the tree is the old one followed by one leaf per reported addition, in order, with that package's credential |
| DeviceAnswers.AddAnswers | frontend/mls-core/src/members.rs:204-300 | an addition succeeds if and only if some package is new, the group is idle and the library works; otherwise which of the two refusals it gets |
| DeviceAnswers.RemoveDevicesThenMerge | frontend/mls-core/src/members.rs:100-150 | removing devices and merging leaves exactly the leaves of the other devices, one epoch later |
| DeviceAnswers.RemoveAnswers | frontend/mls-core/src/members.rs:62-135 | a removal succeeds if and only if it selects a leaf, the group is idle and the library works; it reports no such member if and only if it selects none |
| DeviceAnswers.UnreadableLeafStopsRemoval | frontend/mls-core/src/members.rs:23-35 | the first leaf without a readable identity stops every removal with its own error |
| DeviceAnswers.WelcomeAnswers | frontend/mls-core/src/welcome.rs:134-271 | a Welcome is answered with the group's name if and only if the group is kept or joined; what the joined group is, and which error each refusal gets |
| DeviceAnswers.BadWelcomeAnswers | frontend/mls-core/src/welcome.rs:134-160 | a Welcome that cannot be read or staged is refused with its error and without a trace |
| DeviceAnswers.BadBaseAnswers | frontend/mls-core/src/welcome.rs:35-80 | a base that cannot be read or built on is refused with its error and without a trace |
| DeviceAnswers.ExternalJoinAnswers | frontend/mls-core/src/welcome.rs:35-105 | an external join succeeds if and only if the group was not held and serialising works; the group is then held, waiting, one epoch above its base |
| DeviceAnswers.CreateAnswers | frontend/mls-core/src/group.rs:34-92 | a creation succeeds if and only if nothing is stored under the name and the library works, with the creator alone at epoch zero; a stored record is recovered and still answered with an error |
| DeviceAnswers.ForceCreateStartsOver | frontend/mls-core/src/group.rs:98-126 | a forced creation whose calls work leaves a new group at epoch zero, in memory and in the store, and no floor |
| DeviceAnswers.SendAnswers | frontend/mls-core/src/messaging.rs:12-42 | a frame is handed out if and only if the group is held and active and both calls work, and which error otherwise |
| DeviceAnswers.BurnAnswers | frontend/mls-core/src/messaging.rs:71-99 | a burn succeeds if and only if it is empty or the group is held and active and every call works |
| DeviceAnswers.ResolveAnswers | frontend/mls-core/src/members.rs:140-165 | when a merge and a clear succeed, what is then pending, and that a failure changes nothing |
| DeviceAnswers.LoadAnswers | frontend/mls-core/src/state.rs:257-411 | a state loads if and only if it decodes, names this user and device and its groups load; whoever runs, runs on their own identity; each refusal has its error |
| DeviceAnswers.MintedPackageServesOnce | frontend/mls-core/src/state.rs:470-531 | a minted package is stored as described, and a join built on it uses it up if and only if it is not the last resort |
| DeviceAnswers.MintAnswers | frontend/mls-core/src/state.rs:484-531 | minting succeeds if and only if all four calls do; before the bundle is stored a failure leaves no trace |
| CommitGate.SoundStep | apps/chat-delivery-service/src/services/messaging.service.ts:1166-1372 | every client and server step that does not take the lock from a request that may still write, with crashes, aborts, lost answers, reloads and duplicate deliveries, keeps the gate exclusive and every device on the log |
| CommitGate.WriteKeepsServerSound | apps/chat-delivery-service/src/services/messaging.service.ts:1287-1307 | the transaction takes the one free log position: one commit per base epoch, log contiguous |
| CommitGate.WriteAppends | apps/chat-delivery-service/src/services/messaging.service.ts:1287-1307 | an accepted commit is for the active epoch, takes the one free log position and replaces nothing |
| CommitGate.WriteEndsTheRace | apps/chat-delivery-service/src/services/messaging.service.ts:1228-1307 | once one request has written, no other request under way can write any more |
| CommitGate.VerdictIsExact | apps/chat-delivery-service/src/services/messaging.service.ts:1211-1371 | a request alone in its passage is always answered, accepted if and only if it found the lock free and was for the active epoch; then epoch, log and fan-out move by exactly this commit, otherwise not at all; the lock is as before |
| CommitGate.AbortGivesBack | apps/chat-delivery-service/src/services/messaging.service.ts:1357-1371 | a request that throws gives its lock back and is not answered |
| CommitGate.CrashKeepsTheLock | apps/chat-delivery-service/src/services/messaging.service.ts:1211-1371 | a handler that dies is not answered and leaves its lock behind until it lapses |
| CommitGate.NewestBaseIsKept | frontend/src/lib/services/BaseMlsService.ts:2747-2770 | a refreshed base is stored only if newer, and the published base is then at least the publisher's epoch |
| CommitGate.ExternalCommitPublishesItsBase | apps/chat-delivery-service/src/services/messaging.service.ts:1253-1307 | an accepted external join leaves the published base at the active epoch |
| CommitGate.NoFork | frontend/src/lib/services/BaseMlsService.ts:2355-2420 | after any run in which the lock is never taken from a request that may still write, the log has one commit per epoch, each settled device holds a prefix of it, and no two settled devices at one epoch differ |
| CommitGate.LogOnlyGrows | apps/chat-delivery-service/src/services/messaging.service.ts:1287-1307 | no accepted commit is ever replaced |
| CommitGate.HistoriesStayComparable | frontend/src/lib/services/BaseMlsService.ts:2355-2420 | what any device held earlier and what any device holds later extend one another |
| CommitGate.LapseForks | apps/chat-delivery-service/src/services/messaging.service.ts:1211-1307 | if the lock lapses under a request that may still write, before or after its epoch check, and another device asks for the same epoch, some run without any further lapse leaves two settled devices with different trees at one epoch |
| CommitGate.TheftForks | apps/chat-delivery-service/src/services/messaging.service.ts:1357-1371 | the same when the lock is released by an earlier request of the same device that ends or throws |
| CommitGate.DisciplineIsExact | apps/chat-delivery-service/src/services/messaging.service.ts:1211-1371 | where every request that may still write has a rival, a step is harmless if and only if it does not take the lock from such a request: a lapse while requests are only closing, or are behind the epoch, forks nothing |
| CommitGate.ContestFollows | apps/chat-delivery-service/src/services/messaging.service.ts:1211-1226 | any two idle devices at the active epoch reach such a contest |
| CommitGate.SubmitKeepsSound | frontend/src/lib/services/BaseMlsService.ts:2376-2390 | submitting a staged commit or an external commit keeps the invariant |
| CommitGate.ReceiveKeepsSlot | frontend/src/lib/services/BaseMlsService.ts:2840-2960 | a delivered or replayed commit keeps a device on the log; the device's own commit is refused, and an unsettled external joiner applies only what was built on its own tree |
| CommitGate.CommitsSince | apps/chat-delivery-service/src/services/messaging.service.ts:1384-1467 | the replay loop returns the longest contiguous prefix from the asked epoch, reports the floor exactly, and reports a gap if and only if something beyond is missing |
| CommitGate.AttemptReplay | frontend/src/lib/utils/chat/commitReplay.ts:31-88 | fetch and replay: a log pruned too far or holed answers early, names the first missing epoch and applies nothing; otherwise the device applies the rows before its own first commit, reaches the active epoch if and only if none is its own, and reports healed exactly if it did and there was something to replay |
| CommitGate.ApplyRows | frontend/src/lib/utils/chat/commitReplay.ts:62-74 | the loop applies in order and stops at the first row the library refuses, which is the device's own first commit |
| CommitGate.OwnCommitStopsReplay | frontend/src/lib/utils/chat/commitReplay.ts:24-26 | from any sound world with an idle device at the active epoch, submit, write and restart lead to a device that no replay brings forward |
| GateEngine.StagingFollows | frontend/mls-core/src/members.rs:62-300 | staging in the engine is staging at the gate, or leaves the group as it was |
| GateEngine.MergingFollows | frontend/src/lib/services/BaseMlsService.ts:2376-2400 | on an accepted answer the engine's merge is the gate's merge, for a member and for an external joiner; a failed merge lets go of the answer |
| GateEngine.ClearingFollows | frontend/src/lib/services/BaseMlsService.ts:2390-2397 | clearing, on a rejection or later, removes the staged commit on both sides and leaves an external join in place |
| GateEngine.ReceivingFollows | frontend/mls-core/src/messaging.rs:186-410 | a delivered commit moves the engine's group as the gate says; a gap, a stale frame and a failed merge move neither |
| GateEngine.TrafficFollows | frontend/mls-core/src/messaging.rs:12-99 | application traffic and burnt generations move no history |
| GateEngine.WelcomeFollows | frontend/mls-core/src/welcome.rs:134-271 | a Welcome installs the tree it was sent for, exactly when the engine's guards and the library let it |
| GateEngine.ExternalJoinFollows | frontend/mls-core/src/welcome.rs:35-105 | an external join puts the device one epoch above the base it was served; a refused one leaves its instance in the store only |
| GateEngine.ForgettingFollows | frontend/mls-core/src/group.rs:199-226 | forgetting or dropping the group takes the device out of it, whether or not the stored record is deleted |
| GateEngine.CreatingFollows | frontend/mls-core/src/group.rs:34-92 | a creation that finds a stored record goes back to a state the device once had |
| GateEngine.ReturnFollows | frontend/mls-core/src/state.rs:257-411 | a restart or an accepted reload goes back to a state the device once had, or out of the group |
| GateEngine.OperationFollows | frontend/src/lib/services/BaseMlsService.ts:2355-2420 | every engine operation, on this group or another, keeps memory, store and cached snapshot linked to what the gate says now and said before |
| GateEngine.CoupledStep | frontend/src/lib/services/BaseMlsService.ts:2355-2420 | every act of the joint world keeps the gate sound and every engine and every saved snapshot linked to it |
| GateEngine.EnginesTrackTheGate | frontend/src/lib/services/BaseMlsService.ts:2355-2420 | after any joint run from the creation of the group, an engine holds the group exactly if its device is in it, at the same epoch, with the same roster and the same pending commit |
| GateEngine.SettledDevicesAgree | frontend/src/lib/services/BaseMlsService.ts:2355-2420 | one roster per epoch: a settled engine at some epoch of a joint run and any engine settled at that epoch then or later hold the same roster |
| GateEngine.EveryRestartIsPossible | frontend/src-tauri/src/commands/storage.rs:40-76 | every restart and every reload of any saved snapshot occurs in joint runs |
| TwoDevices.SecondDeviceSettles | frontend/src/lib/services/BaseMlsService.ts:2355-2420 | a joint run in which a second device joins: stage, submit, accept, merge, invite, install, Welcome; both engines are settled at epoch 1 with both leaves |
| SendRatchet.Ledger.CommitPersisted | frontend/src/lib/mls-client/sendRatchetLedger.ts:118-124 | per group the larger of the two counts, in any order of entries |
| SendRatchet.Ledger.PendingSendGenerations | frontend/src/lib/mls-client/sendRatchetLedger.ts:143-156 | exactly the groups behind, each with its deficit clamped at 2000 and the clamp reported |
| SendRatchet.NoteKeepsCover | frontend/src/lib/services/BaseMlsService.ts:3157-3175 | counting a frame after encrypting it keeps the deficit large enough to pass it |
| SendRatchet.CheckpointKeepsSound | frontend/src/lib/services/BaseMlsService.ts:2239-2243 | reading the count before the write and committing it after keeps every restore point covered at every point of any number of overlapping checkpoints, whether they land in order, are skipped as stale or fail |
| SendRatchet.LandKeepsSound | frontend/src/lib/utils/hex.ts:176-240 | a snapshot lands only over an older one; a skipped one may still close its count, because the newer one on disk covers it |
| SendRatchet.RestartKeepsSound | frontend/src/lib/services/BaseMlsService.ts:2256-2297 | a reload that burns the whole deficit is past every counted frame |
| SendRatchet.QuietCheckpointClears | frontend/src/lib/services/BaseMlsService.ts:2239-2243 | an undisturbed checkpoint puts the live position on disk and leaves nothing to burn |
| SendRatchet.CapIsTheForwardBound | frontend/src/lib/mls-client/sendRatchetLedger.ts:36-42 | the cap on a burn is exactly the receivers' forward bound |
| SendRatchet.SoundRun | frontend/src/lib/services/BaseMlsService.ts:2239-2297 | the invariant holds over any run of sends, commits, checkpoints, crashes and reloads in which frames are counted in order, every reload burns its whole deficit below the cap, and no counted frame belongs to an epoch that had not reached the disk |
| SendRatchet.NoGenerationIsReused | frontend/src/lib/mls-client/sendRatchetLedger.ts:1-31 | over any such run from a new device no two frames share a ratchet position and the next one is beyond them all |
| SendRatchet.BurnIsEnoughExactly | frontend/mls-core/src/messaging.rs:44-99 | after a reload, no frame sent in the restored or any later epoch is a repeat if and only if the burn passes every frame counted in the restored epoch and no frame was counted in a later one |
| SendRatchet.LostEpochReuses | frontend/src/lib/services/BaseMlsService.ts:2256-2297 | if any frame had been counted in an epoch that never reached the disk, some commits and sends after the reload repeat it, whatever was burnt |
| SendRatchet.LostEpochIsReachable | frontend/src/lib/services/BaseMlsService.ts:2256-2297 | one commit, one frame and a reload before any checkpoint reach that situation although the whole deficit is burnt |
| SendRatchet.OutOfOrderCountReuses | frontend/src/lib/services/BaseMlsService.ts:3162-3170 | two frames counted in another order than they were encrypted leave the ledger one short |
| SendRatchet.RepairedFrameIsReadable | frontend/mls-core/src/group.rs:7-26 | a receiver that saw any of the earlier frames, in any order, reads the next one if and only if it is within 2000 of its head |
| SendRatchet.InFlightStaysReadable | frontend/mls-core/src/group.rs:7-26 | a frame in flight during the burn stays readable if and only if it is within 2000 of the new head |
| SendRatchet.ConsumedOnce | frontend/mls-core/src/group.rs:7-26 | no generation is accepted twice |
| RatchetEngine.SendIsEncrypt | frontend/mls-core/src/messaging.rs:12-42 | a send moves the engine's position by one generation exactly when the library built the frame, even if serialising it fails |
| RatchetEngine.BurnIsRestart | frontend/mls-core/src/messaging.rs:71-99 | a burn on a restored group is the burn of the ratchet model's restart |
| RatchetEngine.CommitIsAdvance | frontend/mls-core/src/messaging.rs:372-410 | a merge or a received commit either leaves the position or starts the next epoch at zero |
| RatchetEngine.StagingMovesNothing | frontend/mls-core/src/members.rs:62-165 | staging and clearing move no position |
| RatchetEngine.SaveLoadBurn | frontend/mls-core/src/state.rs:257-468 | save, lose the process, load and burn: the restored engine stands where the ratchet model restarts |
| ByteCompat.HeadInverts | frontend/mls-core/src/byte_compat.rs:43-47 | every length is read back from its shortest head (section 3 of RFC 8949), whatever follows |
| ByteCompat.VisitSeq | frontend/mls-core/src/byte_compat.rs:66-73 | the element loop reads a known or an open length as the specification does, and refuses what it refuses |
| ByteCompat.BufferRoundTrip | frontend/mls-core/src/byte_compat.rs:43-82 | every buffer is read back from a byte string, from an array of integers and from an open array, without touching what follows |
| ByteCompat.LegacyCost | frontend/mls-core/src/byte_compat.rs:13-14 | the array form costs exactly one byte more per byte of 24 or above |
| ByteCompat.ListRoundTrip | frontend/mls-core/src/byte_compat.rs:98-119 | a list of buffers is read back with any mixture of forms |
| ByteCompat.MapRoundTrip | frontend/mls-core/src/byte_compat.rs:123-150 | a map is read back whatever order its entries were written in |
| ByteCompat.WriteList | frontend/mls-core/src/byte_compat.rs:101-111 | the writer loop emits the new form of the whole list |
| ByteCompat.WriteMap | frontend/mls-core/src/byte_compat.rs:126-140 | the writer loop emits every entry once, in some order |
| ByteCompat.TakeAllCollects | frontend/mls-core/src/state.rs:24-37 | distinct fields of a state are collected in any order, whichever are present |
| ByteCompat.StateRoundTrip | frontend/mls-core/src/state.rs:24-54 | whole state: any form per buffer, any map order, any field order, with or without the floor table, reads back the same state |
| ByteCompat.Save | frontend/mls-core/src/state.rs:420-468 | what a save writes is the new form throughout, byte strings in every place, and loads to the state that was saved |
| StateFile.OneSnapshot | frontend/mls-core/src/state.rs:24-54 | a state record depicts one snapshot, in whatever order its group names are listed |
| StateFile.FileRoundTrip | frontend/mls-core/src/state.rs:257-468 | end to end: snapshot, record, bytes in any form and order, record, snapshot, device; what comes back is the device less the expired bundles, with all groups if and only if every group id is text |
| ByteCompat.LegacyStateLoads | frontend/mls-core/src/byte_compat.rs:16-26 | files of earlier versions, integer arrays throughout and possibly without floors, load to the same state |
| ByteCompat.MigrationSaves | frontend/mls-core/src/byte_compat.rs:13-14 | rewriting a legacy file saves exactly one byte per stored byte of 24 or above |
| ByteCompat.ResavingShrinks | frontend/mls-core/src/byte_compat.rs:13-26 | loading a legacy file and saving it, whatever order either lists its maps in, shortens it by exactly the number of stored bytes of 24 or above |
| ByteCompat.FieldsDecide | frontend/mls-core/src/state.rs:24-37 | a record is accepted if and only if no field is met twice and only the floors are missing |
| SfuRoom.SoundStep | apps/call-service/src/main.rs:921-1170 | every interleaving of join, publication, departure and timers keeps each peer covered for each track |
| SfuRoom.NoMissedSubscription | apps/call-service/src/main.rs:921-1170 | after any run, a peer present with its join finished was offered every track of another publisher whose walk is over |
| SfuRoom.FireKeepsPromise | apps/call-service/src/main.rs:1378-1406 | a superseded timer is dropped without losing the pending offer; the current one makes it due |
| SfuRoom.PromiseStep | apps/call-service/src/main.rs:1130-1170 | no step breaks the promise of an offer for a track that was attached to a peer that stays |
| SfuRoom.NoForgottenOffer | apps/call-service/src/main.rs:1130-1170 | in any room, once a walk has attached a track to a peer and while the peer stays, an offer has been sent since or one is about to be scheduled, timed or due |
| SfuRoom.QuietRoomIsComplete | apps/call-service/src/main.rs:921-1453 | once the room is quiet, a peer that was given a track and stayed has been sent an offer since, and it misses no track |
| SfuRoom.RefusedAttachIsSkipped | apps/call-service/src/main.rs:1144-1149 | a track the peer connection refuses leads to no offer |
| SfuRoom.OfferComesOut | apps/call-service/src/main.rs:1378-1453 | attached, scheduled, fired and taken: exactly one offer is sent |
| SfuRoom.JoinCompletes | apps/call-service/src/main.rs:921-1050 | a join runs to its end: the newcomer is in, was given every track, and the track lock is free again |
| SfuRoom.PublicationReaches | apps/call-service/src/main.rs:1100-1170 | a new track reaches any other peer that is in the room when its walk begins |
| SfuRoom.WalkEndsExactly | apps/call-service/src/main.rs:1130-1170 | a walk ends if and only if everyone it had to visit and who is still there was visited and scheduled |
| SfuRoom.PublisherGetsNoEcho | apps/call-service/src/main.rs:1130-1145 | a publication is never attached to its own publisher |
| SfuRoom.BurstIsOneOffer | apps/call-service/src/main.rs:1378-1406 | over any steps of the room in which each renegotiation of a peer is scheduled before the newest timer fires, one offer is built if and only if the newest timer has fired, and it has been sent once nothing is due |
| IceBuffer.PeerContext.OnCandidate | apps/call-service/src/main.rs:1292-1311 | a candidate is counted, then buffered, handed on, dropped as an early end marker, or trips the overflow |
| IceBuffer.PeerContext.OnDescription | apps/call-service/src/main.rs:1651-1673 | an applied description flushes the buffer in order through the agent |
| IceBuffer.HandAllCounts | apps/call-service/src/main.rs:1651-1673 | the flush hands over exactly the buffered candidates, in order, each accepted or failed |
| IceBuffer.DescriptionHandsOn | apps/call-service/src/main.rs:1651-1673 | an applied description hands the whole buffer on in order and counts as accepted exactly what the agent takes; one that fails changes nothing |
| IceBuffer.LateCandidateIsHanded | apps/call-service/src/main.rs:1292-1311 | after a description every candidate goes straight to the agent and is counted by its answer |
| IceBuffer.NothingIsLost | apps/call-service/src/main.rs:1610-1673 | over any signals without overflow or early end marker, what was handed on and what waits are all arrivals, in order |
| IceBuffer.Accounting | apps/call-service/src/main.rs:1610-1673 | over any signals: at most 200 buffered, empty once a description is set, and every candidate counted as accepted, failed, buffered, early end or overflow |
| IceBuffer.AgentSeesArrivalsInOrder | apps/call-service/src/main.rs:1610-1673 | the agent is handed a subsequence of the arrivals, in order |
| IceBuffer.OverflowLoses201 | apps/call-service/src/main.rs:1617-1633 | each overflow loses 201 candidates, of which 200 are counted as failed; what stays is the last remainder |
| WriterGuard.SoundStep | frontend/src-tauri/src/concurrency.rs:16-95 | every action of any number of writers, with errors, panics and kills, keeps the section exclusive and the temporary file its owner's |
| WriterGuard.FileIsAlwaysWhole | frontend/src-tauri/src/concurrency.rs:74-81 | a reader always finds one whole blob |
| WriterGuard.CheckedAfterWhatItReplaces | frontend/src-tauri/src/concurrency.rs:59-72 | the blob that lands is the writer's own, and its guard check came after the blob it replaces landed |
| WriterGuard.ForegroundBlobSurvives | frontend/src-tauri/src/concurrency.rs:22-95 | once a foreground blob is in place, no background blob can replace it before a given time, under any scheduling without a release or a kill, if and only if the guard's deadline and every refresh still to be stored are at that time or beyond (or the time is past) |
| WriterGuard.ThirtySecondsFromTheMark | frontend/src-tauri/src/concurrency.rs:83-95 | a foreground write that starts now protects its blob until a given time, under any scheduling, if and only if that is within thirty seconds of its clock reading and no refresh still to be stored carries an older deadline (or the time is past, or the write lock is poisoned and nobody writes) |
| WriterGuard.LateStoreOverwrites | frontend/src-tauri/src/concurrency.rs:43-57 | from a start of the process: a heartbeat stored late, by any delay, lets a background blob overwrite a foreground one less than thirty seconds after its mark |
| WriterGuard.GuardExpires | frontend/src-tauri/src/concurrency.rs:22-58 | thirty seconds without a sign of life let a background writer through, whatever refresh is still to be stored |
| WriterGuard.PauseLets | frontend/src-tauri/src/concurrency.rs:47-57 | releasing the guard lets a background writer through at once |
| WriterGuard.KillFrees | frontend/src-tauri/src/concurrency.rs:16-31 | a process that died leaves the file as it was and stops nobody |
| WriterGuard.PanicStopsEveryWrite | frontend/src-tauri/src/concurrency.rs:59-95 | a panic inside the section poisons the lock: nobody writes the file again until the process ends |
| BackupMerge.Validate | frontend/src/lib/backup.ts:282-353 | the validation loops return the code of the first failing check |
| BackupMerge.Storage.MergeConversations | frontend/src/lib/backup.ts:354-362 | the conversation loop is the merge of the rows not held |
| BackupMerge.Storage.MergeMessages | frontend/src/lib/backup.ts:364-381 | the message loop is the merge of the rows whose conversation is known |
| BackupMerge.Storage.MergeSeeds | frontend/src/lib/backup.ts:382-397 | the seed loop is the merge of all rows |
| BackupMerge.Storage.ImportBackup | frontend/src/lib/backup.ts:233-400 | a refused file leaves the store untouched; an accepted one leaves exactly the specified merge |
| BackupMerge.ImportKeepsExisting | frontend/src/lib/backup.ts:354-381 | no existing row is altered |
| BackupMerge.ImportAddsNoOrphan | frontend/src/lib/backup.ts:354-381 | no message is added without its conversation, and another device gets new conversations as pending |
| BackupMerge.ImportIsIdempotent | frontend/src/lib/backup.ts:233-400 | importing a file twice is importing it once |
| BackupMerge.LimitsDecide | frontend/src/lib/backup.ts:287-353 | an exported store is accepted if and only if it is within the stated limits |
| BackupMerge.OpenAnswers | frontend/src/lib/backup.ts:233-353 | a file is accepted if and only if it is a current backup, opens with the key and is well formed; which code each earlier stage gives |
| BackupMerge.ImportBringsExactly | frontend/src/lib/backup.ts:354-400 | into any store exactly the conversations, the seeds and the messages with a known conversation arrive |
| BackupMerge.FirstRowWins | frontend/src/lib/backup.ts:354-397 | of several rows with one id the first that is let through counts |
| BackupMerge.RestoreGives | frontend/src/lib/backup.ts:160-210 | what an export restores to in an empty store, on the same device or another |
| BackupMerge.RestoreIsExact | frontend/src/lib/backup.ts:160-210 | export then import on the same device gives back the store if and only if it is within the limits, has no orphan message and no seed with a distribution epoch |
| StaleSweep.DeliveryStore.DetectStaleDevices | apps/chat-delivery-service/src/app.controller.ts:319-366 | the demotion loop equals the declarative demotion of all active rows without a fresh KeyPackage, routing included |
| StaleSweep.DeliveryStore.Purge | apps/chat-delivery-service/src/services/messaging.service.ts:358-395 | a purge removes every row and routing entry of one device and no other |
| StaleSweep.DeliveryStore.FindDoomed | apps/chat-delivery-service/src/app.controller.ts:577-634 | the candidates are the expired devices without a veto and the devices without a KeyPackage |
| StaleSweep.DeliveryStore.CleanupStaleDevices | apps/chat-delivery-service/src/app.controller.ts:577-650 | the purge loop equals the purge of all candidates at once |
| StaleSweep.FreshSurvives | apps/chat-delivery-service/src/app.controller.ts:310-650 | a device with a fresh KeyPackage keeps its package, its memberships as they were and its routing |
| StaleSweep.DetectionMeans | apps/chat-delivery-service/src/app.controller.ts:319-366 | after detection exactly the fresh active members are active and no demoted one is routed to |
| StaleSweep.PurgeLeavesNothing | apps/chat-delivery-service/src/services/messaging.service.ts:358-395 | a purged device has no package, no membership, no footprint and no routing where it was a member |
| StaleSweep.OthersAreSpared | apps/chat-delivery-service/src/app.controller.ts:577-650 | a device that is not a candidate keeps everything it had |
| StaleSweep.SafeExactlyIfUnlisted | apps/chat-delivery-service/src/app.controller.ts:577-650 | while a cleanup runs and devices publish and enrol, a fresh device is safe from it if and only if it is not on the list the cleanup made |
| StaleSweep.LateRepublishIsPurged | apps/chat-delivery-service/src/app.controller.ts:577-650 | a device that was fresh when the list was made is not on it; a listed device that publishes before its turn is purged fresh |
| StaleSweep.EverySeatHasAPackage | apps/chat-delivery-service/src/app.controller.ts:584-602 | no membership is left without a KeyPackage |
| StaleSweep.ExpiredSurvivesExactlyWhenShielded | apps/chat-delivery-service/src/app.controller.ts:606-628 | an expired device survives if and only if a live member has the same device id |
| StaleSweep.UniqueIdsLeaveOnlyFresh | apps/chat-delivery-service/src/app.controller.ts:606-628 | with globally unique device ids only fresh devices are left |
| StaleSweep.SweepIsIdempotent | apps/chat-delivery-service/src/app.controller.ts:225-231 | a second sweep at the same instant changes nothing |
| StaleSweep.CleanupFirstMisses | apps/chat-delivery-service/src/app.controller.ts:225-231 | the order counts: cleaning up first spares a stale device that the sweep removes |
| SessionRegistry.AppState.RemoveSession | apps/chat-gateway/src/state.rs:48-60 | the connection and closed sessions go, an empty key goes, and the answer says whether another live session holds the key |
| SessionRegistry.AppState.HasOtherSessions | apps/chat-gateway/src/state.rs:70-77 | the same question without unregistering |
| SessionRegistry.AppState.Deliver | apps/chat-gateway/src/subscribers.rs:168-221 | delivery prunes only after a failed send, and asks to delete presence if and only if every session of the key is closed |
| SessionRegistry.NoEmptyKey | apps/chat-gateway/src/state.rs:48-60 | no reachable registry holds a key without sessions |
| SessionRegistry.TrackedStep | apps/chat-gateway/src/subscribers.rs:277-312 | every step keeps all open sockets registered, except exactly a channel-event failure under a key with an open socket |
| SessionRegistry.DecisionIsExact | apps/chat-gateway/src/ws_dispatch.rs:92-102 | presence is given up if and only if no other socket of the device is open |
| SessionRegistry.DroppedIsGone | apps/chat-gateway/src/state.rs:48-60 | a connection that has left is registered nowhere |
| SessionRegistry.PresenceIsSafe | apps/chat-gateway/src/handlers.rs:58-121 | the deletion runs in a later task: whatever happens in between, it hits a device with an open socket if and only if one has connected since the decision |
| SessionRegistry.DisconnectAgreesWithDrop | apps/chat-gateway/src/handlers.rs:58-72 | the explicit frame and the dropped guard answer alike |
| SessionRegistry.ChannelFailureHidesALiveTab | apps/chat-gateway/src/subscribers.rs:294-312 | after a failed channel event under a key with an open socket, whichever other connection of the key leaves takes the device offline while that socket is open |

## Left out

- OpenMLS itself, its cryptography, its wire format and its tree: a group is its epoch, activity, roster of credentials, pending commit, send generation and an abstract secret.
- Storage keys are pairs of a label and an identifier, not byte strings; the prefix test on labels is kept, the byte layout is not.
- `group_ids` in the device model are a set of names: their sorted order in the file is covered only as the order of a list in ByteCompat.
- Machine integers: epochs are natural numbers bounded only where the code compares with the largest 64-bit value; counters do not wrap.
- UTF-8 validity: texts are the bytes of their encoding, and a group id carries a flag that says whether it is text.
- CBOR tags, big numbers, byte strings of indefinite length and fields unknown to the state record: no version of the writer produces them.
- The identity bundle inside the state is one buffer: its two inner buffers use the same codec.
- State composition reports, key package batches and `key_package_has_private`: they would only add easy members.
- The reset of a group's active epoch to zero and the pruning of the commit log: a model run starts from a new group.
- CommitGate.AttemptReplay: a device that forgot the group and joined again counts its own earlier commits as ones it cannot replay, although a fresh leaf could.
- An external joiner that applies a later commit before its own answer arrives is settled by that commit; the late answer then finds nothing to merge.
- GateEngine.SettledDevicesAgree: a joint run has one tree under the group's name; a creation that finds no stored record and a forced one start another tree, which no gate orders, and are not acts of it.
- BuildKeyPackage: the builder is taken not to write the store by itself; the code persists the bundle in a separate call.
- Request validation, membership checks and push delivery around the commit gate: they reject before the gate or follow after it.
- A failing or cleared local store, and snapshots of a second tab: the ledger is durable and snapshot numbers come from one document.
- Background sends that bypass the ledger: they only move the state on disk forward.
- SfuRoom.NoMissedSubscription: speaks of attempts to attach a track, because the code logs a refusal and goes on, and does not say that a track is attached only once, because a publication that falls between registration and the track lock reaches the peer both ways.
- Media forwarding, keyframe requests, room reaping and TURN configuration of the SFU.
- ICE: signals of one peer arrive one after the other; counters do not wrap at 32 bits.
- The writers' clock never runs backwards; the file system renames atomically.
- Backup: encryption and JSON are faithful, white space in ids is the ASCII set with two Unicode characters, and metadata beyond name and lifecycle is one opaque value.
- Stale sweep: prekeys, push tokens and queued messages are one footprint per device; the purge of one device is one step; the database does not change while candidates are looked up; user and device ids are pairs instead of joined texts.
- Gateway: Redis itself, the retries of a presence deletion (it runs once, at any later time) and frames in flight.
- The web front end, the social service, key derivation and the native bridges.
