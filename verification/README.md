# Verified model of the durable protocols

The repository drives coding agents over GitHub Issues and keeps everything it knows in
files that must survive a crash at any moment.  This project models the four protocols that
keep that durable state and proves what they promise, for every input, every run and every
crash point.

1. **The crash-safe store** (`EventLog`, `Disk`, `Recovery`, `Atomicity`, `Durability`, `Restore`,
   `Update`, `Quarantine`, `Verdicts`, `StateStore`).  An update prepares a transaction file,
   appends one event, replaces the snapshot, removes the transaction and perhaps rotates the
   log.  Every durable operation is computed as a plan: the list of its writes and its
   outcome.  A crash keeps a prefix of the list, and an append may leave any prefix of its
   line.  `StateStore.Store` is the imperative store with a budget of writes; its methods are
   proved to make exactly the planned writes up to the crash.
2. **Execution authority** (`Lifecycle`, `Aggregate`, `ExecutionSlot`, `Boundary`, `Resolution`,
   `Answers`, `Isolation`, `Authority`, and the theorems in `Slots`, `Decisions`, `Operators`,
   `Fencing`, `Suspensions`, `Conversations`, `CommittedIsolation`).  An update is any sequence
   of the primitive steps, then the lifecycle boundary, validation, and a commit, the isolation
   of one Issue, or nothing.  `Draft.Snapshot` is the object those steps edit in place, and its
   `RunUpdate` is one whole update as the theorems about runs speak of it.  `Repository` puts
   the aggregate into the store and carries its invariants across crashes.
3. **The repository assignment switch** (`Assignment`, `AssignmentSafety`, `AssignmentExact`,
   `AssignmentCommits`, `AssignmentController`): a deploy and rollback protocol over config,
   LaunchAgent plist, transaction and maintenance fence, interruptible at any write and re-entered
   by any later call.
4. **Webhook routing, the conditional sweep, and the label projection** (`Mailbox`, `Broker`,
   `Sweep`, `Projection`).

`Wrappers` and `Sorting` serve all of them.

## What the model takes for granted

- Replacing a file is atomic, appending is the only write that can tear, and a write that
  reports an error has not happened.  The one exception is modelled: writing the delivery
  config inspects the file again after replacing it and may then report an error
  (internal/application/delivery/config.go:250-253).
- The codec is faithful (`Codec.Faithful`): a line of the log decodes to its event with the payload
  compacted, and no proper prefix of a line contains a line end.  A payload is raw JSON.  Encoding
  a line compacts it, an indented file gives it back with the white space that indentation put
  into it (internal/platform/fsutil/atomic.go:12-19, internal/domain/snapshot/snapshot.go:396), and
  compacting that gives the original again.  The only indented file with a payload is the
  transaction.  Every other stored file decodes to what was encoded.
- The validator does not look at revision and update time and finds a snapshot incompatible only for
  its version; normalisation changes only contents, and only those of a snapshot the validator
  rejects (`Recovery.Env.Sound`; `Repository.SettingIsSound` proves it of the modelled validator
  and normaliser).
- An absent log and an empty one are the same.
- Identifiers, digests and texts are numbers, zero standing for the empty one; times are
  integers.  Map keys play the part of the Issue number inside a record.  Fresh identifiers
  are arguments, and `FreshIn` says when they are fresh.
- The validator is modelled for execution, Issues, suspensions, records, effects and requests;
  its remaining checks are an arbitrary predicate `rest`, the same in every theorem.
- Each store operation holds the exclusive lock from beginning to end, so operations form a
  sequence.
- Whether launchd has the agent loaded is an arbitrary observation of each call.  A health
  check that succeeds implies that the plist runs the program it was asked about, and a
  released binary reports the version and commit of its label.
- A 304 response is truthful in the sense of section 15.4.5 of RFC 9110: the page still has the
  body that was shown with that validator.

## Where the code promises less than its design

Each of these is stated as an exact condition, with a concrete input.

- While the event of a prepared transaction is whole in the log and the transaction is still there,
  recovery compares the two by the bytes of their payloads
  (internal/adapter/state/recovery.go:66-70, 263-267).  Null, scalar and empty payloads survive the
  transaction file; every other object or list comes back indented and conflicts with its own
  line.  So a crash in that window makes the next recovery quarantine the directory
  (`Atomicity.StrandedPlan`), and since the backup then holds a transaction, no restore is offered
  (`Quarantine.StrandedForGood`).  Updates, tail repairs and recoveries have the window.  At every
  other crash point the design holds without a condition, and everywhere when the payloads survive
  (`Update.PlainRuns`).  `Update.UpdateExactly`, `Update.RunExactly` and
  `Durability.InterruptedExactly` state it as an equivalence; `Repository.FirstStartStrands` is the
  first execution of the first Issue, stopped after its append.
- A crash in a quarantine after the files were moved and before the first byte of the marker
  leaves a directory that looks new: `Quarantine.QuarantineWindow`.  The old files are still in
  the backup (`Quarantine.QuarantineConserves`).
- Isolating an Issue that already has a quarantine record replaces the record, so requests kept
  in it are lost (`Conversations.IsolationConserves`).  An update aimed at a managed Issue never
  does this (`CommittedIsolation.ManagedIsolationConserves`).  A commit of an update aimed at an
  Issue already in quarantine can: `CommittedIsolation.SecondIsolationLoses` sets an effect for
  such an Issue.
- Writing the config can report an error after the file was replaced.  If the program is then
  rolled back, the new program is committed and the old one runs.  The fence is lost exactly by
  such a call that also clears it; with the fence kept and the transaction closed, a later switch
  to a third program starts from a program that is neither of its two.  `AssignmentExact.RunExactly`
  states each claim about the running program exactly, over every run, and
  `AssignmentExact.FenceLossReachable` and `AssignmentExact.StrayReachable` give the runs.
- The boundary offers retry-stage for a pull request alone.  Without a checkpoint nothing says which
  stage, and the operator is always refused: `Suspensions.OffersCanBeTaken` says exactly when, and
  `Suspensions.OfferWithoutStage` gives the Issue.
- A projection that should ask a human but has an empty human label never converges:
  `Projection.FullPassConverges` and `Projection.NobodyNeverConverges`.

Restoring an isolated Issue gives back the request table exactly when its requests were filed
under their own identifiers (`Isolation.RestoreUndoesIsolation`).  That is always so for what a
commit isolates: `CommittedIsolation.RestoreReturnsRequests`.

## Model

| member | source | states |
|---|---|---|
| `EventLog.ReadEvents` | internal/adapter/state/recovery.go:183-225 | the line loop returns what the recursive reading of the log defines: events, valid bytes, torn tail, or the error |
| `EventLog.ParseTruncated` | internal/adapter/state/recovery.go:183-225 | cutting a log at the reported valid bytes keeps its events and removes only the torn tail |
| `EventLog.ParseAppend` | internal/adapter/state/recovery.go:269-288 | appending the line of an event to an untorn log appends exactly that event, its payload compacted |
| `EventLog.ParseTorn` | internal/adapter/state/recovery.go:183-225 | a log with any torn prefix of an appended line has the same events, and reports a tail unless the prefix is empty |
| `EventLog.LineDecides` | internal/adapter/state/recovery.go:183-225 | the next complete line is skipped if it is white space, counts if it is an event of this repository and version, makes the log incompatible if of another version, and corrupts it otherwise |
| `EventLog.SequenceAccepted` | internal/domain/snapshot/transaction.go:40-63 | the sequence validator accepts a log if and only if it is contiguous and ends at the state revision |
| `EventLog.ContiguousExtend` | internal/domain/snapshot/transaction.go:40-63 | the next event moves the agreed revision by exactly one |
| `Atomicity.RedoCrash` | internal/adapter/state/recovery.go:50-106 | every crash in the redo of a prepared transaction either keeps what the directory means or strands it, and strands it exactly if the payload does not survive and the event is whole in the log with the transaction still there |
| `Atomicity.RedoEnds` | internal/adapter/state/recovery.go:50-106 | the whole redo reaches the settled target |
| `Atomicity.RedoKeeps` | internal/adapter/state/recovery.go:50-106 | if the payload survives or the event was already recorded, no crash in the redo changes what the directory means or makes it fragile |
| `Atomicity.StrandedPlan` | internal/adapter/state/recovery.go:66-70 | recovery of a stranded directory cuts a torn tail and quarantines: it ends blocked, or refuses when the marker is invalid |
| `Atomicity.RecordedExactly` | internal/adapter/state/recovery.go:263-267 | the log ends with the event of a transaction exactly when they agree in everything but the time stamp |
| `Atomicity.CoreSettles` | internal/adapter/state/recovery.go:21-144 | left alone from a recoverable directory, recovery makes exactly the missing writes: no quarantine and no tail repair; an event it appends itself is not compared |
| `Durability.JournalKeeps` | internal/adapter/state/quarantine_recovery.go:712-795 | no crash in completing a staged restore changes its target, and the completed copy is the staged state |
| `Durability.RecoverSettles` | internal/adapter/state/recovery.go:21-144 | left alone, recovery ends in the target of the directory and returns its snapshot |
| `Durability.RecoverCrash` | internal/adapter/state/recovery.go:21-144 | every crash in a recovery, the staged restore included, keeps the target or strands the directory, the latter exactly in the gap of the redo |
| `Durability.SettledAgain` | internal/adapter/state/recovery.go:21-144 | a further recovery writes nothing and returns the same snapshot |
| `Durability.InterruptedRecovery` | internal/adapter/state/recovery.go:50-106 | any number of recoveries interrupted outside the gap ends in the files and the snapshot of one uninterrupted recovery |
| `Durability.InterruptedExactly` | internal/adapter/state/recovery.go:66-70 | after every interruption a recovery left alone succeeds if and only if no interruption fell into the gap |
| `Durability.FirmUndisturbed` | internal/adapter/state/recovery.go:263-288 | when the pending payload survives the transaction file, no interruption falls into the gap |
| `Verdicts.RecoveryIsHonest` | internal/adapter/state/recovery.go:21-144 | for every directory: recovery succeeds only with a snapshot the files held, namely the loaded state, a valid pending transaction, a recorded torn tail, or nothing where there was nothing, and leaves files that say it with a log that agrees; it blocks only with the marker live and every complete line in the backup; it refuses only for another version, an invalid repair or marker, or a journal it cannot complete |
| `Verdicts.UnreadableIsSetAside` | internal/adapter/state/recovery.go:28-56 | a state, log or transaction that does not decode, is another repository's or does not hold together ends with every file in the backup as it was and only the marker live |
| `Verdicts.UnsupportedIsRefused` | internal/adapter/state/recovery.go:28-56 | files of another version are refused and left as they are |
| `Verdicts.MarkerTells` | internal/adapter/state/recovery.go:353-377 | the marker blocks the repository, at revision one, and its snapshot and event name the backup |
| `Restore.PreparedAgreement` | internal/adapter/state/quarantine_recovery.go:374-413 | the in-memory validator accepts if and only if disk recovery succeeds without quarantine, with the same final snapshot |
| `Restore.AcceptedRecoverable` | internal/adapter/state/quarantine_recovery.go:374-413 | a directory the validator accepts is recoverable, to the snapshot it computed |
| `Restore.PlanExactly` | internal/adapter/state/quarantine_recovery.go:553-646 | a restore is announced exactly when only the marker is live and its backup holds an eligible snapshot of this repository without a transaction, whose log agrees with it and which would be valid with its identities filled in |
| `Restore.RestoreRefused` | internal/adapter/state/quarantine_recovery.go:907-948 | nothing is written exactly when nothing is announced, the confirmed identities do not match, or the repaired snapshot is still invalid |
| `Quarantine.RecoverableAccepted` | internal/adapter/state/quarantine_recovery.go:374-413 | the converse: the validator accepts whatever recovery settles |
| `Restore.StagedIsAcceptable` | internal/adapter/state/quarantine_recovery.go:939-984 | the staged files hold a valid snapshot one revision above the announced one and a whole log that agrees with it |
| `Restore.RestoreCompletes` | internal/adapter/state/quarantine_recovery.go:712-795 | an announced restore always completes: once its journal is written, completion accepts it |
| `Restore.JournalExactly` | internal/adapter/state/quarantine_recovery.go:712-795 | a journal is completed exactly when it is this repository's, the staged files are still what it names, and they hold together |
| `Restore.RestoreRedoSafe` | internal/adapter/state/quarantine_recovery.go:907-1019 | a crash before the journal is durable leaves the live files as they were; after it every crash schedule ends in the staged files: the backed-up snapshot with what the operator confirmed, one revision up, dated, and the backed-up log with one event that names the backup |
| `Restore.JournalRedoSafe` | internal/adapter/state/quarantine_recovery.go:712-795 | any journal that completion accepts makes the directory durable; through any interruptions recovery succeeds if and only if none falls into the gap of a staged transaction, and ends in the staged target |
| `Update.UpdateAtomic` | internal/adapter/state/state.go:119-143 | every crash point and every torn append of an update leaves the old contents or the new ones, the new ones if and only if the transaction file became durable, or, exactly in the gap, a stranded directory |
| `Update.UpdateExactly` | internal/adapter/state/recovery.go:66-70 | a recovery left alone succeeds after a crash of an update if and only if the crash did not fall into the gap: the payload does not survive, the event is whole in the log, and the transaction is still there |
| `Update.CrashStrands` | internal/adapter/state/state.go:128-140 | a crash between append and snapshot strands an update of any settled directory whose payload does not survive |
| `Update.CommitAddsOne` | internal/adapter/state/state.go:106-123 | a commit adds exactly one event and one revision, and they agree |
| `Update.CommitsExactly` | internal/adapter/state/state.go:75-107 | an update commits exactly when the directory is not blocked, the edit succeeds and the validator accepts its result |
| `Update.UpdateRecords` | internal/adapter/state/state.go:108-143 | an update that finishes leaves the edited contents one revision up and dated, and appends one event with its Issue, run, kind, compacted payload, time and sequence; a rotation then leaves one checkpoint that names the archived revision |
| `Update.RotationSettles` | internal/adapter/state/state.go:206-234 | replacing the log by one checkpoint event keeps log and revision in agreement |
| `Update.RefusalKeeps` | internal/adapter/state/state.go:75-118 | an update that refuses writes exactly what a recovery writes, and a crash in it does what a crash in that recovery does |
| `Update.InitializeAtomic` | internal/adapter/state/state.go:236-258 | initialisation changes no contents at any crash point outside the gap of the recovery it starts with |
| `Update.InitializeCreates` | internal/adapter/state/state.go:236-258 | initialisation creates the empty state at revision zero exactly where there is none and it is valid, and otherwise only recovers |
| `Update.AttemptRefines` | internal/adapter/state/state.go:62-144 | one call, crashed anywhere outside its gap, is zero or one steps of the atomic store, and in the gap strands the directory; plain payloads keep it free of gaps |
| `Update.RunExactly` | internal/adapter/state/state.go:62-144 | over every run, recovery succeeds after each call if and only if no call was stopped in its gap |
| `Update.PlainRuns` | internal/adapter/state/state.go:62-144 | a run whose payloads all survive the transaction file is never stranded, whatever crashes |
| `Update.RunRefines` | internal/adapter/state/state.go:62-144 | every run of crashing calls, none stopped in its gap, means the atomic run of the updates that took effect |
| `Update.AcknowledgedTakesEffect` | internal/adapter/state/state.go:119-143 | an update whose call returned its snapshot has taken effect, one revision up |
| `Update.LogAgrees` | internal/adapter/state/state.go:106-143 | in every directory such a run reaches, once settled, the log is contiguous up to the revision, and is empty if and only if the revision is zero |
| `Quarantine.RepairShape` | internal/adapter/state/recovery.go:115-136 | a torn tail without a transaction is cut and recorded, or recovery refuses after the cut |
| `Quarantine.RepairAtomic` | internal/adapter/state/recovery.go:297-329 | every crash in a tail repair leaves the torn directory, the directory without its tail, or exactly one more event and revision, or, exactly in the gap of its commit, a stranded directory |
| `Quarantine.QuarantineConserves` | internal/adapter/state/recovery.go:331-377 | at every crash point of a quarantine each file is in its place or in the backup |
| `Quarantine.QuarantineEnds` | internal/adapter/state/recovery.go:331-377 | a finished quarantine holds the marker state and log and the old files in the backup |
| `Quarantine.QuarantineBlocks` | internal/adapter/state/state.go:75-77 | after a quarantine every update is refused and writes nothing |
| `Quarantine.QuarantineWindow` | internal/adapter/state/recovery.go:336-376 | stopped between the moves and the marker state, the directory recovers as new if and only if no byte of the marker was appended |
| `Quarantine.RestoreOffered` | internal/adapter/state/quarantine_recovery.go:553-646 | what a quarantine set aside can be restored exactly when the same files could have been before it |
| `Quarantine.QuarantineThenRestore` | internal/adapter/state/quarantine_recovery.go:907-1019 | quarantine, then restore with identities that repair the snapshot: any crashes after the journal end in exactly the confirmed contents one revision up, the old log with one more event, and the old files still in the backup |
| `Quarantine.StrandedForGood` | internal/adapter/state/quarantine_recovery.go:583-587 | a stranded directory, once quarantined, is never offered for restore |
| `StateStore.ExecIsCrash` | internal/adapter/state/state.go:119-143 | a store that stops after a number of writes has the files of a crash after that many writes |
| `StateStore.Store.constructor` | internal/adapter/state/state.go:27-33 | a store starts on the given files with the given budget of writes |
| `StateStore.Store.Do` | internal/adapter/state/recovery.go:290-295 | one durable write happens unless the process stopped before it |
| `StateStore.Store.ReadLog` | internal/adapter/state/recovery.go:183-225 | reads the log on the disk |
| `StateStore.Store.Commit` | internal/adapter/state/state.go:128-140 | prepare, append, replace, remove, in that order and up to the crash |
| `StateStore.Store.SetFilesAside` | internal/adapter/state/recovery.go:336-352 | moves each present file to the backup, up to the crash |
| `StateStore.Store.Quarantine` | internal/adapter/state/recovery.go:331-377 | the writes of the quarantine plan and its outcome |
| `StateStore.Store.CheckConsistency` | internal/adapter/state/recovery.go:137-144 | accepts a log that agrees with the snapshot and quarantines another |
| `StateStore.Store.RecordRepair` | internal/adapter/state/recovery.go:297-329 | commits the repair event, or refuses an invalid repaired snapshot |
| `StateStore.Store.Settle` | internal/adapter/state/recovery.go:107-144 | what recovery does without a pending transaction: the fresh directory, the torn tail, the consistency check |
| `StateStore.Store.Advance` | internal/adapter/state/recovery.go:84-106 | replaces the snapshot where the transaction is ahead of it, drops the transaction, and goes on |
| `StateStore.Store.Redo` | internal/adapter/state/recovery.go:50-106 | replays a transaction over log and snapshot, truncating, appending or quarantining as the two compare |
| `StateStore.Store.RecoverFiles` | internal/adapter/state/recovery.go:28-144 | recovery of the three files makes the planned writes and returns the planned outcome |
| `StateStore.Store.CompleteRestore` | internal/adapter/state/quarantine_recovery.go:712-795 | completes a staged restore if its journal and backup are acceptable |
| `StateStore.Store.Recover` | internal/adapter/state/recovery.go:21-144 | the journal first, then the three files |
| `StateStore.Store.PreviewRestore` | internal/adapter/state/quarantine_recovery.go:553-646 | reads the marker and the backup and announces exactly what can be restored, without a write |
| `StateStore.Store.RestoreBackup` | internal/adapter/state/quarantine_recovery.go:907-1019 | stages, announces, completes and recovers exactly as planned, up to the crash |
| `StateStore.Store.Rotate` | internal/adapter/state/state.go:206-234 | replaces the log by one checkpoint when the policy asks for it |
| `StateStore.Store.Update` | internal/adapter/state/state.go:62-144 | recovers, refuses or commits exactly as planned, up to the crash |
| `StateStore.Store.Initialize` | internal/adapter/state/state.go:236-258 | writes the empty snapshot only where there is none |
| `Lifecycle.DecisionsMakeTheGraph` | internal/domain/issue/transition.go:25-43 | the decisions together allow exactly the stated moves between statuses: a worker only runs once launched, only what is claimed, parked or under way is launched, only what is suspended is canceled |
| `Boundary.BoundarySuspension` | internal/adapter/state/suspension.go:73-138 | a suspension made at the boundary offers strictly sorted actions with cancel, is unresolved, and is quarantined if and only if ambiguous |
| `Sorting.CanonicalSorts` | internal/adapter/state/suspension.go:130-138 | sorting and compacting gives a strictly ascending list of exactly the given elements |
| `Sorting.CompactInPlace` | internal/adapter/state/suspension.go:130-138 | the in-place compaction keeps exactly the compacted list at the front of the array |
| `Isolation.IsolationIsLocal` | internal/adapter/state/state.go:157-189 | isolation leaves every other Issue, record, request, effect and execution unchanged |
| `Isolation.IsolationMovesRequests` | internal/adapter/state/state.go:173-184 | exactly the Issue's requests move into the record, sorted by identifier |
| `Isolation.RestoreUndoesIsolation` | internal/adapter/state/issue_transition.go:224-260 | restoring an isolated Issue gives back exactly the earlier request table if and only if its requests were filed under their own identifiers |
| `CommittedIsolation.MutatedFiled` | internal/adapter/state/state.go:83-91 | whatever steps an update of a valid aggregate makes, requests stay filed under their own identifiers and no Issue is put into quarantine |
| `CommittedIsolation.RestoreReturnsRequests` | internal/adapter/state/issue_transition.go:224-260 | restoring what a commit isolated gives back exactly the request table from before the isolation |
| `CommittedIsolation.ManagedIsolationConserves` | internal/adapter/state/state.go:157-189 | a commit that isolates a managed Issue loses no request |
| `CommittedIsolation.SecondIsolationLoses` | internal/adapter/state/state.go:163-187 | a valid aggregate and an update, aimed at an Issue already in quarantine, whose commit loses a request |
| `Conversations.IsolationConserves` | internal/adapter/state/state.go:163-187 | isolation loses no request if and only if no earlier record of the Issue held requests |
| `Fencing.FinalizeKeeps` | internal/adapter/state/suspension.go:44-71 | the boundary changes no status and no identity and can only give the slot back |
| `Fencing.CommitProgresses` | internal/adapter/state/state.go:89-106 | every commit is valid and moves the generations of every Issue forward |
| `Fencing.MutatedMatches` | internal/adapter/state/execution.go:149-212 | whatever steps an update makes, slot and Issue agree on run and generation when the boundary begins |
| `Fencing.BoundaryBacksAuthority` | internal/adapter/state/suspension.go:44-59 | before any validation the boundary leaves the slot only with a managed Issue that executes at the slot's run and generation, and takes nothing from such a holder |
| `Fencing.AuthorityFollowsLifecycle` | internal/domain/snapshot/snapshot.go:576-610 | over every run of updates the slot is held by exactly the managed, not quarantined Issue whose status executes, at its own run and generation |
| `Fencing.CommitFences` | internal/adapter/state/execution.go:79-108 | a commit keeps the holder or gives the slot to a generation above everything the Issue used |
| `Fencing.ReleasedNeverReturns` | internal/adapter/state/execution.go:131-147 | over every run, an identity that does not hold the slot and was used never holds it again |
| `Fencing.SpentForever` | internal/adapter/state/issue_transition.go:224-260 | a used generation stays used over every run, isolation and restoration included |
| `Fencing.NewHolderIsNewer` | internal/adapter/state/execution.go:188-211 | each newly committed holder has a generation above every one the Issue ever held |
| `Fencing.LaterHolderIsNewer` | internal/adapter/state/execution.go:188-211 | whoever holds the slot for an Issue after a run held it before, or has a generation above every one the Issue had used |
| `Fencing.IdentityIsFenced` | internal/adapter/state/execution.go:131-134 | an identity that held the slot and later does not owns it at no time after that |
| `Suspensions.SuspensionsHold` | internal/adapter/state/suspension.go:44-71 | over every run each blocked or failed Issue has an unresolved suspension and each completed one neither suspension nor checkpoint |
| `Suspensions.CommitResolves` | internal/adapter/state/issue_transition.go:15-31 | one commit keeps that invariant, whether it commits or isolates |
| `Suspensions.CheckpointResumes` | internal/adapter/state/suspension.go:12-59 | authority taken from an unfinished Issue leaves a checkpoint with its run, generation and base, and resuming it with the slot free succeeds with the same run and base, one generation up |
| `Suspensions.CommittedSuspension` | internal/adapter/state/suspension.go:73-128 | a suspension made in a commit is fresh, sorted, offers cancel and names the checkpoint of its Issue |
| `Suspensions.BoundaryOffers` | internal/adapter/state/suspension.go:73-128 | exactly when each action is offered, what evidence is missing, why, and when the suspension is held back |
| `Suspensions.OffersCanBeTaken` | internal/adapter/state/suspension.go:73-105 | every offered action is one the lifecycle takes, except retry-stage for an Issue whose checkpoint names no stage |
| `Suspensions.OfferWithoutStage` | internal/adapter/state/suspension.go:85-88 | a failed Issue with a pull request and no checkpoint is offered such a retry |
| `Conversations.DeliverOnce` | internal/adapter/state/execution.go:82-95 | delivering the answers to intake questions adds no second record of a request |
| `Conversations.DeliverExactly` | internal/adapter/state/execution.go:82-95 | the answers there were stay in front, every answered request from before the run has an answer, and each new answer repeats such a request that had none |
| `Conversations.StartExactly` | internal/adapter/state/execution.go:39-80 | a start succeeds exactly for the run that holds the slot, or, with the slot free, for an Issue that is new or being claimed, not in quarantine and without an open question |
| `Conversations.StartDelivers` | internal/adapter/state/execution.go:72-119 | a start takes the slot for its own run and base, one generation up, claims the Issue, delivers exactly those answers, each once, and changes nothing else |
| `Conversations.AnswersDeliveredOnce` | internal/adapter/state/mailbox.go:117-156 | over every run no Issue, managed or quarantined, holds two answers to one request |
| `Conversations.StepKeepsAnswers` | internal/adapter/state/issue_transition.go:179-190 | each step keeps every recorded answer and opens only the requests it says it opens |
| `Conversations.CommitWritesOnce` | internal/adapter/state/mailbox.go:14-78 | a request known before and after a commit keeps its answer and time once it has them |
| `Conversations.AnswersWrittenOnce` | internal/adapter/state/mailbox.go:14-78 | over every run a request that stays present keeps the answer and time it received |
| `Operators.RelaunchTakesSlot` | internal/adapter/state/issue_transition.go:390-418 | resume and retry-stage need the free slot and take it for exactly this Issue with a fresh generation, leaving the apply-resolution effect and every other Issue as it was |
| `Operators.OtherActionsKeepSlot` | internal/adapter/state/issue_transition.go:312-466 | no other action takes or gives back the slot or touches another Issue |
| `Operators.PathsOnlyGrow` | internal/adapter/state/issue_transition.go:336-339 | an extension of the allowed paths is their sorted, duplicate-free union with the new ones |
| `Operators.ResolutionExtendsPaths` | internal/adapter/state/issue_transition.go:312-466 | over every action the allowed paths grow as a set, by observed paths only, and are sorted whenever they change |
| `Operators.ResolutionOutcome` | internal/adapter/state/issue_transition.go:340-465 | cancel ends canceled, adopting a merged pull request ends completed, adopting evidence keeps the status |
| `Operators.CancelExactly` | internal/adapter/state/issue_transition.go:440-458 | cancelling takes exactly an open or held back suspension that offers it, of an Issue without a worker that does not hold the slot |
| `Operators.AdoptExactly` | internal/adapter/state/issue_transition.go:419-439 | adopting takes exactly an open suspension that offers it and a pull request observed whole |
| `Operators.RelaunchExactly` | internal/adapter/state/issue_transition.go:390-418 | resuming and retrying take exactly an open suspension that offers it, the free slot, the run's own checkpoint, and what was observed of a publication or checks stage |
| `Operators.AdoptionExactly` | internal/adapter/state/issue_transition.go:262-389 | a head, a worktree or conflict paths are adopted exactly for an Issue that lacks them, as they were observed, with the slot free and no question open for paths |
| `Operators.MergeIsRecorded` | internal/adapter/state/issue_transition.go:419-439 | the observed pull request, number and head are stored, with the effect that marks the Issue done |
| `Operators.EvidenceIsRecorded` | internal/adapter/state/issue_transition.go:336-389 | an adopted head or worktree goes into the checkpoint and nowhere else; a worktree opens the suspension for a retry of the conflict |
| `Operators.CancelIsRecorded` | internal/adapter/state/issue_transition.go:440-458 | cancelling records who cancelled and what GitHub said, withdraws only the Issue's pending requests, and drops its effect |
| `Operators.RetriedIsRecorded` | internal/adapter/state/issue_transition.go:390-418 | a retried publication takes the observed result and, for a repair, head; any other checkpoint stays; the attempts at a conflict start over |
| `Operators.RelaunchIsRecorded` | internal/adapter/state/issue_transition.go:390-418 | the relaunched Issue is the retried one in the status of its stage, a checks stage with the observed head and pull request |
| `Slots.TransitionClears` | internal/adapter/state/issue_transition.go:15-31 | a transition clears the launch source, checkpoint and suspension that the new status may not keep, and nothing else |
| `Slots.DecisionIsDated` | internal/adapter/state/issue_transition.go:15-31 | a decision applies exactly where the lifecycle allows it, is dated, and touches no other Issue |
| `Slots.EffectIsSet` | internal/adapter/state/effect.go:18-37 | an equal effect keeps its identifier and time, another replaces it |
| `Slots.ClearUndoesSet` | internal/adapter/state/effect.go:18-49 | clearing by its identifier undoes setting an effect; another identifier is refused |
| `Slots.HolderReleases` | internal/adapter/state/execution.go:131-147 | exactly the holder gives the slot back, once, and only its worker is forgotten |
| `Slots.StagesFollow` | internal/domain/issue/continuation.go:26-35 | a checkpoint waits for checks, resolves a conflict or resumes, as its status says |
| `Slots.CaptureThenResume` | internal/adapter/state/execution.go:149-195 | exactly the holder is checkpointed, with its run, base, workspace, session, head and pull request; only under the name of the checkpoint the slot is taken again, same run and base, one generation up |
| `Slots.ResumeExactly` | internal/adapter/state/execution.go:173-195 | a run is resumed exactly from its own checkpoint with the slot free |
| `Slots.TransferHandsOver` | internal/adapter/state/execution.go:197-212 | exactly the holder hands over; the new run holds the slot, and the old identity can neither release nor hand over again |
| `Slots.UnstartedGoesBack` | internal/adapter/state/execution.go:268-348 | a conflict launch goes back exactly when it is as observed and all evidence agrees that it never started; its checkpoint takes the slot again |
| `Slots.OrphanIsReleased` | internal/adapter/state/suspension.go:44-59 | authority over an Issue that is not there is released |
| `Slots.BoundaryKeeps` | internal/adapter/state/suspension.go:12-43 | what an Issue keeps when it loses the slot: an outdated checkpoint gives way to a new one, any other keeps its name, stage, measured worktree and measured head |
| `Slots.BoundaryTouches` | internal/adapter/state/suspension.go:44-71 | the boundary touches only the Issue that loses the slot, completed Issues, and suspended ones without a suspension |
| `Decisions.CloseExactly` | internal/adapter/state/issue_transition.go:73-136 | an Issue closed as not planned is canceled exactly if it is blocked, failed or canceled, still as observed, and waits for nothing |
| `Decisions.ClosedIsCanceled` | internal/adapter/state/issue_transition.go:73-136 | it keeps answers and checkpoint, its suspension is resolved, its authority given back, its effect dropped, and the cancellation says what it was |
| `Decisions.RecordIsCanceled` | internal/adapter/state/issue_transition.go:149-177 | a quarantined Issue comes back canceled at the rejected run and generation, with what was last known of its work |
| `Decisions.ResolutionIsDated` | internal/adapter/state/issue_transition.go:459-465 | a resolved suspension names the action and the time and is otherwise unchanged |
| `Decisions.QuestionReturns` | internal/adapter/state/input_recovery.go:11-31 | an Issue waiting for input is restored exactly from the record of a run that asked one further question of its own session and workspace |
| `Decisions.RestoredQuestionCanBeAnswered` | internal/adapter/state/issue_transition.go:192-222 | its question is live again, its checkpoint holds the observed head and worktree, and the answer can be handed over |
| `Decisions.OneReceipt` | internal/adapter/state/input_recovery.go:32-71 | a request has one receipt exactly when one delivered answer repeats it |
| `Decisions.ChecksReturn` | internal/adapter/state/input_recovery.go:32-71 | a checks retry is restored exactly from the record of a launch rejected after its answers were delivered once each |
| `Decisions.RestoredChecksGoOn` | internal/adapter/state/issue_transition.go:224-260 | it awaits its checks one generation before the rejected one, with a checkpoint of the observed head and worktree |
| `Decisions.AnswerIsRecorded` | internal/adapter/state/mailbox.go:47-69 | an answer is recorded exactly for the one pending request of its identifier, and never a second time |
| `Decisions.DeliverableExactly` | internal/adapter/state/mailbox.go:82-115 | exactly when an answered request can be handed over, and to which status |
| `Decisions.AnswerIsHandedOver` | internal/adapter/state/mailbox.go:117-156 | the Issue gets the answer once, moves on, and its effect follows |
| `Decisions.UndeliverableIsRefused` | internal/adapter/state/mailbox.go:82-156 | any other request is refused |
| `Decisions.QuestionIsAsked` | internal/adapter/state/mailbox.go:158-185 | a question before the run is asked once, refused while a different one is open, and becomes the open question |
| `Decisions.RecordTells` | internal/adapter/state/state.go:157-189 | the record of an isolated Issue holds the rejected run, generation and status and the last valid Issue |
| `Decisions.CommitDecides` | internal/adapter/state/state.go:78-107 | an update commits what the boundary leaves, or isolates the Issue it is about, or neither; a slot given back is dated |
| `Decisions.RefusalHasCause` | internal/adapter/state/state.go:78-107 | a commit is refused only if neither what the boundary leaves nor that without the Issue is valid |
| `Decisions.StepsTakeEffect` | internal/adapter/state/state.go:83-88 | each kind of step that succeeds does what its name says |
| `Draft.Snapshot.MoveIssue` | internal/adapter/state/issue_transition.go:15-31 | the companion fields a status may not keep are cleared |
| `Draft.Snapshot.ApplyTransition` | internal/adapter/state/issue_transition.go:15-31 | succeeds exactly when the lifecycle decides, and then edits only that Issue |
| `Draft.Snapshot.SetPendingEffect` | internal/adapter/state/effect.go:18-37 | sets, keeps or refuses the pending effect of one Issue |
| `Draft.Snapshot.ClearPendingEffect` | internal/adapter/state/effect.go:39-49 | succeeds exactly when the Issue has no effect or one with this identifier; then it has none, and every other effect stays |
| `Draft.Snapshot.DeliverIntake` | internal/adapter/state/execution.go:82-95 | the loop appends exactly the undelivered intake answers in order |
| `Draft.Snapshot.StartExecution` | internal/adapter/state/execution.go:39-121 | takes the free slot for an admitted Issue under a new generation, or refuses |
| `Draft.Snapshot.ReleaseExecution` | internal/adapter/state/execution.go:136-147 | only the owner gives the slot back |
| `Draft.Snapshot.CaptureContinuation` | internal/adapter/state/execution.go:149-171 | only the owner stores the checkpoint of its run |
| `Draft.Snapshot.ResumeContinuation` | internal/adapter/state/execution.go:173-195 | takes the free slot from the named checkpoint, one generation up |
| `Draft.Snapshot.TransferExecution` | internal/adapter/state/execution.go:197-212 | the owner passes the slot to a new run, one generation up |
| `Draft.Snapshot.RecoverUnstartedLaunch` | internal/adapter/state/execution.go:268-318 | gives back the slot of a conflict launch that never started, and refuses any other |
| `Draft.Snapshot.AllowedActions` | internal/adapter/state/suspension.go:109-138 | the offered actions, sorted and compacted in place |
| `Draft.Snapshot.EnsureTerminalSuspension` | internal/adapter/state/suspension.go:73-128 | a suspended Issue without a suspension gets the one the boundary defines |
| `Draft.Snapshot.ReleaseAuthority` | internal/adapter/state/suspension.go:44-59 | the slot is given back, with a checkpoint, exactly when its Issue no longer executes |
| `Draft.Snapshot.SettleIssue` | internal/adapter/state/suspension.go:60-70 | settles one Issue at the boundary and no other |
| `Draft.Snapshot.FinalizeLifecycleBoundaries` | internal/adapter/state/suspension.go:44-71 | the loop settles every Issue once, in whatever order they are visited |
| `Draft.Snapshot.CollectRequests` | internal/adapter/state/state.go:173-182 | takes exactly the Issue's requests out of the table, in whatever order they are visited |
| `Draft.Snapshot.IsolateInvalidIssue` | internal/adapter/state/state.go:157-189 | moves one Issue and exactly its requests into a record and touches nothing else |
| `Draft.Snapshot.FinishUpdate` | internal/adapter/state/state.go:90-107 | boundary, validation, isolation when it fails, second validation, and the stamp of a released slot, as the commit of the theorems defines them |
| `Draft.Snapshot.ReturnRequests` | internal/adapter/state/issue_transition.go:255-257 | puts every kept request back under its own identifier |
| `Draft.Snapshot.RestoreChecks` | internal/adapter/state/issue_transition.go:224-260 | restores an answered checks retry that qualifies, and refuses any other record |
| `Draft.Snapshot.RestoreQuestion` | internal/adapter/state/issue_transition.go:192-222 | restores an Issue waiting for input that qualifies, and refuses any other record |
| `Draft.Snapshot.CancelPendingRequests` | internal/adapter/state/issue_transition.go:138-147 | withdraws exactly the Issue's pending requests |
| `Draft.Snapshot.CancelNotPlannedIssue` | internal/adapter/state/issue_transition.go:73-136 | cancels an Issue closed as not planned, only in the state it was observed in |
| `Draft.Snapshot.CancelQuarantinedIssue` | internal/adapter/state/issue_transition.go:149-177 | cancels a quarantined Issue and drops its record |
| `Draft.Snapshot.ExtendAllowedPaths` | internal/adapter/state/issue_transition.go:336-338 | appends, sorts and compacts the allowed paths in place |
| `Draft.Snapshot.RelaunchIssue` | internal/adapter/state/issue_transition.go:390-418 | relaunches a suspended Issue from its checkpoint, or refuses |
| `Draft.Snapshot.HandOverIssue` | internal/adapter/state/issue_transition.go:390-418 | hands a resolved suspension to the supervisor through an effect |
| `Draft.Snapshot.AdoptMergedRequest` | internal/adapter/state/issue_transition.go:419-439 | completes an Issue with the observed merged pull request, or refuses |
| `Draft.Snapshot.CancelSuspendedIssue` | internal/adapter/state/issue_transition.go:440-458 | cancels a suspended Issue and its pending requests |
| `Draft.Snapshot.CloseResolved` | internal/adapter/state/issue_transition.go:459-465 | marks the suspension resolved by the action |
| `Draft.Snapshot.ResolveOperatorSuspension` | internal/adapter/state/issue_transition.go:312-466 | succeeds exactly on the allowed action and evidence, with the whole new aggregate stated |
| `Draft.Snapshot.FindRequest` | internal/domain/snapshot/snapshot.go:449-484 | finds the only place of an identifier among live and quarantined requests, and nothing when there are several |
| `Draft.Snapshot.RecordRequestAnswer` | internal/adapter/state/mailbox.go:47-69 | records an answer to a pending request and refuses every other |
| `Draft.Snapshot.PrepareAnsweredRequest` | internal/adapter/state/mailbox.go:82-156 | hands an answered request to its Issue exactly when the transition allows it |
| `Draft.Snapshot.AskQuestion` | internal/adapter/state/mailbox.go:158-185 | asks about an Issue without a run, repeats the same open question silently, and refuses a different one |
| `Draft.Snapshot.Perform` | internal/adapter/state/state.go:83-88 | any step of an update, made in place, is the step the theorems speak of |
| `Draft.Snapshot.Mutate` | internal/adapter/state/state.go:83-88 | the steps of an update in order, up to the first that fails |
| `Draft.Snapshot.RunUpdate` | internal/adapter/state/state.go:78-107 | one whole update of a valid snapshot ends in exactly the commit of the theorems about runs, or refuses with it |
| `Repository.ValidIsNormal` | internal/adapter/state/execution.go:350-395 | normalising legacy launches changes no valid aggregate |
| `Repository.SettingIsSound` | internal/adapter/state/state.go:62-144 | the aggregate's validator and normaliser meet the store's assumptions |
| `Repository.AbandonedIsRecovered` | internal/adapter/state/execution.go:350-395 | a running Issue without a worker launches again from the evidenced source, or is blocked, held back for cancellation, and gives only its own authority back |
| `Repository.NoneStaysAbandoned` | internal/adapter/state/execution.go:350-395 | after normalisation in any order no visited Issue is running without a worker |
| `Repository.UpdateIsTold` | internal/adapter/state/state.go:78-143 | an update that finishes leaves its commit in the files, and the last event names its Issue and run and what was recorded |
| `Repository.CrashesKeepUpdates` | internal/adapter/state/state.go:62-144 | after any run with any crashes outside the gaps the files mean the aggregate reached by the effective updates, whatever their events record |
| `Repository.FirstStartStrands` | internal/adapter/state/execution.go:49-50 | the first execution of the first Issue on a new directory, stopped after its append, is in quarantine after the next recovery |
| `Repository.FencedAcrossCrashes` | internal/adapter/state/execution.go:131-147 | an identity that lost the slot never holds it again in the files, whatever crashes happen outside the gaps |
| `Repository.InvariantsAcrossCrashes` | internal/adapter/state/state.go:62-144 | the suspension and delivery invariants hold of the files after any such crashes |
| `Repository.AuthorityAcrossCrashes` | internal/domain/snapshot/snapshot.go:576-610 | in the files too, after any such crashes, the slot is held by exactly the managed Issue that executes |
| `Repository.NewHolderAcrossCrashes` | internal/adapter/state/execution.go:188-211 | a holder that appears in the files after any such crashes has a generation above every earlier holder of the Issue |
| `Repository.AnswersAcrossCrashes` | internal/adapter/state/mailbox.go:14-78 | a request that stays present keeps its answer and time in the files after any such crashes |
| `AssignmentSafety.RollbackKeeps` | internal/application/delivery/assignment_controller.go:814-849 | every write of a rollback keeps the followed claims, also when the config was already replaced |
| `AssignmentSafety.DrainKeeps` | internal/application/delivery/assignment_controller.go:713-799 | so does every write of a switch from the fence to the last save |
| `AssignmentSafety.SwitchKeeps` | internal/application/delivery/assignment_controller.go:542-800 | and of a switch that resumes, refuses or starts anew |
| `AssignmentSafety.RetryRollbackKeeps` | internal/application/delivery/assignment_controller.go:456-540 | and of a retried rollback |
| `AssignmentSafety.CallKeeps` | internal/application/delivery/assignment_controller.go:386-540 | and of every operator call that breaks none of them, whatever it observes |
| `AssignmentSafety.RunsAreOrderly` | internal/application/delivery/assignment_state.go:69-92 | over every run, with any errors and crashes, transactions stay valid and each unfinished one is uncommitted or committed by exactly its own step |
| `AssignmentSafety.ProtocolNamesProgram` | internal/application/delivery/assignment_controller.go:928-959 | a plist program whose reported labels match the committed ref is the committed program |
| `AssignmentExact.SplitCallEnds` | internal/application/delivery/assignment_controller.go:772-849 | a call whose config was replaced despite an error, and that rolls back, commits the new program and runs the old one, another slot |
| `AssignmentExact.CallExactly` | internal/application/delivery/assignment_controller.go:386-849 | for every call and every point it stops at: fence safety, being between the two programs, and being settled each hold throughout if and only if the call does not break it |
| `AssignmentExact.RunExactly` | internal/application/delivery/assignment_controller.go:386-849 | the same over every run of interrupted and re-entering calls |
| `AssignmentExact.RunsAreSafe` | internal/application/delivery/assignment_controller.go:386-849 | over every run without a split call no fence means the committed program, and an unfinished transaction means one of its two programs, at every crash point |
| `AssignmentExact.FenceLossReachable` | internal/application/delivery/config.go:228-253 | an ordinary upgrade that loses the fence over a mismatch, and one that keeps it |
| `AssignmentExact.StrayReachable` | internal/application/delivery/assignment_controller.go:707-714 | a following switch to a third program starts from a program that is neither of its two |
| `AssignmentCommits.CommitIsCompareAndSwap` | internal/application/delivery/assignment_controller.go:772-781 | a call changes the assignment only from the expected generation, only to its own target, one generation up, with the old ref as previous |
| `AssignmentCommits.GenerationsRise` | internal/application/delivery/assignment_controller.go:569-613 | over every run, with any errors and crashes, the generation never falls |
| `AssignmentCommits.OneCommitPerGeneration` | internal/application/delivery/assignment_controller.go:569-613 | after one call with an expected generation has committed, no later call with it commits anything, whatever errors and crashes happen in between |
| `AssignmentCommits.ResumeDoesNotCommit` | internal/application/delivery/assignment_controller.go:589-613 | re-entering a committed but unfinished switch commits nothing |
| `AssignmentCommits.RollbackUndoesApply` | internal/application/delivery/assignment_controller.go:423-454 | apply, then rollback: the original ref is committed and in the plist without a fence, at generation plus two |
| `AssignmentCommits.DoneIsInstalled` | internal/application/delivery/assignment_controller.go:542-800 | a call that reports success has its program committed and in the plist one generation up, no fence, and its transaction closed as what it was |
| `AssignmentCommits.BarredWritesNothing` | internal/application/delivery/assignment_controller.go:542-660 | an unverified slot, a wrong label, a downgrade, a stale generation, another switch under way or a failed rollback that is not retried: nothing is written |
| `AssignmentCommits.VersionsRise` | internal/application/delivery/assignment_controller.go:614-620 | over every run without a rollback the committed version never falls |
| `AssignmentCommits.UnsafeSwitchIsRefused` | internal/application/delivery/assignment_controller.go:557-705 | a switch that goes on has no outlived deferral, a loaded program that is the committed one, a retry whose transaction and fence are its own and is allowed, and a committed program in place and healthy |
| `AssignmentCommits.NewSwitchRemembers` | internal/application/delivery/assignment_controller.go:707-712 | a new switch remembers where it starts, what it wants and whether the program was loaded; a resumed one keeps that |
| `AssignmentCommits.RollbackRestores` | internal/application/delivery/assignment_controller.go:814-849 | a rollback that reports success has the committed program back; a failed one keeps the fence and says so |
| `AssignmentCommits.FailedRollbackIsRetried` | internal/application/delivery/assignment_controller.go:456-540 | a failed rollback is retried exactly when generation, program and fence are its own and no worker is in the way, and then puts the committed program back |
| `AssignmentController.Controller.Do` | internal/application/delivery/assignment_state.go:94-104 | one durable write happens unless the process stopped before it |
| `AssignmentController.Controller.Try` | internal/application/delivery/assignment_controller.go:814-849 | a write whose error is ignored happens or does not |
| `AssignmentController.Controller.Land` | internal/application/delivery/config.go:228-253 | a write that can report an error with or without effect |
| `AssignmentController.Controller.RollbackSwitch` | internal/application/delivery/assignment_controller.go:814-849 | the rollback makes its planned writes up to the crash and returns its outcome |
| `AssignmentController.Controller.Execute` | internal/application/delivery/assignment_controller.go:713-799 | fence, drain, install, validate, commit: the planned writes up to the crash |
| `AssignmentController.Controller.SwitchTo` | internal/application/delivery/assignment_controller.go:542-800 | the whole switch, refusals and resumption included |
| `AssignmentController.Controller.RetryRollback` | internal/application/delivery/assignment_controller.go:456-540 | the retried rollback |
| `AssignmentController.Controller.Serve` | internal/application/delivery/assignment_controller.go:386-540 | any call, stopped anywhere, is one step of the protocol; each claim survives it unless the call breaks it, and a call that loses the fence does lose it |
| `Mailbox.Store.EnqueueMailbox` | internal/adapter/webhook/mailbox.go:58-76 | adds the intent, or refuses another intent under the same identifier and changes nothing |
| `Mailbox.EnqueueExactly` | internal/adapter/webhook/mailbox.go:58-76 | a known identifier is accepted exactly when repository, Issue, pull request, event and action are those it was filed with |
| `Mailbox.Store.AckMailbox` | internal/adapter/webhook/mailbox.go:48-56 | removes the acknowledged intents and only those |
| `Mailbox.Store.ReadMailbox` | internal/adapter/webhook/mailbox.go:20-46 | every intent exactly once, oldest first |
| `Broker.NothingIsLost` | internal/adapter/webhook/broker.go:653-810 | over every run of crashing calls each accepted delivery is in the inbox, in quarantine or was written to a mailbox, and a receipt exists only after the mailbox write |
| `Broker.RoutedOnce` | internal/adapter/webhook/broker.go:740-788 | while its receipt is kept a delivery is written at most once more than its routing was cut short, and with a receipt not at all |
| `Broker.AcceptFiles` | internal/adapter/webhook/broker.go:653-685 | a delivery with a new identifier goes into the inbox, still to be routed; any other changes nothing |
| `Broker.RouteDelivers` | internal/adapter/webhook/broker.go:740-788 | a readable registered delivery without a receipt reaches the mailbox of its own repository, with a receipt and no inbox file, and nothing else changes |
| `Broker.RouteSetsAside` | internal/adapter/webhook/broker.go:740-810 | what cannot be delivered goes into quarantine, what has a receipt only leaves the inbox |
| `Broker.RegisteredArrive` | internal/adapter/webhook/broker.go:653-810 | over every run of crashing calls no readable registered delivery is in quarantine, only registered ones are written, each to its repository's mailbox, and an accepted registered one is in the inbox or its identifier in that mailbox |
| `Broker.MigrationFiles` | internal/adapter/webhook/broker.go:880-906 | a routed file of the older layout becomes a receipt, and no other file changes |
| `Broker.CompactionFiles` | internal/adapter/webhook/broker.go:908-948 | a compaction removes exactly the receipts it drops |
| `Broker.CompactionDropsExpired` | internal/adapter/webhook/broker.go:908-948 | compaction drops every expired receipt and exactly the excess over the limit |
| `Broker.CompactionKeepsNewest` | internal/adapter/webhook/broker.go:908-948 | of the receipts that are not expired none is dropped that is newer than one kept |
| `Broker.Service.AppendInbox` | internal/adapter/webhook/broker.go:653-685 | accepts a delivery unless its identifier is known in inbox or receipts |
| `Broker.Service.RouteDelivery` | internal/adapter/webhook/broker.go:740-810 | mailbox, receipt, inbox removal in that order, or quarantine, up to the crash |
| `Broker.Service.MigrateRouted` | internal/adapter/webhook/broker.go:880-906 | a routed inbox file of an older version becomes a receipt before it is removed |
| `Broker.Service.Scan` | internal/adapter/webhook/broker.go:908-948 | separates the expired receipts from the young ones |
| `Broker.Service.CompactReceipts` | internal/adapter/webhook/broker.go:908-948 | removes exactly the receipts to drop, up to the crash |
| `Broker.Service.Serve` | internal/adapter/webhook/broker.go:653-948 | any call, interrupted anywhere, keeps every accepted delivery filed |
| `Sweep.SweepAgrees` | internal/adapter/webhook/broker.go:298-342 | with truthful 304 responses the cached pages, and the Issues composed from them in any order of pages, are exactly those of an unconditional fetch up to the first short page |
| `Sweep.RunAgrees` | internal/adapter/webhook/broker.go:288-380 | so does a sweep after any run of sweeps stopped at any write, acknowledgements, and changes of the collection between them |
| `Sweep.ValidatorsFollow` | internal/adapter/webhook/broker.go:298-330 | the next request for a page carries the validator of the last response, with a 304 renewing only what it names |
| `Sweep.RefreshesChanges` | internal/adapter/webhook/broker.go:298-342 | every Issue on a page that changed is refreshed, and every refreshed Issue is on a page |
| `Sweep.ChangesAnnounced` | internal/adapter/webhook/broker.go:343-364 | without a collision a sweep announces every Issue of a changed page to be reconciled and every departed one as gone, and announces nothing else |
| `Sweep.ExitsAnnouncedFirst` | internal/adapter/webhook/broker.go:343-364 | at every crash point a changed cache implies that every departed Issue has its exit intent in the mailbox |
| `Sweep.NoExitIsLost` | internal/adapter/webhook/broker.go:343-364 | over every run of crashed sweeps and acknowledgements an Issue that was in the collection is still in it or was announced as gone |
| `Sweep.Sweeper.FetchPages` | internal/adapter/webhook/broker.go:298-342 | the page loop renews, replaces and drops cached pages as the recursive sweep defines |
| `Sweep.Sweeper.ComposeIssues` | internal/adapter/webhook/broker.go:382-390 | the loops over pages and Issues keep the last Issue listed under each number, in whatever order the pages are visited |
| `Sweep.Sweeper.Numbers` | internal/adapter/webhook/broker.go:350-355 | the announced Issues in ascending order |
| `Sweep.Sweeper.EnqueueAll` | internal/adapter/webhook/broker.go:350-361 | enqueues the intents in order up to the first collision or the crash |
| `Sweep.Sweeper.SweepOnce` | internal/adapter/webhook/broker.go:288-380 | one sweep makes the planned writes up to the crash: intents first, cache last |
| `Projection.FullPassConverges` | internal/adapter/github/projection.go:107-156 | one full pass from any labels and state converges if and only if there is a label to ask with or nobody to ask |
| `Projection.InterruptedPassesConverge` | internal/adapter/github/projection.go:107-156 | after any interrupted passes the next full pass converges |
| `Projection.ConvergedTellsStatus` | internal/adapter/github/projection.go:22-57 | when the configured labels differ, one converged remote Issue cannot stand for two statuses that mean different things to its reader |
| `Projection.BlockedShown` | internal/adapter/github/projection.go:22-32 | a blocked Issue shows the last excluded label that means blocked, or the failed label |
| `Projection.ConvergedState` | internal/adapter/github/projection.go:33-57 | a converged Issue is closed as not planned when canceled, as completed when completed and so configured, and otherwise open |
| `Projection.ConvergedReads` | internal/adapter/github/projection.go:22-79 | it has the label of its status, or the human label without the running one, and no other label the projection clears |
| `Projection.UnrelatedLabelsStay` | internal/adapter/github/projection.go:59-79 | no pass touches a label that is neither managed nor wanted |
| `Projection.ConvergedIsFixed` | internal/adapter/github/projection.go:81-83 | a converged Issue is left alone |
| `Projection.NobodyNeverConverges` | internal/adapter/github/client.go:557-578 | with an empty human label a pass that should ask never converges, because empty labels are not sent |
| `Projection.Client.BlockedNames` | internal/adapter/github/projection.go:22-57 | the excluded labels that mean blocked, and which of them is shown |
| `Projection.Client.LabelChanges` | internal/adapter/github/projection.go:59-79 | the loops compute exactly the missing and the unwanted labels, compared by key |
| `Projection.Client.EditLabels` | internal/adapter/github/client.go:557-578 | any part of the edit may land, and empty labels are never sent |
| `Projection.Client.Reconcile` | internal/adapter/github/projection.go:116-156 | success means convergence, and a full pass that converges reports success |
| `Projection.Client.ReconcileIssue` | internal/adapter/github/projection.go:107-156 | from any remote Issue a full pass succeeds if and only if there is a label to ask with or nobody to ask |

## Left out

- Real files, permissions, symbolic links, locks, JSON, YAML and hashing: replaced by the abstract disk, one lock per operation, and equality of values.
- Subprocesses, HTTP servers, signatures, the status API, timers, jitter and progress of workers.
- Redaction and the sanitising round trip of an update: part of its edit.
- What event payloads say: they are arbitrary bytes, and only what compacting and indenting does to them matters.
- The migration barrier of old snapshot versions and the migration of legacy cancellations.
- The recovery plans for lifecycle and semantic mismatches: each needs a backup that carries a version field which this version's decoder rejects (internal/domain/snapshot/snapshot.go:333-340), so neither is ever announced.
- Which Issues lack the identity of their merged pull request, and which identities an operator may confirm: the restore takes the eligibility, the probe and the repair as arbitrary functions of the contents.
- The copies of marker and journal that a restore keeps for inspection.
- The archive that rotation writes and its pruning: only the replaced log matters to recovery.
- The loop and the launch evidence of the legacy normaliser: modelled on values, with an arbitrary evidence function, so order of mutation and the time of the suspension are not captured.
- `ReconcileStoppedAssignment`: a release followed by a transition, both of which are steps.
- The mutation closures of the application code: an update is any sequence of the steps that `Draft.Snapshot.Perform` makes.
- Registration, removal and migration of repository assignments, and the host-wide delivery controller.
- The application's planning code: its observations are arbitrary inputs.
- Status counters of the broker, and rate-limit and status fields of the sweep state.
- CLI, doctor, installation, incident automation, dashboard and release tools.
- Draft.Snapshot.ApplyTransition: like the other methods of the class it promises nothing about the fields after a failure, because the update discards them.
- Draft.Snapshot.IsolateInvalidIssue: for requests filed under another identifier than their own it states which requests the record holds but not their order.
- Draft.Snapshot.FinishUpdate: says nothing of an isolation whose requests are filed under another identifier than their own; `Draft.Snapshot.RunUpdate` shows that this cannot happen to a valid snapshot.
- Restore.RestoreRedoSafe: supposes no live transaction beside the marker; the quarantine has moved it aside (`Quarantine.RestoreOffered`), and no update prepares another while the marker blocks them (`Quarantine.QuarantineBlocks`).
- Restore.JournalRedoSafe: supposes the same for a journal without a transaction.
- Broker.RoutedOnce: supposes that compaction has not dropped the receipt; a redelivery after that is routed again by design.
