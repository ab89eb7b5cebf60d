# Verified model of the ag-harness turn protocol

This project models, in Dafny, how `ag-harness` runs durable agent turns: a session store that reserves, renews,
completes and recovers turns; the in-process machinery that keeps ownership across cancellation and failed cleanup;
the SQLite acquisition that validates a snapshot optimistically and leases turns between processes; stale-safe file
replacement; and the algorithms around them (bounded history, the tool loop, ordered event delivery, exact number
parsing and the message codec). All statements are for every input, every run or every interleaving.

`dafny verify dfyconfig.toml` checks the whole project.

## How the parts fit together

- `SessionRecords` says what each store operation does to one session record. `MemoryStore` is the mutable store: a
  class whose methods scan and update records in place, each proved equal to one `Step` of the specification.
  `StoreRuns`, `Provenance` and `Ledger` prove what holds after any sequence of steps, and `Replies` exactly when each
  operation succeeds and what it then leaves.
- `OptimisticStore` adds the SQLite acquisition: a snapshot, then any transactions of other handles, then a
  revalidation by a small revision under the writer lock. `LeaseClock` is the timed protocol between processes, with
  stored expiries in whole seconds and a local deadline taken before the timestamp.
- `Coordination` is one process at lock granularity: the weak mutex table, spawned acquisition, armed guards, the
  abandoned-turn registry, owner cleanup, settlement and effect leases, with rows that other processes may interrupt at
  any moment. `CoordinationInvariant` proves the invariant of every step and `CoordinationRuns` the safety theorems;
  `CoordinationFacts` reads the state of an operation off the steps of its run.
  `TurnControls` and `AdmittedStore` hold the mutable objects whose critical sections those steps are.
- `FileReplacement` is a directory class against an adversary that rebinds the target name before any system call and
  makes any call fail.
- `BoundedHistory`, `SessionHistory` and `PagedHistory` relate three history algorithms to one specification.
  `Transcripts`, `Engine` and `SessionTurns` cover the tool loop and whole sessions of turns, `Delivery` the event delivery, `NumberParsing` (on `Decimal`) the
  number parser, and `Json`, `Base64`, `Messages`, `Sizes` and `Codec` the message codec and what messages
  are charged.

## Findings

- `EffectSettlementError::is_unresolved` is documented as saying whether filesystem completion is unknown. A resolved
  failure that follows an unresolved lease overwrites that flag, although the admission stays blocked: either a worker
  reports a failed outcome record, which is the ordinary way (`TurnControls.UnrecordedWriteHidesUnresolved`), or another
  recording worker is lost (`TurnControls.RecordingHidesUnresolved`). `TurnControls.ReportedUnresolved` gives the exact
  condition over all runs of effect events.
- The one-second slack in the local lease deadline is needed: `LeaseClock.SlackNeeded` shows that 999 milliseconds are
  enough for every pair of readings and that nothing less is.

## Model

| member | source | states |
|---|---|---|
| MemoryStore.ScanHistory | crates/ag-harness/src/memory_store.rs:528-549 | the backward scan returns the longest suffix of completed turns within the byte limit |
| MemoryStore.ScanRequest | crates/ag-harness/src/memory_store.rs:484-515 | the scan finds the first turn with the host identifier, with its status and writes, or nothing |
| MemoryStore.ScanLatestOptions | crates/ag-harness/src/memory_store.rs:85-98 | the scan finds the newest completed turn's options |
| MemoryStore.ScanPortable | crates/ag-harness/src/session_model.rs:62-103 | the check accepts a history exactly when every message of every completed turn suits the capabilities |
| MemoryStore.MemoryStore.CreateSession | crates/ag-harness/src/memory_store.rs:188-226 | creates a fresh record, and refuses blank and existing identifiers without changing anything |
| MemoryStore.MemoryStore.LoadSession | crates/ag-harness/src/memory_store.rs:228-239 | recovers an expired turn, then returns configuration and bounded history |
| MemoryStore.MemoryStore.SwitchModel | crates/ag-harness/src/memory_store.rs:241-284 | switches generation and selection only on an idle, current session with portable history |
| MemoryStore.MemoryStore.Begin | crates/ag-harness/src/memory_store.rs:42-135 | reserves one turn atomically or classifies the request, with every refusal in the source's order |
| MemoryStore.MemoryStore.LoadRequest | crates/ag-harness/src/memory_store.rs:315-330 | recovers an expired turn, then looks the request up |
| MemoryStore.MemoryStore.CompleteTurn | crates/ag-harness/src/memory_store.rs:137-159 | completes exactly a live owner's turn; a host turn only with an outcome |
| MemoryStore.MemoryStore.RenewTurn | crates/ag-harness/src/memory_store.rs:342-349 | extends exactly a live owner's deadline |
| MemoryStore.MemoryStore.FailTurn | crates/ag-harness/src/memory_store.rs:360-370 | fails exactly a live owner's turn and drops the continuation |
| MemoryStore.MemoryStore.InterruptTurn | crates/ag-harness/src/memory_store.rs:372-386 | interrupts only the owner's own running turn, expired or not |
| MemoryStore.MemoryStore.IntendWrite | crates/ag-harness/src/memory_store.rs:396-428 | journals a pending write for a live owner under the next identifier |
| MemoryStore.MemoryStore.SettleWrite | crates/ag-harness/src/memory_store.rs:430-459 | settles an owner's own pending or equally settled write |
| StoreRuns.RecordStepKeeps | crates/ag-harness/src/memory_store.rs:42-459 | every operation keeps the record invariant and only extends the record |
| StoreRuns.RunInv | crates/ag-harness/src/memory_store.rs:42-561 | in every run positions are 0..n-1, only the newest turn can run, completed host turns carry outcomes, host identifiers are unique, generations never decrease along positions, and equal generations mean equal recorded models |
| StoreRuns.RunExtends | crates/ag-harness/src/memory_store.rs:42-561 | between any two points of a run no terminal turn, verdict, request or recorded model changes |
| StoreRuns.KnownRequestIsFound | crates/ag-harness/src/memory_store.rs:484-515 | with the invariant a recorded host identifier is always found, with its own status |
| StoreRuns.ExactlyOnce | crates/ag-harness/src/memory_store.rs:64-83 | a host identifier reserves at most one turn of its session in any run |
| StoreRuns.GrantedAtMostOnce | crates/ag-harness/src/memory_store.rs:42-135 | no two acquisitions of a run are granted for one host identifier |
| StoreRuns.RequestPersists | crates/ag-harness/src/memory_store.rs:119-135 | a reserved request stays recorded at its position |
| StoreRuns.KnownSubmissionReply | crates/ag-harness/src/memory_store.rs:64-70 | a submission under a recorded identifier gets that record or a conflict, never a turn |
| StoreRuns.ReuseConflicts | crates/ag-harness/src/recovery.rs:108-114 | a later submission under a reserved identifier gets the record of exactly the turn it reserved, with its status, model and writes, when it is the same request, and a conflict otherwise |
| StoreRuns.OutcomeIsFinal | crates/ag-harness/src/memory_store.rs:484-515 | once seen completed, every later lookup answers with the same outcome, model, request and position |
| StoreRuns.RetryReturnsOutcome | crates/ag-harness/src/memory_store.rs:64-70 | once seen completed, every later retry of the request answers with the same outcome, model, request and position |
| StoreRuns.StaleHandleNeverReserves | crates/ag-harness/src/session_model.rs:50-60 | after a committed switch, a handle with an older generation never reserves again, even after switching back |
| StoreRuns.SupersededForever | crates/ag-harness/src/memory_store.rs:342-428 | once a turn ended or has a successor, its owner's renew, complete, fail, interrupt and write intent change nothing, ever |
| StoreRuns.LateSettlement | crates/ag-harness/src/memory_store.rs:430-459 | the one late step settles exactly that owner's own write, succeeds exactly when such a write exists, and touches no turn |
| Provenance.RunTraced | crates/ag-harness/src/memory_store.rs:85-98 | in every run the stored continuation is exactly what the newest completion left for a compatible turn, or nothing |
| Provenance.ContinuationProvenance | crates/ag-harness/src/memory_store.rs:85-131 | an acquisition stores and hands out a continuation exactly when the immediately preceding turn completed under the current selection with compatible options, and then what that completion wrote |
| Ledger.AcquireReply | crates/ag-harness/src/memory_store.rs:42-135 | a host can tell from the reply alone whether its submission holds a turn |
| Ledger.Conservation | crates/ag-harness/src/memory_store.rs:42-459 | in every run each session stores exactly what the operations and their replies account for: settings and selected model, submitted input under the model of its time, acknowledged messages, outcomes, errors, and the write journal |
| Ledger.LoadReturnsAccount | crates/ag-harness/src/memory_store.rs:228-239 | a load returns the settings and the longest suffix, within the limit, of the turns a host was told completed |
| Replies.CreateReply | crates/ag-harness/src/memory_store.rs:188-226 | a session is created exactly under a new identifier that is not all white space; a refusal names its reason and changes nothing |
| Replies.BeginReply | crates/ag-harness/src/memory_store.rs:42-135 | the answer to every submission, in the order of its checks, and that it is granted exactly when none applies and it is acknowledged before its deadline |
| Replies.GrantReturnsAccount | crates/ag-harness/src/memory_store.rs:105-135 | a grant hands out the longest suffix, within the limit, of the turns a host was told completed, and the owner and deadline of exactly the running turn it appended |
| Replies.CompleteReply | crates/ag-harness/src/memory_store.rs:137-159 | a completion succeeds exactly for an owner whose turn is running and unexpired, with an outcome if a host asked for it |
| Replies.FailReply | crates/ag-harness/src/memory_store.rs:360-370 | a failure is recorded exactly for an owner whose turn is running and unexpired |
| Replies.RenewReply | crates/ag-harness/src/memory_store.rs:342-349 | a renewal succeeds exactly for such an owner and stores the deadline it answers, changing nothing else |
| Replies.IntendReply | crates/ag-harness/src/memory_store.rs:396-428 | a write is journalled exactly for such an owner, under the next identifier |
| Replies.InterruptReply | crates/ag-harness/src/memory_store.rs:372-386 | an interruption ends exactly the owner's running turn, expired or not, with its reason, and drops the continuation |
| Replies.RecoveryIsExact | crates/ag-harness/src/memory_store.rs:517-526 | recovery ends exactly an expired running turn, as interrupted, and drops the continuation |
| Replies.NothingRunsExpired | crates/ag-harness/src/memory_store.rs:517-526 | no operation that recovers leaves a turn running past the clock it read |
| Replies.LookupReply | crates/ag-harness/src/memory_store.rs:484-515 | a lookup finds an identifier exactly when a submission took a turn under it, and reports completed, failed, interrupted or in progress as the owner was told |
| Replies.ReportListsOwnWrites | crates/ag-harness/src/memory_store.rs:484-515 | a report lists exactly the journalled writes of its own turn, in order |
| Replies.SwitchReply | crates/ag-harness/src/memory_store.rs:241-284 | a switch succeeds exactly on a current, idle session whose acknowledged turns suit the new model, and then selects it under the next generation without a continuation |
| Replies.PortableIfOffered | crates/ag-harness/src/session_model.rs:62-103 | a message is portable exactly when the model offers every feature it needs; reasoning is never portable |
| Replies.CompatibleExceptBudget | crates/ag-harness/src/turn_options_snapshot.rs:80-86 | a continuation survives exactly a change of the tool budget |
| OptimisticStore.CommitAllKeeps | crates/ag-harness/src/session.rs:482-558 | any committed transactions keep one active turn and unique host identifiers, and only extend the session |
| OptimisticStore.RevisionFixesCompleted | crates/ag-harness/src/session.rs:1473-1492 | equal next and latest-completed positions mean equal completed turns, message for message |
| OptimisticStore.RevalidationIsSound | crates/ag-harness/src/session.rs:1473-1492 | an unchanged revision means that the history read earlier is the history now, whatever committed in between |
| OptimisticStore.GrantIsAtomic | crates/ag-harness/src/session.rs:560-667 | a granted attempt hands out what an atomic acquisition at its commit point would |
| OptimisticStore.AttemptKeeps | crates/ag-harness/src/session.rs:560-667 | whatever an attempt decides, the session is only extended |
| OptimisticStore.PreparedIsExact | crates/ag-harness/src/session.rs:575-582 | recovery inside the transaction interrupts the running turn exactly when it is stale or abandoned |
| OptimisticStore.PreparedDecides | crates/ag-harness/src/session.rs:583-638 | a held host identifier decides first, then generation, revision and a running turn; the same request gets its report and another fingerprint a conflict |
| OptimisticStore.AttemptAnswers | crates/ag-harness/src/session.rs:560-667 | every attempt is answered by the record it finds, whatever committed after its snapshot |
| OptimisticStore.AtomicGrantFits | crates/ag-harness/src/session.rs:560-667 | a grant appends one running turn with the submission's input, options and request under the selected model, and hands out the longest suffix of completed turns |
| OptimisticStore.AcquireTurn | crates/ag-harness/src/session.rs:427-480 | the retry loop answers, under any interference, by the record it finds: granted atomically and only for a free host identifier, reported for exactly the held request, or refused for its reason without a change |
| OptimisticStore.TakenAtMostOnce | crates/ag-harness/src/session.rs:583-591 | over any interleaving of attempts and committed transactions a host identifier is taken at most once |
| OptimisticStore.BoundaryFixesCompleted | crates/ag-harness/src/session.rs:2369-2384 | an unchanged newest completed position means unchanged completed turns |
| OptimisticStore.SwitchValidatesCommit | crates/ag-harness/src/session.rs:859-925 | a committed switch has validated every turn completed at its commit, on an idle session |
| OptimisticStore.SwitchIsExact | crates/ag-harness/src/session.rs:859-925 | a switch commits exactly when the generation is current at both reads, nothing runs, nothing completed in between and everything completed is portable; a retry or refusal names its reason |
| LeaseClock.PromiseWithinExpiry | crates/ag-harness/src/session.rs:1580-1584 | a local deadline taken before the timestamp never outlives the stored expiry |
| LeaseClock.SlackNeeded | crates/ag-harness/src/session.rs:1580-1584 | shortening the local lease is safe for all readings exactly from 999 milliseconds on |
| LeaseClock.StepKeeps | crates/ag-harness/src/session.rs:2417-2521 | reservation, renewal, confirmation, recovery, finalization and cleanup keep every promised deadline backed by a running row |
| LeaseClock.RunInv | crates/ag-harness/src/session.rs:1688-1885 | in every run promised deadlines are backed and at most one row runs |
| LeaseClock.RowFollowsSteps | crates/ag-harness/src/session.rs:2417-2521 | a row runs from its reservation until its completion, cleanup, or a recovery that finds it expired, under the expiry of the last write |
| LeaseClock.PromiseFollowsSteps | crates/ag-harness/src/session.rs:1580-1584 | a deadline is promised only by a reservation or renewal, 299 seconds after its own reading, and seen as promised |
| LeaseClock.RecoverEndsExpired | crates/ag-harness/src/session.rs:2417-2453 | a recovery ends exactly the running rows whose expiry is at or below the second it read |
| LeaseClock.NeverRecoveredEarly | crates/ag-harness/src/session.rs:2417-2453 | no process recovers a turn as stale while its owner's trusted deadline lasts, through any renewals |
| LeaseClock.OneExecutor | crates/ag-harness/src/session.rs:669-696 | two turns of a session never execute at the same time, across processes |
| LeaseClock.FinalWriteInTime | crates/ag-harness/src/session.rs:1822-1848 | a terminal write before the trusted deadline is never refused for lost ownership |
| LeaseClock.RenewalIsScheduledInTime | crates/ag-harness/src/session.rs:1728-1771 | in every run, through any number of renewals, the next renewal is scheduled no later than the trusted deadline; the exact exception is a guard never renewed yet that was activated after its deadline |
| LeaseClock.ConfirmationExtends | crates/ag-harness/src/session.rs:1748-1763 | a confirmation moves the deadline forward, to a whole local lease past the scheduled moment, and schedules the next renewal before it |
| LeaseClock.DeadlineNeverMovesBack | crates/ag-harness/src/session.rs:1163-1184 | the deadline an owner trusts never moves back |
| LeaseClock.RenewalArrivesInTime | crates/ag-harness/src/session.rs:1728-1771 | in every run a renewal answered within half of what was left at the last confirmation, counted from its schedule, is confirmed |
| TurnControls.SettledIsClean | crates/ag-harness/src/effect.rs:47-67 | over any run of effect events, no failure is recorded exactly when no lease was dropped unacknowledged or unrecorded and no worker reported a failed outcome record |
| TurnControls.ReportedUnresolved | crates/ag-harness/src/effect.rs:60-67 | an unknown completion is reported as unresolved exactly when, after it, no lease failed and no failed record was reported |
| TurnControls.RecordingHidesUnresolved | crates/ag-harness/src/effect.rs:104-134 | concrete runs in which an unresolved lease is reported as resolved: after a direct report, and after a lost recording worker |
| TurnControls.PendingIsOutstanding | crates/ag-harness/src/effect.rs:32-40 | the pending count is the number of leases retained and not dropped |
| TurnControls.AdmissionIsKept | crates/ag-harness/src/effect.rs:42-45 | effects retain the admission exactly from admission until the last lease ends or one ends unresolved |
| TurnControls.HidesAfter | crates/ag-harness/src/effect.rs:60-67 | every resolved failure after an unresolved drop hides it |
| TurnControls.UnrecordedWriteHidesUnresolved | crates/ag-harness/src/write.rs:225-248 | the ordinary run with that report: the next write of the turn fails to be recorded and everything settles |
| TurnControls.TurnEffects.Release | crates/ag-harness/src/effect.rs:104-134 | dropping a lease is one event of the run, and parks the admission exactly when the lease is unresolved and the admission was still kept |
| TurnControls.TurnEffects.Settled | crates/ag-harness/src/effect.rs:47-58 | waiting succeeds exactly when no lease is outstanding and nothing failed, and reports unresolved exactly under the condition above |
| AdmittedStore.AdmissionTable.Find | crates/ag-harness/src/store_coordinator.rs:158-176 | prunes dead entries, reuses the key's live mutex or creates a new one, and lists it |
| AdmittedStore.Decorator.Settle | crates/ag-harness/src/store_coordinator.rs:187-206 | only an acknowledged end clears the failure and gives up admission and lease |
| AdmittedStore.Decorator.Interrupted | crates/ag-harness/src/store_coordinator.rs:310-325 | a failed cleanup is recorded exactly under a lease still held, keeping lease and admission; an acknowledged one gives them up and clears the failure |
| CoordinationInvariant.ActKeeps | crates/ag-harness/src/session.rs:1822-1885 | commit, finalization, guard drop, row interruption and lease steps keep an operation's ownership, settlement and effect invariants |
| CoordinationInvariant.FindMutexKeeps | crates/ag-harness/src/store_coordinator.rs:158-176 | pruning and insertion keep every strong reference on the mutex listed for its key |
| CoordinationInvariant.TryLockKeeps | crates/ag-harness/src/store_coordinator.rs:146-156 | granting or refusing admission keeps one holder per key |
| CoordinationInvariant.PredecessorIsSettled | crates/ag-harness/src/session.rs:577-582 | every abandoned owner recovered by a reservation had given up its admission and has no running row |
| CoordinationInvariant.CommitAckKeeps | crates/ag-harness/src/session.rs:669-696 | removing recovered owners after an acknowledged commit loses no responsibility |
| CoordinationInvariant.SettleKeeps | crates/ag-harness/src/store_coordinator.rs:187-206 | settling after an acknowledged interruption keeps the invariant |
| CoordinationInvariant.RecordFailureKeeps | crates/ag-harness/src/store_coordinator.rs:310-325 | recording a failed cleanup keeps the invariant |
| CoordinationInvariant.ForgetKeeps | crates/ag-harness/src/session.rs:1626-1660 | forgetting an owner after acknowledged cleanup keeps the invariant |
| CoordinationInvariant.StepKeeps | crates/ag-harness/src/store_coordinator.rs:51-206 | every step of the protocol keeps the whole invariant |
| CoordinationInvariant.RunInv | crates/ag-harness/src/store_coordinator.rs:51-206 | every reachable state satisfies the invariant |
| CoordinationRuns.RunLasts | crates/ag-harness/src/session.rs:2484-2521 | what is settled at some point of a run is settled at its end |
| CoordinationRuns.AdmittedWhenQuiescent | crates/ag-harness/src/store_coordinator.rs:51-156 | admission is granted exactly when every operation admitted before on that session has acknowledged persistence, no effect lease, and none that ended unresolved |
| CoordinationRuns.SuccessorNeverOverlaps | crates/ag-harness/src/store_coordinator.rs:51-88 | after a successor's admission no predecessor ever has a running row, a pending task or an effect lease again |
| CoordinationRuns.UnresolvedBlocksForever | crates/ag-harness/src/effect.rs:110-129 | an unresolved effect refuses every later admission of its session in this process |
| CoordinationRuns.OneMutexPerKey | crates/ag-harness/src/store_coordinator.rs:158-176 | live references of two operations are to one mutex exactly when their keys are equal |
| CoordinationRuns.NoOrphan | crates/ag-harness/src/session.rs:1868-1885 | every running row of the process is covered by an armed guard or a registry entry, and its admission is kept |
| CoordinationRuns.EndIsFinal | crates/ag-harness/src/session.rs:2484-2521 | cleanup never overwrites a committed end of a turn |
| CoordinationRuns.ReservationNeverCollides | crates/ag-harness/src/session.rs:627-638 | a reservation never meets a running row of its own process |
| CoordinationRuns.SettledIsSound | crates/ag-harness/src/cancellation.rs:111-124 | settlement succeeds exactly when no lease is left, and an error means the lease is held and a retry finds the owner |
| CoordinationRuns.SettledIsFinal | crates/ag-harness/src/cancellation.rs:111-124 | a successful settlement is never withdrawn and the row never runs again |
| CoordinationRuns.RetryClears | crates/ag-harness/src/cancellation.rs:149-156 | an acknowledged cleanup, retried or not, clears the failure for good |
| CoordinationRuns.EffectsSettledIsFinal | crates/ag-harness/src/cancellation.rs:138-140 | waiting for effects succeeds only when every lease has ended, none unresolved, and stays so |
| CoordinationFacts.FactsFollowSteps | crates/ag-harness/src/store_coordinator.rs:51-325 | in every run each recorded failure, row status, registry entry, guard, admission, worker and lease state holds exactly since the step that brought it about |
| CoordinationFacts.SettledFailsSince | crates/ag-harness/src/cancellation.rs:111-124 | settlement fails exactly when a cleanup failed under a held lease and no acknowledged end followed |
| CoordinationFacts.RunningSince | crates/ag-harness/src/session.rs:2484-2521 | a row runs exactly since its commit without an end, and is covered by a guard or registry entry since then |
| CoordinationFacts.ReservationForgetsAbandoned | crates/ag-harness/src/session.rs:669-696 | an acknowledged reservation has removed every owner registered when it was prepared, and reaches its worker exactly if that is still there |
| FileReplacement.Directory.TargetMatches | crates/ag-harness/src/file_system.rs:680-696 | the chunked comparison answers whether the file holds exactly the expected bytes |
| FileReplacement.Directory.VerifyTarget | crates/ag-harness/src/file_system.rs:655-676 | succeeds only on a regular file holding exactly the expected bytes |
| FileReplacement.Directory.PathMatches | crates/ag-harness/src/file_system.rs:570-585 | answers whether a name is bound to the prepared file |
| FileReplacement.Directory.RollBack | crates/ag-harness/src/file_system.rs:504-536 | under any interference, brings the prepared file back and marks it for removal, or puts another file that came back where it was, or keeps it if the target vanished |
| FileReplacement.Directory.ValidateExchange | crates/ag-harness/src/file_system.rs:538-568 | succeeds exactly when the displaced file was what was expected and the prepared file is seen at the target; otherwise the exchange is rolled back or the displaced file kept |
| FileReplacement.Directory.SettleExchange | crates/ag-harness/src/file_system.rs:257-281 | after the exchange, metadata and validation decide; a failure rolls back |
| FileReplacement.Directory.InstallUpdate | crates/ag-harness/src/file_system.rs:232-282 | success is one exchange from the expected contents to the prepared file; an undisturbed stale target is never touched |
| FileReplacement.Directory.InstallNew | crates/ag-harness/src/file_system.rs:192-203 | success is one rename onto an absent name |
| FileReplacement.Directory.Replace | crates/ag-harness/src/file_system.rs:161-211 | a compare-and-swap under any interference: what success means, what is rolled back, that the prepared file is removed, that only it and, on success, the displaced expected file are ever unlinked; undisturbed, an error names its reason and leaves the original unless a rollback or stat call fails |
| BoundedHistory.ReplayIsLongest | crates/ag-harness/src/memory_store.rs:528-549 | the replayed history is a longest suffix of whole turns within the limit |
| BoundedHistory.LongestIsUnique | crates/ag-harness/src/memory_store.rs:528-549 | there is only one such suffix |
| BoundedHistory.AppendAfterReplay | crates/ag-harness/src/harness.rs:583-594 | bounding, appending and bounding again keeps what bounding the whole would |
| SessionHistory.EvictIsReplay | crates/ag-harness/src/harness.rs:583-594 | front eviction keeps the longest suffix within the limit |
| SessionHistory.HandleAgreesWithLoad | crates/ag-harness/src/harness.rs:583-603 | a handle that replaces and then pushes holds what a fresh load would return |
| SessionHistory.HandleHistory.Push | crates/ag-harness/src/harness.rs:583-594 | appends one turn and evicts from the front |
| SessionHistory.HandleHistory.Replace | crates/ag-harness/src/harness.rs:596-603 | rebuilds the held history from a loaded one |
| PagedHistory.OldestWithinBudget | crates/ag-harness/src/session.rs:2267-2304 | the paged scan finds the oldest turn of the longest suffix within the limit |
| PagedHistory.GroupedRows | crates/ag-harness/src/session.rs:2249-2264 | regrouping ordered rows by position gives back the turns |
| PagedHistory.GroupRows | crates/ag-harness/src/session.rs:2249-2264 | the grouping loop starts a new turn exactly when the position changes |
| PagedHistory.LoadTurns | crates/ag-harness/src/session.rs:2219-2265 | the SQLite load returns the same longest suffix as the other two algorithms |
| Transcripts.WellFormedConcat | crates/ag-harness/src/model.rs:405-438 | conversations in which every call is followed by its results concatenate |
| Transcripts.OpeningIsWellFormed | crates/ag-harness/src/harness.rs:394-403 | system prompt, retained whole turns and the new input form a well-formed request when the stored turns are well formed |
| Transcripts.OpeningAt | crates/ag-harness/src/harness.rs:394-403 | a request by position: system prompt first if there is one, every retained turn in order, the input last |
| Engine.EnsureUniqueIds | crates/ag-harness/src/model.rs:1086-1097 | accepts exactly batches without a repeated identifier |
| Engine.CompleteModelRequest | crates/ag-harness/src/engine.rs:187-253 | replays once, without the session, exactly when a native resume was unavailable |
| Engine.ExecuteToolCall | crates/ag-harness/src/engine.rs:317-364 | denies before limiting, and executes exactly allowed calls below the limit |
| Engine.ExecuteBatch | crates/ag-harness/src/engine.rs:92-125 | an empty, duplicate or over-limit batch executes nothing; otherwise calls run in order with their own results until the first that fails, which gives the error |
| Engine.ExecuteResponse | crates/ag-harness/src/engine.rs:78-125 | a call or batch yields the entry for exactly the calls asked for with their own results, or the error of the first that fails |
| Engine.Run | crates/ag-harness/src/engine.rs:35-128 | at most max+1 rounds, 2(max+1) requests and max tools; every request follows from the answers before it, with the newest session, or none after a rejected resume; the turn succeeds exactly when the last answer is an output, and every error names its cause; the transcript records exactly the executed calls with what the tools returned |
| Engine.CompletedTurnIsWellFormed | crates/ag-harness/src/harness.rs:434-446 | a turn completed by the engine can be stored and replayed |
| Engine.EveryRequestIsWellFormed | crates/ag-harness/src/engine.rs:48-128 | every request of a turn is well formed when its opening is |
| SessionTurns.SessionStaysWellFormed | crates/ag-harness/src/harness.rs:394-446 | in every session, with whole-turn eviction, every request ever sent and every stored turn is well formed, whatever models and tools do |
| SessionTurns.FirstRequestAt | crates/ag-harness/src/harness.rs:394-403 | the first request of every turn of a session, by position |
| SessionTurns.RunSession | crates/ag-harness/src/harness.rs:394-446 | runs submissions one after another, each from the bounded history stored so far, storing exactly the persisted completions |
| Delivery.StepKeeps | crates/ag-harness/src/lifecycle.rs:320-350 | entering, queueing, delivering, draining and leaving keep the pending queue contiguous and every observer in order |
| Delivery.RunInv | crates/ag-harness/src/lifecycle.rs:562-596 | every reachable state satisfies the delivery invariant |
| Delivery.ReceivedInOrder | crates/ag-harness/src/lifecycle.rs:312-350 | every observer receives 0, 1, 2, ... each once and in order |
| Delivery.DrainedBeforeReturn | crates/ag-harness/src/lifecycle.rs:498-509 | when an outermost emission returns, everything emitted has reached every observer |
| Delivery.NestingIsFlat | crates/ag-harness/src/lifecycle.rs:321-328 | a callback's own emissions only queue, and one thread delivers at a time |
| NumberParsing.ExactIsUnique | crates/ag-harness/src/tool.rs:613-648 | a number denotes at most one integer in range |
| NumberParsing.ParsePositiveJsonInteger | crates/ag-harness/src/tool.rs:613-648 | returns v exactly when the number (section 6 of RFC 8259) denotes the integer v with 1 <= v <= u64::MAX |
| NumberParsing.FromNatIsExact | crates/ag-harness/src/tool.rs:564-577 | a stored limit is parsed back to itself |
| Base64.RoundTrip | crates/ag-harness/src/input.rs:374-398 | decoding inverts encoding (section 4 of RFC 4648) |
| Base64.DecodeIsCanonical | crates/ag-harness/src/input.rs:402-421 | only canonical text decodes |
| Messages.DataUrlLength | crates/ag-harness/src/input.rs:216-251 | the accounted data-URL length is the length produced |
| Messages.JoinedTextIsJoin | crates/ag-harness/src/input.rs:96-110 | the text of an input is its text blocks, from the first that is not empty, joined by blank lines |
| Sizes.ArgumentsAreCharged | crates/ag-harness/src/tool.rs:267-272 | the bytes charged for arguments are those of their compact JSON text (section 7 of RFC 8259 for strings) |
| Sizes.ImageIsCharged | crates/ag-harness/src/input.rs:216-251 | the bytes charged for an image are those of its data URL |
| Sizes.MessageIsCharged | crates/ag-harness/src/model.rs:540-579 | the bytes charged for a message are the summed lengths of the texts it sends |
| Codec.CallRoundTrip | crates/ag-harness/src/session.rs:2014-2042 | a stored tool call decodes to itself, recomputed diagnostic included |
| Codec.DiagnosticIsExact | crates/ag-harness/src/tool.rs:415-479 | read arguments draw a diagnostic exactly when a needed field is missing or a rejected one is given |
| Codec.InputRoundTrip | crates/ag-harness/src/input.rs:346-422 | a stored input decodes to itself, images included |
| Codec.RoundTrip | crates/ag-harness/src/session.rs:1893-1992 | exactly system prompts are refused; every other message decodes to itself with its retained size |
| Codec.DecodedIsStable | crates/ag-harness/src/session.rs:1952-2012 | whatever decodes can be stored again and decodes the same |

## Left out

- MemoryStore.MemoryStore.LoadSession: `load_writes` is the journal field itself and has no member of its own.
- PagedHistory.LoadTurns: assumes that each turn's byte sum fits the signed column; SQLite's error on a larger sum is not modelled.
- SessionHistory.HandleAgreesWithLoad: assumes that byte sums stay in the machine range, as the agreement is promised only there.
- LeaseClock.NeverRecoveredEarly: assumes one ideal clock for all processes and for both the wall and the monotonic reading.
- LeaseClock.StepKeeps: does not model saturation of timestamps near the largest signed value.
- CoordinationInvariant.StepKeeps: the concurrent protocol is modelled on values, one critical section a step; the lease lock held across clearing the failure and dropping the lease is one step.
- AdmittedStore.AdmissionTable.Find: which mutexes are alive is passed in; reference counting itself belongs to the steps of `Coordination`.
- OptimisticStore.AcquireTurn: transactions are atomic steps on values; it bounds the retries by the interference given, since termination needs fairness.
- FileReplacement.Directory.Replace: waiting for the directory lock is one call that may fail, and metadata copying one step that may fail; contents behind an inode and the private temporary name are not touched by others.
- Engine.Run: the request is a value updated by the loop; output validation belongs to the provider attempt, and lifecycle events, durations and reports are not modelled.
- Sizes.MessageIsCharged: assumes that the texts together stay in the machine range; beyond it sizes saturate.
- Replies.NothingRunsExpired: assumes that one acquisition reads its clock for recovery no later than for its reservation.
- Replies.CompatibleExceptBudget: does not model the version of a stored options snapshot; the source never reuses a continuation across an unknown version.
- Codec.RoundTrip: JSON text is modelled as parsed values with keyed fields, not as characters.
- The second, waiting mutex that serializes host-request acquisition in one process: it only delays callers.
- Preparing requests and schema validation: they compare values or call foreign code.
- Path and repository checks beyond what the codec validates, provider clients, telemetry, tracing, and the other crates of the repository.
- The SQL text, migrations and connection pool; uniqueness of the active turn and of host identifiers is taken from the schema.
- Fairness, wakeups and runtime shutdown: only safety is proved.
