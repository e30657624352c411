# Verified recovery and fencing protocols

A Dafny model of how the orchestrator's durable rows, its job queue and its processes stay consistent across crashes,
old snapshots and concurrent sweeps, and proofs of what the code promises about that. Each component is modelled twice:

- as a **protocol**: a shared row (and queue, or log), any number of processes that each stand at some step and may hold an
  arbitrarily old snapshot, crashes between any two steps, and the steps of users and workers. The theorems are about
  every run of these events;
- as the **code that runs**: a class whose fields are the stored columns and whose methods take the same branches as the
  source.

How the two are tied together differs by class:

- `GoalStore`, `DefinitionStore`, `GrantService`, `DesktopAuthService` and `BrowserSessionLifecycle`: the methods that
  change the row are proved equal to the step, or the steps of one undisturbed process, of their protocol; only
  `ClaimDueSlot`, `FireDueDefinition` and `RevokePresentedToken` state their effect instead, and `RenewIfDue` and
  `ResolveSharedGrant` are equal to it where they renew or adopt;
- `ReconciliationRun`: whatever its awaits come to, what a call commits is proved to be a run of the protocol, and the
  whole undisturbed pass if nothing stands in its way;
- `TaskStateRecovery.Execute`: proved to be a run of the lease protocol from its start to its end;
- `TaskStore`, `LeaseRedis`: each operation is a step's effect on the store;
- `MemberTable` has no protocol of its own: its operations are serialised transactions, and each of them keeps the
  replay of the log, the audit retention and the last administrator.

| files | component |
|---|---|
| `GoalProtocol`, `GoalProofs`, `GoalTheorems`, `GoalRecovery` | goal recovery: fenced attempts, rotation, the job queue |
| `Arithmetic`, `CronSearch` | cron evaluation and the binary search for the latest due slot |
| `ScheduleProtocol`, `ScheduleTheorems`, `ScheduleDrop`, `SchedulePartition`, `ScheduleSweep` | the agent schedule sweep |
| `GrantProtocol`, `GrantTheorems`, `GrantRenewal` | stored GitHub grants: relay renewal leases, refreshes, shared grants, sign-ins |
| `TaskHistory`, `TaskReasons`, `TaskPass`, `ScanCycle`, `Reconciler` | task history, orphan evidence, reasons of reconciled rows, the resumable scan and its summary |
| `PairingProtocol`, `PairingTheorems`, `PairingService` | desktop pairing and its credentials |
| `RecoveryLease`, `RecoveryPass` | the recovery pass under its Redis lease, and the step guard |
| `SessionDrain` | draining browser sessions before the store disconnects |
| `RoleTable` | instance members and their role audit log |

Ciphertexts, claims, tokens and receipts are numbers never used before (random values in the original); digests and derived
values are injective. I/O, clocks and every answer of Docker, Redis, the queue, the relay or a user are parameters.
`dafny verify dfyconfig.toml` checks the whole project.

## Where the code and its descriptions differ

- **Results of goals.** "Never overwritten" holds within a generation (`GoalTheorems.ResultsAreFinal`); continuing a
  finished goal clears its result and opens a new generation (`packages/api/routes/goalRoutes.ts:1258-1279`).
  `GoalTheorems.ContinueClearsResult` is such a run, and by `GoalTheorems.ResultsAreKeptIff` a result stays on the row over
  a run if and only if no continue happened in it.
- **Offboarding during a sweep.** Turning a schedule off drops its pending slot. Another sweep that was admitted before
  may then leave a queued receipt that nobody dispatches: `ScheduleDrop.InterleavedOffboardingStrands` is such a run, and
  `ScheduleDrop.DropIsSafeIffHarmless` is the exact condition.
- **Renewal failures after a sign-in.** A failed look at the schema is cached as "no renewal columns", so later sign-ins
  keep the previous credential's failure count and retry deadline: `GrantTheorems.SkippedColumnsKeepFailures`; the exact
  condition is `GrantTheorems.FailuresAreCounted`.
- **Revisions.** On top of a revision beyond the safe integers, `issueOAuthGrantRevision` falls back for every clock and
  counter within them (`GrantTheorems.UnsafeRevisionFalls`); `GrantTheorems.IssueRaises` and
  `GrantTheorems.RevisionsRiseIff` give the exact conditions for one call and for whole runs.
- **Store operations after close.** The wrapper defers the underlying call to a later turn, so a call made just before
  closing starts on the store after it closed (never after it disconnected): `SessionDrain.StartsAfterClose`, with the
  exact condition in `SessionDrain.NothingStartsAfterCloseIff`.
- **Sentinel ids.** The query reads both '0' and the empty string as "from the start" (and only a short page is meant to
  say so). The scan therefore skips tasks exactly when a full page other than the last ends at a task with one of these
  ids: `ScanCycle.EachCycleIsOneSortedPassIff`. Elsewhere in a page such an id does no harm
  (`ScanCycle.SentinelInsideAPage`).
- **Audit retention.** Past the safe integers an audit id prunes nothing, so the limit of 10,000 rows holds only while ids
  are safe: `RoleTable.MemberTable.WriteAudit` says what happens on either side.

## Model

| member | source | states |
|---|---|---|
| GoalTheorems.Fencing | src/goalRecovery.ts:122-226 | In every run, all jobs ever sent for one generation carry one claim and different generations different claims, none is ahead of the row, and those of the row's generation carry its claim |
| GoalTheorems.RotationFindsNoJob | src/goalRecovery.ts:143-182 | When a rotation commits, the generation rises by one to one that nothing was ever sent for, no job has its id, and its claim was never used |
| GoalTheorems.AttemptsStartOnce | src/jobs/goalAttemptState.ts:66-91 | Whatever sweeps do, and whenever workers claim with any job ever sent, each generation is started at most once, in increasing order |
| GoalTheorems.ResultsAreFinal | src/goalRecovery.ts:122-141 | Over any further run a result stays what it was for its generation; only a later generation can replace it on the row |
| GoalTheorems.ResultChangesIff | packages/api/routes/goalRoutes.ts:1258-1279 | A step changes the row's result if and only if it is a continue that wins its compare-and-set on the generation it read |
| GoalTheorems.ResultsAreKeptIff | packages/api/routes/goalRoutes.ts:1258-1279 | Over a whole run the row keeps its result if and only if no such continue happened in it |
| GoalTheorems.ContinueClearsResult | packages/api/routes/goalRoutes.ts:1258-1279 | A concrete run of finishing and continuing, after which the result is gone from the row and still recorded for its generation |
| GoalTheorems.NoStrandedGoal | src/goalRecovery.ts:353-363 | From every reachable state, one undisturbed pass over an unresolved running goal leaves it as it is if its heartbeat (or its claim, before the first one) is younger than the threshold or its container live, fails it exactly if it then cannot be resumed, and otherwise leaves it with a live job that will start it, one generation on if it had been claimed |
| GoalTheorems.StartableStarts | src/jobs/goalAttemptState.ts:66-91 | In every reachable state, the live job that the other theorems promise starts the attempt when it is delivered |
| GoalTheorems.DeliveryStartsIff | src/jobs/goalAttemptState.ts:57-78 | A delivered job starts its attempt if and only if the goal is running, unresolved and unclaimed and its generation and claim are the job's; any other delivery changes nothing |
| GoalTheorems.PausedGoalResumes | src/goalRecovery.ts:324-352 | A paused goal asked to resume becomes startable in one pass if and only if its pause is confirmed, was never claimed, or its heartbeat is too old and nothing of it runs any more |
| GoalTheorems.PausesAreConfirmed | src/goalRecovery.ts:329-352 | One pass over an unconfirmed pause changes nothing while the heartbeat is young or the container cannot be stopped, and otherwise confirms it and nothing else unless a resume was asked for |
| GoalTheorems.OldSnapshotsWriteNothing | src/goalRecovery.ts:122-226 | Whatever a process decides on a snapshot of another generation, another claim or a goal since resolved, it writes nothing and queues nothing |
| GoalTheorems.CancelledGoalEnds | src/goalRecovery.ts:296-323 | A cancelled goal ends cancelled, and marked, exactly when it has no claim or its container was stopped |
| GoalRecovery.GoalStore.FailIdentityLessAttempt | src/goalRecovery.ts:122-141 | Fails the attempt if and only if the fence of generation, claim, desired state and missing result still holds |
| GoalRecovery.GoalStore.RecoverClaimedAttempt | src/goalRecovery.ts:143-182 | Rotates and enqueues, or changes nothing, exactly as an undisturbed process of the protocol |
| GoalRecovery.GoalStore.EnqueueUnclaimedAttempt | src/goalRecovery.ts:184-226 | Binds a claim, then leaves a live job alone, replaces a terminated one under a new generation, or enqueues: the protocol's steps in sequence |
| GoalRecovery.GoalStore.ReplaceTerminatedAttempt | src/goalRecovery.ts:200-217 | A retained terminal job gets a new generation and job id, if nobody started or changed the attempt meanwhile |
| GoalRecovery.GoalStore.ConfirmPause | src/goalRecovery.ts:329-352 | Leaves a pause alone while its heartbeat is young; confirms a stale one only under the fence and once nothing of it runs, and rotates if a resume was asked for |
| GoalRecovery.GoalStore.FinishCancellation | src/goalRecovery.ts:296-323 | Ends a cancelled goal and marks its task, under the fence |
| GoalRecovery.GoalStore.RecoverGoal | src/goalRecovery.ts:280-364 | All branches of one recovery, equal to the protocol's pass: a running or unconfirmed paused attempt with a young heartbeat is unchanged; a lost running one that can resume is rotated with its job sent exactly if generation, claim, desired state and missing result still stand |
| GoalRecovery.RecoverNonterminalGoals | src/goalRecovery.ts:366-394 | Handles exactly the selected goals, once each, from snapshots read before; counts every outcome; afterwards each handled goal is as young, live, failed or startable as one pass leaves it |
| GoalRecovery.TallyCounts | src/goalRecovery.ts:382-393 | Each counter is the number of goals with that outcome |
| CronSearch.NextCronOccurrence | packages/shared/src/cronSchedule.ts:141-163 | The least occurrence strictly after its argument despite skipping whole days and hours, or none within 366 days |
| CronSearch.FiresAt | packages/shared/src/cronSchedule.ts:125-163 | A cron fires at whole minutes of a listed month, hour and minute whose day of month or weekday is listed if both are restricted, and both are listed otherwise |
| CronSearch.Weekdays | packages/shared/src/cronSchedule.ts:125-131 | Weekdays follow one another from 0 to 6 and the epoch was a Thursday |
| CronSearch.LatestDueSlot | src/agentRunScheduler.ts:139-151 | The latest slot not after now and not before the claimed one, with at most two evaluations more than the elapsed minutes can be halved |
| CronSearch.HalvingsAreLogarithmic | src/agentRunScheduler.ts:139-151 | That number of halvings is the logarithm of the elapsed minutes |
| CronSearch.LatestIsGreatest | src/agentRunScheduler.ts:139-151 | If the claimed slot is an occurrence, the result is the greatest occurrence not after now |
| CronSearch.NextAfterLatest | src/agentRunScheduler.ts:175-195 | The next run written by a claim is the occurrence right after the slot it fires |
| ScheduleTheorems.DispatchObligation | src/agentRunScheduler.ts:202-310 | For any number of sweeps with crashes and refused or lost enqueues, a queued receipt never enqueued has its slot pending, a released slot has its receipt, and no claimed slot is forgotten |
| ScheduleTheorems.StepOwed | src/agentRunScheduler.ts:230-289 | A slot that is pending or recorded stays so over every step that does not turn the schedule off |
| SchedulePartition.CoalescingIsAPartition | src/agentRunScheduler.ts:139-195 | Over any run of claims, fired slots strictly increase and every due occurrence lies in exactly one claim's interval |
| ScheduleDrop.DropIsSafeIffHarmless | src/agentRunScheduler.ts:248-255 | The obligation survives a dropped slot in every later run if and only if no receipt waits and no other sweep is about to create one |
| ScheduleDrop.OffboardingAloneIsSafe | src/agentRunScheduler.ts:248-255 | An offboarding sweep not interleaved with another drops harmlessly and turns the schedule off |
| ScheduleDrop.InterleavedOffboardingStrands | src/agentRunScheduler.ts:248-255 | A concrete run of two sweeps that leaves a receipt nobody will dispatch |
| ScheduleSweep.DefinitionStore.ClaimScheduleSlot | packages/core/src/services/agents/agentDefinitionStore.ts:368-379 | The claim succeeds if and only if the next run is the one read, the schedule is on and no slot is pending |
| ScheduleTheorems.AdmittedSlotsAreOwed | packages/core/src/services/agents/agentDefinitionStore.ts:389-398 | Whatever happened since its admission, a sweep about to start work holds a slot still pending or already recorded, and one about to release a slot that needs no dispatch |
| ScheduleSweep.DefinitionStore.ReleaseScheduleSlot | packages/core/src/services/agents/agentDefinitionStore.ts:404-412 | Clears only the named slot |
| ScheduleSweep.DefinitionStore.DisableSchedule | packages/core/src/services/agents/agentDefinitionStore.ts:420-431 | Drops the pending slot, and turns an enabled schedule off |
| ScheduleSweep.DefinitionStore.CreateAgentRun | packages/core/src/services/agents/agentRunStore.ts:188-237 | One receipt per slot: a second insert returns the first |
| ScheduleSweep.DefinitionStore.SkipQueuedReceipt | src/agentRunScheduler.ts:202-207 | Moves a receipt to skipped only if it is still queued |
| ScheduleSweep.DefinitionStore.RecordSkippedSlot | src/agentRunScheduler.ts:213-221 | Afterwards the slot has a receipt, and it is not queued |
| ScheduleSweep.DefinitionStore.Trigger | packages/core/src/services/agents/agentRunTrigger.ts:316-362 | The trigger as the schedule uses it: replay, invalid, skipped, deferred, enqueued, or a throw that leaves the receipt queued |
| ScheduleSweep.DefinitionStore.FireClaimedSlot | src/agentRunScheduler.ts:230-289 | Equal to an undisturbed process, with the outcome of every case spelled out; a reported outcome means the slot is settled and released, a throw that it is still queued and pending |
| ScheduleSweep.DefinitionStore.ClaimDueSlot | src/agentRunScheduler.ts:175-195 | Unless the cron is missing or some minute of the search has an empty window: claims the latest due slot and writes the occurrence after it if and only if the stored row is the one read, enabled on both flags and without a pending slot, and changes nothing otherwise; only in that case it turns the schedule off |
| ScheduleSweep.DefinitionStore.FireDueDefinition | src/agentRunScheduler.ts:299-310 | Resumes the pending slot or, unless the cron cannot be evaluated, claims one exactly if the row is the one read; says which slot this sweep was responsible for and what became of it |
| ScheduleSweep.Settles | src/agentRunScheduler.ts:259-289 | The trigger path settles its slot exactly if no enqueue it needed failed |
| GrantTheorems.OneFinalOutcome | packages/api/connectGrantRenewer.ts:116-196 | In every run each lease stores at most one outcome, and at most one renewed or reauth outcome is ever stored for a credential |
| GrantTheorems.LiveLeaseExcludes | packages/api/connectGrantRenewer.ts:116-132 | In every reachable state, while a holder's lease is the row's, nobody else's acquisition up to 25 seconds after it was taken changes row or leases |
| GrantTheorems.LeasesAreApart | packages/api/connectGrantRenewer.ts:116-149 | Over any run in which no lease is released and no sign-in resets the columns, any two acquired leases are more than 25 seconds apart |
| GrantTheorems.LeaseGrantedIff | packages/api/connectGrantRenewer.ts:119-130 | A lease is granted if and only if the credential is the one read and active, no lease is unexpired and no retry deadline lies ahead, and then runs for 25 seconds |
| GrantTheorems.OvertakenLeasesAreSilent | packages/api/connectGrantRenewer.ts:116-157 | After a newer sign-in or a takeover, no lease acquired before ever stores an outcome, in any continuation |
| GrantTheorems.TakenOverWritesNothing | packages/api/connectGrantRenewer.ts:141-157 | Nothing a taken-over holder still does changes the row |
| GrantTheorems.FailuresAreCounted | packages/api/connectGrantRenewer.ts:190-195 | The stored failures equal the transient outcomes since the last renewal or sign-in throughout a run, if and only if no sign-in that skipped the columns found failures to reset |
| GrantTheorems.SkippedColumnsKeepFailures | packages/api/connectGrantRenewer.ts:68-78 | A concrete run in which a sign-in leaves the old failure count and retry deadline |
| GrantTheorems.CallsRespectBackoff | packages/api/connectGrantRenewer.ts:119-143 | While a relay call runs, its lease is no older than any retry deadline stored for its credential before |
| GrantTheorems.BackoffBounds | packages/api/connectGrantRenewal.ts:60-64 | Each delay is at least half the capped exponential and at least the Retry-After, and below the exponential unless Retry-After asks for more; without one it is exactly the jittered share |
| GrantTheorems.RetryAfterHonoured | packages/api/connectGrantRenewal.ts:95-102 | A Retry-After of seconds or a date (section 10.2.3 of RFC 9110) is never undercut by the stored deadline |
| GrantTheorems.ExponentialDoubles | packages/api/connectGrantRenewal.ts:60-64 | The exponential starts at 30 seconds, doubles until the fifth failure and is the cap of ten minutes exactly from the sixth on |
| GrantTheorems.RevisionsRiseIff | packages/api/githubUserGrantService.ts:223-259 | Between sign-ins, whoever writes, every stored credential raises the pair of login and grant revision, if and only if no revision was issued on top of one beyond the safe integers, the clock and the last issued one |
| GrantTheorems.RevisionsRise | packages/api/githubUserGrantService.ts:223-259 | Under that condition the pair at the end of a run is lexicographically greater than at its start, unless the credential is the same |
| GrantTheorems.IssueRaises | packages/core/src/services/visualPreviewOAuthCredentialService.ts:129-138 | An issued revision exceeds the current one if and only if that is a safe integer, negative, or below the clock or the last issued one, and is never more than one of these requires |
| GrantTheorems.UnsafeRevisionFalls | packages/core/src/services/visualPreviewOAuthCredentialService.ts:129-138 | On top of a revision beyond the safe integers, every clock and counter within them issues a smaller one |
| GrantTheorems.NewerIff | packages/api/githubUserGrantService.ts:375-386 | A shared grant is newer if and only if its pair of revisions is lexicographically greater and all four are safe integers |
| GrantRenewal.GrantService.CaptureColumns | packages/api/connectGrantRenewer.ts:68-71 | The first answer about the columns is kept for good; an error counts as absent |
| GrantRenewal.GrantService.Capture | packages/api/githubUserGrantService.ts:89-114 | A sign-in replaces the credential unconditionally, and the renewal columns exactly if they are taken to exist |
| GrantRenewal.GrantService.StoreIfCurrent | packages/api/githubUserGrantService.ts:223-259 | Stores a new credential if and only if ciphertext, status and refresh ciphertext are those of the row that was read; equal to the protocol's write |
| GrantRenewal.GrantService.MarkReauthRequiredIfCurrent | packages/api/githubUserGrantService.ts:261-268 | Marks the row under the same condition |
| GrantRenewal.GrantService.Refresh | packages/api/githubUserGrantService.ts:188-221 | Equal to the protocol's refresh; keeps the login revision and raises the grant revision exactly when that is possible |
| GrantRenewal.GrantService.ResolveSharedGrant | packages/api/githubUserGrantService.ts:297-386 | Adopts a shared grant if and only if it is usable, does not match a readable active row, is newer than the row it was compared with, is not an older one to be ignored, and that row is still stored |
| GrantRenewal.GrantService.AcquireLease | packages/api/connectGrantRenewer.ts:116-130 | Takes the lease, for 25 seconds, if and only if the ciphertext is the one read, the status active, the old lease absent or expired and no retry deadline ahead; otherwise the row does not change |
| GrantRenewal.GrantService.ApplyAnswer | packages/api/connectGrantRenewer.ts:151-196 | Stores nothing once lease or credential changed; otherwise a renewed token with its expiry and a greater revision, a sign-in request, a usable token kept exactly if not forced and unexpired, or one more failure with a later deadline |
| GrantRenewal.GrantService.RenewWithLease | packages/api/connectGrantRenewer.ts:116-149 | A whole renewal happens if and only if the lease could be taken, equals the protocol's steps, leaves the row each answer calls for, stores one outcome and frees the lease |
| GrantRenewal.GrantService.RenewIfDue | packages/api/connectGrantRenewer.ts:86-101 | Nothing happens before ten minutes and a share of two more before expiry; from then on a renewal is tried unless it backs off, and the token stays usable exactly until it expires |
| TaskHistory.HistoryIsAppendOnly | src/persistedTaskStateStore.ts:185-240 | History only grows, whatever reconcilers and tasks do |
| TaskHistory.ReconciledRowIsNext | src/persistedTaskStateStore.ts:197-238 | A reconciled row is terminal and is its task's very next row after the non-terminal one it expected; no row is the expectation of two |
| TaskHistory.FinalizesIff | src/persistedTaskStateStore.ts:197-238 | For any candidate however old, the write happens if and only if its row is still the last, in the scanned state, and the job assignment has not moved |
| TaskHistory.TerminalTasksAreLeftAlone | src/persistedTaskStateStore.ts:203-212 | A terminal task gets no further row from any reconciler in any run |
| TaskHistory.OrphansHaveEvidence | src/taskStateReconciler.ts:231-289 | A task is failed as orphaned only if two different passes recorded it missing under the row the failure follows, the grace period apart, no clear between, with no job, no container and no fresh or terminal Redis state |
| TaskReasons.ReconciledRowsHaveReasons | src/taskStateReconciler.ts:201-330 | In every run, a reconciled row has state s only if its pass was told of this task and row, stale, and Redis held s as terminal state, or knew nothing terminal or recent while the job had completed with s or failed; an orphan only if neither job nor container was found |
| TaskReasons.ToldIsKept | src/taskStateReconciler.ts:291-330 | What a pass was told, on which its row rests, is never replaced in any further run |
| TaskReasons.DecidesIff | src/taskStateReconciler.ts:201-330 | Each branch of a decision is taken if and only if its reason holds, with all ages spelled out |
| Reconciler.TaskStore.RecordMissing | src/persistedTaskStateStore.ts:148-170 | Counts on for the same row, keeping its first time, and starts over for another |
| Reconciler.TaskStore.ClearMissing | src/persistedTaskStateStore.ts:172-174 | Forgets the observation |
| Reconciler.MovedJobIsNeverFinalized | src/persistedTaskStateStore.ts:176-183 | A candidate whose job assignment is not the scanned one is never finalized, whatever happens, unless the assignment moves again |
| Reconciler.TaskStore.FinalizeIfCurrent | src/persistedTaskStateStore.ts:185-240 | Appends exactly the terminal row, and removes the observation, if and only if the scanned row and job assignment still stand |
| Reconciler.ReconciliationRun.FinalizeCandidate | src/taskStateReconciler.ts:132-199 | Settles through Redis, by the compare-and-set, or not at all, and says which; counts recovered or skipped exactly once, and nothing when an await rejects |
| Reconciler.ReconciliationRun.FinalizeOrphan | src/orphanReplacement.ts:35-70 | The failure is written only after the decision was prepared; completed only after this run moved the task, and always then; withdrawn only when it did not |
| Reconciler.ReconciliationRun.ReconcileQueueJob | src/taskStateReconciler.ts:201-229 | A live job clears the evidence and writes no row; a completed or failed one ends the task in that state if it stands as scanned; an unknown one changes nothing |
| Reconciler.ReconciliationRun.ReconcileMissingJob | src/taskStateReconciler.ts:231-289 | A running container counts as live, an unreachable one as an error; otherwise the task is recorded, and failed exactly after two observations a grace period apart, if its job could have been found |
| Reconciler.ReconciliationRun.ReconcileCandidate | src/taskStateReconciler.ts:291-330 | Whatever its awaits come to, what is committed is a run of the protocol, and the whole pass if nothing stands in its way; a candidate too young changes nothing, one seen alive in Redis lately writes no row and counts as live, and every other case does what Redis, queue and container say |
| Reconciler.ReconciliationRun.ReconcileStaleTaskStates | src/taskStateReconciler.ts:332-405 | What a call commits is a run of the protocol, one whole pass after the other if nothing stands in the way; it stops only where it is late or an await meets the deadline and throws only for the scan or an abort; live+suspected+recovered+skipped <= scanned-backlog <= that sum+errors; cursor and backlog are those of the resumable scan |
| TaskPass.ResultIsRun | src/taskStateReconciler.ts:291-330 | However far a pass gets, what it commits is a run of the protocol; unhindered it is begin, probe and two steps |
| ScanCycle.EachCycleIsOneSortedPassIff | src/persistedTaskStateStore.ts:112-146 | Wherever deadlines cut, each closed cycle handled every task of a fixed set exactly once in id order, if and only if no full page but the last ends at the sentinel's or the empty id |
| ScanCycle.OpenCycleIsAPrefix | src/taskStateReconciler.ts:347-400 | What the open cycle has handled is a prefix of the set, and cursor and backlog stand for exactly the rest |
| ScanCycle.FillsPagesIff | src/persistedTaskStateStore.ts:139-145 | A full page ends where the tasks before it are a multiple of the page size |
| ScanCycle.CallTakes | src/persistedTaskStateStore.ts:112-146 | One call takes its tasks off the front of what remained of the cycle |
| ScanCycle.CallProgresses | src/taskStateReconciler.ts:376-400 | A call that handles anything closes the cycle or leaves strictly less of it |
| ScanCycle.SentinelInsideAPage | src/persistedTaskStateStore.ts:139-145 | The same two tasks scan wrongly in pages of one and rightly in pages of three |
| PairingTheorems.AcceptedTokensArePaired | packages/api/desktopAuthService.ts:670-696 | An accepted credential came from exactly one pairing, approved by its owner, provisioned once, activated strictly before its activation expiry (no later than the pairing's), never cancelled |
| PairingTheorems.OnlyTheDeviceIsAnswered | packages/api/desktopAuthService.ts:367-668 | Over any run after a pairing started, every answered poll presented the secret given out then, and every receipt and cancellation that secret, the binding and the ticket derived from both |
| PairingTheorems.CancelledIsFinal | packages/api/desktopAuthService.ts:558-603 | After a cancellation no credential of the pairing is accepted, whatever polls, activations, revocations and cleanups follow |
| PairingTheorems.CancelCancels | packages/api/desktopAuthService.ts:572-602 | A successful cancellation is recorded, and repeating it changes nothing and answers the same |
| PairingTheorems.PairingIsIdempotent | packages/api/desktopAuthService.ts:474-668 | At most one approver, credential and activation per pairing; all successful polls answer alike, and all successful activations |
| PairingTheorems.ApproverIsFixed | packages/api/desktopAuthService.ts:440-472 | The approver never changes once set |
| PairingService.DesktopAuthService.StartPairing | packages/api/desktopAuthService.ts:367-404 | A pending pairing with an unused id and secret, this binding and expiry |
| PairingService.DesktopAuthService.ApprovePairing | packages/api/desktopAuthService.ts:440-472 | Approves a pending unexpired pairing, or repeats the approver's success, or says why not |
| PairingService.DesktopAuthService.PollPairing | packages/api/desktopAuthService.ts:474-556 | Another secret or an unknown id gets NotFound and changes nothing; otherwise the answer of every branch, and the credential inserted exactly by the first poll of an approved, unexpired pairing |
| PairingService.DesktopAuthService.CancelPairing | packages/api/desktopAuthService.ts:558-603 | Another secret, binding or ticket gets NotFound and changes nothing; otherwise the pairing is consumed and its credential revoked, once |
| PairingService.DesktopAuthService.ActivatePairing | packages/api/desktopAuthService.ts:605-668 | Another secret, binding or ticket gets NotFound and changes nothing; otherwise a timely first activation makes the credential active, a later one repeats the receipt, and every other case has its error |
| PairingService.DesktopAuthService.ValidateToken | packages/api/desktopAuthService.ts:670-696 | Finds the owner if and only if an active, unrevoked, unexpired credential has this value, and only one can |
| PairingService.DesktopAuthService.RevokeToken | packages/api/desktopAuthService.ts:706-717 | Only the owner, only once; afterwards the credential is never accepted |
| PairingService.DesktopAuthService.RevokePresentedToken | packages/api/desktopAuthService.ts:719-750 | Revokes the presented credential if it is still usable, and no other |
| PairingService.DesktopAuthService.CleanupPairings | packages/api/desktopAuthService.ts:752-765 | Deletes exactly lapsed provisional credentials and long-expired pairings, and counts the latter |
| PairingService.PollAnswers | packages/api/desktopAuthService.ts:540-555 | A successful poll answers with the pairing's only credential |
| PairingService.CancelRecords | packages/api/desktopAuthService.ts:580-601 | After a successful cancellation every credential row of the pairing is revoked |
| PairingService.ActivateRecords | packages/api/desktopAuthService.ts:630-667 | A successful activation answers with the receipt of the only activation |
| PairingService.ValueIsUnique | packages/api/desktopAuthService.ts:166-175 | No two credential rows share a value |
| SessionDrain.CounterIsExact | packages/api/authSession.ts:82-96 | The counter equals the admitted requests not yet released, in every run |
| SessionDrain.DisconnectComesLast | packages/api/authSession.ts:143-153 | At most one disconnect, with no request open and every call let through settled in promise and callback |
| SessionDrain.NoCallAfterClose | packages/api/authSession.ts:105-111 | No call is let through once the store is closed |
| SessionDrain.NothingStartsAfterCloseIff | packages/api/authSession.ts:112-139 | No operation starts on the store after it closed, in any continuation, if and only if every call let through had started |
| SessionDrain.StartsAfterClose | packages/api/authSession.ts:124-132 | A concrete run in which one does |
| SessionDrain.NothingStartsAfterDisconnect | packages/api/authSession.ts:149-151 | Nothing starts on the store once it is disconnected |
| SessionDrain.ShutdownCompletes | packages/api/authSession.ts:143-153 | Once closing was asked for and the last request and operation are done, the shutdown reaches its one disconnect, whatever was forgotten meanwhile |
| SessionDrain.BrowserSessionLifecycle.Middleware | packages/api/authSession.ts:82-96 | Admits and counts a request, or refuses it while stopping |
| SessionDrain.BrowserSessionLifecycle.ReleaseRequest | packages/api/authSession.ts:87-93 | Only the first of both events releases |
| SessionDrain.BrowserSessionLifecycle.CallStore | packages/api/authSession.ts:105-139 | Tracks the call, or refuses it after close |
| SessionDrain.BrowserSessionLifecycle.InvokeOriginal | packages/api/authSession.ts:124-132 | The deferred invocation; a throw settles both promise and callback |
| SessionDrain.BrowserSessionLifecycle.CloseLifecycle | packages/api/authSession.ts:143-153 | Stops admissions, and closes the store in the same turn if nothing is open |
| RecoveryLease.ExclusionIff | src/workerTaskStateRecovery.ts:228-229 | Passes of different processes never hold the lease together, in any run, if and only if it outlives time budget and release budget |
| RecoveryLease.PassEndsBeforeItsLease | src/workerTaskStateRecovery.ts:262-366 | Under such a lease every pass is over before its own lease expires, and the key is its own |
| RecoveryLease.DefaultIsLongEnough | src/workerTaskStateRecovery.ts:228-229 | The default lifetime is long enough for every budget |
| RecoveryLease.ReleaseBudgetBounds | src/workerTaskStateRecovery.ts:228-229 | The release gets a tenth of the budget between a millisecond and a second; the default lease five minutes or three budgets |
| RecoveryPass.OneRunPerStep | src/workerTaskStateRecovery.ts:245-260 | Across all passes of a process, at most one run of each named step is unsettled |
| RecoveryPass.AskAllIsGuarded | src/workerTaskStateRecovery.ts:311-347 | Asking for all steps of a pass, in order and until one is out of time or rejects, keeps that |
| RecoveryPass.TaskStateRecovery.RunStep | src/workerTaskStateRecovery.ts:246-260 | Starts a step if and only if its last run is forgotten and the pass is within its budget |
| RecoveryPass.TaskStateRecovery.ForgetRun | src/workerTaskStateRecovery.ts:256-257 | Unblocks a step only on behalf of the run that blocks it |
| RecoveryPass.TaskStateRecovery.Execute | src/workerTaskStateRecovery.ts:262-366 | Takes the lease if and only if it is not closed, the answer is not lost and the key is free; one pass is a run of the lease protocol, ends in time, deletes only its own key, asks for its steps after reconciliation, and moves the scan on only by what that returned |
| RecoveryPass.LeaseRedis.SetNx | src/workerTaskStateRecovery.ts:272-278 | Takes the key if and only if it is absent or expired |
| RecoveryPass.LeaseRedis.DeleteIfOwn | src/workerTaskStateRecovery.ts:28-33 | Deletes the key only under the caller's token |
| RoleTable.MemberTable.ClaimBootstrapAdmin | packages/api/instanceMemberService.ts:143-206 | Makes the configured administrator an administrator, with one entry exactly if that changed a role |
| RoleTable.MemberTable.AddMember | packages/api/instanceMemberService.ts:208-236 | Adds exactly one member and entry, or reports that it exists |
| RoleTable.MemberTable.UpdateRole | packages/api/instanceMemberService.ts:238-263 | Changes one role with one entry if it differs; refuses exactly to demote the last administrator |
| RoleTable.MemberTable.RemoveMember | packages/api/instanceMemberService.ts:265-282 | Removes one member with one entry; refuses exactly to remove the last administrator |
| RoleTable.MemberTable.AnotherAdminExists | packages/api/instanceMemberService.ts:103-120 | Whether this administrator is not the last one |
| RoleTable.MemberTable.WriteAudit | packages/api/instanceMemberService.ts:82-101 | The stored rows stay the newest entries of the full log, at most 10,000 after a write if and only if its id is safe or fewer than that were stored before |
| RoleTable.Recorded | packages/api/instanceMemberService.ts:193-280 | An entry that describes the change keeps the members' roles equal to the replay of the full log and every previous role right |
| RoleTable.RewindRestores | packages/api/instanceMemberService.ts:23-41 | Undoing the newest entries of a faithful log gives back the roles before them |
| RoleTable.MemberTable.StoredRowsRewind | packages/api/instanceMemberService.ts:82-101 | Today's roles and the stored rows alone give the roles before the oldest stored row |

## Left out

- GoalRecovery.RecoverNonterminalGoals: a rejected query, container command or terminal-task update aborts the source's sweep; here such a sweep is a process that crashes between two steps of the protocol.
- Goal paused time, blockers, event publishing, titles and the text of failures: they do not feed back into any decision.
- User and worker writes to a goal are abstracted to any write that keeps generation, claim, start and result (`Write`), and to rotations under a compare-and-set on the generation they read (`Reopen`).
- The deferred retry of agent runs, the cost gate and run validation: their answers are parameters of the schedule model.
- The batch listing and its order, and the paging loops over stuck runs and grants: they only call the modelled functions repeatedly.
- CronSearch.NextCronOccurrence: the calendar (month and day of month of a day) is a parameter, since no property depends on it.
- The in-process maps that share one renewal or one refresh among concurrent callers: exclusion is proved for any number of callers without them.
- GrantRenewal.GrantService.RenewIfDue: a deleted row, and waiting for another holder's lease, are not modelled; a denied renewal reads the row again at once.
- Encryption, token patterns, hashes and the HTTP calls of grants and pairing.
- Reconciler.ReconciliationRun.FinalizeCandidate: the Redis-first update is counted and clears as in the source; the state manager's own write to the history is somebody else's append in the protocol.
- Reconciler.ReconciliationRun.FinalizeOrphan: the replacement service is a set of answers; what it stores is not part of this model.
- TaskHistory.OrphansHaveEvidence: it covers the durable finalization; the decision to finalize has the same evidence on either path.
- ScanCycle.EachCycleIsOneSortedPassIff: the candidate set is fixed during a cycle, since nothing can be said of tasks that come and go between pages.
- Validation of names, ids, origins and bindings of a pairing request: it only rejects malformed input before the modelled steps.
- RecoveryPass.TaskStateRecovery.Execute: processes of the recovery lease share one clock and their timers fire on time; `close` of the recovery is not modelled beyond refusing new passes.
- Connection failures inside a transaction: a transaction either happens or does not.
- Express routing, OAuth strategies, Docker and queue internals, the user interfaces and the command line.
