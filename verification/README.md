# Verified models of the Cloudflare GitHub Actions runner pool

The runner pool keeps one scheduler per Cloudflare account, one image builder, one cache quota controller and a few
small codecs. These Dafny files model their behaviour and prove what it guarantees over all inputs and all runs.
`dafny verify dfyconfig.toml` checks everything.

## What is modelled

**The account scheduler.** `SchedulerModel` holds the tables (jobs, slots, JIT runners, capacity operations, the
alarm) as one value and every entry point as a step on it. A step is one stretch of code between two awaits. What
GitHub, Cloudflare and the database answer is part of the event; time is a nondecreasing input. A capacity update is
a start step (flag set) and a separate finish or failure step; the recovery of a stopped job reads its row when the
alarm fires and releases it after GitHub has answered, so other events fall in between. `AccountScheduler` is the
same thing as an object: fields, in-place updates, loops for the queries, each method equal to its step.
`SchedulerRuns` defines runs from the first start; `SchedulerNames`, `SchedulerNameRuns`, `SchedulerCapacity`,
`SchedulerAccounting`, `SchedulerReservations`, `SchedulerBudget`, `SchedulerProfiles`, `SchedulerAlarm`,
`SchedulerAttention`, `SchedulerLifecycle`, `SchedulerEndings`, `SchedulerAssignments`, `SchedulerProvisioning`,
`SchedulerAdmissions`, `SchedulerMachines`, `SchedulerConfigurations`, `SchedulerCeilings`, `SchedulerProgress`,
`SchedulerUpdates` and `SchedulerPlatform` state what all runs keep, and exactly when they do not. `SchedulerActs` divides a
step into what it does by itself and the admission that follows. `SchedulerUpdates` follows the platform's ceiling from
report to report, `SchedulerPlatform` lets every request take effect at any moment. `SchedulerStories` and
`SchedulerDesertion`, with single steps in `SchedulerStorySteps`, have complete runs in which the code breaks a promise.
`SchedulerPolicy` is the vector-capacity planner and `CapacityPlanning` proves it against an independent notion of
feasibility. `AssignmentSweep` is the resumable search for the job that runs on a runner.

**The image builder.** `ImageBuilderModel` has the stored record, the Container with its build processes, and the calls
that are suspended while the platform is busy; every call is cut wherever the source waits for the platform, so any
other call may fall in between. A result carries the process that wrote it, which the stored record of the source does
not have. `ImageBuilder` is the object, `ImageBuilderLeases` proves whose image is rolled out and how long a rollout is
fenced, `ImageBuilderOutcomes` what each caller gets, `ImageBuilderStories` has the runs in which either fails, and `ImageBuildWorkflow` is the loop of the Workflow
that drives the builder.

**The cache quota.** `CacheQuotaModel` (eviction order), `CacheRebuild` (index from the listing), `CacheAges` (what a
rebuild gives back), `CacheCommits` (first writer wins) and the object in `CacheQuota`.

**Codecs.** `RunnerProfiles` and `CustomLabels` (machine labels), `DerEncoding` (RSA key wrapping).

Results about a single call often follow from the definitions at once; they say what its caller gets, branch by branch,
and the results about whole runs build on them.

vCPU is counted in sixteenths, so all resources are integers. Slots and jobs are numbered in the collation order of
their names. Lemmas carry `{:induction false}`: automatic induction is not used anywhere.

## Findings

Ten properties hold only under a condition that the code does not enforce. Each is stated exactly, and each but the last
two has a run.

- *Double release.* `recoverStoppedRunners` reads a job's row, waits for GitHub to delete the runner, and then
  releases the slot named in the old row. If the job completed or was handed over meanwhile, the slot is released
  twice and may end with fewer reservations than active jobs. `SchedulerReservations.CountsHoldExactlyWhen` says when,
  over whole runs; `SchedulerStories.CompletionDuringRecoveryReleasesTwice` is a run that ends with a running job and
  nothing reserved. The next restart repairs the count from any state, but not a ceiling that is too low by then
  (`SchedulerAccounting.RestartSettles`).
- *Completed job queued again.* When GitHub reports a job on another job's runner, the owner is put back into the queue,
  even if GitHub has just reported it complete. `SchedulerEndings.CompletionHoldsExactlyWhen` says exactly when a completion
  is undone; `SchedulerStories.CompletedJobIsQueuedAgain` is a run.
- *Configuration without its owner.* Only the job that a slot was chosen for can finish the slot's configuration. If it
  ends first and other jobs have joined, the slot goes on being configured and their claims wait until the slot is empty.
  `SchedulerConfigurations.ConfigurationsAreTendedExactlyWhen` lists the ways;
  `SchedulerDesertion.CancelledOwnerLeavesAJobWaiting` is a run.
- *Lost rollout fence.* Every call of the builder that waits for the platform writes its record afterwards without
  reading again. `ImageBuilderLeases.FenceEndsExactlyWhen` lists all that ends a rollout lease: its owner, a
  reconciliation of the stored record that finds no rollout, and seven ways in which a call that read an older record
  overwrites it. `ImageBuilderStories` has a run for each of the seven.
- *Another build's image.* A rollout lease may be granted for an image that another workflow built: when a poll from
  before a newer claim reads the newer build's result, or when two starts that waited for the same Container both claim
  and build in one. `ImageBuilderLeases` gives the exact condition and one that callers can keep: nothing is written
  or launched from before a newer claim.
- *Ceilings that part.* A release lowers the desired ceiling without a new generation, and a completion records the
  target of the generation's operation, not what was asked for. `SchedulerUpdates.UpdateLagsExactlyWhen` says for every
  completion of an alarm's update when the two differ. If the recorded ceiling has not moved since the row was read, it
  is exactly after a release that left another ceiling than that target (`UpdateLagsExactlyWhenReleased`): a reduction
  that follows a release is recorded as the old increase, and on an idle slot every alarm then repeats it. If another
  completion has raised it meanwhile, such an update may well be recorded rightly. The next admission does not repair a
  ceiling that has parted: within the recorded one it asks for nothing, and its claim is granted at once
  (`AdmissionWithinCeiling`). `SchedulerStories.GrantsBeyondThePlatform` is a run in which two claims are granted and
  the platform has room for one.
- *Lost answers.* A reduction may take effect although its answer is lost or the object restarts first; the update is
  then put off or found stalled, and the recorded ceiling stays. A configuration may lower the ceiling below the
  recorded one, which is corrected only by a second call after the slot has become ready.
  `SchedulerPlatform.BackedExactlyWhen` lists all ways in which claims come to be granted against more than the platform
  has; `SchedulerStories.LostReductionGrantsBeyondThePlatform` is a run.
- *Commit of an evicted archive.* A finalization whose archive was evicted after its caller had looked at it stores a
  manifest without an archive, and that keeps the key taken (`CacheCommits.StoredCommitIsHeldExactlyWhenPresent`).
- *Lost claim.* A claim whose answer is lost is granted again when it is repeated, unless it is for a configuration and
  the slot's recorded ceiling is below the desired one; then it waits, and no alarm raises that ceiling
  (`SchedulerConfigurations.RepeatedClaimGrantedExactlyWhen`).
- *Lengths from 2^32.* `derLength` shifts with `>>>`, so its result decodes to the length modulo 2^32.

Two more are worth knowing. Retrying a winning cache commit is harmless exactly when its archive is within the maximum:
after the maximum was lowered below its size, the retry deletes the committed archive and leaves the manifest, the one
way besides eviction in which a committed pair is lost (`CacheCommits.FirstCommitStays`). Ended jobs are not final: a
hand-over does not look at the status of the job GitHub reports (`SchedulerLifecycle`), and one to a job that already
holds a slot leaves a reservation too many until the next restart (`SchedulerReservations.ReservationsAreAccountedFor`).

## Model

| member | source | states |
|---|---|---|
| SchedulerNameRuns.EveryRunnerHasOneOwner | src/account-runner-scheduler.ts:1537-1678 | In every reachable state no two jobs in provisioning, running or releasing own the same runner name, if GitHub reports each name for one job |
| SchedulerNameRuns.OwnerIsUnique | src/account-runner-scheduler.ts:1539-1543 | The query for a runner's owner has at most one answer in every reachable state |
| SchedulerNameRuns.AbandonedAttemptsStayRefused | src/account-runner-scheduler.ts:1631-1647 | Once a job is requeued for a later attempt, every later claim, start check, runner report or failure report under an earlier attempt's name is refused and changes nothing, for the rest of the run |
| SchedulerNameRuns.AttemptsGrowInRun | src/account-runner-scheduler.ts:1631-1647 | No job disappears and its attempt number never falls |
| SchedulerNames.StepKeepsNames | src/account-runner-scheduler.ts:1537-1678 | Every step of every entry point keeps the naming invariant: own or reported names, spent runner names, one owner each |
| SchedulerNames.SubmittedNamesAreSound | src/webhook.ts:143-169 | The names jobs are submitted under carry no retry suffix and determine their job, which is what the naming theorems assume of them |
| RunnerNames.StripRetry | src/account-runner-scheduler.ts:1632-1633 | Removes exactly the suffix `-r` and digits at the end of a name, if there is one |
| RunnerNames.RetryNameParts | src/account-runner-scheduler.ts:1632-1633 | A retry name determines the base name and the attempt it was made from |
| SchedulerReservations.CountsHoldExactlyWhen | src/account-runner-scheduler.ts:1946-1976 | From the first start or any restart through any later state, `reserved_count` of a slot is at least its number of active jobs, if and only if no recovery in between ended on a row that names the slot although the job no longer held it, with other jobs on it and no spare reservation |
| SchedulerReservations.CeilingsHoldExactlyWhen | src/account-runner-scheduler.ts:364-378 | Through any state the desired ceiling of a slot is at least its reserved count, if and only if no restart found more active jobs on it than that ceiling and released none of them |
| SchedulerReservations.ReservationsCoverActiveJobs | src/account-runner-scheduler.ts:815-869 | As long as no recovery uncovers a slot, active jobs <= reserved count <= desired ceiling |
| SchedulerReservations.StepKeepsCountExactlyWhen | src/account-runner-scheduler.ts:1957-1975 | The same for one step: of all steps of all entry points only such a recovery takes the count below the active jobs |
| SchedulerReservations.ReservationsAreAccountedFor | src/account-runner-scheduler.ts:1635-1660 | In every reachable state the reserved count is the number of active jobs plus what hand-overs to jobs that already held the slot and stale releases have added or taken since the last restart |
| SchedulerAccounting.StepAccounts | src/account-runner-scheduler.ts:1715-1761 | The exact effect of every step but a restart on a slot's surplus of reservations, in any state and for stale rows too; ceilings that cover the reservations go on covering them |
| SchedulerAccounting.RecoveryShifts | src/account-runner-scheduler.ts:1957-1975 | The exact effect of finishing a recovery on an arbitrary, possibly stale, row |
| SchedulerAccounting.RestartSettles | src/account-runner-scheduler.ts:364-378 | In any state, however wrong its counts, a restart makes the reserved count of every slot equal to its active jobs; the desired ceiling then covers it if and only if it covered the active jobs before or one of them was released |
| SchedulerAccounting.ReconcileSettles | src/account-runner-scheduler.ts:2024-2048 | Reconciliation restores equality from any state and leaves the rest of the row alone |
| SchedulerReservations.GrantedClaimIsCovered | src/account-runner-scheduler.ts:999-1088 | A granted claim is on a slot without an update in flight and asks for room for every active job on it; unless the job configures the slot, the recorded ceiling has been raised to the desired one and covers that too |
| SchedulerReservations.ReconfiguredSlotIsIdle | src/account-runner-scheduler.ts:696-717 | A slot chosen for a new machine configuration has no active job, as long as no recovery uncovered it since a restart |
| SchedulerReservations.ReductionStartsOnIdleSlot | src/account-runner-scheduler.ts:2127-2157 | When a ceiling reduction is started no active job is on the slot, whatever was admitted since the due slots were read, as long as no recovery uncovered it since a restart |
| SchedulerStories.CompletionDuringRecoveryReleasesTwice | src/account-runner-scheduler.ts:1957-1975 | A run from the first start in which a completion during a recovery leaves a running job on a slot with a reserved count of zero |
| SchedulerBudget.SlotHoldersFitTheAccount | src/account-runner-scheduler.ts:642-659 | In every reachable state the vCPU, memory and disk of all active jobs that hold a slot stay within the account limit |
| SchedulerProfiles.OfferedProfilesFitTheAccount | src/account-runner-scheduler.ts:797-881 | The same for all jobs whose profiles come from labels, with no further assumption |
| SchedulerAdmissions.AdmitsExactlyWhen | src/account-runner-scheduler.ts:797-881 | A job is admitted if and only if the head of the queue fits the account, there is a slot for it, and some choice of ceilings for idle slots fits with it; it is the head that is admitted |
| SchedulerAdmissions.FirstComeFirstServed | src/account-runner-scheduler.ts:797-803 | Whatever step of a run admits a job, every job left in the queue was submitted later, or at the same time under a larger identifier |
| SchedulerMachines.NoRoomIsLeftUnused | src/account-runner-scheduler.ts:797-881 | After any step that submits, ends or displaces a job, ends a configuration or ends an alarm, no admissible job heads the queue, unless that step has admitted another |
| SchedulerAdmissions.CustomSlotExactlyWhen | src/account-runner-scheduler.ts:696-717 | A custom job gets the least reserved slot that has its machine or is being given it, else an unreserved one to configure; none if and only if every custom slot is reserved or being configured for something else |
| SchedulerAdmissions.AdmissionCarriesOutItsPlan | src/account-runner-scheduler.ts:765-881 | Every other slot is left alone, or it is idle and lowered: due at once, with its operation recorded; with the ceilings asked for then all machines together fit the account |
| SchedulerAdmissions.ReductionScheduledExactlyWhen | src/account-runner-scheduler.ts:765-795 | A reduction lowers its slot and records the operation if and only if the slot is idle, not being updated and has more than the target; else nothing changes |
| SchedulerAdmissions.AdmissionDrainsInOrder | src/account-runner-scheduler.ts:765-795 | The slots it lowers were released before all others it might have lowered, and all but the last released are lowered to one |
| SchedulerMachines.EveryAdmissionFits | src/account-runner-scheduler.ts:765-881 | The same for every admission of every run |
| SchedulerMachines.JobsRunOnTheirMachine | src/account-runner-scheduler.ts:815-869 | As long as no recovery has uncovered a slot, every active job on it has asked for the machine the slot has, or is being given; an idle slot has none |
| SchedulerProfiles.OfferedProfilesGetTheirMachine | src/account-runner-scheduler.ts:815-869 | The same for the profiles labels can ask for, with no further assumption |
| SchedulerProfiles.PresetsHaveSlots | src/account-runner-scheduler.ts:555-606 | Every preset has a slot, which starts with the preset's machine |
| SchedulerConfigurations.WaitingClaimGrantedExactlyWhen | src/account-runner-scheduler.ts:1008-1052 | A waiting job's claim is granted if and only if its slot is neither held nor updated and the job owns the slot's configuration, or the slot is not being configured and has reached its desired ceiling |
| SchedulerConfigurations.ConfiguringAdmission | src/account-runner-scheduler.ts:815-869 | The job a slot is to be configured for owns the configuration; it is held back if and only if the account does not fit as it is, and otherwise the job's claim is granted with the admission's generation |
| SchedulerConfigurations.JoiningAdmission | src/account-runner-scheduler.ts:815-869 | A job that joins a configuration leaves it to its owner, and the hold is decided anew |
| SchedulerConfigurations.HoldsLiftExactlyWhen | src/account-runner-scheduler.ts:2050-2090 | When an alarm ends, a held configuration is let go if and only if the account fits with its machine as it is |
| SchedulerConfigurations.KeptHoldLowers | src/account-runner-scheduler.ts:2050-2090 | A hold that is kept has what its plan lowers lowered at once |
| SchedulerConfigurations.StartedClaimGrantedExactlyWhen | src/account-runner-scheduler.ts:1053-1088 | A claim of a job that is being provisioned or runs changes nothing and is granted if and only if its slot is neither held nor updated and has reached its desired ceiling |
| SchedulerConfigurations.RepeatedClaimGrantedExactlyWhen | src/account-runner-scheduler.ts:1053-1088 | A repeated claim is answered as before, unless it is for a configuration whose recorded ceiling is below the desired one: then it waits |
| SchedulerConfigurations.ConfigurationsAreTendedExactlyWhen | src/account-runner-scheduler.ts:1731-1747 | Through any state every slot being configured has its owner among its active jobs, if and only if no owner has left one on which reservations remained |
| SchedulerConfigurations.StepKeepsTendedExactlyWhen | src/account-runner-scheduler.ts:1635-1660 | The same for one step, with the four ways in which an owner leaves |
| SchedulerConfigurations.UntendedMakesWait | src/account-runner-scheduler.ts:1015-1017 | A consequence: on a slot without its owner every waiting job's claim waits |
| SchedulerDesertion.CancelledOwnerLeavesAJobWaiting | src/account-runner-scheduler.ts:1731-1747 | A run from the first start in which the owner is cancelled and another job is left waiting |
| SchedulerProvisioning.ConfigurationEndsExactlyForOwner | src/account-runner-scheduler.ts:1091-1112 | The owner alone makes the slot ready with the new machine, nothing pending and no hold |
| SchedulerProvisioning.EmptiedConfigurationIsDropped | src/account-runner-scheduler.ts:1731-1747 | The last job to leave a slot being configured makes it idle, without an owner |
| SchedulerBudget.HandOverKeepsBudget | src/account-runner-scheduler.ts:1618-1660 | A hand-over swaps jobs of equal profile keys and so of equal resources |
| SchedulerAlarm.NoJobIsForgotten | src/account-runner-scheduler.ts:904-939 | In every reachable state every stopped or releasing job has a recovery deadline and an alarm is armed no later than that deadline or the last scheduling, unless an alarm is being handled and no call has armed one since it fired |
| SchedulerAlarm.AlarmLeavesNothingDue | src/account-runner-scheduler.ts:1946-1976 | An alarm that fired at time t leaves no stopped or releasing job with a deadline at or before t |
| SchedulerAlarm.StepAttends | src/account-runner-scheduler.ts:1794-1872 | Every step outside an alarm keeps all deadlines, starts new ones with a full grace period, and arms the alarm whenever it starts one |
| SchedulerAttention.NothingIsForgotten | src/account-runner-scheduler.ts:904-939 | In every reachable state outside an alarm's handling an alarm is armed for every waiting job, capacity change, recovery and clean-up, no later than its time or the last scheduling |
| SchedulerAttention.SchedulingSchedules | src/account-runner-scheduler.ts:904-939 | A scheduling arms the alarm for the time of some stored work and for none later than any |
| SchedulerAttention.AlarmStaysArmed | src/account-runner-scheduler.ts:904-939 | An armed alarm stays armed until it fires |
| SchedulerUpdates.DueRowsExactly | src/account-runner-scheduler.ts:2130-2140 | An alarm acts on a slot exactly when its change is due, reductions first, each kind in slot order |
| SchedulerUpdates.OneUpdateAtATime | src/account-runner-scheduler.ts:2092-2157 | Between two updates of a slot in a run the first was reported done, put off, or found stalled, with its operation settled or a minute old |
| SchedulerUpdates.DesiredSinceAssignment | src/account-runner-scheduler.ts:1733-1747 | In every reachable state the desired ceiling is the target of the operation of the slot's generation until a release; then it is the larger of recorded ceiling and reserved count after the last release |
| SchedulerUpdates.RecordedIsRealExactlyWhen | src/account-runner-scheduler.ts:1114-1141 | The recorded ceiling is the platform's through any state, if and only if no completion so far recorded another ceiling than the platform was given for it |
| SchedulerUpdates.UpdateLagsExactlyWhen | src/account-runner-scheduler.ts:2142-2184 | Every completion of an alarm's update does that if and only if the operation's target is not what the update makes of the ceiling recorded by then; it asks for that target, or, if the slot was released between the assignment of the generation and the read, for what the last such release left, as a reduction if that was below the ceiling in the row it read. Without an operation, if and only if the update moves the recorded ceiling |
| SchedulerUpdates.UpdateLagsExactlyWhenReleased | src/account-runner-scheduler.ts:2142-2184 | In the special case that the recorded ceiling is still the one in the row, this is so if and only if the slot was released after the generation was assigned and before the row was read, and the last such release left a larger of recorded ceiling and reserved count other than the operation's target; without an operation, if and only if the row asks for a change |
| SchedulerUpdates.ConfigurationLagsExactlyWhen | src/runner-provisioning-workflow.ts:193-203 | The completion of a configuration does it if and only if the claim found another reserved count than the generation was assigned with |
| SchedulerUpdates.GrantedClaimFitsThePlatform | src/account-runner-scheduler.ts:999-1088 | A granted claim that configures nothing fits the platform's own ceiling, followed from report to report, as long as no completion on its slot recorded another ceiling than the platform was given and no recovery uncovered it |
| SchedulerPlatform.BackedExactlyWhen | src/account-runner-scheduler.ts:2092-2205 | Requests may take effect at any moment after they were made, reported or not: through any point a ready slot without an update in flight has at least the recorded ceiling on the platform, if and only if no step and no request exposed it |
| SchedulerPlatform.StepKeepsBackedExactlyWhen | src/account-runner-scheduler.ts:1090-1141 | Of all steps only three kinds expose a slot: a completion whose target is more than the platform has, an update given up after it took effect, and the end of a configuration that lowered the ceiling below the recorded one |
| SchedulerPlatform.GrantedClaimIsBacked | src/account-runner-scheduler.ts:999-1088 | A claim granted on a ready slot fits what the platform has at that moment, as long as nothing exposed the slot and no recovery uncovered it |
| SchedulerPlatform.ReportedHistory | src/account-runner-scheduler.ts:2158-2184 | If every request takes effect when it is reported done, the platform's ceiling is the one followed from report to report |
| SchedulerStories.LostReductionGrantsBeyondThePlatform | src/account-runner-scheduler.ts:2184-2205 | A run from the first start in which a reduction takes effect, its answer is lost, and two claims are granted where the platform has room for one |
| SchedulerUpdates.AdmissionWithinCeiling | src/account-runner-scheduler.ts:815-869 | An admission within the recorded ceiling asks for that ceiling, records no operation, leaves nothing due, and its claim is granted |
| SchedulerProgress.AdmissionBeyondCeiling | src/account-runner-scheduler.ts:815-869 | An admission beyond the recorded ceiling asks for one instance more than is reserved; its job waits and the increase is due exactly from five seconds later |
| SchedulerProgress.AdmissionDuringUpdate | src/account-runner-scheduler.ts:815-869 | An admission during an update records an operation of its own, and what is missing after that update's report is due five seconds after the admission |
| SchedulerProgress.IncreaseReachesDesired | src/account-runner-scheduler.ts:2142-2184 | An increase started and reported with nothing in between reaches the desired ceiling, leaves nothing due, and frees the claims that waited for it |
| SchedulerProgress.DeferredUpdateIsTriedAgain | src/account-runner-scheduler.ts:2166-2205 | An update that failed is tried again, five seconds later if it is an increase under the same generation |
| SchedulerProgress.StalledUpdatesAreFreed | src/account-runner-scheduler.ts:2092-2125 | A restart or an alarm leaves only live updates in flight, and a freed increase is due at once |
| SchedulerProgress.ReportSettles | src/account-runner-scheduler.ts:1124-1141 | A report settles its generation's operation, gives up older pending ones and leaves newer ones |
| SchedulerUpdates.ReleaseDuringIncreaseOutdates | src/account-runner-scheduler.ts:1733-1747 | A step of that run for any slot: releasing its last job while an increase is in flight leaves a reduction due under the increase's operation (follows from the definitions) |
| SchedulerUpdates.OutdatedReductionRepeats | src/account-runner-scheduler.ts:2142-2184 | Such a reduction starts, completes and leaves the slot due again with the same recorded ceiling |
| SchedulerStories.GrantsBeyondThePlatform | src/account-runner-scheduler.ts:1114-1141 | A run from the first start in which that happens and two claims are granted where the platform has room for one |
| SchedulerCeilings.StepMoves | src/account-runner-scheduler.ts:815-869 | What every step does to a slot's ceilings: without a new generation only a release moves the desired one, only a report the recorded one, and assigned operations keep their targets |
| SchedulerLifecycle.FinalStatusLeftExactlyByHandOver | src/account-runner-scheduler.ts:1648-1660 | A completed, cancelled or failed job leaves that status exactly when another job's runner is handed over to it |
| SchedulerLifecycle.FinalStatusLasts | src/account-runner-scheduler.ts:1648-1660 | Over a whole run a final status lasts until the first such hand-over |
| SchedulerEndings.EndingsAreExplained | src/account-runner-scheduler.ts:1715-1865 | In every reachable state a job is cancelled only if GitHub reported it complete while it waited, completed only if GitHub reported it complete when it no longer did, failed only if its provisioning failed or its Container stopped |
| SchedulerEndings.CompletionHoldsExactlyWhen | src/account-runner-scheduler.ts:1794-1827 | From GitHub's completion on a job stays over, or releasing, through any later state, if and only if no report in between hands a runner to it or takes its runner for another job |
| SchedulerEndings.CompletionEnds | src/account-runner-scheduler.ts:1794-1827 | A completion cancels a job that waits, completes one whose Container has stopped, and gives any other a deadline of 30 seconds |
| SchedulerEndings.StoppedContainerEnds | src/account-runner-scheduler.ts:1829-1872 | A stopped Container completes a releasing job and gives any other active one that deadline |
| SchedulerEndings.RecoveryEnds | src/account-runner-scheduler.ts:1874-1976 | A recovery ends its job as completed or failed by the row it read, and its runner is deleted or tried again a minute after the first try |
| SchedulerEndings.CleanupEnds | src/account-runner-scheduler.ts:1978-1993 | The same for a clean-up that is tried again |
| SchedulerStories.CompletedJobIsQueuedAgain | src/account-runner-scheduler.ts:1618-1647 | A run from the first start in which a job that GitHub has reported complete is put back into the queue |
| SchedulerEndings.JobsAreAsSubmitted | src/account-runner-scheduler.ts:941-997 | In every reachable state a job has the repository, the profile and the creation time of its first submission |
| SchedulerEndings.RunnerIsTheJobsOwn | src/account-runner-scheduler.ts:1156-1203 | In every reachable state the runner id in a job, which a recovery would delete, was created or reported under the job's runner name |
| SchedulerEndings.ReportAttaches | src/account-runner-scheduler.ts:1537-1678 | What a report that moves a runner leaves: the reported job running on it with the id the report or the owner knows, on the owner's slot or its own; the owner waiting for its next attempt |
| SchedulerEndings.ReportDisplacesExactlyWhen | src/account-runner-scheduler.ts:1591-1625 | It does so for an owned runner if and only if owner and job differ, the owner has a slot, and both are of the reported repository and profile |
| SchedulerEndings.ReportAdoptsExactlyWhen | src/account-runner-scheduler.ts:1545-1570 | And for an unowned one if and only if it was created for a job of that kind and the job is queued, admitted or running |
| SchedulerEndings.ReportConfirms | src/account-runner-scheduler.ts:1591-1612 | Any other report changes nothing but the owner's confirmation |
| SchedulerAssignments.ObservedRunnerIsAssignedAsReported | src/account-runner-scheduler.ts:1680-1713 | In every reachable state an observed runner is assigned to the job GitHub reported on it, of the repository and profile of the job it was created for |
| SchedulerAssignments.ReportedRunnerStaysObserved | src/account-runner-scheduler.ts:1680-1713 | A report that fits the runner's row makes it observed, through any later state until that runner is created again |
| SchedulerAssignments.CacheIsOfReportedJob | src/account-runner-scheduler.ts:1225-1304 | In every reachable state a runner may use the cache of one job only, the one GitHub reported on it |
| SchedulerAssignments.ReportGivesCache | src/account-runner-scheduler.ts:1225-1304 | After such a report the runner may use that job's cache in the reported repository, through any later state until it is created again |
| SchedulerProvisioning.ProvisionedJobGetsItsCache | src/account-runner-scheduler.ts:999-1200 | A job whose claim is granted, whose runner is created, started and reported runs and may use the cache of its repository |
| SchedulerProvisioning.FailureEndsExactlyWhen | src/account-runner-scheduler.ts:1763-1792 | A failure report ends a job if and only if it is being provisioned under the reported name |
| CapacityPlanning.PlanExactlyWhenFeasible | src/scheduler-policy.ts:141-189 | A plan is returned exactly when some choice of ceilings in [1, applied] for the idle donors fits the limit |
| CapacityPlanning.PlanTotal | src/scheduler-policy.ts:141-189 | `configured` is the recomputed total after applying the plan, which is one of those choices and fits |
| CapacityPlanning.PlanCutsLeastPrefix | src/scheduler-policy.ts:157-186 | The donors cut are a least-recently-released prefix, drained except possibly the last, and giving the last one unit back would not fit |
| CapacityPlanning.CutIsLeast | src/scheduler-policy.ts:122-134 | One instance less from a donor would leave some resource above the limit |
| CapacityPlanning.CutResolves | src/scheduler-policy.ts:122-134 | A donor that is not drained brings every resource within the limit |
| SchedulerPolicy.PlanConfiguredCapacity | src/scheduler-policy.ts:141-189 | The planning loop returns the specified plan |
| SchedulerPolicy.DrainDonors | src/scheduler-policy.ts:170-186 | The reclamation loop with its running total computes the recursive reclamation |
| SchedulerPolicy.Donors | src/scheduler-policy.ts:157-168 | The donors are exactly the idle ready slots that may be lowered, in order of release and name |
| SchedulerPolicy.UnitsFor | src/scheduler-policy.ts:122-134 | The fewest whole instances that free an amount of one resource |
| SchedulerPolicy.SelectCustomSlot | src/scheduler-policy.ts:195-218 | A serving slot with the fewest reservations is shared; only without one is the first free slot given a new shape; nothing is chosen only if there is neither |
| AccountScheduler.AccountRunnerScheduler.NextQueuedJob | src/account-runner-scheduler.ts:797-803 | Finds the oldest queued job, ties by identifier |
| AccountScheduler.AccountRunnerScheduler.ReservedTotals | src/account-runner-scheduler.ts:642-655 | Sums the resources of all active jobs |
| AccountScheduler.AccountRunnerScheduler.AdmitNext | src/account-runner-scheduler.ts:797-881 | Admits at most the next queued job, as the model's step does |
| AccountScheduler.AccountRunnerScheduler.ScheduleCapacityReclamation | src/account-runner-scheduler.ts:765-795 | The loop over reductions takes the slot and operation tables where the recursive specification does |
| AccountScheduler.AccountRunnerScheduler.ScheduleWorkAlarmIfNeeded | src/account-runner-scheduler.ts:904-939 | Arms the alarm for the earliest of all due times, or now if that has passed |
| AccountScheduler.AccountRunnerScheduler.Submit | src/account-runner-scheduler.ts:941-997 | The whole state after a submission |
| AccountScheduler.AccountRunnerScheduler.ClaimProvisioning | src/account-runner-scheduler.ts:999-1089 | The answer to a claim and the whole state after it |
| AccountScheduler.AccountRunnerScheduler.ConfigurationReady | src/account-runner-scheduler.ts:1091-1112 | The whole state after a configuration report |
| AccountScheduler.AccountRunnerScheduler.CapacityPrepared | src/account-runner-scheduler.ts:1114-1149 | The whole state after a capacity update finished |
| AccountScheduler.AccountRunnerScheduler.RunnerProvisioned | src/account-runner-scheduler.ts:1156-1203 | The whole state after a JIT runner was created |
| AccountScheduler.AccountRunnerScheduler.RunnerStarted | src/account-runner-scheduler.ts:1205-1218 | Every provisioning job of that runner name, and nothing else, is running |
| AccountScheduler.AccountRunnerScheduler.WorkflowJobStarted | src/account-runner-scheduler.ts:1537-1678 | Adoption, confirmation, hand-over or refusal, with the whole state after it |
| AccountScheduler.AccountRunnerScheduler.ReleaseJob | src/account-runner-scheduler.ts:1715-1761 | The slot and job rows after a release |
| AccountScheduler.AccountRunnerScheduler.ProvisioningFailed | src/account-runner-scheduler.ts:1763-1792 | The whole state after a failure report; only the owner of the attempt is heard |
| AccountScheduler.AccountRunnerScheduler.WorkflowJobCompleted | src/account-runner-scheduler.ts:1794-1827 | The whole state after GitHub reported completion |
| AccountScheduler.AccountRunnerScheduler.RunnerStopped | src/account-runner-scheduler.ts:1829-1872 | The whole state after a Container stopped |
| AccountScheduler.AccountRunnerScheduler.StoppedJobsDue | src/account-runner-scheduler.ts:1946-1955 | Exactly the stopped jobs that are due, in order of deadline and identifier |
| AccountScheduler.AccountRunnerScheduler.FinishRecovery | src/account-runner-scheduler.ts:1957-1975 | The whole state after one turn of the recovery loop, with the row as it was read |
| AccountScheduler.AccountRunnerScheduler.RecoverStalledCapacityUpdates | src/account-runner-scheduler.ts:2092-2125 | Frees exactly the updates without a live pending operation |
| AccountScheduler.AccountRunnerScheduler.SelectCapacityUpdates | src/account-runner-scheduler.ts:2127-2141 | The due slots after stalled updates were freed, reductions first |
| AccountScheduler.AccountRunnerScheduler.StartCapacityUpdate | src/account-runner-scheduler.ts:2142-2157 | Claims a slot for one change exactly when its generation is unchanged and no update is in flight |
| AccountScheduler.AccountRunnerScheduler.DeferCapacityUpdate | src/account-runner-scheduler.ts:2166-2205 | The slot row after a change failed or was put off |
| AccountScheduler.AccountRunnerScheduler.ReleaseConfigurationCapacityHolds | src/account-runner-scheduler.ts:2050-2090 | The tables after all configuring slots were planned again |
| AccountScheduler.AccountRunnerScheduler.ReconcileSlotReservations | src/account-runner-scheduler.ts:2024-2048 | Every reserved count is the number of active jobs on its slot |
| AccountScheduler.AccountRunnerScheduler.Restart | src/account-runner-scheduler.ts:364-378 | The whole state after the object is constructed over existing tables |
| AssignmentSweep.ReconcileAttempt.Sweep | src/account-runner-scheduler.ts:1388-1431 | However a cycle is cut into sweeps, a job that stays eligible is probed at most once before the cursor resets and exactly once when it does; a cut sweep lowers the cursor to its last probe |
| AssignmentSweep.CycleProbesOnce | src/account-runner-scheduler.ts:1388-1431 | However many sweeps a cycle is cut into, no job is probed twice in it, and when it is done every job eligible throughout has been probed exactly once |
| AssignmentSweep.CursorFalls | src/account-runner-scheduler.ts:1406-1431 | The cursor falls by at least one for every probe of a cycle, so it bounds the sweeps that are left |
| AssignmentSweep.Candidates | src/account-runner-scheduler.ts:1389-1403 | The page query: at most nine rows below the cursor, descending, with nothing passed over |
| ImageBuilderLeases.FenceEndsExactlyWhen | src/runner-image-builder.ts:386-634 | A step ends a rollout lease if and only if its owner finishes, a reconciliation of the stored record finds no rollout, or a suspended call overwrites the record in one of seven ways |
| ImageBuilderLeases.FenceHolds | src/runner-image-builder.ts:720-796 | A granted lease stays through any later state, under every interleaving, if and only if no step in between does one of these |
| ImageBuilderLeases.OverwritingCallIsStale | src/runner-image-builder.ts:415-460 | A consequence of that list: whatever overwrites a lease read another record than the one it overwrites |
| ImageBuilderStories.LateFinalizationLosesLease | src/runner-image-builder.ts:605-634 | A run in which the second of two overlapping finalizations does, and the next workflow's start claims the slot |
| ImageBuilderStories.LatePollLosesLease | src/runner-image-builder.ts:701-718 | A run in which the second of two overlapping polls does |
| ImageBuilderStories.ClearingStartLosesLease | src/runner-image-builder.ts:445-460 | A run in which a start that waited for the previous Container to be destroyed does |
| ImageBuilderStories.DeletingStartLosesLease | src/runner-image-builder.ts:426-460 | A run in which a start that waited for the released archive to be deleted does |
| ImageBuilderStories.LateReleaseLosesLease | src/runner-image-builder.ts:386-413 | A run in which the release of an expired slot deletes the record of the rollout granted meanwhile |
| ImageBuilderStories.LateReconciliationLosesLease | src/runner-image-builder.ts:531-549 | A run in which a late answer that no rollout is in progress ends the lease its owner had renewed |
| ImageBuilderStories.StaleRenewalLosesLease | src/runner-image-builder.ts:531-549 | A run in which a late answer that a rollout is in progress puts the older workflow's lease over the newer one |
| ImageBuilderLeases.GrantedImageIsOwn | src/runner-image-builder.ts:721-751 | A rollout lease is granted only for the image written by the process that the same workflow's latest claim started, as long as no call writes a record and no start launches a builder from before a newer claim |
| ImageBuilderLeases.ResultsAreOwnExactlyWhen | src/runner-image-builder.ts:605-718 | Through any state every stored and every carried result is its workflow's own, if and only if no poll read a file of another process and no call wrote its result after its workflow had claimed again |
| ImageBuilderLeases.StepKeepsResultsOwnExactlyWhen | src/runner-image-builder.ts:605-718 | The same for one step |
| ImageBuilderLeases.StepKeepsExclusiveExactlyWhen | src/runner-image-builder.ts:415-524 | A step puts an old claim's builder into the Container if and only if a start whose claim is not the last launches it |
| ImageBuilderStories.LatePollGrantsForeign | src/runner-image-builder.ts:636-718 | A run in which a poll from before a newer claim makes a workflow roll out the newer workflow's image |
| ImageBuilderStories.SharedContainerGrantsForeign | src/runner-image-builder.ts:445-460 | A run in which two starts that waited for one Container both claim, build side by side, and the later rolls out the other's image |
| ImageBuilderOutcomes.StartClaimsUnlessTaken | src/runner-image-builder.ts:415-460 | A start changes nothing while the slot is taken; otherwise it claims it for seventy minutes after at most three waits that end well |
| ImageBuilderOutcomes.FailedStartGivesUpItsSlot | src/runner-image-builder.ts:461-530 | A failed start frees the slot if it is still its own and the Container goes, else leaves a failed build for the next status call; another's slot it leaves alone |
| ImageBuilderOutcomes.AbortFreesExactlyItsOwn | src/runner-image-builder.ts:781-795 | An abort frees the slot if and only if the workflow builds in it and the Container goes |
| ImageBuilderOutcomes.BuildEndsAsItsProcess | src/runner-image-builder.ts:605-718 | A build completes with its result if and only if its process exited with zero and left one, and fails with its exit code, or one, otherwise |
| ImageBuilderOutcomes.AttemptIsUnderWayExactlyUntilCompleted | src/runner-image-builder.ts:720-778 | While a lease lasts, an attempt is under way from its grant until it is reported complete, but for a stale renewal |
| ImageBuilderOutcomes.LeaseLastsFiveMinutes | src/runner-image-builder.ts:531-549 | A grant or a renewal keeps the slot taken for exactly five minutes |
| ImageBuilderOutcomes.GrantedExactlyWhen | src/runner-image-builder.ts:721-751 | A lease is granted if and only if the record is the workflow's complete build, or its rollout, of that image |
| ImageBuilder.RunnerImageBuilder.StartBuild | src/runner-image-builder.ts:415-460 | The object after a start up to its claim or first wait, what it waits with, and who owns the slot: owner or not exactly while a lease lasts |
| ImageBuilder.RunnerImageBuilder.FinishRelease | src/runner-image-builder.ts:386-413 | The object after a release: cleared without reading again, or kept while the Container cannot be stopped, with a failure record if a start had failed |
| ImageBuilder.RunnerImageBuilder.BuildStatus | src/runner-image-builder.ts:636-678 | Completed with the stored result if and only if the record is complete, failed with the stored code, or one without a record, if and only if it is failed or absent, running if and only if a rollout's lease has not expired; otherwise which call it waits for, with the record it read |
| ImageBuilder.RunnerImageBuilder.FinishPoll | src/runner-image-builder.ts:679-718 | A result is stored before anything is cleaned up |
| ImageBuilder.RunnerImageBuilder.BeginRollOut | src/runner-image-builder.ts:721-751 | Acquired exactly for the stored workflow and image, with a repeat asked for exactly when an earlier attempt may have been cut off |
| ImageBuildWorkflow.Run | src/runner-image-build-workflow.ts:308-436 | The run succeeds exactly when the first build it owned completed after earlier rounds only waited, a rollout pass under an unbroken lease left no application behind, and no step before that threw; it deploys that build's image |
| ImageBuildWorkflow.OwnBuildIsUnique | src/runner-image-build-workflow.ts:308-376 | A run deploys at most one image |
| ImageBuildWorkflow.Build | src/runner-image-build-workflow.ts:308-382 | Which of the five ways the queue rounds end, a step that throws included |
| CacheQuotaModel.EvictKeepsLongestSuffix | src/runner-cache-quota.ts:197-214 | Eviction ends within the maximum and removes exactly the shortest run of oldest entries, by (created_at, entry_key), that achieves it |
| CacheQuotaModel.EvictDeletesTheirObjects | src/runner-cache-quota.ts:197-214 | The objects deleted are exactly those of the evicted entries |
| CacheQuotaModel.PrecedesExactlyWhen | src/runner-cache-quota.ts:188-195 | Ties are broken by the binary order of the keys: the one that ends first, or has the smaller character where they first differ |
| CacheQuota.RunnerCacheQuota.EnforceQuota | src/runner-cache-quota.ts:197-214 | The loop terminates with its running total always the recomputed sum, and performs that eviction |
| CacheQuota.RunnerCacheQuota.SumBytes | src/runner-cache-quota.ts:181-186 | The sum of all entry sizes |
| CacheQuota.RunnerCacheQuota.OldestEntry | src/runner-cache-quota.ts:188-195 | The first entry by (created_at, entry_key), or none |
| CacheQuota.RunnerCacheQuota.RecordLegacyCache | src/runner-cache-quota.ts:216-237 | Index and bucket after a legacy record, within the maximum, and whether it was retained |
| CacheQuota.RunnerCacheQuota.CommitActionCache | src/runner-cache-quota.ts:239-297 | Index, bucket and answer after a commit |
| CacheCommits.FirstCommitStays | src/runner-cache-quota.ts:239-297 | Once committed, manifest and archive stay as they are through all commits and retries, those of missing archives included and with any maximum at each call, until an eviction removes both together or the commit's own retry finds the archive above the maximum, which deletes the archive and leaves the manifest |
| CacheCommits.StoredCommitIsHeldExactlyWhenPresent | src/runner-cache-quota.ts:281-295 | After a stored commit the total is within the maximum, and unless the commit was evicted at once both objects are there if and only if its archive still was |
| CacheCommits.CommitOfEvictedArchiveDangles | src/runner-cache-quota.ts:251-295 | A run in which an archive is evicted before its commit, which then leaves a manifest without an archive |
| CacheCommits.DanglingManifestBlocksItsKey | src/runner-cache-quota.ts:256-279 | A consequence for later saves: whoever saves under the key of such a manifest loses the new archive (follows from the definitions) |
| CacheCommits.RetryIsHarmlessExactlyWithinMaximum | src/runner-cache-quota.ts:243-268 | The guard behind the second way a pair is lost: retrying the winner changes nothing and is answered as stored, exactly when its archive is within the maximum (follows from the definitions) |
| CacheCommits.LoserDeletesOnlyItsArchive | src/runner-cache-quota.ts:274-279 | A losing commit deletes its own archive and leaves every committed pair in place |
| CacheCommits.CommitAnswersExactly | src/runner-cache-quota.ts:243-297 | Too large, stored or taken, each if and only if; the archive is deleted unless the answer is stored |
| CacheCommits.RebuiltIndexIsOk | src/runner-cache-quota.ts:86-179 | A rebuilt index satisfies the invariant those theorems start from |
| CacheQuota.RunnerCacheQuota.EnsureIndex | src/runner-cache-quota.ts:86-179 | From any paging and over any table an interrupted rebuild has left, the loops make every entry that belongs current and touch no other |
| CacheRebuild.RebuiltIsIndexExactlyWhen | src/runner-cache-quota.ts:86-179 | The result is the index of the bucket if and only if every entry found in the table still belongs |
| CacheRebuild.RebuildCountsOnce | src/runner-cache-quota.ts:117-174 | Every archive and legacy object is accounted for exactly once if and only if no two valid manifests name the same archive |
| CacheRebuild.RebuildTotals | src/runner-cache-quota.ts:117-174 | The indexed total is then the total size of those objects |
| CacheRebuild.WrittenNamesAreSorted | src/runner-cache-quota.ts:104-114 | The names given to manifests, archives and legacy caches are sorted as what they are |
| CacheRebuild.OtherNamesAreLeftOut | src/runner-cache-quota.ts:104-114 | Any other object beside manifests and archives is left out |
| CacheAges.ManifestHasEntryExactlyWhen | src/runner-cache-quota.ts:128-160 | A manifest has an entry if and only if it can be read and names an object under the archives that is there |
| CacheAges.OtherObjectsHaveEntries | src/runner-cache-quota.ts:117-173 | Every legacy object has an entry, and an archive is pending if and only if no manifest with an entry names it |
| CacheAges.EarlierIsOlder | src/runner-cache-quota.ts:119-173 | Of two entries of a rebuilt index the one uploaded, or committed, earlier is evicted earlier |
| CacheAges.CommitComesBack | src/runner-cache-quota.ts:145-160 | The entry a commit inserted is the one a rebuild over its bucket makes |
| CacheAges.RecordComesBackExactlyWhen | src/runner-cache-quota.ts:117-126 | The entry of a recorded legacy cache comes back equal if and only if it gave the object's size and upload time |
| RunnerProfiles.AcceptedExactly | src/runner-profiles.ts:142-212 | A label is accepted exactly when it spells, in any case and with any leading zeros, a machine with 1 <= v <= 4, 3072v <= m <= 12288, 1 <= d <= 20000 and 1024d <= 2000m |
| RunnerProfiles.AcceptedExactlyWhenAllowed | src/runner-profiles.ts:142-212 | The profile of an accepted label is that machine's |
| RunnerProfiles.CanonicalLabelRoundTrip | src/runner-profiles.ts:197-211 | Parsing the printed canonical label gives back the same profile |
| RunnerProfiles.AcceptedLabelsReachFixedPoint | src/runner-profiles.ts:142-212 | Any accepted spelling reaches the same fixed point |
| RunnerProfiles.LabelMeansExactly | src/runner-profiles.ts:227-262 | A label asks for a machine if and only if it names a preset or spells an allowed machine, and is wrong if and only if it is spelled like a machine that is not allowed, or begins like the pool's labels and is none |
| RunnerProfiles.RejectedExactlyFor | src/runner-profiles.ts:142-197 | A label of the right form is rejected for a number above 2^53 - 1 alone, else with every limit it breaks, and only if it breaks one |
| RunnerProfiles.CaseDoesNotMatter | src/runner-profiles.ts:227-262 | Labels that differ in case only mean the same |
| RunnerProfiles.PresetsAreNamed | src/runner-profiles.ts:53-126 | Every preset is asked for under its own name, and the Ubuntu alias is the third |
| RunnerProfiles.LargePresetsAreAllowedMachines | src/runner-profiles.ts:90-120 | Three presets are allowed custom machines, and no allowed machine has more than the last |
| RunnerProfiles.KeyNamesOneProfile | src/runner-profiles.ts:53-120 | Equal profile keys mean equal profiles, so equal resources |
| RunnerProfiles.SelectRunnerProfile | src/runner-profiles.ts:227-275 | Invalid exactly with a wrong label, none exactly when all are silent, conflicting exactly with two keys, otherwise the one profile all labels ask for |
| RunnerProfiles.ParseCustomRunnerLabel | src/runner-profiles.ts:142-212 | The method computes the specified result, errors in order |
| CustomLabels.MatchExactly | src/runner-profiles.ts:128-128 | The pattern matches exactly the prefix, three digit strings and their separators, in one way |
| DerEncoding.WrappedKeyRoundTrip | src/github-app.ts:158-177 | Decoding `pkcs1ToPkcs8(key)` as PrivateKeyInfo gives exactly `key`, if and only if the key is shorter than 2^32 - 24 octets |
| DerEncoding.ElementRoundTrip | src/github-app.ts:140-146 | Decoding an element returns tag, contents and rest, if and only if the contents are shorter than 2^32 |
| DerEncoding.LengthRoundTrip | src/github-app.ts:129-138 | Length octets decode to the length, if and only if it is below 2^32 |
| DerEncoding.LengthModulo | src/github-app.ts:129-138 | The long form decodes to the length modulo 2^32 |
| DerEncoding.AlgorithmIsRsaEncryption | src/github-app.ts:158-177 | The algorithm identifier is the encoding of 1.2.840.113549.1.1.1 and NULL |
| DerEncoding.LengthIsShortest | src/github-app.ts:129-138 | No length octets for the same length are shorter, as section 10.1 of X.690 requires |
| DerEncoding.LengthIsMinimal | src/github-app.ts:129-138 | The length octets have the minimal form |
| DerEncoding.DerLength | src/github-app.ts:129-138 | The shifting loop computes the specified octets |
| DerEncoding.EncodeDer | src/github-app.ts:140-146 | The filled buffer is tag, length octets and contents |
| DerEncoding.Concat | src/github-app.ts:148-156 | The filled buffer is the concatenation of all arguments |
| DerEncoding.Pkcs1ToPkcs8 | src/github-app.ts:158-177 | The filled buffer is the wrapped key |

## Left out

- ImageBuilderLeases.GrantedImageIsOwn: one direction only, under a condition callers can keep; ResultsAreOwnExactlyWhen is the exact one.
- SchedulerUpdates.RecordedIsRealExactlyWhen: takes the platform's ceiling to change when a request is reported done, and a report to belong to the last request under its generation; SchedulerPlatform follows requests that take effect at any other moment.
- SchedulerUpdates.GrantedClaimFitsThePlatform: speaks of that ceiling; SchedulerPlatform.GrantedClaimIsBacked is the statement without it.
- SchedulerPlatform.BackedExactlyWhen: a request changes the ceiling in one go, as a minimum, a maximum or a set value; changes made by others than the scheduler and its Workflows are not followed.
- ImageBuilderModel: a poll is one read, although the source runs several commands; and a successful destroy removes the Container at the moment the call ends, so one that resolves late and leaves a newer Container running cannot be expressed.
- CacheCommits.FirstCommitStays: assumes that an archive is uploaded with one size and for one manifest key.
- CacheRebuild.RebuildCountsOnce: assumes that valid manifests name archives that do not end in `.json`, and that nothing else writes to the bucket during the rebuild.
- AssignmentSweep.ReconcileAttempt.Sweep: covers the candidate scan only, not the listing by workflow run, the polling interval or the pruning of old entries.
- SchedulerAssignments.CacheIsOfReportedJob: how long a completed job's row still answers, and the look-up on GitHub that follows when no row does.
- Returned admission lists, queue reasons, the event table, cache scopes, head commits and the status page of the scheduler.
- Calls without a runner name and rows from before the schema migrations.
- Case-insensitive comparison of owner and repository: a repository is one string that is already normalized.
- The clean-up attempt counter and the stop details of a job row.
- The bootstrap claim of the image builder: a smaller lease of the same kind; stopping the Container for it is an event.
- The source archive, progress records, diagnostics and the parsing of builder output.
- The clean-up after a failed build Workflow.
- Upload, download and restore requests of the cache.
- The text form of memory and disk sizes in a profile, and the wording of label errors.
- HMAC, JWT signing, base64 and all HTTP.
