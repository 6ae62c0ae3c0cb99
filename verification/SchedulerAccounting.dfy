/** The exact effect of every step on every slot's reservation account, in any state. */
module SchedulerAccounting {
  import opened SchedulerCapacity
  import opened SchedulerModel
  import opened Wrappers

  /** The runner is handed to a job that already holds a slot. */
  ghost predicate HandsOverToHolder(s: State, e: Event, i: SlotIndex) {
    && e.AssignmentReported?
    && e.owner.Some?
    && HandsOver(s, e.claim, e.owner.value)
    && s.jobs[e.claim.id].Holds() == Some(i)
  }

  /**
   * The job that a step releases and the slot it names for it: a recovery takes both from the row it read before the
   * job's runner was deleted, everyone else from the job as it is.
   */
  ghost function Frees(s: State, e: Event, now: int): Option<Freeing>
    requires Possible(s, e, now)
    ensures Frees(s, e, now).Some? ==> Frees(s, e, now).value.id in s.jobs
  {
    match e
    case ProvisioningFailure(id, runnerName) =>
      if CanStart(s, id, runnerName) then Some(Freeing(id, s.jobs[id].slot)) else None
    case CompletionReported(id) =>
      if id in s.jobs && (s.jobs[id].status.Waiting() || s.jobs[id].status.StoppedAwaitingCompletion?) then
        Some(Freeing(id, s.jobs[id].slot))
      else
        None
    case ContainerStopped(_, row) =>
      if row.Some? && s.jobs[row.value].status.Releasing? then Some(Freeing(row.value, s.jobs[row.value].slot)) else None
    case RecoveryFinished(_) =>
      var row := s.run.rows[0]; if row.id in s.jobs then Some(Freeing(row.id, row.job.slot)) else None
    case _ => None
  }

  /** What one step does to the surplus of a slot. */
  ghost function Change(s: State, e: Event, now: int, i: SlotIndex): int
    requires Possible(s, e, now)
  {
    (if HandsOverToHolder(s, e, i) then 1 else 0)
    + (if Frees(s, e, now).Some? then Drift(s, Frees(s, e, now).value, i) else 0)
  }

  // ---------------------------------------------------------------- single entry points

  lemma {:induction false} ReleaseAndAdmitShifts(
      s: State, id: JobId, slot: Option<SlotIndex>, status: Status, now: int, i: SlotIndex)
    requires id in s.jobs && status.Terminal()
    ensures Shifted(s, AdmitNext(ReleaseJob(s, id, slot, status, now), now), i, Drift(s, Freeing(id, slot), i))
  {
    var t := ReleaseJob(s, id, slot, status, now);
    ReleaseShifts(s, id, slot, status, now, i);
    AdmitNextBalanced(t, now, i);
    hide AdmitNext, ReleaseJob, Shifted, Drift;
    ShiftsAdd(s, t, AdmitNext(t, now), i, Drift(s, Freeing(id, slot), i), 0);
  }

  lemma {:induction false} SchedulingShifts(s: State, t: State, now: int, i: SlotIndex, delta: int)
    requires Shifted(s, t, i, delta)
    ensures Shifted(s, ScheduleAlarm(t, now), i, delta)
  {
    hide DueTimes;
  }

  lemma {:induction false} ReleaseStepShifts(
      s: State, id: JobId, slot: Option<SlotIndex>, status: Status, now: int, i: SlotIndex)
    requires id in s.jobs && status.Terminal()
    ensures Shifted(s, ScheduleAlarm(AdmitNext(ReleaseJob(s, id, slot, status, now), now), now), i, Drift(s, Freeing(id, slot), i))
  {
    ReleaseAndAdmitShifts(s, id, slot, status, now, i);
    hide AdmitNext, ReleaseJob, Drift;
    SchedulingShifts(s, AdmitNext(ReleaseJob(s, id, slot, status, now), now), now, i, Drift(s, Freeing(id, slot), i));
  }

  lemma {:induction false} NewJobBalanced(s: State, id: JobId, job: Job, i: SlotIndex)
    requires id !in s.jobs && job.status.Queued? && job.slot.None?
    ensures Balanced(s, s.(jobs := s.jobs[id := job]), i)
  {
    PutCount(s.jobs, id, job, i);
    assert id !in ActiveOn(s.jobs, i);
  }

  lemma {:induction false} SubmittedBalanced(
      s: State, id: JobId, runnerName: string, repository: string, profile: Profile, now: int, i: SlotIndex)
    ensures Balanced(s, Submitted(s, id, runnerName, repository, profile, now), i)
  {
    if id in s.jobs {
      KeptIsBalanced(s, s, i);
    } else {
      var job := NewJob(runnerName, repository, profile, now);
      var t := s.(jobs := s.jobs[id := job]);
      NewJobBalanced(s, id, job, i);
      AdmitNextBalanced(t, now, i);
      hide AdmitNext, Shifted;
      ShiftsAdd(s, t, AdmitNext(t, now), i, 0, 0);
      SchedulingShifts(s, AdmitNext(t, now), now, i, 0);
    }
  }

  lemma {:induction false} ClaimedBalanced(s: State, id: JobId, runnerName: string, i: SlotIndex)
    requires QueuedHaveNoSlot(s.jobs)
    ensures Balanced(s, Claimed(s, id, runnerName), i)
  {
    KeptIsBalanced(s, Claimed(s, id, runnerName), i);
  }

  lemma {:induction false} ConfigurationReadyBalanced(s: State, id: JobId, now: int, i: SlotIndex)
    ensures Balanced(s, ConfigurationReady(s, id, now), i)
  {
    if id !in s.jobs || s.jobs[id].slot.None? {
      KeptIsBalanced(s, s, i);
    } else {
      var t := Configured(s, s.jobs[id].slot.value, id);
      KeptIsBalanced(s, t, i);
      AdmitNextBalanced(t, now, i);
      hide AdmitNext, Shifted;
      ShiftsAdd(s, t, AdmitNext(t, now), i, 0, 0);
      SchedulingShifts(s, AdmitNext(t, now), now, i, 0);
    }
  }

  lemma {:induction false} CapacityPreparedBalanced(s: State, slot: SlotIndex, generation: nat, now: int, i: SlotIndex)
    ensures Balanced(s, CapacityPrepared(s, slot, generation, now), i)
  {
    hide DueTimes;
    KeptIsBalanced(s, CapacityPrepared(s, slot, generation, now), i);
  }

  lemma {:induction false} ProvisioningFailedShifts(s: State, e: Event, now: int, i: SlotIndex)
    requires e.ProvisioningFailure?
    ensures Shifted(s, ProvisioningFailed(s, e.id, e.runnerName, now), i, Change(s, e, now, i))
  {
    if CanStart(s, e.id, e.runnerName) {
      ReleaseStepShifts(s, e.id, s.jobs[e.id].slot, Failed, now, i);
      hide AdmitNext, Shifted, ReleaseJob, Drift, ScheduleAlarm;
    } else {
      KeptIsBalanced(s, s, i);
    }
  }

  lemma {:induction false} JobCompletedShifts(s: State, e: Event, now: int, i: SlotIndex)
    requires e.CompletionReported?
    ensures Shifted(s, JobCompleted(s, e.id, now), i, Change(s, e, now, i))
  {
    if e.id in s.jobs && (s.jobs[e.id].status.Waiting() || s.jobs[e.id].status.StoppedAwaitingCompletion?) {
      var status := if s.jobs[e.id].status.Waiting() then Cancelled else Completed;
      ReleaseStepShifts(s, e.id, s.jobs[e.id].slot, status, now, i);
      hide AdmitNext, Shifted, ReleaseJob, Drift, ScheduleAlarm;
    } else {
      hide AdmitNext, ReleaseJob, DueTimes;
      KeptIsBalanced(s, JobCompleted(s, e.id, now), i);
    }
  }

  lemma {:induction false} RunnerStoppedShifts(s: State, e: Event, now: int, i: SlotIndex)
    requires e.ContainerStopped? && Possible(s, e, now)
    ensures Shifted(s, RunnerStopped(s, e.stoppedJob, now), i, Change(s, e, now, i))
  {
    var row := e.stoppedJob;
    if row.Some? && s.jobs[row.value].status.Releasing? {
      ReleaseStepShifts(s, row.value, s.jobs[row.value].slot, Completed, now, i);
      hide AdmitNext, Shifted, ReleaseJob, Drift, ScheduleAlarm;
    } else {
      hide AdmitNext, ReleaseJob, DueTimes;
      KeptIsBalanced(s, RunnerStopped(s, row, now), i);
    }
  }

  lemma {:induction false} CleanUpBalanced(s: State, row: StoppedRow, answer: CleanupAnswer, i: SlotIndex)
    ensures Balanced(s, CleanUp(s, row, answer), i)
  {
    CleanUpKeepsHolds(s, row, answer);
    assert CleanUp(s, row, answer).slots == s.slots;
    hide CleanUp, SameHolds;
    KeptIsBalanced(s, CleanUp(s, row, answer), i);
  }

  /** The end of a recovery on an arbitrary, possibly stale, row. */
  lemma {:induction false} RecoveryShifts(s: State, row: StoppedRow, answer: CleanupAnswer, now: int, i: SlotIndex)
    requires row.id in s.jobs
    ensures Shifted(s, RecoverStopped(s, row, answer, now), i, Drift(s, Freeing(row.id, row.job.slot), i))
  {
    var cleaned, freeing := CleanUp(s, row, answer), Freeing(row.id, row.job.slot);
    var status := if row.job.status.Releasing? then Completed else Failed;
    CleanUpBalanced(s, row, answer, i);
    CleanUpKeepsHolds(s, row, answer);
    assert cleaned.slots == s.slots && cleaned.jobs[row.id].Holds() == s.jobs[row.id].Holds();
    hide CleanUp, AdmitNext, ReleaseJob;
    ReleaseAndAdmitShifts(cleaned, row.id, row.job.slot, status, now, i);
    ShiftsAdd(s, cleaned, RecoverStopped(s, row, answer, now), i, 0, Drift(s, freeing, i));
  }

  lemma {:induction false} ReleaseHoldsBalanced(s: State, rows: seq<SlotIndex>, now: int, i: SlotIndex)
    ensures Balanced(s, ReleaseHolds(s, rows, now), i)
    decreases |rows|
  {
    if rows == [] {
      KeptIsBalanced(s, s, i);
    } else {
      var t := ReleaseHold(s, rows[0], now);
      ReleaseHoldBalanced(s, rows[0], now, i);
      ReleaseHoldsBalanced(t, rows[1..], now, i);
      hide ReleaseHold, Shifted;
      ShiftsAdd(s, t, ReleaseHolds(t, rows[1..], now), i, 0, 0);
    }
  }

  lemma {:induction false} ReleaseHoldBalanced(s: State, held: SlotIndex, now: int, i: SlotIndex)
    ensures Balanced(s, ReleaseHold(s, held, now), i)
  {
    var t, slot := ReleaseHold(s, held, now), s.slots[held];
    if t != s {
      var resources := slot.pending.value.resources;
      var plan := PlanOn(s.slots, held, resources, slot.desired).value;
      forall r | r in plan.reductions
        ensures 1 <= r.target
      {
        PlanSparesTarget(s.slots, held, resources, slot.desired, r);
      }
      ReclamationKeepsRows(s.slots, s.operations, plan.reductions, now, i);
    }
    hide PlanOn, ScheduleReclamation;
    KeptIsBalanced(s, t, i);
  }

  lemma {:induction false} AlarmFinishedBalanced(s: State, now: int, i: SlotIndex)
    ensures Balanced(s, ScheduleAlarm(AdmitNext(ReleaseHolds(s, CUSTOM_ROWS, now), now), now).(run := NoRun), i)
  {
    var t := ReleaseHolds(s, CUSTOM_ROWS, now);
    ReleaseHoldsBalanced(s, CUSTOM_ROWS, now, i);
    AdmitNextBalanced(t, now, i);
    hide AdmitNext, ReleaseHolds;
    ShiftsAdd(s, t, AdmitNext(t, now), i, 0, 0);
    SchedulingShifts(s, AdmitNext(t, now), now, i, 0);
    hide ScheduleAlarm;
  }

  // ---------------------------------------------------------------- restart

  /** The restart reconciliation makes every reserved count equal to its number of active jobs, in any state. */
  lemma {:induction false} ReconcileSettles(s: State, i: SlotIndex)
    ensures var t := ReconcileReservations(s);
      && Surplus(t, i) == 0
      && t.slots[i] == s.slots[i].(reserved := |ActiveOn(s.jobs, i)|)
  {
    hide ActiveOn;
  }

  /** Some of these jobs is recorded on the slot. */
  ghost predicate AnyOn(jobs: map<JobId, Job>, ids: seq<JobId>, i: SlotIndex) {
    exists id :: id in ids && id in jobs && jobs[id].slot == Some(i)
  }

  /** Releasing active jobs from their own slots keeps settled accounts settled, and makes their ceilings cover them. */
  lemma {:induction false} ReleaseAllSettles(s: State, ids: seq<JobId>, now: int, i: SlotIndex)
    requires forall k: SlotIndex :: Surplus(s, k) == 0
    requires forall k :: 0 <= k < |ids| ==> ids[k] in s.jobs && s.jobs[ids[k]].status.Active()
    requires forall k, l :: 0 <= k < l < |ids| ==> ids[k] != ids[l]
    ensures var t := ReleaseAll(s, ids, now);
      && Surplus(t, i) == 0
      && (Covered(t, i) <==> Covered(s, i) || AnyOn(s.jobs, ids, i))
      && GenerationGuards(s, t, i)
      && (QueuedHaveNoSlot(s.jobs) ==> QueuedHaveNoSlot(t.jobs))
    decreases |ids|
  {
    if ids != [] {
      var id := ids[0];
      var t := ReleaseJob(s, id, s.jobs[id].slot, Completed, now);
      forall k: SlotIndex
        ensures Surplus(t, k) == 0
      {
        OwnReleaseBalanced(s, id, now, k);
      }
      OwnReleaseBalanced(s, id, now, i);
      assert forall k :: 0 <= k < |ids[1..]| ==> ids[1..][k] == ids[k + 1] && ids[k + 1] != id;
      RestOn(s, id, ids, now, i);
      hide ReleaseJob, Surplus, Covered, QueuedHaveNoSlot, AnyOn;
      ReleaseAllSettles(t, ids[1..], now, i);
    }
  }

  lemma {:induction false} RestOn(s: State, id: JobId, ids: seq<JobId>, now: int, i: SlotIndex)
    requires id in s.jobs && ids != [] && ids[0] == id
    ensures var t := ReleaseJob(s, id, s.jobs[id].slot, Completed, now);
      AnyOn(s.jobs, ids, i) <==> s.jobs[id].slot == Some(i) || AnyOn(t.jobs, ids[1..], i)
  {
    var t := ReleaseJob(s, id, s.jobs[id].slot, Completed, now);
    assert ids == [id] + ids[1..];
    assert t.jobs.Keys == s.jobs.Keys && forall other :: other in s.jobs ==> t.jobs[other].slot == s.jobs[other].slot;
  }

  lemma {:induction false} OwnReleaseBalanced(s: State, id: JobId, now: int, i: SlotIndex)
    requires id in s.jobs && s.jobs[id].status.Active() && Surplus(s, i) == 0
    ensures var t := ReleaseJob(s, id, s.jobs[id].slot, Completed, now);
      && Balanced(s, t, i)
      && (Covered(t, i) <==> Covered(s, i) || s.jobs[id].slot == Some(i))
  {
    ReleaseShifts(s, id, s.jobs[id].slot, Completed, now, i);
    assert s.jobs[id].slot == Some(i) ==> id in ActiveOn(s.jobs, i);
    hide ReleaseJob;
  }

  /** The desired ceiling a restart finds covers the jobs it counts, or it releases one of them and renews the ceiling. */
  ghost predicate RestartCovers(s: State, releasing: seq<JobId>, i: SlotIndex) {
    |ActiveOn(s.jobs, i)| <= s.slots[i].desired || AnyOn(s.jobs, releasing, i)
  }

  /**
   * In any state, however wrong its counts, a restart makes every reserved count equal to the number of active jobs.
   * It does not touch the ceilings of slots on which it releases nothing, so they may still be too low.
   */
  lemma {:induction false} RestartSettles(s: State, releasing: seq<JobId>, now: int, i: SlotIndex)
    requires AllReleasing(s.jobs, releasing)
    ensures var t := Restart(s, releasing, now);
      && Surplus(t, i) == 0
      && (Covered(t, i) <==> RestartCovers(s, releasing, i))
      && GenerationGuards(s, t, i)
      && (QueuedHaveNoSlot(s.jobs) ==> QueuedHaveNoSlot(t.jobs))
  {
    var r := ReconcileReservations(s);
    forall k: SlotIndex
      ensures Surplus(r, k) == 0
    {
      ReconcileSettles(s, k);
    }
    ReconcileSettles(s, i);
    assert forall k :: 0 <= k < |releasing| ==> releasing[k] in releasing;
    ReleaseAllSettles(r, releasing, now, i);
    hide ReleaseAll, ReconcileReservations, DueTimes, AnyOn;
  }

  // ---------------------------------------------------------------- assignment

  /** A hand-over moves one reservation; what the receiving job held before stays counted. */
  lemma {:induction false} HandOverShifts(s: State, claim: RunnerClaim, owner: JobId, i: SlotIndex)
    requires HandsOver(s, claim, owner) && s.jobs[owner].status.OwnsRunner()
    ensures Shifted(s, HandOver(s, claim, owner), i, if s.jobs[claim.id].Holds() == Some(i) then 1 else 0)
  {
    var t := HandOver(s, claim, owner);
    var mid := s.jobs[owner := t.jobs[owner]];
    PutCount(s.jobs, owner, t.jobs[owner], i);
    PutCount(mid, claim.id, t.jobs[claim.id], i);
    assert owner in ActiveOn(s.jobs, s.jobs[owner].slot.value);
  }

  lemma {:induction false} HandOverStepShifts(s: State, claim: RunnerClaim, owner: JobId, now: int, i: SlotIndex)
    requires HandsOver(s, claim, owner) && s.jobs[owner].status.OwnsRunner()
    ensures Shifted(s, ScheduleAlarm(AdmitNext(HandOver(s, claim, owner), now), now), i,
                    if s.jobs[claim.id].Holds() == Some(i) then 1 else 0)
  {
    var h, delta := HandOver(s, claim, owner), if s.jobs[claim.id].Holds() == Some(i) then 1 else 0;
    HandOverShifts(s, claim, owner, i);
    AdmitNextBalanced(h, now, i);
    hide AdmitNext, HandOver, Shifted;
    ShiftsAdd(s, h, AdmitNext(h, now), i, delta, 0);
    SchedulingShifts(s, AdmitNext(h, now), now, i, delta);
  }

  lemma {:induction false} OtherAssignmentBalanced(s: State, claim: RunnerClaim, owner: Option<JobId>, now: int, i: SlotIndex)
    requires QueuedHaveNoSlot(s.jobs)
    requires owner.Some? ==> !HandsOver(s, claim, owner.value)
    ensures Balanced(s, JobStarted(s, claim, owner, now), i)
  {
    hide AdmitNext, HandOver, DueTimes;
    KeptIsBalanced(s, JobStarted(s, claim, owner, now), i);
  }

  lemma {:induction false} RecordingIsBalanced(s: State, claim: RunnerClaim, i: SlotIndex)
    ensures Balanced(s, RecordAssignment(s, claim), i)
  {
    KeptIsBalanced(s, RecordAssignment(s, claim), i);
  }

  lemma {:induction false} AssignmentShifts(s: State, e: Event, now: int, i: SlotIndex)
    requires e.AssignmentReported? && Possible(s, e, now) && QueuedHaveNoSlot(s.jobs)
    ensures Shifted(s, JobStarted(s, e.claim, e.owner, now), i, Change(s, e, now, i))
  {
    if e.owner.Some? && HandsOver(s, e.claim, e.owner.value) {
      var r, delta := RecordAssignment(s, e.claim), Change(s, e, now, i);
      HandOverStepShifts(r, e.claim, e.owner.value, now, i);
      RecordingIsBalanced(s, e.claim, i);
      hide AdmitNext, HandOver, ScheduleAlarm, Shifted;
      ShiftsAdd(s, r, ScheduleAlarm(AdmitNext(HandOver(r, e.claim, e.owner.value), now), now), i, 0, delta);
    } else {
      OtherAssignmentBalanced(s, e.claim, e.owner, now, i);
      hide JobStarted;
    }
  }

  // ---------------------------------------------------------------- every step

  lemma {:induction false} CleanedUpKeepsHold(job: Job, runnerId: Option<int>, answer: CleanupAnswer)
    ensures var cleaned := CleanedUp(job, runnerId, answer);
      cleaned.Holds() == job.Holds() && cleaned.status == job.status && cleaned.slot == job.slot
  {
  }

  lemma {:induction false} CleanUpKeepsHolds(s: State, row: StoppedRow, answer: CleanupAnswer)
    ensures var t := CleanUp(s, row, answer);
      SameHolds(s.jobs, t.jobs) && (QueuedHaveNoSlot(s.jobs) ==> QueuedHaveNoSlot(t.jobs))
  {
    if row.id in s.jobs {
      CleanedUpKeepsHold(s.jobs[row.id], row.job.runnerId, answer);
    }
    hide CleanedUp;
  }

  lemma {:induction false} RunnerProvisionedKeepsHolds(s: State, id: JobId, runnerName: string, runnerId: int)
    ensures var t := RunnerProvisioned(s, id, runnerName, runnerId);
      SameHolds(s.jobs, t.jobs) && (QueuedHaveNoSlot(s.jobs) ==> QueuedHaveNoSlot(t.jobs))
  {
  }

  lemma {:induction false} RunnerStartedKeepsHolds(s: State, runnerName: string)
    ensures var t := RunnerStarted(s, runnerName);
      SameHolds(s.jobs, t.jobs) && (QueuedHaveNoSlot(s.jobs) ==> QueuedHaveNoSlot(t.jobs))
  {
  }

  predicate Tracks(e: Event) {
    e.RunnerCreated? || e.ContainerStarted? || e.AlarmFired? || e.CleanupRetried? || e.UpdateStarted? || e.UpdateDeferred?
  }

  /** These steps write no reservation and move no job. */
  lemma {:induction false} TrackingStepKeepsHolds(s: State, e: Event, now: int)
    requires Possible(s, e, now) && Tracks(e)
    ensures var t := Step(s, e, now); SameHolds(s.jobs, t.jobs) && (QueuedHaveNoSlot(s.jobs) ==> QueuedHaveNoSlot(t.jobs))
  {
    hide RunnerProvisioned, RunnerStarted, CleanUp, QueuedHaveNoSlot, StartsUpdate;
    match e
    case RunnerCreated(id, runnerName, runnerId) => RunnerProvisionedKeepsHolds(s, id, runnerName, runnerId);
    case ContainerStarted(runnerName) => RunnerStartedKeepsHolds(s, runnerName);
    case CleanupRetried(row, answer) => CleanUpKeepsHolds(s, row, answer);
    case AlarmFired(_) =>
    case UpdateStarted =>
    case UpdateDeferred(_, _) =>
  }

  lemma {:induction false} TrackingStepKeepsRow(s: State, e: Event, now: int, i: SlotIndex)
    requires Possible(s, e, now) && Tracks(e)
    ensures RowKept(s.slots[i], Step(s, e, now).slots[i])
  {
    hide RunnerProvisioned, RunnerStarted, CleanUp;
    match e
    case RunnerCreated(_, _, _) => SlotsUntouched(s, e, now);
    case ContainerStarted(_) => SlotsUntouched(s, e, now);
    case AlarmFired(_) =>
    case CleanupRetried(_, _) => SlotsUntouched(s, e, now);
    case UpdateStarted =>
    case UpdateDeferred(_, _) =>
  }

  lemma {:induction false} SlotsUntouched(s: State, e: Event, now: int)
    requires Possible(s, e, now) && (e.RunnerCreated? || e.ContainerStarted? || e.CleanupRetried?)
    ensures Step(s, e, now).slots == s.slots
  {
  }

  lemma {:induction false} TrackingStepBalanced(s: State, e: Event, now: int, i: SlotIndex)
    requires Possible(s, e, now) && Tracks(e)
    ensures Balanced(s, Step(s, e, now), i)
  {
    TrackingStepKeepsHolds(s, e, now);
    TrackingStepKeepsRow(s, e, now, i);
    hide Step, SameHolds, RowKept, QueuedHaveNoSlot;
    KeptIsBalanced(s, Step(s, e, now), i);
  }

  lemma {:induction false} SelectionBalanced(s: State, now: int, run: AlarmRun, i: SlotIndex)
    ensures Balanced(s, RecoverStalledUpdates(s, now).(run := run), i)
  {
    KeptIsBalanced(s, RecoverStalledUpdates(s, now).(run := run), i);
  }

  /**
   * The exact effect of any step but a restart on any slot's account, in any state: a hand-over to a job that already
   * holds the slot adds one, a release drifts by one when its row is stale or nothing is reserved, nothing else changes
   * it.
   */
  lemma {:induction false} StepAccounts(s: State, e: Event, now: int, i: SlotIndex)
    requires Possible(s, e, now) && QueuedHaveNoSlot(s.jobs) && !e.Restarted?
    ensures Shifted(s, Step(s, e, now), i, Change(s, e, now, i))
  {
    hide AdmitNext, Submitted, ConfigurationReady, CapacityPrepared, ProvisioningFailed, JobStarted, JobCompleted, RunnerStopped;
    hide RecoverStopped, ReleaseHolds, DueRows, RecoverStalledUpdates, Claimed, Drift;
    hide ScheduleAlarm, RunnerProvisioned, RunnerStarted, CleanUp, StartUpdate, DeferUpdate;
    match e
    case Submit(id, runnerName, repository, profile) => SubmittedBalanced(s, id, runnerName, repository, profile, now, i);
    case Claim(id, runnerName) => ClaimedBalanced(s, id, runnerName, i);
    case ConfigurationReported(id) => ConfigurationReadyBalanced(s, id, now, i);
    case CapacityReported(slot, generation) => CapacityPreparedBalanced(s, slot, generation, now, i);
    case AssignmentReported(_, _) => AssignmentShifts(s, e, now, i);
    case ProvisioningFailure(_, _) => ProvisioningFailedShifts(s, e, now, i);
    case CompletionReported(_) => JobCompletedShifts(s, e, now, i);
    case ContainerStopped(_, _) => RunnerStoppedShifts(s, e, now, i);
    case RecoveryFinished(answer) => RecoveryStepShifts(s, e, now, i);
    case UpdatesSelected =>
      SelectionBalanced(s, now, Updating(s.run.cutoff, DueRows(RecoverStalledUpdates(s, now).slots, now)), i);
    case AlarmFinished => AlarmFinishedBalanced(s, now, i);
    case _ => TrackingStepBalanced(s, e, now, i);
  }

  lemma {:induction false} RecoveryStepShifts(s: State, e: Event, now: int, i: SlotIndex)
    requires Possible(s, e, now) && e.RecoveryFinished?
    ensures Shifted(s, Step(s, e, now), i, Change(s, e, now, i))
  {
    hide RecoverStopped, Drift;
    if s.run.rows[0].id in s.jobs {
      RecoveryShifts(s, s.run.rows[0], e.answer, now, i);
    } else {
      KeptIsBalanced(s, Step(s, e, now), i);
    }
  }
}
