/**
 * The ceiling that the scheduler records for a slot and the one that the platform has. An alarm asks the platform for
 * the desired ceiling of the row it has read; the completion records the target of the operation that was recorded
 * when the row's generation was assigned. A release changes the desired ceiling without a new generation.
 */
module SchedulerCeilings {
  import opened SchedulerAccounting
  import opened SchedulerCapacity
  import opened SchedulerModel
  import opened SchedulerPolicy
  import opened Wrappers

  // ---------------------------------------------------------------- what a step does to desired ceilings and operations

  /** The operation recorded for the slot's present generation. */
  function Current(s: State, i: SlotIndex): OperationKey {
    OperationKey(i, s.slots[i].generation)
  }

  ghost predicate OperationsBounded(s: State, i: SlotIndex) {
    forall g: nat :: OperationKey(i, g) in s.operations ==> g <= s.slots[i].generation
  }

  ghost predicate SameTarget(before: Operations, after: Operations, key: OperationKey) {
    (key in after <==> key in before) && (key in before ==> after[key].target == before[key].target)
  }

  /** Operations of assigned generations keep their targets. */
  ghost predicate TargetsKept(s: State, t: State, i: SlotIndex) {
    && s.slots[i].generation <= t.slots[i].generation
    && (forall g: nat :: g <= s.slots[i].generation ==> SameTarget(s.operations, t.operations, OperationKey(i, g)))
    && (OperationsBounded(s, i) ==> OperationsBounded(t, i))
  }

  /** The same ceilings, reservations and generation; no configuration begins. */
  predicate CeilingSame(a: Slot, b: Slot) {
    && b.desired == a.desired && b.applied == a.applied && b.reserved == a.reserved && b.generation == a.generation
    && (b.state == Configuring ==> a.state == Configuring)
  }

  /** No update begins or ends, and the slot does not become ready. */
  predicate FlagSame(a: Slot, b: Slot) {
    && b.updating == a.updating && b.updateGeneration == a.updateGeneration
    && (b.state == Ready ==> a.state == Ready)
  }

  /** An operation recorded with the slot's generation asks for the desired ceiling; to configure the slot there is one. */
  ghost predicate Targeted(t: State, i: SlotIndex) {
    && (Current(t, i) in t.operations ==> t.operations[Current(t, i)].target == t.slots[i].desired)
    && (t.slots[i].state == Configuring ==> Current(t, i) in t.operations && t.slots[i].desired == t.slots[i].reserved)
  }

  /** The slot has a new generation. */
  ghost predicate Renewed(s: State, t: State, i: SlotIndex) {
    && s.slots[i].generation < t.slots[i].generation
    && t.slots[i].applied == s.slots[i].applied
    && (OperationsBounded(s, i) ==> Targeted(t, i))
  }

  /** The slot's ceilings are as they were, or it was given a new generation. */
  ghost predicate Planned(s: State, t: State, i: SlotIndex) {
    && TargetsKept(s, t, i)
    && FlagSame(s.slots[i], t.slots[i])
    && (CeilingSame(s.slots[i], t.slots[i]) || Renewed(s, t, i))
  }

  lemma {:induction false} PlannedTwice(s: State, t: State, u: State, i: SlotIndex)
    requires Planned(s, t, i) && Planned(t, u, i)
    ensures Planned(s, u, i)
  {
    forall g: nat | g <= s.slots[i].generation
      ensures SameTarget(s.operations, u.operations, OperationKey(i, g))
    {
      assert SameTarget(s.operations, t.operations, OperationKey(i, g));
      assert SameTarget(t.operations, u.operations, OperationKey(i, g));
    }
    hide SameTarget;
    if s.slots[i].generation < u.slots[i].generation && CeilingSame(t.slots[i], u.slots[i]) {
      assert Renewed(s, t, i);
      CurrentKept(t, u, i);
    }
  }

  lemma {:induction false} CurrentKept(t: State, u: State, i: SlotIndex)
    requires TargetsKept(t, u, i) && t.slots[i].generation == u.slots[i].generation
    ensures Current(u, i) == Current(t, i) && (Current(u, i) in u.operations <==> Current(t, i) in t.operations)
    ensures Current(t, i) in t.operations ==> u.operations[Current(u, i)].target == t.operations[Current(t, i)].target
  {
    assert SameTarget(t.operations, u.operations, OperationKey(i, t.slots[i].generation));
  }

  lemma {:induction false} ReclamationPlans(s: State, reductions: seq<Reduction>, now: int, i: SlotIndex)
    ensures var (slots, operations) := ScheduleReclamation(s.slots, s.operations, reductions, now);
      Planned(s, s.(slots := slots, operations := operations), i)
    decreases |reductions|
  {
    if reductions != [] {
      var (id, target) := (reductions[0].slotId, reductions[0].target);
      if id < SLOTS && MayReclaim(s.slots[id], target) {
        var generation := s.slots[id].generation + 1;
        var t := s.(slots := s.slots[id := s.slots[id].(desired := target, debounceUntil := 0, generation := generation)],
                    operations := RecordOperation(s.operations, id, generation, target, now));
        assert Planned(s, t, i);
        ReclamationPlans(t, reductions[1..], now, i);
        var (slots, operations) := ScheduleReclamation(t.slots, t.operations, reductions[1..], now);
        hide Planned, MayReclaim;
        PlannedTwice(s, t, t.(slots := slots, operations := operations), i);
      } else {
        ReclamationPlans(s, reductions[1..], now, i);
      }
    }
  }

  lemma {:induction false} AdmitPlans(
      s: State, id: JobId, selected: SelectedSlot, reductions: seq<Reduction>, now: int, i: SlotIndex)
    requires id in s.jobs && selected.slotId < SLOTS
    requires forall r :: r in reductions ==> 1 <= r.target && r.slotId != selected.slotId
    ensures Planned(s, Admit(s, id, selected, reductions, now), i)
  {
    var (slots, operations) := ScheduleReclamation(s.slots, s.operations, reductions, now);
    var r := s.(slots := slots, operations := operations);
    ReclamationPlans(s, reductions, now, i);
    ReclamationKeepsRows(s.slots, s.operations, reductions, now, i);
    hide ScheduleReclamation;
    var t := Admit(s, id, selected, reductions, now);
    assert Planned(r, t, i);
    hide Admit, Planned;
    PlannedTwice(s, r, t, i);
  }

  lemma {:induction false} AdmitNextPlans(s: State, now: int, i: SlotIndex)
    ensures Planned(s, AdmitNext(s, now), i)
  {
    if AdmitNext(s, now) != s {
      var id := NextQueued(s.jobs).value;
      assert IsNextQueued(s.jobs, id);
      var profile, selected := s.jobs[id].profile, SelectSlot(s.slots, s.jobs[id].profile).value;
      var target := TargetMaxInstances(s.slots[selected.slotId], selected.requiresConfiguration);
      var plan := PlanOn(s.slots, selected.slotId, profile.resources, target).value;
      forall r | r in plan.reductions
        ensures 1 <= r.target && r.slotId != selected.slotId
      {
        PlanSparesTarget(s.slots, selected.slotId, profile.resources, target, r);
      }
      hide Admit;
      AdmitPlans(s, id, selected, plan.reductions, now, i);
    }
  }

  lemma {:induction false} ReleaseHoldPlans(s: State, held: SlotIndex, now: int, i: SlotIndex)
    ensures Planned(s, ReleaseHold(s, held, now), i)
  {
    var t, slot := ReleaseHold(s, held, now), s.slots[held];
    if t != s {
      ReclamationPlans(s, PlanOn(s.slots, held, slot.pending.value.resources, slot.desired).value.reductions, now, i);
    }
    hide PlanOn, ScheduleReclamation;
  }

  lemma {:induction false} ReleaseHoldsPlan(s: State, rows: seq<SlotIndex>, now: int, i: SlotIndex)
    ensures Planned(s, ReleaseHolds(s, rows, now), i)
    decreases |rows|
  {
    if rows != [] {
      var t := ReleaseHold(s, rows[0], now);
      ReleaseHoldPlans(s, rows[0], now, i);
      ReleaseHoldsPlan(t, rows[1..], now, i);
      hide ReleaseHold, Planned;
      PlannedTwice(s, t, ReleaseHolds(t, rows[1..], now), i);
    }
  }

  // ---------------------------------------------------------------- every step

  /** The step releases a job from the slot, or restarts and does so. */
  ghost predicate ReleasesSlot(s: State, e: Event, now: int, i: SlotIndex)
    requires Possible(s, e, now)
  {
    || (Frees(s, e, now).Some? && Frees(s, e, now).value.slot == Some(i))
    || (e.Restarted? && AnyOn(s.jobs, e.releasing, i))
  }

  /** A completion is reported for the slot. */
  predicate Reports(e: Event, i: SlotIndex) {
    e.CapacityReported? && e.slot == i
  }

  /** The step may start an update of the slot, end one, or make the slot ready. */
  predicate Flags(e: Event, i: SlotIndex) {
    || Reports(e, i) || e.UpdateStarted? || e.UpdateDeferred? || e.UpdatesSelected? || e.Restarted?
    || e.ConfigurationReported?
  }

  /**
   * What a step does to a slot's ceilings: without a new generation only a release moves the desired one, and a new
   * generation comes with an operation that asks for the desired ceiling, or with none.
   */
  ghost predicate Moved(s: State, t: State, i: SlotIndex, released: bool, reported: bool, flagged: bool) {
    var a, b := s.slots[i], t.slots[i];
    && TargetsKept(s, t, i)
    && (!reported ==> b.applied == a.applied)
    && (!flagged ==> FlagSame(a, b))
    && (a.generation == b.generation ==>
          && b.desired == (if released then Max(b.applied, b.reserved) else a.desired)
          && (b.state == Configuring ==> a.state == Configuring))
    && (a.generation < b.generation && OperationsBounded(s, i) ==> Targeted(t, i))
  }

  lemma {:induction false} PlannedIsMoved(s: State, t: State, i: SlotIndex)
    requires Planned(s, t, i)
    ensures Moved(s, t, i, false, false, false)
  {
    hide TargetsKept;
  }

  lemma {:induction false} ReleaseThenPlanMoves(
      s: State, id: JobId, slot: Option<SlotIndex>, status: Status, now: int, t: State, i: SlotIndex)
    requires id in s.jobs && Planned(ReleaseJob(s, id, slot, status, now), t, i)
    ensures Moved(s, t, i, slot == Some(i), false, false)
  {
    var r := ReleaseJob(s, id, slot, status, now);
    assert r.operations == s.operations && r.slots[i].generation == s.slots[i].generation;
    assert slot == Some(i) ==> r.slots[i].desired == Max(r.slots[i].applied, r.slots[i].reserved);
    hide ReleaseJob;
    assert TargetsKept(r, t, i) ==> TargetsKept(s, t, i);
  }

  lemma {:induction false} SchedulingMoves(
      s: State, t: State, now: int, i: SlotIndex, released: bool, reported: bool, flagged: bool)
    requires Moved(s, t, i, released, reported, flagged)
    ensures Moved(s, ScheduleAlarm(t, now), i, released, reported, flagged)
  {
    hide DueTimes;
    assert ScheduleAlarm(t, now).slots == t.slots && ScheduleAlarm(t, now).operations == t.operations;
    hide ScheduleAlarm;
  }

  lemma {:induction false} ReleaseStepMoves(
      s: State, id: JobId, slot: Option<SlotIndex>, status: Status, now: int, i: SlotIndex)
    requires id in s.jobs
    ensures Moved(s, ScheduleAlarm(AdmitNext(ReleaseJob(s, id, slot, status, now), now), now), i, slot == Some(i), false, false)
    ensures Moved(s, AdmitNext(ReleaseJob(s, id, slot, status, now), now), i, slot == Some(i), false, false)
  {
    var r := ReleaseJob(s, id, slot, status, now);
    AdmitNextPlans(r, now, i);
    hide AdmitNext, ReleaseJob, Planned, Moved;
    ReleaseThenPlanMoves(s, id, slot, status, now, AdmitNext(r, now), i);
    SchedulingMoves(s, AdmitNext(r, now), now, i, slot == Some(i), false, false);
  }

  /** Admission after a stretch that leaves the slot's ceilings alone. */
  lemma {:induction false} AdmissionMoves(s: State, r: State, now: int, i: SlotIndex)
    requires CeilingSame(s.slots[i], r.slots[i]) && FlagSame(s.slots[i], r.slots[i]) && r.operations == s.operations
    ensures Moved(s, ScheduleAlarm(AdmitNext(r, now), now), i, false, false, false)
  {
    assert Planned(s, r, i);
    AdmitNextPlans(r, now, i);
    hide AdmitNext, Planned, Moved;
    PlannedTwice(s, r, AdmitNext(r, now), i);
    PlannedIsMoved(s, AdmitNext(r, now), i);
    SchedulingMoves(s, AdmitNext(r, now), now, i, false, false, false);
  }

  lemma {:induction false} QuietMoves(s: State, t: State, i: SlotIndex)
    requires CeilingSame(s.slots[i], t.slots[i]) && FlagSame(s.slots[i], t.slots[i]) && t.operations == s.operations
    ensures Moved(s, t, i, false, false, false)
  {
  }

  lemma {:induction false} ProvisioningFailedMoves(s: State, e: Event, now: int, i: SlotIndex)
    requires e.ProvisioningFailure?
    ensures Moved(s, ProvisioningFailed(s, e.id, e.runnerName, now), i, ReleasesSlot(s, e, now, i), false, false)
  {
    if CanStart(s, e.id, e.runnerName) {
      ReleaseStepMoves(s, e.id, s.jobs[e.id].slot, Failed, now, i);
      hide AdmitNext, Moved, ReleaseJob, ScheduleAlarm;
    } else {
      QuietMoves(s, s, i);
      hide Moved;
    }
  }

  lemma {:induction false} JobCompletedMoves(s: State, e: Event, now: int, i: SlotIndex)
    requires e.CompletionReported?
    ensures Moved(s, JobCompleted(s, e.id, now), i, ReleasesSlot(s, e, now, i), false, false)
  {
    if e.id in s.jobs && (s.jobs[e.id].status.Waiting() || s.jobs[e.id].status.StoppedAwaitingCompletion?) {
      var status := if s.jobs[e.id].status.Waiting() then Cancelled else Completed;
      ReleaseStepMoves(s, e.id, s.jobs[e.id].slot, status, now, i);
      hide AdmitNext, Moved, ReleaseJob, ScheduleAlarm;
    } else {
      hide AdmitNext, ReleaseJob, DueTimes;
      QuietMoves(s, JobCompleted(s, e.id, now), i);
      hide Moved;
    }
  }

  lemma {:induction false} RunnerStoppedMoves(s: State, e: Event, now: int, i: SlotIndex)
    requires e.ContainerStopped? && Possible(s, e, now)
    ensures Moved(s, RunnerStopped(s, e.stoppedJob, now), i, ReleasesSlot(s, e, now, i), false, false)
  {
    var row := e.stoppedJob;
    if row.Some? && s.jobs[row.value].status.Releasing? {
      ReleaseStepMoves(s, row.value, s.jobs[row.value].slot, Completed, now, i);
      hide AdmitNext, Moved, ReleaseJob, ScheduleAlarm;
    } else {
      hide AdmitNext, ReleaseJob, DueTimes;
      QuietMoves(s, RunnerStopped(s, row, now), i);
      hide Moved;
    }
  }

  /** Only slots and operations matter. */
  lemma {:induction false} SameTablesMove(
      s: State, t: State, r: State, u: State, i: SlotIndex, released: bool)
    requires Moved(r, t, i, released, false, false)
    requires r.slots == s.slots && r.operations == s.operations && t.slots == u.slots && t.operations == u.operations
    ensures Moved(s, u, i, released, false, false)
  {
  }

  lemma {:induction false} RecoverStoppedMoves(s: State, row: StoppedRow, answer: CleanupAnswer, now: int, i: SlotIndex)
    requires row.id in s.jobs
    ensures Moved(s, RecoverStopped(s, row, answer, now), i, row.job.slot == Some(i), false, false)
  {
    var cleaned := CleanUp(s, row, answer);
    var status := if row.job.status.Releasing? then Completed else Failed;
    assert cleaned.slots == s.slots && cleaned.operations == s.operations && row.id in cleaned.jobs;
    var t := AdmitNext(ReleaseJob(cleaned, row.id, row.job.slot, status, now), now);
    assert RecoverStopped(s, row, answer, now) == t;
    hide CleanUp, AdmitNext, ReleaseJob, RecoverStopped, ScheduleAlarm, Moved;
    ReleaseStepMoves(cleaned, row.id, row.job.slot, status, now, i);
    SameTablesMove(s, t, cleaned, t, i, row.job.slot == Some(i));
  }

  lemma {:induction false} RecoveryMoves(s: State, e: Event, now: int, i: SlotIndex)
    requires Possible(s, e, now) && e.RecoveryFinished?
    ensures Moved(s, Step(s, e, now), i, ReleasesSlot(s, e, now, i), false, false)
  {
    hide RecoverStopped, Moved;
    var row := s.run.rows[0];
    if row.id in s.jobs {
      RecoverStoppedMoves(s, row, e.answer, now, i);
      SameTablesMove(s, RecoverStopped(s, row, e.answer, now), s, Step(s, e, now), i, row.job.slot == Some(i));
    } else {
      QuietMoves(s, Step(s, e, now), i);
    }
  }

  lemma {:induction false} AssignmentMoves(s: State, e: Event, now: int, i: SlotIndex)
    requires e.AssignmentReported?
    ensures Moved(s, JobStarted(s, e.claim, e.owner, now), i, false, false, false)
  {
    if e.owner.Some? && HandsOver(s, e.claim, e.owner.value) {
      AdmissionMoves(s, HandOver(RecordAssignment(s, e.claim), e.claim, e.owner.value), now, i);
      hide AdmitNext, HandOver, ScheduleAlarm, Moved;
    } else {
      hide AdmitNext, HandOver, ScheduleAlarm;
      QuietMoves(s, JobStarted(s, e.claim, e.owner, now), i);
      hide Moved;
    }
  }

  lemma {:induction false} SubmittedMoves(s: State, e: Event, now: int, i: SlotIndex)
    requires e.Submit?
    ensures Moved(s, Submitted(s, e.id, e.runnerName, e.repository, e.profile, now), i, false, false, false)
  {
    if e.id in s.jobs {
      QuietMoves(s, s, i);
    } else {
      AdmissionMoves(s, s.(jobs := s.jobs[e.id := NewJob(e.runnerName, e.repository, e.profile, now)]), now, i);
    }
    hide Moved, AdmitNext, ScheduleAlarm;
  }

  lemma {:induction false} ReadyThenMoves(s: State, i: SlotIndex, ready: State, t: State)
    requires CeilingSame(s.slots[i], ready.slots[i]) && ready.operations == s.operations
    requires Moved(ready, t, i, false, false, false)
    ensures Moved(s, t, i, false, false, true)
  {
    hide SameTarget;
  }

  /** The end of a configuration may make the slot ready; it leaves the flag of an update alone. */
  lemma {:induction false} ConfigurationReadyMoves(s: State, id: JobId, now: int, i: SlotIndex)
    ensures var (t, row) := (ConfigurationReady(s, id, now), s.slots[i]);
      && Moved(s, t, i, false, false, true)
      && t.slots[i].updating == row.updating && t.slots[i].updateGeneration == row.updateGeneration
      && (t.slots[i].state == Ready && row.state != Ready ==>
            id in s.jobs && s.jobs[id].slot == Some(i) && row.configurationOwner == Some(id))
  {
    if id !in s.jobs || s.jobs[id].slot.None? {
      hide Moved;
      QuietMoves(s, s, i);
      ReadyThenMoves(s, i, s, s);
    } else {
      var ready := Configured(s, s.jobs[id].slot.value, id);
      var t := ScheduleAlarm(AdmitNext(ready, now), now);
      hide AdmitNext, ScheduleAlarm;
      AdmissionMoves(ready, ready, now, i);
      assert FlagSame(ready.slots[i], t.slots[i]);
      hide Moved;
      ReadyThenMoves(s, i, ready, t);
    }
  }

  lemma {:induction false} SupersedingKeepsTargets(operations: Operations, slot: SlotIndex, generation: nat, now: int)
    ensures Superseding(operations, slot, generation, now).Keys == operations.Keys
    ensures forall key :: key in operations ==>
      Superseding(operations, slot, generation, now)[key].target == operations[key].target
  {
  }

  lemma {:induction false} CapacityPreparedMoves(s: State, slot: SlotIndex, generation: nat, now: int, i: SlotIndex)
    ensures Moved(s, CapacityPrepared(s, slot, generation, now), i, false, slot == i, slot == i)
  {
    SupersedingKeepsTargets(s.operations, slot, generation, now);
    hide DueTimes, Superseding;
  }

  lemma {:induction false} AlarmFinishedMoves(s: State, now: int, i: SlotIndex)
    ensures Moved(s, ScheduleAlarm(AdmitNext(ReleaseHolds(s, CUSTOM_ROWS, now), now), now).(run := NoRun), i, false, false, false)
  {
    var r := ReleaseHolds(s, CUSTOM_ROWS, now);
    ReleaseHoldsPlan(s, CUSTOM_ROWS, now, i);
    AdmitNextPlans(r, now, i);
    hide AdmitNext, ReleaseHolds, Planned;
    PlannedTwice(s, r, AdmitNext(r, now), i);
    PlannedIsMoved(s, AdmitNext(r, now), i);
    SchedulingMoves(s, AdmitNext(r, now), now, i, false, false, false);
    hide ScheduleAlarm;
  }

  // ---------------------------------------------------------------- restarts

  /** After the releases of a restart a slot has the ceiling it had, or the one its last release gave it. */
  lemma {:induction false} ReleaseAllMoves(s: State, ids: seq<JobId>, now: int, i: SlotIndex)
    ensures var t := ReleaseAll(s, ids, now);
      && t.operations == s.operations
      && t.slots[i].generation == s.slots[i].generation && t.slots[i].applied == s.slots[i].applied
      && (t.slots[i].state == Configuring ==> s.slots[i].state == Configuring)
      && t.slots[i].desired
           == (if AnyOn(s.jobs, ids, i) then Max(t.slots[i].applied, t.slots[i].reserved) else s.slots[i].desired)
      && (!AnyOn(s.jobs, ids, i) ==> t.slots[i].reserved == s.slots[i].reserved)
    decreases |ids|
  {
    if ids != [] {
      assert ids == [ids[0]] + ids[1..];
      if ids[0] in s.jobs {
        var t := ReleaseJob(s, ids[0], s.jobs[ids[0]].slot, Completed, now);
        RestOn(s, ids[0], ids, now, i);
        ReleaseAllMoves(t, ids[1..], now, i);
        hide AnyOn;
      } else {
        ReleaseAllMoves(s, ids[1..], now, i);
      }
    }
  }

  lemma {:induction false} RestartMoves(s: State, e: Event, now: int, i: SlotIndex)
    requires e.Restarted?
    ensures Moved(s, Restart(s, e.releasing, now), i, AnyOn(s.jobs, e.releasing, i), false, true)
  {
    var r := ReconcileReservations(s);
    ReconcileSettles(s, i);
    ReleaseAllMoves(r, e.releasing, now, i);
    assert r.jobs == s.jobs && r.operations == s.operations;
    hide ReconcileReservations, ReleaseAll, DueTimes, AnyOn;
  }

  /** The effect of any step on a slot's ceilings and operations. */
  lemma {:induction false} StepMoves(s: State, e: Event, now: int, i: SlotIndex)
    requires Possible(s, e, now)
    ensures Moved(s, Step(s, e, now), i, ReleasesSlot(s, e, now, i), Reports(e, i), Flags(e, i))
  {
    hide AdmitNext, Submitted, ConfigurationReady, CapacityPrepared, ProvisioningFailed, JobStarted, JobCompleted, RunnerStopped;
    hide RecoverStopped, ReleaseHolds, DueRows, Restart, AnyOn, ScheduleAlarm, Moved;
    match e
    case Submit(_, _, _, _) => SubmittedMoves(s, e, now, i);
    case ConfigurationReported(id) => ConfigurationReadyMoves(s, id, now, i);
    case CapacityReported(slot, generation) => CapacityPreparedMoves(s, slot, generation, now, i);
    case AssignmentReported(_, _) => AssignmentMoves(s, e, now, i);
    case ProvisioningFailure(_, _) => ProvisioningFailedMoves(s, e, now, i);
    case CompletionReported(_) => JobCompletedMoves(s, e, now, i);
    case ContainerStopped(_, _) => RunnerStoppedMoves(s, e, now, i);
    case RecoveryFinished(_) => RecoveryMoves(s, e, now, i);
    case AlarmFinished => AlarmFinishedMoves(s, now, i);
    case Restarted(_) => RestartMoves(s, e, now, i);
    case _ => OtherStepMoves(s, e, now, i);
  }

  predicate LeavesCeilings(e: Event) {
    || e.Claim? || e.RunnerCreated? || e.ContainerStarted? || e.AlarmFired? || e.CleanupRetried? || e.UpdatesSelected?
    || e.UpdateStarted? || e.UpdateDeferred?
  }

  lemma {:induction false} OtherStepMoves(s: State, e: Event, now: int, i: SlotIndex)
    requires Possible(s, e, now) && LeavesCeilings(e)
    ensures Moved(s, Step(s, e, now), i, false, false, Flags(e, i))
    ensures !ReleasesSlot(s, e, now, i) && !Reports(e, i)
  {
    hide RunnerProvisioned, RunnerStarted;
    LeavesOperations(s, e, now);
    LeavesRow(s, e, now, i);
    hide Step, Targeted;
  }

  lemma {:induction false} LeavesOperations(s: State, e: Event, now: int)
    requires Possible(s, e, now) && LeavesCeilings(e)
    ensures Step(s, e, now).operations == s.operations
  {
    hide ClaimProvisioning, StartsUpdate, DueRows, UnstalledSlot;
  }

  lemma {:induction false} LeavesRow(s: State, e: Event, now: int, i: SlotIndex)
    requires Possible(s, e, now) && LeavesCeilings(e)
    ensures CeilingSame(s.slots[i], Step(s, e, now).slots[i])
    ensures !Flags(e, i) ==> FlagSame(s.slots[i], Step(s, e, now).slots[i])
  {
    hide ClaimProvisioning, DueRows;
    if e.RunnerCreated? || e.ContainerStarted? || e.CleanupRetried? {
      SlotsUntouched(s, e, now);
      hide Step;
    }
  }
}
