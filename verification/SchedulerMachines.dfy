/** Which machine a slot has: every active job is on a slot of its own profile, or one that is being given it. */
module SchedulerMachines {
  import opened AccountResources
  import opened RunnerNames
  import opened SchedulerActs
  import opened SchedulerAdmissions
  import opened SchedulerBudget
  import opened SchedulerCapacity
  import opened SchedulerEndings
  import opened SchedulerModel
  import opened SchedulerPolicy
  import opened SchedulerReservations
  import opened SchedulerRuns
  import opened Wrappers

  function MachineOf(profile: Profile): Shape {
    Shape(profile.key, profile.resources)
  }

  /** The slot has the job's machine, or is being given it. */
  predicate Serves(slot: Slot, profile: Profile) {
    match slot.state
    case Ready => slot.shape == Some(MachineOf(profile))
    case Configuring => slot.pending == Some(MachineOf(profile))
    case Idle => false
  }

  ghost predicate ServesHolders(s: State, i: SlotIndex) {
    forall id :: id in s.jobs && s.jobs[id].Holds() == Some(i) ==> Serves(s.slots[i], s.jobs[id].profile)
  }

  /** Only a slot that is being configured has an owner of its configuration, and preset slots never are. */
  ghost predicate SlotOk(s: State, i: SlotIndex) {
    && (s.slots[i].configurationOwner.Some? ==> s.slots[i].state == Configuring)
    && (CUSTOM_SLOTS <= i ==>
          s.slots[i].state == Ready && s.slots[i].shape.Some? && PresetSlot(s.slots[i].shape.value.key) == Some(i))
  }

  ghost predicate ShapeConforms(shape: Option<Shape>, catalogue: Catalogue) {
    shape.Some? ==> shape.value.resources == catalogue(shape.value.key) && shape.value.resources.NonNegative()
  }

  ghost predicate ShapesConform(s: State, catalogue: Catalogue) {
    forall i: SlotIndex :: ShapeConforms(s.slots[i].shape, catalogue) && ShapeConforms(s.slots[i].pending, catalogue)
  }

  // ---------------------------------------------------------------- what a step does to a slot's machine

  predicate SameMachine(a: Slot, b: Slot) {
    b.shape == a.shape && b.state == a.state && b.pending == a.pending && b.configurationOwner == a.configurationOwner
  }

  /** Every job holds what it held, or nothing. */
  ghost predicate HoldsLess(before: map<JobId, Job>, after: map<JobId, Job>) {
    forall id :: id in after ==>
      || after[id].Holds().None?
      || (id in before && after[id].Holds() == before[id].Holds() && after[id].profile == before[id].profile)
  }

  ghost predicate LeavesMachine(s: State, t: State, i: SlotIndex) {
    SameMachine(s.slots[i], t.slots[i]) && HoldsLess(s.jobs, t.jobs)
  }

  lemma {:induction false} LeavingServes(s: State, t: State, i: SlotIndex)
    requires LeavesMachine(s, t, i) && ServesHolders(s, i)
    ensures ServesHolders(t, i)
  {
  }

  lemma {:induction false} ReleaseServes(s: State, id: JobId, slot: Option<SlotIndex>, status: Status, now: int, i: SlotIndex)
    requires id in s.jobs && status.Terminal() && ServesHolders(s, i) && SlotOk(s, i)
    requires 0 <= Surplus(ReleaseJob(s, id, slot, status, now), i)
    ensures var t := ReleaseJob(s, id, slot, status, now); ServesHolders(t, i) && SlotOk(t, i)
  {
    var t := ReleaseJob(s, id, slot, status, now);
    if t.slots[i].reserved == 0 {
      assert ActiveOn(t.jobs, i) == {};
      assert forall other :: other in t.jobs && t.jobs[other].Holds() == Some(i) ==> other in ActiveOn(t.jobs, i);
    }
  }

  lemma {:induction false} ReleaseHoldsLeave(s: State, rows: seq<SlotIndex>, now: int, i: SlotIndex)
    ensures LeavesMachine(s, ReleaseHolds(s, rows, now), i)
    decreases |rows|
  {
    if rows != [] {
      var t := ReleaseHold(s, rows[0], now);
      ReleaseHoldLeaves(s, rows[0], now, i);
      ReleaseHoldsLeave(t, rows[1..], now, i);
    }
  }

  lemma {:induction false} ReleaseHoldLeaves(s: State, held: SlotIndex, now: int, i: SlotIndex)
    ensures LeavesMachine(s, ReleaseHold(s, held, now), i)
  {
    var slot := s.slots[held];
    if slot.state == Configuring && slot.reclaimPending && slot.pending.Some? {
      var plan := PlanOn(s.slots, held, slot.pending.value.resources, slot.desired);
      if plan.Some? {
        forall r | r in plan.value.reductions
          ensures 1 <= r.target
        {
          PlanSparesTarget(s.slots, held, slot.pending.value.resources, slot.desired, r);
        }
        ReclamationKeepsRows(s.slots, s.operations, plan.value.reductions, now, i);
      }
    }
    hide PlanOn, ScheduleReclamation;
  }

  lemma {:induction false} ConfiguredServes(s: State, j: SlotIndex, id: JobId, i: SlotIndex)
    requires ServesHolders(s, i) && SlotOk(s, i)
    ensures var t := Configured(s, j, id); ServesHolders(t, i) && SlotOk(t, i)
  {
  }

  lemma {:induction false} HandOverServes(s: State, claim: RunnerClaim, owner: JobId, catalogue: Catalogue, i: SlotIndex)
    requires HandsOver(s, claim, owner) && s.jobs[owner].status.OwnsRunner() && AllConform(s.jobs, catalogue)
    requires ServesHolders(s, i)
    ensures ServesHolders(HandOver(s, claim, owner), i) && HandOver(s, claim, owner).slots == s.slots
  {
    hide RetryName;
    var t := HandOver(s, claim, owner);
    forall id | id in t.jobs && t.jobs[id].Holds() == Some(i)
      ensures Serves(t.slots[i], t.jobs[id].profile)
    {
      if id == claim.id {
        assert s.jobs[owner].Holds() == Some(i);
        assert Conforms(s.jobs[owner].profile, catalogue) && Conforms(s.jobs[id].profile, catalogue);
      } else {
        assert id != owner && s.jobs[id] == t.jobs[id];
      }
    }
  }

  // ---------------------------------------------------------------- before the admission

  ghost predicate ServesOk(s: State, i: SlotIndex) {
    ServesHolders(s, i) && SlotOk(s, i)
  }

  lemma {:induction false} LeavingActs(s: State, t: State, i: SlotIndex)
    requires LeavesMachine(s, t, i) && ServesHolders(s, i) && SlotOk(s, i)
    ensures ServesOk(t, i)
  {
  }

  lemma {:induction false} PlainLeaves(s: State, e: Event, now: int, i: SlotIndex)
    requires Possible(s, e, now) && Plain(e) && QueuedHaveNoSlot(s.jobs)
    ensures LeavesMachine(s, Step(s, e, now), i)
  {
    hide DueTimes, DueRows, Superseding;
  }

  /** A report that moves no runner between jobs, an end that is only noted, or a call that is refused. */
  lemma {:induction false} NotedLeaves(s: State, e: Event, now: int, i: SlotIndex)
    requires Possible(s, e, now) && QueuedHaveNoSlot(s.jobs) && !Admits(s, e, now) && !Plain(e) && !e.Restarted?
    ensures LeavesMachine(s, Step(s, e, now), i)
  {
    NotedStep(s, e, now);
    hide Step, Possible, Admits;
  }

  lemma {:induction false} CleanUpLeaves(s: State, row: StoppedRow, answer: CleanupAnswer, i: SlotIndex)
    ensures LeavesMachine(s, CleanUp(s, row, answer), i) && ActiveOn(CleanUp(s, row, answer).jobs, i) == ActiveOn(s.jobs, i)
    ensures CleanUp(s, row, answer).slots == s.slots
  {
  }

  lemma {:induction false} EndingServes(s: State, e: Event, now: int, i: SlotIndex)
    requires Possible(s, e, now) && EndingOf(s, e, now).Some? && ServesHolders(s, i) && SlotOk(s, i)
    requires 0 <= Surplus(Acted(s, e, now), i)
    ensures ServesOk(Acted(s, e, now), i)
  {
    var ending := EndingOf(s, e, now).value;
    assert ending.status.Terminal();
    var r := if e.RecoveryFinished? then CleanUp(s, s.run.rows[0], e.answer) else s;
    if e.RecoveryFinished? {
      CleanUpLeaves(s, s.run.rows[0], e.answer, i);
      hide CleanUp;
      LeavingServes(s, r, i);
    }
    hide ServesHolders, Surplus, ReleaseJob, EndingOf, Possible;
    ReleaseServes(r, ending.id, ending.slot, ending.status, now, i);
  }

  lemma {:induction false} ReleaseAllServes(s: State, ids: seq<JobId>, now: int, i: SlotIndex)
    requires forall x :: x in ids ==> x in s.jobs && s.jobs[x].status.Releasing?
    requires forall k, l :: 0 <= k < l < |ids| ==> ids[k] != ids[l]
    requires 0 <= Surplus(s, i) && ServesHolders(s, i) && SlotOk(s, i)
    ensures var t := ReleaseAll(s, ids, now); ServesHolders(t, i) && SlotOk(t, i)
    decreases |ids|
  {
    if ids != [] {
      var id := ids[0];
      var t := ReleaseJob(s, id, s.jobs[id].slot, Completed, now);
      assert ids == [id] + ids[1..];
      HoldersAreReserved(s, id, i);
      ReleaseShifts(s, id, s.jobs[id].slot, Completed, now, i);
      ReleaseServes(s, id, s.jobs[id].slot, Completed, now, i);
      hide ServesHolders, Surplus, ReleasedSlot;
      assert forall x :: x in ids[1..] ==> exists j :: 1 <= j < |ids| && ids[j] == x;
      ReleaseAllServes(t, ids[1..], now, i);
    }
  }

  lemma {:induction false} HoldersAreReserved(s: State, id: JobId, i: SlotIndex)
    requires id in s.jobs && 0 <= Surplus(s, i) && s.jobs[id].status.Active()
    ensures 0 <= Surplus(s, i) + Drift(s, Freeing(id, s.jobs[id].slot), i)
  {
    assert s.jobs[id].Holds() == Some(i) ==> id in ActiveOn(s.jobs, i);
  }

  lemma {:induction false} RestartServes(s: State, e: Event, now: int, i: SlotIndex)
    requires Possible(s, e, now) && e.Restarted? && ServesHolders(s, i) && SlotOk(s, i)
    ensures var t := Restart(s, e.releasing, now);
      ServesHolders(t, i) && SlotOk(t, i)
  {
    ReleaseAllServes(ReconcileReservations(s), e.releasing, now, i);
    hide ReleaseAll, DueTimes;
  }

  lemma {:induction false} DisplacingServes(s: State, e: Event, now: int, catalogue: Catalogue, i: SlotIndex)
    requires Possible(s, e, now) && AllConform(s.jobs, catalogue) && Displaces(s, e)
    requires ServesHolders(s, i) && SlotOk(s, i)
    ensures ServesOk(Acted(s, e, now), i)
  {
    HandOverServes(RecordAssignment(s, e.claim), e.claim, e.owner.value, catalogue, i);
    hide Step, HandOver, AllConform;
  }

  lemma {:induction false} SubmittingServes(s: State, e: Event, now: int, i: SlotIndex)
    requires Possible(s, e, now) && e.Submit? && Admits(s, e, now) && ServesHolders(s, i) && SlotOk(s, i)
    ensures ServesOk(Acted(s, e, now), i)
  {
    hide Step;
  }

  lemma {:induction false} FinishingServes(s: State, e: Event, now: int, i: SlotIndex)
    requires Possible(s, e, now) && e.AlarmFinished? && ServesHolders(s, i) && SlotOk(s, i)
    ensures ServesOk(Acted(s, e, now), i)
  {
    ReleaseHoldsLeave(s, CUSTOM_ROWS, now, i);
    hide Step, ReleaseHolds, ServesHolders, LeavesMachine, SlotOk;
    LeavingActs(s, ReleaseHolds(s, CUSTOM_ROWS, now), i);
  }

  lemma {:induction false} AdmittingServes(s: State, e: Event, now: int, i: SlotIndex)
    requires Possible(s, e, now) && Admits(s, e, now) && EndingOf(s, e, now).None? && !Displaces(s, e)
    requires ServesHolders(s, i) && SlotOk(s, i)
    ensures ServesOk(Acted(s, e, now), i)
  {
    hide Step, ServesHolders, SlotOk, ReleaseHolds, Configured;
    if e.ConfigurationReported? {
      ConfiguredServes(s, s.jobs[e.id].slot.value, e.id, i);
    } else if e.AlarmFinished? {
      FinishingServes(s, e, now, i);
    } else {
      SubmittingServes(s, e, now, i);
    }
  }

  lemma {:induction false} OtherActServes(s: State, e: Event, now: int, catalogue: Catalogue, i: SlotIndex)
    requires Possible(s, e, now) && AllConform(s.jobs, catalogue) && QueuedHaveNoSlot(s.jobs)
    requires ServesHolders(s, i) && SlotOk(s, i) && EndingOf(s, e, now).None? && !e.Restarted?
    ensures ServesOk(Acted(s, e, now), i)
  {
    hide Step, Possible, Admits, AllConform, QueuedHaveNoSlot, ServesHolders, SlotOk, LeavesMachine, Displaces, EndingOf, ServesOk;
    if Displaces(s, e) {
      DisplacingServes(s, e, now, catalogue, i);
    } else if Admits(s, e, now) {
      AdmittingServes(s, e, now, i);
    } else {
      if Plain(e) {
        PlainLeaves(s, e, now, i);
      } else {
        NotedLeaves(s, e, now, i);
      }
      LeavingActs(s, Step(s, e, now), i);
    }
  }

  lemma {:induction false} ActServes(s: State, e: Event, now: int, catalogue: Catalogue, i: SlotIndex)
    requires Possible(s, e, now) && AllConform(s.jobs, catalogue) && QueuedHaveNoSlot(s.jobs)
    requires ServesHolders(s, i) && SlotOk(s, i) && (EndingOf(s, e, now).Some? ==> 0 <= Surplus(Acted(s, e, now), i))
    ensures ServesOk(Acted(s, e, now), i)
  {
    hide ServesHolders, Surplus, SlotOk, Possible, AllConform, QueuedHaveNoSlot, CleanUp;
    if EndingOf(s, e, now).Some? {
      EndingServes(s, e, now, i);
    } else if e.Restarted? {
      RestartServes(s, e, now, i);
      hide Restart;
    } else {
      OtherActServes(s, e, now, catalogue, i);
      hide Acted;
    }
  }

  // ---------------------------------------------------------------- the admission

  lemma {:induction false} PresetSlotsDiffer(a: string, b: string)
    requires PresetSlot(a).Some? && PresetSlot(a) == PresetSlot(b)
    ensures a == b && CUSTOM_SLOTS <= PresetSlot(a).value
  {
  }

  /** The slot chosen for a job without a new configuration has the job's machine, or is being given it. */
  lemma {:induction false} ChosenSlotHasMachine(s: State, profile: Profile, i: SlotIndex)
    requires SlotOk(s, i) && SelectSlot(s.slots, profile) == Some(SelectedSlot(i, false))
    ensures HasMachine(s.slots[i], profile.key)
    ensures CUSTOM_SLOTS <= i ==> PresetSlot(profile.key) == Some(i)
  {
    if profile.custom {
      CustomSlotExactlyWhen(s.slots, profile);
      hide SelectSlot;
    } else {
      PresetSlotsDiffer(s.slots[i].shape.value.key, profile.key);
    }
  }

  lemma {:induction false} ConfiguredSlotIsUnreserved(slots: SlotTable, profile: Profile, i: SlotIndex)
    requires SelectSlot(slots, profile) == Some(SelectedSlot(i, true))
    ensures slots[i].reserved == 0 && i < CUSTOM_SLOTS
  {
    CustomSlotExactlyWhen(slots, profile);
    hide SelectCustomSlot;
  }

  /** The row of the slot that the job is given serves it, and every job that was on it. */
  lemma {:induction false} AdmittedSlotServes(s: State, id: JobId, i: SlotIndex, configure: bool, t: State, catalogue: Catalogue)
    requires ServesHolders(s, i) && SlotOk(s, i) && AllConform(s.jobs, catalogue) && 0 <= Surplus(s, i)
    requires id in s.jobs && SelectSlot(s.slots, s.jobs[id].profile) == Some(SelectedSlot(i, configure))
    requires exists target, reclaims, now ::
      t.slots[i] == AdmittedSlot(s.slots[i], id, MachineOf(s.jobs[id].profile), configure, target, reclaims, now)
    requires t.jobs == s.jobs[id := s.jobs[id].(status := Admitted, slot := Some(i))]
    ensures ServesHolders(t, i) && SlotOk(t, i)
  {
    var profile := s.jobs[id].profile;
    if configure {
      ConfiguredSlotIsUnreserved(s.slots, profile, i);
      assert ActiveOn(s.jobs, i) == {};
      assert forall other :: other in s.jobs && s.jobs[other].Holds() == Some(i) ==> other in ActiveOn(s.jobs, i);
    } else {
      ChosenSlotHasMachine(s, profile, i);
      hide SelectSlot, ActiveOn;
      assert Conforms(profile, catalogue);
      forall other | other in s.jobs && s.jobs[other].Holds() == Some(i)
        ensures MachineOf(s.jobs[other].profile) == MachineOf(profile)
      {
        assert Serves(s.slots[i], s.jobs[other].profile) && Conforms(s.jobs[other].profile, catalogue);
      }
    }
    hide SelectSlot;
  }

  lemma {:induction false} RowOfAdmission(s: State, id: JobId, i: SlotIndex, configure: bool, reductions: seq<Reduction>, now: int)
    requires id in s.jobs
    ensures var t, target := Admit(s, id, SelectedSlot(i, configure), reductions, now), TargetMaxInstances(s.slots[i], configure);
      && t.slots[i]
           == AdmittedSlot(s.slots[i], id, MachineOf(s.jobs[id].profile), configure, target, reductions != [], now)
      && t.jobs == s.jobs[id := s.jobs[id].(status := Admitted, slot := Some(i))]
  {
    var (slots, operations) := ScheduleReclamation(s.slots, s.operations, reductions, now);
    hide ScheduleReclamation, AdmittedSlot, TargetMaxInstances;
    assert |slots| == SLOTS;
  }

  lemma {:induction false} OtherMachinesStay(
      s: State, id: JobId, i: SlotIndex, configure: bool, reductions: seq<Reduction>, now: int, j: SlotIndex)
    requires id in s.jobs && Reducible(s.slots, reductions) && j != i && forall r :: r in reductions ==> r.slotId != i
    ensures SameMachine(s.slots[j], Admit(s, id, SelectedSlot(i, configure), reductions, now).slots[j])
  {
    AdmitLowers(s, id, i, configure, reductions, now);
    assert TargetFor(reductions, j).Some? || TargetFor(reductions, j).None?;
    hide Admit, TargetMaxInstances, UpdateDue, Reducible;
  }

  lemma {:induction false} TakenIsAdmitted(s: State, now: int, id: JobId, i: SlotIndex) returns (configure: bool)
    requires Takes(s, AdmitNext(s, now), id, i)
    ensures SelectSlot(s.slots, s.jobs[id].profile) == Some(SelectedSlot(i, configure))
    ensures var t := AdmitNext(s, now);
      && t.jobs == s.jobs[id := s.jobs[id].(status := Admitted, slot := Some(i))]
      && (exists target, reclaims, time ::
            t.slots[i] == AdmittedSlot(s.slots[i], id, MachineOf(s.jobs[id].profile), configure, target, reclaims, time))
      && forall j: SlotIndex :: j != i ==> SameMachine(s.slots[j], t.slots[j])
  {
    var plan;
    configure, plan := AdmissionTaken(s, now, id, i);
    hide AdmitNext, Admit, SelectSlot, TargetMaxInstances, PlanOn, AdmittedSlot, SameMachine, Reducible;
    PlanReduces(s.slots, i, s.jobs[id].profile.resources, TargetMaxInstances(s.slots[i], configure));
    RowOfAdmission(s, id, i, configure, plan.reductions, now);
    forall j: SlotIndex | j != i
      ensures SameMachine(s.slots[j], AdmitNext(s, now).slots[j])
    {
      OtherMachinesStay(s, id, i, configure, plan.reductions, now, j);
    }
  }

  lemma {:induction false} AdmissionServes(s: State, now: int, catalogue: Catalogue, i: SlotIndex)
    requires ServesHolders(s, i) && SlotOk(s, i) && AllConform(s.jobs, catalogue) && 0 <= Surplus(s, i)
    ensures var t := AdmitNext(s, now); ServesHolders(t, i) && SlotOk(t, i)
  {
    var t := AdmitNext(s, now);
    AdmitNextJobs(s, now);
    if t != s {
      var id :| id in s.jobs && s.jobs[id].status.Queued? && id in t.jobs
        && t.jobs == s.jobs[id := s.jobs[id].(status := Admitted, slot := t.jobs[id].slot)] && t.jobs[id].slot.Some?;
      var j := t.jobs[id].slot.value;
      var configure := TakenIsAdmitted(s, now, id, j);
      hide AdmitNext, SelectSlot;
      if j == i {
        AdmittedSlotServes(s, id, i, configure, t, catalogue);
      } else {
        hide ActiveOn, AllConform, AdmittedSlot;
        forall other | other in t.jobs && t.jobs[other].Holds() == Some(i)
          ensures Serves(t.slots[i], t.jobs[other].profile)
        {
          assert other in s.jobs && s.jobs[other].Holds() == Some(i);
        }
      }
    }
  }

  // ---------------------------------------------------------------- whole runs

  /** Before and after the admission the slot has as many reservations to spare. */
  lemma {:induction false} ActedSurplus(s: State, e: Event, now: int, i: SlotIndex)
    requires Possible(s, e, now)
    ensures Surplus(Acted(s, e, now), i) == Surplus(Step(s, e, now), i)
  {
    StepSplits(s, e, now);
    AdmitNextBalanced(Acted(s, e, now), now, i);
    hide Step, Acted, AdmitNext, Admits, ActiveOn;
  }

  lemma {:induction false} ActKeepsConforming(s: State, e: Event, now: int, catalogue: Catalogue)
    requires Possible(s, e, now) && AllConform(s.jobs, catalogue) && (e.Submit? ==> Conforms(e.profile, catalogue))
    ensures AllConform(Acted(s, e, now).jobs, catalogue)
  {
    if e.Submit? && e.id !in s.jobs {
      hide Step, AdmitNext, ScheduleAlarm;
    } else {
      forall id | id in Acted(s, e, now).jobs
        ensures Conforms(Acted(s, e, now).jobs[id].profile, catalogue)
      {
        ActedIds(s, e, now, id);
        ActedMoves(s, e, now, id);
        hide Acted, StatusMoves, RunnerMoves, Possible;
      }
    }
  }

  lemma {:induction false} ActedIds(s: State, e: Event, now: int, id: JobId)
    requires Possible(s, e, now) && id in Acted(s, e, now).jobs && !(e.Submit? && e.id !in s.jobs)
    ensures id in s.jobs
  {
    StepSplits(s, e, now);
    AdmitNextJobs(Acted(s, e, now), now);
    if e.Submit? {
      hide AdmitNext;
    } else {
      SameIds(s, e, now);
      hide AdmitNext, Step, Acted, Admits;
    }
  }

  lemma {:induction false} StepKeepsMachines(s: State, e: Event, now: int, t: State, catalogue: Catalogue, i: SlotIndex)
    requires Leads(s, e, now, t) && ServesOk(s, i) && AllConform(s.jobs, catalogue) && QueuedHaveNoSlot(s.jobs)
    requires (e.Submit? ==> Conforms(e.profile, catalogue)) && 0 <= Surplus(t, i)
    ensures ServesOk(t, i)
  {
    var acted := Acted(s, e, now);
    ActedSurplus(s, e, now, i);
    ActServes(s, e, now, catalogue, i);
    ActKeepsConforming(s, e, now, catalogue);
    StepSplits(s, e, now);
    hide Step, Acted, AdmitNext, Admits, Surplus, Possible, ServesHolders, SlotOk;
    AdmissionServes(acted, now, catalogue, i);
    if !Admits(s, e, now) {
      SameSlotServes(acted, t, i);
    } else {
      SameSlotServes(AdmitNext(acted, now), t, i);
    }
  }

  lemma {:induction false} SameSlotServes(s: State, t: State, i: SlotIndex)
    requires SameTables(s, t) && ServesHolders(s, i) && SlotOk(s, i)
    ensures ServesHolders(t, i) && SlotOk(t, i)
  {
  }

  lemma {:induction false} FirstMachines(i: SlotIndex)
    ensures ServesOk(Initial(), i)
  {
  }

  lemma {:induction false} MachinesInRun(run: Run, n: nat, catalogue: Catalogue, i: SlotIndex)
    requires run.Valid() && n < |run.states| && SubmitsConform(run, catalogue)
    requires forall k :: 0 <= k < n ==> !Uncovers(run.states[k], run.moments[k].event, i)
    ensures ServesOk(run.states[n], i)
  {
    if n == 0 {
      FirstMachines(i);
    } else {
      hide Initial, Leads, ServesOk, Uncovers, Conforms, ActiveOn;
      MachinesInRun(run, n - 1, catalogue, i);
      BudgetInRun(run, n - 1, catalogue);
      CountsHoldExactlyWhen(run, 0, n, i);
      assert run.Follows(n - 1);
      hide WithinBudget, AllConform, QueuedHaveNoSlot;
      StepKeepsMachines(run.states[n - 1], run.moments[n - 1].event, run.moments[n - 1].now, run.states[n], catalogue, i);
    }
  }

  /**
   * As long as no recovery has uncovered the slot, every active job on it has asked for the machine that the slot has,
   * or is being given; an idle slot has none.
   */
  lemma {:induction false} JobsRunOnTheirMachine(run: Run, n: nat, catalogue: Catalogue, i: SlotIndex, id: JobId)
    requires run.Valid() && n < |run.states| && SubmitsConform(run, catalogue)
    requires forall k :: 0 <= k < n ==> !Uncovers(run.states[k], run.moments[k].event, i)
    requires id in ActiveOn(run.states[n].jobs, i)
    ensures var slot, profile := run.states[n].slots[i], run.states[n].jobs[id].profile;
      match slot.state
      case Ready => slot.shape == Some(Shape(profile.key, profile.resources))
      case Configuring => slot.pending == Some(Shape(profile.key, profile.resources))
      case Idle => false
  {
    MachinesInRun(run, n, catalogue, i);
    hide Uncovers, Initial, Leads;
  }

  // ---------------------------------------------------------------- machines are the catalogue's

  /** The catalogue knows the preset machines as the scheduler starts with them. */
  ghost predicate KnowsPresets(catalogue: Catalogue) {
    forall i: SlotIndex :: ShapeConforms(Initial().slots[i].shape, catalogue)
  }

  /** The slot gets no other machine than the one it was being given, and is given a new one by admissions only. */
  predicate MachineMoves(a: Slot, b: Slot) {
    && (b.shape == a.shape || b.shape == a.pending)
    && (b.pending == a.pending || b.pending.None?)
  }

  lemma {:induction false} ReleaseAllMoves(s: State, ids: seq<JobId>, now: int, i: SlotIndex)
    ensures var t := ReleaseAll(s, ids, now); t.slots[i].shape == s.slots[i].shape && t.slots[i].pending == s.slots[i].pending
    decreases |ids|
  {
    if ids != [] {
      ReleaseAllMoves(
        if ids[0] in s.jobs then ReleaseJob(s, ids[0], s.jobs[ids[0]].slot, Completed, now) else s, ids[1..], now, i);
    }
  }

  lemma {:induction false} EndingMovesMachine(s: State, e: Event, now: int, i: SlotIndex)
    requires Possible(s, e, now) && EndingOf(s, e, now).Some?
    ensures MachineMoves(s.slots[i], Acted(s, e, now).slots[i])
  {
    hide Step;
  }

  lemma {:induction false} RestartMovesMachine(s: State, ids: seq<JobId>, now: int, i: SlotIndex)
    ensures MachineMoves(s.slots[i], Restart(s, ids, now).slots[i])
  {
    ReleaseAllMoves(ReconcileReservations(s), ids, now, i);
    hide ReleaseAll, DueTimes;
  }

  lemma {:induction false} AdmittingMovesMachine(s: State, e: Event, now: int, i: SlotIndex)
    requires Possible(s, e, now) && Admits(s, e, now) && EndingOf(s, e, now).None?
    ensures MachineMoves(s.slots[i], Acted(s, e, now).slots[i])
  {
    if e.AlarmFinished? {
      ReleaseHoldsLeave(s, CUSTOM_ROWS, now, i);
    }
    hide Step, ReleaseHolds;
  }

  lemma {:induction false} RestartStepMovesMachine(s: State, e: Event, now: int, i: SlotIndex)
    requires Possible(s, e, now) && e.Restarted?
    ensures MachineMoves(s.slots[i], Step(s, e, now).slots[i])
  {
    RestartMovesMachine(s, e.releasing, now, i);
    hide Restart;
  }

  lemma {:induction false} OtherMovesMachine(s: State, e: Event, now: int, i: SlotIndex)
    requires Possible(s, e, now) && QueuedHaveNoSlot(s.jobs) && !Admits(s, e, now)
    ensures MachineMoves(s.slots[i], Step(s, e, now).slots[i])
  {
    hide Step, Possible, Admits, QueuedHaveNoSlot;
    if e.Restarted? {
      RestartStepMovesMachine(s, e, now, i);
    } else if Plain(e) {
      PlainLeaves(s, e, now, i);
    } else {
      NotedLeaves(s, e, now, i);
    }
  }

  lemma {:induction false} ActMovesMachine(s: State, e: Event, now: int, i: SlotIndex)
    requires Possible(s, e, now) && QueuedHaveNoSlot(s.jobs)
    ensures MachineMoves(s.slots[i], Acted(s, e, now).slots[i])
  {
    hide Step, Possible, Admits, QueuedHaveNoSlot, EndingOf, Acted, MachineMoves;
    if !Admits(s, e, now) {
      OtherMovesMachine(s, e, now, i);
      NotAdmittingActs(s, e, now);
    } else if EndingOf(s, e, now).Some? {
      EndingMovesMachine(s, e, now, i);
    } else {
      AdmittingMovesMachine(s, e, now, i);
    }
  }

  ghost predicate Regarded(s: State, t: State, i: SlotIndex) {
    && (t.slots[i].shape == s.slots[i].shape || exists id :: id in s.jobs && t.slots[i].shape == Some(MachineOf(s.jobs[id].profile)))
    && (t.slots[i].pending == s.slots[i].pending || t.slots[i].pending.None?
        || exists id :: id in s.jobs && t.slots[i].pending == Some(MachineOf(s.jobs[id].profile)))
  }

  lemma {:induction false} AdmissionRegards(s: State, now: int, i: SlotIndex)
    ensures Regarded(s, AdmitNext(s, now), i)
  {
    var t := AdmitNext(s, now);
    AdmitNextJobs(s, now);
    if t != s {
      var id :| id in s.jobs && s.jobs[id].status.Queued? && id in t.jobs
        && t.jobs == s.jobs[id := s.jobs[id].(status := Admitted, slot := t.jobs[id].slot)] && t.jobs[id].slot.Some?;
      var configure := TakenIsAdmitted(s, now, id, t.jobs[id].slot.value);
    }
    hide AdmitNext, SelectSlot;
  }

  lemma {:induction false} StepKeepsShapes(s: State, e: Event, now: int, t: State, catalogue: Catalogue)
    requires Leads(s, e, now, t) && ShapesConform(s, catalogue) && AllConform(s.jobs, catalogue) && QueuedHaveNoSlot(s.jobs)
    requires e.Submit? ==> Conforms(e.profile, catalogue)
    ensures ShapesConform(Acted(s, e, now), catalogue) && ShapesConform(t, catalogue)
  {
    hide Leads, ShapesConform, AllConform, Acted, Conforms;
    LedIsPossible(s, e, now, t);
    hide Possible, Step;
    ActKeepsConforming(s, e, now, catalogue);
    ActKeepsShapes(s, e, now, catalogue);
    AdmissionKeepsShapes(Acted(s, e, now), now, catalogue);
    StepSplits(s, e, now);
    SameShapes(if Admits(s, e, now) then AdmitNext(Acted(s, e, now), now) else Acted(s, e, now), t, catalogue);
    hide Admits;
  }

  lemma {:induction false} ActKeepsShapes(s: State, e: Event, now: int, catalogue: Catalogue)
    requires Possible(s, e, now) && ShapesConform(s, catalogue) && QueuedHaveNoSlot(s.jobs)
    ensures ShapesConform(Acted(s, e, now), catalogue)
  {
    forall i: SlotIndex
      ensures ShapeConforms(Acted(s, e, now).slots[i].shape, catalogue) && ShapeConforms(Acted(s, e, now).slots[i].pending, catalogue)
    {
      ActMovesMachine(s, e, now, i);
      hide Acted, Possible, QueuedHaveNoSlot;
    }
    hide Acted, Possible, QueuedHaveNoSlot;
  }

  lemma {:induction false} AdmissionKeepsShapes(s: State, now: int, catalogue: Catalogue)
    requires ShapesConform(s, catalogue) && AllConform(s.jobs, catalogue)
    ensures ShapesConform(AdmitNext(s, now), catalogue)
  {
    forall i: SlotIndex
      ensures ShapeConforms(AdmitNext(s, now).slots[i].shape, catalogue)
      ensures ShapeConforms(AdmitNext(s, now).slots[i].pending, catalogue)
    {
      AdmissionRegards(s, now, i);
      hide AdmitNext;
    }
    hide AdmitNext;
  }

  lemma {:induction false} SameShapes(s: State, t: State, catalogue: Catalogue)
    requires SameTables(s, t) && ShapesConform(s, catalogue)
    ensures ShapesConform(t, catalogue)
  {
  }

  lemma {:induction false} ShapesInRun(run: Run, n: nat, catalogue: Catalogue)
    requires run.Valid() && n < |run.states| && SubmitsConform(run, catalogue) && KnowsPresets(catalogue)
    ensures ShapesConform(run.states[n], catalogue)
  {
    if n == 0 {
      FirstShapes(catalogue);
    } else {
      hide Initial, Leads, ShapesConform, KnowsPresets, Conforms;
      ShapesInRun(run, n - 1, catalogue);
      BudgetInRun(run, n - 1, catalogue);
      assert run.Follows(n - 1);
      StepKeepsShapes(run.states[n - 1], run.moments[n - 1].event, run.moments[n - 1].now, run.states[n], catalogue);
    }
  }

  lemma {:induction false} FirstShapes(catalogue: Catalogue)
    requires KnowsPresets(catalogue)
    ensures ShapesConform(Initial(), catalogue)
  {
  }

  lemma {:induction false} ConformingRows(s: State, catalogue: Catalogue)
    requires ShapesConform(s, catalogue)
    ensures NonNegativeResources(CapacityRows(s.slots))
  {
    var rows := CapacityRows(s.slots);
    forall i | 0 <= i < |rows| && rows[i].resources.Some?
      ensures rows[i].resources.value.NonNegative()
    {
      assert ShapeConforms(s.slots[i].shape, catalogue);
    }
  }

  // ---------------------------------------------------------------- admissions in a run

  lemma {:induction false} AdmittedIsTaken(s: State, e: Event, now: int, t: State, id: JobId)
    requires Leads(s, e, now, t) && IsAdmittedBy(s, t, id)
    ensures Admits(s, e, now) && t.jobs[id].slot.Some? && id in Acted(s, e, now).jobs
    ensures Takes(Acted(s, e, now), AdmitNext(Acted(s, e, now), now), id, t.jobs[id].slot.value)
  {
    var acted := Acted(s, e, now);
    StepSplits(s, e, now);
    NobodyIsAdmittedBefore(s, e, now, id);
    AdmitNextJobs(acted, now);
    hide Step, Acted, Admits, AdmitNext, Possible;
  }

  /**
   * Whatever step of a run admits a job, the plan that the admission was granted on is carried out: every other slot is
   * as the step left it before, or idle and lowered at once by an operation recorded now, and all machines together fit
   * the account with the ceilings that are asked for then.
   */
  lemma {:induction false} EveryAdmissionFits(run: Run, n: nat, id: JobId, catalogue: Catalogue)
    requires run.Valid() && n < |run.moments| && SubmitsConform(run, catalogue) && KnowsPresets(catalogue)
    requires IsAdmittedBy(run.states[n], run.states[n + 1], id)
    ensures run.Follows(n) && run.states[n + 1].jobs[id].slot.Some?
    ensures var (e, now, t) := (run.moments[n].event, run.moments[n].now, run.states[n + 1]);
      var acted, i := Acted(run.states[n], e, now), t.jobs[id].slot.value;
      && (forall j: SlotIndex :: j != i ==> Untouched(acted, t, j) || Lowered(acted, t, j, now))
      && AskedTotal(acted, t, i, t.jobs[id].profile.resources).Within(ACCOUNT_LIMIT)
  {
    hide Initial, KnowsPresets, Conforms, Leads, ShapesConform;
    assert run.Follows(n);
    var s, e, now, t := run.states[n], run.moments[n].event, run.moments[n].now, run.states[n + 1];
    ShapesInRun(run, n, catalogue);
    BudgetInRun(run, n, catalogue);
    StepKeepsShapes(s, e, now, t, catalogue);
    LedIsPossible(s, e, now, t);
    ConformingRows(Acted(s, e, now), catalogue);
    AdmittedIsTaken(s, e, now, t, id);
    StepSplits(s, e, now);
    hide Step, Acted, Admits, Possible, CapacityRows;
    AdmissionCarriesOutItsPlan(Acted(s, e, now), now, id, t.jobs[id].slot.value);
    AdmissionKeepsProfile(Acted(s, e, now), now, id);
    SameTablesAsk(Acted(s, e, now), AdmitNext(Acted(s, e, now), now), t, t.jobs[id].slot.value, t.jobs[id].profile.resources, now);
  }

  lemma {:induction false} AdmissionKeepsProfile(s: State, now: int, id: JobId)
    requires id in s.jobs
    ensures id in AdmitNext(s, now).jobs && AdmitNext(s, now).jobs[id].profile == s.jobs[id].profile
  {
    AdmitNextJobs(s, now);
    hide AdmitNext;
  }

  lemma {:induction false} SameTablesAsk(s: State, t: State, u: State, i: SlotIndex, resources: Resources, now: int)
    requires SameTables(t, u)
    ensures AskedTotal(s, t, i, resources) == AskedTotal(s, u, i, resources)
    ensures forall j: SlotIndex :: (Untouched(s, t, j) ==> Untouched(s, u, j)) && (Lowered(s, t, j, now) ==> Lowered(s, u, j, now))
  {
    hide Resources.Times, Total;
    assert seq(SLOTS, j requires 0 <= j < SLOTS => AskedCost(s, t, i, resources, j))
      == seq(SLOTS, j requires 0 <= j < SLOTS => AskedCost(s, u, i, resources, j));
  }

  /**
   * After a step that submits, ends or displaces a job, ends a configuration or ends an alarm, there is no admissible job
   * at the head of the queue, unless the step has admitted another one.
   */
  lemma {:induction false} NoRoomIsLeftUnused(run: Run, n: nat, catalogue: Catalogue)
    requires run.Valid() && n < |run.moments| && SubmitsConform(run, catalogue) && KnowsPresets(catalogue)
    ensures run.Follows(n)
    ensures Admits(run.states[n], run.moments[n].event, run.moments[n].now) && SomeoneAdmissible(run.states[n + 1]) ==>
      SomeoneAdmitted(run.states[n], run.states[n + 1])
  {
    hide Initial, KnowsPresets, Conforms, Leads, ShapesConform;
    assert run.Follows(n);
    var s, e, now, t := run.states[n], run.moments[n].event, run.moments[n].now, run.states[n + 1];
    LedIsPossible(s, e, now, t);
    if Admits(s, e, now) {
      ShapesInRun(run, n, catalogue);
      BudgetInRun(run, n, catalogue);
      StepKeepsShapes(s, e, now, t, catalogue);
      ConformingRows(Acted(s, e, now), catalogue);
      RoomIsOffered(s, e, now, t);
    }
    hide Step, Acted, Admits, Possible, CapacityRows, SomeoneAdmissible;
  }
}
