/**
 * Single steps of the scheduler while only the smallest preset is in use, and what they do to a run and to the platform's
 * ceiling along it.
 */
module SchedulerStorySteps {
  import opened AccountResources
  import opened SchedulerCeilings
  import opened SchedulerModel
  import opened SchedulerPolicy
  import opened SchedulerRuns
  import opened SchedulerUpdates
  import opened Wrappers

  // ---------------------------------------------------------------- one preset slot

  const LITE: SlotIndex := 11

  function Lite(): Profile {
    Profile(false, "lite", Resources(1, 256, 2_000))
  }

  function LiteShape(): Shape {
    Shape("lite", Resources(1, 256, 2_000))
  }

  /** All other slots are as they were at first. */
  function Table(row: Slot): SlotTable {
    InitialSlots()[LITE := row]
  }

  lemma {:induction false} RowOfTable(s: State, row: Slot)
    requires s.slots == Table(row)
    ensures s.slots[LITE] == row
  {
  }

  lemma {:induction false} FirstTable()
    ensures Initial().slots == Table(EmptySlot(Some(LiteShape())))
    ensures Initial().jobs == map[] && Initial().operations == map[] && Initial().run == NoRun
  {
  }

  const LARGEST := Resources(64, 12_288, 20_000)

  lemma {:induction false} OtherRowsAreSmall(i: SlotIndex)
    requires i != LITE
    ensures CapacityRow(i, InitialSlots()[i]).Cost().Within(LARGEST)
  {
  }

  lemma {:induction false} OtherRowsAreSettled(row: Slot, i: SlotIndex)
    requires i != LITE
    ensures var slot := Table(row)[i]; slot.desired == slot.applied && !slot.updating && slot.state != Configuring
  {
  }

  lemma {:induction false} TotalBound(costs: seq<Resources>)
    requires forall i :: 0 <= i < |costs| ==> costs[i].Within(LARGEST)
    ensures Total(costs).Within(LARGEST.Times(|costs|))
  {
    if costs != [] {
      var rest := costs[..|costs| - 1];
      assert forall i :: 0 <= i < |rest| ==> rest[i] == costs[i];
      TotalBound(rest);
    }
  }

  /** A few instances of the smallest preset beside the other presets are far below the account's limit. */
  lemma {:induction false} PlanFits(row: Slot, target: int)
    requires 1 <= target <= 4
    ensures var plan := PlanOn(Table(row), LITE, Lite().resources, target);
      plan.Some? && plan.value.reductions == []
  {
    var slots, wanted := CapacityRows(Table(row)), CapacityTarget(LITE, Lite().resources, target);
    assert slots[LITE].slotId == LITE;
    var costs := Costs(WithTarget(slots, wanted));
    forall i | 0 <= i < |costs|
      ensures costs[i].Within(LARGEST)
    {
      if i != LITE {
        OtherRowsAreSmall(i);
        assert Table(row)[i] == InitialSlots()[i];
      }
    }
    hide InitialSlots;
    TotalBound(costs);
    var donors := Donors(slots, LITE, |slots|);
    assert forall i :: 0 <= i < |donors| ==> donors[i] in donors;
    ReclaimEnds(slots, donors, ConfiguredCapacity(WithTarget(slots, wanted)), ACCOUNT_LIMIT);
    hide Reclaim, Donors;
  }

  ghost predicate LiteOnly(jobs: map<JobId, Job>) {
    |jobs| <= 4 && forall id :: id in jobs ==> jobs[id].profile == Lite()
  }

  lemma {:induction false} TotalOfLite(jobs: map<JobId, Job>, ids: set<JobId>)
    requires ids <= jobs.Keys && forall id :: id in jobs ==> jobs[id].profile.resources == Resources(1, 256, 2_000)
    ensures TotalOf(jobs, ids) == Resources(|ids|, 256 * |ids|, 2_000 * |ids|)
    decreases |ids|
  {
    if ids != {} {
      var id :| id in ids && TotalOf(jobs, ids) == jobs[id].profile.resources.Plus(TotalOf(jobs, ids - {id}));
      assert id in jobs;
      TotalOfLite(jobs, ids - {id});
      assert jobs[id].profile.resources == Resources(1, 256, 2_000);
      assert |ids - {id}| == |ids| - 1;
      assert TotalOf(jobs, ids - {id}) == Resources(|ids| - 1, 256 * (|ids| - 1), 2_000 * (|ids| - 1));
      assert TotalOf(jobs, ids) == Resources(1, 256, 2_000).Plus(TotalOf(jobs, ids - {id}));
    }
  }

  lemma {:induction false} SubsetSize(a: set<JobId>, b: set<JobId>)
    requires a <= b
    ensures |a| <= |b|
  {
    if a != {} {
      var x :| x in a;
      SubsetSize(a - {x}, b - {x});
    }
  }

  lemma {:induction false} ReservationsFit(jobs: map<JobId, Job>)
    requires LiteOnly(jobs)
    ensures FitsAccountCapacity(ReservedResources(jobs), Lite().resources, ACCOUNT_LIMIT)
  {
    TotalOfLite(jobs, ActiveIds(jobs));
    SubsetSize(ActiveIds(jobs), jobs.Keys);
    hide TotalOf, ActiveIds;
  }

  /** What an admission to the slot makes of its row and its operations. */
  function AdmittedRow(row: Slot, now: int): Slot {
    var target := Max(row.applied, row.reserved + 1);
    row.(reserved := row.reserved + 1, desired := target, pending := None, reclaimPending := false,
         debounceUntil := if target > row.applied || row.updating then CapacityDebounceDeadline(now) else row.debounceUntil,
         generation := row.generation + 1)
  }

  function AdmittedOperations(row: Slot, operations: Operations, now: int): Operations {
    var target := Max(row.applied, row.reserved + 1);
    if row.updating || target > row.applied then RecordOperation(operations, LITE, row.generation + 1, target, now)
    else operations
  }

  ghost predicate OnlyQueued(jobs: map<JobId, Job>, id: JobId) {
    id in jobs && jobs[id].status.Queued? && forall other :: other in jobs && jobs[other].status.Queued? ==> other == id
  }

  lemma {:induction false} OnlyQueuedIsNext(jobs: map<JobId, Job>, id: JobId)
    requires OnlyQueued(jobs, id)
    ensures NextQueued(jobs) == Some(id)
  {
    assert IsNextQueued(jobs, id);
  }

  lemma {:induction false} LiteIsSelected(slots: SlotTable)
    ensures SelectSlot(slots, Lite()) == Some(SelectedSlot(LITE, false))
  {
  }

  lemma {:induction false} LiteFits(s: State, id: JobId, row: Slot)
    requires s.slots == Table(row) && row.state == Ready && 0 <= row.applied <= 4 && row.reserved < 4
    requires LiteOnly(s.jobs) && OnlyQueued(s.jobs, id)
    ensures NextQueued(s.jobs) == Some(id) && SelectSlot(s.slots, Lite()) == Some(SelectedSlot(LITE, false))
    ensures FitsAccountCapacity(ReservedResources(s.jobs), Lite().resources, ACCOUNT_LIMIT)
    ensures var plan := PlanOn(s.slots, LITE, Lite().resources, TargetMaxInstances(s.slots[LITE], false));
      plan.Some? && plan.value.reductions == []
  {
    OnlyQueuedIsNext(s.jobs, id);
    ReservationsFit(s.jobs);
    LiteIsSelected(s.slots);
    PlanFits(row, Max(row.applied, row.reserved + 1));
    RowOfTable(s, row);
    hide Table, OnlyQueued, PlanOn, NextQueued, SelectSlot, ReservedResources, Lite, LiteOnly;
  }

  lemma {:induction false} AdmitsLite(s: State, id: JobId, row: Slot, now: int)
    requires s.slots == Table(row) && row.state == Ready && row.shape == Some(LiteShape())
    requires 0 <= row.applied <= 4 && row.reserved < 4
    requires LiteOnly(s.jobs) && OnlyQueued(s.jobs, id)
    ensures AdmitNext(s, now)
      == s.(jobs := s.jobs[id := s.jobs[id].(status := Admitted, slot := Some(LITE))], slots := Table(AdmittedRow(row, now)),
            operations := AdmittedOperations(row, s.operations, now))
  {
    LiteFits(s, id, row);
    hide AdmittedRow, AdmittedOperations, Table, AdmitNext, Admit, PlanOn, NextQueued, SelectSlot, FitsAccountCapacity;
    AdmissionOnLite(s, id, row, now);
    AdmitNextIs(s, id, SelectedSlot(LITE, false), now);
  }

  lemma {:induction false} AdmitNextIs(s: State, id: JobId, selected: SelectedSlot, now: int)
    requires NextQueued(s.jobs) == Some(id) && id in s.jobs && selected.slotId < SLOTS
    requires FitsAccountCapacity(ReservedResources(s.jobs), s.jobs[id].profile.resources, ACCOUNT_LIMIT)
    requires SelectSlot(s.slots, s.jobs[id].profile) == Some(selected)
    requires var target := TargetMaxInstances(s.slots[selected.slotId], selected.requiresConfiguration);
      var plan := PlanOn(s.slots, selected.slotId, s.jobs[id].profile.resources, target);
      plan.Some? && plan.value.reductions == []
    ensures AdmitNext(s, now) == Admit(s, id, selected, [], now)
  {
    hide Admit, PlanOn, SelectSlot, NextQueued, ReservedResources, FitsAccountCapacity;
  }

  lemma {:induction false} AdmissionOnLite(s: State, id: JobId, row: Slot, now: int)
    requires s.slots == Table(row) && row.state == Ready && id in s.jobs
    requires row.shape == Some(Shape(s.jobs[id].profile.key, s.jobs[id].profile.resources))
    ensures Admit(s, id, SelectedSlot(LITE, false), [], now)
      == s.(jobs := s.jobs[id := s.jobs[id].(status := Admitted, slot := Some(LITE))], slots := Table(AdmittedRow(row, now)),
            operations := AdmittedOperations(row, s.operations, now))
  {
    hide InitialSlots;
  }

  lemma {:induction false} NothingToAdmit(s: State, now: int)
    requires forall id :: id in s.jobs ==> !s.jobs[id].status.Queued?
    ensures AdmitNext(s, now) == s
  {
  }

  // ---------------------------------------------------------------- single steps

  /** What the stories follow of a state. The alarm's time is left open. */
  ghost predicate At(s: State, jobs: map<JobId, Job>, row: Slot, operations: Operations, run: AlarmRun) {
    s.jobs == jobs && s.slots == Table(row) && s.operations == operations && s.run == run
  }

  lemma {:induction false} SchedulingKeeps(s: State, now: int, due: int)
    requires due in DueTimes(s, now)
    ensures var t := ScheduleAlarm(s, now); t.alarm.Some? && t == s.(alarm := t.alarm, scheduledAt := now)
  {
    hide DueTimes;
  }

  function LiteJob(name: string, repository: string, createdAt: int): Job {
    Job(name, repository, Lite(), Admitted, Some(LITE), createdAt, None, 1, false, false, None, NoCleanup, None)
  }

  lemma {:induction false} SubmitLeads(
      s: State, id: JobId, name: string, repository: string, row: Slot, operations: Operations, run: AlarmRun, now: int)
    requires At(s, s.jobs, row, operations, run) && id !in s.jobs
    requires row.state == Ready && row.shape == Some(LiteShape()) && 0 <= row.applied <= 4 && row.reserved < 4
    requires |s.jobs| < 4 && LiteOnly(s.jobs) && forall other :: other in s.jobs ==> !s.jobs[other].status.Queued?
    ensures var t := Step(s, Submit(id, name, repository, Lite()), now);
      && Leads(s, Submit(id, name, repository, Lite()), now, t)
      && At(t, s.jobs[id := LiteJob(name, repository, now)], AdmittedRow(row, now), AdmittedOperations(row, operations, now),
            run)
      && t.alarm.Some?
  {
    var queued := s.(jobs := s.jobs[id := NewJob(name, repository, Lite(), now)]);
    hide AdmitNext, ScheduleAlarm, DueTimes, Table, AdmittedRow, AdmittedOperations, Lite, LiteShape;
    AdmitsLite(queued, id, row, now);
    hide LiteOnly, OnlyQueued;
    var admitted := AdmitNext(queued, now);
    assert admitted.jobs == s.jobs[id := LiteJob(name, repository, now)];
    WaitingIsDue(admitted, id, now);
    SchedulingKeeps(admitted, now, now + SCHEDULER_ALARM_DELAY_MS);
  }

  lemma {:induction false} WaitingIsDue(s: State, id: JobId, now: int)
    requires id in s.jobs && s.jobs[id].status.Waiting()
    ensures now + SCHEDULER_ALARM_DELAY_MS in DueTimes(s, now)
  {
  }

  lemma {:induction false} ClaimLeads(s: State, id: JobId, row: Slot, now: int)
    requires s.slots == Table(row) && id in s.jobs && s.jobs[id].status.Admitted? && s.jobs[id].slot == Some(LITE)
    requires row.state == Ready && !row.updating && !row.reclaimPending && row.desired <= row.applied
    ensures Leads(s, Claim(id, s.jobs[id].runnerName), now,
                  s.(jobs := s.jobs[id := s.jobs[id].(status := Provisioning, ownerScoped := true)]))
  {
    hide InitialSlots;
  }

  lemma {:induction false} CreateLeads(s: State, id: JobId, runnerId: int, now: int)
    requires id in s.jobs && s.jobs[id].status.Provisioning?
    ensures var t := Step(s, RunnerCreated(id, s.jobs[id].runnerName, runnerId), now);
      && Leads(s, RunnerCreated(id, s.jobs[id].runnerName, runnerId), now, t)
      && t == s.(jobs := s.jobs[id := s.jobs[id].(runnerId := Some(runnerId))], runners := t.runners)
  {
  }

  lemma {:induction false} StartLeads(s: State, id: JobId, now: int)
    requires id in s.jobs && s.jobs[id].status.Provisioning?
    requires forall other :: other in s.jobs && other != id ==> s.jobs[other].runnerName != s.jobs[id].runnerName
    ensures Leads(s, ContainerStarted(s.jobs[id].runnerName), now, s.(jobs := s.jobs[id := s.jobs[id].(status := Running)]))
  {
    assert RunnerStarted(s, s.jobs[id].runnerName).jobs == s.jobs[id := s.jobs[id].(status := Running)];
  }

  lemma {:induction false} StopLeads(s: State, id: JobId, now: int)
    requires id in s.jobs && s.jobs[id].status.Running?
    ensures var e := ContainerStopped(s.jobs[id].runnerName, Some(id));
      var t := Step(s, e, now);
      && Leads(s, e, now, t) && t.alarm.Some?
      && t == s.(jobs := s.jobs[id := s.jobs[id].(status := StoppedAwaitingCompletion,
                                                  recoveryDue := Some(now + RUNNER_COMPLETION_GRACE_MS))],
                 alarm := t.alarm, scheduledAt := now)
  {
    var stopped := s.(jobs := s.jobs[id := s.jobs[id].(status := StoppedAwaitingCompletion,
                                                       recoveryDue := Some(now + RUNNER_COMPLETION_GRACE_MS))]);
    assert now + RUNNER_COMPLETION_GRACE_MS in DueTimes(stopped, now) by {
      assert id in stopped.jobs && stopped.jobs[id].status.Recoverable();
    }
    SchedulingKeeps(stopped, now, now + RUNNER_COMPLETION_GRACE_MS);
    hide DueTimes, ScheduleAlarm, AdmitNext;
  }

  /** A job is released from its slot while nothing is queued. */
  lemma {:induction false} CompleteLeads(s: State, id: JobId, row: Slot, now: int)
    requires s.slots == Table(row) && id in s.jobs && s.jobs[id].slot == Some(LITE)
    requires s.jobs[id].status.Admitted? || s.jobs[id].status.StoppedAwaitingCompletion?
    requires forall other :: other in s.jobs ==> !s.jobs[other].status.Queued?
    ensures var status := if s.jobs[id].status.Admitted? then Cancelled else Completed;
      var t := Step(s, CompletionReported(id), now);
      && Leads(s, CompletionReported(id), now, t)
      && t == s.(jobs := s.jobs[id := s.jobs[id].(status := status, recoveryDue := None)],
                 slots := Table(ReleasedSlot(row, now)), alarm := t.alarm, scheduledAt := now)
  {
    var status := if s.jobs[id].status.Admitted? then Cancelled else Completed;
    var released := ReleaseJob(s, id, Some(LITE), status, now);
    NothingToAdmit(released, now);
    hide InitialSlots, AdmitNext, DueTimes;
    assert released.slots == Table(ReleasedSlot(row, now));
  }

  // ---------------------------------------------------------------- runs

  /** A run that has reached `s` and has not gone beyond `now`. */
  ghost predicate Reaches(run: Run, s: State, now: int) {
    && run.Valid() && run.states[|run.moments|] == s
    && (|run.moments| > 0 ==> run.moments[|run.moments| - 1].now <= now)
  }

  lemma {:induction false} NoStepsYet() returns (run: Run)
    ensures Reaches(run, Initial(), 0) && run.moments == []
  {
    hide Initial;
    run := Run([Initial()], []);
  }

  lemma {:induction false} Extend(run: Run, s: State, from: int, e: Event, now: int, t: State) returns (longer: Run)
    requires Reaches(run, s, from) && from <= now && Leads(s, e, now, t)
    ensures Reaches(longer, t, now)
    ensures longer.moments == run.moments + [Moment(e, now)] && longer.states == run.states + [t]
  {
    hide Leads, Initial;
    longer := Run(run.states + [t], run.moments + [Moment(e, now)]);
    forall i | 0 <= i < |longer.moments|
      ensures longer.Follows(i)
    {
      assert i < |run.moments| ==> run.Follows(i);
    }
  }

  // ---------------------------------------------------------------- an update and its completion

  lemma {:induction false} FireEmptyLeads(s: State, now: int)
    requires s.run.NoRun? && s.alarm.Some? && s.alarm.value <= now
    requires forall id :: id in s.jobs ==> !s.jobs[id].status.Recoverable()
    ensures Leads(s, AlarmFired([]), now, s.(alarm := None, run := Recovering(now, [])))
  {
  }

  lemma {:induction false} DueAmongOnlyLite(row: Slot, reducing: bool, now: int, n: nat)
    requires n <= SLOTS
    ensures DueAmong(Table(row), reducing, now, n)
      == if LITE < n && UpdateDue(row, now) && (row.desired < row.applied) == reducing then [DueRow(LITE, row)] else []
  {
    if n > 0 {
      DueAmongOnlyLite(row, reducing, now, n - 1);
      if n - 1 != LITE {
        OtherRowsAreSettled(row, n - 1);
      }
      hide Table, UpdateDue;
      assert Table(row)[LITE] == row by { RowOfTable(Initial().(slots := Table(row)), row); }
    }
  }

  lemma {:induction false} NothingStalled(s: State, row: Slot, now: int)
    requires s.slots == Table(row) && !row.updating
    ensures RecoverStalledUpdates(s, now) == s
  {
    var t := RecoverStalledUpdates(s, now);
    forall i: SlotIndex
      ensures t.slots[i] == s.slots[i]
    {
      if i != LITE {
        OtherRowsAreSettled(row, i);
      }
    }
    assert t.slots == s.slots;
  }

  lemma {:induction false} SelectLeads(s: State, row: Slot, cutoff: int, now: int)
    requires s.slots == Table(row) && s.run == Recovering(cutoff, []) && UpdateDue(row, now)
    ensures Leads(s, UpdatesSelected, now, s.(run := Updating(cutoff, [DueRow(LITE, row)])))
  {
    NothingStalled(s, row, now);
    DueAmongOnlyLite(row, true, now, SLOTS);
    DueAmongOnlyLite(row, false, now, SLOTS);
    hide RecoverStalledUpdates, DueAmong, Table;
    assert DueRows(s.slots, now) == [DueRow(LITE, row)];
  }

  lemma {:induction false} UpdateLeads(s: State, row: Slot, cutoff: int, now: int)
    requires s.slots == Table(row) && s.run == Updating(cutoff, [DueRow(LITE, row)]) && !row.updating
    ensures Leads(s, UpdateStarted, now, s.(slots := Table(row.(updating := true, updateGeneration := row.generation)),
                                            run := Updating(cutoff, [])))
    ensures Asks(s, UpdateStarted, LITE, row.generation)
  {
    RowOfTable(s, row);
    assert s.slots[LITE := row.(updating := true, updateGeneration := row.generation)]
      == Table(row.(updating := true, updateGeneration := row.generation));
    assert [DueRow(LITE, row)][1..] == [];
    hide InitialSlots, Table;
  }

  /** The operation recorded for the second job's admission. */
  function Raise(state: OperationState, updatedAt: int): Operations {
    map[OperationKey(LITE, 2) := Operation(2, state, updatedAt)]
  }

  lemma {:induction false} SupersedingRaise(state: OperationState, updatedAt: int, now: int)
    ensures Superseding(Raise(state, updatedAt), LITE, 2, now) == Raise(Applied, now)
  {
  }

  lemma {:induction false} ReportLeads(s: State, row: Slot, state: OperationState, updatedAt: int, now: int)
    requires s.slots == Table(row) && s.operations == Raise(state, updatedAt)
    requires row.state == Ready && row.updating && row.updateGeneration == 2 && row.desired != 2
    ensures var t := Step(s, CapacityReported(LITE, 2), now);
      && Leads(s, CapacityReported(LITE, 2), now, t) && t.alarm.Some?
      && t == s.(slots := Table(row.(applied := 2, updating := false)), operations := Raise(Applied, now),
                 alarm := t.alarm, scheduledAt := now)
  {
    SupersedingRaise(state, updatedAt, now);
    RowOfTable(s, row);
    var reported := s.(slots := Table(row.(applied := 2, updating := false)), operations := Raise(Applied, now));
    assert s.slots[LITE := row.(applied := 2, updating := false)] == reported.slots;
    PendingIsDue(reported, row.(applied := 2, updating := false), now);
    SchedulingKeeps(reported, now, row.debounceUntil);
    hide DueTimes, ScheduleAlarm, Superseding, Table;
  }

  lemma {:induction false} PendingIsDue(s: State, row: Slot, now: int)
    requires s.slots == Table(row) && CapacityChangePending(row)
    ensures row.debounceUntil in DueTimes(s, now)
  {
    RowOfTable(s, row);
    hide Table;
  }

  lemma {:induction false} HoldsNothing(s: State, row: Slot, rows: seq<SlotIndex>, now: int)
    requires s.slots == Table(row) && row.state == Ready
    ensures ReleaseHolds(s, rows, now) == s
    decreases |rows|
  {
    if rows != [] {
      if rows[0] != LITE {
        OtherRowsAreSettled(row, rows[0]);
      } else {
        RowOfTable(s, row);
      }
      HoldsNothing(s, row, rows[1..], now);
    }
    hide Table, PlanOn;
  }

  lemma {:induction false} FinishesQuietly(s: State, row: Slot, cutoff: int, now: int)
    requires s.slots == Table(row) && s.run == Updating(cutoff, []) && row.state == Ready
    requires forall id :: id in s.jobs ==> !s.jobs[id].status.Queued?
    ensures Leads(s, AlarmFinished, now, ScheduleAlarm(s, now).(run := NoRun))
  {
    HoldsNothing(s, row, CUSTOM_ROWS, now);
    NothingToAdmit(s, now);
    AlarmFinishes(s, now);
  }

  lemma {:induction false} AlarmFinishes(s: State, now: int)
    requires s.run.Updating? && s.run.due == [] && ReleaseHolds(s, CUSTOM_ROWS, now) == s && AdmitNext(s, now) == s
    ensures Leads(s, AlarmFinished, now, ScheduleAlarm(s, now).(run := NoRun))
  {
    hide ScheduleAlarm, ReleaseHolds, AdmitNext;
  }

  lemma {:induction false} FinishLeads(s: State, row: Slot, cutoff: int, now: int)
    requires s.slots == Table(row) && s.run == Updating(cutoff, []) && CapacityChangePending(row)
    requires forall id :: id in s.jobs ==> !s.jobs[id].status.Queued?
    ensures var t := ScheduleAlarm(s, now).(run := NoRun);
      && Leads(s, AlarmFinished, now, t) && t.alarm.Some?
      && t == s.(run := NoRun, alarm := t.alarm, scheduledAt := now)
  {
    FinishesQuietly(s, row, cutoff, now);
    PendingIsDue(s, row, now);
    SchedulingKeeps(s, now, row.debounceUntil);
    hide DueTimes, ScheduleAlarm, Leads, Table;
  }

  // ---------------------------------------------------------------- the platform's ceiling along a run

  /** The platform's ceiling, and the row of the last update asked for under the second generation. */
  ghost predicate Ledger(run: Run, ceiling: int, asked: Option<DueRow>) {
    && run.Valid()
    && Real(run, |run.moments|, LITE) == ceiling
    && var request := LastRequest(run, |run.moments|, LITE, 2);
       if asked.Some? then request.Some? && request.value.Update? && request.value.row == asked.value else request.None?
  }

  ghost predicate Prolongs(longer: Run, run: Run) {
    && run.Valid() && longer.Valid()
    && |run.moments| < |longer.moments|
    && longer.states[..|run.states|] == run.states && longer.moments[..|run.moments|] == run.moments
  }

  lemma {:induction false} SameReads(run: Run, longer: Run, n: nat)
    requires Prolongs(longer, run) && n < |run.states|
    ensures ReadAt(longer, n) == ReadAt(run, n)
  {
    hide Leads, Initial;
    if n > 0 {
      assert longer.moments[n - 1] == run.moments[n - 1];
      SameReads(run, longer, n - 1);
    }
  }

  lemma {:induction false} SameRequests(run: Run, longer: Run, n: nat)
    requires Prolongs(longer, run) && n < |run.states|
    ensures LastRequest(longer, n, LITE, 2) == LastRequest(run, n, LITE, 2)
  {
    hide Leads, Initial, Asks, Configures, ClaimProvisioning;
    if n > 0 {
      assert longer.moments[n - 1] == run.moments[n - 1] && longer.states[n - 1] == run.states[n - 1];
      SameReads(run, longer, n - 1);
      SameRequests(run, longer, n - 1);
    }
  }

  /** Every report on the slot is of its second generation. */
  ghost predicate ReportsSecond(run: Run) {
    forall k :: 0 <= k < |run.moments| && Reports(run.moments[k].event, LITE) ==> run.moments[k].event.generation == 2
  }

  lemma {:induction false} SameCeiling(run: Run, longer: Run, n: nat)
    requires Prolongs(longer, run) && n < |run.states| && ReportsSecond(run)
    ensures Real(longer, n, LITE) == Real(run, n, LITE)
  {
    hide Leads, Initial, LastRequest, Request.Granted;
    if n == 0 {
      assert longer.states[0] == run.states[0];
    } else {
      assert longer.moments[n - 1] == run.moments[n - 1];
      SameCeiling(run, longer, n - 1);
      SameRequests(run, longer, n - 1);
    }
  }

  /** One more step, with what it does to the ledger. */
  lemma {:induction false} Advance(
      run: Run, s: State, from: int, e: Event, now: int, t: State, ceiling: int, asked: Option<DueRow>)
    returns (longer: Run)
    requires Reaches(run, s, from) && from <= now && Leads(s, e, now, t) && Ledger(run, ceiling, asked) && ReportsSecond(run)
    requires !e.Claim? && (Reports(e, LITE) ==> e.generation == 2 && asked.Some?)
    ensures Reaches(longer, t, now) && |longer.moments| == |run.moments| + 1 && ReportsSecond(longer)
    ensures longer.states[|run.moments|] == s && longer.moments[|run.moments|].event == e
    ensures Ledger(longer, if Reports(e, LITE) then Update(0, asked.value).Granted(ceiling) else ceiling,
                   if Asks(s, e, LITE, 2) then Some(s.run.due[0]) else asked)
    ensures Prolongs(longer, run)
  {
    hide Leads, Initial, Asks;
    longer := Extend(run, s, from, e, now, t);
    var n := |run.moments|;
    assert longer.states[..|run.states|] == run.states && longer.moments[..n] == run.moments;
    SameRequests(run, longer, n);
    SameCeiling(run, longer, n);
    hide Reaches;
    LedgerTurns(longer, n);
  }

  lemma {:induction false} LedgerTurns(longer: Run, n: nat)
    requires longer.Valid() && |longer.moments| == n + 1 && !longer.moments[n].event.Claim?
    ensures var e, before := longer.moments[n].event, Real(longer, n, LITE);
      Real(longer, n + 1, LITE) == if Reports(e, LITE) then AfterReport(longer, n, LITE, e.generation, before) else before
    ensures var s, e := longer.states[n], longer.moments[n].event;
      LastRequest(longer, n + 1, LITE, 2)
        == if Asks(s, e, LITE, 2) then Some(Update(ReadAt(longer, n), s.run.due[0])) else LastRequest(longer, n, LITE, 2)
  {
    hide Leads, Initial, AfterReport;
  }
}
