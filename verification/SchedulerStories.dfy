/**
 * Runs from the first start in which two jobs on the smallest preset meet the scheduler's weak points: one reservation
 * is released twice, and a recorded ceiling parts from the platform's.
 */
module SchedulerStories {
  import opened SchedulerCapacity
  import opened SchedulerEndings
  import opened SchedulerModel
  import opened SchedulerPlatform
  import opened SchedulerPolicy
  import opened SchedulerRuns
  import opened SchedulerStorySteps
  import opened SchedulerUpdates
  import opened Wrappers

  // ---------------------------------------------------------------- a reservation that is released twice

  function FirstRow(): Slot {
    EmptySlot(Some(LiteShape()))
  }

  /** A job of this story whose runner has been created. */
  function Working(name: string, repository: string, status: Status, runnerId: int, due: Option<int>): Job {
    LiteJob(name, repository, 0).(status := status, runnerId := Some(runnerId), ownerScoped := true, recoveryDue := due)
  }

  /** An admitted job is claimed, its runner is created, and its Container starts. */
  lemma {:induction false} RunsJob(run: Run, s: State, id: JobId, runnerId: int, row: Slot, now: int)
    returns (longer: Run, t: State)
    requires Reaches(run, s, now) && s.slots == Table(row)
    requires id in s.jobs && s.jobs[id].status.Admitted? && s.jobs[id].slot == Some(LITE)
    requires row.state == Ready && !row.updating && !row.reclaimPending && row.desired <= row.applied
    requires forall other :: other in s.jobs && other != id ==> s.jobs[other].runnerName != s.jobs[id].runnerName
    ensures Reaches(longer, t, now) && |longer.moments| == |run.moments| + 3
    ensures At(t, s.jobs[id := s.jobs[id].(status := Running, ownerScoped := true, runnerId := Some(runnerId))],
               row, s.operations, s.run)
  {
    hide Initial, Leads, Table, Step, Possible;
    var name := s.jobs[id].runnerName;
    ClaimLeads(s, id, row, now);
    t := s.(jobs := s.jobs[id := s.jobs[id].(status := Provisioning, ownerScoped := true)]);
    longer := Extend(run, s, now, Claim(id, name), now, t);
    CreateLeads(t, id, runnerId, now);
    var created := Step(t, RunnerCreated(id, name, runnerId), now);
    longer := Extend(longer, t, now, RunnerCreated(id, name, runnerId), now, created);
    StartLeads(created, id, now);
    t := created.(jobs := created.jobs[id := created.jobs[id].(status := Running)]);
    longer := Extend(longer, created, now, ContainerStarted(name), now, t);
    assert t.jobs == s.jobs[id := s.jobs[id].(status := Running, ownerScoped := true, runnerId := Some(runnerId))];
  }

  predicate LiteRow(row: Slot, reserved: nat, desired: int, applied: int) {
    && row.state == Ready && row.shape == Some(LiteShape()) && !row.updating && !row.reclaimPending
    && row.reserved == reserved && row.desired == desired && row.applied == applied
  }

  lemma {:induction false} RowFacts()
    ensures LiteRow(FirstRow(), 0, 1, 1)
    ensures LiteRow(AdmittedRow(FirstRow(), 0), 1, 1, 1)
    ensures LiteRow(AdmittedRow(AdmittedRow(FirstRow(), 0), 0), 2, 2, 1)
    ensures AdmittedOperations(FirstRow(), map[], 0) == map[]
  {
    hide LiteShape;
  }

  lemma {:induction false} OneJob(job: Job)
    requires job.profile == Lite()
    ensures LiteOnly(map[1 := job]) && |map[1 := job]| == 1
  {
  }

  lemma {:induction false} FirstSubmitted(name: string, repository: string) returns (run: Run, s: State)
    ensures Reaches(run, s, 0) && |run.moments| == 1 && s.alarm.Some?
    ensures At(s, map[1 := LiteJob(name, repository, 0)], AdmittedRow(FirstRow(), 0), map[], NoRun)
  {
    FirstTable();
    RowFacts();
    run := NoStepsYet();
    var e := Submit(1, name, repository, Lite());
    hide InitialSlots, Lite, LiteShape, FirstRow, AdmittedRow, AdmittedOperations;
    SubmitLeads(Initial(), 1, name, repository, FirstRow(), map[], NoRun, 0);
    s := Step(Initial(), e, 0);
    hide Reaches, Step, Possible, Leads, Initial;
    run := Extend(run, Initial(), 0, e, 0, s);
    assert s.jobs == map[1 := LiteJob(name, repository, 0)];
  }

  lemma {:induction false} FirstRuns(name: string, repository: string) returns (run: Run, s: State)
    ensures Reaches(run, s, 0) && |run.moments| == 4
    ensures At(s, map[1 := Working(name, repository, Running, 7, None)], AdmittedRow(FirstRow(), 0), map[], NoRun)
  {
    RowFacts();
    hide InitialSlots, Lite, LiteShape, FirstRow, AdmittedRow, Reaches, Table;
    var submitted;
    run, submitted := FirstSubmitted(name, repository);
    run, s := RunsJob(run, submitted, 1, 7, AdmittedRow(FirstRow(), 0), 0);
    assert s.jobs == map[1 := Working(name, repository, Running, 7, None)];
  }

  /** The second job waits for capacity. */
  lemma {:induction false} SecondWaits(first: string, second: string, repository: string) returns (run: Run, s: State)
    ensures Reaches(run, s, 0) && |run.moments| == 5
    ensures var row := AdmittedRow(FirstRow(), 0);
      At(s, map[1 := Working(first, repository, Running, 7, None), 2 := LiteJob(second, repository, 0)], AdmittedRow(row, 0),
         AdmittedOperations(row, map[], 0), NoRun)
  {
    RowFacts();
    var row, e := AdmittedRow(FirstRow(), 0), Submit(2, second, repository, Lite());
    var working := Working(first, repository, Running, 7, None);
    OneJob(working);
    hide Reaches, Table, Lite, LiteShape, FirstRow, AdmittedRow, AdmittedOperations, LiteOnly, Step, Possible, Leads;
    var before;
    run, before := FirstRuns(first, repository);
    SubmitLeads(before, 2, second, repository, row, map[], NoRun, 0);
    s := Step(before, e, 0);
    run := Extend(run, before, 0, e, 0, s);
    assert s.jobs == map[1 := working, 2 := LiteJob(second, repository, 0)];
  }

  /** The first job's Container stops. */
  lemma {:induction false} FirstStops(first: string, second: string, repository: string) returns (run: Run, s: State)
    ensures Reaches(run, s, 0) && |run.moments| == 6 && s.alarm.Some?
    ensures var row := AdmittedRow(FirstRow(), 0);
      var stopped := Working(first, repository, StoppedAwaitingCompletion, 7, Some(RUNNER_COMPLETION_GRACE_MS));
      At(s, map[1 := stopped, 2 := LiteJob(second, repository, 0)], AdmittedRow(row, 0), AdmittedOperations(row, map[], 0),
         NoRun)
  {
    hide Reaches, Table, Lite, LiteShape, FirstRow, AdmittedRow, AdmittedOperations, Step, Leads;
    var before;
    run, before := SecondWaits(first, second, repository);
    StopLeads(before, 1, 0);
    var e := ContainerStopped(before.jobs[1].runnerName, Some(1));
    s := Step(before, e, 0);
    run := Extend(run, before, 0, e, 0, s);
    var stopped := before.jobs[1].(status := StoppedAwaitingCompletion, recoveryDue := Some(RUNNER_COMPLETION_GRACE_MS));
    assert s.jobs == map[1 := stopped, 2 := LiteJob(second, repository, 0)];
  }

  /** The alarm starts to recover the first job. */
  lemma {:induction false} RecoveryStarts(first: string, second: string, repository: string)
    returns (run: Run, s: State, time: int, stopped: Job)
    requires first != second
    ensures 0 <= time && stopped == Working(first, repository, StoppedAwaitingCompletion, 7, Some(RUNNER_COMPLETION_GRACE_MS))
    ensures Reaches(run, s, time) && |run.moments| == 7
    ensures var row := AdmittedRow(FirstRow(), 0);
      At(s, map[1 := stopped, 2 := LiteJob(second, repository, 0)], AdmittedRow(row, 0), AdmittedOperations(row, map[], 0),
         Recovering(time, [StoppedRow(1, stopped)]))
  {
    stopped := Working(first, repository, StoppedAwaitingCompletion, 7, Some(RUNNER_COMPLETION_GRACE_MS));
    var waiting;
    hide InitialSlots, Reaches, Table, Lite, LiteShape, FirstRow, AdmittedRow, AdmittedOperations;
    run, waiting := FirstStops(first, second, repository);
    time := Max(waiting.alarm.value, RUNNER_COMPLETION_GRACE_MS);
    FireLeads(waiting, 1, stopped, time);
    hide Leads;
    s := waiting.(alarm := None, run := Recovering(time, [StoppedRow(1, stopped)]));
    run := Extend(run, waiting, 0, AlarmFired([StoppedRow(1, stopped)]), time, s);
  }

  lemma {:induction false} FireLeads(s: State, id: JobId, job: Job, now: int)
    requires s.run.NoRun? && s.alarm.Some? && s.alarm.value <= now && id in s.jobs && s.jobs[id] == job && job.DueBy(now)
    requires forall other :: other in s.jobs && other != id ==> !s.jobs[other].status.Recoverable()
    ensures Leads(s, AlarmFired([StoppedRow(id, job)]), now, s.(alarm := None, run := Recovering(now, [StoppedRow(id, job)])))
  {
  }

  lemma {:induction false} RecoverLeads(s: State, stopped: StoppedRow, row: Slot, cutoff: int, now: int)
    requires s.slots == Table(row) && stopped.id in s.jobs && stopped.job.slot == Some(LITE)
    requires stopped.job.status.StoppedAwaitingCompletion? && s.run == Recovering(cutoff, [stopped])
    requires forall other :: other in s.jobs ==> !s.jobs[other].status.Queued?
    ensures var t := Step(s, RecoveryFinished(RunnerGone), now);
      && Leads(s, RecoveryFinished(RunnerGone), now, t)
      && t.slots == Table(ReleasedSlot(row, now))
      && var cleaned := CleanedUp(s.jobs[stopped.id], stopped.job.runnerId, RunnerGone);
         t.jobs == s.jobs[stopped.id := cleaned.(status := Status.Failed, recoveryDue := None)]
  {
    var cleaned := CleanUp(s, stopped, RunnerGone);
    var released := ReleaseJob(cleaned, stopped.id, Some(LITE), Status.Failed, now);
    NothingToAdmit(released, now);
    hide InitialSlots, AdmitNext;
    assert released.slots == Table(ReleasedSlot(row, now));
  }

  /** GitHub's completion of the first job arrives while the recovery waits, and the second job starts to run. */
  lemma {:induction false} CompletionInterferes(first: string, second: string, repository: string)
    returns (run: Run, s: State, time: int, stopped: Job)
    requires first != second
    ensures Reaches(run, s, time) && |run.moments| == 11
    ensures s.slots == Table(ReleasedSlot(AdmittedRow(AdmittedRow(FirstRow(), 0), 0), time))
    ensures s.jobs.Keys == {1, 2} && s.jobs[1].status.Completed? && s.jobs[2].status.Running? && s.jobs[2].slot == Some(LITE)
    ensures stopped.status.StoppedAwaitingCompletion? && stopped.slot == Some(LITE)
    ensures s.run == Recovering(time, [StoppedRow(1, stopped)])
  {
    var row := AdmittedRow(AdmittedRow(FirstRow(), 0), 0);
    RowFacts();
    var t;
    hide Reaches, Step, Table, Leads, FirstRow, AdmittedRow, AdmittedOperations, Lite;
    run, t, time, stopped := RecoveryStarts(first, second, repository);
    CompleteLeads(t, 1, row, time);
    var completed := Step(t, CompletionReported(1), time);
    run := Extend(run, t, time, CompletionReported(1), time, completed);
    hide LiteShape;
    run, s := RunsJob(run, completed, 2, 8, ReleasedSlot(row, time), time);
  }

  /**
   * Both that completion and the recovery release the first job's reservation, and the slot ends with a running job and
   * nothing reserved.
   */
  lemma {:induction false} CompletionDuringRecoveryReleasesTwice(first: string, second: string, repository: string)
    returns (run: Run)
    requires first != second
    ensures run.Valid() && |run.moments| == 12
    ensures run.moments[11].event.RecoveryFinished? && Surplus(run.states[11], LITE) == 0
    ensures var s := run.states[12];
      ActiveOn(s.jobs, LITE) == {2} && s.jobs[2].status.Running? && s.slots[LITE].reserved == 0
  {
    var row := AdmittedRow(AdmittedRow(FirstRow(), 0), 0);
    RowFacts();
    var s, time, stopped;
    hide Reaches, Step, Table, Leads, FirstRow, AdmittedRow, LiteShape;
    run, s, time, stopped := CompletionInterferes(first, second, repository);
    RecoverLeads(s, StoppedRow(1, stopped), ReleasedSlot(row, time), time, time);
    var end := Step(s, RecoveryFinished(RunnerGone), time);
    RunEnds(run, s, time);
    run := Extend(run, s, time, RecoveryFinished(RunnerGone), time, end);
    OnlySecondIsActive(s.jobs);
    OnlySecondIsActive(end.jobs);
    RowOfTable(s, ReleasedSlot(row, time));
    RowOfTable(end, ReleasedSlot(ReleasedSlot(row, time), time));
    RunEnds(run, end, time);
  }

  lemma {:induction false} OnlySecondIsActive(jobs: map<JobId, Job>)
    requires jobs.Keys == {1, 2} && jobs[1].status.Terminal() && jobs[2].Holds() == Some(LITE)
    ensures ActiveOn(jobs, LITE) == {2}
  {
    assert 2 in jobs;
  }

  lemma {:induction false} RunEnds(run: Run, s: State, now: int)
    requires Reaches(run, s, now)
    ensures run.Valid() && run.states[|run.moments|] == s
  {
  }

  // ---------------------------------------------------------------- a completed job that is queued again

  /** GitHub reports the second job on the runner of the first, which it has just reported complete. */
  lemma {:induction false} CompletedOwnerIsDisplaced(s: State, first: string, repository: string, now: int)
    requires s.jobs.Keys == {1, 2} && s.jobs[1].status.Releasing? && s.jobs[1].slot == Some(LITE)
    requires s.jobs[1].runnerName == first && s.jobs[1].repository == s.jobs[2].repository == repository
    requires s.jobs[1].profile == s.jobs[2].profile == Lite()
    ensures var e := AssignmentReported(RunnerClaim(2, first, Some(7), repository, "lite"), Some(1));
      Possible(s, e, now) && Attaches(s, e)
  {
  }

  lemma {:induction false} CompletesFirst(s: State, now: int)
    requires 1 in s.jobs && s.jobs[1].status.Running?
    ensures var t := Step(s, CompletionReported(1), now);
      t.jobs == s.jobs[1 := s.jobs[1].(status := Releasing, recoveryDue := Some(now + RUNNER_COMPLETION_GRACE_MS))]
  {
    hide DueTimes;
  }

  /** A run in which a job that GitHub has reported complete is put back into the queue. */
  lemma {:induction false} CompletedJobIsQueuedAgain(first: string, second: string, repository: string) returns (run: Run)
    ensures run.Valid() && |run.moments| == 7 && run.moments[5].event == CompletionReported(1)
    ensures 1 in run.states[6].jobs && run.states[6].jobs[1].status.Releasing?
    ensures 1 in run.states[7].jobs && run.states[7].jobs[1].status.Waiting() && run.states[7].jobs[1].attempt == 2
  {
    hide Reaches, Step, Leads, Table, FirstRow, AdmittedRow, AdmittedOperations, Possible, Attaches, LiteShape;
    var before;
    run, before := SecondWaits(first, second, repository);
    AlwaysPossible(before, 0);
    var completed := Step(before, CompletionReported(1), 0);
    CompletesFirst(before, 0);
    StepLeads(before, CompletionReported(1), 0);
    run := Extend(run, before, 0, CompletionReported(1), 0, completed);
    var e := AssignmentReported(RunnerClaim(2, first, Some(7), repository, "lite"), Some(1));
    CompletedOwnerIsDisplaced(completed, first, repository, 0);
    var t := Step(completed, e, 0);
    StepLeads(completed, e, 0);
    ReportAttaches(completed, e, 0, t);
    RunEnds(run, completed, 0);
    run := Extend(run, completed, 0, e, 0, t);
    RunEnds(run, t, 0);
  }

  lemma {:induction false} AlwaysPossible(s: State, now: int)
    ensures Possible(s, CompletionReported(1), now)
  {
  }

  lemma {:induction false} StepLeads(s: State, e: Event, now: int)
    requires Possible(s, e, now)
    ensures Leads(s, e, now, Step(s, e, now))
  {
    hide Step, Possible;
  }

  // ---------------------------------------------------------------- a reduction that is recorded as the old increase

  lemma {:induction false} NothingAskedYet(run: Run)
    requires Reaches(run, Initial(), 0) && run.moments == []
    ensures Ledger(run, 1, None) && ReportsSecond(run)
  {
    FirstTable();
    RowOfTable(Initial(), FirstRow());
  }

  /** A row of the preset under its second generation. */
  predicate Second(row: Slot, reserved: nat, desired: int, applied: int, updating: bool) {
    && LiteRow(row.(updating := false), reserved, desired, applied)
    && row.updating == updating && row.generation == 2 && row.debounceUntil == 5_000
    && (updating ==> row.updateGeneration == 2)
  }

  lemma {:induction false} SecondRow()
    ensures var row := AdmittedRow(AdmittedRow(FirstRow(), 0), 0);
      Second(row, 2, 2, 1, false) && AdmittedOperations(AdmittedRow(FirstRow(), 0), map[], 0) == Raise(Pending, 0)
  {
    hide LiteShape;
  }

  lemma {:induction false} NoOtherAsks(s: State, e: Event)
    requires !e.UpdateStarted?
    ensures !Asks(s, e, LITE, 2)
  {
  }

  /** A job is admitted within the recorded ceiling. */
  lemma {:induction false} Submits(
      run: Run, s: State, now: int, id: JobId, name: string, repository: string, row: Slot, ceiling: int, asked: Option<DueRow>)
    returns (longer: Run, t: State)
    requires Reaches(run, s, now) && s.slots == Table(row) && id !in s.jobs
    requires row.state == Ready && row.shape == Some(LiteShape()) && !row.updating && row.reserved < row.applied <= 4
    requires |s.jobs| < 4 && LiteOnly(s.jobs) && forall other :: other in s.jobs ==> !s.jobs[other].status.Queued?
    requires Ledger(run, ceiling, asked) && ReportsSecond(run)
    ensures Reaches(longer, t, now) && |longer.moments| == |run.moments| + 1
    ensures ReportsSecond(longer) && Ledger(longer, ceiling, asked)
    ensures At(t, s.jobs[id := LiteJob(name, repository, now)], AdmittedRow(row, now), s.operations, s.run)
    ensures Prolongs(longer, run)
  {
    var e := Submit(id, name, repository, Lite());
    SubmitLeads(s, id, name, repository, row, s.operations, s.run, now);
    NoOtherAsks(s, e);
    t := Step(s, e, now);
    assert AdmittedOperations(row, s.operations, now) == s.operations;
    hide Table, Step, Leads, Reaches, Ledger, ReportsSecond, Asks, AdmittedRow, Lite, LiteShape, LiteOnly;
    longer := Advance(run, s, now, e, now, t, ceiling, asked);
  }

  lemma {:induction false} OneAdmitted(name: string, repository: string) returns (run: Run, s: State)
    ensures Reaches(run, s, 0) && |run.moments| == 1 && Ledger(run, 1, None) && ReportsSecond(run)
    ensures At(s, map[1 := LiteJob(name, repository, 0)], AdmittedRow(FirstRow(), 0), map[], NoRun)
  {
    RowFacts();
    FirstTable();
    run := NoStepsYet();
    NothingAskedYet(run);
    hide Table, Lite, LiteShape, FirstRow, AdmittedRow, Reaches, Ledger, ReportsSecond, Prolongs;
    run, s := Submits(run, Initial(), 0, 1, name, repository, FirstRow(), 1, None);
    hide Initial;
    assert s.jobs == map[1 := LiteJob(name, repository, 0)];
  }

  /** Two jobs are admitted to the preset. */
  lemma {:induction false} BothAdmitted(first: string, second: string, repository: string)
    returns (run: Run, s: State, row: Slot)
    ensures Reaches(run, s, 0) && |run.moments| == 2 && s.alarm.Some? && Second(row, 2, 2, 1, false)
    ensures At(s, map[1 := LiteJob(first, repository, 0), 2 := LiteJob(second, repository, 0)], row, Raise(Pending, 0), NoRun)
    ensures Ledger(run, 1, None) && ReportsSecond(run)
  {
    RowFacts();
    SecondRow();
    row := AdmittedRow(FirstRow(), 0);
    var t;
    var e := Submit(2, second, repository, Lite());
    OneJob(LiteJob(first, repository, 0));
    hide Table, Lite, LiteShape, FirstRow, AdmittedRow, AdmittedOperations, LiteOnly, Step, Leads, Reaches, Ledger, Raise;
    hide ReportsSecond;
    run, t := OneAdmitted(first, repository);
    SubmitLeads(t, 2, second, repository, row, map[], NoRun, 0);
    NoOtherAsks(t, e);
    s := Step(t, e, 0);
    run := Advance(run, t, 0, e, 0, s, 1, None);
    assert s.jobs == map[1 := LiteJob(first, repository, 0), 2 := LiteJob(second, repository, 0)];
    row := AdmittedRow(row, 0);
  }

  /** An alarm reads the due slot and asks the platform for its desired ceiling. */
  lemma {:induction false} AlarmAsks(
      run: Run, s: State, now: int, time: int, row: Slot, ceiling: int, asked: Option<DueRow>)
    returns (longer: Run, t: State)
    requires Reaches(run, s, now) && now <= time && s.slots == Table(row) && s.run == NoRun
    requires s.alarm.Some? && s.alarm.value <= time && UpdateDue(row, time) && row.generation == 2
    requires forall id :: id in s.jobs ==> !s.jobs[id].status.Recoverable()
    requires Ledger(run, ceiling, asked) && ReportsSecond(run)
    ensures Reaches(longer, t, time) && |longer.moments| == |run.moments| + 3 && ReportsSecond(longer)
    ensures Ledger(longer, ceiling, Some(DueRow(LITE, row)))
    ensures At(t, s.jobs, row.(updating := true, updateGeneration := 2), s.operations, Updating(time, []))
  {
    hide Table, Leads, Reaches, Ledger, ReportsSecond, Prolongs, Asks;
    FireEmptyLeads(s, time);
    var fired := s.(alarm := None, run := Recovering(time, []));
    longer := Advance(run, s, now, AlarmFired([]), time, fired, ceiling, asked);
    SelectLeads(fired, row, time, time);
    var selected := fired.(run := Updating(time, [DueRow(LITE, row)]));
    NoOtherAsks(s, AlarmFired([]));
    NoOtherAsks(fired, UpdatesSelected);
    longer := Advance(longer, fired, time, UpdatesSelected, time, selected, ceiling, asked);
    UpdateLeads(selected, row, time, time);
    t := selected.(slots := Table(row.(updating := true, updateGeneration := 2)), run := Updating(time, []));
    longer := Advance(longer, selected, time, UpdateStarted, time, t, ceiling, asked);
  }

  /** The update is reported done. */
  lemma {:induction false} ReportsDone(
      run: Run, s: State, now: int, row: Slot, state: OperationState, updatedAt: int, ceiling: int, asked: DueRow)
    returns (longer: Run, t: State)
    requires Reaches(run, s, now) && s.slots == Table(row) && s.operations == Raise(state, updatedAt)
    requires row.state == Ready && row.updating && row.updateGeneration == 2 && row.desired != 2
    requires Ledger(run, ceiling, Some(asked)) && ReportsSecond(run)
    ensures Reaches(longer, t, now) && |longer.moments| == |run.moments| + 1 && ReportsSecond(longer)
    ensures Ledger(longer, Update(0, asked).Granted(ceiling), Some(asked)) && t.alarm.Some? && Prolongs(longer, run)
    ensures At(t, s.jobs, row.(applied := 2, updating := false), Raise(Applied, now), s.run)
    ensures longer.states[|run.moments|] == s && longer.moments[|run.moments|].event == CapacityReported(LITE, 2)
  {
    hide Table, Step, Leads, Reaches, Ledger, ReportsSecond, Prolongs, Asks, Raise;
    var e := CapacityReported(LITE, 2);
    ReportLeads(s, row, state, updatedAt, now);
    NoOtherAsks(s, e);
    t := Step(s, e, now);
    longer := Advance(run, s, now, e, now, t, ceiling, Some(asked));
  }

  /** A job is cancelled. */
  lemma {:induction false} Cancels(
      run: Run, s: State, now: int, id: JobId, row: Slot, ceiling: int, asked: Option<DueRow>)
    returns (longer: Run, t: State)
    requires Reaches(run, s, now) && s.slots == Table(row)
    requires id in s.jobs && s.jobs[id].slot == Some(LITE) && s.jobs[id].status.Admitted?
    requires forall other :: other in s.jobs ==> !s.jobs[other].status.Queued?
    requires Ledger(run, ceiling, asked) && ReportsSecond(run)
    ensures Reaches(longer, t, now) && |longer.moments| == |run.moments| + 1
    ensures ReportsSecond(longer) && Ledger(longer, ceiling, asked)
    ensures At(t, s.jobs[id := s.jobs[id].(status := Cancelled, recoveryDue := None)], ReleasedSlot(row, now), s.operations,
               s.run)
  {
    hide Table, Step, Leads, Reaches, Ledger, ReportsSecond, Prolongs, Asks, ReleasedSlot;
    CompleteLeads(s, id, row, now);
    NoOtherAsks(s, CompletionReported(id));
    t := Step(s, CompletionReported(id), now);
    longer := Advance(run, s, now, CompletionReported(id), now, t, ceiling, asked);
  }

  /** The increase is in flight. */
  lemma {:induction false} IncreaseInFlightNow(first: string, second: string, repository: string)
    returns (run: Run, s: State, time: int, row: Slot, asked: DueRow)
    ensures Reaches(run, s, time) && |run.moments| == 5 && ReportsSecond(run) && Ledger(run, 1, Some(asked))
    ensures Second(row, 2, 2, 1, true) && asked.slot.desired == 2 && asked.slot.applied == 1
    ensures At(s, map[1 := LiteJob(first, repository, 0), 2 := LiteJob(second, repository, 0)], row, Raise(Pending, 0),
               Updating(time, []))
  {
    var admitted;
    run, admitted, row := BothAdmitted(first, second, repository);
    asked := DueRow(LITE, row);
    time := Max(admitted.alarm.value, 5_000);
    hide Table, Leads, Reaches, Ledger, ReportsSecond, Lite, LiteShape, Raise;
    run, s := AlarmAsks(run, admitted, 0, time, row, 1, None);
    row := row.(updating := true, updateGeneration := 2);
  }

  /** Both jobs are cancelled meanwhile. */
  lemma {:induction false} BothCancelled(first: string, second: string, repository: string)
    returns (run: Run, s: State, time: int, row: Slot, asked: DueRow)
    ensures Reaches(run, s, time) && |run.moments| == 7 && ReportsSecond(run) && Ledger(run, 1, Some(asked))
    ensures Second(row, 0, 1, 1, true) && asked.slot.desired == 2 && asked.slot.applied == 1
    ensures At(s, s.jobs, row, Raise(Pending, 0), Updating(time, []))
    ensures s.jobs.Keys == {1, 2} && LiteOnly(s.jobs) && s.jobs[1].status.Cancelled? && s.jobs[2].status.Cancelled?
  {
    var t, cancelled;
    run, t, time, row, asked := IncreaseInFlightNow(first, second, repository);
    hide Table, Leads, Reaches, Ledger, ReportsSecond, Lite, LiteShape, Raise;
    var jobs := t.jobs;
    run, cancelled := Cancels(run, t, time, 1, row, 1, Some(asked));
    row := ReleasedSlot(row, time);
    run, s := Cancels(run, cancelled, time, 2, row, 1, Some(asked));
    row := ReleasedSlot(row, time);
    assert s.jobs == jobs[1 := jobs[1].(status := Cancelled)][2 := jobs[2].(status := Cancelled)];
    FewJobs(s.jobs);
  }

  /** Then the increase is reported done, and the slot is due for a reduction. */
  lemma {:induction false} IncreaseOutlivesJobs(first: string, second: string, repository: string)
    returns (run: Run, s: State, time: int, row: Slot, asked: DueRow)
    ensures Reaches(run, s, time) && |run.moments| == 9 && s.alarm.Some? && ReportsSecond(run)
    ensures Second(row, 0, 1, 2, false) && At(s, s.jobs, row, Raise(Applied, time), NoRun)
    ensures s.jobs.Keys == {1, 2} && LiteOnly(s.jobs) && s.jobs[1].status.Cancelled? && s.jobs[2].status.Cancelled?
    ensures Ledger(run, 2, Some(asked))
  {
    var before, t;
    run, before, time, row, asked := BothCancelled(first, second, repository);
    hide Table, Leads, Reaches, Ledger, ReportsSecond, Lite, LiteShape, Raise, LiteOnly;
    run, t := ReportsDone(run, before, time, row, Pending, 0, 1, asked);
    row := row.(applied := 2, updating := false);
    FinishLeads(t, row, time, time);
    s := ScheduleAlarm(t, time).(run := NoRun);
    NoOtherAsks(t, AlarmFinished);
    hide ScheduleAlarm;
    run := Advance(run, t, time, AlarmFinished, time, s, 2, Some(asked));
  }

  lemma {:induction false} FewJobs(jobs: map<JobId, Job>)
    requires jobs.Keys == {1, 2} && jobs[1].profile == Lite() && jobs[2].profile == Lite()
    ensures LiteOnly(jobs) && |jobs| == 2
  {
    assert |jobs| == |jobs.Keys|;
  }

  /** The next alarm lowers the platform's ceiling, and the report records the increase again. */
  lemma {:induction false} ReductionIsMisrecorded(first: string, second: string, repository: string)
    returns (run: Run, s: State, time: int, row: Slot, asked: DueRow)
    ensures Reaches(run, s, time) && |run.moments| == 13 && ReportsSecond(run) && Lags(run, 12, LITE)
    ensures Second(row, 0, 1, 2, false) && s.slots == Table(row)
    ensures s.jobs.Keys == {1, 2} && LiteOnly(s.jobs) && s.jobs[1].status.Cancelled? && s.jobs[2].status.Cancelled?
    ensures Ledger(run, 1, Some(asked))
  {
    var before, t, earlier, last;
    run, before, earlier, row, last := IncreaseOutlivesJobs(first, second, repository);
    time := Max(before.alarm.value, earlier);
    hide Table, Leads, Reaches, Ledger, ReportsSecond, Lite, LiteShape, Raise, LiteOnly, Lags;
    asked := DueRow(LITE, row);
    run, t := AlarmAsks(run, before, earlier, time, row, 2, Some(last));
    var asking := run;
    row := row.(updateGeneration := 2);
    run, s := ReportsDone(run, t, time, row.(updating := true), Applied, earlier, 2, asked);
    PartsAtLastReport(run, t, s, row, time, asked, asking);
  }

  /** The recorded ceiling was the platform's before the report and is not after it. */
  lemma {:induction false} PartsAtLastReport(run: Run, t: State, s: State, row: Slot, time: int, asked: DueRow, asking: Run)
    requires Reaches(asking, t, time) && Ledger(asking, 2, Some(asked)) && |asking.moments| == 12 && ReportsSecond(asking)
    requires Reaches(run, s, time) && Prolongs(run, asking) && |run.moments| == 13
    requires Ledger(run, 1, Some(asked)) && row.applied == 2
    requires t.slots == Table(row.(updating := true)) && s.slots == Table(row)
    ensures Lags(run, 12, LITE)
  {
    SameCeiling(asking, run, 12);
    RowOfTable(t, row.(updating := true));
    RowOfTable(s, row);
    assert run.states[12] == asking.states[12];
    ReportKeepsReal(run, 12, LITE);
    hide Real, Lags, Leads, Initial, Table;
  }

  lemma {:induction false} MoreJobs(jobs: map<JobId, Job>, name: string, repository: string, now: int)
    requires jobs.Keys == {1, 2} && LiteOnly(jobs)
    ensures var more := jobs[3 := LiteJob(name, repository, now)]; |more| == 3 && LiteOnly(more)
  {
    var more := jobs[3 := LiteJob(name, repository, now)];
    assert more.Keys == {1, 2, 3} && |more| == |more.Keys|;
    hide Lite;
  }

  lemma {:induction false} LagsLater(run: Run, longer: Run)
    requires Prolongs(longer, run) && 12 < |run.moments| && Lags(run, 12, LITE) && ReportsSecond(run)
    ensures Lags(longer, 12, LITE)
  {
    assert longer.states[12] == run.states[12] && longer.moments[12] == run.moments[12];
    SameRequests(run, longer, 12);
    hide Leads, Initial, LastRequest;
  }

  lemma {:induction false} LedgerCeiling(run: Run, s: State, now: int, ceiling: int, asked: Option<DueRow>)
    requires Reaches(run, s, now) && Ledger(run, ceiling, asked)
    ensures run.Valid() && run.states[|run.moments|] == s && Real(run, |run.moments|, LITE) == ceiling
  {
  }

  lemma {:induction false} BothGranted(
      s: State, jobs: map<JobId, Job>, third: string, fourth: string, repository: string, row: Slot, now: int)
    requires jobs.Keys == {1, 2} && jobs[1].status.Cancelled? && jobs[2].status.Cancelled?
    requires s.jobs == jobs[3 := LiteJob(third, repository, now)][4 := LiteJob(fourth, repository, now)]
    requires s.slots == Table(row) && row.state == Ready && !row.updating && !row.reclaimPending
    requires row.reserved == 2 && row.desired == 2 && row.applied == 2
    ensures ActiveOn(s.jobs, LITE) == {3, 4} && s.slots[LITE].applied == 2
    ensures ClaimProvisioning(s, 3, third) == ClaimProvisioning(s, 4, fourth)
      == Provision(LITE, 2, s.slots[LITE].generation, false)
  {
    RowOfTable(s, row);
    hide Table, Lite;
    assert s.jobs.Keys == {1, 2, 3, 4};
  }

  /**
   * Two jobs are admitted; the update to a ceiling of two is in flight when both are cancelled. Its completion records
   * two, the next alarm lowers the platform's ceiling to one and records two again. Two more jobs are then admitted and
   * both claims are granted, with room for one on the platform.
   */
  lemma {:induction false} GrantsBeyondThePlatform(
      first: string, second: string, third: string, fourth: string, repository: string)
    returns (run: Run)
    ensures run.Valid() && |run.moments| == 15 && Lags(run, 12, LITE)
    ensures var s := run.states[15];
      && ActiveOn(s.jobs, LITE) == {3, 4}
      && ClaimProvisioning(s, 3, third) == ClaimProvisioning(s, 4, fourth)
           == Provision(LITE, 2, s.slots[LITE].generation, false)
      && s.slots[LITE].applied == 2 && Real(run, 15, LITE) == 1
  {
    var before, t, s, time, row, asked;
    run, before, time, row, asked := ReductionIsMisrecorded(first, second, repository);
    hide Table, Leads, Reaches, Ledger, ReportsSecond, Lite, LiteShape, LiteOnly, Lags, Real;
    var misrecorded := run;
    run, t := Submits(run, before, time, 3, third, repository, row, 1, Some(asked));
    MoreJobs(before.jobs, third, repository, time);
    var admitted := run;
    run, s := Submits(run, t, time, 4, fourth, repository, AdmittedRow(row, time), 1, Some(asked));
    LagsLater(misrecorded, admitted);
    LagsLater(admitted, run);
    BothGranted(s, before.jobs, third, fourth, repository, AdmittedRow(AdmittedRow(row, time), time), time);
    LedgerCeiling(run, s, time, 1, Some(asked));
  }

  // ---------------------------------------------------------------- a reduction whose answer is lost

  /** The platform's answer is lost, and the update is put off. */
  lemma {:induction false} Defers(run: Run, s: State, now: int, row: Slot, ceiling: int, asked: DueRow)
    returns (longer: Run, t: State, deferred: Slot)
    requires Reaches(run, s, now) && s.slots == Table(row) && row.updating && row.updateGeneration == row.generation == 2
    requires s.run.Updating?
    requires Ledger(run, ceiling, Some(asked)) && ReportsSecond(run)
    ensures Reaches(longer, t, now) && |longer.moments| == |run.moments| + 1
    ensures ReportsSecond(longer) && Ledger(longer, ceiling, Some(asked)) && Prolongs(longer, run)
    ensures deferred == row.(updating := false, debounceUntil := deferred.debounceUntil)
    ensures At(t, s.jobs, deferred, s.operations, s.run)
    ensures longer.moments[|run.moments|].event == UpdateDeferred(LITE, 2)
  {
    var e := UpdateDeferred(LITE, 2);
    RowOfTable(s, row);
    deferred := row.(updating := false, debounceUntil := CapacityDebounceDeadline(now));
    t := Step(s, e, now);
    assert t.slots == Table(deferred) by {
      hide InitialSlots;
    }
    NoOtherAsks(s, e);
    hide Table, Leads, Reaches, Ledger, ReportsSecond, Prolongs, Asks;
    longer := Advance(run, s, now, e, now, t, ceiling, Some(asked));
  }

  lemma {:induction false} ProlongsTwice(run: Run, longer: Run, longest: Run)
    requires Prolongs(longer, run) && Prolongs(longest, longer)
    ensures Prolongs(longest, run)
  {
    hide Leads, Initial;
    assert longest.states[..|run.states|] == longer.states[..|run.states|];
    assert longest.moments[..|run.moments|] == longer.moments[..|run.moments|];
  }

  /** The reduction is asked for, and its answer is lost. */
  lemma {:induction false} ReductionIsPutOff(first: string, second: string, repository: string)
    returns (asking: Run, run: Run, s: State, time: int, row: Slot, asked: DueRow)
    ensures |asking.moments| == 12 && Prolongs(run, asking) && Ledger(asking, 2, Some(asked)) && ReportsSecond(asking)
    ensures Reaches(run, s, time) && |run.moments| == 13 && run.moments[12].event == UpdateDeferred(LITE, 2)
    ensures asked.slot.desired == 1 && asked.slot.applied == 2
    ensures LiteRow(row, 0, 1, 2) && s.slots == Table(row)
    ensures s.jobs.Keys == {1, 2} && LiteOnly(s.jobs) && s.jobs[1].status.Cancelled? && s.jobs[2].status.Cancelled?
    ensures Ledger(run, 2, Some(asked)) && ReportsSecond(run)
  {
    var before, t, earlier, last;
    asking, before, earlier, row, last := IncreaseOutlivesJobs(first, second, repository);
    time := Max(before.alarm.value, earlier);
    hide Table, Leads, Reaches, Ledger, ReportsSecond, Prolongs, Lite, LiteShape, Raise, LiteOnly;
    asked := DueRow(LITE, row);
    asking, t := AlarmAsks(asking, before, earlier, time, row, 2, Some(last));
    run, s, row := Defers(asking, t, time, row.(updating := true, updateGeneration := 2), 2, asked);
  }

  /** The history of a run in which the reduction takes effect although it is never reported done. */
  lemma {:induction false} ReductionTookEffect(asking: Run, run: Run, asked: DueRow) returns (h: History)
    requires Prolongs(run, asking) && |asking.moments| == 12 && |run.moments| == 15
    requires Ledger(asking, 2, Some(asked)) && ReportsSecond(asking) && asked.slot.desired == 1 && asked.slot.applied == 2
    ensures h.Valid() && h.run == run && h.slot == LITE && h.points[|h.points| - 1] == Point(15, 1)
  {
    SameCeiling(asking, run, 12);
    SameRequests(asking, run, 12);
    LastRequestWasMade(run, 12, LITE, 2);
    var request := LastRequest(run, 12, LITE, 2).value;
    hide Leads, Initial, LastRequest, Made, MadeAt, Real, Ledger, ReportsSecond, Prolongs;
    h := ReportedHistory(run, 12, LITE);
    assert request.Granted(2) == 1;
    hide Request.Granted;
    h := Continued(h, Point(12, 1));
    h := Continued(h, Point(13, 1));
    h := Continued(h, Point(14, 1));
    h := Continued(h, Point(15, 1));
  }

  /**
   * The same beginning, but the reduction takes effect and its answer is lost. Nothing is misrecorded, the recorded
   * ceiling is just not lowered; the two jobs admitted next are granted their claims against it.
   */
  lemma {:induction false} LostReductionGrantsBeyondThePlatform(
      first: string, second: string, third: string, fourth: string, repository: string)
    returns (h: History)
    ensures h.Valid() && h.slot == LITE && |h.run.moments| == 15 && h.run.moments[12].event == UpdateDeferred(LITE, 2)
    ensures h.points[|h.points| - 1] == Point(15, 1)
    ensures var s := h.run.states[15];
      && ActiveOn(s.jobs, LITE) == {3, 4}
      && ClaimProvisioning(s, 3, third) == ClaimProvisioning(s, 4, fourth)
           == Provision(LITE, 2, s.slots[LITE].generation, false)
      && s.slots[LITE].applied == Real(h.run, 15, LITE) == 2
  {
    var asking, run, before, t, s, time, row, asked;
    asking, run, before, time, row, asked := ReductionIsPutOff(first, second, repository);
    hide Table, Leads, Reaches, Ledger, ReportsSecond, Prolongs, Lite, LiteShape, LiteOnly, Real;
    var deferred := run;
    run, t := Submits(run, before, time, 3, third, repository, row, 2, Some(asked));
    MoreJobs(before.jobs, third, repository, time);
    ProlongsTwice(asking, deferred, run);
    var admitted := run;
    run, s := Submits(run, t, time, 4, fourth, repository, AdmittedRow(row, time), 2, Some(asked));
    ProlongsTwice(deferred, admitted, run);
    ProlongsTwice(asking, admitted, run);
    BothGranted(s, before.jobs, third, fourth, repository, AdmittedRow(AdmittedRow(row, time), time), time);
    LedgerCeiling(run, s, time, 2, Some(asked));
    SameMoment(deferred, run, 12);
    h := ReductionTookEffect(asking, run, asked);
  }

  lemma {:induction false} SameMoment(run: Run, longer: Run, k: nat)
    requires Prolongs(longer, run) && k < |run.moments|
    ensures longer.moments[k] == run.moments[k]
  {
    hide Leads, Initial;
    assert longer.moments[..|run.moments|][k] == run.moments[k];
  }
}
