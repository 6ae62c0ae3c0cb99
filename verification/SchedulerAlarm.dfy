/** Recovery deadlines: no stopped or releasing job is ever forgotten. */
module SchedulerAlarm {
  import opened Deadlines
  import opened SchedulerModel
  import opened SchedulerNames
  import opened SchedulerPolicy
  import opened SchedulerRuns
  import opened Wrappers

  /** A job whose recovery is pending was pending before with the same deadline, or gets a full grace period now. */
  ghost predicate DeadlinesKept(before: map<JobId, Job>, after: map<JobId, Job>, mayStart: bool, now: int) {
    forall id :: id in after && after[id].status.Recoverable() ==>
      || (id in before && before[id].status.Recoverable() && after[id].recoveryDue == before[id].recoveryDue)
      || (mayStart && after[id].recoveryDue == Some(now + RUNNER_COMPLETION_GRACE_MS))
  }

  ghost predicate DeadlinesSet(jobs: map<JobId, Job>) {
    forall id :: id in jobs && jobs[id].status.Recoverable() ==> jobs[id].recoveryDue.Some?
  }

  /** An alarm is armed no later than every deadline, or than the last scheduling when that is later. */
  ghost predicate Armed(s: State) {
    forall id :: id in s.jobs && s.jobs[id].status.Recoverable() && s.jobs[id].recoveryDue.Some? ==>
      s.alarm.Some? && s.alarm.value <= Max(s.jobs[id].recoveryDue.value, s.scheduledAt)
  }

  lemma {:induction false} SchedulingArms(s: State, now: int)
    ensures Armed(ScheduleAlarm(s, now))
  {
    var times := DueTimes(s, now);
    forall id | id in s.jobs && s.jobs[id].status.Recoverable() && s.jobs[id].recoveryDue.Some?
      ensures var t := ScheduleAlarm(s, now);
        t.alarm.Some? && t.alarm.value <= Max(s.jobs[id].recoveryDue.value, t.scheduledAt)
    {
      assert s.jobs[id].recoveryDue.value in times;
      EarliestIsEarliest(times, s.jobs[id].recoveryDue.value);
    }
  }

  /** What a step does to deadlines and to the alarm. */
  ghost predicate Attended(s: State, t: State, now: int) {
    && DeadlinesKept(s.jobs, t.jobs, true, now)
    && (Armed(t) || (t.alarm == s.alarm && t.scheduledAt == s.scheduledAt && DeadlinesKept(s.jobs, t.jobs, false, now)))
  }

  lemma {:induction false} ScheduledIsAttended(s: State, t: State, now: int)
    requires DeadlinesKept(s.jobs, t.jobs, true, now)
    ensures Attended(s, ScheduleAlarm(t, now), now)
  {
    SchedulingArms(t, now);
    hide Armed, DueTimes;
  }

  lemma {:induction false} AdmitNextKeepsDeadlines(s: State, t: State, mayStart: bool, now: int)
    requires DeadlinesKept(s.jobs, t.jobs, mayStart, now)
    ensures DeadlinesKept(s.jobs, AdmitNext(t, now).jobs, mayStart, now)
  {
    hide ScheduleReclamation, AdmittedSlot, SelectSlot, PlanOn;
  }

  lemma {:induction false} AdmittedIsAttended(s: State, t: State, now: int)
    requires DeadlinesKept(s.jobs, t.jobs, true, now)
    ensures Attended(s, ScheduleAlarm(AdmitNext(t, now), now), now)
  {
    AdmitNextKeepsDeadlines(s, t, true, now);
    hide AdmitNext, DeadlinesKept;
    ScheduledIsAttended(s, AdmitNext(t, now), now);
  }

  lemma {:induction false} SubmittedAttended(s: State, e: Event, now: int)
    requires e.Submit?
    ensures Attended(s, Submitted(s, e.id, e.runnerName, e.repository, e.profile, now), now)
  {
    if e.id !in s.jobs {
      AdmittedIsAttended(s, s.(jobs := s.jobs[e.id := NewJob(e.runnerName, e.repository, e.profile, now)]), now);
    }
    hide AdmitNext, ScheduleAlarm, Armed;
  }

  lemma {:induction false} ConfigurationReadyAttended(s: State, id: JobId, now: int)
    ensures Attended(s, ConfigurationReady(s, id, now), now)
  {
    if id in s.jobs && s.jobs[id].slot.Some? {
      var i := s.jobs[id].slot.value;
      AdmittedIsAttended(s, Configured(s, i, id), now);
    }
    hide AdmitNext, ScheduleAlarm, Armed;
  }

  lemma {:induction false} CapacityPreparedAttended(s: State, slot: SlotIndex, generation: nat, now: int)
    ensures Attended(s, CapacityPrepared(s, slot, generation, now), now)
  {
    if OperationKey(slot, generation) in s.operations {
      var row := s.slots[slot];
      var prepared := row.(applied := s.operations[OperationKey(slot, generation)].target,
                           updating := row.updating && row.updateGeneration != generation);
      var t := s.(slots := s.slots[slot := prepared], operations := Superseding(s.operations, slot, generation, now));
      hide Superseding;
      ScheduledIsAttended(s, t, now);
      hide ScheduleAlarm, Armed;
    }
  }

  lemma {:induction false} ReleasedAttended(s: State, id: JobId, slot: Option<SlotIndex>, status: Status, now: int)
    requires id in s.jobs && status.Terminal()
    ensures Attended(s, ScheduleAlarm(AdmitNext(ReleaseJob(s, id, slot, status, now), now), now), now)
  {
    hide AdmitNext, ScheduleAlarm, Armed;
    AdmittedIsAttended(s, ReleaseJob(s, id, slot, status, now), now);
  }

  lemma {:induction false} ProvisioningFailedAttended(s: State, id: JobId, runnerName: string, now: int)
    ensures Attended(s, ProvisioningFailed(s, id, runnerName, now), now)
  {
    hide AdmitNext, ScheduleAlarm, Armed, ReleaseJob;
    if CanStart(s, id, runnerName) {
      ReleasedAttended(s, id, s.jobs[id].slot, Failed, now);
    }
  }

  lemma {:induction false} JobCompletedAttended(s: State, id: JobId, now: int)
    ensures Attended(s, JobCompleted(s, id, now), now)
  {
    hide AdmitNext, ScheduleAlarm, Armed, ReleaseJob;
    if id in s.jobs {
      var job := s.jobs[id];
      if job.status.Waiting() {
        ReleasedAttended(s, id, job.slot, Cancelled, now);
      } else if job.status.StoppedAwaitingCompletion? {
        ReleasedAttended(s, id, job.slot, Completed, now);
      } else if job.status.Provisioning? || job.status.Running? {
        ScheduledIsAttended(
          s, s.(jobs := s.jobs[id := job.(status := Releasing, recoveryDue := Some(now + RUNNER_COMPLETION_GRACE_MS))]), now);
      }
    }
  }

  lemma {:induction false} RunnerStoppedAttended(s: State, row: Option<JobId>, now: int)
    ensures Attended(s, RunnerStopped(s, row, now), now)
  {
    hide AdmitNext, ScheduleAlarm, Armed, ReleaseJob;
    if row.Some? && row.value in s.jobs && s.jobs[row.value].status.Active() {
      var id, job := row.value, s.jobs[row.value];
      if job.status.Releasing? {
        ReleasedAttended(s, id, job.slot, Completed, now);
      } else {
        ScheduledIsAttended(
          s,
          s.(jobs := s.jobs[id := job.(status := StoppedAwaitingCompletion, recoveryDue := Some(now + RUNNER_COMPLETION_GRACE_MS))]),
          now);
      }
    }
  }

  lemma {:induction false} HandOverKeepsDeadlines(s: State, claim: RunnerClaim, owner: JobId, now: int)
    requires HandsOver(s, claim, owner)
    ensures HandsOver(RecordAssignment(s, claim), claim, owner)
    ensures DeadlinesKept(s.jobs, HandOver(RecordAssignment(s, claim), claim, owner).jobs, true, now)
  {
  }

  lemma {:induction false} OtherAssignmentKeepsDeadlines(s: State, claim: RunnerClaim, owner: Option<JobId>, now: int)
    requires owner.None? || !HandsOver(s, claim, owner.value)
    ensures var t := JobStarted(s, claim, owner, now);
      t.alarm == s.alarm && t.scheduledAt == s.scheduledAt && DeadlinesKept(s.jobs, t.jobs, false, now)
  {
    hide AdmitNext, DueTimes, Matches;
  }

  lemma {:induction false} JobStartedAttended(s: State, claim: RunnerClaim, owner: Option<JobId>, now: int)
    ensures Attended(s, JobStarted(s, claim, owner, now), now)
  {
    hide AdmitNext, ScheduleAlarm, Armed, HandOver, RecordAssignment;
    if owner.Some? && HandsOver(s, claim, owner.value) {
      HandOverKeepsDeadlines(s, claim, owner.value, now);
      AdmittedIsAttended(s, HandOver(RecordAssignment(s, claim), claim, owner.value), now);
    } else {
      OtherAssignmentKeepsDeadlines(s, claim, owner, now);
      hide JobStarted;
    }
  }

  lemma {:induction false} ClaimedAttended(s: State, id: JobId, runnerName: string, now: int)
    ensures Attended(s, Claimed(s, id, runnerName), now)
  {
    hide Armed;
  }

  lemma {:induction false} RunnerStartedAttended(s: State, runnerName: string, now: int)
    ensures Attended(s, RunnerStarted(s, runnerName), now)
  {
    hide Armed;
  }

  lemma {:induction false} ReleaseAllKeepsDeadlines(s: State, ids: seq<JobId>, now: int)
    ensures DeadlinesKept(s.jobs, ReleaseAll(s, ids, now).jobs, true, now)
    decreases |ids|
  {
    if ids != [] {
      ReleaseAllKeepsDeadlines(
        if ids[0] in s.jobs then ReleaseJob(s, ids[0], s.jobs[ids[0]].slot, Completed, now) else s, ids[1..], now);
    }
  }

  lemma {:induction false} RestartAttended(s: State, releasing: seq<JobId>, now: int)
    ensures Attended(s, Restart(s, releasing, now), now)
  {
    var t := ReleaseAll(ReconcileReservations(s), releasing, now);
    ReleaseAllKeepsDeadlines(ReconcileReservations(s), releasing, now);
    hide ReleaseAll, DueTimes;
    ScheduledIsAttended(s, RecoverStalledUpdates(t, now), now);
    hide ScheduleAlarm;
  }

  lemma {:induction false} ReleaseHoldsOnlySlots(s: State, rows: seq<SlotIndex>, now: int)
    ensures var t := ReleaseHolds(s, rows, now); t == s.(slots := t.slots, operations := t.operations)
    decreases |rows|
  {
    if rows != [] {
      ReleaseHoldsOnlySlots(ReleaseHold(s, rows[0], now), rows[1..], now);
    }
  }

  lemma {:induction false} AlarmFinishedAttended(s: State, now: int)
    ensures Attended(s, ScheduleAlarm(AdmitNext(ReleaseHolds(s, CUSTOM_ROWS, now), now), now).(run := NoRun), now)
  {
    ReleaseHoldsOnlySlots(s, CUSTOM_ROWS, now);
    hide ReleaseHolds;
    AdmittedIsAttended(s, ReleaseHolds(s, CUSTOM_ROWS, now), now);
    hide AdmitNext, ScheduleAlarm;
  }

  predicate WithinAlarm(e: Event) {
    e.AlarmFired? || e.RecoveryFinished? || e.CleanupRetried? || e.UpdatesSelected? || e.UpdateStarted?
  }

  lemma {:induction false} StepAttends(s: State, e: Event, now: int)
    requires Possible(s, e, now) && !WithinAlarm(e)
    ensures Attended(s, Step(s, e, now), now)
  {
    hide AdmitNext, Submitted, ConfigurationReady, ProvisioningFailed, JobStarted, JobCompleted, RunnerStopped, CapacityPrepared;
    hide RecoverStopped, ReleaseHolds, ReleaseAll, DueRows, ReconcileReservations, DueTimes, Claimed, RunnerStarted, Restart;
    hide ScheduleAlarm, Armed;
    match e
    case Submit(_, _, _, _) => SubmittedAttended(s, e, now);
    case Claim(id, runnerName) => ClaimedAttended(s, id, runnerName, now);
    case ConfigurationReported(id) => ConfigurationReadyAttended(s, id, now);
    case CapacityReported(slot, generation) => CapacityPreparedAttended(s, slot, generation, now);
    case RunnerCreated(_, _, _) =>
    case ContainerStarted(runnerName) => RunnerStartedAttended(s, runnerName, now);
    case AssignmentReported(claim, owner) => JobStartedAttended(s, claim, owner, now);
    case ProvisioningFailure(id, runnerName) => ProvisioningFailedAttended(s, id, runnerName, now);
    case CompletionReported(id) => JobCompletedAttended(s, id, now);
    case ContainerStopped(_, row) => RunnerStoppedAttended(s, row, now);
    case UpdateDeferred(_, _) =>
    case AlarmFinished => AlarmFinishedAttended(s, now);
    case Restarted(releasing) => RestartAttended(s, releasing, now);
  }

  // ---------------------------------------------------------------- inside an alarm invocation

  lemma {:induction false} RecoveryKeepsDeadlines(s: State, row: StoppedRow, answer: CleanupAnswer, now: int)
    requires row.id in s.jobs
    ensures var t := RecoverStopped(s, row, answer, now);
      DeadlinesKept(s.jobs, t.jobs, false, now) && row.id in t.jobs && !t.jobs[row.id].status.Recoverable()
  {
    var status := if row.job.status.Releasing? then Completed else Failed;
    var released := ReleaseJob(CleanUp(s, row, answer), row.id, row.job.slot, status, now);
    AdmitNextKeepsDeadlines(s, released, false, now);
    AdmitNextQuiet(released, now);
    hide AdmitNext, ReleasedSlot;
  }

  lemma {:induction false} WithinAlarmKeepsDeadlines(s: State, e: Event, now: int)
    requires Possible(s, e, now) && WithinAlarm(e)
    ensures DeadlinesKept(s.jobs, Step(s, e, now).jobs, false, now)
  {
    if e.RecoveryFinished? && s.run.rows[0].id in s.jobs {
      RecoveryKeepsDeadlines(s, s.run.rows[0], e.answer, now);
    }
    hide RecoverStopped, DueRows, UnstalledSlot;
  }

  lemma {:induction false} StepKeepsDeadlines(s: State, e: Event, now: int)
    requires Possible(s, e, now)
    ensures DeadlinesKept(s.jobs, Step(s, e, now).jobs, true, now)
  {
    if WithinAlarm(e) {
      WithinAlarmKeepsDeadlines(s, e, now);
    } else {
      StepAttends(s, e, now);
    }
    hide Step;
  }

  /** Nothing that was due when the alarm fired is forgotten while it is being handled. */
  ghost predicate RecoveryOk(s: State) {
    match s.run
    case NoRun => true
    case Recovering(cutoff, rows) => forall id :: id in s.jobs && s.jobs[id].DueBy(cutoff) ==> Listed(rows, id)
    case Updating(cutoff, _) => forall id :: id in s.jobs ==> !s.jobs[id].DueBy(cutoff)
  }

  predicate Listed(rows: seq<StoppedRow>, id: JobId) {
    exists row :: row in rows && row.id == id
  }

  /** No step makes a job due in the past. */
  lemma {:induction false} NoneFallsDue(
      before: map<JobId, Job>, after: map<JobId, Job>, cutoff: int, now: int, id: JobId)
    requires DeadlinesKept(before, after, true, now) && cutoff <= now && id in after && after[id].DueBy(cutoff)
    ensures id in before && before[id].DueBy(cutoff)
  {
  }

  lemma {:induction false} RecoveryFinishedKeepsRecovery(s: State, e: Event, now: int)
    requires Possible(s, e, now) && e.RecoveryFinished? && RecoveryOk(s) && s.run.cutoff <= now
    ensures RecoveryOk(Step(s, e, now))
  {
    var t := Step(s, e, now);
    var cutoff, rows := s.run.cutoff, s.run.rows;
    StepKeepsDeadlines(s, e, now);
    if rows[0].id in s.jobs {
      RecoveryKeepsDeadlines(s, rows[0], e.answer, now);
    }
    hide RecoverStopped;
    forall id | id in t.jobs && t.jobs[id].DueBy(cutoff)
      ensures Listed(rows[1..], id)
    {
      NoneFallsDue(s.jobs, t.jobs, cutoff, now, id);
      var row :| row in rows && row.id == id;
      assert row != rows[0] && rows == [rows[0]] + rows[1..];
    }
  }

  lemma {:induction false} AlarmFiredKeepsRecovery(s: State, e: Event, now: int)
    requires Possible(s, e, now) && e.AlarmFired?
    ensures RecoveryOk(Step(s, e, now))
  {
    forall id | id in s.jobs && s.jobs[id].DueBy(now)
      ensures Listed(e.rows, id)
    {
      assert StoppedRow(id, s.jobs[id]) in e.rows;
    }
  }

  lemma {:induction false} StepKeepsRecovery(s: State, e: Event, now: int)
    requires Possible(s, e, now) && RecoveryOk(s) && (!s.run.NoRun? ==> s.run.cutoff <= now)
    ensures RecoveryOk(Step(s, e, now))
  {
    if e.RecoveryFinished? {
      RecoveryFinishedKeepsRecovery(s, e, now);
    } else if e.AlarmFired? {
      AlarmFiredKeepsRecovery(s, e, now);
    } else {
      StepKeepsDeadlines(s, e, now);
      RunAfter(s, e, now);
      hide DeadlinesKept, Step, Possible, Job.DueBy, Listed;
      var t := Step(s, e, now);
      if !t.run.NoRun? {
        forall id | id in t.jobs && t.jobs[id].DueBy(s.run.cutoff)
          ensures id in s.jobs && s.jobs[id].DueBy(s.run.cutoff)
        {
          NoneFallsDue(s.jobs, t.jobs, s.run.cutoff, now, id);
        }
      }
    }
    hide Step, RecoveryOk;
  }

  /** How a step moves an alarm invocation along. */
  lemma {:induction false} RunAfter(s: State, e: Event, now: int)
    requires Possible(s, e, now)
    ensures var r := Step(s, e, now).run;
      match e
      case AlarmFired(rows) => r == Recovering(now, rows)
      case RecoveryFinished(_) => r == Recovering(s.run.cutoff, s.run.rows[1..])
      case UpdatesSelected => s.run == Recovering(s.run.cutoff, []) && r.Updating? && r.cutoff == s.run.cutoff
      case UpdateStarted => s.run.Updating? && r == Updating(s.run.cutoff, s.run.due[1..])
      case AlarmFinished => r == NoRun
      case Restarted(_) => r == NoRun
      case _ => r == s.run
  {
    if KeepsRun(e) {
      RunKept(s, e, now);
    } else {
      hide DueRows, RecoverStopped, ReleaseHolds, AdmitNext, ScheduleAlarm, Restart;
      hide StartUpdate, RecoverStalledUpdates;
      assert e.Restarted? ==> Restart(s, e.releasing, now).run == NoRun by {
        RestartEnds(s, e, now);
      }
    }
  }

  lemma {:induction false} RestartEnds(s: State, e: Event, now: int)
    ensures e.Restarted? ==> Restart(s, e.releasing, now).run == NoRun
  {
    hide ScheduleAlarm, RecoverStalledUpdates, ReleaseAll;
  }

  // ---------------------------------------------------------------- whole runs

  lemma {:induction false} FinishedAlarmArms(s: State, now: int)
    requires Possible(s, AlarmFinished, now)
    ensures Armed(Step(s, AlarmFinished, now))
  {
    hide ReleaseHolds, AdmitNext;
    SchedulingArms(AdmitNext(ReleaseHolds(s, CUSTOM_ROWS, now), now), now);
    hide ScheduleAlarm;
  }

  lemma {:induction false} RestartArms(s: State, releasing: seq<JobId>, now: int)
    ensures Armed(Restart(s, releasing, now))
  {
    hide RecoverStalledUpdates, ReleaseAll;
    SchedulingArms(RecoverStalledUpdates(ReleaseAll(ReconcileReservations(s), releasing, now), now), now);
    hide ScheduleAlarm;
  }

  lemma {:induction false} AttendedKeepsArmed(s: State, t: State, now: int)
    requires Attended(s, t, now) && Armed(s)
    ensures Armed(t)
  {
  }

  /** The alarm covers every deadline, or an invocation is under way and no call has scheduled since it began. */
  ghost predicate Watched(s: State) {
    Armed(s) || (!s.run.NoRun? && s.alarm.None?)
  }

  /** An invocation leaves the alarm to the calls that schedule. */
  lemma {:induction false} WithinAlarmKeepsAlarm(s: State, e: Event, now: int)
    requires Possible(s, e, now) && WithinAlarm(e) && !e.AlarmFired?
    ensures Step(s, e, now).alarm == s.alarm && Step(s, e, now).scheduledAt == s.scheduledAt
  {
    hide DueRows, NextQueued, SelectSlot, PlanOn, ReservedResources;
  }

  lemma {:induction false} InvocationKeepsWatched(s: State, e: Event, now: int)
    requires Possible(s, e, now) && WithinAlarm(e) && Watched(s)
    ensures Watched(Step(s, e, now))
  {
    if !e.AlarmFired? {
      RunAfter(s, e, now);
      WithinAlarmKeepsAlarm(s, e, now);
      WithinAlarmKeepsDeadlines(s, e, now);
      hide Step;
    }
  }

  lemma {:induction false} StepKeepsWatched(s: State, e: Event, now: int)
    requires Possible(s, e, now) && Watched(s)
    ensures Watched(Step(s, e, now))
  {
    if e.AlarmFinished? {
      FinishedAlarmArms(s, now);
    } else if e.Restarted? {
      RestartArms(s, e.releasing, now);
      hide Restart, Armed;
    } else if WithinAlarm(e) {
      InvocationKeepsWatched(s, e, now);
      hide Step;
    } else {
      RunAfter(s, e, now);
      StepAttends(s, e, now);
      hide Step, Possible;
      if Armed(s) {
        AttendedKeepsArmed(s, Step(s, e, now), now);
      }
      hide Armed;
    }
    hide Step;
  }

  ghost predicate AlarmOk(s: State) {
    DeadlinesSet(s.jobs) && RecoveryOk(s) && Watched(s)
  }

  /** An invocation never started later than anything that happens after it. */
  ghost predicate CutoffPassed(run: Run, n: nat)
    requires run.Valid() && n < |run.states|
  {
    !run.states[n].run.NoRun? ==> forall k :: n <= k < |run.moments| ==> run.states[n].run.cutoff <= run.moments[k].now
  }

  lemma {:induction false} LedKeepsDeadlines(s: State, e: Event, now: int, t: State)
    requires Leads(s, e, now, t) && DeadlinesSet(s.jobs)
    ensures DeadlinesSet(t.jobs)
  {
    StepKeepsDeadlines(s, e, now);
    hide Step;
  }

  lemma {:induction false} LedKeepsRecovery(s: State, e: Event, now: int, t: State)
    requires Leads(s, e, now, t) && RecoveryOk(s) && (!s.run.NoRun? ==> s.run.cutoff <= now)
    ensures RecoveryOk(t)
  {
    hide RecoveryOk;
    StepKeepsRecovery(s, e, now);
    hide Step, Possible;
  }

  lemma {:induction false} LedKeepsWatched(s: State, e: Event, now: int, t: State)
    requires Leads(s, e, now, t) && Watched(s)
    ensures Watched(t)
  {
    hide Watched;
    StepKeepsWatched(s, e, now);
    hide Step, Possible;
  }

  lemma {:induction false} LedMovesRun(s: State, e: Event, now: int, t: State)
    requires Leads(s, e, now, t)
    ensures !t.run.NoRun? && !e.AlarmFired? ==> !s.run.NoRun? && t.run.cutoff == s.run.cutoff
    ensures !t.run.NoRun? && e.AlarmFired? ==> t.run.cutoff == now
  {
    RunAfter(s, e, now);
    hide Step, Possible;
  }

  /** The invocation goes on, unless this event ends it. */
  lemma {:induction false} LedKeepsCutoff(s: State, e: Event, now: int, t: State)
    requires Leads(s, e, now, t) && !e.AlarmFinished? && !e.Restarted?
    ensures e.AlarmFired? ==> !t.run.NoRun? && t.run.cutoff == now
    ensures !e.AlarmFired? && !s.run.NoRun? ==> !t.run.NoRun? && t.run.cutoff == s.run.cutoff
    ensures e.AlarmFired? ==> s.run.NoRun?
  {
    RunAfter(s, e, now);
    hide Step;
  }

  lemma {:induction false} LedNoneFallsDue(s: State, e: Event, now: int, t: State, cutoff: int, id: JobId)
    requires Leads(s, e, now, t) && cutoff <= now && id in t.jobs && t.jobs[id].DueBy(cutoff)
    ensures id in s.jobs && s.jobs[id].DueBy(cutoff)
  {
    StepKeepsDeadlines(s, e, now);
    hide Step;
    NoneFallsDue(s.jobs, t.jobs, cutoff, now, id);
  }

  lemma {:induction false} AlarmInRun(run: Run, n: nat)
    requires run.Valid() && n < |run.states|
    ensures AlarmOk(run.states[n]) && CutoffPassed(run, n)
  {
    if n > 0 {
      hide Leads, Initial, DeadlinesSet, RecoveryOk, Watched;
      AlarmInRun(run, n - 1);
      assert run.Follows(n - 1);
      var s, e, now, t := run.states[n - 1], run.moments[n - 1].event, run.moments[n - 1].now, run.states[n];
      LedKeepsDeadlines(s, e, now, t);
      LedKeepsRecovery(s, e, now, t);
      LedKeepsWatched(s, e, now, t);
      LedMovesRun(s, e, now, t);
    }
  }

  /**
   * In every reachable state each stopped or releasing job has a recovery deadline, and an alarm is armed no later than
   * that deadline, or than the last scheduling when that is later. The one exception is an invocation that is under way
   * while no call has armed an alarm since it began; its end does.
   */
  lemma {:induction false} NoJobIsForgotten(run: Run, n: nat, id: JobId)
    requires run.Valid() && n < |run.states|
    requires id in run.states[n].jobs && run.states[n].jobs[id].status.Recoverable()
    ensures var s := run.states[n];
      && s.jobs[id].recoveryDue.Some?
      && (s.alarm.Some? ==> s.alarm.value <= Max(s.jobs[id].recoveryDue.value, s.scheduledAt))
      && (s.alarm.None? ==> !s.run.NoRun?)
  {
    AlarmInRun(run, n);
  }

  lemma {:induction false} CutoffKept(run: Run, i: nat, j: nat)
    requires run.Valid() && i < j < |run.states| && run.moments[i].event.AlarmFired?
    requires forall k :: i < k < j ==> !run.moments[k].event.AlarmFinished? && !run.moments[k].event.Restarted?
    ensures !run.states[j].run.NoRun? && run.states[j].run.cutoff == run.moments[i].now
  {
    hide Leads, Initial;
    assert run.Follows(j - 1);
    if i < j - 1 {
      CutoffKept(run, i, j - 1);
    }
    LedKeepsCutoff(run.states[j - 1], run.moments[j - 1].event, run.moments[j - 1].now, run.states[j]);
  }

  lemma {:induction false} UpdatingAfterFinish(s: State, e: Event, now: int, t: State)
    requires Leads(s, e, now, t) && e.AlarmFinished?
    ensures s.run.Updating?
  {
    hide Step;
  }

  /** An alarm that fired at time `t`, handled to its end, leaves no stopped or releasing job due at or before `t`. */
  lemma {:induction false} AlarmLeavesNothingDue(run: Run, i: nat, j: nat, id: JobId)
    requires run.Valid() && i < j < |run.moments|
    requires run.moments[i].event.AlarmFired? && run.moments[j].event.AlarmFinished?
    requires forall k :: i < k < j ==> !run.moments[k].event.AlarmFinished? && !run.moments[k].event.Restarted?
    ensures id in run.states[j + 1].jobs ==> !run.states[j + 1].jobs[id].DueBy(run.moments[i].now)
  {
    hide Leads, Initial;
    CutoffKept(run, i, j);
    AlarmInRun(run, j);
    assert run.Follows(j);
    var s, t, cutoff := run.states[j], run.states[j + 1], run.states[j].run.cutoff;
    if id in t.jobs && t.jobs[id].DueBy(cutoff) {
      LedNoneFallsDue(s, run.moments[j].event, run.moments[j].now, t, cutoff, id);
      UpdatingAfterFinish(s, run.moments[j].event, run.moments[j].now, t);
    }
  }
}
