/** The alarm between invocations: it is armed for every piece of work that is stored, and never for nothing. */
module SchedulerAttention {
  import opened Deadlines
  import opened SchedulerActs
  import opened SchedulerAlarm
  import opened SchedulerModel
  import opened SchedulerPolicy
  import opened SchedulerRuns
  import opened Wrappers

  /** The alarm as a scheduling at time `now` leaves it. */
  ghost predicate IsScheduled(s: State, now: int) {
    && s.scheduledAt == now
    && (forall d :: d in DueTimes(s, now) ==> s.alarm.Some? && s.alarm.value <= Max(d, now))
    && (DueTimes(s, now) != {} ==> exists d :: d in DueTimes(s, now) && s.alarm == Some(Max(d, now)))
  }

  lemma {:induction false} SchedulingSchedules(s: State, now: int)
    ensures IsScheduled(ScheduleAlarm(s, now), now)
    ensures s.alarm.Some? ==> ScheduleAlarm(s, now).alarm.Some?
  {
    var t := ScheduleAlarm(s, now);
    assert DueTimes(t, now) == DueTimes(s, now);
    forall d | d in DueTimes(s, now)
      ensures IsEarliest(DueTimes(s, now), Earliest(DueTimes(s, now)))
    {
      EarliestIsEarliest(DueTimes(s, now), d);
    }
    hide DueTimes;
  }

  lemma {:induction false} EverySchedulingSchedules(now: int)
    ensures forall s: State :: IsScheduled(ScheduleAlarm(s, now), now)
    ensures forall s: State :: s.alarm.Some? ==> ScheduleAlarm(s, now).alarm.Some?
  {
    forall s: State
      ensures IsScheduled(ScheduleAlarm(s, now), now) && (s.alarm.Some? ==> ScheduleAlarm(s, now).alarm.Some?)
    {
      SchedulingSchedules(s, now);
    }
  }

  /** No work is added, and the alarm is left alone. */
  ghost predicate AddsNothing(s: State, t: State) {
    && t.alarm == s.alarm && t.scheduledAt == s.scheduledAt
    && forall d, now :: d in DueTimes(t, now) ==> d in DueTimes(s, now)
  }

  lemma {:induction false} SameWork(s: State, t: State)
    requires t.jobs == s.jobs && t.slots == s.slots && t.alarm == s.alarm && t.scheduledAt == s.scheduledAt
    ensures AddsNothing(s, t)
  {
  }

  /** Fewer jobs wait, and no job has a deadline that it did not have before. */
  ghost predicate LessWork(before: map<JobId, Job>, after: map<JobId, Job>) {
    forall id :: id in after ==>
      && id in before
      && (after[id].status.Waiting() ==> before[id].status.Waiting())
      && (after[id].status.Recoverable() ==> before[id].status.Recoverable() && after[id].recoveryDue == before[id].recoveryDue)
      && (after[id].cleanup.RetryCleanup? ==> before[id].cleanup.RetryCleanup? && after[id].cleanupDue == before[id].cleanupDue)
  }

  lemma {:induction false} LessWorkAddsNothing(s: State, t: State)
    requires LessWork(s.jobs, t.jobs) && t.slots == s.slots && t.alarm == s.alarm && t.scheduledAt == s.scheduledAt
    ensures AddsNothing(s, t)
  {
    forall d, now | d in DueTimes(t, now)
      ensures d in DueTimes(s, now)
    {
    }
  }

  /** The steps that may happen while no alarm is being handled. */
  predicate Outside(e: Event) {
    !WithinAlarm(e) && !e.UpdateDeferred? && !e.AlarmFinished?
  }

  lemma {:induction false} QuietCallsAddNothing(s: State, e: Event, now: int)
    requires Possible(s, e, now) && (e.Claim? || e.RunnerCreated? || e.ContainerStarted?)
    ensures AddsNothing(s, Step(s, e, now))
  {
    LessWorkAddsNothing(s, Step(s, e, now)) by {
      assert LessWork(s.jobs, Step(s, e, now).jobs);
    }
  }

  lemma {:induction false} ReportAttends(s: State, e: Event, now: int)
    requires Possible(s, e, now) && e.AssignmentReported?
    ensures IsScheduled(Step(s, e, now), now) || AddsNothing(s, Step(s, e, now))
  {
    var t := Step(s, e, now);
    if Displaces(s, e) {
      SchedulingSchedules(AdmitNext(HandOver(RecordAssignment(s, e.claim), e.claim, e.owner.value), now), now);
      hide ScheduleAlarm, AdmitNext, HandOver, RecordAssignment;
    } else {
      LessWorkAddsNothing(s, t) by {
        hide AdmitNext, ScheduleAlarm;
        assert LessWork(s.jobs, t.jobs);
      }
    }
  }

  lemma {:induction false} OtherCallsAttend(s: State, e: Event, now: int)
    requires Possible(s, e, now) && Outside(e)
    requires !e.Claim? && !e.RunnerCreated? && !e.ContainerStarted? && !e.AssignmentReported?
    ensures IsScheduled(Step(s, e, now), now) || AddsNothing(s, Step(s, e, now))
  {
    EverySchedulingSchedules(now);
    SameWork(s, s);
    hide IsScheduled, AddsNothing, ScheduleAlarm, AdmitNext, ReleaseJob, Superseding, ReleaseAll;
    if e.Restarted? {
      RestartIsScheduled(s, e.releasing, now);
      hide Restart;
    }
  }

  lemma {:induction false} RestartIsScheduled(s: State, ids: seq<JobId>, now: int)
    ensures IsScheduled(Restart(s, ids, now), now) && (s.alarm.Some? ==> Restart(s, ids, now).alarm.Some?)
  {
    var t := RecoverStalledUpdates(ReleaseAll(ReconcileReservations(s), ids, now), now);
    SchedulingSchedules(t, now);
    ReleaseAllKeepsAlarm(ReconcileReservations(s), ids, now);
    assert t.alarm == s.alarm;
    hide RecoverStalledUpdates, ReleaseAll, ScheduleAlarm;
    assert IsScheduled(ScheduleAlarm(t, now).(run := NoRun), now) by {
      RunDoesNotMatter(ScheduleAlarm(t, now), now, NoRun);
    }
  }

  lemma {:induction false} RunDoesNotMatter(s: State, now: int, run: AlarmRun)
    requires IsScheduled(s, now)
    ensures IsScheduled(s.(run := run), now)
  {
    assert DueTimes(s.(run := run), now) == DueTimes(s, now);
  }

  lemma {:induction false} ReleaseAllKeepsAlarm(s: State, ids: seq<JobId>, now: int)
    ensures ReleaseAll(s, ids, now).alarm == s.alarm
    decreases |ids|
  {
    if ids != [] {
      ReleaseAllKeepsAlarm(if ids[0] in s.jobs then ReleaseJob(s, ids[0], s.jobs[ids[0]].slot, Completed, now) else s, ids[1..], now);
    }
  }

  lemma {:induction false} FinishedIsScheduled(s: State, now: int)
    ensures IsScheduled(Step(s, AlarmFinished, now), now)
    requires Possible(s, AlarmFinished, now)
  {
    var t := AdmitNext(ReleaseHolds(s, CUSTOM_ROWS, now), now);
    SchedulingSchedules(t, now);
    hide ScheduleAlarm, AdmitNext, ReleaseHolds;
    RunDoesNotMatter(ScheduleAlarm(t, now), now, NoRun);
  }

  // ---------------------------------------------------------------- whole runs

  /** All the work that is stored is attended to, from the time of the last scheduling. */
  ghost predicate Attentive(s: State) {
    forall d :: d in DueTimes(s, s.scheduledAt) ==> s.alarm.Some? && s.alarm.value <= Max(d, s.scheduledAt)
  }

  ghost predicate AttentiveOutside(s: State) {
    s.run.NoRun? ==> Attentive(s)
  }

  lemma {:induction false} StepKeepsAttentive(s: State, e: Event, now: int, t: State)
    requires Leads(s, e, now, t) && AttentiveOutside(s)
    ensures AttentiveOutside(t)
  {
    hide Step, Possible, DueTimes;
    RunAfter(s, e, now);
    if t.run.NoRun? {
      if e.AlarmFinished? {
        FinishedIsScheduled(s, now);
      } else if e.Restarted? {
        RestartStepIsScheduled(s, e, now);
      } else if s.run.NoRun? {
        NothingFinishesOutside(s, e, now);
        if e.AssignmentReported? {
          ReportAttends(s, e, now);
        } else if e.Claim? || e.RunnerCreated? || e.ContainerStarted? {
          QuietCallsAddNothing(s, e, now);
        } else {
          OtherCallsAttend(s, e, now);
        }
      }
    }
  }

  lemma {:induction false} RestartStepIsScheduled(s: State, e: Event, now: int)
    requires Possible(s, e, now) && e.Restarted?
    ensures IsScheduled(Step(s, e, now), now)
  {
    RestartIsScheduled(s, e.releasing, now);
    hide Restart;
  }

  lemma {:induction false} NothingFinishesOutside(s: State, e: Event, now: int)
    requires Possible(s, e, now) && s.run.NoRun? && !e.AlarmFired?
    ensures Outside(e)
  {
  }

  lemma {:induction false} AttentiveInRun(run: Run, n: nat)
    requires run.Valid() && n < |run.states|
    ensures AttentiveOutside(run.states[n])
  {
    if n == 0 {
      NothingAtFirst();
    } else {
      hide Initial, Leads, AttentiveOutside;
      AttentiveInRun(run, n - 1);
      assert run.Follows(n - 1);
      StepKeepsAttentive(run.states[n - 1], run.moments[n - 1].event, run.moments[n - 1].now, run.states[n]);
    }
  }

  lemma {:induction false} NothingAtFirst()
    ensures Attentive(Initial())
  {
    assert forall i: SlotIndex :: !CapacityChangePending(Initial().slots[i]);
  }

  /** An alarm is armed no later than that time, or than the last scheduling when that was later. */
  predicate ArmedBy(s: State, time: int) {
    s.alarm.Some? && s.alarm.value <= Max(time, s.scheduledAt)
  }

  lemma {:induction false} WaitingIsAttended(s: State, id: JobId)
    requires Attentive(s) && id in s.jobs && (s.jobs[id].status.Queued? || s.jobs[id].status.Admitted?)
    ensures ArmedBy(s, s.scheduledAt + 60_000)
  {
    assert s.jobs[id].status.Waiting();
    assert s.scheduledAt + 60_000 in DueTimes(s, s.scheduledAt);
    hide DueTimes;
  }

  lemma {:induction false} ChangeIsAttended(s: State, i: SlotIndex)
    requires Attentive(s) && s.slots[i].state == Ready && !s.slots[i].updating && s.slots[i].desired != s.slots[i].applied
    ensures ArmedBy(s, s.slots[i].debounceUntil)
  {
    assert CapacityChangePending(s.slots[i]);
    assert s.slots[i].debounceUntil in DueTimes(s, s.scheduledAt);
    hide DueTimes;
  }

  lemma {:induction false} RecoveryIsAttended(s: State, id: JobId)
    requires Attentive(s) && id in s.jobs && s.jobs[id].status.Recoverable() && s.jobs[id].recoveryDue.Some?
    ensures ArmedBy(s, s.jobs[id].recoveryDue.value)
  {
    assert s.jobs[id].recoveryDue.value in DueTimes(s, s.scheduledAt);
    hide DueTimes;
  }

  lemma {:induction false} CleanupIsAttended(s: State, id: JobId)
    requires Attentive(s) && id in s.jobs && s.jobs[id].cleanup.RetryCleanup? && s.jobs[id].cleanupDue.Some?
    ensures ArmedBy(s, s.jobs[id].cleanupDue.value)
  {
    assert s.jobs[id].cleanupDue.value in DueTimes(s, s.scheduledAt);
    hide DueTimes;
  }

  /**
   * In every reachable state outside an alarm's handling an alarm is armed for all that is stored: a waiting job no later
   * than a minute after the last scheduling, and a capacity change, a recovery or a clean-up no later than its own time,
   * or the last scheduling when that was later.
   */
  lemma {:induction false} NothingIsForgotten(run: Run, n: nat)
    requires run.Valid() && n < |run.states| && run.states[n].run.NoRun?
    ensures var s := run.states[n];
      && (forall id :: id in s.jobs && (s.jobs[id].status.Queued? || s.jobs[id].status.Admitted?) ==>
            ArmedBy(s, s.scheduledAt + 60_000))
      && (forall i: SlotIndex ::
            s.slots[i].state == Ready && !s.slots[i].updating && s.slots[i].desired != s.slots[i].applied ==>
              ArmedBy(s, s.slots[i].debounceUntil))
      && (forall id :: id in s.jobs && s.jobs[id].status.Recoverable() && s.jobs[id].recoveryDue.Some? ==>
            ArmedBy(s, s.jobs[id].recoveryDue.value))
      && (forall id :: id in s.jobs && s.jobs[id].cleanup.RetryCleanup? && s.jobs[id].cleanupDue.Some? ==>
            ArmedBy(s, s.jobs[id].cleanupDue.value))
  {
    AttentiveInRun(run, n);
    hide Initial, Leads, Attentive, ArmedBy;
    var s := run.states[n];
    forall id | id in s.jobs && (s.jobs[id].status.Queued? || s.jobs[id].status.Admitted?)
      ensures ArmedBy(s, s.scheduledAt + 60_000)
    {
      WaitingIsAttended(s, id);
    }
    forall i: SlotIndex | s.slots[i].state == Ready && !s.slots[i].updating && s.slots[i].desired != s.slots[i].applied
      ensures ArmedBy(s, s.slots[i].debounceUntil)
    {
      ChangeIsAttended(s, i);
    }
    forall id | id in s.jobs && s.jobs[id].status.Recoverable() && s.jobs[id].recoveryDue.Some?
      ensures ArmedBy(s, s.jobs[id].recoveryDue.value)
    {
      RecoveryIsAttended(s, id);
    }
    forall id | id in s.jobs && s.jobs[id].cleanup.RetryCleanup? && s.jobs[id].cleanupDue.Some?
      ensures ArmedBy(s, s.jobs[id].cleanupDue.value)
    {
      CleanupIsAttended(s, id);
    }
  }

  // ---------------------------------------------------------------- an armed alarm

  lemma {:induction false} AdmissionKeepsAlarm(s: State, now: int)
    ensures AdmitNext(s, now).alarm == s.alarm
  {
    hide ScheduleReclamation, AdmittedSlot, SelectSlot, PlanOn;
  }

  lemma {:induction false} CallsKeepAlarm(s: State, e: Event, now: int)
    requires Possible(s, e, now) && s.alarm.Some? && !e.AlarmFired? && !e.AlarmFinished? && !e.Restarted?
    ensures Step(s, e, now).alarm.Some?
  {
    EverySchedulingSchedules(now);
    forall t: State
      ensures AdmitNext(t, now).alarm == t.alarm
    {
      AdmissionKeepsAlarm(t, now);
    }
    hide IsScheduled, ScheduleAlarm, AdmitNext, Superseding, ReleasedSlot, DueRows, Matches, OnRunner, Requeued, CleanedUp;
  }

  /** An armed alarm stays armed until it fires; calls may only move it. */
  lemma {:induction false} AlarmStaysArmed(s: State, e: Event, now: int, t: State)
    requires Leads(s, e, now, t) && s.alarm.Some? && !e.AlarmFired?
    ensures t.alarm.Some?
  {
    if e.Restarted? {
      RestartIsScheduled(s, e.releasing, now);
      hide Restart;
    } else if e.AlarmFinished? {
      FinishKeepsAlarm(s, now);
      hide Step;
    } else {
      CallsKeepAlarm(s, e, now);
      hide Step;
    }
  }

  lemma {:induction false} FinishKeepsAlarm(s: State, now: int)
    requires Possible(s, AlarmFinished, now) && s.alarm.Some?
    ensures Step(s, AlarmFinished, now).alarm.Some?
  {
    var t := ReleaseHolds(s, CUSTOM_ROWS, now);
    ReleaseHoldsOnlySlots(s, CUSTOM_ROWS, now);
    AdmissionKeepsAlarm(t, now);
    hide ReleaseHolds, AdmitNext, ScheduleAlarm;
    SchedulingSchedules(AdmitNext(t, now), now);
  }
}
