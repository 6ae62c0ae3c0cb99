/** Whole runs of the scheduler from its first start. */
module SchedulerRuns {
  import opened SchedulerModel

  /** One step: the event was possible and leads from `s` to `t`. */
  ghost predicate Leads(s: State, e: Event, now: int, t: State) {
    Possible(s, e, now) && t == Step(s, e, now)
  }

  datatype Moment = Moment(event: Event, now: int)

  /** `states[i + 1]` is what `moments[i]` makes of `states[i]`. */
  datatype Run = Run(states: seq<State>, moments: seq<Moment>) {
    ghost predicate Valid() {
      && |states| == |moments| + 1
      && states[0] == Initial()
      && (forall i :: 0 <= i < |moments| ==> Follows(i))
      && (forall i, j :: 0 <= i < j < |moments| ==> moments[i].now <= moments[j].now)
    }

    ghost predicate Follows(i: nat)
      requires i < |moments| && |states| == |moments| + 1
    {
      Leads(states[i], moments[i].event, moments[i].now, states[i + 1])
    }
  }

  /** Events that neither admit, release nor assign a job. */
  predicate Plain(e: Event) {
    || e.Claim? || e.CapacityReported? || e.RunnerCreated? || e.ContainerStarted? || e.AlarmFired? || e.CleanupRetried?
    || e.UpdatesSelected? || e.UpdateStarted? || e.UpdateDeferred?
  }

  /** Events that leave an alarm invocation in flight where it is. */
  predicate KeepsRun(e: Event) {
    !e.AlarmFired? && !e.RecoveryFinished? && !e.UpdatesSelected? && !e.UpdateStarted? && !e.AlarmFinished? && !e.Restarted?
  }

  lemma {:induction false} RunKept(s: State, e: Event, now: int)
    requires Possible(s, e, now) && KeepsRun(e)
    ensures Step(s, e, now).run == s.run
  {
    hide DueTimes, NextQueued, ReservedResources, PlanOn, SelectSlot, ScheduleReclamation, ReleasedSlot, AdmittedSlot;
    hide ReleaseHolds, ReleaseAll, DueRows, RecoverStalledUpdates, RecoverStopped, Restart, HandsOver, Adopts, OnRunner, Requeued;
  }
}
