/** Completed, cancelled and failed jobs: they are final except when GitHub turns out to run one of them after all. */
module SchedulerLifecycle {
  import opened SchedulerModel
  import opened SchedulerNames
  import opened SchedulerRuns

  ghost predicate Revives(s: State, e: Event, id: JobId) {
    e.AssignmentReported? && e.claim.id == id && e.owner.Some? && HandsOver(s, e.claim, e.owner.value)
  }

  lemma {:induction false} AdmissionKeepsStatus(s: State, now: int, id: JobId)
    requires id in s.jobs && !s.jobs[id].status.Queued?
    ensures id in AdmitNext(s, now).jobs && AdmitNext(s, now).jobs[id].status == s.jobs[id].status
  {
    hide ScheduleReclamation, AdmittedSlot, SelectSlot, PlanOn;
  }

  lemma {:induction false} HandOverStatus(s: State, claim: RunnerClaim, owner: JobId, id: JobId)
    requires HandsOver(s, claim, owner) && s.jobs[owner].status.OwnsRunner() && id in s.jobs && s.jobs[id].status.Terminal()
    ensures var r := RecordAssignment(s, claim);
      && HandsOver(r, claim, owner)
      && id in HandOver(r, claim, owner).jobs
      && HandOver(r, claim, owner).jobs[id].status == if id == claim.id then Running else s.jobs[id].status
  {
  }

  lemma {:induction false} AssignmentRevives(s: State, e: Event, now: int, id: JobId)
    requires Possible(s, e, now) && e.AssignmentReported? && id in s.jobs && s.jobs[id].status.Terminal()
    ensures var t := JobStarted(s, e.claim, e.owner, now); id in t.jobs && (!t.jobs[id].status.Terminal() <==> Revives(s, e, id))
  {
    hide AdmitNext, DueTimes;
    if e.owner.Some? && HandsOver(s, e.claim, e.owner.value) {
      HandOverStatus(s, e.claim, e.owner.value, id);
      hide HandOver, RecordAssignment, HandsOver;
      AdmissionKeepsStatus(HandOver(RecordAssignment(s, e.claim), e.claim, e.owner.value), now, id);
    } else {
      hide HandsOver;
    }
  }

  lemma {:induction false} SubmissionKeepsStatus(s: State, e: Event, now: int, id: JobId)
    requires e.Submit? && id in s.jobs && s.jobs[id].status.Terminal()
    ensures var t := Submitted(s, e.id, e.runnerName, e.repository, e.profile, now); id in t.jobs && t.jobs[id].status.Terminal()
  {
    hide AdmitNext, DueTimes;
    if e.id !in s.jobs {
      AdmissionKeepsStatus(s.(jobs := s.jobs[e.id := NewJob(e.runnerName, e.repository, e.profile, now)]), now, id);
    }
  }

  /** A job leaves a final status exactly when the runner of another job is handed over to it. */
  lemma {:induction false} FinalStatusLeftExactlyByHandOver(s: State, e: Event, now: int, id: JobId)
    requires Possible(s, e, now) && id in s.jobs && s.jobs[id].status.Terminal()
    ensures var t := Step(s, e, now); id in t.jobs && (!t.jobs[id].status.Terminal() <==> Revives(s, e, id))
  {
    if KeepsNames(e) {
      MostStepsAreQuiet(s, e, now);
      hide Step;
    } else {
      hide JobStarted, Submitted, HandsOver;
      match e
      case AssignmentReported(_, _) => AssignmentRevives(s, e, now, id);
      case Submit(_, _, _, _) => SubmissionKeepsStatus(s, e, now, id);
      case RunnerCreated(_, _, _) =>
    }
  }

  lemma {:induction false} LedKeepsFinalStatus(s: State, e: Event, now: int, t: State, id: JobId)
    requires Leads(s, e, now, t) && id in s.jobs && s.jobs[id].status.Terminal() && !Revives(s, e, id)
    ensures id in t.jobs && t.jobs[id].status.Terminal()
  {
    FinalStatusLeftExactlyByHandOver(s, e, now, id);
  }

  /** So over a whole run a final status lasts until the first such hand-over. */
  lemma {:induction false} FinalStatusLasts(run: Run, i: nat, j: nat, id: JobId)
    requires run.Valid() && i <= j < |run.states| && id in run.states[i].jobs && run.states[i].jobs[id].status.Terminal()
    requires forall k :: i <= k < j ==> !Revives(run.states[k], run.moments[k].event, id)
    ensures id in run.states[j].jobs && run.states[j].jobs[id].status.Terminal()
  {
    if i < j {
      hide Initial, Leads, Revives;
      FinalStatusLasts(run, i, j - 1, id);
      assert run.Follows(j - 1);
      LedKeepsFinalStatus(run.states[j - 1], run.moments[j - 1].event, run.moments[j - 1].now, run.states[j], id);
    }
  }
}
