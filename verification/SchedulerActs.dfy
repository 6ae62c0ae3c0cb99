/** Every step as what it does by itself, followed by the admission of one queued job and the scheduling of the alarm. */
module SchedulerActs {
  import opened SchedulerModel
  import opened SchedulerRuns
  import opened Wrappers

  /** The job that is released, and how it ends. */
  datatype Ending = Ending(id: JobId, slot: Option<SlotIndex>, status: Status)

  ghost function EndingOf(s: State, e: Event, now: int): (r: Option<Ending>)
    requires Possible(s, e, now)
    ensures r.Some? ==> r.value.id in s.jobs
  {
    match e
    case ProvisioningFailure(id, runnerName) =>
      if CanStart(s, id, runnerName) then Some(Ending(id, s.jobs[id].slot, Failed)) else None
    case CompletionReported(id) =>
      if id in s.jobs && s.jobs[id].status.Waiting() then Some(Ending(id, s.jobs[id].slot, Cancelled))
      else if id in s.jobs && s.jobs[id].status.StoppedAwaitingCompletion? then Some(Ending(id, s.jobs[id].slot, Completed))
      else None
    case ContainerStopped(_, row) =>
      if row.Some? && s.jobs[row.value].status.Releasing? then Some(Ending(row.value, s.jobs[row.value].slot, Completed))
      else None
    case RecoveryFinished(_) =>
      var row := s.run.rows[0];
      if row.id in s.jobs then Some(Ending(row.id, row.job.slot, if row.job.status.Releasing? then Completed else Failed))
      else None
    case _ => None
  }

  ghost predicate Displaces(s: State, e: Event) {
    e.AssignmentReported? && e.owner.Some? && HandsOver(s, e.claim, e.owner.value)
  }

  /** The step goes on to admit the next queued job. */
  ghost predicate Admits(s: State, e: Event, now: int)
    requires Possible(s, e, now)
  {
    || (e.Submit? && e.id !in s.jobs)
    || (e.ConfigurationReported? && e.id in s.jobs && s.jobs[e.id].slot.Some?)
    || Displaces(s, e)
    || EndingOf(s, e, now).Some?
    || e.AlarmFinished?
  }

  /** The tables before that admission. */
  ghost function Acted(s: State, e: Event, now: int): State
    requires Possible(s, e, now)
  {
    var ending := EndingOf(s, e, now);
    if ending.Some? then
      var r := if e.RecoveryFinished? then CleanUp(s, s.run.rows[0], e.answer) else s;
      ReleaseJob(r, ending.value.id, ending.value.slot, ending.value.status, now)
    else if Displaces(s, e) then HandOver(RecordAssignment(s, e.claim), e.claim, e.owner.value)
    else if !Admits(s, e, now) then Step(s, e, now)
    else
      match e
      case Submit(id, runnerName, repository, profile) =>
        s.(jobs := s.jobs[id := NewJob(runnerName, repository, profile, now)])
      case ConfigurationReported(id) => Configured(s, s.jobs[id].slot.value, id)
      case _ => ReleaseHolds(s, CUSTOM_ROWS, now)
  }

  /** What a job was submitted with. */
  predicate SameOrigin(a: Job, b: Job) {
    b.repository == a.repository && b.profile == a.profile && b.createdAt == a.createdAt
  }

  ghost predicate SameTables(s: State, t: State) {
    s.jobs == t.jobs && s.slots == t.slots && s.runners == t.runners && s.operations == t.operations
  }

  lemma {:induction false} NotAdmittingActs(s: State, e: Event, now: int)
    requires Possible(s, e, now) && !Admits(s, e, now)
    ensures Acted(s, e, now) == Step(s, e, now)
  {
    hide Step;
  }

  lemma {:induction false} StepSplits(s: State, e: Event, now: int)
    requires Possible(s, e, now)
    ensures var acted := Acted(s, e, now);
      SameTables(Step(s, e, now), if Admits(s, e, now) then AdmitNext(acted, now) else acted)
  {
    hide AdmitNext, DueTimes, ReleaseHolds, ReleasedSlot, HandOver, RecordAssignment, CleanedUp;
    if Admits(s, e, now) {
      match e
      case Submit(_, _, _, _) =>
      case ConfigurationReported(_) =>
      case AssignmentReported(_, _) => hide HandsOver;
      case ProvisioningFailure(_, _) =>
      case CompletionReported(_) =>
      case ContainerStopped(_, _) =>
      case RecoveryFinished(_) =>
      case AlarmFinished =>
    }
  }

  /** A step that neither admits nor ends a job only notes something about one. */
  ghost predicate Noted(s: State, e: Event, id: JobId, job: Job) {
    && id in s.jobs
    && var was := s.jobs[id];
       || (e == CompletionReported(id) && (was.status.Provisioning? || was.status.Running?)
           && job == was.(status := Releasing, recoveryDue := job.recoveryDue))
       || (e.ContainerStopped? && e.stoppedJob == Some(id) && was.status.Active() && !was.status.Releasing?
           && job == was.(status := StoppedAwaitingCompletion, recoveryDue := job.recoveryDue))
       || (e.AssignmentReported? && e.claim.id == id && e.owner == Some(id) && s.jobs[id].runnerName == e.claim.runnerName
           && job == was.(assignmentObserved := true))
       || (e.AssignmentReported? && e.claim.id == id && e.owner.None? && (was.status.Waiting() || was.status.Running?)
           && job == OnRunner(was, e.claim.runnerName, e.claim.runnerId, was.slot))
  }

  ghost predicate NotesAtMost(s: State, e: Event, t: State) {
    t.slots == s.slots && (t.jobs == s.jobs || exists id, job :: Noted(s, e, id, job) && t.jobs == s.jobs[id := job])
  }

  lemma {:induction false} ReportNotes(s: State, e: Event, now: int)
    requires Possible(s, e, now) && e.AssignmentReported? && !Displaces(s, e)
    ensures NotesAtMost(s, e, Step(s, e, now))
  {
    hide AdmitNext, ScheduleAlarm, HandOver;
    var t := Step(s, e, now);
    if t.jobs != s.jobs {
      assert Noted(s, e, e.claim.id, t.jobs[e.claim.id]) && t.jobs == s.jobs[e.claim.id := t.jobs[e.claim.id]];
    }
  }

  lemma {:induction false} CallNotes(s: State, e: Event, now: int)
    requires Possible(s, e, now) && !Admits(s, e, now) && !Plain(e) && !e.Restarted? && !e.AssignmentReported?
    ensures NotesAtMost(s, e, Step(s, e, now))
  {
    hide AdmitNext, DueTimes, ReleaseJob;
    var t := Step(s, e, now);
    if e.CompletionReported? && t.jobs != s.jobs {
      assert Noted(s, e, e.id, t.jobs[e.id]) && t.jobs == s.jobs[e.id := t.jobs[e.id]];
    } else if e.ContainerStopped? && t.jobs != s.jobs {
      assert Noted(s, e, e.stoppedJob.value, t.jobs[e.stoppedJob.value]);
    }
  }

  lemma {:induction false} NotedStep(s: State, e: Event, now: int)
    requires Possible(s, e, now) && !Admits(s, e, now) && !Plain(e) && !e.Restarted?
    ensures NotesAtMost(s, e, Step(s, e, now))
  {
    if e.AssignmentReported? {
      ReportNotes(s, e, now);
    } else {
      CallNotes(s, e, now);
    }
    hide Step, Possible;
  }

  /** What an admission does to the jobs: at most one queued job is given a slot. */
  lemma {:induction false} AdmitNextJobs(s: State, now: int)
    ensures var t := AdmitNext(s, now);
      && t.runners == s.runners
      && (t == s
          || exists id :: id in s.jobs && s.jobs[id].status.Queued? && id in t.jobs
               && t.jobs == s.jobs[id := s.jobs[id].(status := Admitted, slot := t.jobs[id].slot)] && t.jobs[id].slot.Some?)
  {
    hide ScheduleReclamation, AdmittedSlot, SelectSlot, PlanOn, ReservedResources;
    var t := AdmitNext(s, now);
    if t != s {
      var id := NextQueued(s.jobs).value;
      assert IsNextQueued(s.jobs, id);
      hide AdmitNext;
      assert id in s.jobs && s.jobs[id].status.Queued? && id in t.jobs
        && t.jobs == s.jobs[id := s.jobs[id].(status := Admitted, slot := t.jobs[id].slot)] && t.jobs[id].slot.Some?;
    }
  }
}
