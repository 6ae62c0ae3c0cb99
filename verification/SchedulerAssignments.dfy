/** Who a runner is assigned to, and whose cache it may use: the job that GitHub has reported on it, and no other. */
module SchedulerAssignments {
  import opened RunnerNames
  import opened SchedulerActs
  import opened SchedulerModel
  import opened SchedulerNameRuns
  import opened SchedulerNames
  import opened SchedulerRuns
  import opened Wrappers

  // ---------------------------------------------------------------- jobs stay as they were submitted

  /** No job is lost or changes its origin, and an observed assignment was observed before under the same name. */
  ghost predicate Kept(before: map<JobId, Job>, after: map<JobId, Job>) {
    && after.Keys == before.Keys
    && forall id :: id in before ==>
      && SameOrigin(before[id], after[id])
      && (after[id].assignmentObserved ==> before[id].assignmentObserved && after[id].runnerName == before[id].runnerName)
  }

  lemma {:induction false} KeptTwice(a: map<JobId, Job>, b: map<JobId, Job>, c: map<JobId, Job>)
    requires Kept(a, b) && Kept(b, c)
    ensures Kept(a, c)
  {
  }

  lemma {:induction false} AdmissionKeeps(s: State, now: int)
    ensures Kept(s.jobs, AdmitNext(s, now).jobs) && AdmitNext(s, now).runners == s.runners
  {
    AdmitNextJobs(s, now);
    hide AdmitNext;
  }

  lemma {:induction false} ReleaseAllKeeps(s: State, ids: seq<JobId>, now: int)
    ensures Kept(s.jobs, ReleaseAll(s, ids, now).jobs) && ReleaseAll(s, ids, now).runners == s.runners
    decreases |ids|
  {
    if ids != [] {
      var t := if ids[0] in s.jobs then ReleaseJob(s, ids[0], s.jobs[ids[0]].slot, Completed, now) else s;
      ReleaseAllKeeps(t, ids[1..], now);
      KeptTwice(s.jobs, t.jobs, ReleaseAll(t, ids[1..], now).jobs);
    }
  }

  /** The steps that neither add a job or a runner nor report an assignment. */
  predicate LeavesAssignments(e: Event) {
    !e.Submit? && !e.RunnerCreated? && !e.AssignmentReported?
  }

  lemma {:induction false} ReleaseKeeps(s: State, id: JobId, slot: Option<SlotIndex>, status: Status, now: int)
    requires id in s.jobs
    ensures var t := ReleaseJob(s, id, slot, status, now); Kept(s.jobs, t.jobs) && t.runners == s.runners
  {
    hide ReleasedSlot;
  }

  lemma {:induction false} CleanUpKeeps(s: State, row: StoppedRow, answer: CleanupAnswer)
    ensures var t := CleanUp(s, row, answer); Kept(s.jobs, t.jobs) && t.runners == s.runners
  {
  }

  lemma {:induction false} EndingKeeps(s: State, e: Event, now: int)
    requires Possible(s, e, now) && EndingOf(s, e, now).Some?
    ensures var t := Acted(s, e, now); Kept(s.jobs, t.jobs) && t.runners == s.runners
  {
    var ending := EndingOf(s, e, now).value;
    var r := if e.RecoveryFinished? then CleanUp(s, s.run.rows[0], e.answer) else s;
    if e.RecoveryFinished? {
      CleanUpKeeps(s, s.run.rows[0], e.answer);
    }
    hide CleanUp, ReleaseJob, EndingOf, Possible, Step;
    ReleaseKeeps(r, ending.id, ending.slot, ending.status, now);
    KeptTwice(s.jobs, r.jobs, Acted(s, e, now).jobs);
  }

  lemma {:induction false} PlainStepKeeps(s: State, e: Event, now: int)
    requires Possible(s, e, now) && Plain(e) && LeavesAssignments(e)
    ensures var t := Step(s, e, now); Kept(s.jobs, t.jobs) && t.runners == s.runners
  {
    hide DueTimes, DueRows, Superseding, UnstalledSlot, StartsUpdate;
    if e.CleanupRetried? {
      CleanUpKeeps(s, e.pendingRow, e.answer);
      hide CleanUp;
    }
  }

  lemma {:induction false} RestartKeeps(s: State, ids: seq<JobId>, now: int)
    ensures var t := Restart(s, ids, now); Kept(s.jobs, t.jobs) && t.runners == s.runners
  {
    ReleaseAllKeeps(ReconcileReservations(s), ids, now);
    hide DueTimes, ReleaseAll;
  }

  /** The end of a provisioned job is only noted, and so is a stopped Container whose job has not ended. */
  lemma {:induction false} NotedEndKeeps(s: State, e: Event, now: int)
    requires Possible(s, e, now) && !Admits(s, e, now) && LeavesAssignments(e) && !Plain(e) && !e.Restarted?
    ensures var t := Step(s, e, now); Kept(s.jobs, t.jobs) && t.runners == s.runners
  {
    hide Step, Possible, Admits;
    NotedStep(s, e, now);
    NotedRunners(s, e, now);
  }

  lemma {:induction false} NotedRunners(s: State, e: Event, now: int)
    requires Possible(s, e, now) && LeavesAssignments(e)
    ensures Step(s, e, now).runners == s.runners
  {
    hide Step, Possible;
    MostStepsAreQuiet(s, e, now);
  }

  lemma {:induction false} AdmittingActKeeps(s: State, e: Event, now: int)
    requires Possible(s, e, now) && LeavesAssignments(e) && EndingOf(s, e, now).None? && Admits(s, e, now)
    ensures var t := Acted(s, e, now); Kept(s.jobs, t.jobs) && t.runners == s.runners
  {
    hide Step, ReleaseHolds;
    ReleaseHoldsFrame(s, CUSTOM_ROWS, now);
  }

  lemma {:induction false} RestartStepKeeps(s: State, e: Event, now: int)
    requires Possible(s, e, now) && e.Restarted?
    ensures var t := Step(s, e, now); Kept(s.jobs, t.jobs) && t.runners == s.runners
  {
    hide Restart;
    RestartKeeps(s, e.releasing, now);
  }

  lemma {:induction false} OtherActKeeps(s: State, e: Event, now: int)
    requires Possible(s, e, now) && LeavesAssignments(e) && EndingOf(s, e, now).None?
    ensures var t := Acted(s, e, now); Kept(s.jobs, t.jobs) && t.runners == s.runners
  {
    hide Step, Acted, Admits, Possible, Kept, EndingOf;
    if Admits(s, e, now) {
      AdmittingActKeeps(s, e, now);
    } else {
      NotAdmittingActs(s, e, now);
      if Plain(e) {
        PlainStepKeeps(s, e, now);
      } else if e.Restarted? {
        RestartStepKeeps(s, e, now);
      } else {
        NotedEndKeeps(s, e, now);
      }
    }
  }

  lemma {:induction false} ActedKeeps(s: State, e: Event, now: int)
    requires Possible(s, e, now) && LeavesAssignments(e)
    ensures var t := Acted(s, e, now); Kept(s.jobs, t.jobs) && t.runners == s.runners
  {
    hide Acted, Step, Possible, EndingOf, Kept;
    if EndingOf(s, e, now).Some? {
      EndingKeeps(s, e, now);
    } else {
      OtherActKeeps(s, e, now);
    }
  }

  lemma {:induction false} MostStepsKeep(s: State, e: Event, now: int)
    requires Possible(s, e, now) && LeavesAssignments(e)
    ensures var t := Step(s, e, now); Kept(s.jobs, t.jobs) && t.runners == s.runners
  {
    var acted := Acted(s, e, now);
    StepSplits(s, e, now);
    ActedKeeps(s, e, now);
    AdmissionKeeps(acted, now);
    hide Step, Possible, AdmitNext, Acted, Admits;
    KeptTwice(s.jobs, acted.jobs, AdmitNext(acted, now).jobs);
  }

  // ---------------------------------------------------------------- rows of created runners

  /** A runner's row is of the repository and the machine of the job it was created for. */
  ghost predicate RowIsOfItsSource(s: State, row: JitRunner) {
    && row.sourceJob in s.jobs
    && row.repository == s.jobs[row.sourceJob].repository && row.profileKey == s.jobs[row.sourceJob].profile.key
  }

  /** Its assigned job is the one GitHub reported, of the same repository and machine; before that there is none. */
  ghost predicate RowIsAssigned(s: State, w: World, name: string, row: JitRunner) {
    if row.observed then
      var id := w.reported(name);
      && row.assignedJob == Some(id) && id in s.jobs
      && s.jobs[id].repository == row.repository && s.jobs[id].profile.key == row.profileKey
    else
      row.assignedJob.None?
  }

  ghost predicate AssignmentsOk(s: State, w: World) {
    && (forall name :: name in s.runners ==>
          RowIsOfItsSource(s, s.runners[name]) && RowIsAssigned(s, w, name, s.runners[name]))
    && (forall id :: id in s.jobs && s.jobs[id].assignmentObserved ==> w.reported(s.jobs[id].runnerName) == id)
  }

  lemma {:induction false} KeepingKeepsAssignments(s: State, t: State, w: World)
    requires AssignmentsOk(s, w) && Kept(s.jobs, t.jobs) && t.runners == s.runners
    ensures AssignmentsOk(t, w)
  {
  }

  lemma {:induction false} NewJobKeepsAssignments(s: State, id: JobId, job: Job, w: World)
    requires AssignmentsOk(s, w) && id !in s.jobs && !job.assignmentObserved
    ensures AssignmentsOk(s.(jobs := s.jobs[id := job]), w)
  {
  }

  /** A step that goes on to admit a job. */
  lemma {:induction false} AdmittingKeepsAssignments(s: State, e: Event, now: int, w: World)
    requires Possible(s, e, now) && Admits(s, e, now) && AssignmentsOk(Acted(s, e, now), w)
    ensures AssignmentsOk(Step(s, e, now), w)
  {
    var acted := Acted(s, e, now);
    StepSplits(s, e, now);
    AdmissionKeeps(acted, now);
    hide Step, AdmitNext, Acted, Admits, AssignmentsOk;
    KeepingKeepsAssignments(acted, AdmitNext(acted, now), w);
    KeepingKeepsAssignments(AdmitNext(acted, now), Step(s, e, now), w) by {
      KeptItself(Step(s, e, now).jobs);
    }
  }

  lemma {:induction false} KeptItself(jobs: map<JobId, Job>)
    ensures Kept(jobs, jobs)
  {
  }

  lemma {:induction false} SubmittedKeepsAssignments(s: State, e: Event, now: int, w: World)
    requires AssignmentsOk(s, w) && Possible(s, e, now) && e.Submit?
    ensures AssignmentsOk(Step(s, e, now), w)
  {
    hide AssignmentsOk, AdmitNext, ScheduleAlarm;
    if e.id !in s.jobs {
      NewJobKeepsAssignments(s, e.id, NewJob(e.runnerName, e.repository, e.profile, now), w);
      AdmittingKeepsAssignments(s, e, now, w);
      hide Step;
    }
  }

  lemma {:induction false} RecordingKeepsAssignments(s: State, claim: RunnerClaim, w: World)
    requires AssignmentsOk(s, w) && w.reported(claim.runnerName) == claim.id
    ensures AssignmentsOk(RecordAssignment(s, claim), w) && RecordAssignment(s, claim).jobs == s.jobs
  {
  }

  lemma {:induction false} HandOverKeepsAssignments(s: State, claim: RunnerClaim, owner: JobId, w: World)
    requires AssignmentsOk(s, w) && w.reported(claim.runnerName) == claim.id && HandsOver(s, claim, owner)
    ensures AssignmentsOk(HandOver(s, claim, owner), w)
  {
    hide RetryName;
  }

  /** A job that is confirmed on its runner, or adopts one that nobody owns. */
  lemma {:induction false} ObservedKeepsAssignments(s: State, id: JobId, job: Job, w: World)
    requires AssignmentsOk(s, w) && id in s.jobs && SameOrigin(s.jobs[id], job) && w.reported(job.runnerName) == id
    ensures AssignmentsOk(s.(jobs := s.jobs[id := job]), w)
  {
  }

  lemma {:induction false} ReportKeepsAssignments(s: State, e: Event, now: int, w: World)
    requires AssignmentsOk(s, w) && Possible(s, e, now) && e.AssignmentReported? && w.Agrees(e)
    ensures AssignmentsOk(Step(s, e, now), w)
  {
    var claim, r := e.claim, RecordAssignment(s, e.claim);
    RecordingKeepsAssignments(s, claim, w);
    hide AssignmentsOk, AdmitNext, ScheduleAlarm, HandOver;
    if Displaces(s, e) {
      HandOverKeepsAssignments(r, claim, e.owner.value, w);
      AdmittingKeepsAssignments(s, e, now, w);
      hide Step;
    } else {
      hide RecordAssignment, HandsOver;
      if e.owner.None? && Adopts(s, claim) {
        ObservedKeepsAssignments(r, claim.id, OnRunner(s.jobs[claim.id], claim.runnerName, claim.runnerId, s.jobs[claim.id].slot), w);
      } else if e.owner == Some(claim.id) {
        ObservedKeepsAssignments(r, claim.id, s.jobs[claim.id].(assignmentObserved := true), w);
      }
    }
  }

  lemma {:induction false} CreationKeepsAssignments(s: State, e: Event, now: int, w: World)
    requires AssignmentsOk(s, w) && e.RunnerCreated?
    ensures AssignmentsOk(Step(s, e, now), w)
  {
  }

  lemma {:induction false} StepKeepsAssignments(s: State, e: Event, now: int, t: State, w: World)
    requires AssignmentsOk(s, w) && Leads(s, e, now, t) && w.Agrees(e)
    ensures AssignmentsOk(t, w)
  {
    hide Step, Possible, AssignmentsOk;
    if e.Submit? {
      SubmittedKeepsAssignments(s, e, now, w);
    } else if e.RunnerCreated? {
      CreationKeepsAssignments(s, e, now, w);
    } else if e.AssignmentReported? {
      ReportKeepsAssignments(s, e, now, w);
    } else {
      MostStepsKeep(s, e, now);
      KeepingKeepsAssignments(s, t, w);
    }
  }

  lemma {:induction false} AssignmentsInRun(run: Run, w: World, n: nat)
    requires run.Valid() && WorldAgrees(run, w) && n < |run.states|
    ensures AssignmentsOk(run.states[n], w)
  {
    if n > 0 {
      hide Initial, Leads, AssignmentsOk, World.Agrees;
      AssignmentsInRun(run, w, n - 1);
      assert run.Follows(n - 1);
      StepKeepsAssignments(run.states[n - 1], run.moments[n - 1].event, run.moments[n - 1].now, run.states[n], w);
    }
  }

  // ---------------------------------------------------------------- what GitHub's report gives a runner

  /** In every reachable state an observed runner is assigned to the job GitHub reported on it, which is of its kind. */
  lemma {:induction false} ObservedRunnerIsAssignedAsReported(run: Run, w: World, n: nat, name: string)
    requires run.Valid() && WorldAgrees(run, w) && n < |run.states|
    requires name in run.states[n].runners && run.states[n].runners[name].observed
    ensures var s, id := run.states[n], w.reported(name);
      && s.runners[name].assignedJob == Some(id) && id in s.jobs && s.runners[name].sourceJob in s.jobs
      && s.jobs[id].repository == s.runners[name].repository == s.jobs[s.runners[name].sourceJob].repository
      && s.jobs[id].profile.key == s.runners[name].profileKey == s.jobs[s.runners[name].sourceJob].profile.key
  {
    AssignmentsInRun(run, w, n);
  }

  /**
   * `cacheAssignment` may answer with the job: by the runner's row, or by a job row under the runner's name that is
   * being worked on or has just been completed.
   */
  ghost predicate MayUseCacheOf(s: State, runnerName: string, repository: string, id: JobId) {
    && id in s.jobs && s.jobs[id].repository == repository
    && (|| (&& runnerName in s.runners && s.runners[runnerName].observed
            && s.runners[runnerName].repository == repository && s.runners[runnerName].assignedJob == Some(id)
            && s.jobs[id].profile.key == s.runners[runnerName].profileKey)
        || (&& s.jobs[id].runnerName == runnerName && s.jobs[id].assignmentObserved
            && (s.jobs[id].status.OwnsRunner() || s.jobs[id].status.Completed?)))
  }

  /** So a runner only ever gets the cache of the job that GitHub has reported on it, and no two jobs'. */
  lemma {:induction false} CacheIsOfReportedJob(run: Run, w: World, n: nat, runnerName: string, repository: string, id: JobId)
    requires run.Valid() && WorldAgrees(run, w) && n < |run.states|
    requires MayUseCacheOf(run.states[n], runnerName, repository, id)
    ensures id == w.reported(runnerName)
  {
    AssignmentsInRun(run, w, n);
  }

  lemma {:induction false} CreationSparesOthers(s: State, e: Event, now: int, name: string)
    requires e.RunnerCreated? && e.runnerName != name && name in s.runners
    ensures var t := Step(s, e, now); name in t.runners && t.runners[name] == s.runners[name]
  {
  }

  lemma {:induction false} ReportOnRow(s: State, e: Event, now: int, name: string)
    requires Possible(s, e, now) && e.AssignmentReported? && name in s.runners
    ensures var t := Step(s, e, now);
      && name in t.runners
      && t.runners[name] == if name == e.claim.runnerName && AssignmentMatches(s, e.claim)
                            then s.runners[name].(assignedJob := Some(e.claim.id), observed := true) else s.runners[name]
  {
    hide AdmitNext, DueTimes, Adopts, OnRunner, Requeued;
    if Displaces(s, e) {
      AdmissionKeeps(HandOver(RecordAssignment(s, e.claim), e.claim, e.owner.value), now);
    }
  }

  /** A report that fits the runner's row makes it observed, and it stays so until that runner is created again. */
  lemma {:induction false} ReportedRunnerStaysObserved(run: Run, i: nat, n: nat)
    requires run.Valid() && i < n < |run.states| && run.moments[i].event.AssignmentReported?
    requires AssignmentMatches(run.states[i], run.moments[i].event.claim)
    requires forall k :: i < k < n ==>
      !(run.moments[k].event.RunnerCreated? && run.moments[k].event.runnerName == run.moments[i].event.claim.runnerName)
    ensures var name := run.moments[i].event.claim.runnerName;
      && name in run.states[n].runners && run.states[n].runners[name].observed
      && run.states[n].runners[name].repository == run.moments[i].event.claim.repository
  {
    var name, e, now := run.moments[i].event.claim.runnerName, run.moments[n - 1].event, run.moments[n - 1].now;
    assert run.Follows(n - 1);
    hide Step, Initial, AssignmentMatches;
    if n - 1 == i {
      MatchedIsCreated(run.states[i], e.claim);
      ReportOnRow(run.states[i], e, now, name);
    } else {
      ReportedRunnerStaysObserved(run, i, n - 1);
      var s := run.states[n - 1];
      if e.AssignmentReported? {
        ReportOnRow(s, e, now, name);
      } else if e.RunnerCreated? {
        CreationSparesOthers(s, e, now, name);
      } else if e.Submit? {
        SubmissionLeavesRunners(s, e, now);
      } else {
        MostStepsKeep(s, e, now);
      }
    }
  }

  lemma {:induction false} MatchedIsCreated(s: State, claim: RunnerClaim)
    requires AssignmentMatches(s, claim)
    ensures claim.runnerName in s.runners && s.runners[claim.runnerName].repository == claim.repository
  {
  }

  lemma {:induction false} SubmissionLeavesRunners(s: State, e: Event, now: int)
    requires Possible(s, e, now) && e.Submit?
    ensures Step(s, e, now).runners == s.runners
  {
    hide AdmitNext, ScheduleAlarm;
    StepSplits(s, e, now);
    AdmissionKeeps(Acted(s, e, now), now);
    hide Step;
  }

  /** And then the runner may use that job's cache, in the job's repository. */
  lemma {:induction false} ReportGivesCache(run: Run, w: World, i: nat, n: nat)
    requires run.Valid() && WorldAgrees(run, w) && i < n < |run.states| && run.moments[i].event.AssignmentReported?
    requires AssignmentMatches(run.states[i], run.moments[i].event.claim)
    requires forall k :: i < k < n ==>
      !(run.moments[k].event.RunnerCreated? && run.moments[k].event.runnerName == run.moments[i].event.claim.runnerName)
    ensures var claim := run.moments[i].event.claim;
      MayUseCacheOf(run.states[n], claim.runnerName, claim.repository, claim.id)
  {
    ReportedRunnerStaysObserved(run, i, n);
    ObservedRunnerIsAssignedAsReported(run, w, n, run.moments[i].event.claim.runnerName);
    assert w.Agrees(run.moments[i].event);
    hide Initial, Leads;
  }
}
