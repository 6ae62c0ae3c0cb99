/** What runner names guarantee in every reachable state. */
module SchedulerNameRuns {
  import opened RunnerNames
  import opened SchedulerModel
  import opened SchedulerNames
  import opened SchedulerRuns
  import opened Wrappers

  ghost predicate WorldAgrees(run: Run, w: World) {
    w.Sound() && forall i :: 0 <= i < |run.moments| ==> w.Agrees(run.moments[i].event)
  }

  lemma {:induction false} LedKeepsNames(s: State, e: Event, now: int, t: State, w: World)
    requires w.Sound() && NamesOk(s.jobs, s.runners, w) && Leads(s, e, now, t) && w.Agrees(e)
    ensures NamesOk(t.jobs, t.runners, w)
  {
    StepKeepsNames(s, e, now, w);
  }

  lemma {:induction false} NamesInRun(run: Run, w: World, i: nat)
    requires run.Valid() && WorldAgrees(run, w) && i < |run.states|
    ensures NamesOk(run.states[i].jobs, run.states[i].runners, w)
  {
    if i > 0 {
      hide Initial, Leads, NamesOk, World.Agrees;
      NamesInRun(run, w, i - 1);
      assert run.Follows(i - 1);
      LedKeepsNames(run.states[i - 1], run.moments[i - 1].event, run.moments[i - 1].now, run.states[i], w);
    }
  }

  /** In every reachable state no two jobs in provisioning, running or releasing own the same runner name. */
  lemma {:induction false} EveryRunnerHasOneOwner(run: Run, w: World, i: nat)
    requires run.Valid() && WorldAgrees(run, w) && i < |run.states|
    ensures RunnersOwnedOnce(run.states[i].jobs)
  {
    NamesInRun(run, w, i);
  }

  /** So the query for a runner's owner never has a choice. */
  lemma {:induction false} OwnerIsUnique(
      run: Run, w: World, i: nat, runnerName: string, a: Option<JobId>, b: Option<JobId>)
    requires run.Valid() && WorldAgrees(run, w) && i < |run.states|
    requires IsOwner(run.states[i].jobs, runnerName, a) && IsOwner(run.states[i].jobs, runnerName, b)
    ensures a == b
  {
    EveryRunnerHasOneOwner(run, w, i);
  }

  // ---------------------------------------------------------------- abandoned attempts

  /** A job that moved on from an attempt never carries that attempt's name again. */
  lemma {:induction false} AbandonedNameIsGone(
      jobs: map<JobId, Job>, runners: map<string, JitRunner>, w: World, id: JobId, attempt: nat)
    requires w.Sound() && NamesOk(jobs, runners, w) && id in jobs && 1 <= attempt < jobs[id].attempt
    ensures jobs[id].runnerName != w.Own(id, attempt)
  {
    assert NameExplained(jobs, w, id);
    OwnParts(w, id, attempt);
    OwnParts(w, id, jobs[id].attempt);
  }

  /** Every call that carries the name of an abandoned attempt is refused and changes nothing. */
  ghost predicate AllCallsRefused(s: State, id: JobId, runnerName: string) {
    && ClaimProvisioning(s, id, runnerName) == Refused
    && !CanStart(s, id, runnerName)
    && (forall now :: Step(s, Claim(id, runnerName), now) == s)
    && (forall runnerId, now :: Step(s, RunnerCreated(id, runnerName, runnerId), now) == s)
    && (forall now :: Step(s, ProvisioningFailure(id, runnerName), now) == s)
  }

  lemma {:induction false} AssignmentKeepsAttempts(
      s: State, claim: RunnerClaim, owner: Option<JobId>, now: int, id: JobId)
    requires id in s.jobs
    ensures var t := JobStarted(s, claim, owner, now); id in t.jobs && t.jobs[id].attempt >= s.jobs[id].attempt
  {
    hide AdmitNext, DueTimes, RetryName;
    if owner.Some? && HandsOver(s, claim, owner.value) {
      var h := HandOver(RecordAssignment(s, claim), claim, owner.value);
      assert id in h.jobs && h.jobs[id].attempt >= s.jobs[id].attempt;
      AdmitNextQuiet(h, now);
    }
  }

  lemma {:induction false} SubmitKeepsAttempts(s: State, e: Event, now: int, id: JobId)
    requires e.Submit? && id in s.jobs
    ensures var t := Submitted(s, e.id, e.runnerName, e.repository, e.profile, now);
      id in t.jobs && t.jobs[id].attempt >= s.jobs[id].attempt
  {
    hide AdmitNext, DueTimes;
    if e.id !in s.jobs {
      AdmitNextQuiet(s.(jobs := s.jobs[e.id := NewJob(e.runnerName, e.repository, e.profile, now)]), now);
    }
  }

  lemma {:induction false} AttemptsGrow(s: State, e: Event, now: int, id: JobId)
    requires Possible(s, e, now) && id in s.jobs
    ensures var t := Step(s, e, now); id in t.jobs && t.jobs[id].attempt >= s.jobs[id].attempt
  {
    if KeepsNames(e) {
      MostStepsAreQuiet(s, e, now);
      hide Step;
    } else {
      hide AdmitNext, Submitted, JobStarted, Possible;
      match e
      case AssignmentReported(claim, owner) => AssignmentKeepsAttempts(s, claim, owner, now, id);
      case Submit(_, _, _, _) => SubmitKeepsAttempts(s, e, now, id);
      case _ =>
    }
  }

  lemma {:induction false} LedGrowsAttempts(s: State, e: Event, now: int, t: State, id: JobId)
    requires Leads(s, e, now, t) && id in s.jobs
    ensures id in t.jobs && t.jobs[id].attempt >= s.jobs[id].attempt
  {
    AttemptsGrow(s, e, now, id);
  }

  lemma {:induction false} AttemptsGrowInRun(run: Run, i: nat, j: nat, id: JobId)
    requires run.Valid() && i <= j < |run.states| && id in run.states[i].jobs
    ensures id in run.states[j].jobs && run.states[j].jobs[id].attempt >= run.states[i].jobs[id].attempt
  {
    if i < j {
      hide Initial, Leads;
      AttemptsGrowInRun(run, i, j - 1, id);
      assert run.Follows(j - 1);
      LedGrowsAttempts(run.states[j - 1], run.moments[j - 1].event, run.moments[j - 1].now, run.states[j], id);
    }
  }

  /**
   * Once a job has been requeued for a later attempt, every call carrying an earlier attempt's runner name is
   * refused and leaves everything unchanged, for the rest of the run.
   */
  lemma {:induction false} AbandonedAttemptsStayRefused(run: Run, w: World, i: nat, j: nat, id: JobId, attempt: nat)
    requires run.Valid() && WorldAgrees(run, w) && i <= j < |run.states|
    requires id in run.states[i].jobs && 1 <= attempt < run.states[i].jobs[id].attempt
    ensures AllCallsRefused(run.states[j], id, w.Own(id, attempt))
  {
    AttemptsGrowInRun(run, i, j, id);
    NamesInRun(run, w, j);
    AbandonedNameIsGone(run.states[j].jobs, run.states[j].runners, w, id, attempt);
    RefusedByName(run.states[j], id, w.Own(id, attempt));
  }

  lemma {:induction false} RefusedByName(s: State, id: JobId, runnerName: string)
    requires id in s.jobs && s.jobs[id].runnerName != runnerName
    ensures AllCallsRefused(s, id, runnerName)
  {
  }
}
