/** Where a job's status and its runner's identifier come from, over whole runs. */
module SchedulerEndings {
  import opened RunnerNames
  import opened SchedulerActs
  import opened SchedulerLifecycle
  import opened SchedulerModel
  import opened SchedulerNames
  import opened SchedulerRuns
  import opened Wrappers

  // ---------------------------------------------------------------- one step of one job

  /** The recovery under way was started for this job. */
  ghost predicate Recovers(s: State, e: Event, id: JobId) {
    e.RecoveryFinished? && s.run.Recovering? && s.run.rows != [] && s.run.rows[0].id == id
  }

  /** Why a job may change its status. */
  ghost predicate StatusMoves(s: State, e: Event, id: JobId, before: Status, after: Status) {
    || after == before
    || after.Queued? || after.Admitted? || after.Provisioning? || after.Running?
    || (e == CompletionReported(id)
        && match after
           case Releasing => before.Provisioning? || before.Running?
           case Cancelled => before.Waiting()
           case Completed => before.StoppedAwaitingCompletion?
           case _ => false)
    || (after.StoppedAwaitingCompletion? && e.ContainerStopped? && e.stoppedJob == Some(id) && !before.Releasing?)
    || (after.Completed? && before.Releasing?)
    || (after.Failed? && e.ProvisioningFailure? && e.id == id && before.Provisioning?)
    || (Recovers(s, e, id) && after == if s.run.rows[0].job.status.Releasing? then Completed else Failed)
  }

  /** Where the runner's identifier in a job comes from. */
  ghost predicate RunnerMoves(s: State, e: Event, id: JobId, before: Job, after: Job) {
    || after.runnerId.None?
    || (after.runnerId == before.runnerId && after.runnerName == before.runnerName)
    || (e.RunnerCreated? && after.runnerName == e.runnerName && after.runnerId == Some(e.runnerId))
    || (e.AssignmentReported? && after.runnerName == e.claim.runnerName
        && (after.runnerId == e.claim.runnerId
            || (e.owner.Some? && e.owner.value in s.jobs && s.jobs[e.owner.value].runnerName == e.claim.runnerName
                && after.runnerId == s.jobs[e.owner.value].runnerId)))
  }

  ghost predicate JobMoves(s: State, e: Event, id: JobId, t: State)
    requires id in s.jobs
  {
    && id in t.jobs
    && SameOrigin(s.jobs[id], t.jobs[id])
    && StatusMoves(s, e, id, s.jobs[id].status, t.jobs[id].status)
    && RunnerMoves(s, e, id, s.jobs[id], t.jobs[id])
  }

  /** What happens to a job before the next admission: nothing admits it, or takes an admission back. */
  ghost predicate JobActs(s: State, e: Event, id: JobId, t: State)
    requires id in s.jobs
  {
    && JobMoves(s, e, id, t)
    && (t.jobs[id].status.Admitted? ==> s.jobs[id].status.Admitted?)
    && (t.jobs[id].status.Queued? ==> !s.jobs[id].status.Admitted?)
  }

  lemma {:induction false} AdmissionMoves(s: State, e: Event, id: JobId, acted: State, now: int)
    requires id in s.jobs && JobMoves(s, e, id, acted)
    ensures JobMoves(s, e, id, AdmitNext(acted, now))
  {
    AdmitNextJobs(acted, now);
    hide AdmitNext;
  }

  lemma {:induction false} ReleaseAllMoves(s: State, ids: seq<JobId>, now: int, id: JobId)
    requires id in s.jobs && forall x :: x in ids ==> x in s.jobs && s.jobs[x].status.Releasing?
    requires forall i, j :: 0 <= i < j < |ids| ==> ids[i] != ids[j]
    ensures var t := ReleaseAll(s, ids, now);
      && id in t.jobs && t.jobs[id].runnerId == s.jobs[id].runnerId && t.jobs[id].runnerName == s.jobs[id].runnerName
      && SameOrigin(s.jobs[id], t.jobs[id])
      && t.jobs[id].status == if id in ids then Completed else s.jobs[id].status
    decreases |ids|
  {
    if ids != [] {
      var t := ReleaseJob(s, ids[0], s.jobs[ids[0]].slot, Completed, now);
      assert ids == [ids[0]] + ids[1..];
      assert forall x :: x in ids[1..] ==> exists j :: 1 <= j < |ids| && ids[j] == x;
      hide ReleasedSlot;
      ReleaseAllMoves(t, ids[1..], now, id);
    }
  }

  lemma {:induction false} RestartMoves(s: State, e: Event, now: int, id: JobId)
    requires Possible(s, e, now) && e.Restarted? && id in s.jobs
    ensures JobActs(s, e, id, Restart(s, e.releasing, now))
    ensures Restart(s, e.releasing, now).jobs[id].status == if s.jobs[id].status.Releasing? then Completed else s.jobs[id].status
  {
    ReleaseAllMoves(ReconcileReservations(s), e.releasing, now, id);
    hide DueTimes, ReleaseAll;
  }

  lemma {:induction false} EndingMoves(s: State, e: Event, now: int, id: JobId)
    requires Possible(s, e, now) && id in s.jobs && EndingOf(s, e, now).Some?
    ensures JobActs(s, e, id, Acted(s, e, now))
  {
    hide ReleasedSlot, Step;
  }

  lemma {:induction false} HandOverActs(s: State, e: Event, now: int)
    requires Possible(s, e, now) && Displaces(s, e)
    ensures e.claim.id in s.jobs && e.owner.value in s.jobs && e.owner.value != e.claim.id
    ensures s.jobs[e.owner.value].runnerName == e.claim.runnerName && s.jobs[e.owner.value].status.OwnsRunner()
    ensures var owner, job := s.jobs[e.owner.value], s.jobs[e.claim.id];
      var runnerId := if e.claim.runnerId.Some? then e.claim.runnerId else owner.runnerId;
      Acted(s, e, now).jobs
        == s.jobs[e.owner.value := Requeued(owner)][e.claim.id := OnRunner(job, e.claim.runnerName, runnerId, owner.slot)]
  {
    hide Step, RetryName, OnRunner, Requeued;
  }

  lemma {:induction false} RequeuedMoves(s: State, e: Event, id: JobId)
    requires id in s.jobs && s.jobs[id].status.OwnsRunner()
    ensures var job := Requeued(s.jobs[id]);
      && SameOrigin(s.jobs[id], job) && RunnerMoves(s, e, id, s.jobs[id], job)
      && StatusMoves(s, e, id, s.jobs[id].status, job.status) && job.status.Queued?
  {
    hide RetryName;
  }

  lemma {:induction false} AttachedMoves(s: State, e: Event, id: JobId, runnerId: Option<int>, slot: Option<SlotIndex>)
    requires id in s.jobs && e.AssignmentReported? && e.owner.Some? && e.owner.value in s.jobs
    requires s.jobs[e.owner.value].runnerName == e.claim.runnerName
    requires runnerId == e.claim.runnerId || runnerId == s.jobs[e.owner.value].runnerId
    ensures var job := OnRunner(s.jobs[id], e.claim.runnerName, runnerId, slot);
      && SameOrigin(s.jobs[id], job) && RunnerMoves(s, e, id, s.jobs[id], job)
      && StatusMoves(s, e, id, s.jobs[id].status, job.status) && job.status.Running?
  {
  }

  lemma {:induction false} HandedOverMoves(s: State, e: Event, id: JobId, runnerId: Option<int>, t: State)
    requires e.AssignmentReported? && e.owner.Some? && e.owner.value in s.jobs && e.claim.id in s.jobs && id in s.jobs
    requires e.owner.value != e.claim.id && s.jobs[e.owner.value].status.OwnsRunner()
    requires s.jobs[e.owner.value].runnerName == e.claim.runnerName
    requires runnerId == e.claim.runnerId || runnerId == s.jobs[e.owner.value].runnerId
    requires var owner := s.jobs[e.owner.value];
      t.jobs == s.jobs[e.owner.value := Requeued(owner)]
                      [e.claim.id := OnRunner(s.jobs[e.claim.id], e.claim.runnerName, runnerId, owner.slot)]
    ensures JobActs(s, e, id, t)
  {
    hide Requeued, OnRunner, StatusMoves, RunnerMoves, SameOrigin;
    if id == e.claim.id {
      AttachedMoves(s, e, id, runnerId, s.jobs[e.owner.value].slot);
    } else if id == e.owner.value {
      RequeuedMoves(s, e, id);
    } else {
      NothingMoves(s, e, id);
    }
  }

  lemma {:induction false} HandOverMoves(s: State, e: Event, now: int, id: JobId)
    requires Possible(s, e, now) && id in s.jobs && Displaces(s, e)
    ensures JobActs(s, e, id, Acted(s, e, now))
  {
    HandOverActs(s, e, now);
    var owner := s.jobs[e.owner.value];
    var runnerId := if e.claim.runnerId.Some? then e.claim.runnerId else owner.runnerId;
    hide Acted, Possible, Requeued, OnRunner, JobActs, HandsOver;
    HandedOverMoves(s, e, id, runnerId, Acted(s, e, now));
  }

  lemma {:induction false} NothingMoves(s: State, e: Event, id: JobId)
    requires id in s.jobs
    ensures StatusMoves(s, e, id, s.jobs[id].status, s.jobs[id].status) && RunnerMoves(s, e, id, s.jobs[id], s.jobs[id])
    ensures SameOrigin(s.jobs[id], s.jobs[id])
  {
  }

  lemma {:induction false} PlainMoves(s: State, e: Event, now: int, id: JobId)
    requires Possible(s, e, now) && id in s.jobs && Plain(e)
    ensures JobActs(s, e, id, Step(s, e, now))
  {
    hide DueTimes, DueRows, Superseding, UnstalledSlot, StartsUpdate;
  }

  lemma {:induction false} NotedMoves(s: State, e: Event, now: int, id: JobId)
    requires Possible(s, e, now) && id in s.jobs && !Admits(s, e, now) && !Plain(e) && !e.Restarted?
    ensures JobActs(s, e, id, Step(s, e, now))
  {
    NotedStep(s, e, now);
    hide Step, Possible, Admits, Adopts;
  }

  lemma {:induction false} ActedMoves(s: State, e: Event, now: int, id: JobId)
    requires Possible(s, e, now) && id in s.jobs
    ensures JobActs(s, e, id, Acted(s, e, now))
  {
    hide JobActs, Step, Acted, Admits, Possible, EndingOf, Displaces;
    if !Admits(s, e, now) {
      NotAdmittingActs(s, e, now);
      if Plain(e) {
        PlainMoves(s, e, now, id);
      } else if e.Restarted? {
        RestartStepMoves(s, e, now, id);
      } else {
        NotedMoves(s, e, now, id);
      }
    } else if EndingOf(s, e, now).Some? {
      EndingMoves(s, e, now, id);
    } else if Displaces(s, e) {
      HandOverMoves(s, e, now, id);
    } else {
      AdmittingActMoves(s, e, now, id);
    }
  }

  lemma {:induction false} RestartStepMoves(s: State, e: Event, now: int, id: JobId)
    requires Possible(s, e, now) && e.Restarted? && id in s.jobs
    ensures JobActs(s, e, id, Step(s, e, now))
  {
    RestartMoves(s, e, now, id);
    hide Restart;
  }

  lemma {:induction false} AdmittingActMoves(s: State, e: Event, now: int, id: JobId)
    requires Possible(s, e, now) && id in s.jobs && Admits(s, e, now) && EndingOf(s, e, now).None? && !Displaces(s, e)
    ensures JobActs(s, e, id, Acted(s, e, now))
  {
    ReleaseHoldsFrame(s, CUSTOM_ROWS, now);
    hide ReleaseHolds, Step;
  }

  lemma {:induction false} StepMovesJob(s: State, e: Event, now: int, t: State, id: JobId)
    requires Leads(s, e, now, t) && id in s.jobs
    ensures JobMoves(s, e, id, t)
  {
    StepSplits(s, e, now);
    ActedMoves(s, e, now, id);
    hide Step, Acted, Admits, AdmitNext;
    if Admits(s, e, now) {
      AdmissionMoves(s, e, id, Acted(s, e, now), now);
    }
  }

  lemma {:induction false} NewJobWaits(s: State, e: Event, now: int, t: State, id: JobId)
    requires Leads(s, e, now, t) && id !in s.jobs && id in t.jobs
    ensures e.Submit? && id == e.id && SameOrigin(NewJob(e.runnerName, e.repository, e.profile, now), t.jobs[id])
    ensures t.jobs[id].status.Waiting() && t.jobs[id].runnerId.None?
  {
    if e.Submit? {
      SubmittedJobs(s, e, now);
      hide Step;
    } else {
      SameIds(s, e, now);
      hide Step;
    }
  }

  /** A submission adds one job, which may be admitted at once. */
  lemma {:induction false} SubmittedJobs(s: State, e: Event, now: int)
    requires Possible(s, e, now) && e.Submit?
    ensures var t, job := Step(s, e, now), NewJob(e.runnerName, e.repository, e.profile, now);
      && t.jobs.Keys == s.jobs.Keys + {e.id}
      && (e.id !in s.jobs ==> t.jobs[e.id] == job || t.jobs[e.id] == job.(status := Admitted, slot := t.jobs[e.id].slot))
  {
    hide AdmitNext, DueTimes;
    if e.id !in s.jobs {
      var queued := s.(jobs := s.jobs[e.id := NewJob(e.runnerName, e.repository, e.profile, now)]);
      AdmitNextJobs(queued, now);
    }
  }

  lemma {:induction false} SameIds(s: State, e: Event, now: int)
    requires Possible(s, e, now) && !e.Submit?
    ensures Step(s, e, now).jobs.Keys == s.jobs.Keys
  {
    if KeepsNames(e) {
      MostStepsAreQuiet(s, e, now);
      hide Step;
    } else if Displaces(s, e) {
      StepSplits(s, e, now);
      AdmitNextQuiet(Acted(s, e, now), now);
      hide AdmitNext, Step;
    } else {
      hide AdmitNext, DueTimes;
    }
  }

  // ---------------------------------------------------------------- whole runs

  ghost predicate JobAt(run: Run, k: nat, id: JobId, job: Job)
    requires run.Valid() && k < |run.states|
  {
    id in run.states[k].jobs && run.states[k].jobs[id] == job
  }

  /** GitHub reported the job complete in the step from state `k`, when it was as described. */
  ghost predicate ReportedAt(run: Run, k: nat, id: JobId, waiting: bool)
    requires run.Valid() && k < |run.moments|
  {
    && run.moments[k].event == CompletionReported(id)
    && id in run.states[k].jobs && run.states[k].jobs[id].status.Waiting() == waiting
  }

  ghost predicate StoppedAt(run: Run, k: nat, id: JobId)
    requires run.Valid() && k < |run.moments|
  {
    run.moments[k].event.ContainerStopped? && run.moments[k].event.stoppedJob == Some(id)
  }

  ghost predicate FailedAt(run: Run, k: nat, id: JobId)
    requires run.Valid() && k < |run.moments|
  {
    && run.moments[k].event.ProvisioningFailure? && run.moments[k].event.id == id
    && id in run.states[k].jobs && run.states[k].jobs[id].status.Provisioning?
  }

  /** What must have happened before for a job to have this status. */
  ghost predicate Explained(run: Run, n: nat, id: JobId, status: Status)
    requires run.Valid() && n < |run.states|
  {
    match status
    case Releasing => exists k :: 0 <= k < n && ReportedAt(run, k, id, false)
    case StoppedAwaitingCompletion => exists k :: 0 <= k < n && StoppedAt(run, k, id)
    case Completed => exists k :: 0 <= k < n && ReportedAt(run, k, id, false)
    case Cancelled => exists k :: 0 <= k < n && ReportedAt(run, k, id, true)
    case Failed => exists k :: 0 <= k < n && (FailedAt(run, k, id) || StoppedAt(run, k, id))
    case _ => true
  }

  /** A recovery under way works on rows that were read from an earlier state. */
  ghost predicate RowsWereRead(run: Run, n: nat)
    requires run.Valid() && n < |run.states|
  {
    run.states[n].run.Recovering? ==> forall row :: row in run.states[n].run.rows ==>
      row.job.status.Recoverable() && exists m :: 0 <= m <= n && JobAt(run, m, row.id, row.job)
  }

  lemma {:induction false} RowsMove(s: State, e: Event, now: int, t: State, row: StoppedRow)
    requires Leads(s, e, now, t) && t.run.Recovering? && row in t.run.rows
    ensures e.AlarmFired? ==> row.id in t.jobs && t.jobs[row.id] == row.job && row.job.status.Recoverable()
    ensures !e.AlarmFired? ==> s.run.Recovering? && row in s.run.rows
  {
    if KeepsRun(e) {
      RunKept(s, e, now);
      hide Step;
    }
    hide AdmitNext, ScheduleAlarm, ReleaseHolds, Restart, RecoverStopped, StartUpdate, RecoverStalledUpdates;
  }

  lemma {:induction false} RowsInRun(run: Run, n: nat)
    requires run.Valid() && n < |run.states|
    ensures RowsWereRead(run, n)
  {
    if n > 0 {
      RowsInRun(run, n - 1);
      hide Leads, Initial;
      assert run.Follows(n - 1);
      var s, moment, t := run.states[n - 1], run.moments[n - 1], run.states[n];
      if t.run.Recovering? {
        forall row | row in t.run.rows
          ensures row.job.status.Recoverable() && exists m :: 0 <= m <= n && JobAt(run, m, row.id, row.job)
        {
          RowsMove(s, moment.event, moment.now, t, row);
          if moment.event.AlarmFired? {
            assert JobAt(run, n, row.id, row.job);
          } else {
            var m :| 0 <= m <= n - 1 && JobAt(run, m, row.id, row.job);
            assert JobAt(run, m, row.id, row.job);
          }
        }
      }
    }
  }

  lemma {:induction false} StaysExplained(run: Run, m: nat, n: nat, id: JobId, status: Status)
    requires run.Valid() && m <= n < |run.states| && Explained(run, m, id, status)
    ensures Explained(run, n, id, status)
  {
  }

  /** A recovery ends a job as completed if the row it read was of a job that GitHub had reported complete, else as failed. */
  lemma {:induction false} RecoveryIsExplained(run: Run, n: nat, id: JobId)
    requires run.Valid() && n < |run.moments| && Recovers(run.states[n], run.moments[n].event, id)
    requires forall m :: 0 <= m <= n && id in run.states[m].jobs ==> Explained(run, m, id, run.states[m].jobs[id].status)
    ensures Explained(run, n, id, if run.states[n].run.rows[0].job.status.Releasing? then Completed else Failed)
  {
    hide Initial, Leads;
    RowsInRun(run, n);
    var row := run.states[n].run.rows[0];
    var m :| 0 <= m <= n && JobAt(run, m, row.id, row.job);
    StaysExplained(run, m, n, id, row.job.status);
  }

  /** The step to state `n + 1` explains the status it gives. */
  lemma {:induction false} MoveIsExplained(run: Run, n: nat, id: JobId, before: Status, after: Status)
    requires run.Valid() && n < |run.moments| && id in run.states[n].jobs && run.states[n].jobs[id].status == before
    requires Explained(run, n, id, before) && StatusMoves(run.states[n], run.moments[n].event, id, before, after)
    requires Recovers(run.states[n], run.moments[n].event, id) ==>
      Explained(run, n, id, if run.states[n].run.rows[0].job.status.Releasing? then Completed else Failed)
    requires before.StoppedAwaitingCompletion? ==> exists k :: 0 <= k < n && StoppedAt(run, k, id)
    ensures Explained(run, n + 1, id, after)
  {
    hide Initial, Leads;
    var e := run.moments[n].event;
    if after == before {
      StaysExplained(run, n, n + 1, id, after);
    } else if e == CompletionReported(id) {
      assert ReportedAt(run, n, id, before.Waiting());
      if after.Completed? && before.Releasing? {
        StaysExplained(run, n, n + 1, id, Completed);
      }
    } else if Recovers(run.states[n], e, id) {
      StaysExplained(run, n, n + 1, id, if run.states[n].run.rows[0].job.status.Releasing? then Completed else Failed);
      if after.Completed? && before.Releasing? {
        StaysExplained(run, n, n + 1, id, Completed);
      }
    } else if after.Completed? {
      StaysExplained(run, n, n + 1, id, Completed);
    } else if after.Failed? {
      assert FailedAt(run, n, id);
    } else if after.StoppedAwaitingCompletion? {
      assert StoppedAt(run, n, id);
    }
  }

  lemma {:induction false} ExplainedInRun(run: Run, n: nat, id: JobId)
    requires run.Valid() && n < |run.states|
    ensures forall m :: 0 <= m <= n && id in run.states[m].jobs ==> Explained(run, m, id, run.states[m].jobs[id].status)
  {
    hide Leads, Initial, Explained, StatusMoves, RunnerMoves;
    if n == 0 {
      assert id !in run.states[0].jobs by {
        NoJobsAtFirst();
      }
    } else {
      ExplainedInRun(run, n - 1, id);
      assert run.Follows(n - 1);
      var s, moment, t := run.states[n - 1], run.moments[n - 1], run.states[n];
      if id in s.jobs {
        StepMovesJob(s, moment.event, moment.now, t, id);
        if Recovers(s, moment.event, id) {
          RecoveryIsExplained(run, n - 1, id);
        }
        StoppedIsExplained(run, n - 1, id);
        MoveIsExplained(run, n - 1, id, s.jobs[id].status, t.jobs[id].status);
      } else if id in t.jobs {
        NewJobWaits(s, moment.event, moment.now, t, id);
        WaitingIsExplained(run, n, id, t.jobs[id].status);
      }
    }
  }

  lemma {:induction false} StoppedIsExplained(run: Run, n: nat, id: JobId)
    requires run.Valid() && n < |run.states| && id in run.states[n].jobs
    requires Explained(run, n, id, run.states[n].jobs[id].status)
    ensures run.states[n].jobs[id].status.StoppedAwaitingCompletion? ==> exists k :: 0 <= k < n && StoppedAt(run, k, id)
  {
  }

  lemma {:induction false} WaitingIsExplained(run: Run, n: nat, id: JobId, status: Status)
    requires run.Valid() && n < |run.states| && status.Waiting()
    ensures Explained(run, n, id, status)
  {
  }

  lemma {:induction false} NoJobsAtFirst()
    ensures Initial().jobs == map[]
  {
  }

  /**
   * In every reachable state: a job is cancelled only if GitHub reported it complete while it waited, completed only if
   * GitHub reported it complete when it no longer did, and failed only if its provisioning failed or its Container
   * stopped.
   */
  lemma {:induction false} EndingsAreExplained(run: Run, n: nat, id: JobId)
    requires run.Valid() && n < |run.states| && id in run.states[n].jobs
    ensures match run.states[n].jobs[id].status
      case Cancelled => exists k :: 0 <= k < n && ReportedAt(run, k, id, true)
      case Completed => exists k :: 0 <= k < n && ReportedAt(run, k, id, false)
      case Releasing => exists k :: 0 <= k < n && ReportedAt(run, k, id, false)
      case Failed => exists k :: 0 <= k < n && (FailedAt(run, k, id) || StoppedAt(run, k, id))
      case StoppedAwaitingCompletion => exists k :: 0 <= k < n && StoppedAt(run, k, id)
      case _ => true
  {
    ExplainedInRun(run, n, id);
    hide Initial, Leads;
  }

  // ---------------------------------------------------------------- a completion is not forgotten

  /** The job is over, or waits for its Container to stop. */
  predicate Over(status: Status) {
    status.Releasing? || status.Terminal()
  }

  /**
   * GitHub reports the job on another job's runner, or another job on the runner that the job has not given up yet; the
   * code does not ask whether GitHub has reported the job complete.
   */
  ghost predicate Resumes(s: State, e: Event, id: JobId) {
    Revives(s, e, id) || (Displaces(s, e) && e.owner == Some(id))
  }

  lemma {:induction false} DisplacedIsQueued(s: State, e: Event, now: int, id: JobId)
    requires Possible(s, e, now) && Resumes(s, e, id)
    ensures id in s.jobs && Displaces(s, e) && id in Acted(s, e, now).jobs && !Over(Acted(s, e, now).jobs[id].status)
  {
    hide Step, RetryName;
    HandOverActs(s, e, now);
  }

  lemma {:induction false} UndisplacedStays(s: State, e: Event, now: int, id: JobId)
    requires Possible(s, e, now) && id in s.jobs && Over(s.jobs[id].status) && Displaces(s, e) && !Resumes(s, e, id)
    ensures id in Acted(s, e, now).jobs && Over(Acted(s, e, now).jobs[id].status)
  {
    hide Step;
  }

  lemma {:induction false} OverNoted(s: State, e: Event, now: int, id: JobId)
    requires Possible(s, e, now) && id in s.jobs && Over(s.jobs[id].status)
    requires !Admits(s, e, now) && !Plain(e) && !e.Restarted?
    ensures id in Step(s, e, now).jobs && Over(Step(s, e, now).jobs[id].status)
  {
    NotedStep(s, e, now);
    hide Step, Possible, Admits, Adopts;
  }

  lemma {:induction false} OverPlain(s: State, e: Event, now: int, id: JobId)
    requires Possible(s, e, now) && id in s.jobs && Over(s.jobs[id].status) && (Plain(e) || e.Restarted?)
    ensures id in Step(s, e, now).jobs && Over(Step(s, e, now).jobs[id].status)
  {
    if e.Restarted? {
      RestartMoves(s, e, now, id);
      hide Restart;
    }
    hide DueTimes, DueRows, Superseding, UnstalledSlot, StartsUpdate;
  }

  lemma {:induction false} OverAdmitting(s: State, e: Event, now: int, id: JobId)
    requires Possible(s, e, now) && id in s.jobs && Over(s.jobs[id].status) && Admits(s, e, now) && !Displaces(s, e)
    ensures id in Acted(s, e, now).jobs && Over(Acted(s, e, now).jobs[id].status)
  {
    ReleaseHoldsFrame(s, CUSTOM_ROWS, now);
    hide ReleaseHolds, ReleasedSlot, Step;
  }

  lemma {:induction false} OverActs(s: State, e: Event, now: int, id: JobId)
    requires Possible(s, e, now) && id in s.jobs && Over(s.jobs[id].status) && !Displaces(s, e)
    ensures id in Acted(s, e, now).jobs && Over(Acted(s, e, now).jobs[id].status)
  {
    if Admits(s, e, now) {
      OverAdmitting(s, e, now, id);
    } else {
      if Plain(e) || e.Restarted? {
        OverPlain(s, e, now, id);
      } else {
        OverNoted(s, e, now, id);
      }
    }
    hide Step, Over, ReleaseJob, Possible;
  }

  lemma {:induction false} AdmissionKeepsOver(s: State, now: int, id: JobId)
    requires id in s.jobs
    ensures id in AdmitNext(s, now).jobs && (Over(AdmitNext(s, now).jobs[id].status) <==> Over(s.jobs[id].status))
  {
    AdmitNextJobs(s, now);
    hide AdmitNext;
  }

  lemma {:induction false} StepKeepsOverExactlyWhen(s: State, e: Event, now: int, t: State, id: JobId)
    requires Leads(s, e, now, t) && id in s.jobs && Over(s.jobs[id].status)
    ensures id in t.jobs && (Over(t.jobs[id].status) <==> !Resumes(s, e, id))
  {
    StepSplits(s, e, now);
    hide Step, AdmitNext, Acted, Possible, Resumes, Displaces, Admits, Over;
    if Displaces(s, e) {
      if Resumes(s, e, id) {
        DisplacedIsQueued(s, e, now, id);
      } else {
        UndisplacedStays(s, e, now, id);
      }
    } else {
      OverActs(s, e, now, id);
      NothingResumes(s, e, id);
    }
    AdmissionKeepsOver(Acted(s, e, now), now, id);
  }

  lemma {:induction false} NothingResumes(s: State, e: Event, id: JobId)
    requires !Displaces(s, e)
    ensures !Resumes(s, e, id)
  {
  }

  /**
   * GitHub's completion ends a job at once if it had no runner yet or its Container has stopped; otherwise the job gets
   * a deadline by which its Container has to stop. A job that is over stays as it is.
   */
  lemma {:induction false} CompletionEnds(s: State, now: int, t: State, id: JobId)
    requires Leads(s, CompletionReported(id), now, t) && id in s.jobs
    ensures var before, job := s.jobs[id].status, t.jobs[id];
      && id in t.jobs
      && (if before.Waiting() then job.status.Cancelled?
          else if before.StoppedAwaitingCompletion? then job.status.Completed?
          else if before.Provisioning? || before.Running? then
            job.status.Releasing? && job.recoveryDue == Some(now + 30_000)
          else job == s.jobs[id])
  {
    var e := CompletionReported(id);
    StepSplits(s, e, now);
    AdmitNextJobs(Acted(s, e, now), now);
    hide AdmitNext, DueTimes, ReleasedSlot;
  }

  /** From a completion on the job stays over, exactly until GitHub's reports on runners resume it. */
  lemma {:induction false} CompletionHoldsExactlyWhen(run: Run, i: nat, n: nat, id: JobId)
    requires run.Valid() && i < n < |run.states|
    requires run.moments[i].event == CompletionReported(id) && id in run.states[i].jobs
    ensures (forall k :: i < k <= n ==> id in run.states[k].jobs && Over(run.states[k].jobs[id].status))
      <==> (forall k :: i < k < n ==> !Resumes(run.states[k], run.moments[k].event, id))
  {
    hide Leads, Initial, Resumes;
    assert run.Follows(n - 1);
    var moment := run.moments[n - 1];
    if n - 1 == i {
      CompletionEnds(run.states[i], moment.now, run.states[n], id);
    } else {
      CompletionHoldsExactlyWhen(run, i, n - 1, id);
      if id in run.states[n - 1].jobs && Over(run.states[n - 1].jobs[id].status) {
        StepKeepsOverExactlyWhen(run.states[n - 1], moment.event, moment.now, run.states[n], id);
      }
    }
  }

  /** A Container that stops ends a job that GitHub has reported complete, and gives any other active one a deadline. */
  lemma {:induction false} StoppedContainerEnds(s: State, e: Event, now: int, t: State, id: JobId)
    requires Leads(s, e, now, t) && e.ContainerStopped? && e.stoppedJob == Some(id) && s.jobs[id].status.Active()
    ensures id in t.jobs
    ensures if s.jobs[id].status.Releasing? then t.jobs[id].status.Completed?
      else t.jobs[id].status.StoppedAwaitingCompletion? && t.jobs[id].recoveryDue == Some(now + 30_000)
  {
    StepSplits(s, e, now);
    AdmitNextJobs(Acted(s, e, now), now);
    hide AdmitNext, DueTimes, ReleasedSlot;
  }

  /**
   * A recovery ends its job, as completed if GitHub had reported that when the row was read; the job's runner is deleted,
   * or its deletion is tried again a minute after the first try.
   */
  lemma {:induction false} RecoveryEnds(s: State, e: Event, now: int, t: State, id: JobId)
    requires Leads(s, e, now, t) && Recovers(s, e, id) && id in s.jobs
    ensures var row, job := s.run.rows[0].job, t.jobs[id];
      && id in t.jobs
      && job.status == (if row.status.Releasing? then Completed else Failed)
      && job.recoveryDue.None?
      && (job.cleanup.CleanupDone? <==> row.runnerId.None? || e.answer.RunnerGone?)
      && (job.cleanup.CleanupDone? || (job.cleanup.RetryCleanup? && e.answer.TryAgain?
                                       && job.cleanupDue == Some(e.answer.startedAt + 60_000)))
  {
    StepSplits(s, e, now);
    RecoveryActs(s, e, now, id);
    AdmissionOnJob(Acted(s, e, now), now, id);
    hide AdmitNext, Acted, Step, Admits;
  }

  lemma {:induction false} RecoveryActs(s: State, e: Event, now: int, id: JobId)
    requires Possible(s, e, now) && Recovers(s, e, id) && id in s.jobs
    ensures id in Acted(s, e, now).jobs
    ensures var row, job := s.run.rows[0].job, Acted(s, e, now).jobs[id];
      && job.status == (if row.status.Releasing? then Completed else Failed)
      && job.recoveryDue.None?
      && (job.cleanup.CleanupDone? <==> row.runnerId.None? || e.answer.RunnerGone?)
      && (job.cleanup.CleanupDone? || (job.cleanup.RetryCleanup? && e.answer.TryAgain?
                                       && job.cleanupDue == Some(e.answer.startedAt + 60_000)))
  {
    hide Step, ReleasedSlot;
  }

  /** A retried clean-up is done exactly when the runner is gone or there was none. */
  lemma {:induction false} CleanupEnds(s: State, e: Event, now: int, t: State)
    requires Leads(s, e, now, t) && e.CleanupRetried? && e.pendingRow.id in s.jobs
    ensures var job := t.jobs[e.pendingRow.id];
      && e.pendingRow.id in t.jobs
      && (job.cleanup.CleanupDone? <==> e.pendingRow.job.runnerId.None? || e.answer.RunnerGone?)
      && (job.cleanup.CleanupDone? ==> job.cleanupDue.None?)
      && (job.cleanup.CleanupDone? || (job.cleanup.RetryCleanup? && e.answer.TryAgain?
                                       && job.cleanupDue == Some(e.answer.startedAt + 60_000)))
  {
  }

  // ---------------------------------------------------------------- what a job was submitted with

  ghost predicate SubmittedAt(run: Run, k: nat, id: JobId, job: Job)
    requires run.Valid() && k < |run.moments|
  {
    var e := run.moments[k].event;
    && e.Submit? && e.id == id && id !in run.states[k].jobs
    && job.repository == e.repository && job.profile == e.profile && job.createdAt == run.moments[k].now
  }

  /** Every job keeps the repository, the profile and the time of its first submission. */
  lemma {:induction false} JobsAreAsSubmitted(run: Run, n: nat, id: JobId)
    requires run.Valid() && n < |run.states| && id in run.states[n].jobs
    ensures exists k :: 0 <= k < n && SubmittedAt(run, k, id, run.states[n].jobs[id])
  {
    hide Leads, Initial, StatusMoves, RunnerMoves;
    if n == 0 {
      NoJobsAtFirst();
    } else {
      assert run.Follows(n - 1);
      var s, moment, t := run.states[n - 1], run.moments[n - 1], run.states[n];
      if id in s.jobs {
        JobsAreAsSubmitted(run, n - 1, id);
        StepMovesJob(s, moment.event, moment.now, t, id);
        var k :| 0 <= k < n - 1 && SubmittedAt(run, k, id, s.jobs[id]);
        assert SubmittedAt(run, k, id, t.jobs[id]);
      } else {
        NewJobWaits(s, moment.event, moment.now, t, id);
        assert SubmittedAt(run, n - 1, id, t.jobs[id]);
      }
    }
  }

  // ---------------------------------------------------------------- which runner a job is on

  /** The runner of that name was created with this identifier, or GitHub reported it with that. */
  ghost predicate KnownAs(run: Run, n: nat, name: string, runnerId: int)
    requires run.Valid() && n < |run.states|
  {
    exists k :: 0 <= k < n && NamesRunner(run.moments[k].event, name, runnerId)
  }

  predicate NamesRunner(e: Event, name: string, runnerId: int) {
    || (e.RunnerCreated? && e.runnerName == name && e.runnerId == runnerId)
    || (e.AssignmentReported? && e.claim.runnerName == name && e.claim.runnerId == Some(runnerId))
  }

  /**
   * In every reachable state the runner that a recovery of the job would delete was created under the job's runner name,
   * or reported by GitHub under it.
   */
  lemma {:induction false} RunnerIsTheJobsOwn(run: Run, n: nat, id: JobId)
    requires run.Valid() && n < |run.states| && id in run.states[n].jobs && run.states[n].jobs[id].runnerId.Some?
    ensures KnownAs(run, n, run.states[n].jobs[id].runnerName, run.states[n].jobs[id].runnerId.value)
  {
    hide Leads, Initial, StatusMoves;
    if n == 0 {
      NoJobsAtFirst();
    } else {
      assert run.Follows(n - 1);
      var s, moment, t := run.states[n - 1], run.moments[n - 1], run.states[n];
      var name, runnerId := t.jobs[id].runnerName, t.jobs[id].runnerId.value;
      if id in s.jobs {
        StepMovesJob(s, moment.event, moment.now, t, id);
        if s.jobs[id].runnerId == Some(runnerId) && s.jobs[id].runnerName == name {
          RunnerIsTheJobsOwn(run, n - 1, id);
        } else if !NamesRunner(moment.event, name, runnerId) {
          RunnerIsTheJobsOwn(run, n - 1, moment.event.owner.value);
        }
      } else {
        NewJobWaits(s, moment.event, moment.now, t, id);
      }
    }
  }

  // ---------------------------------------------------------------- what a report on a runner does

  /** The report attaches the runner to the reported job: no job owns it, or the owner gives it up. */
  ghost predicate Attaches(s: State, e: Event) {
    e.AssignmentReported? && (Displaces(s, e) || (e.owner.None? && Adopts(s, e.claim)))
  }

  /** An admission leaves a job that is not queued alone, and gives a queued one a slot or nothing. */
  lemma {:induction false} AdmissionOnJob(s: State, now: int, id: JobId)
    requires id in s.jobs
    ensures id in AdmitNext(s, now).jobs
    ensures var a, b := s.jobs[id], AdmitNext(s, now).jobs[id];
      b == a || (a.status.Queued? && b == a.(status := Admitted, slot := b.slot))
  {
    AdmitNextJobs(s, now);
    hide AdmitNext;
  }

  lemma {:induction false} AttachedStep(s: State, e: Event, now: int, t: State)
    requires Leads(s, e, now, t) && Attaches(s, e)
    ensures e.claim.id in s.jobs && e.claim.id in t.jobs && e.claim.id in Acted(s, e, now).jobs
    ensures t.jobs[e.claim.id] == Acted(s, e, now).jobs[e.claim.id]
    ensures e.owner.Some? ==>
      && e.owner.value in s.jobs && e.owner.value in t.jobs
      && var a, b := Requeued(s.jobs[e.owner.value]), t.jobs[e.owner.value];
         b == a || b == a.(status := Admitted, slot := b.slot)
  {
    StepSplits(s, e, now);
    AttachedActs(s, e, now);
    AdmissionOnJob(Acted(s, e, now), now, e.claim.id);
    if e.owner.Some? {
      AdmissionOnJob(Acted(s, e, now), now, e.owner.value);
    }
    hide AdmitNext, Step, Acted, Requeued, Displaces, Adopts, Admits, Possible;
  }

  /**
   * The reported job runs on the runner, under its name and the identifier that the report or the owner knows, on the
   * owner's slot or its own, with no trace of an earlier stop; a displaced owner waits for its next attempt.
   */
  lemma {:induction false} ReportAttaches(s: State, e: Event, now: int, t: State)
    requires Leads(s, e, now, t) && Attaches(s, e)
    ensures e.claim.id in t.jobs && e.claim.id in s.jobs && (e.owner.Some? ==> e.owner.value in s.jobs)
    ensures var job, owner := t.jobs[e.claim.id], e.owner;
      && job.status.Running? && job.runnerName == e.claim.runnerName && job.assignmentObserved
      && (e.claim.runnerId.Some? ==> job.runnerId == e.claim.runnerId)
      && (e.claim.runnerId.None? && owner.Some? ==> job.runnerId == s.jobs[owner.value].runnerId)
      && job.slot == (if owner.Some? then s.jobs[owner.value].slot else s.jobs[e.claim.id].slot)
      && job.recoveryDue.None? && job.cleanup.NoCleanup? && job.cleanupDue.None?
    ensures e.owner.Some? ==>
      && e.owner.value in t.jobs
      && var (from, to) := (s.jobs[e.owner.value], t.jobs[e.owner.value]);
      && to.status.Waiting()
      && to.attempt == from.attempt + 1 && to.runnerName == RetryName(from.runnerName, to.attempt)
      && to.runnerId.None? && !to.assignmentObserved
      && to.recoveryDue.None? && to.cleanup.NoCleanup? && to.cleanupDue.None?
  {
    hide Leads, Attaches, Acted, RetryName;
    LedIsPossible(s, e, now, t);
    AttachedStep(s, e, now, t);
    AttachedActs(s, e, now);
    hide Step, Possible;
  }

  lemma {:induction false} LedIsPossible(s: State, e: Event, now: int, t: State)
    requires Leads(s, e, now, t)
    ensures Possible(s, e, now) && t == Step(s, e, now)
  {
    hide Step, Possible;
  }

  lemma {:induction false} AttachedActs(s: State, e: Event, now: int)
    requires Possible(s, e, now) && Attaches(s, e)
    ensures var t := Acted(s, e, now);
      && e.claim.id in s.jobs
      && (e.owner.Some? ==>
            && e.owner.value in s.jobs && e.owner.value != e.claim.id
            && e.owner.value in t.jobs && t.jobs[e.owner.value] == Requeued(s.jobs[e.owner.value]))
      && e.claim.id in t.jobs
      && var runnerId := if e.owner.Some? && e.claim.runnerId.None? then s.jobs[e.owner.value].runnerId else e.claim.runnerId;
         var slot := if e.owner.Some? then s.jobs[e.owner.value].slot else s.jobs[e.claim.id].slot;
         t.jobs[e.claim.id] == OnRunner(s.jobs[e.claim.id], e.claim.runnerName, runnerId, slot)
  {
    hide AdmitNext, DueTimes, RetryName;
  }

  /** Any other report on an owned runner only confirms its owner, or is refused. */
  lemma {:induction false} ReportConfirms(s: State, e: Event, now: int, t: State)
    requires Leads(s, e, now, t) && e.AssignmentReported? && !Attaches(s, e)
    ensures t.jobs == if e.owner == Some(e.claim.id) && Matches(s.jobs[e.claim.id], e.claim)
      then s.jobs[e.claim.id := s.jobs[e.claim.id].(assignmentObserved := true)] else s.jobs
  {
    hide AdmitNext, DueTimes;
  }

  /** GitHub reports a job of the same kind on the runner that another job with a slot owns. */
  lemma {:induction false} ReportDisplacesExactlyWhen(s: State, e: Event, now: int)
    requires Possible(s, e, now) && e.AssignmentReported? && e.owner.Some? && e.claim.id in s.jobs
    ensures Attaches(s, e) <==>
      var owner, job := s.jobs[e.owner.value], s.jobs[e.claim.id];
      && e.owner.value != e.claim.id && owner.slot.Some?
      && owner.repository == job.repository == e.claim.repository
      && owner.profile.key == job.profile.key == e.claim.profileKey
  {
  }

  /** Nobody owns the runner, it was created for a job of the same kind, and the reported job waits or runs elsewhere. */
  lemma {:induction false} ReportAdoptsExactlyWhen(s: State, e: Event, now: int)
    requires Possible(s, e, now) && e.AssignmentReported? && e.owner.None? && e.claim.id in s.jobs
    ensures Attaches(s, e) <==>
      var job := s.jobs[e.claim.id];
      && e.claim.runnerName in s.runners
      && s.runners[e.claim.runnerName].repository == job.repository == e.claim.repository
      && s.runners[e.claim.runnerName].profileKey == job.profile.key == e.claim.profileKey
      && (job.status.Queued? || job.status.Admitted? || job.status.Running?)
  {
  }
}
