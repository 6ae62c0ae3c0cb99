/** The account's resource budget: the jobs that hold a slot never exceed it in any dimension. */
module SchedulerBudget {
  import opened AccountResources
  import opened SchedulerCapacity
  import opened SchedulerModel
  import opened SchedulerRuns
  import opened Wrappers

  /** The active jobs that hold a slot. */
  function Holders(jobs: map<JobId, Job>): set<JobId> {
    set id | id in jobs && jobs[id].Holds().Some?
  }

  ghost predicate WithinBudget(jobs: map<JobId, Job>) {
    TotalOf(jobs, Holders(jobs)).Within(ACCOUNT_LIMIT)
  }

  /** What a profile key stands for; a key determines its resources. */
  type Catalogue = string -> Resources

  ghost predicate Conforms(profile: Profile, catalogue: Catalogue) {
    profile.resources == catalogue(profile.key) && profile.resources.NonNegative()
  }

  ghost predicate AllConform(jobs: map<JobId, Job>, catalogue: Catalogue) {
    forall id :: id in jobs ==> Conforms(jobs[id].profile, catalogue)
  }

  ghost predicate BudgetOk(jobs: map<JobId, Job>, catalogue: Catalogue) {
    AllConform(jobs, catalogue) && QueuedHaveNoSlot(jobs) && WithinBudget(jobs)
  }

  // ---------------------------------------------------------------- sums over jobs

  lemma {:induction false} TotalRemove(jobs: map<JobId, Job>, ids: set<JobId>, x: JobId)
    requires ids <= jobs.Keys && x in ids
    ensures TotalOf(jobs, ids) == jobs[x].profile.resources.Plus(TotalOf(jobs, ids - {x}))
    decreases |ids|
  {
    var y :| y in ids && TotalOf(jobs, ids) == jobs[y].profile.resources.Plus(TotalOf(jobs, ids - {y}));
    if y == x {
      assert ids - {y} == ids - {x};
    } else {
      assert ids - {y} - {x} == ids - {x} - {y};
      var rest := TotalOf(jobs, ids - {x} - {y});
      TotalRemove(jobs, ids - {y}, x);
      assert TotalOf(jobs, ids - {y}) == jobs[x].profile.resources.Plus(rest);
      assert TotalOf(jobs, ids) == jobs[y].profile.resources.Plus(jobs[x].profile.resources.Plus(rest));
      TotalRemove(jobs, ids - {x}, y);
      assert TotalOf(jobs, ids - {x}) == jobs[y].profile.resources.Plus(rest);
      assert TotalOf(jobs, ids) == jobs[x].profile.resources.Plus(TotalOf(jobs, ids - {x}));
    }
  }

  lemma {:induction false} TotalFrame(jobs: map<JobId, Job>, other: map<JobId, Job>, ids: set<JobId>)
    requires ids <= jobs.Keys && ids <= other.Keys
    requires forall id :: id in ids ==> other[id].profile == jobs[id].profile
    ensures TotalOf(other, ids) == TotalOf(jobs, ids)
    decreases |ids|
  {
    if ids != {} {
      var x :| x in ids;
      TotalRemove(jobs, ids, x);
      TotalRemove(other, ids, x);
      TotalFrame(jobs, other, ids - {x});
    }
  }

  lemma {:induction false} TotalSubset(
      jobs: map<JobId, Job>, small: set<JobId>, large: set<JobId>, catalogue: Catalogue)
    requires AllConform(jobs, catalogue) && small <= large <= jobs.Keys
    ensures TotalOf(jobs, small).Within(TotalOf(jobs, large))
    decreases |large|
  {
    if x :| x in large && x !in small {
      TotalRemove(jobs, large, x);
      assert Conforms(jobs[x].profile, catalogue);
      TotalSubset(jobs, small, large - {x}, catalogue);
    } else {
      assert small == large;
    }
  }

  // ---------------------------------------------------------------- steps that give up reservations

  /** Profiles stay, and a job holds what it held before or nothing. */
  ghost predicate Shrinks(before: map<JobId, Job>, after: map<JobId, Job>) {
    && after.Keys == before.Keys
    && forall id :: id in before ==>
      && after[id].profile == before[id].profile
      && (after[id].Holds() == before[id].Holds() || after[id].Holds().None?)
      && (after[id].status.Queued? ==> before[id].status.Queued? && after[id].slot == before[id].slot)
  }

  lemma {:induction false} ShrinkingKeepsBudget(before: map<JobId, Job>, after: map<JobId, Job>, catalogue: Catalogue)
    requires BudgetOk(before, catalogue) && Shrinks(before, after)
    ensures BudgetOk(after, catalogue)
  {
    TotalFrame(before, after, Holders(after));
    TotalSubset(before, Holders(after), Holders(before), catalogue);
    forall id | id in after
      ensures Conforms(after[id].profile, catalogue)
    {
      assert Conforms(before[id].profile, catalogue);
    }
  }

  lemma {:induction false} NewJobKeepsBudget(jobs: map<JobId, Job>, id: JobId, job: Job, catalogue: Catalogue)
    requires BudgetOk(jobs, catalogue) && id !in jobs
    requires job.status.Queued? && job.slot.None? && Conforms(job.profile, catalogue)
    ensures BudgetOk(jobs[id := job], catalogue)
  {
    assert Holders(jobs[id := job]) == Holders(jobs);
    TotalFrame(jobs, jobs[id := job], Holders(jobs));
  }

  // ---------------------------------------------------------------- admission and hand-over

  /** Admission is gated on the total of all active jobs, so the new total still fits. */
  lemma {:induction false} AdmitKeepsBudget(s: State, id: JobId, admitted: Job, catalogue: Catalogue)
    requires BudgetOk(s.jobs, catalogue) && id in s.jobs && s.jobs[id].status.Queued?
    requires FitsAccountCapacity(ReservedResources(s.jobs), s.jobs[id].profile.resources, ACCOUNT_LIMIT)
    requires admitted.profile == s.jobs[id].profile && !admitted.status.Queued?
    ensures BudgetOk(s.jobs[id := admitted], catalogue)
  {
    var jobs, active := s.jobs[id := admitted], ActiveIds(s.jobs);
    assert AllConform(jobs, catalogue) by {
      forall other | other in jobs
        ensures Conforms(jobs[other].profile, catalogue)
      {
        assert Conforms(s.jobs[other].profile, catalogue);
      }
    }
    TotalRemove(s.jobs, active + {id}, id);
    assert active + {id} - {id} == active;
    TotalFrame(s.jobs, jobs, active + {id});
    assert Holders(jobs) <= active + {id};
    TotalSubset(jobs, Holders(jobs), active + {id}, catalogue);
  }

  lemma {:induction false} AdmitNextKeepsBudget(s: State, now: int, catalogue: Catalogue)
    requires BudgetOk(s.jobs, catalogue)
    ensures BudgetOk(AdmitNext(s, now).jobs, catalogue)
  {
    var t := AdmitNext(s, now);
    hide ScheduleReclamation, AdmittedSlot, BudgetOk, PlanOn, FitsAccountCapacity;
    if t != s {
      var id := NextQueued(s.jobs).value;
      assert IsNextQueued(s.jobs, id);
      AdmitKeepsBudget(s, id, t.jobs[id], catalogue);
    }
  }

  /** What a hand-over does to holders and profiles. */
  lemma {:induction false} HandOverSwapsHolders(s: State, claim: RunnerClaim, owner: JobId)
    requires QueuedHaveNoSlot(s.jobs) && HandsOver(s, claim, owner) && s.jobs[owner].status.OwnsRunner()
    ensures var jobs := HandOver(s, claim, owner).jobs;
      && jobs.Keys == s.jobs.Keys
      && (forall id :: id in s.jobs ==> jobs[id].profile == s.jobs[id].profile)
      && owner in Holders(s.jobs)
      && Holders(jobs) == Holders(s.jobs) - {owner} + {claim.id}
      && QueuedHaveNoSlot(jobs)
  {
    var jobs := HandOver(s, claim, owner).jobs;
    forall id | id in s.jobs
      ensures id in Holders(jobs) <==> id in Holders(s.jobs) - {owner} + {claim.id}
    {
    }
  }

  lemma {:induction false} HandOverKeepsBudget(s: State, claim: RunnerClaim, owner: JobId, catalogue: Catalogue)
    requires BudgetOk(s.jobs, catalogue) && HandsOver(s, claim, owner) && s.jobs[owner].status.OwnsRunner()
    ensures BudgetOk(HandOver(s, claim, owner).jobs, catalogue)
  {
    HandOverSwapsHolders(s, claim, owner);
    var jobs := HandOver(s, claim, owner).jobs;
    var before, after := Holders(s.jobs), Holders(jobs);
    assert Conforms(s.jobs[owner].profile, catalogue) && Conforms(s.jobs[claim.id].profile, catalogue);
    assert s.jobs[owner].profile.key == s.jobs[claim.id].profile.key;
    hide HandOver, Holders, TotalOf, QueuedHaveNoSlot;
    forall id | id in jobs
      ensures Conforms(jobs[id].profile, catalogue)
    {
      assert Conforms(s.jobs[id].profile, catalogue);
    }
    TotalFrame(s.jobs, jobs, after);
    TotalRemove(s.jobs, before, owner);
    TotalRemove(s.jobs, after, claim.id);
    TotalSubset(s.jobs, after - {claim.id}, before - {owner}, catalogue);
  }

  // ---------------------------------------------------------------- every step

  lemma {:induction false} ShrinkAndAdmit(s: State, t: State, now: int, catalogue: Catalogue)
    requires BudgetOk(s.jobs, catalogue) && Shrinks(s.jobs, t.jobs)
    ensures BudgetOk(AdmitNext(t, now).jobs, catalogue)
  {
    ShrinkingKeepsBudget(s.jobs, t.jobs, catalogue);
    AdmitNextKeepsBudget(t, now, catalogue);
  }

  lemma {:induction false} SubmittedKeepsBudget(s: State, e: Event, now: int, catalogue: Catalogue)
    requires BudgetOk(s.jobs, catalogue) && e.Submit? && Conforms(e.profile, catalogue)
    ensures BudgetOk(Submitted(s, e.id, e.runnerName, e.repository, e.profile, now).jobs, catalogue)
  {
    hide DueTimes, BudgetOk, AdmitNext;
    if e.id !in s.jobs {
      var job := NewJob(e.runnerName, e.repository, e.profile, now);
      NewJobKeepsBudget(s.jobs, e.id, job, catalogue);
      AdmitNextKeepsBudget(s.(jobs := s.jobs[e.id := job]), now, catalogue);
    }
  }

  lemma {:induction false} ConfigurationReadyKeepsBudget(s: State, id: JobId, now: int, catalogue: Catalogue)
    requires BudgetOk(s.jobs, catalogue)
    ensures BudgetOk(ConfigurationReady(s, id, now).jobs, catalogue)
  {
    hide DueTimes, BudgetOk, AdmitNext;
    if id in s.jobs && s.jobs[id].slot.Some? {
      var i := s.jobs[id].slot.value;
      var t := Configured(s, i, id);
      AdmitNextKeepsBudget(t, now, catalogue);
    }
  }

  lemma {:induction false} ReleaseKeepsBudget(
      s: State, id: JobId, slot: Option<SlotIndex>, status: Status, now: int, catalogue: Catalogue)
    requires BudgetOk(s.jobs, catalogue) && id in s.jobs && status.Terminal()
    ensures BudgetOk(AdmitNext(ReleaseJob(s, id, slot, status, now), now).jobs, catalogue)
  {
    hide BudgetOk, AdmitNext;
    ShrinkAndAdmit(s, ReleaseJob(s, id, slot, status, now), now, catalogue);
  }

  lemma {:induction false} ProvisioningFailedKeepsBudget(
      s: State, id: JobId, runnerName: string, now: int, catalogue: Catalogue)
    requires BudgetOk(s.jobs, catalogue)
    ensures BudgetOk(ProvisioningFailed(s, id, runnerName, now).jobs, catalogue)
  {
    hide DueTimes, BudgetOk, AdmitNext, ReleaseJob;
    if CanStart(s, id, runnerName) {
      ReleaseKeepsBudget(s, id, s.jobs[id].slot, Failed, now, catalogue);
    }
  }

  lemma {:induction false} JobCompletedKeepsBudget(s: State, id: JobId, now: int, catalogue: Catalogue)
    requires BudgetOk(s.jobs, catalogue)
    ensures BudgetOk(JobCompleted(s, id, now).jobs, catalogue)
  {
    hide DueTimes, BudgetOk, AdmitNext, ReleaseJob;
    if id in s.jobs {
      var job := s.jobs[id];
      if job.status.Waiting() {
        ReleaseKeepsBudget(s, id, job.slot, Cancelled, now, catalogue);
      } else if job.status.StoppedAwaitingCompletion? {
        ReleaseKeepsBudget(s, id, job.slot, Completed, now, catalogue);
      } else {
        ShrinkingKeepsBudget(s.jobs, JobCompleted(s, id, now).jobs, catalogue);
      }
    }
  }

  lemma {:induction false} RunnerStoppedKeepsBudget(s: State, row: Option<JobId>, now: int, catalogue: Catalogue)
    requires BudgetOk(s.jobs, catalogue)
    ensures BudgetOk(RunnerStopped(s, row, now).jobs, catalogue)
  {
    hide DueTimes, BudgetOk, AdmitNext, ReleaseJob;
    if row.Some? && row.value in s.jobs && s.jobs[row.value].status.Releasing? {
      ReleaseKeepsBudget(s, row.value, s.jobs[row.value].slot, Completed, now, catalogue);
    } else {
      ShrinkingKeepsBudget(s.jobs, RunnerStopped(s, row, now).jobs, catalogue);
    }
  }

  lemma {:induction false} RecoverStoppedKeepsBudget(
      s: State, row: StoppedRow, answer: CleanupAnswer, now: int, catalogue: Catalogue)
    requires BudgetOk(s.jobs, catalogue) && row.id in s.jobs
    ensures BudgetOk(RecoverStopped(s, row, answer, now).jobs, catalogue)
  {
    ShrinkingKeepsBudget(s.jobs, CleanUp(s, row, answer).jobs, catalogue);
    var status := if row.job.status.Releasing? then Completed else Failed;
    ReleaseKeepsBudget(CleanUp(s, row, answer), row.id, row.job.slot, status, now, catalogue);
    hide BudgetOk, AdmitNext, ReleaseJob, CleanUp;
  }

  lemma {:induction false} ReleaseHoldsKeepJobs(s: State, rows: seq<SlotIndex>, now: int)
    ensures ReleaseHolds(s, rows, now).jobs == s.jobs
    decreases |rows|
  {
    if rows != [] {
      ReleaseHoldsKeepJobs(ReleaseHold(s, rows[0], now), rows[1..], now);
    }
  }

  lemma {:induction false} ReleaseAllShrinks(s: State, ids: seq<JobId>, now: int)
    ensures Shrinks(s.jobs, ReleaseAll(s, ids, now).jobs)
    decreases |ids|
  {
    if ids != [] {
      var t := if ids[0] in s.jobs then ReleaseJob(s, ids[0], s.jobs[ids[0]].slot, Completed, now) else s;
      ReleaseAllShrinks(t, ids[1..], now);
    }
  }

  lemma {:induction false} PutShrinks(jobs: map<JobId, Job>, id: JobId, job: Job)
    requires id in jobs && job.profile == jobs[id].profile
    requires job.Holds() == jobs[id].Holds() || job.Holds().None?
    requires job.status.Queued? ==> jobs[id].status.Queued? && job.slot == jobs[id].slot
    ensures Shrinks(jobs, jobs[id := job])
  {
  }

  lemma {:induction false} OtherAssignmentShrinks(s: State, claim: RunnerClaim, owner: Option<JobId>, now: int)
    requires QueuedHaveNoSlot(s.jobs) && (owner.None? || !HandsOver(s, claim, owner.value))
    ensures Shrinks(s.jobs, JobStarted(s, claim, owner, now).jobs)
  {
    hide AdmitNext, DueTimes, HandOver, Matches, Shrinks, HandsOver;
    assert RecordAssignment(s, claim).jobs == s.jobs;
    hide RecordAssignment;
    if owner.None? && Adopts(s, claim) {
      PutShrinks(s.jobs, claim.id, OnRunner(s.jobs[claim.id], claim.runnerName, claim.runnerId, s.jobs[claim.id].slot));
    } else if owner.Some? && claim.id in s.jobs {
      PutShrinks(s.jobs, claim.id, s.jobs[claim.id].(assignmentObserved := true));
    }
    SameJobsShrink(s.jobs);
    hide OnRunner, QueuedHaveNoSlot;
  }

  lemma {:induction false} AssignmentKeepsBudget(s: State, e: Event, now: int, catalogue: Catalogue)
    requires BudgetOk(s.jobs, catalogue) && e.AssignmentReported? && Possible(s, e, now)
    ensures BudgetOk(JobStarted(s, e.claim, e.owner, now).jobs, catalogue)
  {
    hide DueTimes, AdmitNext, HandOver;
    var r := RecordAssignment(s, e.claim);
    assert r.jobs == s.jobs;
    hide RecordAssignment;
    if e.owner.Some? && HandsOver(s, e.claim, e.owner.value) {
      hide BudgetOk;
      HandOverKeepsBudget(r, e.claim, e.owner.value, catalogue);
      AdmitNextKeepsBudget(HandOver(r, e.claim, e.owner.value), now, catalogue);
    } else {
      OtherAssignmentShrinks(s, e.claim, e.owner, now);
      hide JobStarted, HandsOver;
      ShrinkingKeepsBudget(s.jobs, JobStarted(s, e.claim, e.owner, now).jobs, catalogue);
    }
  }

  lemma {:induction false} ClaimedShrinks(s: State, id: JobId, runnerName: string)
    requires QueuedHaveNoSlot(s.jobs)
    ensures Shrinks(s.jobs, Claimed(s, id, runnerName).jobs)
  {
  }

  lemma {:induction false} RunnerProvisionedShrinks(s: State, id: JobId, runnerName: string, runnerId: int)
    ensures Shrinks(s.jobs, RunnerProvisioned(s, id, runnerName, runnerId).jobs)
  {
  }

  lemma {:induction false} RunnerStartedShrinks(s: State, runnerName: string)
    ensures Shrinks(s.jobs, RunnerStarted(s, runnerName).jobs)
  {
  }

  lemma {:induction false} CleanedUpKeeps(job: Job, runnerId: Option<int>, answer: CleanupAnswer)
    ensures var cleaned := CleanedUp(job, runnerId, answer);
      cleaned.profile == job.profile && cleaned.status == job.status && cleaned.slot == job.slot
  {
  }

  lemma {:induction false} CleanUpShrinks(s: State, row: StoppedRow, answer: CleanupAnswer)
    ensures Shrinks(s.jobs, CleanUp(s, row, answer).jobs)
  {
    if row.id in s.jobs {
      CleanedUpKeeps(s.jobs[row.id], row.job.runnerId, answer);
    }
    hide CleanedUp;
  }

  lemma {:induction false} SameJobsShrink(jobs: map<JobId, Job>)
    ensures Shrinks(jobs, jobs)
  {
  }

  lemma {:induction false} PlainStepShrinks(s: State, e: Event, now: int)
    requires QueuedHaveNoSlot(s.jobs) && Plain(e) && Possible(s, e, now)
    ensures Shrinks(s.jobs, Step(s, e, now).jobs)
  {
    hide Shrinks, QueuedHaveNoSlot, Claimed, Superseding, RunnerProvisioned, RunnerStarted, CleanUp, DueTimes, DueRows;
    SameJobsShrink(s.jobs);
    match e
    case Claim(id, runnerName) => ClaimedShrinks(s, id, runnerName);
    case RunnerCreated(id, runnerName, runnerId) => RunnerProvisionedShrinks(s, id, runnerName, runnerId);
    case ContainerStarted(runnerName) => RunnerStartedShrinks(s, runnerName);
    case CleanupRetried(row, answer) => CleanUpShrinks(s, row, answer);
    case CapacityReported(_, _) =>
    case AlarmFired(_) =>
    case UpdatesSelected =>
    case UpdateStarted =>
    case UpdateDeferred(_, _) =>
  }

  lemma {:induction false} RestartKeepsBudget(s: State, releasing: seq<JobId>, now: int, catalogue: Catalogue)
    requires BudgetOk(s.jobs, catalogue)
    ensures BudgetOk(Restart(s, releasing, now).jobs, catalogue)
  {
    ReleaseAllShrinks(ReconcileReservations(s), releasing, now);
    ShrinkingKeepsBudget(s.jobs, ReleaseAll(ReconcileReservations(s), releasing, now).jobs, catalogue);
    hide BudgetOk, ReleaseAll, DueTimes;
  }

  lemma {:induction false} StepKeepsBudget(s: State, e: Event, now: int, catalogue: Catalogue)
    requires BudgetOk(s.jobs, catalogue) && Possible(s, e, now)
    requires e.Submit? ==> Conforms(e.profile, catalogue)
    ensures BudgetOk(Step(s, e, now).jobs, catalogue)
  {
    if Plain(e) {
      PlainStepShrinks(s, e, now);
      hide Step, Shrinks;
      ShrinkingKeepsBudget(s.jobs, Step(s, e, now).jobs, catalogue);
    } else {
      AdmittingStepKeepsBudget(s, e, now, catalogue);
    }
    hide Step, BudgetOk;
  }

  lemma {:induction false} AdmittingStepKeepsBudget(s: State, e: Event, now: int, catalogue: Catalogue)
    requires BudgetOk(s.jobs, catalogue) && Possible(s, e, now) && !Plain(e)
    requires e.Submit? ==> Conforms(e.profile, catalogue)
    ensures BudgetOk(Step(s, e, now).jobs, catalogue)
  {
    hide BudgetOk, AdmitNext, Submitted, ConfigurationReady, ProvisioningFailed, JobStarted, JobCompleted, RunnerStopped;
    hide RecoverStopped, ReleaseHolds, DueTimes, Restart, ScheduleAlarm, Conforms;
    match e
    case Submit(_, _, _, _) => SubmittedKeepsBudget(s, e, now, catalogue);
    case ConfigurationReported(id) => ConfigurationReadyKeepsBudget(s, id, now, catalogue);
    case AssignmentReported(_, _) => AssignmentKeepsBudget(s, e, now, catalogue);
    case ProvisioningFailure(id, runnerName) => ProvisioningFailedKeepsBudget(s, id, runnerName, now, catalogue);
    case CompletionReported(id) => JobCompletedKeepsBudget(s, id, now, catalogue);
    case ContainerStopped(_, row) => RunnerStoppedKeepsBudget(s, row, now, catalogue);
    case RecoveryFinished(answer) =>
      if s.run.rows[0].id in s.jobs {
        RecoverStoppedKeepsBudget(s, s.run.rows[0], answer, now, catalogue);
      }
    case AlarmFinished => AlarmFinishedKeepsBudget(s, now, catalogue);
    case Restarted(releasing) => RestartKeepsBudget(s, releasing, now, catalogue);
  }

  lemma {:induction false} AlarmFinishedKeepsBudget(s: State, now: int, catalogue: Catalogue)
    requires BudgetOk(s.jobs, catalogue)
    ensures BudgetOk(ScheduleAlarm(AdmitNext(ReleaseHolds(s, CUSTOM_ROWS, now), now), now).jobs, catalogue)
  {
    ReleaseHoldsKeepJobs(s, CUSTOM_ROWS, now);
    hide BudgetOk, ReleaseHolds, AdmitNext, DueTimes;
    AdmitNextKeepsBudget(ReleaseHolds(s, CUSTOM_ROWS, now), now, catalogue);
  }

  // ---------------------------------------------------------------- runs

  lemma {:induction false} LedKeepsBudget(s: State, e: Event, now: int, t: State, catalogue: Catalogue)
    requires BudgetOk(s.jobs, catalogue) && Leads(s, e, now, t)
    requires e.Submit? ==> Conforms(e.profile, catalogue)
    ensures BudgetOk(t.jobs, catalogue)
  {
    StepKeepsBudget(s, e, now, catalogue);
  }

  ghost predicate SubmitsConform(run: Run, catalogue: Catalogue) {
    forall i :: 0 <= i < |run.moments| && run.moments[i].event.Submit? ==> Conforms(run.moments[i].event.profile, catalogue)
  }

  lemma {:induction false} BudgetInRun(run: Run, n: nat, catalogue: Catalogue)
    requires run.Valid() && SubmitsConform(run, catalogue) && n < |run.states|
    ensures BudgetOk(run.states[n].jobs, catalogue)
  {
    if n == 0 {
      assert Holders(Initial().jobs) == {};
    } else {
      hide Initial, Leads, BudgetOk, Conforms;
      BudgetInRun(run, n - 1, catalogue);
      assert run.Follows(n - 1);
      LedKeepsBudget(run.states[n - 1], run.moments[n - 1].event, run.moments[n - 1].now, run.states[n], catalogue);
    }
  }

  /**
   * In every reachable state the vCPU, memory and disk of all active jobs that hold a slot stay within the account
   * limit, in each dimension.
   */
  lemma {:induction false} SlotHoldersFitTheAccount(run: Run, n: nat, catalogue: Catalogue)
    requires run.Valid() && SubmitsConform(run, catalogue) && n < |run.states|
    ensures var total := TotalOf(run.states[n].jobs, Holders(run.states[n].jobs));
      total.Within(ACCOUNT_LIMIT) && total.vcpu <= 16 * 1_500 && total.memoryMib <= 6 * 1_024 * 1_024 && total.diskMb <= 30_000_000
  {
    BudgetInRun(run, n, catalogue);
  }
}
