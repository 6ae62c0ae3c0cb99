/**
 * The scheduler object. Its fields are the tables; every public method is one uninterrupted stretch of one entry
 * point and takes the tables exactly where the corresponding step of the model takes them. The answers to
 * single-row and ordered queries are computed by the private methods at the start.
 */
module AccountScheduler {
  import opened AccountResources
  import opened Deadlines
  import opened RunnerNames
  import SchedulerBudget
  import opened SchedulerModel
  import opened SchedulerPolicy
  import opened Wrappers

  // ---------------------------------------------------------------- query answers

  lemma {:induction false} NextQueuedIsUnique(jobs: map<JobId, Job>, id: JobId)
    requires IsNextQueued(jobs, id)
    ensures NextQueued(jobs) == Some(id)
  {
  }

  lemma {:induction false} SumOfNone(jobs: map<JobId, Job>)
    ensures TotalOf(jobs, {}) == ZERO
  {
  }

  lemma {:induction false} AddOne(jobs: map<JobId, Job>, ids: set<JobId>, x: JobId, total: Resources)
    requires ids <= jobs.Keys && x in ids
    ensures total.Plus(jobs[x].profile.resources).Plus(TotalOf(jobs, ids - {x})) == total.Plus(TotalOf(jobs, ids))
  {
    SchedulerBudget.TotalRemove(jobs, ids, x);
    hide TotalOf;
  }

  // ---------------------------------------------------------------- deadlines

  /** A job's recovery deadline or the time its cleanup is tried again, whichever comes first. */
  function DeadlineOf(job: Job): Option<int> {
    Sooner(if job.status.Recoverable() then job.recoveryDue else None, if job.cleanup.RetryCleanup? then job.cleanupDue else None)
  }

  function OwnDeadlines(job: Job): set<int> {
    (if job.status.Recoverable() && job.recoveryDue.Some? then {job.recoveryDue.value} else {})
    + (if job.cleanup.RetryCleanup? && job.cleanupDue.Some? then {job.cleanupDue.value} else {})
  }

  function DeadlinesOf(jobs: map<JobId, Job>, ids: set<JobId>): set<int>
    requires ids <= jobs.Keys
  {
    (set id | id in ids && jobs[id].status.Recoverable() && jobs[id].recoveryDue.Some? :: jobs[id].recoveryDue.value)
    + (set id | id in ids && jobs[id].cleanup.RetryCleanup? && jobs[id].cleanupDue.Some? :: jobs[id].cleanupDue.value)
  }

  lemma {:induction false} DeadlinesGrow(jobs: map<JobId, Job>, seen: set<JobId>, id: JobId)
    requires seen <= jobs.Keys && id in jobs
    ensures DeadlinesOf(jobs, seen + {id}) == DeadlinesOf(jobs, seen) + OwnDeadlines(jobs[id])
    ensures IsLeast(OwnDeadlines(jobs[id]), DeadlineOf(jobs[id]))
  {
    var job := jobs[id];
    assert forall t :: t in DeadlinesOf(jobs, seen + {id}) ==> t in DeadlinesOf(jobs, seen) + OwnDeadlines(job);
    if job.status.Recoverable() && job.recoveryDue.Some? {
      assert job.recoveryDue.value in DeadlinesOf(jobs, seen + {id});
    }
    if job.cleanup.RetryCleanup? && job.cleanupDue.Some? {
      assert job.cleanupDue.value in DeadlinesOf(jobs, seen + {id});
    }
  }

  lemma {:induction false} DueIsLeast(
      s: State, now: int, recovery: Option<int>, capacityChange: Option<int>, deadline: Option<int>)
    requires recovery ==
      if exists id :: id in s.jobs && s.jobs[id].status.Waiting() then Some(now + SCHEDULER_ALARM_DELAY_MS) else None
    requires IsLeast(set i: nat | i < SLOTS && CapacityChangePending(s.slots[i]) :: s.slots[i].debounceUntil, capacityChange)
    requires IsLeast(DeadlinesOf(s.jobs, s.jobs.Keys), deadline)
    ensures var due := Sooner(Sooner(recovery, capacityChange), deadline);
      if due.None? then DueTimes(s, now) == {} else DueTimes(s, now) != {} && due.value == Earliest(DueTimes(s, now))
  {
    var work := if exists id :: id in s.jobs && s.jobs[id].status.Waiting() then {now + SCHEDULER_ALARM_DELAY_MS} else {};
    var changes := set i: nat | i < SLOTS && CapacityChangePending(s.slots[i]) :: s.slots[i].debounceUntil;
    var deadlines := DeadlinesOf(s.jobs, s.jobs.Keys);
    assert IsLeast(work, recovery);
    LeastOfUnion(work, changes, recovery, capacityChange);
    LeastOfUnion(work + changes, deadlines, Sooner(recovery, capacityChange), deadline);
    assert DueTimes(s, now) == work + changes + deadlines;
    var due := Sooner(Sooner(recovery, capacityChange), deadline);
    if due.Some? {
      LeastIsEarliest(DueTimes(s, now), due);
    }
  }

  /** Adds a row to rows that are in the order of the recovery query. */
  function InsertRow(rows: seq<StoppedRow>, row: StoppedRow): (r: seq<StoppedRow>)
    requires row.job.recoveryDue.Some?
    requires forall i :: 0 <= i < |rows| ==> rows[i].job.recoveryDue.Some? && rows[i].id != row.id
    requires forall i, j :: 0 <= i < j < |rows| ==> EarlierRow(rows[i], rows[j])
    ensures forall other :: other in r <==> other == row || other in rows
    ensures forall i :: 0 <= i < |r| ==> r[i].job.recoveryDue.Some?
    ensures forall i, j :: 0 <= i < j < |r| ==> EarlierRow(r[i], r[j])
  {
    if rows == [] || EarlierRow(row, rows[0]) then
      assert forall i :: 0 < i < |rows| ==> EarlierRow(rows[0], rows[i]) && EarlierRow(row, rows[i]);
      [row] + rows
    else
      var rest := InsertRow(rows[1..], row);
      assert forall other :: other in rest ==> EarlierRow(rows[0], other);
      [rows[0]] + rest
  }

  lemma {:induction false} AdmittedState(slot: Slot, id: JobId, profile: Profile, requiresConfiguration: bool, now: int)
    ensures forall shape, target, reclaims ::
      var admitted := AdmittedSlot(slot, id, shape, requiresConfiguration, target, reclaims, now);
      && (admitted.state == Configuring <==> requiresConfiguration || slot.state == Configuring)
      && admitted.generation == slot.generation + 1
  {
  }

  class AccountRunnerScheduler {
    var jobs: map<JobId, Job>
    var slots: SlotTable
    var runners: map<string, JitRunner>
    var operations: Operations
    var alarm: Option<int>
    /** Where an alarm invocation is suspended, with the query answers it still has to work through. */
    var run: AlarmRun
    ghost var scheduledAt: int

    ghost function Snapshot(): State
      reads this
    {
      State(jobs, slots, runners, operations, alarm, scheduledAt, run)
    }

    constructor ()
      ensures Snapshot() == Initial()
    {
      jobs, slots, runners, operations := map[], InitialSlots(), map[], map[];
      alarm, run, scheduledAt := None, NoRun, 0;
    }

    // -------------------------------------------------------------- queries

    method NextQueuedJob() returns (next: Option<JobId>)
      ensures next == NextQueued(jobs)
    {
      next := None;
      var rest := jobs.Keys;
      while rest != {}
        invariant rest <= jobs.Keys
        invariant next.Some? ==> next.value in jobs && jobs[next.value].status.Queued?
        invariant forall id :: id in jobs.Keys - rest && jobs[id].status.Queued? ==> next.Some? && Precedes(next.value, id)
        decreases |rest|
      {
        var id: JobId :| id in rest;
        rest := rest - {id};
        if jobs[id].status.Queued? && (next.None? || Precedes(id, next.value)) {
          next := Some(id);
        }
      }
      if next.Some? {
        NextQueuedIsUnique(jobs, next.value);
      }
    }

    predicate Precedes(a: JobId, b: JobId)
      requires a in jobs && b in jobs
      reads this
    {
      jobs[a].createdAt < jobs[b].createdAt || (jobs[a].createdAt == jobs[b].createdAt && a <= b)
    }

    method ReservedTotals() returns (total: Resources)
      ensures total == TotalOf(jobs, ActiveIds(jobs))
    {
      total := ZERO;
      var rest := jobs.Keys;
      ghost var left := ActiveIds(jobs);
      SumOfNone(jobs);
      hide TotalOf, SchedulerModel.ReservedResources;
      while rest != {}
        invariant left <= rest <= jobs.Keys
        invariant forall id :: id in rest ==> (jobs[id].status.Active() <==> id in left)
        invariant total.Plus(TotalOf(jobs, left)) == TotalOf(jobs, ActiveIds(jobs))
        decreases |rest|
      {
        var id :| id in rest;
        rest := rest - {id};
        if jobs[id].status.Active() {
          AddOne(jobs, left, id, total);
          total := total.Plus(jobs[id].profile.resources);
          left := left - {id};
        }
      }
      assert left == {};
    }

    method RunnerOwner(runnerName: string) returns (owner: Option<JobId>)
      ensures IsOwner(jobs, runnerName, owner)
    {
      var rest := jobs.Keys;
      while rest != {}
        invariant rest <= jobs.Keys
        invariant forall id :: id in jobs.Keys - rest && jobs[id].runnerName == runnerName ==> !jobs[id].status.OwnsRunner()
        decreases |rest|
      {
        var id :| id in rest;
        if jobs[id].runnerName == runnerName && jobs[id].status.OwnsRunner() {
          return Some(id);
        }
        rest := rest - {id};
      }
      return None;
    }

    method JobNamed(runnerName: string) returns (row: Option<JobId>)
      ensures IsNamed(jobs, runnerName, row)
    {
      var rest := jobs.Keys;
      while rest != {}
        invariant rest <= jobs.Keys
        invariant forall id :: id in jobs.Keys - rest ==> jobs[id].runnerName != runnerName
        decreases |rest|
      {
        var id :| id in rest;
        if jobs[id].runnerName == runnerName {
          return Some(id);
        }
        rest := rest - {id};
      }
      return None;
    }

    method StoppedJobsDue(now: int) returns (rows: seq<StoppedRow>)
      ensures DueStopped(jobs, rows, now)
    {
      rows := [];
      var rest := jobs.Keys;
      while rest != {}
        invariant rest <= jobs.Keys
        invariant forall row :: row in rows ==> row.id in jobs.Keys - rest && jobs[row.id] == row.job && row.job.DueBy(now)
        invariant forall id :: id in jobs.Keys - rest && jobs[id].DueBy(now) ==> StoppedRow(id, jobs[id]) in rows
        invariant forall i, j :: 0 <= i < j < |rows| ==> EarlierRow(rows[i], rows[j])
        decreases |rest|
      {
        var id :| id in rest;
        if jobs[id].DueBy(now) {
          rows := InsertRow(rows, StoppedRow(id, jobs[id]));
        }
        rest := rest - {id};
      }
    }

    method ReleasingJobs() returns (ids: seq<JobId>)
      ensures AllReleasing(jobs, ids)
    {
      ids := [];
      var rest := jobs.Keys;
      while rest != {}
        invariant rest <= jobs.Keys
        invariant forall id :: id in jobs.Keys - rest && jobs[id].status.Releasing? <==> id in ids
        invariant forall i, j :: 0 <= i < j < |ids| ==> ids[i] != ids[j]
        decreases |rest|
      {
        var id :| id in rest;
        if jobs[id].status.Releasing? {
          ids := ids + [id];
        }
        rest := rest - {id};
      }
    }

    // -------------------------------------------------------------- the alarm time

    method EarliestCapacityChange() returns (due: Option<int>)
      ensures IsLeast(set i: nat | i < SLOTS && CapacityChangePending(slots[i]) :: slots[i].debounceUntil, due)
    {
      due := None;
      for n := 0 to SLOTS
        invariant IsLeast(set i: nat | i < n && CapacityChangePending(slots[i]) :: slots[i].debounceUntil, due)
      {
        ghost var before := set i: nat | i < n && CapacityChangePending(slots[i]) :: slots[i].debounceUntil;
        ghost var after := set i: nat | i < n + 1 && CapacityChangePending(slots[i]) :: slots[i].debounceUntil;
        if CapacityChangePending(slots[n]) {
          assert after == before + {slots[n].debounceUntil};
          due := Sooner(due, Some(slots[n].debounceUntil));
        } else {
          assert after == before;
        }
      }
    }

    method EarliestDeadline() returns (due: Option<int>)
      ensures IsLeast(DeadlinesOf(jobs, jobs.Keys), due)
    {
      due := None;
      var rest := jobs.Keys;
      ghost var seen: set<JobId> := {};
      assert IsLeast(DeadlinesOf(jobs, seen), due);
      hide DeadlinesOf, OwnDeadlines, DeadlineOf, IsLeast, Sooner;
      while rest != {}
        invariant seen == jobs.Keys - rest && rest <= jobs.Keys
        invariant IsLeast(DeadlinesOf(jobs, seen), due)
        decreases |rest|
      {
        var id :| id in rest;
        rest := rest - {id};
        var own := DeadlineOf(jobs[id]);
        DeadlinesGrow(jobs, seen, id);
        LeastOfUnion(DeadlinesOf(jobs, seen), OwnDeadlines(jobs[id]), due, own);
        due := Sooner(due, own);
        seen := seen + {id};
      }
      assert seen == jobs.Keys;
    }

    method AnyWaiting() returns (waiting: bool)
      ensures waiting <==> exists id :: id in jobs && jobs[id].status.Waiting()
    {
      var rest := jobs.Keys;
      while rest != {}
        invariant rest <= jobs.Keys
        invariant forall id :: id in jobs.Keys - rest ==> !jobs[id].status.Waiting()
        decreases |rest|
      {
        var id :| id in rest;
        if jobs[id].status.Waiting() {
          return true;
        }
        rest := rest - {id};
      }
      return false;
    }

    method ScheduleWorkAlarmIfNeeded(now: int)
      modifies this`alarm, this`scheduledAt
      ensures Snapshot() == ScheduleAlarm(old(Snapshot()), now)
    {
      var waiting := AnyWaiting();
      var capacityChange := EarliestCapacityChange();
      var deadline := EarliestDeadline();
      var recovery := if waiting then Some(now + SCHEDULER_ALARM_DELAY_MS) else None;
      var due := Sooner(Sooner(recovery, capacityChange), deadline);
      DueIsLeast(Snapshot(), now, recovery, capacityChange, deadline);
      scheduledAt := now;
      if due.Some? {
        alarm := Some(Max(now, due.value));
      }
    }

    // -------------------------------------------------------------- admission and release

    method ScheduleCapacityReclamation(reductions: seq<Reduction>, now: int)
      modifies this`slots, this`operations
      ensures (slots, operations) == ScheduleReclamation(old(slots), old(operations), reductions, now)
    {
      ghost var end := ScheduleReclamation(slots, operations, reductions, now);
      for n := 0 to |reductions|
        invariant ScheduleReclamation(slots, operations, reductions[n..], now) == end
      {
        var (id, target) := (reductions[n].slotId, reductions[n].target);
        assert reductions[n..][1..] == reductions[n + 1..];
        if id >= SLOTS || !MayReclaim(slots[id], target) {
          continue;
        }
        var generation := slots[id].generation + 1;
        operations := RecordOperation(operations, id, generation, target, now);
        slots := slots[id := slots[id].(desired := target, debounceUntil := 0, generation := generation)];
      }
    }

    method AdmitNext(now: int)
      modifies this`jobs, this`slots, this`operations
      ensures Snapshot() == SchedulerModel.AdmitNext(old(Snapshot()), now)
    {
      hide ScheduleReclamation, SchedulerModel.CapacityRows, RecordOperation, SchedulerModel.SelectSlot, TotalOf;
      hide TargetMaxInstances, PlanFor, AdmittedSlot;
      var next := NextQueuedJob();
      if next.None? {
        return;
      }
      var id, profile := next.value, jobs[next.value].profile;
      var reserved := ReservedTotals();
      if !FitsAccountCapacity(reserved, profile.resources, ACCOUNT_LIMIT) {
        return;
      }
      var selected := SelectSlot(slots, profile);
      if selected.None? {
        return;
      }
      AdmittedState(slots[selected.value.slotId], id, profile, selected.value.requiresConfiguration, now);
      var slotId, requiresConfiguration := selected.value.slotId, selected.value.requiresConfiguration;
      var slot := slots[slotId];
      var target := TargetMaxInstances(slot, requiresConfiguration);
      var plan := PlanConfiguredCapacity(CapacityRows(slots), CapacityTarget(slotId, profile.resources, target), ACCOUNT_LIMIT);
      if plan.None? {
        return;
      }
      var reductions := plan.value.reductions;
      ScheduleCapacityReclamation(reductions, now);
      var configuring := requiresConfiguration || slot.state == Configuring;
      var shape := Shape(profile.key, profile.resources);
      slots := slots[slotId := AdmittedSlot(slot, id, shape, requiresConfiguration, target, reductions != [], now)];
      if target > slot.applied || configuring || slot.updating {
        operations := RecordOperation(operations, slotId, slot.generation + 1, target, now);
      }
      jobs := jobs[id := jobs[id].(status := Admitted, slot := Some(slotId))];
    }

    method ReleaseJob(id: JobId, slot: Option<SlotIndex>, status: Status, now: int)
      requires id in jobs
      modifies this`jobs, this`slots
      ensures Snapshot() == SchedulerModel.ReleaseJob(old(Snapshot()), id, slot, status, now)
    {
      if slot.Some? {
        slots := slots[slot.value := ReleasedSlot(slots[slot.value], now)];
      }
      jobs := jobs[id := jobs[id].(status := status, recoveryDue := None)];
    }

    method Submit(id: JobId, runnerName: string, repository: string, profile: Profile, now: int)
      modifies this
      ensures Snapshot() == Step(old(Snapshot()), Event.Submit(id, runnerName, repository, profile), now)
    {
      if id in jobs {
        return;
      }
      jobs := jobs[id := NewJob(runnerName, repository, profile, now)];
      AdmitNext(now);
      ScheduleWorkAlarmIfNeeded(now);
    }

    // -------------------------------------------------------------- provisioning

    method ClaimProvisioning(id: JobId, runnerName: string) returns (answer: ClaimAnswer)
      modifies this`jobs
      ensures answer == SchedulerModel.ClaimProvisioning(old(Snapshot()), id, runnerName)
      ensures forall now :: Snapshot() == Step(old(Snapshot()), Claim(id, runnerName), now)
    {
      if id !in jobs {
        return Missing;
      }
      var job := jobs[id];
      if job.runnerName != runnerName {
        return Refused;
      }
      if job.status.Waiting() {
        if job.slot.None? {
          return Wait;
        }
        var slot := slots[job.slot.value];
        var ownsConfiguration := slot.state == Configuring && slot.configurationOwner == Some(id);
        if slot.state == Configuring && slot.configurationOwner != Some(id) {
          return Wait;
        }
        if slot.reclaimPending || slot.updating || (!ownsConfiguration && slot.applied < slot.desired) {
          return Wait;
        }
        jobs := jobs[id := job.(status := Provisioning, ownerScoped := true)];
        return Provision(job.slot.value, Max(1, slot.reserved), slot.generation, ownsConfiguration);
      }
      if job.status.Provisioning? || job.status.Running? {
        if job.slot.None? {
          return Missing;
        }
        var slot := slots[job.slot.value];
        if slot.reclaimPending || slot.updating || slot.applied < slot.desired {
          return Wait;
        }
        return Provision(job.slot.value, Max(1, slot.reserved), slot.generation,
                         slot.state == Configuring && slot.configurationOwner == Some(id));
      }
      return Refused;
    }

    method ConfigurationReady(id: JobId, now: int)
      modifies this
      ensures Snapshot() == Step(old(Snapshot()), ConfigurationReported(id), now)
    {
      if id !in jobs || jobs[id].slot.None? {
        return;
      }
      var slotId := jobs[id].slot.value;
      if slots[slotId].configurationOwner == Some(id) {
        slots := slots[slotId := ConfiguredSlot(slots[slotId])];
      }
      AdmitNext(now);
      ScheduleWorkAlarmIfNeeded(now);
    }

    method CapacityPrepared(slot: SlotIndex, generation: nat, now: int)
      modifies this
      ensures Snapshot() == Step(old(Snapshot()), CapacityReported(slot, generation), now)
    {
      var key := OperationKey(slot, generation);
      if key !in operations {
        return;
      }
      var row := slots[slot];
      slots := slots[slot := row.(applied := operations[key].target,
                                  updating := row.updating && row.updateGeneration != generation)];
      operations := Superseding(operations, slot, generation, now);
      ScheduleWorkAlarmIfNeeded(now);
    }

    method RunnerProvisioned(id: JobId, runnerName: string, runnerId: int)
      modifies this`jobs, this`runners
      ensures forall now :: Snapshot() == Step(old(Snapshot()), RunnerCreated(id, runnerName, runnerId), now)
    {
      if id !in jobs || jobs[id].runnerName != runnerName {
        return;
      }
      if jobs[id].status.Provisioning? {
        jobs := jobs[id := jobs[id].(runnerId := Some(runnerId))];
      }
      var job := jobs[id];
      if job.runnerId == Some(runnerId) {
        runners := runners[runnerName := JitRunner(id, job.repository, job.profile.key, runnerId, None, false)];
      }
    }

    method RunnerStarted(runnerName: string)
      modifies this`jobs
      ensures Snapshot() == SchedulerModel.RunnerStarted(old(Snapshot()), runnerName)
    {
      hide Started;
      var rest := jobs.Keys;
      while rest != {}
        invariant jobs.Keys == old(jobs.Keys) && rest <= jobs.Keys
        invariant forall id :: id in jobs ==> jobs[id] == if id in rest then old(jobs[id]) else Started(old(jobs[id]), runnerName)
        decreases |rest|
      {
        var id :| id in rest;
        rest := rest - {id};
        jobs := jobs[id := Started(jobs[id], runnerName)];
      }
      assert jobs == SchedulerModel.RunnerStarted(old(Snapshot()), runnerName).jobs;
    }

    method ProvisioningFailed(id: JobId, runnerName: string, now: int)
      modifies this
      ensures Snapshot() == Step(old(Snapshot()), ProvisioningFailure(id, runnerName), now)
    {
      if id !in jobs || !jobs[id].status.Provisioning? || jobs[id].runnerName != runnerName {
        return;
      }
      ReleaseJob(id, jobs[id].slot, Failed, now);
      AdmitNext(now);
      ScheduleWorkAlarmIfNeeded(now);
    }

    // -------------------------------------------------------------- assignment

    method RecordJitRunnerAssignment(claim: RunnerClaim) returns (recorded: bool)
      modifies this`runners
      ensures recorded == AssignmentMatches(old(Snapshot()), claim)
      ensures Snapshot() == RecordAssignment(old(Snapshot()), claim)
    {
      if claim.runnerName !in runners || claim.id !in jobs {
        return false;
      }
      var runner := runners[claim.runnerName];
      if runner.repository != claim.repository || runner.profileKey != claim.profileKey || !Matches(jobs[claim.id], claim) {
        return false;
      }
      runners := runners[claim.runnerName := runner.(assignedJob := Some(claim.id), observed := true)];
      return true;
    }

    method WorkflowJobStarted(claim: RunnerClaim, now: int) returns (owner: Option<JobId>)
      modifies this
      ensures IsOwner(old(jobs), claim.runnerName, owner)
      ensures Snapshot() == Step(old(Snapshot()), AssignmentReported(claim, owner), now)
    {
      var recorded := RecordJitRunnerAssignment(claim);
      owner := RunnerOwner(claim.runnerName);
      if owner.None? {
        if recorded && (jobs[claim.id].status.Waiting() || jobs[claim.id].status.Running?) {
          var actual := jobs[claim.id];
          jobs := jobs[claim.id := OnRunner(actual, claim.runnerName, claim.runnerId, actual.slot)];
        }
        return;
      }
      var from := jobs[owner.value];
      if !Matches(from, claim) || claim.id !in jobs || !Matches(jobs[claim.id], claim) {
        return;
      }
      if owner.value == claim.id {
        jobs := jobs[claim.id := jobs[claim.id].(assignmentObserved := true)];
        return;
      }
      if from.slot.None? {
        return;
      }
      var runnerId := if claim.runnerId.Some? then claim.runnerId else from.runnerId;
      jobs := jobs[owner.value := Requeued(from)];
      jobs := jobs[claim.id := OnRunner(jobs[claim.id], claim.runnerName, runnerId, from.slot)];
      AdmitNext(now);
      ScheduleWorkAlarmIfNeeded(now);
    }

    // -------------------------------------------------------------- completion and recovery

    method WorkflowJobCompleted(id: JobId, now: int)
      modifies this
      ensures Snapshot() == Step(old(Snapshot()), CompletionReported(id), now)
    {
      hide SchedulerModel.AdmitNext, ScheduleAlarm, SchedulerModel.ReleaseJob;
      if id !in jobs {
        return;
      }
      var job := jobs[id];
      if job.status.Waiting() {
        ReleaseJob(id, job.slot, Cancelled, now);
        AdmitNext(now);
        ScheduleWorkAlarmIfNeeded(now);
      } else if job.status.StoppedAwaitingCompletion? {
        ReleaseJob(id, job.slot, Completed, now);
        AdmitNext(now);
        ScheduleWorkAlarmIfNeeded(now);
      } else if job.status.Provisioning? || job.status.Running? {
        jobs := jobs[id := job.(status := Releasing, recoveryDue := Some(now + RUNNER_COMPLETION_GRACE_MS))];
        ScheduleWorkAlarmIfNeeded(now);
      }
    }

    method RunnerStopped(runnerName: string, now: int) returns (row: Option<JobId>)
      modifies this
      ensures IsNamed(old(jobs), runnerName, row)
      ensures Snapshot() == Step(old(Snapshot()), ContainerStopped(runnerName, row), now)
    {
      hide SchedulerModel.AdmitNext, ScheduleAlarm, SchedulerModel.ReleaseJob;
      row := JobNamed(runnerName);
      if row.None? || !jobs[row.value].status.Active() {
        return;
      }
      var id, job := row.value, jobs[row.value];
      if job.status.Releasing? {
        ReleaseJob(id, job.slot, Completed, now);
        AdmitNext(now);
        ScheduleWorkAlarmIfNeeded(now);
        return;
      }
      jobs := jobs[id := job.(status := StoppedAwaitingCompletion, recoveryDue := Some(now + RUNNER_COMPLETION_GRACE_MS))];
      ScheduleWorkAlarmIfNeeded(now);
    }

    /** The end of a runner clean-up: GitHub has answered, or there was no runner to delete. */
    method RetryRunnerCleanup(row: StoppedRow, answer: CleanupAnswer)
      modifies this`jobs
      ensures Snapshot() == CleanUp(old(Snapshot()), row, answer)
    {
      if row.id !in jobs {
        return;
      }
      if row.job.runnerId.None? || answer.RunnerGone? {
        jobs := jobs[row.id := jobs[row.id].(cleanup := CleanupDone, cleanupDue := None)];
      } else {
        jobs := jobs[row.id := jobs[row.id].(cleanup := RetryCleanup,
                                             cleanupDue := Some(answer.startedAt + RUNNER_CLEANUP_RETRY_MS))];
      }
    }

    /** The alarm fires and reads the stopped jobs that are due. */
    method BeginAlarm(now: int) returns (rows: seq<StoppedRow>)
      requires run.NoRun? && alarm.Some? && alarm.value <= now
      modifies this`alarm, this`run
      ensures Possible(old(Snapshot()), AlarmFired(rows), now)
      ensures Snapshot() == Step(old(Snapshot()), AlarmFired(rows), now)
    {
      rows := StoppedJobsDue(now);
      alarm, run := None, Recovering(now, rows);
    }

    /** One turn of the recovery loop, from the answer to the runner's deletion to the next deletion. */
    method FinishRecovery(answer: CleanupAnswer, now: int)
      requires run.Recovering? && run.rows != []
      modifies this
      ensures Snapshot() == Step(old(Snapshot()), RecoveryFinished(answer), now)
    {
      var row := run.rows[0];
      if row.id in jobs {
        RetryRunnerCleanup(row, answer);
        ReleaseJob(row.id, row.job.slot, if row.job.status.Releasing? then Completed else Failed, now);
        AdmitNext(now);
      }
      run := Recovering(run.cutoff, run.rows[1..]);
    }

    // -------------------------------------------------------------- capacity updates

    method RecoverStalledCapacityUpdates(now: int)
      modifies this`slots
      ensures Snapshot() == RecoverStalledUpdates(old(Snapshot()), now)
    {
      for n := 0 to SLOTS
        invariant forall i :: 0 <= i < n ==> slots[i] == UnstalledSlot(i, old(slots)[i], operations, now)
        invariant forall i :: n <= i < SLOTS ==> slots[i] == old(slots)[i]
      {
        var slot := slots[n];
        if !slot.updating {
          continue;
        }
        var key := OperationKey(n, slot.updateGeneration);
        if key in operations && operations[key].state == Pending
          && now - operations[key].updatedAt < STALLED_CAPACITY_UPDATE_RECOVERY_MS {
          continue;
        }
        slots := slots[n := slot.(updating := false, debounceUntil := now)];
      }
      assert slots == RecoverStalledUpdates(old(Snapshot()), now).slots;
    }

    /** The rest of the alarm starts here: stalled updates are freed and the due slots read. */
    method SelectCapacityUpdates(now: int)
      requires run.Recovering? && run.rows == []
      modifies this
      ensures Snapshot() == Step(old(Snapshot()), UpdatesSelected, now)
    {
      RecoverStalledCapacityUpdates(now);
      var reductions := DueSlots(true, now);
      var increases := DueSlots(false, now);
      run := Updating(run.cutoff, reductions + increases);
    }

    /** The due slots of one kind in the order of their names. */
    method DueSlots(reducing: bool, now: int) returns (rows: seq<DueRow>)
      ensures rows == DueAmong(slots, reducing, now, SLOTS)
    {
      rows := [];
      for n := 0 to SLOTS
        invariant rows == DueAmong(slots, reducing, now, n)
      {
        if UpdateDue(slots[n], now) && (slots[n].desired < slots[n].applied) == reducing {
          rows := rows + [DueRow(n, slots[n])];
        }
      }
    }

    /** One turn of the update loop, up to the call that changes the application's ceiling. */
    method StartCapacityUpdate(now: int) returns (started: bool)
      requires run.Updating? && run.due != []
      modifies this`slots, this`run
      ensures started == StartsUpdate(old(Snapshot()), old(run.due[0]))
      ensures Snapshot() == Step(old(Snapshot()), UpdateStarted, now)
    {
      var row := run.due[0];
      run := Updating(run.cutoff, run.due[1..]);
      if slots[row.id].generation != row.slot.generation || slots[row.id].updating {
        return false;
      }
      slots := slots[row.id := slots[row.id].(updating := true, updateGeneration := row.slot.generation)];
      return true;
    }

    /** The ceiling change failed or is still rolling out: it is tried again after the debounce. */
    method DeferCapacityUpdate(slot: SlotIndex, generation: nat, now: int)
      requires run.Updating?
      modifies this`slots
      ensures Snapshot() == Step(old(Snapshot()), UpdateDeferred(slot, generation), now)
    {
      var row := slots[slot];
      if row.generation == generation {
        row := row.(debounceUntil := CapacityDebounceDeadline(now));
      }
      if row.updateGeneration == generation {
        row := row.(updating := false);
      }
      slots := slots[slot := row];
    }

    method ReleaseConfigurationCapacityHold(i: SlotIndex, now: int)
      modifies this`slots, this`operations
      ensures Snapshot() == ReleaseHold(old(Snapshot()), i, now)
    {
      if slots[i].state != Configuring || !slots[i].reclaimPending || slots[i].pending.None? {
        return;
      }
      var target := CapacityTarget(i, slots[i].pending.value.resources, slots[i].desired);
      var plan := PlanConfiguredCapacity(CapacityRows(slots), target, ACCOUNT_LIMIT);
      if plan.None? {
        return;
      }
      ScheduleCapacityReclamation(plan.value.reductions, now);
      if plan.value.reductions == [] {
        slots := slots[i := slots[i].(reclaimPending := false)];
      }
    }

    method ReleaseConfigurationCapacityHolds(now: int)
      modifies this`slots, this`operations
      ensures Snapshot() == ReleaseHolds(old(Snapshot()), CUSTOM_ROWS, now)
    {
      hide ReleaseHold;
      var rows := CUSTOM_ROWS;
      ghost var end := ReleaseHolds(Snapshot(), rows, now);
      assert rows[0..] == rows;
      for n := 0 to |rows|
        invariant ReleaseHolds(Snapshot(), rows[n..], now) == end
      {
        assert rows[n..][0] == rows[n] && rows[n..][1..] == rows[n + 1..];
        ReleaseConfigurationCapacityHold(rows[n], now);
      }
    }

    /** The end of the alarm. */
    method FinishAlarm(now: int)
      requires run.Updating? && run.due == []
      modifies this
      ensures Snapshot() == Step(old(Snapshot()), AlarmFinished, now)
    {
      hide ReleaseHolds, ScheduleAlarm, SchedulerModel.AdmitNext;
      ReleaseConfigurationCapacityHolds(now);
      AdmitNext(now);
      ScheduleWorkAlarmIfNeeded(now);
      run := NoRun;
    }

    // -------------------------------------------------------------- restart

    method ReconcileSlotReservations()
      modifies this`slots
      ensures Snapshot() == ReconcileReservations(old(Snapshot()))
    {
      for n := 0 to SLOTS
        invariant forall i :: 0 <= i < n ==> slots[i] == old(slots)[i].(reserved := |ActiveOn(jobs, i)|)
        invariant forall i :: n <= i < SLOTS ==> slots[i] == old(slots)[i]
      {
        var activeCount := |ActiveOn(jobs, n)|;
        if activeCount != slots[n].reserved {
          slots := slots[n := slots[n].(reserved := activeCount)];
        }
      }
      assert slots == ReconcileReservations(old(Snapshot())).slots;
    }

    method ReleaseCompletedJobsAwaitingContainerStop(now: int) returns (ids: seq<JobId>)
      modifies this`jobs, this`slots
      ensures AllReleasing(old(jobs), ids)
      ensures Snapshot() == ReleaseAll(old(Snapshot()), ids, now)
    {
      ids := ReleasingJobs();
      ghost var end := ReleaseAll(Snapshot(), ids, now);
      assert ids[0..] == ids;
      for n := 0 to |ids|
        invariant jobs.Keys == old(jobs.Keys)
        invariant ReleaseAll(Snapshot(), ids[n..], now) == end
      {
        assert ids[n..][0] == ids[n] && ids[n..][1..] == ids[n + 1..];
        assert ids[n] in ids;
        ReleaseJob(ids[n], jobs[ids[n]].slot, Completed, now);
      }
    }

    /** What the constructor does with the tables it finds. */
    method Restart(now: int) returns (releasing: seq<JobId>)
      modifies this
      ensures Possible(old(Snapshot()), Restarted(releasing), now)
      ensures Snapshot() == Step(old(Snapshot()), Restarted(releasing), now)
    {
      ReconcileSlotReservations();
      releasing := ReleaseCompletedJobsAwaitingContainerStop(now);
      RecoverStalledCapacityUpdates(now);
      ScheduleWorkAlarmIfNeeded(now);
      run := NoRun;
    }
  }
}
