/** The way of a job from its granted claim to the cache of its repository, and where it may end on that way. */
module SchedulerProvisioning {
  import opened SchedulerActs
  import opened SchedulerAssignments
  import opened SchedulerConfigurations
  import opened SchedulerModel
  import opened SchedulerPolicy
  import opened SchedulerRuns
  import opened Wrappers

  /** Nobody else uses the job's runner name. */
  ghost predicate NameIsOwn(s: State, id: JobId)
    requires id in s.jobs
  {
    forall other :: other in s.jobs && other != id ==> s.jobs[other].runnerName != s.jobs[id].runnerName
  }

  /** The job's runner was created with this identifier: the job knows it, and a row is of its repository and machine. */
  ghost predicate RunnerExists(s: State, id: JobId, runnerId: int) {
    && id in s.jobs && s.jobs[id].runnerId == Some(runnerId)
    && s.jobs[id].runnerName in s.runners
    && s.runners[s.jobs[id].runnerName]
         == JitRunner(id, s.jobs[id].repository, s.jobs[id].profile.key, runnerId, None, false)
  }

  function OwnReport(job: Job, id: JobId, runnerId: int): RunnerClaim {
    RunnerClaim(id, job.runnerName, Some(runnerId), job.repository, job.profile.key)
  }

  lemma {:induction false} ClaimStarts(s: State, id: JobId, now: int, t: State)
    requires id in s.jobs && s.jobs[id].status.Waiting() && NameIsOwn(s, id)
    requires ClaimProvisioning(s, id, s.jobs[id].runnerName).Provision?
    requires Leads(s, Claim(id, s.jobs[id].runnerName), now, t)
    ensures id in t.jobs && CanStart(t, id, s.jobs[id].runnerName) && t.jobs[id].ownerScoped && NameIsOwn(t, id)
    ensures t.jobs[id].repository == s.jobs[id].repository && t.jobs[id].runnerName == s.jobs[id].runnerName
  {
  }

  lemma {:induction false} CreationGivesRunner(s: State, id: JobId, runnerId: int, now: int, t: State)
    requires id in s.jobs && CanStart(s, id, s.jobs[id].runnerName) && NameIsOwn(s, id)
    requires Leads(s, RunnerCreated(id, s.jobs[id].runnerName, runnerId), now, t)
    ensures RunnerExists(t, id, runnerId) && t.jobs[id].status.Provisioning? && NameIsOwn(t, id)
    ensures t.jobs[id].repository == s.jobs[id].repository && t.jobs[id].runnerName == s.jobs[id].runnerName
  {
  }

  lemma {:induction false} StartedContainerRuns(s: State, id: JobId, runnerId: int, now: int, t: State)
    requires RunnerExists(s, id, runnerId) && s.jobs[id].status.Provisioning? && NameIsOwn(s, id)
    requires Leads(s, ContainerStarted(s.jobs[id].runnerName), now, t)
    ensures RunnerExists(t, id, runnerId) && t.jobs[id].status.Running? && NameIsOwn(t, id)
    ensures t.jobs[id].repository == s.jobs[id].repository && t.jobs[id].runnerName == s.jobs[id].runnerName
  {
  }

  lemma {:induction false} OwnReportGivesCache(s: State, id: JobId, runnerId: int, owner: Option<JobId>, now: int, t: State)
    requires RunnerExists(s, id, runnerId) && s.jobs[id].status.Running? && NameIsOwn(s, id)
    requires Leads(s, AssignmentReported(OwnReport(s.jobs[id], id, runnerId), owner), now, t)
    ensures id in t.jobs && t.jobs[id] == s.jobs[id].(assignmentObserved := true)
    ensures MayUseCacheOf(t, s.jobs[id].runnerName, s.jobs[id].repository, id)
  {
    assert owner == Some(id);
    hide AdmitNext, DueTimes;
  }

  /**
   * A job whose claim is granted, whose runner is created and started and then reported by GitHub for that job, runs and
   * may use the cache of its repository.
   */
  lemma {:induction false} ProvisionedJobGetsItsCache(
      s0: State, s1: State, s2: State, s3: State, s4: State, id: JobId, runnerId: int, owner: Option<JobId>, now: int)
    requires id in s0.jobs && s0.jobs[id].status.Waiting() && NameIsOwn(s0, id)
    requires ClaimProvisioning(s0, id, s0.jobs[id].runnerName).Provision?
    requires Leads(s0, Claim(id, s0.jobs[id].runnerName), now, s1)
    requires Leads(s1, RunnerCreated(id, s0.jobs[id].runnerName, runnerId), now, s2)
    requires Leads(s2, ContainerStarted(s0.jobs[id].runnerName), now, s3)
    requires id in s3.jobs && Leads(s3, AssignmentReported(OwnReport(s3.jobs[id], id, runnerId), owner), now, s4)
    ensures id in s4.jobs && s4.jobs[id].status.Running? && s4.jobs[id].runnerId == Some(runnerId)
    ensures MayUseCacheOf(s4, s0.jobs[id].runnerName, s0.jobs[id].repository, id)
  {
    hide Leads, NameIsOwn, RunnerExists, MayUseCacheOf, ClaimProvisioning, CanStart, OwnReport;
    ClaimStarts(s0, id, now, s1);
    CreationGivesRunner(s1, id, runnerId, now, s2);
    StartedContainerRuns(s2, id, runnerId, now, s3);
    OwnReportGivesCache(s3, id, runnerId, owner, now, s4);
    assert RunnerExists(s3, id, runnerId);
    KnowsItsRunner(s3, id, runnerId);
  }

  lemma {:induction false} KnowsItsRunner(s: State, id: JobId, runnerId: int)
    requires RunnerExists(s, id, runnerId)
    ensures s.jobs[id].runnerId == Some(runnerId)
  {
  }

  /** A failure report ends a job exactly while it is being provisioned under the reported name. */
  lemma {:induction false} FailureEndsExactlyWhen(s: State, id: JobId, name: string, now: int, t: State)
    requires Leads(s, ProvisioningFailure(id, name), now, t) && id in s.jobs && !s.jobs[id].status.Failed?
    ensures id in t.jobs
    ensures t.jobs[id].status.Failed? <==> s.jobs[id].status.Provisioning? && s.jobs[id].runnerName == name
    ensures !t.jobs[id].status.Failed? ==> t == s
  {
    StepSplits(s, ProvisioningFailure(id, name), now);
    AdmitNextJobs(Acted(s, ProvisioningFailure(id, name), now), now);
    hide AdmitNext, DueTimes, ReleasedSlot;
  }

  /**
   * The owner of a configuration, when it reports it done, leaves the slot ready with the new machine, nothing pending
   * and no hold; whoever else reports changes no slot's machine.
   */
  lemma {:induction false} ConfigurationEndsExactlyForOwner(s: State, id: JobId, now: int, i: SlotIndex)
    requires id in s.jobs && s.jobs[id].slot == Some(i) && s.slots[i].state == Configuring && s.slots[i].pending.Some?
    ensures var row := Acted(s, ConfigurationReported(id), now).slots[i];
      if OwnsConfiguration(s, id, i) then
        && row.state == Ready && row.shape == s.slots[i].pending && row.pending.None?
        && row.configurationOwner.None? && !row.reclaimPending
        && row.reserved == s.slots[i].reserved && row.applied == s.slots[i].applied && row.desired == s.slots[i].desired
      else row == s.slots[i]
  {
    hide AdmitNext, ScheduleAlarm;
  }

  /** The last job to leave a slot that is being configured makes it idle again, for any machine. */
  lemma {:induction false} EmptiedConfigurationIsDropped(s: State, id: JobId, i: SlotIndex, status: Status, now: int)
    requires id in s.jobs && s.slots[i].state == Configuring
    ensures var row := ReleaseJob(s, id, Some(i), status, now).slots[i];
      && (s.slots[i].reserved <= 1 <==> row.state == Idle)
      && (row.state == Idle ==> row.configurationOwner.None? && row.reserved == 0)
      && (row.state != Idle ==> row.state == Configuring && row.configurationOwner == s.slots[i].configurationOwner)
      && row.lastReleasedAt == now
  {
  }
}
