/** A run from the first start in which a configuration is left with nobody to finish it, and a job waits for that. */
module SchedulerDesertion {
  import opened AccountResources
  import opened SchedulerActs
  import opened SchedulerAdmissions
  import opened SchedulerConfigurations
  import opened SchedulerMachines
  import opened SchedulerModel
  import opened SchedulerPolicy
  import opened SchedulerRuns
  import opened SchedulerStorySteps
  import opened Wrappers

  /** A profile of a custom machine no larger than the largest preset. */
  predicate Modest(profile: Profile) {
    profile.custom && profile.resources.NonNegative() && profile.resources.Within(LARGEST)
  }

  /** Only the slot with this row, if any, differs from how the tables start. */
  ghost predicate OnlyDiffers(slots: SlotTable, i: SlotIndex) {
    i < CUSTOM_SLOTS && slots == InitialSlots()[i := slots[i]]
  }

  const LARGER := Resources(128, 24_576, 40_000)

  lemma {:induction false} RowsAreSmall(slots: SlotTable, i: SlotIndex, j: SlotIndex)
    requires OnlyDiffers(slots, i) && j != i
    ensures CapacityRow(j, slots[j]).Cost().Within(LARGER)
  {
  }

  lemma {:induction false} TotalIsModest(costs: seq<Resources>)
    requires forall k :: 0 <= k < |costs| ==> costs[k].Within(LARGER)
    ensures Total(costs).Within(LARGER.Times(|costs|))
  {
    if costs != [] {
      var rest := costs[..|costs| - 1];
      assert forall k :: 0 <= k < |rest| ==> rest[k] == costs[k];
      TotalIsModest(rest);
    }
  }

  lemma {:induction false} ModestFits(slots: SlotTable, i: SlotIndex, profile: Profile, target: int)
    requires OnlyDiffers(slots, i) && Modest(profile) && 1 <= target <= 2
    ensures FitsAsItIs(slots, i, profile.resources, target)
    ensures var plan := PlanOn(slots, i, profile.resources, target); plan.Some? && plan.value.reductions == []
  {
    var rows := CapacityRows(slots);
    IndexOfIndexed(rows, i);
    var costs := Costs(WithTarget(rows, CapacityTarget(i, profile.resources, target)));
    forall k | 0 <= k < |costs|
      ensures costs[k].Within(LARGER)
    {
      if k != i {
        RowsAreSmall(slots, i, k);
      }
    }
    TotalIsModest(costs);
    NothingToReclaimExactlyWhen(slots, i, profile.resources, target);
    hide PlanOn, InitialSlots;
  }

  /** The slot for the first job is a fresh one, and the second job shares it. */
  lemma {:induction false} FirstSlot(profile: Profile) returns (i: SlotIndex)
    requires Modest(profile)
    ensures i < CUSTOM_SLOTS && SelectSlot(InitialSlots(), profile) == Some(SelectedSlot(i, true))
    ensures InitialSlots()[i] == EmptySlot(None)
  {
    CustomSlotExactlyWhen(InitialSlots(), profile);
    assert MayBeConfigured(InitialSlots()[0]);
    hide SelectSlot;
    i := SelectSlot(InitialSlots(), profile).value.slotId;
  }

  lemma {:induction false} SharedSlot(slots: SlotTable, i: SlotIndex, profile: Profile)
    requires Modest(profile) && OnlyDiffers(slots, i) && HasMachine(slots[i], profile.key)
    ensures SelectSlot(slots, profile) == Some(SelectedSlot(i, false))
  {
    CustomSlotExactlyWhen(slots, profile);
    hide SelectSlot;
    forall j: SlotIndex | j < CUSTOM_SLOTS && j != i
      ensures !HasMachine(slots[j], profile.key)
    {
    }
  }

  lemma {:induction false} FewFit(jobs: map<JobId, Job>, profile: Profile, n: nat)
    requires Modest(profile) && |ActiveIds(jobs)| <= n <= 2 && forall id :: id in jobs ==> jobs[id].profile == profile
    ensures FitsAccountCapacity(ReservedResources(jobs), profile.resources, ACCOUNT_LIMIT)
  {
    FewTotal(jobs, ActiveIds(jobs), profile);
    hide TotalOf, ActiveIds;
  }

  lemma {:induction false} FewTotal(jobs: map<JobId, Job>, ids: set<JobId>, profile: Profile)
    requires ids <= jobs.Keys && Modest(profile) && forall id :: id in jobs ==> jobs[id].profile == profile
    ensures TotalOf(jobs, ids).Within(LARGEST.Times(|ids|))
    decreases |ids|
  {
    if ids != {} {
      var id :| id in ids && TotalOf(jobs, ids) == jobs[id].profile.resources.Plus(TotalOf(jobs, ids - {id}));
      assert id in jobs;
      FewTotal(jobs, ids - {id}, profile);
      assert |ids - {id}| == |ids| - 1;
      assert TotalOf(jobs, ids) == profile.resources.Plus(TotalOf(jobs, ids - {id}));
      hide TotalOf;
    }
  }

  /** A queued job is admitted to the slot. */
  lemma {:induction false} Joins(s: State, id: JobId, i: SlotIndex, configure: bool, now: int)
    requires OnlyQueued(s.jobs, id) && OnlyDiffers(s.slots, i) && Modest(s.jobs[id].profile)
    requires forall other :: other in s.jobs ==> s.jobs[other].profile == s.jobs[id].profile
    requires |ActiveIds(s.jobs)| <= 2 && s.slots[i].reserved <= 1 && (configure || s.slots[i].state == Configuring)
    requires SelectSlot(s.slots, s.jobs[id].profile) == Some(SelectedSlot(i, configure))
    ensures AdmitNext(s, now) == Admit(s, id, SelectedSlot(i, configure), [], now)
    ensures Takes(s, AdmitNext(s, now), id, i) && OnlyDiffers(AdmitNext(s, now).slots, i)
  {
    hide SelectSlot, PlanOn, ReservedResources, FitsAccountCapacity, InitialSlots, FitsAsItIs, AdmitNext, AdmittedSlot;
    hide Admit, ActiveIds;
    var profile := s.jobs[id].profile;
    OnlyQueuedIsNext(s.jobs, id);
    FewFit(s.jobs, profile, 2);
    ModestFits(s.slots, i, profile, s.slots[i].reserved + 1);
    AdmitNextIs(s, id, SelectedSlot(i, configure), now);
    RowOfAdmission(s, id, i, configure, [], now);
    OtherRowsStay(s, id, i, configure, now);
  }

  lemma {:induction false} OtherRowsStay(s: State, id: JobId, i: SlotIndex, configure: bool, now: int)
    requires id in s.jobs && OnlyDiffers(s.slots, i)
    ensures OnlyDiffers(Admit(s, id, SelectedSlot(i, configure), [], now).slots, i)
  {
    hide InitialSlots, AdmittedSlot, TargetMaxInstances;
  }

  function Waiting(name: string, repository: string, profile: Profile): Job {
    NewJob(name, repository, profile, 0)
  }

  lemma {:induction false} FirstJoins(first: string, repository: string, profile: Profile) returns (t: State, i: SlotIndex)
    requires Modest(profile)
    ensures Leads(Initial(), Submit(1, first, repository, profile), 0, t)
    ensures OnlyDiffers(t.slots, i) && OwnsConfiguration(t, 1, i)
    ensures t.slots[i].pending == Some(MachineOf(profile)) && t.slots[i].reserved == 1
    ensures t.jobs == map[1 := Waiting(first, repository, profile).(status := Admitted, slot := Some(i))]
  {
    hide SelectSlot, InitialSlots, DueTimes, AdmitNext, Admit, Leads, OwnsConfiguration, FitsAsItIs, ActiveIds;
    i := FirstSlot(profile);
    FirstIsAdmitted(first, repository, profile, i);
    t := Submission(Initial(), 1, first, repository, profile);
    NoJobsYet();
    var queued := Initial().(jobs := Initial().jobs[1 := Waiting(first, repository, profile)]);
    SameOwner(AdmitNext(queued, 0), t, i);
  }

  lemma {:induction false} NoJobsYet()
    ensures Initial().jobs == map[]
  {
  }

  lemma {:induction false} FirstIsAdmitted(first: string, repository: string, profile: Profile, i: SlotIndex)
    requires Modest(profile) && i < CUSTOM_SLOTS
    requires SelectSlot(InitialSlots(), profile) == Some(SelectedSlot(i, true)) && InitialSlots()[i] == EmptySlot(None)
    ensures var queued := Initial().(jobs := Initial().jobs[1 := Waiting(first, repository, profile)]);
      var t := AdmitNext(queued, 0);
      && OnlyDiffers(t.slots, i) && OwnsConfiguration(t, 1, i)
      && t.slots[i].pending == Some(MachineOf(profile)) && t.slots[i].reserved == 1
      && t.jobs == map[1 := Waiting(first, repository, profile).(status := Admitted, slot := Some(i))]
  {
    hide SelectSlot, InitialSlots, AdmitNext, Admit, AdmittedSlot, FitsAsItIs;
    var queued := Initial().(jobs := Initial().jobs[1 := Waiting(first, repository, profile)]);
    NoJobsYet();
    assert queued.jobs == map[1 := Waiting(first, repository, profile)];
    assert ActiveIds(queued.jobs) == {} && OnlyDiffers(queued.slots, i);
    Joins(queued, 1, i, true, 0);
    ConfiguringAdmission(queued, 0, 1, i);
    RowOfAdmission(queued, 1, i, true, [], 0);
    UpdatedTwice(map[], 1, queued.jobs[1], queued.jobs[1].(status := Admitted, slot := Some(i)));
  }

  lemma {:induction false} SameOwner(s: State, t: State, i: SlotIndex)
    requires s.slots == t.slots
    ensures forall id :: OwnsConfiguration(s, id, i) == OwnsConfiguration(t, id, i)
  {
  }

  /** A job with the machine that slot `i` is being given is queued, and the other job is on the slot. */
  ghost predicate Shares(s: State, i: SlotIndex, profile: Profile) {
    && Modest(profile) && OnlyDiffers(s.slots, i) && OwnsConfiguration(s, 1, i)
    && s.slots[i].pending == Some(MachineOf(profile)) && s.slots[i].reserved == 1
    && s.jobs.Keys == {1, 2} && s.jobs[1].profile == s.jobs[2].profile == profile
    && s.jobs[1].status.Admitted? && s.jobs[2].status.Queued?
  }

  lemma {:induction false} SecondFits(s: State, i: SlotIndex, profile: Profile)
    requires Shares(s, i, profile)
    ensures |ActiveIds(s.jobs)| <= 2 && OnlyQueued(s.jobs, 2)
    ensures SelectSlot(s.slots, profile) == Some(SelectedSlot(i, false))
  {
    assert ActiveIds(s.jobs) == {1} && |ActiveIds(s.jobs)| == 1;
    assert HasMachine(s.slots[i], profile.key);
    SharedSlot(s.slots, i, profile);
    hide SelectSlot, InitialSlots;
  }

  lemma {:induction false} SecondIsAdmitted(s: State, i: SlotIndex, profile: Profile)
    requires Shares(s, i, profile)
    ensures var t := AdmitNext(s, 0);
      && OnlyDiffers(t.slots, i) && OwnsConfiguration(t, 1, i) && t.slots[i].reserved == 2
      && t.jobs == s.jobs[2 := s.jobs[2].(status := Admitted, slot := Some(i))]
  {
    SecondFits(s, i, profile);
    hide ActiveIds, OnlyQueued, OnlyDiffers, Modest, SelectSlot, InitialSlots, AdmitNext, FitsAsItIs, Admit;
    Joins(s, 2, i, false, 0);
    JoiningAdmission(s, 0, 2, i);
    RowOfAdmission(s, 2, i, false, [], 0);
  }

  lemma {:induction false} SecondJoins(s: State, i: SlotIndex, second: string, repository: string, profile: Profile)
    returns (t: State)
    requires Modest(profile) && OnlyDiffers(s.slots, i) && OwnsConfiguration(s, 1, i)
    requires s.slots[i].pending == Some(MachineOf(profile)) && s.slots[i].reserved == 1
    requires s.jobs.Keys == {1} && s.jobs[1].profile == profile && s.jobs[1].status.Admitted?
    ensures Leads(s, Submit(2, second, repository, profile), 0, t)
    ensures OnlyDiffers(t.slots, i) && OwnsConfiguration(t, 1, i) && t.slots[i].reserved == 2
    ensures t.jobs == s.jobs[2 := Waiting(second, repository, profile).(status := Admitted, slot := Some(i))]
  {
    hide Leads, Step, Possible, OnlyDiffers, Modest, AdmitNext, InitialSlots, Shares, OwnsConfiguration, MachineOf;
    var queued := s.(jobs := s.jobs[2 := Waiting(second, repository, profile)]);
    SecondIsQueued(s, i, second, repository, profile);
    SecondIsAdmitted(queued, i, profile);
    t := Submission(s, 2, second, repository, profile);
    SameOwner(AdmitNext(queued, 0), t, i);
    UpdatedTwice(s.jobs, 2, queued.jobs[2], queued.jobs[2].(status := Admitted, slot := Some(i)));
  }

  lemma {:induction false} UpdatedTwice(jobs: map<JobId, Job>, id: JobId, first: Job, second: Job)
    ensures jobs[id := first][id := second] == jobs[id := second]
  {
  }

  lemma {:induction false} SecondIsQueued(s: State, i: SlotIndex, second: string, repository: string, profile: Profile)
    requires Modest(profile) && OnlyDiffers(s.slots, i) && OwnsConfiguration(s, 1, i)
    requires s.slots[i].pending == Some(MachineOf(profile)) && s.slots[i].reserved == 1
    requires s.jobs.Keys == {1} && s.jobs[1].profile == profile && s.jobs[1].status.Admitted?
    ensures Shares(s.(jobs := s.jobs[2 := Waiting(second, repository, profile)]), i, profile)
  {
    hide Modest, OnlyDiffers, InitialSlots;
    assert s.jobs[2 := Waiting(second, repository, profile)].Keys == {1, 2};
  }

  lemma {:induction false} Submission(s: State, id: JobId, name: string, repository: string, profile: Profile)
    returns (t: State)
    requires id !in s.jobs
    ensures Leads(s, Submit(id, name, repository, profile), 0, t)
    ensures SameTables(t, AdmitNext(s.(jobs := s.jobs[id := Waiting(name, repository, profile)]), 0))
  {
    hide AdmitNext, DueTimes;
    t := Submitted(s, id, name, repository, profile, 0);
  }

  lemma {:induction false} OwnerIsCancelled(s: State, i: SlotIndex) returns (t: State)
    requires OwnsConfiguration(s, 1, i) && s.slots[i].reserved == 2 && s.jobs.Keys == {1, 2}
    requires s.jobs[1].status.Admitted? && s.jobs[1].slot == s.jobs[2].slot == Some(i) && s.jobs[2].status.Admitted?
    ensures Leads(s, CompletionReported(1), 0, t)
    ensures OwnsConfiguration(t, 1, i)
    ensures t.jobs == s.jobs[1 := s.jobs[1].(status := Cancelled, recoveryDue := None)]
  {
    var released := ReleaseJob(s, 1, Some(i), Cancelled, 0);
    NothingToAdmit(released, 0);
    hide AdmitNext, DueTimes;
    t := ScheduleAlarm(released, 0);
  }

  /**
   * Two jobs ask for the same new machine and share its slot. The first, which is to configure it, is cancelled before it
   * starts; the slot goes on being configured with nobody to do it, and the second job's claim has to wait.
   */
  lemma {:induction false} CancelledOwnerLeavesAJobWaiting(
      first: string, second: string, repository: string, profile: Profile) returns (run: Run, i: SlotIndex)
    requires Modest(profile)
    ensures run.Valid() && |run.moments| == 3 && run.moments[2].event == CompletionReported(1)
    ensures var s := run.states[3];
      && !IsTended(s, i) && HoldsSlot(s, 2, i) && s.jobs[2].status.Waiting()
      && ClaimProvisioning(s, 2, s.jobs[2].runnerName) == Wait
  {
    hide Initial, Leads, OnlyDiffers, InitialSlots, Modest;
    run := NoStepsYet();
    var s, t, u;
    s, i := FirstJoins(first, repository, profile);
    run := Extend(run, Initial(), 0, Submit(1, first, repository, profile), 0, s);
    t := SecondJoins(s, i, second, repository, profile);
    run := Extend(run, s, 0, Submit(2, second, repository, profile), 0, t);
    assert t.jobs.Keys == {1, 2};
    u := OwnerIsCancelled(t, i);
    run := Extend(run, t, 0, CompletionReported(1), 0, u);
    UntendedMakesWait(u, 2, i);
  }
}
