/**
 * Reservation accounting: what one step does to `reserved_count`, to the ceilings and to the jobs recorded on a slot.
 */
module SchedulerCapacity {
  import opened AccountResources
  import opened SchedulerModel
  import opened SchedulerPolicy
  import opened Wrappers

  /** How far a slot's reserved count is above its number of active jobs. */
  function Surplus(s: State, i: SlotIndex): int {
    s.slots[i].reserved - |ActiveOn(s.jobs, i)|
  }

  /** A queued job has given up its slot. */
  ghost predicate QueuedHaveNoSlot(jobs: map<JobId, Job>) {
    forall id :: id in jobs && jobs[id].status.Queued? ==> jobs[id].slot.None?
  }

  /** The desired ceiling covers the reserved count. */
  ghost predicate Covered(s: State, i: SlotIndex) {
    s.slots[i].reserved <= s.slots[i].desired
  }

  /** No slot has fewer reservations than active jobs. */
  ghost predicate CountsOk(s: State) {
    forall i: SlotIndex :: 0 <= Surplus(s, i)
  }

  /** Admissions on a slot raise its generation. */
  ghost predicate GenerationGuards(s: State, t: State, i: SlotIndex) {
    && s.slots[i].generation <= t.slots[i].generation
    && (s.slots[i].generation == t.slots[i].generation && ActiveOn(s.jobs, i) == {} ==> ActiveOn(t.jobs, i) == {})
  }

  /** The surplus changes by `delta`; a desired ceiling that covers the reservations goes on covering them. */
  ghost predicate Shifted(s: State, t: State, i: SlotIndex, delta: int) {
    && Surplus(t, i) == Surplus(s, i) + delta
    && (Covered(s, i) ==> Covered(t, i))
    && GenerationGuards(s, t, i)
    && (QueuedHaveNoSlot(s.jobs) ==> QueuedHaveNoSlot(t.jobs))
  }

  /** The surplus is kept. */
  ghost predicate Balanced(s: State, t: State, i: SlotIndex) {
    Shifted(s, t, i, 0)
  }

  lemma {:induction false} ShiftsAdd(s: State, t: State, u: State, i: SlotIndex, first: int, second: int)
    requires Shifted(s, t, i, first) && Shifted(t, u, i, second)
    ensures Shifted(s, u, i, first + second)
  {
    hide Surplus, ActiveOn, Covered, QueuedHaveNoSlot;
  }

  // ---------------------------------------------------------------- counting

  /** Rewriting one job moves it from the slot it held to the slot it holds now. */
  lemma {:induction false} PutCount(jobs: map<JobId, Job>, id: JobId, job: Job, i: SlotIndex)
    ensures |ActiveOn(jobs[id := job], i)|
        == |ActiveOn(jobs, i)| - (if id in jobs && jobs[id].Holds() == Some(i) then 1 else 0)
             + (if job.Holds() == Some(i) then 1 else 0)
    ensures job.Holds() != Some(i) ==> ActiveOn(jobs[id := job], i) == ActiveOn(jobs, i) - {id}
  {
    var rest := ActiveOn(jobs, i) - {id};
    forall other
      ensures other in ActiveOn(jobs[id := job], i) <==> other in rest || (other == id && job.Holds() == Some(i))
    {
    }
    hide ActiveOn;
    assert ActiveOn(jobs[id := job], i) == if job.Holds() == Some(i) then rest + {id} else rest;
    assert id in ActiveOn(jobs, i) <==> id in jobs && jobs[id].Holds() == Some(i) by {
      HeldBy(jobs, id, i);
    }
  }

  lemma {:induction false} HeldBy(jobs: map<JobId, Job>, id: JobId, i: SlotIndex)
    ensures id in ActiveOn(jobs, i) <==> id in jobs && jobs[id].Holds() == Some(i)
  {
  }

  ghost predicate SameHolds(before: map<JobId, Job>, after: map<JobId, Job>) {
    && after.Keys == before.Keys
    && forall id :: id in before ==> after[id].Holds() == before[id].Holds()
  }

  lemma {:induction false} SameHoldsSameJobs(before: map<JobId, Job>, after: map<JobId, Job>, i: SlotIndex)
    requires SameHolds(before, after)
    ensures ActiveOn(after, i) == ActiveOn(before, i)
  {
  }

  /** Nothing a reservation depends on changes in a slot row. */
  ghost predicate RowKept(a: Slot, b: Slot) {
    b.reserved == a.reserved && (a.reserved <= a.desired ==> a.reserved <= b.desired) && a.generation <= b.generation
  }

  ghost predicate RowsKept(a: SlotTable, b: SlotTable) {
    forall i: SlotIndex :: RowKept(a[i], b[i])
  }

  lemma {:induction false} KeptIsBalanced(s: State, t: State, i: SlotIndex)
    requires SameHolds(s.jobs, t.jobs) && RowKept(s.slots[i], t.slots[i])
    requires QueuedHaveNoSlot(s.jobs) ==> QueuedHaveNoSlot(t.jobs)
    ensures Balanced(s, t, i)
  {
    SameHoldsSameJobs(s.jobs, t.jobs, i);
  }

  // ---------------------------------------------------------------- release

  /** A job that is released, and the slot that is given a reservation back for it. */
  datatype Freeing = Freeing(id: JobId, slot: Option<SlotIndex>)

  /** What a release does to the surplus of slot `i`: the job leaves the slot it holds, the named slot gives one back. */
  function Drift(s: State, freeing: Freeing, i: SlotIndex): int
    requires freeing.id in s.jobs
  {
    (if s.jobs[freeing.id].Holds() == Some(i) then 1 else 0)
    - (if freeing.slot == Some(i) && s.slots[i].reserved > 0 then 1 else 0)
  }

  /** Releasing any job from any slot. */
  lemma {:induction false} ReleaseShifts(s: State, id: JobId, slot: Option<SlotIndex>, status: Status, now: int, i: SlotIndex)
    requires id in s.jobs && status.Terminal()
    ensures Shifted(s, ReleaseJob(s, id, slot, status, now), i, Drift(s, Freeing(id, slot), i))
    ensures var t := ReleaseJob(s, id, slot, status, now); slot == Some(i) ==> Covered(t, i)
    ensures var t := ReleaseJob(s, id, slot, status, now); slot != Some(i) ==> t.slots[i] == s.slots[i]
  {
    var t := ReleaseJob(s, id, slot, status, now);
    PutCount(s.jobs, id, t.jobs[id], i);
    hide ActiveOn;
    assert ActiveOn(s.jobs, i) == {} ==> ActiveOn(t.jobs, i) == {};
  }

  // ---------------------------------------------------------------- admission

  lemma {:induction false} ReclaimTargets(
      slots: seq<CapacitySlot>, donors: seq<nat>, configured: Resources, limit: Resources, r: Reduction)
    requires HaveResources(slots, donors)
    requires forall i :: 0 <= i < |donors| ==> slots[donors[i]].applied > 1
    requires r in Reclaim(slots, donors, configured, limit).1
    ensures exists i :: 0 <= i < |donors| && r.slotId == slots[donors[i]].slotId
    ensures 1 <= r.target
    decreases |donors|
  {
    var donor := slots[donors[0]];
    var cut := Cut(donor, configured, limit);
    var next := configured.Minus(donor.resources.value.Times(cut));
    hide Resources.Times, ReductionUnitsNeeded;
    if cut == 0 || r != Reduction(donor.slotId, donor.applied - cut) {
      ReclaimTargets(slots, donors[1..], next, limit, r);
      var i :| 0 <= i < |donors[1..]| && r.slotId == slots[donors[1..][i]].slotId;
      assert donors[i + 1] == donors[1..][i];
    }
  }

  /** A plan never lowers the slot it is made for, and no ceiling below one. */
  lemma {:induction false} PlanSparesTarget(
      slots: SlotTable, id: SlotIndex, resources: Resources, target: int, r: Reduction)
    requires PlanOn(slots, id, resources, target).Some?
    requires r in PlanOn(slots, id, resources, target).value.reductions
    ensures r.slotId != id && 1 <= r.target
  {
    var rows := CapacityRows(slots);
    var donors := Donors(rows, id, |rows|);
    assert forall i :: 0 <= i < |donors| ==> donors[i] in donors;
    hide ConfiguredCapacity;
    ReclaimTargets(rows, donors, ConfiguredCapacity(WithTarget(rows, CapacityTarget(id, resources, target))), ACCOUNT_LIMIT, r);
  }

  /** Reclamation only rewrites the desired ceiling of unreserved slots that are not the target. */
  lemma {:induction false} ReclamationKeepsRows(
      slots: SlotTable, operations: Operations, reductions: seq<Reduction>, now: int, i: SlotIndex)
    requires forall r :: r in reductions ==> 1 <= r.target
    ensures var a, b := slots[i], ScheduleReclamation(slots, operations, reductions, now).0[i];
      && RowKept(a, b)
      && b == a.(desired := b.desired, debounceUntil := b.debounceUntil, generation := b.generation)
      && ((forall r :: r in reductions ==> r.slotId != i) ==> b == a)
    decreases |reductions|
  {
    if reductions != [] {
      assert reductions == [reductions[0]] + reductions[1..];
      var (id, target) := (reductions[0].slotId, reductions[0].target);
      if id < SLOTS && MayReclaim(slots[id], target) {
        var generation := slots[id].generation + 1;
        ReclamationKeepsRows(
          slots[id := slots[id].(desired := target, debounceUntil := 0, generation := generation)],
          RecordOperation(operations, id, generation, target, now), reductions[1..], now, i);
      } else {
        ReclamationKeepsRows(slots, operations, reductions[1..], now, i);
      }
    }
  }

  lemma {:induction false} AdmitBalanced(
      s: State, id: JobId, selected: SelectedSlot, reductions: seq<Reduction>, now: int, i: SlotIndex)
    requires id in s.jobs && s.jobs[id].status.Queued? && selected.slotId < SLOTS
    requires forall r :: r in reductions ==> 1 <= r.target && r.slotId != selected.slotId
    ensures Balanced(s, Admit(s, id, selected, reductions, now), i)
  {
    PutCount(s.jobs, id, Admit(s, id, selected, reductions, now).jobs[id], i);
    ReclamationKeepsRows(s.slots, s.operations, reductions, now, i);
    hide ActiveOn;
  }

  lemma {:induction false} AdmitNextBalanced(s: State, now: int, i: SlotIndex)
    ensures Balanced(s, AdmitNext(s, now), i)
  {
    var t := AdmitNext(s, now);
    if t == s {
      KeptIsBalanced(s, t, i);
    } else {
      var id := NextQueued(s.jobs).value;
      assert IsNextQueued(s.jobs, id);
      var profile, selected := s.jobs[id].profile, SelectSlot(s.slots, s.jobs[id].profile).value;
      var target := TargetMaxInstances(s.slots[selected.slotId], selected.requiresConfiguration);
      var plan := PlanOn(s.slots, selected.slotId, profile.resources, target).value;
      forall r | r in plan.reductions
        ensures 1 <= r.target && r.slotId != selected.slotId
      {
        PlanSparesTarget(s.slots, selected.slotId, profile.resources, target, r);
      }
      hide Admit;
      AdmitBalanced(s, id, selected, plan.reductions, now, i);
    }
  }
}
