/** Which job an admission takes, when there is one, and what becomes of the plan it was granted on. */
module SchedulerAdmissions {
  import opened AccountResources
  import opened CapacityPlanning
  import opened SchedulerActs
  import opened SchedulerEndings
  import opened SchedulerModel
  import opened SchedulerPolicy
  import opened SchedulerRuns
  import opened Wrappers

  // ---------------------------------------------------------------- the reductions of a plan

  /** The slot is idle and may be lowered to the target, which is less than it has and not less than one. */
  predicate Lowerable(slot: Slot, target: int) {
    slot.state == Ready && slot.reserved == 0 && !slot.updating && 1 <= target < slot.applied
  }

  ghost predicate Reducible(slots: SlotTable, reductions: seq<Reduction>) {
    && (forall i :: 0 <= i < |reductions| ==>
          reductions[i].slotId < SLOTS && Lowerable(slots[reductions[i].slotId], reductions[i].target))
    && (forall i, j :: 0 <= i < j < |reductions| ==> reductions[i].slotId != reductions[j].slotId)
  }

  /** The indices of donors other than the target, in the order in which they are drained. */
  ghost predicate DonorsOf(slots: SlotTable, donors: seq<nat>, target: SlotId) {
    && (forall i :: 0 <= i < |donors| ==> donors[i] < SLOTS && IsDonor(CapacityRow(donors[i], slots[donors[i]]), target))
    && (forall i, j :: 0 <= i < j < |donors| ==> donors[i] != donors[j])
  }

  lemma {:induction false} DonorGives(slots: SlotTable, donor: SlotIndex, configured: Resources, target: SlotId)
    requires IsDonor(CapacityRow(donor, slots[donor]), target)
    ensures var row := CapacityRow(donor, slots[donor]);
      && donor != target && row.resources.Some? && row.slotId == donor
      && var cut := Cut(row, configured, ACCOUNT_LIMIT); 0 <= cut && (cut != 0 ==> Lowerable(slots[donor], row.applied - cut))
  {
  }

  lemma {:induction false} DonorsHaveResources(slots: SlotTable, donors: seq<nat>, target: SlotId)
    requires DonorsOf(slots, donors, target)
    ensures HaveResources(CapacityRows(slots), donors)
    ensures forall i :: 0 <= i < |donors| ==> CapacityRows(slots)[donors[i]] == CapacityRow(donors[i], slots[donors[i]])
  {
  }

  lemma {:induction false} OneMoreReduces(slots: SlotTable, r: Reduction, rest: seq<Reduction>)
    requires r.slotId < SLOTS && Lowerable(slots[r.slotId], r.target) && Reducible(slots, rest)
    requires forall other :: other in rest ==> other.slotId != r.slotId
    ensures Reducible(slots, [r] + rest)
  {
    hide Lowerable;
  }

  lemma {:induction false} ReclaimReduces(slots: SlotTable, donors: seq<nat>, configured: Resources, target: SlotId)
    requires DonorsOf(slots, donors, target) && HaveResources(CapacityRows(slots), donors)
    ensures var reductions := Reclaim(CapacityRows(slots), donors, configured, ACCOUNT_LIMIT).1;
      Reducible(slots, reductions) && forall r :: r in reductions ==> r.slotId != target && r.slotId in donors
    decreases |donors|
  {
    hide CapacityRows, CapacityRow, Cut, Resources.Times, IsDonor, Lowerable, Reducible, DonorsOf;
    var rows := CapacityRows(slots);
    DonorsHaveResources(slots, donors, target);
    if donors != [] && !configured.Within(ACCOUNT_LIMIT) {
      RestOfDonors(slots, donors, target);
      DonorGives(slots, donors[0], configured, target);
      var cut := Cut(rows[donors[0]], configured, ACCOUNT_LIMIT);
      var next := configured.Minus(rows[donors[0]].resources.value.Times(cut));
      ReclaimReduces(slots, donors[1..], next, target);
      if cut != 0 {
        var rest := Reclaim(rows, donors[1..], next, ACCOUNT_LIMIT).1;
        OneMoreReduces(slots, Reduction(donors[0], rows[donors[0]].applied - cut), rest);
      }
    } else {
      NothingReduces(slots);
    }
  }

  lemma {:induction false} NothingReduces(slots: SlotTable)
    ensures Reducible(slots, [])
  {
  }

  lemma {:induction false} RestOfDonors(slots: SlotTable, donors: seq<nat>, target: SlotId)
    requires DonorsOf(slots, donors, target) && donors != []
    ensures DonorsOf(slots, donors[1..], target) && donors[0] !in donors[1..] && donors[0] < SLOTS
    ensures IsDonor(CapacityRow(donors[0], slots[donors[0]]), target)
    ensures forall i :: i in donors <==> i == donors[0] || i in donors[1..]
  {
    hide IsDonor;
    assert donors == [donors[0]] + donors[1..];
  }

  lemma {:induction false} PlanReduces(slots: SlotTable, id: SlotIndex, resources: Resources, target: int)
    requires PlanOn(slots, id, resources, target).Some?
    ensures var reductions := PlanOn(slots, id, resources, target).value.reductions;
      Reducible(slots, reductions) && forall r :: r in reductions ==> r.slotId != id
  {
    var rows := CapacityRows(slots);
    var donors := Donors(rows, id, |rows|);
    assert forall i :: 0 <= i < |donors| ==> donors[i] in donors;
    assert DonorsOf(slots, donors, id);
    DonorsHaveResources(slots, donors, id);
    hide Reclaim, ConfiguredCapacity, CapacityRow;
    ReclaimReduces(slots, donors, ConfiguredCapacity(WithTarget(rows, CapacityTarget(id, resources, target))), id);
  }

  // ---------------------------------------------------------------- carrying them out

  /** The slot is to be lowered at once, by an operation that was recorded now. */
  ghost predicate Lowered(s: State, t: State, i: SlotIndex, now: int) {
    var a, b := s.slots[i], t.slots[i];
    var key := OperationKey(i, b.generation);
    && Lowerable(a, b.desired)
    && b == a.(desired := b.desired, debounceUntil := b.debounceUntil, generation := a.generation + 1)
    && (forall time :: UpdateDue(b, time))
    && key in t.operations && t.operations[key] == Operation(b.desired, Pending, now)
  }

  function TargetFor(reductions: seq<Reduction>, i: SlotIndex): (target: Option<int>)
    ensures target.None? <==> forall r :: r in reductions ==> r.slotId != i
    decreases |reductions|
  {
    if reductions == [] then None
    else
      assert reductions == [reductions[0]] + reductions[1..];
      if reductions[0].slotId == i then Some(reductions[0].target) else TargetFor(reductions[1..], i)
  }

  ghost predicate SameOperation(before: Operations, after: Operations, key: OperationKey) {
    (key in after <==> key in before) && (key in before ==> after[key] == before[key])
  }

  ghost predicate Untouched(s: State, t: State, i: SlotIndex) {
    && t.slots[i] == s.slots[i]
    && forall g: nat :: SameOperation(s.operations, t.operations, OperationKey(i, g))
  }

  function Scheduled(s: State, reductions: seq<Reduction>, now: int): State {
    var (slots, operations) := ScheduleReclamation(s.slots, s.operations, reductions, now);
    s.(slots := slots, operations := operations)
  }

  /** The tables once one reduction is scheduled. */
  function WithReduction(s: State, r: Reduction, now: int): State
    requires r.slotId < SLOTS
  {
    var generation := s.slots[r.slotId].generation + 1;
    s.(slots := s.slots[r.slotId := s.slots[r.slotId].(desired := r.target, debounceUntil := 0, generation := generation)],
       operations := RecordOperation(s.operations, r.slotId, generation, r.target, now))
  }

  lemma {:induction false} FirstReduction(s: State, reductions: seq<Reduction>, now: int)
    requires reductions != [] && reductions[0].slotId < SLOTS && Lowerable(s.slots[reductions[0].slotId], reductions[0].target)
    ensures var r := reductions[0];
      var t := WithReduction(s, r, now);
      && Scheduled(s, reductions, now) == Scheduled(t, reductions[1..], now)
      && Lowered(s, t, r.slotId, now) && t.slots[r.slotId].desired == r.target
      && forall i: SlotIndex :: i != r.slotId ==> Untouched(s, t, i)
  {
  }

  /** A reduction is scheduled exactly when its slot is idle, not being updated, and has more than the target. */
  lemma {:induction false} ReductionScheduledExactlyWhen(s: State, r: Reduction, now: int)
    ensures Scheduled(s, [r], now) ==
      if r.slotId < SLOTS && s.slots[r.slotId].state == Ready && s.slots[r.slotId].reserved == 0
         && !s.slots[r.slotId].updating && r.target < s.slots[r.slotId].applied
      then WithReduction(s, r, now) else s
  {
    assert [r][1..] == [];
    if r.slotId < SLOTS {
      var t := WithReduction(s, r, now);
      assert ScheduleReclamation(t.slots, t.operations, [r][1..], now) == (t.slots, t.operations);
    }
    assert ScheduleReclamation(s.slots, s.operations, [r][1..], now) == (s.slots, s.operations);
  }

  /** Exactly the slots a reducible list names are lowered, to the targets it names. */
  lemma {:induction false} ReclamationLowers(s: State, reductions: seq<Reduction>, now: int, i: SlotIndex)
    requires Reducible(s.slots, reductions)
    ensures var t, target := Scheduled(s, reductions, now), TargetFor(reductions, i);
      if target.Some? then Lowered(s, t, i, now) && t.slots[i].desired == target.value else Untouched(s, t, i)
    decreases |reductions|
  {
    if reductions != [] {
      var t := WithReduction(s, reductions[0], now);
      FirstReduction(s, reductions, now);
      assert forall j :: 0 <= j < |reductions[1..]| ==> reductions[1..][j] == reductions[j + 1];
      assert TargetFor(reductions[1..], reductions[0].slotId).None?;
      hide Scheduled, Lowered;
      assert forall j: SlotIndex :: j != reductions[0].slotId ==> Untouched(s, t, j);
      ReclamationLowers(t, reductions[1..], now, i);
      if i == reductions[0].slotId {
        LoweredStays(s, t, Scheduled(t, reductions[1..], now), i, now);
      } else {
        LoweredLater(s, t, Scheduled(t, reductions[1..], now), i, now);
      }
    }
  }

  lemma {:induction false} LoweredStays(s: State, t: State, u: State, i: SlotIndex, now: int)
    requires Lowered(s, t, i, now) && Untouched(t, u, i)
    ensures Lowered(s, u, i, now)
  {
    assert SameOperation(t.operations, u.operations, OperationKey(i, t.slots[i].generation));
  }

  lemma {:induction false} LoweredLater(s: State, t: State, u: State, i: SlotIndex, now: int)
    requires Untouched(s, t, i)
    ensures Lowered(t, u, i, now) ==> Lowered(s, u, i, now)
    ensures Untouched(t, u, i) ==> Untouched(s, u, i)
  {
    forall g: nat | Untouched(t, u, i)
      ensures SameOperation(s.operations, u.operations, OperationKey(i, g))
    {
      assert SameOperation(s.operations, t.operations, OperationKey(i, g));
      assert SameOperation(t.operations, u.operations, OperationKey(i, g));
    }
  }

  // ---------------------------------------------------------------- the ceilings an admission leads to

  ghost predicate Indexed(rows: seq<CapacitySlot>) {
    |rows| == SLOTS && forall j :: 0 <= j < SLOTS ==> rows[j].slotId == j
  }

  lemma {:induction false} IndexOfIndexed(rows: seq<CapacitySlot>, i: SlotIndex)
    requires Indexed(rows)
    ensures DistinctIds(rows) && IndexOf(rows, i) == i
  {
    IndexOfDistinct(rows, i);
  }

  lemma {:induction false} AppliedAt(rows: seq<CapacitySlot>, reductions: seq<Reduction>, j: SlotIndex)
    requires Indexed(rows)
    requires forall k :: 0 <= k < |reductions| ==> reductions[k].slotId < SLOTS
    requires forall k, l :: 0 <= k < l < |reductions| ==> reductions[k].slotId != reductions[l].slotId
    ensures var target := TargetFor(reductions, j);
      ApplyReductions(rows, reductions)[j] == if target.Some? then rows[j].(applied := target.value) else rows[j]
    decreases |reductions|
  {
    if reductions != [] {
      var r := reductions[0];
      IndexOfIndexed(rows, r.slotId);
      var next := rows[r.slotId := rows[r.slotId].(applied := r.target)];
      assert forall k :: 0 <= k < |reductions[1..]| ==> reductions[1..][k] == reductions[k + 1];
      AppliedAt(next, reductions[1..], j);
      assert TargetFor(reductions[1..], r.slotId).None?;
    }
  }

  /** The row of slot `j` with the ceiling that is asked for: what the slot admitted to is for, what a lowered one keeps. */
  function AskedRow(s: State, t: State, i: SlotIndex, resources: Resources, j: SlotIndex): CapacitySlot {
    var row := CapacityRow(j, s.slots[j]);
    if j == i then row.(resources := Some(resources), applied := t.slots[j].desired)
    else if t.slots[j] != s.slots[j] then row.(applied := t.slots[j].desired)
    else row
  }

  /** What the machines of slot `j` cost with that ceiling. */
  function AskedCost(s: State, t: State, i: SlotIndex, resources: Resources, j: SlotIndex): Resources {
    if j == i then resources.Times(t.slots[j].desired)
    else if s.slots[j].shape.None? then ZERO
    else s.slots[j].shape.value.resources.Times(if t.slots[j] != s.slots[j] then t.slots[j].desired else s.slots[j].applied)
  }

  /** What all machines cost with the ceilings that are asked for. */
  function AskedTotal(s: State, t: State, i: SlotIndex, resources: Resources): Resources {
    Total(seq(SLOTS, j requires 0 <= j < SLOTS => AskedCost(s, t, i, resources, j)))
  }

  lemma {:induction false} AskedTotalIsConfigured(s: State, t: State, i: SlotIndex, resources: Resources)
    ensures AskedTotal(s, t, i, resources) == ConfiguredCapacity(AskedRows(s, t, i, resources))
  {
    hide Resources.Times, Total;
    assert Costs(AskedRows(s, t, i, resources)) == seq(SLOTS, j requires 0 <= j < SLOTS => AskedCost(s, t, i, resources, j));
  }

  function AskedRows(s: State, t: State, i: SlotIndex, resources: Resources): seq<CapacitySlot> {
    seq(SLOTS, j requires 0 <= j < SLOTS => AskedRow(s, t, i, resources, j))
  }

  /** What an admission does to the other slots: it lowers those its plan names, by operations recorded now. */
  lemma {:induction false} AdmitLowers(s: State, id: JobId, i: SlotIndex, configure: bool, reductions: seq<Reduction>, now: int)
    requires id in s.jobs && Reducible(s.slots, reductions) && forall r :: r in reductions ==> r.slotId != i
    ensures var t := Admit(s, id, SelectedSlot(i, configure), reductions, now);
      && t.slots[i].desired == TargetMaxInstances(s.slots[i], configure)
      && forall j: SlotIndex :: j != i ==>
           var target := TargetFor(reductions, j);
           if target.Some? then Lowered(s, t, j, now) && t.slots[j].desired == target.value else Untouched(s, t, j)
  {
    var r, t := Scheduled(s, reductions, now), Admit(s, id, SelectedSlot(i, configure), reductions, now);
    forall j: SlotIndex | j != i
      ensures var target := TargetFor(reductions, j);
        if target.Some? then Lowered(s, t, j, now) && t.slots[j].desired == target.value else Untouched(s, t, j)
    {
      ReclamationLowers(s, reductions, now, j);
      assert Untouched(r, t, j);
      hide Scheduled, Admit, Lowered, Untouched;
      if TargetFor(reductions, j).Some? {
        LoweredStays(s, r, t, j, now);
      } else {
        LoweredLater(s, r, t, j, now);
      }
    }
    hide ScheduleReclamation;
  }

  /** The job is taken from the queue and given the slot. */
  ghost predicate Takes(s: State, t: State, id: JobId, i: SlotIndex) {
    && id in s.jobs && s.jobs[id].status.Queued?
    && id in t.jobs && t.jobs[id].status.Admitted? && t.jobs[id].slot == Some(i)
  }

  lemma {:induction false} AdmissionTaken(s: State, now: int, id: JobId, i: SlotIndex) returns (configure: bool, plan: CapacityPlan)
    requires Takes(s, AdmitNext(s, now), id, i)
    ensures IsNextQueued(s.jobs, id) && SelectSlot(s.slots, s.jobs[id].profile) == Some(SelectedSlot(i, configure))
    ensures FitsAccountCapacity(ReservedResources(s.jobs), s.jobs[id].profile.resources, ACCOUNT_LIMIT)
    ensures var target := TargetMaxInstances(s.slots[i], configure);
      PlanOn(s.slots, i, s.jobs[id].profile.resources, target) == Some(plan)
    ensures AdmitNext(s, now) == Admit(s, id, SelectedSlot(i, configure), plan.reductions, now)
  {
    hide ScheduleReclamation, AdmittedSlot, SelectSlot, PlanOn, ReservedResources, FitsAccountCapacity, TargetMaxInstances;
    var next := NextQueued(s.jobs).value;
    assert IsNextQueued(s.jobs, next);
    assert next == id;
    var selected := SelectSlot(s.slots, s.jobs[id].profile).value;
    configure := selected.requiresConfiguration;
    plan := PlanOn(s.slots, selected.slotId, s.jobs[id].profile.resources,
                   TargetMaxInstances(s.slots[selected.slotId], configure)).value;
  }

  lemma {:induction false} AskedIsPlanned(
      s: State, t: State, i: SlotIndex, resources: Resources, target: int, plan: CapacityPlan, now: int)
    requires PlanOn(s.slots, i, resources, target) == Some(plan) && t.slots[i].desired == target
    requires Reducible(s.slots, plan.reductions) && forall r :: r in plan.reductions ==> r.slotId != i
    requires forall j: SlotIndex :: j != i ==>
      var lowered := TargetFor(plan.reductions, j);
      if lowered.Some? then Lowered(s, t, j, now) && t.slots[j].desired == lowered.value else Untouched(s, t, j)
    ensures IndexOf(CapacityRows(s.slots), i) == i && plan.target == CapacityTarget(i, resources, target)
    ensures AskedRows(s, t, i, resources) == ApplyPlan(CapacityRows(s.slots), plan)
  {
    var rows := CapacityRows(s.slots);
    IndexOfIndexed(rows, i);
    var start := WithTarget(rows, plan.target);
    assert Indexed(start);
    hide Reclaim, Donors, ConfiguredCapacity;
    forall j: SlotIndex
      ensures AskedRows(s, t, i, resources)[j] == ApplyReductions(start, plan.reductions)[j]
    {
      AppliedAt(start, plan.reductions, j);
      hide ApplyReductions;
    }
  }

  /**
   * An admission carries out the plan it was granted on. Every other slot is left alone or lowered: it is idle, its
   * reduction is due at once, and the operation of its new generation is recorded. With the ceilings that are asked for,
   * all machines together fit the account.
   */
  lemma {:induction false} AdmissionCarriesOutItsPlan(s: State, now: int, id: JobId, i: SlotIndex)
    requires Takes(s, AdmitNext(s, now), id, i) && NonNegativeResources(CapacityRows(s.slots))
    ensures var t := AdmitNext(s, now);
      && (forall j: SlotIndex :: j != i ==> Untouched(s, t, j) || Lowered(s, t, j, now))
      && AskedTotal(s, t, i, s.jobs[id].profile.resources).Within(ACCOUNT_LIMIT)
  {
    var t, resources := AdmitNext(s, now), s.jobs[id].profile.resources;
    var configure, plan := AdmissionTaken(s, now, id, i);
    var target := TargetMaxInstances(s.slots[i], configure);
    hide AdmitNext, TargetMaxInstances;
    PlanReduces(s.slots, i, resources, target);
    AdmitLowers(s, id, i, configure, plan.reductions, now);
    hide Admit, Lowered, Untouched, PlanOn, CapacityRows;
    AskedIsPlanned(s, t, i, resources, target, plan, now);
    AskedTotalIsConfigured(s, t, i, resources);
    PlanOnTotal(s.slots, i, resources, target);
    forall j: SlotIndex | j != i
      ensures Untouched(s, t, j) || Lowered(s, t, j, now)
    {
      assert TargetFor(plan.reductions, j).Some? || TargetFor(plan.reductions, j).None?;
    }
  }

  /** The donors cut are the first in the order of their release, and all but the last of them are drained. */
  lemma {:induction false} CutComeFirst(
      slots: SlotTable, donors: seq<nat>, configured: Resources, reductions: seq<Reduction>, j: SlotIndex, k: SlotIndex)
    requires var rows := CapacityRows(slots);
      InReleaseOrder(rows, donors) && HaveResources(rows, donors) && LeastPrefix(rows, donors, configured, reductions, ACCOUNT_LIMIT)
    requires Reducible(slots, reductions) && TargetFor(reductions, j).Some? && k in donors && j != k
    ensures j in donors
    ensures TargetFor(reductions, k).None? ==> ReleasedBefore(CapacityRow(j, slots[j]), CapacityRow(k, slots[k]))
    ensures TargetFor(reductions, k).Some? && TargetFor(reductions, j).value > 1 ==>
      ReleasedBefore(CapacityRow(k, slots[k]), CapacityRow(j, slots[j])) && TargetFor(reductions, k).value == 1
  {
    hide LeastPrefix, ReleasedBefore;
    var rows := CapacityRows(slots);
    var l :| 0 <= l < |donors| && donors[l] == k;
    var r := NamedReduction(reductions, j);
    assert rows[j] == CapacityRow(j, slots[j]) && rows[k] == CapacityRow(k, slots[k]);
    PrefixFacts(rows, donors, configured, reductions);
    assert rows[donors[r]].slotId == j && donors[r] == j;
    if TargetFor(reductions, k).None? {
      assert forall m :: 0 <= m < |reductions| ==> reductions[m] in reductions;
      assert forall m :: 0 <= m < |reductions| ==> rows[donors[m]].slotId != k;
      assert |reductions| <= l;
    } else {
      var q := NamedReduction(reductions, k);
      assert donors[q] == k;
    }
  }

  lemma {:induction false} PrefixFacts(
      rows: seq<CapacitySlot>, donors: seq<nat>, configured: Resources, reductions: seq<Reduction>)
    requires HaveResources(rows, donors) && LeastPrefix(rows, donors, configured, reductions, ACCOUNT_LIMIT)
    ensures |reductions| <= |donors|
    ensures forall i :: 0 <= i < |reductions| ==> reductions[i].slotId == rows[donors[i]].slotId
    ensures forall i :: 0 <= i < |reductions| - 1 ==> reductions[i].target == 1
  {
  }

  lemma {:induction false} NamedReduction(reductions: seq<Reduction>, j: SlotIndex) returns (r: nat)
    requires TargetFor(reductions, j).Some?
    ensures r < |reductions| && reductions[r].slotId == j && reductions[r].target == TargetFor(reductions, j).value
    decreases |reductions|
  {
    if reductions[0].slotId == j {
      r := 0;
    } else {
      r := NamedReduction(reductions[1..], j);
      r := r + 1;
    }
  }

  lemma {:induction false} PlanDrainsInOrder(
      slots: SlotTable, i: SlotIndex, resources: Resources, target: int, j: SlotIndex, k: SlotIndex)
    requires PlanOn(slots, i, resources, target).Some? && PositiveResources(CapacityRows(slots))
    requires var reductions := PlanOn(slots, i, resources, target).value.reductions;
      Reducible(slots, reductions) && TargetFor(reductions, j).Some?
    requires j != k && k != i && MayGive(slots[k])
    ensures MayGive(slots[j])
    ensures var reductions := PlanOn(slots, i, resources, target).value.reductions;
      && (TargetFor(reductions, k).None? ==> ReleasedBefore(CapacityRow(j, slots[j]), CapacityRow(k, slots[k])))
      && (TargetFor(reductions, k).Some? && TargetFor(reductions, j).value > 1 ==>
            ReleasedBefore(CapacityRow(k, slots[k]), CapacityRow(j, slots[j])) && TargetFor(reductions, k).value == 1)
  {
    hide Reducible, LeastPrefix, ReleasedBefore, Reclaim, IsDonor, MayGive, CapacityRow, PositiveResources;
    var rows := CapacityRows(slots);
    RowsAreIndexed(slots);
    IndexOfIndexed(rows, i);
    PlanCutsLeastPrefix(rows, CapacityTarget(i, resources, target), ACCOUNT_LIMIT);
    var plan, donors := PlanFor(rows, CapacityTarget(i, resources, target), ACCOUNT_LIMIT).value, Donors(rows, i, |rows|);
    DonorRow(slots, k, i);
    hide Donors, PlanFor, PlanOn;
    CutComeFirst(slots, donors, plan.configured, plan.reductions, j, k);
    DonorRow(slots, j, i);
  }

  lemma {:induction false} RowsAreIndexed(slots: SlotTable)
    ensures Indexed(CapacityRows(slots))
  {
  }

  lemma {:induction false} DonorRow(slots: SlotTable, k: SlotIndex, i: SlotIndex)
    ensures CapacityRows(slots)[k] == CapacityRow(k, slots[k])
    ensures IsDonor(CapacityRows(slots)[k], i) <==> k != i && MayGive(slots[k])
  {
  }

  /** The slot may be lowered for an admission to slot `i`. */
  predicate MayGive(slot: Slot) {
    slot.state == Ready && slot.reserved == 0 && !slot.updating && slot.applied > 1 && slot.shape.Some?
  }

  /**
   * The slots that an admission lowers were released before all others that it might have lowered, and all of them but
   * the one released last are lowered to one instance.
   */
  lemma {:induction false} AdmissionDrainsInOrder(s: State, now: int, id: JobId, i: SlotIndex, j: SlotIndex, k: SlotIndex)
    requires Takes(s, AdmitNext(s, now), id, i) && PositiveResources(CapacityRows(s.slots))
    requires j != i && k != i && j != k && MayGive(s.slots[k])
    requires var t := AdmitNext(s, now); t.slots[j] != s.slots[j] && (t.slots[k] == s.slots[k] || t.slots[j].desired > 1)
    ensures var t := AdmitNext(s, now);
      && MayGive(s.slots[j])
      && (t.slots[k] == s.slots[k] ==> EarlierReleased(s, j, k))
      && (t.slots[k] != s.slots[k] ==> EarlierReleased(s, k, j) && t.slots[k].desired == 1)
  {
    hide AdmitNext, TargetMaxInstances, Admit, PlanOn, Reducible, CapacityRows, Scheduled, SelectSlot, UpdateDue;
    var resources := s.jobs[id].profile.resources;
    var configure, plan := AdmissionTaken(s, now, id, i);
    var target := TargetMaxInstances(s.slots[i], configure);
    PlanReduces(s.slots, i, resources, target);
    AdmitLowers(s, id, i, configure, plan.reductions, now);
    assert TargetFor(plan.reductions, j).None? ==> Untouched(s, AdmitNext(s, now), j);
    PlanDrainsInOrder(s.slots, i, resources, target, j, k);
    TargetIsLowerable(s.slots, plan.reductions, j);
    TargetIsLowerable(s.slots, plan.reductions, k);
  }

  lemma {:induction false} TargetIsLowerable(slots: SlotTable, reductions: seq<Reduction>, j: SlotIndex)
    requires Reducible(slots, reductions)
    ensures TargetFor(reductions, j).Some? ==> Lowerable(slots[j], TargetFor(reductions, j).value)
  {
    if TargetFor(reductions, j).Some? {
      var r := NamedReduction(reductions, j);
    }
  }

  predicate EarlierReleased(s: State, j: SlotIndex, k: SlotIndex) {
    || s.slots[j].lastReleasedAt < s.slots[k].lastReleasedAt
    || (s.slots[j].lastReleasedAt == s.slots[k].lastReleasedAt && j < k)
  }

  lemma {:induction false} PlanOnTotal(slots: SlotTable, i: SlotIndex, resources: Resources, target: int)
    requires PlanOn(slots, i, resources, target).Some? && NonNegativeResources(CapacityRows(slots))
    ensures var plan := PlanOn(slots, i, resources, target).value;
      IndexOf(CapacityRows(slots), plan.target.slotId) >= 0
      && ConfiguredCapacity(ApplyPlan(CapacityRows(slots), plan)).Within(ACCOUNT_LIMIT)
  {
    IndexOfIndexed(CapacityRows(slots), i);
    PlanTotal(CapacityRows(slots), CapacityTarget(i, resources, target), ACCOUNT_LIMIT);
    hide Reclaim, Donors, ConfiguredCapacity;
  }

  // ---------------------------------------------------------------- when there is an admission

  /** A custom slot has the job's machine, or is being given it. */
  predicate HasMachine(slot: Slot, key: string) {
    || (slot.state == Ready && slot.shape.Some? && slot.shape.value.key == key)
    || (slot.state == Configuring && slot.pending.Some? && slot.pending.value.key == key)
  }

  predicate MayBeConfigured(slot: Slot) {
    slot.reserved == 0 && slot.state != Configuring
  }

  /**
   * A custom job shares a slot that has its machine or is being given it, the one with the fewest reservations; failing
   * that an unreserved slot is given its machine. There is none exactly when every custom slot is reserved or being
   * configured for something else.
   */
  lemma {:induction false} CustomSlotExactlyWhen(slots: SlotTable, profile: Profile)
    requires profile.custom
    ensures var selected := SelectSlot(slots, profile);
      && (selected.None? <==> forall i: SlotIndex :: i < CUSTOM_SLOTS ==>
            !HasMachine(slots[i], profile.key) && !MayBeConfigured(slots[i]))
      && (selected.Some? ==> selected.value.slotId < CUSTOM_SLOTS)
      && (selected.Some? && !selected.value.requiresConfiguration ==>
            && HasMachine(slots[selected.value.slotId], profile.key)
            && forall i: SlotIndex :: i < CUSTOM_SLOTS && HasMachine(slots[i], profile.key) ==>
                 slots[selected.value.slotId].reserved <= slots[i].reserved)
      && (selected.Some? && selected.value.requiresConfiguration ==>
            && MayBeConfigured(slots[selected.value.slotId])
            && forall i: SlotIndex :: i < CUSTOM_SLOTS ==> !HasMachine(slots[i], profile.key))
  {
    var rows := CustomRows(slots);
    forall i: SlotIndex | i < CUSTOM_SLOTS
      ensures CustomRow(i, slots[i]) in rows
    {
      assert rows[i] == CustomRow(i, slots[i]);
    }
  }

  /** No queued job is before this one. */
  ghost predicate Heads(jobs: map<JobId, Job>, id: JobId) {
    && id in jobs && jobs[id].status.Queued?
    && forall other :: other in jobs && jobs[other].status.Queued? && other != id ==>
         jobs[id].createdAt < jobs[other].createdAt || (jobs[id].createdAt == jobs[other].createdAt && id < other)
  }

  /** There is room for the job among the active ones, a slot for it, and some choice of ceilings that fits with it. */
  ghost predicate Admissible(s: State, id: JobId)
    requires id in s.jobs
  {
    var profile, selected := s.jobs[id].profile, SelectSlot(s.slots, s.jobs[id].profile);
    && ReservedResources(s.jobs).Plus(profile.resources).Within(ACCOUNT_LIMIT)
    && selected.Some?
    && var (i, configure) := (selected.value.slotId, selected.value.requiresConfiguration);
       var target := TargetMaxInstances(s.slots[i], configure);
       Feasible(CapacityRows(s.slots), CapacityTarget(i, profile.resources, target), ACCOUNT_LIMIT)
  }

  ghost predicate SomeoneAdmissible(s: State) {
    exists id :: Heads(s.jobs, id) && Admissible(s, id)
  }

  lemma {:induction false} HeadIsNext(jobs: map<JobId, Job>, id: JobId)
    ensures Heads(jobs, id) <==> NextQueued(jobs) == Some(id)
  {
    if next :| IsNextQueued(jobs, next) {
      assert Heads(jobs, next);
      assert Heads(jobs, id) ==> IsNextQueued(jobs, id);
    }
    assert Heads(jobs, id) ==> IsNextQueued(jobs, id);
  }

  lemma {:induction false} PlanExistsExactlyWhen(slots: SlotTable, i: SlotIndex, resources: Resources, target: int)
    requires NonNegativeResources(CapacityRows(slots)) && 1 <= target
    ensures PlanOn(slots, i, resources, target).Some?
      <==> Feasible(CapacityRows(slots), CapacityTarget(i, resources, target), ACCOUNT_LIMIT)
  {
    IndexOfIndexed(CapacityRows(slots), i);
    PlanExactlyWhenFeasible(CapacityRows(slots), CapacityTarget(i, resources, target), ACCOUNT_LIMIT);
    hide Feasible, PlanFor;
  }

  lemma {:induction false} AdmitsHead(s: State, now: int, id: JobId)
    requires NonNegativeResources(CapacityRows(s.slots)) && Heads(s.jobs, id)
    ensures if Admissible(s, id) then
        && SelectSlot(s.slots, s.jobs[id].profile).Some?
        && Takes(s, AdmitNext(s, now), id, SelectSlot(s.slots, s.jobs[id].profile).value.slotId)
      else AdmitNext(s, now) == s
  {
    HeadIsNext(s.jobs, id);
    var profile, selected := s.jobs[id].profile, SelectSlot(s.slots, s.jobs[id].profile);
    if selected.Some? {
      var i := selected.value.slotId;
      PlanExistsExactlyWhen(s.slots, i, profile.resources, TargetMaxInstances(s.slots[i], selected.value.requiresConfiguration));
    }
    hide Feasible, PlanOn, SelectSlot, NextQueued, ReservedResources, ScheduleReclamation, TargetMaxInstances, AdmittedSlot;
    hide NonNegativeResources, Heads;
  }

  /**
   * One job is admitted exactly when the head of the queue is admissible, and it is that job; nothing overtakes it.
   * Otherwise the tables stay as they are.
   */
  lemma {:induction false} AdmitsExactlyWhen(s: State, now: int)
    requires NonNegativeResources(CapacityRows(s.slots))
    ensures var t := AdmitNext(s, now);
      && (t != s <==> SomeoneAdmissible(s))
      && (t != s ==> exists id, i :: Heads(s.jobs, id) && Takes(s, t, id, i))
  {
    hide Admissible, Takes, AdmitNext;
    if id :| Heads(s.jobs, id) {
      AdmitsHead(s, now, id);
      assert forall other :: Heads(s.jobs, other) ==> other == id;
      if Admissible(s, id) {
        TakingChanges(s, AdmitNext(s, now), id, SelectSlot(s.slots, s.jobs[id].profile).value.slotId);
      }
    } else {
      NothingQueued(s, now);
    }
  }

  lemma {:induction false} TakingChanges(s: State, t: State, id: JobId, i: SlotIndex)
    requires Takes(s, t, id, i)
    ensures t != s
  {
  }

  lemma {:induction false} NothingQueued(s: State, now: int)
    requires forall id :: !Heads(s.jobs, id)
    ensures AdmitNext(s, now) == s
  {
    if NextQueued(s.jobs).Some? {
      HeadIsNext(s.jobs, NextQueued(s.jobs).value);
    }
  }

  /** A queue that is not empty has a head. */
  lemma {:induction false} QueueHasHead(jobs: map<JobId, Job>, id: JobId)
    requires id in jobs && jobs[id].status.Queued?
    ensures exists head :: Heads(jobs, head)
    decreases |jobs|
  {
    var rest := jobs - {id};
    if other :| other in rest && rest[other].status.Queued? {
      QueueHasHead(rest, other);
      var head :| Heads(rest, head);
      var first := if jobs[id].createdAt < jobs[head].createdAt || (jobs[id].createdAt == jobs[head].createdAt && id < head)
        then id else head;
      assert forall x :: x in jobs && x != id ==> x in rest;
      assert Heads(jobs, first);
    } else {
      assert forall x :: x in jobs && x != id ==> x in rest;
      assert Heads(jobs, id);
    }
  }

  // ---------------------------------------------------------------- first come, first served

  /** A step admits the job. */
  ghost predicate IsAdmittedBy(s: State, t: State, id: JobId) {
    id in t.jobs && t.jobs[id].status.Admitted? && !(id in s.jobs && s.jobs[id].status.Admitted?)
  }

  ghost predicate SomeoneAdmitted(s: State, t: State) {
    exists id :: IsAdmittedBy(s, t, id)
  }

  lemma {:induction false} AdmissionTakesHead(s: State, now: int, id: JobId)
    requires IsAdmittedBy(s, AdmitNext(s, now), id)
    ensures Heads(s.jobs, id)
  {
    hide ScheduleReclamation, AdmittedSlot, SelectSlot, PlanOn, ReservedResources, FitsAccountCapacity, TargetMaxInstances;
    HeadIsNext(s.jobs, id);
    assert NextQueued(s.jobs).Some?;
    HeadIsNext(s.jobs, NextQueued(s.jobs).value);
  }

  lemma {:induction false} NobodyIsAdmittedBefore(s: State, e: Event, now: int, id: JobId)
    requires Possible(s, e, now)
    ensures !IsAdmittedBy(s, Acted(s, e, now), id)
  {
    if id in s.jobs {
      ActedMoves(s, e, now, id);
      hide Acted, StatusMoves, RunnerMoves;
    } else if e.Submit? {
      hide AdmitNext, ScheduleAlarm;
    } else {
      SameIds(s, e, now);
      StepSplits(s, e, now);
      AdmitNextJobs(Acted(s, e, now), now);
      hide Acted, Step, AdmitNext, Admits;
    }
  }

  /**
   * Whatever step admits a job, every job that is left in the queue was submitted later, or at the same time under a
   * larger identifier.
   */
  lemma {:induction false} FirstComeFirstServed(run: Run, n: nat, id: JobId, left: JobId)
    requires run.Valid() && n < |run.moments| && IsAdmittedBy(run.states[n], run.states[n + 1], id)
    requires left in run.states[n + 1].jobs && run.states[n + 1].jobs[left].status.Queued?
    ensures exists i, j ::
      && 0 <= i <= n && 0 <= j <= n
      && SubmittedAt(run, i, id, run.states[n + 1].jobs[id]) && SubmittedAt(run, j, left, run.states[n + 1].jobs[left])
      && (run.moments[i].now < run.moments[j].now || (run.moments[i].now == run.moments[j].now && id < left))
  {
    hide Initial, Leads, Acted, AdmitNext, Step, Admits;
    assert run.Follows(n);
    JobsAreAsSubmitted(run, n + 1, id);
    JobsAreAsSubmitted(run, n + 1, left);
    StepAdmitsHead(run.states[n], run.moments[n].event, run.moments[n].now, run.states[n + 1], id, left);
  }

  lemma {:induction false} StepAdmitsHead(s: State, e: Event, now: int, t: State, id: JobId, left: JobId)
    requires Leads(s, e, now, t) && IsAdmittedBy(s, t, id) && left in t.jobs && t.jobs[left].status.Queued?
    ensures t.jobs[id].createdAt < t.jobs[left].createdAt
      || (t.jobs[id].createdAt == t.jobs[left].createdAt && id < left)
  {
    var acted := Acted(s, e, now);
    StepSplits(s, e, now);
    NobodyIsAdmittedBefore(s, e, now, id);
    AdmitNextJobs(acted, now);
    hide AdmitNext, Step, Acted, Admits;
    if IsAdmittedBy(acted, AdmitNext(acted, now), id) {
      AdmissionTakesHead(acted, now, id);
    }
  }

  // ---------------------------------------------------------------- room is not left unused

  /**
   * A step that submits a job, ends one, displaces one, ends a configuration or ends an alarm admits a job, if there is
   * an admissible one at the head of the queue; so none is left there unless it has just admitted another.
   */
  lemma {:induction false} RoomIsOffered(s: State, e: Event, now: int, t: State)
    requires Leads(s, e, now, t) && Admits(s, e, now) && NonNegativeResources(CapacityRows(Acted(s, e, now).slots))
    ensures SomeoneAdmissible(t) ==> SomeoneAdmitted(s, t)
  {
    hide AdmitNext, Step, Acted, Admits, SomeoneAdmissible, Possible, Heads, SelectSlot, NonNegativeResources;
    var acted := Acted(s, e, now);
    StepSplits(s, e, now);
    AdmitsExactlyWhen(acted, now);
    if AdmitNext(acted, now) == acted {
      SameAdmissible(acted, t);
    } else {
      var id, i :| Heads(acted.jobs, id) && Takes(acted, AdmitNext(acted, now), id, i);
      QueuedIsNotAdmitted(s, e, now, id);
      assert IsAdmittedBy(s, t, id);
    }
  }

  lemma {:induction false} SameAdmissible(s: State, t: State)
    requires SameTables(s, t)
    ensures SomeoneAdmissible(s) == SomeoneAdmissible(t)
  {
    forall id | id in s.jobs
      ensures Admissible(s, id) == Admissible(t, id)
    {
    }
    hide Admissible;
    assert forall id :: Heads(s.jobs, id) ==> id in s.jobs;
  }

  /** A job that waits in the queue before the admission was not admitted before the step. */
  lemma {:induction false} QueuedIsNotAdmitted(s: State, e: Event, now: int, id: JobId)
    requires Possible(s, e, now) && id in Acted(s, e, now).jobs && Acted(s, e, now).jobs[id].status.Queued?
    ensures id in s.jobs ==> !s.jobs[id].status.Admitted?
  {
    if id in s.jobs {
      ActedMoves(s, e, now, id);
      hide Acted, StatusMoves, RunnerMoves;
    }
  }
}
