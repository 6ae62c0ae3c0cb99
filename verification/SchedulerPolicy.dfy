/** The vector-capacity planner and the choice of a custom slot. */
module SchedulerPolicy {
  import opened AccountResources
  import opened Wrappers

  /** Slots are numbered in the collation order of their names. */
  type SlotId = nat

  datatype ConfigurationState = Ready | Configuring | Idle

  datatype CapacitySlot = CapacitySlot(
    slotId: SlotId,
    resources: Option<Resources>,
    applied: int,
    reserved: int,
    state: ConfigurationState,
    updating: bool,
    lastReleasedAt: int)
  {
    function Cost(): Resources {
      if resources.None? then ZERO else resources.value.Times(applied)
    }
  }

  datatype CapacityTarget = CapacityTarget(slotId: SlotId, resources: Resources, maxInstances: int)

  datatype Reduction = Reduction(slotId: SlotId, target: int)

  datatype CapacityPlan = CapacityPlan(configured: Resources, target: CapacityTarget, reductions: seq<Reduction>)

  const CAPACITY_UPSCALE_DEBOUNCE_MS := 5_000

  function CapacityDebounceDeadline(timestamp: int): int {
    timestamp + CAPACITY_UPSCALE_DEBOUNCE_MS
  }

  function RequiredMaxInstances(reserved: int): int {
    if 1 <= reserved + 1 then reserved + 1 else 1
  }

  function Max(a: int, b: int): int {
    if a < b then b else a
  }

  function Min(a: int, b: int): int {
    if a < b then a else b
  }

  // ---------------------------------------------------------------- totals

  function Total(costs: seq<Resources>): Resources {
    if costs == [] then ZERO else Total(costs[..|costs| - 1]).Plus(costs[|costs| - 1])
  }

  lemma {:induction false} TotalUpdate(costs: seq<Resources>, i: nat, cost: Resources)
    requires i < |costs|
    ensures Total(costs[i := cost]) == Total(costs).Minus(costs[i]).Plus(cost)
  {
    var last := |costs| - 1;
    if i == last {
      assert costs[i := cost][..last] == costs[..last];
    } else {
      assert costs[i := cost][..last] == costs[..last][i := cost];
      TotalUpdate(costs[..last], i, cost);
    }
  }

  function Costs(slots: seq<CapacitySlot>): seq<Resources> {
    seq(|slots|, i requires 0 <= i < |slots| => slots[i].Cost())
  }

  /** What all recorded ceilings add up to. */
  function ConfiguredCapacity(slots: seq<CapacitySlot>): Resources {
    Total(Costs(slots))
  }

  lemma {:induction false} ConfiguredCapacityUpdate(slots: seq<CapacitySlot>, i: nat, slot: CapacitySlot)
    requires i < |slots|
    ensures ConfiguredCapacity(slots[i := slot]) == ConfiguredCapacity(slots).Minus(slots[i].Cost()).Plus(slot.Cost())
  {
    assert Costs(slots[i := slot]) == Costs(slots)[i := slot.Cost()];
    TotalUpdate(Costs(slots), i, slot.Cost());
  }

  ghost predicate DistinctIds(slots: seq<CapacitySlot>) {
    forall i, j :: 0 <= i < j < |slots| ==> slots[i].slotId != slots[j].slotId
  }

  ghost predicate NonNegativeResources(slots: seq<CapacitySlot>) {
    forall i :: 0 <= i < |slots| && slots[i].resources.Some? ==> slots[i].resources.value.NonNegative()
  }

  // ---------------------------------------------------------------- donors

  predicate IsDonor(slot: CapacitySlot, target: SlotId) {
    && slot.slotId != target
    && slot.state == Ready
    && slot.reserved == 0
    && !slot.updating
    && slot.applied > 1
    && slot.resources.Some?
  }

  /** Least recently released first, ties by name. */
  predicate ReleasedBefore(a: CapacitySlot, b: CapacitySlot) {
    a.lastReleasedAt < b.lastReleasedAt || (a.lastReleasedAt == b.lastReleasedAt && a.slotId <= b.slotId)
  }

  /** Indices of different slots, in the order in which those slots are drained. */
  ghost predicate InReleaseOrder(slots: seq<CapacitySlot>, donors: seq<nat>) {
    && (forall i :: 0 <= i < |donors| ==> donors[i] < |slots|)
    && (forall i, j :: 0 <= i < j < |donors| ==> donors[i] != donors[j] && ReleasedBefore(slots[donors[i]], slots[donors[j]]))
  }

  function InsertByRelease(slots: seq<CapacitySlot>, k: nat, donors: seq<nat>): (r: seq<nat>)
    requires k < |slots| && InReleaseOrder(slots, donors) && k !in donors
    ensures forall i :: i in r <==> i == k || i in donors
    ensures InReleaseOrder(slots, r)
  {
    if donors == [] || ReleasedBefore(slots[k], slots[donors[0]]) then
      [k] + donors
    else
      var rest := InsertByRelease(slots, k, donors[1..]);
      assert forall i :: i in rest ==> i != donors[0] && ReleasedBefore(slots[donors[0]], slots[i]);
      [donors[0]] + rest
  }

  /** The reclamation candidates among the first `n` slots, in the order in which they are drained. */
  function Donors(slots: seq<CapacitySlot>, target: SlotId, n: nat): (donors: seq<nat>)
    requires n <= |slots|
    ensures InReleaseOrder(slots, donors)
    ensures forall i :: i in donors <==> 0 <= i < n && IsDonor(slots[i], target)
  {
    if n == 0 then
      []
    else
      var rest := Donors(slots, target, n - 1);
      if IsDonor(slots[n - 1], target) then InsertByRelease(slots, n - 1, rest) else rest
  }

  // ---------------------------------------------------------------- reclamation

  /** Whole instances needed to free `needed` of one resource. */
  function UnitsFor(needed: int, perInstance: int): (units: nat)
    ensures perInstance > 0 ==> needed <= units * perInstance
    ensures units > 0 ==> perInstance > 0 && (units - 1) * perInstance < needed
  {
    if needed <= 0 || perInstance <= 0 then 0
    else
      var q, r := (needed - 1) / perInstance, (needed - 1) % perInstance;
      assert needed - 1 == q * perInstance + r;
      assert (q + 1) * perInstance == q * perInstance + perInstance;
      q + 1
  }

  function ReductionUnitsNeeded(deficit: Resources, resources: Resources): nat {
    Max(UnitsFor(deficit.vcpu, resources.vcpu),
        Max(UnitsFor(deficit.memoryMib, resources.memoryMib), UnitsFor(deficit.diskMb, resources.diskMb)))
  }

  /** How many instances one donor gives up. */
  function Cut(donor: CapacitySlot, configured: Resources, limit: Resources): int
    requires donor.resources.Some?
  {
    Min(donor.applied - 1, ReductionUnitsNeeded(configured.Minus(limit), donor.resources.value))
  }

  ghost predicate HaveResources(slots: seq<CapacitySlot>, donors: seq<nat>) {
    forall i :: 0 <= i < |donors| ==> donors[i] < |slots| && slots[donors[i]].resources.Some?
  }

  /** Drains donors in order until the limit is met. */
  function Reclaim(
      slots: seq<CapacitySlot>, donors: seq<nat>, configured: Resources, limit: Resources): (Resources, seq<Reduction>)
    requires HaveResources(slots, donors)
    decreases |donors|
  {
    if donors == [] || configured.Within(limit) then
      (configured, [])
    else
      var donor := slots[donors[0]];
      var cut := Cut(donor, configured, limit);
      var rest := Reclaim(slots, donors[1..], configured.Minus(donor.resources.value.Times(cut)), limit);
      (rest.0, if cut == 0 then rest.1 else [Reduction(donor.slotId, donor.applied - cut)] + rest.1)
  }

  function IndexOf(slots: seq<CapacitySlot>, slotId: SlotId): (i: int)
    ensures -1 <= i < |slots|
    ensures i >= 0 ==> slots[i].slotId == slotId
    ensures i < 0 ==> forall k :: 0 <= k < |slots| ==> slots[k].slotId != slotId
  {
    if slots == [] then -1
    else if slots[0].slotId == slotId then 0
    else var i := IndexOf(slots[1..], slotId); if i < 0 then -1 else i + 1
  }

  /** The ceilings once the target has its new shape and ceiling, before anything is reclaimed. */
  function WithTarget(slots: seq<CapacitySlot>, target: CapacityTarget): seq<CapacitySlot>
    requires IndexOf(slots, target.slotId) >= 0
  {
    var i := IndexOf(slots, target.slotId);
    slots[i := slots[i].(resources := Some(target.resources), applied := target.maxInstances)]
  }

  /** The plan the loop below computes. */
  function PlanFor(slots: seq<CapacitySlot>, target: CapacityTarget, limit: Resources): Option<CapacityPlan> {
    if IndexOf(slots, target.slotId) < 0 || target.maxInstances < 1 then
      None
    else
      var donors := Donors(slots, target.slotId, |slots|);
      assert forall i :: 0 <= i < |donors| ==> donors[i] in donors;
      var (configured, reductions) := Reclaim(slots, donors, ConfiguredCapacity(WithTarget(slots, target)), limit);
      if configured.Within(limit) then Some(CapacityPlan(configured, target, reductions)) else None
  }

  lemma {:induction false} GivingNothing(configured: Resources, resources: Resources)
    ensures configured.Minus(resources.Times(0)) == configured
  {
  }

  lemma {:induction false} ReplaceTarget(slots: seq<CapacitySlot>, target: CapacityTarget)
    requires IndexOf(slots, target.slotId) >= 0
    ensures ConfiguredCapacity(WithTarget(slots, target))
        == ConfiguredCapacity(slots).Minus(slots[IndexOf(slots, target.slotId)].Cost())
             .Plus(target.resources.Times(target.maxInstances))
  {
    var t := IndexOf(slots, target.slotId);
    ConfiguredCapacityUpdate(slots, t, WithTarget(slots, target)[t]);
  }

  /** One turn of the reclamation loop. */
  lemma {:induction false} ReclaimTurn(
      slots: seq<CapacitySlot>, donors: seq<nat>, i: nat, configured: Resources, limit: Resources)
    requires HaveResources(slots, donors) && i < |donors| && !configured.Within(limit)
    ensures var donor := slots[donors[i]];
      var cut := Cut(donor, configured, limit);
      var next := if cut == 0 then configured else configured.Minus(donor.resources.value.Times(cut));
      var (now, later) := (Reclaim(slots, donors[i..], configured, limit), Reclaim(slots, donors[i + 1..], next, limit));
      && now.0 == later.0
      && now.1 == (if cut == 0 then [] else [Reduction(donor.slotId, donor.applied - cut)]) + later.1
  {
    assert donors[i..][0] == donors[i] && donors[i..][1..] == donors[i + 1..];
    var donor := slots[donors[i]];
    GivingNothing(configured, donor.resources.value);
    hide Resources.Times, Cut;
  }

  lemma {:induction false} ReclaimEnds(
      slots: seq<CapacitySlot>, donors: seq<nat>, configured: Resources, limit: Resources)
    requires HaveResources(slots, donors) && (donors == [] || configured.Within(limit))
    ensures Reclaim(slots, donors, configured, limit) == (configured, [])
  {
  }

  method DrainDonors(slots: seq<CapacitySlot>, donors: seq<nat>, total: Resources, limit: Resources)
    returns (configured: Resources, reductions: seq<Reduction>)
    requires HaveResources(slots, donors)
    ensures configured == Reclaim(slots, donors, total, limit).0
    ensures reductions == Reclaim(slots, donors, total, limit).1
  {
    hide Reclaim, Cut, Resources.Times;
    configured, reductions := total, [];
    var i := 0;
    assert donors[0..] == donors;
    while i < |donors| && !configured.Within(limit)
      invariant i <= |donors|
      invariant Reclaim(slots, donors, total, limit).0 == Reclaim(slots, donors[i..], configured, limit).0
      invariant Reclaim(slots, donors, total, limit).1 == reductions + Reclaim(slots, donors[i..], configured, limit).1
    {
      var donor := slots[donors[i]];
      var cut := Cut(donor, configured, limit);
      ReclaimTurn(slots, donors, i, configured, limit);
      if cut != 0 {
        configured := configured.Minus(donor.resources.value.Times(cut));
        reductions := reductions + [Reduction(donor.slotId, donor.applied - cut)];
      }
      i := i + 1;
    }
    ReclaimEnds(slots, donors[i..], configured, limit);
  }

  method PlanConfiguredCapacity(slots: seq<CapacitySlot>, target: CapacityTarget, limit: Resources)
    returns (plan: Option<CapacityPlan>)
    ensures plan == PlanFor(slots, target, limit)
  {
    var t := IndexOf(slots, target.slotId);
    if t < 0 || target.maxInstances < 1 {
      return None;
    }
    var total := ConfiguredCapacity(slots).Minus(slots[t].Cost());
    total := total.Plus(target.resources.Times(target.maxInstances));
    ReplaceTarget(slots, target);
    hide Resources.Times, ConfiguredCapacity, Reclaim;
    var donors := Donors(slots, target.slotId, |slots|);
    assert forall i :: 0 <= i < |donors| ==> donors[i] in donors;
    var configured, reductions := DrainDonors(slots, donors, total, limit);
    plan := if configured.Within(limit) then Some(CapacityPlan(configured, target, reductions)) else None;
  }

  // ---------------------------------------------------------------- custom slots

  datatype CustomSlot = CustomSlot(slotId: SlotId, profileKey: Option<string>, state: ConfigurationState, reserved: int) {
    predicate Serves(key: string) {
      profileKey == Some(key) && (state == Ready || state == Configuring)
    }

    predicate Free() {
      reserved == 0 && state != Configuring
    }
  }

  datatype SelectedSlot = SelectedSlot(slotId: SlotId, requiresConfiguration: bool)

  predicate LessReserved(a: CustomSlot, b: CustomSlot) {
    a.reserved < b.reserved || (a.reserved == b.reserved && a.slotId <= b.slotId)
  }

  /** The first serving slot in the order of reserved count and name. */
  function LeastServing(slots: seq<CustomSlot>, key: string): (r: Option<CustomSlot>)
    ensures r.None? <==> forall s :: s in slots ==> !s.Serves(key)
    ensures r.Some? ==> r.value in slots && r.value.Serves(key)
    ensures r.Some? ==> forall s :: s in slots && s.Serves(key) ==> LessReserved(r.value, s)
  {
    if slots == [] then None
    else
      assert slots == [slots[0]] + slots[1..];
      var rest := LeastServing(slots[1..], key);
      if slots[0].Serves(key) && (rest.None? || LessReserved(slots[0], rest.value)) then Some(slots[0]) else rest
  }

  /** The first free slot in the order of names. */
  function LeastFree(slots: seq<CustomSlot>): (r: Option<CustomSlot>)
    ensures r.None? <==> forall s :: s in slots ==> !s.Free()
    ensures r.Some? ==> r.value in slots && r.value.Free()
    ensures r.Some? ==> forall s :: s in slots && s.Free() ==> r.value.slotId <= s.slotId
  {
    if slots == [] then None
    else
      assert slots == [slots[0]] + slots[1..];
      var rest := LeastFree(slots[1..]);
      if slots[0].Free() && (rest.None? || slots[0].slotId <= rest.value.slotId) then Some(slots[0]) else rest
  }

  /**
   * A custom profile shares a slot that already has its shape; only when there is none is a slot given a new shape,
   * and then never one with reservations or with a configuration under way.
   */
  function SelectCustomSlot(custom: bool, key: string, slots: seq<CustomSlot>): (r: Option<SelectedSlot>)
    ensures r.Some? && !r.value.requiresConfiguration ==>
      exists s :: s in slots && s.slotId == r.value.slotId && s.Serves(key)
        && forall other :: other in slots && other.Serves(key) ==> LessReserved(s, other)
    ensures r.Some? && r.value.requiresConfiguration ==>
      && (forall s :: s in slots ==> !s.Serves(key))
      && (exists s :: s in slots && s.slotId == r.value.slotId && s.Free()
            && forall other :: other in slots && other.Free() ==> s.slotId <= other.slotId)
    ensures r.None? <==> !custom || forall s :: s in slots ==> !s.Serves(key) && !s.Free()
  {
    if !custom then None
    else
      var serving := LeastServing(slots, key);
      if serving.Some? then Some(SelectedSlot(serving.value.slotId, false))
      else
        var free := LeastFree(slots);
        if free.None? then None else Some(SelectedSlot(free.value.slotId, true))
  }
}
