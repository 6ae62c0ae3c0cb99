/** What a capacity plan guarantees, independently of the loop that finds it. */
module CapacityPlanning {
  import opened AccountResources
  import opened SchedulerPolicy
  import opened Wrappers

  /** `alt` gives the target its new shape and some ceiling in [1, applied] to every donor; nothing else differs. */
  ghost predicate Choice(slots: seq<CapacitySlot>, target: CapacityTarget, alt: seq<CapacitySlot>) {
    && |alt| == |slots|
    && forall i :: 0 <= i < |slots| ==>
      if slots[i].slotId == target.slotId then
        alt[i] == slots[i].(resources := Some(target.resources), applied := target.maxInstances)
      else if IsDonor(slots[i], target.slotId) then
        alt[i] == slots[i].(applied := alt[i].applied) && 1 <= alt[i].applied <= slots[i].applied
      else
        alt[i] == slots[i]
  }

  ghost predicate Feasible(slots: seq<CapacitySlot>, target: CapacityTarget, limit: Resources) {
    exists alt :: Choice(slots, target, alt) && ConfiguredCapacity(alt).Within(limit)
  }

  /** Lowers the recorded ceilings as a list of reductions says. */
  function ApplyReductions(slots: seq<CapacitySlot>, reductions: seq<Reduction>): (r: seq<CapacitySlot>)
    ensures |r| == |slots|
    ensures forall i :: 0 <= i < |slots| ==> r[i] == slots[i].(applied := r[i].applied)
    ensures forall i :: 0 <= i < |slots| && (forall c :: c in reductions ==> c.slotId != slots[i].slotId) ==> r[i] == slots[i]
    decreases |reductions|
  {
    if reductions == [] then slots
    else
      var i := IndexOf(slots, reductions[0].slotId);
      var next := if i < 0 then slots else slots[i := slots[i].(applied := reductions[0].target)];
      assert reductions == [reductions[0]] + reductions[1..];
      ApplyReductions(next, reductions[1..])
  }

  function ApplyPlan(slots: seq<CapacitySlot>, plan: CapacityPlan): seq<CapacitySlot>
    requires IndexOf(slots, plan.target.slotId) >= 0
  {
    ApplyReductions(WithTarget(slots, plan.target), plan.reductions)
  }

  // ---------------------------------------------------------------- one donor

  ghost predicate Drainable(slot: CapacitySlot) {
    slot.applied > 1 && slot.resources.Some? && slot.resources.value.NonNegative()
  }

  lemma {:induction false} TimesDifference(r: Resources, a: int, b: int)
    ensures r.Times(a).Minus(r.Times(b)) == r.Times(a - b)
    ensures r.Times(a - b) == ZERO.Minus(r.Times(b - a))
  {
  }

  lemma {:induction false} OneUnit(r: Resources)
    ensures r.Times(1) == r
  {
  }

  lemma {:induction false} Product(a: int, b: int, c: int)
    requires a >= 0
    ensures b <= c ==> a * b <= a * c
    ensures b <= c ==> b * a <= c * a
  {
  }

  /** A donor that is not drained resolves every dimension it has resources in. */
  lemma {:induction false} CutResolves(donor: CapacitySlot, configured: Resources, limit: Resources, d: Dimension)
    requires Drainable(donor)
    ensures 0 <= Cut(donor, configured, limit) < donor.applied
    ensures var cut, r := Cut(donor, configured, limit), donor.resources.value;
            cut < donor.applied - 1 && r.At(d) > 0 ==> configured.Minus(r.Times(cut)).At(d) <= limit.At(d)
  {
    var cut, r := Cut(donor, configured, limit), donor.resources.value;
    var units := UnitsFor(configured.Minus(limit).At(d), r.At(d));
    if cut < donor.applied - 1 && r.At(d) > 0 {
      assert units <= cut;
      Product(r.At(d), units, cut);
      assert r.Times(cut).At(d) == cut * r.At(d);
    }
  }

  /** One instance less would have left some dimension over the limit. */
  lemma {:induction false} CutIsLeast(donor: CapacitySlot, configured: Resources, limit: Resources)
    requires Drainable(donor)
    requires var cut := Cut(donor, configured, limit);
      cut > 0 && configured.Minus(donor.resources.value.Times(cut)).Within(limit)
    ensures var cut := Cut(donor, configured, limit);
      !configured.Minus(donor.resources.value.Times(cut - 1)).Within(limit)
  {
    var cut, r, deficit := Cut(donor, configured, limit), donor.resources.value, configured.Minus(limit);
    var d := if ReductionUnitsNeeded(deficit, r) == UnitsFor(deficit.vcpu, r.vcpu) then Vcpu
             else if ReductionUnitsNeeded(deficit, r) == UnitsFor(deficit.memoryMib, r.memoryMib) then Memory else Disk;
    var units := UnitsFor(deficit.At(d), r.At(d));
    assert units == ReductionUnitsNeeded(deficit, r) && cut <= units;
    assert (units - 1) * r.At(d) < deficit.At(d);
    Product(r.At(d), cut - 1, units - 1);
    assert r.Times(cut - 1).At(d) == (cut - 1) * r.At(d);
    assert configured.Minus(r.Times(cut - 1)).At(d) > limit.At(d);
  }

  /** Indices of different drainable slots. */
  ghost predicate Drainables(slots: seq<CapacitySlot>, donors: seq<nat>) {
    && (forall i :: 0 <= i < |donors| ==> donors[i] < |slots| && Drainable(slots[donors[i]]))
    && (forall i, j :: 0 <= i < j < |donors| ==> donors[i] != donors[j])
  }

  lemma {:induction false} ReclaimNeverAdds(
    slots: seq<CapacitySlot>, donors: seq<nat>, configured: Resources, limit: Resources, d: Dimension)
    requires Drainables(slots, donors)
    ensures Reclaim(slots, donors, configured, limit).0.At(d) <= configured.At(d)
    decreases |donors|
  {
    if donors != [] && !configured.Within(limit) {
      var donor := slots[donors[0]];
      var given := donor.resources.value.Times(Cut(donor, configured, limit));
      GivenIsNonNegative(donor, configured, limit, d);
      hide Resources.Times;
      ReclaimNeverAdds(slots, donors[1..], configured.Minus(given), limit, d);
    }
  }

  lemma {:induction false} GivenIsNonNegative(
      donor: CapacitySlot, configured: Resources, limit: Resources, d: Dimension)
    requires Drainable(donor)
    ensures donor.resources.value.Times(Cut(donor, configured, limit)).At(d) >= 0
  {
    CutResolves(donor, configured, limit, d);
    Product(donor.resources.value.At(d), 0, Cut(donor, configured, limit));
  }

  /** Reclamation only looks at the donors. */
  lemma {:induction false} ReclaimFrame(
    slots: seq<CapacitySlot>, other: seq<CapacitySlot>, donors: seq<nat>, configured: Resources, limit: Resources)
    requires HaveResources(slots, donors)
    requires forall i :: 0 <= i < |donors| ==> donors[i] < |other| && other[donors[i]] == slots[donors[i]]
    ensures Reclaim(slots, donors, configured, limit) == Reclaim(other, donors, configured, limit)
    decreases |donors|
  {
    hide Resources.Times;
    if donors != [] && !configured.Within(limit) {
      var donor := slots[donors[0]];
      ReclaimFrame(slots, other, donors[1..], configured.Minus(donor.resources.value.Times(Cut(donor, configured, limit))), limit);
    }
  }

  /** The slots after the first donor has given up its share. */
  function AfterFirst(slots: seq<CapacitySlot>, donors: seq<nat>, limit: Resources): seq<CapacitySlot>
    requires donors != [] && HaveResources(slots, donors)
  {
    var donor := slots[donors[0]];
    slots[donors[0] := donor.(applied := donor.applied - Cut(donor, ConfiguredCapacity(slots), limit))]
  }

  lemma {:induction false} AfterFirstFacts(slots: seq<CapacitySlot>, donors: seq<nat>, limit: Resources)
    requires donors != [] && Drainables(slots, donors)
    ensures var configured, next := ConfiguredCapacity(slots), AfterFirst(slots, donors, limit);
      var donor, left := slots[donors[0]], ConfiguredCapacity(next);
      && Drainables(next, donors[1..])
      && left == configured.Minus(donor.resources.value.Times(Cut(donor, configured, limit)))
      && Reclaim(slots, donors[1..], left, limit) == Reclaim(next, donors[1..], left, limit)
  {
    var next := AfterFirst(slots, donors, limit);
    var k := donors[0];
    ConfiguredCapacityUpdate(slots, k, next[k]);
    TimesDifference(slots[k].resources.value, slots[k].applied, next[k].applied);
    hide Resources.Times;
    assert forall i :: 0 <= i < |donors[1..]| ==> donors[1..][i] == donors[i + 1] && donors[i + 1] != k;
    ReclaimFrame(slots, next, donors[1..], ConfiguredCapacity(next), limit);
  }

  ghost predicate IdsAgree(a: seq<CapacitySlot>, b: seq<CapacitySlot>) {
    |a| == |b| && forall i :: 0 <= i < |a| ==> a[i].slotId == b[i].slotId
  }

  lemma {:induction false} IndexOfDistinct(slots: seq<CapacitySlot>, i: nat)
    requires DistinctIds(slots) && i < |slots|
    ensures IndexOf(slots, slots[i].slotId) == i
  {
    var k := IndexOf(slots, slots[i].slotId);
    assert slots[k].slotId == slots[i].slotId;
  }

  /** Applying the reductions leaves exactly the total that reclamation reports, and touches donors only. */
  lemma {:induction false} ReclaimTotal(slots: seq<CapacitySlot>, donors: seq<nat>, limit: Resources)
    requires DistinctIds(slots) && Drainables(slots, donors)
    ensures var (configured, reductions) := Reclaim(slots, donors, ConfiguredCapacity(slots), limit);
      && ConfiguredCapacity(ApplyReductions(slots, reductions)) == configured
      && (forall i :: 0 <= i < |slots| ==>
            var applied := ApplyReductions(slots, reductions)[i].applied;
            applied == slots[i].applied || (i in donors && 1 <= applied <= slots[i].applied))
    decreases |donors|
  {
    hide Resources.Times;
    hide ConfiguredCapacity;
    var configured := ConfiguredCapacity(slots);
    if donors != [] && !configured.Within(limit) {
      AfterFirstFacts(slots, donors, limit);
      var k, next := donors[0], AfterFirst(slots, donors, limit);
      CutResolves(slots[k], configured, limit, Vcpu);
      IndexOfDistinct(slots, k);
      hide Cut, UnitsFor;
      if next[k].applied == slots[k].applied {
        assert next == slots;
      }
      assert donors == [k] + donors[1..];
      ReclaimTotal(next, donors[1..], limit);
    }
  }

  // ---------------------------------------------------------------- when a plan exists

  /** `alt` differs from `slots` only in the ceilings of the donors, none of them below one. */
  ghost predicate CeilingsOnly(slots: seq<CapacitySlot>, donors: seq<nat>, alt: seq<CapacitySlot>) {
    && |alt| == |slots|
    && forall i :: 0 <= i < |slots| ==>
      alt[i] == slots[i] || (i in donors && alt[i] == slots[i].(applied := alt[i].applied) && 1 <= alt[i].applied)
  }

  /** If a dimension stays over the limit after reclaiming, it does so under every choice of ceilings. */
  lemma {:induction false} StuckMeansInfeasible(
    slots: seq<CapacitySlot>, donors: seq<nat>, alt: seq<CapacitySlot>, limit: Resources, d: Dimension)
    requires Drainables(slots, donors) && CeilingsOnly(slots, donors, alt)
    requires Reclaim(slots, donors, ConfiguredCapacity(slots), limit).0.At(d) > limit.At(d)
    ensures ConfiguredCapacity(alt).At(d) > limit.At(d)
    decreases |donors|
  {
    if donors == [] {
      assert alt == slots;
    } else {
      var k, next := donors[0], AfterFirst(slots, donors, limit);
      AfterFirstFacts(slots, donors, limit);
      ReclaimNeverAdds(slots, donors, ConfiguredCapacity(slots), limit, d);
      ReclaimNeverAdds(next, donors[1..], ConfiguredCapacity(next), limit, d);
      assert alt[k].resources == next[k].resources && 1 <= alt[k].applied;
      FirstDonorHelps(slots, donors, alt[k].applied, limit, d);
      hide Resources.Times;
      hide ConfiguredCapacity;
      assert donors == [k] + donors[1..];
      StuckMeansInfeasible(next, donors[1..], alt[k := next[k]], limit, d);
      ConfiguredCapacityUpdate(alt, k, next[k]);
    }
  }

  /** In a dimension that stays over the limit, no ceiling costs the first donor less than what it keeps. */
  lemma {:induction false} FirstDonorHelps(
      slots: seq<CapacitySlot>, donors: seq<nat>, applied: int, limit: Resources, d: Dimension)
    requires donors != [] && Drainables(slots, donors) && 1 <= applied
    requires ConfiguredCapacity(AfterFirst(slots, donors, limit)).At(d) > limit.At(d)
    ensures var kept := AfterFirst(slots, donors, limit)[donors[0]];
      kept.Cost().At(d) <= kept.(applied := applied).Cost().At(d)
  {
    AfterFirstFacts(slots, donors, limit);
    var k, configured, next := donors[0], ConfiguredCapacity(slots), AfterFirst(slots, donors, limit);
    var r := slots[k].resources.value;
    CutResolves(slots[k], configured, limit, d);
    assert next[k].applied == 1 || r.At(d) == 0;
    assert next[k].Cost().At(d) == next[k].applied * r.At(d);
    assert next[k].(applied := applied).Cost().At(d) == applied * r.At(d);
    Product(r.At(d), next[k].applied, applied);
  }

  /** The donors are untouched by giving the target its new shape. */
  lemma {:induction false} WithTargetFacts(slots: seq<CapacitySlot>, target: CapacityTarget, limit: Resources)
    requires DistinctIds(slots) && NonNegativeResources(slots)
    requires IndexOf(slots, target.slotId) >= 0
    ensures var start, donors := WithTarget(slots, target), Donors(slots, target.slotId, |slots|);
      && DistinctIds(start)
      && Drainables(slots, donors)
      && Drainables(start, donors)
      && (forall i :: 0 <= i < |slots| && slots[i].slotId != target.slotId ==> start[i] == slots[i])
      && Reclaim(slots, donors, ConfiguredCapacity(start), limit) == Reclaim(start, donors, ConfiguredCapacity(start), limit)
  {
    hide Resources.Times;
    hide ConfiguredCapacity;
    var start, donors := WithTarget(slots, target), Donors(slots, target.slotId, |slots|);
    assert forall i :: 0 <= i < |donors| ==> donors[i] in donors;
    assert forall i :: 0 <= i < |donors| ==> IsDonor(slots[donors[i]], target.slotId);
    assert forall i :: 0 <= i < |donors| ==> start[donors[i]] == slots[donors[i]];
    ReclaimFrame(slots, start, donors, ConfiguredCapacity(start), limit);
  }

  /** The ceilings a plan leads to are one of the choices, and `configured` is their recomputed total. */
  lemma {:induction false} PlanTotal(slots: seq<CapacitySlot>, target: CapacityTarget, limit: Resources)
    requires DistinctIds(slots) && NonNegativeResources(slots)
    requires PlanFor(slots, target, limit).Some?
    ensures var plan := PlanFor(slots, target, limit).value;
      && plan.target == target
      && Choice(slots, target, ApplyPlan(slots, plan))
      && ConfiguredCapacity(ApplyPlan(slots, plan)) == plan.configured
      && plan.configured.Within(limit)
  {
    hide Resources.Times;
    hide ConfiguredCapacity;
    WithTargetFacts(slots, target, limit);
    var start, donors := WithTarget(slots, target), Donors(slots, target.slotId, |slots|);
    ReclaimTotal(start, donors, limit);
    hide Reclaim, IsDonor, Drainable;
    PlanIsChoice(slots, target, PlanFor(slots, target, limit).value.reductions);
  }

  /** Ceilings lowered only for donors make a choice. */
  lemma {:induction false} PlanIsChoice(slots: seq<CapacitySlot>, target: CapacityTarget, reductions: seq<Reduction>)
    requires DistinctIds(slots) && IndexOf(slots, target.slotId) >= 0
    requires var start, donors := WithTarget(slots, target), Donors(slots, target.slotId, |slots|);
      forall i :: 0 <= i < |slots| ==>
        var applied := ApplyReductions(start, reductions)[i].applied;
        applied == start[i].applied || (i in donors && 1 <= applied <= start[i].applied)
    ensures Choice(slots, target, ApplyReductions(WithTarget(slots, target), reductions))
  {
    var start := WithTarget(slots, target);
    var end := ApplyReductions(start, reductions);
    hide ApplyReductions, IsDonor;
    forall i | 0 <= i < |slots|
      ensures slots[i].slotId == target.slotId ==> end[i] == start[i]
      ensures slots[i].slotId != target.slotId ==> start[i] == slots[i] && end[i] == slots[i].(applied := end[i].applied)
    {
      IndexOfDistinct(slots, i);
      if slots[i].slotId == target.slotId {
        NoDonorIsTarget(slots, target.slotId, i);
      }
    }
  }

  lemma {:induction false} NoDonorIsTarget(slots: seq<CapacitySlot>, target: SlotId, i: nat)
    requires i < |slots| && slots[i].slotId == target
    ensures i !in Donors(slots, target, |slots|)
  {
  }

  /**
   * The planner answers exactly when some choice of ceilings in [1, applied] for the idle donors meets the limit:
   * draining them least-recently-released first never misses one.
   */
  lemma {:induction false} PlanExactlyWhenFeasible(slots: seq<CapacitySlot>, target: CapacityTarget, limit: Resources)
    requires DistinctIds(slots) && NonNegativeResources(slots)
    ensures PlanFor(slots, target, limit).Some?
      <==> IndexOf(slots, target.slotId) >= 0 && target.maxInstances >= 1 && Feasible(slots, target, limit)
  {
    if PlanFor(slots, target, limit).Some? {
      PlanTotal(slots, target, limit);
    } else if IndexOf(slots, target.slotId) >= 0 && target.maxInstances >= 1 {
      WithTargetFacts(slots, target, limit);
      var start, donors := WithTarget(slots, target), Donors(slots, target.slotId, |slots|);
      var configured := Reclaim(start, donors, ConfiguredCapacity(start), limit).0;
      var d := if configured.vcpu > limit.vcpu then Vcpu else if configured.memoryMib > limit.memoryMib then Memory else Disk;
      assert configured.At(d) > limit.At(d);
      forall alt | Choice(slots, target, alt)
        ensures !ConfiguredCapacity(alt).Within(limit)
      {
        assert CeilingsOnly(start, donors, alt);
        StuckMeansInfeasible(start, donors, alt, limit, d);
      }
    }
  }

  // ---------------------------------------------------------------- which donors are cut

  ghost predicate PositiveResources(slots: seq<CapacitySlot>) {
    forall i :: 0 <= i < |slots| && slots[i].resources.Some? ==> slots[i].resources.value.Positive()
  }

  /** While something does not fit, a donor with positive resources is always cut. */
  lemma {:induction false} CutIsPositive(donor: CapacitySlot, configured: Resources, limit: Resources)
    requires Drainable(donor) && donor.resources.value.Positive() && !configured.Within(limit)
    ensures Cut(donor, configured, limit) > 0
    ensures var cut := Cut(donor, configured, limit);
      cut < donor.applied - 1 ==> configured.Minus(donor.resources.value.Times(cut)).Within(limit)
  {
    forall d: Dimension
      ensures var cut := Cut(donor, configured, limit);
        cut < donor.applied - 1 ==> configured.Minus(donor.resources.value.Times(cut)).At(d) <= limit.At(d)
    {
      CutResolves(donor, configured, limit, d);
    }
    var cut := Cut(donor, configured, limit);
    hide Resources.Times;
    var left := configured.Minus(donor.resources.value.Times(cut));
    assert left.At(Vcpu) == left.vcpu && left.At(Memory) == left.memoryMib && left.At(Disk) == left.diskMb;
  }

  /** The reductions name a prefix of the donors; all but the last are drained; the last gives no unit too many. */
  ghost predicate LeastPrefix(
    slots: seq<CapacitySlot>, donors: seq<nat>, configured: Resources, reductions: seq<Reduction>, limit: Resources)
    requires HaveResources(slots, donors)
  {
    && |reductions| <= |donors|
    && (forall i :: 0 <= i < |reductions| ==> reductions[i].slotId == slots[donors[i]].slotId)
    && (forall i :: 0 <= i < |reductions| - 1 ==> reductions[i].target == 1)
    && (reductions != [] ==> !configured.Plus(slots[donors[|reductions| - 1]].resources.value).Within(limit))
  }

  /** Giving the last unit back would not fit. */
  lemma {:induction false} LastUnitIsNeeded(donor: CapacitySlot, configured: Resources, limit: Resources)
    requires Drainable(donor) && donor.resources.value.Positive() && !configured.Within(limit)
    requires configured.Minus(donor.resources.value.Times(Cut(donor, configured, limit))).Within(limit)
    ensures var next := configured.Minus(donor.resources.value.Times(Cut(donor, configured, limit)));
      !next.Plus(donor.resources.value).Within(limit)
  {
    hide Cut, Resources.Times;
    var cut := Cut(donor, configured, limit);
    CutIsPositive(donor, configured, limit);
    CutIsLeast(donor, configured, limit);
    TimesDifference(donor.resources.value, cut, cut - 1);
    OneUnit(donor.resources.value);
  }

  lemma {:induction false} ReclaimLeastPrefix(
      slots: seq<CapacitySlot>, donors: seq<nat>, configured: Resources, limit: Resources)
    requires Drainables(slots, donors) && PositiveResources(slots)
    requires Reclaim(slots, donors, configured, limit).0.Within(limit)
    ensures var (left, reductions) := Reclaim(slots, donors, configured, limit);
      LeastPrefix(slots, donors, left, reductions, limit)
    decreases |donors|
  {
    if donors != [] && !configured.Within(limit) {
      hide Resources.Times, Cut;
      var donor := slots[donors[0]];
      var cut := Cut(donor, configured, limit);
      var next := configured.Minus(donor.resources.value.Times(cut));
      CutIsPositive(donor, configured, limit);
      CutResolves(donor, configured, limit, Vcpu);
      hide UnitsFor, ReductionUnitsNeeded, Drainable, PositiveResources, Resources.Positive;
      ReclaimLeastPrefix(slots, donors[1..], next, limit);
      if next.Within(limit) {
        LastUnitIsNeeded(donor, configured, limit);
      }
    }
  }

  /**
   * The donors cut form a least-recently-released prefix of the idle ceilings, drained except possibly for the last,
   * and giving the last one unit back would not fit.
   */
  lemma {:induction false} PlanCutsLeastPrefix(slots: seq<CapacitySlot>, target: CapacityTarget, limit: Resources)
    requires DistinctIds(slots) && PositiveResources(slots)
    requires PlanFor(slots, target, limit).Some?
    ensures var plan, donors := PlanFor(slots, target, limit).value, Donors(slots, target.slotId, |slots|);
      && InReleaseOrder(slots, donors)
      && (forall i :: i in donors <==> 0 <= i < |slots| && IsDonor(slots[i], target.slotId))
      && HaveResources(slots, donors)
      && LeastPrefix(slots, donors, plan.configured, plan.reductions, limit)
  {
    WithTargetFacts(slots, target, limit);
    var donors := Donors(slots, target.slotId, |slots|);
    assert forall i :: 0 <= i < |donors| ==> donors[i] in donors;
    ReclaimLeastPrefix(slots, donors, ConfiguredCapacity(WithTarget(slots, target)), limit);
  }
}
