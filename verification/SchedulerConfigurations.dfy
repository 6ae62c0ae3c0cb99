/** Giving a slot a new machine: who may do it, when it is held back, and when nobody is left to finish it. */
module SchedulerConfigurations {
  import opened AccountResources
  import opened SchedulerActs
  import opened SchedulerAdmissions
  import opened SchedulerCapacity
  import opened SchedulerEndings
  import opened SchedulerMachines
  import opened SchedulerModel
  import SchedulerNames
  import opened SchedulerPolicy
  import opened SchedulerReservations
  import opened SchedulerRuns
  import opened Wrappers

  // ---------------------------------------------------------------- claims

  /** The slot is held back for a reclamation, or its ceiling is being changed. */
  predicate Blocked(slot: Slot) {
    slot.reclaimPending || slot.updating
  }

  predicate OwnsConfiguration(s: State, id: JobId, i: SlotIndex) {
    s.slots[i].state == Configuring && s.slots[i].configurationOwner == Some(id)
  }

  ghost predicate Granted(s: State, id: JobId, t: State, answer: ClaimAnswer) {
    && answer.Provision? && id in s.jobs
    && t == s.(jobs := s.jobs[id := s.jobs[id].(status := Provisioning, ownerScoped := true)])
  }

  /**
   * A waiting job claims under its own runner name. The owner of a configuration is granted it exactly when the slot is
   * not blocked, and everyone else on a slot that is being configured waits; otherwise the recorded ceiling has to have
   * reached the desired one. Who is granted starts provisioning, with the slot's generation and room for everyone on it.
   */
  lemma {:induction false} WaitingClaimGrantedExactlyWhen(s: State, id: JobId, now: int)
    requires id in s.jobs && s.jobs[id].status.Waiting() && s.jobs[id].slot.Some?
    ensures var name, i := s.jobs[id].runnerName, s.jobs[id].slot.value;
      var slot, answer, t := s.slots[i], ClaimProvisioning(s, id, name), Step(s, Claim(id, name), now);
      if !Blocked(slot)
         && (OwnsConfiguration(s, id, i) || (slot.state != Configuring && slot.desired <= slot.applied)) then
        && Granted(s, id, t, answer)
        && answer == Provision(i, Max(1, slot.reserved), slot.generation, OwnsConfiguration(s, id, i))
      else answer == Wait && t == s
  {
  }

  /** A job that has been claimed before, or runs already, is answered as its slot is now, and nothing changes. */
  lemma {:induction false} StartedClaimGrantedExactlyWhen(s: State, id: JobId, now: int)
    requires id in s.jobs && (s.jobs[id].status.Provisioning? || s.jobs[id].status.Running?)
    ensures var name, slotId := s.jobs[id].runnerName, s.jobs[id].slot;
      var answer := ClaimProvisioning(s, id, name);
      && Step(s, Claim(id, name), now) == s
      && (if slotId.None? then answer == Missing
          else if Blocked(s.slots[slotId.value]) || s.slots[slotId.value].applied < s.slots[slotId.value].desired then answer == Wait
          else answer == Provision(slotId.value, Max(1, s.slots[slotId.value].reserved), s.slots[slotId.value].generation,
                                   OwnsConfiguration(s, id, slotId.value)))
  {
  }

  predicate Unclaimable(status: Status) {
    Over(status) || status.StoppedAwaitingCompletion?
  }

  /** A claim under another name, or of a job that is over or in no slot. */
  lemma {:induction false} OtherClaimsAreRefused(s: State, id: JobId, name: string, now: int)
    ensures var answer := ClaimProvisioning(s, id, name);
      && (id !in s.jobs ==> answer == Missing)
      && (id in s.jobs && s.jobs[id].runnerName != name ==> answer == Refused)
      && (id in s.jobs && s.jobs[id].runnerName == name && Unclaimable(s.jobs[id].status) ==> answer == Refused)
      && (id in s.jobs && s.jobs[id].runnerName == name && s.jobs[id].status.Waiting() && s.jobs[id].slot.None? ==> answer == Wait)
      && (!answer.Provision? ==> Step(s, Claim(id, name), now) == s)
  {
  }

  /**
   * A claim that is repeated because its answer was lost is answered as before, unless the job configures a slot whose
   * recorded ceiling is below the desired one: then it has to wait, and no alarm raises the ceiling of such a slot.
   */
  lemma {:induction false} RepeatedClaimGrantedExactlyWhen(s: State, id: JobId, now: int, time: int)
    requires id in s.jobs && s.jobs[id].status.Waiting() && ClaimProvisioning(s, id, s.jobs[id].runnerName).Provision?
    ensures var name := s.jobs[id].runnerName;
      var answer, t := ClaimProvisioning(s, id, name), Step(s, Claim(id, name), now);
      var slot := t.slots[answer.slot];
      && id in t.jobs && CanStart(t, id, name)
      && Step(t, Claim(id, name), now) == t
      && (if answer.requiresConfiguration && slot.applied < slot.desired then
            ClaimProvisioning(t, id, name) == Wait && !UpdateDue(slot, time)
          else
            ClaimProvisioning(t, id, name) == answer)
  {
  }

  // ---------------------------------------------------------------- held configurations

  lemma {:induction false} ReclaimsNothing(rows: seq<CapacitySlot>, donors: seq<nat>, configured: Resources)
    requires HaveResources(rows, donors)
    requires var (left, reductions) := Reclaim(rows, donors, configured, ACCOUNT_LIMIT);
      left.Within(ACCOUNT_LIMIT) && reductions == []
    ensures configured.Within(ACCOUNT_LIMIT)
    decreases |donors|
  {
    if donors != [] && !configured.Within(ACCOUNT_LIMIT) {
      var donor := rows[donors[0]];
      var cut := Cut(donor, configured, ACCOUNT_LIMIT);
      GivingNothing(configured, donor.resources.value);
      hide Cut, Resources.Times;
      ReclaimsNothing(rows, donors[1..], configured.Minus(donor.resources.value.Times(cut)));
    }
  }

  /** All machines fit the account once the slot has that machine and that ceiling. */
  predicate FitsAsItIs(slots: SlotTable, i: SlotIndex, resources: Resources, target: int) {
    var rows := CapacityRows(slots);
    && 1 <= target && IndexOf(rows, i) >= 0
    && ConfiguredCapacity(WithTarget(rows, CapacityTarget(i, resources, target))).Within(ACCOUNT_LIMIT)
  }

  lemma {:induction false} NothingToReclaimExactlyWhen(slots: SlotTable, i: SlotIndex, resources: Resources, target: int)
    ensures (PlanOn(slots, i, resources, target).Some? && PlanOn(slots, i, resources, target).value.reductions == [])
      <==> FitsAsItIs(slots, i, resources, target)
  {
    var rows := CapacityRows(slots);
    IndexOfIndexed(rows, i);
    if 1 <= target {
      var donors := Donors(rows, i, |rows|);
      assert forall k :: 0 <= k < |donors| ==> donors[k] in donors;
      var configured := ConfiguredCapacity(WithTarget(rows, CapacityTarget(i, resources, target)));
      hide ConfiguredCapacity, Donors, CapacityRows;
      if configured.Within(ACCOUNT_LIMIT) {
        ReclaimEnds(rows, donors, configured, ACCOUNT_LIMIT);
      } else if PlanOn(slots, i, resources, target).Some? && PlanOn(slots, i, resources, target).value.reductions == [] {
        ReclaimsNothing(rows, donors, configured);
      }
      hide Reclaim;
    }
  }

  /**
   * The job of an admission that gives a slot a new machine owns the configuration; what the slot has stays recorded until
   * that is done. It is held back exactly when all
   * machines do not fit the account until others are lowered, and otherwise the job's next claim is granted at once.
   */
  lemma {:induction false} ConfiguringAdmission(s: State, now: int, id: JobId, i: SlotIndex)
    requires Takes(s, AdmitNext(s, now), id, i)
    requires SelectSlot(s.slots, s.jobs[id].profile) == Some(SelectedSlot(i, true))
    ensures var t, profile := AdmitNext(s, now), s.jobs[id].profile;
      && OwnsConfiguration(t, id, i) && t.slots[i].pending == Some(MachineOf(profile))
      && t.slots[i].shape == s.slots[i].shape && t.slots[i].applied == s.slots[i].applied
      && t.slots[i].reserved == t.slots[i].desired == 1
      && (t.slots[i].reclaimPending <==> !FitsAsItIs(s.slots, i, profile.resources, 1))
      && (FitsAsItIs(s.slots, i, profile.resources, 1) && !s.slots[i].updating ==>
            ClaimProvisioning(t, id, s.jobs[id].runnerName) == Provision(i, 1, s.slots[i].generation + 1, true))
  {
    var configure, plan := AdmissionTaken(s, now, id, i);
    ConfiguredSlotIsUnreserved(s.slots, s.jobs[id].profile, i);
    NothingToReclaimExactlyWhen(s.slots, i, s.jobs[id].profile.resources, 1);
    RowOfAdmission(s, id, i, configure, plan.reductions, now);
    hide AdmitNext, SelectSlot, PlanOn, FitsAsItIs, Admit;
  }

  /**
   * A job that joins a configuration under way leaves it to its owner; the hold is decided anew. What its ceiling still
   * lacks when the slot is ready is due at once.
   */
  lemma {:induction false} JoiningAdmission(s: State, now: int, id: JobId, i: SlotIndex)
    requires Takes(s, AdmitNext(s, now), id, i) && s.slots[i].state == Configuring
    requires SelectSlot(s.slots, s.jobs[id].profile) == Some(SelectedSlot(i, false))
    ensures var t, profile := AdmitNext(s, now), s.jobs[id].profile;
      && t.slots[i].state == Configuring && t.slots[i].configurationOwner == s.slots[i].configurationOwner
      && t.slots[i].pending == Some(MachineOf(profile))
      && t.slots[i].shape == s.slots[i].shape && t.slots[i].applied == s.slots[i].applied
      && t.slots[i].reserved == t.slots[i].desired == s.slots[i].reserved + 1
      && (t.slots[i].reclaimPending <==> !FitsAsItIs(s.slots, i, profile.resources, t.slots[i].desired))
      && (!t.slots[i].updating && t.slots[i].applied < t.slots[i].desired ==>
            forall time: nat :: UpdateDue(ConfiguredSlot(t.slots[i]), time))
  {
    var configure, plan := AdmissionTaken(s, now, id, i);
    NothingToReclaimExactlyWhen(s.slots, i, s.jobs[id].profile.resources, s.slots[i].reserved + 1);
    RowOfAdmission(s, id, i, configure, plan.reductions, now);
    hide AdmitNext, SelectSlot, PlanOn, FitsAsItIs, Admit;
  }

  predicate IsHeld(slot: Slot) {
    slot.state == Configuring && slot.reclaimPending && slot.pending.Some?
  }

  /** Lifting or keeping one hold changes nothing that another plan depends on. */
  lemma {:induction false} HoldLeavesRows(s: State, held: SlotIndex, now: int, i: SlotIndex)
    ensures var t := ReleaseHold(s, held, now);
      && CapacityRow(i, t.slots[i]) == CapacityRow(i, s.slots[i])
      && (i != held && s.slots[i].state == Configuring ==> t.slots[i] == s.slots[i])
      && (i != held ==> t.slots[i].reclaimPending == s.slots[i].reclaimPending)
  {
    var slot := s.slots[held];
    if IsHeld(slot) && PlanOn(s.slots, held, slot.pending.value.resources, slot.desired).Some? {
      var reductions := PlanOn(s.slots, held, slot.pending.value.resources, slot.desired).value.reductions;
      PlanReduces(s.slots, held, slot.pending.value.resources, slot.desired);
      ReclamationLowers(s, reductions, now, i);
      hide PlanOn, ScheduleReclamation, UpdateDue, Reducible;
      assert TargetFor(reductions, i).Some? || TargetFor(reductions, i).None?;
    }
    hide PlanOn, ScheduleReclamation;
  }

  lemma {:induction false} SameRowsFit(s: State, t: State, i: SlotIndex, resources: Resources, target: int)
    requires forall j: SlotIndex :: CapacityRow(j, t.slots[j]) == CapacityRow(j, s.slots[j])
    ensures FitsAsItIs(t.slots, i, resources, target) == FitsAsItIs(s.slots, i, resources, target)
  {
    hide CapacityRow, ConfiguredCapacity;
    assert CapacityRows(t.slots) == CapacityRows(s.slots);
  }

  lemma {:induction false} HoldsLeaveRows(s: State, held: SlotIndex, now: int)
    ensures forall j: SlotIndex :: CapacityRow(j, ReleaseHold(s, held, now).slots[j]) == CapacityRow(j, s.slots[j])
  {
    forall j: SlotIndex
      ensures CapacityRow(j, ReleaseHold(s, held, now).slots[j]) == CapacityRow(j, s.slots[j])
    {
      HoldLeavesRows(s, held, now, j);
    }
    hide ReleaseHold, CapacityRow;
  }

  lemma {:induction false} OwnHoldLifts(s: State, i: SlotIndex, now: int)
    ensures var a, b := s.slots[i], ReleaseHold(s, i, now).slots[i];
      if IsHeld(a) && FitsAsItIs(s.slots, i, a.pending.value.resources, a.desired) then b == a.(reclaimPending := false)
      else b.reclaimPending == a.reclaimPending && (a.state == Configuring ==> b == a)
  {
    var slot := s.slots[i];
    if IsHeld(slot) {
      NothingToReclaimExactlyWhen(s.slots, i, slot.pending.value.resources, slot.desired);
      if PlanOn(s.slots, i, slot.pending.value.resources, slot.desired).Some? {
        var reductions := PlanOn(s.slots, i, slot.pending.value.resources, slot.desired).value.reductions;
        PlanReduces(s.slots, i, slot.pending.value.resources, slot.desired);
        ReclamationLowers(s, reductions, now, i);
        assert TargetFor(reductions, i).None?;
      }
    }
    hide PlanOn, ScheduleReclamation, FitsAsItIs;
  }

  predicate Distinct(rows: seq<SlotIndex>) {
    forall k, l :: 0 <= k < l < |rows| ==> rows[k] != rows[l]
  }

  lemma {:induction false} ListedHoldsLift(s: State, rows: seq<SlotIndex>, now: int, i: SlotIndex)
    requires Distinct(rows) && s.slots[i].state == Configuring
    ensures var a, b := s.slots[i], ReleaseHolds(s, rows, now).slots[i];
      if i in rows && IsHeld(a) && FitsAsItIs(s.slots, i, a.pending.value.resources, a.desired)
      then b == a.(reclaimPending := false) else b == a
    decreases |rows|
  {
    if rows != [] {
      var t, a := ReleaseHold(s, rows[0], now), s.slots[i];
      assert rows == [rows[0]] + rows[1..];
      assert rows[0] !in rows[1..];
      HoldsLeaveRows(s, rows[0], now);
      hide FitsAsItIs, ReleaseHold, CapacityRow;
      if a.pending.Some? {
        SameRowsFit(s, t, i, a.pending.value.resources, a.desired);
      }
      if i == rows[0] {
        OwnHoldLifts(s, i, now);
      } else {
        HoldLeavesRows(s, rows[0], now, i);
      }
      ListedHoldsLift(t, rows[1..], now, i);
    }
  }

  lemma {:induction false} EveryCustomSlotIsListed(i: SlotIndex)
    ensures Distinct(CUSTOM_ROWS) && (i in CUSTOM_ROWS <==> i < CUSTOM_SLOTS)
  {
    var rows := CUSTOM_ROWS;
    assert rows[0] == 0 && rows[1] == 2 && rows[2] == 3 && rows[3] == 4 && rows[4] == 5 && rows[5] == 6 && rows[6] == 7;
    assert rows[7] == 8 && rows[8] == 9 && rows[9] == 1 && |rows| == 10;
  }

  /** When an alarm ends, exactly those held configurations are let go whose machine now fits the account as it is. */
  lemma {:induction false} HoldsLiftExactlyWhen(s: State, now: int, i: SlotIndex)
    requires i < CUSTOM_SLOTS && s.slots[i].state == Configuring
    ensures var a, b := s.slots[i], ReleaseHolds(s, CUSTOM_ROWS, now).slots[i];
      if IsHeld(a) && FitsAsItIs(s.slots, i, a.pending.value.resources, a.desired)
      then b == a.(reclaimPending := false) else b == a
  {
    EveryCustomSlotIsListed(i);
    ListedHoldsLift(s, CUSTOM_ROWS, now, i);
    hide ReleaseHolds, FitsAsItIs;
  }

  /** A hold that is kept, because something has to be lowered first, has that lowered at once. */
  lemma {:induction false} KeptHoldLowers(s: State, held: SlotIndex, now: int, j: SlotIndex)
    requires IsHeld(s.slots[held]) && j != held
    ensures Untouched(s, ReleaseHold(s, held, now), j) || Lowered(s, ReleaseHold(s, held, now), j, now)
    ensures var slot, plan := s.slots[held], PlanOn(s.slots, held, s.slots[held].pending.value.resources, s.slots[held].desired);
      plan.Some? ==> forall r :: r in plan.value.reductions && r.slotId == j ==>
        Lowered(s, ReleaseHold(s, held, now), j, now) && ReleaseHold(s, held, now).slots[j].desired == r.target
  {
    var slot := s.slots[held];
    var plan := PlanOn(s.slots, held, slot.pending.value.resources, slot.desired);
    if plan.Some? {
      var reductions := plan.value.reductions;
      PlanReduces(s.slots, held, slot.pending.value.resources, slot.desired);
      ReclamationLowers(s, reductions, now, j);
      TargetIsNamed(s.slots, reductions, j);
      var r := Scheduled(s, reductions, now);
      assert Untouched(r, ReleaseHold(s, held, now), j);
      hide PlanOn, Scheduled, ReleaseHold, Lowered, Untouched, Reducible;
      if TargetFor(reductions, j).Some? {
        LoweredStays(s, r, ReleaseHold(s, held, now), j, now);
        SameSlot(r, ReleaseHold(s, held, now), j);
      } else {
        LoweredLater(s, r, ReleaseHold(s, held, now), j, now);
      }
    } else {
      assert Untouched(s, s, j);
    }
    hide PlanOn;
  }

  lemma {:induction false} SameSlot(s: State, t: State, j: SlotIndex)
    requires Untouched(s, t, j)
    ensures t.slots[j] == s.slots[j]
  {
  }

  lemma {:induction false} TargetIsNamed(slots: SlotTable, reductions: seq<Reduction>, j: SlotIndex)
    requires Reducible(slots, reductions)
    ensures forall r :: r in reductions && r.slotId == j ==> TargetFor(reductions, j) == Some(r.target)
    decreases |reductions|
  {
    if reductions != [] {
      assert forall k :: 0 <= k < |reductions[1..]| ==> reductions[1..][k] == reductions[k + 1];
      TargetIsNamed(slots, reductions[1..], j);
      forall r | r in reductions && r.slotId == j
        ensures TargetFor(reductions, j) == Some(r.target)
      {
        var k :| 0 <= k < |reductions| && reductions[k] == r;
        assert k > 0 ==> reductions[0].slotId != reductions[k].slotId;
      }
    }
  }

  // ---------------------------------------------------------------- configurations nobody can finish

  /** A slot that is being configured has the job that does it. */
  ghost predicate IsTended(s: State, i: SlotIndex) {
    s.slots[i].state == Configuring ==>
      && s.slots[i].configurationOwner.Some?
      && HoldsSlot(s, s.slots[i].configurationOwner.value, i)
  }

  ghost predicate HoldsSlot(s: State, id: JobId, i: SlotIndex) {
    id in s.jobs && s.jobs[id].Holds() == Some(i)
  }

  /** While a configuration is not tended, every waiting job on the slot waits. */
  lemma {:induction false} UntendedMakesWait(s: State, id: JobId, i: SlotIndex)
    requires !IsTended(s, i) && HoldsSlot(s, id, i) && s.jobs[id].status.Waiting()
    ensures ClaimProvisioning(s, id, s.jobs[id].runnerName) == Wait
  {
  }

  ghost predicate StaysOn(s: State, id: JobId, i: SlotIndex) {
    HoldsSlot(s, id, i) && !s.jobs[id].status.Releasing?
  }

  /**
   * The owner of the configuration leaves the slot while other reservations are left on it: it ends, its runner turns out
   * to run another job, it turns out to run on another slot's runner, or a restart ends it.
   */
  ghost predicate Abandons(s: State, e: Event, now: int, i: SlotIndex)
    requires Possible(s, e, now)
  {
    && s.slots[i].state == Configuring && s.slots[i].configurationOwner.Some?
    && var (owner, ending) := (s.slots[i].configurationOwner.value, EndingOf(s, e, now));
       || (ending.Some? && ending.value.id == owner && !(ending.value.slot == Some(i) && s.slots[i].reserved <= 1))
       || (Displaces(s, e) && e.owner == Some(owner))
       || (Displaces(s, e) && e.claim.id == owner && s.jobs[e.owner.value].slot != Some(i))
       || (e.Restarted? && owner in s.jobs && s.jobs[owner].status.Releasing? && exists id :: StaysOn(s, id, i))
  }

  /** And it is not admitted to the slot again at once. */
  ghost predicate Deserts(s: State, e: Event, now: int, t: State, i: SlotIndex)
    requires Possible(s, e, now)
  {
    Abandons(s, e, now, i) && !HoldsSlot(t, s.slots[i].configurationOwner.value, i)
  }

  /** The step leaves the slot's configuration and every job's slot alone. */
  ghost predicate LeavesTending(s: State, t: State, i: SlotIndex) {
    && SameMachine(s.slots[i], t.slots[i])
    && forall id :: HoldsSlot(t, id, i) <==> HoldsSlot(s, id, i)
  }

  lemma {:induction false} PlainTends(s: State, e: Event, now: int, i: SlotIndex)
    requires Possible(s, e, now) && Plain(e) && QueuedHaveNoSlot(s.jobs)
    ensures LeavesTending(s, Step(s, e, now), i)
  {
    hide DueTimes, DueRows, Superseding;
  }

  lemma {:induction false} NotedTends(s: State, e: Event, now: int, i: SlotIndex)
    requires Possible(s, e, now) && QueuedHaveNoSlot(s.jobs) && !Admits(s, e, now) && !Plain(e) && !e.Restarted?
    ensures LeavesTending(s, Step(s, e, now), i)
  {
    NotedStep(s, e, now);
    hide Step, Possible, Admits;
  }

  lemma {:induction false} EndingTends(s: State, e: Event, now: int, i: SlotIndex)
    requires Possible(s, e, now) && EndingOf(s, e, now).Some? && IsTended(s, i)
    ensures IsTended(Acted(s, e, now), i) <==> !Abandons(s, e, now, i)
  {
    hide Step;
  }

  lemma {:induction false} AdmittingTends(s: State, e: Event, now: int, i: SlotIndex)
    requires Possible(s, e, now) && Admits(s, e, now) && EndingOf(s, e, now).None? && !Displaces(s, e) && IsTended(s, i)
    ensures IsTended(Acted(s, e, now), i)
  {
    if e.AlarmFinished? {
      ReleaseHoldsLeave(s, CUSTOM_ROWS, now, i);
      HoldsLeaveJobs(s, now);
    }
    hide Step, ReleaseHolds;
  }

  lemma {:induction false} HoldsLeaveJobs(s: State, now: int)
    ensures ReleaseHolds(s, CUSTOM_ROWS, now).jobs == s.jobs
  {
    SchedulerNames.ReleaseHoldsFrame(s, CUSTOM_ROWS, now);
  }

  lemma {:induction false} DisplacingTends(s: State, e: Event, now: int, i: SlotIndex)
    requires Possible(s, e, now) && Displaces(s, e) && IsTended(s, i)
    ensures IsTended(Acted(s, e, now), i) <==> !Abandons(s, e, now, i)
  {
    HandOverActs(s, e, now);
    assert Acted(s, e, now).slots == s.slots by {
      hide Step, Requeued, OnRunner;
    }
    hide Acted, Step;
  }

  // ---------------------------------------------------------------- restarts

  ghost predicate AllHoldReleasing(s: State, ids: seq<JobId>) {
    && (forall x :: x in ids ==> x in s.jobs && s.jobs[x].status.Releasing?)
    && (forall k, l :: 0 <= k < l < |ids| ==> ids[k] != ids[l])
  }

  lemma {:induction false} ReleasedHolds(s: State, id: JobId, now: int)
    requires id in s.jobs
    ensures var t := ReleaseJob(s, id, s.jobs[id].slot, Completed, now);
      && t.jobs == s.jobs[id := s.jobs[id].(status := Completed, recoveryDue := None)]
      && forall other, i :: HoldsSlot(t, other, i) <==> HoldsSlot(s, other, i) && other != id
  {
    hide ReleasedSlot;
  }

  lemma {:induction false} FirstReleased(s: State, ids: seq<JobId>, now: int)
    requires ids != [] && AllHoldReleasing(s, ids)
    ensures var t := ReleaseJob(s, ids[0], s.jobs[ids[0]].slot, Completed, now);
      && AllHoldReleasing(t, ids[1..]) && ReleaseAll(s, ids, now) == ReleaseAll(t, ids[1..], now)
      && ids[0] !in ids[1..] && (forall x :: x in ids <==> x == ids[0] || x in ids[1..])
      && forall id, i :: HoldsSlot(t, id, i) <==> HoldsSlot(s, id, i) && id != ids[0]
  {
    hide ReleaseJob, HoldsSlot;
    ReleasedHolds(s, ids[0], now);
    assert ids == [ids[0]] + ids[1..];
    assert forall x :: x in ids[1..] ==> exists j :: 1 <= j < |ids| && ids[j] == x;
  }

  lemma {:induction false} ReleaseAllHolds(s: State, ids: seq<JobId>, now: int, i: SlotIndex)
    requires AllHoldReleasing(s, ids)
    ensures forall id :: HoldsSlot(ReleaseAll(s, ids, now), id, i) <==> HoldsSlot(s, id, i) && id !in ids
    decreases |ids|
  {
    if ids != [] {
      var t := ReleaseJob(s, ids[0], s.jobs[ids[0]].slot, Completed, now);
      FirstReleased(s, ids, now);
      hide ReleaseAll, ReleaseJob, HoldsSlot, AllHoldReleasing;
      ReleaseAllHolds(t, ids[1..], now, i);
    }
  }

  /** A release from a slot whose count is right: it becomes idle exactly when its last job leaves it. */
  lemma {:induction false} ReleaseFromSettled(s: State, id: JobId, now: int, i: SlotIndex)
    requires id in s.jobs && s.jobs[id].status.Releasing? && Surplus(s, i) == 0
    ensures var t := ReleaseJob(s, id, s.jobs[id].slot, Completed, now);
      && Surplus(t, i) == 0
      && (s.jobs[id].slot != Some(i) ==> t.slots[i] == s.slots[i])
      && (s.jobs[id].slot == Some(i) && s.slots[i].state == Configuring ==>
            if forall other :: !HoldsSlot(t, other, i) then t.slots[i].state == Idle
            else t.slots[i].state == Configuring && t.slots[i].configurationOwner == s.slots[i].configurationOwner)
  {
    var t := ReleaseJob(s, id, s.jobs[id].slot, Completed, now);
    ReleaseShifts(s, id, s.jobs[id].slot, Completed, now, i);
    assert s.jobs[id].Holds() == Some(i) ==> id in ActiveOn(s.jobs, i);
    assert forall other :: HoldsSlot(t, other, i) <==> other in ActiveOn(t.jobs, i);
    if s.jobs[id].slot == Some(i) {
      assert t.slots[i].reserved == |ActiveOn(t.jobs, i)|;
      if x :| x in ActiveOn(t.jobs, i) {
        assert HoldsSlot(t, x, i);
      } else {
        assert ActiveOn(t.jobs, i) == {};
      }
    }
    hide ActiveOn, HoldsSlot;
  }

  /** After the releasing jobs are gone, a slot that was being configured still is exactly when some job is left on it. */
  lemma {:induction false} ReleaseAllConfigures(s: State, ids: seq<JobId>, now: int, i: SlotIndex)
    requires AllHoldReleasing(s, ids) && Surplus(s, i) == 0
    ensures var a, t := s.slots[i], ReleaseAll(s, ids, now);
      && (a.state == Configuring && (exists id :: HoldsSlot(s, id, i) && id !in ids) ==>
            t.slots[i].state == Configuring && t.slots[i].configurationOwner == a.configurationOwner)
      && (a.state == Configuring && (exists id :: HoldsSlot(s, id, i)) && (forall id :: HoldsSlot(s, id, i) ==> id in ids) ==>
            t.slots[i].state == Idle)
      && (a.state != Configuring ==> t.slots[i].state == a.state)
    decreases |ids|
  {
    if ids != [] {
      var id := ids[0];
      var t := ReleaseJob(s, id, s.jobs[id].slot, Completed, now);
      FirstReleased(s, ids, now);
      ReleaseFromSettled(s, id, now, i);
      assert s.jobs[id].slot == Some(i) <==> HoldsSlot(s, id, i);
      NotConfiguring(s, id, now, i);
      hide ReleaseAll, ReleaseJob, HoldsSlot, AllHoldReleasing, Surplus;
      ReleaseAllConfigures(t, ids[1..], now, i);
    }
  }

  lemma {:induction false} NotConfiguring(s: State, id: JobId, now: int, i: SlotIndex)
    requires id in s.jobs
    ensures s.slots[i].state != Configuring ==> ReleaseJob(s, id, s.jobs[id].slot, Completed, now).slots[i].state == s.slots[i].state
  {
  }

  lemma {:induction false} RestartTends(s: State, e: Event, now: int, i: SlotIndex)
    requires Possible(s, e, now) && e.Restarted? && IsTended(s, i)
    ensures IsTended(Restart(s, e.releasing, now), i) <==> !Abandons(s, e, now, i)
  {
    var settled := ReconcileReservations(s);
    assert Surplus(settled, i) == 0;
    assert AllHoldReleasing(settled, e.releasing);
    assert forall id :: HoldsSlot(settled, id, i) == HoldsSlot(s, id, i);
    ReleaseAllHolds(settled, e.releasing, now, i);
    ReleaseAllConfigures(settled, e.releasing, now, i);
    RestartIs(s, e.releasing, now, i);
    assert forall id :: StaysOn(s, id, i) <==> HoldsSlot(s, id, i) && id !in e.releasing;
    hide Restart, ReleaseAll, HoldsSlot, StaysOn, Surplus;
  }

  lemma {:induction false} RestartIs(s: State, ids: seq<JobId>, now: int, i: SlotIndex)
    ensures var t, r := Restart(s, ids, now), ReleaseAll(ReconcileReservations(s), ids, now);
      t.jobs == r.jobs && SameMachine(r.slots[i], t.slots[i])
  {
    hide ReleaseAll, DueTimes;
  }

  // ---------------------------------------------------------------- every step, and whole runs

  lemma {:induction false} ActTends(s: State, e: Event, now: int, i: SlotIndex)
    requires Possible(s, e, now) && IsTended(s, i) && QueuedHaveNoSlot(s.jobs)
    ensures IsTended(Acted(s, e, now), i) <==> !Abandons(s, e, now, i)
  {
    if Displaces(s, e) {
      DisplacingTends(s, e, now, i);
    } else if EndingOf(s, e, now).Some? {
      EndingTends(s, e, now, i);
    } else {
      QuietActTends(s, e, now, i);
    }
    hide Acted, Step, Possible, IsTended, Abandons, QueuedHaveNoSlot, EndingOf;
  }

  lemma {:induction false} QuietActTends(s: State, e: Event, now: int, i: SlotIndex)
    requires Possible(s, e, now) && IsTended(s, i) && QueuedHaveNoSlot(s.jobs)
    requires !Displaces(s, e) && EndingOf(s, e, now).None?
    ensures IsTended(Acted(s, e, now), i) <==> !Abandons(s, e, now, i)
  {
    hide Step, Possible, Admits, QueuedHaveNoSlot, EndingOf, Displaces, Acted;
    if Admits(s, e, now) {
      AdmittingTends(s, e, now, i);
      RestartAdmitsNobody(s, e, now);
    } else {
      NotAdmittingActs(s, e, now);
      if e.Restarted? {
        RestartStepTends(s, e, now, i);
      } else if Plain(e) {
        PlainTends(s, e, now, i);
      } else {
        NotedTends(s, e, now, i);
      }
    }
  }

  lemma {:induction false} RestartAdmitsNobody(s: State, e: Event, now: int)
    requires Possible(s, e, now) && Admits(s, e, now)
    ensures !e.Restarted?
  {
  }

  lemma {:induction false} RestartStepTends(s: State, e: Event, now: int, i: SlotIndex)
    requires Possible(s, e, now) && e.Restarted? && IsTended(s, i)
    ensures IsTended(Step(s, e, now), i) <==> !Abandons(s, e, now, i)
  {
    RestartTends(s, e, now, i);
    hide Restart;
  }

  lemma {:induction false} AdmissionTends(s: State, now: int, i: SlotIndex)
    ensures var t, owner := AdmitNext(s, now), s.slots[i].configurationOwner;
      IsTended(t, i) <==> IsTended(s, i) || (owner.Some? && HoldsSlot(t, owner.value, i))
    ensures forall id :: HoldsSlot(s, id, i) ==> HoldsSlot(AdmitNext(s, now), id, i)
  {
    var t := AdmitNext(s, now);
    AdmitNextJobs(s, now);
    if t != s {
      var id :| id in s.jobs && s.jobs[id].status.Queued? && id in t.jobs
        && t.jobs == s.jobs[id := s.jobs[id].(status := Admitted, slot := t.jobs[id].slot)] && t.jobs[id].slot.Some?;
      var j := t.jobs[id].slot.value;
      var configure := TakenIsAdmitted(s, now, id, j);
      hide AdmitNext, SelectSlot, AdmittedSlot;
      if j == i {
        TakingTends(s, t, id, i, configure);
      } else {
        TakingElsewhereTends(s, t, id, j, i);
      }
    }
  }

  lemma {:induction false} TakingElsewhereTends(s: State, t: State, id: JobId, j: SlotIndex, i: SlotIndex)
    requires id in s.jobs && s.jobs[id].status.Queued? && j != i && SameMachine(s.slots[i], t.slots[i])
    requires t.jobs == s.jobs[id := s.jobs[id].(status := Admitted, slot := Some(j))]
    ensures IsTended(t, i) <==> IsTended(s, i)
    ensures forall other :: HoldsSlot(s, other, i) <==> HoldsSlot(t, other, i)
  {
  }

  lemma {:induction false} TakingTends(s: State, t: State, id: JobId, i: SlotIndex, configure: bool)
    requires id in s.jobs && s.jobs[id].status.Queued?
    requires SelectSlot(s.slots, s.jobs[id].profile) == Some(SelectedSlot(i, configure))
    requires t.jobs == s.jobs[id := s.jobs[id].(status := Admitted, slot := Some(i))]
    requires exists target, reclaims, time ::
      t.slots[i] == AdmittedSlot(s.slots[i], id, MachineOf(s.jobs[id].profile), configure, target, reclaims, time)
    ensures var owner := s.slots[i].configurationOwner;
      IsTended(t, i) <==> IsTended(s, i) || (owner.Some? && HoldsSlot(t, owner.value, i))
    ensures forall other :: HoldsSlot(s, other, i) ==> HoldsSlot(t, other, i)
  {
    if configure {
      ChosenIsNotConfiguring(s.slots, s.jobs[id].profile, i);
    }
    hide SelectSlot;
  }

  lemma {:induction false} ChosenIsNotConfiguring(slots: SlotTable, profile: Profile, i: SlotIndex)
    requires SelectSlot(slots, profile) == Some(SelectedSlot(i, true))
    ensures slots[i].state != Configuring
  {
  }

  /** A step leaves a configuration with nobody to finish it exactly when its owner deserts it. */
  lemma {:induction false} StepKeepsTendedExactlyWhen(s: State, e: Event, now: int, t: State, i: SlotIndex)
    requires Leads(s, e, now, t) && IsTended(s, i) && QueuedHaveNoSlot(s.jobs)
    ensures IsTended(t, i) <==> !Deserts(s, e, now, t, i)
  {
    var acted := Acted(s, e, now);
    StepSplits(s, e, now);
    ActTends(s, e, now, i);
    AdmissionTends(acted, now, i);
    if Abandons(s, e, now, i) {
      AbandonedOwnerIsKept(s, e, now, i);
    }
    var next := if Admits(s, e, now) then AdmitNext(acted, now) else acted;
    SameTending(next, t, i);
    hide AdmitNext, Step, Acted, Admits, Possible, Abandons, QueuedHaveNoSlot;
  }

  lemma {:induction false} SameTending(s: State, t: State, i: SlotIndex)
    requires SameTables(s, t)
    ensures IsTended(s, i) == IsTended(t, i) && forall id :: HoldsSlot(s, id, i) == HoldsSlot(t, id, i)
  {
  }

  /** An abandoned slot still names its owner, who is not on it. */
  lemma {:induction false} AbandonedOwnerIsKept(s: State, e: Event, now: int, i: SlotIndex)
    requires Possible(s, e, now) && Abandons(s, e, now, i) && IsTended(s, i) && !IsTended(Acted(s, e, now), i)
    ensures Acted(s, e, now).slots[i].configurationOwner == s.slots[i].configurationOwner
    ensures !HoldsSlot(Acted(s, e, now), s.slots[i].configurationOwner.value, i)
  {
    if e.Restarted? {
      AbandonedByRestart(s, e, now, i);
    } else if EndingOf(s, e, now).Some? {
      hide Step;
    } else {
      HandOverActs(s, e, now);
      hide Step;
    }
  }

  lemma {:induction false} AbandonedByRestart(s: State, e: Event, now: int, i: SlotIndex)
    requires Possible(s, e, now) && e.Restarted? && Abandons(s, e, now, i) && IsTended(s, i)
    ensures Acted(s, e, now).slots[i].configurationOwner == s.slots[i].configurationOwner
    ensures !HoldsSlot(Acted(s, e, now), s.slots[i].configurationOwner.value, i)
  {
    hide Restart, ReleaseAll;
    RestartKeepsOwner(s, e, now, i);
    assert Acted(s, e, now) == Restart(s, e.releasing, now);
  }

  lemma {:induction false} RestartKeepsOwner(s: State, e: Event, now: int, i: SlotIndex)
    requires Possible(s, e, now) && e.Restarted? && Abandons(s, e, now, i) && IsTended(s, i)
    ensures Restart(s, e.releasing, now).slots[i].configurationOwner == s.slots[i].configurationOwner
    ensures !HoldsSlot(Restart(s, e.releasing, now), s.slots[i].configurationOwner.value, i)
  {
    hide Restart, ReleaseAll;
    var settled := ReconcileReservations(s);
    assert Surplus(settled, i) == 0 && AllHoldReleasing(settled, e.releasing);
    assert forall id :: HoldsSlot(settled, id, i) == HoldsSlot(s, id, i);
    assert forall id :: StaysOn(s, id, i) <==> HoldsSlot(s, id, i) && id !in e.releasing;
    hide HoldsSlot, StaysOn, Surplus;
    ReleaseAllHolds(settled, e.releasing, now, i);
    ReleaseAllConfigures(settled, e.releasing, now, i);
    RestartIs(s, e.releasing, now, i);
    SameJobsHold(ReleaseAll(settled, e.releasing, now), Restart(s, e.releasing, now), i);
  }

  lemma {:induction false} SameJobsHold(s: State, t: State, i: SlotIndex)
    requires s.jobs == t.jobs
    ensures forall id :: HoldsSlot(s, id, i) == HoldsSlot(t, id, i)
  {
  }

  /**
   * Through state `n` every slot that is being configured has its owner among its active jobs, exactly when no owner has
   * deserted one.
   */
  lemma {:induction false} ConfigurationsAreTendedExactlyWhen(run: Run, n: nat, i: SlotIndex)
    requires run.Valid() && n < |run.states|
    ensures (forall k :: 0 <= k <= n ==> IsTended(run.states[k], i)) <==> (forall k :: 0 <= k < n ==> !DesertsAt(run, k, i))
  {
    if n == 0 {
      FirstIsTended(i);
    } else {
      hide Initial, Leads, IsTended, DesertsAt;
      ConfigurationsAreTendedExactlyWhen(run, n - 1, i);
      if IsTended(run.states[n - 1], i) {
        RunKeepsTended(run, n - 1, i);
      }
    }
  }

  lemma {:induction false} RunKeepsTended(run: Run, k: nat, i: SlotIndex)
    requires run.Valid() && k < |run.moments| && IsTended(run.states[k], i)
    ensures IsTended(run.states[k + 1], i) <==> !DesertsAt(run, k, i)
  {
    hide Initial, Leads, IsTended, Deserts;
    QueuedInRun(run, k);
    assert run.Follows(k);
    StepKeepsTendedExactlyWhen(run.states[k], run.moments[k].event, run.moments[k].now, run.states[k + 1], i);
  }

  ghost predicate DesertsAt(run: Run, k: nat, i: SlotIndex)
    requires run.Valid() && k < |run.moments|
  {
    assert run.Follows(k);
    Deserts(run.states[k], run.moments[k].event, run.moments[k].now, run.states[k + 1], i)
  }

  lemma {:induction false} FirstIsTended(i: SlotIndex)
    ensures IsTended(Initial(), i)
  {
  }
}
