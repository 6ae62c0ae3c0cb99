/** How a ceiling gets where an admission needs it: the wait before an increase, its tries, and the claims it frees. */
module SchedulerProgress {
  import opened SchedulerAdmissions
  import opened SchedulerCeilings
  import SchedulerMachines
  import opened SchedulerModel
  import opened SchedulerPolicy
  import opened SchedulerRuns
  import opened SchedulerUpdates
  import opened Wrappers

  // ---------------------------------------------------------------- the wait before an increase

  /** The slot's change is due from this time on, and not before. */
  ghost predicate DueExactlyFrom(slot: Slot, time: int) {
    forall now :: UpdateDue(slot, now) <==> time <= now
  }

  /**
   * An admission beyond the recorded ceiling asks for one more instance than is reserved. Its job has to wait, and the
   * increase is due five seconds later; a further admission puts it off again.
   */
  lemma {:induction false} AdmissionBeyondCeiling(s: State, id: JobId, i: SlotIndex, reductions: seq<Reduction>, now: int)
    requires id in s.jobs && s.slots[i].state == Ready && !s.slots[i].updating && s.slots[i].applied <= s.slots[i].reserved
    requires Reducible(s.slots, reductions) && forall r :: r in reductions ==> r.slotId != i
    ensures var t := Admit(s, id, SelectedSlot(i, false), reductions, now);
      var slot := t.slots[i];
      && slot.desired == slot.reserved == s.slots[i].reserved + 1 > slot.applied
      && Current(t, i) in t.operations && t.operations[Current(t, i)] == Operation(slot.desired, Pending, now)
      && ClaimProvisioning(t, id, s.jobs[id].runnerName) == Wait
      && DueExactlyFrom(slot, now + 5_000)
  {
    SchedulerMachines.RowOfAdmission(s, id, i, false, reductions, now);
    hide ScheduleReclamation;
  }

  /**
   * An admission while the ceiling is being changed records an operation of its own. The change in flight goes on under
   * its generation; once that is reported, what is still missing is due five seconds after the admission.
   */
  lemma {:induction false} AdmissionDuringUpdate(
      s: State, id: JobId, i: SlotIndex, reductions: seq<Reduction>, now: int, generation: nat, later: int)
    requires id in s.jobs && s.slots[i].state == Ready && s.slots[i].updating
    requires s.slots[i].updateGeneration == generation <= s.slots[i].generation
    requires OperationKey(i, generation) in s.operations
    requires Reducible(s.slots, reductions) && forall r :: r in reductions ==> r.slotId != i
    ensures var t := Admit(s, id, SelectedSlot(i, false), reductions, now);
      && InFlightUnder(t, i, generation) && !InFlight(t, i)
      && Current(t, i) in t.operations && t.operations[Current(t, i)] == Operation(t.slots[i].desired, Pending, now)
      && ClaimProvisioning(t, id, s.jobs[id].runnerName) == Wait
      && var u := CapacityPrepared(t, i, generation, later);
         && !u.slots[i].updating && u.slots[i].desired == t.slots[i].desired
         && (u.slots[i].applied < u.slots[i].desired ==> DueExactlyFrom(u.slots[i], now + 5_000))
  {
    var t := Admit(s, id, SelectedSlot(i, false), reductions, now);
    AdmitLowers(s, id, i, false, reductions, now);
    ReclamationLowers(s, reductions, now, i);
    SchedulerMachines.RowOfAdmission(s, id, i, false, reductions, now);
    assert TargetFor(reductions, i).None?;
    assert OperationKey(i, generation) in t.operations by {
      assert SameOperation(s.operations, Scheduled(s, reductions, now).operations, OperationKey(i, generation));
    }
    hide ScheduleReclamation, DueTimes, Superseding;
  }

  // ---------------------------------------------------------------- an update that goes through

  /** An increase that is due, with the operation of its generation recorded. */
  ghost predicate IncreaseDue(s: State, i: SlotIndex, now: int) {
    && UpdateDue(s.slots[i], now) && s.slots[i].applied < s.slots[i].desired
    && Current(s, i) in s.operations && s.operations[Current(s, i)].target == s.slots[i].desired
  }

  /**
   * An increase that is started and reported done with nothing in between reaches the desired ceiling; nothing is due
   * then, and every job that waits on the slot for it is granted its claim.
   */
  lemma {:induction false} IncreaseReachesDesired(s: State, i: SlotIndex, now: int, later: int, id: JobId)
    requires IncreaseDue(s, i, now)
    ensures var row := DueRow(i, s.slots[i]);
      && row in DueRows(s.slots, now) && StartsUpdate(s, row)
      && var t := CapacityPrepared(StartUpdate(s, row), i, s.slots[i].generation, later);
         && t.slots[i].applied == t.slots[i].desired == s.slots[i].desired && !CapacityChangePending(t.slots[i])
         && (id in s.jobs && s.jobs[id].slot == Some(i) && s.jobs[id].status.Waiting() && !s.slots[i].reclaimPending ==>
               ClaimProvisioning(t, id, s.jobs[id].runnerName)
                 == Provision(i, Max(1, s.slots[i].reserved), s.slots[i].generation, false))
  {
    DueRowsExactly(s.slots, now);
    hide DueRows, DueTimes, Superseding;
  }

  // ---------------------------------------------------------------- an update that does not

  /**
   * An update that failed or is still rolling out is given up. Unless the slot was given a new generation meanwhile, an
   * increase is tried again five seconds later; a reduction as soon as the slot is idle.
   */
  lemma {:induction false} DeferredUpdateIsTriedAgain(s: State, e: Event, now: int, i: SlotIndex)
    requires e.UpdateDeferred? && e.slot == i && InFlightUnder(s, i, e.generation) && s.slots[i].state == Ready
    requires Possible(s, e, now)
    ensures var t := Step(s, e, now);
      var a, b := s.slots[i], t.slots[i];
      && !b.updating && b.desired == a.desired && b.applied == a.applied
      && (a.applied < a.desired ==>
            DueExactlyFrom(b, if a.generation == e.generation then now + 5_000 else a.debounceUntil))
      && (a.desired < a.applied ==> forall time :: UpdateDue(b, time) <==> a.reserved == 0)
  {
  }

  /** A failure of an older update leaves the one in flight alone. */
  lemma {:induction false} OlderFailureIsIgnored(s: State, e: Event, now: int, i: SlotIndex, generation: nat)
    requires e.UpdateDeferred? && Possible(s, e, now) && InFlightUnder(s, i, generation) && e.generation != generation
    ensures InFlightUnder(Step(s, e, now), i, generation)
  {
  }

  /** A restart, and every alarm before it looks for work, leaves only live updates in flight; an increase is due at once. */
  lemma {:induction false} StalledUpdatesAreFreed(s: State, e: Event, now: int, t: State, i: SlotIndex)
    requires Leads(s, e, now, t) && (e.UpdatesSelected? || e.Restarted?)
    ensures t.slots[i].updating <==>
      var key := OperationKey(i, s.slots[i].updateGeneration);
      && s.slots[i].updating && key in s.operations && s.operations[key].state == Pending
      && now < s.operations[key].updatedAt + 60_000
    ensures s.slots[i].updating && !t.slots[i].updating && t.slots[i].state == Ready && t.slots[i].applied < t.slots[i].desired ==>
      UpdateDue(t.slots[i], now)
  {
    if e.Restarted? {
      ReleaseAllKeepsFlag(ReconcileReservations(s), e.releasing, now, i);
      hide ReleaseAll, DueTimes;
    } else {
      hide DueRows;
    }
  }

  // ---------------------------------------------------------------- operations

  /** A report settles the operation of its generation and gives up the older ones; newer ones stay as they are. */
  lemma {:induction false} ReportSettles(s: State, i: SlotIndex, generation: nat, now: int, key: OperationKey)
    requires OperationKey(i, generation) in s.operations && key in s.operations
    ensures var t := CapacityPrepared(s, i, generation, now);
      && key in t.operations && t.operations[key].target == s.operations[key].target
      && t.operations[key].state ==
           (if key == OperationKey(i, generation) then Applied
            else if key.slot == i && key.generation < generation && s.operations[key].state == Pending then Superseded
            else s.operations[key].state)
  {
    hide DueTimes;
  }
}
