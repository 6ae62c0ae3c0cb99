/** What reservation accounting guarantees over whole runs, and exactly when the code's own recovery breaks it. */
module SchedulerReservations {
  import opened SchedulerAccounting
  import opened SchedulerCapacity
  import opened SchedulerModel
  import opened SchedulerRuns
  import opened Wrappers

  /**
   * A recovery ends on a row that names slot `i` although the job no longer holds it, other jobs do, and no spare
   * reservation hides the second release.
   */
  ghost predicate Uncovers(s: State, e: Event, i: SlotIndex) {
    && e.RecoveryFinished? && s.run.Recovering? && s.run.rows != []
    && var row := s.run.rows[0];
       && row.id in s.jobs && row.job.slot == Some(i) && s.jobs[row.id].Holds() != Some(i)
       && Surplus(s, i) == 0 && ActiveOn(s.jobs, i) != {}
  }

  // ---------------------------------------------------------------- one step

  /** No release but a stale recovery's takes a reservation away that the job does not hold. */
  lemma {:induction false} OtherReleasesDriftUp(s: State, e: Event, now: int, i: SlotIndex)
    requires Possible(s, e, now) && QueuedHaveNoSlot(s.jobs) && !e.RecoveryFinished? && Frees(s, e, now).Some?
    ensures 0 <= Drift(s, Frees(s, e, now).value, i)
  {
    var freeing := Frees(s, e, now).value;
    assert freeing.slot == s.jobs[freeing.id].slot;
    assert s.jobs[freeing.id].status.Queued? ==> freeing.slot.None?;
  }

  lemma {:induction false} StaleReleaseUncovers(s: State, e: Event, now: int, i: SlotIndex)
    requires Possible(s, e, now) && e.RecoveryFinished? && 0 <= Surplus(s, i)
    ensures Surplus(s, i) + Change(s, e, now, i) < 0 <==> Uncovers(s, e, i)
  {
    if Frees(s, e, now).Some? {
      var row := s.run.rows[0];
      assert Frees(s, e, now).value == Freeing(row.id, row.job.slot);
    }
    hide ActiveOn;
  }

  /** A step leaves a slot with fewer reservations than active jobs exactly when it uncovers it. */
  lemma {:induction false} StepKeepsCountExactlyWhen(s: State, e: Event, now: int, i: SlotIndex)
    requires Possible(s, e, now) && QueuedHaveNoSlot(s.jobs) && 0 <= Surplus(s, i)
    ensures 0 <= Surplus(Step(s, e, now), i) <==> !Uncovers(s, e, i)
  {
    if e.Restarted? {
      RestartSettles(s, e.releasing, now, i);
      hide Restart;
    } else {
      StepAccounts(s, e, now, i);
      if e.RecoveryFinished? {
        StaleReleaseUncovers(s, e, now, i);
      } else if Frees(s, e, now).Some? {
        OtherReleasesDriftUp(s, e, now, i);
      }
      hide Step, Frees, Drift, Surplus;
    }
  }

  /** A restart finds more active jobs on the slot than its desired ceiling allows, and releases none of them. */
  ghost predicate RestartUncovers(s: State, e: Event, i: SlotIndex) {
    e.Restarted? && !RestartCovers(s, e.releasing, i)
  }

  lemma {:induction false} StepKeepsCoverExactlyWhen(s: State, e: Event, now: int, i: SlotIndex)
    requires Possible(s, e, now) && QueuedHaveNoSlot(s.jobs) && Covered(s, i)
    ensures Covered(Step(s, e, now), i) <==> !RestartUncovers(s, e, i)
  {
    if e.Restarted? {
      RestartSettles(s, e.releasing, now, i);
      hide Restart;
    } else {
      StepAccounts(s, e, now, i);
      hide Step, Change, Surplus;
    }
  }

  lemma {:induction false} StepKeepsQueued(s: State, e: Event, now: int)
    requires Possible(s, e, now) && QueuedHaveNoSlot(s.jobs)
    ensures QueuedHaveNoSlot(Step(s, e, now).jobs)
  {
    if e.Restarted? {
      RestartSettles(s, e.releasing, now, 0);
      hide Restart, QueuedHaveNoSlot;
    } else {
      StepAccounts(s, e, now, 0);
      hide Step, Change, Surplus, QueuedHaveNoSlot;
    }
  }

  lemma {:induction false} StepGuardsGeneration(s: State, e: Event, now: int, i: SlotIndex)
    requires Possible(s, e, now) && QueuedHaveNoSlot(s.jobs)
    ensures GenerationGuards(s, Step(s, e, now), i)
  {
    if e.Restarted? {
      RestartSettles(s, e.releasing, now, i);
      hide Restart, QueuedHaveNoSlot;
    } else {
      StepAccounts(s, e, now, i);
      hide Step, Change, Surplus, QueuedHaveNoSlot;
    }
  }

  // ---------------------------------------------------------------- the same for a step of a run

  lemma {:induction false} LedCount(s: State, e: Event, now: int, t: State, i: SlotIndex)
    requires Leads(s, e, now, t) && QueuedHaveNoSlot(s.jobs)
    ensures 0 <= Surplus(s, i) ==> (0 <= Surplus(t, i) <==> !Uncovers(s, e, i))
    ensures Covered(s, i) ==> (Covered(t, i) <==> !RestartUncovers(s, e, i))
    ensures e.Restarted? ==> Surplus(t, i) == 0
    ensures QueuedHaveNoSlot(t.jobs) && GenerationGuards(s, t, i)
  {
    StepKeepsQueued(s, e, now);
    StepGuardsGeneration(s, e, now, i);
    if 0 <= Surplus(s, i) {
      StepKeepsCountExactlyWhen(s, e, now, i);
    }
    if Covered(s, i) {
      StepKeepsCoverExactlyWhen(s, e, now, i);
    }
    if e.Restarted? {
      RestartSettles(s, e.releasing, now, i);
    }
    hide Restart, Surplus, Covered, Uncovers, RestartUncovers, GenerationGuards, QueuedHaveNoSlot;
  }

  lemma {:induction false} InitialAccounts(i: SlotIndex)
    ensures Surplus(Initial(), i) == 0 && Covered(Initial(), i) && QueuedHaveNoSlot(Initial().jobs)
  {
    assert ActiveOn(Initial().jobs, i) == {};
  }

  lemma {:induction false} QueuedInRun(run: Run, n: nat)
    requires run.Valid() && n < |run.states|
    ensures QueuedHaveNoSlot(run.states[n].jobs)
  {
    if n == 0 {
      InitialAccounts(0);
    } else {
      hide Initial, Leads, QueuedHaveNoSlot;
      QueuedInRun(run, n - 1);
      assert run.Follows(n - 1);
      LedCount(run.states[n - 1], run.moments[n - 1].event, run.moments[n - 1].now, run.states[n], 0);
    }
  }

  // ---------------------------------------------------------------- counts

  /** The first state, or one just after a restart. */
  ghost predicate Fresh(run: Run, start: nat)
    requires run.Valid() && start < |run.states|
  {
    start == 0 || run.moments[start - 1].event.Restarted?
  }

  lemma {:induction false} FreshIsSettled(run: Run, start: nat, i: SlotIndex)
    requires run.Valid() && start < |run.states| && Fresh(run, start)
    ensures Surplus(run.states[start], i) == 0
  {
    if start == 0 {
      InitialAccounts(i);
    } else {
      hide Initial, Leads, Surplus;
      QueuedInRun(run, start - 1);
      assert run.Follows(start - 1);
      LedCount(run.states[start - 1], run.moments[start - 1].event, run.moments[start - 1].now, run.states[start], i);
    }
  }

  /**
   * From the first start, or from any restart, through state `n` the reserved count of a slot covers its active jobs,
   * exactly when no recovery in between uncovers the slot.
   */
  lemma {:induction false} CountsHoldExactlyWhen(run: Run, start: nat, n: nat, i: SlotIndex)
    requires run.Valid() && start <= n < |run.states| && Fresh(run, start)
    ensures (forall k :: start <= k <= n ==> |ActiveOn(run.states[k].jobs, i)| <= run.states[k].slots[i].reserved)
      <==> (forall k :: start <= k < n ==> !Uncovers(run.states[k], run.moments[k].event, i))
  {
    hide Initial, Leads, Uncovers, ActiveOn, Fresh;
    if start == n {
      FreshIsSettled(run, start, i);
    } else {
      CountsHoldExactlyWhen(run, start, n - 1, i);
      QueuedInRun(run, n - 1);
      assert run.Follows(n - 1);
      LedCount(run.states[n - 1], run.moments[n - 1].event, run.moments[n - 1].now, run.states[n], i);
    }
  }

  /** Through state `n` the desired ceiling of a slot covers its reserved count, exactly when no restart breaks that. */
  lemma {:induction false} CeilingsHoldExactlyWhen(run: Run, n: nat, i: SlotIndex)
    requires run.Valid() && n < |run.states|
    ensures (forall k :: 0 <= k <= n ==> run.states[k].slots[i].reserved <= run.states[k].slots[i].desired)
      <==> (forall k :: 0 <= k < n ==> !RestartUncovers(run.states[k], run.moments[k].event, i))
  {
    hide Initial, Leads, RestartUncovers;
    if n == 0 {
      InitialAccounts(i);
    } else {
      CeilingsHoldExactlyWhen(run, n - 1, i);
      QueuedInRun(run, n - 1);
      assert run.Follows(n - 1);
      LedCount(run.states[n - 1], run.moments[n - 1].event, run.moments[n - 1].now, run.states[n], i);
    }
  }

  /** As long as no recovery has uncovered a slot, the active jobs, the reservations and the ceiling are in order. */
  lemma {:induction false} ReservationsCoverActiveJobs(run: Run, n: nat, i: SlotIndex)
    requires run.Valid() && n < |run.states|
    requires forall k :: 0 <= k < n ==> !Uncovers(run.states[k], run.moments[k].event, i)
    ensures |ActiveOn(run.states[n].jobs, i)| <= run.states[n].slots[i].reserved <= run.states[n].slots[i].desired
  {
    hide Initial, Leads, Uncovers, ActiveOn;
    CountsHoldExactlyWhen(run, 0, n, i);
    if n == 0 {
      InitialAccounts(i);
    } else {
      ReservationsCoverActiveJobs(run, n - 1, i);
      QueuedInRun(run, n - 1);
      assert run.Follows(n - 1);
      LedCount(run.states[n - 1], run.moments[n - 1].event, run.moments[n - 1].now, run.states[n], i);
    }
  }

  // ---------------------------------------------------------------- spare reservations

  ghost function ChangeAt(run: Run, k: nat, i: SlotIndex): int
    requires run.Valid() && k < |run.moments|
  {
    assert run.Follows(k);
    Change(run.states[k], run.moments[k].event, run.moments[k].now, i)
  }

  /** What hand-overs to holders and stale releases have left over, or taken away, since the last restart. */
  ghost function Spare(run: Run, n: nat, i: SlotIndex): int
    requires run.Valid() && n < |run.states|
  {
    if n == 0 || run.moments[n - 1].event.Restarted? then 0
    else Spare(run, n - 1, i) + ChangeAt(run, n - 1, i)
  }

  lemma {:induction false} LedAccounts(s: State, e: Event, now: int, t: State, i: SlotIndex)
    requires Leads(s, e, now, t) && QueuedHaveNoSlot(s.jobs)
    ensures Surplus(t, i) == if e.Restarted? then 0 else Surplus(s, i) + Change(s, e, now, i)
  {
    if e.Restarted? {
      RestartSettles(s, e.releasing, now, i);
    } else {
      StepAccounts(s, e, now, i);
    }
    hide Restart, Step, Change, Surplus;
  }

  /** In every reachable state the reserved count is the number of active jobs and exactly those spare reservations. */
  lemma {:induction false} ReservationsAreAccountedFor(run: Run, n: nat, i: SlotIndex)
    requires run.Valid() && n < |run.states|
    ensures run.states[n].slots[i].reserved == |ActiveOn(run.states[n].jobs, i)| + Spare(run, n, i)
  {
    if n == 0 {
      InitialAccounts(i);
    } else {
      hide Initial, ActiveOn, Change, Step, Possible;
      ReservationsAreAccountedFor(run, n - 1, i);
      QueuedInRun(run, n - 1);
      assert run.Follows(n - 1);
      LedAccounts(run.states[n - 1], run.moments[n - 1].event, run.moments[n - 1].now, run.states[n], i);
    }
  }

  // ---------------------------------------------------------------- granted claims

  /**
   * A granted plan: the slot is not being updated, and the ceiling that the plan asks for covers every active job on
   * it. Unless the job is the one that configures the slot, the recorded ceiling has been raised to the desired one;
   * so it covers them too if no recovery has uncovered the slot since the first start.
   */
  lemma {:induction false} GrantedClaimIsCovered(run: Run, start: nat, n: nat, id: JobId, runnerName: string)
    requires run.Valid() && start <= n < |run.states| && Fresh(run, start)
    requires ClaimProvisioning(run.states[n], id, runnerName).Provision?
    requires var i := ClaimProvisioning(run.states[n], id, runnerName).slot;
      forall k :: start <= k < n ==> !Uncovers(run.states[k], run.moments[k].event, i)
    ensures var s := run.states[n];
      var plan := ClaimProvisioning(s, id, runnerName);
      && !s.slots[plan.slot].updating
      && id in ActiveOn(s.jobs, plan.slot)
      && |ActiveOn(s.jobs, plan.slot)| <= plan.requiredMaxInstances
      && (!plan.requiresConfiguration ==> s.slots[plan.slot].desired <= s.slots[plan.slot].applied)
      && (!plan.requiresConfiguration && start == 0 ==> plan.requiredMaxInstances <= s.slots[plan.slot].applied)
  {
    var s := run.states[n];
    var i := s.jobs[id].slot.value;
    CountsHoldExactlyWhen(run, start, n, i);
    QueuedInRun(run, n);
    assert id in ActiveOn(s.jobs, i);
    hide Uncovers;
    if start == 0 {
      ReservationsCoverActiveJobs(run, n, i);
    }
  }

  /** A slot that is given a new machine shape has no active job. */
  lemma {:induction false} ReconfiguredSlotIsIdle(run: Run, start: nat, n: nat, profile: Profile)
    requires run.Valid() && start <= n < |run.states| && Fresh(run, start)
    requires var selected := SelectSlot(run.states[n].slots, profile); selected.Some? && selected.value.requiresConfiguration
    requires var i := SelectSlot(run.states[n].slots, profile).value.slotId;
      forall k :: start <= k < n ==> !Uncovers(run.states[k], run.moments[k].event, i)
    ensures ActiveOn(run.states[n].jobs, SelectSlot(run.states[n].slots, profile).value.slotId) == {}
  {
    CountsHoldExactlyWhen(run, start, n, SelectSlot(run.states[n].slots, profile).value.slotId);
    hide Uncovers, ActiveOn;
  }

  // ---------------------------------------------------------------- ceiling reductions

  predicate Reduces(slot: Slot) {
    slot.desired < slot.applied
  }

  /** A row the alarm still has to act on: if no admission has touched the slot since, a reduction is still harmless. */
  ghost predicate DueRowOk(s: State, row: DueRow) {
    && row.slot.generation <= s.slots[row.id].generation
    && (Reduces(row.slot) && row.slot.generation == s.slots[row.id].generation ==> ActiveOn(s.jobs, row.id) == {})
  }

  ghost predicate DueOkOn(s: State, i: SlotIndex) {
    s.run.Updating? ==> forall row :: row in s.run.due && row.id == i ==> DueRowOk(s, row)
  }

  lemma {:induction false} SelectedRowsAreHarmless(s: State, now: int, i: SlotIndex)
    requires 0 <= Surplus(s, i)
    ensures var r := RecoverStalledUpdates(s, now);
      forall row :: row in DueRows(r.slots, now) && row.id == i ==> DueRowOk(r, row)
  {
  }

  lemma {:induction false} StepKeepsDue(s: State, e: Event, now: int, i: SlotIndex)
    requires Possible(s, e, now) && QueuedHaveNoSlot(s.jobs) && 0 <= Surplus(s, i) && DueOkOn(s, i)
    ensures DueOkOn(Step(s, e, now), i)
  {
    var t := Step(s, e, now);
    if e.UpdatesSelected? {
      SelectedRowsAreHarmless(s, now, i);
      hide RecoverStalledUpdates, DueRows;
    } else if t.run.Updating? {
      StepOnDue(s, e, now);
      StepGuardsGeneration(s, e, now, i);
      hide Step;
      forall row | row in t.run.due && row.id == i
        ensures DueRowOk(t, row)
      {
        assert DueRowOk(s, row);
      }
    }
  }

  lemma {:induction false} StepOnDue(s: State, e: Event, now: int)
    requires Possible(s, e, now) && !e.UpdatesSelected? && Step(s, e, now).run.Updating?
    ensures s.run.Updating?
    ensures var due := Step(s, e, now).run.due; due == s.run.due || due == s.run.due[1..]
  {
    if KeepsRun(e) {
      RunKept(s, e, now);
    }
    hide AdmitNext, ScheduleAlarm, ReleaseHolds, Restart, RecoverStopped, StartUpdate;
  }

  lemma {:induction false} LedKeepsDue(s: State, e: Event, now: int, t: State, i: SlotIndex)
    requires Leads(s, e, now, t) && QueuedHaveNoSlot(s.jobs) && 0 <= Surplus(s, i) && DueOkOn(s, i)
    ensures DueOkOn(t, i)
  {
    StepKeepsDue(s, e, now, i);
  }

  lemma {:induction false} FreshHasNothingDue(run: Run, start: nat, i: SlotIndex)
    requires run.Valid() && start < |run.states| && Fresh(run, start)
    ensures DueOkOn(run.states[start], i)
  {
    hide ScheduleAlarm, ReleaseAll, InitialSlots;
    if start > 0 {
      assert run.Follows(start - 1);
    }
  }

  lemma {:induction false} DueInRun(run: Run, start: nat, n: nat, i: SlotIndex)
    requires run.Valid() && start <= n < |run.states| && Fresh(run, start)
    requires forall k :: start <= k < n ==> !Uncovers(run.states[k], run.moments[k].event, i)
    ensures DueOkOn(run.states[n], i)
  {
    if n == start {
      FreshHasNothingDue(run, start, i);
    } else {
      hide Initial, Leads, DueOkOn, Uncovers, ActiveOn, Fresh;
      DueInRun(run, start, n - 1, i);
      CountsHoldExactlyWhen(run, start, n - 1, i);
      QueuedInRun(run, n - 1);
      assert run.Follows(n - 1);
      LedKeepsDue(run.states[n - 1], run.moments[n - 1].event, run.moments[n - 1].now, run.states[n], i);
    }
  }

  /**
   * When a ceiling reduction is started, no active job is recorded on the slot, whatever was admitted between the
   * snapshot of due slots and the update.
   */
  lemma {:induction false} ReductionStartsOnIdleSlot(run: Run, start: nat, n: nat)
    requires run.Valid() && start <= n < |run.moments| && Fresh(run, start)
    requires run.moments[n].event.UpdateStarted? && run.states[n].run.Updating? && run.states[n].run.due != []
    requires var s := run.states[n]; var row := s.run.due[0]; StartsUpdate(s, row) && Reduces(row.slot)
    requires var i := run.states[n].run.due[0].id;
      forall k :: start <= k < n ==> !Uncovers(run.states[k], run.moments[k].event, i)
    ensures var id := run.states[n].run.due[0].id;
      && ActiveOn(run.states[n].jobs, id) == {}
      && run.states[n + 1].slots[id].updating
  {
    DueInRun(run, start, n, run.states[n].run.due[0].id);
    assert run.Follows(n);
    assert DueRowOk(run.states[n], run.states[n].run.due[0]);
  }
}
