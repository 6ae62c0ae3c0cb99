/**
 * Capacity updates over whole runs: which slots an alarm acts on, what the platform is asked for, what a completion
 * records, and exactly when the recorded ceiling and the platform's part.
 */
module SchedulerUpdates {
  import opened Deadlines
  import opened SchedulerCapacity
  import opened SchedulerCeilings
  import opened SchedulerModel
  import opened SchedulerPolicy
  import opened SchedulerReservations
  import opened SchedulerRuns
  import opened Wrappers

  // ---------------------------------------------------------------- what is due

  lemma {:induction false} DueAmongExactly(slots: SlotTable, reducing: bool, now: int, n: nat)
    requires n <= SLOTS
    ensures var rows := DueAmong(slots, reducing, now, n);
      && (forall i: SlotIndex :: DueRow(i, slots[i]) in rows
            <==> i < n && UpdateDue(slots[i], now) && (slots[i].desired < slots[i].applied) == reducing)
      && (forall k :: 0 <= k < |rows| ==> rows[k].id < n && (rows[k].slot.desired < rows[k].slot.applied) == reducing)
      && (forall j, k :: 0 <= j < k < |rows| ==> rows[j].id < rows[k].id)
  {
    if n > 0 {
      DueAmongExactly(slots, reducing, now, n - 1);
      hide UpdateDue;
    }
  }

  /** An alarm acts on a slot exactly when its change is due: reductions first, each kind in the order of the slots. */
  lemma {:induction false} DueRowsExactly(slots: SlotTable, now: int)
    ensures var rows := DueRows(slots, now);
      && (forall i: SlotIndex :: DueRow(i, slots[i]) in rows <==> UpdateDue(slots[i], now))
      && (forall j, k :: 0 <= j < k < |rows| ==>
            var (a, b) := (rows[j], rows[k]);
            var (aReduces, bReduces) := (a.slot.desired < a.slot.applied, b.slot.desired < b.slot.applied);
            (aReduces && !bReduces) || (aReduces == bReduces && a.id < b.id))
  {
    DueAmongExactly(slots, true, now, SLOTS);
    DueAmongExactly(slots, false, now, SLOTS);
    hide DueAmong, UpdateDue;
  }

  // ---------------------------------------------------------------- what moves a desired ceiling

  lemma {:induction false} LedMoves(s: State, e: Event, now: int, t: State, i: SlotIndex)
    requires Leads(s, e, now, t)
    ensures Moved(s, t, i, ReleasesSlot(s, e, now, i), Reports(e, i), Flags(e, i))
  {
    StepMoves(s, e, now, i);
  }

  ghost predicate ReleasesAt(run: Run, k: nat, i: SlotIndex)
    requires run.Valid() && k < |run.moments|
  {
    assert run.Follows(k);
    ReleasesSlot(run.states[k], run.moments[k].event, run.moments[k].now, i)
  }

  /** The state just after the last release from the slot since its generation was assigned. */
  ghost function LastRelease(run: Run, n: nat, i: SlotIndex): (r: Option<nat>)
    requires run.Valid() && n < |run.states|
    ensures r.Some? ==> r.value <= n
  {
    if n == 0 || run.states[n - 1].slots[i].generation != run.states[n].slots[i].generation then None
    else if ReleasesAt(run, n - 1, i) then Some(n)
    else LastRelease(run, n - 1, i)
  }

  /** The reserved count with which the slot's generation was assigned. */
  ghost function AssignedReserved(run: Run, n: nat, i: SlotIndex): nat
    requires run.Valid() && n < |run.states|
  {
    if n == 0 || run.states[n - 1].slots[i].generation != run.states[n].slots[i].generation then run.states[n].slots[i].reserved
    else AssignedReserved(run, n - 1, i)
  }

  lemma {:induction false} InitialSlotIsEmpty(i: SlotIndex)
    ensures Initial().slots[i] == EmptySlot(Initial().slots[i].shape) && Initial().operations == map[]
  {
  }

  lemma {:induction false} LedKeepsTargets(s: State, e: Event, now: int, t: State, i: SlotIndex)
    requires Leads(s, e, now, t)
    ensures TargetsKept(s, t, i)
  {
    LedMoves(s, e, now, t, i);
    hide Leads, TargetsKept, Targeted, ReleasesSlot;
  }

  lemma {:induction false} BoundedInRun(run: Run, n: nat, i: SlotIndex)
    requires run.Valid() && n < |run.states|
    ensures OperationsBounded(run.states[n], i)
  {
    if n == 0 {
      InitialSlotIsEmpty(i);
    } else {
      hide Initial, Leads, OperationsBounded, SameTarget;
      BoundedInRun(run, n - 1, i);
      assert run.Follows(n - 1);
      LedKeepsTargets(run.states[n - 1], run.moments[n - 1].event, run.moments[n - 1].now, run.states[n], i);
    }
  }

  /** A step with a new generation, and one without. */
  lemma {:induction false} LedRenews(s: State, e: Event, now: int, t: State, i: SlotIndex)
    requires Leads(s, e, now, t) && OperationsBounded(s, i) && s.slots[i].generation != t.slots[i].generation
    ensures Targeted(t, i)
  {
    LedMoves(s, e, now, t, i);
    hide Leads, OperationsBounded, Targeted, SameTarget, ReleasesSlot;
  }

  lemma {:induction false} LedKeepsGeneration(s: State, e: Event, now: int, t: State, i: SlotIndex)
    requires Leads(s, e, now, t) && s.slots[i].generation == t.slots[i].generation
    ensures var a, b := s.slots[i], t.slots[i];
      && b.desired == (if ReleasesSlot(s, e, now, i) then Max(b.applied, b.reserved) else a.desired)
      && (b.state == Configuring ==> a.state == Configuring)
    ensures SameTarget(s.operations, t.operations, Current(s, i)) && Current(t, i) == Current(s, i)
  {
    LedMoves(s, e, now, t, i);
    hide Leads, OperationsBounded, Targeted, SameTarget, ReleasesSlot;
  }

  /**
   * The desired ceiling is the target of the operation recorded with its generation, if there is one, until the slot is
   * released; then it is what the last release has left, the larger of the recorded ceiling and the reserved count.
   */
  lemma {:induction false} DesiredSinceAssignment(run: Run, n: nat, i: SlotIndex)
    requires run.Valid() && n < |run.states|
    ensures var s, released := run.states[n], LastRelease(run, n, i);
      if released.Some? then
        var left := run.states[released.value].slots[i]; s.slots[i].desired == Max(left.applied, left.reserved)
      else
        Current(s, i) in s.operations ==> s.operations[Current(s, i)].target == s.slots[i].desired
  {
    hide Initial, Leads, OperationsBounded, ReleasesSlot;
    if n == 0 {
      InitialSlotIsEmpty(i);
    } else {
      var s, moment, t := run.states[n - 1], run.moments[n - 1], run.states[n];
      assert run.Follows(n - 1);
      if s.slots[i].generation == t.slots[i].generation {
        DesiredSinceAssignment(run, n - 1, i);
        LedKeepsGeneration(s, moment.event, moment.now, t, i);
      } else {
        BoundedInRun(run, n - 1, i);
        LedRenews(s, moment.event, moment.now, t, i);
      }
    }
  }

  /** While a slot is being configured, its operation asks for the reserved count its generation was assigned with. */
  lemma {:induction false} ConfigurationIsTargeted(run: Run, n: nat, i: SlotIndex)
    requires run.Valid() && n < |run.states| && run.states[n].slots[i].state == Configuring
    ensures var s := run.states[n];
      Current(s, i) in s.operations && s.operations[Current(s, i)].target == AssignedReserved(run, n, i)
  {
    hide Initial, Leads, OperationsBounded, ReleasesSlot;
    if n == 0 {
      InitialSlotIsEmpty(i);
    } else {
      var s, moment, t := run.states[n - 1], run.moments[n - 1], run.states[n];
      assert run.Follows(n - 1);
      if s.slots[i].generation == t.slots[i].generation {
        LedKeepsGeneration(s, moment.event, moment.now, t, i);
        ConfigurationIsTargeted(run, n - 1, i);
      } else {
        BoundedInRun(run, n - 1, i);
        LedRenews(s, moment.event, moment.now, t, i);
      }
    }
  }

  /** The operation of an assigned generation keeps its target for good. */
  lemma {:induction false} TargetsStay(run: Run, m: nat, n: nat, i: SlotIndex, generation: nat)
    requires run.Valid() && m <= n < |run.states| && generation <= run.states[m].slots[i].generation
    ensures generation <= run.states[n].slots[i].generation
    ensures SameTarget(run.states[m].operations, run.states[n].operations, OperationKey(i, generation))
  {
    hide Initial, Leads, OperationsBounded;
    if m < n {
      TargetsStay(run, m, n - 1, i, generation);
      assert run.Follows(n - 1);
      LedKeepsTargets(run.states[n - 1], run.moments[n - 1].event, run.moments[n - 1].now, run.states[n], i);
      assert SameTarget(run.states[n - 1].operations, run.states[n].operations, OperationKey(i, generation));
    }
  }

  // ---------------------------------------------------------------- what the platform is asked for

  /** The state from which an alarm invocation in flight has read its due rows. */
  ghost function ReadAt(run: Run, n: nat): (m: nat)
    requires run.Valid() && n < |run.states|
    ensures m <= n
  {
    if n == 0 || run.moments[n - 1].event.UpdatesSelected? then n else ReadAt(run, n - 1)
  }

  lemma {:induction false} SelectedRowsAreRead(s: State, e: Event, now: int, t: State, row: DueRow)
    requires Leads(s, e, now, t) && e.UpdatesSelected? && t.run.Updating? && row in t.run.due
    ensures row.slot == t.slots[row.id]
  {
    hide RecoverStalledUpdates;
  }

  lemma {:induction false} LedOnDue(s: State, e: Event, now: int, t: State)
    requires Leads(s, e, now, t) && !e.UpdatesSelected? && t.run.Updating?
    ensures s.run.Updating? && forall row :: row in t.run.due ==> row in s.run.due
  {
    StepOnDue(s, e, now);
  }

  lemma {:induction false} DueRowsWereRead(run: Run, n: nat, row: DueRow)
    requires run.Valid() && n < |run.states| && run.states[n].run.Updating? && row in run.states[n].run.due
    ensures row.slot == run.states[ReadAt(run, n)].slots[row.id]
  {
    hide Initial, Leads;
    if n == 0 {
      NothingDueAtFirst();
    } else {
      var s, moment, t := run.states[n - 1], run.moments[n - 1], run.states[n];
      assert run.Follows(n - 1);
      if moment.event.UpdatesSelected? {
        SelectedRowsAreRead(s, moment.event, moment.now, t, row);
      } else {
        LedOnDue(s, moment.event, moment.now, t);
        DueRowsWereRead(run, n - 1, row);
      }
    }
  }

  lemma {:induction false} NothingDueAtFirst()
    ensures Initial().run.NoRun?
  {
  }

  /** The desired ceiling of a due row, or the exact ceiling of a claim that configures the slot, with where it was read. */
  datatype Request = Update(read: nat, row: DueRow) | Configuration(read: nat, required: int)
  {
    /** The platform raises or lowers the ceiling to what an alarm asks for, and sets what a configuration asks for. */
    function Granted(ceiling: int): int {
      match this
      case Update(_, row) =>
        if row.slot.desired < row.slot.applied then Min(ceiling, row.slot.desired) else Max(ceiling, row.slot.desired)
      case Configuration(_, required) => required
    }
  }

  ghost predicate Asks(s: State, e: Event, i: SlotIndex, generation: nat) {
    && e.UpdateStarted? && s.run.Updating? && s.run.due != []
    && s.run.due[0].id == i && s.run.due[0].slot.generation == generation && StartsUpdate(s, s.run.due[0])
  }

  ghost predicate Configures(s: State, e: Event, i: SlotIndex, generation: nat) {
    && e.Claim?
    && var plan := ClaimProvisioning(s, e.id, e.runnerName);
       plan.Provision? && plan.slot == i && plan.generation == generation && plan.requiresConfiguration
  }

  /** The last request made under a generation of the slot. */
  ghost function LastRequest(run: Run, n: nat, i: SlotIndex, generation: nat): (r: Option<Request>)
    requires run.Valid() && n < |run.states|
    ensures r.Some? ==> r.value.read <= n
  {
    if n == 0 then None
    else
      var s, e := run.states[n - 1], run.moments[n - 1].event;
      if Asks(s, e, i, generation) then Some(Update(ReadAt(run, n - 1), s.run.due[0]))
      else if Configures(s, e, i, generation) then
        Some(Configuration(n - 1, ClaimProvisioning(s, e.id, e.runnerName).requiredMaxInstances))
      else LastRequest(run, n - 1, i, generation)
  }

  lemma {:induction false} RequestWasRead(run: Run, n: nat, i: SlotIndex, generation: nat)
    requires run.Valid() && n < |run.states| && LastRequest(run, n, i, generation).Some?
    ensures var request := LastRequest(run, n, i, generation).value;
      && request.read <= n
      && var slot := run.states[request.read].slots[i];
         && slot.generation == generation
         && (request.Update? ==> request.row.slot == slot)
         && (request.Configuration? ==> slot.state == Configuring && request.required == Max(1, slot.reserved))
  {
    hide Initial;
    if n > 0 {
      var s, e := run.states[n - 1], run.moments[n - 1].event;
      if Asks(s, e, i, generation) {
        DueRowsWereRead(run, n - 1, s.run.due[0]);
      } else if !Configures(s, e, i, generation) {
        RequestWasRead(run, n - 1, i, generation);
      }
    }
  }

  // ---------------------------------------------------------------- the recorded ceiling and the real one

  /** The platform's ceiling, if it starts out as recorded and every request is granted by the time it is reported done. */
  ghost function Real(run: Run, n: nat, i: SlotIndex): int
    requires run.Valid() && n < |run.states|
  {
    if n == 0 then run.states[0].slots[i].applied
    else
      var before, e := Real(run, n - 1, i), run.moments[n - 1].event;
      if Reports(e, i) then AfterReport(run, n - 1, i, e.generation, before) else before
  }

  ghost function AfterReport(run: Run, k: nat, i: SlotIndex, generation: nat, before: int): int
    requires run.Valid() && k < |run.states|
  {
    var request := LastRequest(run, k, i, generation);
    if request.Some? then request.value.Granted(before) else before
  }

  /** What a report makes of the recorded ceiling. */
  function Recorded(s: State, i: SlotIndex, generation: nat): int {
    var key := OperationKey(i, generation);
    if key in s.operations then s.operations[key].target else s.slots[i].applied
  }

  /** A report records another ceiling than the platform was given for it. */
  ghost predicate Lags(run: Run, k: nat, i: SlotIndex)
    requires run.Valid() && k < |run.moments|
  {
    var s, e := run.states[k], run.moments[k].event;
    Reports(e, i) && Recorded(s, i, e.generation) != AfterReport(run, k, i, e.generation, s.slots[i].applied)
  }

  lemma {:induction false} ReportRecords(s: State, e: Event, now: int, t: State, i: SlotIndex)
    requires Leads(s, e, now, t) && Reports(e, i)
    ensures t.slots[i].applied == Recorded(s, i, e.generation)
  {
    hide DueTimes, Superseding;
  }

  /** The recorded ceiling is the platform's. */
  ghost predicate Tracks(run: Run, n: nat, i: SlotIndex)
    requires run.Valid() && n < |run.states|
  {
    run.states[n].slots[i].applied == Real(run, n, i)
  }

  /** The recorded ceiling is the platform's through state `n` exactly when no report so far lags. */
  lemma {:induction false} RecordedIsRealExactlyWhen(run: Run, n: nat, i: SlotIndex)
    requires run.Valid() && n < |run.states|
    ensures (forall k :: 0 <= k <= n ==> Tracks(run, k, i)) <==> (forall k :: 0 <= k < n ==> !Lags(run, k, i))
  {
    if n == 0 {
      assert Tracks(run, 0, i);
    } else {
      hide Initial, Leads, Lags, Tracks;
      RecordedIsRealExactlyWhen(run, n - 1, i);
      ReportKeepsReal(run, n - 1, i);
    }
  }

  lemma {:induction false} ReportKeepsReal(run: Run, k: nat, i: SlotIndex)
    requires run.Valid() && k < |run.moments|
    ensures Tracks(run, k, i) ==> (Tracks(run, k + 1, i) <==> !Lags(run, k, i))
  {
    hide Initial, Leads, Recorded, AfterReport;
    var s, moment := run.states[k], run.moments[k];
    assert run.Follows(k);
    if Reports(moment.event, i) {
      ReportRecords(s, moment.event, moment.now, run.states[k + 1], i);
    } else {
      LedKeepsApplied(s, moment.event, moment.now, run.states[k + 1], i);
    }
  }

  lemma {:induction false} LedKeepsApplied(s: State, e: Event, now: int, t: State, i: SlotIndex)
    requires Leads(s, e, now, t) && !Reports(e, i)
    ensures t.slots[i].applied == s.slots[i].applied
  {
    LedMoves(s, e, now, t, i);
    hide Leads, TargetsKept, Targeted, ReleasesSlot;
  }

  /** Step `k` reports an update that an alarm has asked for done. */
  ghost predicate CompletesUpdate(run: Run, k: nat, i: SlotIndex)
    requires run.Valid() && k < |run.moments|
  {
    && Reports(run.moments[k].event, i)
    && var request := LastRequest(run, k, i, run.moments[k].event.generation);
       request.Some? && request.value.Update?
  }

  /**
   * What an update asks for that reads its row at state `m`: what the last release under the row's generation has left,
   * or the target of the generation's operation.
   */
  ghost function AskedAt(run: Run, m: nat, i: SlotIndex, target: int): int
    requires run.Valid() && m < |run.states|
  {
    var released := LastRelease(run, m, i);
    if released.Some? then Max(run.states[released.value].slots[i].applied, run.states[released.value].slots[i].reserved)
    else target
  }

  /**
   * What the completion of an update records, the target of its generation's operation, differs from what it has made
   * of the recorded ceiling. The update has asked for that target too, unless the slot was released after its
   * generation was assigned and before the row was read: then it asked for what the last such release has left. It
   * lowered the ceiling if that was below the one in the row it read, and raised it otherwise. Without such an operation
   * the report is ignored, so it lags exactly when the update moves the recorded ceiling.
   */
  lemma {:induction false} UpdateLagsExactlyWhen(run: Run, k: nat, i: SlotIndex)
    requires run.Valid() && k < |run.moments| && CompletesUpdate(run, k, i)
    ensures var s, key := run.states[k], OperationKey(i, run.moments[k].event.generation);
      var request := LastRequest(run, k, i, key.generation).value;
      var read, recorded := request.row.slot.applied, s.slots[i].applied;
      Lags(run, k, i) <==>
        if key in s.operations then
          var asked := AskedAt(run, request.read, i, s.operations[key].target);
          s.operations[key].target != if asked < read then Min(recorded, asked) else Max(recorded, asked)
        else
          request.Granted(recorded) != recorded
  {
    var generation := run.moments[k].event.generation;
    var request := LastRequest(run, k, i, generation).value;
    RequestWasRead(run, k, i, generation);
    TargetsStay(run, request.read, k, i, generation);
    DesiredSinceAssignment(run, request.read, i);
    hide LastRequest, LastRelease, Initial, Leads;
  }

  /**
   * While the recorded ceiling is still the one in the row that was read, this is so exactly when the slot was released
   * in between and the last such release left another ceiling than the operation's target, or when there is no
   * operation and the row asks for a change.
   */
  lemma {:induction false} UpdateLagsExactlyWhenReleased(run: Run, k: nat, i: SlotIndex)
    requires run.Valid() && k < |run.moments| && CompletesUpdate(run, k, i)
    requires LastRequest(run, k, i, run.moments[k].event.generation).value.row.slot.applied == run.states[k].slots[i].applied
    ensures var key := OperationKey(i, run.moments[k].event.generation);
      var request := LastRequest(run, k, i, key.generation).value;
      var released := LastRelease(run, request.read, i);
      Lags(run, k, i) <==>
        if key in run.states[k].operations then
          && released.Some?
          && var left := run.states[released.value].slots[i];
             Max(left.applied, left.reserved) != run.states[k].operations[key].target
        else
          request.row.slot.desired != request.row.slot.applied
  {
    UpdateLagsExactlyWhen(run, k, i);
    hide Lags, LastRequest, LastRelease, Initial, Leads;
  }

  /**
   * The completion of a configuration records another ceiling than the platform was given, exactly when the claim that
   * asked for it found another reserved count than the slot's generation was assigned with.
   */
  lemma {:induction false} ConfigurationLagsExactlyWhen(run: Run, k: nat, i: SlotIndex)
    requires run.Valid() && k < |run.moments| && Reports(run.moments[k].event, i)
    requires var request := LastRequest(run, k, i, run.moments[k].event.generation);
      request.Some? && request.value.Configuration?
    ensures var m := LastRequest(run, k, i, run.moments[k].event.generation).value.read;
      Lags(run, k, i) <==> Max(1, run.states[m].slots[i].reserved) != AssignedReserved(run, m, i)
  {
    var generation := run.moments[k].event.generation;
    var request := LastRequest(run, k, i, generation).value;
    RequestWasRead(run, k, i, generation);
    TargetsStay(run, request.read, k, i, generation);
    ConfigurationIsTargeted(run, request.read, i);
    hide LastRequest, AssignedReserved, Initial, Leads;
  }

  /**
   * A granted plan is covered by the platform's ceiling, and not only by the recorded one, as long as no report on the
   * slot has lagged and no recovery has uncovered it.
   */
  lemma {:induction false} GrantedClaimFitsThePlatform(run: Run, n: nat, id: JobId, runnerName: string)
    requires run.Valid() && n < |run.states|
    requires var plan := ClaimProvisioning(run.states[n], id, runnerName); plan.Provision? && !plan.requiresConfiguration
    requires var i := ClaimProvisioning(run.states[n], id, runnerName).slot;
      forall k :: 0 <= k < n ==> !Lags(run, k, i) && !Uncovers(run.states[k], run.moments[k].event, i)
    ensures var plan := ClaimProvisioning(run.states[n], id, runnerName);
      |ActiveOn(run.states[n].jobs, plan.slot)| <= plan.requiredMaxInstances <= Real(run, n, plan.slot)
  {
    GrantedClaimIsCovered(run, 0, n, id, runnerName);
    RecordedIsRealExactlyWhen(run, n, ClaimProvisioning(run.states[n], id, runnerName).slot);
    assert Tracks(run, n, ClaimProvisioning(run.states[n], id, runnerName).slot);
    hide Lags, Uncovers, Real, Initial, Leads, ClaimProvisioning;
  }

  // ---------------------------------------------------------------- one update at a time

  /** An update of the slot under that generation is in flight. */
  predicate InFlightUnder(s: State, i: SlotIndex, generation: nat) {
    s.slots[i].updating && s.slots[i].updateGeneration == generation
  }

  predicate Live(s: State, i: SlotIndex, generation: nat, now: int) {
    var key := OperationKey(i, generation);
    && key in s.operations && s.operations[key].state == Pending
    && now - s.operations[key].updatedAt < STALLED_CAPACITY_UPDATE_RECOVERY_MS
  }

  /** The update is reported done, put off, or found stalled: its operation is settled, superseded or a minute old. */
  ghost predicate EndsUpdate(s: State, e: Event, now: int, i: SlotIndex, generation: nat) {
    || (e.CapacityReported? && e.slot == i && e.generation == generation)
    || (e.UpdateDeferred? && e.slot == i && e.generation == generation)
    || ((e.UpdatesSelected? || e.Restarted?) && !Live(s, i, generation, now))
  }

  lemma {:induction false} RestartFrees(s: State, e: Event, now: int, i: SlotIndex, generation: nat)
    requires e.Restarted? && InFlightUnder(s, i, generation) && Live(s, i, generation, now)
    ensures InFlightUnder(Restart(s, e.releasing, now), i, generation)
  {
    ReleaseAllKeepsFlag(ReconcileReservations(s), e.releasing, now, i);
    hide ReleaseAll, DueTimes;
  }

  lemma {:induction false} ReleaseAllKeepsFlag(s: State, ids: seq<JobId>, now: int, i: SlotIndex)
    ensures var t := ReleaseAll(s, ids, now); FlagSame(s.slots[i], t.slots[i]) && t.operations == s.operations
    decreases |ids|
  {
    if ids != [] && ids[0] in s.jobs {
      ReleaseAllKeepsFlag(ReleaseJob(s, ids[0], s.jobs[ids[0]].slot, Completed, now), ids[1..], now, i);
    } else if ids != [] {
      ReleaseAllKeepsFlag(s, ids[1..], now, i);
    }
  }

  lemma {:induction false} UpdateStaysInFlight(s: State, e: Event, now: int, t: State, i: SlotIndex, generation: nat)
    requires Leads(s, e, now, t) && InFlightUnder(s, i, generation) && !EndsUpdate(s, e, now, i, generation)
    ensures InFlightUnder(t, i, generation)
  {
    if e.Restarted? {
      RestartFrees(s, e, now, i, generation);
      hide Restart;
    } else if e.ConfigurationReported? {
      ConfigurationReadyMoves(s, e.id, now, i);
      hide ConfigurationReady;
    } else if Flags(e, i) {
      hide DueTimes, DueRows, Superseding;
    } else {
      LedMoves(s, e, now, t, i);
      hide Leads;
    }
  }

  lemma {:induction false} StartedIsInFlight(s: State, e: Event, now: int, t: State, i: SlotIndex, generation: nat)
    requires Leads(s, e, now, t) && Asks(s, e, i, generation)
    ensures InFlightUnder(t, i, generation) && !s.slots[i].updating
  {
  }

  /**
   * Between two updates of the same slot the first was reported done, put off, or found stalled: the platform is never
   * asked for two ceilings of one slot at once, unless a minute has passed or the operation was settled meanwhile.
   */
  lemma {:induction false} OneUpdateAtATime(run: Run, m: nat, n: nat, i: SlotIndex, first: nat, second: nat)
    requires run.Valid() && m < n < |run.moments|
    requires Asks(run.states[m], run.moments[m].event, i, first) && Asks(run.states[n], run.moments[n].event, i, second)
    ensures exists k :: m < k < n && EndsUpdate(run.states[k], run.moments[k].event, run.moments[k].now, i, first)
  {
    hide Initial, Leads, EndsUpdate;
    assert run.Follows(m);
    StartedIsInFlight(run.states[m], run.moments[m].event, run.moments[m].now, run.states[m + 1], i, first);
    assert run.Follows(n);
    StartedIsInFlight(run.states[n], run.moments[n].event, run.moments[n].now, run.states[n + 1], i, second);
    if forall k :: m < k < n ==> !EndsUpdate(run.states[k], run.moments[k].event, run.moments[k].now, i, first) {
      StaysInFlight(run, m + 1, n, i, first);
    }
  }

  lemma {:induction false} StaysInFlight(run: Run, m: nat, n: nat, i: SlotIndex, generation: nat)
    requires run.Valid() && m <= n < |run.states| && InFlightUnder(run.states[m], i, generation)
    requires forall k :: m <= k < n ==> !EndsUpdate(run.states[k], run.moments[k].event, run.moments[k].now, i, generation)
    ensures InFlightUnder(run.states[n], i, generation)
  {
    hide Initial, Leads, EndsUpdate;
    if m < n {
      StaysInFlight(run, m, n - 1, i, generation);
      assert run.Follows(n - 1);
      UpdateStaysInFlight(run.states[n - 1], run.moments[n - 1].event, run.moments[n - 1].now, run.states[n], i, generation);
    }
  }

  // ---------------------------------------------------------------- the outdated reduction

  /** An update whose slot saw no admission since it started. */
  predicate InFlight(s: State, i: SlotIndex) {
    InFlightUnder(s, i, s.slots[i].generation)
  }

  /** An idle ready slot whose ceiling is to be lowered, while the last operation asked for the ceiling it has. */
  predicate Outdated(s: State, i: SlotIndex) {
    var slot, key := s.slots[i], OperationKey(i, s.slots[i].generation);
    && slot.state == Ready && !slot.updating && slot.reserved == 0 && slot.desired < slot.applied
    && key in s.operations && s.operations[key].target == slot.applied
  }

  /** An update in flight that raises the ceiling. */
  predicate IncreaseInFlight(s: State, i: SlotIndex) {
    var key := OperationKey(i, s.slots[i].generation);
    InFlight(s, i) && key in s.operations && 0 <= s.slots[i].applied < s.operations[key].target
  }

  /** The slot's last job is released while an increase is in flight, and then the increase completes. */
  lemma {:induction false} ReleaseDuringIncreaseOutdates(s: State, id: JobId, i: SlotIndex, status: Status, now: int, later: int)
    requires IncreaseInFlight(s, i) && s.slots[i].state == Ready && s.slots[i].reserved == 1 && id in s.jobs
    ensures var released := ReleaseJob(s, id, Some(i), status, now);
      var t := CapacityPrepared(released, i, s.slots[i].generation, later);
      && IncreaseInFlight(released, i)
      && t.slots[i].applied == s.operations[OperationKey(i, s.slots[i].generation)].target
      && t.slots[i].desired == s.slots[i].applied
      && Outdated(t, i)
  {
    hide DueTimes;
  }

  /**
   * From then on every alarm lowers the real ceiling and records the old one: the slot is due, its update starts, and
   * the completion leaves the row as it was, due again at once.
   */
  lemma {:induction false} OutdatedReductionRepeats(s: State, i: SlotIndex, now: int, later: int)
    requires Outdated(s, i)
    ensures var row := DueRow(i, s.slots[i]);
      && row in DueRows(s.slots, now)
      && StartsUpdate(s, row)
      && var t := CapacityPrepared(StartUpdate(s, row), i, s.slots[i].generation, later);
         && t.slots[i] == s.slots[i].(updateGeneration := s.slots[i].generation)
         && Outdated(t, i)
         && t.alarm.Some? && t.alarm.value <= Max(later, s.slots[i].debounceUntil)
  {
    DueRowsExactly(s.slots, now);
    hide DueRows;
    var started := StartUpdate(s, DueRow(i, s.slots[i]));
    var t := CapacityPrepared(started, i, s.slots[i].generation, later);
    OutdatedCompletion(started, i, later);
    assert t.slots[i] == s.slots[i].(updateGeneration := s.slots[i].generation);
  }

  lemma {:induction false} OutdatedCompletion(s: State, i: SlotIndex, now: int)
    requires InFlight(s, i) && s.slots[i].state == Ready && s.slots[i].reserved == 0 && s.slots[i].desired < s.slots[i].applied
    requires var key := OperationKey(i, s.slots[i].generation);
      key in s.operations && s.operations[key].target == s.slots[i].applied
    ensures var t := CapacityPrepared(s, i, s.slots[i].generation, now);
      && t.slots[i] == s.slots[i].(updating := false)
      && Outdated(t, i)
      && t.alarm.Some? && t.alarm.value <= Max(now, s.slots[i].debounceUntil)
  {
    var generation := s.slots[i].generation;
    var prepared := s.slots[i].(updating := false);
    var t := s.(slots := s.slots[i := prepared], operations := Superseding(s.operations, i, generation, now));
    assert CapacityChangePending(t.slots[i]);
    var times := DueTimes(t, now);
    assert prepared.debounceUntil in times;
    EarliestIsEarliest(times, prepared.debounceUntil);
    assert CapacityPrepared(s, i, generation, now) == ScheduleAlarm(t, now);
  }

  /**
   * An admission to a ready slot whose reservations are below its recorded ceiling asks for that ceiling, records no
   * operation, leaves nothing for an alarm to do, and the job's claim is granted at once.
   */
  lemma {:induction false} AdmissionWithinCeiling(
      s: State, id: JobId, i: SlotIndex, reductions: seq<Reduction>, now: int)
    requires id in s.jobs && OperationsBounded(s, i)
    requires s.slots[i].state == Ready && !s.slots[i].updating && s.slots[i].reserved < s.slots[i].applied
    requires forall r :: r in reductions ==> 1 <= r.target && r.slotId != i
    ensures var t := Admit(s, id, SelectedSlot(i, false), reductions, now);
      && t.slots[i].desired == t.slots[i].applied == s.slots[i].applied
      && !CapacityChangePending(t.slots[i])
      && Current(t, i) !in t.operations
      && ClaimProvisioning(t, id, s.jobs[id].runnerName) == Provision(i, s.slots[i].reserved + 1, t.slots[i].generation, false)
  {
    var (slots, operations) := ScheduleReclamation(s.slots, s.operations, reductions, now);
    ReclamationKeepsRows(s.slots, s.operations, reductions, now, i);
    ReclamationPlans(s, reductions, now, i);
    hide ScheduleReclamation;
  }
}
