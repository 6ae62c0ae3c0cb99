/**
 * The platform's own ceiling when a request may take effect at any moment after it was made, whether or not it is ever
 * reported done: which steps let the ceiling fall below the recorded one while claims may be granted against that.
 */
module SchedulerPlatform {
  import opened SchedulerCeilings
  import opened SchedulerModel
  import opened SchedulerPolicy
  import opened SchedulerReservations
  import opened SchedulerRuns
  import opened SchedulerUpdates
  import opened Wrappers

  // ---------------------------------------------------------------- histories

  /** A request that was made for the slot in the step from state `j`. */
  ghost predicate MadeAt(run: Run, j: nat, i: SlotIndex, request: Request)
    requires run.Valid() && j < |run.moments|
  {
    var s, e := run.states[j], run.moments[j].event;
    match request
    case Update(read, row) => e.UpdateStarted? && s.run.Updating? && s.run.due != []
      && row == s.run.due[0] && row.id == i && StartsUpdate(s, row)
    case Configuration(_, required) =>
      && e.Claim?
      && var plan := ClaimProvisioning(s, e.id, e.runnerName);
         plan.Provision? && plan.slot == i && plan.requiresConfiguration && required == plan.requiredMaxInstances
  }

  ghost predicate Made(run: Run, n: nat, i: SlotIndex, request: Request)
    requires run.Valid() && n < |run.states|
  {
    exists j :: 0 <= j < n && MadeAt(run, j, i, request)
  }

  /** How far the run has come, and the platform's ceiling of the slot then. */
  datatype Point = Point(at: nat, ceiling: int)

  /** A run with the platform's ceiling of one slot: between two points the run takes a step or a request takes effect. */
  datatype History = History(run: Run, slot: SlotIndex, points: seq<Point>) {
    ghost predicate Valid() {
      && run.Valid()
      && points != []
      && points[0] == Point(0, run.states[0].slots[slot].applied)
      && (forall p :: 0 <= p < |points| ==> points[p].at < |run.states|)
      && (forall p :: 0 <= p < |points| - 1 ==> Steps(p) || Changes(p))
    }

    ghost predicate Steps(p: nat)
      requires p < |points| - 1
    {
      points[p + 1] == Point(points[p].at + 1, points[p].ceiling)
    }

    ghost predicate Changes(p: nat)
      requires run.Valid() && p < |points| - 1 && points[p].at < |run.states|
    {
      exists request :: Made(run, points[p].at, slot, request) && ChangesBy(p, request)
    }

    ghost predicate ChangesBy(p: nat, request: Request)
      requires p < |points| - 1
    {
      points[p + 1] == Point(points[p].at, request.Granted(points[p].ceiling))
    }

    ghost function StateAt(p: nat): State
      requires Valid() && p < |points|
    {
      run.states[points[p].at]
    }
  }

  /** No claim is granted against the recorded ceiling, or the platform has at least that. */
  predicate Backed(s: State, i: SlotIndex, ceiling: int) {
    s.slots[i].updating || s.slots[i].state != Ready || s.slots[i].applied <= ceiling
  }

  // ---------------------------------------------------------------- a request that takes effect

  /** The request leaves the platform with less than is recorded. */
  predicate Undercuts(request: Request, recorded: int) {
    match request
    case Update(_, row) => row.slot.desired < row.slot.applied && row.slot.desired < recorded
    case Configuration(_, required) => required < recorded
  }

  /** It matters when no update is in flight any more and the slot is ready. */
  lemma {:induction false} EffectKeepsBackedExactlyWhen(s: State, i: SlotIndex, request: Request, ceiling: int)
    requires Backed(s, i, ceiling)
    ensures Backed(s, i, request.Granted(ceiling))
      <==> !(!s.slots[i].updating && s.slots[i].state == Ready && Undercuts(request, s.slots[i].applied))
  {
  }

  // ---------------------------------------------------------------- a step

  /** An update in flight that the step gives up: it was put off, or is found stalled. */
  ghost predicate GivesUp(s: State, e: Event, now: int, i: SlotIndex) {
    && s.slots[i].updating && s.slots[i].state == Ready
    && (|| (e.UpdateDeferred? && e.slot == i && e.generation == s.slots[i].updateGeneration)
        || ((e.UpdatesSelected? || e.Restarted?) && !Live(s, i, s.slots[i].updateGeneration, now)))
  }

  /** A completion that ends the update in flight, or comes when there is none. */
  predicate Settles(s: State, e: Event, i: SlotIndex) {
    && Reports(e, i) && OperationKey(i, e.generation) in s.operations
    && s.slots[i].state == Ready && (s.slots[i].updating ==> s.slots[i].updateGeneration == e.generation)
  }

  /** The end of a configuration, unless the slot is configured anew in the same step. */
  predicate Opens(s: State, e: Event, t: State, i: SlotIndex) {
    && e.ConfigurationReported? && s.slots[i].configurationOwner == Some(e.id)
    && s.slots[i].state != Ready && t.slots[i].state == Ready && !s.slots[i].updating
  }

  /** The three kinds of steps that let claims be granted against more than the platform has. */
  ghost predicate Exposes(s: State, e: Event, now: int, t: State, i: SlotIndex, ceiling: int) {
    || (Settles(s, e, i) && ceiling < s.operations[OperationKey(i, e.generation)].target)
    || (GivesUp(s, e, now, i) && ceiling < s.slots[i].applied)
    || (Opens(s, e, t, i) && ceiling < s.slots[i].applied)
  }

  lemma {:induction false} RestartEndsFlag(s: State, e: Event, now: int, i: SlotIndex)
    requires e.Restarted?
    ensures var (a, b) := (s.slots[i], Restart(s, e.releasing, now).slots[i]);
      && b.applied == a.applied && (b.state == Ready <==> a.state == Ready)
      && b.updating == (a.updating && Live(s, i, a.updateGeneration, now))
  {
    ReleaseAllKeepsFlag(ReconcileReservations(s), e.releasing, now, i);
    ReleaseAllKeepsReady(ReconcileReservations(s), e.releasing, now, i);
    hide ReleaseAll, DueTimes;
  }

  lemma {:induction false} ReleaseAllKeepsReady(s: State, ids: seq<JobId>, now: int, i: SlotIndex)
    ensures var t := ReleaseAll(s, ids, now);
      t.slots[i].applied == s.slots[i].applied && (t.slots[i].state == Ready <==> s.slots[i].state == Ready)
    decreases |ids|
  {
    if ids != [] && ids[0] in s.jobs {
      ReleaseAllKeepsReady(ReleaseJob(s, ids[0], s.jobs[ids[0]].slot, Completed, now), ids[1..], now, i);
    } else if ids != [] {
      ReleaseAllKeepsReady(s, ids[1..], now, i);
    }
  }

  lemma {:induction false} ReportKeepsBacked(s: State, e: Event, now: int, t: State, i: SlotIndex, ceiling: int)
    requires Leads(s, e, now, t) && Backed(s, i, ceiling) && Reports(e, i)
    ensures Backed(t, i, ceiling) <==> !Exposes(s, e, now, t, i, ceiling)
  {
    hide DueTimes, Superseding;
  }

  lemma {:induction false} UpdateKeepsBacked(s: State, e: Event, now: int, t: State, i: SlotIndex, ceiling: int)
    requires Leads(s, e, now, t) && Backed(s, i, ceiling) && (e.UpdateStarted? || e.UpdateDeferred? || e.UpdatesSelected?)
    ensures Backed(t, i, ceiling) <==> !Exposes(s, e, now, t, i, ceiling)
  {
    hide DueRows;
  }

  lemma {:induction false} OtherStepKeepsBacked(s: State, e: Event, now: int, t: State, i: SlotIndex, ceiling: int)
    requires Leads(s, e, now, t) && Backed(s, i, ceiling) && !Flags(e, i)
    ensures Backed(t, i, ceiling) && !Exposes(s, e, now, t, i, ceiling)
  {
    StepMoves(s, e, now, i);
    hide Step, Possible, TargetsKept, Targeted, ReleasesSlot;
  }

  lemma {:induction false} ConfigurationKeepsBacked(s: State, e: Event, now: int, t: State, i: SlotIndex, ceiling: int)
    requires Leads(s, e, now, t) && Backed(s, i, ceiling) && e.ConfigurationReported?
    ensures Backed(t, i, ceiling) <==> !Exposes(s, e, now, t, i, ceiling)
  {
    ConfigurationReadyMoves(s, e.id, now, i);
    hide ConfigurationReady, TargetsKept, Targeted;
  }

  /** Of all steps only these expose a slot, and they do it whenever their condition holds. */
  lemma {:induction false} StepKeepsBackedExactlyWhen(s: State, e: Event, now: int, t: State, i: SlotIndex, ceiling: int)
    requires Leads(s, e, now, t) && Backed(s, i, ceiling)
    ensures Backed(t, i, ceiling) <==> !Exposes(s, e, now, t, i, ceiling)
  {
    if e.Restarted? {
      RestartEndsFlag(s, e, now, i);
      hide Restart;
    } else {
      hide Leads, Exposes, Backed;
      if e.ConfigurationReported? {
        ConfigurationKeepsBacked(s, e, now, t, i, ceiling);
      } else if Reports(e, i) {
        ReportKeepsBacked(s, e, now, t, i, ceiling);
      } else if Flags(e, i) {
        UpdateKeepsBacked(s, e, now, t, i, ceiling);
      } else {
        OtherStepKeepsBacked(s, e, now, t, i, ceiling);
      }
    }
  }

  // ---------------------------------------------------------------- whole histories

  /** Between points `p` and `p + 1` a step or a request exposes the slot. */
  ghost predicate ExposedAt(h: History, p: nat)
    requires h.Valid() && p < |h.points| - 1
  {
    var s, ceiling := h.StateAt(p), h.points[p].ceiling;
    if h.Steps(p) then
      var moment := h.run.moments[h.points[p].at];
      Exposes(s, moment.event, moment.now, h.StateAt(p + 1), h.slot, ceiling)
    else
      && !s.slots[h.slot].updating && s.slots[h.slot].state == Ready
      && exists request :: Made(h.run, h.points[p].at, h.slot, request) && h.ChangesBy(p, request)
           && Undercuts(request, s.slots[h.slot].applied)
  }

  ghost predicate BackedAt(h: History, p: nat)
    requires h.Valid() && p < |h.points|
  {
    Backed(h.StateAt(p), h.slot, h.points[p].ceiling)
  }

  lemma {:induction false} TurnKeepsBacked(h: History, p: nat)
    requires h.Valid() && p < |h.points| - 1 && BackedAt(h, p)
    ensures BackedAt(h, p + 1) <==> !ExposedAt(h, p)
  {
    var s, ceiling := h.StateAt(p), h.points[p].ceiling;
    hide Leads, Initial, Exposes, Request.Granted, Undercuts, Made;
    assert h.Steps(p) || h.Changes(p);
    if h.Steps(p) {
      var moment := h.run.moments[h.points[p].at];
      assert h.run.Follows(h.points[p].at);
      StepKeepsBackedExactlyWhen(s, moment.event, moment.now, h.StateAt(p + 1), h.slot, ceiling);
      hide Backed;
    } else {
      forall request | Made(h.run, h.points[p].at, h.slot, request) && h.ChangesBy(p, request)
        ensures BackedAt(h, p + 1)
          <==> !(!s.slots[h.slot].updating && s.slots[h.slot].state == Ready && Undercuts(request, s.slots[h.slot].applied))
      {
        EffectKeepsBackedExactlyWhen(s, h.slot, request, ceiling);
      }
    }
  }

  /** Through point `n` a ready slot without an update in flight has what is recorded, exactly when nothing exposed it. */
  lemma {:induction false} BackedExactlyWhen(h: History, n: nat)
    requires h.Valid() && n < |h.points|
    ensures (forall p :: 0 <= p <= n ==> BackedAt(h, p)) <==> (forall p :: 0 <= p < n ==> !ExposedAt(h, p))
  {
    assert BackedAt(h, 0);
    hide Leads, Initial, ExposedAt, Backed;
    if n > 0 {
      BackedExactlyWhen(h, n - 1);
      if forall p :: 0 <= p <= n - 1 ==> BackedAt(h, p) {
        TurnKeepsBacked(h, n - 1);
      }
    }
  }

  /**
   * A claim granted on a ready slot is covered by what the platform has at that moment, as long as no recovery has
   * uncovered the slot and nothing has exposed it.
   */
  lemma {:induction false} GrantedClaimIsBacked(h: History, n: nat, id: JobId, runnerName: string)
    requires h.Valid() && n < |h.points| && h.StateAt(n).slots[h.slot].state == Ready
    requires var plan := ClaimProvisioning(h.StateAt(n), id, runnerName); plan.Provision? && plan.slot == h.slot
    requires forall k :: 0 <= k < h.points[n].at ==> !Uncovers(h.run.states[k], h.run.moments[k].event, h.slot)
    requires forall p :: 0 <= p < n ==> !ExposedAt(h, p)
    ensures var plan := ClaimProvisioning(h.StateAt(n), id, runnerName);
      |ActiveOn(h.StateAt(n).jobs, h.slot)| <= plan.requiredMaxInstances <= h.points[n].ceiling
  {
    BackedExactlyWhen(h, n);
    assert BackedAt(h, n);
    GrantedClaimIsCovered(h.run, 0, h.points[n].at, id, runnerName);
    hide Initial, Leads, Uncovers, ExposedAt, ActiveOn;
  }

  // ---------------------------------------------------------------- requests that take effect with their reports

  lemma {:induction false} LastRequestWasMade(run: Run, n: nat, i: SlotIndex, generation: nat)
    requires run.Valid() && n < |run.states| && LastRequest(run, n, i, generation).Some?
    ensures Made(run, n, i, LastRequest(run, n, i, generation).value)
  {
    hide Initial, Leads, ClaimProvisioning;
    if n > 0 {
      var s, e := run.states[n - 1], run.moments[n - 1].event;
      if Asks(s, e, i, generation) || Configures(s, e, i, generation) {
        assert MadeAt(run, n - 1, i, LastRequest(run, n, i, generation).value);
      } else {
        LastRequestWasMade(run, n - 1, i, generation);
        var j :| 0 <= j < n - 1 && MadeAt(run, j, i, LastRequest(run, n, i, generation).value);
      }
    }
  }

  lemma {:induction false} Continued(h: History, next: Point) returns (longer: History)
    requires h.Valid() && next.at < |h.run.states|
    requires var last := h.points[|h.points| - 1];
      || next == Point(last.at + 1, last.ceiling)
      || exists request :: Made(h.run, last.at, h.slot, request) && next == Point(last.at, request.Granted(last.ceiling))
    ensures longer.Valid() && longer.run == h.run && longer.slot == h.slot && longer.points == h.points + [next]
  {
    hide Leads, Initial, Made, Request.Granted;
    longer := h.(points := h.points + [next]);
    var last := |h.points| - 1;
    forall p | 0 <= p < |longer.points| - 1
      ensures longer.Steps(p) || longer.Changes(p)
    {
      if p < last {
        assert h.Steps(p) || h.Changes(p);
        if !h.Steps(p) {
          var request :| Made(h.run, h.points[p].at, h.slot, request) && h.ChangesBy(p, request);
          assert longer.ChangesBy(p, request);
        }
      } else if !longer.Steps(p) {
        var point := h.points[last];
        var request :| Made(h.run, point.at, h.slot, request) && next == Point(point.at, request.Granted(point.ceiling));
        assert longer.ChangesBy(p, request);
      }
    }
  }

  /** If every request takes effect when it is reported done, the platform's ceiling is the one followed with reports. */
  lemma {:induction false} ReportedHistory(run: Run, n: nat, i: SlotIndex) returns (h: History)
    requires run.Valid() && n < |run.states|
    ensures h.Valid() && h.run == run && h.slot == i && h.points[|h.points| - 1] == Point(n, Real(run, n, i))
  {
    hide Leads, Initial, LastRequest, Made, Request.Granted, MadeAt;
    if n == 0 {
      h := History(run, i, [Point(0, run.states[0].slots[i].applied)]);
    } else {
      h := ReportedHistory(run, n - 1, i);
      var e := run.moments[n - 1].event;
      if Reports(e, i) && LastRequest(run, n - 1, i, e.generation).Some? {
        LastRequestWasMade(run, n - 1, i, e.generation);
        h := Continued(h, Point(n - 1, Real(run, n, i)));
      }
      h := Continued(h, Point(n, Real(run, n, i)));
    }
  }
}
