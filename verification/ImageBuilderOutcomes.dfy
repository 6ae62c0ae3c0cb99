/** What a caller of the image builder gets when the platform answers well, and when it does not. */
module ImageBuilderOutcomes {
  import opened ImageBuilderLeases
  import opened ImageBuilderModel
  import opened Wrappers

  // ---------------------------------------------------------------- a start gets the slot unless it is taken

  /** Another build or rollout holds the slot under a lease that has not expired. */
  predicate Taken(stored: Option<Build>, now: int) {
    match stored
    case Some(Active(_, leaseExpiresAt, _)) => now < leaseExpiresAt
    case Some(RollingOut(_, _, leaseExpiresAt, _)) => now < leaseExpiresAt
    case _ => false
  }

  /** The calls in which a start may be suspended, and the answer that lets it go on. */
  predicate IsStarts(call: Call, workflow: WorkflowId) {
    match call
    case Releasing(_, purpose) => purpose == ForStart(workflow)
    case Deleting(w, _) => w == workflow
    case Clearing(w, _) => w == workflow
    case Reconciling(_, _, start) => start == Some(workflow)
    case _ => false
  }

  function GoodEnd(call: Call): Event {
    match call
    case Releasing(_, _) => ReleaseEnds(call, true)
    case Deleting(_, _) => DeleteEnds(call)
    case Clearing(_, _) => ClearEnds(call, true)
    case Finalizing(_, _) => FinalizeEnds(call, true)
    case _ => ReconcileEnds(call, false)
  }

  ghost predicate HasClaimed(s: State, t: State, workflow: WorkflowId, now: int) {
    && t.claims == s.claims + 1 && t.container.None?
    && t.stored == Some(Active(workflow, now + 70 * 60 * 1_000, None))
    && t.claims in t.starting && t.starting[t.claims] == Start(workflow, Staging)
    && workflow in t.latest && t.latest[workflow] == t.claims
  }

  /** The suspended start claims the slot after at most `n` more good answers. */
  ghost predicate ClaimsWithin(s: State, t: State, waits: Option<Call>, workflow: WorkflowId, now: int, n: nat)
    decreases n
  {
    if waits.None? then HasClaimed(s, t, workflow, now)
    else
      && n > 0 && IsStarts(waits.value, workflow)
      && Possible(t, GoodEnd(waits.value))
      && ClaimsWithin(s, Step(t, GoodEnd(waits.value), now), Turned(t, GoodEnd(waits.value), now).waits, workflow, now, n - 1)
  }

  lemma {:induction false} ClearingClaims(s: State, t: State, call: Call, workflow: WorkflowId, now: int, n: nat)
    requires call.Clearing? && call.workflow == workflow && call.Fits() && call in t.calls && t.claims == s.claims && n > 0
    ensures ClaimsWithin(s, t, Some(call), workflow, now, n)
  {
  }

  lemma {:induction false} ProceededClaims(
      s: State, u: State, turn: Turn, r: State, workflow: WorkflowId, existing: Option<Build>, now: int, n: nat)
    requires turn == Proceeded(r, workflow, existing, now) && r.claims == s.claims && n > 0
    requires u == turn.state.(calls := u.calls) && (turn.waits.Some? ==> turn.waits.value in u.calls)
    requires existing.Some? ==> !existing.value.RollingOut?
    ensures ClaimsWithin(s, u, turn.waits, workflow, now, n)
  {
    if turn.waits.Some? {
      ClearingClaims(s, u, turn.waits.value, workflow, now, n);
    }
    hide Step, Turned, Possible, GoodEnd;
  }

  /** A step that goes on to claim, or to wait for the previous Container. */
  lemma {:induction false} ProceedingClaims(
      s: State, t: State, e: Event, r: State, workflow: WorkflowId, existing: Option<Build>, now: int, n: nat)
    requires Possible(t, e) && Turned(t, e, now) == Proceeded(r, workflow, existing, now) && r.claims == s.claims && n > 0
    requires existing.Some? ==> !existing.value.RollingOut?
    ensures ClaimsWithin(s, Step(t, e, now), Turned(t, e, now).waits, workflow, now, n)
  {
    StepTurns(t, e, now);
    NewCallWaits(t, e, now);
    hide Possible, Step, Turned, Proceeded, ClaimsWithin;
    ProceededClaims(s, Step(t, e, now), Turned(t, e, now), r, workflow, existing, now, n);
  }

  lemma {:induction false} NewCallWaits(s: State, e: Event, now: int)
    requires Possible(s, e)
    ensures Turned(s, e, now).waits.Some? ==> Turned(s, e, now).waits.value in Step(s, e, now).calls
  {
    hide Turned, Possible, Resumed;
  }

  lemma {:induction false} ReleasingClaims(s: State, t: State, call: Call, workflow: WorkflowId, now: int)
    requires call.Releasing? && call.purpose == ForStart(workflow) && call.Fits() && call in t.calls && t.claims == s.claims
    ensures ClaimsWithin(s, t, Some(call), workflow, now, 3)
  {
    var t1 := Step(t, ReleaseEnds(call, true), now);
    var next := Deleting(workflow, call.seen);
    assert Turned(t, ReleaseEnds(call, true), now).waits == Some(next) && next in t1.calls;
    ProceedingClaims(s, t1, DeleteEnds(next), t1, workflow, Some(call.seen), now, 1);
    assert ClaimsWithin(s, t1, Some(next), workflow, now, 2);
  }

  lemma {:induction false} ReconcilingClaims(s: State, t: State, call: Call, workflow: WorkflowId, now: int)
    requires call.Reconciling? && call.start == Some(workflow) && call.Fits() && call in t.calls && t.claims == s.claims
    ensures ClaimsWithin(s, t, Some(call), workflow, now, 3)
  {
    var stored := Some(Complete(call.seen.workflowId, call.seen.output));
    ProceedingClaims(s, t, ReconcileEnds(call, false), t.(stored := stored), workflow, stored, now, 2);
  }

  /**
   * A start leaves everything alone while another build or rollout holds the slot, its own included. Otherwise it claims
   * the slot for seventy minutes after at most three waits, if the platform answers well.
   */
  lemma {:induction false} StartClaimsUnlessTaken(s: State, workflow: WorkflowId, now: int)
    ensures var e := StartBuild(workflow);
      var t := Step(s, e, now);
      if Taken(s.stored, now) then t == s && Turned(s, e, now).waits.None?
      else ClaimsWithin(s, t, Turned(s, e, now).waits, workflow, now, 3)
  {
    var e := StartBuild(workflow);
    var t := Step(s, e, now);
    if Taken(s.stored, now) {
      assert s.calls - multiset{} + multiset{} == s.calls;
    } else if s.stored.Some? && s.stored.value.Active? {
      ReleasingClaims(s, t, Releasing(s.stored.value, ForStart(workflow)), workflow, now);
    } else if s.stored.Some? && s.stored.value.RollingOut? {
      ReconcilingClaims(s, t, Reconciling(s.stored.value, s.claims, Some(workflow)), workflow, now);
    } else {
      ProceedingClaims(s, s, e, s, workflow, s.stored, now, 3);
    }
    hide ClaimsWithin;
  }

  // ---------------------------------------------------------------- a start that fails, and an abort

  /** The workflow holds the slot for its build. */
  predicate BuildsIn(stored: Option<Build>, workflow: WorkflowId) {
    match stored
    case Some(Active(w, _, _)) => w == workflow
    case _ => false
  }

  lemma {:induction false} FailureWaits(s: State, claim: nat, now: int)
    requires claim in s.starting
    ensures var t, waits := Step(s, StartFails(claim), now), Turned(s, StartFails(claim), now).waits;
      && t.stored == s.stored && t.container == s.container && t.starting == s.starting - {claim}
      && waits == (if BuildsIn(s.stored, s.starting[claim].workflowId) then Some(Releasing(s.stored.value, ForFailure)) else None)
      && (waits.Some? ==> waits.value in t.calls)
  {
    NewCallWaits(s, StartFails(claim), now);
    StepTurns(s, StartFails(claim), now);
    hide Step;
  }

  lemma {:induction false} FailureFrees(s: State, call: Call, destroyed: bool, now: int)
    requires call.Releasing? && call.purpose.ForFailure? && call.Fits() && call in s.calls && s.stored == Some(call.seen)
    ensures Possible(s, ReleaseEnds(call, destroyed))
    ensures var u := Step(s, ReleaseEnds(call, destroyed), now);
      if destroyed then u.stored.None? && u.container.None?
      else
        && u.stored == Some(call.seen.(terminal := Some(Broken(1)))) && u.container == s.container
        && Turned(u, BuildStatus, now).waits == Some(Finalizing(u.stored.value, u.claims))
  {
    StepTurns(s, ReleaseEnds(call, destroyed), now);
    hide Step;
  }

  /**
   * A start that fails gives its slot up, if it is still its own: with its Container gone the slot is free again, else
   * the next status call finds a failed build. A slot that someone else holds by then is left alone.
   */
  lemma {:induction false} FailedStartGivesUpItsSlot(s: State, claim: nat, destroyed: bool, now: int)
    requires claim in s.starting
    ensures var workflow := s.starting[claim].workflowId;
      var t := Step(s, StartFails(claim), now);
      var waits := Turned(s, StartFails(claim), now).waits;
      && t.stored == s.stored && t.starting == s.starting - {claim}
      && (waits.Some? <==> BuildsIn(s.stored, workflow))
      && (waits.Some? ==>
            && Possible(t, ReleaseEnds(waits.value, destroyed))
            && var u := Step(t, ReleaseEnds(waits.value, destroyed), now);
               if destroyed then u.stored.None? && u.container.None?
               else
                 && u.stored == Some(s.stored.value.(terminal := Some(Broken(1)))) && u.container == s.container
                 && Turned(u, BuildStatus, now).waits == Some(Finalizing(u.stored.value, u.claims)))
  {
    FailureWaits(s, claim, now);
    var t := Step(s, StartFails(claim), now);
    if BuildsIn(s.stored, s.starting[claim].workflowId) {
      FailureFrees(t, Releasing(s.stored.value, ForFailure), destroyed, now);
    }
    hide Step, Turned, Possible;
  }

  lemma {:induction false} AbortWaits(s: State, workflow: WorkflowId, now: int)
    ensures var t, waits := Step(s, AbortBuild(workflow), now), Turned(s, AbortBuild(workflow), now).waits;
      && t.stored == s.stored
      && waits == (if BuildsIn(s.stored, workflow) then Some(Releasing(s.stored.value, ForAbort)) else None)
      && (waits.Some? ==> waits.value in t.calls)
  {
    NewCallWaits(s, AbortBuild(workflow), now);
  }

  lemma {:induction false} ReleaseFrees(s: State, call: Call, destroyed: bool, now: int)
    requires call.Releasing? && call.purpose.ForAbort? && call.Fits() && call in s.calls
    ensures Possible(s, ReleaseEnds(call, destroyed))
    ensures Step(s, ReleaseEnds(call, destroyed), now).stored == if destroyed then None else s.stored
  {
  }

  /** Only the workflow that builds in the slot can abort, and the slot is free exactly when its Container is gone. */
  lemma {:induction false} AbortFreesExactlyItsOwn(s: State, workflow: WorkflowId, destroyed: bool, now: int)
    ensures var t, waits := Step(s, AbortBuild(workflow), now), Turned(s, AbortBuild(workflow), now).waits;
      && t.stored == s.stored
      && (waits.Some? <==> BuildsIn(s.stored, workflow))
      && (waits.Some? ==>
            && Possible(t, ReleaseEnds(waits.value, destroyed))
            && Step(t, ReleaseEnds(waits.value, destroyed), now).stored == if destroyed then None else s.stored)
  {
    AbortWaits(s, workflow, now);
    var t := Step(s, AbortBuild(workflow), now);
    if BuildsIn(s.stored, workflow) {
      ReleaseFrees(t, Releasing(s.stored.value, ForAbort), destroyed, now);
    }
    hide Step, Turned, Possible;
  }

  // ---------------------------------------------------------------- how a build ends

  /**
   * A build ends as its process did: complete with the result it left, if it exited with zero and left one, and failed
   * with its exit code otherwise, or with one if that was zero. The result is stored before the Container is stopped,
   * and stays whatever becomes of that.
   */
  lemma {:induction false} BuildEndsAsItsProcess(
      s: State, call: Call, exitCode: nat, output: Option<Output>, destroyed: bool, now: int)
    requires call.Polling? && Possible(s, PollEnds(call, Exited(exitCode, output)))
    ensures var e := PollEnds(call, Exited(exitCode, output));
      var t, waits := Step(s, e, now), Turned(s, e, now).waits;
      && waits.Some? && t.container == s.container
      && Possible(t, FinalizeEnds(waits.value, destroyed))
      && var u := Step(t, FinalizeEnds(waits.value, destroyed), now);
         && u.stored == Some(
              if exitCode == 0 && output.Some? then Complete(call.seen.workflowId, output.value)
              else if exitCode == 0 then Failed(call.seen.workflowId, 1)
              else Failed(call.seen.workflowId, exitCode))
         && u.container == if destroyed then None else s.container
  {
  }

  // ---------------------------------------------------------------- a rollout that may have been cut off

  /** An attempt of the rollout under the lease is recorded as under way. */
  predicate UnderWay(s: State) {
    s.stored.Some? && s.stored.value.RollingOut? && s.stored.value.attemptInFlight
  }

  /**
   * While a lease lasts, an attempt is under way from its grant until it is reported complete; only a reconciliation that
   * read the record before puts back what it read. So a repeated grant asks for the rollout again exactly when no
   * completion came in between.
   */
  lemma {:induction false} AttemptIsUnderWayExactlyUntilCompleted(s: State, e: Event, now: int, workflow: WorkflowId, image: string)
    requires Possible(s, e)
    requires Fenced(s, workflow, image) && Fenced(Step(s, e, now), workflow, image)
    ensures UnderWay(Step(s, e, now)) <==>
      if e == BeginRollOut(workflow, image) then true
      else if e == CompleteRollOutAttempt(workflow, image) then false
      else if e.ReconcileEnds? then e.call.seen.attemptInFlight
      else UnderWay(s)
  {
    StepTurns(s, e, now);
    FenceEndsExactlyWhen(s, e, now, workflow, image);
    if Claims(s, e).Some? {
      ClaimEndsFence(s, e, workflow, image);
      hide Step, Turned, Possible, Claims, EndsFence;
    } else {
      UnderWayWithoutClaim(s, e, now, workflow, image);
      hide Step, Turned, Possible, Claims, EndsFence, UnderWay;
      assert Turned(s, e, now).state.stored == Step(s, e, now).stored;
      SameRecord(Turned(s, e, now).state, Step(s, e, now));
    }
  }

  lemma {:induction false} SameRecord(s: State, t: State)
    requires s.stored == t.stored
    ensures UnderWay(s) == UnderWay(t)
  {
  }

  lemma {:induction false} UnderWayWithoutClaim(s: State, e: Event, now: int, workflow: WorkflowId, image: string)
    requires Possible(s, e) && Claims(s, e).None?
    requires Fenced(s, workflow, image) && Fenced(Turned(s, e, now).state, workflow, image)
    ensures e.ReconcileEnds? ==> e.call.Reconciling? && e.call.seen.RollingOut?
    ensures UnderWay(Turned(s, e, now).state) <==>
      if e == BeginRollOut(workflow, image) then true
      else if e == CompleteRollOutAttempt(workflow, image) then false
      else if e.ReconcileEnds? then e.call.seen.attemptInFlight
      else UnderWay(s)
  {
    hide Claimed;
  }

  /** A grant lasts five minutes, and a renewal by its owner or by a reconciliation five more. */
  lemma {:induction false} LeaseLastsFiveMinutes(s: State, e: Event, now: int, workflow: WorkflowId, image: string)
    requires Possible(s, e)
    requires (e == BeginRollOut(workflow, image) && Grants(s, workflow, image))
      || (e.ReconcileEnds? && e.active && e.call.seen.RollingOut? && e.call.seen.RollsOut(workflow, image))
    ensures var t := Step(s, e, now);
      && Fenced(t, workflow, image)
      && forall later :: Taken(t.stored, later) <==> later < now + 5 * 60 * 1_000
  {
  }

  /** A lease is granted exactly for the image of the workflow's own complete build, or of the rollout it holds. */
  lemma {:induction false} GrantedExactlyWhen(s: State, workflow: WorkflowId, image: string, now: int)
    ensures Grants(s, workflow, image) <==>
      match s.stored
      case Some(Complete(w, output)) => w == workflow && output.result.imageReference == image
      case Some(RollingOut(w, output, _, _)) => w == workflow && output.result.imageReference == image
      case _ => false
    ensures var t := Step(s, BeginRollOut(workflow, image), now);
      if Grants(s, workflow, image) then Fenced(t, workflow, image) else t.stored == s.stored
  {
  }
}
