/** What the image builder guarantees over whole runs, and exactly when it does not. */
module ImageBuilderLeases {
  import opened ImageBuilderModel
  import opened Wrappers

  // ---------------------------------------------------------------- the suspended calls

  /** A call that waits after a step did so before, or the step left it waiting. */
  lemma {:induction false} StillWaits(s: State, e: Event, now: int, call: Call)
    requires Possible(s, e) && call in Step(s, e, now).calls
    ensures call in s.calls || Turned(s, e, now).waits == Some(call)
  {
    hide Turned, Possible, Resumed;
  }

  /** Apart from the suspended calls, a step does what its stretch of code does. */
  lemma {:induction false} StepTurns(s: State, e: Event, now: int)
    requires Possible(s, e)
    ensures Step(s, e, now) == Turned(s, e, now).state.(calls := Step(s, e, now).calls)
  {
    hide Turned, Possible, Resumed, Suspended;
  }

  ghost predicate CallsFit(s: State) {
    forall call :: call in s.calls ==> call.Fits()
  }

  lemma {:induction false} NewCallFits(s: State, e: Event, now: int)
    requires Possible(s, e)
    ensures var waits := Turned(s, e, now).waits; waits.Some? ==> waits.value.Fits()
  {
  }

  /** Every suspended call of a run carries a record of its kind, so the events of the model leave no call out. */
  lemma {:induction false} CallsFitInRun(run: Run, n: nat)
    requires run.Valid() && n < |run.states|
    ensures CallsFit(run.states[n])
  {
    if n > 0 {
      CallsFitInRun(run, n - 1);
      assert run.Follows(n - 1);
      var s, moment := run.states[n - 1], run.moments[n - 1];
      NewCallFits(s, moment.event, moment.now);
      forall call | call in run.states[n].calls
        ensures call.Fits()
      {
        StillWaits(s, moment.event, moment.now, call);
      }
      hide Step, Turned, Possible;
    }
  }

  /** The workflow whose claim a step makes. */
  function Claims(s: State, e: Event): Option<WorkflowId>
    requires Possible(s, e)
  {
    match e
    case StartBuild(workflow) =>
      if s.container.None? && (s.stored.None? || s.stored.value.Complete? || s.stored.value.Failed?) then Some(workflow)
      else None
    case DeleteEnds(call) => if s.container.None? then Some(call.workflow) else None
    case ClearEnds(call, destroyed) => if destroyed then Some(call.workflow) else None
    case ReconcileEnds(call, active) => if s.container.None? && !active then call.start else None
    case _ => None
  }

  lemma {:induction false} ClaimMade(s: State, e: Event, now: int)
    requires Possible(s, e) && Claims(s, e).Some?
    ensures Turned(s, e, now) == Done(Claimed(s.(container := None), Claims(s, e).value, now))
  {
    assert s.container.None? ==> s == s.(container := None);
  }

  lemma {:induction false} NoClaimMade(s: State, e: Event, now: int)
    requires Possible(s, e) && Claims(s, e).None?
    ensures var t := Turned(s, e, now).state;
      && t.claims == s.claims && t.latest == s.latest
      && (forall c :: c in t.starting ==> c in s.starting && t.starting[c].workflowId == s.starting[c].workflowId)
  {
    hide Claimed;
  }

  /** A claim is made only while the Container is stopped, and nothing else touches the claims or adds a start. */
  lemma {:induction false} ClaimsExactly(s: State, e: Event, now: int)
    requires Possible(s, e)
    ensures var t := Step(s, e, now); Claims(s, e).Some? ==>
      && t.container.None? && t.claims == s.claims + 1 && t.latest == s.latest[Claims(s, e).value := t.claims]
      && t.stored == Some(Active(Claims(s, e).value, now + RUNNER_IMAGE_BUILD_LEASE_MS, None))
      && t.starting == s.starting[t.claims := Start(Claims(s, e).value, Staging)]
    ensures var t := Step(s, e, now); Claims(s, e).None? ==>
      && t.claims == s.claims && t.latest == s.latest
      && (forall c :: c in t.starting ==> c in s.starting && t.starting[c].workflowId == s.starting[c].workflowId)
  {
    if Claims(s, e).Some? {
      ClaimMade(s, e, now);
    } else {
      NoClaimMade(s, e, now);
    }
    hide Turned, Possible, Claims, Resumed, Suspended;
  }

  // ---------------------------------------------------------------- the rollout fence

  ghost predicate Fenced(s: State, workflow: WorkflowId, image: string) {
    s.stored.Some? && s.stored.value.RollsOut(workflow, image)
  }

  /** The record on which a suspended call acts when it ends. */
  function ReadBefore(call: Call): Option<Build> {
    match call
    case Polling(seen, _) => Some(seen)
    case Finalizing(seen, _) => Some(seen)
    case Reconciling(seen, _, _) => Some(seen)
    case Releasing(seen, _) => Some(seen)
    case Deleting(_, released) => Some(released)
    case Clearing(_, existing) => existing
  }

  /** A reconciliation of the stored record found no rollout in progress. */
  ghost predicate FoundIdle(s: State, e: Event) {
    e.ReconcileEnds? && !e.active && s.stored == ReadBefore(e.call)
  }

  /** A suspended call ends and puts another record, or none, where the lease for `image` is. */
  ghost predicate Overwrites(s: State, e: Event, workflow: WorkflowId, image: string) {
    || e.FinalizeEnds?
    || (e.PollEnds? && e.answer.Exited?)
    || (e.ReconcileEnds? && e.active && ReadBefore(e.call).Some? && !ReadBefore(e.call).value.RollsOut(workflow, image))
    || (e.ReconcileEnds? && !e.active && s.stored != ReadBefore(e.call))
    || (e.ReleaseEnds? && e.destroyed)
    || (e.DeleteEnds? && s.container.None?)
    || (e.ClearEnds? && e.destroyed)
  }

  ghost predicate EndsFence(s: State, e: Event, workflow: WorkflowId, image: string) {
    e == FinishRollOut(workflow, image) || FoundIdle(s, e) || Overwrites(s, e, workflow, image)
  }

  /**
   * A step ends a rollout lease exactly when its owner finishes, a reconciliation of the stored record finds no rollout
   * in progress, or a suspended call overwrites the record, in one of seven ways.
   */
  lemma {:induction false} FenceEndsExactlyWhen(s: State, e: Event, now: int, workflow: WorkflowId, image: string)
    requires Possible(s, e) && Fenced(s, workflow, image)
    ensures !Fenced(Step(s, e, now), workflow, image) <==> EndsFence(s, e, workflow, image)
  {
    StepTurns(s, e, now);
    if Claims(s, e).Some? {
      ClaimMade(s, e, now);
      ClaimEndsFence(s, e, workflow, image);
      hide Step, Turned, Possible, Claims, EndsFence;
    } else {
      FenceEndsWithoutClaim(s, e, now, workflow, image);
      hide Step, Turned, Possible, Claims, EndsFence;
    }
  }

  lemma {:induction false} ClaimEndsFence(s: State, e: Event, workflow: WorkflowId, image: string)
    requires Possible(s, e) && Fenced(s, workflow, image) && Claims(s, e).Some?
    ensures EndsFence(s, e, workflow, image)
  {
  }

  lemma {:induction false} FenceEndsWithoutClaim(s: State, e: Event, now: int, workflow: WorkflowId, image: string)
    requires Possible(s, e) && Fenced(s, workflow, image) && Claims(s, e).None?
    ensures !Fenced(Turned(s, e, now).state, workflow, image) <==> EndsFence(s, e, workflow, image)
  {
    hide Claimed;
  }

  /** Whatever overwrites a lease read its record before the lease was there. */
  lemma {:induction false} OverwritingCallIsStale(s: State, e: Event, workflow: WorkflowId, image: string)
    requires Possible(s, e) && Fenced(s, workflow, image) && Overwrites(s, e, workflow, image)
    ensures ReadBefore(e.call) != s.stored
  {
  }

  /**
   * A lease granted at `i` stays through `j`, whatever anyone calls in between, exactly when none of those steps ends
   * it.
   */
  lemma {:induction false} FenceHolds(run: Run, i: nat, j: nat, workflow: WorkflowId, image: string)
    requires run.Valid() && i < j < |run.states|
    requires run.moments[i].event == BeginRollOut(workflow, image) && Grants(run.states[i], workflow, image)
    ensures (forall k :: i < k <= j ==> Fenced(run.states[k], workflow, image))
      <==> (forall k :: i < k < j ==> !EndsFence(run.states[k], run.moments[k].event, workflow, image))
  {
    assert run.Follows(i);
    assert Fenced(run.states[i + 1], workflow, image);
    hide Step, Possible, EndsFence, Fenced, Grants;
    forall k | i < k < j
      ensures Fenced(run.states[k], workflow, image) ==>
        (Fenced(run.states[k + 1], workflow, image) <==> !EndsFence(run.states[k], run.moments[k].event, workflow, image))
    {
      assert run.Follows(k);
      if Fenced(run.states[k], workflow, image) {
        FenceEndsExactlyWhen(run.states[k], run.moments[k].event, run.moments[k].now, workflow, image);
      }
    }
    FenceStays(run, i + 1, j, workflow, image);
  }

  lemma {:induction false} FenceStays(run: Run, i: nat, j: nat, workflow: WorkflowId, image: string)
    requires |run.states| == |run.moments| + 1 && i <= j < |run.states| && Fenced(run.states[i], workflow, image)
    requires forall k :: i <= k < j && Fenced(run.states[k], workflow, image) ==>
      (Fenced(run.states[k + 1], workflow, image) <==> !EndsFence(run.states[k], run.moments[k].event, workflow, image))
    ensures (forall k :: i <= k <= j ==> Fenced(run.states[k], workflow, image))
      <==> (forall k :: i <= k < j ==> !EndsFence(run.states[k], run.moments[k].event, workflow, image))
  {
    hide Fenced, EndsFence;
    if i < j {
      FenceStays(run, i, j - 1, workflow, image);
      var k := j - 1;
      assert Fenced(run.states[k], workflow, image) ==>
        (Fenced(run.states[k + 1], workflow, image) <==> !EndsFence(run.states[k], run.moments[k].event, workflow, image));
    }
  }

  // ---------------------------------------------------------------- whose image is rolled out

  function ResultOf(build: Build): Option<Output> {
    match build
    case Active(_, _, Some(Succeeded(output))) => Some(output)
    case Complete(_, output) => Some(output)
    case RollingOut(_, output, _, _) => Some(output)
    case _ => None
  }

  /** The output was written by the process that the workflow's latest claim started. */
  ghost predicate Own(s: State, workflow: WorkflowId, output: Output) {
    workflow in s.latest && output.writer == Process(workflow, s.latest[workflow])
  }

  ghost predicate StoredIsOwn(s: State) {
    s.stored.Some? && ResultOf(s.stored.value).Some? ==> Own(s, s.stored.value.workflowId, ResultOf(s.stored.value).value)
  }

  /** The output was the workflow's own when claim number `claim` was the last. */
  ghost predicate WasOwn(s: State, workflow: WorkflowId, output: Output, claim: nat) {
    && workflow in s.latest
    && output.writer.owner == workflow
    && output.writer.claim <= claim <= s.claims
    && (s.latest[workflow] <= claim ==> output.writer.claim == s.latest[workflow])
  }

  /** A suspended call that is going to write a result. */
  predicate Carries(call: Call) {
    (call.Finalizing? || call.Reconciling?) && ResultOf(call.seen).Some?
  }

  ghost predicate CallIsOwn(s: State, call: Call) {
    Carries(call) ==> WasOwn(s, call.seen.workflowId, ResultOf(call.seen).value, call.claim)
  }

  ghost predicate ClaimsCounted(s: State) {
    forall w :: w in s.latest ==> s.latest[w] <= s.claims
  }

  /** The stored result is its workflow's own, and so was the result of every suspended call when it was read. */
  ghost predicate ResultsAreOwn(s: State) {
    StoredIsOwn(s) && ClaimsCounted(s) && forall call :: call in s.calls ==> CallIsOwn(s, call)
  }

  /** The workflow whose record the call read has claimed again since. */
  predicate Reclaimed(s: State, call: Call)
    requires call.Finalizing? || call.Reconciling?
  {
    call.seen.workflowId in s.latest && s.latest[call.seen.workflowId] > call.claim
  }

  /**
   * A poll reads a file that the workflow's latest claim did not write, or a call writes the result it read although
   * the workflow has claimed again since. A start that finds no rollout and no Container replaces that record at once.
   */
  ghost predicate Misattributes(s: State, e: Event) {
    match e
    case PollEnds(call, answer) =>
      answer.Exited? && call.Polling? && TerminalFor(answer).Succeeded? && !Own(s, call.seen.workflowId, answer.output.value)
    case FinalizeEnds(call, _) => Carries(call) && Reclaimed(s, call)
    case ReconcileEnds(call, active) =>
      Carries(call) && Reclaimed(s, call) && !(call.Reconciling? && call.start.Some? && !active && s.container.None?)
    case _ => false
  }

  lemma {:induction false} WasOwnLater(s: State, t: State, workflow: WorkflowId, output: Output, claim: nat)
    requires WasOwn(s, workflow, output, claim) && s.claims <= t.claims
    requires workflow in t.latest && (t.latest[workflow] == s.latest[workflow] || t.latest[workflow] > s.claims)
    ensures WasOwn(t, workflow, output, claim)
  {
  }

  lemma {:induction false} ClaimsGrow(s: State, e: Event, now: int)
    requires Possible(s, e) && ClaimsCounted(s)
    ensures var t := Step(s, e, now); s.claims <= t.claims && ClaimsCounted(t)
    ensures var t := Step(s, e, now);
      forall w :: w in s.latest ==> w in t.latest && (t.latest[w] == s.latest[w] || t.latest[w] > s.claims)
  {
    ClaimsExactly(s, e, now);
    hide Step, Possible, Claims;
  }

  lemma {:induction false} NewCallIsOwn(s: State, e: Event, now: int)
    requires Possible(s, e) && ResultsAreOwn(s) && !Misattributes(s, e)
    ensures var waits := Turned(s, e, now).waits; waits.Some? ==> CallIsOwn(s, waits.value)
  {
    hide Claimed;
  }

  lemma {:induction false} CallsStayOwn(s: State, e: Event, now: int, call: Call)
    requires Possible(s, e) && ResultsAreOwn(s) && !Misattributes(s, e) && call in Step(s, e, now).calls
    ensures CallIsOwn(Step(s, e, now), call)
  {
    ClaimsGrow(s, e, now);
    StillWaits(s, e, now, call);
    NewCallIsOwn(s, e, now);
    var t := Step(s, e, now);
    hide Step, Possible, Turned, Misattributes;
    if Carries(call) {
      assert CallIsOwn(s, call);
      WasOwnLater(s, t, call.seen.workflowId, ResultOf(call.seen).value, call.claim);
    }
  }

  predicate Numbers(call: Call) {
    call.Polling? || call.Finalizing? || call.Reconciling?
  }

  /** A suspended call ends and writes the record it read, or what became of it. */
  predicate Writes(e: Event) {
    (e.PollEnds? && e.answer.Exited?) || e.FinalizeEnds? || e.ReconcileEnds?
  }

  function WrittenResult(e: Event): Option<Output>
    requires Writes(e)
  {
    match e
    case PollEnds(_, answer) => if TerminalFor(answer).Succeeded? then answer.output else None
    case FinalizeEnds(call, _) => if call.Finalizing? then ResultOf(call.seen) else None
    case ReconcileEnds(call, _) => if call.Reconciling? then ResultOf(call.seen) else None
  }

  lemma {:induction false} RecordWritten(s: State, e: Event, now: int)
    requires Possible(s, e) && Writes(e) && Claims(s, e).None?
    ensures var t := Turned(s, e, now).state;
      && t.stored.Some? && t.stored.value.workflowId == e.call.seen.workflowId
      && ResultOf(t.stored.value) == WrittenResult(e)
  {
  }

  /** Any other step that claims nothing leaves the record, deletes it, or moves it along with its result. */
  lemma {:induction false} RecordMoved(s: State, e: Event, now: int)
    requires Possible(s, e) && !Writes(e) && Claims(s, e).None?
    ensures var t := Turned(s, e, now).state; t.stored.Some? ==>
      && s.stored.Some? && t.stored.value.workflowId == s.stored.value.workflowId
      && (ResultOf(t.stored.value).None? || ResultOf(t.stored.value) == ResultOf(s.stored.value))
  {
    hide Claimed;
  }

  lemma {:induction false} WriterWaited(s: State, e: Event)
    requires Possible(s, e) && Writes(e)
    ensures e.call in s.calls && e.call.Fits() && Numbers(e.call)
    ensures Claims(s, e).Some?
      <==> e.ReconcileEnds? && e.call.Reconciling? && e.call.start.Some? && !e.active && s.container.None?
  {
  }

  /** A claim replaces the record, so a misattributed result cannot stay. */
  lemma {:induction false} ClaimDoesNotMisattribute(s: State, e: Event)
    requires Possible(s, e) && Claims(s, e).Some?
    ensures !Misattributes(s, e)
  {
  }

  lemma {:induction false} WriteStaysOwn(s: State, e: Event, now: int)
    requires Possible(s, e) && ResultsAreOwn(s) && Writes(e) && Claims(s, e).None?
    ensures !Misattributes(s, e) <==> StoredIsOwn(Step(s, e, now))
  {
    WriterWaited(s, e);
    RecordWritten(s, e, now);
    StepTurns(s, e, now);
    NoClaimMade(s, e, now);
    assert CallIsOwn(s, e.call);
    hide Step, Turned, Possible, Claims;
  }

  lemma {:induction false} StoredStaysOwn(s: State, e: Event, now: int)
    requires Possible(s, e) && ResultsAreOwn(s)
    ensures !Misattributes(s, e) <==> StoredIsOwn(Step(s, e, now))
  {
    if Claims(s, e).Some? {
      ClaimsExactly(s, e, now);
      ClaimDoesNotMisattribute(s, e);
      hide Step, Turned, Possible, Claims, Misattributes;
    } else if Writes(e) {
      WriteStaysOwn(s, e, now);
    } else {
      RecordMoved(s, e, now);
      NoClaimMade(s, e, now);
      StepTurns(s, e, now);
      hide Step, Turned, Possible, Claims;
    }
  }

  /** A step makes a foreign result the stored one, or hands one to a suspended call, exactly when it misattributes. */
  lemma {:induction false} StepKeepsResultsOwnExactlyWhen(s: State, e: Event, now: int)
    requires Possible(s, e) && ResultsAreOwn(s)
    ensures ResultsAreOwn(Step(s, e, now)) <==> !Misattributes(s, e)
  {
    var t := Step(s, e, now);
    ClaimsGrow(s, e, now);
    StoredStaysOwn(s, e, now);
    if !Misattributes(s, e) {
      forall call | call in t.calls
        ensures CallIsOwn(t, call)
      {
        CallsStayOwn(s, e, now, call);
      }
    }
    hide Step, Possible, Misattributes;
  }

  /** All results are their workflows' own through state `n`, exactly when no step before misattributes one. */
  lemma {:induction false} ResultsAreOwnExactlyWhen(run: Run, n: nat)
    requires run.Valid() && n < |run.states|
    ensures (forall k :: 0 <= k <= n ==> ResultsAreOwn(run.states[k]))
      <==> (forall k :: 0 <= k < n ==> !Misattributes(run.states[k], run.moments[k].event))
  {
    if n == 0 {
      assert ResultsAreOwn(Initial());
    } else {
      ResultsAreOwnExactlyWhen(run, n - 1);
      assert run.Follows(n - 1);
      if ResultsAreOwn(run.states[n - 1]) {
        StepKeepsResultsOwnExactlyWhen(run.states[n - 1], run.moments[n - 1].event, run.moments[n - 1].now);
      }
      hide ResultsAreOwn, Misattributes, Step, Possible;
    }
  }

  // ---------------------------------------------------------------- a condition callers can keep

  /**
   * The record a call writes, or the builder a start launches, is from the time of the last claim: nobody has claimed
   * the slot since.
   */
  predicate Timely(s: State, e: Event) {
    match e
    case PollEnds(call, answer) => call.Polling? && answer.Exited? ==> call.claim == s.claims
    case FinalizeEnds(call, _) => call.Finalizing? ==> call.claim == s.claims
    case ReconcileEnds(call, _) => call.Reconciling? ==> call.claim == s.claims
    case BuilderStarts(claim) => claim == s.claims
    case _ => true
  }

  /** The workflow that made the last claim. */
  ghost predicate Last(s: State, workflow: WorkflowId) {
    workflow in s.latest && s.latest[workflow] == s.claims
  }

  ghost predicate Numbered(s: State) {
    && ClaimsCounted(s)
    && (forall v, w :: v in s.latest && w in s.latest && s.latest[v] == s.latest[w] ==> v == w)
    && (forall c :: c in s.starting ==> c <= s.claims && (c == s.claims ==> Last(s, s.starting[c].workflowId)))
  }

  /** The Container has builders of the last claim only. */
  ghost predicate Exclusive(s: State) {
    s.container.Some? ==> forall p :: p in s.container.value ==> p.claim == s.claims && Last(s, p.owner)
  }

  ghost predicate CallIsOfLast(s: State, call: Call) {
    Numbers(call) ==> call.claim <= s.claims && (call.claim == s.claims ==> Last(s, call.seen.workflowId))
  }

  /** The stored record, and what was read since the last claim, is of the workflow that made it. */
  ghost predicate OfLast(s: State) {
    && (s.stored.Some? ==> Last(s, s.stored.value.workflowId))
    && (forall call :: call in s.calls ==> CallIsOfLast(s, call))
  }

  lemma {:induction false} StepKeepsNumbered(s: State, e: Event, now: int)
    requires Possible(s, e) && Numbered(s)
    ensures Numbered(Step(s, e, now))
  {
    ClaimsExactly(s, e, now);
    hide Step, Possible, Claims;
  }

  /** Only a launched builder enters the Container. */
  lemma {:induction false} ContainerAfter(s: State, e: Event, now: int)
    requires Possible(s, e) && !e.BuilderStarts? && Claims(s, e).None?
    ensures Turned(s, e, now).state.container in {s.container, None, Some({})}
  {
    hide Claimed;
  }

  lemma {:induction false} LaunchedBuilder(s: State, e: Event, now: int)
    requires Possible(s, e) && e.BuilderStarts?
    ensures Claims(s, e).None? && e.claim in s.starting && s.container.Some?
    ensures Turned(s, e, now).state.container == Some(s.container.value + {Process(s.starting[e.claim].workflowId, e.claim)})
  {
  }

  /** A step puts an old claim's builder into the Container exactly when an old start launches it. */
  lemma {:induction false} StepKeepsExclusiveExactlyWhen(s: State, e: Event, now: int)
    requires Possible(s, e) && Numbered(s) && Exclusive(s)
    ensures Exclusive(Step(s, e, now)) <==> !(e.BuilderStarts? && e.claim != s.claims)
  {
    ClaimsExactly(s, e, now);
    StepTurns(s, e, now);
    if e.BuilderStarts? {
      LaunchedBuilder(s, e, now);
      hide Step, Turned, Possible, Claims;
      var p := Process(s.starting[e.claim].workflowId, e.claim);
      assert p in Step(s, e, now).container.value;
    } else if Claims(s, e).None? {
      ContainerAfter(s, e, now);
      hide Step, Turned, Possible, Claims;
    }
    hide Step, Turned, Possible, Claims;
  }

  lemma {:induction false} NewCallIsOfLast(s: State, e: Event, now: int)
    requires Possible(s, e) && OfLast(s) && Timely(s, e) && Claims(s, e).None?
    ensures var waits := Turned(s, e, now).waits; waits.Some? && Numbers(waits.value) ==>
      waits.value.claim == s.claims && Last(s, waits.value.seen.workflowId)
  {
  }

  lemma {:induction false} WaitingCallIsOfLast(s: State, e: Event, now: int, call: Call)
    requires Possible(s, e) && OfLast(s) && Timely(s, e) && call in Step(s, e, now).calls
    ensures CallIsOfLast(Step(s, e, now), call)
  {
    ClaimsExactly(s, e, now);
    StillWaits(s, e, now, call);
    if Claims(s, e).Some? {
      ClaimMade(s, e, now);
    } else {
      NewCallIsOfLast(s, e, now);
    }
    hide Step, Turned, Possible, Claims, Claimed;
    assert call in s.calls ==> CallIsOfLast(s, call);
  }

  lemma {:induction false} RecordIsOfLast(s: State, e: Event, now: int)
    requires Possible(s, e) && OfLast(s) && Timely(s, e)
    ensures var t := Step(s, e, now); t.stored.Some? ==> Last(t, t.stored.value.workflowId)
  {
    ClaimsExactly(s, e, now);
    StepTurns(s, e, now);
    if Claims(s, e).None? {
      if Writes(e) {
        WriterWaited(s, e);
        RecordWritten(s, e, now);
        assert CallIsOfLast(s, e.call);
      } else {
        RecordMoved(s, e, now);
      }
    }
    hide Step, Turned, Possible, Claims;
  }

  lemma {:induction false} StepKeepsOfLast(s: State, e: Event, now: int)
    requires Possible(s, e) && OfLast(s) && Timely(s, e)
    ensures OfLast(Step(s, e, now))
  {
    var t := Step(s, e, now);
    RecordIsOfLast(s, e, now);
    forall call | call in t.calls
      ensures CallIsOfLast(t, call)
    {
      WaitingCallIsOfLast(s, e, now, call);
    }
    hide Step, Possible, Timely;
  }

  lemma {:induction false} TimelyDoesNotMisattribute(s: State, e: Event)
    requires Possible(s, e) && Numbered(s) && Exclusive(s) && OfLast(s) && Timely(s, e)
    ensures !Misattributes(s, e)
  {
  }

  lemma {:induction false} TimelyInRun(run: Run, n: nat)
    requires run.Valid() && n < |run.states|
    requires forall k :: 0 <= k < n ==> Timely(run.states[k], run.moments[k].event)
    ensures Numbered(run.states[n]) && Exclusive(run.states[n]) && OfLast(run.states[n])
    ensures forall k :: 0 <= k < n ==> !Misattributes(run.states[k], run.moments[k].event)
  {
    if n > 0 {
      TimelyInRun(run, n - 1);
      var s, moment := run.states[n - 1], run.moments[n - 1];
      assert run.Follows(n - 1);
      StepKeepsNumbered(s, moment.event, moment.now);
      StepKeepsExclusiveExactlyWhen(s, moment.event, moment.now);
      StepKeepsOfLast(s, moment.event, moment.now);
      TimelyDoesNotMisattribute(s, moment.event);
      hide Step, Possible, Misattributes, Numbered, Exclusive, OfLast;
    }
  }

  /**
   * A rollout is granted only for the image written by the process that the same workflow's latest claim started, as
   * long as no call has written a record, and no start has launched a builder, from before a newer claim.
   */
  lemma {:induction false} GrantedImageIsOwn(run: Run, n: nat)
    requires run.Valid() && n < |run.moments|
    requires forall k :: 0 <= k < n ==> Timely(run.states[k], run.moments[k].event)
    requires run.moments[n].event.BeginRollOut?
    requires Grants(run.states[n], run.moments[n].event.workflow, run.moments[n].event.image)
    ensures var s, e := run.states[n], run.moments[n].event;
      && s.stored.value.output.result.imageReference == e.image
      && Own(s, e.workflow, s.stored.value.output)
  {
    TimelyInRun(run, n);
    ResultsAreOwnExactlyWhen(run, n);
    assert ResultsAreOwn(run.states[n]);
    hide Misattributes, Timely, Step, Possible;
  }
}
