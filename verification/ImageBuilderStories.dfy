/** Runs of the image builder in which a granted lease is overwritten, or another build's image is granted. */
module ImageBuilderStories {
  import opened ImageBuilderLeases
  import opened ImageBuilderModel
  import opened Wrappers

  // ---------------------------------------------------------------- putting runs together

  ghost predicate Leads(s: State, e: Event, now: int, t: State) {
    Possible(s, e) && t == Step(s, e, now)
  }

  /** A step in which no call ends, and one in which a call ends. */
  lemma {:induction false} PlainLeads(s: State, e: Event, now: int, t: State)
    requires Possible(s, e) && Turned(s, e, now) == Done(t) && Resumed(e) == multiset{} && t.calls == s.calls
    ensures Leads(s, e, now, t)
  {
    hide Turned, Possible, Resumed;
  }

  lemma {:induction false} WaitLeads(s: State, e: Event, now: int, call: Call, t: State)
    requires Possible(s, e) && Turned(s, e, now) == Wait(s, call) && Resumed(e) == multiset{}
    requires t == s.(calls := s.calls + multiset{call})
    ensures Leads(s, e, now, t)
  {
    hide Turned, Possible, Resumed;
  }

  lemma {:induction false} ResumeLeads(s: State, e: Event, now: int, calls: multiset<Call>, call: Call, turn: Turn, t: State)
    requires Possible(s, e) && Turned(s, e, now) == turn && Resumed(e) == multiset{call} && s.calls == calls + multiset{call}
    requires t == turn.state.(calls := calls + Suspended(turn.waits))
    ensures Leads(s, e, now, t)
  {
    assert calls + multiset{call} - multiset{call} == calls;
    hide Turned, Possible, Resumed, Suspended;
  }

  /** A run that has reached `s` and has not gone beyond `now`. */
  ghost predicate Reaches(run: Run, s: State, now: int) {
    && run.Valid() && run.states[|run.moments|] == s
    && (|run.moments| > 0 ==> run.moments[|run.moments| - 1].now <= now)
  }

  ghost predicate LastStep(run: Run, s: State, e: Event) {
    |run.states| == |run.moments| + 1 > 1 && run.states[|run.moments| - 1] == s && run.moments[|run.moments| - 1].event == e
  }

  lemma {:induction false} Extend(run: Run, s: State, e: Event, now: int, t: State) returns (longer: Run)
    requires Reaches(run, s, now) && Leads(s, e, now, t)
    ensures Reaches(longer, t, now) && LastStep(longer, s, e)
  {
    hide Step, Possible;
    longer := Run(run.states + [t], run.moments + [Moment(e, now)]);
    forall i | 0 <= i < |longer.moments|
      ensures longer.Follows(i)
    {
      assert i < |run.moments| ==> run.Follows(i);
    }
  }

  lemma {:induction false} NoStepsYet() returns (run: Run)
    ensures Reaches(run, Initial(), 0)
  {
    run := Run([Initial()], []);
  }

  /** The last step of the run overwrites a lease that was in force. */
  ghost predicate LosesLease(run: Run, workflow: WorkflowId, image: string) {
    && run.Valid() && |run.moments| > 0
    && Fenced(run.states[|run.moments| - 1], workflow, image) && !Fenced(run.states[|run.moments|], workflow, image)
    && Overwrites(run.states[|run.moments| - 1], run.moments[|run.moments| - 1].event, workflow, image)
  }

  lemma {:induction false} LeaseLost(run: Run, s: State, e: Event, t: State, now: int, workflow: WorkflowId, image: string)
    requires Reaches(run, t, now) && LastStep(run, s, e)
    requires Fenced(s, workflow, image) && !Fenced(t, workflow, image) && Overwrites(s, e, workflow, image)
    ensures LosesLease(run, workflow, image)
  {
    hide Overwrites, Fenced;
  }

  // ---------------------------------------------------------------- workflow k makes claim k

  const LEASE := RUNNER_IMAGE_BUILD_LEASE_MS
  const ROLLOUT := RUNNER_IMAGE_ROLLOUT_LEASE_MS

  function Latest(k: nat): map<WorkflowId, nat> {
    if k == 0 then map[] else Latest(k - 1)[k := k]
  }

  /** The last claim was made by workflow `k`, and its start has returned. */
  function Later(k: nat, stored: Option<Build>, container: Option<set<Process>>, calls: multiset<Call>): State {
    State(stored, container, map[], calls, k, Latest(k))
  }

  function Building(k: nat, since: int): Build {
    Active(k, since + LEASE, None)
  }

  function Pending(k: nat, since: int, output: Output): Build {
    Active(k, since + LEASE, Some(Succeeded(output)))
  }

  function Poll(k: nat, since: int): Call {
    Polling(Building(k, since), k)
  }

  /** The finalization by a poll of `k`'s build that was answered after claim `claim`. */
  function Finalize(k: nat, since: int, output: Output, claim: nat): Call {
    Finalizing(Pending(k, since, output), claim)
  }

  function Rolling(k: nat, output: Output, since: int): Build {
    RollingOut(k, output, since + ROLLOUT, true)
  }

  function Builder(k: nat): set<Process> {
    {Process(k, k)}
  }

  function Gone(container: Option<set<Process>>, destroyed: bool): Option<set<Process>> {
    if destroyed then None else container
  }

  // ---------------------------------------------------------------- single steps

  lemma {:induction false} ClaimLeads(k: nat, stored: Option<Build>, calls: multiset<Call>, now: int)
    requires stored.Some? ==> stored.value.Complete? || stored.value.Failed?
    ensures Leads(Later(k, stored, None, calls), StartBuild(k + 1), now, Claimed(Later(k, stored, None, calls), k + 1, now))
  {
    hide Latest;
    PlainLeads(Later(k, stored, None, calls), StartBuild(k + 1), now, Claimed(Later(k, stored, None, calls), k + 1, now));
  }

  function Started(k: nat, since: int, stage: Stage, container: Option<set<Process>>, calls: multiset<Call>): State {
    State(Some(Building(k, since)), container, map[k := Start(k, stage)], calls, k, Latest(k))
  }

  lemma {:induction false} ClaimedIsStarted(k: nat, stored: Option<Build>, calls: multiset<Call>, now: int)
    ensures Claimed(Later(k, stored, None, calls), k + 1, now) == Started(k + 1, now, Staging, None, calls)
  {
  }

  lemma {:induction false} HostLeads(k: nat, since: int, calls: multiset<Call>, now: int)
    ensures Leads(Started(k, since, Staging, None, calls), ContainerStarts(k), now, Started(k, since, Hosted, Some({}), calls))
  {
    hide Latest;
    PlainLeads(Started(k, since, Staging, None, calls), ContainerStarts(k), now, Started(k, since, Hosted, Some({}), calls));
  }

  lemma {:induction false} LaunchLeads(k: nat, since: int, calls: multiset<Call>, now: int)
    ensures Leads(Started(k, since, Hosted, Some({}), calls), BuilderStarts(k), now,
                  Started(k, since, Launched, Some(Builder(k)), calls))
  {
    hide Latest;
    assert {} + Builder(k) == Builder(k);
    PlainLeads(Started(k, since, Hosted, Some({}), calls), BuilderStarts(k), now,
               Started(k, since, Launched, Some(Builder(k)), calls));
  }

  lemma {:induction false} ReturnLeads(k: nat, since: int, calls: multiset<Call>, now: int)
    ensures Leads(Started(k, since, Launched, Some(Builder(k)), calls), StartSucceeds(k), now,
                  Later(k, Some(Building(k, since)), Some(Builder(k)), calls))
  {
    hide Latest;
    var s, t := Started(k, since, Launched, Some(Builder(k)), calls), Later(k, Some(Building(k, since)), Some(Builder(k)), calls);
    assert s.starting - {k} == map[];
    PlainLeads(s, StartSucceeds(k), now, t);
  }

  lemma {:induction false} PollLeads(k: nat, since: int, container: Option<set<Process>>, calls: multiset<Call>, now: int)
    requires now < since + LEASE
    ensures Leads(Later(k, Some(Building(k, since)), container, calls), BuildStatus, now,
                  Later(k, Some(Building(k, since)), container, calls + multiset{Poll(k, since)}))
  {
    hide Latest;
    var s := Later(k, Some(Building(k, since)), container, calls);
    WaitLeads(s, BuildStatus, now, Poll(k, since), s.(calls := calls + multiset{Poll(k, since)}));
  }

  /** A poll of `k`'s build is answered after claim `last`. */
  lemma {:induction false} AnswerLeads(
      k: nat, since: int, last: nat, stored: Option<Build>, running: set<Process>, calls: multiset<Call>, output: Output, now: int)
    requires output.writer in running
    ensures Leads(Later(last, stored, Some(running), calls + multiset{Poll(k, since)}),
                  PollEnds(Poll(k, since), Exited(0, Some(output))), now,
                  Later(last, Some(Pending(k, since, output)), Some(running), calls + multiset{Finalize(k, since, output, last)}))
  {
    hide Latest;
    var call, next := Poll(k, since), Finalize(k, since, output, last);
    var s := Later(last, stored, Some(running), calls + multiset{call});
    var r := s.(stored := Some(Pending(k, since, output)));
    ResumeLeads(s, PollEnds(call, Exited(0, Some(output))), now, calls, call, Wait(r, next), r.(calls := calls + multiset{next}));
  }

  lemma {:induction false} FinalizeLeads(
      k: nat, since: int, last: nat, claim: nat, stored: Option<Build>, container: Option<set<Process>>, calls: multiset<Call>,
      output: Output, destroyed: bool, now: int)
    ensures Leads(Later(last, stored, container, calls + multiset{Finalize(k, since, output, claim)}),
                  FinalizeEnds(Finalize(k, since, output, claim), destroyed), now,
                  Later(last, Some(Complete(k, output)), Gone(container, destroyed), calls))
  {
    hide Latest;
    var call := Finalize(k, since, output, claim);
    var s := Later(last, stored, container, calls + multiset{call});
    var r := s.(stored := Some(Complete(k, output)), container := Gone(container, destroyed));
    ResumeLeads(s, FinalizeEnds(call, destroyed), now, calls, call, Done(r), r.(calls := calls));
  }

  lemma {:induction false} GrantLeads(
      k: nat, last: nat, stored: Build, container: Option<set<Process>>, calls: multiset<Call>, output: Output, now: int)
    requires stored == Complete(k, output) || (stored.RollingOut? && stored.workflowId == k && stored.output == output)
    ensures Leads(Later(last, Some(stored), container, calls), BeginRollOut(k, output.result.imageReference), now,
                  Later(last, Some(Rolling(k, output, now)), container, calls))
  {
    hide Latest;
    PlainLeads(Later(last, Some(stored), container, calls), BeginRollOut(k, output.result.imageReference), now,
               Later(last, Some(Rolling(k, output, now)), container, calls));
  }

  lemma {:induction false} ReleaseReadLeads(s: State, e: Event, purpose: Purpose, now: int, t: State)
    requires s.stored.Some? && s.stored.value.Active? && s.stored.value.leaseExpiresAt <= now
    requires (e.BuildStatus? && purpose.ForStatus? && s.stored.value.terminal.None?)
      || (e.StartBuild? && purpose == ForStart(e.workflow))
    requires t == s.(calls := s.calls + multiset{Releasing(s.stored.value, purpose)})
    ensures Leads(s, e, now, t)
  {
    WaitLeads(s, e, now, Releasing(s.stored.value, purpose), t);
  }

  lemma {:induction false} ReleaseLeads(s: State, seen: Build, now: int, calls: multiset<Call>)
    requires seen.Active? && s.calls == calls + multiset{Releasing(seen, ForStatus)}
    ensures Leads(s, ReleaseEnds(Releasing(seen, ForStatus), true), now, s.(stored := None, container := None, calls := calls))
  {
    var call, t := Releasing(seen, ForStatus), s.(stored := None, container := None);
    ResumeLeads(s, ReleaseEnds(call, true), now, calls, call, Done(t), t.(calls := calls));
  }

  lemma {:induction false} ReleaseForStartLeads(s: State, seen: Build, workflow: WorkflowId, now: int, calls: multiset<Call>)
    requires seen.Active? && s.calls == calls + multiset{Releasing(seen, ForStart(workflow))}
    ensures Leads(s, ReleaseEnds(Releasing(seen, ForStart(workflow)), true), now,
                  s.(stored := None, container := None, calls := calls + multiset{Deleting(workflow, seen)}))
  {
    var call, t := Releasing(seen, ForStart(workflow)), s.(stored := None, container := None);
    ResumeLeads(s, ReleaseEnds(call, true), now, calls, call, Wait(t, Deleting(workflow, seen)),
                t.(calls := calls + multiset{Deleting(workflow, seen)}));
  }

  lemma {:induction false} DeleteLeads(s: State, seen: Build, workflow: WorkflowId, now: int, calls: multiset<Call>)
    requires seen.Active? && s.container.None? && s.calls == calls + multiset{Deleting(workflow, seen)}
    ensures Leads(s, DeleteEnds(Deleting(workflow, seen)), now, Claimed(s.(calls := calls), workflow, now))
  {
    var call := Deleting(workflow, seen);
    ResumeLeads(s, DeleteEnds(call), now, calls, call, Done(Claimed(s, workflow, now)), Claimed(s.(calls := calls), workflow, now));
  }

  lemma {:induction false} ClearReadLeads(s: State, workflow: WorkflowId, now: int)
    requires s.stored.Some? && s.stored.value.Complete? && s.container.Some?
    ensures Leads(s, StartBuild(workflow), now, s.(calls := s.calls + multiset{Clearing(workflow, s.stored)}))
  {
    WaitLeads(s, StartBuild(workflow), now, Clearing(workflow, s.stored),
              s.(calls := s.calls + multiset{Clearing(workflow, s.stored)}));
  }

  lemma {:induction false} ClearLeads(s: State, existing: Option<Build>, workflow: WorkflowId, now: int, calls: multiset<Call>)
    requires existing.Some? && existing.value.Complete? && s.calls == calls + multiset{Clearing(workflow, existing)}
    ensures Leads(s, ClearEnds(Clearing(workflow, existing), true), now,
                  Claimed(s.(container := None, calls := calls), workflow, now))
  {
    var call, t := Clearing(workflow, existing), s.(container := None);
    ResumeLeads(s, ClearEnds(call, true), now, calls, call, Done(Claimed(t, workflow, now)),
                Claimed(t.(calls := calls), workflow, now));
  }

  lemma {:induction false} ReconcileReadLeads(s: State, now: int)
    requires s.stored.Some? && s.stored.value.RollingOut? && s.stored.value.leaseExpiresAt <= now
    ensures Leads(s, BuildStatus, now, s.(calls := s.calls + multiset{Reconciling(s.stored.value, s.claims, None)}))
  {
    WaitLeads(s, BuildStatus, now, Reconciling(s.stored.value, s.claims, None),
              s.(calls := s.calls + multiset{Reconciling(s.stored.value, s.claims, None)}));
  }

  lemma {:induction false} ReconcileLeads(s: State, seen: Build, claim: nat, active: bool, now: int, calls: multiset<Call>)
    requires seen.RollingOut? && s.calls == calls + multiset{Reconciling(seen, claim, None)}
    ensures Leads(s, ReconcileEnds(Reconciling(seen, claim, None), active), now,
                  s.(stored := Some(Reconciled(seen, active, now)), calls := calls))
  {
    var call, t := Reconciling(seen, claim, None), s.(stored := Some(Reconciled(seen, active, now)));
    ResumeLeads(s, ReconcileEnds(call, active), now, calls, call, Done(t), t.(calls := calls));
  }

  // ---------------------------------------------------------------- builds

  const NONE: multiset<Call> := multiset{}

  function By(k: nat, result: BuildResult): Output {
    Output(result, Process(k, k))
  }

  /** The run goes on with a start that has claimed the slot. */
  lemma {:induction false} RunLaunches(run: Run, k: nat, now: int, calls: multiset<Call>) returns (r: Run)
    requires Reaches(run, Started(k, now, Staging, None, calls), now)
    ensures Reaches(r, Later(k, Some(Building(k, now)), Some(Builder(k)), calls), now)
  {
    HostLeads(k, now, calls, now);
    LaunchLeads(k, now, calls, now);
    ReturnLeads(k, now, calls, now);
    hide Reaches, LastStep, Leads, Later, Started, Building;
    r := Extend(run, Started(k, now, Staging, None, calls), ContainerStarts(k), now, Started(k, now, Hosted, Some({}), calls));
    r := Extend(r, Started(k, now, Hosted, Some({}), calls), BuilderStarts(k), now,
                Started(k, now, Launched, Some(Builder(k)), calls));
    r := Extend(r, Started(k, now, Launched, Some(Builder(k)), calls), StartSucceeds(k), now,
                Later(k, Some(Building(k, now)), Some(Builder(k)), calls));
  }

  lemma {:induction false} FirstBuild() returns (run: Run)
    ensures Reaches(run, Later(1, Some(Building(1, 0)), Some(Builder(1)), NONE), 0)
  {
    ClaimLeads(0, None, NONE, 0);
    ClaimedIsStarted(0, None, NONE, 0);
    assert Initial() == Later(0, None, None, NONE);
    hide Reaches, LastStep, Leads, Later, Started, Building, Claimed, Initial;
    run := NoStepsYet();
    run := Extend(run, Later(0, None, None, NONE), StartBuild(1), 0, Started(1, 0, Staging, None, NONE));
    run := RunLaunches(run, 1, 0, NONE);
  }

  /** A poll reads the record while the build is under way. */
  lemma {:induction false} RunPolls(run: Run, k: nat, now: int, calls: multiset<Call>) returns (r: Run)
    requires Reaches(run, Later(k, Some(Building(k, now)), Some(Builder(k)), calls), now)
    ensures Reaches(r, Later(k, Some(Building(k, now)), Some(Builder(k)), calls + multiset{Poll(k, now)}), now)
  {
    PollLeads(k, now, Some(Builder(k)), calls, now);
    hide Reaches, LastStep, Leads, Later, Building, Poll;
    r := Extend(run, Later(k, Some(Building(k, now)), Some(Builder(k)), calls), BuildStatus, now,
                Later(k, Some(Building(k, now)), Some(Builder(k)), calls + multiset{Poll(k, now)}));
  }

  /** That poll finds the build's result. */
  lemma {:induction false} RunAnswers(
      run: Run, k: nat, since: int, now: int, stored: Option<Build>, calls: multiset<Call>, o: BuildResult)
    returns (r: Run)
    requires Reaches(run, Later(k, stored, Some(Builder(k)), calls + multiset{Poll(k, since)}), now)
    ensures Reaches(r, Later(k, Some(Pending(k, since, By(k, o))), Some(Builder(k)),
                             calls + multiset{Finalize(k, since, By(k, o), k)}), now)
    ensures LastStep(r, Later(k, stored, Some(Builder(k)), calls + multiset{Poll(k, since)}),
                     PollEnds(Poll(k, since), Exited(0, Some(By(k, o)))))
  {
    AnswerLeads(k, since, k, stored, Builder(k), calls, By(k, o), now);
    hide Reaches, LastStep, Leads, Later, Pending, Poll, Finalize;
    r := Extend(run, Later(k, stored, Some(Builder(k)), calls + multiset{Poll(k, since)}),
                PollEnds(Poll(k, since), Exited(0, Some(By(k, o)))), now,
                Later(k, Some(Pending(k, since, By(k, o))), Some(Builder(k)),
                      calls + multiset{Finalize(k, since, By(k, o), k)}));
  }

  lemma {:induction false} RunFinishes(
      run: Run, k: nat, since: int, now: int, stored: Option<Build>, container: Option<set<Process>>, calls: multiset<Call>,
      o: BuildResult, destroyed: bool)
    returns (r: Run)
    requires Reaches(run, Later(k, stored, container, calls + multiset{Finalize(k, since, By(k, o), k)}), now)
    ensures Reaches(r, Later(k, Some(Complete(k, By(k, o))), Gone(container, destroyed), calls), now)
    ensures LastStep(r, Later(k, stored, container, calls + multiset{Finalize(k, since, By(k, o), k)}),
                     FinalizeEnds(Finalize(k, since, By(k, o), k), destroyed))
  {
    FinalizeLeads(k, since, k, k, stored, container, calls, By(k, o), destroyed, now);
    hide Reaches, LastStep, Leads, Later, Finalize, Gone;
    r := Extend(run, Later(k, stored, container, calls + multiset{Finalize(k, since, By(k, o), k)}),
                FinalizeEnds(Finalize(k, since, By(k, o), k), destroyed), now,
                Later(k, Some(Complete(k, By(k, o))), Gone(container, destroyed), calls));
  }

  /** Workflow `k` is granted the rollout of its image, or its lease is renewed. */
  lemma {:induction false} RunIsGranted(
      run: Run, k: nat, stored: Build, container: Option<set<Process>>, calls: multiset<Call>, o: BuildResult, now: int)
    returns (r: Run)
    requires Reaches(run, Later(k, Some(stored), container, calls), now)
    requires stored == Complete(k, By(k, o)) || (stored.RollingOut? && stored.workflowId == k && stored.output == By(k, o))
    ensures Reaches(r, Later(k, Some(Rolling(k, By(k, o), now)), container, calls), now)
  {
    GrantLeads(k, k, stored, container, calls, By(k, o), now);
    hide Reaches, LastStep, Leads, Later;
    r := Extend(run, Later(k, Some(stored), container, calls), BeginRollOut(k, o.imageReference), now,
                Later(k, Some(Rolling(k, By(k, o), now)), container, calls));
  }

  lemma {:induction false} RunWaits(run: Run, s: State, now: int, later: int)
    requires Reaches(run, s, now) && now <= later
    ensures Reaches(run, s, later)
  {
  }

  // ---------------------------------------------------------------- leases that are lost

  lemma {:induction false} RollingIsFenced(
      k: nat, calls: multiset<Call>, container: Option<set<Process>>, o: BuildResult, now: int)
    ensures Fenced(Later(k, Some(Rolling(k, By(k, o), now)), container, calls), k, o.imageReference)
  {
  }

  /**
   * The second of two overlapping finalizations puts the completed record back over the rollout granted in between, and
   * the next workflow's start claims the slot at once.
   */
  lemma {:induction false} LateFinalizationLosesLease(o: BuildResult) returns (run: Run)
    ensures LosesLease(run, 1, o.imageReference) && run.moments[|run.moments| - 1].event.FinalizeEnds?
    ensures Claims(run.states[|run.moments|], StartBuild(2)) == Some(2)
  {
    var final := Finalize(1, 0, By(1, o), 1);
    var before := Later(1, Some(Rolling(1, By(1, o), 0)), None, NONE + multiset{final});
    hide Reaches, LastStep, LosesLease;
    run := FirstBuild();
    run := RunPolls(run, 1, 0, NONE);
    run := RunAnswers(run, 1, 0, 0, Some(Building(1, 0)), NONE, o);
    run := RunRereads(run, NONE, o);
    run := RunFinishes(run, 1, 0, 0, Some(Pending(1, 0, By(1, o))), Some(Builder(1)), NONE + multiset{final}, o, true);
    run := RunIsGranted(run, 1, Complete(1, By(1, o)), None, NONE + multiset{final}, o, 0);
    run := RunFinishes(run, 1, 0, 0, Some(Rolling(1, By(1, o), 0)), None, NONE, o, true);
    RollingIsFenced(1, NONE + multiset{final}, None, o, 0);
    var after := Later(1, Some(Complete(1, By(1, o))), None, NONE);
    LeaseLost(run, before, FinalizeEnds(final, true), after, 0, 1, o.imageReference);
    LastStateReached(run, after, 0);
  }

  /** Another poll finds the stored result while its Container is being destroyed. */
  lemma {:induction false} RunRereads(run: Run, calls: multiset<Call>, o: BuildResult) returns (r: Run)
    requires Reaches(run, Later(1, Some(Pending(1, 0, By(1, o))), Some(Builder(1)),
                                calls + multiset{Finalize(1, 0, By(1, o), 1)}), 0)
    ensures Reaches(r, Later(1, Some(Pending(1, 0, By(1, o))), Some(Builder(1)),
                             calls + multiset{Finalize(1, 0, By(1, o), 1)} + multiset{Finalize(1, 0, By(1, o), 1)}), 0)
  {
    var s := Later(1, Some(Pending(1, 0, By(1, o))), Some(Builder(1)), calls + multiset{Finalize(1, 0, By(1, o), 1)});
    var t := Later(1, Some(Pending(1, 0, By(1, o))), Some(Builder(1)),
                   calls + multiset{Finalize(1, 0, By(1, o), 1)} + multiset{Finalize(1, 0, By(1, o), 1)});
    WaitLeads(s, BuildStatus, 0, Finalize(1, 0, By(1, o), 1), t);
    hide Reaches, LastStep, Leads, Later, Pending, Finalize;
    r := Extend(run, s, BuildStatus, 0, t);
  }

  /** Workflow 1's build is complete; its Container may be left running. */
  lemma {:induction false} FirstComplete(o: BuildResult, destroyed: bool) returns (run: Run)
    ensures Reaches(run, Later(1, Some(Complete(1, By(1, o))), Gone(Some(Builder(1)), destroyed), NONE), 0)
  {
    hide Reaches, LastStep, Later;
    run := FirstBuild();
    run := RunPolls(run, 1, 0, NONE);
    run := RunAnswers(run, 1, 0, 0, Some(Building(1, 0)), NONE, o);
    run := RunFinishes(run, 1, 0, 0, Some(Pending(1, 0, By(1, o))), Some(Builder(1)), NONE, o, destroyed);
  }

  /** The second of two overlapping polls stores the result again over the rollout. */
  lemma {:induction false} LatePollLosesLease(o: BuildResult) returns (run: Run)
    ensures LosesLease(run, 1, o.imageReference) && run.moments[|run.moments| - 1].event.PollEnds?
  {
    var poll := multiset{Poll(1, 0)};
    var pending := Later(1, Some(Pending(1, 0, By(1, o))), Some(Builder(1)), NONE + multiset{Finalize(1, 0, By(1, o), 1)});
    hide Reaches, LastStep, LosesLease;
    run := FirstBuild();
    run := RunPolls(run, 1, 0, NONE);
    run := RunPolls(run, 1, 0, NONE + poll);
    run := RunAnswers(run, 1, 0, 0, Some(Building(1, 0)), NONE + poll, o);
    run := RunFinishes(run, 1, 0, 0, Some(Pending(1, 0, By(1, o))), Some(Builder(1)), NONE + poll, o, false);
    run := RunIsGranted(run, 1, Complete(1, By(1, o)), Some(Builder(1)), NONE + poll, o, 0);
    run := RunAnswers(run, 1, 0, 0, Some(Rolling(1, By(1, o), 0)), NONE, o);
    RollingIsFenced(1, NONE + poll, Some(Builder(1)), o, 0);
    LeaseLost(run, Later(1, Some(Rolling(1, By(1, o), 0)), Some(Builder(1)), NONE + poll),
              PollEnds(Poll(1, 0), Exited(0, Some(By(1, o)))), pending, 0, 1, o.imageReference);
  }

  /**
   * The build's Container could not be destroyed. Workflow 2's start waits for it to go, workflow 1 is granted its
   * rollout, and then workflow 2 claims the slot.
   */
  lemma {:induction false} ClearingStartLosesLease(o: BuildResult) returns (run: Run)
    ensures LosesLease(run, 1, o.imageReference) && run.moments[|run.moments| - 1].event.ClearEnds?
    ensures OwnsSlot(run.states[|run.moments|].stored, 2)
  {
    var complete, call := Complete(1, By(1, o)), Clearing(2, Some(Complete(1, By(1, o))));
    var before := Later(1, Some(Rolling(1, By(1, o), 0)), Some(Builder(1)), NONE + multiset{call});
    var after := Claimed(before.(container := None, calls := NONE), 2, 0);
    ClearReadLeads(Later(1, Some(complete), Some(Builder(1)), NONE), 2, 0);
    ClearLeads(before, Some(complete), 2, 0, NONE);
    RollingIsFenced(1, NONE + multiset{call}, Some(Builder(1)), o, 0);
    hide Reaches, LastStep, LosesLease, Leads, Fenced;
    run := FirstComplete(o, false);
    run := Extend(run, Later(1, Some(complete), Some(Builder(1)), NONE), StartBuild(2), 0,
                  Later(1, Some(complete), Some(Builder(1)), NONE + multiset{call}));
    run := RunIsGranted(run, 1, complete, Some(Builder(1)), NONE + multiset{call}, o, 0);
    run := Extend(run, before, ClearEnds(call, true), 0, after);
    ClaimIsNotFenced(before.(container := None, calls := NONE), 2, 0, 1, o.imageReference);
    LeaseLost(run, before, ClearEnds(call, true), after, 0, 1, o.imageReference);
    LastStateReached(run, after, 0);
  }

  lemma {:induction false} ClaimIsNotFenced(s: State, claimer: WorkflowId, now: int, workflow: WorkflowId, image: string)
    ensures !Fenced(Claimed(s, claimer, now), workflow, image)
  {
  }

  lemma {:induction false} LastStateReached(run: Run, s: State, now: int)
    requires Reaches(run, s, now)
    ensures |run.states| == |run.moments| + 1 && run.states[|run.moments|] == s
  {
  }

  /** A status read at the end of the build's lease deletes the record of the rollout granted meanwhile. */
  lemma {:induction false} LateReleaseLosesLease(o: BuildResult) returns (run: Run)
    ensures LosesLease(run, 1, o.imageReference) && run.moments[|run.moments| - 1].event.ReleaseEnds?
  {
    var building, call := Building(1, 0), Releasing(Building(1, 0), ForStatus);
    var poll := multiset{Poll(1, 0)};
    var before := Later(1, Some(Rolling(1, By(1, o), LEASE)), None, NONE + multiset{call});
    ReleaseReadLeads(Later(1, Some(building), Some(Builder(1)), NONE + poll), BuildStatus, ForStatus, LEASE,
                     Later(1, Some(building), Some(Builder(1)), NONE + multiset{call} + poll));
    ReleaseLeads(before, building, LEASE, NONE);
    RollingIsFenced(1, NONE + multiset{call}, None, o, LEASE);
    hide Reaches, LastStep, LosesLease, Leads;
    run := FirstBuild();
    run := RunPolls(run, 1, 0, NONE);
    RunWaits(run, Later(1, Some(building), Some(Builder(1)), NONE + poll), 0, LEASE);
    run := Extend(run, Later(1, Some(building), Some(Builder(1)), NONE + poll), BuildStatus, LEASE,
                  Later(1, Some(building), Some(Builder(1)), NONE + multiset{call} + poll));
    run := RunAnswers(run, 1, 0, LEASE, Some(building), NONE + multiset{call}, o);
    run := RunFinishes(run, 1, 0, LEASE, Some(Pending(1, 0, By(1, o))), Some(Builder(1)), NONE + multiset{call}, o, true);
    run := RunIsGranted(run, 1, Complete(1, By(1, o)), None, NONE + multiset{call}, o, LEASE);
    run := Extend(run, before, ReleaseEnds(call, true), LEASE, before.(stored := None, container := None, calls := NONE));
    LeaseLost(run, before, ReleaseEnds(call, true), before.(stored := None, container := None, calls := NONE), LEASE, 1,
              o.imageReference);
  }

  lemma {:induction false} SlotIsReleased(pending: Build, calls: multiset<Call>)
    requires pending.Active? && pending.leaseExpiresAt == LEASE
    ensures var release, delete := multiset{Releasing(pending, ForStart(2))}, multiset{Deleting(2, pending)};
      && Leads(Later(1, Some(pending), Some(Builder(1)), calls), StartBuild(2), LEASE,
               Later(1, Some(pending), Some(Builder(1)), calls + release))
      && Leads(Later(1, Some(pending), Some(Builder(1)), calls + release),
               ReleaseEnds(Releasing(pending, ForStart(2)), true), LEASE, Later(1, None, None, calls + delete))
  {
    var s := Later(1, Some(pending), Some(Builder(1)), calls + multiset{Releasing(pending, ForStart(2))});
    ReleaseReadLeads(Later(1, Some(pending), Some(Builder(1)), calls), StartBuild(2), ForStart(2), LEASE, s);
    ReleaseForStartLeads(s, pending, 2, LEASE, calls);
    hide Leads, Latest;
  }

  /** Workflow 2's start has released the expired slot while a finalization of workflow 1's build was under way. */
  lemma {:induction false} SlotReleased(o: BuildResult) returns (run: Run)
    ensures var delete := multiset{Deleting(2, Pending(1, 0, By(1, o)))};
      Reaches(run, Later(1, None, None, NONE + delete + multiset{Finalize(1, 0, By(1, o), 1)}), LEASE)
  {
    var pending, final := Pending(1, 0, By(1, o)), multiset{Finalize(1, 0, By(1, o), 1)};
    var release, delete := multiset{Releasing(pending, ForStart(2))}, multiset{Deleting(2, pending)};
    var expired := Later(1, Some(pending), Some(Builder(1)), NONE + final);
    var releasing := Later(1, Some(pending), Some(Builder(1)), NONE + final + release);
    SlotIsReleased(pending, NONE + final);
    assert NONE + final + delete == NONE + delete + final;
    hide Reaches, LastStep, Leads, Later, Pending;
    run := FirstBuild();
    run := RunPolls(run, 1, 0, NONE);
    run := RunAnswers(run, 1, 0, 0, Some(Building(1, 0)), NONE, o);
    RunWaits(run, expired, 0, LEASE);
    run := Extend(run, expired, StartBuild(2), LEASE, releasing);
    run := Extend(run, releasing, ReleaseEnds(Releasing(pending, ForStart(2)), true), LEASE,
                  Later(1, None, None, NONE + delete + final));
  }

  /** That start waits for the old archive to be deleted; workflow 1's build is completed and granted its rollout. */
  lemma {:induction false} DeletingStartLosesLease(o: BuildResult) returns (run: Run)
    ensures LosesLease(run, 1, o.imageReference) && run.moments[|run.moments| - 1].event.DeleteEnds?
    ensures OwnsSlot(run.states[|run.moments|].stored, 2)
  {
    var pending := Pending(1, 0, By(1, o));
    var delete := multiset{Deleting(2, pending)};
    var before := Later(1, Some(Rolling(1, By(1, o), LEASE)), None, NONE + delete);
    var after := Claimed(before.(calls := NONE), 2, LEASE);
    DeleteLeads(before, pending, 2, LEASE, NONE);
    RollingIsFenced(1, NONE + delete, None, o, LEASE);
    hide Reaches, LastStep, LosesLease, Leads, Fenced;
    run := SlotReleased(o);
    run := RunFinishes(run, 1, 0, LEASE, None, None, NONE + delete, o, true);
    run := RunIsGranted(run, 1, Complete(1, By(1, o)), None, NONE + delete, o, LEASE);
    run := Extend(run, before, DeleteEnds(Deleting(2, pending)), LEASE, after);
    ClaimIsNotFenced(before.(calls := NONE), 2, LEASE, 1, o.imageReference);
    LeaseLost(run, before, DeleteEnds(Deleting(2, pending)), after, LEASE, 1, o.imageReference);
    LastStateReached(run, after, LEASE);
  }

  /** A status read finds the lease expired; the owner renews it; the answer to the read then ends the renewed lease. */
  lemma {:induction false} LateReconciliationLosesLease(o: BuildResult) returns (run: Run)
    ensures LosesLease(run, 1, o.imageReference)
    ensures run.moments[|run.moments| - 1].event.ReconcileEnds? && !run.moments[|run.moments| - 1].event.active
  {
    var seen := Rolling(1, By(1, o), 0);
    var call := Reconciling(seen, 1, None);
    var before := Later(1, Some(Rolling(1, By(1, o), ROLLOUT)), None, NONE + multiset{call});
    var after := before.(stored := Some(Complete(1, By(1, o))), calls := NONE);
    ReconcileReadLeads(Later(1, Some(seen), None, NONE), ROLLOUT);
    ReconcileLeads(before, seen, 1, false, ROLLOUT, NONE);
    RollingIsFenced(1, NONE + multiset{call}, None, o, ROLLOUT);
    hide Reaches, LastStep, LosesLease, Leads;
    run := FirstComplete(o, true);
    run := RunIsGranted(run, 1, Complete(1, By(1, o)), None, NONE, o, 0);
    RunWaits(run, Later(1, Some(seen), None, NONE), 0, ROLLOUT);
    run := Extend(run, Later(1, Some(seen), None, NONE), BuildStatus, ROLLOUT, Later(1, Some(seen), None, NONE + multiset{call}));
    run := RunIsGranted(run, 1, seen, None, NONE + multiset{call}, o, ROLLOUT);
    run := Extend(run, before, ReconcileEnds(call, false), ROLLOUT, after);
    LeaseLost(run, before, ReconcileEnds(call, false), after, ROLLOUT, 1, o.imageReference);
  }

  /**
   * Two status reads find workflow 1's rollout lease expired. The first is answered and ends it, workflow 2 builds and
   * is granted its own rollout, and the second, which takes that one for the old, puts workflow 1's record back.
   */
  lemma {:induction false} StaleRenewalLosesLease(o: BuildResult, o2: BuildResult) returns (run: Run)
    ensures LosesLease(run, 2, o2.imageReference)
    ensures run.moments[|run.moments| - 1].event.ReconcileEnds? && run.moments[|run.moments| - 1].event.active
  {
    var seen := Rolling(1, By(1, o), 0);
    var call := Reconciling(seen, 1, None);
    var calls := NONE + multiset{call};
    var before := Later(2, Some(Rolling(2, By(2, o2), ROLLOUT)), None, calls);
    var after := before.(stored := Some(Rolling(1, By(1, o), ROLLOUT)), calls := NONE);
    hide Reaches, LastStep, LosesLease, Leads;
    run := SecondBuild(o);
    run := RunPolls(run, 2, ROLLOUT, calls);
    run := RunAnswers(run, 2, ROLLOUT, ROLLOUT, Some(Building(2, ROLLOUT)), calls, o2);
    run := RunFinishes(run, 2, ROLLOUT, ROLLOUT, Some(Pending(2, ROLLOUT, By(2, o2))), Some(Builder(2)), calls, o2, true);
    run := RunIsGranted(run, 2, Complete(2, By(2, o2)), None, calls, o2, ROLLOUT);
    ReconcileLeads(before, seen, 1, true, ROLLOUT, NONE);
    run := Extend(run, before, ReconcileEnds(call, true), ROLLOUT, after);
    RollingIsFenced(2, calls, None, o2, ROLLOUT);
    LeaseLost(run, before, ReconcileEnds(call, true), after, ROLLOUT, 2, o2.imageReference);
  }

  /** Two status reads have found workflow 1's rollout lease expired, and one of them has ended it. */
  lemma {:induction false} FirstReconciled(o: BuildResult) returns (run: Run)
    ensures var call := Reconciling(Rolling(1, By(1, o), 0), 1, None);
      Reaches(run, Later(1, Some(Complete(1, By(1, o))), None, NONE + multiset{call}), ROLLOUT)
  {
    var seen := Rolling(1, By(1, o), 0);
    var call := Reconciling(seen, 1, None);
    var calls := NONE + multiset{call};
    var s0, s1 := Later(1, Some(seen), None, NONE), Later(1, Some(seen), None, calls);
    var s2 := Later(1, Some(seen), None, calls + multiset{call});
    ReconcileReadLeads(s0, ROLLOUT);
    ReconcileReadLeads(s1, ROLLOUT);
    ReconcileLeads(s2, seen, 1, false, ROLLOUT, calls);
    hide Reaches, LastStep, Leads;
    run := FirstComplete(o, true);
    run := RunIsGranted(run, 1, Complete(1, By(1, o)), None, NONE, o, 0);
    RunWaits(run, s0, 0, ROLLOUT);
    run := Extend(run, s0, BuildStatus, ROLLOUT, s1);
    run := Extend(run, s1, BuildStatus, ROLLOUT, s2);
    run := Extend(run, s2, ReconcileEnds(call, false), ROLLOUT, Later(1, Some(Complete(1, By(1, o))), None, calls));
  }

  /** Workflow 2's build is under way while the other read still waits. */
  lemma {:induction false} SecondBuild(o: BuildResult) returns (run: Run)
    ensures var call := Reconciling(Rolling(1, By(1, o), 0), 1, None);
      Reaches(run, Later(2, Some(Building(2, ROLLOUT)), Some(Builder(2)), NONE + multiset{call}), ROLLOUT)
  {
    var calls := NONE + multiset{Reconciling(Rolling(1, By(1, o), 0), 1, None)};
    var complete := Some(Complete(1, By(1, o)));
    ClaimLeads(1, complete, calls, ROLLOUT);
    ClaimedIsStarted(1, complete, calls, ROLLOUT);
    hide Reaches, LastStep, Leads, Later, Started;
    run := FirstReconciled(o);
    run := Extend(run, Later(1, complete, None, calls), StartBuild(2), ROLLOUT, Started(2, ROLLOUT, Staging, None, calls));
    run := RunLaunches(run, 2, ROLLOUT, calls);
  }

  // ---------------------------------------------------------------- another build's image

  /** The last step of the run grants the rollout of an image that the workflow's latest claim did not build. */
  ghost predicate GrantsForeign(run: Run, workflow: WorkflowId) {
    && run.Valid() && |run.moments| > 0
    && var s, e := run.states[|run.moments| - 1], run.moments[|run.moments| - 1].event;
       && e.BeginRollOut? && e.workflow == workflow && Grants(s, workflow, e.image)
       && !Own(s, workflow, s.stored.value.output)
  }

  lemma {:induction false} ForeignGranted(
      run: Run, last: nat, k: nat, container: Option<set<Process>>, o: Output, t: State, now: int)
    requires Reaches(run, t, now)
    requires LastStep(run, Later(last, Some(Complete(k, o)), container, NONE), BeginRollOut(k, o.result.imageReference))
    requires 1 <= k <= last && o.writer != Process(k, k)
    ensures GrantsForeign(run, k)
  {
    LatestIs(last, k);
  }

  lemma {:induction false} LatestIs(k: nat, w: nat)
    requires 1 <= w <= k
    ensures w in Latest(k) && Latest(k)[w] == w
  {
    if w < k {
      LatestIs(k - 1, w);
    }
  }

  /**
   * Workflow 1's poll reads its record, its slot expires, and workflow 2 claims the slot and builds. The poll then
   * reads workflow 2's result file, and workflow 1 is granted the rollout of workflow 2's image.
   */
  lemma {:induction false} LatePollGrantsForeign(o: BuildResult) returns (run: Run)
    ensures GrantsForeign(run, 1)
  {
    var output, final := By(2, o), multiset{Finalize(1, 0, By(2, o), 2)};
    hide Reaches, LastStep, GrantsForeign, Leads;
    run := TakenOver();
    AnswerLeads(1, 0, 2, Some(Building(2, LEASE)), Builder(2), NONE, output, LEASE);
    run := Extend(run, Later(2, Some(Building(2, LEASE)), Some(Builder(2)), NONE + multiset{Poll(1, 0)}),
                  PollEnds(Poll(1, 0), Exited(0, Some(output))), LEASE,
                  Later(2, Some(Pending(1, 0, output)), Some(Builder(2)), NONE + final));
    FinalizeLeads(1, 0, 2, 2, Some(Pending(1, 0, output)), Some(Builder(2)), NONE, output, true, LEASE);
    run := Extend(run, Later(2, Some(Pending(1, 0, output)), Some(Builder(2)), NONE + final),
                  FinalizeEnds(Finalize(1, 0, output, 2), true), LEASE, Later(2, Some(Complete(1, output)), None, NONE));
    GrantLeads(1, 2, Complete(1, output), None, NONE, output, LEASE);
    run := Extend(run, Later(2, Some(Complete(1, output)), None, NONE), BeginRollOut(1, o.imageReference), LEASE,
                  Later(2, Some(Rolling(1, output, LEASE)), None, NONE));
    ForeignGranted(run, 2, 1, None, output, Later(2, Some(Rolling(1, output, LEASE)), None, NONE), LEASE);
  }

  /** Workflow 2 has taken the expired slot over and builds, while a poll of workflow 1's build still waits. */
  lemma {:induction false} TakenOver() returns (run: Run)
    ensures Reaches(run, Later(2, Some(Building(2, LEASE)), Some(Builder(2)), NONE + multiset{Poll(1, 0)}), LEASE)
  {
    var first, poll := Building(1, 0), multiset{Poll(1, 0)};
    var release, delete := multiset{Releasing(first, ForStart(2))}, multiset{Deleting(2, first)};
    var expired := Later(1, Some(first), Some(Builder(1)), NONE + poll);
    var releasing := Later(1, Some(first), Some(Builder(1)), NONE + poll + release);
    var deleting := Later(1, None, None, NONE + poll + delete);
    SlotIsReleased(first, NONE + poll);
    DeleteLeads(deleting, first, 2, LEASE, NONE + poll);
    ClaimedIsStarted(1, None, NONE + poll, LEASE);
    hide Reaches, LastStep, Leads;
    run := FirstBuild();
    run := RunPolls(run, 1, 0, NONE);
    RunWaits(run, expired, 0, LEASE);
    run := Extend(run, expired, StartBuild(2), LEASE, releasing);
    run := Extend(run, releasing, ReleaseEnds(Releasing(first, ForStart(2)), true), LEASE, deleting);
    run := Extend(run, deleting, DeleteEnds(Deleting(2, first)), LEASE, Started(2, LEASE, Staging, None, NONE + poll));
    run := RunLaunches(run, 2, LEASE, NONE + poll);
  }

  /** Workflows 2 and 3 have both claimed the slot, 3 last, and their starts are under way. */
  function Shared(second: Stage, third: Stage, container: Option<set<Process>>): State {
    State(Some(Building(3, 0)), container, map[2 := Start(2, second), 3 := Start(3, third)], NONE, 3, Latest(3))
  }

  const BOTH := {Process(2, 2), Process(3, 3)}

  lemma {:induction false} SharedStarts()
    ensures Leads(Shared(Staging, Staging, None), ContainerStarts(2), 0, Shared(Hosted, Staging, Some({})))
    ensures Leads(Shared(Hosted, Staging, Some({})), ContainerStarts(3), 0, Shared(Hosted, Hosted, Some({})))
  {
    hide Latest;
    PlainLeads(Shared(Staging, Staging, None), ContainerStarts(2), 0, Shared(Hosted, Staging, Some({})));
    PlainLeads(Shared(Hosted, Staging, Some({})), ContainerStarts(3), 0, Shared(Hosted, Hosted, Some({})));
  }

  lemma {:induction false} SharedLaunches()
    ensures Leads(Shared(Hosted, Hosted, Some({})), BuilderStarts(2), 0, Shared(Launched, Hosted, Some(Builder(2))))
    ensures Leads(Shared(Launched, Hosted, Some(Builder(2))), BuilderStarts(3), 0, Shared(Launched, Launched, Some(BOTH)))
  {
    hide Latest;
    assert {} + Builder(2) == Builder(2) && Builder(2) + Builder(3) == BOTH;
    PlainLeads(Shared(Hosted, Hosted, Some({})), BuilderStarts(2), 0, Shared(Launched, Hosted, Some(Builder(2))));
    PlainLeads(Shared(Launched, Hosted, Some(Builder(2))), BuilderStarts(3), 0, Shared(Launched, Launched, Some(BOTH)));
  }

  lemma {:induction false} SharedReturns()
    ensures var one := Shared(Launched, Launched, Some(BOTH)).(starting := map[3 := Start(3, Launched)]);
      && Leads(Shared(Launched, Launched, Some(BOTH)), StartSucceeds(2), 0, one)
      && Leads(one, StartSucceeds(3), 0, Later(3, Some(Building(3, 0)), Some(BOTH), NONE))
  {
    hide Latest;
    var one := Shared(Launched, Launched, Some(BOTH)).(starting := map[3 := Start(3, Launched)]);
    assert Shared(Launched, Launched, Some(BOTH)).starting - {2} == one.starting;
    assert one.starting - {3} == map[];
    PlainLeads(Shared(Launched, Launched, Some(BOTH)), StartSucceeds(2), 0, one);
    PlainLeads(one, StartSucceeds(3), 0, Later(3, Some(Building(3, 0)), Some(BOTH), NONE));
  }

  /** Both starts found the Container of workflow 1's build still running and waited for it to go. */
  lemma {:induction false} BothClaim(o: BuildResult) returns (run: Run)
    ensures Reaches(run, Shared(Staging, Staging, None), 0)
  {
    var complete := Some(Complete(1, By(1, o)));
    var second, third := multiset{Clearing(2, complete)}, multiset{Clearing(3, complete)};
    var s0, s1 := Later(1, complete, Some(Builder(1)), NONE), Later(1, complete, Some(Builder(1)), NONE + second);
    var s2 := Later(1, complete, Some(Builder(1)), NONE + third + second);
    var s3 := Claimed(Later(1, complete, None, NONE + third), 2, 0);
    assert NONE + second + third == NONE + third + second;
    ClearReadLeads(s0, 2, 0);
    ClearReadLeads(s1, 3, 0);
    ClearLeads(s2, complete, 2, 0, NONE + third);
    ClearLeads(s3, complete, 3, 0, NONE);
    assert Claimed(s3.(container := None, calls := NONE), 3, 0) == Shared(Staging, Staging, None);
    hide Reaches, LastStep, Leads;
    run := FirstComplete(o, false);
    run := Extend(run, s0, StartBuild(2), 0, s1);
    run := Extend(run, s1, StartBuild(3), 0, s2);
    run := Extend(run, s2, ClearEnds(Clearing(2, complete), true), 0, s3);
    run := Extend(run, s3, ClearEnds(Clearing(3, complete), true), 0, Shared(Staging, Staging, None));
  }

  lemma {:induction false} BothBuild(o: BuildResult) returns (run: Run)
    ensures Reaches(run, Later(3, Some(Building(3, 0)), Some(BOTH), NONE), 0)
  {
    var one := Shared(Launched, Launched, Some(BOTH)).(starting := map[3 := Start(3, Launched)]);
    SharedStarts();
    SharedLaunches();
    SharedReturns();
    hide Reaches, LastStep, Leads, Shared, Later;
    run := BothClaim(o);
    run := Extend(run, Shared(Staging, Staging, None), ContainerStarts(2), 0, Shared(Hosted, Staging, Some({})));
    run := Extend(run, Shared(Hosted, Staging, Some({})), ContainerStarts(3), 0, Shared(Hosted, Hosted, Some({})));
    run := Extend(run, Shared(Hosted, Hosted, Some({})), BuilderStarts(2), 0, Shared(Launched, Hosted, Some(Builder(2))));
    run := Extend(run, Shared(Launched, Hosted, Some(Builder(2))), BuilderStarts(3), 0, Shared(Launched, Launched, Some(BOTH)));
    run := Extend(run, Shared(Launched, Launched, Some(BOTH)), StartSucceeds(2), 0, one);
    run := Extend(run, one, StartSucceeds(3), 0, Later(3, Some(Building(3, 0)), Some(BOTH), NONE));
  }

  /** Two starts claim the slot one after the other and build in one Container; 3 is granted the image that 2 built. */
  lemma {:induction false} SharedContainerGrantsForeign(o: BuildResult) returns (run: Run)
    ensures GrantsForeign(run, 3)
  {
    var output, final, poll := By(2, o), multiset{Finalize(3, 0, By(2, o), 3)}, multiset{Poll(3, 0)};
    hide Reaches, LastStep, GrantsForeign, Leads;
    run := BothBuild(o);
    PollLeads(3, 0, Some(BOTH), NONE, 0);
    run := Extend(run, Later(3, Some(Building(3, 0)), Some(BOTH), NONE), BuildStatus, 0,
                  Later(3, Some(Building(3, 0)), Some(BOTH), NONE + poll));
    AnswerLeads(3, 0, 3, Some(Building(3, 0)), BOTH, NONE, output, 0);
    run := Extend(run, Later(3, Some(Building(3, 0)), Some(BOTH), NONE + poll), PollEnds(Poll(3, 0), Exited(0, Some(output))), 0,
                  Later(3, Some(Pending(3, 0, output)), Some(BOTH), NONE + final));
    FinalizeLeads(3, 0, 3, 3, Some(Pending(3, 0, output)), Some(BOTH), NONE, output, true, 0);
    run := Extend(run, Later(3, Some(Pending(3, 0, output)), Some(BOTH), NONE + final),
                  FinalizeEnds(Finalize(3, 0, output, 3), true), 0, Later(3, Some(Complete(3, output)), None, NONE));
    GrantLeads(3, 3, Complete(3, output), None, NONE, output, 0);
    run := Extend(run, Later(3, Some(Complete(3, output)), None, NONE), BeginRollOut(3, o.imageReference), 0,
                  Later(3, Some(Rolling(3, output, 0)), None, NONE));
    ForeignGranted(run, 3, 3, None, output, Later(3, Some(Rolling(3, output, 0)), None, NONE), 0);
  }
}
