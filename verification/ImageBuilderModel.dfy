/**
 * The shared image builder as one stored record, one Container and the calls suspended while they wait for the
 * platform. A step is one stretch of code between two such waits; what the platform answers is part of the event.
 */
module ImageBuilderModel {
  import opened Wrappers

  const RUNNER_IMAGE_ROLLOUT_LEASE_MS := 5 * 60 * 1_000
  const RUNNER_IMAGE_BUILD_LEASE_MS := 70 * 60 * 1_000

  type WorkflowId = nat

  datatype BuildResult = BuildResult(sourceDigest: string, imageReference: string, built: bool)

  /** A build process in the Container: the workflow whose claim started it and the number of that claim. */
  datatype Process = Process(owner: WorkflowId, claim: nat)

  /** A result with the process that wrote its file. The record of the source has the result only. */
  datatype Output = Output(result: BuildResult, writer: Process)

  datatype Terminal = Succeeded(output: Output) | Broken(exitCode: int)

  datatype Build =
    | Active(workflowId: WorkflowId, leaseExpiresAt: int, terminal: Option<Terminal>)
    | Complete(workflowId: WorkflowId, output: Output)
    | Failed(workflowId: WorkflowId, exitCode: int)
    | RollingOut(workflowId: WorkflowId, output: Output, leaseExpiresAt: int, attemptInFlight: bool)
  {
    predicate RollsOut(workflow: WorkflowId, image: string) {
      RollingOut? && workflowId == workflow && output.result.imageReference == image
    }
  }

  /** How far a `startBuild` call that has claimed the slot has come: no Container yet, a Container, a build process. */
  datatype Stage = Staging | Hosted | Launched

  datatype Start = Start(workflowId: WorkflowId, stage: Stage)

  /** Who called `releaseBuild`: a start that found an expired slot, a start that failed, a status read, an abort. */
  datatype Purpose = ForStart(workflow: WorkflowId) | ForFailure | ForStatus | ForAbort

  /**
   * A suspended call with the record it read before, and the number of the last claim at that time. A start also waits
   * for the deletion of a released archive and for the previous Container to go.
   */
  datatype Call =
    | Polling(seen: Build, claim: nat)
    | Finalizing(seen: Build, claim: nat)
    | Reconciling(seen: Build, claim: nat, start: Option<WorkflowId>)
    | Releasing(seen: Build, purpose: Purpose)
    | Deleting(workflow: WorkflowId, released: Build)
    | Clearing(workflow: WorkflowId, existing: Option<Build>)
  {
    predicate Fits() {
      match this
      case Polling(seen, _) => seen.Active? && seen.terminal.None?
      case Finalizing(seen, _) => seen.Active? && seen.terminal.Some?
      case Reconciling(seen, _, _) => seen.RollingOut?
      case Releasing(seen, _) => seen.Active?
      case Deleting(_, released) => released.Active?
      case Clearing(_, existing) => existing.Some? ==> !existing.value.RollingOut?
    }
  }

  /** `container`: nothing while it is stopped, else the build processes it has been given. */
  datatype State = State(
    stored: Option<Build>,
    container: Option<set<Process>>,
    starting: map<nat, Start>,
    calls: multiset<Call>,
    claims: nat,
    latest: map<WorkflowId, nat>)

  function Initial(): State {
    State(None, None, map[], multiset{}, 0, map[])
  }

  /** What one stretch of code does: the state it leaves, and the call that goes on waiting after it. */
  datatype Turn = Turn(state: State, waits: Option<Call>)

  function Suspended(waits: Option<Call>): multiset<Call> {
    if waits.Some? then multiset{waits.value} else multiset{}
  }

  /** The state after a stretch of code that has resumed the given calls. */
  function After(s: State, resumed: multiset<Call>, turn: Turn): State {
    turn.state.(calls := s.calls - resumed + Suspended(turn.waits))
  }

  function Done(s: State): Turn {
    Turn(s, None)
  }

  function Wait(s: State, call: Call): Turn {
    Turn(s, Some(call))
  }

  // ---------------------------------------------------------------- claiming the slot

  function Claimed(s: State, workflow: WorkflowId, now: int): State {
    s.(stored := Some(Active(workflow, now + RUNNER_IMAGE_BUILD_LEASE_MS, None)),
       starting := s.starting[s.claims + 1 := Start(workflow, Staging)],
       claims := s.claims + 1,
       latest := s.latest[workflow := s.claims + 1])
  }

  /** A start that found nothing in its way: it claims at once, or first waits for the previous Container to go. */
  function Proceeded(s: State, workflow: WorkflowId, existing: Option<Build>, now: int): Turn {
    if s.container.Some? then Wait(s, Clearing(workflow, existing)) else Done(Claimed(s, workflow, now))
  }

  function BuildStarted(s: State, workflow: WorkflowId, now: int): Turn {
    if s.stored.Some? && s.stored.value.Active? then
      if s.stored.value.leaseExpiresAt > now then Done(s) else Wait(s, Releasing(s.stored.value, ForStart(workflow)))
    else if s.stored.Some? && s.stored.value.RollingOut? then
      if s.stored.value.leaseExpiresAt > now then Done(s)
      else Wait(s, Reconciling(s.stored.value, s.claims, Some(workflow)))
    else
      Proceeded(s, workflow, s.stored, now)
  }

  function Cleared(s: State, call: Call, destroyed: bool, now: int): Turn
    requires call.Clearing?
  {
    Done(if destroyed then Claimed(s.(container := None), call.workflow, now) else s)
  }

  /** The start failed: its slot is released if it still is its own. */
  function StartFailed(s: State, claim: nat): Turn
    requires claim in s.starting
  {
    var r := s.(starting := s.starting - {claim});
    if OwnsSlot(s.stored, s.starting[claim].workflowId) then Wait(r, Releasing(s.stored.value, ForFailure)) else Done(r)
  }

  predicate OwnsSlot(stored: Option<Build>, workflow: WorkflowId) {
    stored.Some? && stored.value.Active? && stored.value.workflowId == workflow
  }

  /**
   * The end of `releaseBuild`. With the Container gone the record is deleted, without being read again. Otherwise it
   * stays, and a failed start leaves a failure record for the next status read.
   */
  function Released(s: State, call: Call, destroyed: bool): Turn
    requires call.Releasing?
  {
    if destroyed then
      var r := s.(stored := None, container := None);
      if call.purpose.ForStart? then Wait(r, Deleting(call.purpose.workflow, call.seen)) else Done(r)
    else if call.purpose.ForFailure? && OwnsSlot(s.stored, call.seen.workflowId) then
      Done(s.(stored := Some(s.stored.value.(terminal := Some(Broken(1))))))
    else
      Done(s)
  }

  function BuildAborted(s: State, workflow: WorkflowId): Turn {
    if OwnsSlot(s.stored, workflow) then Wait(s, Releasing(s.stored.value, ForAbort)) else Done(s)
  }

  // ---------------------------------------------------------------- following a build

  function StatusRead(s: State, now: int): Turn {
    if s.stored.None? || s.stored.value.Complete? || s.stored.value.Failed? then Done(s)
    else if s.stored.value.RollingOut? then
      if s.stored.value.leaseExpiresAt <= now then Wait(s, Reconciling(s.stored.value, s.claims, None)) else Done(s)
    else if s.stored.value.terminal.Some? then Wait(s, Finalizing(s.stored.value, s.claims))
    else if s.stored.value.leaseExpiresAt <= now then Wait(s, Releasing(s.stored.value, ForStatus))
    else Wait(s, Polling(s.stored.value, s.claims))
  }

  /** The builder process is still at work, or could not be asked, or has left an exit code and perhaps a result. */
  datatype PollAnswer = StillRunning | Exited(exitCode: nat, output: Option<Output>)

  function TerminalFor(answer: PollAnswer): Terminal
    requires answer.Exited?
  {
    if answer.exitCode == 0 && answer.output.Some? then Succeeded(answer.output.value)
    else Broken(if answer.exitCode == 0 then 1 else answer.exitCode)
  }

  function PollAnswered(s: State, call: Call, answer: PollAnswer): Turn
    requires call.Polling? && call.seen.Active?
  {
    if answer.StillRunning? then Done(s)
    else
      var pending := call.seen.(terminal := Some(TerminalFor(answer)));
      Wait(s.(stored := Some(pending)), Finalizing(pending, s.claims))
  }

  function Ended(workflow: WorkflowId, terminal: Terminal): Build {
    match terminal
    case Succeeded(output) => Complete(workflow, output)
    case Broken(exitCode) => Failed(workflow, exitCode)
  }

  function Finalized(s: State, call: Call, destroyed: bool): Turn
    requires call.Finalizing? && call.seen.Active? && call.seen.terminal.Some?
  {
    Done(s.(stored := Some(Ended(call.seen.workflowId, call.seen.terminal.value)),
            container := if destroyed then None else s.container))
  }

  function Reconciled(seen: Build, active: bool, now: int): Build
    requires seen.RollingOut?
  {
    if active then RollingOut(seen.workflowId, seen.output, now + RUNNER_IMAGE_ROLLOUT_LEASE_MS, seen.attemptInFlight)
    else Complete(seen.workflowId, seen.output)
  }

  /** `active`: a rollout is, or may be, still in progress. */
  function ReconcileAnswered(s: State, call: Call, active: bool, now: int): Turn
    requires call.Reconciling? && call.seen.RollingOut?
  {
    var r := s.(stored := Some(Reconciled(call.seen, active, now)));
    if call.start.Some? && !active then Proceeded(r, call.start.value, r.stored, now) else Done(r)
  }

  // ---------------------------------------------------------------- rolling out

  /** `beginRollOut` grants the lease. */
  predicate Grants(s: State, workflow: WorkflowId, image: string) {
    && s.stored.Some?
    && (s.stored.value.RollingOut? || s.stored.value.Complete?)
    && s.stored.value.workflowId == workflow
    && s.stored.value.output.result.imageReference == image
  }

  function RollOutBegun(s: State, workflow: WorkflowId, image: string, now: int): State {
    if Grants(s, workflow, image) then
      s.(stored := Some(RollingOut(workflow, s.stored.value.output, now + RUNNER_IMAGE_ROLLOUT_LEASE_MS, true)))
    else
      s
  }

  function AttemptCompleted(s: State, workflow: WorkflowId, image: string): State {
    if s.stored.Some? && s.stored.value.RollsOut(workflow, image) then
      s.(stored := Some(s.stored.value.(attemptInFlight := false)))
    else
      s
  }

  function RollOutFinished(s: State, workflow: WorkflowId, image: string): State {
    if s.stored.Some? && s.stored.value.RollsOut(workflow, image) then
      s.(stored := Some(Complete(workflow, s.stored.value.output)))
    else
      s
  }

  // ---------------------------------------------------------------- steps

  datatype Event =
    | StartBuild(workflow: WorkflowId)
    | DeleteEnds(call: Call)
    | ClearEnds(call: Call, destroyed: bool)
    | ContainerStarts(claim: nat)
    | BuilderStarts(claim: nat)
    | StartSucceeds(claim: nat)
    | StartFails(claim: nat)
    | ContainerStops
    | ReleaseEnds(call: Call, destroyed: bool)
    | BuildStatus
    | PollEnds(call: Call, answer: PollAnswer)
    | FinalizeEnds(call: Call, destroyed: bool)
    | ReconcileEnds(call: Call, active: bool)
    | BeginRollOut(workflow: WorkflowId, image: string)
    | CompleteRollOutAttempt(workflow: WorkflowId, image: string)
    | FinishRollOut(workflow: WorkflowId, image: string)
    | AbortBuild(workflow: WorkflowId)

  predicate Waits(s: State, call: Call) {
    call in s.calls && call.Fits()
  }

  /**
   * Only a suspended call ends and only a start under way goes on. A builder needs a running Container to be started
   * in, and only such a Container answers a poll with a file, which one of its processes wrote.
   */
  predicate Possible(s: State, e: Event) {
    match e
    case DeleteEnds(call) => Waits(s, call) && call.Deleting?
    case ClearEnds(call, _) => Waits(s, call) && call.Clearing?
    case ContainerStarts(claim) => claim in s.starting && s.starting[claim].stage.Staging?
    case BuilderStarts(claim) => claim in s.starting && s.starting[claim].stage.Hosted? && s.container.Some?
    case StartSucceeds(claim) => claim in s.starting && s.starting[claim].stage.Launched?
    case StartFails(claim) => claim in s.starting
    case ReleaseEnds(call, _) => Waits(s, call) && call.Releasing?
    case PollEnds(call, answer) =>
      && Waits(s, call) && call.Polling?
      && (answer.Exited? && answer.output.Some? ==>
            s.container.Some? && answer.output.value.writer in s.container.value)
    case FinalizeEnds(call, _) => Waits(s, call) && call.Finalizing?
    case ReconcileEnds(call, _) => Waits(s, call) && call.Reconciling?
    case _ => true
  }

  function Turned(s: State, e: Event, now: int): Turn
    requires Possible(s, e)
  {
    match e
    case StartBuild(workflow) => BuildStarted(s, workflow, now)
    case DeleteEnds(call) => Proceeded(s, call.workflow, Some(call.released), now)
    case ClearEnds(call, destroyed) => Cleared(s, call, destroyed, now)
    case ContainerStarts(claim) =>
      Done(s.(container := if s.container.Some? then s.container else Some({}),
              starting := s.starting[claim := s.starting[claim].(stage := Hosted)]))
    case BuilderStarts(claim) =>
      Done(s.(container := Some(s.container.value + {Process(s.starting[claim].workflowId, claim)}),
              starting := s.starting[claim := s.starting[claim].(stage := Launched)]))
    case StartSucceeds(claim) => Done(s.(starting := s.starting - {claim}))
    case StartFails(claim) => StartFailed(s, claim)
    case ContainerStops => Done(s.(container := None))
    case ReleaseEnds(call, destroyed) => Released(s, call, destroyed)
    case BuildStatus => StatusRead(s, now)
    case PollEnds(call, answer) => PollAnswered(s, call, answer)
    case FinalizeEnds(call, destroyed) => Finalized(s, call, destroyed)
    case ReconcileEnds(call, active) => ReconcileAnswered(s, call, active, now)
    case BeginRollOut(workflow, image) => Done(RollOutBegun(s, workflow, image, now))
    case CompleteRollOutAttempt(workflow, image) => Done(AttemptCompleted(s, workflow, image))
    case FinishRollOut(workflow, image) => Done(RollOutFinished(s, workflow, image))
    case AbortBuild(workflow) => BuildAborted(s, workflow)
  }

  /** The suspended call that an event ends. */
  function Resumed(e: Event): multiset<Call> {
    match e
    case DeleteEnds(call) => multiset{call}
    case ClearEnds(call, _) => multiset{call}
    case ReleaseEnds(call, _) => multiset{call}
    case PollEnds(call, _) => multiset{call}
    case FinalizeEnds(call, _) => multiset{call}
    case ReconcileEnds(call, _) => multiset{call}
    case _ => multiset{}
  }

  function Step(s: State, e: Event, now: int): State
    requires Possible(s, e)
  {
    After(s, Resumed(e), Turned(s, e, now))
  }

  datatype Moment = Moment(event: Event, now: int)

  /** A run from the first use of the builder: `states[i + 1]` is what `moments[i]` makes of `states[i]`. */
  datatype Run = Run(states: seq<State>, moments: seq<Moment>) {
    ghost predicate Valid() {
      && |states| == |moments| + 1
      && states[0] == Initial()
      && (forall i :: 0 <= i < |moments| ==> Follows(i))
      && (forall i, j :: 0 <= i < j < |moments| ==> moments[i].now <= moments[j].now)
    }

    ghost predicate Follows(i: nat)
      requires i < |moments| && |states| == |moments| + 1
    {
      && Possible(states[i], moments[i].event)
      && states[i + 1] == Step(states[i], moments[i].event, moments[i].now)
    }
  }
}
