/**
 * The account scheduler as tables and steps. Every step is one synchronous stretch of one entry point; what the
 * outside world answers (GitHub, Cloudflare, which of several matching rows a query returns) is part of the event.
 */
module SchedulerModel {
  import opened AccountResources
  import opened Deadlines
  import opened RunnerNames
  import opened SchedulerPolicy
  import opened Wrappers

  const SCHEDULER_ALARM_DELAY_MS := 60_000
  const RUNNER_COMPLETION_GRACE_MS := 30_000
  const RUNNER_CLEANUP_RETRY_MS := 60_000
  const STALLED_CAPACITY_UPDATE_RECOVERY_MS := 60_000

  // ---------------------------------------------------------------- tables

  /** Jobs are numbered in the order of their identifiers. */
  type JobId = nat

  datatype Status =
    Queued | Admitted | Provisioning | Running | Releasing | StoppedAwaitingCompletion | Completed | Cancelled | Failed
  {
    predicate Active() {
      Admitted? || Provisioning? || Running? || Releasing? || StoppedAwaitingCompletion?
    }

    predicate Waiting() {
      Queued? || Admitted?
    }

    predicate OwnsRunner() {
      Provisioning? || Running? || Releasing?
    }

    predicate Terminal() {
      Completed? || Cancelled? || Failed?
    }

    predicate Recoverable() {
      StoppedAwaitingCompletion? || Releasing?
    }
  }

  datatype Profile = Profile(custom: bool, key: string, resources: Resources)

  datatype CleanupState = NoCleanup | RetryCleanup | CleanupDone

  datatype Job = Job(
    runnerName: string,
    repository: string,
    profile: Profile,
    status: Status,
    slot: Option<SlotIndex>,
    createdAt: int,
    runnerId: Option<int>,
    attempt: nat,
    assignmentObserved: bool,
    ownerScoped: bool,
    recoveryDue: Option<int>,
    cleanup: CleanupState,
    cleanupDue: Option<int>)
  {
    /** The slot this job's reservation is counted on. */
    function Holds(): Option<SlotIndex> {
      if status.Active() then slot else None
    }

    predicate DueBy(time: int) {
      status.Recoverable() && recoveryDue.Some? && recoveryDue.value <= time
    }
  }

  const SLOTS: nat := 16
  const CUSTOM_SLOTS: nat := 10

  /** custom:1, custom:10, custom:2 ... custom:9, then preset:basic, preset:lite, preset:standard-1 ... standard-4. */
  type SlotIndex = i: nat | i < SLOTS

  /** The custom slots in the order of their rows, custom:1 to custom:10. */
  const CUSTOM_ROWS: seq<SlotIndex> := [0, 2, 3, 4, 5, 6, 7, 8, 9, 1]

  datatype Shape = Shape(key: string, resources: Resources)

  datatype Slot = Slot(
    shape: Option<Shape>,
    state: ConfigurationState,
    configurationOwner: Option<JobId>,
    reserved: nat,
    desired: int,
    applied: int,
    debounceUntil: int,
    updating: bool,
    updateGeneration: nat,
    pending: Option<Shape>,
    reclaimPending: bool,
    lastReleasedAt: int,
    generation: nat)

  type SlotTable = slots: seq<Slot> | |slots| == SLOTS witness InitialSlots()

  datatype JitRunner = JitRunner(
    sourceJob: JobId, repository: string, profileKey: string, runnerId: int, assignedJob: Option<JobId>, observed: bool)

  datatype OperationState = Pending | Applied | Superseded

  datatype Operation = Operation(target: int, state: OperationState, updatedAt: int)

  datatype OperationKey = OperationKey(slot: SlotIndex, generation: nat)

  type Operations = map<OperationKey, Operation>

  datatype StoppedRow = StoppedRow(id: JobId, job: Job)

  datatype DueRow = DueRow(id: SlotIndex, slot: Slot)

  /** What an alarm invocation in flight still has to work through. */
  datatype AlarmRun =
    | NoRun
    | Recovering(cutoff: int, rows: seq<StoppedRow>)
    | Updating(cutoff: int, due: seq<DueRow>)

  datatype State = State(
    jobs: map<JobId, Job>,
    slots: SlotTable,
    runners: map<string, JitRunner>,
    operations: Operations,
    alarm: Option<int>,
    scheduledAt: int,
    run: AlarmRun)

  function PresetSlot(key: string): Option<SlotIndex> {
    if key == "basic" then Some(10)
    else if key == "lite" then Some(11)
    else if key == "standard-1" then Some(12)
    else if key == "standard-2" then Some(13)
    else if key == "standard-3" then Some(14)
    else if key == "standard-4" then Some(15)
    else None
  }

  function EmptySlot(shape: Option<Shape>): Slot {
    Slot(shape, if shape.Some? then Ready else Idle, None, 0, 1, 1, 0, false, 0, None, false, 0, 0)
  }

  function InitialSlots(): (slots: seq<Slot>)
    ensures |slots| == SLOTS
  {
    seq(CUSTOM_SLOTS, i => EmptySlot(None)) + [
      EmptySlot(Some(Shape("basic", Resources(4, 1_024, 4_000)))),
      EmptySlot(Some(Shape("lite", Resources(1, 256, 2_000)))),
      EmptySlot(Some(Shape("standard-1", Resources(8, 4_096, 8_000)))),
      EmptySlot(Some(Shape("standard-2", Resources(16, 6_144, 12_000)))),
      EmptySlot(Some(Shape("standard-3", Resources(32, 8_192, 16_000)))),
      EmptySlot(Some(Shape("standard-4", Resources(64, 12_288, 20_000))))
    ]
  }

  function Initial(): State {
    State(map[], InitialSlots(), map[], map[], None, 0, NoRun)
  }

  // ---------------------------------------------------------------- reservations

  function ActiveIds(jobs: map<JobId, Job>): set<JobId> {
    set id | id in jobs && jobs[id].status.Active()
  }

  /** The active jobs recorded on a slot. */
  function ActiveOn(jobs: map<JobId, Job>, slot: SlotIndex): set<JobId> {
    set id | id in jobs && jobs[id].Holds() == Some(slot)
  }

  ghost function TotalOf(jobs: map<JobId, Job>, ids: set<JobId>): Resources
    requires ids <= jobs.Keys
    decreases |ids|
  {
    if ids == {} then ZERO
    else
      var id :| id in ids;
      jobs[id].profile.resources.Plus(TotalOf(jobs, ids - {id}))
  }

  ghost function ReservedResources(jobs: map<JobId, Job>): Resources {
    TotalOf(jobs, ActiveIds(jobs))
  }

  // ---------------------------------------------------------------- admission

  /** The oldest queued job, ties by identifier. */
  ghost predicate IsNextQueued(jobs: map<JobId, Job>, id: JobId) {
    && id in jobs
    && jobs[id].status.Queued?
    && forall other :: other in jobs && jobs[other].status.Queued? ==>
      jobs[id].createdAt < jobs[other].createdAt || (jobs[id].createdAt == jobs[other].createdAt && id <= other)
  }

  ghost function NextQueued(jobs: map<JobId, Job>): Option<JobId> {
    if exists id :: IsNextQueued(jobs, id) then
      var id :| IsNextQueued(jobs, id);
      Some(id)
    else
      None
  }

  function CapacityRows(slots: SlotTable): seq<CapacitySlot> {
    seq(SLOTS, i requires 0 <= i < SLOTS => CapacityRow(i, slots[i]))
  }

  function CapacityRow(id: SlotIndex, slot: Slot): CapacitySlot {
    CapacitySlot(id, if slot.shape.Some? then Some(slot.shape.value.resources) else None,
                 slot.applied, slot.reserved, slot.state, slot.updating, slot.lastReleasedAt)
  }

  function CustomRows(slots: SlotTable): seq<CustomSlot> {
    seq(CUSTOM_SLOTS, i requires 0 <= i < CUSTOM_SLOTS => CustomRow(i, slots[i]))
  }

  function CustomRow(id: SlotIndex, slot: Slot): CustomSlot {
    var shape := if slot.state == Configuring then slot.pending else slot.shape;
    CustomSlot(id, if shape.Some? then Some(shape.value.key) else None, slot.state, slot.reserved)
  }

  function SelectSlot(slots: SlotTable, profile: Profile): (r: Option<SelectedSlot>)
    ensures r.Some? ==> r.value.slotId < SLOTS
    ensures r.Some? && r.value.requiresConfiguration ==>
      slots[r.value.slotId].reserved == 0 && slots[r.value.slotId].state != Configuring
  {
    if !profile.custom then
      var preset := PresetSlot(profile.key);
      if preset.None? then None else Some(SelectedSlot(preset.value, false))
    else
      SelectCustomSlot(true, profile.key, CustomRows(slots))
  }

  function TargetMaxInstances(slot: Slot, requiresConfiguration: bool): int {
    var required := RequiredMaxInstances(slot.reserved);
    if requiresConfiguration || slot.state == Configuring then required else Max(slot.applied, required)
  }

  function RecordOperation(operations: Operations, slot: SlotIndex, generation: nat, target: int, now: int): Operations {
    operations[OperationKey(slot, generation) := Operation(target, Pending, now)]
  }

  /** An idle donor that may still be lowered to `target`. */
  predicate MayReclaim(donor: Slot, target: int) {
    donor.state == Ready && donor.reserved == 0 && !donor.updating && target < donor.applied
  }

  function ScheduleReclamation(
      slots: SlotTable, operations: Operations, reductions: seq<Reduction>, now: int): (SlotTable, Operations)
    decreases |reductions|
  {
    if reductions == [] then (slots, operations)
    else
      var (id, target) := (reductions[0].slotId, reductions[0].target);
      if id < SLOTS && MayReclaim(slots[id], target) then
        var generation := slots[id].generation + 1;
        ScheduleReclamation(
          slots[id := slots[id].(desired := target, debounceUntil := 0, generation := generation)],
          RecordOperation(operations, id, generation, target, now), reductions[1..], now)
      else
        ScheduleReclamation(slots, operations, reductions[1..], now)
  }

  /** The slot row once a job has been admitted to it. */
  function AdmittedSlot(
    slot: Slot, job: JobId, shape: Shape, requiresConfiguration: bool, target: int, reclaims: bool, now: int): Slot
  {
    var configuring := requiresConfiguration || slot.state == Configuring;
    slot.(shape := if configuring then slot.shape else Some(shape),
          state := if configuring then Configuring else slot.state,
          configurationOwner := if requiresConfiguration then Some(job) else slot.configurationOwner,
          reserved := slot.reserved + 1,
          desired := target,
          debounceUntil :=
            if configuring then 0
            else if target > slot.applied || slot.updating then CapacityDebounceDeadline(now)
            else slot.debounceUntil,
          pending := if configuring then Some(shape) else None,
          reclaimPending := configuring && reclaims,
          generation := slot.generation + 1)
  }

  function PlanOn(slots: SlotTable, id: SlotIndex, resources: Resources, target: int): Option<CapacityPlan> {
    PlanFor(CapacityRows(slots), CapacityTarget(id, resources, target), ACCOUNT_LIMIT)
  }

  ghost function Admit(s: State, id: JobId, selected: SelectedSlot, reductions: seq<Reduction>, now: int): State
    requires id in s.jobs && selected.slotId < SLOTS
  {
    var profile, slot := s.jobs[id].profile, s.slots[selected.slotId];
    var target := TargetMaxInstances(slot, selected.requiresConfiguration);
    var (slots, operations) := ScheduleReclamation(s.slots, s.operations, reductions, now);
    var admitted := AdmittedSlot(slot, id, Shape(profile.key, profile.resources),
                                 selected.requiresConfiguration, target, reductions != [], now);
    var recorded := admitted.state == Configuring || slot.updating || target > slot.applied;
    s.(slots := slots[selected.slotId := admitted],
       operations := if recorded then RecordOperation(operations, selected.slotId, admitted.generation, target, now) else operations,
       jobs := s.jobs[id := s.jobs[id].(status := Admitted, slot := Some(selected.slotId))])
  }

  ghost function AdmitNext(s: State, now: int): State {
    var next := NextQueued(s.jobs);
    if next.None? then s
    else
      var profile := s.jobs[next.value].profile;
      if !FitsAccountCapacity(ReservedResources(s.jobs), profile.resources, ACCOUNT_LIMIT) then s
      else
        var selected := SelectSlot(s.slots, profile);
        if selected.None? then s
        else
          var target := TargetMaxInstances(s.slots[selected.value.slotId], selected.value.requiresConfiguration);
          var plan := PlanOn(s.slots, selected.value.slotId, profile.resources, target);
          if plan.None? then s else Admit(s, next.value, selected.value, plan.value.reductions, now)
  }

  // ---------------------------------------------------------------- release

  function ReleasedSlot(slot: Slot, now: int): Slot {
    var reserved: nat := if slot.reserved == 0 then 0 else slot.reserved - 1;
    var emptied := reserved == 0 && slot.state == Configuring;
    slot.(reserved := reserved,
          desired := Max(slot.applied, reserved),
          lastReleasedAt := now,
          state := if emptied then Idle else slot.state,
          configurationOwner := if emptied then None else slot.configurationOwner)
  }

  /** Releases job `id`, taking its slot from the row the caller read. */
  function ReleaseJob(s: State, id: JobId, slot: Option<SlotIndex>, status: Status, now: int): State
    requires id in s.jobs
  {
    s.(slots := if slot.None? then s.slots else s.slots[slot.value := ReleasedSlot(s.slots[slot.value], now)],
       jobs := s.jobs[id := s.jobs[id].(status := status, recoveryDue := None)])
  }

  // ---------------------------------------------------------------- the alarm

  predicate CapacityChangePending(slot: Slot) {
    slot.state == Ready && !slot.updating && slot.desired != slot.applied
  }

  /** Every time at which some stored work falls due. */
  function DueTimes(s: State, now: int): set<int> {
    (if exists id :: id in s.jobs && s.jobs[id].status.Waiting() then {now + SCHEDULER_ALARM_DELAY_MS} else {})
    + (set i: nat | i < SLOTS && CapacityChangePending(s.slots[i]) :: s.slots[i].debounceUntil)
    + (set id | id in s.jobs && s.jobs[id].status.Recoverable() && s.jobs[id].recoveryDue.Some? :: s.jobs[id].recoveryDue.value)
    + (set id | id in s.jobs && s.jobs[id].cleanup.RetryCleanup? && s.jobs[id].cleanupDue.Some? :: s.jobs[id].cleanupDue.value)
  }

  ghost function ScheduleAlarm(s: State, now: int): State {
    var times := DueTimes(s, now);
    s.(alarm := if times == {} then s.alarm else Some(Max(now, Earliest(times))), scheduledAt := now)
  }

  // ---------------------------------------------------------------- provisioning

  datatype ClaimAnswer =
    | Wait
    | Refused
    | Missing
    | Provision(slot: SlotIndex, requiredMaxInstances: int, generation: nat, requiresConfiguration: bool)

  function ClaimProvisioning(s: State, id: JobId, runnerName: string): ClaimAnswer {
    if id !in s.jobs then Missing
    else
      var job := s.jobs[id];
      if job.runnerName != runnerName then Refused
      else if !job.status.Waiting() && !job.status.Provisioning? && !job.status.Running? then Refused
      else if job.slot.None? then (if job.status.Waiting() then Wait else Missing)
      else
        var slot := s.slots[job.slot.value];
        var owns := slot.state == Configuring && slot.configurationOwner == Some(id);
        if job.status.Waiting() && slot.state == Configuring && !owns then Wait
        else if slot.reclaimPending || slot.updating then Wait
        else if (!owns || !job.status.Waiting()) && slot.applied < slot.desired then Wait
        else Provision(job.slot.value, Max(1, slot.reserved), slot.generation, owns)
  }

  function Claimed(s: State, id: JobId, runnerName: string): State {
    if ClaimProvisioning(s, id, runnerName).Provision? && s.jobs[id].status.Waiting() then
      s.(jobs := s.jobs[id := s.jobs[id].(status := Provisioning, ownerScoped := true)])
    else
      s
  }

  predicate CanStart(s: State, id: JobId, runnerName: string) {
    id in s.jobs && s.jobs[id].status.Provisioning? && s.jobs[id].runnerName == runnerName
  }

  function ConfiguredSlot(slot: Slot): Slot {
    slot.(shape := if slot.pending.Some? then slot.pending else slot.shape,
          state := Ready, configurationOwner := None, pending := None, reclaimPending := false)
  }

  /** The owner of a configuration, and no one else, ends it. */
  function Configured(s: State, i: SlotIndex, id: JobId): State {
    if s.slots[i].configurationOwner == Some(id) then s.(slots := s.slots[i := ConfiguredSlot(s.slots[i])]) else s
  }

  ghost function ConfigurationReady(s: State, id: JobId, now: int): State {
    if id !in s.jobs || s.jobs[id].slot.None? then s
    else
      var i := s.jobs[id].slot.value;
      var ready := Configured(s, i, id);
      ScheduleAlarm(AdmitNext(ready, now), now)
  }

  function Superseding(operations: Operations, slot: SlotIndex, generation: nat, now: int): Operations {
    map key | key in operations ::
      if key == OperationKey(slot, generation) then operations[key].(state := Applied, updatedAt := now)
      else if key.slot == slot && key.generation < generation && operations[key].state == Pending then
        operations[key].(state := Superseded, updatedAt := now)
      else operations[key]
  }

  ghost function CapacityPrepared(s: State, slot: SlotIndex, generation: nat, now: int): State {
    if OperationKey(slot, generation) !in s.operations then s
    else
      var row := s.slots[slot];
      var prepared := row.(applied := s.operations[OperationKey(slot, generation)].target,
                           updating := row.updating && row.updateGeneration != generation);
      ScheduleAlarm(s.(slots := s.slots[slot := prepared], operations := Superseding(s.operations, slot, generation, now)), now)
  }

  function RunnerProvisioned(s: State, id: JobId, runnerName: string, runnerId: int): State {
    if id !in s.jobs || s.jobs[id].runnerName != runnerName then s
    else
      var job := if s.jobs[id].status.Provisioning? then s.jobs[id].(runnerId := Some(runnerId)) else s.jobs[id];
      if job.runnerId != Some(runnerId) then s
      else
        s.(jobs := s.jobs[id := job],
           runners := s.runners[runnerName := JitRunner(id, job.repository, job.profile.key, runnerId, None, false)])
  }

  function Started(job: Job, runnerName: string): Job {
    if job.runnerName == runnerName && job.status.Provisioning? then job.(status := Running) else job
  }

  /** `UPDATE ... WHERE runner_name = ? AND status = 'provisioning'` reaches every such row. */
  function RunnerStarted(s: State, runnerName: string): State {
    s.(jobs := map id | id in s.jobs :: Started(s.jobs[id], runnerName))
  }

  ghost function ProvisioningFailed(s: State, id: JobId, runnerName: string, now: int): State {
    if CanStart(s, id, runnerName) then
      ScheduleAlarm(AdmitNext(ReleaseJob(s, id, s.jobs[id].slot, Failed, now), now), now)
    else
      s
  }

  // ---------------------------------------------------------------- assignment

  datatype RunnerClaim = RunnerClaim(id: JobId, runnerName: string, runnerId: Option<int>, repository: string, profileKey: string)

  predicate Matches(job: Job, claim: RunnerClaim) {
    job.repository == claim.repository && job.profile.key == claim.profileKey
  }

  /** The row a query for the runner's current owner may return. */
  ghost predicate IsOwner(jobs: map<JobId, Job>, runnerName: string, owner: Option<JobId>) {
    match owner
    case None => forall id :: id in jobs && jobs[id].runnerName == runnerName ==> !jobs[id].status.OwnsRunner()
    case Some(id) => id in jobs && jobs[id].runnerName == runnerName && jobs[id].status.OwnsRunner()
  }

  predicate AssignmentMatches(s: State, claim: RunnerClaim) {
    && claim.runnerName in s.runners
    && claim.id in s.jobs
    && s.runners[claim.runnerName].repository == claim.repository
    && s.runners[claim.runnerName].profileKey == claim.profileKey
    && Matches(s.jobs[claim.id], claim)
  }

  function RecordAssignment(s: State, claim: RunnerClaim): State {
    if AssignmentMatches(s, claim) then
      s.(runners := s.runners[claim.runnerName := s.runners[claim.runnerName].(assignedJob := Some(claim.id), observed := true)])
    else
      s
  }

  /** A job that starts to run on a runner, with every trace of an earlier stop cleared. */
  function OnRunner(job: Job, runnerName: string, runnerId: Option<int>, slot: Option<SlotIndex>): Job {
    job.(status := Running, runnerName := runnerName, runnerId := runnerId, slot := slot,
         recoveryDue := None, cleanup := NoCleanup, cleanupDue := None, assignmentObserved := true)
  }

  /** A displaced job, back in the queue with a fresh runner name. */
  function Requeued(job: Job): Job {
    job.(status := Queued, runnerName := RetryName(job.runnerName, job.attempt + 1), attempt := job.attempt + 1,
         slot := None, runnerId := None, recoveryDue := None, cleanup := NoCleanup, cleanupDue := None,
         assignmentObserved := false)
  }

  /** No job owns the runner: a waiting or running job that GitHub reports on it takes it over. */
  predicate Adopts(s: State, claim: RunnerClaim) {
    AssignmentMatches(s, claim) && (s.jobs[claim.id].status.Waiting() || s.jobs[claim.id].status.Running?)
  }

  /** GitHub gave the owner's runner to another job. */
  predicate HandsOver(s: State, claim: RunnerClaim, owner: JobId) {
    && owner in s.jobs && claim.id in s.jobs
    && Matches(s.jobs[owner], claim) && Matches(s.jobs[claim.id], claim)
    && owner != claim.id
    && s.jobs[owner].slot.Some?
  }

  function HandOver(s: State, claim: RunnerClaim, owner: JobId): State
    requires HandsOver(s, claim, owner)
  {
    var from, to := s.jobs[owner], s.jobs[claim.id];
    var runnerId := if claim.runnerId.Some? then claim.runnerId else from.runnerId;
    s.(jobs := s.jobs[owner := Requeued(from)][claim.id := OnRunner(to, claim.runnerName, runnerId, from.slot)])
  }

  ghost function JobStarted(s: State, claim: RunnerClaim, owner: Option<JobId>, now: int): State {
    var r := RecordAssignment(s, claim);
    if owner.None? then
      if Adopts(s, claim) then
        var job := s.jobs[claim.id];
        r.(jobs := r.jobs[claim.id := OnRunner(job, claim.runnerName, claim.runnerId, job.slot)])
      else
        r
    else if HandsOver(s, claim, owner.value) then
      ScheduleAlarm(AdmitNext(HandOver(r, claim, owner.value), now), now)
    else if owner.value == claim.id && claim.id in s.jobs && Matches(s.jobs[claim.id], claim) then
      r.(jobs := r.jobs[claim.id := r.jobs[claim.id].(assignmentObserved := true)])
    else
      r
  }

  // ---------------------------------------------------------------- completion and recovery

  ghost function JobCompleted(s: State, id: JobId, now: int): State {
    if id !in s.jobs then s
    else
      var job := s.jobs[id];
      if job.status.Waiting() then
        ScheduleAlarm(AdmitNext(ReleaseJob(s, id, job.slot, Cancelled, now), now), now)
      else if job.status.StoppedAwaitingCompletion? then
        ScheduleAlarm(AdmitNext(ReleaseJob(s, id, job.slot, Completed, now), now), now)
      else if job.status.Provisioning? || job.status.Running? then
        var releasing := job.(status := Releasing, recoveryDue := Some(now + RUNNER_COMPLETION_GRACE_MS));
        ScheduleAlarm(s.(jobs := s.jobs[id := releasing]), now)
      else
        s
  }

  /** The row a query by runner name alone may return. */
  ghost predicate IsNamed(jobs: map<JobId, Job>, runnerName: string, row: Option<JobId>) {
    match row
    case None => forall id :: id in jobs ==> jobs[id].runnerName != runnerName
    case Some(id) => id in jobs && jobs[id].runnerName == runnerName
  }

  ghost function RunnerStopped(s: State, row: Option<JobId>, now: int): State {
    if row.None? || row.value !in s.jobs || !s.jobs[row.value].status.Active() then s
    else
      var id, job := row.value, s.jobs[row.value];
      if job.status.Releasing? then
        ScheduleAlarm(AdmitNext(ReleaseJob(s, id, job.slot, Completed, now), now), now)
      else
        var stopped := job.(status := StoppedAwaitingCompletion, recoveryDue := Some(now + RUNNER_COMPLETION_GRACE_MS));
        ScheduleAlarm(s.(jobs := s.jobs[id := stopped]), now)
  }

  predicate EarlierRow(a: StoppedRow, b: StoppedRow)
    requires a.job.recoveryDue.Some? && b.job.recoveryDue.Some?
  {
    a.job.recoveryDue.value < b.job.recoveryDue.value || (a.job.recoveryDue == b.job.recoveryDue && a.id < b.id)
  }

  /** The answer to the query for stopped jobs that are due. */
  ghost predicate DueStopped(jobs: map<JobId, Job>, rows: seq<StoppedRow>, now: int) {
    && (forall i :: 0 <= i < |rows| ==> rows[i].id in jobs && jobs[rows[i].id] == rows[i].job && rows[i].job.DueBy(now))
    && (forall id :: id in jobs && jobs[id].DueBy(now) ==> StoppedRow(id, jobs[id]) in rows)
    && (forall i, j :: 0 <= i < j < |rows| ==> EarlierRow(rows[i], rows[j]))
  }

  datatype CleanupAnswer = RunnerGone | TryAgain(startedAt: int)

  function CleanedUp(job: Job, runnerId: Option<int>, answer: CleanupAnswer): Job {
    if runnerId.None? || answer.RunnerGone? then
      job.(cleanup := CleanupDone, cleanupDue := None)
    else
      job.(cleanup := RetryCleanup, cleanupDue := Some(answer.startedAt + RUNNER_CLEANUP_RETRY_MS))
  }

  function CleanUp(s: State, row: StoppedRow, answer: CleanupAnswer): State {
    if row.id in s.jobs then s.(jobs := s.jobs[row.id := CleanedUp(s.jobs[row.id], row.job.runnerId, answer)]) else s
  }

  /** The end of one recovery: the job's row was read before its runner was deleted on GitHub. */
  ghost function RecoverStopped(s: State, row: StoppedRow, answer: CleanupAnswer, now: int): State
    requires row.id in s.jobs
  {
    var status := if row.job.status.Releasing? then Completed else Failed;
    AdmitNext(ReleaseJob(CleanUp(s, row, answer), row.id, row.job.slot, status, now), now)
  }

  // ---------------------------------------------------------------- capacity updates

  function UnstalledSlot(id: SlotIndex, slot: Slot, operations: Operations, now: int): Slot {
    var key := OperationKey(id, slot.updateGeneration);
    var live := key in operations && operations[key].state == Pending
      && now - operations[key].updatedAt < STALLED_CAPACITY_UPDATE_RECOVERY_MS;
    if slot.updating && !live then slot.(updating := false, debounceUntil := now) else slot
  }

  function RecoverStalledUpdates(s: State, now: int): State {
    s.(slots := seq(SLOTS, i requires 0 <= i < SLOTS => UnstalledSlot(i, s.slots[i], s.operations, now)))
  }

  predicate UpdateDue(slot: Slot, now: int) {
    && CapacityChangePending(slot)
    && (slot.desired < slot.applied || slot.debounceUntil <= now)
    && (slot.desired >= slot.applied || slot.reserved == 0)
  }

  function DueAmong(slots: SlotTable, reducing: bool, now: int, n: nat): (rows: seq<DueRow>)
    requires n <= SLOTS
    ensures forall i :: 0 <= i < |rows| ==> rows[i].slot == slots[rows[i].id] && UpdateDue(rows[i].slot, now)
  {
    if n == 0 then []
    else
      var slot, before := slots[n - 1], DueAmong(slots, reducing, now, n - 1);
      if UpdateDue(slot, now) && (slot.desired < slot.applied) == reducing then before + [DueRow(n - 1, slot)] else before
  }

  /** The due slots, reductions first. */
  function DueRows(slots: SlotTable, now: int): (rows: seq<DueRow>)
    ensures forall i :: 0 <= i < |rows| ==> rows[i].slot == slots[rows[i].id] && UpdateDue(rows[i].slot, now)
  {
    DueAmong(slots, true, now, SLOTS) + DueAmong(slots, false, now, SLOTS)
  }

  /** The guarded update that claims a slot for one capacity change. */
  predicate StartsUpdate(s: State, row: DueRow) {
    s.slots[row.id].generation == row.slot.generation && !s.slots[row.id].updating
  }

  function StartUpdate(s: State, row: DueRow): State {
    if StartsUpdate(s, row) then
      s.(slots := s.slots[row.id := s.slots[row.id].(updating := true, updateGeneration := row.slot.generation)])
    else
      s
  }

  function DeferUpdate(s: State, slot: SlotIndex, generation: nat, now: int): State {
    var row := s.slots[slot];
    s.(slots := s.slots[slot := row.(
         debounceUntil := if row.generation == generation then CapacityDebounceDeadline(now) else row.debounceUntil,
         updating := row.updating && row.updateGeneration != generation)])
  }

  function ReleaseHold(s: State, i: SlotIndex, now: int): State {
    var slot := s.slots[i];
    if slot.state == Configuring && slot.reclaimPending && slot.pending.Some? then
      var plan := PlanOn(s.slots, i, slot.pending.value.resources, slot.desired);
      if plan.None? then s
      else
        var (slots, operations) := ScheduleReclamation(s.slots, s.operations, plan.value.reductions, now);
        s.(slots := if plan.value.reductions == [] then slots[i := slots[i].(reclaimPending := false)] else slots,
           operations := operations)
    else
      s
  }

  function ReleaseHolds(s: State, rows: seq<SlotIndex>, now: int): State
    decreases |rows|
  {
    if rows == [] then s else ReleaseHolds(ReleaseHold(s, rows[0], now), rows[1..], now)
  }

  // ---------------------------------------------------------------- restart

  function ReconcileReservations(s: State): State {
    s.(slots := seq(SLOTS, i requires 0 <= i < SLOTS => s.slots[i].(reserved := |ActiveOn(s.jobs, i)|)))
  }

  ghost predicate AllReleasing(jobs: map<JobId, Job>, ids: seq<JobId>) {
    && (forall id :: id in jobs && jobs[id].status.Releasing? <==> id in ids)
    && (forall i, j :: 0 <= i < j < |ids| ==> ids[i] != ids[j])
  }

  function ReleaseAll(s: State, ids: seq<JobId>, now: int): State
    decreases |ids|
  {
    if ids == [] then s
    else if ids[0] in s.jobs then ReleaseAll(ReleaseJob(s, ids[0], s.jobs[ids[0]].slot, Completed, now), ids[1..], now)
    else ReleaseAll(s, ids[1..], now)
  }

  ghost function Restart(s: State, ids: seq<JobId>, now: int): State {
    ScheduleAlarm(RecoverStalledUpdates(ReleaseAll(ReconcileReservations(s), ids, now), now), now).(run := NoRun)
  }

  // ---------------------------------------------------------------- steps

  datatype Event =
    | Submit(id: JobId, runnerName: string, repository: string, profile: Profile)
    | Claim(id: JobId, runnerName: string)
    | ConfigurationReported(id: JobId)
    | CapacityReported(slot: SlotIndex, generation: nat)
    | RunnerCreated(id: JobId, runnerName: string, runnerId: int)
    | ContainerStarted(runnerName: string)
    | AssignmentReported(claim: RunnerClaim, owner: Option<JobId>)
    | ProvisioningFailure(id: JobId, runnerName: string)
    | CompletionReported(id: JobId)
    | ContainerStopped(runnerName: string, stoppedJob: Option<JobId>)
    | AlarmFired(rows: seq<StoppedRow>)
    | RecoveryFinished(answer: CleanupAnswer)
    | CleanupRetried(pendingRow: StoppedRow, answer: CleanupAnswer)
    | UpdatesSelected
    | UpdateStarted
    | UpdateDeferred(slot: SlotIndex, generation: nat)
    | AlarmFinished
    | Restarted(releasing: seq<JobId>)

  /** What the platform guarantees about an event in a given state. */
  ghost predicate Possible(s: State, e: Event, now: int) {
    match e
    case AssignmentReported(claim, owner) => IsOwner(s.jobs, claim.runnerName, owner)
    case ContainerStopped(runnerName, row) => IsNamed(s.jobs, runnerName, row)
    case AlarmFired(rows) => s.run.NoRun? && s.alarm.Some? && s.alarm.value <= now && DueStopped(s.jobs, rows, now)
    case RecoveryFinished(answer) => s.run.Recovering? && s.run.rows != []
    case CleanupRetried(row, answer) => s.run.Recovering? && s.run.rows == []
    case UpdatesSelected => s.run.Recovering? && s.run.rows == []
    case UpdateStarted => s.run.Updating? && s.run.due != []
    case UpdateDeferred(_, _) => s.run.Updating?
    case AlarmFinished => s.run.Updating? && s.run.due == []
    case Restarted(releasing) => AllReleasing(s.jobs, releasing)
    case _ => true
  }

  function NewJob(runnerName: string, repository: string, profile: Profile, now: int): Job {
    Job(runnerName, repository, profile, Queued, None, now, None, 1, false, false, None, NoCleanup, None)
  }

  ghost function Submitted(s: State, id: JobId, runnerName: string, repository: string, profile: Profile, now: int): State {
    if id in s.jobs then s
    else ScheduleAlarm(AdmitNext(s.(jobs := s.jobs[id := NewJob(runnerName, repository, profile, now)]), now), now)
  }

  ghost function Step(s: State, e: Event, now: int): State
    requires Possible(s, e, now)
  {
    match e
    case Submit(id, runnerName, repository, profile) => Submitted(s, id, runnerName, repository, profile, now)
    case Claim(id, runnerName) => Claimed(s, id, runnerName)
    case ConfigurationReported(id) => ConfigurationReady(s, id, now)
    case CapacityReported(slot, generation) => CapacityPrepared(s, slot, generation, now)
    case RunnerCreated(id, runnerName, runnerId) => RunnerProvisioned(s, id, runnerName, runnerId)
    case ContainerStarted(runnerName) => RunnerStarted(s, runnerName)
    case AssignmentReported(claim, owner) => JobStarted(s, claim, owner, now)
    case ProvisioningFailure(id, runnerName) => ProvisioningFailed(s, id, runnerName, now)
    case CompletionReported(id) => JobCompleted(s, id, now)
    case ContainerStopped(runnerName, row) => RunnerStopped(s, row, now)
    case AlarmFired(rows) => s.(alarm := None, run := Recovering(now, rows))
    case RecoveryFinished(answer) =>
      var row := s.run.rows[0];
      var r := if row.id in s.jobs then RecoverStopped(s, row, answer, now) else s;
      r.(run := Recovering(s.run.cutoff, s.run.rows[1..]))
    case CleanupRetried(row, answer) => CleanUp(s, row, answer)
    case UpdatesSelected =>
      var r := RecoverStalledUpdates(s, now);
      r.(run := Updating(s.run.cutoff, DueRows(r.slots, now)))
    case UpdateStarted => StartUpdate(s, s.run.due[0]).(run := Updating(s.run.cutoff, s.run.due[1..]))
    case UpdateDeferred(slot, generation) => DeferUpdate(s, slot, generation, now)
    case AlarmFinished => ScheduleAlarm(AdmitNext(ReleaseHolds(s, CUSTOM_ROWS, now), now), now).(run := NoRun)
    case Restarted(releasing) => Restart(s, releasing, now)
  }
}
