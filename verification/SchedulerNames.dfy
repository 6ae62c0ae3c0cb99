/**
 * Runner names over whole runs: no two jobs own one runner, and the names of abandoned attempts stay dead.
 * GitHub is assumed to report each runner name for one job only, and jobs to be submitted under distinct names
 * without a retry suffix.
 */
module SchedulerNames {
  import opened Decimal
  import opened RunnerNames
  import opened SchedulerModel
  import opened SchedulerPolicy
  import opened SchedulerRuns
  import opened Wrappers

  /** The outside world's view of names. */
  datatype World = World(baseOf: JobId -> string, jobOf: string -> JobId, reported: string -> JobId) {
    ghost predicate Sound() {
      forall id :: Fresh(baseOf(id)) && jobOf(baseOf(id)) == id
    }

    /** The name of attempt `attempt` of a job. */
    ghost function Own(id: JobId, attempt: nat): string {
      if attempt <= 1 then baseOf(id) else RetryName(baseOf(id), attempt)
    }

    ghost function Origin(name: string): JobId {
      jobOf(StripRetry(name))
    }

    ghost predicate Agrees(e: Event) {
      && (e.Submit? ==> e.runnerName == baseOf(e.id))
      && (e.AssignmentReported? ==> reported(e.claim.runnerName) == e.claim.id)
    }
  }

  lemma {:induction false} DigitsAtTheEnd(prefix: string, digits: string)
    requires AllDigits(digits) && (prefix == "" || !IsDigit(prefix[|prefix| - 1]))
    ensures TrailingDigits(prefix + digits) == |digits|
  {
    var name := prefix + digits;
    if digits == "" {
      assert name == prefix;
    } else {
      assert name[..|name| - 1] == prefix + digits[..|digits| - 1];
      DigitsAtTheEnd(prefix, digits[..|digits| - 1]);
    }
  }

  /** The name under which a job is submitted: `cf-<profile>-job-<identifier>`. */
  function SubmittedName(profileKey: string, identifier: string): string {
    "cf-" + profileKey + "-job-" + identifier
  }

  /** Submitted names meet what is assumed of them: no retry suffix, and each belongs to one job. */
  lemma {:induction false} SubmittedNamesAreSound(
    profileOf: JobId -> string, textOf: JobId -> string, jobWith: string -> JobId, reported: string -> JobId)
    requires forall id :: textOf(id) != "" && AllDigits(textOf(id)) && jobWith(textOf(id)) == id
    ensures World((id: JobId) => SubmittedName(profileOf(id), textOf(id)),
                  (name: string) => jobWith(name[|name| - TrailingDigits(name)..]), reported).Sound()
  {
    forall id
      ensures var name := SubmittedName(profileOf(id), textOf(id));
        Fresh(name) && jobWith(name[|name| - TrailingDigits(name)..]) == id
    {
      var prefix, name := "cf-" + profileOf(id) + "-job-", SubmittedName(profileOf(id), textOf(id));
      assert name == prefix + textOf(id) && prefix[|prefix| - 1] == '-';
      DigitsAtTheEnd(prefix, textOf(id));
      assert name[|name| - |textOf(id)|..] == textOf(id);
      assert name[|name| - |textOf(id)| - 1] == '-';
    }
  }

  lemma {:induction false} OwnParts(w: World, id: JobId, attempt: nat)
    requires w.Sound() && attempt >= 1
    ensures w.Origin(w.Own(id, attempt)) == id
    ensures AttemptOf(w.Own(id, attempt)) == attempt
    ensures RetryName(w.Own(id, attempt), attempt + 1) == w.Own(id, attempt + 1)
  {
    RetryNameParts(w.baseOf(id), attempt);
  }

  /** A name that was some job's own and is not waiting to be claimed by that job. */
  ghost predicate Spent(jobs: map<JobId, Job>, w: World, name: string) {
    var id, attempt := w.Origin(name), AttemptOf(name);
    && id in jobs
    && 1 <= attempt <= jobs[id].attempt
    && name == w.Own(id, attempt)
    && (attempt == jobs[id].attempt ==> !jobs[id].status.Waiting())
  }

  ghost predicate HasOwnName(jobs: map<JobId, Job>, w: World, id: JobId)
    requires id in jobs
  {
    jobs[id].runnerName == w.Own(id, jobs[id].attempt)
  }

  /** A job has its own name, or a spent one that GitHub reported for it. */
  ghost predicate NameExplained(jobs: map<JobId, Job>, w: World, id: JobId)
    requires id in jobs
  {
    && jobs[id].attempt >= 1
    && (HasOwnName(jobs, w, id) || (w.reported(jobs[id].runnerName) == id && Spent(jobs, w, jobs[id].runnerName)))
    && (jobs[id].status.Waiting() ==> HasOwnName(jobs, w, id) && jobs[id].runnerId.None?)
  }

  /** No two jobs in provisioning, running or releasing own the same runner name. */
  ghost predicate RunnersOwnedOnce(jobs: map<JobId, Job>) {
    forall i, j :: i in jobs && j in jobs && i != j && jobs[i].status.OwnsRunner() && jobs[j].status.OwnsRunner() ==>
      jobs[i].runnerName != jobs[j].runnerName
  }

  /** GitHub gave every abandoned attempt's runner to another job. */
  ghost predicate AbandonedElsewhere(jobs: map<JobId, Job>, w: World) {
    forall id, attempt: nat {:trigger w.Own(id, attempt)} :: id in jobs && 1 <= attempt < jobs[id].attempt ==>
      w.reported(w.Own(id, attempt)) != id
  }

  ghost predicate NamesOk(jobs: map<JobId, Job>, runners: map<string, JitRunner>, w: World) {
    && (forall id :: id in jobs ==> NameExplained(jobs, w, id))
    && (forall name :: name in runners ==> Spent(jobs, w, name))
    && RunnersOwnedOnce(jobs)
    && AbandonedElsewhere(jobs, w)
  }

  // ---------------------------------------------------------------- steps that keep every name

  /** No name or attempt changes, nothing starts to wait, only waiting jobs start to own runners, ended jobs stay ended. */
  ghost predicate Quiet(before: map<JobId, Job>, after: map<JobId, Job>) {
    && after.Keys == before.Keys
    && forall id :: id in before ==>
      && after[id].runnerName == before[id].runnerName
      && after[id].attempt == before[id].attempt
      && (after[id].status.Waiting() ==> before[id].status.Waiting() && after[id].runnerId == before[id].runnerId)
      && (after[id].status.OwnsRunner() ==> before[id].status.OwnsRunner() || before[id].status.Waiting())
      && (before[id].status.Terminal() ==> after[id].status.Terminal())
  }

  ghost predicate QuietStep(s: State, t: State) {
    Quiet(s.jobs, t.jobs) && t.runners == s.runners
  }

  /** A waiting job's name is nobody else's. */
  lemma {:induction false} WaitingNameIsUnique(jobs: map<JobId, Job>, w: World, id: JobId, other: JobId)
    requires w.Sound()
    requires id in jobs && other in jobs && NameExplained(jobs, w, id) && NameExplained(jobs, w, other)
    requires jobs[id].status.Waiting() && jobs[other].runnerName == jobs[id].runnerName
    ensures other == id
  {
    OwnParts(w, id, jobs[id].attempt);
    OwnParts(w, other, jobs[other].attempt);
  }

  lemma {:induction false} QuietKeepsNames(s: State, t: State, w: World)
    requires w.Sound() && NamesOk(s.jobs, s.runners, w) && QuietStep(s, t)
    ensures NamesOk(t.jobs, t.runners, w)
  {
    forall name | Spent(s.jobs, w, name)
      ensures Spent(t.jobs, w, name)
    {
    }
    forall id | id in t.jobs
      ensures NameExplained(t.jobs, w, id)
    {
      assert NameExplained(s.jobs, w, id);
    }
    forall i, j | i in t.jobs && j in t.jobs && i != j && t.jobs[i].status.OwnsRunner() && t.jobs[j].status.OwnsRunner()
      ensures t.jobs[i].runnerName != t.jobs[j].runnerName
    {
      if s.jobs[i].runnerName == s.jobs[j].runnerName {
        if s.jobs[i].status.Waiting() {
          WaitingNameIsUnique(s.jobs, w, i, j);
        } else if s.jobs[j].status.Waiting() {
          WaitingNameIsUnique(s.jobs, w, j, i);
        }
      }
    }
  }

  lemma {:induction false} QuietTransitive(s: State, t: State, u: State)
    requires QuietStep(s, t) && QuietStep(t, u)
    ensures QuietStep(s, u)
  {
  }

  lemma {:induction false} AdmitNextQuiet(s: State, now: int)
    ensures QuietStep(s, AdmitNext(s, now))
  {
  }

  lemma {:induction false} ReleaseAllQuiet(s: State, ids: seq<JobId>, now: int)
    ensures QuietStep(s, ReleaseAll(s, ids, now))
    decreases |ids|
  {
    if ids != [] {
      var t := if ids[0] in s.jobs then ReleaseJob(s, ids[0], s.jobs[ids[0]].slot, Completed, now) else s;
      ReleaseAllQuiet(t, ids[1..], now);
      QuietTransitive(s, t, ReleaseAll(t, ids[1..], now));
    }
  }

  lemma {:induction false} ReleaseHoldsFrame(s: State, rows: seq<SlotIndex>, now: int)
    ensures ReleaseHolds(s, rows, now).jobs == s.jobs
    ensures ReleaseHolds(s, rows, now).runners == s.runners
    decreases |rows|
  {
    if rows != [] {
      ReleaseHoldsFrame(ReleaseHold(s, rows[0], now), rows[1..], now);
    }
  }

  predicate KeepsNames(e: Event) {
    !e.Submit? && !e.RunnerCreated? && !e.AssignmentReported?
  }

  /** Releasing and admitting keep every name. */
  lemma {:induction false} ReleaseAndAdmitQuiet(s: State, id: JobId, slot: Option<SlotIndex>, status: Status, now: int)
    requires id in s.jobs && status.Terminal()
    ensures QuietStep(s, AdmitNext(ReleaseJob(s, id, slot, status, now), now))
  {
    var t := ReleaseJob(s, id, slot, status, now);
    assert QuietStep(s, t);
    AdmitNextQuiet(t, now);
    hide AdmitNext, DueTimes;
    QuietTransitive(s, t, AdmitNext(t, now));
  }

  lemma {:induction false} ConfigurationReadyQuiet(s: State, id: JobId, now: int)
    ensures QuietStep(s, ConfigurationReady(s, id, now))
  {
    if id in s.jobs && s.jobs[id].slot.Some? {
      var i := s.jobs[id].slot.value;
      AdmitNextQuiet(Configured(s, i, id), now);
      hide AdmitNext, DueTimes;
    }
  }

  lemma {:induction false} ProvisioningFailedQuiet(s: State, id: JobId, runnerName: string, now: int)
    ensures QuietStep(s, ProvisioningFailed(s, id, runnerName, now))
  {
    if CanStart(s, id, runnerName) {
      ReleaseAndAdmitQuiet(s, id, s.jobs[id].slot, Failed, now);
    }
    hide AdmitNext, DueTimes;
  }

  lemma {:induction false} JobCompletedQuiet(s: State, id: JobId, now: int)
    ensures QuietStep(s, JobCompleted(s, id, now))
  {
    hide AdmitNext, DueTimes;
    if id in s.jobs {
      var job := s.jobs[id];
      if job.status.Waiting() {
        ReleaseAndAdmitQuiet(s, id, job.slot, Cancelled, now);
      } else if job.status.StoppedAwaitingCompletion? {
        ReleaseAndAdmitQuiet(s, id, job.slot, Completed, now);
      } else {
        hide ReleaseJob;
      }
    }
  }

  lemma {:induction false} ScheduledQuiet(s: State, t: State, now: int)
    requires QuietStep(s, t)
    ensures QuietStep(s, ScheduleAlarm(t, now))
  {
    hide Quiet, DueTimes;
  }

  lemma {:induction false} RunnerStoppedQuiet(s: State, row: Option<JobId>, now: int)
    ensures QuietStep(s, RunnerStopped(s, row, now))
  {
    hide AdmitNext, DueTimes, ReleaseJob;
    if row.Some? && row.value in s.jobs {
      if s.jobs[row.value].status.Releasing? {
        hide QuietStep;
        ReleaseAndAdmitQuiet(s, row.value, s.jobs[row.value].slot, Completed, now);
        ScheduledQuiet(s, AdmitNext(ReleaseJob(s, row.value, s.jobs[row.value].slot, Completed, now), now), now);
      }
    }
  }

  lemma {:induction false} RecoverStoppedQuiet(s: State, row: StoppedRow, answer: CleanupAnswer, now: int)
    requires row.id in s.jobs
    ensures QuietStep(s, RecoverStopped(s, row, answer, now))
  {
    var cleaned := CleanUp(s, row, answer);
    var status := if row.job.status.Releasing? then Completed else Failed;
    ReleaseAndAdmitQuiet(cleaned, row.id, row.job.slot, status, now);
    hide AdmitNext, DueTimes;
    QuietTransitive(s, cleaned, RecoverStopped(s, row, answer, now));
  }

  lemma {:induction false} AlarmFinishedQuiet(s: State, now: int)
    ensures QuietStep(s, ScheduleAlarm(AdmitNext(ReleaseHolds(s, CUSTOM_ROWS, now), now), now))
  {
    ReleaseHoldsFrame(s, CUSTOM_ROWS, now);
    AdmitNextQuiet(ReleaseHolds(s, CUSTOM_ROWS, now), now);
    hide AdmitNext, DueTimes;
  }

  lemma {:induction false} ClaimedQuiet(s: State, id: JobId, runnerName: string)
    ensures QuietStep(s, Claimed(s, id, runnerName))
  {
  }

  lemma {:induction false} RunnerStartedQuiet(s: State, runnerName: string)
    ensures QuietStep(s, RunnerStarted(s, runnerName))
  {
  }

  lemma {:induction false} CleanUpQuiet(s: State, row: StoppedRow, answer: CleanupAnswer)
    ensures QuietStep(s, CleanUp(s, row, answer))
  {
    if row.id in s.jobs {
      CleanedUpQuiet(s.jobs[row.id], row.job.runnerId, answer);
    }
    hide CleanedUp;
  }

  lemma {:induction false} CleanedUpQuiet(job: Job, runnerId: Option<int>, answer: CleanupAnswer)
    ensures var cleaned := CleanedUp(job, runnerId, answer);
      cleaned == job.(cleanup := cleaned.cleanup, cleanupDue := cleaned.cleanupDue)
  {
  }

  lemma {:induction false} SameJobsQuiet(s: State, t: State)
    requires t.jobs == s.jobs && t.runners == s.runners
    ensures QuietStep(s, t)
  {
  }

  lemma {:induction false} PlainStepQuiet(s: State, e: Event, now: int)
    requires Possible(s, e, now) && Plain(e) && !e.RunnerCreated?
    ensures QuietStep(s, Step(s, e, now))
  {
    hide QuietStep, Claimed, RunnerStarted, CleanUp, DueRows, DueTimes, Superseding, UnstalledSlot, StartsUpdate;
    match e
    case Claim(id, runnerName) => ClaimedQuiet(s, id, runnerName);
    case ContainerStarted(runnerName) => RunnerStartedQuiet(s, runnerName);
    case CleanupRetried(row, answer) => CleanUpQuiet(s, row, answer);
    case CapacityReported(_, _) => SameJobsQuiet(s, Step(s, e, now));
    case AlarmFired(_) => SameJobsQuiet(s, Step(s, e, now));
    case UpdatesSelected => SameJobsQuiet(s, Step(s, e, now));
    case UpdateStarted => SameJobsQuiet(s, Step(s, e, now));
    case UpdateDeferred(_, _) => SameJobsQuiet(s, Step(s, e, now));
  }

  lemma {:induction false} MostStepsAreQuiet(s: State, e: Event, now: int)
    requires Possible(s, e, now) && KeepsNames(e)
    ensures QuietStep(s, Step(s, e, now))
  {
    if Plain(e) {
      PlainStepQuiet(s, e, now);
      hide Step;
    } else {
      hide AdmitNext, ConfigurationReady, ProvisioningFailed, JobCompleted, RunnerStopped, RecoverStopped, ReleaseHolds, Restart;
      hide Quiet, ScheduleAlarm;
      match e
      case ConfigurationReported(id) => ConfigurationReadyQuiet(s, id, now);
      case ProvisioningFailure(id, runnerName) => ProvisioningFailedQuiet(s, id, runnerName, now);
      case CompletionReported(id) => JobCompletedQuiet(s, id, now);
      case ContainerStopped(runnerName, row) => RunnerStoppedQuiet(s, row, now);
      case RecoveryFinished(answer) => RecoveryFinishedQuiet(s, e, now);
      case AlarmFinished => AlarmFinishedQuiet(s, now);
      case Restarted(releasing) => RestartQuiet(s, releasing, now);
    }
  }

  lemma {:induction false} RecoveryFinishedQuiet(s: State, e: Event, now: int)
    requires e.RecoveryFinished? && Possible(s, e, now)
    ensures QuietStep(s, Step(s, e, now))
  {
    if s.run.rows[0].id in s.jobs {
      RecoverStoppedQuiet(s, s.run.rows[0], e.answer, now);
    }
    hide RecoverStopped;
  }

  lemma {:induction false} RestartQuiet(s: State, releasing: seq<JobId>, now: int)
    ensures QuietStep(s, Restart(s, releasing, now))
  {
    ReleaseAllQuiet(ReconcileReservations(s), releasing, now);
  }

  // ---------------------------------------------------------------- steps that give names

  lemma {:induction false} NewJobKeepsNames(s: State, id: JobId, job: Job, w: World)
    requires w.Sound() && NamesOk(s.jobs, s.runners, w)
    requires id !in s.jobs && job.attempt == 1 && job.status.Queued? && job.runnerId.None? && job.runnerName == w.Own(id, 1)
    ensures NamesOk(s.jobs[id := job], s.runners, w)
  {
    var jobs := s.jobs[id := job];
    hide World.Own, World.Origin, AttemptOf, RetryName;
    forall name | Spent(s.jobs, w, name)
      ensures Spent(jobs, w, name)
    {
    }
    forall other | other in jobs
      ensures NameExplained(jobs, w, other)
    {
      if other != id {
        assert NameExplained(s.jobs, w, other);
      }
    }
  }

  lemma {:induction false} SubmitKeepsNames(s: State, e: Event, now: int, w: World)
    requires w.Sound() && NamesOk(s.jobs, s.runners, w) && e.Submit? && w.Agrees(e)
    ensures var t := Step(s, e, now); NamesOk(t.jobs, t.runners, w)
  {
    hide AdmitNext, DueTimes, NamesOk, RetryName;
    if e.id !in s.jobs {
      var job := NewJob(e.runnerName, e.repository, e.profile, now);
      NewJobKeepsNames(s, e.id, job, w);
      var t := s.(jobs := s.jobs[e.id := job]);
      AdmitNextQuiet(t, now);
      QuietKeepsNames(t, AdmitNext(t, now), w);
    }
  }

  lemma {:induction false} RunnerCreatedKeepsNames(s: State, e: Event, now: int, w: World)
    requires w.Sound() && NamesOk(s.jobs, s.runners, w) && e.RunnerCreated?
    ensures var t := Step(s, e, now); NamesOk(t.jobs, t.runners, w)
  {
    hide World.Own, World.Origin, AttemptOf, RetryName, AdmitNext, DueTimes;
    var t := Step(s, e, now);
    if t != s {
      assert NameExplained(s.jobs, w, e.id);
      OwnParts(w, e.id, s.jobs[e.id].attempt);
      assert Spent(s.jobs, w, e.runnerName);
      assert Quiet(s.jobs, t.jobs);
      QuietKeepsNames(s, s.(jobs := t.jobs), w);
      assert Spent(t.jobs, w, e.runnerName);
    }
  }

  lemma {:induction false} AdoptionKeepsNames(s: State, claim: RunnerClaim, w: World)
    requires w.Sound() && NamesOk(s.jobs, s.runners, w) && w.reported(claim.runnerName) == claim.id
    requires IsOwner(s.jobs, claim.runnerName, None) && Adopts(s, claim)
    ensures var job := s.jobs[claim.id];
      NamesOk(s.jobs[claim.id := OnRunner(job, claim.runnerName, claim.runnerId, job.slot)], s.runners, w)
  {
    hide World.Own, World.Origin, AttemptOf, RetryName, AdmitNext, DueTimes;
    var jobs := s.jobs[claim.id := OnRunner(s.jobs[claim.id], claim.runnerName, claim.runnerId, s.jobs[claim.id].slot)];
    forall name | Spent(s.jobs, w, name)
      ensures Spent(jobs, w, name)
    {
    }
    forall id | id in jobs
      ensures NameExplained(jobs, w, id)
    {
      assert NameExplained(s.jobs, w, id);
    }
  }

  /** The displaced owner's name was its own, and is spent from now on. */
  lemma {:induction false} OwnerHasOwnName(s: State, claim: RunnerClaim, owner: JobId, w: World)
    requires w.Sound() && NamesOk(s.jobs, s.runners, w) && w.reported(claim.runnerName) == claim.id
    requires IsOwner(s.jobs, claim.runnerName, Some(owner)) && HandsOver(s, claim, owner)
    ensures var from := s.jobs[owner];
      && from.attempt >= 1 && from.runnerName == w.Own(owner, from.attempt)
      && Requeued(from).runnerName == w.Own(owner, from.attempt + 1)
      && w.Origin(from.runnerName) == owner && AttemptOf(from.runnerName) == from.attempt
  {
    hide World.Own, World.Origin, AttemptOf, RetryName;
    assert NameExplained(s.jobs, w, owner);
    OwnParts(w, owner, s.jobs[owner].attempt);
  }

  lemma {:induction false} HandOverKeepsSpent(s: State, claim: RunnerClaim, owner: JobId, w: World, name: string)
    requires HandsOver(s, claim, owner) && !s.jobs[owner].status.Waiting() && Spent(s.jobs, w, name)
    ensures Spent(HandOver(s, claim, owner).jobs, w, name)
  {
    hide World.Own, World.Origin, AttemptOf, RetryName;
  }

  /** The runner's name is the displaced owner's and is spent now. */
  lemma {:induction false} HandedOverNameIsSpent(s: State, claim: RunnerClaim, owner: JobId, w: World)
    requires w.Sound() && NamesOk(s.jobs, s.runners, w) && w.reported(claim.runnerName) == claim.id
    requires IsOwner(s.jobs, claim.runnerName, Some(owner)) && HandsOver(s, claim, owner)
    ensures Spent(HandOver(s, claim, owner).jobs, w, claim.runnerName)
  {
    hide World.Own, World.Origin, AttemptOf, RetryName, NamesOk;
    OwnerHasOwnName(s, claim, owner, w);
  }

  lemma {:induction false} HandOverExplains(s: State, claim: RunnerClaim, owner: JobId, w: World, id: JobId)
    requires w.Sound() && NamesOk(s.jobs, s.runners, w) && w.reported(claim.runnerName) == claim.id
    requires IsOwner(s.jobs, claim.runnerName, Some(owner)) && HandsOver(s, claim, owner) && id in s.jobs
    ensures NameExplained(HandOver(s, claim, owner).jobs, w, id)
  {
    hide World.Own, World.Origin, AttemptOf, RetryName;
    assert NameExplained(s.jobs, w, id);
    OwnerHasOwnName(s, claim, owner, w);
    HandedOverNameIsSpent(s, claim, owner, w);
    hide NamesOk, World.Sound;
    if id != owner && id != claim.id && Spent(s.jobs, w, s.jobs[id].runnerName) {
      HandOverKeepsSpent(s, claim, owner, w, s.jobs[id].runnerName);
    }
    hide Spent;
  }

  lemma {:induction false} HandOverAbandons(s: State, claim: RunnerClaim, owner: JobId, w: World)
    requires w.Sound() && NamesOk(s.jobs, s.runners, w) && w.reported(claim.runnerName) == claim.id
    requires IsOwner(s.jobs, claim.runnerName, Some(owner)) && HandsOver(s, claim, owner)
    ensures AbandonedElsewhere(HandOver(s, claim, owner).jobs, w)
  {
    hide World.Own, World.Origin, AttemptOf, RetryName;
    OwnerHasOwnName(s, claim, owner, w);
    var jobs := HandOver(s, claim, owner).jobs;
    forall id, attempt: nat | id in jobs && 1 <= attempt < jobs[id].attempt
      ensures w.reported(w.Own(id, attempt)) != id
    {
      assert id == owner || jobs[id].attempt == s.jobs[id].attempt;
    }
  }

  lemma {:induction false} HandOverOwnsOnce(s: State, claim: RunnerClaim, owner: JobId)
    requires RunnersOwnedOnce(s.jobs) && IsOwner(s.jobs, claim.runnerName, Some(owner)) && HandsOver(s, claim, owner)
    ensures RunnersOwnedOnce(HandOver(s, claim, owner).jobs)
  {
    var jobs := HandOver(s, claim, owner).jobs;
    hide RetryName;
    forall i, j | i in jobs && j in jobs && i != j && jobs[i].status.OwnsRunner() && jobs[j].status.OwnsRunner()
      ensures jobs[i].runnerName != jobs[j].runnerName
    {
      assert i != owner && j != owner;
    }
  }

  lemma {:induction false} HandOverKeepsRunnersSpent(s: State, claim: RunnerClaim, owner: JobId, w: World)
    requires NamesOk(s.jobs, s.runners, w)
    requires IsOwner(s.jobs, claim.runnerName, Some(owner)) && HandsOver(s, claim, owner)
    ensures forall name :: name in s.runners ==> Spent(HandOver(s, claim, owner).jobs, w, name)
  {
    hide HandOver, Spent, NameExplained, RunnersOwnedOnce, AbandonedElsewhere, HandsOver;
    forall name | name in s.runners
      ensures Spent(HandOver(s, claim, owner).jobs, w, name)
    {
      HandOverKeepsSpent(s, claim, owner, w, name);
    }
  }

  lemma {:induction false} HandOverExplainsAll(s: State, claim: RunnerClaim, owner: JobId, w: World)
    requires w.Sound() && NamesOk(s.jobs, s.runners, w) && w.reported(claim.runnerName) == claim.id
    requires IsOwner(s.jobs, claim.runnerName, Some(owner)) && HandsOver(s, claim, owner)
    ensures forall id :: id in HandOver(s, claim, owner).jobs ==> NameExplained(HandOver(s, claim, owner).jobs, w, id)
  {
    hide HandOver, NameExplained, NamesOk, HandsOver, World.Sound, IsOwner;
    HandOverKeepsKeys(s, claim, owner);
    forall id | id in HandOver(s, claim, owner).jobs
      ensures NameExplained(HandOver(s, claim, owner).jobs, w, id)
    {
      HandOverExplains(s, claim, owner, w, id);
    }
  }

  lemma {:induction false} HandOverKeepsNames(s: State, claim: RunnerClaim, owner: JobId, w: World)
    requires w.Sound() && NamesOk(s.jobs, s.runners, w) && w.reported(claim.runnerName) == claim.id
    requires IsOwner(s.jobs, claim.runnerName, Some(owner)) && HandsOver(s, claim, owner)
    ensures NamesOk(HandOver(s, claim, owner).jobs, s.runners, w)
  {
    hide HandOver, Spent, NameExplained, RunnersOwnedOnce, AbandonedElsewhere, World.Sound, IsOwner, HandsOver;
    HandOverOwnsOnce(s, claim, owner);
    HandOverAbandons(s, claim, owner, w);
    HandOverKeepsRunnersSpent(s, claim, owner, w);
    HandOverExplainsAll(s, claim, owner, w);
  }

  lemma {:induction false} HandOverKeepsKeys(s: State, claim: RunnerClaim, owner: JobId)
    requires HandsOver(s, claim, owner)
    ensures HandOver(s, claim, owner).jobs.Keys == s.jobs.Keys
  {
  }

  lemma {:induction false} RecordingKeepsNames(s: State, claim: RunnerClaim, w: World)
    requires NamesOk(s.jobs, s.runners, w)
    ensures var r := RecordAssignment(s, claim); r.jobs == s.jobs && NamesOk(r.jobs, r.runners, w)
  {
    hide Spent, NameExplained, RunnersOwnedOnce, AbandonedElsewhere;
  }

  lemma {:induction false} ConfirmationKeepsNames(s: State, id: JobId, w: World)
    requires w.Sound() && NamesOk(s.jobs, s.runners, w) && id in s.jobs
    ensures NamesOk(s.jobs[id := s.jobs[id].(assignmentObserved := true)], s.runners, w)
  {
    hide NamesOk;
    QuietKeepsNames(s, s.(jobs := s.jobs[id := s.jobs[id].(assignmentObserved := true)]), w);
  }

  lemma {:induction false} AdmissionKeepsNames(s: State, now: int, w: World)
    requires w.Sound() && NamesOk(s.jobs, s.runners, w)
    ensures var t := AdmitNext(s, now); NamesOk(t.jobs, t.runners, w)
  {
    AdmitNextQuiet(s, now);
    QuietKeepsNames(s, AdmitNext(s, now), w);
  }

  lemma {:induction false} AssignmentKeepsNames(s: State, e: Event, now: int, w: World)
    requires w.Sound() && NamesOk(s.jobs, s.runners, w)
    requires e.AssignmentReported? && Possible(s, e, now) && w.Agrees(e)
    ensures var t := JobStarted(s, e.claim, e.owner, now); NamesOk(t.jobs, t.runners, w)
  {
    hide World.Own, World.Origin, AttemptOf, AdmitNext, DueTimes, NamesOk, HandOver, OnRunner;
    var claim, r := e.claim, RecordAssignment(s, e.claim);
    RecordingKeepsNames(s, claim, w);
    if e.owner.None? {
      if Adopts(s, claim) {
        AdoptionKeepsNames(r, claim, w);
      }
    } else if HandsOver(s, claim, e.owner.value) {
      HandOverKeepsNames(r, claim, e.owner.value, w);
      HandOverKeepsRunners(r, claim, e.owner.value);
      AdmissionKeepsNames(HandOver(r, claim, e.owner.value), now, w);
    } else if claim.id in s.jobs {
      ConfirmationKeepsNames(r, claim.id, w);
    }
  }

  lemma {:induction false} HandOverKeepsRunners(s: State, claim: RunnerClaim, owner: JobId)
    requires HandsOver(s, claim, owner)
    ensures HandOver(s, claim, owner).runners == s.runners
  {
  }

  lemma {:induction false} StepKeepsNames(s: State, e: Event, now: int, w: World)
    requires w.Sound() && NamesOk(s.jobs, s.runners, w) && Possible(s, e, now) && w.Agrees(e)
    ensures var t := Step(s, e, now); NamesOk(t.jobs, t.runners, w)
  {
    if e.Submit? {
      SubmitKeepsNames(s, e, now, w);
    } else if e.RunnerCreated? {
      RunnerCreatedKeepsNames(s, e, now, w);
    } else if e.AssignmentReported? {
      AssignmentKeepsNames(s, e, now, w);
      hide JobStarted, NamesOk;
    } else {
      MostStepsAreQuiet(s, e, now);
      QuietKeepsNames(s, Step(s, e, now), w);
    }
  }
}
