/**
 * The image builder object: the stored record and the Container, changed in place by each stretch of each call. A
 * stretch ends where the call returns or starts to wait; the next one gets the record that the call read before.
 */
module ImageBuilder {
  import opened ImageBuilderModel
  import opened Wrappers

  datatype StartAnswer = Owner | NotOwner | Claims | Waits

  datatype StatusAnswer =
    | Running
    | Completed(result: BuildResult)
    | FailedWith(exitCode: int)
    | Polls(seen: Build)
    | Finalizes(seen: Build)
    | Reconciles(seen: Build)
    | Releases(seen: Build)
  {
    predicate Waits() {
      Polls? || Finalizes? || Reconciles? || Releases?
    }
  }

  datatype Lease = Lease(acquired: bool, reissueMatchingImageRollouts: bool)

  /** A build or a rollout holds the slot under a lease that has not expired. */
  predicate IsTaken(stored: Option<Build>, now: int) {
    stored.Some? && (stored.value.Active? || stored.value.RollingOut?) && stored.value.leaseExpiresAt > now
  }

  class RunnerImageBuilder {
    var stored: Option<Build>
    var running: bool
    ghost var processes: set<Process>
    ghost var starting: map<nat, Start>
    ghost var claims: nat
    ghost var latest: map<WorkflowId, nat>

    /** Without the suspended calls: the runtime keeps those, not the object. */
    ghost function Snapshot(): State
      reads this
    {
      State(stored, if running then Some(processes) else None, starting, multiset{}, claims, latest)
    }

    constructor ()
      ensures Snapshot() == Initial()
    {
      stored, running := None, false;
      processes, starting, claims, latest := {}, map[], 0, map[];
    }

    method Claim(workflow: WorkflowId, now: int)
      modifies this`stored, this`claims, this`starting, this`latest
      ensures Snapshot() == Claimed(old(Snapshot()), workflow, now)
    {
      var lease := now + RUNNER_IMAGE_BUILD_LEASE_MS;
      stored := Some(Active(workflow, lease, None));
      claims := claims + 1;
      starting, latest := starting[claims := Start(workflow, Staging)], latest[workflow := claims];
    }

    /**
     * The stretch of `startBuild` in which nothing else is in its way: it claims the slot, or waits for the previous
     * Container to go.
     */
    method Proceed(workflow: WorkflowId, ghost existing: Option<Build>, now: int)
      returns (answer: StartAnswer, ghost waits: Option<Call>)
      modifies this
      ensures Turn(Snapshot(), waits) == Proceeded(old(Snapshot()), workflow, existing, now)
      ensures answer == if old(running) then Waits else Claims
    {
      if running {
        return Waits, Some(Clearing(workflow, existing));
      }
      Claim(workflow, now);
      return Claims, None;
    }

    /** `startBuild` up to its claim or its first wait. */
    method StartBuild(workflow: WorkflowId, now: int) returns (answer: StartAnswer, ghost waits: Option<Call>)
      modifies this
      ensures Turn(Snapshot(), waits) == BuildStarted(old(Snapshot()), workflow, now)
      ensures answer.Owner? <==> IsTaken(old(stored), now) && old(stored).value.workflowId == workflow
      ensures answer.NotOwner? <==> IsTaken(old(stored), now) && old(stored).value.workflowId != workflow
      ensures answer.Owner? || answer.NotOwner? ==> Snapshot() == old(Snapshot())
      ensures answer.Claims? <==> claims == old(claims) + 1
      ensures answer.Claims? ==> !running && stored == Some(Active(workflow, now + RUNNER_IMAGE_BUILD_LEASE_MS, None))
      ensures answer.Waits? <==> waits.Some?
    {
      if stored.Some? && stored.value.Active? {
        if stored.value.leaseExpiresAt > now {
          return if stored.value.workflowId == workflow then Owner else NotOwner, None;
        }
        return Waits, Some(Releasing(stored.value, ForStart(workflow)));
      }
      if stored.Some? && stored.value.RollingOut? {
        if stored.value.leaseExpiresAt > now {
          return if stored.value.workflowId == workflow then Owner else NotOwner, None;
        }
        return Waits, Some(Reconciling(stored.value, claims, Some(workflow)));
      }
      answer, waits := Proceed(workflow, stored, now);
    }

    /** `startBuild` once the previous Container is gone, or could not be destroyed. */
    method FinishClear(workflow: WorkflowId, ghost existing: Option<Build>, destroyed: bool, now: int)
      modifies this
      ensures Done(Snapshot()) == Cleared(old(Snapshot()), Clearing(workflow, existing), destroyed, now)
    {
      if destroyed {
        running := false;
        Claim(workflow, now);
      }
    }

    method StartContainer(ghost claim: nat)
      requires claim in starting
      modifies this`running, this`processes, this`starting
      ensures running && starting == old(starting)[claim := old(starting)[claim].(stage := Hosted)]
      ensures processes == if old(running) then old(processes) else {}
    {
      if !running {
        running, processes := true, {};
      }
      starting := starting[claim := starting[claim].(stage := Hosted)];
    }

    method FailStart(ghost claim: nat, workflow: WorkflowId) returns (releases: bool, ghost waits: Option<Call>)
      requires claim in starting && starting[claim].workflowId == workflow
      modifies this`starting
      ensures Turn(Snapshot(), waits) == StartFailed(old(Snapshot()), claim)
      ensures releases <==> waits.Some?
    {
      starting := starting - {claim};
      releases := OwnsSlot(stored, workflow);
      waits := if releases then Some(Releasing(stored.value, ForFailure)) else None;
    }

    /** The end of `releaseBuild`, and what its caller does with the answer before it returns or waits again. */
    method FinishRelease(seen: Build, purpose: Purpose, destroyed: bool) returns (ghost waits: Option<Call>)
      modifies this`stored, this`running
      ensures Turn(Snapshot(), waits) == Released(old(Snapshot()), Releasing(seen, purpose), destroyed)
    {
      waits := None;
      if destroyed {
        running := false;
        stored := None;
        waits := if purpose.ForStart? then Some(Deleting(purpose.workflow, seen)) else None;
      } else if purpose.ForFailure? && OwnsSlot(stored, seen.workflowId) {
        stored := Some(stored.value.(terminal := Some(Broken(1))));
      }
    }

    /** `buildStatus` up to the first call it waits for. */
    method BuildStatus(now: int) returns (answer: StatusAnswer, ghost waits: Option<Call>)
      ensures Turn(Snapshot(), waits) == StatusRead(Snapshot(), now)
      ensures answer.Completed? <==> stored.Some? && stored.value.Complete?
      ensures answer.Completed? ==> answer.result == stored.value.output.result
      ensures answer.FailedWith? <==> stored.None? || stored.value.Failed?
      ensures answer.FailedWith? ==> answer.exitCode == if stored.None? then 1 else stored.value.exitCode
      ensures answer.Running? <==> stored.Some? && stored.value.RollingOut? && IsTaken(stored, now)
      ensures answer.Reconciles? <==> stored.Some? && stored.value.RollingOut? && !IsTaken(stored, now)
      ensures answer.Finalizes? <==> stored.Some? && stored.value.Active? && stored.value.terminal.Some?
      ensures answer.Polls? || answer.Releases? <==> stored.Some? && stored.value.Active? && stored.value.terminal.None?
      ensures answer.Polls? ==> IsTaken(stored, now)
      ensures answer.Releases? ==> !IsTaken(stored, now)
      ensures answer.Waits() <==> waits.Some?
      ensures answer.Waits() ==> stored == Some(answer.seen)
    {
      if stored.None? {
        return FailedWith(1), None;
      }
      match stored.value {
        case Complete(_, output) =>
          return Completed(output.result), None;
        case RollingOut(_, _, leaseExpiresAt, _) =>
          if leaseExpiresAt > now {
            return Running, None;
          }
          return Reconciles(stored.value), Some(Reconciling(stored.value, claims, None));
        case Failed(_, exitCode) =>
          return FailedWith(exitCode), None;
        case Active(_, leaseExpiresAt, terminal) =>
          if terminal.Some? {
            return Finalizes(stored.value), Some(Finalizing(stored.value, claims));
          }
          if leaseExpiresAt <= now {
            return Releases(stored.value), Some(Releasing(stored.value, ForStatus));
          }
          return Polls(stored.value), Some(Polling(stored.value, claims));
      }
    }

    /** The rest of `buildStatus` once the Container has been asked: a result is stored before anything is cleaned up. */
    method FinishPoll(seen: Build, ghost claim: nat, poll: PollAnswer)
      returns (answer: StatusAnswer, ghost waits: Option<Call>)
      requires seen.Active?
      modifies this`stored
      ensures Turn(Snapshot(), waits) == PollAnswered(old(Snapshot()), Polling(seen, claim), poll)
      ensures poll.StillRunning? ==> answer == Running && stored == old(stored)
      ensures poll.Exited? ==> answer.Finalizes? && stored == Some(answer.seen) && answer.seen.workflowId == seen.workflowId
    {
      if poll.StillRunning? {
        return Running, None;
      }
      var pending := seen.(terminal := Some(TerminalFor(poll)));
      stored := Some(pending);
      return Finalizes(pending), Some(Finalizing(pending, claims));
    }

    method FinalizeTerminalBuild(seen: Build, ghost claim: nat, destroyed: bool) returns (answer: StatusAnswer)
      requires seen.Active? && seen.terminal.Some?
      modifies this`stored, this`running
      ensures Done(Snapshot()) == Finalized(old(Snapshot()), Finalizing(seen, claim), destroyed)
      ensures answer == match seen.terminal.value
        case Succeeded(output) => Completed(output.result)
        case Broken(exitCode) => FailedWith(exitCode)
    {
      if destroyed {
        running := false;
      }
      match seen.terminal.value {
        case Succeeded(output) =>
          stored := Some(Complete(seen.workflowId, output));
          return Completed(output.result);
        case Broken(exitCode) =>
          stored := Some(Failed(seen.workflowId, exitCode));
          return FailedWith(exitCode);
      }
    }

    /** `reconcileExpiredRollOut`, called by `buildStatus` or by the `startBuild` of a workflow. */
    method ReconcileExpiredRollOut(seen: Build, ghost claim: nat, start: Option<WorkflowId>, active: bool, now: int)
      returns (ghost waits: Option<Call>)
      requires seen.RollingOut?
      modifies this
      ensures Turn(Snapshot(), waits) == ReconcileAnswered(old(Snapshot()), Reconciling(seen, claim, start), active, now)
    {
      waits := None;
      if active {
        var lease := now + RUNNER_IMAGE_ROLLOUT_LEASE_MS;
        stored := Some(RollingOut(seen.workflowId, seen.output, lease, seen.attemptInFlight));
        return;
      }
      stored := Some(Complete(seen.workflowId, seen.output));
      if start.Some? {
        var _, next := Proceed(start.value, stored, now);
        waits := next;
      }
    }

    /** A lease asks for a repeated rollout only when an earlier attempt may have been cut off. */
    method BeginRollOut(workflow: WorkflowId, image: string, now: int) returns (lease: Lease)
      modifies this`stored
      ensures Snapshot() == RollOutBegun(old(Snapshot()), workflow, image, now)
      ensures lease.acquired <==> Grants(old(Snapshot()), workflow, image)
      ensures lease.reissueMatchingImageRollouts <==>
        old(stored).Some? && old(stored).value.RollsOut(workflow, image) && old(stored).value.attemptInFlight
    {
      if stored.Some? && stored.value.RollsOut(workflow, image) {
        var reissue := stored.value.attemptInFlight;
        stored := Some(stored.value.(leaseExpiresAt := now + RUNNER_IMAGE_ROLLOUT_LEASE_MS, attemptInFlight := true));
        return Lease(true, reissue);
      }
      if stored.None? || !stored.value.Complete? || stored.value.workflowId != workflow
        || stored.value.output.result.imageReference != image {
        return Lease(false, false);
      }
      stored := Some(RollingOut(workflow, stored.value.output, now + RUNNER_IMAGE_ROLLOUT_LEASE_MS, true));
      return Lease(true, false);
    }

    method CompleteRollOutAttempt(workflow: WorkflowId, image: string)
      modifies this`stored
      ensures Snapshot() == AttemptCompleted(old(Snapshot()), workflow, image)
    {
      if stored.Some? && stored.value.RollsOut(workflow, image) {
        stored := Some(stored.value.(attemptInFlight := false));
      }
    }

    method FinishRollOut(workflow: WorkflowId, image: string)
      modifies this`stored
      ensures Snapshot() == RollOutFinished(old(Snapshot()), workflow, image)
    {
      if stored.Some? && stored.value.RollsOut(workflow, image) {
        stored := Some(Complete(workflow, stored.value.output));
      }
    }

    /** Anyone but the workflow that holds the slot is ignored, and so is a rollout, which ends in other ways. */
    method AbortBuild(workflow: WorkflowId) returns (releases: bool, ghost waits: Option<Call>)
      ensures Turn(Snapshot(), waits) == BuildAborted(Snapshot(), workflow)
      ensures releases <==> waits.Some?
    {
      releases := OwnsSlot(stored, workflow);
      waits := if releases then Some(Releasing(stored.value, ForAbort)) else None;
    }
  }
}
