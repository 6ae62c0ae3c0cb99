/**
 * The Workflow that drives the builder: a few rounds of claiming the slot and polling until the build in it ends, then
 * rollout attempts until no application is left behind. What its steps answer is given.
 */
module ImageBuildWorkflow {
  import opened ImageBuilderModel

  const MAXIMUM_BUILD_STATUS_CHECKS: nat := 174
  const MAXIMUM_BUILD_QUEUE_ROUNDS: nat := 3
  const MAXIMUM_ROLLOUT_ATTEMPTS: nat := 72

  /** What a step returns once its retries are over. A step that fails for good makes the run throw. */
  datatype Claim = Owner | Joined | ClaimThrew

  datatype Status = Running | Completed(result: BuildResult) | Failed(exitCode: int) | CheckThrew

  /** `skipped`: how many applications a rollout pass left behind. */
  datatype Pass = Passed(skipped: nat) | LeaseDenied | PassThrew

  /** Rounds, checks and passes are numbered from zero; `recorded`: the final progress call did not throw. */
  datatype Answers = Answers(claim: nat -> Claim, status: (nat, nat) -> Status, pass: nat -> Pass, recorded: bool)
  {
    predicate QuietUntil(round: nat, check: nat) {
      forall k: nat :: k < check ==> status(round, k).Running?
    }

    predicate AnswersAt(round: nat, check: nat) {
      check < MAXIMUM_BUILD_STATUS_CHECKS && !status(round, check).Running? && QuietUntil(round, check)
    }

    /** The build polled in a round ends with its `check`-th answer. */
    predicate EndsAt(round: nat, check: nat) {
      AnswersAt(round, check) && !status(round, check).CheckThrew?
    }

    /** The round waited for another workflow's build. */
    predicate Queued(round: nat) {
      claim(round).Joined? && exists check: nat :: check < MAXIMUM_BUILD_STATUS_CHECKS && EndsAt(round, check)
    }

    predicate QueuedBefore(round: nat) {
      forall r: nat :: r < round ==> Queued(r)
    }

    /** The first round whose claim was granted, and the answer that ended its build. */
    predicate Owns(round: nat, check: nat) {
      round < MAXIMUM_BUILD_QUEUE_ROUNDS && claim(round).Owner? && QueuedBefore(round) && EndsAt(round, check)
    }

    predicate Builds(round: nat, check: nat, result: BuildResult) {
      Owns(round, check) && status(round, check) == Completed(result)
    }

    predicate TimesOut(round: nat) {
      && round < MAXIMUM_BUILD_QUEUE_ROUNDS && QueuedBefore(round)
      && !claim(round).ClaimThrew? && QuietUntil(round, MAXIMUM_BUILD_STATUS_CHECKS)
    }

    /** A step of the round throws. */
    predicate BreaksOff(round: nat) {
      && round < MAXIMUM_BUILD_QUEUE_ROUNDS && QueuedBefore(round)
      && (claim(round).ClaimThrew?
          || exists check: nat ::
               check < MAXIMUM_BUILD_STATUS_CHECKS && AnswersAt(round, check) && status(round, check).CheckThrew?)
    }

    predicate PassesBefore(attempt: nat) {
      forall a: nat :: a < attempt ==> pass(a).Passed? && pass(a).skipped > 0
    }

    /** A rollout pass that leaves no application behind, after passes that all held the lease. */
    predicate Delivers(attempt: nat) {
      attempt < MAXIMUM_ROLLOUT_ATTEMPTS && PassesBefore(attempt) && pass(attempt) == Passed(0)
    }

    predicate StopsAt(attempt: nat) {
      attempt < MAXIMUM_ROLLOUT_ATTEMPTS && PassesBefore(attempt) && !pass(attempt).Passed?
    }
  }

  datatype Polled = Ended(check: nat) | Unfinished

  datatype Built =
    | Own(round: nat, check: nat)
    | Unsuccessful(round: nat, check: nat)
    | TimedOut(round: nat)
    | QueueFull
    | BrokenOff(round: nat)

  datatype RolledOut = Deployed(attempt: nat) | Stopped(attempt: nat) | NeverIdle

  method Poll(answers: Answers, round: nat) returns (polled: Polled)
    ensures polled.Ended? ==> answers.AnswersAt(round, polled.check)
    ensures polled.Unfinished? ==> answers.QuietUntil(round, 174)
  {
    for check := 0 to MAXIMUM_BUILD_STATUS_CHECKS
      invariant answers.QuietUntil(round, check)
    {
      if !answers.status(round, check).Running? {
        return Ended(check);
      }
    }
    return Unfinished;
  }

  method Build(answers: Answers) returns (built: Built)
    ensures built.Own? ==> answers.Owns(built.round, built.check) && answers.status(built.round, built.check).Completed?
    ensures built.Unsuccessful? ==> answers.Owns(built.round, built.check) && answers.status(built.round, built.check).Failed?
    ensures built.TimedOut? ==> answers.TimesOut(built.round)
    ensures built.QueueFull? ==> answers.QueuedBefore(3)
    ensures built.BrokenOff? ==> answers.BreaksOff(built.round)
  {
    for round := 0 to MAXIMUM_BUILD_QUEUE_ROUNDS
      invariant answers.QueuedBefore(round)
    {
      if answers.claim(round).ClaimThrew? {
        return BrokenOff(round);
      }
      var ownsBuild := answers.claim(round).Owner?;
      var polled := Poll(answers, round);
      if polled.Unfinished? {
        return TimedOut(round);
      }
      if answers.status(round, polled.check).CheckThrew? {
        return BrokenOff(round);
      }
      if ownsBuild {
        var completed := answers.status(round, polled.check).Completed?;
        return if completed then Own(round, polled.check) else Unsuccessful(round, polled.check);
      }
      assert answers.EndsAt(round, polled.check) && answers.Queued(round);
    }
    return QueueFull;
  }

  method RollOut(answers: Answers) returns (rolledOut: RolledOut)
    ensures rolledOut.Deployed? ==> answers.Delivers(rolledOut.attempt)
    ensures rolledOut.Stopped? ==> answers.StopsAt(rolledOut.attempt)
    ensures rolledOut.NeverIdle? ==> answers.PassesBefore(72)
  {
    for attempt := 0 to MAXIMUM_ROLLOUT_ATTEMPTS
      invariant answers.PassesBefore(attempt)
    {
      if !answers.pass(attempt).Passed? {
        return Stopped(attempt);
      }
      if answers.pass(attempt).skipped == 0 {
        return Deployed(attempt);
      }
    }
    return NeverIdle;
  }

  lemma {:induction false} EndIsUnique(answers: Answers, round: nat, a: nat, b: nat)
    requires answers.EndsAt(round, a) && answers.EndsAt(round, b)
    ensures a == b
  {
    AnswerIsFirst(answers, round, a);
  }

  /** Only the first answer of a round can end its build. */
  lemma {:induction false} AnswerIsFirst(answers: Answers, round: nat, first: nat)
    requires answers.AnswersAt(round, first)
    ensures forall check: nat :: answers.AnswersAt(round, check) ==> check == first
  {
    forall check: nat | answers.AnswersAt(round, check)
      ensures check == first
    {
      assert check < first ==> answers.status(round, check).Running?;
      assert first < check ==> answers.status(round, first).Running?;
    }
  }

  /** A workflow rolls out at most one image, and it is the one the first build it owned ended with. */
  lemma {:induction false} OwnBuildIsUnique(
      answers: Answers, r: nat, check: nat, result: BuildResult, round: nat, other: nat, otherResult: BuildResult)
    requires answers.Builds(r, check, result) && answers.Builds(round, other, otherResult)
    ensures r == round && check == other && result == otherResult
  {
    assert r < round ==> answers.Queued(r);
    assert round < r ==> answers.Queued(round);
    assert r == round;
    EndIsUnique(answers, r, check, other);
  }

  /** The whole run: the image that is deployed everywhere, if the run succeeds. */
  method Run(answers: Answers) returns (succeeded: bool, deployed: BuildResult)
    ensures succeeded ==> answers.recorded
    ensures succeeded ==> exists round, check, attempt :: answers.Builds(round, check, deployed) && answers.Delivers(attempt)
    ensures !succeeded && answers.recorded ==>
      forall round, check, result, attempt :: !(answers.Builds(round, check, result) && answers.Delivers(attempt))
  {
    var built := Build(answers);
    deployed := BuildResult("", "", false);
    if !built.Own? {
      NothingBuilt(answers, built);
      return false, deployed;
    }
    deployed := answers.status(built.round, built.check).result;
    var rolledOut := RollOut(answers);
    if !rolledOut.Deployed? {
      NothingDeployed(answers, rolledOut);
      return false, deployed;
    }
    assert answers.Builds(built.round, built.check, deployed) && answers.Delivers(rolledOut.attempt);
    succeeded := answers.recorded;
  }

  lemma {:induction false} NothingBuilt(answers: Answers, built: Built)
    requires !built.Own?
    requires built.Unsuccessful? ==> answers.Owns(built.round, built.check) && answers.status(built.round, built.check).Failed?
    requires built.TimedOut? ==> answers.TimesOut(built.round)
    requires built.QueueFull? ==> answers.QueuedBefore(MAXIMUM_BUILD_QUEUE_ROUNDS)
    requires built.BrokenOff? ==> answers.BreaksOff(built.round)
    ensures forall round, check, result :: !answers.Builds(round, check, result)
  {
    forall round: nat, check: nat, result
      ensures !answers.Builds(round, check, result)
    {
      match built
      case QueueFull =>
        assert round < MAXIMUM_BUILD_QUEUE_ROUNDS ==> answers.Queued(round);
      case Unsuccessful(r, c) =>
        assert round < r ==> answers.Queued(round);
        assert r < round && answers.QueuedBefore(round) ==> answers.Queued(r);
        if answers.EndsAt(r, check) {
          EndIsUnique(answers, r, check, c);
        }
      case TimedOut(r) =>
        assert round < r ==> answers.Queued(round);
        assert r < round && answers.QueuedBefore(round) ==> answers.Queued(r);
        assert forall k: nat :: k < MAXIMUM_BUILD_STATUS_CHECKS ==> answers.status(r, k).Running?;
      case BrokenOff(r) =>
        assert round < r ==> answers.Queued(round);
        assert r < round && answers.QueuedBefore(round) ==> answers.Queued(r);
        if !answers.claim(r).ClaimThrew? {
          var c :| answers.AnswersAt(r, c) && answers.status(r, c).CheckThrew?;
          AnswerIsFirst(answers, r, c);
        }
    }
  }

  lemma {:induction false} NothingDeployed(answers: Answers, rolledOut: RolledOut)
    requires !rolledOut.Deployed?
    requires rolledOut.Stopped? ==> answers.StopsAt(rolledOut.attempt)
    requires rolledOut.NeverIdle? ==> answers.PassesBefore(MAXIMUM_ROLLOUT_ATTEMPTS)
    ensures forall attempt :: !answers.Delivers(attempt)
  {
    forall attempt: nat
      ensures !answers.Delivers(attempt)
    {
      match rolledOut
      case NeverIdle =>
      case Stopped(lost) =>
        assert lost < attempt && answers.PassesBefore(attempt) ==> answers.pass(lost).Passed?;
    }
  }
}
