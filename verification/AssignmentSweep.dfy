/**
 * The resumable search for the job that runs on a runner: candidate jobs are probed in descending order of their
 * identifiers, a page at a time, until a deadline cuts the sweep. The cursor says where the next sweep goes on.
 */
module AssignmentSweep {
  import opened Decimal
  import opened Wrappers

  type JobId = nat

  const PAGE: nat := 8

  predicate Descending(ids: seq<JobId>) {
    forall i, j :: 0 <= i < j < |ids| ==> ids[i] > ids[j]
  }

  /** `ids` sorted in descending order, cut to those below `cursor`, at most one more than a page. */
  function Candidates(ids: seq<JobId>, cursor: nat): (page: seq<JobId>)
    requires Descending(ids)
    ensures Descending(page) && |page| <= PAGE + 1
    ensures forall id :: id in page ==> id in ids && id < cursor
    ensures forall id :: id in ids && id < cursor && id !in page ==> |page| == PAGE + 1 && id < page[PAGE]
  {
    if ids == [] then
      []
    else if ids[0] >= cursor then
      assert ids == [ids[0]] + ids[1..];
      Candidates(ids[1..], cursor)
    else if |ids| <= PAGE + 1 then
      ids
    else
      ids[..PAGE + 1]
  }

  /**
   * How far a cycle has got: what has been probed in it was probed once and lies at or above the cursor, and nothing
   * that was eligible all along was passed over.
   */
  ghost predicate Progress(cycle: seq<JobId>, cursor: nat, steady: set<JobId>) {
    && Descending(cycle)
    && (forall id :: id in cycle ==> cursor <= id)
    && (forall id :: id in steady && cursor <= id ==> id in cycle)
  }

  ghost predicate ProbedOnce(cycle: seq<JobId>, id: JobId) {
    exists i :: 0 <= i < |cycle| && cycle[i] == id && forall j :: 0 <= j < |cycle| && cycle[j] == id ==> j == i
  }

  lemma {:induction false} OccursOnce(cycle: seq<JobId>, id: JobId)
    requires Descending(cycle) && id in cycle
    ensures ProbedOnce(cycle, id)
  {
    var i :| 0 <= i < |cycle| && cycle[i] == id;
    assert forall j :: 0 <= j < |cycle| && j != i ==> cycle[j] != id;
  }

  /** The progress a probe makes when the candidates between it and the cursor are only those already probed. */
  lemma {:induction false} ProbeAdvances(cycle: seq<JobId>, cursor: nat, steady: set<JobId>, id: JobId)
    requires Progress(cycle, cursor, steady) && id < cursor
    requires forall other :: other in steady ==> other <= id || cursor <= other
    ensures Progress(cycle + [id], id, steady)
  {
    assert forall i :: 0 <= i < |cycle| ==> cycle[i] in cycle;
  }

  lemma {:induction false} ProgressIsDescending(cycle: seq<JobId>, cursor: nat, steady: set<JobId>)
    requires Progress(cycle, cursor, steady)
    ensures Descending(cycle)
  {
  }

  /** Nothing is left below the cursor: the cycle is complete. */
  lemma {:induction false} CycleIsComplete(cycle: seq<JobId>, cursor: nat, steady: set<JobId>)
    requires Progress(cycle, cursor, steady)
    requires forall id :: id in steady ==> cursor <= id
    ensures forall id :: id in steady ==> ProbedOnce(cycle, id)
  {
    forall id | id in steady
      ensures ProbedOnce(cycle, id)
    {
      OccursOnce(cycle, id);
    }
  }

  /** A new cycle has passed nothing over. */
  lemma {:induction false} NewCycle(steady: set<JobId>, answers: Answers)
    requires Steady(steady, answers)
    ensures Progress([], MAX_SAFE_INTEGER, steady)
  {
  }

  /** Where the cursor stands once the first `k` candidates of a page have been probed. */
  function After(page: seq<JobId>, cursor: nat, k: nat): nat
    requires k <= |page|
  {
    if k == 0 then cursor else page[k - 1]
  }

  /** Between the cursor and the next candidate there is no steady job. */
  lemma {:induction false} NextCandidate(ids: seq<JobId>, cursor: nat, k: nat, steady: set<JobId>)
    requires Descending(ids) && k < |Candidates(ids, cursor)|
    requires forall id :: id in steady ==> id in ids
    ensures var page := Candidates(ids, cursor);
      page[k] < After(page, cursor, k) && forall id :: id in steady ==> id <= page[k] || After(page, cursor, k) <= id
  {
    var page := Candidates(ids, cursor);
    assert page[k] in page && (k > 0 ==> page[k - 1] in page);
    forall id | id in steady
      ensures id <= page[k] || After(page, cursor, k) <= id
    {
      if id in page {
        var i :| 0 <= i < |page| && page[i] == id;
        assert i == k || i == k - 1 || i < k - 1 || k < i;
      } else if id < cursor {
        assert id < page[PAGE] <= page[k];
      }
    }
  }

  /** A page without a lookahead row is the last one. */
  lemma {:induction false} LastPage(ids: seq<JobId>, cursor: nat, steady: set<JobId>)
    requires Descending(ids) && |Candidates(ids, cursor)| <= PAGE
    requires forall id :: id in steady ==> id in ids
    ensures var page := Candidates(ids, cursor); forall id :: id in steady ==> After(page, cursor, |page|) <= id
  {
    var page := Candidates(ids, cursor);
    forall id | id in steady
      ensures After(page, cursor, |page|) <= id
    {
      if id in page {
        var i :| 0 <= i < |page| && page[i] == id;
        assert i == |page| - 1 || page[i] > page[|page| - 1];
      } else {
        assert cursor <= id;
        assert page == [] || page[|page| - 1] in page;
      }
    }
  }

  datatype Outcome = Found(job: JobId) | OutOfTime | CycleDone

  /** What the outside world answers: the n-th page query, the n-th look at the clock, the n-th probe. */
  datatype Answers = Answers(eligible: nat -> seq<JobId>, late: nat -> bool, assigns: nat -> bool)

  ghost predicate Steady(steady: set<JobId>, answers: Answers) {
    && (forall n: nat :: Descending(answers.eligible(n)))
    && (forall n: nat, id :: id in steady ==> id in answers.eligible(n))
    && (forall id :: id in steady ==> id < MAX_SAFE_INTEGER)
  }

  datatype Attempt = Attempt(cursor: nat, cycle: seq<JobId>)

  /** What one sweep may do to the cursor, given the jobs that are eligible all along. */
  ghost predicate Swept(before: Attempt, probes: seq<JobId>, outcome: Outcome, after: Attempt, steady: set<JobId>) {
    && Progress(after.cycle, after.cursor, steady)
    && Descending(before.cycle + probes) && (forall id :: id in probes ==> id < before.cursor)
    && (outcome == CycleDone ==> forall id :: id in steady ==> ProbedOnce(before.cycle + probes, id))
    && (outcome != OutOfTime ==> after == Attempt(MAX_SAFE_INTEGER, []))
    && (outcome == OutOfTime ==> after.cycle == before.cycle + probes && after.cursor <= before.cursor)
    && (outcome == OutOfTime && probes != [] ==> after.cursor == probes[|probes| - 1] < before.cursor)
    && (outcome.Found? ==> probes != [] && outcome.job == probes[|probes| - 1])
  }

  ghost predicate OnTime(answers: Answers, looks: nat) {
    forall n: nat :: n < looks ==> !answers.late(n)
  }

  /**
   * Every page query and every probe follows a look at the clock of its own that was in time, and a page gives at most
   * eight probes. Only a look that comes too late cuts the sweep.
   */
  ghost predicate InTime(answers: Answers, outcome: Outcome, probes: seq<JobId>, queried: nat, looked: nat) {
    && OnTime(answers, looked) && |probes| + queried <= looked && |probes| <= 8 * queried
    && (outcome.OutOfTime? ==> answers.late(looked))
  }

  class ReconcileAttempt {
    var cursor: nat
    /** The jobs probed since the cycle began. */
    ghost var cycle: seq<JobId>

    ghost function Snapshot(): Attempt
      reads this
    {
      Attempt(cursor, cycle)
    }

    constructor ()
      ensures Snapshot() == Attempt(MAX_SAFE_INTEGER, [])
    {
      cursor, cycle := MAX_SAFE_INTEGER, [];
    }

    /**
     * One sweep. Whatever was probed in this and the earlier sweeps of the cycle, a job that stays eligible is never
     * probed twice; when the cycle ends each such job has been probed exactly once; and a sweep that ends neither the
     * cycle nor the search lowers the cursor unless it ran out of time before its first probe.
     */
    method Sweep(answers: Answers, ghost steady: set<JobId>) 
      returns (outcome: Outcome, ghost probes: seq<JobId>, ghost queried: nat, ghost looked: nat)
      requires Steady(steady, answers) && Progress(cycle, cursor, steady)
      modifies this
      ensures Swept(old(Snapshot()), probes, outcome, Snapshot(), steady)
      ensures InTime(answers, outcome, probes, queried, looked)
    {
      hide Progress, Descending, ProbedOnce, Candidates;
      probes := [];
      var pages, looks, tries := 0, 0, 0;
      NewCycle(steady, answers);
      ProgressIsDescending(cycle, cursor, steady);
      while !answers.late(looks)
        invariant Progress(cycle, cursor, steady) && Descending(cycle)
        invariant cycle == old(cycle) + probes && cursor <= old(cursor)
        invariant probes != [] ==> cursor == probes[|probes| - 1] < old(cursor)
        invariant forall id :: id in probes ==> id < old(cursor)
        invariant OnTime(answers, looks) && |probes| + pages <= looks && |probes| <= 8 * pages
        decreases cursor
      {
        var ids := answers.eligible(pages);
        ghost var before := cursor;
        var page := Candidates(ids, cursor);
        pages, looks := pages + 1, looks + 1;
        var count := if |page| <= PAGE then |page| else PAGE;
        for k := 0 to count
          invariant Progress(cycle, cursor, steady) && Descending(cycle)
          invariant cycle == old(cycle) + probes && cursor <= old(cursor)
          invariant probes != [] ==> cursor == probes[|probes| - 1] < old(cursor)
          invariant forall id :: id in probes ==> id < old(cursor)
          invariant cursor == After(page, before, k) && cursor <= before && (k > 0 ==> cursor < before)
          invariant OnTime(answers, looks) && |probes| + pages <= looks && |probes| <= 8 * (pages - 1) + k
        {
          if answers.late(looks) {
            return OutOfTime, probes, pages, looks;
          }
          looks := looks + 1;
          var candidate := page[k];
          NextCandidate(ids, before, k, steady);
          ProbeAdvances(cycle, cursor, steady, candidate);
          probes, cycle := probes + [candidate], cycle + [candidate];
          cursor := candidate;
          ProgressIsDescending(cycle, cursor, steady);
          assert cycle == old(cycle) + probes;
          var assigns := answers.assigns(tries);
          tries := tries + 1;
          if assigns {
            cursor, cycle := MAX_SAFE_INTEGER, [];
            return Found(candidate), probes, pages, looks;
          }
        }
        if |page| <= PAGE {
          LastPage(ids, before, steady);
          CycleIsComplete(cycle, cursor, steady);
          cursor, cycle := MAX_SAFE_INTEGER, [];
          return CycleDone, probes, pages, looks;
        }
      }
      return OutOfTime, probes, pages, looks;
    }
  }

  // ---------------------------------------------------------------- whole cycles

  function Flatten(probes: seq<seq<JobId>>): seq<JobId> {
    if probes == [] then [] else Flatten(probes[..|probes| - 1]) + probes[|probes| - 1]
  }

  /** Consecutive sweeps of one cycle: each but the last is cut by its deadline. */
  ghost predicate Sweeps(attempts: seq<Attempt>, probes: seq<seq<JobId>>, last: Outcome, steady: set<JobId>) {
    && |attempts| == |probes| + 1
    && attempts[0] == Attempt(MAX_SAFE_INTEGER, [])
    && forall i :: 0 <= i < |probes| ==>
      Swept(attempts[i], probes[i], if i == |probes| - 1 then last else OutOfTime, attempts[i + 1], steady)
  }

  lemma {:induction false} CycleSoFar(
      attempts: seq<Attempt>, probes: seq<seq<JobId>>, last: Outcome, steady: set<JobId>, n: nat)
    requires Sweeps(attempts, probes, last, steady) && n < |probes|
    ensures attempts[n].cycle == Flatten(probes[..n])
  {
    if n > 0 {
      CycleSoFar(attempts, probes, last, steady, n - 1);
      assert Swept(attempts[n - 1], probes[n - 1], OutOfTime, attempts[n], steady);
      assert probes[..n][..n - 1] == probes[..n - 1];
    }
  }

  /**
   * However many sweeps a cycle is cut into: no job is probed twice in it, and once it is done every job that was
   * eligible throughout has been probed exactly once.
   */
  lemma {:induction false} CycleProbesOnce(
      attempts: seq<Attempt>, probes: seq<seq<JobId>>, last: Outcome, steady: set<JobId>)
    requires Sweeps(attempts, probes, last, steady) && probes != []
    ensures Descending(Flatten(probes))
    ensures last == CycleDone ==> forall id :: id in steady ==> ProbedOnce(Flatten(probes), id)
  {
    var n := |probes| - 1;
    CycleSoFar(attempts, probes, last, steady, n);
    assert Swept(attempts[n], probes[n], last, attempts[n + 1], steady);
  }

  /** Every sweep of a cycle that probes at all lowers the cursor, so a cycle has only so many of them. */
  lemma {:induction false} CursorFalls(
      attempts: seq<Attempt>, probes: seq<seq<JobId>>, last: Outcome, steady: set<JobId>, i: nat, j: nat)
    requires Sweeps(attempts, probes, last, steady) && i <= j < |probes|
    ensures attempts[j].cursor + |Flatten(probes[i..j])| <= attempts[i].cursor
    decreases j - i
  {
    if i < j {
      CursorFalls(attempts, probes, last, steady, i, j - 1);
      assert Swept(attempts[j - 1], probes[j - 1], OutOfTime, attempts[j], steady);
      assert probes[i..j][..j - 1 - i] == probes[i..j - 1];
      FallsByProbes(attempts[j - 1], probes[j - 1], attempts[j], steady);
    } else {
      assert probes[i..j] == [];
    }
  }

  lemma {:induction false} FallsByProbes(before: Attempt, probes: seq<JobId>, after: Attempt, steady: set<JobId>)
    requires Swept(before, probes, OutOfTime, after, steady)
    ensures after.cursor + |probes| <= before.cursor
  {
    assert forall i :: 0 <= i < |probes| ==> (before.cycle + probes)[|before.cycle| + i] == probes[i];
    assert Descending(probes);
    if probes != [] {
      DescendingIsSparse(probes, before.cursor);
    }
  }

  lemma {:induction false} DescendingIsSparse(ids: seq<JobId>, top: nat)
    requires ids != [] && Descending(ids) && forall id :: id in ids ==> id < top
    ensures ids[|ids| - 1] + |ids| <= top
  {
    assert ids[0] in ids;
    if |ids| > 1 {
      assert forall id :: id in ids[1..] ==> exists i :: 1 <= i < |ids| && ids[i] == id;
      DescendingIsSparse(ids[1..], ids[0]);
    }
  }
}
