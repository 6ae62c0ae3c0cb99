/** Runner names: a submitted name, or that name with the `-rN` suffix of a later attempt. */
module RunnerNames {
  import opened Decimal

  /** The suffix the scheduler strips: the regular expression `-r\d+` anchored at the end. */
  ghost predicate SuffixAt(name: string, i: nat) {
    && i + 2 < |name|
    && name[i] == '-'
    && name[i + 1] == 'r'
    && AllDigits(name[i + 2..])
  }

  function TrailingDigits(name: string): (count: nat)
    ensures count <= |name|
    ensures AllDigits(name[|name| - count..])
    ensures count < |name| ==> !IsDigit(name[|name| - count - 1])
  {
    if name == "" || !IsDigit(name[|name| - 1]) then
      0
    else
      var front := name[..|name| - 1];
      var count := TrailingDigits(front);
      assert name[|name| - count - 1..] == front[|front| - count..] + [name[|name| - 1]];
      1 + count
  }

  /** Removes a retry suffix when there is one. */
  function StripRetry(name: string): (stripped: string)
    ensures forall i: nat :: SuffixAt(name, i) ==> stripped == name[..i]
    ensures stripped == name || (SuffixAt(name, |stripped|) && stripped == name[..|stripped|])
  {
    var d := TrailingDigits(name);
    assert forall i: nat :: SuffixAt(name, i) ==> i == |name| - d - 2 && d > 0 by {
      forall i: nat | SuffixAt(name, i)
        ensures i == |name| - d - 2 && d > 0
      {
        SuffixIsTrailing(name, i);
      }
    }
    if 0 < d && d + 2 <= |name| && name[|name| - d - 2] == '-' && name[|name| - d - 1] == 'r' then
      name[..|name| - d - 2]
    else
      name
  }

  lemma {:induction false} SuffixIsTrailing(name: string, i: nat)
    requires SuffixAt(name, i)
    ensures TrailingDigits(name) == |name| - i - 2
  {
    var d := TrailingDigits(name);
    assert forall k :: i + 2 <= k < |name| ==> name[k] == name[i + 2..][k - (i + 2)];
    assert forall k :: |name| - d <= k < |name| ==> name[k] == name[|name| - d..][k - (|name| - d)];
  }

  /** The name given to attempt `attempt` of a job whose runner was called `name`. */
  function RetryName(name: string, attempt: nat): string {
    StripRetry(name) + "-r" + Print(attempt)
  }

  /** The attempt a name belongs to. */
  ghost function AttemptOf(name: string): nat {
    var stripped := StripRetry(name);
    if stripped == name then 1 else Value(name[|stripped| + 2..])
  }

  /** A name as it was first submitted carries no retry suffix. */
  ghost predicate Fresh(name: string) {
    StripRetry(name) == name
  }

  /** A retry name determines the name and the attempt it was made from. */
  lemma {:induction false} RetryNameParts(name: string, attempt: nat)
    ensures StripRetry(RetryName(name, attempt)) == StripRetry(name)
    ensures AttemptOf(RetryName(name, attempt)) == attempt
    ensures !Fresh(RetryName(name, attempt))
  {
    var base, retry := StripRetry(name), RetryName(name, attempt);
    assert retry[|base| + 2..] == Print(attempt);
    assert SuffixAt(retry, |base|);
    assert retry[..|base|] == base;
  }
}
