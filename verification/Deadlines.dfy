/** The earliest of a set of times. */
module Deadlines {
  import opened Wrappers

  ghost predicate IsEarliest(times: set<int>, t: int) {
    t in times && forall other :: other in times ==> t <= other
  }

  lemma {:induction false} EarliestExists(times: set<int>, x: int)
    requires x in times
    ensures exists t :: IsEarliest(times, t)
  {
    if y :| y in times && y < x {
      EarliestExists(times - {x}, y);
      var u :| IsEarliest(times - {x}, u);
      assert forall other :: other in times ==> other == x || other in times - {x};
      assert IsEarliest(times, u);
    } else {
      assert IsEarliest(times, x);
    }
  }

  ghost function Earliest(times: set<int>): int {
    if exists t :: IsEarliest(times, t) then
      var t :| IsEarliest(times, t);
      t
    else
      0
  }

  lemma {:induction false} EarliestIsEarliest(times: set<int>, x: int)
    requires x in times
    ensures IsEarliest(times, Earliest(times))
  {
    EarliestExists(times, x);
  }

  ghost predicate IsLeast(times: set<int>, t: Option<int>) {
    if t.None? then times == {} else IsEarliest(times, t.value)
  }

  function Sooner(a: Option<int>, b: Option<int>): Option<int> {
    if a.None? then b else if b.None? then a else if a.value < b.value then a else b
  }

  lemma {:induction false} LeastOfUnion(a: set<int>, b: set<int>, s: Option<int>, t: Option<int>)
    requires IsLeast(a, s) && IsLeast(b, t)
    ensures IsLeast(a + b, Sooner(s, t))
  {
  }

  lemma {:induction false} LeastIsEarliest(times: set<int>, t: Option<int>)
    requires IsLeast(times, t) && t.Some?
    ensures t.value == Earliest(times)
  {
    EarliestIsEarliest(times, t.value);
  }
}
