/** Decimal digit strings, as template literals print them and `Number` reads them back. */
module Decimal {

  /** The largest integer that a JavaScript number holds exactly together with its neighbours. */
  const MAX_SAFE_INTEGER: nat := 9_007_199_254_740_991

  predicate IsDigit(c: char) {
    '0' <= c <= '9'
  }

  predicate AllDigits(s: string) {
    forall i :: 0 <= i < |s| ==> IsDigit(s[i])
  }

  function Value(s: string): nat
    requires AllDigits(s)
  {
    if s == "" then 0 else 10 * Value(s[..|s| - 1]) + (s[|s| - 1] as int - '0' as int)
  }

  /** Printing is inverted by `Value` and never produces a leading zero. */
  function Print(n: nat): (s: string)
    ensures s != "" && AllDigits(s)
    ensures Value(s) == n
    ensures s[0] == '0' ==> n == 0
  {
    var digit := ('0' as int + n % 10) as char;
    if n < 10 then
      [digit]
    else
      var s := Print(n / 10) + [digit];
      assert s[..|s| - 1] == Print(n / 10);
      s
  }
}
