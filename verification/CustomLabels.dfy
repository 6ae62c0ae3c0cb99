/** Custom-machine labels: the pattern they match, the machines they may ask for, and their canonical spelling. */
module CustomLabels {
  import opened Decimal
  import opened Strings
  import opened Wrappers

  // ---------------------------------------------------------------- matching

  predicate Digits(s: string) {
    s != "" && AllDigits(s)
  }

  function LeadingDigits(s: string): (n: nat)
    ensures n <= |s| && AllDigits(s[..n]) && (n < |s| ==> !IsDigit(s[n]))
  {
    if s == "" || !IsDigit(s[0]) then 0
    else
      var n := LeadingDigits(s[1..]);
      assert s[..n + 1] == [s[0]] + s[1..][..n];
      n + 1
  }

  lemma {:induction false} DigitsThenText(x: string, rest: string)
    requires AllDigits(x) && (rest == "" || !IsDigit(rest[0]))
    ensures LeadingDigits(x + rest) == |x|
  {
    if x != "" {
      assert (x + rest)[1..] == x[1..] + rest;
      DigitsThenText(x[1..], rest);
    } else {
      assert x + rest == rest;
    }
  }

  datatype Three = Three(x: string, y: string, z: string)

  /** A number followed by `separator`, and what comes after. */
  function Field(s: string, separator: string): Option<(string, string)> {
    var n := LeadingDigits(s);
    if n > 0 && StartsWith(s[n..], separator) then Some((s[..n], s[n + |separator|..])) else None
  }

  lemma {:induction false} FieldExactly(s: string, separator: string, x: string, rest: string)
    requires separator != "" && !IsDigit(separator[0])
    ensures Field(s, separator) == Some((x, rest)) <==> Digits(x) && s == x + separator + rest
  {
    var n := LeadingDigits(s);
    if n > 0 && StartsWith(s[n..], separator) {
      assert s == s[..n] + separator + s[n + |separator|..];
    }
    if Digits(x) && s == x + separator + rest {
      assert s == x + (separator + rest);
      DigitsThenText(x, separator + rest);
      assert s[..n] == x && s[n..] == separator + rest;
    }
  }

  /** The regular expression of the label: a prefix and three numbers with fixed text between them. */
  function Match(s: string, prefix: string, a: string, b: string): Option<Three> {
    if !StartsWith(s, prefix) then None
    else
      var first := Field(s[|prefix|..], a);
      if first.None? then None
      else
        var second := Field(first.value.1, b);
        if second.None? || !Digits(second.value.1) then None
        else Some(Three(first.value.0, second.value.0, second.value.1))
  }

  function Joined(prefix: string, a: string, b: string, t: Three): string {
    prefix + (t.x + a + (t.y + b + t.z))
  }

  lemma {:induction false} MatchExactly(s: string, prefix: string, a: string, b: string, t: Three)
    requires a != "" && b != "" && !IsDigit(a[0]) && !IsDigit(b[0])
    ensures Match(s, prefix, a, b) == Some(t)
      <==> s == Joined(prefix, a, b, t) && Digits(t.x) && Digits(t.y) && Digits(t.z)
  {
    var rest := t.y + b + t.z;
    if StartsWith(s, prefix) {
      var tail := s[|prefix|..];
      assert s == prefix + tail;
      FieldExactly(tail, a, t.x, rest);
      FieldExactly(rest, b, t.y, t.z);
      var first := Field(tail, a);
      if first.Some? {
        FieldExactly(tail, a, first.value.0, first.value.1);
        var second := Field(first.value.1, b);
        if second.Some? {
          FieldExactly(first.value.1, b, second.value.0, second.value.1);
        }
      }
      assert s == prefix + (t.x + a + rest) <==> tail == t.x + a + rest;
    }
    hide Field;
  }

  // ---------------------------------------------------------------- numbers

  function SafeInteger(digits: string): Option<nat>
    requires AllDigits(digits)
  {
    if Value(digits) <= MAX_SAFE_INTEGER then Some(Value(digits)) else None
  }

  /** Two printed numbers are equal only for equal numbers. */
  lemma {:induction false} PrintIsInjective(m: nat, n: nat)
    requires Print(m) == Print(n)
    ensures m == n
  {
    assert Value(Print(m)) == m && Value(Print(n)) == n;
  }

  /** Text made of three printed numbers determines them. */
  lemma {:induction false} JoinedIsInjective(prefix: string, a: string, b: string, s: Three, t: Three)
    requires a != "" && b != "" && !IsDigit(a[0]) && !IsDigit(b[0])
    requires Digits(s.x) && Digits(s.y) && Digits(s.z) && Digits(t.x) && Digits(t.y) && Digits(t.z)
    requires Joined(prefix, a, b, s) == Joined(prefix, a, b, t)
    ensures s == t
  {
    MatchExactly(Joined(prefix, a, b, s), prefix, a, b, s);
    MatchExactly(Joined(prefix, a, b, s), prefix, a, b, t);
  }
}
