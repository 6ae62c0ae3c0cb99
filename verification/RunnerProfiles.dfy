/** Runner profiles: the preset machines, custom-machine labels, and the choice a job's labels make between them. */
module RunnerProfiles {
  import opened AccountResources
  import opened CustomLabels
  import opened Decimal
  import opened Strings
  import opened Wrappers

  datatype RunnerProfile = RunnerProfile(custom: bool, key: string, instanceType: string, resources: Resources)

  function Preset(key: string, vcpu: int, memoryMib: int, diskMb: int): RunnerProfile {
    RunnerProfile(false, key, key, Resources(vcpu, memoryMib, diskMb))
  }

  const LITE := Preset("lite", 1, 256, 2_000)
  const BASIC := Preset("basic", 4, 1_024, 4_000)
  const STANDARD_1 := Preset("standard-1", 8, 4_096, 8_000)
  const STANDARD_2 := Preset("standard-2", 16, 6_144, 12_000)
  const STANDARD_3 := Preset("standard-3", 32, 8_192, 16_000)
  const STANDARD_4 := Preset("standard-4", 64, 12_288, 20_000)

  function PresetFor(text: string): Option<RunnerProfile> {
    if text == "cloudflare-lite" then Some(LITE)
    else if text == "cloudflare-basic" then Some(BASIC)
    else if text == "cloudflare-standard-1" then Some(STANDARD_1)
    else if text == "cloudflare-standard-2" then Some(STANDARD_2)
    else if text == "cloudflare-standard-3" || text == "cloudflare-ubuntu-latest" then Some(STANDARD_3)
    else if text == "cloudflare-standard-4" then Some(STANDARD_4)
    else None
  }

  // ---------------------------------------------------------------- spelling

  /** Lower case. Of the other characters only the Kelvin sign becomes a letter a label may contain. */
  function LowerChar(c: char): string {
    if 'A' <= c <= 'Z' then [(c as int + 32) as char]
    else if c == '\U{212A}' then "k"
    else if c == '\U{0130}' then "i\U{0307}"
    else [c]
  }

  function Lower(s: string): string {
    if s == "" then "" else LowerChar(s[0]) + Lower(s[1..])
  }

  predicate IsLower(s: string) {
    forall i :: 0 <= i < |s| ==> LowerChar(s[i]) == [s[i]]
  }

  lemma {:induction false} LowerIsFixed(s: string)
    requires IsLower(s)
    ensures Lower(s) == s
  {
    if s != "" {
      LowerIsFixed(s[1..]);
    }
  }

  const PREFIX := "cloudflare-vcpu:"
  const MEMORY := "-memory_mib:"
  const DISK := "-disk_mb:"
  const CLOUDFLARE := "cloudflare-"

  datatype Machine = Machine(vcpu: nat, memoryMib: nat, diskMb: nat) {
    /** What the platform allows: 3 GiB of memory for each vCPU, 2 GB of disk for each GB of memory. */
    predicate Allowed() {
      && 1 <= vcpu <= 4
      && 3_072 * vcpu <= memoryMib <= 12_288
      && 1 <= diskMb <= 20_000
      && 1_024 * diskMb <= 2_000 * memoryMib
    }

    function Printed(): Three {
      Three(Print(vcpu), Print(memoryMib), Print(diskMb))
    }

    function Label(): string {
      Joined(PREFIX, MEMORY, DISK, Printed())
    }

    function Profile(): RunnerProfile {
      RunnerProfile(true, Joined("custom-v", "-m", "-d", Printed()), Label(), Resources(16 * vcpu, memoryMib, diskMb))
    }
  }

  // ---------------------------------------------------------------- custom labels

  datatype Problem =
    | WrongFormat | NotSafe | VcpuOutOfRange | MemoryNotPositive | MemoryTooLarge | MemoryBelowMinimum
    | DiskNotPositive | DiskTooLarge | DiskAboveRatio | UnknownLabel(text: string)

  datatype CustomLabel = NotCustom | Invalid(errors: seq<Problem>) | Valid(profile: RunnerProfile)

  function If(condition: bool, problem: Problem): seq<Problem> {
    if condition then [problem] else []
  }

  function Problems(m: Machine): (errors: seq<Problem>)
    ensures errors == [] <==> m.Allowed()
  {
    If(m.vcpu < 1 || m.vcpu > 4, VcpuOutOfRange) + If(m.memoryMib < 1, MemoryNotPositive)
    + If(m.memoryMib > 12_288, MemoryTooLarge) + If(m.memoryMib < m.vcpu * 3_072, MemoryBelowMinimum)
    + If(m.diskMb < 1, DiskNotPositive) + If(m.diskMb > 20_000, DiskTooLarge)
    + If(m.diskMb * 1_024 > m.memoryMib * 2_000, DiskAboveRatio)
  }

  /** What the three numbers of a label ask for. */
  function ParseNumbers(t: Three): CustomLabel
    requires AllDigits(t.x) && AllDigits(t.y) && AllDigits(t.z)
  {
    var vcpu, memoryMib, diskMb := SafeInteger(t.x), SafeInteger(t.y), SafeInteger(t.z);
    if vcpu.None? || memoryMib.None? || diskMb.None? then Invalid([NotSafe])
    else
      var machine := Machine(vcpu.value, memoryMib.value, diskMb.value);
      if Problems(machine) == [] then Valid(machine.Profile()) else Invalid(Problems(machine))
  }

  function Parse(text: string): CustomLabel {
    var normalized := Lower(text);
    if !StartsWith(normalized, PREFIX) then NotCustom
    else
      var matched := Match(normalized, PREFIX, MEMORY, DISK);
      if matched.None? then Invalid([WrongFormat])
      else
        MatchExactly(normalized, PREFIX, MEMORY, DISK, matched.value);
        ParseNumbers(matched.value)
  }

  method Report(errors: seq<Problem>, condition: bool, problem: Problem) returns (r: seq<Problem>)
    ensures r == errors + If(condition, problem)
  {
    r := errors;
    if condition {
      r := r + [problem];
    }
  }

  method CheckMachine(v: nat, m: nat, d: nat) returns (errors: seq<Problem>)
    ensures errors == Problems(Machine(v, m, d))
  {
    hide If;
    errors := [];
    errors := Report(errors, v < 1 || v > 4, VcpuOutOfRange);
    assert errors == If(v < 1 || v > 4, VcpuOutOfRange);
    errors := Report(errors, m < 1, MemoryNotPositive);
    errors := Report(errors, m > 12_288, MemoryTooLarge);
    errors := Report(errors, m < v * 3_072, MemoryBelowMinimum);
    errors := Report(errors, d < 1, DiskNotPositive);
    errors := Report(errors, d > 20_000, DiskTooLarge);
    errors := Report(errors, d * 1_024 > m * 2_000, DiskAboveRatio);
  }

  method ParseCustomRunnerLabel(text: string) returns (r: CustomLabel)
    ensures r == Parse(text)
  {
    hide Match, Joined, Lower, Problems, Machine.Profile, StartsWith;
    var normalized := Lower(text);
    if !StartsWith(normalized, PREFIX) {
      return NotCustom;
    }
    var matched := Match(normalized, PREFIX, MEMORY, DISK);
    if matched.None? {
      return Invalid([WrongFormat]);
    }
    var t := matched.value;
    MatchExactly(normalized, PREFIX, MEMORY, DISK, t);
    var vcpu, memoryMib, diskMb := SafeInteger(t.x), SafeInteger(t.y), SafeInteger(t.z);
    if vcpu.None? || memoryMib.None? || diskMb.None? {
      return Invalid([NotSafe]);
    }
    var errors := CheckMachine(vcpu.value, memoryMib.value, diskMb.value);
    return if errors == [] then Valid(Machine(vcpu.value, memoryMib.value, diskMb.value).Profile()) else Invalid(errors);
  }

  /** A spelling of a machine: any case, any number of leading zeros. */
  ghost predicate Spells(text: string, m: Machine) {
    exists t: Three ::
      && Digits(t.x) && Digits(t.y) && Digits(t.z)
      && Lower(text) == Joined(PREFIX, MEMORY, DISK, t)
      && m == Machine(Value(t.x), Value(t.y), Value(t.z))
  }

  lemma {:induction false} JoinedStarts(t: Three)
    ensures StartsWith(Joined(PREFIX, MEMORY, DISK, t), PREFIX)
  {
  }

  lemma {:induction false} SpelledIsMatched(text: string, m: Machine)
    requires Spells(text, m)
    ensures StartsWith(Lower(text), PREFIX)
    ensures exists t ::
      Match(Lower(text), PREFIX, MEMORY, DISK) == Some(t)
      && Digits(t.x) && Digits(t.y) && Digits(t.z)
      && m == Machine(Value(t.x), Value(t.y), Value(t.z))
  {
    hide Lower, Value, Match;
    var t: Three :| Digits(t.x) && Digits(t.y) && Digits(t.z) && Lower(text) == Joined(PREFIX, MEMORY, DISK, t)
      && m == Machine(Value(t.x), Value(t.y), Value(t.z));
    MatchExactly(Lower(text), PREFIX, MEMORY, DISK, t);
    JoinedStarts(t);
    hide Joined, StartsWith;
  }

  lemma {:induction false} ParsedIsSpelled(text: string)
    requires Parse(text).Valid?
    ensures exists machine: Machine :: machine.Allowed() && Spells(text, machine)
  {
    hide Lower, Value, Match, Joined, StartsWith, Machine.Profile, ParseNumbers;
    var t := Match(Lower(text), PREFIX, MEMORY, DISK).value;
    MatchExactly(Lower(text), PREFIX, MEMORY, DISK, t);
    NumbersExactly(t);
    assert Spells(text, Machine(Value(t.x), Value(t.y), Value(t.z)));
  }

  lemma {:induction false} NumbersExactly(t: Three)
    requires AllDigits(t.x) && AllDigits(t.y) && AllDigits(t.z)
    ensures var m := Machine(Value(t.x), Value(t.y), Value(t.z));
      if m.Allowed() then ParseNumbers(t) == Valid(m.Profile()) else ParseNumbers(t).Invalid?
  {
    hide Value, Machine.Profile, Problems;
  }

  /** A label that spells a machine is accepted exactly when the machine is allowed, and gives that machine's profile. */
  lemma {:induction false} AcceptedExactlyWhenAllowed(text: string, m: Machine)
    requires Spells(text, m)
    ensures Parse(text).Valid? <==> m.Allowed()
    ensures m.Allowed() ==> Parse(text) == Valid(m.Profile())
  {
    SpelledIsMatched(text, m);
    var t := Match(Lower(text), PREFIX, MEMORY, DISK).value;
    NumbersExactly(t);
    hide Lower, Value, Match, StartsWith, Spells, Machine.Profile, ParseNumbers;
  }

  /** So a label is accepted exactly when it spells an allowed machine. */
  lemma {:induction false} AcceptedExactly(text: string)
    ensures Parse(text).Valid? <==> exists m: Machine :: m.Allowed() && Spells(text, m)
  {
    hide Parse, Spells;
    if Parse(text).Valid? {
      ParsedIsSpelled(text);
    }
    if m: Machine :| m.Allowed() && Spells(text, m) {
      AcceptedExactlyWhenAllowed(text, m);
    }
  }

  // ---------------------------------------------------------------- the canonical label

  lemma {:induction false} SeparatorsAreLower()
    ensures IsLower(PREFIX) && IsLower(MEMORY) && IsLower(DISK)
  {
  }

  lemma {:induction false} DigitsAreLower(s: string)
    requires AllDigits(s)
    ensures IsLower(s)
  {
    assert forall i :: 0 <= i < |s| ==> IsDigit(s[i]);
  }

  lemma {:induction false} LowerConcat(a: string, b: string)
    requires IsLower(a) && IsLower(b)
    ensures IsLower(a + b)
  {
    hide LowerChar;
  }

  lemma {:induction false} JoinedIsLower(prefix: string, a: string, b: string, t: Three)
    requires IsLower(prefix) && IsLower(a) && IsLower(b) && AllDigits(t.x) && AllDigits(t.y) && AllDigits(t.z)
    ensures IsLower(Joined(prefix, a, b, t))
  {
    DigitsAreLower(t.x);
    DigitsAreLower(t.y);
    DigitsAreLower(t.z);
    hide IsLower;
    LowerConcat(t.y, b);
    LowerConcat(t.y + b, t.z);
    LowerConcat(t.x, a);
    LowerConcat(t.x + a, t.y + b + t.z);
    LowerConcat(prefix, t.x + a + (t.y + b + t.z));
  }

  lemma {:induction false} LabelSpells(m: Machine)
    ensures Spells(m.Label(), m)
  {
    var t := m.Printed();
    SeparatorsAreLower();
    JoinedIsLower(PREFIX, MEMORY, DISK, t);
    LowerIsFixed(m.Label());
    hide Lower, IsLower, Joined, Print, Value;
    assert Digits(t.x) && Digits(t.y) && Digits(t.z) && m == Machine(Value(t.x), Value(t.y), Value(t.z));
  }

  /** Parsing the label printed for an allowed machine gives back that machine's profile. */
  lemma {:induction false} CanonicalLabelRoundTrip(m: Machine)
    ensures Parse(m.Label()).Valid? <==> m.Allowed()
    ensures m.Allowed() ==> Parse(m.Label()) == Valid(m.Profile())
  {
    LabelSpells(m);
    AcceptedExactlyWhenAllowed(m.Label(), m);
    hide Parse, Spells;
  }

  /** Whatever spelling was accepted, its canonical label is accepted with the same profile. */
  lemma {:induction false} AcceptedLabelsReachFixedPoint(text: string)
    requires Parse(text).Valid?
    ensures Parse(Parse(text).profile.instanceType) == Parse(text)
  {
    AcceptedExactly(text);
    hide Parse, Spells;
    var m: Machine :| m.Allowed() && Spells(text, m);
    AcceptedExactlyWhenAllowed(text, m);
    CanonicalLabelRoundTrip(m);
  }

  // ---------------------------------------------------------------- keys

  /** A profile some label can ask for. */
  ghost predicate Offered(p: RunnerProfile) {
    || p in {LITE, BASIC, STANDARD_1, STANDARD_2, STANDARD_3, STANDARD_4}
    || exists m: Machine :: m.Allowed() && p == m.Profile()
  }

  lemma {:induction false} MachinesByKey(m: Machine, n: Machine)
    requires m.Profile().key == n.Profile().key
    ensures m == n
  {
    JoinedIsInjective("custom-v", "-m", "-d", m.Printed(), n.Printed());
    hide Joined, Print;
    PrintIsInjective(m.vcpu, n.vcpu);
    PrintIsInjective(m.memoryMib, n.memoryMib);
    PrintIsInjective(m.diskMb, n.diskMb);
  }

  lemma {:induction false} CustomKeysDiffer(m: Machine, p: RunnerProfile)
    requires p in {LITE, BASIC, STANDARD_1, STANDARD_2, STANDARD_3, STANDARD_4}
    ensures p.key != m.Profile().key
  {
    assert m.Profile().key[0] == 'c';
    assert p.key[0] in "lbs";
  }

  /** A key names one profile, so equal keys mean equal resources. */
  lemma {:induction false} KeyNamesOneProfile(p: RunnerProfile, q: RunnerProfile)
    requires Offered(p) && Offered(q) && p.key == q.key
    ensures p == q
  {
    hide Machine.Profile, Machine.Allowed;
    if m: Machine :| m.Allowed() && p == m.Profile() {
      if n: Machine :| n.Allowed() && q == n.Profile() {
        MachinesByKey(m, n);
      } else {
        CustomKeysDiffer(m, q);
      }
    } else if n: Machine :| n.Allowed() && q == n.Profile() {
      CustomKeysDiffer(n, p);
    } else {
      PresetsByKey(p, q);
    }
  }

  lemma {:induction false} PresetsByKey(p: RunnerProfile, q: RunnerProfile)
    requires p in {LITE, BASIC, STANDARD_1, STANDARD_2, STANDARD_3, STANDARD_4}
    requires q in {LITE, BASIC, STANDARD_1, STANDARD_2, STANDARD_3, STANDARD_4}
    requires p.key == q.key
    ensures p == q
  {
    assert |p.key| == |q.key|;
    assert |p.key| == 10 ==> p.key[9] == q.key[9];
  }

  // ---------------------------------------------------------------- selection

  datatype Meaning = Silent | Asks(profile: RunnerProfile) | Wrong(errors: seq<Problem>)

  /** What one label of a job says; `None` stands for a label that is not text. */
  function MeaningOf(entry: Option<string>): Meaning {
    if entry.None? then Silent
    else
      var preset := PresetFor(Lower(entry.value));
      if preset.Some? then Asks(preset.value)
      else
        match Parse(Lower(entry.value))
        case Invalid(errors) => Wrong(errors)
        case Valid(profile) => Asks(profile)
        case NotCustom => if StartsWith(entry.value, CLOUDFLARE) then Wrong([UnknownLabel(entry.value)]) else Silent
  }

  lemma {:induction false} AskedIsOffered(entry: Option<string>)
    requires MeaningOf(entry).Asks?
    ensures Offered(MeaningOf(entry).profile)
  {
    hide Lower, Parse, Spells, Machine.Profile;
    var normalized := Lower(entry.value);
    if PresetFor(normalized).None? {
      AcceptedExactly(normalized);
      var m: Machine :| m.Allowed() && Spells(normalized, m);
      AcceptedExactlyWhenAllowed(normalized, m);
    }
  }

  // ---------------------------------------------------------------- what a label means

  /** The text is spelled like a label of a custom machine, rightly or not. */
  predicate IsCustomLabel(text: string) {
    StartsWith(Lower(text), PREFIX)
  }

  lemma {:induction false} LowerTwice(text: string)
    ensures Lower(Lower(text)) == Lower(text)
  {
    LowerIsLower(text);
    LowerIsFixed(Lower(text));
  }

  lemma {:induction false} LowerIsLower(text: string)
    ensures IsLower(Lower(text))
  {
    if text != "" {
      LowerIsLower(text[1..]);
      LowerConcat(LowerChar(text[0]), Lower(text[1..]));
    }
  }

  lemma {:induction false} PresetsAreNotCustom(text: string)
    requires PresetFor(Lower(text)).Some?
    ensures !IsCustomLabel(text)
  {
    var normalized := Lower(text);
    assert PREFIX[11] == 'v' && |PREFIX| == 16;
    hide Lower;
    if 16 <= |normalized| {
      assert normalized[..16][11] == normalized[11] != 'v';
    }
  }

  /** Parsing does not look at the case of a label again. */
  lemma {:induction false} ParseLowered(text: string)
    ensures Parse(Lower(text)) == Parse(text)
  {
    LowerTwice(text);
    hide Lower, Match, ParseNumbers;
  }

  /**
   * A label asks for a machine exactly when it names a preset or spells an allowed custom machine, in any case. It is
   * wrong exactly when it is spelled like a custom machine but is none that is allowed, or begins like all labels of the
   * pool and is no label at all; every other label, text or not, says nothing.
   */
  lemma {:induction false} LabelMeansExactly(text: string)
    ensures MeaningOf(None).Silent?
    ensures MeaningOf(Some(text)).Asks? <==>
      PresetFor(Lower(text)).Some? || exists m: Machine :: m.Allowed() && Spells(text, m)
    ensures MeaningOf(Some(text)).Wrong? <==>
      && PresetFor(Lower(text)).None?
      && (if IsCustomLabel(text) then forall m: Machine :: m.Allowed() ==> !Spells(text, m)
          else |text| >= 11 && text[..11] == "cloudflare-")
    ensures PresetFor(Lower(text)).Some? ==> MeaningOf(Some(text)) == Asks(PresetFor(Lower(text)).value)
    ensures forall m: Machine :: m.Allowed() && Spells(text, m) ==> MeaningOf(Some(text)) == Asks(m.Profile())
  {
    ParseLowered(text);
    AcceptedExactly(text);
    if PresetFor(Lower(text)).Some? {
      PresetsAreNotCustom(text);
    }
    NotCustomExactly(text);
    forall m: Machine | m.Allowed() && Spells(text, m)
      ensures Parse(text) == Valid(m.Profile()) && IsCustomLabel(text)
    {
      AcceptedExactlyWhenAllowed(text, m);
    }
    hide Lower, Parse, Spells, PresetFor, Machine.Profile, Machine.Allowed, IsCustomLabel;
  }

  lemma {:induction false} NotCustomExactly(text: string)
    ensures Parse(text).NotCustom? <==> !IsCustomLabel(text)
  {
    hide Lower, Match, ParseNumbers;
    if IsCustomLabel(text) && Match(Lower(text), PREFIX, MEMORY, DISK).Some? {
      var t := Match(Lower(text), PREFIX, MEMORY, DISK).value;
      MatchExactly(Lower(text), PREFIX, MEMORY, DISK, t);
      NumbersExactly(t);
    }
  }

  /** The machine a profile stands for, and its price in sixteenths of a vCPU. */
  lemma {:induction false} ProfileIsItsMachine(m: Machine)
    ensures m.Profile().custom && m.Profile().resources == Resources(16 * m.vcpu, m.memoryMib, m.diskMb)
    ensures m.Profile().instanceType == m.Label()
  {
  }

  /**
   * A label of the right form is rejected for a number above 2^53 - 1 alone, whatever else is wrong; else with every
   * limit of the platform that it breaks, and only if it breaks one.
   */
  lemma {:induction false} RejectedExactlyFor(text: string, t: Three)
    requires Digits(t.x) && Digits(t.y) && Digits(t.z) && Lower(text) == Joined(PREFIX, MEMORY, DISK, t)
    ensures var m := Machine(Value(t.x), Value(t.y), Value(t.z));
      Parse(text) ==
        if m.vcpu > 0x1F_FFFF_FFFF_FFFF || m.memoryMib > 0x1F_FFFF_FFFF_FFFF || m.diskMb > 0x1F_FFFF_FFFF_FFFF then
          Invalid([NotSafe])
        else if m.Allowed() then Valid(m.Profile())
        else Invalid(Problems(m))
  {
    MatchExactly(Lower(text), PREFIX, MEMORY, DISK, t);
    JoinedStarts(t);
    hide Lower, Match, Joined, StartsWith, Value, Problems, Machine.Profile;
  }

  predicate Folds(c: char, d: char) {
    || c == d
    || ('A' <= c <= 'Z' && d as int == c as int + 32)
    || ('A' <= d <= 'Z' && c as int == d as int + 32)
  }

  /** Labels that differ in the case of letters only mean the same machine. */
  lemma {:induction false} CaseDoesNotMatter(a: string, b: string)
    requires |a| == |b| && forall i :: 0 <= i < |a| ==> Folds(a[i], b[i])
    ensures Lower(a) == Lower(b)
    ensures Parse(a) == Parse(b)
  {
    if a != "" {
      assert Folds(a[0], b[0]);
      assert forall i :: 0 <= i < |a[1..]| ==> a[1..][i] == a[i + 1] && b[1..][i] == b[i + 1];
      CaseDoesNotMatter(a[1..], b[1..]);
    }
    hide Match, ParseNumbers;
  }

  /** Each preset is asked for under its own name, and the latest Ubuntu image runs on the third. */
  lemma {:induction false} PresetsAreNamed(p: RunnerProfile)
    requires p in {LITE, BASIC, STANDARD_1, STANDARD_2, STANDARD_3, STANDARD_4}
    ensures PresetFor("cloudflare-" + p.key) == Some(p) && !p.custom && p.instanceType == p.key
    ensures PresetFor("cloudflare-ubuntu-latest") == Some(STANDARD_3)
  {
    assert "cloudflare-" + "lite" == "cloudflare-lite";
    assert "cloudflare-" + "basic" == "cloudflare-basic";
    assert "cloudflare-" + "standard-1" == "cloudflare-standard-1";
    assert "cloudflare-" + "standard-2" == "cloudflare-standard-2";
    assert "cloudflare-" + "standard-3" == "cloudflare-standard-3";
    assert "cloudflare-" + "standard-4" == "cloudflare-standard-4";
    PresetLabels();
  }

  lemma {:induction false} PresetLabels()
    ensures PresetFor("cloudflare-lite") == Some(LITE) && PresetFor("cloudflare-basic") == Some(BASIC)
    ensures PresetFor("cloudflare-standard-1") == Some(STANDARD_1) && PresetFor("cloudflare-standard-2") == Some(STANDARD_2)
    ensures PresetFor("cloudflare-standard-3") == Some(STANDARD_3) && PresetFor("cloudflare-standard-4") == Some(STANDARD_4)
    ensures PresetFor("cloudflare-ubuntu-latest") == Some(STANDARD_3)
  {
    assert "cloudflare-standard-1"[20] == '1' && "cloudflare-standard-2"[20] == '2';
    assert "cloudflare-standard-3"[20] == '3' && "cloudflare-standard-4"[20] == '4';
    assert |"cloudflare-lite"| == 15 && |"cloudflare-basic"| == 16 && |"cloudflare-standard-1"| == 21;
    assert |"cloudflare-ubuntu-latest"| == 24;
  }

  /** Three of the presets are allowed custom machines, and no allowed machine has more than the last. */
  lemma {:induction false} LargePresetsAreAllowedMachines()
    ensures forall p :: p in {STANDARD_2, STANDARD_3, STANDARD_4} ==>
      exists m: Machine :: m.Allowed() && p.resources == Resources(16 * m.vcpu, m.memoryMib, m.diskMb)
    ensures forall m: Machine :: m.Allowed() ==> Resources(16 * m.vcpu, m.memoryMib, m.diskMb).Within(STANDARD_4.resources)
  {
    assert Machine(1, 6_144, 12_000).Allowed() && Machine(2, 8_192, 16_000).Allowed() && Machine(4, 12_288, 20_000).Allowed();
  }

  datatype Selection = NoProfile | InvalidLabels(errors: seq<Problem>) | Conflicting | Selected(profile: RunnerProfile)

  function AllErrors(labels: seq<Option<string>>): seq<Problem> {
    if labels == [] then []
    else
      var last := MeaningOf(labels[|labels| - 1]);
      AllErrors(labels[..|labels| - 1]) + (if last.Wrong? then last.errors else [])
  }

  lemma {:induction false} WrongHasErrors(entry: Option<string>)
    requires MeaningOf(entry).Wrong?
    ensures MeaningOf(entry).errors != []
  {
    hide Lower, Match;
  }

  /** The profile asked for under a key by the first `n` labels. */
  ghost predicate AskedFor(labels: seq<Option<string>>, n: nat, key: string) {
    exists i :: 0 <= i < n <= |labels| && MeaningOf(labels[i]).Asks? && MeaningOf(labels[i]).profile.key == key
  }

  ghost predicate AnyWrong(labels: seq<Option<string>>, n: nat) {
    exists i :: 0 <= i < n <= |labels| && MeaningOf(labels[i]).Wrong?
  }

  lemma {:induction false} NextLabel(labels: seq<Option<string>>, n: nat)
    requires n < |labels|
    ensures var meaning := MeaningOf(labels[n]);
      && (AnyWrong(labels, n + 1) <==> AnyWrong(labels, n) || meaning.Wrong?)
      && forall k :: AskedFor(labels, n + 1, k) <==> AskedFor(labels, n, k) || (meaning.Asks? && meaning.profile.key == k)
  {
    hide MeaningOf;
    var meaning := MeaningOf(labels[n]);
    forall k
      ensures AskedFor(labels, n + 1, k) <==> AskedFor(labels, n, k) || (meaning.Asks? && meaning.profile.key == k)
    {
      if i :| 0 <= i < n + 1 && MeaningOf(labels[i]).Asks? && MeaningOf(labels[i]).profile.key == k {
        assert i == n || AskedFor(labels, n, k);
      }
    }
  }

  lemma {:induction false} NothingYet(labels: seq<Option<string>>)
    ensures !AnyWrong(labels, 0) && forall k :: !AskedFor(labels, 0, k)
  {
  }

  lemma {:induction false} SomethingWrong(labels: seq<Option<string>>)
    requires AnyWrong(labels, |labels|)
    ensures exists i :: 0 <= i < |labels| && MeaningOf(labels[i]).Wrong?
  {
    hide MeaningOf;
  }

  lemma {:induction false} SomebodyAsks(labels: seq<Option<string>>, key: string)
    requires AskedFor(labels, |labels|, key)
    ensures exists i :: 0 <= i < |labels| && MeaningOf(labels[i]).Asks?
  {
    hide MeaningOf;
  }

  lemma {:induction false} NobodyAsks(labels: seq<Option<string>>)
    requires !AnyWrong(labels, |labels|) && forall k :: !AskedFor(labels, |labels|, k)
    ensures forall i :: 0 <= i < |labels| ==> MeaningOf(labels[i]).Silent?
  {
    hide MeaningOf;
    forall i | 0 <= i < |labels|
      ensures MeaningOf(labels[i]).Silent?
    {
      if MeaningOf(labels[i]).Asks? {
        AskedForBy(labels, i);
      }
    }
  }

  lemma {:induction false} AskedForBy(labels: seq<Option<string>>, i: nat)
    requires i < |labels| && MeaningOf(labels[i]).Asks?
    ensures AskedFor(labels, |labels|, MeaningOf(labels[i]).profile.key)
  {
  }

  ghost predicate AskForMany(labels: seq<Option<string>>) {
    exists k, l :: k != l && AskedFor(labels, |labels|, k) && AskedFor(labels, |labels|, l)
  }

  ghost predicate AllAskFor(labels: seq<Option<string>>, profile: RunnerProfile) {
    forall i :: 0 <= i < |labels| && MeaningOf(labels[i]).Asks? ==> MeaningOf(labels[i]).profile == profile
  }

  /**
   * A profile is selected exactly when no label is wrong and all labels that ask for one ask for the same; a wrong
   * label wins over everything else, and all errors are reported in order.
   */
  method SelectRunnerProfile(labels: seq<Option<string>>) returns (s: Selection)
    ensures s.InvalidLabels? <==> AnyWrong(labels, |labels|)
    ensures s.InvalidLabels? ==> s.errors == AllErrors(labels)
    ensures s.NoProfile? <==> forall i :: 0 <= i < |labels| ==> MeaningOf(labels[i]).Silent?
    ensures s.Conflicting? <==> !AnyWrong(labels, |labels|) && AskForMany(labels)
    ensures s.Selected? ==> AskedFor(labels, |labels|, s.profile.key) && AllAskFor(labels, s.profile)
  {
    hide MeaningOf, Offered, AnyWrong, AskedFor;
    NothingYet(labels);
    var selected: map<string, RunnerProfile> := map[];
    var errors: seq<Problem> := [];
    for n := 0 to |labels|
      invariant errors == AllErrors(labels[..n])
      invariant errors != [] <==> AnyWrong(labels, n)
      invariant forall k :: k in selected <==> AskedFor(labels, n, k)
      invariant forall k :: k in selected ==> Offered(selected[k]) && selected[k].key == k
    {
      assert labels[..n + 1][..n] == labels[..n];
      var meaning := MeaningOf(labels[n]);
      match meaning {
        case Silent =>
        case Asks(profile) =>
          AskedIsOffered(labels[n]);
          selected := selected[profile.key := profile];
        case Wrong(more) =>
          WrongHasErrors(labels[n]);
          errors := errors + more;
      }
      NextLabel(labels, n);
    }
    assert labels[..|labels|] == labels;
    if errors != [] {
      SomethingWrong(labels);
      return InvalidLabels(errors);
    }
    if selected == map[] {
      NobodyAsks(labels);
      return NoProfile;
    }
    var key :| key in selected;
    assert AskedFor(labels, |labels|, key);
    SomebodyAsks(labels, key);
    if selected.Keys != {key} {
      var other :| other in selected && other != key;
      return Conflicting;
    }
    s := Selected(selected[key]);
    forall i | 0 <= i < |labels| && MeaningOf(labels[i]).Asks?
      ensures MeaningOf(labels[i]).profile == s.profile
    {
      AskedIsOffered(labels[i]);
      AskedForBy(labels, i);
      KeyNamesOneProfile(MeaningOf(labels[i]).profile, s.profile);
    }
  }
}
