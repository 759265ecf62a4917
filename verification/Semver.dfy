/** The versions this repository releases under: read, written, and moved from one to the next. */
module Semver {
  import opened Options
  import opened Strings

  /** The greatest number an `int` holds. */
  const MAX: int := 0x7FFF_FFFF_FFFF_FFFF

  datatype Version = Version(major: int, minor: int, patch: int, pre: string)

  datatype Kind = Patch | Minor | Major

  datatype Error =
    | VersionEmpty
    | PrereleaseEmpty
    | PrereleaseHolds(letter: char)
    | NotThree
    | ComponentEmpty
    | LeadingZero
    | NotANumber

  // ---------------------------------------------------------------------------------------
  // Reading
  // ---------------------------------------------------------------------------------------

  predicate IsDigit(c: char) { '0' <= c <= '9' }

  predicate IsDigits(s: string) {
    forall i :: 0 <= i < |s| ==> IsDigit(s[i])
  }

  function DigitsValue(s: string): nat
    requires IsDigits(s)
  {
    if s == "" then 0 else 10 * DigitsValue(s[..|s| - 1]) + (s[|s| - 1] - '0') as nat
  }

  /** `strconv.Atoi`: decimal digits, a sign before them if there is one, and a number that fits. */
  function Atoi(s: string): Option<int> {
    var digits := if s != "" && (s[0] == '+' || s[0] == '-') then s[1..] else s;
    if digits == "" || !IsDigits(digits) then None
    else
      var value: int := if s[0] == '-' then -(DigitsValue(digits) as int) else DigitsValue(digits);
      if -MAX - 1 <= value <= MAX then Some(value) else None
  }

  function Number(field: string): Outcome<int, Error> {
    if field == "" then Err(ComponentEmpty)
    else if |field| > 1 && field[0] == '0' then Err(LeadingZero)
    else match Atoi(field)
      case None => Err(NotANumber)
      case Some(value) => Ok(value)
  }

  predicate Allowed(c: char) {
    IsDigit(c) || 'a' <= c <= 'z' || 'A' <= c <= 'Z' || c == '.' || c == '-'
  }

  /** What is wrong with a prerelease, if anything is: the first letter that may not be in one. */
  function PrereleaseError(pre: string): Option<Error> {
    if pre == "" then Some(PrereleaseEmpty) else FirstRefused(pre)
  }

  function FirstRefused(pre: string): Option<Error> {
    if pre == "" then None
    else if !Allowed(pre[0]) then Some(PrereleaseHolds(pre[0]))
    else FirstRefused(pre[1..])
  }

  method ValidPrerelease(pre: string) returns (error: Option<Error>)
    ensures error == PrereleaseError(pre)
    ensures error.None? <==> pre != "" && forall i :: 0 <= i < |pre| ==> Allowed(pre[i])
  {
    if pre == "" {
      return Some(PrereleaseEmpty);
    }
    for i := 0 to |pre|
      invariant FirstRefused(pre) == FirstRefused(pre[i..])
      invariant forall j :: 0 <= j < i ==> Allowed(pre[j])
    {
      assert pre[i..][1..] == pre[i + 1..];
      if !Allowed(pre[i]) {
        return Some(PrereleaseHolds(pre[i]));
      }
    }
    error := None;
  }

  function Parsed(text: string): Outcome<Version, Error> {
    var trimmed := TrimSpace(text);
    if trimmed == "" then Err(VersionEmpty)
    else
      var (core, pre, hasPre) := Cut(trimmed, '-');
      if hasPre && PrereleaseError(pre).Some? then Err(PrereleaseError(pre).value)
      else
        var fields := Split(core, '.');
        if |fields| != 3 then Err(NotThree)
        else
          match (Number(fields[0]), Number(fields[1]), Number(fields[2]))
          case (Ok(major), Ok(minor), Ok(patch)) => Ok(Version(major, minor, patch, pre))
          case (Ok(_), Ok(_), Err(error)) => Err(error)
          case (Ok(_), Err(error), _) => Err(error)
          case (Err(error), _, _) => Err(error)
  }

  method Parse(text: string) returns (version: Outcome<Version, Error>)
    ensures version == Parsed(text)
  {
    hide Number, TrimSpace, Split, Cut, PrereleaseError;
    var trimmed := TrimSpace(text);
    if trimmed == "" {
      return Err(VersionEmpty);
    }
    var (core, pre, hasPre) := Cut(trimmed, '-');
    if hasPre {
      var error := ValidPrerelease(pre);
      if error.Some? {
        return Err(error.value);
      }
    }
    var fields := Split(core, '.');
    if |fields| != 3 {
      return Err(NotThree);
    }
    var numbers := new int[3];
    for i := 0 to 3
      invariant forall j :: 0 <= j < i ==> Number(fields[j]) == Ok(numbers[j])
    {
      var number := Number(fields[i]);
      if number.Err? {
        return Err(number.error);
      }
      numbers[i] := number.value;
    }
    version := Ok(Version(numbers[0], numbers[1], numbers[2], pre));
  }

  // ---------------------------------------------------------------------------------------
  // Writing, and the next one
  // ---------------------------------------------------------------------------------------

  function Core(v: Version): string {
    Join([Decimal(v.major), Decimal(v.minor), Decimal(v.patch)], '.')
  }

  function Print(v: Version): string {
    if v.pre == "" then Core(v) else Core(v) + "-" + v.pre
  }

  /** One more, in the width of an `int`. */
  function Next(n: int): int {
    if n == MAX then -MAX - 1 else n + 1
  }

  function Bump(v: Version, kind: Kind): Version {
    match kind
    case Major => Version(Next(v.major), 0, 0, "")
    case Minor => Version(v.major, Next(v.minor), 0, "")
    case Patch =>
      if v.pre != "" then Version(v.major, v.minor, v.patch, "")
      else Version(v.major, v.minor, Next(v.patch), "")
  }

  function Nightly(day: string, commit: string): string {
    "nightly." + day + "." + commit
  }

  function Snapshot(v: Version, day: string, commit: string): Version {
    Bump(v, Patch).(pre := Nightly(day, commit))
  }

  // ---------------------------------------------------------------------------------------
  // What is read is written back as the same version
  // ---------------------------------------------------------------------------------------

  lemma {:induction false} DecimalDigits(n: nat)
    ensures IsDigits(Decimal(n)) && DigitsValue(Decimal(n)) == n
    ensures |Decimal(n)| > 1 ==> Decimal(n)[0] != '0'
    ensures n > 0 ==> Decimal(n)[0] != '0'
  {
    if n < 10 {
      assert Decimal(n)[..0] == "";
    } else {
      DecimalDigits(n / 10);
      var digits := Decimal(n / 10);
      assert Decimal(n)[..|digits|] == digits;
    }
  }

  lemma {:induction false} NumberDecimal(n: nat)
    requires n <= MAX
    ensures Number(Decimal(n)) == Ok(n)
  {
    DecimalDigits(n);
    var digits := Decimal(n);
    assert IsDigit(digits[0]);
  }

  predicate InRange(v: Version) {
    0 <= v.major <= MAX && 0 <= v.minor <= MAX && 0 <= v.patch <= MAX
  }

  predicate PreOk(pre: string) {
    forall i :: 0 <= i < |pre| ==> Allowed(pre[i])
  }

  lemma {:induction false} RefusedIs(pre: string)
    ensures FirstRefused(pre).None? <==> PreOk(pre)
  {
    if pre != "" {
      RefusedIs(pre[1..]);
      assert pre == [pre[0]] + pre[1..];
    }
  }

  /** A number has digits in it and nothing a version is taken apart at. */
  lemma {:induction false} DecimalClean(n: nat)
    ensures '.' !in Decimal(n) && '-' !in Decimal(n)
    ensures Decimal(n)[0] !in WHITE_SPACE && Decimal(n)[|Decimal(n)| - 1] !in WHITE_SPACE
  {
    DecimalDigits(n);
    var s := Decimal(n);
    assert IsDigit(s[0]) && IsDigit(s[|s| - 1]);
  }

  lemma CoreIs(v: Version)
    ensures Core(v) == Decimal(v.major) + "." + (Decimal(v.minor) + "." + Decimal(v.patch))
  {
    var parts := [Decimal(v.major), Decimal(v.minor), Decimal(v.patch)];
    assert parts[1..] == [Decimal(v.minor), Decimal(v.patch)] && parts[1..][1..] == [Decimal(v.patch)];
    hide Decimal;
    assert Join(parts[1..][1..], '.') == Decimal(v.patch);
    assert Join(parts[1..], '.') == Decimal(v.minor) + "." + Decimal(v.patch);
    assert Join(parts, '.') == Decimal(v.major) + "." + Join(parts[1..], '.');
  }

  lemma CoreClean(v: Version)
    requires InRange(v)
    ensures Core(v) != "" && '-' !in Core(v) && Core(v)[0] !in WHITE_SPACE && Core(v)[|Core(v)| - 1] !in WHITE_SPACE
    ensures Split(Core(v), '.') == [Decimal(v.major), Decimal(v.minor), Decimal(v.patch)]
  {
    CoreIs(v);
    DecimalClean(v.major);
    DecimalClean(v.minor);
    DecimalClean(v.patch);
    SplitJoin([Decimal(v.major), Decimal(v.minor), Decimal(v.patch)], '.');
  }

  lemma PreClean(pre: string)
    requires PreOk(pre) && pre != ""
    ensures pre[|pre| - 1] !in WHITE_SPACE
  {}

  /** Every version a text can name is read back from how it is written. */
  lemma PrintParses(v: Version)
    requires InRange(v) && PreOk(v.pre)
    ensures Parsed(Print(v)) == Ok(v)
  {
    var core := Core(v);
    CoreClean(v);
    NumberDecimal(v.major);
    NumberDecimal(v.minor);
    NumberDecimal(v.patch);
    hide Core, Split, WHITE_SPACE, Number;
    if v.pre == "" {
      TrimNothing(core, WHITE_SPACE);
      CutWhole(core, '-');
    } else {
      PreClean(v.pre);
      RefusedIs(v.pre);
      assert Print(v) == core + ['-'] + v.pre;
      TrimNothing(Print(v), WHITE_SPACE);
      CutFirst(core, '-', v.pre);
    }
  }

  lemma NumberRange(field: string)
    requires Number(field).Ok? && '-' !in field
    ensures 0 <= Number(field).value <= MAX
  {}

  lemma {:induction false} SplitWithin(s: string, sep: char, other: char)
    requires other !in s
    ensures forall i :: 0 <= i < |Split(s, sep)| ==> other !in Split(s, sep)[i]
  {
    if s != "" {
      SplitWithin(s[1..], sep, other);
    }
  }

  /** What a text is read as is always a version it could be written from. */
  lemma ParsedOk(text: string)
    requires Parsed(text).Ok?
    ensures InRange(Parsed(text).value) && PreOk(Parsed(text).value.pre)
  {
    var trimmed := TrimSpace(text);
    var (core, pre, hasPre) := Cut(trimmed, '-');
    CutIs(trimmed, '-');
    if hasPre {
      RefusedIs(pre);
    } else {
      CutWhole(trimmed, '-');
    }
    SplitWithin(core, '.', '-');
    var fields := Split(core, '.');
    NumberRange(fields[0]);
    NumberRange(fields[1]);
    NumberRange(fields[2]);
  }

  /** Whatever is read, reading how it is written gives the same version. */
  lemma ReadBack(text: string)
    requires Parsed(text).Ok?
    ensures Parsed(Print(Parsed(text).value)) == Parsed(text)
  {
    ParsedOk(text);
    PrintParses(Parsed(text).value);
  }

  // ---------------------------------------------------------------------------------------
  // How a text differs from what it is written back as
  // ---------------------------------------------------------------------------------------

  lemma {:induction false} DigitsDecimal(s: string)
    requires s != "" && IsDigits(s) && (|s| > 1 ==> s[0] != '0')
    ensures Decimal(DigitsValue(s)) == s
    ensures |s| > 1 ==> DigitsValue(s) >= 10
    ensures s[0] != '0' ==> DigitsValue(s) > 0
  {
    var n := |s| - 1;
    if n == 0 {
      assert s[..0] == "" && s == [s[0]];
    } else {
      DigitsDecimal(s[..n]);
      assert s == s[..n] + [s[n]];
    }
  }

  /** A component is written back as it was unless it had a plus before it. */
  lemma NumberWritten(field: string)
    requires Number(field).Ok? && '-' !in field
    ensures Decimal(Number(field).value) == field <==> field[0] != '+'
  {
    if field[0] == '+' {
      DecimalDigits(Number(field).value);
      assert IsDigit(Decimal(Number(field).value)[0]);
    } else {
      DigitsDecimal(field);
    }
  }

  /** A text is written back as it was, but for the white space round it, exactly when no number in
      it had a plus before it: reading takes one there and writing has none. */
  lemma WrittenBackExactly(text: string)
    requires Parsed(text).Ok?
    ensures
      var fields := Split(Cut(TrimSpace(text), '-').0, '.');
      && |fields| == 3 && fields[0] != "" && fields[1] != "" && fields[2] != ""
      && (Print(Parsed(text).value) == TrimSpace(text) <==>
            fields[0][0] != '+' && fields[1][0] != '+' && fields[2][0] != '+')
  {
    var trimmed, v := TrimSpace(text), Parsed(text).value;
    var (core, pre, hasPre) := Cut(trimmed, '-');
    var fields := Split(core, '.');
    CutIs(trimmed, '-');
    SplitWithin(core, '.', '-');
    NumberWritten(fields[0]);
    NumberWritten(fields[1]);
    NumberWritten(fields[2]);
    JoinSplit(core, '.');
    ParsedOk(text);
    CoreClean(v);
    var written := [Decimal(v.major), Decimal(v.minor), Decimal(v.patch)];
    assert fields == [fields[0], fields[1], fields[2]];
    assert written == fields <==> Core(v) == core;
    hide Core, Split, WHITE_SPACE, Number, TrimSpace;
    if !hasPre {
      CutWhole(trimmed, '-');
    } else if Print(v) == trimmed {
      CutFirst(Core(v), '-', pre);
      assert Print(v) == Core(v) + ['-'] + pre;
    }
  }

  lemma {:induction false} SmallNumbers()
    ensures Number("+1") == Ok(1) && Number("2") == Ok(2) && Number("3") == Ok(3)
  {
    assert "+1"[1..] == "1" && "1"[..0] == "" && "2"[..0] == "" && "3"[..0] == "";
  }

  lemma {:induction false} PlusFields()
    ensures Split("+1.2.3", '.') == ["+1", "2", "3"]
  {
    var fields := ["+1", "2", "3"];
    assert fields[1..] == ["2", "3"] && fields[1..][1..] == ["3"];
    SplitJoin(fields, '.');
    assert Join(fields, '.') == "+1.2.3";
  }

  lemma {:induction false} PlusTrimmed()
    ensures TrimSpace("+1.2.3") == "+1.2.3"
  {
    var text := "+1.2.3";
    assert text[0] == '+' && text[|text| - 1] == '3';
    assert '+' !in WHITE_SPACE && '3' !in WHITE_SPACE;
    hide WHITE_SPACE, Trim;
    TrimNothing(text, WHITE_SPACE);
  }

  lemma {:induction false} PlusPrinted()
    ensures Print(Version(1, 2, 3, "")) == "1.2.3"
  {
    CoreIs(Version(1, 2, 3, ""));
    hide Core;
    assert Decimal(1) == "1" && Decimal(2) == "2" && Decimal(3) == "3";
  }

  /** A component with a plus before it is read, and written back without. */
  lemma {:induction false} PlusRead()
    ensures Parsed("+1.2.3") == Ok(Version(1, 2, 3, "")) && Print(Version(1, 2, 3, "")) == "1.2.3"
  {
    hide Split, Cut, Number, TrimSpace, Core, Print;
    PlusTrimmed();
    CutWhole("+1.2.3", '-');
    PlusFields();
    SmallNumbers();
    PlusPrinted();
  }

  // ---------------------------------------------------------------------------------------
  // Which of two versions comes first
  // ---------------------------------------------------------------------------------------

  predicate Numeric(identifier: string) {
    identifier != "" && IsDigits(identifier)
  }

  /** The order of ASCII. */
  predicate TextBefore(a: string, b: string) {
    if b == "" then false
    else if a == "" then true
    else if a[0] != b[0] then a[0] < b[0]
    else TextBefore(a[1..], b[1..])
  }

  /** One identifier of a prerelease before another: numbers by their value, numbers before
      words, words by their letters. */
  predicate IdentifierBefore(a: string, b: string) {
    if Numeric(a) && Numeric(b) then DigitsValue(a) < DigitsValue(b)
    else if Numeric(a) then true
    else if Numeric(b) then false
    else TextBefore(a, b)
  }

  predicate SameIdentifier(a: string, b: string) {
    if Numeric(a) && Numeric(b) then DigitsValue(a) == DigitsValue(b) else a == b
  }

  /** The first identifier that differs decides; when none does, fewer come first. */
  predicate IdentifiersBefore(a: seq<string>, b: seq<string>) {
    if b == [] then false
    else if a == [] then true
    else if SameIdentifier(a[0], b[0]) then IdentifiersBefore(a[1..], b[1..])
    else IdentifierBefore(a[0], b[0])
  }

  predicate PreBefore(a: string, b: string) {
    if a == "" then false
    else if b == "" then true
    else IdentifiersBefore(Split(a, '.'), Split(b, '.'))
  }

  /** Precedence as item 11 of Semantic Versioning 2.0.0 has it. */
  predicate Before(a: Version, b: Version) {
    if a.major != b.major then a.major < b.major
    else if a.minor != b.minor then a.minor < b.minor
    else if a.patch != b.patch then a.patch < b.patch
    else PreBefore(a.pre, b.pre)
  }

  /** A bump comes after what it was made from exactly when the number it counts up had not
      reached the last an `int` holds. A prerelease is patched into the release it led up to, so
      there is no number to count. */
  lemma BumpAfterExactly(v: Version, kind: Kind)
    requires InRange(v)
    ensures Before(v, Bump(v, kind)) <==>
            match kind
            case Major => v.major < MAX
            case Minor => v.minor < MAX
            case Patch => v.pre != "" || v.patch < MAX
  {}

  /** A release in the range of an `int`. */
  predicate Release(v: Version) {
    v.pre == "" && 0 <= v.major <= MAX && 0 <= v.minor <= MAX && 0 <= v.patch <= MAX
  }

  /** What a bump makes is the least release of its kind, while there is one: no release with a greater
      major comes before the major bump, none with this major and a greater minor before the minor one,
      and none after the version before the patch; and each is such a release itself. */
  lemma BumpLeast(v: Version, other: Version)
    requires InRange(v) && Release(other)
    ensures v.major < MAX ==>
              && Release(Bump(v, Major)) && Bump(v, Major).major > v.major
              && (other.major > v.major ==> !Before(other, Bump(v, Major)))
    ensures v.minor < MAX ==>
              && Release(Bump(v, Minor)) && Bump(v, Minor).major == v.major && Bump(v, Minor).minor > v.minor
              && (other.major == v.major && other.minor > v.minor ==> !Before(other, Bump(v, Minor)))
    ensures v.pre != "" || v.patch < MAX ==>
              && Release(Bump(v, Patch)) && Before(v, Bump(v, Patch))
              && (Before(v, other) ==> !Before(other, Bump(v, Patch)))
  {}

  lemma {:induction false} TwoParts(a: string, b: string)
    requires '.' !in a && '.' !in b
    ensures Split(a + "." + b, '.') == [a, b] && Split(a, '.') == [a]
  {
    SplitFirst(a, b, '.');
    SplitWhole(a, '.');
    SplitWhole(b, '.');
  }

  /** More identifiers come after fewer, when those there are agree. */
  lemma {:induction false} MoreAfter(a: string, b: string)
    requires '.' !in a && '.' !in b && a != ""
    ensures PreBefore(a, a + "." + b)
  {
    TwoParts(a, b);
    assert [a, b][1..] == [b] && [a][1..] == [];
    assert IdentifiersBefore([], [b]) && SameIdentifier(a, a);
    hide Split, DigitsValue;
  }

  /** The first identifier decides when it differs. */
  lemma {:induction false} FirstDecides(a: string, b: string, other: string, more: string)
    requires '.' !in a && '.' !in b && '.' !in other && '.' !in more && a != "" && other != ""
    requires !SameIdentifier(a, other) && IdentifierBefore(a, other)
    ensures PreBefore(a + "." + b, other) && PreBefore(a + "." + b, other + "." + more)
  {
    TwoParts(a, b);
    TwoParts(other, more);
    hide Split, DigitsValue, SameIdentifier, IdentifierBefore;
  }

  /** And the second when the first does not. */
  lemma {:induction false} SecondDecides(a: string, b: string, other: string)
    requires '.' !in a && '.' !in b && '.' !in other
    requires !SameIdentifier(b, other) && IdentifierBefore(b, other)
    ensures PreBefore(a + "." + b, a + "." + other)
  {
    TwoParts(a, b);
    TwoParts(a, other);
    assert [a, b][1..] == [b] && [a, other][1..] == [other];
    assert IdentifiersBefore([b], [other]) && SameIdentifier(a, a);
    hide Split, DigitsValue, SameIdentifier, IdentifierBefore;
  }

  /** The chain item 11 of Semantic Versioning 2.0.0 gives as its example. */
  lemma {:induction false} ChainInOrder()
    ensures PreBefore("alpha", "alpha" + "." + "1") && PreBefore("alpha" + "." + "1", "alpha" + "." + "beta")
    ensures PreBefore("alpha" + "." + "beta", "beta") && PreBefore("beta", "beta" + "." + "2")
    ensures PreBefore("beta" + "." + "2", "beta" + "." + "11") && PreBefore("beta" + "." + "11", "rc" + "." + "1")
    ensures PreBefore("rc" + "." + "1", "")
  {
    ChainWords();
    hide Split, DigitsValue, TextBefore, Numeric, PreBefore;
    MoreAfter("alpha", "1");
    MoreAfter("beta", "2");
    SecondDecides("alpha", "1", "beta");
    SecondDecides("beta", "2", "11");
    FirstDecides("alpha", "beta", "beta", "2");
    FirstDecides("beta", "11", "rc", "1");
    ReleaseAfter("rc" + "." + "1");
  }

  /** A prerelease comes before its release. */
  lemma ReleaseAfter(pre: string)
    ensures PreBefore(pre, "") <==> pre != ""
  {}

  lemma ChainWords()
    ensures Numeric("1") && Numeric("2") && Numeric("11") && DigitsValue("2") < DigitsValue("11")
    ensures !Numeric("alpha") && !Numeric("beta") && !Numeric("rc")
    ensures TextBefore("alpha", "beta") && TextBefore("beta", "rc")
  {
    assert "11"[..1] == "1" && "1"[..0] == "" && "2"[..0] == "";
    assert DigitsValue("1") == 1 && DigitsValue("2") == 2;
    assert !IsDigit("alpha"[0]) && !IsDigit("beta"[0]) && !IsDigit("rc"[0]);
  }

  const DIGITS := "0123456789"
  const SMALL_LETTERS := "abcdefghijklmnopqrstuvwxyz"
  const CAPITALS := "ABCDEFGHIJKLMNOPQRSTUVWXYZ"

  /** The letters a prerelease may have. */
  lemma AllowedIs(c: char)
    ensures Allowed(c) <==> c in DIGITS || c in SMALL_LETTERS || c in CAPITALS || c in ".-"
  {
    LettersFrom(DIGITS, '0', c);
    LettersFrom(SMALL_LETTERS, 'a', c);
    LettersFrom(CAPITALS, 'A', c);
    hide DIGITS, SMALL_LETTERS, CAPITALS;
  }

  lemma LettersFrom(letters: string, first: char, c: char)
    requires first as int + |letters| < 128 && forall i :: 0 <= i < |letters| ==> letters[i] as int == first as int + i
    ensures c in letters <==> first as int <= c as int < first as int + |letters|
  {
    if first as int <= c as int < first as int + |letters| {
      assert letters[c as int - first as int] == c;
    }
  }

  /** A build between releases comes before the release a patch would make, always. */
  lemma SnapshotBeforeRelease(v: Version, day: string, commit: string)
    ensures Before(Snapshot(v, day, commit), Bump(v, Patch))
  {}

  /** And after the version it was cut from exactly when that was a release with a patch to spare,
      or a prerelease whose own identifiers come before the build's. */
  lemma {:induction false} SnapshotAfterExactly(v: Version, day: string, commit: string)
    requires InRange(v)
    ensures Before(v, Snapshot(v, day, commit)) <==>
            if v.pre == "" then v.patch < MAX
            else IdentifiersBefore(Split(v.pre, '.'), ["nightly"] + Split(day + "." + commit, '.'))
  {
    NightlySplit(day, commit);
  }

  lemma {:induction false} NightlySplit(day: string, commit: string)
    ensures Split(Nightly(day, commit), '.') == ["nightly"] + Split(day + "." + commit, '.')
  {
    var rest := day + "." + commit;
    assert Nightly(day, commit) == "nightly" + ['.'] + rest;
    SplitFirst("nightly", rest, '.');
    hide *;
  }

  /** For every release there is room to patch, a build stands between it and the next. */
  lemma SnapshotBetween(v: Version, day: string, commit: string)
    requires InRange(v) && v.pre == "" && v.patch < MAX
    ensures Before(v, Snapshot(v, day, commit)) && Before(Snapshot(v, day, commit), Bump(v, Patch))
  {}

  /** Builds of one version come in the order of their days, when the days are numbers. */
  lemma {:induction false} SnapshotsInOrder(v: Version, day: string, commit: string, later: string, other: string)
    requires Numeric(day) && Numeric(later) && DigitsValue(day) < DigitsValue(later)
    ensures Before(Snapshot(v, day, commit), Snapshot(v, later, other))
  {
    NightlySplit(day, commit);
    NightlySplit(later, other);
    NoDot(day);
    NoDot(later);
    SplitFirst(day, commit, '.');
    SplitFirst(later, other, '.');
    var a, b := [day] + Split(commit, '.'), [later] + Split(other, '.');
    assert (["nightly"] + a)[1..] == a && (["nightly"] + b)[1..] == b;
    hide Split, DigitsValue;
    assert IdentifiersBefore(a, b);
    assert IdentifiersBefore(["nightly"] + a, ["nightly"] + b);
  }

  lemma NoDot(s: string)
    requires IsDigits(s)
    ensures '.' !in s
  {}

  /** A build's version can be read back exactly when there was a patch to spare and its day and its
      commit have only letters a prerelease may have. */
  lemma SnapshotParsesExactly(v: Version, day: string, commit: string)
    requires InRange(v)
    ensures Parsed(Print(Snapshot(v, day, commit))) == Ok(Snapshot(v, day, commit)) <==>
            (v.pre != "" || v.patch < MAX) && PreOk(day) && PreOk(commit)
  {
    var next := Snapshot(v, day, commit);
    NightlyOk(day, commit);
    if PreOk(next.pre) && InRange(next) {
      PrintParses(next);
    } else if Parsed(Print(next)).Ok? {
      ParsedOk(Print(next));
    }
  }

  lemma NightlyOk(day: string, commit: string)
    ensures PreOk(Nightly(day, commit)) <==> PreOk(day) && PreOk(commit)
  {
    var nightly := "nightly.";
    var pre := Nightly(day, commit);
    assert PreOk(nightly);
    forall i | 0 <= i < |day|
      ensures pre[|nightly| + i] == day[i]
    {}
    forall i | 0 <= i < |commit|
      ensures pre[|nightly| + |day| + 1 + i] == commit[i]
    {}
  }
}
