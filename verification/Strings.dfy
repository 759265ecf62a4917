/** The value that may be missing, the one that may be an error, and the lesser and greater of two. */
module Options {
  datatype Option<+T> = None | Some(value: T)

  datatype Outcome<+T, +E> = Ok(value: T) | Err(error: E)

  function Min(a: int, b: int): int { if a < b then a else b }

  function Max(a: int, b: int): int { if a > b then a else b }
}

/** The parts of Go's `strings` package the modelled code leans on. */
module Strings {
  import opened Options

  /** What `strings.TrimSpace` takes away: the white space of Unicode. */
  const WHITE_SPACE: set<char> := {
    '\t', '\n', '\U{0B}', '\U{0C}', '\r', ' ', '\U{85}', '\U{A0}', '\U{1680}',
    '\U{2000}', '\U{2001}', '\U{2002}', '\U{2003}', '\U{2004}', '\U{2005}', '\U{2006}',
    '\U{2007}', '\U{2008}', '\U{2009}', '\U{200A}', '\U{2028}', '\U{2029}', '\U{202F}',
    '\U{205F}', '\U{3000}'
  }

  predicate HasPrefix(s: string, prefix: string) {
    prefix <= s
  }

  predicate HasSuffix(s: string, suffix: string) {
    |suffix| <= |s| && s[|s| - |suffix|..] == suffix
  }

  predicate Only(s: string, cut: set<char>) {
    forall i :: 0 <= i < |s| ==> s[i] in cut
  }

  function TrimLeft(s: string, cut: set<char>): string {
    if s != "" && s[0] in cut then TrimLeft(s[1..], cut) else s
  }

  function TrimRight(s: string, cut: set<char>): string {
    if s != "" && s[|s| - 1] in cut then TrimRight(s[..|s| - 1], cut) else s
  }

  lemma {:induction false} TrimLeftIs(s: string, cut: set<char>)
    ensures var r := TrimLeft(s, cut);
            && HasSuffix(s, r)
            && Only(s[..|s| - |r|], cut)
            && (r != "" ==> r[0] !in cut)
  {
    if s != "" && s[0] in cut {
      TrimLeftIs(s[1..], cut);
      var r := TrimLeft(s[1..], cut);
      assert s[..|s| - |r|] == [s[0]] + s[1..][..|s| - 1 - |r|];
    }
  }

  lemma {:induction false} TrimRightIs(s: string, cut: set<char>)
    ensures var r := TrimRight(s, cut);
            && HasPrefix(s, r)
            && Only(s[|r|..], cut)
            && (r != "" ==> r[|r| - 1] !in cut)
  {
    if s != "" && s[|s| - 1] in cut {
      TrimRightIs(s[..|s| - 1], cut);
      var r := TrimRight(s[..|s| - 1], cut);
      assert s[|r|..] == s[..|s| - 1][|r|..] + [s[|s| - 1]];
    }
  }

  function Trim(s: string, cut: set<char>): string {
    TrimRight(TrimLeft(s, cut), cut)
  }

  function TrimSpace(s: string): string {
    Trim(s, WHITE_SPACE)
  }

  /** Nothing is taken away exactly when there is nothing to take at either end. */
  lemma TrimNothing(s: string, cut: set<char>)
    requires s != ""
    ensures Trim(s, cut) == s <==> s[0] !in cut && s[|s| - 1] !in cut
  {
    TrimLeftIs(s, cut);
    TrimRightIs(TrimLeft(s, cut), cut);
  }

  /** Nothing is left exactly when there was nothing but what is cut off. */
  lemma TrimEmpty(s: string, cut: set<char>)
    ensures Trim(s, cut) == "" <==> Only(s, cut)
  {
    var left := TrimLeft(s, cut);
    TrimLeftIs(s, cut);
    TrimRightIs(left, cut);
    assert left[0..] == left;
    assert s[..|s|] == s;
    assert left != "" ==> left[0] == s[|s| - |left|];
  }

  lemma {:induction false} TrimRightTail(s: string, tail: string, cut: set<char>)
    requires Only(tail, cut)
    ensures TrimRight(s + tail, cut) == TrimRight(s, cut)
  {
    if tail == "" {
      assert s + tail == s;
    } else {
      var last := |tail| - 1;
      assert (s + tail)[..|s + tail| - 1] == s + tail[..last];
      TrimRightTail(s, tail[..last], cut);
    }
  }

  function Fold(c: char): char {
    if 'a' <= c <= 'z' then c - 'a' + 'A' else c
  }

  /** `strings.EqualFold`, on the letters of ASCII. */
  predicate EqualFold(a: string, b: string) {
    |a| == |b| && forall i :: 0 <= i < |a| ==> Fold(a[i]) == Fold(b[i])
  }

  /** The lower case of one character, for every character whose lower case is ASCII. The
      Kelvin sign and the capital I with a dot are the two outside ASCII that are. */
  function LowerChar(c: char): char {
    if 'A' <= c <= 'Z' then c - 'A' + 'a'
    else if c == '\U{212A}' then 'k'
    else if c == '\U{0130}' then 'i'
    else c
  }

  function ToLower(s: string): (r: string)
    ensures |r| == |s| && forall i :: 0 <= i < |s| ==> r[i] == LowerChar(s[i])
  {
    seq(|s|, i requires 0 <= i < |s| => LowerChar(s[i]))
  }

  /** Whether the text holds the name at this place. */
  predicate Occurs(text: string, name: string, at: int) {
    0 <= at <= |text| - |name| && text[at..at + |name|] == name
  }

  /** `strings.Index`: where the name first occurs. */
  function Index(text: string, name: string, from: nat := 0): (r: Option<nat>)
    requires from <= |text|
    ensures r.Some? ==> from <= r.value && Occurs(text, name, r.value)
    ensures forall k :: from <= k && Occurs(text, name, k) ==> r.Some? && r.value <= k
    decreases |text| - from
  {
    if Occurs(text, name, from) then Some(from)
    else if from == |text| then None
    else Index(text, name, from + 1)
  }

  /** `strings.Split` on one character. */
  function Split(s: string, sep: char): (r: seq<string>)
    ensures |r| >= 1
    ensures forall i :: 0 <= i < |r| ==> sep !in r[i]
  {
    if s == "" then [""]
    else
      var rest := Split(s[1..], sep);
      if s[0] == sep then [""] + rest
      else [[s[0]] + rest[0]] + rest[1..]
  }

  /** `strings.Cut` on one character: what is before it, what is after it, and whether it is there. */
  function Cut(s: string, sep: char): (string, string, bool) {
    if s == "" then ("", "", false)
    else if s[0] == sep then ("", s[1..], true)
    else
      var (before, after, found) := Cut(s[1..], sep);
      ([s[0]] + before, after, found)
  }

  lemma {:induction false} CutFirst(part: string, sep: char, rest: string)
    requires sep !in part
    ensures Cut(part + [sep] + rest, sep) == (part, rest, true)
  {
    var s := part + [sep] + rest;
    if part == "" {
      assert s[1..] == rest;
    } else {
      CutFirst(part[1..], sep, rest);
      assert s[1..] == part[1..] + [sep] + rest;
      assert part == [part[0]] + part[1..];
    }
  }

  lemma {:induction false} CutWhole(part: string, sep: char)
    requires sep !in part
    ensures Cut(part, sep) == (part, "", false)
  {
    if part != "" {
      CutWhole(part[1..], sep);
      assert part == [part[0]] + part[1..];
    }
  }

  /** Nothing is lost: the parts and what was between them are the text. */
  lemma {:induction false} CutIs(s: string, sep: char)
    ensures var (before, after, found) := Cut(s, sep);
            sep !in before && s == if found then before + [sep] + after else before
  {
    if s != "" {
      CutIs(s[1..], sep);
      assert s == [s[0]] + s[1..];
    }
  }

  /** `strings.Join` with one character between. */
  function Join(parts: seq<string>, sep: char): string {
    if parts == [] then ""
    else if |parts| == 1 then parts[0]
    else parts[0] + [sep] + Join(parts[1..], sep)
  }

  lemma {:induction false} SplitJoin(parts: seq<string>, sep: char)
    requires parts != []
    requires forall i :: 0 <= i < |parts| ==> sep !in parts[i]
    ensures Split(Join(parts, sep), sep) == parts
  {
    if |parts| == 1 {
      SplitWhole(parts[0], sep);
    } else {
      SplitJoin(parts[1..], sep);
      SplitFirst(parts[0], Join(parts[1..], sep), sep);
      assert parts == [parts[0]] + parts[1..];
    }
  }

  lemma {:induction false} SplitWhole(part: string, sep: char)
    requires sep !in part
    ensures Split(part, sep) == [part]
  {
    if part != "" {
      SplitWhole(part[1..], sep);
      assert part == [part[0]] + part[1..];
    }
  }

  lemma {:induction false} SplitFirst(part: string, rest: string, sep: char)
    requires sep !in part
    ensures Split(part + [sep] + rest, sep) == [part] + Split(rest, sep)
  {
    var s := part + [sep] + rest;
    if part == "" {
      assert s[1..] == rest;
    } else {
      assert s[1..] == part[1..] + [sep] + rest;
      SplitFirst(part[1..], rest, sep);
      assert part == [part[0]] + part[1..];
    }
  }

  lemma {:induction false} JoinLetter(letter: char, rest: seq<string>, sep: char)
    requires rest != []
    ensures Join([[letter] + rest[0]] + rest[1..], sep) == [letter] + Join(rest, sep)
  {
    var r := [[letter] + rest[0]] + rest[1..];
    if |rest| > 1 {
      assert r[1..] == rest[1..];
      assert Join(r, sep) == [letter] + (rest[0] + [sep] + Join(rest[1..], sep));
    }
  }

  lemma {:induction false} JoinSplit(s: string, sep: char)
    ensures Join(Split(s, sep), sep) == s
  {
    if s != "" {
      var rest := Split(s[1..], sep);
      JoinSplit(s[1..], sep);
      if s[0] == sep {
        assert ([""] + rest)[1..] == rest;
        assert Join([""] + rest, sep) == "" + [sep] + Join(rest, sep);
      } else {
        JoinLetter(s[0], rest, sep);
      }
      assert s == [s[0]] + s[1..];
    }
  }

  /** `strconv.Itoa`. */
  function Decimal(n: int): (r: string)
    ensures r != ""
    decreases if n < 0 then 1 - n else n
  {
    if n < 0 then "-" + Decimal(-n)
    else if n < 10 then [Digit(n)]
    else Decimal(n / 10) + [Digit(n % 10)]
  }

  function Digit(n: int): char
    requires 0 <= n < 10
  {
    '0' + n as char
  }
}
