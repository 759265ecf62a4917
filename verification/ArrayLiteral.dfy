/** A column of values written as an array literal, and a reader of such literals. */
module ArrayLiterals {
  import opened Options
  import opened Strings

  /** A value of a result: a null, something written as text, or a list of values. */
  datatype Value = Null | Plain(text: string) | List(values: seq<Value>)

  // ---------------------------------------------------------------------------------------
  // Writing
  // ---------------------------------------------------------------------------------------

  /** What would be read as the punctuation of the array around it. */
  const PUNCTUATION: set<char> := {'{', '}', ',', '"', '\\', ' '}

  predicate ContainsAny(s: string, chars: set<char>) {
    exists i :: 0 <= i < |s| && s[i] in chars
  }

  function Escaped(s: string): string {
    if s == "" then ""
    else (if s[0] == '\\' || s[0] == '"' then ['\\', s[0]] else [s[0]]) + Escaped(s[1..])
  }

  predicate Quoted(written: string) {
    written == "" || ContainsAny(written, PUNCTUATION)
  }

  function Wrapped(written: string): string {
    if Quoted(written) then "\"" + Escaped(written) + "\"" else written
  }

  function TextOf(value: Value): string
    decreases value, 0
  {
    match value
    case Null => ""
    case Plain(text) => text
    case List(values) => ArrayOf(values)
  }

  function ElementOf(value: Value): string
    decreases value, 1
  {
    if value.Null? then "NULL" else Wrapped(TextOf(value))
  }

  function ElementsOf(values: seq<Value>): (r: seq<string>)
    ensures |r| == |values| && forall i :: 0 <= i < |r| ==> r[i] == ElementOf(values[i])
    decreases values, 0
  {
    seq(|values|, i requires 0 <= i < |values| => ElementOf(values[i]))
  }

  function ArrayOf(values: seq<Value>): string
    decreases values, 1
  {
    "{" + Join(ElementsOf(values), ',') + "}"
  }

  method Text(value: Value) returns (written: string)
    ensures written == TextOf(value)
    decreases value, 0
  {
    match value {
      case Null => written := "";
      case Plain(text) => written := text;
      case List(values) => written := Array(values);
    }
  }

  method Element(value: Value) returns (written: string)
    ensures written == ElementOf(value)
    decreases value, 1
  {
    if value.Null? {
      return "NULL";
    }
    written := Text(value);
    if written == "" || ContainsAny(written, PUNCTUATION) {
      written := "\"" + Escaped(written) + "\"";
    }
  }

  method Array(values: seq<Value>) returns (written: string)
    ensures written == ArrayOf(values)
    decreases values, 1
  {
    var elements: seq<string> := [];
    for i := 0 to |values|
      invariant elements == ElementsOf(values)[..i]
    {
      var element := Element(values[i]);
      elements := elements + [element];
    }
    assert elements == ElementsOf(values);
    written := "{" + Join(elements, ',') + "}";
  }

  /** A text stands as it is exactly when there is something in it and nothing of it would be read as
      the array's own: no brace, comma, quote, backslash or space. */
  lemma {:induction false} BareExactly(text: string)
    ensures ElementOf(Plain(text)) == text <==>
            && text != ""
            && forall i :: 0 <= i < |text| ==>
                 && text[i] != '{' && text[i] != '}' && text[i] != ','
                 && text[i] != '"' && text[i] != '\\' && text[i] != ' '
  {
    EscapedLonger(text);
    assert Quoted(text) ==> |ElementOf(Plain(text))| > |text|;
    assert forall c :: c in PUNCTUATION <==> c == '{' || c == '}' || c == ',' || c == '"' || c == '\\' || c == ' ';
    hide Escaped, PUNCTUATION;
  }

  lemma {:induction false} EscapedLonger(text: string)
    ensures |Escaped(text)| >= |text|
  {
    if text != "" {
      EscapedLonger(text[1..]);
    }
  }

  // ---------------------------------------------------------------------------------------
  // Reading, as section 8.15.6 of the PostgreSQL documentation describes it
  // ---------------------------------------------------------------------------------------

  /** White space around an item that is not in quotes does not belong to it. */
  const BLANKS: set<char> := {' ', '\t', '\n', '\r', '\U{0B}', '\U{0C}'}

  /** A character of an item that is not in quotes, and whether a backslash was before it. */
  datatype Mark = Mark(letter: char, escaped: bool)

  /** The rest of an item in quotes, up to the quote that ends it, and what follows. */
  function InQuotes(s: string): (r: Option<(string, string)>)
    ensures r.Some? ==> |r.value.1| < |s|
  {
    if s == "" then None
    else if s[0] == '"' then Some(("", s[1..]))
    else if s[0] == '\\' then
      if |s| == 1 then None
      else match InQuotes(s[2..])
        case None => None
        case Some((text, rest)) => Some(([s[1]] + text, rest))
    else match InQuotes(s[1..])
      case None => None
      case Some((text, rest)) => Some(([s[0]] + text, rest))
  }

  /** An item that is not in quotes, up to the comma or the brace after it. */
  function Bare(s: string): (r: Option<(seq<Mark>, string)>)
    ensures r.Some? ==> |r.value.1| <= |s|
  {
    if s == "" || s[0] == '"' || s[0] == '{' then None
    else if s[0] == ',' || s[0] == '}' then Some(([], s))
    else if s[0] == '\\' then
      if |s| == 1 then None
      else match Bare(s[2..])
        case None => None
        case Some((marks, rest)) => Some(([Mark(s[1], true)] + marks, rest))
    else match Bare(s[1..])
      case None => None
      case Some((marks, rest)) => Some(([Mark(s[0], false)] + marks, rest))
  }

  function TrimMarks(marks: seq<Mark>): seq<Mark> {
    if marks != [] && !marks[|marks| - 1].escaped && marks[|marks| - 1].letter in BLANKS
    then TrimMarks(marks[..|marks| - 1])
    else marks
  }

  function Chars(marks: seq<Mark>): string {
    seq(|marks|, i requires 0 <= i < |marks| => marks[i].letter)
  }

  /** The word NULL, in any case and with nothing in it escaped, is a null. */
  predicate IsNull(marks: seq<Mark>) {
    EqualFold(Chars(marks), "NULL") && forall i :: 0 <= i < |marks| ==> !marks[i].escaped
  }

  lemma {:induction false} TrimLeftShorter(s: string, cut: set<char>)
    ensures |TrimLeft(s, cut)| <= |s|
  {
    TrimLeftIs(s, cut);
  }

  /** One item and what follows it. */
  function Item(s: string): (r: Option<(Option<string>, string)>)
    ensures r.Some? ==> |r.value.1| <= |s|
  {
    TrimLeftShorter(s, BLANKS);
    var start := TrimLeft(s, BLANKS);
    if start != "" && start[0] == '"' then
      match InQuotes(start[1..])
      case None => None
      case Some((text, rest)) =>
        TrimLeftShorter(rest, BLANKS);
        Some((Some(text), TrimLeft(rest, BLANKS)))
    else
      match Bare(start)
      case None => None
      case Some((marks, rest)) =>
        var word := TrimMarks(marks);
        if word == [] then None
        else if IsNull(word) then Some((None, rest))
        else Some((Some(Chars(word)), rest))
  }

  function Items(s: string): Option<(seq<Option<string>>, string)>
    decreases |s|
  {
    match Item(s)
    case None => None
    case Some((first, rest)) =>
      if rest == "" then None
      else if rest[0] == '}' then Some(([first], rest[1..]))
      else if rest[0] == ',' then
        match Items(rest[1..])
        case None => None
        case Some((more, after)) => Some(([first] + more, after))
      else None
  }

  /** The items of an array of one dimension, or nothing when the text is not one. */
  function Read(s: string): Option<seq<Option<string>>> {
    var start := TrimLeft(s, BLANKS);
    if start == "" || start[0] != '{' then None
    else
      var inside := TrimLeft(start[1..], BLANKS);
      if inside == "" then None
      else if inside[0] == '}' then
        if Only(inside[1..], BLANKS) then Some([]) else None
      else match Items(inside)
        case None => None
        case Some((items, after)) => if Only(after, BLANKS) then Some(items) else None
  }

  // ---------------------------------------------------------------------------------------
  // What is read back
  // ---------------------------------------------------------------------------------------

  /** The next thing after an item is a comma or the brace that ends the array. */
  predicate Ends(rest: string) {
    rest != "" && (rest[0] == ',' || rest[0] == '}')
  }

  lemma {:induction false} InQuotesIs(text: string, end: string)
    requires end != "" && end[0] == '"'
    ensures InQuotes(Escaped(text) + end) == Some((text, end[1..]))
  {
    var s := Escaped(text) + end;
    if text == "" {
      assert s == end;
    } else {
      var tail := Escaped(text[1..]) + end;
      InQuotesIs(text[1..], end);
      if text[0] == '\\' || text[0] == '"' {
        assert s == ['\\', text[0]] + tail;
        assert s[2..] == tail;
      } else {
        assert s == [text[0]] + tail;
        assert s[1..] == tail;
      }
      assert text == [text[0]] + text[1..];
    }
  }

  function Marked(text: string): (r: seq<Mark>)
    ensures |r| == |text| && forall i :: 0 <= i < |r| ==> r[i] == Mark(text[i], false)
  {
    seq(|text|, i requires 0 <= i < |text| => Mark(text[i], false))
  }

  lemma {:induction false} BareIs(text: string, rest: string)
    requires !ContainsAny(text, PUNCTUATION) && Ends(rest)
    ensures Bare(text + rest) == Some((Marked(text), rest))
  {
    if text == "" {
      assert text + rest == rest;
    } else {
      assert text[0] !in PUNCTUATION;
      assert !ContainsAny(text[1..], PUNCTUATION);
      BareIs(text[1..], rest);
      assert (text + rest)[1..] == text[1..] + rest;
      assert Marked(text) == [Mark(text[0], false)] + Marked(text[1..]);
    }
  }

  lemma {:induction false} TrimMarksIs(text: string)
    ensures TrimMarks(Marked(text)) == Marked(TrimRight(text, BLANKS))
  {
    if text != "" && text[|text| - 1] in BLANKS {
      TrimMarksIs(text[..|text| - 1]);
      assert Marked(text)[..|text| - 1] == Marked(text[..|text| - 1]);
    }
  }

  lemma {:induction false} TrimLeftStops(text: string, rest: string)
    requires rest != "" && rest[0] !in BLANKS
    ensures TrimLeft(text + rest, BLANKS) == TrimLeft(text, BLANKS) + rest
  {
    if text == "" {
      assert text + rest == rest;
    } else if text[0] in BLANKS {
      assert (text + rest)[1..] == text[1..] + rest;
      TrimLeftStops(text[1..], rest);
    }
  }

  /** What a reader makes of what was written without quotes. */
  function Word(text: string): Option<Option<string>> {
    var word := Trim(text, BLANKS);
    if word == "" then None else if EqualFold(word, "NULL") then Some(None) else Some(Some(word))
  }

  /** What a reader makes of one element; nothing when it takes the array for malformed. */
  function Back(value: Value): Option<Option<string>> {
    if value.Null? then Some(None)
    else if Quoted(TextOf(value)) then Some(Some(TextOf(value)))
    else Word(TextOf(value))
  }

  lemma {:induction false} StillBare(text: string)
    requires !Quoted(text)
    ensures var start := TrimLeft(text, BLANKS);
            !ContainsAny(start, PUNCTUATION) && (start != "" ==> start[0] != '"')
  {
    TrimLeftIs(text, BLANKS);
    var start := TrimLeft(text, BLANKS);
    var skipped := |text| - |start|;
    assert forall i :: 0 <= i < |start| ==> start[i] == text[skipped + i];
  }

  lemma MarkedIs(word: string)
    ensures Chars(Marked(word)) == word && (IsNull(Marked(word)) <==> EqualFold(word, "NULL"))
  {}

  lemma ItemBare(text: string, rest: string)
    requires !Quoted(text) && Ends(rest)
    ensures Item(text + rest) == match Word(text) case None => None case Some(word) => Some((word, rest))
  {
    var start := TrimLeft(text, BLANKS);
    TrimLeftStops(text, rest);
    StillBare(text);
    BareIs(start, rest);
    TrimMarksIs(start);
    MarkedIs(TrimRight(start, BLANKS));
    hide Bare, InQuotes, TrimMarks, TrimLeft, TrimRight, IsNull, Chars, Quoted, EqualFold, ContainsAny;
    assert start != "" ==> (start + rest)[0] == start[0];
    assert start == "" ==> start + rest == rest;
  }

  lemma {:induction false} ItemQuoted(text: string, rest: string)
    requires Ends(rest)
    ensures Item("\"" + Escaped(text) + "\"" + rest) == Some((Some(text), rest))
  {
    var s := "\"" + Escaped(text) + "\"" + rest;
    var end := "\"" + rest;
    assert s[1..] == Escaped(text) + end && end[1..] == rest;
    InQuotesIs(text, end);
  }

  lemma {:induction false} ItemBack(value: Value, rest: string)
    requires Ends(rest)
    ensures Item(ElementOf(value) + rest) == match Back(value) case None => None case Some(word) => Some((word, rest))
  {
    if value.Null? {
      NullIsBare();
      ItemBare("NULL", rest);
    } else if Quoted(TextOf(value)) {
      ItemQuoted(TextOf(value), rest);
    } else {
      ItemBare(TextOf(value), rest);
    }
  }

  lemma NullIsBare()
    ensures !Quoted("NULL") && Word("NULL") == Some(None)
  {}

  /** The items of the rest of an array. */
  function Backs(values: seq<Value>): Option<seq<Option<string>>> {
    if values == [] then Some([])
    else match (Back(values[0]), Backs(values[1..]))
      case (Some(first), Some(more)) => Some([first] + more)
      case _ => None
  }

  lemma {:induction false} ItemsBack(values: seq<Value>)
    requires values != []
    ensures Items(Join(ElementsOf(values), ',') + "}") ==
            match Backs(values) case None => None case Some(items) => Some((items, ""))
  {
    var written, more := ElementsOf(values), values[1..];
    var s := Join(written, ',') + "}";
    if |values| == 1 {
      ItemBack(values[0], "}");
      assert Backs(more) == Some([]);
      assert s == ElementOf(values[0]) + "}" && "}"[1..] == "";
      assert forall first: Option<string> :: [first] + [] == [first];
    } else {
      var rest := "," + (Join(ElementsOf(more), ',') + "}");
      assert written[1..] == ElementsOf(more);
      assert s == ElementOf(values[0]) + rest;
      assert rest[1..] == Join(ElementsOf(more), ',') + "}";
      ItemBack(values[0], rest);
      ItemsBack(more);
    }
  }

  lemma {:induction false} TrimLeftTwice(s: string)
    ensures TrimLeft(TrimLeft(s, BLANKS), BLANKS) == TrimLeft(s, BLANKS)
  {
    TrimLeftIs(s, BLANKS);
  }

  /** What is read from a list that was written: what its elements are read as, or, when one of
      them holds nothing but white space that is not quoted, nothing like it. */
  lemma {:induction false} ReadIs(values: seq<Value>)
    requires values != []
    ensures match Backs(values)
            case Some(items) => Read(ArrayOf(values)) == Some(items)
            case None => Read(ArrayOf(values)) == None || Read(ArrayOf(values)) == Some([])
  {
    var s := Join(ElementsOf(values), ',') + "}";
    var inside := TrimLeft(s, BLANKS);
    assert ArrayOf(values) == "{" + s;
    assert ArrayOf(values)[1..] == s;
    TrimLeftTwice(s);
    assert Items(inside) == Items(s);
    ItemsBack(values);
    assert Only("", BLANKS);
  }

  lemma ReadEmpty()
    ensures Read(ArrayOf([])) == Some([])
  {}

  /** What an element should be read as: nothing for a null, and its text for anything else. */
  function Shown(values: seq<Value>): (r: seq<Option<string>>)
    ensures |r| == |values|
    ensures forall i :: 0 <= i < |r| ==> r[i] == if values[i].Null? then None else Some(TextOf(values[i]))
  {
    seq(|values|, i requires 0 <= i < |values| => if values[i].Null? then None else Some(TextOf(values[i])))
  }

  /** A text that a reader cannot take for anything else: not the word NULL, in any case, and
      with no white space at its ends but a space, which is quoted for. */
  predicate Safe(value: Value) {
    value.Plain? && !Quoted(value.text) ==>
      !EqualFold(value.text, "NULL") && value.text[0] !in BLANKS && value.text[|value.text| - 1] !in BLANKS
  }

  predicate AllSafe(values: seq<Value>) {
    forall i :: 0 <= i < |values| ==> Safe(values[i])
  }

  lemma {:induction false} ListQuoted(values: seq<Value>)
    ensures Quoted(ArrayOf(values))
  {
    assert ArrayOf(values)[0] == '{';
  }

  lemma {:induction false} BackIsShown(value: Value)
    ensures Back(value) == Some(if value.Null? then None else Some(TextOf(value))) <==> Safe(value)
  {
    match value {
      case Null =>
      case Plain(text) =>
        if !Quoted(text) {
          TrimNothing(text, BLANKS);
        }
      case List(values) => ListQuoted(values);
    }
  }

  lemma {:induction false} BacksAreShown(values: seq<Value>)
    ensures Backs(values) == Some(Shown(values)) <==> AllSafe(values)
  {
    if values != [] {
      var first := if values[0].Null? then None else Some(TextOf(values[0]));
      BackIsShown(values[0]);
      BacksAreShown(values[1..]);
      assert Shown(values) == [first] + Shown(values[1..]);
      assert AllSafe(values) <==> Safe(values[0]) && AllSafe(values[1..]);
      if Backs(values) == Some(Shown(values)) {
        assert Shown(values)[0] == first && Shown(values)[1..] == Shown(values[1..]);
      }
    }
  }

  /** A list that was written is read back, in its length, its nulls and its texts, exactly when
      every text in it that was not quoted could only be read as itself. */
  lemma {:induction false} ReadBackExactly(values: seq<Value>)
    ensures Read(ArrayOf(values)) == Some(Shown(values)) <==> AllSafe(values)
  {
    if values == [] {
      ReadEmpty();
    } else {
      ReadIs(values);
      BacksAreShown(values);
    }
  }

  // ---------------------------------------------------------------------------------------
  // Lists in lists
  // ---------------------------------------------------------------------------------------

  predicate SafeThroughout(values: seq<Value>)
    decreases values
  {
    AllSafe(values) && forall i :: 0 <= i < |values| && values[i].List? ==> SafeThroughout(values[i].values)
  }

  /** A text from which the whole of a list is recovered, however deep: the literal of a list in
      it is read as a text, and then read again. */
  predicate Recovers(values: seq<Value>, text: string)
    decreases values
  {
    && Read(text).Some?
    && var items := Read(text).value;
       && |items| == |values|
       && forall i :: 0 <= i < |values| ==>
            match values[i]
            case Null => items[i] == None
            case Plain(plain) => items[i] == Some(plain)
            case List(inner) => items[i].Some? && Recovers(inner, items[i].value)
  }

  lemma {:induction false} BacksAt(values: seq<Value>, i: nat)
    requires Backs(values).Some? && i < |values|
    ensures |Backs(values).value| == |values| && Back(values[i]) == Some(Backs(values).value[i])
  {
    if |values| > 1 {
      BacksAt(values[1..], if i == 0 then 0 else i - 1);
    }
  }

  /** A list in a list is always read as the literal it was written as. */
  lemma {:induction false} ListReadBack(values: seq<Value>, i: nat)
    requires i < |values| && Read(ArrayOf(values)).Some? && |Read(ArrayOf(values)).value| == |values|
    requires values[i].List?
    ensures Read(ArrayOf(values)).value[i] == Some(ArrayOf(values[i].values))
  {
    ReadIs(values);
    BacksAt(values, i);
    ListQuoted(values[i].values);
  }

  /** Lists in lists come back to any depth exactly when every text in any of them is safe. */
  lemma {:induction false} RecoversExactly(values: seq<Value>)
    ensures Recovers(values, ArrayOf(values)) <==> SafeThroughout(values)
    decreases values
  {
    var text := ArrayOf(values);
    ReadBackExactly(values);
    forall i | 0 <= i < |values| && values[i].List?
      ensures Recovers(values[i].values, ArrayOf(values[i].values)) <==> SafeThroughout(values[i].values)
    {
      RecoversExactly(values[i].values);
    }
    if Recovers(values, text) {
      var items := Read(text).value;
      forall i | 0 <= i < |values| && values[i].List?
        ensures items[i] == Some(ArrayOf(values[i].values))
      {
        ListReadBack(values, i);
      }
      assert items == Shown(values);
    }
  }

  // ---------------------------------------------------------------------------------------
  // What is not read back
  // ---------------------------------------------------------------------------------------

  /** A text that is the word NULL is read as a null. */
  lemma NullWordLost()
    ensures Read(ArrayOf([Plain("Null")])) == Some([None])
  {
    var word := Plain("Null");
    TrimNothing("Null", BLANKS);
    assert Back(word) == Some(None);
    hide *;
    ReadOne(word, None);
  }

  /** A text that ends in a tab is read without it. */
  lemma TabLost()
    ensures Read(ArrayOf([Plain("a\t")])) == Some([Some("a")])
  {
    var tab := Plain("a\t");
    assert TrimRight("a", BLANKS) == "a" && "a\t"[..1] == "a";
    assert Back(tab) == Some(Some("a"));
    hide *;
    ReadOne(tab, Some("a"));
  }

  lemma ReadOne(value: Value, item: Option<string>)
    requires Back(value) == Some(item)
    ensures Read(ArrayOf([value])) == Some([item])
  {
    ReadIs([value]);
    assert [value][1..] == [] && Backs([]) == Some([]);
    assert [item] + [] == [item];
  }
}
