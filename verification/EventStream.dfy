/** A reader of event streams, and the events any way of writing them comes back as. */
module EventStreams {
  import opened Options
  import opened Strings

  /** One event: the name it was given, and its data lines joined back together. */
  datatype Event = Event(name: string, data: string)

  /** An event as it stands in a stream: its name and its data lines. */
  datatype Wire = Wire(name: string, lines: seq<string>)
  {
    predicate Blank() {
      name == "" && lines == []
    }

    function Finish(): Event {
      Event(name, Join(lines, '\n'))
    }
  }

  const NOTHING := Wire("", [])
  const ENDINGS: set<char> := {'\r', '\n'}

  function TrimPrefix(s: string, prefix: char): string {
    if s != "" && s[0] == prefix then s[1..] else s
  }

  /** What one line that is not blank and no comment adds to the event being read. */
  function Taken(text: string, event: Wire): Wire {
    var (field, value, _) := Cut(text, ':');
    var trimmed := TrimPrefix(value, ' ');
    if field == "event" then event.(name := trimmed)
    else if field == "data" then event.(lines := event.lines + [trimmed])
    else event
  }

  /** The events of some lines, when part of one was read already. A blank line ends an event
      there is something of, and so does the end of the stream. */
  function Wires(texts: seq<string>, event: Wire): seq<Wire> {
    if texts == [] then if event.Blank() then [] else [event]
    else
      var rest := texts[1..];
      if texts[0] == "" then (if event.Blank() then [] else [event]) + Wires(rest, NOTHING)
      else if texts[0][0] == ':' then Wires(rest, event)
      else Wires(rest, Taken(texts[0], event))
  }

  function Trimmed(lines: seq<string>): (r: seq<string>)
    ensures |r| == |lines| && forall i :: 0 <= i < |r| ==> r[i] == TrimRight(lines[i], ENDINGS)
  {
    seq(|lines|, i requires 0 <= i < |lines| => TrimRight(lines[i], ENDINGS))
  }

  function Texts(stream: string): (r: seq<string>)
    ensures |r| >= 1
  {
    Trimmed(Split(stream, '\n'))
  }

  function Finished(wires: seq<Wire>): (r: seq<Event>)
    ensures |r| == |wires| && forall i :: 0 <= i < |r| ==> r[i] == wires[i].Finish()
  {
    seq(|wires|, i requires 0 <= i < |wires| => wires[i].Finish())
  }

  function Decode(stream: string): seq<Event> {
    Finished(Wires(Texts(stream), NOTHING))
  }

  /** The events that were ended by a blank line. */
  function Complete(texts: seq<string>, event: Wire): seq<Wire> {
    if texts == [] then []
    else
      var rest := texts[1..];
      if texts[0] == "" then (if event.Blank() then [] else [event]) + Complete(rest, NOTHING)
      else if texts[0][0] == ':' then Complete(rest, event)
      else Complete(rest, Taken(texts[0], event))
  }

  /** What there is of an event after the last blank line. */
  function LeftOpen(texts: seq<string>, event: Wire): Wire {
    if texts == [] then event
    else if texts[0] == "" then LeftOpen(texts[1..], NOTHING)
    else if texts[0][0] == ':' then LeftOpen(texts[1..], event)
    else LeftOpen(texts[1..], Taken(texts[0], event))
  }

  /** What a last line that was not ended adds. */
  function Heard(text: string, event: Wire): Wire {
    if text == "" || text[0] == ':' then event else Taken(text, event)
  }

  /** The lines of a stream that were ended. */
  function Ended(stream: string): seq<string> {
    Texts(stream)[..|Texts(stream)| - 1]
  }

  /** What there is of an event where a stream stops, its last line included. */
  function Unfinished(stream: string): Wire {
    Heard(Texts(stream)[|Texts(stream)| - 1], LeftOpen(Ended(stream), NOTHING))
  }

  // ---------------------------------------------------------------------------------------
  // The reader
  // ---------------------------------------------------------------------------------------

  lemma OneLine(stream: string, at: nat)
    requires at < |stream| && stream[at] == '\n' && '\n' !in stream[..at]
    ensures Texts(stream) == [TrimRight(stream[..at + 1], ENDINGS)] + Texts(stream[at + 1..])
  {
    assert stream == stream[..at] + ['\n'] + stream[at + 1..];
    SplitFirst(stream[..at], stream[at + 1..], '\n');
    TrimRightTail(stream[..at], "\n", ENDINGS);
    assert stream[..at + 1] == stream[..at] + "\n";
  }

  lemma {:induction false} NoLine(stream: string)
    requires '\n' !in stream
    ensures Texts(stream) == [TrimRight(stream, ENDINGS)]
  {
    SplitWhole(stream, '\n');
  }

  /** How a body stops. */
  datatype Stop = Eof | Broken(cause: string)

  /** What a body that stops like this still has to give, when part of an event was read already. */
  function Due(stop: Stop, stream: string, event: Wire): seq<Wire> {
    if stop.Eof? then Wires(Texts(stream), event) else Complete(Ended(stream), event)
  }

  lemma DueLine(stop: Stop, stream: string, at: nat, event: Wire)
    requires at < |stream| && stream[at] == '\n' && '\n' !in stream[..at]
    ensures
      var text, rest := TrimRight(stream[..at + 1], ENDINGS), stream[at + 1..];
      Due(stop, stream, event) ==
      if text == "" then Flush(event) + Due(stop, rest, NOTHING)
      else Due(stop, rest, Heard(text, event))
  {
    OneLine(stream, at);
    var text, more := TrimRight(stream[..at + 1], ENDINGS), Texts(stream[at + 1..]);
    hide Texts, Taken, TrimRight;
    HeardFirst(text, more, event);
    HeardFirst(text, more[..|more| - 1], event);
    var all := [text] + more;
    assert Texts(stream) == all;
    assert Ended(stream) == all[..|all| - 1] == [text] + more[..|more| - 1];
    assert Ended(stream[at + 1..]) == more[..|more| - 1];
    hide Wires, Complete, Ended, Heard, Flush;
  }

  lemma {:induction false} HeardFirst(text: string, more: seq<string>, event: Wire)
    ensures Wires([text] + more, event) ==
            if text == "" then Flush(event) + Wires(more, NOTHING) else Wires(more, Heard(text, event))
    ensures Complete([text] + more, event) ==
            if text == "" then Flush(event) + Complete(more, NOTHING) else Complete(more, Heard(text, event))
  {
    var all := [text] + more;
    assert all[1..] == more;
  }

  lemma {:induction false} DueEnd(stop: Stop, stream: string, event: Wire)
    requires '\n' !in stream
    ensures Due(stop, stream, event) ==
            if stop.Broken? then [] else Flush(Heard(TrimRight(stream, ENDINGS), event))
  {
    NoLine(stream);
    var text := TrimRight(stream, ENDINGS);
    WiresEnd([], text, event);
    assert [] + [text] == [text] && [text][..0] == [];
    assert Complete([], event) + Flush(Heard(text, event)) == Flush(Heard(text, event));
  }

  function Flush(event: Wire): seq<Wire> {
    if event.Blank() then [] else [event]
  }

  /** Reads a body; `rest` is what has not been read of it. */
  class Events {
    const stop: Stop
    var rest: string

    constructor (body: string, stop: Stop)
      ensures rest == body && this.stop == stop
    {
      rest := body;
      this.stop := stop;
    }

    /** The events that are still to come. */
    ghost function Ahead(): seq<Event>
      reads this
    {
      Finished(Due(stop, rest, NOTHING))
    }

    /** Everything up to the end of the line, and how the body stopped when it did first. */
    method ReadString() returns (line: string, stopped: Option<Stop>)
      modifies this
      ensures line + rest == old(rest)
      ensures stopped.Some? ==> rest == "" && '\n' !in line && stopped == Some(stop)
      ensures stopped.None? ==> line != "" && line[|line| - 1] == '\n' && '\n' !in line[..|line| - 1]
    {
      var i := 0;
      while i < |rest| && rest[i] != '\n'
        invariant 0 <= i <= |rest| && '\n' !in rest[..i]
      {
        i := i + 1;
      }
      if i == |rest| {
        line, stopped := rest, Some(stop);
        rest := "";
      } else {
        line, stopped := rest[..i + 1], None;
        assert line[..i] == rest[..i];
        rest := rest[i + 1..];
      }
    }

    /** The next event, or how the body stopped. What was read of an event is lost when that is
        not at its end. */
    method Next() returns (event: Outcome<Event, Stop>)
      modifies this
      ensures match event
              case Ok(e) => old(Ahead()) == [e] + Ahead() && |rest| < |old(rest)|
              case Err(stopped) => old(Ahead()) == [] && rest == "" && stopped == stop
    {
      hide Due, Wires, Complete, Taken, Texts, TrimRight, Join;
      var reading := NOTHING;
      while true
        invariant Finished(Due(stop, rest, reading)) == old(Ahead())
        invariant |rest| <= |old(rest)| && (!reading.Blank() ==> |rest| < |old(rest)|)
        decreases |rest|
      {
        ghost var before := rest;
        var line, stopped := ReadString();
        if stopped.Some? {
          assert before == line;
          DueEnd(stop, before, reading);
        } else {
          assert before[..|line|] == line && before[|line|..] == rest;
          DueLine(stop, before, |line| - 1, reading);
        }
        if stopped.Some? && stopped.value.Broken? {
          return Err(stopped.value);
        }
        var text := TrimRight(line, ENDINGS);
        if text == "" {
          if stopped.Some? {
            event := Flushed(reading);
            return;
          }
          if reading.Blank() {
            assert [] + Due(stop, rest, NOTHING) == Due(stop, rest, NOTHING);
            continue;
          }
          FinishFirst(reading, Due(stop, rest, NOTHING));
          return Ok(reading.Finish());
        }
        TrimRightIs(line, ENDINGS);
        if text[0] != ':' {
          reading := Taken(text, reading);
        }
        if stopped.Some? {
          event := Flushed(reading);
          return;
        }
      }
    }

    /** What is left when the body ends, if anything is. */
    method Flushed(reading: Wire) returns (event: Outcome<Event, Stop>)
      requires rest == "" && stop.Eof?
      ensures match event
              case Ok(e) => Finished(Flush(reading)) == [e] + Ahead() && !reading.Blank()
              case Err(stopped) => Finished(Flush(reading)) == [] && stopped == stop
    {
      DueEnd(stop, "", NOTHING);
      hide Due;
      if reading.Blank() {
        return Err(Eof);
      }
      return Ok(reading.Finish());
    }

    /** Every event there is left, and how the body stopped. */
    method ReadAll() returns (events: seq<Event>, stopped: Stop)
      modifies this
      ensures events == old(Ahead()) && stopped == stop && rest == ""
    {
      hide Ahead;
      events := [];
      while true
        invariant events + Ahead() == old(Ahead())
        decreases |rest|
      {
        ghost var left := Ahead();
        var event := Next();
        match event {
          case Err(how) => return events, how;
          case Ok(e) =>
            assert (events + [e]) + Ahead() == events + left;
            events := events + [e];
        }
      }
    }
  }

  lemma FinishFirst(first: Wire, more: seq<Wire>)
    ensures Finished([first] + more) == [first.Finish()] + Finished(more)
  {}

  /** What a body gives that ends where it should is all of its events, and what one gives that breaks
      off is those of them that a blank line ended. */
  lemma {:induction false} AheadIs(body: string, cause: string)
    ensures Finished(Due(Eof, body, NOTHING)) == Decode(body)
    ensures Finished(Due(Broken(cause), body, NOTHING)) == Finished(Complete(Ended(body), NOTHING))
    ensures Due(Eof, body, NOTHING) == Due(Broken(cause), body, NOTHING) + Flush(Unfinished(body))
  {
    var texts := Texts(body);
    assert texts == Ended(body) + [texts[|texts| - 1]];
    WiresEnd(Ended(body), texts[|texts| - 1], NOTHING);
  }

  lemma {:induction false} WiresEnd(texts: seq<string>, last: string, event: Wire)
    ensures Wires(texts + [last], event) == Complete(texts, event) + Flush(Heard(last, LeftOpen(texts, event)))
  {
    var all := texts + [last];
    if texts == [] {
      assert all[1..] == [];
    } else {
      assert all[1..] == texts[1..] + [last] && all[0] == texts[0];
      WiresEnd(texts[1..], last, NOTHING);
      WiresEnd(texts[1..], last, event);
      WiresEnd(texts[1..], last, Taken(texts[0], event));
    }
  }

  // ---------------------------------------------------------------------------------------
  // What is written is read back
  // ---------------------------------------------------------------------------------------

  /** A text that fits on a line, whichever way the line is ended. */
  predicate FitsLine(s: string) {
    '\n' !in s && (s != "" ==> s[|s| - 1] != '\r')
  }

  predicate Fits(wire: Wire) {
    !wire.Blank() && FitsLine(wire.name) && forall i :: 0 <= i < |wire.lines| ==> FitsLine(wire.lines[i])
  }

  function DataLines(lines: seq<string>): (r: seq<string>)
    ensures |r| == |lines| && forall i :: 0 <= i < |r| ==> r[i] == "data: " + lines[i]
  {
    seq(|lines|, i requires 0 <= i < |lines| => "data: " + lines[i])
  }

  /** The lines of an event, and the blank one that ends it. */
  function Lines(wire: Wire): seq<string> {
    (if wire.name == "" then [] else ["event: " + wire.name]) + DataLines(wire.lines) + [""]
  }

  function AllLines(wires: seq<Wire>): seq<string> {
    if wires == [] then [] else Lines(wires[0]) + AllLines(wires[1..])
  }

  function Encode(wires: seq<Wire>): string {
    Join(AllLines(wires) + [""], '\n')
  }

  lemma TakenName(name: string, event: Wire)
    ensures Taken("event: " + name, event) == event.(name := name)
  {
    assert "event: " + name == "event" + [':'] + (" " + name);
    CutFirst("event", ':', " " + name);
    assert (" " + name)[1..] == name;
  }

  lemma TakenData(line: string, event: Wire)
    ensures Taken("data: " + line, event) == event.(lines := event.lines + [line])
  {
    assert "data: " + line == "data" + [':'] + (" " + line);
    CutFirst("data", ':', " " + line);
    assert (" " + line)[1..] == line;
  }

  /** What a field means: a name, a line of data, or nothing when it is any other, and one space before
      its value is no part of it. A line with no colon is a field with nothing in it. */
  lemma FieldTaken(field: string, value: string, event: Wire)
    requires ':' !in field
    ensures
      var after := if value != "" && value[0] == ' ' then value[1..] else value;
      Taken(field + ":" + value, event) ==
      if field == "event" then Wire(after, event.lines)
      else if field == "data" then Wire(event.name, event.lines + [after])
      else event
    ensures
      Taken(field, event) ==
      if field == "event" then Wire("", event.lines)
      else if field == "data" then Wire(event.name, event.lines + [""])
      else event
  {
    CutFirst(field, ':', value);
    assert field + [':'] + value == field + ":" + value;
    CutWhole(field, ':');
  }

  lemma {:induction false} DataTaken(lines: seq<string>, rest: seq<string>, event: Wire)
    ensures Wires(DataLines(lines) + rest, event) == Wires(rest, event.(lines := event.lines + lines))
  {
    if lines == [] {
      assert DataLines(lines) + rest == rest && event.lines + lines == event.lines;
    } else {
      var all := DataLines(lines) + rest;
      assert all[0] == "data: " + lines[0] && all[0][0] == 'd';
      assert all[1..] == DataLines(lines[1..]) + rest;
      TakenData(lines[0], event);
      DataTaken(lines[1..], rest, event.(lines := event.lines + [lines[0]]));
      assert event.lines + [lines[0]] + lines[1..] == event.lines + lines;
    }
  }

  lemma {:induction false} WireRead(wire: Wire, rest: seq<string>)
    requires !wire.Blank()
    ensures Wires(Lines(wire) + rest, NOTHING) == [wire] + Wires(rest, NOTHING)
  {
    var tail := [""] + rest;
    var data := DataLines(wire.lines) + tail;
    assert tail[1..] == rest;
    if wire.name == "" {
      assert Lines(wire) + rest == data;
      DataTaken(wire.lines, tail, NOTHING);
      assert [] + wire.lines == wire.lines;
    } else {
      var all := Lines(wire) + rest;
      assert all == ["event: " + wire.name] + data;
      assert all[0][0] == 'e' && all[1..] == data;
      TakenName(wire.name, NOTHING);
      DataTaken(wire.lines, tail, Wire(wire.name, []));
      assert [] + wire.lines == wire.lines;
    }
  }

  lemma {:induction false} WiresRead(wires: seq<Wire>)
    requires forall i :: 0 <= i < |wires| ==> !wires[i].Blank()
    ensures Wires(AllLines(wires) + [""], NOTHING) == wires
  {
    if wires == [] {
      assert AllLines(wires) + [""] == [""];
    } else {
      WireRead(wires[0], AllLines(wires[1..]) + [""]);
      WiresRead(wires[1..]);
      assert AllLines(wires) + [""] == Lines(wires[0]) + (AllLines(wires[1..]) + [""]);
    }
  }

  lemma LinesFit(wire: Wire)
    requires Fits(wire)
    ensures forall i :: 0 <= i < |Lines(wire)| ==> FitsLine(Lines(wire)[i])
  {}

  lemma {:induction false} AllLinesFit(wires: seq<Wire>)
    requires forall i :: 0 <= i < |wires| ==> Fits(wires[i])
    ensures forall i :: 0 <= i < |AllLines(wires)| ==> FitsLine(AllLines(wires)[i])
  {
    if wires != [] {
      LinesFit(wires[0]);
      AllLinesFit(wires[1..]);
    }
  }

  lemma FitTexts(lines: seq<string>)
    requires forall i :: 0 <= i < |lines| ==> FitsLine(lines[i])
    ensures Trimmed(lines) == lines
  {}

  /** Whatever events are written, reading until the stream ends returns exactly them. */
  lemma RoundTrip(wires: seq<Wire>)
    requires forall i :: 0 <= i < |wires| ==> Fits(wires[i])
    ensures Decode(Encode(wires)) == Finished(wires)
  {
    var lines := AllLines(wires) + [""];
    AllLinesFit(wires);
    SplitJoin(lines, '\n');
    FitTexts(lines);
    WiresRead(wires);
  }

  // ---------------------------------------------------------------------------------------
  // However it is written
  // ---------------------------------------------------------------------------------------

  /** A list of lines with one more character before the first. */
  function Pushed(letter: char, lines: seq<string>): seq<string>
    requires lines != []
  {
    if letter == '\n' then [""] + lines else [[letter] + lines[0]] + lines[1..]
  }

  lemma PushedAppend(letter: char, a: seq<string>, b: seq<string>)
    requires a != []
    ensures Pushed(letter, a + b) == Pushed(letter, a) + b
  {}

  lemma {:induction false} SplitPushed(s: string)
    requires s != ""
    ensures Split(s, '\n') == Pushed(s[0], Split(s[1..], '\n'))
  {}

  lemma {:induction false} SplitAcross(a: string, tail: string)
    requires tail != "" && tail[0] == '\n'
    ensures Split(a + tail, '\n') == Split(a, '\n') + Split(tail[1..], '\n')
  {
    if a == "" {
      assert a + tail == tail;
      SplitPushed(tail);
    } else {
      SplitAcross(a[1..], tail);
      assert (a + tail)[1..] == a[1..] + tail && (a + tail)[0] == a[0];
      SplitPushed(a);
      SplitPushed(a + tail);
      PushedAppend(a[0], Split(a[1..], '\n'), Split(tail[1..], '\n'));
      hide Split, Pushed;
    }
  }

  lemma TextsAcross(a: string, b: string)
    ensures Texts(a + "\n" + b) == Texts(a) + Texts(b)
  {
    var tail := "\n" + b;
    assert a + "\n" + b == a + tail && tail[1..] == b;
    SplitAcross(a, tail);
  }

  lemma {:induction false} CommentSkipped(a: seq<string>, comment: string, b: seq<string>, event: Wire)
    requires comment != "" && comment[0] == ':'
    ensures Wires(a + [comment] + b, event) == Wires(a + b, event)
  {
    if a == [] {
      assert a + [comment] + b == [comment] + b && ([comment] + b)[1..] == b;
      assert a + b == b;
    } else {
      assert (a + [comment] + b)[1..] == a[1..] + [comment] + b;
      assert (a + b)[1..] == a[1..] + b;
      CommentSkipped(a[1..], comment, b, NOTHING);
      CommentSkipped(a[1..], comment, b, event);
      CommentSkipped(a[1..], comment, b, Taken(a[0], event));
    }
  }

  lemma {:induction false} StartKept(s: string, cut: set<char>)
    requires s != "" && s[0] !in cut
    ensures TrimRight(s, cut) != "" && TrimRight(s, cut)[0] == s[0]
  {
    if s[|s| - 1] in cut {
      StartKept(s[..|s| - 1], cut);
    }
  }

  /** The one line of a comment. */
  lemma CommentText(comment: string) returns (text: string)
    requires '\n' !in comment
    ensures text != "" && text[0] == ':' && Texts(":" + comment) == [text]
  {
    var line := ":" + comment;
    NoLine(line);
    StartKept(line, ENDINGS);
    text := TrimRight(line, ENDINGS);
  }

  /** A comment line changes nothing, wherever it stands: before everything, or after any line. */
  lemma CommentFirst(comment: string, b: string)
    requires '\n' !in comment
    ensures Decode(":" + comment + "\n" + b) == Decode(b)
  {
    var text := CommentText(comment);
    TextsAcross(":" + comment, b);
    hide Texts;
    assert ([text] + Texts(b))[1..] == Texts(b);
  }

  lemma CommentAnywhere(a: string, comment: string, b: string)
    requires '\n' !in comment
    ensures Decode(a + "\n" + (":" + comment + "\n" + b)) == Decode(a + "\n" + b)
  {
    var text := CommentText(comment);
    TextsAcross(a, b);
    TextsAcross(":" + comment, b);
    TextsAcross(a, ":" + comment + "\n" + b);
    hide Texts;
    CommentSkipped(Texts(a), text, Texts(b), NOTHING);
    assert Texts(a) + ([text] + Texts(b)) == Texts(a) + [text] + Texts(b);
  }

  lemma {:induction false} LastLonger(a: string)
    ensures Texts(a + "\r") == Texts(a)
  {
    if '\n' in a {
      var i :| 0 <= i < |a| && a[i] == '\n';
      var head, tail := a[..i], a[i + 1..];
      assert a == head + "\n" + tail && a + "\r" == head + "\n" + (tail + "\r");
      TextsAcross(head, tail);
      TextsAcross(head, tail + "\r");
      LastLonger(tail);
    } else {
      NoLine(a);
      NoLine(a + "\r");
      TrimRightTail(a, "\r", ENDINGS);
    }
  }

  /** A line may end in a line feed or in a carriage return and a line feed, each as it likes. */
  lemma EndingsAlike(a: string, b: string)
    ensures Decode(a + "\r\n" + b) == Decode(a + "\n" + b)
  {
    assert a + "\r\n" + b == (a + "\r") + "\n" + b;
    TextsAcross(a + "\r", b);
    TextsAcross(a, b);
    LastLonger(a);
  }

  lemma {:induction false} BlankAtEnd(texts: seq<string>, event: Wire)
    ensures Wires(texts + [""], event) == Wires(texts, event)
  {
    if texts == [] {
      assert texts + [""] == [""];
    } else {
      assert (texts + [""])[1..] == texts[1..] + [""];
      BlankAtEnd(texts[1..], NOTHING);
      BlankAtEnd(texts[1..], event);
      BlankAtEnd(texts[1..], Taken(texts[0], event));
    }
  }

  /** The last line may go without its end, and so may the blank line that ends the last event. */
  lemma LastLineFeed(a: string)
    ensures Decode(a + "\n") == Decode(a)
  {
    assert a + "\n" + "" == a + "\n";
    TextsAcross(a, "");
    NoLine("");
    assert Texts("") == [""];
    BlankAtEnd(Texts(a), NOTHING);
  }

  // ---------------------------------------------------------------------------------------
  // Beside the standard
  // ---------------------------------------------------------------------------------------

  /** The lines of a stream as section 9.2.6 of the WHATWG HTML standard interprets them: a data
      buffer each data line is added to with a line feed, an event that is dispatched at a blank
      line unless that buffer is empty, and nothing for what the stream ends in the middle of. */
  function Standard(texts: seq<string>, name: string, buffer: string): seq<Event> {
    if texts == [] then []
    else
      var rest := texts[1..];
      if texts[0] == "" then
        (if buffer == "" then [] else [Event(name, buffer[..|buffer| - 1])]) + Standard(rest, "", "")
      else if texts[0][0] == ':' then Standard(rest, name, buffer)
      else
        var (field, value, _) := Cut(texts[0], ':');
        var trimmed := TrimPrefix(value, ' ');
        if field == "event" then Standard(rest, trimmed, buffer)
        else if field == "data" then Standard(rest, name, buffer + trimmed + "\n")
        else Standard(rest, name, buffer)
  }

  function Buffer(lines: seq<string>): string {
    if lines == [] then "" else Buffer(lines[..|lines| - 1]) + lines[|lines| - 1] + "\n"
  }

  /** The events that have data. */
  function WithData(wires: seq<Wire>): seq<Wire> {
    if wires == [] then []
    else (if wires[0].lines == [] then [] else [wires[0]]) + WithData(wires[1..])
  }

  lemma {:induction false} JoinSnoc(lines: seq<string>, last: string)
    requires lines != []
    ensures Join(lines + [last], '\n') == Join(lines, '\n') + "\n" + last
  {
    var all := lines + [last];
    assert all[1..] == lines[1..] + [last];
    if |lines| > 1 {
      JoinSnoc(lines[1..], last);
    } else {
      assert all[1..] == [last];
    }
  }

  lemma {:induction false} BufferIsJoin(lines: seq<string>)
    requires lines != []
    ensures Buffer(lines) == Join(lines, '\n') + "\n"
  {
    var n := |lines| - 1;
    if n == 0 {
      assert Buffer(lines[..0]) == "";
    } else {
      BufferIsJoin(lines[..n]);
      JoinSnoc(lines[..n], lines[n]);
      assert lines == lines[..n] + [lines[n]];
    }
  }

  /** Of the events a blank line ended, the standard dispatches those that have data. */
  lemma {:induction false} StandardIs(texts: seq<string>, event: Wire)
    ensures Standard(texts, event.name, Buffer(event.lines)) == Finished(WithData(Complete(texts, event)))
  {
    if texts != [] {
      var rest := texts[1..];
      if texts[0] == "" {
        StandardIs(rest, NOTHING);
        EventAgrees(event, Complete(rest, NOTHING), Standard(rest, "", ""));
      } else if texts[0][0] == ':' {
        StandardIs(rest, event);
      } else {
        var taken := Taken(texts[0], event);
        StandardIs(rest, taken);
        assert taken.lines != event.lines ==> taken.lines[..|taken.lines| - 1] == event.lines;
      }
    }
  }

  lemma {:induction false} EventAgrees(event: Wire, more: seq<Wire>, standard: seq<Event>)
    requires Finished(WithData(more)) == standard
    ensures Finished(WithData((if event.Blank() then [] else [event]) + more)) ==
            (if Buffer(event.lines) == "" then []
             else [Event(event.name, Buffer(event.lines)[..|Buffer(event.lines)| - 1])]) + standard
  {
    if event.Blank() {
      assert [] + more == more;
    } else {
      assert ([event] + more)[1..] == more;
      if event.lines == [] {
        assert [] + WithData(more) == WithData(more);
      } else {
        BufferIsJoin(event.lines);
        FinishFirst(event, WithData(more));
      }
    }
  }

  /** The lines of a stream as section 9.2.5 of the standard has them: one may end in a line feed, in a
      carriage return, or in the two together. What comes after the last end is no line. */
  function LinesOf(stream: string, line: string): seq<string> {
    if stream == "" then []
    else if stream[0] == '\n' then [line] + LinesOf(stream[1..], "")
    else if stream[0] == '\r' then
      [line] + LinesOf(if |stream| > 1 && stream[1] == '\n' then stream[2..] else stream[1..], "")
    else LinesOf(stream[1..], line + [stream[0]])
  }

  const BYTE_ORDER_MARK := '\U{FEFF}'

  /** The events the standard dispatches for a stream, a byte order mark at its start left out. */
  function Dispatched(stream: string): seq<Event> {
    Standard(LinesOf(TrimPrefix(stream, BYTE_ORDER_MARK), ""), "", "")
  }

  /** Every carriage return is just before a line feed, and there is no byte order mark. */
  predicate PlainEnds(stream: string) {
    ReturnsPaired(stream) && (stream != "" ==> stream[0] != BYTE_ORDER_MARK)
  }

  predicate ReturnsPaired(stream: string) {
    forall i :: 0 <= i < |stream| && stream[i] == '\r' ==> i + 1 < |stream| && stream[i + 1] == '\n'
  }

  predicate Unbroken(line: string) {
    '\r' !in line && '\n' !in line
  }

  lemma {:induction false} TextOfLine(line: string)
    requires Unbroken(line)
    ensures Texts(line) == [line] && Texts(line + "\r") == [line]
  {
    NoLine(line);
    LastLonger(line);
    assert line != "" ==> line[|line| - 1] in line;
  }

  lemma EndedAcross(a: string, b: string)
    ensures Ended(a + "\n" + b) == Texts(a) + Ended(b)
  {
    TextsAcross(a, b);
    hide Texts;
  }

  lemma {:induction false} Fed(stream: string, line: string)
    requires Unbroken(line) && stream != "" && stream[0] == '\n'
    requires LinesOf(stream[1..], "") == Ended("" + stream[1..])
    ensures LinesOf(stream, line) == Ended(line + stream)
  {
    assert "" + stream[1..] == stream[1..] && line + stream == line + "\n" + stream[1..];
    LineEnded(line, line, stream[1..]);
    hide Ended, Unbroken;
  }

  lemma {:induction false} Returned(stream: string, line: string)
    requires Unbroken(line) && |stream| > 1 && stream[0] == '\r' && stream[1] == '\n'
    requires LinesOf(stream[2..], "") == Ended("" + stream[2..])
    ensures LinesOf(stream, line) == Ended(line + stream)
  {
    assert "" + stream[2..] == stream[2..] && line + stream == (line + "\r") + "\n" + stream[2..];
    LineEnded(line, line + "\r", stream[2..]);
    hide Ended, Unbroken;
  }

  lemma {:induction false} Lengthened(stream: string, line: string)
    requires stream != "" && stream[0] != '\r' && stream[0] != '\n'
    requires LinesOf(stream[1..], line + [stream[0]]) == Ended(line + [stream[0]] + stream[1..])
    ensures LinesOf(stream, line) == Ended(line + stream)
  {
    assert line + stream == line + [stream[0]] + stream[1..];
  }

  /** Where every carriage return is just before a line feed, the standard's lines are the reader's. */
  lemma {:induction false} SameLines(stream: string, line: string)
    requires ReturnsPaired(stream) && Unbroken(line)
    ensures LinesOf(stream, line) == Ended(line + stream)
    decreases |stream|
  {
    assert Unbroken("");
    if stream == "" {
      LineAlone(line);
      assert line + stream == line;
    } else if stream[0] == '\n' {
      LaterPaired(stream, 1);
      hide *;
      SameLines(stream[1..], "");
      Fed(stream, line);
    } else if stream[0] == '\r' {
      ReturnPaired(stream);
      LaterPaired(stream, 2);
      hide *;
      SameLines(stream[2..], "");
      Returned(stream, line);
    } else {
      LaterPaired(stream, 1);
      UnbrokenMore(line, stream[0]);
      hide *;
      SameLines(stream[1..], line + [stream[0]]);
      Lengthened(stream, line);
    }
  }

  lemma UnbrokenMore(line: string, letter: char)
    requires Unbroken(line) && letter != '\r' && letter != '\n'
    ensures Unbroken(line + [letter])
  {}

  lemma {:induction false} LineAlone(line: string)
    requires Unbroken(line)
    ensures Ended(line) == []
  {
    TextOfLine(line);
  }

  lemma {:induction false} LineEnded(line: string, written: string, rest: string)
    requires Unbroken(line) && (written == line || written == line + "\r")
    ensures Ended(written + "\n" + rest) == [line] + Ended(rest)
  {
    TextOfLine(line);
    EndedAcross(written, rest);
  }

  lemma ReturnPaired(stream: string)
    requires ReturnsPaired(stream) && stream != "" && stream[0] == '\r'
    ensures |stream| > 1 && stream[1] == '\n'
  {}

  lemma LaterPaired(stream: string, from: nat)
    requires ReturnsPaired(stream) && from <= |stream|
    ensures ReturnsPaired(stream[from..])
  {
    var later := stream[from..];
    assert forall i :: 0 <= i < |later| ==> later[i] == stream[from + i];
  }

  predicate AllWithData(wires: seq<Wire>) {
    forall i :: 0 <= i < |wires| ==> wires[i].lines != []
  }

  lemma {:induction false} WithDataIs(wires: seq<Wire>)
    ensures |WithData(wires)| <= |wires|
    ensures AllWithData(wires) ==> WithData(wires) == wires
    ensures |WithData(wires)| == |wires| ==> AllWithData(wires)
  {
    if wires != [] {
      WithDataIs(wires[1..]);
      assert wires == [wires[0]] + wires[1..];
    }
  }

  /** For every stream whose lines end in line feeds, with a carriage return before them or without, the
      reader returns what the standard dispatches exactly when the stream does not stop in the middle of
      an event and every event in it has data. Otherwise it returns more: all of that, and those too. */
  lemma {:induction false} AgreesExactly(stream: string)
    requires PlainEnds(stream)
    ensures
      var ended := Complete(Ended(stream), NOTHING);
      && Dispatched(stream) == Finished(WithData(ended))
      && Decode(stream) == Finished(ended + Flush(Unfinished(stream)))
      && (Decode(stream) == Dispatched(stream) <==> Unfinished(stream).Blank() && AllWithData(ended))
  {
    var ended := Complete(Ended(stream), NOTHING);
    SameLines(stream, "");
    assert "" + stream == stream;
    StandardIs(Ended(stream), NOTHING);
    assert Dispatched(stream) == Finished(WithData(ended));
    AheadIs(stream, "");
    assert Decode(stream) == Finished(ended + Flush(Unfinished(stream)));
    hide Decode, Dispatched, Complete, Ended, Unfinished, WithData, Finished;
    FinishedAlike(ended, Flush(Unfinished(stream)));
  }

  lemma {:induction false} FinishedAlike(ended: seq<Wire>, more: seq<Wire>)
    ensures Finished(ended + more) == Finished(WithData(ended)) <==> more == [] && AllWithData(ended)
  {
    WithDataIs(ended);
    hide WithData;
    assert more == [] ==> ended + more == ended;
    if Finished(ended + more) == Finished(WithData(ended)) {
      assert |ended + more| == |WithData(ended)|;
    }
  }

  // ---------------------------------------------------------------------------------------
  // Where they differ
  // ---------------------------------------------------------------------------------------

  lemma {:induction false} OneText(text: string)
    requires FitsLine(text)
    ensures Texts(text) == [text] && Texts(text + "\n") == [text, ""] && Texts(text + "\n\n") == [text, "", ""]
  {
    NoLine(text);
    NoLine("");
    assert text != "" ==> text[|text| - 1] in text;
    assert Texts("") == [""];
    assert text + "\n" + "" == text + "\n" && (text + "\n") + "\n" + "" == text + "\n\n";
    TextsAcross(text, "");
    TextsAcross(text + "\n", "");
  }

  /** The events of one line, ended, ended by a blank one too, and not ended at all. */
  lemma {:induction false} OneLineHeard(text: string)
    requires text != ""
    ensures Complete([text, ""], NOTHING) == Flush(Heard(text, NOTHING)) && Complete([text], NOTHING) == []
    ensures LeftOpen([text, ""], NOTHING) == NOTHING && LeftOpen([text], NOTHING) == Heard(text, NOTHING)
  {
    var texts, heard := [text, ""], Heard(text, NOTHING);
    assert texts[1..] == [""] && [""][1..] == [] && [text][1..] == [];
    assert LeftOpen([""], heard) == NOTHING && Flush(heard) + [] == Flush(heard);
    assert Complete([""], heard) == Flush(heard) + Complete([""][1..], NOTHING);
    assert Complete([], heard) == [] && LeftOpen([], heard) == heard;
  }

  lemma {:induction false} Closed(text: string)
    requires text != "" && FitsLine(text)
    ensures Decode(text + "\n\n") == Finished(Flush(Heard(text, NOTHING)))
    ensures Ended(text + "\n\n") == [text, ""]
  {
    var stream := text + "\n\n";
    OneText(text);
    OneLineHeard(text);
    AheadIs(stream, "");
    assert [text, "", ""][..2] == [text, ""];
    assert Unfinished(stream) == NOTHING;
  }

  /** An event that has a name and no data is returned, which the standard would not do. */
  lemma {:induction false} NameAlone(name: string)
    requires name != "" && Unbroken(name)
    ensures Decode("event: " + name + "\n\n") == [Event(name, "")]
    ensures Dispatched("event: " + name + "\n\n") == []
  {
    var text := "event: " + name;
    assert text[0] == 'e';
    TakenName(name, NOTHING);
    Closed(text);
    OneLineHeard(text);
    AgreesExactly(text + "\n\n");
    assert [Wire(name, [])][1..] == [];
  }

  /** A value needs no space before it, and of several only the first is no part of it. */
  lemma {:induction false} SpaceOrNone(data: string)
    requires Unbroken(data)
    ensures var value := if data != "" && data[0] == ' ' then data[1..] else data;
            Decode("data:" + data + "\n\n") == [Event("", value)] == Dispatched("data:" + data + "\n\n")
  {
    var text := "data:" + data;
    var value := if data != "" && data[0] == ' ' then data[1..] else data;
    DataAlone(data);
    hide TrimRight, Join, Split, Decode, Dispatched, Complete, Ended, Unfinished, Heard, LeftOpen, Unbroken, PlainEnds;
    Closed(text);
    OneLineHeard(text);
    AgreesExactly(text + "\n\n");
    assert [Wire("", [value])][1..] == [] && Wire("", [value]).Finish() == Event("", value) by {
      JoinOne(value);
    }
  }

  lemma JoinOne(value: string)
    ensures Join([value], '\n') == value
  {}

  lemma {:induction false} DataAlone(data: string)
    requires Unbroken(data)
    ensures var text := "data:" + data;
            var value := if data != "" && data[0] == ' ' then data[1..] else data;
            && text != "" && FitsLine(text) && PlainEnds(text + "\n\n") && Heard(text, NOTHING) == Wire("", [value])
  {
    var text := "data:" + data;
    assert text[0] == 'd' && "data" + ":" + data == text;
    FieldTaken("data", data, NOTHING);
  }

  /** One the stream stops in the middle of is returned as well, whether its last line was ended or
      not; and not when the stream broke off there. */
  lemma {:induction false} CutOff(data: string, cause: string)
    requires Unbroken(data)
    ensures Decode("data: " + data) == [Event("", data)] && Dispatched("data: " + data) == []
    ensures Decode("data: " + data + "\n") == [Event("", data)] && Dispatched("data: " + data + "\n") == []
    ensures Due(Broken(cause), "data: " + data + "\n", NOTHING) == []
  {
    var text := "data: " + data;
    assert text[0] == 'd';
    TakenData(data, NOTHING);
    assert Heard(text, NOTHING) == Wire("", [data]);
    OneText(text);
    OneLineHeard(text);
    assert [text][..0] == [] && [text, ""][..1] == [text];
    assert Ended(text) == [] && Ended(text + "\n") == [text];
    assert Unfinished(text) == Wire("", [data]) && Unfinished(text + "\n") == Wire("", [data]);
    AgreesExactly(text);
    AgreesExactly(text + "\n");
    assert Join([data], '\n') == data;
  }

  lemma {:induction false} LineFirst(text: string, tail: string, line: string)
    requires Unbroken(text)
    ensures LinesOf(text + tail, line) == LinesOf(tail, line + text)
  {
    if text == "" {
      assert text + tail == tail && line + text == line;
    } else {
      assert (text + tail)[1..] == text[1..] + tail;
      LineFirst(text[1..], tail, line + [text[0]]);
      assert line + [text[0]] + text[1..] == line + text;
    }
  }

  /** A line that is ended by a carriage return alone, as the standard has it. */
  lemma {:induction false} LineReturned(text: string, tail: string)
    requires Unbroken(text) && tail != "" && tail[0] != '\n'
    ensures LinesOf(text + "\r" + tail, "") == [text] + LinesOf(tail, "")
  {
    var rest := "\r" + tail;
    assert text + "\r" + tail == text + rest && rest[1..] == tail;
    LineFirst(text, rest, "");
    assert "" + text == text;
  }

  lemma {:induction false} DataClosed(data: string)
    requires Unbroken(data)
    ensures LinesOf("data: " + data + "\n\n", "") == ["data: " + data, ""]
  {
    var text := "data: " + data;
    var tail := "\n\n";
    assert text + tail == "data: " + data + "\n\n";
    LineFirst(text, tail, "");
    assert "" + text == text && tail[1..] == "\n" && "\n"[1..] == "";
    assert LinesOf("\n", "") == [""];
  }

  lemma {:induction false} DataHeard(data: string, rest: seq<string>, event: Wire)
    ensures Complete(["data: " + data] + rest, event) == Complete(rest, event.(lines := event.lines + [data]))
  {
    var all := ["data: " + data] + rest;
    assert all[1..] == rest && all[0][0] == 'd';
    TakenData(data, event);
  }

  /** A carriage return alone ends a line for the standard, and is part of one for the reader. */
  lemma {:induction false} LoneReturn(a: string, b: string)
    requires Unbroken(a) && Unbroken(b)
    ensures
      var stream := "data: " + a + "\r" + ("data: " + b + "\n\n");
      && Decode(stream) == [Event("", a + "\rdata: " + b)]
      && Dispatched(stream) == [Event("", a + "\n" + b)]
  {
    var stream, tail := "data: " + a + "\r" + ("data: " + b + "\n\n"), "data: " + b + "\n\n";
    var text := "data: " + (a + "\rdata: " + b);
    assert stream == text + "\n\n" && stream[0] == 'd';
    TakenData(a + "\rdata: " + b, NOTHING);
    Closed(text);
    LineReturned("data: " + a, tail);
    DataClosed(b);
    StandardIs(["data: " + a] + ["data: " + b, ""], NOTHING);
    DataHeard(a, ["data: " + b, ""], NOTHING);
    assert ["data: " + b, ""] == ["data: " + b] + [""];
    DataHeard(b, [""], Wire("", [a]));
    BothDispatched(a, b);
  }

  lemma {:induction false} BothDispatched(a: string, b: string)
    ensures Finished(WithData(Complete([""], Wire("", [a] + [b])))) == [Event("", a + "\n" + b)]
  {
    var wire := Wire("", [a] + [b]);
    assert [""][1..] == [] && [wire] + [] == [wire] && [wire][1..] == [];
    assert ([a] + [b])[1..] == [b];
    assert Join([a] + [b], '\n') == a + "\n" + b;
  }

  /** Two of them before a line feed end two lines for the standard, the second of them blank, and one
      for the reader. */
  lemma {:induction false} TwoReturns(a: string, b: string)
    requires Unbroken(a) && Unbroken(b)
    ensures
      var stream := "data: " + a + "\r" + ("\r\n" + ("data: " + b + "\n\n"));
      && Decode(stream) == [Event("", a + "\n" + b)]
      && Dispatched(stream) == [Event("", a), Event("", b)]
  {
    var tail := "data: " + b + "\n\n";
    var stream := "data: " + a + "\r" + ("\r\n" + tail);
    assert stream[0] == 'd';
    ReturnsTogether(a, b);
    LineReturned("data: " + a, "\r\n" + tail);
    assert ("\r\n" + tail)[2..] == tail;
    DataClosed(b);
    var lines := ["data: " + a] + ([""] + ["data: " + b, ""]);
    StandardIs(lines, NOTHING);
    DataHeard(a, [""] + ["data: " + b, ""], NOTHING);
    assert ([""] + ["data: " + b, ""])[1..] == ["data: " + b] + [""];
    DataHeard(b, [""], NOTHING);
    assert [""][1..] == [];
    EachDispatched(a, b);
  }

  lemma {:induction false} EachDispatched(a: string, b: string)
    ensures Finished(WithData([Wire("", [a])] + ([Wire("", [b])] + []))) == [Event("", a), Event("", b)]
  {
    var both := [Wire("", [a])] + ([Wire("", [b])] + []);
    assert both[1..] == [Wire("", [b])] && both[1..][1..] == [];
    assert WithData(both[1..]) == both[1..];
    assert WithData(both) == [both[0]] + both[1..];
  }

  /** Two data lines, whose ends are told apart already. */
  lemma {:induction false} BothRead(a: string, b: string)
    requires Unbroken(a) && Unbroken(b)
    ensures Decode("data: " + a + "\n" + ("data: " + b + "\n\n")) == [Event("", a + "\n" + b)]
  {
    OneText("data: " + b);
    TextOfLine("data: " + a);
    TextsAcross("data: " + a, "data: " + b + "\n\n");
    BothWired(a, b);
    var texts := ["data: " + a] + ["data: " + b, "", ""];
    assert texts == DataLines([a, b]) + ["", ""];
    hide Texts, Wires, Split, Unbroken;
    assert [a, b][1..] == [b];
    assert Join([a, b], '\n') == a + "\n" + b;
  }

  lemma {:induction false} BothWired(a: string, b: string)
    ensures Wires(DataLines([a, b]) + ["", ""], NOTHING) == [Wire("", [a, b])]
  {
    DataTaken([a, b], ["", ""], NOTHING);
    assert [] + [a, b] == [a, b];
    assert ["", ""][1..] == [""] && [""][1..] == [];
    assert Wires(["", ""], Wire("", [a, b])) == [Wire("", [a, b])];
  }

  lemma {:induction false} ReturnsTogether(a: string, b: string)
    requires Unbroken(a) && Unbroken(b)
    ensures Decode("data: " + a + "\r" + ("\r\n" + ("data: " + b + "\n\n"))) == [Event("", a + "\n" + b)]
  {
    var first, tail := "data: " + a, "data: " + b + "\n\n";
    BothRead(a, b);
    hide *;
    EndingsAlike(first + "\r", tail);
    EndingsAlike(first, tail);
    assert "data: " + a + "\r" + ("\r\n" + tail) == (first + "\r") + "\r\n" + tail;
    assert (first + "\r") + "\n" + tail == first + "\r\n" + tail;
  }

  lemma {:induction false} MarkedLine(data: string)
    requires Unbroken(data)
    ensures
      var text := [BYTE_ORDER_MARK] + ("data: " + data);
      FitsLine(text) && Heard(text, NOTHING) == NOTHING
  {
    var text, field := [BYTE_ORDER_MARK] + ("data: " + data), [BYTE_ORDER_MARK] + "data";
    assert text == field + [':'] + (" " + data);
    CutFirst(field, ':', " " + data);
    assert |field| == 5 && field[0] != "event"[0];
    assert text[|text| - 1] == ("data: " + data)[|text| - 2];
    assert data != "" ==> ("data: " + data)[|text| - 2] == data[|data| - 1];
  }

  lemma {:induction false} MarkDispatched(data: string)
    requires Unbroken(data)
    ensures Dispatched("data: " + data + "\n\n") == [Event("", data)]
  {
    var stream, wire := "data: " + data + "\n\n", Wire("", [data]);
    assert stream[0] == 'd';
    DataClosed(data);
    StandardIs(["data: " + data] + [""], NOTHING);
    DataHeard(data, [""], NOTHING);
    assert ["data: " + data] + [""] == ["data: " + data, ""] && NOTHING.lines + [data] == [data];
    assert [""][1..] == [] && [wire] + [] == [wire] && [wire][1..] == [];
    assert Join([data], '\n') == data;
  }

  /** A byte order mark is left out by the standard, and hides the first field from the reader. */
  lemma {:induction false} MarkHides(data: string)
    requires Unbroken(data)
    ensures Decode([BYTE_ORDER_MARK] + ("data: " + data + "\n\n")) == []
    ensures Dispatched([BYTE_ORDER_MARK] + ("data: " + data + "\n\n")) == [Event("", data)]
  {
    var text, stream := [BYTE_ORDER_MARK] + ("data: " + data), "data: " + data + "\n\n";
    MarkedLine(data);
    Closed(text);
    MarkDispatched(data);
    assert [BYTE_ORDER_MARK] + stream == text + "\n\n";
    assert ([BYTE_ORDER_MARK] + stream)[1..] == stream && stream[0] == 'd';
    hide Decode, LinesOf, Standard, Heard;
  }
}
