/** A buffer of several statements: where the cursor is in it, and which statement that is. */
module Scripts {
  import opened Options
  import opened Strings
  import opened SqlDialect
  import opened ReadingFacts

  // ---------------------------------------------------------------------------------------
  // The cursor
  // ---------------------------------------------------------------------------------------

  /** Where row `line` begins, or one past the end when there is no such row. */
  function RowStart(rows: seq<string>, line: nat): nat {
    if line == 0 || rows == [] then 0 else |rows[0]| + 1 + RowStart(rows[1..], line - 1)
  }

  function Caret(value: string, line: int, column: int): nat {
    var rows := Split(value, '\n');
    if line < 0 then 0
    else RowStart(rows, line) + if line < |rows| then Min(Max(column, 0), |rows[line]|) else 0
  }

  method CaretOffset(value: string, line: int, column: int) returns (at: nat)
    ensures at == Caret(value, line, column)
  {
    var rows := Split(value, '\n');
    if line < 0 {
      return 0;
    }
    at := 0;
    var i := 0;
    while i < line && i < |rows|
      invariant 0 <= i <= line && i <= |rows|
      invariant at == RowStart(rows, i)
    {
      RowStartNext(rows, i);
      at := at + |rows[i]| + 1;
      i := i + 1;
    }
    RowStartPast(rows, i, line);
    if line < |rows| {
      at := at + Min(Max(column, 0), |rows[line]|);
    }
  }

  lemma {:induction false} RowStartNext(rows: seq<string>, i: nat)
    requires i < |rows|
    ensures RowStart(rows, i + 1) == RowStart(rows, i) + |rows[i]| + 1
  {
    if i > 0 {
      RowStartNext(rows[1..], i - 1);
    }
  }

  lemma {:induction false} RowStartPast(rows: seq<string>, i: nat, line: nat)
    requires i <= line && (i == line || i == |rows|)
    ensures RowStart(rows, line) == RowStart(rows, i)
  {
    if i > 0 && rows != [] {
      RowStartPast(rows[1..], i - 1, line - 1);
    }
  }

  /** How many lines were ended before the end of a text. */
  function Line(text: string): nat {
    if text == "" then 0
    else Line(text[..|text| - 1]) + if text[|text| - 1] == '\n' then 1 else 0
  }

  /** How many characters there are after the last line that was ended. */
  function Column(text: string): nat {
    if text == "" || text[|text| - 1] == '\n' then 0 else Column(text[..|text| - 1]) + 1
  }

  lemma {:induction false} PlaceAfterRow(row: string, text: string)
    requires '\n' !in row
    ensures Line(row + "\n" + text) == 1 + Line(text) && Column(row + "\n" + text) == Column(text)
  {
    var all := row + "\n" + text;
    if text == "" {
      assert all[..|all| - 1] == row;
      PlaceInRow(row);
    } else {
      assert all[..|all| - 1] == row + "\n" + text[..|text| - 1];
      PlaceAfterRow(row, text[..|text| - 1]);
    }
  }

  lemma {:induction false} PlaceInRow(row: string)
    requires '\n' !in row
    ensures Line(row) == 0 && Column(row) == |row|
  {
    if row != "" {
      PlaceInRow(row[..|row| - 1]);
    }
  }

  /** The offset of a line and column that are there is the place with that many lines before
      it and that many characters before it on its own. */
  lemma {:induction false} PlaceOfRows(rows: seq<string>, line: nat, column: nat)
    requires forall i :: 0 <= i < |rows| ==> '\n' !in rows[i]
    requires line < |rows| && column <= |rows[line]|
    ensures
      var at := RowStart(rows, line) + column;
      var value := Join(rows, '\n');
      at <= |value| && Line(value[..at]) == line && Column(value[..at]) == column
  {
    var value := Join(rows, '\n');
    if line == 0 {
      assert value[..column] == rows[0][..column];
      PlaceInRow(rows[0][..column]);
    } else {
      PlaceOfRows(rows[1..], line - 1, column);
      var rest := RowStart(rows[1..], line - 1) + column;
      assert value[..|rows[0]| + 1 + rest] == rows[0] + "\n" + Join(rows[1..], '\n')[..rest];
      PlaceAfterRow(rows[0], Join(rows[1..], '\n')[..rest]);
    }
  }

  lemma {:induction false} RowsOfPlace(rows: seq<string>, at: nat)
    requires rows != [] && forall i :: 0 <= i < |rows| ==> '\n' !in rows[i]
    requires at <= |Join(rows, '\n')|
    ensures
      var text := Join(rows, '\n')[..at];
      && Line(text) < |rows| && Column(text) <= |rows[Line(text)]|
      && RowStart(rows, Line(text)) + Column(text) == at
  {
    var value := Join(rows, '\n');
    if at <= |rows[0]| {
      assert value[..at] == rows[0][..at];
      PlaceInRow(rows[0][..at]);
    } else {
      var rest := at - |rows[0]| - 1;
      RowsOfPlace(rows[1..], rest);
      assert value[..at] == rows[0] + "\n" + Join(rows[1..], '\n')[..rest];
      PlaceAfterRow(rows[0], Join(rows[1..], '\n')[..rest]);
    }
  }

  /** The offset undoes the position: on a row that is there, a column that is off it counts
      as the nearest one that is on it. */
  lemma {:induction false} CaretIsPlace(value: string, line: nat, column: int)
    requires line < |Split(value, '\n')|
    ensures
      var at := Caret(value, line, column);
      && at <= |value| && Line(value[..at]) == line
      && Column(value[..at]) == Min(Max(column, 0), |Split(value, '\n')[line]|)
  {
    var rows := Split(value, '\n');
    JoinSplit(value, '\n');
    PlaceOfRows(rows, line, Min(Max(column, 0), |rows[line]|));
  }

  /** And the position undoes the offset, for every place in the buffer. */
  lemma PlaceIsCaret(value: string, at: nat)
    requires at <= |value|
    ensures Caret(value, Line(value[..at]), Column(value[..at])) == at
  {
    var rows := Split(value, '\n');
    JoinSplit(value, '\n');
    RowsOfPlace(rows, at);
  }

  // ---------------------------------------------------------------------------------------
  // The statement
  // ---------------------------------------------------------------------------------------

  /** The last statement that starts at or before a place, or the first when none does. */
  function Under(statements: seq<Statement>, offset: int): (r: nat)
    requires statements != []
    ensures r < |statements|
    ensures r == 0 || statements[r].start <= offset
    ensures forall i :: r < i < |statements| ==> offset < statements[i].start
  {
    var last := |statements| - 1;
    if last == 0 || statements[last].start <= offset then last else Under(statements[..last], offset)
  }

  lemma {:induction false} UnderIs(statements: seq<Statement>, offset: int, r: nat)
    requires r < |statements| && (r == 0 || statements[r].start <= offset)
    requires forall i :: r < i < |statements| ==> offset < statements[i].start
    ensures Under(statements, offset) == r
  {}

  /** `Analysis.At`: the statement a place falls inside, or the one before it. */
  method StatementAt(statements: seq<Statement>, offset: int) returns (found: Option<Statement>)
    ensures found.Some? <==> statements != []
    ensures Ordered(statements) && statements != [] ==> found == Some(statements[Under(statements, offset)])
  {
    found := None;
    ghost var last := 0;
    for i := 0 to |statements|
      invariant found.Some? <==> i > 0
      invariant i > 0 ==> last < i && found == Some(statements[last]) && statements[last].start <= offset
      invariant i > 0 ==> forall j :: last < j < i ==> offset < statements[j].start
    {
      var statement := statements[i];
      if offset >= statement.start && offset <= statement.stop {
        if Ordered(statements) {
          InsideIsUnder(statements, offset, i);
        }
        return Some(statement);
      }
      if statement.start <= offset {
        found, last := Some(statement), i;
      } else if found.None? {
        if Ordered(statements) {
          BeforeAll(statements, offset);
        }
        return Some(statement);
      }
    }
    if statements != [] {
      UnderIs(statements, offset, last);
    }
  }

  lemma {:induction false} BeforeAll(statements: seq<Statement>, offset: int)
    requires Ordered(statements) && statements != [] && offset < statements[0].start
    ensures Under(statements, offset) == 0
  {}

  lemma {:induction false} InsideIsUnder(statements: seq<Statement>, offset: int, i: nat)
    requires Ordered(statements) && i < |statements|
    requires statements[i].start <= offset <= statements[i].stop
    ensures Under(statements, offset) == i
  {}

  /** What the editor holds, taken apart. */
  datatype Script = Script(statements: seq<Statement>, at: nat, source: string)
  {
    /** The statement that pressing run would send. */
    function Chosen(): string
      requires |statements| >= 2 ==> at < |statements|
    {
      if |statements| < 2 then source
      else
        var sliced := statements[at].Slice(source);
        if sliced != "" then sliced else source
    }
  }

  /** The editor's own search, which stops at the statement the cursor is inside. There is nothing
      to search when there is no dialect to take the text apart. */
  method ReadScript(source: string, parsed: Option<seq<Statement>>, line: int, column: int) returns (held: Script)
    ensures held.source == source
    ensures held.statements == if parsed.None? || TrimSpace(source) == "" then [] else parsed.value
    ensures |held.statements| < 2 ==> held.at == 0
    ensures |held.statements| >= 2 ==> held.at < |held.statements|
    ensures |held.statements| >= 2 && Ordered(held.statements) ==>
              held.at == Under(held.statements, Caret(source, line, column))
    ensures |held.statements| < 2 ==> held.Chosen() == source
    ensures |held.statements| >= 2 ==>
              var s := held.statements[held.at];
              held.Chosen() == if 0 <= s.start <= s.stop < |source| then source[s.start..s.stop + 1] else source
  {
    held := Script([], 0, source);
    if parsed.None? || TrimSpace(source) == "" {
      return;
    }
    var statements := parsed.value;
    held := held.(statements := statements);
    if |statements| < 2 {
      return;
    }
    var offset := CaretOffset(source, line, column);
    for i := 0 to |statements|
      invariant held.source == source && held.statements == statements && held.at < |statements|
      invariant held.at == 0 || (held.at < i && statements[held.at].start <= offset)
      invariant forall j :: held.at < j < i ==> offset < statements[j].start
    {
      if offset >= statements[i].start && offset <= statements[i].stop {
        if Ordered(statements) {
          InsideIsUnder(statements, offset, i);
        }
        return held.(at := i);
      }
      if statements[i].start <= offset {
        held := held.(at := i);
      }
    }
    UnderIs(statements, offset, held.at);
  }

  /** What would be sent is a piece of what was typed, character for character: all of it when there are
      fewer than two statements, or when the one chosen does not lie inside it, and otherwise that one
      from its first character to its last. */
  lemma {:induction false} ChosenIs(held: Script) returns (from: nat, to: nat)
    requires |held.statements| >= 2 ==> held.at < |held.statements|
    ensures from <= to <= |held.source| && held.Chosen() == held.source[from..to]
    ensures |held.statements| < 2 ==> from == 0 && to == |held.source|
    ensures |held.statements| >= 2 ==>
              var s := held.statements[held.at];
              if 0 <= s.start <= s.stop < |held.source| then from == s.start && to == s.stop + 1
              else from == 0 && to == |held.source|
  {
    from, to := 0, |held.source|;
    if |held.statements| >= 2 {
      var s := held.statements[held.at];
      if 0 <= s.start <= s.stop < |held.source| {
        from, to := s.start, s.stop + 1;
      }
    }
  }

  /** What would be sent from a script read off a tree is cut exactly where the statement the
      analysis has at the cursor starts and stops. */
  lemma {:induction false} ChosenIsCut(source: string, parsed: seq<Statement>, offset: int)
    requires |parsed| >= 2 && Ordered(parsed)
    requires forall i :: 0 <= i < |parsed| ==> 0 <= parsed[i].start && parsed[i].stop < |source|
    ensures
      var s := parsed[Under(parsed, offset)];
      var chosen := Script(parsed, Under(parsed, offset), source).Chosen();
      && chosen == source[s.start..s.stop + 1]
      && (s.start <= offset <= s.stop ==> chosen[offset - s.start] == source[offset])
  {}
}
