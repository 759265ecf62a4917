/** The guard: whether a request may reach the database. */
module SqlGuard {
  import opened Options
  import opened Strings
  import opened SqlDialect
  import opened StatementWalking

  /** The access mode of a connection; a mode nobody knows is treated as read only. */
  datatype Mode = ReadOnly | ReadWrite | OtherMode(name: string)
  {
    predicate Writable() {
      ReadWrite?
    }
  }

  datatype Verdict = Allow | Warn | Block

  datatype Result = Result(verdict: Verdict, kind: Kind, reason: string, statements: nat)

  /** The functions that change the server while parsing as a read. */
  const SIDE_EFFECTS: seq<string> := [
    "pg_terminate_backend", "pg_cancel_backend", "pg_reload_conf", "pg_rotate_logfile", "pg_switch_wal",
    "pg_switch_xlog", "pg_promote", "pg_create_restore_point", "pg_drop_replication_slot",
    "pg_create_physical_replication_slot", "pg_create_logical_replication_slot", "pg_stat_reset", "setval",
    "nextval", "lo_import", "lo_export", "lo_unlink", "dblink_exec"
  ]

  const BLANKS: set<char> := {' ', '\t', '\n', '\r'}

  // ---------------------------------------------------------------------------------------
  // Looking for a call
  // ---------------------------------------------------------------------------------------

  /** Whether an opening bracket comes next, blanks aside. */
  predicate Bracketed(rest: string) {
    HasPrefix(TrimLeft(rest, BLANKS), "(")
  }

  /** Whether some occurrence of the name, wherever it is, is a call. */
  ghost predicate Calls(text: string, name: string) {
    exists k :: Occurs(text, name, k) && Bracketed(text[k + |name|..])
  }

  /** What the search finds: it looks at one occurrence at a time and starts again after it. */
  predicate Scan(text: string, name: string, at: nat)
    requires name != "" && at <= |text|
    decreases |text| - at
  {
    match Index(text, name, at)
    case None => false
    case Some(found) => Bracketed(text[found + |name|..]) || Scan(text, name, found + |name|)
  }

  method Called(text: string, name: string) returns (r: bool)
    requires name != ""
    ensures r == Scan(text, name, 0)
  {
    var at := 0;
    while true
      invariant 0 <= at <= |text|
      invariant Scan(text, name, at) == Scan(text, name, 0)
      decreases |text| - at
    {
      var found := Index(text, name, at);
      if found.None? {
        return false;
      }
      at := found.value + |name|;
      if HasPrefix(TrimLeft(text[at..], BLANKS), "(") {
        return true;
      }
    }
  }

  /** No proper beginning of the name is also an ending of it. */
  predicate Borderless(name: string) {
    forall b :: 0 < b < |name| ==> name[..b] != name[|name| - b..]
  }

  /** Where two occurrences lie on top of each other, the name has a border. */
  lemma Overlap(text: string, name: string, k: int, k': int)
    requires Occurs(text, name, k) && Occurs(text, name, k') && k < k' < k + |name|
    ensures var b := k + |name| - k'; name[..b] == name[|name| - b..]
  {}

  /** Two occurrences of a name with no border are never on top of each other. */
  lemma Apart(text: string, name: string, k: int, k': int)
    requires Borderless(name) && Occurs(text, name, k) && Occurs(text, name, k') && k < k'
    ensures k + |name| <= k'
  {
    if k' < k + |name| {
      Overlap(text, name, k, k');
    }
  }

  lemma {:induction false} ScanSound(text: string, name: string, at: nat)
    requires name != "" && at <= |text| && Scan(text, name, at)
    ensures Calls(text, name)
    decreases |text| - at
  {
    var found := Index(text, name, at).value;
    if Bracketed(text[found + |name|..]) {
      assert Occurs(text, name, found);
    } else {
      ScanSound(text, name, found + |name|);
    }
  }

  lemma {:induction false} ScanReaches(text: string, name: string, at: nat, k: nat)
    requires name != "" && Borderless(name) && at <= k
    requires Occurs(text, name, k) && Bracketed(text[k + |name|..])
    ensures Scan(text, name, at)
    decreases |text| - at
  {
    var found := Index(text, name, at).value;
    if found < k {
      Apart(text, name, found, k);
      ScanReaches(text, name, found + |name|, k);
    }
  }

  /** The search is complete as well as sound, although it skips whole matches. */
  lemma {:induction false} ScanIsCalls(text: string, name: string)
    requires name != "" && Borderless(name)
    ensures Scan(text, name, 0) <==> Calls(text, name)
  {
    if Scan(text, name, 0) {
      ScanSound(text, name, 0);
    }
    if Calls(text, name) {
      var k :| Occurs(text, name, k) && Bracketed(text[k + |name|..]);
      ScanReaches(text, name, 0, k);
    }
  }

  predicate Identifier(name: string) {
    name != "" && forall i :: 0 <= i < |name| ==> name[i] != '(' && name[i] !in BLANKS
  }

  /** A text in which the search misses a call of a name that has a border: the name written
      over its own ending. */
  function Overlapping(name: string, b: nat): string
    requires 0 < b < |name|
  {
    name[..|name| - b] + name + "("
  }

  lemma {:induction false} OverlapMissed(name: string, b: nat)
    requires Identifier(name) && 0 < b < |name| && name[..b] == name[|name| - b..]
    ensures Calls(Overlapping(name, b), name) && !Scan(Overlapping(name, b), name, 0)
  {
    hide Overlapping, Bracketed, Calls;
    OverlapCalls(name, b);
    NothingAfter(name, b);
  }

  lemma OverlapCalls(name: string, b: nat)
    requires Identifier(name) && 0 < b < |name| && name[..b] == name[|name| - b..]
    ensures Calls(Overlapping(name, b), name)
    ensures Occurs(Overlapping(name, b), name, 0)
  {
    var n := |name|;
    var text := Overlapping(name, b);
    assert text[n - b..n - b + n] == name && text[n - b + n..] == "(";
    assert Occurs(text, name, n - b) && Bracketed(text[n - b + n..]);
    assert text[..n] == name[..n - b] + name[..b] == name;
  }

  lemma {:induction false} NothingAfter(name: string, b: nat)
    requires Identifier(name) && 0 < b < |name| && name[..b] == name[|name| - b..]
    ensures !Bracketed(Overlapping(name, b)[|name|..])
    ensures !Scan(Overlapping(name, b), name, |name|)
  {}

  /** For a name made of neither blanks nor brackets, the search is right about every text
      exactly when the name has no border. */
  lemma {:induction false} ScanRightExactly(name: string)
    requires Identifier(name)
    ensures (forall text :: Scan(text, name, 0) == Calls(text, name)) <==> Borderless(name)
  {
    if Borderless(name) {
      forall text
        ensures Scan(text, name, 0) == Calls(text, name)
      {
        ScanIsCalls(text, name);
      }
    } else {
      var b :| 0 < b < |name| && name[..b] == name[|name| - b..];
      OverlapMissed(name, b);
      var text := Overlapping(name, b);
      assert Scan(text, name, 0) != Calls(text, name);
    }
  }

  /** Cheaper to see than the border itself: the first two characters are together nowhere
      else in the name, and the first is not also the last. */
  predicate StartsOnce(name: string) {
    && |name| > 1
    && name[|name| - 1] != name[0]
    && forall i :: 0 < i < |name| - 1 ==> name[i] != name[0] || name[i + 1] != name[1]
  }

  lemma StartsOnceBorderless(name: string)
    requires StartsOnce(name)
    ensures Borderless(name)
  {
    forall b | 0 < b < |name|
      ensures name[..b] != name[|name| - b..]
    {
      var i := |name| - b;
      assert name[..b][0] == name[0] && name[i..][0] == name[i];
      if b > 1 {
        assert name[..b][1] == name[1] && name[i..][1] == name[i + 1];
      }
    }
  }

  lemma BackendNames()
    ensures StartsOnce("pg_terminate_backend") && StartsOnce("pg_cancel_backend") && StartsOnce("pg_reload_conf")
    ensures StartsOnce("pg_rotate_logfile") && StartsOnce("pg_switch_wal") && StartsOnce("pg_switch_xlog")
    ensures StartsOnce("pg_promote") && StartsOnce("pg_stat_reset")
  {}

  lemma SlotNames()
    ensures StartsOnce("pg_create_restore_point") && StartsOnce("pg_drop_replication_slot")
    ensures StartsOnce("pg_create_physical_replication_slot") && StartsOnce("pg_create_logical_replication_slot")
  {}

  lemma OtherNames()
    ensures StartsOnce("setval") && StartsOnce("nextval") && StartsOnce("lo_import") && StartsOnce("lo_export")
    ensures StartsOnce("lo_unlink") && StartsOnce("dblink_exec")
  {}

  /** No name on the list has a border. */
  lemma ListedBorderless(i: nat)
    requires i < |SIDE_EFFECTS|
    ensures SIDE_EFFECTS[i] != "" && Borderless(SIDE_EFFECTS[i])
  {
    hide StartsOnce;
    BackendNames();
    SlotNames();
    OtherNames();
    assert StartsOnce(SIDE_EFFECTS[i]);
    StartsOnceBorderless(SIDE_EFFECTS[i]);
    ShortIsNot(SIDE_EFFECTS[i]);
  }

  lemma ShortIsNot(name: string)
    requires StartsOnce(name)
    ensures name != ""
  {}

  // ---------------------------------------------------------------------------------------
  // Deciding
  // ---------------------------------------------------------------------------------------

  /** The first name on a list that the search finds a call of, or nothing. */
  function FirstCalled(text: string, names: seq<string>): string {
    if names == [] then ""
    else if names[0] != "" && Scan(text, names[0], 0) then names[0]
    else FirstCalled(text, names[1..])
  }

  function SideEffect(statement: Statement): string {
    FirstCalled(ToLower(statement.text), SIDE_EFFECTS)
  }

  method FindSideEffect(statement: Statement, names: seq<string> := SIDE_EFFECTS) returns (name: string)
    requires "" !in names
    ensures name == FirstCalled(ToLower(statement.text), names)
  {
    var text := ToLower(statement.text);
    for i := 0 to |names|
      invariant FirstCalled(text, names) == FirstCalled(text, names[i..])
    {
      var found := Called(text, names[i]);
      if found {
        return names[i];
      }
      assert names[i..][1..] == names[i + 1..];
    }
    return "";
  }

  function Hazard(statement: Statement): string {
    if statement.materializes then "the statement creates a new relation"
    else if statement.locking then "the statement takes row locks"
    else if statement.mutatedBy != NoKind then "the statement contains " + KindName(statement.mutatedBy)
    else KindName(statement.kind) + " modifies data or database state"
  }

  function Decide(statement: Statement, mode: Mode): Result {
    var effect := SideEffect(statement);
    if statement.refusal != "" then Result(Block, statement.kind, statement.refusal, 0)
    else if effect != "" && !mode.Writable() then
      Result(Block, statement.kind, effect + "() changes the server; this connection is READ ONLY", 0)
    else if effect != "" then Result(Warn, statement.kind, effect + "() changes the server", 0)
    else if statement.Reads() then Result(Allow, statement.kind, "reads only", 0)
    else if !mode.Writable() then
      Result(Block, statement.kind, Hazard(statement) + "; this connection is READ ONLY", 0)
    else Result(Warn, statement.kind, Hazard(statement), 0)
  }

  function Classify(analysis: Analysis, mode: Mode): Result {
    if analysis.errors != [] then
      Result(Block, Unknown, "the statement does not parse: " + analysis.errors[0].Error(), 0)
    else if |analysis.statements| == 0 then Result(Block, Unknown, "there is no statement to run", 0)
    else if |analysis.statements| == 1 then Decide(analysis.statements[0], mode).(statements := 1)
    else
      Result(Block, analysis.statements[0].kind,
             Decimal(|analysis.statements|) + " statements in one request are never executed together",
             |analysis.statements|)
  }

  /** A request goes from its parse tree to its verdict through the listener. */
  method ClassifyRequest(language: Language, tree: Tree, errors: seq<SyntaxError>, mode: Mode) returns (result: Result)
    ensures result == Classify(Analysis(language.Read(tree), errors), mode)
  {
    var analysis := Analyze(language, tree, errors);
    result := Classify(analysis, mode);
  }

  // ---------------------------------------------------------------------------------------
  // What an allowed request is
  // ---------------------------------------------------------------------------------------

  ghost predicate ChangesServer(text: string) {
    exists i :: 0 <= i < |SIDE_EFFECTS| && Calls(ToLower(text), SIDE_EFFECTS[i])
  }

  lemma ListedScanned(text: string)
    ensures forall j :: 0 <= j < |SIDE_EFFECTS| ==>
              SIDE_EFFECTS[j] != "" && (Scan(text, SIDE_EFFECTS[j], 0) <==> Calls(text, SIDE_EFFECTS[j]))
  {
    hide Calls, Scan, Borderless;
    forall j | 0 <= j < |SIDE_EFFECTS|
      ensures SIDE_EFFECTS[j] != "" && (Scan(text, SIDE_EFFECTS[j], 0) <==> Calls(text, SIDE_EFFECTS[j]))
    {
      ListedBorderless(j);
      ScanIsCalls(text, SIDE_EFFECTS[j]);
    }
  }

  /** The scan of a statement's text is right about every listed function. */
  lemma SideEffectIs(statement: Statement)
    ensures SideEffect(statement) != "" <==> ChangesServer(statement.text)
  {
    hide Calls, Scan, Borderless, ToLower;
    var text := ToLower(statement.text);
    ListedScanned(text);
    FirstCalledIs(text, SIDE_EFFECTS);
  }

  lemma {:induction false} FirstCalledIs(text: string, names: seq<string>)
    requires forall i :: 0 <= i < |names| ==> names[i] != ""
    ensures FirstCalled(text, names) != "" <==> exists i :: 0 <= i < |names| && Scan(text, names[i], 0)
  {
    hide Scan;
    if names != [] {
      FirstCalledIs(text, names[1..]);
      assert forall i :: 1 <= i < |names| ==> names[i] == names[1..][i - 1];
      if exists i :: 0 <= i < |names| && Scan(text, names[i], 0) {
        var i :| 0 <= i < |names| && Scan(text, names[i], 0);
        assert i > 0 ==> names[1..][i - 1] == names[i];
      }
    }
  }

  predicate Harmful(said: seq<Semantics>) {
    Mutates(said) || Locks(said) || Materializes(said)
  }

  predicate Refused(said: seq<Semantics>) {
    exists i :: 0 <= i < |said| && said[i].refusal != ""
  }

  /** What may be said in a statement that only reads: it is an EXPLAIN that runs nothing, or
      it is of a known kind, nothing in it does anything, and nothing refuses it from where
      its kind is known. */
  predicate Innocent(explained: bool, safe: bool, said: seq<Semantics>) {
    var known := if explained then 0 else FirstKind(said);
    || ShowsPlan(explained, safe, said)
    || ((explained || known < |said|) && !Harmful(said) && !Refused(said[known..]))
  }

  lemma {:induction false} FirstRefusalIs(said: seq<Semantics>)
    ensures FirstRefusal(said) != "" <==> Refused(said)
  {
    if said != [] {
      FirstRefusalIs(said[1..]);
      assert forall i :: 1 <= i < |said| ==> said[i] == said[1..][i - 1];
      if Refused(said) {
        var i :| 0 <= i < |said| && said[i].refusal != "";
        assert i > 0 ==> said[1..][i - 1] == said[i];
      }
    }
  }

  lemma SummaryReads(explained: bool, safe: bool, said: seq<Semantics>)
    ensures Summary(explained, safe, said).Reads() <==> Innocent(explained, safe, said)
  {
    hide Mutates, Locks, Materializes, Refused;
    assert |NOT_RECOGNISED| > 0;
    assert said[0..] == said;
    FirstRefusalIs(said);
    FirstRefusalIs(said[FirstKind(said)..]);
  }

  /** Whether the statement one rule begins may be sent as it is. */
  ghost predicate Harmless(language: Language, t: Tree)
    requires t.Rule?
  {
    && !ChangesServer(TrimSpace(Text(t)))
    && Innocent(language.StartsWithExplain(t), !language.Runs(t) || language.grammar.explainSafe, language.Said(t))
  }

  lemma DecideAllows(statement: Statement, mode: Mode)
    ensures Decide(statement, mode).verdict == Allow <==> statement.Reads() && !ChangesServer(statement.text)
  {
    hide ChangesServer, SideEffect;
    SideEffectIs(statement);
  }

  lemma HarmlessIs(language: Language, t: Tree)
    requires t.Rule?
    ensures language.Record(t).Reads() && !ChangesServer(language.Record(t).text) <==> Harmless(language, t)
  {
    hide ChangesServer, Innocent, TrimSpace, Summary;
    SummaryReads(language.StartsWithExplain(t), !language.Runs(t) || language.grammar.explainSafe, language.Said(t));
  }

  /** For every tree and every mode: a request is allowed exactly when it parses, holds one
      statement somebody wrote, and that one only reads and calls nothing on the list. */
  lemma {:induction false} AllowedExactly(language: Language, tree: Tree, errors: seq<SyntaxError>, mode: Mode)
    ensures Classify(Analysis(language.Read(tree), errors), mode).verdict == Allow <==>
            errors == [] && |language.Openers(tree)| == 1 && Harmless(language, language.Openers(tree)[0])
  {
    hide Decide, Harmless, Language.Record;
    if |language.Openers(tree)| == 1 {
      var t := language.Openers(tree)[0];
      assert language.Read(tree) == [language.Record(t)];
      DecideAllows(language.Record(t), mode);
      HarmlessIs(language, t);
    }
  }

  /** Read only never asks; both modes allow the same; what read only blocks and read and
      write does not is exactly what read and write asks about. */
  lemma ModesAgree(analysis: Analysis, mode: Mode)
    requires !mode.Writable()
    ensures Classify(analysis, mode).verdict != Warn
    ensures Classify(analysis, mode).verdict == Allow <==> Classify(analysis, ReadWrite).verdict == Allow
    ensures Classify(analysis, ReadWrite).verdict == Warn <==>
            Classify(analysis, mode).verdict == Block && Classify(analysis, ReadWrite).verdict != Block
    ensures Classify(analysis, ReadWrite).verdict == Block ==> Classify(analysis, mode) == Classify(analysis, ReadWrite)
  {}

  /** The one statement of a request that parses and holds one. */
  predicate Single(analysis: Analysis) {
    analysis.errors == [] && |analysis.statements| == 1
  }

  /** Exactly what is asked about, and exactly what is blocked: a refusal is blocked in every mode
      and comes before anything else, and what changes something is asked about where writing is
      allowed and blocked where it is not. */
  lemma VerdictExactly(analysis: Analysis, mode: Mode)
    ensures Classify(analysis, mode).verdict == Warn <==>
            && mode.Writable() && Single(analysis) && analysis.statements[0].refusal == ""
            && (ChangesServer(analysis.statements[0].text) || !analysis.statements[0].Reads())
    ensures Classify(analysis, mode).verdict == Block <==>
            || !Single(analysis) || analysis.statements[0].refusal != ""
            || (!mode.Writable() && (ChangesServer(analysis.statements[0].text) || !analysis.statements[0].Reads()))
  {
    hide SideEffect, ChangesServer;
    if Single(analysis) {
      SideEffectIs(analysis.statements[0]);
    }
  }
}
