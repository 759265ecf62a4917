/** What the guard makes of a few requests, to the last character: a DELETE, the same one explained where
    nothing explained is run, and the same one explained where it is. */
module RequestFacts {
  import opened Options
  import opened Strings
  import opened SqlDialect
  import opened SqlGuard
  import opened Verdicts

  const NO_TRANSACTIONS := "opendba owns transaction boundaries"

  /** SQLite's grammar, where nothing EXPLAIN says is ever run. */
  const SQLITE := Grammar(
    ["sql_stmt"], "stmt", "", "EXPLAIN", true,
    map[
      "select_stmt" := Semantics(Select, false, false, false, ""),
      "insert_stmt" := Semantics(Insert, true, false, false, ""),
      "update_stmt" := Semantics(Update, true, false, false, ""),
      "delete_stmt" := Semantics(Delete, true, false, false, ""),
      "begin_stmt" := Semantics(Transaction, false, false, false, NO_TRANSACTIONS),
      "commit_stmt" := Semantics(Transaction, false, false, false, NO_TRANSACTIONS),
      "rollback_stmt" := Semantics(Transaction, false, false, false, NO_TRANSACTIONS),
      "savepoint_stmt" := Semantics(Transaction, false, false, false, NO_TRANSACTIONS),
      "release_stmt" := Semantics(Transaction, false, false, false, NO_TRANSACTIONS),
      "attach_stmt" := Semantics(Session, false, false, false, "ATTACH opens another database file"),
      "detach_stmt" := Semantics(Session, false, false, false, "DETACH closes a database file"),
      "pragma_stmt" := Semantics(Pragma, false, false, false, "pragmas change how the database behaves"),
      "vacuum_stmt" := Semantics(Maintenance, false, false, false, "VACUUM rewrites the database file"),
      "analyze_stmt" := Semantics(Maintenance, false, false, false, "ANALYZE writes statistics tables"),
      "reindex_stmt" := Semantics(Maintenance, false, false, false, "REINDEX rewrites indexes")],
    [ PrefixRule("create_", Semantics(Create, true, false, false, "")),
      PrefixRule("alter_", Semantics(Alter, true, false, false, "")),
      PrefixRule("drop_", Semantics(Drop, true, false, false, ""))],
    {})

  const LITE := Language(SQLITE, ["parse", "sql_stmt", "delete_stmt"])

  const DELETING := Semantics(Delete, true, false, false, "")
  const NOTHING := Semantics(NoKind, false, false, false, "")

  function Word(text: string, start: int): Token {
    Token(text, start, start + |text| - 1)
  }

  /** `DELETE FROM t`, written from a place on. */
  function Deletion(start: int): Tree {
    var first, last := Word("DELETE", start), Word("t", start + 12);
    Rule(2, Some(first), Some(last), [Terminal(first), Terminal(Word("FROM", start + 7)), Terminal(last)], NOTHING)
  }

  /** `DELETE FROM t`. */
  function Deletes(): Tree {
    Rule(1, Some(Word("DELETE", 0)), Some(Word("t", 12)), [Deletion(0)], NOTHING)
  }

  /** `explain DELETE FROM t`. */
  function Explains(): Tree {
    Rule(1, Some(Word("explain", 0)), Some(Word("t", 20)), [Terminal(Word("explain", 0)), Deletion(8)], NOTHING)
  }

  lemma SqliteRules()
    ensures SQLITE.Lookup("sql_stmt") == None && SQLITE.Lookup("delete_stmt") == Some(DELETING)
  {
    assert "sql_stmt"[0] == 's' && "create_"[0] == 'c' && "alter_"[0] == 'a' && "drop_"[0] == 'd';
    SQLITE.LookupIs("sql_stmt", 0);
    SQLITE.LookupIs("delete_stmt", 0);
  }

  lemma {:induction false} Unfold(language: Language, t: Tree, ts: seq<Tree>)
    ensures TextAll([t] + ts) == Text(t) + TextAll(ts)
    ensures language.VisitedAll([t] + ts) == language.Visited(t) + language.VisitedAll(ts)
  {
    hide Text, Language.Visited;
    assert ([t] + ts)[1..] == ts;
  }

  lemma {:induction false} WordsRead(language: Language, a: Token, b: Token, c: Token)
    ensures var ts := [Terminal(a), Terminal(b), Terminal(c)];
            TextAll(ts) == a.text + b.text + c.text && language.VisitedAll(ts) == []
  {
    var ts := [Terminal(a), Terminal(b), Terminal(c)];
    assert ts == [Terminal(a)] + ([Terminal(b)] + ([Terminal(c)] + []));
    Unfold(language, Terminal(a), [Terminal(b)] + ([Terminal(c)] + []));
    Unfold(language, Terminal(b), [Terminal(c)] + []);
    Unfold(language, Terminal(c), []);
  }

  lemma {:induction false} DeletionReads(start: int)
    ensures LITE.Visited(Deletion(start)) == [DELETING] && Text(Deletion(start)) == "DELETEFROMt"
  {
    SqliteRules();
    hide Grammar.Lookup, TextAll, Language.VisitedAll;
    WordsRead(LITE, Word("DELETE", start), Word("FROM", start + 7), Word("t", start + 12));
    assert "DELETE" + "FROM" + "t" == "DELETEFROMt";
    assert LITE.Name(Deletion(start)) == "delete_stmt" != "sql_stmt" by { assert "delete_stmt"[0] != "sql_stmt"[0]; }
  }

  lemma {:induction false} DeletesSays()
    ensures LITE.Said(Deletes()) == [DELETING] && Text(Deletes()) == "DELETEFROMt"
  {
    SqliteRules();
    DeletionReads(0);
    hide Grammar.Lookup, Deletion, TextAll, Language.VisitedAll;
    assert Deletes().children == [Deletion(0)] + [];
    Unfold(LITE, Deletion(0), []);
    assert TextAll([]) == "" && LITE.VisitedAll([]) == [] by { Empty(LITE); }
  }

  lemma {:induction false} Empty(language: Language)
    ensures TextAll([]) == "" && language.VisitedAll([]) == []
  {}

  lemma {:induction false} ExplainsSays()
    ensures Text(Explains()) == "explain" + "DELETEFROMt"
  {
    DeletionReads(8);
    hide Deletion, TextAll;
    TwoTexts(Terminal(Word("explain", 0)), Deletion(8));
  }

  lemma {:induction false} TwoTexts(a: Tree, b: Tree)
    ensures TextAll([a, b]) == Text(a) + Text(b) && TextAll([b]) == Text(b)
  {
    hide Text;
    assert [a, b][1..] == [b] && [b][1..] == [] && TextAll([]) == "";
    assert TextAll([b]) == Text(b) + TextAll([]);
  }

  /** A text of one word has nothing to cut off. */
  predicate Solid(text: string) {
    text != "" && forall i :: 0 <= i < |text| ==> '<' <= text[i] <= '~'
  }

  lemma OneWord(text: string)
    requires Solid(text)
    ensures TrimSpace(text) == text && !OnlySeparators(text)
  {
    TrimNothing(text, WHITE_SPACE);
    assert text[0] !in WHITE_SPACE;
  }

  lemma {:induction false} Alone(t: Tree)
    requires t.Rule? && t.index == 1 && Solid(Text(t))
    ensures LITE.Openers(t) == [t] && LITE.Read(t) == [LITE.Record(t)] && LITE.Record(t).text == Text(t)
  {
    OneWord(Text(t));
    BlankIs(LITE, t);
    TextKept(LITE, t);
    hide Language.Blank, TrimSpace, OnlySeparators, Text, Language.Record;
    assert LITE.Openers(t) == [t];
    ReadAs(LITE, t, t);
  }

  lemma DeletingSums(safe: bool)
    ensures Summary(false, safe, [DELETING]) == Statement(Delete, NoKind, true, false, false, "", "", 0, 0)
  {
    var said := [DELETING];
    assert FirstKind(said) == 0 && FirstMutator(said) == 0 && said[0..] == said;
    assert FirstRefusal(said) == "" by { assert said[1..] == []; }
    assert Mutates(said) by { assert said[0].mutating; }
    assert forall i :: 0 <= i < |said| ==> said[i] == DELETING;
  }

  lemma PlanSums(said: seq<Semantics>)
    ensures Summary(true, true, said) == Statement(Explain, NoKind, false, false, false, "", "", 0, 0)
  {}

  lemma {:induction false} Recorded(t: Tree, a: Token, b: Token, explained: bool, summary: Statement)
    requires t.Rule? && t.start == Some(a) && t.stop == Some(b) && a.start <= b.stop
    requires LITE.StartsWithExplain(t) == explained && Summary(explained, true, LITE.Said(t)) == summary
    ensures LITE.Record(t) == summary.(text := TrimSpace(Text(t)), start := a.start, stop := b.stop)
  {
    hide Language.StartsWithExplain, Language.Runs, Language.Said, TrimSpace, Text, Summary;
  }

  lemma Starts()
    ensures !LITE.StartsWithExplain(Deletes()) && LITE.StartsWithExplain(Explains())
    ensures Deletes().start == Some(Word("DELETE", 0)) && Deletes().stop == Some(Word("t", 12))
    ensures Explains().start == Some(Word("explain", 0)) && Explains().stop == Some(Word("t", 20))
    ensures Word("DELETE", 0).start == Word("explain", 0).start == 0
    ensures Word("t", 12).stop == 12 && Word("t", 20).stop == 20
  {
    hide Deletion, EqualFold;
    FoldIs("explain", "EXPLAIN");
    FoldIs("DELETE", "EXPLAIN");
  }

  lemma DeletesAlone()
    ensures Deletes().Rule? && LITE.Read(Deletes()) == [LITE.Record(Deletes())]
    ensures LITE.Record(Deletes()).text == "DELETEFROMt"
  {
    DeletesSays();
    hide Text, Language.Read, Language.Record, Language.Said, Deletion;
    Alone(Deletes());
  }

  lemma ExplainsAlone()
    ensures Explains().Rule? && LITE.Read(Explains()) == [LITE.Record(Explains())]
    ensures LITE.Record(Explains()).text == "explain" + "DELETEFROMt"
  {
    ExplainsSays();
    hide Text, Language.Read, Language.Record, Language.Said, Deletion, Summary;
    assert Solid("explain" + "DELETEFROMt");
    Alone(Explains());
  }

  /** SQLite's DELETE is read as one, to its last character. */
  lemma {:induction false} DeleteRead()
    ensures LITE.Read(Deletes()) == [Statement(Delete, NoKind, true, false, false, "", "DELETEFROMt", 0, 12)]
  {
    hide *;
    Starts();
    DeletesSays();
    DeletesAlone();
    DeletingSums(true);
    var summary := Statement(Delete, NoKind, true, false, false, "", "", 0, 0);
    Recorded(Deletes(), Word("DELETE", 0), Word("t", 12), false, summary);
  }

  /** SQLite's `explain`, in small letters, clears the DELETE it explains. */
  lemma {:induction false} ExplainRead()
    ensures LITE.Read(Explains()) ==
            [Statement(Explain, NoKind, false, false, false, "", "explain" + "DELETEFROMt", 0, 20)]
  {
    hide *;
    Starts();
    ExplainsSays();
    ExplainsAlone();
    var summary := Statement(Explain, NoKind, false, false, false, "", "", 0, 0);
    PlanSums(LITE.Said(Explains()));
    Recorded(Explains(), Word("explain", 0), Word("t", 20), true, summary);
  }

  lemma NoCalls()
    ensures !ChangesServer("DELETEFROMt") && !ChangesServer("explain" + "DELETEFROMt")
  {
    hide ChangesServer;
    CallsNothing("DELETEFROMt");
    CallsNothing("explain" + "DELETEFROMt");
  }

  lemma DeletingReason(statement: Statement, mode: Mode)
    requires statement.kind == Delete && statement.mutatedBy == NoKind && statement.refusal == ""
    requires statement.mutating && !statement.locking && !statement.materializes
    requires !ChangesServer(statement.text)
    ensures Classify(Analysis([statement], []), mode).verdict == if mode == ReadWrite then Warn else Block
    ensures Classify(Analysis([statement], []), mode).reason ==
            "DELETE" + " modifies data or database state" +
            if mode == ReadWrite then "" else "; this connection is READ ONLY"
  {
    hide ChangesServer, Classify;
    Reason(statement, mode);
  }

  lemma ReadingReason(statement: Statement, mode: Mode)
    requires statement.Reads() && !ChangesServer(statement.text)
    ensures Classify(Analysis([statement], []), mode) == Result(Allow, statement.kind, "reads only", 1)
  {
    hide ChangesServer, Classify;
    Reason(statement, mode);
  }

  /** The deletion is blocked in read only and asked about elsewhere; explained, it is allowed. */
  lemma {:induction false} DeleteNotAllowed(mode: Mode)
    ensures Classify(Analysis(LITE.Read(Deletes()), []), mode).verdict == if mode == ReadWrite then Warn else Block
    ensures Classify(Analysis(LITE.Read(Deletes()), []), mode).reason ==
            "DELETE" + " modifies data or database state" +
            if mode == ReadWrite then "" else "; this connection is READ ONLY"
    ensures Classify(Analysis(LITE.Read(Explains()), []), mode) == Result(Allow, Explain, "reads only", 1)
  {
    hide Language.Read, ChangesServer, Classify, Deletes, Explains;
    DeleteRead();
    ExplainRead();
    NoCalls();
    DeletingReason(Statement(Delete, NoKind, true, false, false, "", "DELETEFROMt", 0, 12), mode);
    ReadingReason(Statement(Explain, NoKind, false, false, false, "", "explain" + "DELETEFROMt", 0, 20), mode);
  }

  // ---------------------------------------------------------------------------------------
  // PostgreSQL
  // ---------------------------------------------------------------------------------------

  const EXPLAINING := Semantics(Explain, false, false, false, "")

  /** The part of PostgreSQL's grammar this needs, where EXPLAIN is a rule and ANALYZE runs what it explains. */
  const LARGE := Language(
    Grammar(["stmt"], "stmt", "analyze_keyword", "", false,
            map["explainstmt" := EXPLAINING, "deletestmt" := DELETING], [], {}),
    ["stmt", "explainstmt", "analyze_keyword", "deletestmt"])

  function Deleted(): Tree {
    Rule(3, Some(Word("DELETE", 16)), Some(Word("t", 28)),
         [Terminal(Word("DELETE", 16)), Terminal(Word("FROM", 23)), Terminal(Word("t", 28))], NOTHING)
  }

  function Analyze(): Tree {
    Rule(2, Some(Word("ANALYZE", 8)), Some(Word("ANALYZE", 8)), [Terminal(Word("ANALYZE", 8))], NOTHING)
  }

  function Explained(): Tree {
    var first := Word("EXPLAIN", 0);
    Rule(1, Some(first), Some(Word("t", 28)), [Terminal(first), Analyze(), Deleted()], NOTHING)
  }

  /** `EXPLAIN ANALYZE DELETE FROM t`. */
  function ExplainsRunning(): Tree {
    Rule(0, Some(Word("EXPLAIN", 0)), Some(Word("t", 28)), [Explained()], NOTHING)
  }

  lemma RuleNames()
    ensures "stmt" != "explainstmt" && "stmt" != "analyze_keyword" && "stmt" != "deletestmt"
    ensures "analyze_keyword" != "explainstmt" && "analyze_keyword" != "deletestmt"
  {
    assert "analyze_keyword"[0] != "explainstmt"[0] && "analyze_keyword"[0] != "deletestmt"[0];
  }

  lemma {:induction false} DeletedReads()
    ensures LARGE.Visited(Deleted()) == [DELETING] && Text(Deleted()) == "DELETEFROMt"
  {
    RuleNames();
    hide TextAll, Language.VisitedAll;
    WordsRead(LARGE, Word("DELETE", 16), Word("FROM", 23), Word("t", 28));
    assert "DELETE" + "FROM" + "t" == "DELETEFROMt";
  }

  lemma {:induction false} AnalyzeReads()
    ensures LARGE.Visited(Analyze()) == [] && LARGE.Analyzed(Analyze()) && Text(Analyze()) == "ANALYZE"
  {
    RuleNames();
    hide TextAll, Language.VisitedAll, Language.AnalyzedAny;
    OneWordRead(LARGE, Word("ANALYZE", 8));
  }

  lemma {:induction false} OneWordRead(language: Language, word: Token)
    ensures TextAll([Terminal(word)]) == word.text && language.VisitedAll([Terminal(word)]) == []
  {
    var t := Terminal(word);
    assert [t] == [t] + [];
    Unfold(language, t, []);
  }

  lemma {:induction false} PartsRead()
    ensures var ts := [Terminal(Word("EXPLAIN", 0)), Analyze(), Deleted()];
            && LARGE.VisitedAll(ts) == [DELETING] && LARGE.AnalyzedAny(ts)
            && TextAll(ts) == "EXPLAIN" + ("ANALYZE" + "DELETEFROMt")
  {
    DeletedReads();
    AnalyzeReads();
    hide TextAll, Language.VisitedAll, Language.AnalyzedAny, Deleted, Analyze;
    var word := Terminal(Word("EXPLAIN", 0));
    assert [word, Analyze(), Deleted()] == [word] + ([Analyze()] + ([Deleted()] + []));
    Unfold(LARGE, word, [Analyze()] + ([Deleted()] + []));
    Unfold(LARGE, Analyze(), [Deleted()] + []);
    Unfold(LARGE, Deleted(), []);
    Empty(LARGE);
    AnySecond(LARGE, word, Analyze(), Deleted());
  }

  lemma {:induction false} ExplainedReads()
    ensures LARGE.Visited(Explained()) == [EXPLAINING, DELETING] && LARGE.Analyzed(Explained())
    ensures Text(Explained()) == "EXPLAIN" + ("ANALYZE" + "DELETEFROMt")
  {
    RuleNames();
    PartsRead();
    hide TextAll, Language.VisitedAll, Language.AnalyzedAny, Deleted, Analyze;
  }

  lemma {:induction false} AnySecond(language: Language, a: Tree, b: Tree, c: Tree)
    requires language.Analyzed(b)
    ensures language.AnalyzedAny([a, b, c])
  {
    assert [a, b, c][1..] == [b, c];
    assert language.AnalyzedAny([b, c]);
  }

  lemma {:induction false} RunningSays()
    ensures LARGE.Said(ExplainsRunning()) == [EXPLAINING, DELETING] && LARGE.Runs(ExplainsRunning())
    ensures Text(ExplainsRunning()) == "EXPLAIN" + ("ANALYZE" + "DELETEFROMt")
  {
    RuleNames();
    ExplainedReads();
    hide TextAll, Language.VisitedAll, Language.AnalyzedAny, Explained;
    assert [Explained()] == [Explained()] + [];
    Unfold(LARGE, Explained(), []);
    Empty(LARGE);
    assert LARGE.AnalyzedAny([Explained()]) by { AnyFirst(LARGE, Explained()); }
  }

  lemma {:induction false} AnyFirst(language: Language, a: Tree)
    requires language.Analyzed(a)
    ensures language.AnalyzedAny([a])
  {}

  lemma RunningSums()
    ensures Summary(false, false, [EXPLAINING, DELETING]) ==
            Statement(Explain, Delete, true, false, false, "", "", 0, 0)
  {
    var said := [EXPLAINING, DELETING];
    assert FirstKind(said) == 0 && said[0..] == said && said[1..] == [DELETING] && said[1..][1..] == [];
    assert FirstMutator([DELETING]) == 0 && FirstMutator(said) == 1;
    assert FirstRefusal(said) == "" by { assert FirstRefusal([DELETING]) == ""; }
    assert said[1].mutating;
    assert forall i :: 0 <= i < |said| ==> !said[i].locking && !said[i].materializes;
  }

  lemma WordsSolid()
    ensures var text := "EXPLAIN" + ("ANALYZE" + "DELETEFROMt"); Solid(text) && '(' !in text
  {}

  /** An EXPLAIN that runs a DELETE is read as an EXPLAIN that holds one. */
  lemma {:induction false} RunningRead()
    ensures LARGE.Read(ExplainsRunning()) ==
            [Statement(Explain, Delete, true, false, false, "", "EXPLAIN" + ("ANALYZE" + "DELETEFROMt"), 0, 28)]
  {
    var t, text := ExplainsRunning(), "EXPLAIN" + ("ANALYZE" + "DELETEFROMt");
    RunningSays();
    WordsSolid();
    OneWord(text);
    BlankIs(LARGE, t);
    RunningSums();
    RunningRecord(t, text);
  }

  lemma {:induction false} RunningRecord(t: Tree, text: string)
    requires t == ExplainsRunning() && Text(t) == text && TrimSpace(text) == text && !LARGE.Blank(t)
    requires LARGE.Said(t) == [EXPLAINING, DELETING] && LARGE.Runs(t)
    requires Summary(false, false, LARGE.Said(t)) == Statement(Explain, Delete, true, false, false, "", "", 0, 0)
    ensures LARGE.Read(t) == [Statement(Explain, Delete, true, false, false, "", text, 0, 28)]
  {
    hide Language.Said, Language.Runs, Text, TrimSpace, Language.Blank, Summary, Explained;
    assert LARGE.Openers(t) == [t];
    ReadAs(LARGE, t, t);
    assert !LARGE.StartsWithExplain(t);
  }

  /** It is never allowed, and what is said of it is what it holds. */
  lemma {:induction false} RunningNotAllowed(mode: Mode)
    ensures Classify(Analysis(LARGE.Read(ExplainsRunning()), []), mode).verdict ==
            if mode == ReadWrite then Warn else Block
    ensures Classify(Analysis(LARGE.Read(ExplainsRunning()), []), mode).reason ==
            "the statement contains " + "DELETE" + if mode == ReadWrite then "" else "; this connection is READ ONLY"
  {
    var text := "EXPLAIN" + ("ANALYZE" + "DELETEFROMt");
    RunningRead();
    WordsSolid();
    hide Language.Read, Classify, ExplainsRunning, ChangesServer;
    CallsNothing(text);
    Reason(Statement(Explain, Delete, true, false, false, "", text, 0, 28), mode);
  }
}
