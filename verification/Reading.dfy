/** Two facts about the reading: when a refusal can be lost, and that the statements of a tree whose
    tokens are in order lie one after the other. */
module ReadingFacts {
  import opened Options
  import opened Strings
  import opened SqlDialect
  import opened SqlGuard

  // ---------------------------------------------------------------------------------------
  // Refusals
  // ---------------------------------------------------------------------------------------

  /** Every refusal comes with a kind, or after one. */
  predicate Backed(said: seq<Semantics>) {
    forall i :: 0 <= i < |said| && said[i].refusal != "" ==> FirstKind(said) <= i
  }

  /** A refusal that carries no kind is only produced where the rule itself carries one. */
  predicate Kinded(language: Language, t: Tree)
    decreases t, 0
  {
    t.Rule? ==> Backed(language.Own(t)) && KindedAll(language, t.children)
  }

  predicate KindedAll(language: Language, ts: seq<Tree>)
    decreases ts, 0
  {
    ts != [] ==> Kinded(language, ts[0]) && KindedAll(language, ts[1..])
  }

  lemma {:induction false} FirstKindAppend(a: seq<Semantics>, b: seq<Semantics>)
    ensures FirstKind(a + b) == if FirstKind(a) < |a| then FirstKind(a) else |a| + FirstKind(b)
  {
    if a == [] {
      assert a + b == b;
    } else {
      FirstKindAppend(a[1..], b);
      assert (a + b)[1..] == a[1..] + b;
    }
  }

  lemma BackedAppend(a: seq<Semantics>, b: seq<Semantics>)
    requires Backed(a) && Backed(b)
    ensures Backed(a + b)
  {
    FirstKindAppend(a, b);
    forall i | 0 <= i < |a + b| && (a + b)[i].refusal != ""
      ensures FirstKind(a + b) <= i
    {
      if i < |a| {
        assert a[i].refusal != "";
      } else {
        assert b[i - |a|].refusal != "";
      }
    }
  }

  lemma {:induction false} VisitedBacked(language: Language, t: Tree)
    requires Kinded(language, t)
    ensures Backed(language.Visited(t))
    decreases t, 0
  {
    hide Backed;
    if t.Rule? {
      VisitedAllBacked(language, t.children);
      var own := if language.Opens(t) then [] else language.Own(t);
      NothingBacked();
      BackedAppend(own, language.VisitedAll(t.children));
    } else {
      NothingBacked();
    }
  }

  lemma {:induction false} VisitedAllBacked(language: Language, ts: seq<Tree>)
    requires KindedAll(language, ts)
    ensures Backed(language.VisitedAll(ts))
    decreases ts, 0
  {
    hide Backed;
    if ts == [] {
      NothingBacked();
    } else {
      VisitedBacked(language, ts[0]);
      VisitedAllBacked(language, ts[1..]);
      BackedAppend(language.Visited(ts[0]), language.VisitedAll(ts[1..]));
    }
  }

  lemma NothingBacked()
    ensures Backed([])
  {}

  /** Nothing that is said in an allowed statement refuses it, or does anything, unless the
      statement is an EXPLAIN that runs nothing. */
  lemma {:induction false} AllowedIsInnocent(language: Language, tree: Tree, errors: seq<SyntaxError>, mode: Mode)
    requires forall i :: 0 <= i < |language.Openers(tree)| ==> Kinded(language, language.Openers(tree)[i])
    ensures Classify(Analysis(language.Read(tree), errors), mode).verdict == Allow ==>
              && |language.Openers(tree)| == 1
              && var t := language.Openers(tree)[0];
                 && language.Record(t).kind != Unknown
                 && !ChangesServer(language.Record(t).text)
                 && (language.OnlyExplains(t) || (!Harmful(language.Said(t)) && !Refused(language.Said(t))))
  {
    hide Classify, ChangesServer, Harmful, TrimSpace, Language.Read;
    AllowedExactly(language, tree, errors, mode);
    if Classify(Analysis(language.Read(tree), errors), mode).verdict == Allow {
      var t := language.Openers(tree)[0];
      SaidBacked(language, t);
      InnocentKnown(language.StartsWithExplain(t), !language.Runs(t) || language.grammar.explainSafe, language.Said(t));
    }
  }

  lemma {:induction false} SaidBacked(language: Language, t: Tree)
    requires t.Rule? && Kinded(language, t)
    ensures Backed(language.Said(t))
  {
    hide Backed;
    VisitedAllBacked(language, t.children);
    BackedAppend(language.Own(t), language.VisitedAll(t.children));
  }

  lemma InnocentKnown(explained: bool, safe: bool, said: seq<Semantics>)
    requires Backed(said) && Innocent(explained, safe, said)
    ensures Summary(explained, safe, said).kind != Unknown
    ensures ShowsPlan(explained, safe, said) || (!Harmful(said) && !Refused(said))
  {}

  /** Exactly when a refusal is forgotten: in a statement that was allowed, and is no EXPLAIN that runs
      nothing, there is one exactly when one was said before any kind was. */
  lemma {:induction false} ForgottenExactly(language: Language, tree: Tree, errors: seq<SyntaxError>, mode: Mode)
    requires Classify(Analysis(language.Read(tree), errors), mode).verdict == Allow
    ensures |language.Openers(tree)| == 1
    ensures
      var t := language.Openers(tree)[0];
      language.OnlyExplains(t) || (Refused(language.Said(t)) <==> !Backed(language.Said(t)))
  {
    hide Classify, ChangesServer, Harmful, TrimSpace, Language.Read;
    AllowedExactly(language, tree, errors, mode);
    var t := language.Openers(tree)[0];
    if !language.OnlyExplains(t) {
      var safe := !language.Runs(t) || language.grammar.explainSafe;
      InnocentRefused(language.StartsWithExplain(t), safe, language.Said(t));
    }
  }

  lemma {:induction false} InnocentRefused(explained: bool, safe: bool, said: seq<Semantics>)
    requires Innocent(explained, safe, said) && !ShowsPlan(explained, safe, said)
    ensures Refused(said) <==> !Backed(said)
  {
    var known := if explained then 0 else FirstKind(said);
    assert forall i :: known <= i < |said| ==> said[i] == said[known..][i - known];
  }

  // ---------------------------------------------------------------------------------------
  // A grammar that meets the assumption
  // ---------------------------------------------------------------------------------------

  const CREATING := Semantics(Create, true, false, false, "")
  const ALTERING := Semantics(Alter, true, false, false, "")
  const DROPPING := Semantics(Drop, true, false, false, "")

  const POSTGRESQL_PREFIXES: seq<PrefixRule> := [
    PrefixRule("create", CREATING), PrefixRule("alter", ALTERING), PrefixRule("drop", DROPPING),
    PrefixRule("rename", ALTERING)]

  const POSTGRESQL_REFINEMENTS: set<string> := {"indexstmt", "dropstmt", "alterdatabasestmt"}

  /** The part of the PostgreSQL grammar that names the rules its refinements refuse: one has an entry
      of its own, and two are matched by a prefix. No entry refuses without a kind. */
  predicate Postgresql(grammar: Grammar) {
    && grammar.suffix == "stmt" && grammar.prefixes == POSTGRESQL_PREFIXES
    && grammar.refinements == POSTGRESQL_REFINEMENTS
    && "indexstmt" in grammar.rules && grammar.rules["indexstmt"] == CREATING
    && "dropstmt" !in grammar.rules && "alterdatabasestmt" !in grammar.rules
    && forall name :: name in grammar.rules && grammar.rules[name].refusal != "" ==> grammar.rules[name].kind != NoKind
  }

  /** A refinement says nothing but a refusal, if that. */
  predicate RefinesBarely(language: Language, t: Tree)
    decreases t, 0
  {
    t.Rule? ==>
      && (language.Name(t) in language.grammar.refinements ==>
            t.refined == Semantics(NoKind, false, false, false, t.refined.refusal))
      && RefineBarely(language, t.children)
  }

  predicate RefineBarely(language: Language, ts: seq<Tree>)
    decreases ts, 0
  {
    ts != [] ==> RefinesBarely(language, ts[0]) && RefineBarely(language, ts[1..])
  }

  lemma {:induction false} RefinedIsNamed(grammar: Grammar, name: string)
    requires Postgresql(grammar) && name in grammar.refinements
    ensures grammar.Lookup(name).Some? && grammar.Lookup(name).value.kind != NoKind
  {
    if name == "dropstmt" {
      assert grammar.MatchesFirst(name, grammar.prefixes, 2) by {
        assert name[0] == 'd';
      }
      grammar.LookupIs(name, 2);
    } else if name == "alterdatabasestmt" {
      assert grammar.MatchesFirst(name, grammar.prefixes, 1) by {
        assert name[0] == 'a';
      }
      grammar.LookupIs(name, 1);
    }
  }

  lemma {:induction false} PrefixesKinded(grammar: Grammar, name: string, i: nat)
    requires i <= |POSTGRESQL_PREFIXES| && grammar.prefixes == POSTGRESQL_PREFIXES
    ensures var found := grammar.FirstPrefix(name, POSTGRESQL_PREFIXES[i..]); found.Some? ==> found.value.kind != NoKind
    decreases |POSTGRESQL_PREFIXES| - i
  {
    if i < |POSTGRESQL_PREFIXES| {
      PrefixesKinded(grammar, name, i + 1);
      assert POSTGRESQL_PREFIXES[i..][1..] == POSTGRESQL_PREFIXES[i + 1..];
    }
  }

  /** At every rule of every tree: where a refinement refuses without a kind, the rule has one. */
  lemma {:induction false} PostgresqlBacked(language: Language, t: Tree)
    requires t.Rule? && Postgresql(language.grammar) && RefinesBarely(language, t)
    ensures Backed(language.Own(t))
  {
    var name := language.Name(t);
    PrefixesKinded(language.grammar, name, 0);
    if name in language.grammar.refinements {
      RefinedIsNamed(language.grammar, name);
    }
    hide Postgresql;
  }

  /** So that grammar meets the assumption on every tree. */
  lemma {:induction false} PostgresqlKinded(language: Language, t: Tree)
    requires Postgresql(language.grammar) && RefinesBarely(language, t)
    ensures Kinded(language, t)
    decreases t, 0
  {
    hide Backed, Postgresql, Language.Own;
    if t.Rule? {
      PostgresqlBacked(language, t);
      PostgresqlKindedAll(language, t.children);
    }
  }

  lemma {:induction false} PostgresqlKindedAll(language: Language, ts: seq<Tree>)
    requires Postgresql(language.grammar) && RefineBarely(language, ts)
    ensures KindedAll(language, ts)
    decreases ts, 0
  {
    hide Backed, Postgresql, Language.Own;
    if ts != [] {
      PostgresqlKinded(language, ts[0]);
      PostgresqlKindedAll(language, ts[1..]);
    }
  }

  // ---------------------------------------------------------------------------------------
  // A grammar that does not
  // ---------------------------------------------------------------------------------------

  // The assumption is needed: a grammar that refuses a rule without a kind, before any kind is
  // known, has its refusal forgotten.

  const SELECTING := Semantics(Select, false, false, false, "")
  const FORBIDDING := Semantics(NoKind, false, false, false, "never")
  const PLAIN := Semantics(NoKind, false, false, false, "")

  const FORGETFUL := Language(
    Grammar(["stmt"], "", "", "", false, map["body" := SELECTING], [], {"hint"}), ["stmt", "hint", "body"])

  function Forgotten(): Tree {
    Rule(0, None, None, [
      Rule(1, None, None, [], FORBIDDING),
      Rule(2, None, None, [Terminal(Token("x", 0, 0))], PLAIN)], PLAIN)
  }

  lemma ForgottenSays()
    ensures FORGETFUL.Said(Forgotten()) == [FORBIDDING, SELECTING]
    ensures Text(Forgotten()) == "x"
    ensures !FORGETFUL.Runs(Forgotten()) && !FORGETFUL.StartsWithExplain(Forgotten())
  {}

  lemma RefusalForgotten(mode: Mode)
    ensures Refused(FORGETFUL.Said(Forgotten()))
    ensures Classify(Analysis(FORGETFUL.Read(Forgotten()), []), mode).verdict == Allow
  {
    hide Classify, Harmless, Forgotten, Language.Said, Language.Read, Language.Openers;
    ForgottenSays();
    assert [FORBIDDING, SELECTING][0].refusal != "";
    ForgottenHarmless();
    AllowedExactly(FORGETFUL, Forgotten(), [], mode);
  }

  lemma ForgottenHarmless()
    ensures FORGETFUL.Openers(Forgotten()) == [Forgotten()]
    ensures Harmless(FORGETFUL, Forgotten())
  {
    hide ChangesServer, TrimSpace;
    var t := Forgotten();
    ForgottenSays();
    ShortText("x");
    assert !FORGETFUL.Blank(t);
    SelectingInnocent();
  }

  lemma SelectingInnocent()
    ensures Innocent(false, true, [FORBIDDING, SELECTING])
  {
    var said := [FORBIDDING, SELECTING];
    assert said[1..] == [SELECTING];
    assert FirstKind(said[1..]) == 0 && FirstKind(said) == 1;
  }

  lemma ShortText(text: string)
    requires text == "x"
    ensures !ChangesServer(text) && TrimSpace(text) == text && Trim(text, {';'}) == text
  {}

  // ---------------------------------------------------------------------------------------
  // Positions
  // ---------------------------------------------------------------------------------------

  predicate Before(a: Token, b: Token) {
    a.start < b.start && a.stop < b.start
  }

  predicate InOrder(tokens: seq<Token>) {
    forall i, j :: 0 <= i < j < |tokens| ==> Before(tokens[i], tokens[j])
  }

  /** Every rule that holds a token starts at its first one and stops at its last. */
  predicate Spanning(t: Tree)
    decreases t, 0
  {
    t.Rule? ==>
      && (Tokens(t) != [] ==> t.start == Some(Tokens(t)[0]) && t.stop == Some(Tokens(t)[|Tokens(t)| - 1]))
      && SpanningAll(t.children)
  }

  predicate SpanningAll(ts: seq<Tree>)
    decreases ts, 0
  {
    ts != [] ==> Spanning(ts[0]) && SpanningAll(ts[1..])
  }

  /** Statements that lie one after the other. */
  predicate Ordered(statements: seq<Statement>) {
    && (forall i :: 0 <= i < |statements| ==> statements[i].start <= statements[i].stop)
    && (forall i, j :: 0 <= i < j < |statements| ==> statements[i].stop < statements[j].start)
  }

  /** A statement lies among some tokens: it starts where one starts, and stops where one
      starts or stops. */
  predicate Among(statement: Statement, tokens: seq<Token>) {
    && statement.start <= statement.stop
    && (exists i :: 0 <= i < |tokens| && statement.start == tokens[i].start)
    && (exists i :: 0 <= i < |tokens| && (statement.stop == tokens[i].start || statement.stop == tokens[i].stop))
  }

  predicate AllAmong(statements: seq<Statement>, tokens: seq<Token>) {
    forall i :: 0 <= i < |statements| ==> Among(statements[i], tokens)
  }

  lemma OrderedAppend(a: seq<Statement>, b: seq<Statement>, left: seq<Token>, right: seq<Token>)
    requires Ordered(a) && Ordered(b) && AllAmong(a, left) && AllAmong(b, right) && InOrder(left + right)
    ensures Ordered(a + b) && AllAmong(a + b, left + right)
  {
    var all := left + right;
    assert forall i :: 0 <= i < |left| ==> all[i] == left[i];
    assert forall i :: 0 <= i < |right| ==> all[|left| + i] == right[i];
    forall i, j | 0 <= i < |a| && 0 <= j < |b|
      ensures a[i].stop < b[j].start
    {
      Separate(a[i], left, b[j], right);
    }
    forall i | 0 <= i < |a + b|
      ensures Among((a + b)[i], all)
    {
      if i < |a| {
        Wider(a[i], [], left, right);
        assert [] + left + right == all;
      } else {
        Wider(b[i - |a|], left, right, []);
        assert left + right + [] == all;
      }
    }
  }

  lemma Wider(statement: Statement, before: seq<Token>, tokens: seq<Token>, after: seq<Token>)
    requires Among(statement, tokens)
    ensures Among(statement, before + tokens + after)
  {
    var all := before + tokens + after;
    var i :| 0 <= i < |tokens| && statement.start == tokens[i].start;
    var j :| 0 <= j < |tokens| && (statement.stop == tokens[j].start || statement.stop == tokens[j].stop);
    assert all[|before| + i] == tokens[i] && all[|before| + j] == tokens[j];
  }

  lemma Separate(a: Statement, left: seq<Token>, b: Statement, right: seq<Token>)
    requires Among(a, left) && Among(b, right) && InOrder(left + right)
    ensures a.stop < b.start
  {
    var i :| 0 <= i < |left| && (a.stop == left[i].start || a.stop == left[i].stop);
    var j :| 0 <= j < |right| && b.start == right[j].start;
    var all := left + right;
    assert all[i] == left[i] && all[|left| + j] == right[j];
    assert Before(all[i], all[|left| + j]);
  }

  /** The statements read off a tree lie one after the other, among its tokens. */
  lemma {:induction false} ReadInOrder(language: Language, t: Tree)
    requires Spanning(t) && InOrder(Tokens(t))
    ensures Ordered(language.Read(t)) && AllAmong(language.Read(t), Tokens(t))
    decreases t, 0
  {
    hide Among;
    if t.Rule? {
      if !language.Opens(t) {
        ReadAllInOrder(language, t.children);
      } else if !language.Blank(t) {
        RecordAmong(language, t);
        assert language.Read(t) == [language.Record(t)];
      }
    }
  }

  lemma {:induction false} ReadAllInOrder(language: Language, ts: seq<Tree>)
    requires SpanningAll(ts) && InOrder(TokensAll(ts))
    ensures Ordered(language.ReadAll(ts)) && AllAmong(language.ReadAll(ts), TokensAll(ts))
    decreases ts, 0
  {
    hide Among, Language.Record;
    if ts != [] {
      var left, right := Tokens(ts[0]), TokensAll(ts[1..]);
      HalvesInOrder(left, right);
      ReadInOrder(language, ts[0]);
      ReadAllInOrder(language, ts[1..]);
      language.RecordAllAppend(language.Openers(ts[0]), language.OpenersAll(ts[1..]));
      OrderedAppend(language.Read(ts[0]), language.ReadAll(ts[1..]), left, right);
    }
  }

  lemma HalvesInOrder(left: seq<Token>, right: seq<Token>)
    requires InOrder(left + right)
    ensures InOrder(left) && InOrder(right)
  {
    var all := left + right;
    forall i, j | 0 <= i < j < |left|
      ensures Before(left[i], left[j])
    {
      assert Before(all[i], all[j]);
    }
    forall i, j | 0 <= i < j < |right|
      ensures Before(right[i], right[j])
    {
      assert Before(all[|left| + i], all[|left| + j]);
    }
  }

  lemma {:induction false} RecordAmong(language: Language, t: Tree)
    requires t.Rule? && Spanning(t) && !language.Blank(t)
    ensures Among(language.Record(t), Tokens(t))
  {
    hide Summary, Language.Said, Language.Runs, Language.StartsWithExplain;
    NoTokensNoText(t);
    assert Tokens(t) != [] by {
      assert Trim(TrimSpace(""), {';'}) == "";
    }
    var last := |Tokens(t)| - 1;
    assert language.Record(t).start == Tokens(t)[0].start;
    assert language.Record(t).stop == Tokens(t)[last].stop || language.Record(t).stop == Tokens(t)[0].start;
  }

  lemma {:induction false} NoTokensNoText(t: Tree)
    ensures Tokens(t) == [] ==> Text(t) == ""
    decreases t, 0
  {
    if t.Rule? {
      NoTokensNoTextAll(t.children);
    }
  }

  lemma {:induction false} NoTokensNoTextAll(ts: seq<Tree>)
    ensures TokensAll(ts) == [] ==> TextAll(ts) == ""
    decreases ts, 0
  {
    if ts != [] {
      NoTokensNoText(ts[0]);
      NoTokensNoTextAll(ts[1..]);
    }
  }
}
