/** The guard's verdict in terms of the tokens and the rules of a tree, and of the words it gives for
    it: what is never sent, and what an EXPLAIN comes to. */
module Verdicts {
  import opened Options
  import opened Strings
  import opened SqlDialect
  import opened SqlGuard

  // ---------------------------------------------------------------------------------------
  // Words
  // ---------------------------------------------------------------------------------------

  /** The same letter, but for its case. */
  predicate SameLetter(a: char, b: char) {
    || a == b
    || ('a' <= a <= 'z' && b as int == a as int - 32)
    || ('a' <= b <= 'z' && a as int == b as int - 32)
  }

  predicate SameWord(a: string, b: string) {
    |a| == |b| && forall i :: 0 <= i < |a| ==> SameLetter(a[i], b[i])
  }

  lemma FoldIs(a: string, b: string)
    ensures EqualFold(a, b) <==> SameWord(a, b)
  {
    assert forall x: char, y: char :: Fold(x) == Fold(y) <==> SameLetter(x, y);
  }

  // ---------------------------------------------------------------------------------------
  // Rules
  // ---------------------------------------------------------------------------------------

  /** A tree somewhere below another. */
  ghost predicate Below(t: Tree, node: Tree)
    decreases t
  {
    t.Rule? && exists i :: 0 <= i < |t.children| && (t.children[i] == node || Below(t.children[i], node))
  }

  /** A rule the parser has no name for has an empty one. */
  predicate Named(language: Language, node: Tree, name: string) {
    node.Rule? && name == if 0 <= node.index < |language.ruleNames| then language.ruleNames[node.index] else ""
  }

  /** A rule of a statement: the one that begins it, or one below that begins no other. */
  ghost predicate RuleOf(language: Language, t: Tree, node: Tree, name: string) {
    Named(language, node, name) && (node == t || (Below(t, node) && name !in language.grammar.statements))
  }

  /** What a rule carries: its entry, the first prefix rule that fits its name when it has none, or what
      its refinement says. */
  ghost predicate Carries(grammar: Grammar, node: Tree, name: string, rule: Semantics) {
    && node.Rule?
    && (|| (name in grammar.rules && rule == grammar.rules[name])
        || (name !in grammar.rules && exists i :: FitsFirst(grammar, name, i) && rule == grammar.prefixes[i].rule)
        || (name in grammar.refinements && rule == node.refined))
  }

  /** A name that begins with the prefix and ends as the grammar's rules do. */
  predicate Fits(grammar: Grammar, name: string, prefix: string) {
    && |prefix| <= |name| && name[..|prefix|] == prefix
    && |grammar.suffix| <= |name| && name[|name| - |grammar.suffix|..] == grammar.suffix
  }

  predicate FitsFirst(grammar: Grammar, name: string, i: int) {
    && 0 <= i < |grammar.prefixes| && Fits(grammar, name, grammar.prefixes[i].prefix)
    && forall j :: 0 <= j < i ==> !Fits(grammar, name, grammar.prefixes[j].prefix)
  }

  lemma {:induction false} FitsIs(grammar: Grammar, name: string, candidate: PrefixRule)
    ensures grammar.Matches(name, candidate) <==> Fits(grammar, name, candidate.prefix)
  {
    if HasPrefix(name, candidate.prefix) {
      assert name[..|candidate.prefix|] == candidate.prefix;
    }
  }

  lemma {:induction false} FitsFirstIs(grammar: Grammar, name: string, i: nat)
    requires FitsFirst(grammar, name, i)
    ensures grammar.MatchesFirst(name, grammar.prefixes, i)
  {
    hide Fits, Grammar.Matches;
    forall j | 0 <= j < |grammar.prefixes|
      ensures grammar.Matches(name, grammar.prefixes[j]) <==> Fits(grammar, name, grammar.prefixes[j].prefix)
    {
      FitsIs(grammar, name, grammar.prefixes[j]);
    }
  }

  lemma {:induction false} CarriedIsOwn(language: Language, node: Tree, name: string, rule: Semantics)
    requires Named(language, node, name) && Carries(language.grammar, node, name, rule)
    requires name != language.grammar.analyzeRule || name == ""
    ensures rule in language.Own(node)
  {
    hide Fits, Grammar.Lookup, Grammar.MatchesFirst;
    var grammar := language.grammar;
    if name in grammar.rules {
      grammar.LookupIs(name, 0);
    } else if exists i :: FitsFirst(grammar, name, i) && rule == grammar.prefixes[i].rule {
      var i :| FitsFirst(grammar, name, i) && rule == grammar.prefixes[i].rule;
      FitsFirstIs(grammar, name, i);
      grammar.LookupIs(name, i);
    }
  }

  lemma {:induction false} VisitedHears(language: Language, t: Tree, node: Tree, name: string, rule: Semantics)
    requires Named(language, node, name) && name !in language.grammar.statements && (node == t || Below(t, node))
    requires rule in language.Own(node)
    ensures rule in language.Visited(t)
    decreases t, 0
  {
    if node != t {
      var i :| 0 <= i < |t.children| && (t.children[i] == node || Below(t.children[i], node));
      AllHear(language, t.children, i, node, name, rule);
    }
  }

  lemma {:induction false} AllHear(language: Language, ts: seq<Tree>, i: nat, node: Tree, name: string, rule: Semantics)
    requires Named(language, node, name) && name !in language.grammar.statements
    requires i < |ts| && (ts[i] == node || Below(ts[i], node)) && rule in language.Own(node)
    ensures rule in language.VisitedAll(ts)
    decreases ts, 0
  {
    if i == 0 {
      VisitedHears(language, ts[0], node, name, rule);
    } else {
      AllHear(language, ts[1..], i - 1, node, name, rule);
    }
  }

  /** Every rule of a statement is heard. */
  lemma {:induction false} RuleHeard(language: Language, t: Tree, node: Tree, name: string, rule: Semantics)
    requires t.Rule? && RuleOf(language, t, node, name) && Carries(language.grammar, node, name, rule)
    requires name != language.grammar.analyzeRule || name == ""
    ensures rule in language.Said(t)
  {
    CarriedIsOwn(language, node, name, rule);
    if node != t {
      var i :| 0 <= i < |t.children| && (t.children[i] == node || Below(t.children[i], node));
      AllHear(language, t.children, i, node, name, rule);
    }
  }

  /** What a rule may carry. */
  datatype Trait = Changing | LockingRows | Creating | Explaining | Known | Refusing

  predicate Has(rule: Semantics, what: Trait) {
    match what
    case Changing => rule.mutating
    case LockingRows => rule.locking
    case Creating => rule.materializes
    case Explaining => rule.kind == Explain
    case Known => rule.kind != NoKind
    case Refusing => rule.kind != NoKind && rule.refusal != ""
  }

  /** Whether a rule of a statement carries something; the one that makes EXPLAIN run carries nothing. */
  ghost predicate Holds(language: Language, t: Tree, what: Trait) {
    exists node, name, rule ::
      && RuleOf(language, t, node, name) && Carries(language.grammar, node, name, rule) && Has(rule, what)
      && (name != language.grammar.analyzeRule || name == "")
  }

  lemma {:induction false} OwnCarried(language: Language, node: Tree, rule: Semantics)
    requires node.Rule? && rule in language.Own(node)
    ensures Carries(language.grammar, node, language.Name(node), rule)
    ensures language.Name(node) != language.grammar.analyzeRule || language.Name(node) == ""
  {
    var grammar, name := language.grammar, language.Name(node);
    if grammar.Lookup(name) == Some(rule) && name !in grammar.rules {
      var i := FirstFitting(grammar, name, 0);
      assert FitsFirst(grammar, name, i);
    }
  }

  lemma {:induction false} FirstFitting(grammar: Grammar, name: string, from: nat) returns (i: nat)
    requires from <= |grammar.prefixes| && grammar.FirstPrefix(name, grammar.prefixes[from..]).Some?
    requires forall j :: 0 <= j < from ==> !Fits(grammar, name, grammar.prefixes[j].prefix)
    ensures FitsFirst(grammar, name, i)
    ensures grammar.FirstPrefix(name, grammar.prefixes[from..]) == Some(grammar.prefixes[i].rule)
    decreases |grammar.prefixes| - from
  {
    FitsIs(grammar, name, grammar.prefixes[from]);
    if Fits(grammar, name, grammar.prefixes[from].prefix) {
      i := from;
    } else {
      assert grammar.prefixes[from..][1..] == grammar.prefixes[from + 1..];
      i := FirstFitting(grammar, name, from + 1);
    }
  }

  lemma {:induction false} VisitedFrom(language: Language, t: Tree, rule: Semantics) returns (node: Tree)
    requires rule in language.Visited(t)
    ensures node.Rule? && (node == t || Below(t, node)) && rule in language.Own(node)
    ensures language.Name(node) !in language.grammar.statements
    decreases t, 0
  {
    if !language.Opens(t) && rule in language.Own(t) {
      node := t;
    } else {
      var i;
      i, node := AllFrom(language, t.children, rule);
      assert Below(t, node);
    }
  }

  lemma {:induction false} AllFrom(language: Language, ts: seq<Tree>, rule: Semantics) returns (i: nat, node: Tree)
    requires rule in language.VisitedAll(ts)
    ensures i < |ts| && node.Rule? && (ts[i] == node || Below(ts[i], node)) && rule in language.Own(node)
    ensures language.Name(node) !in language.grammar.statements
    decreases ts, 0
  {
    if rule in language.Visited(ts[0]) {
      i := 0;
      node := VisitedFrom(language, ts[0], rule);
    } else {
      i, node := AllFrom(language, ts[1..], rule);
      i := i + 1;
    }
  }

  /** Exactly what the rules of a statement carry is heard. */
  lemma {:induction false} HoldsIs(language: Language, t: Tree, what: Trait)
    requires t.Rule?
    ensures Holds(language, t, what) <==> exists rule :: rule in language.Said(t) && Has(rule, what)
  {
    hide Has, Carries, Language.Own, Language.VisitedAll;
    if Holds(language, t, what) {
      var node, name, rule :|
        && RuleOf(language, t, node, name) && Carries(language.grammar, node, name, rule) && Has(rule, what)
        && (name != language.grammar.analyzeRule || name == "");
      RuleHeard(language, t, node, name, rule);
    }
    if exists rule :: rule in language.Said(t) && Has(rule, what) {
      var rule :| rule in language.Said(t) && Has(rule, what);
      HeardHolds(language, t, rule, what);
    }
  }

  lemma {:induction false} HeardHolds(language: Language, t: Tree, rule: Semantics, what: Trait)
    requires t.Rule? && rule in language.Said(t) && Has(rule, what)
    ensures Holds(language, t, what)
  {
    hide Has, Carries, Language.Own, Language.VisitedAll;
    var node := t;
    if rule !in language.Own(t) {
      var i;
      i, node := AllFrom(language, t.children, rule);
      assert Below(t, node);
    }
    OwnCarried(language, node, rule);
    assert RuleOf(language, t, node, language.Name(node));
  }

  // ---------------------------------------------------------------------------------------
  // EXPLAIN
  // ---------------------------------------------------------------------------------------

  /** The first token of a statement is the word the dialect explains with, in any case. */
  predicate SaysExplain(language: Language, t: Tree) {
    && t.Rule? && t.start.Some? && language.grammar.explainToken != ""
    && SameWord(t.start.value.text, language.grammar.explainToken)
  }

  /** A rule of the statement is the one that makes EXPLAIN run what it explains. */
  ghost predicate AsksToRun(language: Language, t: Tree) {
    language.grammar.analyzeRule != "" && exists node :: RuleOf(language, t, node, language.grammar.analyzeRule)
  }

  lemma {:induction false} AnalyzedFrom(language: Language, t: Tree) returns (node: Tree)
    requires language.Analyzed(t)
    ensures (node == t || Below(t, node)) && Named(language, node, language.grammar.analyzeRule)
    ensures language.grammar.analyzeRule != "" && language.grammar.analyzeRule !in language.grammar.statements
    decreases t, 0
  {
    if !language.Opens(t) && language.Analyzing(t) {
      node := t;
    } else {
      var i;
      i, node := AnyAnalyzedFrom(language, t.children);
      assert Below(t, node);
    }
  }

  lemma {:induction false} AnyAnalyzedFrom(language: Language, ts: seq<Tree>) returns (i: nat, node: Tree)
    requires language.AnalyzedAny(ts)
    ensures i < |ts| && (ts[i] == node || Below(ts[i], node)) && Named(language, node, language.grammar.analyzeRule)
    ensures language.grammar.analyzeRule != "" && language.grammar.analyzeRule !in language.grammar.statements
    decreases ts, 0
  {
    if language.Analyzed(ts[0]) {
      i := 0;
      node := AnalyzedFrom(language, ts[0]);
    } else {
      i, node := AnyAnalyzedFrom(language, ts[1..]);
      i := i + 1;
    }
  }

  lemma {:induction false} AnalyzedHears(language: Language, t: Tree, node: Tree)
    requires (node == t || Below(t, node)) && Named(language, node, language.grammar.analyzeRule)
    requires language.grammar.analyzeRule != "" && language.grammar.analyzeRule !in language.grammar.statements
    ensures language.Analyzed(t)
    decreases t, 0
  {
    if node != t {
      var i :| 0 <= i < |t.children| && (t.children[i] == node || Below(t.children[i], node));
      AnyAnalyzedHears(language, t.children, i, node);
    }
  }

  lemma {:induction false} AnyAnalyzedHears(language: Language, ts: seq<Tree>, i: nat, node: Tree)
    requires i < |ts| && (ts[i] == node || Below(ts[i], node)) && Named(language, node, language.grammar.analyzeRule)
    requires language.grammar.analyzeRule != "" && language.grammar.analyzeRule !in language.grammar.statements
    ensures language.AnalyzedAny(ts)
    decreases ts, 0
  {
    if i == 0 {
      AnalyzedHears(language, ts[0], node);
    } else {
      AnyAnalyzedHears(language, ts[1..], i - 1, node);
    }
  }

  lemma {:induction false} RunsIs(language: Language, t: Tree)
    requires t.Rule?
    ensures language.Runs(t) <==> AsksToRun(language, t)
  {
    if language.Analyzing(t) {
      assert RuleOf(language, t, t, language.grammar.analyzeRule);
    } else if language.AnalyzedAny(t.children) {
      var i, node := AnyAnalyzedFrom(language, t.children);
      assert Below(t, node);
      assert RuleOf(language, t, node, language.grammar.analyzeRule);
    }
    if AsksToRun(language, t) && !language.Analyzing(t) {
      var node :| RuleOf(language, t, node, language.grammar.analyzeRule);
      var i :| 0 <= i < |t.children| && (t.children[i] == node || Below(t.children[i], node));
      AnyAnalyzedHears(language, t.children, i, node);
    }
  }

  /** What EXPLAIN does not run it clears: the record is of an EXPLAIN that does nothing and is not
      refused, whatever its rules carry. */
  lemma {:induction false} ExplainCleared(language: Language, t: Tree)
    requires SaysExplain(language, t) && (language.grammar.explainSafe || !AsksToRun(language, t))
    ensures
      var record := language.Record(t);
      && record.kind == Explain && record.refusal == ""
      && !record.mutating && !record.locking && !record.materializes
  {
    FoldIs(t.start.value.text, language.grammar.explainToken);
    RunsIs(language, t);
    hide EqualFold, AsksToRun, Language.Runs, Language.Said, SameWord, TrimSpace;
  }

  /** A statement that is no EXPLAIN, by its first token or by a rule. */
  ghost predicate NoExplain(language: Language, t: Tree) {
    !SaysExplain(language, t) && !Holds(language, t, Explaining)
  }

  /** An EXPLAIN that runs what it explains, where the dialect lets it. */
  ghost predicate RunsIt(language: Language, t: Tree) {
    AsksToRun(language, t) && !language.grammar.explainSafe
  }

  lemma {:induction false} NotExplained(language: Language, t: Tree)
    requires t.Rule? && NoExplain(language, t)
    ensures !language.StartsWithExplain(t) && forall rule :: rule in language.Said(t) ==> rule.kind != Explain
  {
    if t.start.Some? {
      FoldIs(t.start.value.text, language.grammar.explainToken);
    }
    HoldsIs(language, t, Explaining);
    hide Holds, EqualFold, SameWord, Language.Said;
    forall rule | rule in language.Said(t)
      ensures rule.kind != Explain
    {
      assert !Has(rule, Explaining);
    }
  }

  lemma {:induction false} NotShown(language: Language, t: Tree)
    requires t.Rule? && (NoExplain(language, t) || RunsIt(language, t))
    ensures !language.OnlyExplains(t)
  {
    if RunsIt(language, t) {
      RunsIs(language, t);
      hide AsksToRun, Language.Runs, Language.Said, Language.StartsWithExplain;
    } else {
      NotExplained(language, t);
      hide NoExplain, Language.Runs, Language.Said, Language.StartsWithExplain;
      var said := language.Said(t);
      assert FirstKind(said) < |said| ==> said[FirstKind(said)] in said;
    }
  }

  predicate Does(statement: Statement, what: Trait) {
    match what
    case Changing => statement.mutating
    case LockingRows => statement.locking
    case Creating => statement.materializes
    case _ => false
  }

  lemma SummaryDoes(explained: bool, safe: bool, said: seq<Semantics>, what: Trait)
    requires !ShowsPlan(explained, safe, said) && what in {Changing, LockingRows, Creating}
    ensures Does(Summary(explained, safe, said), what) <==> exists rule :: rule in said && Has(rule, what)
  {
    hide FirstRefusal, FirstWriter, ShowsPlan;
    assert forall i :: 0 <= i < |said| && Has(said[i], what) ==> said[i] in said;
    if exists rule :: rule in said && Has(rule, what) {
      var rule :| rule in said && Has(rule, what);
      var i :| 0 <= i < |said| && said[i] == rule;
    }
  }

  /** A statement that is no EXPLAIN, or one that is run, does what any of its rules does, and nothing
      else. */
  lemma {:induction false} EffectsExactly(language: Language, t: Tree, what: Trait)
    requires t.Rule? && (NoExplain(language, t) || RunsIt(language, t)) && what in {Changing, LockingRows, Creating}
    ensures Does(language.Record(t), what) <==> Holds(language, t, what)
  {
    NotShown(language, t);
    HoldsIs(language, t, what);
    var safe := !language.Runs(t) || language.grammar.explainSafe;
    SummaryDoes(language.StartsWithExplain(t), safe, language.Said(t), what);
    hide NoExplain, RunsIt, Holds, Has, Language.StartsWithExplain, Language.Runs, Language.Said, TrimSpace, Summary;
    hide ShowsPlan;
  }

  lemma {:induction false} RefusalFrom(said: seq<Semantics>, i: nat)
    requires i < |said| && Has(said[i], Refusing)
    ensures FirstKind(said) <= i && FirstRefusal(said[FirstKind(said)..]) != ""
  {
    FirstKindBefore(said, i);
    var rest := said[FirstKind(said)..];
    FirstRefusalIs(rest);
    assert rest[i - FirstKind(said)] == said[i];
  }

  lemma {:induction false} FirstKindBefore(said: seq<Semantics>, i: nat)
    requires i < |said| && said[i].kind != NoKind
    ensures FirstKind(said) <= i
  {
    if i > 0 && said[0].kind == NoKind {
      FirstKindBefore(said[1..], i - 1);
    }
  }

  lemma {:induction false} NoneKnown(said: seq<Semantics>)
    requires forall rule :: rule in said ==> rule.kind == NoKind
    ensures FirstKind(said) == |said|
  {
    assert forall i :: 0 <= i < |said| ==> said[i] in said;
  }

  /** A statement that is no EXPLAIN is refused when a rule that names a kind refuses it, and when no
      rule names one. */
  lemma {:induction false} RefusedAnyway(language: Language, t: Tree)
    requires t.Rule? && NoExplain(language, t) && (Holds(language, t, Refusing) || !Holds(language, t, Known))
    ensures language.Record(t).refusal != ""
  {
    NotExplained(language, t);
    NotShown(language, t);
    HoldsIs(language, t, Refusing);
    HoldsIs(language, t, Known);
    var said := language.Said(t);
    hide NoExplain, Holds, Language.StartsWithExplain, Language.Runs, Language.Said, TrimSpace, FirstWriter, ShowsPlan;
    hide FirstRefusal;
    if exists rule :: rule in said && Has(rule, Refusing) {
      var rule :| rule in said && Has(rule, Refusing);
      var i :| 0 <= i < |said| && said[i] == rule;
      RefusalFrom(said, i);
    } else {
      forall rule | rule in said
        ensures rule.kind == NoKind
      {
        assert !Has(rule, Known);
      }
      NoneKnown(said);
    }
  }

  // ---------------------------------------------------------------------------------------
  // The statements of a request
  // ---------------------------------------------------------------------------------------

  /** The white space of ASCII. */
  lemma WhiteIs(c: char)
    requires c as int < 128
    ensures c in WHITE_SPACE <==> c == ' ' || '\t' <= c <= '\r'
  {}

  predicate Separators(text: string, i: int, j: int) {
    && 0 <= i <= j <= |text|
    && (forall k :: 0 <= k < |text| && !(i <= k < j) ==> text[k] in WHITE_SPACE)
    && (forall k :: i <= k < j ==> text[k] == ';')
  }

  /** White space, then semicolons, then white space. */
  ghost predicate OnlySeparators(text: string) {
    exists i, j :: Separators(text, i, j)
  }

  /** What is cut off is white space, and what is left neither begins nor ends with any. */
  lemma TrimSpaceIs(text: string) returns (from: int)
    ensures var r := TrimSpace(text);
            && 0 <= from <= |text| - |r| && r == text[from..from + |r|]
            && (forall k :: 0 <= k < |text| && !(from <= k < from + |r|) ==> text[k] in WHITE_SPACE)
            && (r != "" ==> r[0] !in WHITE_SPACE && r[|r| - 1] !in WHITE_SPACE)
  {
    hide TrimLeft, TrimRight, WHITE_SPACE;
    var left := TrimLeft(text, WHITE_SPACE);
    var r := TrimRight(left, WHITE_SPACE);
    TrimLeftIs(text, WHITE_SPACE);
    TrimRightIs(left, WHITE_SPACE);
    from := |text| - |left|;
    assert left == text[from..] && r == left[..|r|];
    forall k | 0 <= k < from
      ensures text[k] in WHITE_SPACE
    {
      assert text[..from][k] == text[k];
    }
    forall k | from + |r| <= k < |text|
      ensures text[k] in WHITE_SPACE
    {
      assert left[|r|..][k - from - |r|] == left[k - from] == text[k];
    }
    assert r == text[from..from + |r|];
    assert r != "" ==> r[0] == left[0];
  }

  lemma TrimmedIs(text: string, i: int, j: int)
    requires Separators(text, i, j)
    ensures Only(TrimSpace(text), {';'})
  {
    var from := TrimSpaceIs(text);
    var r := TrimSpace(text);
    assert forall k :: 0 <= k < |r| ==> r[k] == text[from + k];
    hide TrimSpace;
  }

  /** A rule holds a statement nobody wrote exactly when its text is separators alone. */
  lemma {:induction false} BlankIs(language: Language, t: Tree)
    ensures language.Blank(t) <==> OnlySeparators(Text(t))
  {
    hide Trim, TrimSpace;
    var text := Text(t);
    var trimmed := TrimSpace(text);
    var from := TrimSpaceIs(text);
    TrimEmpty(trimmed, {';'});
    if language.Blank(t) {
      assert forall k :: 0 <= k < |trimmed| ==> trimmed[k] == text[from + k];
      forall k | from <= k < from + |trimmed|
        ensures text[k] == ';'
      {
        assert trimmed[k - from] == text[k];
      }
      assert Separators(text, from, from + |trimmed|);
    }
    if OnlySeparators(text) {
      var i, j :| Separators(text, i, j);
      TrimmedIs(text, i, j);
    }
  }

  /** A rule that begins a statement somebody wrote, below no other that begins one. */
  ghost predicate Begins(language: Language, tree: Tree, t: Tree)
    decreases tree
  {
    && tree.Rule?
    && if language.Name(tree) in language.grammar.statements
       then tree == t && !OnlySeparators(Text(t))
       else exists i :: 0 <= i < |tree.children| && Begins(language, tree.children[i], t)
  }

  lemma {:induction false} BeginsIs(language: Language, tree: Tree, t: Tree)
    ensures Begins(language, tree, t) <==> t in language.Openers(tree)
    decreases tree, 0
  {
    BlankIs(language, tree);
    hide OnlySeparators, Language.Blank, Language.Name;
    if tree.Rule? && !language.Opens(tree) {
      SomeBeginsIs(language, tree.children, t);
    }
  }

  lemma {:induction false} SomeBeginsIs(language: Language, ts: seq<Tree>, t: Tree)
    ensures (exists i :: 0 <= i < |ts| && Begins(language, ts[i], t)) <==> t in language.OpenersAll(ts)
    decreases ts, 0
  {
    hide Begins;
    if ts != [] {
      BeginsIs(language, ts[0], t);
      SomeBeginsIs(language, ts[1..], t);
      assert forall i :: 1 <= i < |ts| ==> ts[i] == ts[1..][i - 1];
      assert forall i :: 0 <= i < |ts| - 1 ==> ts[1..][i] == ts[i + 1];
      if t in language.OpenersAll(ts[1..]) {
        var i :| 0 <= i < |ts| - 1 && Begins(language, ts[1..][i], t);
        assert Begins(language, ts[i + 1], t);
      }
      if exists i :: 0 <= i < |ts| && Begins(language, ts[i], t) {
        var i :| 0 <= i < |ts| && Begins(language, ts[i], t);
        assert i > 0 ==> Begins(language, ts[1..][i - 1], t);
      }
    }
  }

  // ---------------------------------------------------------------------------------------
  // Verdicts
  // ---------------------------------------------------------------------------------------

  function VerdictOf(language: Language, tree: Tree, errors: seq<SyntaxError>, mode: Mode): Verdict {
    Classify(Analysis(language.Read(tree), errors), mode).verdict
  }

  lemma {:induction false} ReadOne(language: Language, tree: Tree, t: Tree)
    requires t.Rule? && Begins(language, tree, t) && |language.Read(tree)| == 1
    ensures language.Read(tree) == [language.Record(t)]
  {
    BeginsIs(language, tree, t);
    hide Begins, Language.Openers, Language.Record;
    assert language.Openers(tree) == [t];
    ReadAs(language, tree, t);
  }

  lemma {:induction false} OneOrBlocked(language: Language, tree: Tree, errors: seq<SyntaxError>, mode: Mode, t: Tree)
    requires t.Rule? && Begins(language, tree, t)
    ensures || VerdictOf(language, tree, errors, mode) == Block
            || VerdictOf(language, tree, errors, mode) == Decide(language.Record(t), mode).verdict
  {
    hide Decide, Language.Record, Begins, Language.Openers, Language.RecordAll, Language.Read, Decimal;
    if |language.Read(tree)| == 1 {
      ReadOne(language, tree, t);
    }
  }

  /** A statement with a rule that changes something, takes row locks or creates a relation, which is
      no EXPLAIN or is one that is run, is allowed in no mode, and blocked where writing is not
      allowed. */
  lemma {:induction false} NeverAllowed(language: Language, tree: Tree, errors: seq<SyntaxError>, mode: Mode, t: Tree,
                                        what: Trait)
    requires Begins(language, tree, t) && (NoExplain(language, t) || RunsIt(language, t))
    requires what in {Changing, LockingRows, Creating} && Holds(language, t, what)
    ensures VerdictOf(language, tree, errors, mode) != Allow
    ensures mode != ReadWrite ==> VerdictOf(language, tree, errors, mode) == Block
  {
    hide Begins, NoExplain, RunsIt, Holds, Language.Record, VerdictOf, Decide, Does;
    BeginsIs(language, tree, t);
    OneOrBlocked(language, tree, errors, mode, t);
    EffectsExactly(language, t, what);
    DoingDecided(language.Record(t), mode, what);
  }

  lemma DoingDecided(statement: Statement, mode: Mode, what: Trait)
    requires Does(statement, what)
    ensures Decide(statement, mode).verdict != Allow
    ensures mode != ReadWrite ==> Decide(statement, mode).verdict == Block
  {
    hide SideEffect, Hazard;
  }

  /** A statement that is no EXPLAIN is blocked in every mode when a rule that names a kind refuses
      it, and when no rule names one. */
  lemma {:induction false} AlwaysBlocked(language: Language, tree: Tree, errors: seq<SyntaxError>, mode: Mode, t: Tree)
    requires Begins(language, tree, t) && NoExplain(language, t)
    requires Holds(language, t, Refusing) || !Holds(language, t, Known)
    ensures VerdictOf(language, tree, errors, mode) == Block
  {
    BeginsIs(language, tree, t);
    OneOrBlocked(language, tree, errors, mode, t);
    RefusedAnyway(language, t);
    hide Begins, NoExplain, Holds, Language.Record, VerdictOf, SideEffect;
  }

  // ---------------------------------------------------------------------------------------
  // Calls
  // ---------------------------------------------------------------------------------------

  /** The bracket at `j` comes first but for blanks. */
  predicate OpensAt(rest: string, j: int) {
    && 0 <= j < |rest| && rest[j] == '('
    && forall i :: 0 <= i < j ==> rest[i] == ' ' || rest[i] == '\t' || rest[i] == '\n' || rest[i] == '\r'
  }

  /** The name written in any case at `k`, and after it, blanks aside, the bracket that opens its call. */
  predicate CallAt(text: string, name: string, k: int, j: int) {
    0 <= k <= |text| - |name| && SameWord(text[k..k + |name|], name) && OpensAt(text[k + |name|..], j)
  }

  lemma BracketedIs(rest: string)
    ensures Bracketed(rest) <==> exists j :: OpensAt(rest, j)
  {
    var left := TrimLeft(rest, BLANKS);
    TrimLeftIs(rest, BLANKS);
    var from := |rest| - |left|;
    assert forall k :: 0 <= k < from ==> rest[..from][k] == rest[k];
    assert left != "" ==> left[0] == rest[from];
    if Bracketed(rest) {
      assert OpensAt(rest, from);
    }
  }

  /** A letter and the same one in lower case. */
  lemma LowerIs(c: char, small: char)
    requires small == '_' || 'a' <= small <= 'z'
    ensures SameLetter(c, small) ==> LowerChar(c) == small
    ensures c != '\U{212A}' && c != '\U{0130}' ==> (SameLetter(c, small) <==> LowerChar(c) == small)
  {}

  /** The two characters outside ASCII whose lower case is in it. */
  predicate Odd(c: char) {
    c == '\U{212A}' || c == '\U{0130}'
  }

  lemma OpensIs(rest: string, j: int)
    ensures OpensAt(ToLower(rest), j) <==> OpensAt(rest, j)
  {}

  lemma WordIs(word: string, name: string)
    requires Small(name)
    ensures SameWord(word, name) ==> ToLower(word) == name
    ensures ToLower(word) == name && (forall i :: 0 <= i < |word| ==> !Odd(word[i])) ==> SameWord(word, name)
  {
    forall i | 0 <= i < |word| && i < |name|
      ensures SameLetter(word[i], name[i]) ==> LowerChar(word[i]) == name[i]
      ensures LowerChar(word[i]) == name[i] && !Odd(word[i]) ==> SameLetter(word[i], name[i])
    {
      LowerIs(word[i], name[i]);
    }
  }

  lemma LowerParts(text: string, k: int, n: int)
    requires 0 <= k <= k + n <= |text|
    ensures ToLower(text)[k..k + n] == ToLower(text[k..k + n]) && ToLower(text)[k + n..] == ToLower(text[k + n..])
  {}

  lemma CallIs(text: string, name: string, k: int, j: int)
    requires Small(name) && CallAt(text, name, k, j)
    ensures Calls(ToLower(text), name)
  {
    hide OpensAt, ToLower, Small, SameWord, Bracketed;
    var word, rest := text[k..k + |name|], text[k + |name|..];
    WordIs(word, name);
    LowerParts(text, k, |name|);
    OpensIs(rest, j);
    BracketedIs(ToLower(rest));
    assert Occurs(ToLower(text), name, k);
  }

  lemma CallFrom(text: string, name: string) returns (k: int, j: int)
    requires Small(name) && Calls(ToLower(text), name)
    requires forall i :: 0 <= i < |text| ==> !Odd(text[i])
    ensures CallAt(text, name, k, j)
  {
    hide OpensAt, ToLower, Small, SameWord, Bracketed;
    k :| Occurs(ToLower(text), name, k) && Bracketed(ToLower(text)[k + |name|..]);
    var word, rest := text[k..k + |name|], text[k + |name|..];
    LowerParts(text, k, |name|);
    BracketedIs(ToLower(rest));
    j :| OpensAt(ToLower(rest), j);
    OpensIs(rest, j);
    WordIs(word, name);
  }

  /** A request that calls a listed function, in any case and with blanks before its bracket, is
      allowed in no mode. */
  lemma {:induction false} CallNeverAllowed(language: Language, tree: Tree, errors: seq<SyntaxError>, mode: Mode,
                                            t: Tree, i: nat, k: int, j: int)
    requires Begins(language, tree, t) && i < |SIDE_EFFECTS| && CallAt(Text(t), SIDE_EFFECTS[i], k, j)
    ensures VerdictOf(language, tree, errors, mode) != Allow
    ensures mode != ReadWrite ==> VerdictOf(language, tree, errors, mode) == Block
  {
    BeginsIs(language, tree, t);
    OneOrBlocked(language, tree, errors, mode, t);
    hide Begins, VerdictOf, ChangesServer, SideEffect, Language.Record, CallAt, TrimSpace;
    TextKept(language, t);
    CallChanges(Text(t), i, k, j);
    SideEffectIs(language.Record(t));
  }

  lemma {:induction false} TextKept(language: Language, t: Tree)
    requires t.Rule?
    ensures language.Record(t).text == TrimSpace(Text(t))
  {
    hide TrimSpace, Summary;
  }

  lemma {:induction false} CallChanges(text: string, i: nat, k: int, j: int)
    requires i < |SIDE_EFFECTS| && CallAt(text, SIDE_EFFECTS[i], k, j)
    ensures ChangesServer(TrimSpace(text))
  {
    ListedLetters(i);
    hide CallAt, Small, TrimSpace, Calls, ToLower;
    var from := CallTrimmed(text, SIDE_EFFECTS[i], k, j);
    CallIs(TrimSpace(text), SIDE_EFFECTS[i], k - from, j);
  }

  /** A name in small letters and low lines. */
  predicate Small(name: string) {
    name != "" && forall i :: 0 <= i < |name| ==> name[i] == '_' || 'a' <= name[i] <= 'z'
  }

  lemma ListedLetters(i: nat)
    requires i < |SIDE_EFFECTS|
    ensures Small(SIDE_EFFECTS[i])
  {
    hide Small;
    SmallBackends();
    SmallSlots();
    SmallSlotMakers();
    SmallOthers();
  }

  lemma SmallBackends()
    ensures Small("pg_terminate_backend") && Small("pg_cancel_backend") && Small("pg_reload_conf")
    ensures Small("pg_rotate_logfile") && Small("pg_switch_wal") && Small("pg_switch_xlog")
    ensures Small("pg_promote") && Small("pg_stat_reset")
  {}

  lemma SmallSlots()
    ensures Small("pg_create_restore_point") && Small("pg_drop_replication_slot")
  {}

  lemma SmallSlotMakers()
    ensures Small("pg_create_physical_replication_slot") && Small("pg_create_logical_replication_slot")
  {}

  lemma SmallOthers()
    ensures Small("setval") && Small("nextval") && Small("lo_import") && Small("lo_export")
    ensures Small("lo_unlink") && Small("dblink_exec")
  {}

  lemma SliceOf(text: string, from: int, n: int, a: int, b: int)
    requires 0 <= from <= from + n <= |text| && 0 <= a <= b <= n
    ensures text[from..from + n][a..b] == text[from + a..from + b]
  {
    var part, piece := text[from..from + n][a..b], text[from + a..from + b];
    forall i | 0 <= i < |part|
      ensures part[i] == piece[i]
    {
      assert text[from..from + n][a + i] == text[from + a + i];
    }
  }

  lemma NotWhite(c: char, small: char)
    requires SameLetter(c, small) && (small == '_' || 'a' <= small <= 'z')
    ensures c !in WHITE_SPACE && '(' !in WHITE_SPACE
  {}

  lemma CallTrimmed(text: string, name: string, k: int, j: int) returns (from: int)
    requires CallAt(text, name, k, j) && Small(name)
    ensures CallAt(TrimSpace(text), name, k - from, j)
  {
    hide TrimSpace, WHITE_SPACE;
    from := TrimSpaceIs(text);
    var n, r, rest := |name|, TrimSpace(text), text[k + |name|..];
    assert text[k..k + n][0] == text[k] && rest[j] == text[k + n + j] == '(';
    NotWhite(text[k], name[0]);
    assert from <= k && k + n + j < from + |r|;
    SliceOf(text, from, |r|, k - from, k - from + n);
    var inner := r[k - from + n..];
    assert inner == rest[..|inner|];
    assert OpensAt(inner, j);
  }

  lemma CallKept(text: string, name: string, k: int, j: int) returns (from: int)
    requires CallAt(TrimSpace(text), name, k, j)
    ensures CallAt(text, name, from + k, j)
  {
    hide TrimSpace, WHITE_SPACE;
    from := TrimSpaceIs(text);
    var r := TrimSpace(text);
    var inner, rest := r[k + |name|..], text[from + k + |name|..];
    SliceOf(text, from, |r|, k, k + |name|);
    assert inner == rest[..|inner|];
    assert OpensAt(rest, j);
  }

  lemma BracketNeeded(text: string, name: string)
    requires Calls(ToLower(text), name)
    ensures '(' in text
  {
    hide Bracketed;
    var lower := ToLower(text);
    var k :| Occurs(lower, name, k) && Bracketed(lower[k + |name|..]);
    BracketedIs(lower[k + |name|..]);
    var j :| OpensAt(lower[k + |name|..], j);
    assert lower[k + |name| + j] == '(';
    assert text[k + |name| + j] == '(';
  }

  /** A text with no opening bracket calls nothing. */
  lemma CallsNothing(text: string)
    requires '(' !in text
    ensures !ChangesServer(text)
  {
    hide Calls, ToLower, SIDE_EFFECTS;
    forall i | 0 <= i < |SIDE_EFFECTS|
      ensures !Calls(ToLower(text), SIDE_EFFECTS[i])
    {
      if Calls(ToLower(text), SIDE_EFFECTS[i]) {
        BracketNeeded(text, SIDE_EFFECTS[i]);
      }
    }
  }

  /** An EXPLAIN that runs nothing is allowed in every mode, whatever its rules carry, when it is the
      one statement of a request that parses and its text calls no listed function. */
  lemma {:induction false} ExplainAllowed(language: Language, tree: Tree, mode: Mode, t: Tree)
    requires language.Openers(tree) == [t] && SaysExplain(language, t)
    requires language.grammar.explainSafe || !AsksToRun(language, t)
    requires forall i :: 0 <= i < |Text(t)| ==> !Odd(Text(t)[i])
    ensures VerdictOf(language, tree, [], mode) == Allow <==>
            !exists i, k, j :: 0 <= i < |SIDE_EFFECTS| && CallAt(Text(t), SIDE_EFFECTS[i], k, j)
  {
    ExplainCleared(language, t);
    TextKept(language, t);
    ReadAs(language, tree, t);
    var text := Text(t);
    DecideAllows(language.Record(t), mode);
    if ChangesServer(TrimSpace(text)) {
      var i, k, j := ChangesFrom(text);
    }
    if exists i, k, j :: 0 <= i < |SIDE_EFFECTS| && CallAt(text, SIDE_EFFECTS[i], k, j) {
      var i, k, j :| 0 <= i < |SIDE_EFFECTS| && CallAt(text, SIDE_EFFECTS[i], k, j);
      CallChanges(text, i, k, j);
    }
    hide SaysExplain, AsksToRun, CallAt, Language.Record, Language.Read, Decide, ChangesServer, TrimSpace;
  }

  lemma {:induction false} ReadAs(language: Language, tree: Tree, t: Tree)
    requires t.Rule? && language.Openers(tree) == [t]
    ensures language.Read(tree) == [language.Record(t)]
  {
    hide Language.Openers, Language.Record;
    language.RecordAllAt(language.Openers(tree));
  }

  lemma {:induction false} ChangesFrom(text: string) returns (i: int, k: int, j: int)
    requires ChangesServer(TrimSpace(text)) && forall i :: 0 <= i < |text| ==> !Odd(text[i])
    ensures 0 <= i < |SIDE_EFFECTS| && CallAt(text, SIDE_EFFECTS[i], k, j)
  {
    var from := TrimSpaceIs(text);
    var trimmed := TrimSpace(text);
    hide Calls, CallAt, Small, TrimSpace, ToLower;
    i :| 0 <= i < |SIDE_EFFECTS| && Calls(ToLower(trimmed), SIDE_EFFECTS[i]);
    ListedLetters(i);
    k, j := CallFrom(trimmed, SIDE_EFFECTS[i]);
    from := CallKept(text, SIDE_EFFECTS[i], k, j);
    k := from + k;
  }

  // ---------------------------------------------------------------------------------------
  // Reasons
  // ---------------------------------------------------------------------------------------

  lemma {:induction false} FirstCalledAt(text: string, names: seq<string>) returns (i: nat)
    requires FirstCalled(text, names) != ""
    ensures i < |names| && names[i] != "" && FirstCalled(text, names) == names[i] && Scan(text, names[i], 0)
    ensures forall j :: 0 <= j < i ==> names[j] == "" || !Scan(text, names[j], 0)
  {
    hide Scan;
    if names[0] != "" && Scan(text, names[0], 0) {
      i := 0;
    } else {
      i := FirstCalledAt(text, names[1..]);
      assert forall j :: 0 < j < |names| ==> names[j] == names[1..][j - 1];
      i := i + 1;
    }
  }

  /** What the guard says of a call names a listed function the text calls, and the first of them. */
  lemma {:induction false} CallReason(statement: Statement, mode: Mode) returns (i: nat)
    requires statement.refusal == "" && ChangesServer(statement.text)
    ensures i < |SIDE_EFFECTS| && Calls(ToLower(statement.text), SIDE_EFFECTS[i])
    ensures forall j :: 0 <= j < i ==> !Calls(ToLower(statement.text), SIDE_EFFECTS[j])
    ensures Decide(statement, mode).reason ==
            SIDE_EFFECTS[i] + "() changes the server" +
            if mode == ReadWrite then "" else "; this connection is READ ONLY"
  {
    hide Calls, Scan, ToLower, ChangesServer, FirstCalled, SIDE_EFFECTS, Decide;
    SideEffectIs(statement);
    i := FirstCalledAt(ToLower(statement.text), SIDE_EFFECTS);
    ListedScanned(ToLower(statement.text));
    CalledDecided(statement, mode);
  }

  lemma CalledDecided(statement: Statement, mode: Mode)
    requires statement.refusal == "" && SideEffect(statement) != ""
    ensures Decide(statement, mode).reason ==
            SideEffect(statement) + "() changes the server" +
            if mode == ReadWrite then "" else "; this connection is READ ONLY"
  {
    hide SideEffect, Hazard, KindName;
    ReasonsJoined(SideEffect(statement));
  }

  lemma ReasonsJoined(effect: string)
    ensures effect + "() changes the server" + "; this connection is READ ONLY" ==
            effect + "() changes the server; this connection is READ ONLY"
    ensures effect + "() changes the server" + "" == effect + "() changes the server"
  {
    assert "() changes the server" + "; this connection is READ ONLY" ==
           "() changes the server; this connection is READ ONLY";
    Associates(effect, "() changes the server", "; this connection is READ ONLY");
  }

  lemma Associates(a: string, b: string, c: string)
    ensures a + b + c == a + (b + c) && a + b + "" == a + b
  {
  }

  /** What is said of a request that does not parse, that holds nothing, and that holds several. */
  lemma NotOne(analysis: Analysis, mode: Mode, line: int, column: int, message: string)
    ensures analysis.errors != [] && analysis.errors[0] == SyntaxError(line, column, message) ==>
              Classify(analysis, mode) ==
              Result(Block, Unknown,
                     "the statement does not parse: " +
                     ("line " + Decimal(line) + ":" + Decimal(column) + " " + message), 0)
    ensures analysis.errors == [] && |analysis.statements| == 0 ==>
              Classify(analysis, mode) == Result(Block, Unknown, "there is no statement to run", 0)
    ensures analysis.errors == [] && |analysis.statements| > 1 ==>
              var several := |analysis.statements|;
              Classify(analysis, mode) ==
              Result(Block, analysis.statements[0].kind,
                     Decimal(several) + " statements in one request are never executed together", several)
  {
    hide Decide, Decimal;
  }

  /** What the guard says of a statement that is not refused and calls no listed function. */
  lemma Reason(statement: Statement, mode: Mode)
    requires statement.refusal == "" && !ChangesServer(statement.text)
    ensures
      var tail := if mode == ReadWrite then "" else "; this connection is READ ONLY";
      var result := Classify(Analysis([statement], []), mode);
      var reason := result.reason;
      && result.kind == statement.kind && result.statements == 1
      && (statement.Reads() ==> result.verdict == Allow && reason == "reads only")
      && (!statement.Reads() ==> result.verdict == if mode == ReadWrite then Warn else Block)
      && (statement.materializes ==> reason == "the statement creates a new relation" + tail)
      && (!statement.materializes && statement.locking ==> reason == "the statement takes row locks" + tail)
      && (!statement.materializes && !statement.locking && statement.mutating && statement.mutatedBy != NoKind ==>
            reason == "the statement contains " + KindName(statement.mutatedBy) + tail)
      && (!statement.materializes && !statement.locking && statement.mutating && statement.mutatedBy == NoKind ==>
            reason == KindName(statement.kind) + " modifies data or database state" + tail)
  {
    SideEffectIs(statement);
    hide ChangesServer, SideEffect, KindName, Decimal;
  }
}
