/** The listener that turns a parse tree into statements: flags and a depth counter updated on
    every enter and every exit, and the last record changed as the rules go by. */
module StatementWalking {
  import opened Options
  import opened Strings
  import opened SqlDialect

  /** What one rule does to the record of the statement it is in. */
  function Applied(current: Statement, explained: bool, rule: Semantics): Statement {
    var writes := rule.mutating && !current.mutating;
    var kind := if !explained && current.kind == Unknown && rule.kind != NoKind then rule.kind else current.kind;
    var refusal :=
      if kind != current.kind then rule.refusal
      else if current.refusal == "" then rule.refusal
      else current.refusal;
    var mutatedBy := if writes && (explained || rule.kind != kind) then rule.kind else current.mutatedBy;
    current.(kind := kind, refusal := refusal, mutatedBy := mutatedBy,
             mutating := current.mutating || rule.mutating,
             locking := current.locking || rule.locking,
             materializes := current.materializes || rule.materializes)
  }

  function AppliedAll(current: Statement, explained: bool, said: seq<Semantics>): Statement {
    if said == [] then current
    else Applied(AppliedAll(current, explained, said[..|said| - 1]), explained, said[|said| - 1])
  }

  /** The record as it is opened. */
  function Begun(language: Language, t: Tree): Statement
    requires t.Rule?
  {
    var explained := language.StartsWithExplain(t);
    Statement(if explained then Explain else Unknown, NoKind, false, false, false,
              if explained then "" else NOT_RECOGNISED, TrimSpace(Text(t)), At(t.start), At(t.start))
  }

  function Closed(current: Statement, stop: Option<Token>): Statement {
    if stop.Some? && stop.value.stop >= current.start then current.(stop := stop.value.stop) else current
  }

  function Finished(current: Statement, explained: bool, analyzing: bool, explainSafe: bool): Statement {
    if (explained || current.kind == Explain) && (!analyzing || explainSafe) then
      current.(kind := Explain, mutating := false, mutatedBy := NoKind, locking := false, materializes := false,
               refusal := "")
    else current
  }

  /** The fields of the listener. A statement is open only inside a rule that begins one, and
      is the last record. */
  datatype Walking = Walking(statements: seq<Statement>, depth: int, recording: bool, analyzing: bool, explained: bool)
  {
    predicate Valid() {
      depth >= 0 && (recording ==> depth > 0 && statements != [])
    }

    /** The last record, as a run of rules leaves it. */
    function Say(said: seq<Semantics>): Walking
      requires statements != []
    {
      var last := |statements| - 1;
      this.(statements := statements[..last] + [AppliedAll(statements[last], explained, said)])
    }

    function Entered(language: Language, ctx: Tree): (w: Walking)
      requires ctx.Rule? && Valid()
      ensures w.Valid()
    {
      if language.Opens(ctx) then
        var inside := this.(depth := depth + 1);
        if depth > 0 then inside
        else if language.Blank(ctx) then inside.(recording := false)
        else
          inside.(statements := statements + [Begun(language, ctx)], recording := true,
                  analyzing := language.Analyzing(ctx), explained := language.StartsWithExplain(ctx))
                  .Say(language.Own(ctx))
      else if !recording then this
      else this.(analyzing := analyzing || language.Analyzing(ctx)).Say(language.Own(ctx))
    }

    function Exited(language: Language, ctx: Tree): (w: Walking)
      requires ctx.Rule? && Valid()
      ensures w.Valid()
    {
      if !language.Opens(ctx) || depth == 0 then this
      else if depth > 1 || !recording then this.(depth := depth - 1)
      else
        var last := |statements| - 1;
        var closed := Closed(statements[last], ctx.stop);
        this.(depth := depth - 1, recording := false,
              statements := statements[..last] + [Finished(closed, explained, analyzing, language.grammar.explainSafe)])
    }
  }

  class StatementWalker {
    const language: Language
    var statements: seq<Statement>
    var depth: int
    var recording: bool
    var analyzing: bool
    var explained: bool

    constructor (language: Language)
      ensures this.language == language
      ensures Now() == Walking([], 0, false, false, false)
    {
      this.language := language;
      statements, depth := [], 0;
      recording, analyzing, explained := false, false, false;
    }

    ghost function Now(): Walking
      reads this
    {
      Walking(statements, depth, recording, analyzing, explained)
    }

    method EnterEveryRule(ctx: Tree)
      requires ctx.Rule? && Now().Valid()
      modifies this
      ensures Now() == old(Now()).Entered(language, ctx)
    {
      var name := language.Name(ctx);
      if language.grammar.Opens(name) {
        depth := depth + 1;
        if depth > 1 {
          return;
        }
        recording := Begin(ctx);
      }
      if !recording {
        return;
      }
      Hear(ctx, name);
    }

    /** What a rule inside an open statement says. */
    method Hear(ctx: Tree, name: string)
      requires ctx.Rule? && name == language.Name(ctx) && statements != []
      modifies this`analyzing, this`statements
      ensures Now() == old(Now()).(analyzing := old(analyzing) || language.Analyzing(ctx)).Say(language.Own(ctx))
    {
      hide AppliedAll, Applied;
      ghost var begun := Now();
      SayNone(begun);
      SayNone(begun.(analyzing := true));
      if name == language.grammar.analyzeRule && language.grammar.analyzeRule != "" {
        analyzing := true;
        return;
      }
      ghost var own: seq<Semantics> := [];
      match language.grammar.Lookup(name) {
        case Some(rule) =>
          Apply(rule);
          SayMore(begun, own, rule);
          own := own + [rule];
        case None =>
      }
      if name in language.grammar.refinements {
        Apply(ctx.refined);
        SayMore(begun, own, ctx.refined);
        own := own + [ctx.refined];
      }
      assert own == language.Own(ctx);
    }

    method ExitEveryRule(ctx: Tree)
      requires ctx.Rule? && Now().Valid()
      modifies this
      ensures Now() == old(Now()).Exited(language, ctx)
    {
      if !language.grammar.Opens(language.Name(ctx)) || depth == 0 {
        return;
      }
      depth := depth - 1;
      if depth > 0 || !recording {
        return;
      }
      Close(ctx);
      Finish();
      recording := false;
    }

    /** Where a statement stops, which is where the last token it holds stops. */
    method Close(ctx: Tree)
      requires ctx.Rule? && statements != []
      modifies this`statements
      ensures statements ==
              old(statements)[..|old(statements)| - 1] + [Closed(old(statements)[|old(statements)| - 1], ctx.stop)]
    {
      var current := |statements| - 1;
      if ctx.stop.None? {
        return;
      }
      var end := ctx.stop.value.stop;
      if end >= statements[current].start {
        statements := statements[current := statements[current].(stop := end)];
      }
    }

    /** Opens a record, unless the rule holds nothing but separators. */
    method Begin(ctx: Tree) returns (began: bool)
      requires ctx.Rule?
      modifies this`statements, this`explained, this`analyzing
      ensures began == !language.Blank(ctx)
      ensures !began ==> Now() == old(Now())
      ensures began ==>
                && explained == language.StartsWithExplain(ctx) && !analyzing
                && statements == old(statements) + [Begun(language, ctx)]
    {
      var text := TrimSpace(Text(ctx));
      if Trim(text, {';'}) == "" {
        return false;
      }
      var statement := Statement(Unknown, NoKind, false, false, false, NOT_RECOGNISED,
                                  text, At(ctx.start), At(ctx.start));
      explained := language.StartsWithExplain(ctx);
      if explained {
        statement := statement.(kind := Explain, refusal := "");
      }
      statements := statements + [statement];
      analyzing := false;
      return true;
    }

    /** An EXPLAIN that runs nothing does nothing. */
    method Finish()
      requires statements != []
      modifies this`statements
      ensures statements == old(statements)[..|old(statements)| - 1] +
                            [Finished(old(statements)[|old(statements)| - 1],
                                      explained, analyzing, language.grammar.explainSafe)]
    {
      var last := |statements| - 1;
      var current := statements[last];
      if !explained && current.kind != Explain {
        return;
      }
      if analyzing && !language.grammar.explainSafe {
        return;
      }
      statements := statements[last := current.(
        kind := Explain, mutating := false, mutatedBy := NoKind, locking := false, materializes := false,
        refusal := "")];
    }

    method Apply(rule: Semantics)
      requires statements != []
      modifies this`statements
      ensures statements == old(statements)[..|old(statements)| - 1] +
                            [Applied(old(statements)[|old(statements)| - 1], explained, rule)]
    {
      var last := |statements| - 1;
      var current := statements[last];
      if explained {
        if rule.mutating && !current.mutating {
          current := current.(mutatedBy := rule.kind);
        }
        current := current.(mutating := current.mutating || rule.mutating,
                            locking := current.locking || rule.locking,
                            materializes := current.materializes || rule.materializes);
        if rule.refusal != "" && current.refusal == "" {
          current := current.(refusal := rule.refusal);
        }
        statements := statements[last := current];
        return;
      }
      if current.kind == Unknown && rule.kind != NoKind {
        current := current.(kind := rule.kind, refusal := rule.refusal);
      } else if rule.refusal != "" && current.refusal == "" {
        current := current.(refusal := rule.refusal);
      }
      if rule.mutating && !current.mutating && rule.kind != current.kind {
        current := current.(mutatedBy := rule.kind);
      }
      current := current.(mutating := current.mutating || rule.mutating,
                          locking := current.locking || rule.locking,
                          materializes := current.materializes || rule.materializes);
      statements := statements[last := current];
    }

    /** The walk of a tree: enter a rule, walk its children, exit it. */
    method Walk(t: Tree)
      requires Now().Valid()
      modifies this
      ensures Now().Valid()
      ensures Moved(old(Now()), language.Read(t), language.Visited(t), language.Analyzed(t), Now())
      decreases t
    {
      hide Language.Record;
      hide AppliedAll;
      if t.Terminal? {
        if recording {
          SayNone(Now());
        }
        return;
      }
      EnterEveryRule(t);
      ghost var entered := Now();
      MovedNowhere(language, entered, t.children[..0]);
      for i := 0 to |t.children|
        invariant Now().Valid()
        invariant Moved(entered, language.ReadAll(t.children[..i]), language.VisitedAll(t.children[..i]),
                        language.AnalyzedAny(t.children[..i]), Now())
      {
        ghost var before := Now();
        Walk(t.children[i]);
        MovedOn(language, entered, t.children[..i], before, t.children[i], Now());
        assert t.children[..i + 1] == t.children[..i] + [t.children[i]];
      }
      assert t.children[..|t.children|] == t.children;
      ghost var walked := Now();
      ExitEveryRule(t);
      MovedThrough(language, old(Now()), t, walked);
    }
  }

  /** The analysis of one parsed request. */
  method Analyze(language: Language, tree: Tree, errors: seq<SyntaxError>) returns (analysis: Analysis)
    ensures analysis == Analysis(language.Read(tree), errors)
    ensures |analysis.statements| == |language.Openers(tree)|
    ensures forall i :: 0 <= i < |analysis.statements| ==>
              analysis.statements[i] == language.Record(language.Openers(tree)[i])
  {
    var walker := new StatementWalker(language);
    walker.Walk(tree);
    analysis := Analysis(walker.statements, errors);
    language.RecordAllAt(language.Openers(tree));
  }

  // ---------------------------------------------------------------------------------------
  // Why the walk and the reading agree
  // ---------------------------------------------------------------------------------------

  /** What a walk does to the listener. Outside every statement it adds records; inside one it
      only adds to what that one says, and inside one nobody wrote it does nothing. */
  predicate Moved(w: Walking, read: seq<Statement>, said: seq<Semantics>, analyzed: bool, w': Walking) {
    && w'.depth == w.depth && w'.recording == w.recording
    && (w.depth == 0 ==> w'.statements == w.statements + read)
    && (w.depth > 0 ==> w'.explained == w.explained)
    && (w.depth > 0 && !w.recording ==> w'.statements == w.statements)
    && (w.recording && w.statements != [] ==>
          w'.analyzing == (w.analyzing || analyzed) && w'.statements == w.Say(said).statements)
  }

  lemma {:induction false} MovedNowhere(language: Language, w: Walking, ts: seq<Tree>)
    requires ts == []
    ensures Moved(w, language.ReadAll(ts), language.VisitedAll(ts), language.AnalyzedAny(ts), w)
  {}

  lemma MovedTwice(w: Walking, read: seq<Statement>, said: seq<Semantics>, analyzed: bool, w': Walking,
                   read': seq<Statement>, said': seq<Semantics>, analyzed': bool, w'': Walking)
    requires w.Valid() && w'.Valid()
    requires Moved(w, read, said, analyzed, w') && Moved(w', read', said', analyzed', w'')
    ensures Moved(w, read + read', said + said', analyzed || analyzed', w'')
  {
    if w.recording {
      SayTwice(w, said, said');
    }
  }

  lemma {:induction false} MovedOn(language: Language, w: Walking, ts: seq<Tree>, w': Walking, t: Tree, w'': Walking)
    requires w.Valid() && w'.Valid()
    requires Moved(w, language.ReadAll(ts), language.VisitedAll(ts), language.AnalyzedAny(ts), w')
    requires Moved(w', language.Read(t), language.Visited(t), language.Analyzed(t), w'')
    ensures Moved(w, language.ReadAll(ts + [t]), language.VisitedAll(ts + [t]), language.AnalyzedAny(ts + [t]), w'')
  {
    hide Language.ReadAll, Language.Read, Language.VisitedAll, Language.Visited,
      Language.AnalyzedAny, Language.Analyzed;
    hide AppliedAll;
    ReadSnoc(language, ts, t);
    VisitedSnoc(language, ts, t);
    AnalyzedSnoc(language, ts, t);
    MovedTwice(w, language.ReadAll(ts), language.VisitedAll(ts), language.AnalyzedAny(ts), w',
               language.Read(t), language.Visited(t), language.Analyzed(t), w'');
  }

  lemma SayNone(w: Walking)
    requires w.statements != []
    ensures w.Say([]) == w
  {}

  lemma SayMore(w: Walking, said: seq<Semantics>, rule: Semantics)
    requires w.statements != []
    ensures
      var last := |w.statements| - 1;
      var before := w.Say(said);
      w.Say(said + [rule]) ==
      before.(statements := before.statements[..last] + [Applied(before.statements[last], w.explained, rule)])
  {}

  lemma SayTwice(w: Walking, a: seq<Semantics>, b: seq<Semantics>)
    requires w.statements != []
    ensures w.Say(a).Say(b) == w.Say(a + b)
  {
    var last := |w.statements| - 1;
    AppliedAppend(w.statements[last], w.explained, a, b);
  }

  /** Entering a rule, walking its children and leaving it is walking the rule. */
  lemma {:induction false} MovedThrough(language: Language, w: Walking, t: Tree, walked: Walking)
    requires t.Rule? && w.Valid() && walked.Valid()
    requires Moved(w.Entered(language, t), language.ReadAll(t.children), language.VisitedAll(t.children),
                   language.AnalyzedAny(t.children), walked)
    ensures Moved(w, language.Read(t), language.Visited(t), language.Analyzed(t), walked.Exited(language, t))
  {
    if w.depth > 0 {
      if w.recording {
        MovedInside(language, w, t, walked);
      }
    } else if language.Opens(t) && !language.Blank(t) {
      MovedAround(language, w, t, walked);
    }
  }

  lemma {:induction false} MovedInside(language: Language, w: Walking, t: Tree, walked: Walking)
    requires t.Rule? && w.Valid() && walked.Valid() && w.recording && w.depth > 0
    requires Moved(w.Entered(language, t), language.ReadAll(t.children), language.VisitedAll(t.children),
                   language.AnalyzedAny(t.children), walked)
    ensures Moved(w, language.Read(t), language.Visited(t), language.Analyzed(t), walked.Exited(language, t))
  {
    hide AppliedAll, Begun, Finished, Closed, Language.Record, Language.Own, Language.ReadAll, Language.VisitedAll;
    hide Language.Read, Language.AnalyzedAny, Language.Analyzing, Language.Blank;
    if language.Opens(t) {
      assert language.Visited(t) == language.VisitedAll(t.children);
      assert language.Analyzed(t) == language.AnalyzedAny(t.children);
    } else {
      assert language.Visited(t) == language.Own(t) + language.VisitedAll(t.children);
      assert language.Analyzed(t) == (language.Analyzing(t) || language.AnalyzedAny(t.children));
      var entered := w.(analyzing := w.analyzing || language.Analyzing(t)).Say(language.Own(t));
      assert w.Entered(language, t) == entered;
      SaidInside(w, entered, language.Own(t), language.VisitedAll(t.children), walked);
      hide *;
    }
  }

  lemma SaidInside(w: Walking, entered: Walking, own: seq<Semantics>, said: seq<Semantics>, walked: Walking)
    requires w.statements != [] && entered == w.(analyzing := entered.analyzing).Say(own)
    requires walked.statements == entered.Say(said).statements
    ensures walked.statements == w.Say(own + said).statements
  {
    SayTwice(w, own, said);
  }

  lemma MovedAround(language: Language, w: Walking, t: Tree, walked: Walking)
    requires t.Rule? && w.Valid() && walked.Valid() && w.depth == 0 && language.Opens(t) && !language.Blank(t)
    requires Moved(w.Entered(language, t), language.ReadAll(t.children), language.VisitedAll(t.children),
                   language.AnalyzedAny(t.children), walked)
    ensures walked.Exited(language, t).statements == w.statements + language.Read(t)
    ensures walked.Exited(language, t).depth == 0 && !walked.Exited(language, t).recording
  {
    AppliedAppend(Begun(language, t), language.StartsWithExplain(t), language.Own(t), language.VisitedAll(t.children));
    RecordIs(language, t);
    assert language.Read(t) == [language.Record(t)];
  }

  lemma {:induction false} AppliedAppend(current: Statement, explained: bool, a: seq<Semantics>, b: seq<Semantics>)
    ensures AppliedAll(current, explained, a + b) == AppliedAll(AppliedAll(current, explained, a), explained, b)
  {
    if b == [] {
      assert a + b == a;
    } else {
      AppliedAppend(current, explained, a, b[..|b| - 1]);
      assert (a + b)[..|a + b| - 1] == a + b[..|b| - 1];
    }
  }

  lemma {:induction false} VisitedSnoc(language: Language, ts: seq<Tree>, t: Tree)
    ensures language.VisitedAll(ts + [t]) == language.VisitedAll(ts) + language.Visited(t)
  {
    hide Language.Visited;
    if ts == [] {
      assert (ts + [t])[1..] == [];
    } else {
      VisitedSnoc(language, ts[1..], t);
      assert (ts + [t])[1..] == ts[1..] + [t];
    }
  }

  lemma {:induction false} AnalyzedSnoc(language: Language, ts: seq<Tree>, t: Tree)
    ensures language.AnalyzedAny(ts + [t]) == (language.AnalyzedAny(ts) || language.Analyzed(t))
  {
    if ts == [] {
      assert (ts + [t])[1..] == [];
    } else {
      AnalyzedSnoc(language, ts[1..], t);
      assert (ts + [t])[1..] == ts[1..] + [t];
    }
  }

  lemma {:induction false} OpenersSnoc(language: Language, ts: seq<Tree>, t: Tree)
    ensures language.OpenersAll(ts + [t]) == language.OpenersAll(ts) + language.Openers(t)
  {
    if ts == [] {
      assert (ts + [t])[1..] == [];
    } else {
      OpenersSnoc(language, ts[1..], t);
      assert (ts + [t])[1..] == ts[1..] + [t];
    }
  }

  lemma ReadSnoc(language: Language, ts: seq<Tree>, t: Tree)
    ensures language.ReadAll(ts + [t]) == language.ReadAll(ts) + language.Read(t)
  {
    OpenersSnoc(language, ts, t);
    language.RecordAllAppend(language.OpenersAll(ts), language.Openers(t));
  }

  // How what is read off a run of rules changes with its last one.

  lemma EffectsSnoc(said: seq<Semantics>, last: Semantics)
    ensures Mutates(said + [last]) == (Mutates(said) || last.mutating)
    ensures Locks(said + [last]) == (Locks(said) || last.locking)
    ensures Materializes(said + [last]) == (Materializes(said) || last.materializes)
  {
    var all := said + [last];
    assert all[|said|] == last;
    assert forall i :: 0 <= i < |said| ==> all[i] == said[i];
  }

  lemma {:induction false} FirstKindSnoc(said: seq<Semantics>, last: Semantics)
    ensures FirstKind(said + [last]) ==
            if FirstKind(said) < |said| then FirstKind(said) else if last.kind != NoKind then |said| else |said| + 1
  {
    if said != [] {
      FirstKindSnoc(said[1..], last);
      assert (said + [last])[1..] == said[1..] + [last];
    }
  }

  lemma {:induction false} FirstMutatorSnoc(said: seq<Semantics>, last: Semantics)
    ensures FirstMutator(said + [last]) ==
            if FirstMutator(said) < |said| then FirstMutator(said) else if last.mutating then |said| else |said| + 1
  {
    if said != [] {
      FirstMutatorSnoc(said[1..], last);
      assert (said + [last])[1..] == said[1..] + [last];
    }
  }

  lemma {:induction false} RefusalSnoc(said: seq<Semantics>, last: Semantics)
    ensures FirstRefusal(said + [last]) == if FirstRefusal(said) != "" then FirstRefusal(said) else last.refusal
  {
    if said == [] {
      assert (said + [last])[1..] == [];
    } else {
      RefusalSnoc(said[1..], last);
      assert (said + [last])[1..] == said[1..] + [last];
    }
  }

  lemma {:induction false} MutatesFirst(said: seq<Semantics>)
    ensures Mutates(said) <==> FirstMutator(said) < |said|
  {
    if said != [] {
      MutatesFirst(said[1..]);
      assert said == [said[0]] + said[1..];
    }
  }

  lemma WriterSnoc(said: seq<Semantics>, last: Semantics, own: Kind)
    ensures FirstWriter(said + [last], own) ==
            if last.mutating && !Mutates(said) && last.kind != own then last.kind else FirstWriter(said, own)
  {
    FirstMutatorSnoc(said, last);
    MutatesFirst(said);
  }

  /** What everything said makes of a record, before an EXPLAIN that runs nothing is cleared. */
  function Does(begun: Statement, explained: bool, said: seq<Semantics>): Statement {
    Summary(explained, false, said).(text := begun.text, start := begun.start, stop := begun.stop)
  }

  predicate Fresh(begun: Statement, explained: bool) {
    begun == Statement(if explained then Explain else Unknown, NoKind, false, false, false,
                       if explained then "" else NOT_RECOGNISED, begun.text, begun.start, begun.stop)
  }

  /** Applying the rules one by one is reading them all at once. */
  lemma {:induction false} AppliedIs(begun: Statement, explained: bool, said: seq<Semantics>)
    requires Fresh(begun, explained)
    ensures AppliedAll(begun, explained, said) == Does(begun, explained, said)
  {
    if said != [] {
      var rest, last := said[..|said| - 1], said[|said| - 1];
      assert said == rest + [last];
      AppliedIs(begun, explained, rest);
      if explained {
        DoesSnocExplained(begun, rest, last);
      } else {
        DoesSnoc(begun, rest, last);
      }
    }
  }

  lemma DoesSnocExplained(begun: Statement, said: seq<Semantics>, last: Semantics)
    ensures Does(begun, true, said + [last]) == Applied(Does(begun, true, said), true, last)
  {
    EffectsSnoc(said, last);
    RefusalSnoc(said, last);
    WriterSnoc(said, last, NoKind);
  }

  lemma DoesSnoc(begun: Statement, said: seq<Semantics>, last: Semantics)
    ensures Does(begun, false, said + [last]) == Applied(Does(begun, false, said), false, last)
  {
    EffectsSnoc(said, last);
    FirstKindSnoc(said, last);
    hide Mutates, Locks, Materializes, FirstKind;
    if FirstKind(said) < |said| {
      RefusalKnown(said, last);
      WriterSnoc(said, last, said[FirstKind(said)].kind);
    } else if last.kind != NoKind {
      RefusalNew(said, last);
      WriterSnoc(said, last, last.kind);
      FirstWriterNone(said, last.kind);
    }
    hide FirstRefusal, FirstWriter;
  }

  lemma {:induction false} RefusalKnown(said: seq<Semantics>, last: Semantics)
    requires FirstKind(said) < |said|
    ensures
      var before := FirstRefusal(said[FirstKind(said)..]);
      FirstRefusal((said + [last])[FirstKind(said)..]) == if before != "" then before else last.refusal
  {
    assert (said + [last])[FirstKind(said)..] == said[FirstKind(said)..] + [last];
    RefusalSnoc(said[FirstKind(said)..], last);
  }

  lemma {:induction false} RefusalNew(said: seq<Semantics>, last: Semantics)
    ensures FirstRefusal((said + [last])[|said|..]) == last.refusal
  {
    assert (said + [last])[|said|..] == [last];
  }

  /** What changes something before any kind is known has no kind to be named by. */
  lemma {:induction false} FirstWriterNone(said: seq<Semantics>, own: Kind)
    requires FirstKind(said) == |said|
    ensures FirstWriter(said, own) == NoKind
  {
    if said != [] {
      FirstWriterNone(said[1..], own);
    }
  }

  /** Opening, folding, closing and finishing a record gives the record of the reading. */
  lemma RecordIs(language: Language, t: Tree)
    requires t.Rule?
    ensures
      var explained := language.StartsWithExplain(t);
      var folded := AppliedAll(Begun(language, t), explained, language.Said(t));
      Finished(Closed(folded, t.stop), explained, language.Runs(t), language.grammar.explainSafe) == language.Record(t)
  {
    var begun, explained, said := Begun(language, t), language.StartsWithExplain(t), language.Said(t);
    AppliedIs(begun, explained, said);
    FinishedIs(begun, explained, language.Runs(t), language.grammar.explainSafe, said, t.stop);
    hide AppliedAll, Finished, Closed, Does, Summary, Language.Said, Language.StartsWithExplain, Language.Runs;
  }

  lemma {:induction false} FinishedIs(begun: Statement, explained: bool, runs: bool, safe: bool,
                                       said: seq<Semantics>, stop: Option<Token>)
    ensures
      var end := if stop.Some? && stop.value.stop >= begun.start then stop.value.stop else begun.stop;
      Finished(Closed(Does(begun, explained, said), stop), explained, runs, safe) ==
      Summary(explained, !runs || safe, said).(text := begun.text, start := begun.start, stop := end)
  {
    hide FirstKind, FirstRefusal, FirstWriter, Mutates, Locks, Materializes;
  }
}
