/** What one parsed statement means for safety: the rule tables, the records that are read off
    a parse tree, and the reading itself, said once by recursion over the tree. */
module SqlDialect {
  import opened Options
  import opened Strings

  /** The kinds of statement, with `NoKind` for a rule that names none. */
  datatype Kind =
    | NoKind | Unknown | Select | Explain | Show | Set | Insert | Update | Delete | Merge
    | Truncate | Create | Alter | Drop | Grant | Revoke | Copy | Call | Maintenance
    | Transaction | Cursor | Prepared | Session | Pragma | Batch

  function KindName(kind: Kind): string {
    match kind
    case NoKind => "" case Unknown => "UNKNOWN" case Select => "SELECT" case Explain => "EXPLAIN"
    case Show => "SHOW" case Set => "SET" case Insert => "INSERT" case Update => "UPDATE"
    case Delete => "DELETE" case Merge => "MERGE" case Truncate => "TRUNCATE" case Create => "CREATE"
    case Alter => "ALTER" case Drop => "DROP" case Grant => "GRANT" case Revoke => "REVOKE"
    case Copy => "COPY" case Call => "CALL" case Maintenance => "MAINTENANCE" case Transaction => "TRANSACTION"
    case Cursor => "CURSOR" case Prepared => "PREPARED" case Session => "SESSION" case Pragma => "PRAGMA"
    case Batch => "BATCH"
  }

  /** What a rule may carry: no rule is there to say that a statement is unknown. */
  type RuleKind = k: Kind | k != Unknown witness NoKind

  datatype Semantics = Semantics(kind: RuleKind, mutating: bool, locking: bool, materializes: bool, refusal: string)

  datatype PrefixRule = PrefixRule(prefix: string, rule: Semantics)

  datatype Grammar = Grammar(
    statements: seq<string>,
    suffix: string,
    analyzeRule: string,
    explainToken: string,
    explainSafe: bool,
    rules: map<string, Semantics>,
    prefixes: seq<PrefixRule>,
    refinements: set<string>)
  {
    predicate Opens(name: string) {
      name in statements
    }

    predicate Matches(name: string, candidate: PrefixRule) {
      HasPrefix(name, candidate.prefix) && HasSuffix(name, suffix)
    }

    function Lookup(name: string): Option<Semantics> {
      if name in rules then Some(rules[name]) else FirstPrefix(name, prefixes)
    }

    function FirstPrefix(name: string, candidates: seq<PrefixRule>): Option<Semantics> {
      if candidates == [] then None
      else if Matches(name, candidates[0]) then Some(candidates[0].rule)
      else FirstPrefix(name, candidates[1..])
    }

    /** The candidate at `i` is the first that matches. */
    predicate MatchesFirst(name: string, candidates: seq<PrefixRule>, i: nat) {
      i < |candidates| && Matches(name, candidates[i]) && forall j :: 0 <= j < i ==> !Matches(name, candidates[j])
    }

    lemma {:induction false} FirstPrefixIs(name: string, candidates: seq<PrefixRule>, i: nat)
      requires MatchesFirst(name, candidates, i)
      ensures FirstPrefix(name, candidates) == Some(candidates[i].rule)
    {
      if i > 0 {
        assert MatchesFirst(name, candidates[1..], i - 1);
        FirstPrefixIs(name, candidates[1..], i - 1);
      }
    }

    lemma {:induction false} NoPrefix(name: string, candidates: seq<PrefixRule>)
      requires forall i :: 0 <= i < |candidates| ==> !Matches(name, candidates[i])
      ensures FirstPrefix(name, candidates) == None
    {
      if candidates != [] {
        NoPrefix(name, candidates[1..]);
      }
    }

    /** A rule that has an entry of its own is that entry; any other is the first prefix rule that
        matches it, which must end as the grammar's rules do, or nothing. */
    lemma LookupIs(name: string, i: nat)
      ensures name in rules ==> Lookup(name) == Some(rules[name])
      ensures name !in rules && MatchesFirst(name, prefixes, i) ==> Lookup(name) == Some(prefixes[i].rule)
      ensures name !in rules && (forall j :: 0 <= j < |prefixes| ==> !Matches(name, prefixes[j])) ==>
                Lookup(name) == None
    {
      if MatchesFirst(name, prefixes, i) {
        FirstPrefixIs(name, prefixes, i);
      } else if forall j :: 0 <= j < |prefixes| ==> !Matches(name, prefixes[j]) {
        NoPrefix(name, prefixes);
      }
    }
  }

  datatype Token = Token(text: string, start: int, stop: int)

  /** A parse tree. A rule node holds the tokens it starts and stops at, when the parser has
      them, and what the refinement of its rule says about it. */
  datatype Tree =
    | Terminal(token: Token)
    | Rule(index: int, start: Option<Token>, stop: Option<Token>, children: seq<Tree>, refined: Semantics)

  datatype Statement = Statement(
    kind: Kind,
    mutatedBy: Kind,
    mutating: bool,
    locking: bool,
    materializes: bool,
    refusal: string,
    text: string,
    start: int,
    stop: int)
  {
    /** It changes nothing, takes no locks, creates no relation and is not refused. */
    predicate Reads() {
      !mutating && !locking && !materializes && refusal == ""
    }

    /** The statement as it was written. */
    function Slice(sql: string): string {
      if start < 0 || stop < start || stop >= |sql| then "" else sql[start..stop + 1]
    }
  }

  datatype SyntaxError = SyntaxError(line: int, column: int, message: string)
  {
    function Error(): string {
      "line " + Decimal(line) + ":" + Decimal(column) + " " + message
    }
  }

  datatype Analysis = Analysis(statements: seq<Statement>, errors: seq<SyntaxError>)

  const NOT_RECOGNISED := "statement was not recognised"

  // ---------------------------------------------------------------------------------------
  // Reading the text and the tokens of a tree
  // ---------------------------------------------------------------------------------------

  /** The text of a tree: its tokens, with everything between them gone. */
  function Text(t: Tree): string
    decreases t, 0
  {
    match t
    case Terminal(token) => token.text
    case Rule(_, _, _, children, _) => TextAll(children)
  }

  function TextAll(ts: seq<Tree>): string
    decreases ts, 0
  {
    if ts == [] then "" else Text(ts[0]) + TextAll(ts[1..])
  }

  function Tokens(t: Tree): seq<Token>
    decreases t, 0
  {
    match t
    case Terminal(token) => [token]
    case Rule(_, _, _, children, _) => TokensAll(children)
  }

  function TokensAll(ts: seq<Tree>): seq<Token>
    decreases ts, 0
  {
    if ts == [] then [] else Tokens(ts[0]) + TokensAll(ts[1..])
  }

  /** A grammar together with the names of its rules. */
  datatype Language = Language(grammar: Grammar, ruleNames: seq<string>)
  {
    function Name(t: Tree): string
      requires t.Rule?
    {
      if t.index < 0 || t.index >= |ruleNames| then "" else ruleNames[t.index]
    }

    predicate Opens(t: Tree)
      requires t.Rule?
    {
      grammar.Opens(Name(t))
    }

    predicate Analyzing(t: Tree)
      requires t.Rule?
    {
      Name(t) == grammar.analyzeRule && grammar.analyzeRule != ""
    }

    predicate StartsWithExplain(t: Tree)
      requires t.Rule?
    {
      grammar.explainToken != "" && t.start.Some? && EqualFold(t.start.value.text, grammar.explainToken)
    }

    /** A rule holding nothing but separators is a statement nobody wrote. */
    predicate Blank(t: Tree) {
      Trim(TrimSpace(Text(t)), {';'}) == ""
    }

    /** What one rule says for itself: what its name carries, and then its refinement. */
    function Own(t: Tree): seq<Semantics>
      requires t.Rule?
    {
      if Analyzing(t) then []
      else
        (match grammar.Lookup(Name(t)) case Some(rule) => [rule] case None => []) +
        (if Name(t) in grammar.refinements then [t.refined] else [])
    }

    // -------------------------------------------------------------------------------------
    // The recursive reading
    // -------------------------------------------------------------------------------------

    /** What a tree inside an open statement says, in the order it is met. A rule that would
        begin another statement says nothing for itself. */
    function Visited(t: Tree): seq<Semantics>
      decreases t, 0
    {
      match t
      case Terminal(_) => []
      case Rule(_, _, _, children, _) => (if Opens(t) then [] else Own(t)) + VisitedAll(children)
    }

    function VisitedAll(ts: seq<Tree>): seq<Semantics>
      decreases ts, 0
    {
      if ts == [] then [] else Visited(ts[0]) + VisitedAll(ts[1..])
    }

    /** Whether a tree inside an open statement holds the rule that makes EXPLAIN run. */
    predicate Analyzed(t: Tree)
      decreases t, 0
    {
      match t
      case Terminal(_) => false
      case Rule(_, _, _, children, _) => (!Opens(t) && Analyzing(t)) || AnalyzedAny(children)
    }

    predicate AnalyzedAny(ts: seq<Tree>)
      decreases ts, 0
    {
      ts != [] && (Analyzed(ts[0]) || AnalyzedAny(ts[1..]))
    }

    /** The rules that begin a statement somebody wrote and are inside no other that begins
        one, from left to right. */
    function Openers(t: Tree): (r: seq<Tree>)
      ensures forall i :: 0 <= i < |r| ==> r[i].Rule?
      decreases t, 0
    {
      match t
      case Terminal(_) => []
      case Rule(_, _, _, children, _) =>
        if !Opens(t) then OpenersAll(children) else if Blank(t) then [] else [t]
    }

    function OpenersAll(ts: seq<Tree>): (r: seq<Tree>)
      ensures forall i :: 0 <= i < |r| ==> r[i].Rule?
      decreases ts, 0
    {
      if ts == [] then [] else Openers(ts[0]) + OpenersAll(ts[1..])
    }

    /** Everything said inside the statement one rule begins. */
    function Said(t: Tree): seq<Semantics>
      requires t.Rule?
    {
      Own(t) + VisitedAll(t.children)
    }

    predicate Runs(t: Tree)
      requires t.Rule?
    {
      Analyzing(t) || AnalyzedAny(t.children)
    }

    /** EXPLAIN only shows a plan, unless it was asked to run what it explains and the
        dialect runs it. */
    predicate OnlyExplains(t: Tree)
      requires t.Rule?
    {
      ShowsPlan(StartsWithExplain(t), !Runs(t) || grammar.explainSafe, Said(t))
    }

    /** The record of the statement one rule begins. */
    function Record(t: Tree): Statement
      requires t.Rule?
    {
      var start := At(t.start);
      var stop := if t.stop.Some? && t.stop.value.stop >= start then t.stop.value.stop else start;
      Summary(StartsWithExplain(t), !Runs(t) || grammar.explainSafe, Said(t)).(
        text := TrimSpace(Text(t)), start := start, stop := stop)
    }

    function RecordAll(ts: seq<Tree>): (r: seq<Statement>)
      requires forall i :: 0 <= i < |ts| ==> ts[i].Rule?
      ensures |r| == |ts|
    {
      if ts == [] then [] else [Record(ts[0])] + RecordAll(ts[1..])
    }

    /** One record for each opener, the i-th for the i-th. */
    lemma {:induction false} RecordAllAt(ts: seq<Tree>)
      requires forall j :: 0 <= j < |ts| ==> ts[j].Rule?
      ensures forall i :: 0 <= i < |ts| ==> RecordAll(ts)[i] == Record(ts[i])
    {
      hide Record;
      if ts != [] {
        RecordAllAt(ts[1..]);
      }
    }

    lemma {:induction false} RecordAllAppend(a: seq<Tree>, b: seq<Tree>)
      requires forall i :: 0 <= i < |a| ==> a[i].Rule?
      requires forall i :: 0 <= i < |b| ==> b[i].Rule?
      ensures RecordAll(a + b) == RecordAll(a) + RecordAll(b)
    {
      hide Record;
      if a == [] {
        assert a + b == b;
      } else {
        RecordAllAppend(a[1..], b);
        assert (a + b)[1..] == a[1..] + b;
      }
    }

    /** What a tree reads as: one record for each of its outermost statements, in order. */
    function Read(t: Tree): seq<Statement> {
      RecordAll(Openers(t))
    }

    function ReadAll(ts: seq<Tree>): seq<Statement> {
      RecordAll(OpenersAll(ts))
    }
  }

  /** Where a token begins, or nought when there is none to point at. */
  function At(token: Option<Token>): int {
    match token
    case Some(t) => t.start
    case None => 0
  }

  /** Whether what was said is an EXPLAIN that runs nothing. */
  predicate ShowsPlan(explained: bool, safe: bool, said: seq<Semantics>) {
    var first := FirstKind(said);
    (explained || (first < |said| && said[first].kind == Explain)) && safe
  }

  /** What everything said inside a statement makes of it. Its kind is the first kind met, its
      refusal the first from there on, what it does is what any rule in it does, and an
      EXPLAIN that runs nothing does nothing. */
  function Summary(explained: bool, safe: bool, said: seq<Semantics>): Statement {
    var first := FirstKind(said);
    if ShowsPlan(explained, safe, said) then
      Statement(Explain, NoKind, false, false, false, "", "", 0, 0)
    else
      var does := Statement(Unknown, NoKind, Mutates(said), Locks(said), Materializes(said), NOT_RECOGNISED, "", 0, 0);
      if explained then
        does.(kind := Explain, mutatedBy := FirstWriter(said, NoKind), refusal := FirstRefusal(said))
      else if first < |said| then
        var own := said[first].kind;
        does.(kind := own, mutatedBy := FirstWriter(said, own), refusal := FirstRefusal(said[first..]))
      else
        does
  }

  predicate Mutates(said: seq<Semantics>) {
    exists i :: 0 <= i < |said| && said[i].mutating
  }

  predicate Locks(said: seq<Semantics>) {
    exists i :: 0 <= i < |said| && said[i].locking
  }

  predicate Materializes(said: seq<Semantics>) {
    exists i :: 0 <= i < |said| && said[i].materializes
  }

  /** Where the first kind is, or the length when nothing names one. */
  function FirstKind(said: seq<Semantics>): (j: nat)
    ensures j <= |said|
    ensures j < |said| ==> said[j].kind != NoKind
  {
    if said == [] then 0 else if said[0].kind != NoKind then 0 else 1 + FirstKind(said[1..])
  }

  /** The first refusal, or nothing. */
  function FirstRefusal(said: seq<Semantics>): string {
    if said == [] then ""
    else if said[0].refusal != "" then said[0].refusal
    else FirstRefusal(said[1..])
  }

  /** Where the first rule that changes something is, or the length when none does. */
  function FirstMutator(said: seq<Semantics>): (j: nat)
    ensures j <= |said|
    ensures j < |said| ==> said[j].mutating
  {
    if said == [] then 0 else if said[0].mutating then 0 else 1 + FirstMutator(said[1..])
  }

  /** The kind of the first rule that changes something, when it is not the statement's own. */
  function FirstWriter(said: seq<Semantics>, own: Kind): Kind {
    var j := FirstMutator(said);
    if j < |said| && said[j].kind != own then said[j].kind else NoKind
  }
}
