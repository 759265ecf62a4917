# opendba, modelled and proved

A Dafny model of the parts of opendba where being wrong costs most: what may reach a database, which
connection a tab stands on, what leaves the machine in a conversation and by whose leave, and the codecs
whose output somebody else reads. `dafny verify dfyconfig.toml` checks all of it.

## What is modelled

**The statement guard** (`Dialect.dfy`, `Walker.dfy`, `Guard.dfy`, `Reading.dfy`, `Verdicts.dfy`,
`Requests.dfy`, `Script.dfy`). A listener with flags and a depth walks a parse tree of any size and folds what
each rule says into statement records. It is a class with those fields, and is proved equal to a recursive
reading of the tree: one record for each outermost statement, its kind the first kind said, its refusal the
first from there on, its effects those of any rule in it, and an EXPLAIN that runs nothing cleared. The guard's
verdict is then characterised on every tree: a request is allowed exactly when it parses, holds one statement,
and that one is harmless. What that comes to is then said of the tree alone, of its tokens and of the rules
below its nodes, and worked out for three requests. The grammar is a parameter: any set of opening rules, rule
table, prefix rules and refinements. Strings are sequences of characters, as the parser counts them.

**The workbench** (`Desk.dfy`, `Workbench.dfy`, `Runs.dfy`, `Steps.dfy`). `Workbench` holds a list of
connections, a list of tabs and a detached working copy of the front one of each, and writes those back. `Desk`
is the same thing with no copies. Every method of the first is proved to do what the function of the same name
does to the second, and the invariants are then proved over every run of messages, results of statements in any
order among them. What each message does to the whole of it is said field by field.

**The assistant** (`Conversation.dfy`, `Agent.dfy`, `Transcript.dfy`, `Approval.dfy`). The turn of a conversation is
a class; the model, the tools, the person and a cancellation may each do anything at every point. Its exact
trace is proved: what was said, what was shown, what was asked for and what left. The recorder and the drawing
of a kept conversation are proved to agree on everything but the order of steps, and exactly when on that too.
The questions a turn puts to the screen are a state machine over the interleaved steps of turns, reading
commands, messages, the person, and connections opening and closing.

**Codecs and arithmetic** (`Columns.dfy`, `ArrayLiteral.dfy`, `EventStream.dfy`, `Semver.dfy`). Column layout as
exact sums; array literals against a reader of section 8.15.6 of the PostgreSQL documentation; event streams as
a round trip under every way of writing them, and beside section 9.2.6 of the WHATWG HTML standard; versions
against the 64-bit integers they are kept in and item 11 of Semantic Versioning 2.0.0.

## What the proofs found

- A refusal that names no kind, said before any kind is known, is forgotten once a kind is
  (`src/cli/pkg/sqldialect/antlr.go:256-261`). `RefusalForgotten` is a tree that is allowed for that reason.
  `ForgottenExactly` says when: in an allowed statement that is no EXPLAIN that runs nothing, exactly when a refusal
  was said before any kind. `AllowedIsInnocent` shows it cannot happen when a rule whose refinement refuses without
  a kind carries a kind itself, and `PostgresqlKinded` that the PostgreSQL grammar meets that on every tree: the
  three rules it refines are named by an entry or a prefix that has one. It is the only grammar that refuses
  anywhere without a kind (`src/cli/pkg/sqldialect/postgresql.go:106-150`).
- The search for a called function skips over each name it finds. It is right for every text exactly when the
  name has no proper border (`ScanRightExactly`); no listed name has one.
- Closing a tab that is not the front one moves the front unless that tab is after it or just before it
  (`src/cli/internal/app/tabs.go:161-164`). The program itself only ever closes the front tab, so no run shows it.
- A conversation drawn again shows the same steps in another order when a call that was not the last of its round
  failed, and only then, as long as no call that was made is written with two spaces in front as a failure is
  (`src/cli/internal/app/ask.go:655-702`). A call made with nothing is written as its bare name, which the model
  chooses, so that is a condition on the calls. `OrderLost` is a round of two calls of which the first failed.
- An array element that is the word NULL, in any case, is written without quotes and read as a null; one that
  begins or ends in a tab or a line break loses it (`src/cli/internal/export/value.go:91-99`). The comment there
  says a column is written the way the server prints one. A list in a list is written in quotes, which a server
  would read as a text, so what is proved of those is that reading twice recovers them.
- The event stream returns an event that has a name and no data, and one the stream ended in the middle of; the
  standard dispatches neither (`src/cli/internal/ai/sse.go:69-84`). `AgreesExactly` says that this is the whole
  difference for every stream whose carriage returns are each just before a line feed. For others there is more: a
  carriage return alone ends a line for the standard and not here, two before a line feed end two lines there and
  one here, and a byte order mark at the start is left out there and hides the first field here
  (`LoneReturn`, `TwoReturns`, `MarkHides`; `src/cli/internal/ai/sse.go:33-38`).
- A component of a version may have a plus before it, which is not written back; and bumping the greatest number
  an `int` holds wraps (`src/tools/pkg/semver/semver.go:54-127`).

## Model

| member | source | states |
|---|---|---|
| SqlDialect.Grammar.LookupIs | src/cli/pkg/sqldialect/antlr.go:59-69 | A rule's own entry wins; otherwise the first prefix rule in the list that matches, the suffix included; otherwise nothing. |
| StatementWalking.StatementWalker.EnterEveryRule | src/cli/pkg/sqldialect/antlr.go:134-156 | Entering any rule takes the listener's five fields to exactly the state the depth, the opening rules and what the rule carries call for. |
| StatementWalking.StatementWalker.Hear | src/cli/pkg/sqldialect/antlr.go:146-155 | Inside an open statement the analyze rule sets its flag and says nothing else; any other rule's entry and then its refinement are folded in. |
| StatementWalking.StatementWalker.ExitEveryRule | src/cli/pkg/sqldialect/antlr.go:158-169 | Only leaving the outermost opening rule of a recorded statement closes and finishes it; depth never goes below nought. |
| StatementWalking.StatementWalker.Close | src/cli/pkg/sqldialect/antlr.go:171-182 | The last record's stop becomes its last token's end, unless there is none or it is before the start; no other record changes. |
| StatementWalking.StatementWalker.Begin | src/cli/pkg/sqldialect/antlr.go:201-224 | A rule of nothing but separators begins nothing; any other appends one record, which is of an EXPLAIN when its first token is the explain word, and resets both flags for it. |
| StatementWalking.StatementWalker.Finish | src/cli/pkg/sqldialect/antlr.go:226-240 | An EXPLAIN that runs nothing, or in a dialect where running is safe, has its effects and refusal cleared; nothing else does. |
| StatementWalking.StatementWalker.Apply | src/cli/pkg/sqldialect/antlr.go:242-268 | One rule is folded into the last record and no other. |
| StatementWalking.StatementWalker.Walk | src/cli/pkg/sqldialect/antlr.go:73-79 | Walking any tree from any valid state appends the tree's recursive reading, restores depth and flags, and inside an open statement folds in what the tree says, in order. |
| StatementWalking.Analyze | src/cli/pkg/sqldialect/antlr.go:73-79 | For every tree and grammar, the listener's statements are the recursive reading: as many as there are outermost openers somebody wrote, the i-th the record of the i-th. |
| StatementWalking.MovedThrough | src/cli/pkg/sqldialect/antlr.go:134-169 | Entering a rule, walking its children and leaving it is walking the rule, whether it is outside, around or inside a statement. |
| StatementWalking.AppliedIs | src/cli/pkg/sqldialect/antlr.go:242-268 | Folding any list of rules one by one gives the closed form: first kind, first refusal from there, any-of for the effects, first writer of another kind. |
| StatementWalking.RecordIs | src/cli/pkg/sqldialect/antlr.go:204-268 | Beginning, folding, closing and finishing gives the record of the recursive reading, the EXPLAIN reset included. |
| SqlGuard.Called | src/cli/pkg/sqlguard/guard.go:152-166 | The loop ends and returns what the skipping search returns from the start of the text. |
| SqlGuard.ScanIsCalls | src/cli/pkg/sqlguard/guard.go:152-166 | For a name with no border, the search finds a call exactly when some occurrence is followed, after blanks, by an opening bracket. |
| SqlGuard.ScanRightExactly | src/cli/pkg/sqlguard/guard.go:152-166 | The search is right for every text if and only if the name has no proper border. |
| SqlGuard.OverlapMissed | src/cli/pkg/sqlguard/guard.go:152-166 | For any name with a border, a text that holds a call the search does not find. |
| SqlGuard.ListedBorderless | src/cli/pkg/sqlguard/guard.go:116-138 | No listed name is empty or has a border. |
| SqlGuard.FindSideEffect | src/cli/pkg/sqlguard/guard.go:140-150 | Returns the first listed name the search finds in the lowered text, or nothing. |
| SqlGuard.SideEffectIs | src/cli/pkg/sqlguard/guard.go:140-166 | A statement has a side effect exactly when its lowered text calls a listed function, by occurrence and bracket and without reference to the search. |
| SqlGuard.ClassifyRequest | src/cli/pkg/sqlguard/guard.go:82-114 | The verdict from a tree, through the listener, is the verdict on its recursive reading, of which `Verdicts` says what it comes to for the tokens and rules of the tree. |
| SqlGuard.SummaryReads | src/cli/pkg/sqldialect/dialect.go:71-75 | A record only reads exactly when the EXPLAIN reset applies, or nothing said in it has an effect and no refusal is left. |
| SqlGuard.AllowedExactly | src/cli/pkg/sqlguard/guard.go:82-191 | For every tree, error list and mode: Allow if and only if there is no error, exactly one statement, and that statement is harmless. |
| SqlGuard.VerdictExactly | src/cli/pkg/sqlguard/guard.go:168-191 | Exactly what is warned about and exactly what is blocked, in each mode; a refusal comes before everything. |
| SqlGuard.ModesAgree | src/cli/pkg/sqlguard/guard.go:168-191 | Read only never warns, both modes allow the same, and what one mode warns about is what the other blocks for writing. |
| Verdicts.FoldIs | src/cli/pkg/sqldialect/antlr.go:123-132 | Two words are the same for the guard when they are as long and differ in no letter but in its case. |
| Verdicts.WhiteIs | src/cli/pkg/sqldialect/antlr.go:205 | Of the characters of ASCII, the space and the five from tab to carriage return are white space and no others. |
| Verdicts.BlankIs | src/cli/pkg/sqldialect/antlr.go:204-208 | A rule holds a statement nobody wrote exactly when its text is white space, then semicolons, then white space: a lone semicolon is none. |
| Verdicts.BeginsIs | src/cli/pkg/sqldialect/antlr.go:134-224 | The statements that are read are those at the outermost rules that begin one, found by going down the tree, whose text is not white space, semicolons and white space alone. |
| Verdicts.HoldsIs | src/cli/pkg/sqldialect/antlr.go:59-69 | What is heard in a statement is exactly what its rules carry, each by its entry, or the first prefix that fits its name, or its refinement: stated over nodes below the statement, by name. |
| Verdicts.EffectsExactly | src/cli/pkg/sqldialect/antlr.go:226-268 | A statement whose first token is not the explain word in any case and of whose rules none is an EXPLAIN, or one whose EXPLAIN is run, changes, locks or creates exactly when one of its rules does. |
| Verdicts.ExplainCleared | src/cli/pkg/sqldialect/antlr.go:123-132 | A statement whose first token is the explain word in any case, where running is safe or not asked for, is an EXPLAIN with no effect and no refusal, whatever its rules carry. |
| Verdicts.ExplainAllowed | src/cli/pkg/sqlguard/guard.go:82-191 | When it is the one statement of a request that parses, it is allowed in every mode if and only if its text calls no listed function. |
| Verdicts.NeverAllowed | src/cli/pkg/sqlguard/guard.go:82-191 | A request with a statement that is no EXPLAIN by token or rule, or whose EXPLAIN is run, and with a rule that changes, locks or creates, is allowed in no mode, and blocked where writing is not allowed. |
| Verdicts.AlwaysBlocked | src/cli/pkg/sqlguard/guard.go:82-191 | One with a rule that names a kind and refuses, or with no rule that names a kind, is blocked in every mode. |
| Verdicts.CallNeverAllowed | src/cli/pkg/sqlguard/guard.go:140-191 | One whose text holds a listed name in any case, then spaces, tabs or line ends or nothing, then a bracket, is allowed in no mode. |
| Verdicts.CallReason | src/cli/pkg/sqlguard/guard.go:140-180 | The reason given for a call names a listed function that is called, the first of those that are. |
| Verdicts.NotOne | src/cli/pkg/sqlguard/guard.go:90-114 | A request that does not parse, holds nothing or holds several is blocked in every mode, with the place of the first error, or the count. |
| Verdicts.Reason | src/cli/pkg/sqlguard/guard.go:168-204 | The verdict and the reason for a statement that is not refused and calls nothing listed: a new relation first, then locks, then what it contains, then what it is. |
| RequestFacts.DeleteRead | src/cli/pkg/sqldialect/antlr.go:73-268 | SQLite's `DELETE FROM t` is read as a DELETE that changes something, from its first character to its last. |
| RequestFacts.ExplainRead | src/cli/pkg/sqldialect/antlr.go:123-240 | SQLite's `explain DELETE FROM t`, in small letters, is read as an EXPLAIN with no effect and no refusal. |
| RequestFacts.DeleteNotAllowed | src/cli/pkg/sqlguard/guard.go:82-204 | The first is blocked, or asked about where writing is allowed; the second is allowed in every mode. |
| RequestFacts.RunningRead | src/cli/pkg/sqldialect/antlr.go:226-268 | PostgreSQL's `EXPLAIN ANALYZE DELETE FROM t` is read as an EXPLAIN that a DELETE makes change something. |
| RequestFacts.RunningNotAllowed | src/cli/pkg/sqlguard/guard.go:82-204 | It is never allowed, and the reason is that the statement contains DELETE. |
| ReadingFacts.AllowedIsInnocent | src/cli/pkg/sqldialect/antlr.go:242-268 | Under the assumption on grammars, an allowed statement has a known kind, calls no listed function, and is an EXPLAIN that runs nothing or holds no rule that has an effect or refuses. |
| ReadingFacts.RefusalForgotten | src/cli/pkg/sqldialect/antlr.go:256-261 | Without that assumption: a grammar and a tree in which a refusal is said and the request is allowed in every mode. |
| ReadingFacts.ForgottenExactly | src/cli/pkg/sqldialect/antlr.go:256-261 | In an allowed statement that is no EXPLAIN that runs nothing, something refuses it if and only if a refusal was said before any kind was. |
| ReadingFacts.PostgresqlBacked | src/cli/pkg/sqldialect/postgresql.go:106-150 | At every rule of the PostgreSQL grammar, a refinement that refuses without a kind does so where the rule's entry or prefix has one. |
| ReadingFacts.PostgresqlKinded | src/cli/pkg/sqldialect/postgresql.go:106-150 | So every tree of that grammar meets the assumption. |
| ReadingFacts.ReadInOrder | src/cli/pkg/sqldialect/antlr.go:171-224 | The spans of the statements of a tree whose tokens are in order are themselves in order, disjoint, and ends of tokens of the tree. |
| Scripts.CaretOffset | src/cli/internal/app/script.go:10-25 | The loop returns where the row begins plus the column, clamped; nought for a negative row, one past the end below the last. |
| Scripts.CaretIsPlace | src/cli/internal/app/script.go:10-25 | The offset of a row and column is a place in that row and that column, the column clamped to the row. |
| Scripts.PlaceIsCaret | src/cli/internal/app/script.go:10-25 | The offset of the row and column of any place is that place. |
| Scripts.StatementAt | src/cli/pkg/sqldialect/dialect.go:96-113 | Returns something exactly when there is a statement; for ordered spans, the last that begins at or before the offset, or the first. |
| Scripts.ReadScript | src/cli/internal/app/script.go:35-58 | For ordered spans the editor's own search picks the statement the analysis has at the cursor; what would be run is the whole source with fewer than two statements, and otherwise the span picked when it lies inside the source. |
| Scripts.ChosenIsCut | src/cli/internal/app/script.go:60-69 | What would be run is exactly the span of the chosen statement, character for character where the cursor is. |
| Scripts.ChosenIs | src/cli/internal/app/script.go:60-69 | For every script: with fewer than two statements the whole source would be run; with more, the span of the chosen one when it lies inside the source, and otherwise the whole; so always a piece of what was typed. |
| Workbenches.Workbench.constructor | src/cli/internal/app/model.go:177-210 | One connection with id one, one empty tab on it, both in front. |
| Workbenches.Workbench.StowLink | src/cli/internal/app/links.go:135-146 | Writing back the front connection leaves the view unchanged and makes the list equal to it. |
| Workbenches.Workbench.Stow | src/cli/internal/app/tabs.go:79-91 | The same for both lists. |
| Workbenches.Workbench.WroteLink | src/cli/internal/app/links.go:148-164 | Exactly the connection of that key changes in the view, front or not; nothing does when none is held. |
| Workbenches.Workbench.Through | src/cli/internal/app/links.go:166-182 | The connection of the key comes to the front and nothing in either view changes; a key nothing holds re-aims the front tab instead. |
| Workbenches.Workbench.OnSheet | src/cli/internal/app/tabs.go:111-125 | Moves to a tab and its connection; the views are unchanged. |
| Workbenches.Workbench.WalkSheets | src/cli/internal/app/tabs.go:173-180 | Moves along the tabs with Go's remainder, which does nothing when it is negative. |
| Workbenches.Workbench.OpenSheet | src/cli/internal/app/tabs.go:127-138 | Only appends the tab and goes to it. |
| Workbenches.Workbench.CloseSheet | src/cli/internal/app/tabs.go:140-171 | Removes exactly that tab, or replaces the last one. The front becomes the place of the closed tab, or the last place, when that tab was at or before the front, and stays otherwise. |
| Workbenches.Workbench.Disconnected | src/cli/internal/app/links.go:248-272 | Removes exactly that connection and its tabs, unless it is the last or not held. |
| Workbenches.Workbench.Closed | src/cli/internal/app/links.go:274-300 | Keeps the other tabs in order, or one fresh tab, and goes to the last kept at or before the front. |
| Workbenches.Workbench.KeptTabs | src/cli/internal/app/links.go:276-288 | The loop's list is the tabs on other connections and its counter the place of the last at or before the front. |
| Workbenches.Workbench.NextNumber | src/cli/internal/app/links.go:322-339 | The smallest number free on the profile and database; the search with no bound ends within one more than there are connections. |
| Workbenches.Workbench.Added | src/cli/internal/app/connections.go:144-155 | Appends one connection with a fresh id and the smallest free number. |
| Workbenches.Workbench.Switched | src/cli/internal/app/connections.go:124-142 | An opened connection comes to the front with a tab aimed at it; a failure changes only that the front one no longer loads. |
| Workbenches.Workbench.Aim | src/cli/internal/app/switcher.go:336-347 | A tab that holds anything is never re-aimed; a new one is opened instead. |
| Workbenches.Workbench.Reach | src/cli/internal/app/switcher.go:293-334 | Goes to the connection at a place, doing nothing when it is in front already or there is none. |
| Workbenches.Workbench.Load | src/cli/internal/app/model.go:299-319 | What was read lands in the connection it was read from, and only there. |
| Workbenches.Workbench.Answer | src/cli/internal/app/links.go:341-359 | Whatever a turn does to its connection changes that connection only, and the front stays in front. |
| Workbenches.Workbench.Run | src/cli/internal/app/model.go:340-365 | The front tab waits under a token no tab had before. |
| Workbenches.Workbench.Returned | src/cli/internal/app/tabs.go:307-334 | A result goes to the front tab if the token is its own, else to the tab behind that has it, else nowhere. |
| DeskRuns.StepKeeps | src/cli/internal/app/links.go:107-359 | Every message keeps all of: at least one tab and connection, ids distinct and minted, numbers distinct per profile and database, every tab on a held connection, front tab and front connection agreeing, tokens distinct, waiting exactly when not returned. |
| DeskRuns.StartOk | src/cli/internal/app/model.go:177-210 | The program starts with all of that. |
| DeskRuns.RunOk | src/cli/internal/app/model.go:387-610 | So after every run of messages. |
| DeskRuns.ResultGoesHome | src/cli/internal/app/tabs.go:307-334 | A result changes exactly the tab whose latest run asked for it, wherever it now is, or none; there is at most one. |
| DeskRuns.LandsAtHome | src/cli/internal/app/links.go:341-359 | In any state that runs reach, what a turn does and what was read change exactly the connection they are for and nothing in front. |
| DeskRuns.AnswersCommute | src/cli/internal/app/links.go:341-359 | Turns on two connections may answer in either order. |
| DeskRuns.HalvesCommute | src/cli/internal/app/model.go:299-319 | The two halves of a read that worked may come back in either order. |
| DeskRuns.StepKeepsTabs | src/cli/internal/app/tabs.go:111-180 | Every message keeps the tabs that are left in their order and each whole, statement, results, token and waiting, but for what that message makes of it: what is typed and what is run in the front one, a result in the one whose run it is of, and the connection of the front one when it holds nothing. Any other tab is new, empty, and on the connection the message is about. |
| DeskRuns.WalkBack | src/cli/internal/app/tabs.go:173-180 | Walking along the tabs and as far back restores the whole workbench, across either end. |
| DeskRuns.DisconnectTabs | src/cli/internal/app/links.go:248-300 | Exactly the tabs on the connection go and exactly that connection; order is kept. |
| DeskRuns.DisconnectFront | src/cli/internal/app/links.go:248-300 | The front connection and tab stay when they survive; otherwise the nearest surviving tab at or before comes to the front, else the first; the two agree. |
| DeskRuns.CloseLeavesFront | src/cli/internal/app/tabs.go:161-165 | Closing another tab leaves the front tab in front if and only if that other is after it or just before it. |
| DeskRuns.CloseMovesFront | src/cli/internal/app/tabs.go:161-165 | Three tabs with the last in front: closing the first brings the second to the front. |
| DeskSteps.HoldsIs | src/cli/internal/app/switcher.go:341-343 | A tab holds something exactly when a statement returned or is awaited in it, or a character that is not white space is written in it. |
| DeskSteps.ThroughIs | src/cli/internal/app/links.go:166-182 | The connection with the key comes to the front and nothing else changes; when none has it, the front tab is put on the one in front. |
| DeskSteps.NewTabIs | src/cli/internal/app/tabs.go:127-138 | A new tab is the last, in front and on the connection in front, with its statement and nothing more; all else is as it was. |
| DeskSteps.CloseFrontIs | src/cli/internal/app/tabs.go:140-171 | The next tab comes to the front, or the one before when there is none, with its connection; the only tab is replaced by an empty one there. |
| DeskSteps.GoToIs | src/cli/internal/app/tabs.go:111-125 | Going to a tab puts it and its connection in front; going nowhere changes nothing. |
| DeskSteps.WalkIs | src/cli/internal/app/tabs.go:173-180 | Walking goes round the tabs from either end; further back than all of them it goes nowhere, unless that is a whole number of times round from the first. |
| DeskSteps.TypeIs | src/cli/internal/app/model.go:1080-1090 | Typing changes the statement of the front tab and nothing else. |
| DeskSteps.RunIs | src/cli/internal/app/model.go:340-365 | Running gives the front tab the next number, which is then awaited, and changes nothing else. |
| DeskSteps.ReachIs | src/cli/internal/app/switcher.go:293-347 | After going to an open connection it is in front, the front tab is on it, and the list of connections is unchanged; a front tab that held something elsewhere stays whole and one new empty tab on that connection is in front. |
| DeskSteps.TroubleIs | src/cli/internal/app/connections.go:124-142 | A connection that failed to open stops the one in front from loading and changes nothing else. |
| DeskSteps.SwitchIs | src/cli/internal/app/connections.go:124-142 | A connection that opened is the last, in front, loading and unread, under a new id; the one that was in front loads no longer; a tab is aimed at it. |
| DeskSteps.NumberIs | src/cli/internal/app/links.go:322-339 | The number it may open under is the least, from one on, that no open connection has on the same database of the same profile, known by its id or else its name. |
| DeskSteps.NumbersDiffer | src/cli/internal/app/links.go:322-339 | So no two open connections on the same database of the same profile have the same number, and no two have the same id. |
| DeskSteps.NotClosed | src/cli/internal/app/links.go:248-255 | The only connection, and one that is not open, are not closed, and nothing changes. |
| DeskSteps.ClosedIs | src/cli/internal/app/links.go:248-300 | Exactly the one connection goes, and exactly the tabs on it; the others are as they were and in their order. |
| DeskSteps.ClosedAll | src/cli/internal/app/links.go:248-300 | When every tab was on it, an empty one is opened on the connection that took its place in the list, or on the last. |
| DeskSteps.LoadedIs | src/cli/internal/app/model.go:299-319 | A half of a read that failed says why and leaves what is known; one that came back replaces what it is about and takes back only its own failure. |
| DeskSteps.LoadIs | src/cli/internal/app/model.go:299-319 | It lands in the connection it was read from and changes nothing else anywhere. |
| Conversation.CompactedCarries | src/cli/internal/ai/agent/agent.go:192-212 | Emptying any results never changes the classes a conversation carries. |
| Conversation.CompactedPaired | src/cli/internal/ai/agent/agent.go:311-323 | Nor whether each call is followed by its result. |
| Conversation.RoundsPaired | src/cli/internal/ai/agent/agent.go:293-309 | The messages of any rounds pair each call with its result, in call order. |
| Conversation.CountUpdate | src/cli/internal/ai/agent/agent.go:311-323 | Emptying one result lowers the number of results that still say something by one, wherever it is. |
| Conversation.NoneDone | src/cli/internal/ai/agent/agent.go:139-160 | Nothing a round shows says that the turn is over. |
| Conversation.CarriesIs | src/cli/internal/ai/agent/agent.go:192-214 | A conversation carries the question always, rows exactly when some message holds a result of `run_select`, and the schema exactly when some message holds a result of anything else. |
| Conversation.BuiltAppend | src/cli/internal/ai/agent/agent.go:262-288 | What a stream builds and shows is what its beginning does and then what its ending does. |
| Conversation.BuiltOne | src/cli/internal/ai/agent/agent.go:262-288 | What each kind of piece builds and shows: words shown and kept, thoughts shown and kept apart, calls kept, and the reason for the end. |
| Conversation.StopAppend | src/cli/internal/ai/agent/agent.go:262-288 | The last reason given for the end of a stream is the one kept; one that gives none ended its turn. |
| Conversation.WorkedAt | src/cli/internal/ai/agent/agent.go:293-309 | Each call is shown and then its result, in call order. |
| Agents.GrantedIs | src/cli/internal/ai/agent/agent.go:162-190 | A class is granted exactly when a question that held it was answered yes. |
| Agents.GatedConsents | src/cli/internal/ai/agent/agent.go:139-190 | When everything kept to what was granted: before every request someone said yes to a question that held questions; to rows too when it carries a result of `run_select`; and to the schema when it carries a result of another tool. |
| Agents.NeverAskedAgain | src/cli/internal/ai/agent/agent.go:162-190 | A class that was granted once is in no later question. |
| Agents.Agent.Ask | src/cli/internal/ai/agent/agent.go:130-137 | A blank question changes nothing; a turn that succeeds took between one and the allowed rounds, shows exactly their events and then one done, leaves exactly their messages but for emptied results, and pairs calls with results; one that fails never says done; and when there is someone to ask and the client is not local, every request so far came after its consent. |
| Agents.Agent.Run | src/cli/internal/ai/agent/agent.go:139-160 | The same for the loop of rounds, with the reason it ended. |
| Agents.Agent.Permit | src/cli/internal/ai/agent/agent.go:162-190 | A local client, no one to ask, and nothing new to approve leave everything as it was; otherwise exactly the classes the conversation carries and that were not approved are asked for, once, and approved or, on a refusal, not. |
| Agents.Agent.Classes | src/cli/internal/ai/agent/agent.go:192-212 | The question first; then the schema exactly when some message holds a result of a tool other than `run_select`; then rows exactly when some message holds a result of `run_select`. |
| Agents.Agent.Turn | src/cli/internal/ai/agent/agent.go:233-245 | Ends, because each retry has one result fewer; every request it makes is permitted; only a request that was too long is made again, until nothing is left to empty; success returns what the last stream built. |
| Agents.Agent.Stream | src/cli/internal/ai/agent/agent.go:247-291 | One request that carries only what was granted; what is shown and what is built are both exactly what came through: the whole stream when it ended well, else its failure or a cancellation. |
| Agents.Agent.Work | src/cli/internal/ai/agent/agent.go:293-309 | One result for each call, in order, shown and kept; a cancellation leaves a beginning of that. |
| Agents.Agent.Compact | src/cli/internal/ai/agent/agent.go:311-323 | Exactly the oldest result that still says something is emptied, or there is none and nothing changes. |
| Transcripts.Chat.Record | src/cli/internal/app/ask.go:630-651 | One event changes only the last exchange, and nothing when there is none. |
| Transcripts.Chat.Transcript | src/cli/internal/app/ask.go:653-669 | The loop draws one exchange for each question, each closed. |
| Transcripts.ReplayIsLive | src/cli/internal/app/ask.go:630-695 | For every turn that ended without a retry, the drawn exchange is the live one in question, answer, reasoning and being done, its steps are the same as a multiset, and those before it stay. |
| Transcripts.ReplayIsLiveOneByOne | src/cli/internal/app/ask.go:630-695 | And the same in every way when no round makes two calls. |
| Transcripts.OrderExactly | src/cli/internal/app/ask.go:653-702 | The steps come in the same order when in each round nothing but the last call failed, and only then, if none of the calls of those rounds is written like a failure. |
| Transcripts.OrderLost | src/cli/internal/app/ask.go:653-702 | One round of two calls, the first of which failed: its failure is second on the screen and last when drawn again. |
| Transcripts.OneShown | src/cli/internal/app/ask.go:630-651 | A round of one call, for any words: the words are the answer, the thoughts the reasoning, and the steps the call and then its failure, if it failed. |
| Transcripts.DrawnQuestions | src/cli/internal/app/ask.go:653-669 | One exchange is drawn for each question of a conversation, in order, and keeps it. |
| Approvals.AskScreen.Started | src/cli/internal/app/ask.go:339-348 | A turn gets the next token, is busy, and is read by one command. |
| Approvals.AskScreen.Asked | src/cli/internal/app/ask.go:351-360 | An event of the running turn is answered with one more reading command; a stale one with nothing. |
| Approvals.AskScreen.Approving | src/cli/internal/app/ask.go:362-377 | A question of the running turn goes on its connection's screen; any other is refused. |
| Approvals.AskScreen.Answered | src/cli/internal/app/ask.go:379-396 | The answer is sent whatever else; the question leaves the screen, and reading goes on when the turn still runs. |
| Approvals.AskScreen.Decide | src/cli/internal/app/ask.go:548-559 | The answer is for the question on the screen and the turn of its connection. |
| Approvals.AskScreen.Finished | src/cli/internal/app/ask.go:398-408 | The running turn is over; a stale end changes nothing. |
| Approvals.StepKeeps | src/cli/internal/app/ask.go:302-408 | Every step of any turn, command, message, person or connection keeps the invariant of the protocol. |
| Approvals.RunOk | src/cli/internal/app/ask.go:302-408 | So after every interleaving. |
| Approvals.ExactlyOne | src/cli/internal/app/ask.go:351-408 | In every run, a busy turn on a held connection has exactly one of a reading command, an undelivered message and a question on the screen; an idle one has none. |
| Approvals.AnsweredOnce | src/cli/internal/app/ask.go:379-396 | In every run, an answer is sent into an empty channel: it never blocks and no question is answered twice. |
| Approvals.NothingElseAnswers | src/cli/internal/app/ask.go:362-396 | Only a decision and a refusal on arrival answer anything, and what was answered stays so. |
| Approvals.InOnePlace | src/cli/internal/app/ask.go:362-396 | In every run, a question taken from a connection still held is in exactly one place: on its way, on that connection's screen, or answered. |
| Approvals.ArrivalDecides | src/cli/internal/app/ask.go:362-377 | In every run, a question is refused on arrival exactly when its connection is gone; one that is shown replaces no other. |
| Approvals.DecisionArrives | src/cli/internal/app/ask.go:548-559 | In every run, a decision reaches the turn that asked, which can go on at once, and the screen goes back to reading it. |
| Columns.TotalOf | src/cli/internal/app/editor.go:355-361 | The loop's sum is the sum. |
| Columns.NaturalWidths | src/cli/internal/app/editor.go:307-324 | Each column is as wide as the widest of its name and its cells and no wider, or the least there is; cells past the last column count nowhere. |
| Columns.Share | src/cli/internal/app/editor.go:326-334 | Every width grows by the same and the first few by one more, in place. |
| Columns.SharedFills | src/cli/internal/app/editor.go:326-334 | Exactly the spare room is given out. |
| Columns.SharedFirst | src/cli/internal/app/editor.go:326-334 | The spare room is given out evenly: no column gets less than a later one, nor more than one more. |
| Columns.Squeeze | src/cli/internal/app/editor.go:336-353 | In place, the least each when there is no room for that; else each column's part, raised to the least, and one more for the first few while something is left. |
| Columns.SqueezedFills | src/cli/internal/app/editor.go:336-353 | No column below the least; together exactly the room, or what raising came to when that is more, and that by at most the least for each column raised. |
| Columns.SqueezedFirst | src/cli/internal/app/editor.go:336-353 | Each column gets its part rounded down, or six when that is more, or one more than that; and none gets one more unless all before it do. |
| Columns.TotalAppend | src/cli/internal/app/editor.go:355-361 | The sum of some widths is that of the first ones and that of the others, and of one width is that width. |
| Columns.ColumnsFor | src/cli/internal/app/editor.go:287-305 | Each name with its laid out width; nothing for nothing measured. |
| Columns.LaidWithRoom | src/cli/internal/app/editor.go:284-305 | With spare room the table with its padding is exactly as wide as the pane and no column loses width. |
| Columns.LaidWithoutRoom | src/cli/internal/app/editor.go:284-305 | Without, it still fills the pane, and goes over by at most the least for each column raised. |
| Columns.LaidLeast | src/cli/internal/app/editor.go:284-305 | In every pane no column goes below the least, and in one too narrow for that each has exactly the least. |
| ArrayLiterals.Array | src/cli/internal/export/value.go:78-99 | The loop writes the literal of any list, lists in lists included. |
| ArrayLiterals.BareExactly | src/cli/internal/export/value.go:91-99 | A text is written as it is if and only if it is not empty and holds no brace, comma, quote, backslash or space. |
| ArrayLiterals.ReadBackExactly | src/cli/internal/export/value.go:78-99 | A reader of the documented syntax recovers length, nulls and texts if and only if every unquoted text is not NULL and has no white space at its ends. |
| ArrayLiterals.RecoversExactly | src/cli/internal/export/value.go:78-99 | The same to any depth of lists in lists, reading each inner literal again. |
| ArrayLiterals.NullWordLost | src/cli/internal/export/value.go:91-99 | The text Null is read back as a null. |
| ArrayLiterals.TabLost | src/cli/internal/export/value.go:91-99 | A text that ends in a tab is read back without it. |
| EventStreams.Events.Next | src/cli/internal/ai/sse.go:28-55 | Returns the first event that is still to come and leaves the rest, or how the body stopped when there is none: at its end, or broken off, in which case what was read of an event is lost. |
| EventStreams.Events.ReadAll | src/cli/internal/ai/sse.go:28-55 | Reading until the body stops returns every event there was to come, and how it stopped. |
| EventStreams.AheadIs | src/cli/internal/ai/sse.go:28-84 | A body that ends gives all of its events; one that breaks off gives those a blank line ended, which is all but the one it stopped in. |
| EventStreams.FieldTaken | src/cli/internal/ai/sse.go:59-72 | For every field and value: `event` names the event, `data` adds a line, any other field adds nothing; one space before the value is left out and no more; a field with no colon has nothing in it. |
| EventStreams.SpaceOrNone | src/cli/internal/ai/sse.go:59-72 | A value with no space before it is read whole, as the standard has it. |
| EventStreams.RoundTrip | src/cli/internal/ai/sse.go:28-84 | Whatever events are written, reading until the end returns exactly them. |
| EventStreams.CommentFirst | src/cli/internal/ai/sse.go:47-49 | A comment line before everything changes nothing. |
| EventStreams.CommentAnywhere | src/cli/internal/ai/sse.go:47-49 | Nor does one after any line. |
| EventStreams.EndingsAlike | src/cli/internal/ai/sse.go:37 | A line that ends in a carriage return and a line feed reads as one that ends in a line feed. |
| EventStreams.LastLineFeed | src/cli/internal/ai/sse.go:38-53 | The last line end, and so the last blank line, may be missing. |
| EventStreams.StandardIs | src/cli/internal/ai/sse.go:59-84 | Of any lines, the standard dispatches exactly the events a blank line ended that have data. |
| EventStreams.AgreesExactly | src/cli/internal/ai/sse.go:28-84 | For every stream without a byte order mark whose carriage returns are each just before a line feed, the reader returns what the standard dispatches if and only if the stream does not stop in the middle of an event and each of its events has data; what each returns is given in either case. |
| EventStreams.CutOff | src/cli/internal/ai/sse.go:38-53 | An event the stream ends in is returned, its last line ended or not, and the standard dispatches nothing; when the body breaks off there, neither does. |
| EventStreams.LoneReturn | src/cli/internal/ai/sse.go:33-38 | A carriage return alone is part of a line here and ends one in the standard. |
| EventStreams.TwoReturns | src/cli/internal/ai/sse.go:33-38 | Two before a line feed end one line here and two in the standard, which dispatches two events for one. |
| EventStreams.MarkHides | src/cli/internal/ai/sse.go:47-60 | A byte order mark hides the first field here and is left out in the standard. |
| EventStreams.NameAlone | src/cli/internal/ai/sse.go:74-84 | An event with a name alone is returned, and the standard would dispatch nothing. |
| Semver.ValidPrerelease | src/tools/pkg/semver/semver.go:68-79 | No error exactly when the prerelease is not empty and holds only letters, digits, dots and dashes; else the first that is none. |
| Semver.AllowedIs | src/tools/pkg/semver/semver.go:68-79 | What a prerelease may hold is the ten digits, the 26 small letters, the 26 capitals, dots and dashes. |
| Semver.Parse | src/tools/pkg/semver/semver.go:28-79 | The loop over the fields returns the parsed version, or the first error in the order the checks are made. |
| Semver.PrintParses | src/tools/pkg/semver/semver.go:28-127 | Every version in range, prereleases with dashes included, is read back from how it is written. |
| Semver.ReadBack | src/tools/pkg/semver/semver.go:28-127 | Whatever is read, reading how it is written gives the same version. |
| Semver.WrittenBackExactly | src/tools/pkg/semver/semver.go:54-66 | A text is written back as it was, white space round it aside, if and only if no component had a plus before it. |
| Semver.PlusRead | src/tools/pkg/semver/semver.go:54-66 | `+1.2.3` is read as 1.2.3 and written back without the plus. |
| Semver.BumpAfterExactly | src/tools/pkg/semver/semver.go:97-113 | A bump comes after its version exactly when the number it counts had not reached the last an int holds, or it ends a prerelease. |
| Semver.BumpLeast | src/tools/pkg/semver/semver.go:97-111 | Below the last an int holds, each bump is the least release of its kind: none with a greater major before the major bump, none with this major and a greater minor before the minor one, none after the version before the patch. |
| Semver.ChainInOrder | src/tools/pkg/semver/semver.go:113-119 | The order builds are placed in agrees with the example chain in item 11 of Semantic Versioning 2.0.0. |
| Semver.SnapshotBeforeRelease | src/tools/pkg/semver/semver.go:113-119 | A build comes before the release a patch would make, for every version. |
| Semver.SnapshotAfterExactly | src/tools/pkg/semver/semver.go:113-119 | And after the version it was cut from exactly when that is a release with a patch to spare, or a prerelease whose identifiers come before its own. |
| Semver.SnapshotBetween | src/tools/pkg/semver/semver.go:113-119 | For every release with a patch to spare, a build stands strictly between it and the next. |
| Semver.SnapshotsInOrder | src/tools/pkg/semver/semver.go:113-119 | Builds of one version come in the order of their days. |
| Semver.SnapshotParsesExactly | src/tools/pkg/semver/semver.go:113-127 | A build's version reads back exactly when there was a patch to spare and its day and commit hold only what a prerelease may. |

## Left out

- The generated parsers and the contents of the rule tables: any tree and any grammar record stand for them, and the table of SQLite is there for one example. That no rule carries the kind for an unknown statement is in the type of a rule.
- `strings.EqualFold` folds only the letters of ASCII, and `strings.ToLower` only maps to what can occur in a listed name.
- Drawing, keys, layout, focus and themes; the contents of editors and results are values.
- Drivers, stores, transport, providers, files and secrets. A client is a stream of any chunks with any failure; a tool answers under the identifier and name it was called by, with any content.
- Crash recovery, loading a model, saving and overwriting files.
- Whether a turn ever ends after its connection is gone: only safety is proved. A cancellation may strike at every point where the program looks for one.
- The sizes, usage counts and system prompt that go with a request, and the text of a question put to the person.
- Reading on after the body of an event stream broke off: it is taken to be broken for good.
- Values of a result that are not text, null or a list: each is written as text before it is an element.
- Widths of integers other than in versions; the widths and sums of a layout are unbounded.
- DeskRuns.RunOk: does not model closing a tab that is not in front, because no message asks for it; `CloseLeavesFront` says what would happen.
- Approvals.DecisionArrives: does not model keys and which connection is in front, because a person may bring any held one to the front and decide there.
- Columns.NaturalWidths: does not model how wide a text is drawn; the measure is a parameter.
- Columns.ColumnsFor: takes widths that are not negative, which is what measuring gives, and no more names than widths.
- The registries, option parsing, lists with a cursor, and developer tools other than versions, which would add only easy members.
