/** The questions a turn puts to the person at the screen, and how each finds its answer, in
    whatever order the turns, the commands that read them and the screen take their steps. */
module Approvals {
  import opened Options

  /** A turn is known by the connection it runs on and a token counted up there. */
  datatype TurnId = TurnId(on: nat, token: nat)

  /** Where the goroutine of a turn is. A question is blocked on the gate, or was taken off it
      and waits for an answer; `Over` is a turn that said how it ended and closed its events. */
  datatype Phase = Working | Asking(question: nat) | Waiting(question: nat) | Over

  /** A command that reads one thing from a running turn, or the message it became and that
      was not delivered yet. */
  datatype Item =
    | Reading(turn: TurnId)
    | EventMail(turn: TurnId)
    | ApprovalMail(turn: TurnId, question: nat)
    | EndedMail(turn: TurnId)

  /** What the screen remembers of the conversation on one connection. */
  datatype Talk = Talk(token: nat, busy: bool, pending: Option<nat>)

  // ---------------------------------------------------------------------------------------
  // What the screen does
  // ---------------------------------------------------------------------------------------

  /** The connections that are held, the commands and messages that are under way, and what
      was put in the channel each question is answered on. */
  datatype Screen = Screen(held: map<nat, Talk>, items: seq<Item>, answers: map<nat, bool>)
  {
    predicate Stale(turn: TurnId) {
      turn.on !in held || held[turn.on].token != turn.token
    }

    function Reads(turn: TurnId): Screen {
      this.(items := items + [Reading(turn)])
    }

    function Started(on: nat): Screen
      requires on in held
    {
      var turn := TurnId(on, held[on].token + 1);
      this.(held := held[on := held[on].(token := turn.token, busy := true)]).Reads(turn)
    }

    function Asked(turn: TurnId): Screen {
      if Stale(turn) then this else Reads(turn)
    }

    /** A turn nobody is waiting for any more is refused rather than left hanging. */
    function Approving(turn: TurnId, question: nat): Screen {
      if Stale(turn) then this.(answers := answers[question := false])
      else this.(held := held[turn.on := held[turn.on].(pending := Some(question))])
    }

    function Answered(turn: TurnId, question: nat, allow: bool): Screen {
      var sent := this.(answers := answers[question := allow]);
      if turn.on !in held then sent
      else
        var cleared := sent.(held := held[turn.on := held[turn.on].(pending := None)]);
        if Stale(turn) then cleared else cleared.Reads(turn)
    }

    function Finished(turn: TurnId): Screen {
      if Stale(turn) then this else this.(held := held[turn.on := held[turn.on].(busy := false)])
    }

    /** Whether putting an answer in the channel of a question would block: there is room for
        one. */
    predicate Blocks(question: nat) {
      question in answers
    }
  }

  /** The screen as it is written: handlers that change it. */
  class AskScreen {
    var held: map<nat, Talk>
    var items: seq<Item>
    var answers: map<nat, bool>

    function Now(): Screen
      reads this
    {
      Screen(held, items, answers)
    }

    method Reads(turn: TurnId)
      modifies this`items
      ensures Now() == old(Now()).Reads(turn)
    {
      items := items + [Reading(turn)];
    }

    method Send(question: nat, allow: bool)
      requires !Now().Blocks(question)
      modifies this`answers
      ensures answers == old(answers)[question := allow]
    {
      answers := answers[question := allow];
    }

    method Started(on: nat)
      requires on in held
      modifies this
      ensures Now() == old(Now()).Started(on)
    {
      var talk := held[on];
      talk := talk.(token := talk.token + 1);
      talk := talk.(busy := true);
      held := held[on := talk];
      Reads(TurnId(on, talk.token));
    }

    method Asked(turn: TurnId)
      modifies this
      ensures Now() == old(Now()).Asked(turn)
    {
      if turn.on !in held {
        return;
      }
      if turn.token != held[turn.on].token {
        return;
      }
      Reads(turn);
    }

    method Approving(turn: TurnId, question: nat)
      requires Now().Stale(turn) ==> !Now().Blocks(question)
      modifies this
      ensures Now() == old(Now()).Approving(turn, question)
    {
      if turn.on !in held || turn.token != held[turn.on].token {
        Send(question, false);
        return;
      }
      held := held[turn.on := held[turn.on].(pending := Some(question))];
    }

    method Answered(turn: TurnId, question: nat, allow: bool)
      requires !Now().Blocks(question)
      modifies this
      ensures Now() == old(Now()).Answered(turn, question, allow)
    {
      Send(question, allow);
      if turn.on !in held {
        return;
      }
      var stale := turn.token != held[turn.on].token;
      held := held[turn.on := held[turn.on].(pending := None)];
      if stale {
        return;
      }
      Reads(turn);
    }

    /** The person lets a turn out, or refuses it. */
    method Decide(on: nat, allow: bool)
      requires on in held && held[on].pending.Some? && !Now().Blocks(held[on].pending.value)
      modifies this
      ensures Now() == old(Now()).Answered(TurnId(on, old(held)[on].token), old(held)[on].pending.value, allow)
    {
      var waiting := held[on].pending.value;
      Answered(TurnId(on, held[on].token), waiting, allow);
    }

    method Finished(turn: TurnId)
      modifies this
      ensures Now() == old(Now()).Finished(turn)
    {
      if turn.on !in held {
        return;
      }
      if turn.token != held[turn.on].token {
        return;
      }
      held := held[turn.on := held[turn.on].(busy := false)];
    }
  }

  // ---------------------------------------------------------------------------------------
  // Every interleaving
  // ---------------------------------------------------------------------------------------

  /** The screen, the turns that were ever started, and, of the questions that were ever asked,
      which turn asked each that was taken off its gate. */
  datatype State = State(screen: Screen, minted: nat, turns: map<TurnId, Phase>, asked: nat, taken: map<nat, TurnId>)

  datatype Step =
    | Open
    | Start(on: nat)
    | Ask(turn: TurnId)
    | GiveUp(turn: TurnId)
    | Resume(turn: TurnId)
    | End(turn: TurnId)
    | ReadEvent(at: nat)
    | ReadQuestion(at: nat, asker: TurnId)
    | ReadEnd(at: nat)
    | Deliver(at: nat)
    | Decide(on: nat, allow: bool)
    | Disconnect(on: nat)

  predicate Runs(s: State, turn: TurnId) {
    turn in s.turns && s.turns[turn] != Over
  }

  predicate ReadingAt(s: State, at: nat) {
    at < |s.screen.items| && s.screen.items[at].Reading?
  }

  /** What may happen. A question is only asked of a connection that is not busy answering one;
      a turn gives up on a question when it is cancelled, whenever that is; and the gate belongs
      to the connection, so whichever turn on it is asking is the one that is heard. */
  predicate Enabled(s: State, step: Step) {
    match step
    case Open => true
    case Start(on) => on in s.screen.held && !s.screen.held[on].busy
    case Ask(turn) => turn in s.turns && s.turns[turn] == Working
    case GiveUp(turn) => turn in s.turns && (s.turns[turn].Asking? || s.turns[turn].Waiting?)
    case Resume(turn) => turn in s.turns && s.turns[turn].Waiting? && s.turns[turn].question in s.screen.answers
    case End(turn) => turn in s.turns && s.turns[turn] == Working
    case ReadEvent(at) =>
      ReadingAt(s, at) && s.screen.items[at].turn in s.turns && s.turns[s.screen.items[at].turn] == Working
    case ReadQuestion(at, asker) =>
      ReadingAt(s, at) && asker in s.turns && s.turns[asker].Asking? && asker.on == s.screen.items[at].turn.on
    case ReadEnd(at) =>
      ReadingAt(s, at) && s.screen.items[at].turn in s.turns && s.turns[s.screen.items[at].turn] == Over
    case Deliver(at) => at < |s.screen.items| && !s.screen.items[at].Reading?
    case Decide(on, _) => on in s.screen.held && s.screen.held[on].pending.Some?
    case Disconnect(on) => on in s.screen.held && |s.screen.held| > 1
  }

  function Removed(items: seq<Item>, at: nat): seq<Item>
    requires at < |items|
  {
    items[..at] + items[at + 1..]
  }

  function Delivered(screen: Screen, item: Item): Screen {
    match item
    case Reading(_) => screen
    case EventMail(turn) => screen.Asked(turn)
    case ApprovalMail(turn, question) => screen.Approving(turn, question)
    case EndedMail(turn) => screen.Finished(turn)
  }

  function Next(s: State, step: Step): State
    requires Enabled(s, step)
  {
    var screen := s.screen;
    match step
    case Open =>
      s.(minted := s.minted + 1, screen := screen.(held := screen.held[s.minted + 1 := Talk(0, false, None)]))
    case Start(on) =>
      s.(screen := screen.Started(on), turns := s.turns[TurnId(on, screen.held[on].token + 1) := Working])
    case Ask(turn) => s.(asked := s.asked + 1, turns := s.turns[turn := Asking(s.asked + 1)])
    case GiveUp(turn) => s.(turns := s.turns[turn := Working])
    case Resume(turn) => s.(turns := s.turns[turn := Working])
    case End(turn) => s.(turns := s.turns[turn := Over])
    case ReadEvent(at) => s.(screen := screen.(items := screen.items[at := EventMail(screen.items[at].turn)]))
    case ReadQuestion(at, asker) =>
      var question := s.turns[asker].question;
      s.(screen := screen.(items := screen.items[at := ApprovalMail(screen.items[at].turn, question)]),
         turns := s.turns[asker := Waiting(question)],
         taken := s.taken[question := asker])
    case ReadEnd(at) => s.(screen := screen.(items := screen.items[at := EndedMail(screen.items[at].turn)]))
    case Deliver(at) => s.(screen := Delivered(screen.(items := Removed(screen.items, at)), screen.items[at]))
    case Decide(on, allow) =>
      s.(screen := screen.Answered(TurnId(on, screen.held[on].token), screen.held[on].pending.value, allow))
    case Disconnect(on) => s.(screen := screen.(held := screen.held - {on}))
  }

  /** Whether a step puts an answer in the channel of a question. */
  predicate Answering(s: State, step: Step, question: nat)
    requires Enabled(s, step)
  {
    match step
    case Deliver(at) =>
      var item := s.screen.items[at];
      item.ApprovalMail? && item.question == question && s.screen.Stale(item.turn)
    case Decide(on, _) => s.screen.held[on].pending == Some(question)
    case _ => false
  }

  predicate Reaches(s: State, steps: seq<Step>, s': State)
    decreases |steps|
  {
    if steps == [] then s == s'
    else Enabled(s, steps[0]) && Reaches(Next(s, steps[0]), steps[1..], s')
  }

  function Beginning(): State {
    State(Screen(map[1 := Talk(0, false, None)], [], map[]), 1, map[], 0, map[])
  }

  // ---------------------------------------------------------------------------------------
  // What is always so
  // ---------------------------------------------------------------------------------------

  /** Nothing reads a turn twice at once. */
  predicate Single(items: seq<Item>) {
    forall i, j :: 0 <= i < j < |items| ==> items[i].turn != items[j].turn
  }

  predicate Carried(items: seq<Item>, turn: TurnId) {
    exists i :: 0 <= i < |items| && items[i].turn == turn
  }

  predicate Latest(turns: map<TurnId, Phase>, turn: TurnId) {
    turn in turns && forall other :: other in turns && other.on == turn.on ==> other.token <= turn.token
  }

  predicate TurnOk(s: State, turn: TurnId)
    requires turn in s.turns
  {
    var held := s.screen.held;
    && 1 <= turn.on <= s.minted
    && (turn.on in held ==> turn.token <= held[turn.on].token)
    && (s.turns[turn] != Over ==>
          Latest(s.turns, turn) && (turn.on in held ==> turn.token == held[turn.on].token && held[turn.on].busy))
    && match s.turns[turn]
       case Asking(question) => 1 <= question <= s.asked && question !in s.taken
       case Waiting(question) => question in s.taken && s.taken[question] == turn
       case _ => true
  }

  predicate TurnsOk(s: State) {
    && (forall turn :: turn in s.turns ==> TurnOk(s, turn))
    && (forall a, b :: a in s.turns && b in s.turns && s.turns[a].Asking? && s.turns[a] == s.turns[b] ==> a == b)
  }

  predicate TalkOk(s: State, on: nat)
    requires on in s.screen.held
  {
    var talk := s.screen.held[on];
    var turn := TurnId(on, talk.token);
    && 1 <= on <= s.minted
    && (talk.busy ==> turn in s.turns)
    && (talk.pending.Some? ==>
          var question := talk.pending.value;
          talk.busy && question in s.taken && s.taken[question] == turn && question !in s.screen.answers)
    && (talk.busy && talk.pending.None? ==> Carried(s.screen.items, turn))
  }

  predicate TalksOk(s: State) {
    forall on :: on in s.screen.held ==> TalkOk(s, on)
  }

  predicate ItemOk(s: State, item: Item) {
    var turn, held := item.turn, s.screen.held;
    && Latest(s.turns, turn)
    && (turn.on in held ==> held[turn.on] == Talk(turn.token, true, None))
    && (item.EndedMail? ==> s.turns[turn] == Over)
    && (item.ApprovalMail? ==>
          item.question in s.taken && s.taken[item.question] == turn && item.question !in s.screen.answers)
  }

  predicate ItemsOk(s: State) {
    Single(s.screen.items) && forall item :: item in s.screen.items ==> ItemOk(s, item)
  }

  /** A question that was taken off the gate of a connection that is still held is on its way to
      the screen, on it, or answered. */
  predicate TakenOk(s: State, question: nat)
    requires question in s.taken
  {
    var turn, screen := s.taken[question], s.screen;
    && 1 <= question <= s.asked && turn in s.turns
    && (question !in screen.answers && turn.on in screen.held ==>
          screen.held[turn.on].pending == Some(question) || ApprovalMail(turn, question) in screen.items)
  }

  predicate QuestionsOk(s: State) {
    && (forall question :: question in s.taken ==> TakenOk(s, question))
    && (forall question :: question in s.screen.answers ==> question in s.taken)
  }

  predicate Ok(s: State) {
    TurnsOk(s) && TalksOk(s) && ItemsOk(s) && QuestionsOk(s)
  }

  // ---------------------------------------------------------------------------------------
  // The list of what is under way
  // ---------------------------------------------------------------------------------------

  lemma RemovedAt(items: seq<Item>, at: nat)
    requires at < |items|
    ensures |Removed(items, at)| == |items| - 1
    ensures forall i :: 0 <= i < |items| && i != at ==> items[i] == Removed(items, at)[if i < at then i else i - 1]
    ensures forall i :: 0 <= i < |items| - 1 ==> Removed(items, at)[i] == items[if i < at then i else i + 1]
  {}

  lemma RemovedSingle(items: seq<Item>, at: nat)
    requires at < |items| && Single(items)
    ensures Single(Removed(items, at)) && !Carried(Removed(items, at), items[at].turn)
  {}

  lemma RemovedHolds(items: seq<Item>, at: nat, item: Item)
    requires at < |items| && Single(items)
    ensures item in Removed(items, at) <==> item in items && item.turn != items[at].turn
  {}

  lemma RemovedIs(items: seq<Item>, at: nat)
    requires at < |items| && Single(items)
    ensures Single(Removed(items, at))
    ensures forall item :: item in Removed(items, at) <==> item in items && item.turn != items[at].turn
    ensures !Carried(Removed(items, at), items[at].turn)
    ensures forall turn :: turn != items[at].turn && Carried(items, turn) ==> Carried(Removed(items, at), turn)
  {
    hide Removed, Single;
    var rest := Removed(items, at);
    RemovedAt(items, at);
    RemovedSingle(items, at);
    forall item
      ensures item in rest <==> item in items && item.turn != items[at].turn
    {
      RemovedHolds(items, at, item);
    }
    forall turn | turn != items[at].turn && Carried(items, turn)
      ensures Carried(rest, turn)
    {
      var i :| 0 <= i < |items| && items[i].turn == turn;
      assert rest[if i < at then i else i - 1].turn == turn;
    }
  }

  lemma ReplacedIs(items: seq<Item>, at: nat, item: Item)
    requires at < |items| && Single(items) && item.turn == items[at].turn
    ensures Single(items[at := item])
    ensures forall other :: other in items[at := item] <==> other == item || (other in items && other.turn != item.turn)
    ensures forall turn :: Carried(items, turn) ==> Carried(items[at := item], turn)
  {
    var all := items[at := item];
    forall i | 0 <= i < |items| && i != at
      ensures items[i] in all
    {
      assert all[i] == items[i];
    }
    assert all[at] == item;
    forall turn | Carried(items, turn)
      ensures Carried(all, turn)
    {
      var i :| 0 <= i < |items| && items[i].turn == turn;
      assert all[i].turn == turn;
    }
  }

  lemma AppendedIs(items: seq<Item>, item: Item)
    requires Single(items) && !Carried(items, item.turn)
    ensures Single(items + [item])
    ensures forall other :: other in items + [item] <==> other in items || other == item
    ensures forall turn :: Carried(items, turn) ==> Carried(items + [item], turn)
    ensures Carried(items + [item], item.turn)
  {
    var all := items + [item];
    assert all[|items|] == item;
    forall turn | Carried(items, turn)
      ensures Carried(all, turn)
    {
      var i :| 0 <= i < |items| && items[i].turn == turn;
      assert all[i].turn == turn;
    }
  }

  lemma NotCarried(items: seq<Item>, turn: TurnId)
    requires forall item :: item in items ==> item.turn != turn
    ensures !Carried(items, turn)
  {}

  // ---------------------------------------------------------------------------------------
  // Every step keeps it
  // ---------------------------------------------------------------------------------------

  lemma OpenKeeps(s: State)
    requires Ok(s)
    ensures Ok(Next(s, Open))
  {}

  lemma StartKeeps(s: State, on: nat)
    requires Ok(s) && Enabled(s, Start(on))
    ensures Ok(Next(s, Start(on)))
  {
    hide Single, Carried;
    var screen, s' := s.screen, Next(s, Start(on));
    var turn := TurnId(on, screen.held[on].token + 1);
    forall other | other in s.turns && other.on == on
      ensures other.token < turn.token
    {
      assert TurnOk(s, other);
    }
    assert TalkOk(s, on);
    forall item | item in screen.items
      ensures item.turn.on != on
    {
      assert ItemOk(s, item);
    }
    NotCarried(screen.items, turn);
    AppendedIs(screen.items, Reading(turn));
    assert Latest(s'.turns, turn);
    forall other | other in s'.turns
      ensures TurnOk(s', other)
    {
      if other != turn {
        assert TurnOk(s, other);
      }
    }
    assert QuestionsOk(s') by {
      hide Latest;
      forall question | question in s.taken
        ensures TakenOk(s', question)
      {
        assert TakenOk(s, question);
      }
    }
  }

  /** A step of a turn that leaves what it was asked for as it was. */
  lemma PhaseKeeps(s: State, turn: TurnId, phase: Phase)
    requires Ok(s) && turn in s.turns && s.turns[turn] != Over
    requires phase == Working || phase == Over
    ensures Ok(s.(turns := s.turns[turn := phase]))
  {}

  lemma AskKeeps(s: State, turn: TurnId)
    requires Ok(s) && Enabled(s, Ask(turn))
    ensures Ok(Next(s, Ask(turn)))
  {
    hide Single, Carried;
    var s' := Next(s, Ask(turn));
    assert s'.turns.Keys == s.turns.Keys;
    assert forall other :: Latest(s'.turns, other) <==> Latest(s.turns, other);
    hide Latest;
    forall question | question in s.taken
      ensures question <= s.asked
    {
      assert TakenOk(s, question);
    }
    assert TurnsOk(s') by {
      hide TalksOk, ItemsOk, QuestionsOk;
      forall other | other in s'.turns
        ensures TurnOk(s', other)
      {
        assert TurnOk(s, other);
      }
    }
    assert TalksOk(s') by {
      hide TurnsOk, QuestionsOk;
      forall on | on in s'.screen.held
        ensures TalkOk(s', on)
      {
        assert TalkOk(s, on);
      }
    }
    assert ItemsOk(s') by {
      hide TurnsOk, TalksOk, QuestionsOk;
      forall item | item in s'.screen.items
        ensures ItemOk(s', item)
      {
        assert ItemOk(s, item);
      }
    }
    assert QuestionsOk(s') by {
      hide TurnsOk;
      forall question | question in s'.taken
        ensures TakenOk(s', question)
      {
        assert TakenOk(s, question);
      }
    }
    hide TurnsOk, TalksOk, ItemsOk, QuestionsOk;
  }

  /** A command that is still about the same turn. */
  lemma MailKeeps(s: State, at: nat, item: Item)
    requires Ok(s) && ReadingAt(s, at) && item.turn == s.screen.items[at].turn && ItemOk(s, item)
    ensures Ok(s.(screen := s.screen.(items := s.screen.items[at := item])))
  {
    hide Single, Carried, Latest;
    var s' := s.(screen := s.screen.(items := s.screen.items[at := item]));
    ReplacedIs(s.screen.items, at, item);
    forall turn | turn in s'.turns
      ensures TurnOk(s', turn)
    {
      assert TurnOk(s, turn);
    }
    forall on | on in s.screen.held
      ensures TalkOk(s', on)
    {
      assert TalkOk(s, on);
    }
    forall other | other in s'.screen.items
      ensures ItemOk(s', other)
    {
      assert other != item ==> ItemOk(s, other);
    }
    forall question | question in s.taken
      ensures TakenOk(s', question)
    {
      assert TakenOk(s, question);
      OthersStay(s, at, item, ApprovalMail(s.taken[question], question));
    }
  }

  lemma OthersStay(s: State, at: nat, item: Item, mail: Item)
    requires at < |s.screen.items| && Single(s.screen.items) && s.screen.items[at].Reading? && mail.ApprovalMail?
    ensures mail in s.screen.items ==> mail in s.screen.items[at := item]
  {
    if mail in s.screen.items {
      var i :| 0 <= i < |s.screen.items| && s.screen.items[i] == mail;
      assert s.screen.items[at := item][i] == mail;
    }
  }

  /** Whichever turn is heard, it is the one that is being read, and its question is new. */
  lemma HeardIsRead(s: State, at: nat, asker: TurnId)
    requires Ok(s) && Enabled(s, ReadQuestion(at, asker))
    ensures asker == s.screen.items[at].turn
    ensures s.turns[asker].question !in s.taken && s.turns[asker].question !in s.screen.answers
    ensures 1 <= s.turns[asker].question <= s.asked
    ensures asker.on in s.screen.held ==> s.screen.held[asker.on] == Talk(asker.token, true, None)
    ensures Latest(s.turns, asker)
  {
    hide Single, Carried;
    assert ItemOk(s, s.screen.items[at]);
    assert TurnOk(s, asker);
    assert asker == s.screen.items[at].turn;
  }

  lemma ReadQuestionKeeps(s: State, at: nat, asker: TurnId)
    requires Ok(s) && Enabled(s, ReadQuestion(at, asker))
    ensures Ok(Next(s, ReadQuestion(at, asker)))
  {
    HeardIsRead(s, at, asker);
    var s' := Next(s, ReadQuestion(at, asker));
    assert s'.turns.Keys == s.turns.Keys;
    assert forall other :: Latest(s'.turns, other) <==> Latest(s.turns, other);
    assert Ok(s') by {
      hide Single, Carried, Latest, TurnsOk, TalksOk, ItemsOk, QuestionsOk;
      ReadTurns(s, s', asker);
      ReadTalks(s, at, asker);
      ReadItems(s, at, asker);
      ReadQuestions(s, at, asker);
    }
  }

  lemma ReadTurns(s: State, s': State, asker: TurnId)
    requires TurnsOk(s) && asker in s.turns && s.turns[asker].Asking?
    requires s'.turns == s.turns[asker := Waiting(s.turns[asker].question)]
    requires s'.taken == s.taken[s.turns[asker].question := asker]
    requires s'.screen.held == s.screen.held && s'.minted == s.minted && s'.asked == s.asked
    requires forall other :: Latest(s'.turns, other) <==> Latest(s.turns, other)
    ensures TurnsOk(s')
  {}

  lemma ReadTalks(s: State, at: nat, asker: TurnId)
    requires Ok(s) && Enabled(s, ReadQuestion(at, asker))
    ensures TalksOk(Next(s, ReadQuestion(at, asker)))
  {
    hide Single, Carried, Latest;
    HeardIsRead(s, at, asker);
    var s' := Next(s, ReadQuestion(at, asker));
    ReplacedIs(s.screen.items, at, ApprovalMail(asker, s.turns[asker].question));
    forall on | on in s.screen.held
      ensures TalkOk(s', on)
    {
      assert TalkOk(s, on);
    }
  }

  lemma ReadItems(s: State, at: nat, asker: TurnId)
    requires Ok(s) && Enabled(s, ReadQuestion(at, asker))
    requires forall other :: Latest(Next(s, ReadQuestion(at, asker)).turns, other) <==> Latest(s.turns, other)
    ensures ItemsOk(Next(s, ReadQuestion(at, asker)))
  {
    hide Single, Carried, Latest;
    HeardIsRead(s, at, asker);
    var s', mail := Next(s, ReadQuestion(at, asker)), ApprovalMail(asker, s.turns[asker].question);
    ReplacedIs(s.screen.items, at, mail);
    forall item | item in s'.screen.items
      ensures ItemOk(s', item)
    {
      assert item != mail ==> ItemOk(s, item);
    }
  }

  lemma ReadQuestions(s: State, at: nat, asker: TurnId)
    requires Ok(s) && Enabled(s, ReadQuestion(at, asker))
    ensures QuestionsOk(Next(s, ReadQuestion(at, asker)))
  {
    hide Single, Carried, Latest, TurnsOk;
    HeardIsRead(s, at, asker);
    var s', mail := Next(s, ReadQuestion(at, asker)), ApprovalMail(asker, s.turns[asker].question);
    forall taken | taken in s'.taken
      ensures TakenOk(s', taken)
    {
      if taken == mail.question {
        assert s'.screen.items[at] == mail;
      } else {
        assert TakenOk(s, taken);
        OthersStay(s, at, mail, ApprovalMail(s.taken[taken], taken));
      }
    }
  }

  lemma DeliveredKeeps(s: State, at: nat)
    requires Ok(s) && Enabled(s, Deliver(at))
    ensures Ok(Next(s, Deliver(at)))
  {
    hide Ok, Single, Carried, Latest, TurnsOk, TalksOk, ItemsOk, QuestionsOk;
    match s.screen.items[at] {
      case EventMail(turn) => AskedKeeps(s, at);
      case ApprovalMail(turn, question) => ApprovingKeeps(s, at);
      case EndedMail(turn) => FinishedKeeps(s, at);
    }
  }

  /** What is left when a message is taken off the list. */
  ghost predicate Emptied(s: State, at: nat, rest: State) {
    && at < |s.screen.items|
    && rest == s.(screen := s.screen.(items := Removed(s.screen.items, at)))
    && Single(rest.screen.items)
    && !Carried(rest.screen.items, s.screen.items[at].turn)
    && (forall item :: item in rest.screen.items <==> item in s.screen.items && item.turn != s.screen.items[at].turn)
    && (forall turn :: turn != s.screen.items[at].turn && Carried(s.screen.items, turn) ==>
          Carried(rest.screen.items, turn))
  }

  lemma TakeOff(s: State, at: nat) returns (rest: State)
    requires Ok(s) && at < |s.screen.items|
    ensures Emptied(s, at, rest)
    ensures ItemOk(s, s.screen.items[at])
  {
    RemovedIs(s.screen.items, at);
    rest := s.(screen := s.screen.(items := Removed(s.screen.items, at)));
  }

  /** A turn that is in front of nobody: nothing on the screen is about it. */
  lemma LeftAlone(s: State, at: nat, rest: State, answers: map<nat, bool>)
    requires Ok(s) && Emptied(s, at, rest) && s.screen.items[at].turn.on !in s.screen.held
    requires ItemOk(s, s.screen.items[at])
    requires answers == s.screen.answers ||
             (s.screen.items[at].ApprovalMail? && answers == s.screen.answers[s.screen.items[at].question := false])
    ensures Ok(rest.(screen := rest.screen.(answers := answers)))
  {
    hide Single, Carried, Latest;
    var s' := rest.(screen := rest.screen.(answers := answers));
    assert TurnsOk(s') by {
      hide TalksOk, ItemsOk, QuestionsOk;
      forall turn | turn in s'.turns
        ensures TurnOk(s', turn)
      {
        assert TurnOk(s, turn);
      }
    }
    assert TalksOk(s') by {
      hide TurnsOk, QuestionsOk;
      forall on | on in s'.screen.held
        ensures TalkOk(s', on)
      {
        assert TalkOk(s, on);
      }
    }
    assert ItemsOk(s') by {
      hide TurnsOk, TalksOk, QuestionsOk;
      forall item | item in s'.screen.items
        ensures ItemOk(s', item)
      {
        assert ItemOk(s, item);
      }
    }
    assert QuestionsOk(s') by {
      hide TurnsOk;
      forall question | question in s'.taken
        ensures TakenOk(s', question)
      {
        assert TakenOk(s, question);
      }
    }
    hide TurnsOk, TalksOk, ItemsOk, QuestionsOk;
  }

  lemma AskedKeeps(s: State, at: nat)
    requires Ok(s) && Enabled(s, Deliver(at)) && s.screen.items[at].EventMail?
    ensures Ok(Next(s, Deliver(at)))
  {
    hide Single, Carried, Latest;
    var turn := s.screen.items[at].turn;
    var rest := TakeOff(s, at);
    if turn.on !in s.screen.held {
      LeftAlone(s, at, rest, s.screen.answers);
      assert Next(s, Deliver(at)) == rest.(screen := rest.screen.(answers := s.screen.answers));
    } else {
      Resumed(s, at, rest);
    }
  }

  /** The screen goes back to reading a turn. */
  lemma Resumed(s: State, at: nat, rest: State)
    requires Ok(s) && Emptied(s, at, rest) && s.screen.items[at].turn.on in s.screen.held
    requires ItemOk(s, s.screen.items[at]) && !s.screen.items[at].ApprovalMail?
    ensures Ok(rest.(screen := rest.screen.Reads(s.screen.items[at].turn)))
  {
    hide Single, Carried, Latest;
    var turn := s.screen.items[at].turn;
    var s' := rest.(screen := rest.screen.Reads(turn));
    AppendedIs(rest.screen.items, Reading(turn));
    forall other | other in s'.turns
      ensures TurnOk(s', other)
    {
      assert TurnOk(s, other);
    }
    forall on | on in s'.screen.held
      ensures TalkOk(s', on)
    {
      assert TalkOk(s, on);
    }
    forall item | item in s'.screen.items
      ensures ItemOk(s', item)
    {
      assert item != Reading(turn) ==> ItemOk(s, item);
    }
    MailsStay(s, at, rest, s');
  }

  lemma MailsStay(s: State, at: nat, rest: State, s': State)
    requires Ok(s) && Emptied(s, at, rest) && !s.screen.items[at].ApprovalMail?
    requires s' == rest.(screen := s'.screen) && s'.screen.answers == s.screen.answers
    requires s'.screen.held.Keys == s.screen.held.Keys
    requires forall on :: on in s.screen.held ==> s'.screen.held[on].pending == s.screen.held[on].pending
    requires forall item :: item in rest.screen.items ==> item in s'.screen.items
    ensures QuestionsOk(s')
  {}

  lemma ApprovingKeeps(s: State, at: nat)
    requires Ok(s) && Enabled(s, Deliver(at)) && s.screen.items[at].ApprovalMail?
    ensures Ok(Next(s, Deliver(at)))
  {
    hide Single, Carried, Latest;
    var turn, question := s.screen.items[at].turn, s.screen.items[at].question;
    var rest := TakeOff(s, at);
    if turn.on !in s.screen.held {
      var answers := s.screen.answers[question := false];
      LeftAlone(s, at, rest, answers);
      assert Next(s, Deliver(at)) == rest.(screen := rest.screen.(answers := answers));
    } else {
      OnScreen(s, at, rest);
    }
  }

  lemma OnScreen(s: State, at: nat, rest: State)
    requires Ok(s) && Emptied(s, at, rest) && s.screen.items[at].turn.on in s.screen.held
    requires ItemOk(s, s.screen.items[at]) && s.screen.items[at].ApprovalMail?
    ensures Ok(rest.(screen := rest.screen.Approving(s.screen.items[at].turn, s.screen.items[at].question)))
  {}

  lemma FinishedKeeps(s: State, at: nat)
    requires Ok(s) && Enabled(s, Deliver(at)) && s.screen.items[at].EndedMail?
    ensures Ok(Next(s, Deliver(at)))
  {
    hide Single, Carried, Latest;
    var turn := s.screen.items[at].turn;
    var rest := TakeOff(s, at);
    if turn.on !in s.screen.held {
      LeftAlone(s, at, rest, s.screen.answers);
      assert Next(s, Deliver(at)) == rest.(screen := rest.screen.(answers := s.screen.answers));
    } else {
      Ended(s, at, rest);
    }
  }

  lemma Ended(s: State, at: nat, rest: State)
    requires Ok(s) && Emptied(s, at, rest) && s.screen.items[at].turn.on in s.screen.held
    requires ItemOk(s, s.screen.items[at]) && s.screen.items[at].EndedMail?
    ensures Ok(rest.(screen := rest.screen.Finished(s.screen.items[at].turn)))
  {
    hide Single, Carried, Latest;
    var turn := s.screen.items[at].turn;
    var s' := rest.(screen := rest.screen.Finished(turn));
    forall other | other in s'.turns
      ensures TurnOk(s', other)
    {
      assert TurnOk(s, other);
    }
    forall on | on in s'.screen.held
      ensures TalkOk(s', on)
    {
      assert TalkOk(s, on);
    }
    forall item | item in s'.screen.items
      ensures ItemOk(s', item)
    {
      assert ItemOk(s, item);
      ApartOn(s, item, s.screen.items[at]);
    }
    MailsStay(s, at, rest, s');
  }

  /** On one connection there is one turn anything can be about. */
  lemma ApartOn(s: State, a: Item, b: Item)
    requires ItemOk(s, a) && ItemOk(s, b) && a.turn != b.turn
    ensures a.turn.on != b.turn.on
  {}

  lemma DecideKeeps(s: State, on: nat, allow: bool)
    requires Ok(s) && Enabled(s, Decide(on, allow))
    ensures Ok(Next(s, Decide(on, allow)))
  {
    hide Single, Carried;
    var screen := s.screen;
    var turn, question := TurnId(on, screen.held[on].token), screen.held[on].pending.value;
    var s' := Next(s, Decide(on, allow));
    assert TalkOk(s, on);
    forall item | item in screen.items
      ensures item.turn.on != on
    {
      assert ItemOk(s, item);
    }
    NotCarried(screen.items, turn);
    AppendedIs(screen.items, Reading(turn));
    assert s'.screen.items == screen.items + [Reading(turn)];
    forall other | other in s.turns
      ensures TurnOk(s', other) && (other.on == on ==> other.token <= turn.token)
    {
      assert TurnOk(s, other);
    }
    assert Latest(s.turns, turn);
    hide Latest;
    assert TurnsOk(s') by {
      hide TalksOk, ItemsOk, QuestionsOk;
      forall other | other in s'.turns
        ensures TurnOk(s', other)
      {
        assert TurnOk(s, other);
      }
    }
    assert TalksOk(s') by {
      hide TurnsOk, QuestionsOk;
      forall held | held in s'.screen.held
        ensures TalkOk(s', held)
      {
        assert TalkOk(s, held);
      }
    }
    assert ItemsOk(s') by {
      hide TurnsOk, TalksOk, QuestionsOk;
      forall item | item in s'.screen.items
        ensures ItemOk(s', item)
      {
        assert item != Reading(turn) ==> ItemOk(s, item);
      }
    }
    assert QuestionsOk(s') by {
      hide TurnsOk;
      forall other | other in s'.taken
        ensures TakenOk(s', other)
      {
        assert TakenOk(s, other);
      }
    }
    hide TurnsOk, TalksOk, ItemsOk, QuestionsOk;
  }

  lemma DisconnectKeeps(s: State, on: nat)
    requires Ok(s) && Enabled(s, Disconnect(on))
    ensures Ok(Next(s, Disconnect(on)))
  {}

  /** Whatever happens next, all of it still holds. */
  lemma StepKeeps(s: State, step: Step)
    requires Ok(s) && Enabled(s, step)
    ensures Ok(Next(s, step))
  {
    hide Ok;
    match step {
      case Open => OpenKeeps(s);
      case Start(on) => StartKeeps(s, on);
      case Ask(turn) => AskKeeps(s, turn);
      case GiveUp(turn) => PhaseKeeps(s, turn, Working);
      case Resume(turn) => PhaseKeeps(s, turn, Working);
      case End(turn) => PhaseKeeps(s, turn, Over);
      case ReadEvent(at) =>
        StillAbout(s, at);
        MailKeeps(s, at, EventMail(s.screen.items[at].turn));
      case ReadQuestion(at, asker) => ReadQuestionKeeps(s, at, asker);
      case ReadEnd(at) =>
        StillAbout(s, at);
        MailKeeps(s, at, EndedMail(s.screen.items[at].turn));
      case Deliver(at) => DeliveredKeeps(s, at);
      case Decide(on, allow) => DecideKeeps(s, on, allow);
      case Disconnect(on) => DisconnectKeeps(s, on);
    }
  }

  lemma StillAbout(s: State, at: nat)
    requires Ok(s) && ReadingAt(s, at)
    ensures ItemOk(s, EventMail(s.screen.items[at].turn))
    ensures s.screen.items[at].turn in s.turns && s.turns[s.screen.items[at].turn] == Over ==>
              ItemOk(s, EndedMail(s.screen.items[at].turn))
  {
    assert ItemOk(s, s.screen.items[at]);
  }

  lemma {:induction false} RunOk(s: State, steps: seq<Step>, s': State)
    requires Ok(s) && Reaches(s, steps, s')
    ensures Ok(s')
    decreases |steps|
  {
    if steps != [] {
      StepKeeps(s, steps[0]);
      RunOk(Next(s, steps[0]), steps[1..], s');
    }
  }

  lemma BeginningOk()
    ensures Ok(Beginning())
  {}

  // ---------------------------------------------------------------------------------------
  // What that means, in every run
  // ---------------------------------------------------------------------------------------

  /** How many commands and messages are about a connection. */
  function CountOn(items: seq<Item>, on: nat): nat {
    if items == [] then 0
    else CountOn(items[..|items| - 1], on) + if items[|items| - 1].turn.on == on then 1 else 0
  }

  lemma {:induction false} CountNone(items: seq<Item>, on: nat)
    requires forall item :: item in items ==> item.turn.on != on
    ensures CountOn(items, on) == 0
  {
    if items != [] {
      CountNone(items[..|items| - 1], on);
    }
  }

  lemma {:induction false} CountOne(items: seq<Item>, turn: TurnId)
    requires Single(items) && forall item :: item in items && item.turn.on == turn.on ==> item.turn == turn
    ensures CountOn(items, turn.on) == if Carried(items, turn) then 1 else 0
  {
    if items != [] {
      var rest, last := items[..|items| - 1], items[|items| - 1];
      assert forall i :: 0 <= i < |rest| ==> rest[i] == items[i];
      if last.turn == turn {
        assert Carried(items, turn);
        CountNone(rest, turn.on);
      } else {
        CountOne(rest, turn);
        if Carried(items, turn) {
          var i :| 0 <= i < |items| && items[i].turn == turn;
          assert rest[i].turn == turn;
        }
      }
    }
  }

  function PendingOn(screen: Screen, on: nat): nat {
    if on in screen.held && screen.held[on].pending.Some? then 1 else 0
  }

  /** In every run, a connection that is busy has exactly one of a command that reads its turn,
      a message that was not delivered yet, and a question on the screen; one that is not has
      none. */
  lemma {:induction false} ExactlyOne(steps: seq<Step>, s: State, on: nat)
    requires Reaches(Beginning(), steps, s) && on in s.screen.held
    ensures CountOn(s.screen.items, on) + PendingOn(s.screen, on) == if s.screen.held[on].busy then 1 else 0
  {
    BeginningOk();
    RunOk(Beginning(), steps, s);
    hide Single, Carried, Latest;
    var talk := s.screen.held[on];
    var turn := TurnId(on, talk.token);
    assert TalkOk(s, on);
    forall item | item in s.screen.items && item.turn.on == on
      ensures item.turn == turn && talk.busy && talk.pending.None?
    {
      assert ItemOk(s, item);
    }
    CountOne(s.screen.items, turn);
    if !talk.busy || talk.pending.Some? {
      CountNone(s.screen.items, on);
    }
  }

  lemma AnswerIsFirst(s: State, step: Step, question: nat)
    requires ItemsOk(s) && TalksOk(s) && Enabled(s, step) && Answering(s, step, question)
    ensures !s.screen.Blocks(question)
  {
    hide Single, Carried, Latest;
    match step {
      case Deliver(at) => assert ItemOk(s, s.screen.items[at]);
      case Decide(on, allow) => assert TalkOk(s, on);
      case _ =>
    }
  }

  lemma AnswerIsPut(s: State, step: Step, question: nat)
    requires Enabled(s, step) && Answering(s, step, question)
    ensures Next(s, step).screen.answers.Keys == s.screen.answers.Keys + {question}
  {}

  /** In every run, the channel a question is answered on is empty when its answer is put there,
      so no answer blocks and no question is answered twice. */
  lemma {:induction false} AnsweredOnce(steps: seq<Step>, s: State, step: Step, question: nat)
    requires Reaches(Beginning(), steps, s) && Enabled(s, step) && Answering(s, step, question)
    ensures !s.screen.Blocks(question)
    ensures Next(s, step).screen.answers.Keys == s.screen.answers.Keys + {question}
  {
    BeginningOk();
    RunOk(Beginning(), steps, s);
    AnswerIsFirst(s, step, question);
    AnswerIsPut(s, step, question);
    hide *;
  }

  /** Only those steps answer anything, and what was answered stays answered. */
  lemma NothingElseAnswers(s: State, step: Step)
    requires Ok(s) && Enabled(s, step)
    ensures forall question :: question in s.screen.answers ==>
              && question in Next(s, step).screen.answers
              && Next(s, step).screen.answers[question] == s.screen.answers[question]
    ensures forall question :: question in Next(s, step).screen.answers && question !in s.screen.answers ==>
              Answering(s, step, question)
  {
    hide Single, Carried, Latest, TurnsOk;
    match step {
      case Deliver(at) => assert ItemOk(s, s.screen.items[at]);
      case Decide(on, allow) => assert TalkOk(s, on);
      case _ =>
    }
  }

  /** In every run, a question that was taken off the gate of a connection that is still held is
      in exactly one place: on its way to the screen, on the screen, or answered. */
  lemma {:induction false} InOnePlace(steps: seq<Step>, s: State, question: nat)
    requires Reaches(Beginning(), steps, s) && question in s.taken && s.taken[question].on in s.screen.held
    ensures
      var turn := s.taken[question];
      var mailed := ApprovalMail(turn, question) in s.screen.items;
      var shown := s.screen.held[turn.on].pending == Some(question);
      var answered := question in s.screen.answers;
      (mailed || shown || answered) && !(mailed && shown) && !(mailed && answered) && !(shown && answered)
    ensures forall item :: item in s.screen.items && item.ApprovalMail? && item.question == question ==>
              item.turn == s.taken[question]
    ensures forall on :: on in s.screen.held && s.screen.held[on].pending == Some(question) ==>
              on == s.taken[question].on
  {
    BeginningOk();
    RunOk(Beginning(), steps, s);
    hide Single, Carried, Latest;
    var turn := s.taken[question];
    assert TakenOk(s, question);
    assert TalkOk(s, turn.on);
    forall item | item in s.screen.items
      ensures ItemOk(s, item)
    {}
    forall on | on in s.screen.held
      ensures TalkOk(s, on)
    {}
  }

  /** In every run, a question that arrives is refused on arrival exactly when its connection is
      no longer held. One that is held shows it, and there was none on its screen to lose. */
  lemma {:induction false} ArrivalDecides(steps: seq<Step>, s: State, at: nat)
    requires Reaches(Beginning(), steps, s) && Enabled(s, Deliver(at)) && s.screen.items[at].ApprovalMail?
    ensures
      var item, after := s.screen.items[at], Next(s, Deliver(at)).screen;
      && (Answering(s, Deliver(at), item.question) <==> item.turn.on !in s.screen.held)
      && (if item.turn.on in s.screen.held
          then s.screen.held[item.turn.on].pending.None? && after.held[item.turn.on].pending == Some(item.question)
          else after.answers == s.screen.answers[item.question := false] && after.held == s.screen.held)
  {
    BeginningOk();
    RunOk(Beginning(), steps, s);
    assert ItemOk(s, s.screen.items[at]);
  }

  /** In every run, what a person decides is what the turn that asked is told, and it is the turn
      that runs now: it can take the answer at once, unless it gave up. */
  lemma {:induction false} DecisionArrives(steps: seq<Step>, s: State, on: nat, allow: bool)
    requires Reaches(Beginning(), steps, s) && Enabled(s, Decide(on, allow))
    ensures
      var question := s.screen.held[on].pending.value;
      var turn := TurnId(on, s.screen.held[on].token);
      var after := Next(s, Decide(on, allow));
      && question in s.taken && s.taken[question] == turn && after.screen.answers[question] == allow
      && after.screen.held[on] == Talk(turn.token, true, None)
      && Reading(turn) in after.screen.items
      && turn in s.turns && (s.turns[turn] == Waiting(question) ==> Enabled(after, Resume(turn)))
  {
    BeginningOk();
    RunOk(Beginning(), steps, s);
    assert TalkOk(s, on);
    var turn := TurnId(on, s.screen.held[on].token);
    var after := Next(s, Decide(on, allow)).screen;
    assert after.items == s.screen.items + [Reading(turn)];
    assert after.items[|s.screen.items|] == Reading(turn);
  }
}
