/** What the screen records while a turn runs, and what it draws from the messages that were
    kept: two ways to the same exchange. */
module Transcripts {
  import opened Options
  import opened Strings
  import opened Conversation

  /** How a tool call and a failure are written on the line that says one was made. */
  datatype Style = Style(step: Call -> string, clip: string -> string)
  {
    function Fault(reply: Reply): seq<string> {
      if reply.failed then ["  " + clip(reply.content)] else []
    }
  }

  /** One question and what came back. */
  datatype Exchange = Exchange(question: string, answer: string, reasoning: string, steps: seq<string>, done: bool)

  function Opening(question: string): Exchange {
    Exchange(question, "", "", [], false)
  }

  function Recorded(style: Style, current: Exchange, event: Event): Exchange {
    match event
    case TextEvent(text) => current.(answer := current.answer + text)
    case ReasoningEvent(text) => current.(reasoning := current.reasoning + text)
    case CallEvent(call) => current.(steps := current.steps + [style.step(call)])
    case ResultEvent(reply) => current.(steps := current.steps + style.Fault(reply))
    case DoneEvent(_) => current.(done := true)
  }

  function RecordedAll(style: Style, current: Exchange, events: seq<Event>): Exchange {
    if events == [] then current
    else Recorded(style, RecordedAll(style, current, events[..|events| - 1]), events[|events| - 1])
  }

  /** One message turned back into the events it was drawn from: a model reasons, then
      answers, then calls something. */
  function Replayed(message: Message): seq<Event> {
    match message.role
    case User => []
    case Tool => if message.result.None? then [] else [ResultEvent(message.result.value)]
    case Assistant =>
      (if message.reasoning != "" then [ReasoningEvent(message.reasoning)] else []) +
      (if message.content != "" then [TextEvent(message.content)] else []) +
      Calling(message.calls)
  }

  function Calling(calls: seq<Call>): (r: seq<Event>)
    ensures |r| == |calls| && forall i :: 0 <= i < |r| ==> r[i] == CallEvent(calls[i])
  {
    seq(|calls|, i requires 0 <= i < |calls| => CallEvent(calls[i]))
  }

  /** What is drawn for a conversation, one exchange for each question. */
  function Drawn(style: Style, messages: seq<Message>): seq<Exchange> {
    if messages == [] then []
    else
      var earlier := Drawn(style, messages[..|messages| - 1]);
      var message := messages[|messages| - 1];
      if message.role == User then earlier + [Opening(message.content)]
      else if earlier == [] then []
      else earlier[|earlier| - 1 := RecordedAll(style, earlier[|earlier| - 1], Replayed(message))]
  }

  function Closed(exchanges: seq<Exchange>): (r: seq<Exchange>)
    ensures |r| == |exchanges| && forall i :: 0 <= i < |r| ==> r[i] == exchanges[i].(done := true)
  {
    seq(|exchanges|, i requires 0 <= i < |exchanges| => exchanges[i].(done := true))
  }

  /** The part of the screen that remembers what was said. */
  class Chat {
    const style: Style
    var exchanges: seq<Exchange>

    constructor (style: Style)
      ensures this.style == style && exchanges == []
    {
      this.style := style;
      exchanges := [];
    }

    method Record(event: Event)
      modifies this
      ensures exchanges == if old(exchanges) == [] then [] else
                var last := |old(exchanges)| - 1;
                old(exchanges)[last := Recorded(style, old(exchanges)[last], event)]
    {
      if |exchanges| == 0 {
        return;
      }
      var last := |exchanges| - 1;
      var current := exchanges[last];
      match event {
        case TextEvent(text) => current := current.(answer := current.answer + text);
        case ReasoningEvent(text) => current := current.(reasoning := current.reasoning + text);
        case CallEvent(call) => current := current.(steps := current.steps + [style.step(call)]);
        case ResultEvent(reply) =>
          if reply.failed {
            current := current.(steps := current.steps + ["  " + style.clip(reply.content)]);
          } else {
            assert current.steps + [] == current.steps;
          }
        case DoneEvent(_) => current := current.(done := true);
      }
      exchanges := exchanges[last := current];
    }

    /** Records events as they come, which is what a turn on the screen does. */
    method RecordAll(events: seq<Event>)
      modifies this
      ensures exchanges == if old(exchanges) == [] then [] else
                var last := |old(exchanges)| - 1;
                old(exchanges)[last := RecordedAll(style, old(exchanges)[last], events)]
    {
      for i := 0 to |events|
        invariant exchanges == if old(exchanges) == [] then [] else
                    var last := |old(exchanges)| - 1;
                    old(exchanges)[last := RecordedAll(style, old(exchanges)[last], events[..i])]
      {
        assert events[..i + 1][..i] == events[..i];
        Record(events[i]);
      }
      assert events[..|events|] == events;
    }

    /** Draws a conversation that was kept, through the same recorder a live one goes through. */
    method Transcript(messages: seq<Message>)
      modifies this
      ensures exchanges == Closed(Drawn(style, messages))
    {
      exchanges := [];
      for i := 0 to |messages|
        invariant exchanges == Drawn(style, messages[..i])
      {
        assert messages[..i + 1][..i] == messages[..i];
        if messages[i].role == User {
          exchanges := exchanges + [Opening(messages[i].content)];
          continue;
        }
        RecordAll(Replayed(messages[i]));
      }
      assert messages[..|messages|] == messages;
      ghost var drawn := exchanges;
      for i := 0 to |exchanges|
        invariant |exchanges| == |drawn|
        invariant forall j :: 0 <= j < |drawn| ==> exchanges[j] == if j < i then drawn[j].(done := true) else drawn[j]
      {
        exchanges := exchanges[i := exchanges[i].(done := true)];
      }
    }
  }

  // ---------------------------------------------------------------------------------------
  // What either way adds to an exchange
  // ---------------------------------------------------------------------------------------

  lemma {:induction false} RecordedAppend(style: Style, current: Exchange, a: seq<Event>, b: seq<Event>)
    ensures RecordedAll(style, current, a + b) == RecordedAll(style, RecordedAll(style, current, a), b)
  {
    if b == [] {
      assert a + b == a;
    } else {
      var n := |b| - 1;
      RecordedAppend(style, current, a, b[..n]);
      assert (a + b)[..|a + b| - 1] == a + b[..n];
    }
  }

  /** An exchange with something more in it. */
  function More(current: Exchange, answer: string, reasoning: string, steps: seq<string>): Exchange {
    current.(
      answer := current.answer + answer,
      reasoning := current.reasoning + reasoning,
      steps := current.steps + steps)
  }

  /** What one piece of a stream shows. */
  function ShownOne(chunk: Chunk): seq<Event> {
    match chunk
    case TextDelta(text) => [TextEvent(text)]
    case ReasoningDelta(text) => [ReasoningEvent(text)]
    case _ => []
  }

  lemma {:induction false} ShownRecorded(style: Style, current: Exchange, chunks: seq<Chunk>)
    ensures RecordedAll(style, current, Shown(chunks)) == More(current, TextOf(chunks), ReasoningOf(chunks), [])
  {
    if chunks == [] {
      RecordedNothing(style, current);
    } else {
      var rest, last := chunks[..|chunks| - 1], chunks[|chunks| - 1];
      ShownRecorded(style, current, rest);
      assert Shown(chunks) == Shown(rest) + ShownOne(last);
      assert chunks == rest + [last];
      hide *;
      RecordedAppend(style, current, Shown(rest), ShownOne(last));
      MoreThenOne(style, current, rest, last);
    }
  }

  lemma {:induction false} MoreThenOne(style: Style, current: Exchange, chunks: seq<Chunk>, chunk: Chunk)
    ensures RecordedAll(style, More(current, TextOf(chunks), ReasoningOf(chunks), []), ShownOne(chunk)) ==
            More(current, TextOf(chunks + [chunk]), ReasoningOf(chunks + [chunk]), [])
  {
    assert (chunks + [chunk])[..|chunks|] == chunks;
    var text, reasoning := TextOf(chunks), ReasoningOf(chunks);
    assert TextOf(chunks + [chunk]) == text + if chunk.TextDelta? then chunk.text else "";
    assert ReasoningOf(chunks + [chunk]) == reasoning + if chunk.ReasoningDelta? then chunk.text else "";
    hide TextOf, ReasoningOf;
    var before := More(current, text, reasoning, []);
    assert text + "" == text && reasoning + "" == reasoning;
    match chunk {
      case TextDelta(more) =>
        RecordedOne(style, before, TextEvent(more));
        assert (current.answer + text) + more == current.answer + (text + more);
      case ReasoningDelta(more) =>
        RecordedOne(style, before, ReasoningEvent(more));
        assert (current.reasoning + reasoning) + more == current.reasoning + (reasoning + more);
      case _ =>
    }
  }

  /** The steps as they come: each call, and then what went wrong with it. */
  function LiveSteps(style: Style, calls: seq<Call>, replies: seq<Reply>): seq<string>
    requires Answers(calls, replies)
  {
    if replies == [] then []
    else
      var n := |replies| - 1;
      LiveSteps(style, calls, replies[..n]) + [style.step(calls[n])] + style.Fault(replies[n])
  }

  function CallSteps(style: Style, calls: seq<Call>): (r: seq<string>)
    ensures |r| == |calls| && forall i :: 0 <= i < |r| ==> r[i] == style.step(calls[i])
  {
    seq(|calls|, i requires 0 <= i < |calls| => style.step(calls[i]))
  }

  function Faults(style: Style, replies: seq<Reply>): seq<string> {
    if replies == [] then [] else Faults(style, replies[..|replies| - 1]) + style.Fault(replies[|replies| - 1])
  }

  /** The steps as they are drawn again: all the calls of a round, and then what went wrong. */
  function DrawnSteps(style: Style, calls: seq<Call>, replies: seq<Reply>): seq<string> {
    CallSteps(style, calls) + Faults(style, replies)
  }

  lemma {:induction false} WorkedRecorded(style: Style, current: Exchange, calls: seq<Call>, replies: seq<Reply>)
    requires Answers(calls, replies)
    ensures RecordedAll(style, current, Worked(calls, replies)) ==
            More(current, "", "", LiveSteps(style, calls, replies))
  {
    if replies == [] {
      RecordedNothing(style, current);
    } else {
      var n := |replies| - 1;
      WorkedRecorded(style, current, calls, replies[..n]);
      RecordedAppend(style, current, Worked(calls, replies[..n]), [CallEvent(calls[n]), ResultEvent(replies[n])]);
      var live := LiveSteps(style, calls, replies[..n]);
      WorkedOne(style, More(current, "", "", live), calls[n], replies[n]);
      assert (current.steps + live) + [style.step(calls[n])] + style.Fault(replies[n]) ==
             current.steps + (live + [style.step(calls[n])] + style.Fault(replies[n]));
    }
  }

  lemma {:induction false} WorkedOne(style: Style, current: Exchange, call: Call, reply: Reply)
    ensures RecordedAll(style, current, [CallEvent(call), ResultEvent(reply)]) ==
            current.(steps := current.steps + [style.step(call)] + style.Fault(reply))
  {
    var both := [CallEvent(call), ResultEvent(reply)];
    assert both[..1] == [CallEvent(call)];
    RecordedOne(style, current, CallEvent(call));
  }

  lemma {:induction false} CallingRecorded(style: Style, current: Exchange, calls: seq<Call>)
    ensures RecordedAll(style, current, Calling(calls)) == More(current, "", "", CallSteps(style, calls))
  {
    if calls == [] {
      assert More(current, "", "", []) == current;
    } else {
      var n := |calls| - 1;
      CallingRecorded(style, current, calls[..n]);
      assert Calling(calls)[..n] == Calling(calls[..n]);
      assert CallSteps(style, calls) == CallSteps(style, calls[..n]) + [style.step(calls[n])];
    }
  }

  lemma {:induction false} BuiltReplayed(style: Style, current: Exchange, chunks: seq<Chunk>)
    ensures RecordedAll(style, current, Replayed(Built(chunks))) ==
            More(current, TextOf(chunks), ReasoningOf(chunks), CallSteps(style, CallsOf(chunks)))
  {
    var text, reasoning, calls := TextOf(chunks), ReasoningOf(chunks), CallsOf(chunks);
    var thought := if reasoning != "" then [ReasoningEvent(reasoning)] else [];
    var said := if text != "" then [TextEvent(text)] else [];
    assert Replayed(Built(chunks)) == thought + said + Calling(calls);
    RecordedAppend(style, current, thought + said, Calling(calls));
    RecordedAppend(style, current, thought, said);
    var first := RecordedAll(style, current, thought);
    assert first == current.(reasoning := current.reasoning + reasoning) by {
      assert thought != [] ==> thought[..0] == [];
      assert current.reasoning + "" == current.reasoning;
    }
    var second := RecordedAll(style, first, said);
    assert second == first.(answer := first.answer + text) by {
      assert said != [] ==> said[..0] == [];
      assert first.answer + "" == first.answer;
    }
    CallingRecorded(style, second, calls);
  }

  // ---------------------------------------------------------------------------------------
  // The whole turn, both ways
  // ---------------------------------------------------------------------------------------

  function TurnText(rounds: seq<Round>): string {
    if rounds == [] then "" else TurnText(rounds[..|rounds| - 1]) + TextOf(rounds[|rounds| - 1].chunks)
  }

  function TurnReasoning(rounds: seq<Round>): string {
    if rounds == [] then "" else TurnReasoning(rounds[..|rounds| - 1]) + ReasoningOf(rounds[|rounds| - 1].chunks)
  }

  function TurnLive(style: Style, rounds: seq<Round>): seq<string>
    requires RoundsOk(rounds)
  {
    if rounds == [] then []
    else
      var last := rounds[|rounds| - 1];
      TurnLive(style, rounds[..|rounds| - 1]) + LiveSteps(style, CallsOf(last.chunks), last.replies)
  }

  function TurnDrawn(style: Style, rounds: seq<Round>): seq<string> {
    if rounds == [] then []
    else
      var last := rounds[|rounds| - 1];
      TurnDrawn(style, rounds[..|rounds| - 1]) + DrawnSteps(style, CallsOf(last.chunks), last.replies)
  }

  lemma {:induction false} TurnRecorded(style: Style, current: Exchange, rounds: seq<Round>)
    requires RoundsOk(rounds) && Untroubled(rounds)
    ensures RecordedAll(style, current, EventsOf(rounds)) ==
            More(current, TurnText(rounds), TurnReasoning(rounds), TurnLive(style, rounds))
  {
    hide RecordedAll, LiveSteps, TextOf, ReasoningOf, CallsOf, Shown, Worked;
    if rounds == [] {
      RecordedNothing(style, current);
    } else {
      var rest, last := rounds[..|rounds| - 1], rounds[|rounds| - 1];
      assert RoundOk(last) && last.retries == 0;
      TurnRecorded(style, current, rest);
      var before := RecordedAll(style, current, EventsOf(rest));
      assert RoundEvents(last) == Shown(last.chunks) + Worked(CallsOf(last.chunks), last.replies);
      RecordedAppend(style, current, EventsOf(rest), RoundEvents(last));
      RecordedAppend(style, before, Shown(last.chunks), Worked(CallsOf(last.chunks), last.replies));
      ShownRecorded(style, before, last.chunks);
      WorkedRecorded(style, RecordedAll(style, before, Shown(last.chunks)), CallsOf(last.chunks), last.replies);
    }
  }

  lemma {:induction false} RecordedNothing(style: Style, current: Exchange)
    ensures RecordedAll(style, current, []) == current && More(current, "", "", []) == current
  {}

  /** One exchange of a drawing with something more in its last. */
  function Extended(drawn: seq<Exchange>, answer: string, reasoning: string, steps: seq<string>): seq<Exchange>
    requires drawn != []
  {
    drawn[|drawn| - 1 := More(drawn[|drawn| - 1], answer, reasoning, steps)]
  }

  lemma ExtendedTwice(drawn: seq<Exchange>, a: string, r: string, x: seq<string>, b: string, t: string, y: seq<string>)
    requires drawn != []
    ensures Extended(Extended(drawn, a, r, x), b, t, y) == Extended(drawn, a + b, r + t, x + y)
  {
    var n := |drawn| - 1;
    var current := drawn[n];
    assert (current.answer + a) + b == current.answer + (a + b);
    assert (current.reasoning + r) + t == current.reasoning + (r + t);
    assert (current.steps + x) + y == current.steps + (x + y);
  }

  lemma ExtendedByNothing(drawn: seq<Exchange>)
    requires drawn != []
    ensures Extended(drawn, "", "", []) == drawn
  {
    assert More(drawn[|drawn| - 1], "", "", []) == drawn[|drawn| - 1];
  }

  lemma {:induction false} DrawnReply(style: Style, start: seq<Message>, reply: Reply)
    requires Drawn(style, start) != []
    ensures Drawn(style, start + [Answering(reply)]) == Extended(Drawn(style, start), "", "", style.Fault(reply))
  {
    var all := start + [Answering(reply)];
    assert all[..|all| - 1] == start;
    var drawn := Drawn(style, start);
    var last := drawn[|drawn| - 1];
    RecordedOne(style, last, ResultEvent(reply));
    assert Replayed(Answering(reply)) == [ResultEvent(reply)];
    assert last.answer + "" == last.answer && last.reasoning + "" == last.reasoning;
  }

  /** What is drawn once some answers from tools are added. */
  lemma {:induction false} DrawnReplies(style: Style, start: seq<Message>, replies: seq<Reply>)
    requires Drawn(style, start) != []
    ensures Drawn(style, start + RepliesAs(replies)) == Extended(Drawn(style, start), "", "", Faults(style, replies))
  {
    hide Drawn, Extended;
    if replies == [] {
      assert start + RepliesAs(replies) == start;
      ExtendedByNothing(Drawn(style, start));
    } else {
      var n := |replies| - 1;
      DrawnReplies(style, start, replies[..n]);
      ExtendedTwice(Drawn(style, start), "", "", Faults(style, replies[..n]), "", "", style.Fault(replies[n]));
      StillDrawn(Drawn(style, start), "", "", Faults(style, replies[..n]));
      DrawnReply(style, start + RepliesAs(replies[..n]), replies[n]);
      assert start + RepliesAs(replies) == start + RepliesAs(replies[..n]) + [Answering(replies[n])];
      var none: string := "";
      assert none + none == none;
    }
  }

  lemma StillDrawn(drawn: seq<Exchange>, answer: string, reasoning: string, steps: seq<string>)
    requires drawn != []
    ensures Extended(drawn, answer, reasoning, steps) != []
  {}

  lemma {:induction false} TurnDrawnIs(style: Style, start: seq<Message>, rounds: seq<Round>)
    requires Drawn(style, start) != []
    ensures Drawn(style, start + MessagesOf(rounds)) ==
            Extended(Drawn(style, start), TurnText(rounds), TurnReasoning(rounds), TurnDrawn(style, rounds))
  {
    hide Drawn, Extended, TextOf, ReasoningOf, CallsOf, Faults, Built, CallSteps;
    if rounds == [] {
      assert start + MessagesOf(rounds) == start;
      ExtendedByNothing(Drawn(style, start));
    } else {
      var rest, last := rounds[..|rounds| - 1], rounds[|rounds| - 1];
      TurnDrawnIs(style, start, rest);
      StillDrawn(Drawn(style, start), TurnText(rest), TurnReasoning(rest), TurnDrawn(style, rest));
      DrawnRound(style, start + MessagesOf(rest), last);
      ExtendedTwice(Drawn(style, start), TurnText(rest), TurnReasoning(rest), TurnDrawn(style, rest),
                    TextOf(last.chunks), ReasoningOf(last.chunks),
                    DrawnSteps(style, CallsOf(last.chunks), last.replies));
      assert start + MessagesOf(rounds) == start + MessagesOf(rest) + RoundMessages(last);
    }
  }

  lemma {:induction false} DrawnRound(style: Style, start: seq<Message>, round: Round)
    requires Drawn(style, start) != []
    ensures Drawn(style, start + RoundMessages(round)) ==
            Extended(Drawn(style, start), TextOf(round.chunks), ReasoningOf(round.chunks),
                     DrawnSteps(style, CallsOf(round.chunks), round.replies))
  {
    hide Drawn, Extended, TextOf, ReasoningOf, CallsOf, Faults, Built, CallSteps;
    var text, reasoning := TextOf(round.chunks), ReasoningOf(round.chunks);
    var steps := CallSteps(style, CallsOf(round.chunks));
    DrawnAnswer(style, start, round.chunks);
    StillDrawn(Drawn(style, start), text, reasoning, steps);
    DrawnReplies(style, start + [Built(round.chunks)], round.replies);
    ExtendedTwice(Drawn(style, start), text, reasoning, steps, "", "", Faults(style, round.replies));
    assert text + "" == text && reasoning + "" == reasoning;
    assert start + RoundMessages(round) == start + [Built(round.chunks)] + RepliesAs(round.replies);
  }

  lemma {:induction false} DrawnAnswer(style: Style, start: seq<Message>, chunks: seq<Chunk>)
    requires Drawn(style, start) != []
    ensures Drawn(style, start + [Built(chunks)]) ==
            Extended(Drawn(style, start), TextOf(chunks), ReasoningOf(chunks), CallSteps(style, CallsOf(chunks)))
  {
    hide RecordedAll, Replayed, TextOf, ReasoningOf, CallsOf;
    var all := start + [Built(chunks)];
    assert all[..|all| - 1] == start;
    BuiltReplayed(style, Drawn(style, start)[|Drawn(style, start)| - 1], chunks);
  }

  /** The exchange that was recorded while a turn ran, and the one that is drawn from what was
      kept of it. */
  function Live(style: Style, question: string, rounds: seq<Round>, stop: Stop): Exchange
    requires RoundsOk(rounds)
  {
    RecordedAll(style, Opening(question), EventsOf(rounds) + [DoneEvent(stop)])
  }

  /** A round of one call shows its words, its thoughts and the call as they come, and what went wrong
      with the call when something did. */
  lemma {:induction false} OneShown(style: Style, question: string, said: string, thought: string, call: Call,
                                    reply: Reply, stop: Stop)
    requires reply.id == call.id && reply.name == call.name
    ensures
      var chunks := [TextDelta(said), ReasoningDelta(thought), ToolEnd(Some(call))];
      var round := Round(0, [], chunks, [reply]);
      && RoundsOk([round])
      && Live(style, question, [round], stop) ==
         Exchange(question, said, thought,
                  [style.step(call)] + (if reply.failed then ["  " + style.clip(reply.content)] else []), true)
  {
    var chunks := [TextDelta(said), ReasoningDelta(thought), ToolEnd(Some(call))];
    OneBuilt(said, thought, call, stop);
    OneStep(style, call, reply);
    hide TextOf, ReasoningOf, CallsOf, LiveSteps, Live;
    OneLive(style, question, Round(0, [], chunks, [reply]), stop);
  }

  lemma {:induction false} OneBuilt(said: string, thought: string, call: Call, stop: Stop)
    ensures
      var chunks := [TextDelta(said), ReasoningDelta(thought), ToolEnd(Some(call))];
      TextOf(chunks) == said && ReasoningOf(chunks) == thought && CallsOf(chunks) == [call]
  {
    var a, b, c := [TextDelta(said)], [ReasoningDelta(thought)], [ToolEnd(Some(call))];
    assert [TextDelta(said), ReasoningDelta(thought), ToolEnd(Some(call))] == a + (b + c);
    BuiltOne(said, call, stop);
    BuiltOne(thought, call, stop);
    BuiltAppend(a, b + c);
    BuiltAppend(b, c);
    hide TextOf, ReasoningOf, CallsOf;
    assert said + "" == said && "" + thought == thought && thought + "" == thought;
  }

  lemma {:induction false} OneStep(style: Style, call: Call, reply: Reply)
    requires Answers([call], [reply])
    ensures LiveSteps(style, [call], [reply]) ==
            [style.step(call)] + (if reply.failed then ["  " + style.clip(reply.content)] else [])
  {
    assert [reply][..0] == [];
  }

  lemma {:induction false} OneLive(style: Style, question: string, round: Round, stop: Stop)
    requires RoundOk(round) && round.retries == 0 && |round.replies| == 1
    ensures
      Live(style, question, [round], stop) ==
      Exchange(question, TextOf(round.chunks), ReasoningOf(round.chunks),
               LiveSteps(style, CallsOf(round.chunks), round.replies), true)
  {
    hide TextOf, ReasoningOf, CallsOf, LiveSteps;
    assert Untroubled([round]) && [round][..0] == [];
    var current := Opening(question);
    TurnRecorded(style, current, [round]);
    RecordedAppend(style, current, EventsOf([round]), [DoneEvent(stop)]);
    RecordedOne(style, RecordedAll(style, current, EventsOf([round])), DoneEvent(stop));
    MoreOpening(question, TextOf(round.chunks), ReasoningOf(round.chunks),
                LiveSteps(style, CallsOf(round.chunks), round.replies));
  }

  /** The questions of a conversation, in order. */
  function Questions(messages: seq<Message>): seq<string> {
    if messages == [] then []
    else
      var last := messages[|messages| - 1];
      Questions(messages[..|messages| - 1]) + if last.role == User then [last.content] else []
  }

  /** One exchange is drawn for each of them, and it keeps the question. */
  lemma {:induction false} DrawnQuestions(style: Style, messages: seq<Message>)
    ensures |Drawn(style, messages)| == |Questions(messages)|
    ensures forall i :: 0 <= i < |Questions(messages)| ==> Drawn(style, messages)[i].question == Questions(messages)[i]
  {
    hide Replayed;
    if messages != [] {
      DrawnQuestions(style, messages[..|messages| - 1]);
      var earlier, message := Drawn(style, messages[..|messages| - 1]), messages[|messages| - 1];
      if message.role != User && earlier != [] {
        QuestionKept(style, earlier[|earlier| - 1], Replayed(message));
      }
    }
  }

  lemma {:induction false} QuestionKept(style: Style, current: Exchange, events: seq<Event>)
    ensures RecordedAll(style, current, events).question == current.question
  {
    if events != [] {
      QuestionKept(style, current, events[..|events| - 1]);
    }
  }

  /** For every turn that ended and needed no second attempt, what is drawn from the messages
      it left is the exchange that was on the screen: the same question, answer and
      reasoning, and the same steps but for their order. What was drawn before it stays. */
  lemma {:induction false} ReplayIsLive(style: Style, earlier: seq<Message>, question: string,
                                         rounds: seq<Round>, limit: nat, stop: Stop)
    requires Ended(rounds, limit, stop) && Untroubled(rounds)
    ensures
      var drawn := Closed(Drawn(style, earlier + [Asking(question)] + MessagesOf(rounds)));
      var live := Live(style, question, rounds, stop);
      && |drawn| == |Drawn(style, earlier)| + 1
      && drawn[..|drawn| - 1] == Closed(Drawn(style, earlier))
      && live == Exchange(question, TurnText(rounds), TurnReasoning(rounds), TurnLive(style, rounds), true)
      && drawn[|drawn| - 1] == live.(steps := TurnDrawn(style, rounds))
      && multiset(drawn[|drawn| - 1].steps) == multiset(live.steps)
  {
    hide RecordedAll, TurnText, TurnReasoning, TurnLive, TurnDrawn, EventsOf, MessagesOf;
    var start := earlier + [Asking(question)];
    assert start[..|start| - 1] == earlier;
    TurnRecorded(style, Opening(question), rounds);
    RecordedAppend(style, Opening(question), EventsOf(rounds), [DoneEvent(stop)]);
    RecordedOne(style, RecordedAll(style, Opening(question), EventsOf(rounds)), DoneEvent(stop));
    TurnDrawnIs(style, start, rounds);
    SameSteps(style, rounds);
    MoreOpening(question, TurnText(rounds), TurnReasoning(rounds), TurnLive(style, rounds));
    MoreOpening(question, TurnText(rounds), TurnReasoning(rounds), TurnDrawn(style, rounds));
  }

  lemma {:induction false} RecordedOne(style: Style, current: Exchange, event: Event)
    ensures RecordedAll(style, current, [event]) == Recorded(style, current, event)
  {}

  lemma MoreOpening(question: string, answer: string, reasoning: string, steps: seq<string>)
    ensures More(Opening(question), answer, reasoning, steps) == Exchange(question, answer, reasoning, steps, false)
  {}

  lemma {:induction false} SameSteps(style: Style, rounds: seq<Round>)
    requires RoundsOk(rounds)
    ensures multiset(TurnDrawn(style, rounds)) == multiset(TurnLive(style, rounds))
  {
    hide CallsOf;
    if rounds != [] {
      var last := rounds[|rounds| - 1];
      assert RoundOk(last);
      SameSteps(style, rounds[..|rounds| - 1]);
      SameRoundSteps(style, CallsOf(last.chunks), last.replies);
    }
  }

  lemma {:induction false} SameRoundSteps(style: Style, calls: seq<Call>, replies: seq<Reply>)
    requires Answers(calls, replies) && |calls| == |replies|
    ensures multiset(DrawnSteps(style, calls, replies)) == multiset(LiveSteps(style, calls, replies))
  {
    SamePrefixSteps(style, calls, replies);
    assert calls[..|replies|] == calls;
  }

  lemma {:induction false} SamePrefixSteps(style: Style, calls: seq<Call>, replies: seq<Reply>)
    requires Answers(calls, replies)
    ensures multiset(CallSteps(style, calls[..|replies|]) + Faults(style, replies)) ==
            multiset(LiveSteps(style, calls, replies))
  {
    hide CallSteps;
    if replies == [] {
      NoCallSteps(style, calls[..0]);
    } else {
      var n := |replies| - 1;
      SamePrefixSteps(style, calls, replies[..n]);
      CallStepsSnoc(style, calls, n);
      Interleaved(CallSteps(style, calls[..n]), style.step(calls[n]), Faults(style, replies[..n]),
                  style.Fault(replies[n]), LiveSteps(style, calls, replies[..n]));
    }
  }

  lemma NoCallSteps(style: Style, calls: seq<Call>)
    requires calls == []
    ensures CallSteps(style, calls) == []
  {}

  lemma CallStepsSnoc(style: Style, calls: seq<Call>, n: nat)
    requires n < |calls|
    ensures CallSteps(style, calls[..n + 1]) == CallSteps(style, calls[..n]) + [style.step(calls[n])]
  {}

  lemma Interleaved(called: seq<string>, call: string, faults: seq<string>, fault: seq<string>, live: seq<string>)
    requires multiset(called + faults) == multiset(live)
    ensures multiset((called + [call]) + (faults + fault)) == multiset(live + [call] + fault)
  {}

  // ---------------------------------------------------------------------------------------
  // When the steps come back in the same order
  // ---------------------------------------------------------------------------------------

  /** Nothing but the last call of a round failed, which is so whenever no round makes two. */
  predicate OnlyLastFails(replies: seq<Reply>) {
    forall i :: 0 <= i < |replies| - 1 ==> !replies[i].failed
  }

  lemma {:induction false} NoFaults(style: Style, calls: seq<Call>, replies: seq<Reply>)
    requires Answers(calls, replies) && forall i :: 0 <= i < |replies| ==> !replies[i].failed
    ensures Faults(style, replies) == []
    ensures LiveSteps(style, calls, replies) == CallSteps(style, calls[..|replies|])
  {
    if replies != [] {
      var n := |replies| - 1;
      NoFaults(style, calls, replies[..n]);
      assert CallSteps(style, calls[..n + 1]) == CallSteps(style, calls[..n]) + [style.step(calls[n])];
    }
  }

  /** No line that says one of these was called is written like one that says what went wrong. */
  predicate Tells(style: Style, calls: seq<Call>) {
    forall i :: 0 <= i < |calls| ==> !HasPrefix(style.step(calls[i]), "  ")
  }

  predicate EachTells(style: Style, rounds: seq<Round>) {
    forall i :: 0 <= i < |rounds| ==> Tells(style, CallsOf(rounds[i].chunks))
  }

  lemma {:induction false} EarlierFault(style: Style, calls: seq<Call>, replies: seq<Reply>, i: nat)
    requires Answers(calls, replies) && i < |replies| && replies[i].failed
    requires forall k :: 0 <= k < i ==> !replies[k].failed
    ensures |LiveSteps(style, calls, replies)| > i + 1
    ensures LiveSteps(style, calls, replies)[i + 1] == "  " + style.clip(replies[i].content)
  {
    var n := |replies| - 1;
    var before := LiveSteps(style, calls, replies[..n]);
    assert LiveSteps(style, calls, replies) == before + [style.step(calls[n])] + style.Fault(replies[n]);
    if i < n {
      EarlierFault(style, calls, replies[..n], i);
      hide LiveSteps;
    } else {
      NoFaults(style, calls, replies[..n]);
      hide LiveSteps;
      assert |before| == n;
    }
  }

  lemma {:induction false} SameOrder(style: Style, calls: seq<Call>, replies: seq<Reply>)
    requires Answers(calls, replies) && |calls| == |replies| && OnlyLastFails(replies)
    ensures DrawnSteps(style, calls, replies) == LiveSteps(style, calls, replies)
  {
    if replies != [] {
      var n := |replies| - 1;
      NoFaults(style, calls, replies[..n]);
      CallStepsSnoc(style, calls, n);
      assert calls[..n + 1] == calls;
      assert [] + style.Fault(replies[n]) == style.Fault(replies[n]);
    }
  }

  lemma {:induction false} OtherOrder(style: Style, calls: seq<Call>, replies: seq<Reply>)
    requires Answers(calls, replies) && |calls| == |replies| && !OnlyLastFails(replies) && Tells(style, calls)
    ensures DrawnSteps(style, calls, replies) != LiveSteps(style, calls, replies)
  {
    var i :| 0 <= i < |replies| - 1 && replies[i].failed;
    var j := FirstFailed(replies, i);
    EarlierFault(style, calls, replies, j);
    var fault := "  " + style.clip(replies[j].content);
    assert HasPrefix(fault, "  ") by {
      assert fault[..2] == "  ";
    }
    assert LiveSteps(style, calls, replies)[j + 1] == fault;
    hide LiveSteps, Faults;
    assert DrawnSteps(style, calls, replies)[j + 1] == style.step(calls[j + 1]);
  }

  lemma {:induction false} RoundOrderExactly(style: Style, calls: seq<Call>, replies: seq<Reply>)
    requires Answers(calls, replies) && |calls| == |replies|
    ensures OnlyLastFails(replies) ==> DrawnSteps(style, calls, replies) == LiveSteps(style, calls, replies)
    ensures Tells(style, calls) && DrawnSteps(style, calls, replies) == LiveSteps(style, calls, replies) ==>
              OnlyLastFails(replies)
  {
    hide DrawnSteps, LiveSteps, Tells;
    if OnlyLastFails(replies) {
      SameOrder(style, calls, replies);
    } else if Tells(style, calls) {
      OtherOrder(style, calls, replies);
    }
  }

  function FirstFailed(replies: seq<Reply>, i: nat): (j: nat)
    requires i < |replies| && replies[i].failed
    ensures j <= i && replies[j].failed && forall k :: 0 <= k < j ==> !replies[k].failed
  {
    if replies[0].failed then 0 else 1 + FirstFailed(replies[1..], i - 1)
  }

  predicate EachOnlyLastFails(rounds: seq<Round>) {
    forall i :: 0 <= i < |rounds| ==> OnlyLastFails(rounds[i].replies)
  }

  /** The steps are drawn in the order they came when, in every round, nothing but the last call
      failed, and only then, as long as none of the calls that were made is written like a failure. */
  lemma {:induction false} OrderExactly(style: Style, rounds: seq<Round>)
    requires RoundsOk(rounds)
    ensures EachOnlyLastFails(rounds) ==> TurnDrawn(style, rounds) == TurnLive(style, rounds)
    ensures EachTells(style, rounds) && TurnDrawn(style, rounds) == TurnLive(style, rounds) ==>
              EachOnlyLastFails(rounds)
  {
    hide CallsOf, OnlyLastFails, Tells, DrawnSteps, LiveSteps;
    if rounds != [] {
      var n := |rounds| - 1;
      var last := rounds[n];
      assert RoundOk(last);
      var calls := CallsOf(last.chunks);
      OrderExactly(style, rounds[..n]);
      RoundOrderExactly(style, calls, last.replies);
      SameRoundSteps(style, calls, last.replies);
      SameLength(DrawnSteps(style, calls, last.replies), LiveSteps(style, calls, last.replies));
      AppendSame(TurnDrawn(style, rounds[..n]), DrawnSteps(style, calls, last.replies),
                 TurnLive(style, rounds[..n]), LiveSteps(style, calls, last.replies));
      assert EachOnlyLastFails(rounds) <==> EachOnlyLastFails(rounds[..n]) && OnlyLastFails(last.replies);
      assert EachTells(style, rounds) <==> EachTells(style, rounds[..n]) && Tells(style, calls);
    }
  }

  /** A call that was made with nothing. */
  function Named(id: string, name: string): Call {
    Call(id, name, map[])
  }

  /** A call by its bare name, which is how one that was made with nothing is written, and a failure
      that is short enough to be written whole. */
  const PLAIN: Style := Style((call: Call) => call.name, (text: string) => text)

  /** One round that called for two tools, of which the first failed. */
  const FIRST_FAILED := Round(
    0, [], [ToolEnd(Some(Named("1", "tables"))), ToolEnd(Some(Named("2", "indexes")))],
    [Reply("1", "tables", "no connection", true), Reply("2", "indexes", "none", false)])

  lemma {:induction false} FirstFails(style: Style, a: Call, b: Call, x: Reply, y: Reply)
    requires Answers([a, b], [x, y]) && x.failed && !y.failed
    ensures LiveSteps(style, [a, b], [x, y]) == [style.step(a), "  " + style.clip(x.content), style.step(b)]
    ensures DrawnSteps(style, [a, b], [x, y]) == [style.step(a), style.step(b), "  " + style.clip(x.content)]
  {
    var fault: seq<string> := ["  " + style.clip(x.content)];
    assert [x, y][..1] == [x] && [x][..0] == [];
    assert style.Fault(x) == fault && style.Fault(y) == [];
    assert LiveSteps(style, [a, b], []) == [] && Faults(style, []) == [];
    assert LiveSteps(style, [a, b], [x]) == [style.step(a)] + fault;
    assert Faults(style, [x]) == fault;
    assert CallSteps(style, [a, b]) == [style.step(a), style.step(b)];
  }

  lemma {:induction false} TwoCalls(a: Call, b: Call)
    ensures CallsOf([ToolEnd(Some(a)), ToolEnd(Some(b))]) == [a, b]
  {
    var chunks := [ToolEnd(Some(a)), ToolEnd(Some(b))];
    assert chunks[..1] == [ToolEnd(Some(a))] && chunks[..1][..0] == [];
    assert CallsOf(chunks[..1]) == [a];
  }

  lemma {:induction false} OneRound(style: Style, round: Round)
    requires RoundOk(round)
    ensures TurnLive(style, [round]) == LiveSteps(style, CallsOf(round.chunks), round.replies)
    ensures TurnDrawn(style, [round]) == DrawnSteps(style, CallsOf(round.chunks), round.replies)
  {
    assert [round][..0] == [];
  }

  lemma NotAFault(line: string)
    requires line != "" && line[0] != ' '
    ensures !HasPrefix(line, "  ")
  {}

  /** There the failure comes before the second call on the screen, and after it when drawn again. */
  lemma {:induction false} OrderLost()
    ensures RoundsOk([FIRST_FAILED]) && EachTells(PLAIN, [FIRST_FAILED])
    ensures TurnLive(PLAIN, [FIRST_FAILED]) == ["tables", "  no connection", "indexes"]
    ensures TurnDrawn(PLAIN, [FIRST_FAILED]) == ["tables", "indexes", "  no connection"]
  {
    var a, b := Named("1", "tables"), Named("2", "indexes");
    TwoCalls(a, b);
    assert FIRST_FAILED.chunks == [ToolEnd(Some(a)), ToolEnd(Some(b))];
    FirstFails(PLAIN, a, b, FIRST_FAILED.replies[0], FIRST_FAILED.replies[1]);
    assert FIRST_FAILED.replies == [FIRST_FAILED.replies[0], FIRST_FAILED.replies[1]];
    assert PLAIN.step(a) == "tables" && PLAIN.step(b) == "indexes";
    assert "  " + PLAIN.clip("no connection") == "  no connection";
    NotAFault("tables");
    NotAFault("indexes");
    OneRound(PLAIN, FIRST_FAILED);
  }

  /** When no round makes two calls, the whole of what is drawn is what was on the screen. */
  lemma {:induction false} ReplayIsLiveOneByOne(style: Style, earlier: seq<Message>, question: string,
                                                 rounds: seq<Round>, limit: nat, stop: Stop)
    requires Ended(rounds, limit, stop) && Untroubled(rounds)
    requires forall i :: 0 <= i < |rounds| ==> |CallsOf(rounds[i].chunks)| <= 1
    ensures
      var drawn := Closed(Drawn(style, earlier + [Asking(question)] + MessagesOf(rounds)));
      |drawn| == |Drawn(style, earlier)| + 1 && drawn[|drawn| - 1] == Live(style, question, rounds, stop)
  {
    forall i | 0 <= i < |rounds|
      ensures OnlyLastFails(rounds[i].replies)
    {
      assert RoundOk(rounds[i]);
    }
    OrderExactly(style, rounds);
    hide Drawn, Live, TurnDrawn, TurnLive;
    ReplayIsLive(style, earlier, question, rounds, limit, stop);
  }

  lemma SameLength(a: seq<string>, b: seq<string>)
    requires multiset(a) == multiset(b)
    ensures |a| == |b|
  {
    assert |multiset(a)| == |a| && |multiset(b)| == |b|;
  }

  lemma AppendSame(a: seq<string>, x: seq<string>, b: seq<string>, y: seq<string>)
    requires |x| == |y|
    ensures a + x == b + y <==> a == b && x == y
  {
    if a + x == b + y {
      assert |a| == |b|;
      assert a == (a + x)[..|a|] && b == (b + y)[..|b|];
      assert x == (a + x)[|a|..] && y == (b + y)[|b|..];
    }
  }
}
