/** One conversation with a model: it asks, runs the tools the model asks for, and asks again
    with what they returned. What the client, the tools, the person and a cancellation do is
    left open: each may do anything at every point. */
module Agents {
  import opened Options
  import opened Strings
  import opened Conversation

  const DEFAULT_ROUNDS: nat := 8

  // ---------------------------------------------------------------------------------------
  // What leaves the machine, and by whose leave
  // ---------------------------------------------------------------------------------------

  /** What is seen from outside: a question whether some classes may be sent, with its answer,
      and a request with the conversation it carries. */
  datatype Act = Asked(classes: seq<Class>, granted: bool) | Chatted(messages: seq<Message>)

  /** The classes that were granted. */
  function Granted(acts: seq<Act>): set<Class> {
    if acts == [] then {}
    else
      var last := acts[|acts| - 1];
      Granted(acts[..|acts| - 1]) + if last.Asked? && last.granted then set c | c in last.classes else {}
  }

  /** One act, after some others, keeps to what was granted: a request carries nothing that was
      not, and nothing is asked for that already was. */
  predicate Allowed(before: seq<Act>, act: Act) {
    match act
    case Chatted(messages) => Carries(messages) <= Granted(before)
    case Asked(classes, _) => classes != [] && forall c :: c in classes ==> c !in Granted(before)
  }

  predicate Gated(acts: seq<Act>) {
    forall i :: 0 <= i < |acts| ==> Allowed(acts[..i], acts[i])
  }

  lemma GatedSnoc(acts: seq<Act>, act: Act)
    requires Gated(acts) && Allowed(acts, act)
    ensures Gated(acts + [act])
  {
    var all := acts + [act];
    forall i | 0 <= i < |all|
      ensures Allowed(all[..i], all[i])
    {
      assert all[..i] == acts[..i];
      assert acts[..|acts|] == acts;
      assert i < |acts| ==> Allowed(acts[..i], acts[i]);
    }
  }

  lemma {:induction false} GrantedSnoc(acts: seq<Act>, act: Act)
    ensures Granted(acts + [act]) == Granted(acts) + if act.Asked? && act.granted then set c | c in act.classes else {}
  {}

  lemma {:induction false} GrantedGrows(acts: seq<Act>, i: nat)
    requires i <= |acts|
    ensures Granted(acts[..i]) <= Granted(acts)
  {
    if i < |acts| {
      GrantedGrows(acts[..|acts| - 1], i);
      assert acts[..|acts| - 1][..i] == acts[..i];
    } else {
      assert acts[..i] == acts;
    }
  }

  /** A class that was granted once is never asked for again. */
  lemma NeverAskedAgain(acts: seq<Act>, i: nat, j: nat, class_: Class)
    requires Gated(acts) && i < j < |acts|
    requires acts[i].Asked? && acts[i].granted && class_ in acts[i].classes && acts[j].Asked?
    ensures class_ !in acts[j].classes
  {
    assert acts[..i + 1] == acts[..i] + [acts[i]];
    GrantedSnoc(acts[..i], acts[i]);
    GrantedGrows(acts[..j], i + 1);
    assert acts[..j][..i + 1] == acts[..i + 1];
    assert Allowed(acts[..j], acts[j]);
  }

  /** Before this act, a question that held the class was granted. */
  predicate AskedFor(acts: seq<Act>, i: int, class_: Class) {
    exists k :: 0 <= k < i && k < |acts| && acts[k].Asked? && acts[k].granted && class_ in acts[k].classes
  }

  /** Before every request someone granted a question that held questions; rows too, when it carries
      anything a `run_select` returned; and the schema too, when it carries what any other tool did. */
  predicate Consented(acts: seq<Act>) {
    forall i :: 0 <= i < |acts| && acts[i].Chatted? ==> ConsentedAt(acts, i, acts[i].messages)
  }

  predicate ConsentedAt(acts: seq<Act>, i: int, messages: seq<Message>) {
    && AskedFor(acts, i, Question)
    && forall j :: 0 <= j < |messages| && messages[j].result.Some? ==>
         AskedFor(acts, i, if messages[j].result.value.name == "run_select" then Rows else Schema)
  }

  lemma {:induction false} GrantedIs(acts: seq<Act>, class_: Class)
    ensures class_ in Granted(acts) <==> AskedFor(acts, |acts|, class_)
  {
    if acts != [] {
      var n := |acts| - 1;
      GrantedIs(acts[..n], class_);
      assert acts[n].Asked? && acts[n].granted && class_ in acts[n].classes ==> AskedFor(acts, |acts|, class_);
      if AskedFor(acts[..n], n, class_) {
        var k :| 0 <= k < n && acts[..n][k].Asked? && acts[..n][k].granted && class_ in acts[..n][k].classes;
        assert acts[k] == acts[..n][k];
      }
      if AskedFor(acts, |acts|, class_) {
        var k :| 0 <= k < |acts| && acts[k].Asked? && acts[k].granted && class_ in acts[k].classes;
        assert k < n ==> acts[..n][k] == acts[k];
      }
    }
  }

  /** Keeping to what was granted is having been granted all that is carried. */
  lemma {:induction false} GatedConsents(acts: seq<Act>)
    requires Gated(acts)
    ensures Consented(acts)
  {
    hide Granted, Carries;
    forall i | 0 <= i < |acts| && acts[i].Chatted?
      ensures ConsentedAt(acts, i, acts[i].messages)
    {
      var messages := acts[i].messages;
      assert Allowed(acts[..i], acts[i]);
      forall class_ | class_ in Carries(messages)
        ensures AskedFor(acts, i, class_)
      {
        GrantedIs(acts[..i], class_);
        var k :| 0 <= k < i && acts[..i][k].Asked? && acts[..i][k].granted && class_ in acts[..i][k].classes;
        assert acts[k] == acts[..i][k];
      }
      CarriesIs(messages);
    }
  }

  /** The oldest result that still said something is the one that was emptied. */
  predicate OldestEmptied(before: seq<Message>, after: seq<Message>, i: int) {
    && 0 <= i < |before| && Undropped(before[i])
    && (forall j :: 0 <= j < i ==> !Undropped(before[j]))
    && var was, reply := before[i], before[i].result.value;
       var emptied := Reply(reply.id, reply.name, "a result that was here has been dropped to make room", reply.failed);
       after == before[i := Message(was.role, was.content, was.reasoning, was.calls, Some(emptied))]
  }

  /** What a client does with a request. */
  datatype Chatting = NoStream(error: Error) | Streaming(chunks: seq<Chunk>, failure: Option<Error>)

  datatype Answer = Answer(message: Message, stop: Stop)

  /** What some rounds leave of a conversation: all they said, but for results that were emptied,
      and all of it when no request was too long. */
  predicate Leaves(start: seq<Message>, turn: seq<Round>, messages: seq<Message>) {
    && Compacted(start + MessagesOf(turn), messages)
    && (Untroubled(turn) ==> messages == start + MessagesOf(turn))
  }

  /** What was said and shown, after some rounds that all called for something. */
  predicate Took(said: seq<Message>, shown: seq<Event>, turn: seq<Round>, messages: seq<Message>, sent: seq<Event>) {
    RoundsOk(turn) && AllCall(turn) && Leaves(said, turn, messages) && sent == shown + EventsOf(turn)
  }

  /** What was said and shown, after a turn that ran to its end. */
  predicate Finishes(limit: nat, said: seq<Message>, shown: seq<Event>, turn: seq<Round>, stop: Stop,
                     messages: seq<Message>, sent: seq<Event>) {
    && Ended(turn, limit, stop) && Leaves(said, turn, messages)
    && sent == shown + EventsOf(turn) + [DoneEvent(stop)]
  }

  /** What came of a request: all of its stream when that ended well, the failure it met, or a
      cancellation on the way. */
  predicate Streamed(chatting: Chatting, chunks: seq<Chunk>, r: Outcome<Answer, Error>) {
    match r
    case Ok(_) => chatting.Streaming? && chatting.failure == None && chunks == chatting.chunks
    case Err(error) =>
      || (chatting.NoStream? && error == chatting.error)
      || (chatting.Streaming? && chatting.failure == Some(error))
      || (chatting.Streaming? && error == Cancelled && chunks < chatting.chunks)
  }

  /** The conversation did not fit. */
  predicate Overflowed(error: Error) {
    error.Failed? && error.reason == Some(ContextOverflow)
  }

  /** A request that did not fit, whether it was refused or broke off. */
  predicate TooLong(chatting: Chatting) {
    match chatting
    case NoStream(error) => Overflowed(error)
    case Streaming(_, failure) => failure.Some? && Overflowed(failure.value)
  }

  predicate Words(events: seq<Event>) {
    forall i :: 0 <= i < |events| ==> events[i].TextEvent? || events[i].ReasoningEvent?
  }

  class Agent {
    const consenting: bool
    const local: bool
    const rounds: nat
    var messages: seq<Message>
    var approved: set<Class>

    ghost var sent: seq<Event>
    ghost var outbound: seq<Act>

    constructor (consenting: bool, local: bool)
      ensures this.consenting == consenting && this.local == local && rounds == DEFAULT_ROUNDS
      ensures Valid() && messages == [] && sent == [] && outbound == []
    {
      this.consenting, this.local, rounds := consenting, local, DEFAULT_ROUNDS;
      messages, approved, sent, outbound := [], {}, [], [];
    }

    /** What was approved is what was granted, and everything that ever left kept to it. */
    ghost predicate Valid()
      reads this`approved, this`outbound
      ensures Valid() ==> rounds >= 1
    {
      && rounds >= 1
      && approved == Granted(outbound)
      && (consenting && !local ==> Gated(outbound))
    }

    ghost predicate Permitted()
      reads this`approved, this`messages
    {
      consenting && !local ==> Carries(messages) <= approved
    }

    method Resume(said: seq<Message>)
      requires Valid()
      modifies this`messages
      ensures Valid() && messages == said
    {
      messages := said;
    }

    /** Puts an event out, unless the turn was cancelled. */
    method Send(event: Event) returns (error: Option<Error>)
      modifies this`sent
      ensures error.None? ==> sent == old(sent) + [event]
      ensures error.Some? ==> sent == old(sent) && error.value == Cancelled
    {
      var cancelled: bool := *;
      if cancelled {
        return Some(Cancelled);
      }
      sent := sent + [event];
      return None;
    }

    method Ask(question: string) returns (error: Option<Error>, ghost turn: seq<Round>, ghost stop: Stop)
      requires Valid()
      modifies this
      ensures Valid()
      ensures TrimSpace(question) == "" ==>
                error == Some(Empty) && messages == old(messages) && sent == old(sent) && outbound == old(outbound)
      ensures error.None? ==>
                && Ended(turn, rounds, stop)
                && sent == old(sent) + EventsOf(turn) + [DoneEvent(stop)]
                && Leaves(old(messages) + [Asking(question)], turn, messages)
      ensures error.None? && Paired(old(messages)) ==> Paired(messages)
      ensures error.Some? ==> GoesOn(old(sent), sent)
      ensures consenting && !local ==> Consented(outbound)
    {
      turn, stop := [], EndTurn;
      if consenting && !local {
        GatedConsents(outbound);
      }
      if TrimSpace(question) == "" {
        return Some(Empty), turn, stop;
      }
      messages := messages + [Asking(question)];
      error, turn, stop := Run();
      if consenting && !local {
        GatedConsents(outbound);
      }
      if error.None? && Paired(old(messages)) {
        PairedTurn(old(messages), question, turn, messages);
      }
    }

    /** The rounds of a turn, as many as there is room for. */
    method Run() returns (error: Option<Error>, ghost turn: seq<Round>, ghost stop: Stop)
      requires Valid()
      modifies this
      ensures Valid()
      ensures error.None? ==> Finishes(rounds, old(messages), old(sent), turn, stop, messages, sent)
      ensures error.Some? ==> GoesOn(old(sent), sent)
    {
      hide Took, Finishes, Leaves, GoesOn, Compacted, Words, Answers, Valid, Permitted;
      hide Shown, Built, StopOf, CallsOf, Worked, RepliesAs;
      turn, stop := [], EndTurn;
      NothingYet(messages, sent);
      for round := 0 to rounds
        invariant Valid() && |turn| == round < rounds
        invariant Took(old(messages), old(sent), turn, messages, sent)
      {
        ghost var before, shown := messages, sent;
        TookGoesOn(old(messages), old(sent), turn, messages, sent);
        error := Permit();
        if error.Some? {
          return;
        }
        var answer: Outcome<Answer, Error>;
        ghost var retries, aborted, chunks, tries;
        answer, retries, aborted, chunks, tries := Turn();
        GoesOnTwice(old(sent), shown, sent);
        if answer.Err? {
          return Some(answer.error), turn, stop;
        }
        ghost var middle, told := messages, sent;
        CallsAre(chunks);
        messages := messages + [answer.value.message];
        if |answer.value.message.calls| == 0 {
          ghost var now := Round(retries, aborted, chunks, []);
          NothingWorked(CallsOf(chunks));
          RoundTook(rounds, old(messages), old(sent), turn, before, shown, now, middle);
          assert messages == Left(middle, now) && sent == Told(shown, now);
          turn, stop := turn + [now], answer.value.stop;
          error := Send(DoneEvent(answer.value.stop));
          return;
        }
        ghost var replies;
        error, replies := Work(answer.value.message.calls);
        GoesOnTwice(old(sent), told, sent);
        if error.Some? {
          return;
        }
        ghost var now := Round(retries, aborted, chunks, replies);
        RoundTook(rounds, old(messages), old(sent), turn, before, shown, now, middle);
        turn := turn + [now];
        if round == rounds - 1 {
          stop := MaxTokens;
          error := Send(DoneEvent(MaxTokens));
          return;
        }
      }
    }

    /** Asks for leave when a turn would leave the machine, and only for the classes that have
        not been approved already. */
    method Permit() returns (error: Option<Error>)
      requires Valid()
      modifies this`approved, this`outbound
      ensures Valid()
      ensures error.None? ==> Permitted()
      ensures !consenting || local || Carries(messages) <= old(approved) ==>
                error == None && approved == old(approved) && outbound == old(outbound)
      ensures consenting && !local && !(Carries(messages) <= old(approved)) ==>
                exists classes, granted :: PermitAsked(old(outbound), old(approved), classes, granted, error)
    {
      hide Carries, Gated, Granted;
      if !consenting || local {
        return None;
      }
      var classes := Classes();
      var unasked: seq<Class> := [];
      for i := 0 to |classes|
        invariant forall c :: c in unasked <==> c in classes[..i] && c !in approved
      {
        if classes[i] !in approved {
          unasked := unasked + [classes[i]];
        }
      }
      assert classes[..|classes|] == classes;
      if |unasked| == 0 {
        return None;
      }
      assert unasked[0] in Carries(messages) && unasked[0] !in approved;
      var granted: bool := *;
      GatedSnoc(outbound, Asked(unasked, granted));
      GrantedSnoc(outbound, Asked(unasked, granted));
      outbound := outbound + [Asked(unasked, granted)];
      if !granted {
        error := Some(Refused("you did not allow this to be sent"));
        assert PermitAsked(old(outbound), old(approved), unasked, granted, error);
        return;
      }
      approved := approved + set c | c in unasked;
      error := None;
      assert PermitAsked(old(outbound), old(approved), unasked, granted, error);
    }

    /** One question for exactly what the conversation carries and was not approved, and what its
        answer came to. */
    ghost predicate PermitAsked(acts: seq<Act>, before: set<Class>, classes: seq<Class>, granted: bool,
                                error: Option<Error>)
      reads this
    {
      && outbound == acts + [Asked(classes, granted)]
      && (forall c: Class :: c in classes <==> c in Carries(messages) && c !in before)
      && (if granted then error == None && (forall c: Class :: c in approved <==> c in before || c in classes)
          else error.Some? && error.value.Refused? && approved == before)
    }

    /** What the conversation is carrying, in the order it is asked about: the question always, the
        schema when a tool other than `run_select` answered in it, and rows when that one did. */
    method Classes() returns (ordered: seq<Class>)
      ensures forall c: Class :: c in ordered <==> c in Carries(messages)
      ensures Question in ordered
      ensures Schema in ordered <==> exists i ::
                0 <= i < |messages| && messages[i].result.Some? && messages[i].result.value.name != "run_select"
      ensures Rows in ordered <==> exists i ::
                0 <= i < |messages| && messages[i].result.Some? && messages[i].result.value.name == "run_select"
      ensures ordered == [Question] + (if Schema in ordered then [Schema] else []) +
                         if Rows in ordered then [Rows] else []
    {
      CarriesIs(messages);
      var found: set<Class> := {Question};
      for i := 0 to |messages|
        invariant found == Carries(messages[..i]) && Question in found
      {
        assert messages[..i + 1][..i] == messages[..i];
        if messages[i].result.None? {
          continue;
        }
        if messages[i].result.value.name == "run_select" {
          found := found + {Rows};
          continue;
        }
        found := found + {Schema};
      }
      assert messages[..|messages|] == messages;
      ordered := [];
      if Question in found {
        ordered := ordered + [Question];
      }
      if Schema in found {
        ordered := ordered + [Schema];
      }
      if Rows in found {
        ordered := ordered + [Rows];
      }
      forall c: Class
        ensures c in ordered <==> c in found
      {
        match c
        case Question =>
        case Schema =>
        case Rows =>
      }
    }

    /** One request and the stream it produces, asked again with less in it each time the
        conversation does not fit. */
    method Turn()
      returns (r: Outcome<Answer, Error>, ghost retries: nat, ghost aborted: seq<Event>, ghost chunks: seq<Chunk>,
               ghost tries: seq<Chatting>)
      requires Valid() && Permitted()
      modifies this`messages, this`sent, this`outbound
      ensures Valid() && Permitted()
      ensures Compacted(old(messages), messages)
      ensures GoesOn(old(sent), sent)
      ensures r.Ok? ==>
                && sent == old(sent) + aborted + Shown(chunks) && Words(aborted)
                && r.value == Answer(Built(chunks), StopOf(chunks))
                && (retries == 0 ==> aborted == [] && messages == old(messages))
      ensures |outbound| == |old(outbound)| + retries + 1
      ensures |tries| == retries + 1 && Streamed(tries[retries], chunks, r)
      ensures forall k :: 0 <= k < retries ==> TooLong(tries[k])
      ensures r.Err? && Overflowed(r.error) ==> forall i :: 0 <= i < |messages| ==> !Undropped(messages[i])
    {
      hide Shown, Built, StopOf, Granted, Gated, Carries, Compacted, CountUndropped;
      CompactedSame(messages, sent);
      retries, aborted, chunks, tries := 0, [], [], [];
      while true
        invariant Valid() && Permitted()
        invariant Compacted(old(messages), messages)
        invariant sent == old(sent) + aborted && Words(aborted)
        invariant retries == 0 ==> aborted == [] && messages == old(messages)
        invariant |tries| == retries && |outbound| == |old(outbound)| + retries
        invariant forall k :: 0 <= k < retries ==> TooLong(tries[k])
        decreases CountUndropped(messages)
      {
        ghost var chatting;
        r, chunks, chatting := Stream();
        tries := tries + [chatting];
        if r.Ok? {
          ShownIsWords(chunks);
          return;
        }
        if r.error.Failed? && r.error.reason == Some(ContextOverflow) {
          ghost var before := messages;
          var made := Compact();
          if !made {
            return;
          }
          CompactedTwice(old(messages), before, messages);
          CompactedCarries(before, messages);
        } else {
          return;
        }
        retries, aborted := retries + 1, sent[|old(sent)|..];
      }
    }

    /** Whatever the client makes of a request: no stream at all, or pieces that end well or
        badly after any number of them. */
    method Chat() returns (chatting: Chatting)
    {
      chatting := *;
    }

    method Stream() returns (r: Outcome<Answer, Error>, ghost chunks: seq<Chunk>, ghost chatting: Chatting)
      requires Valid() && Permitted()
      modifies this`sent, this`outbound
      ensures Valid() && outbound == old(outbound) + [Chatted(messages)]
      ensures old(sent) <= sent && Words(sent[|old(sent)|..])
      ensures r.Ok? ==> sent == old(sent) + Shown(chunks) && r.value == Answer(Built(chunks), StopOf(chunks))
      ensures Streamed(chatting, chunks, r)
    {
      hide TextOf, ReasoningOf, CallsOf, StopOf, Shown, Granted, Gated, Carries;
      var made := Chat();
      chunks, chatting := [], made;
      Nothing();
      if consenting && !local {
        GatedSnoc(outbound, Chatted(messages));
      }
      GrantedSnoc(outbound, Chatted(messages));
      outbound := outbound + [Chatted(messages)];
      if made.NoStream? {
        return Err(made.error), chunks, chatting;
      }
      var built := Answer(Message(Assistant, "", "", [], None), EndTurn);
      var text := "";
      for i := 0 to |made.chunks|
        invariant Valid() && outbound == old(outbound) + [Chatted(messages)]
        invariant chunks == made.chunks[..i]
        invariant sent == old(sent) + Shown(chunks)
        invariant text == TextOf(chunks) && built == Answer(Built(chunks).(content := ""), StopOf(chunks))
        invariant Words(Shown(chunks))
      {
        var chunk := made.chunks[i];
        var error: Option<Error> := None;
        OneMore(made.chunks, i);
        match chunk {
          case TextDelta(said) =>
            text := text + said;
            error := Send(TextEvent(said));
          case ReasoningDelta(said) =>
            built := built.(message := built.message.(reasoning := built.message.reasoning + said));
            error := Send(ReasoningEvent(said));
          case ToolEnd(tool) =>
            if tool.Some? {
              built := built.(message := built.message.(calls := built.message.calls + [tool.value]));
            }
          case Done(stop) =>
            built := built.(stop := stop);
          case OtherChunk =>
        }
        if error.Some? {
          return Err(error.value), chunks, chatting;
        }
        chunks := made.chunks[..i + 1];
      }
      if made.failure.Some? {
        return Err(made.failure.value), chunks, chatting;
      }
      return Ok(built.(message := built.message.(content := text))), chunks, chatting;
    }

    /** Runs the tools the model asked for, in the order it asked. */
    method Work(calls: seq<Call>) returns (error: Option<Error>, ghost replies: seq<Reply>)
      requires Valid()
      modifies this`messages, this`sent
      ensures Valid()
      ensures Answers(calls, replies) && messages == old(messages) + RepliesAs(replies)
      ensures error.None? ==> |replies| == |calls| && sent == old(sent) + Worked(calls, replies)
      ensures error.Some? ==> error.value == Cancelled
      ensures GoesOn(old(sent), sent)
    {
      hide Worked, Granted, Gated;
      error, replies := None, [];
      NothingWorked(calls);
      for i := 0 to |calls|
        invariant Valid() && error.None? && |replies| == i && Answers(calls, replies)
        invariant messages == old(messages) + RepliesAs(replies)
        invariant sent == old(sent) + Worked(calls, replies)
      {
        WorkedIsCalls(calls, replies);
        var cancelled: bool := *;
        if cancelled {
          return Some(Cancelled), replies;
        }
        error := Send(CallEvent(calls[i]));
        if error.Some? {
          return;
        }
        var result := CallTool(calls[i]);
        WorkedMore(calls, replies, result);
        messages := messages + [Answering(result)];
        replies := replies + [result];
        error := Send(ResultEvent(result));
        if error.Some? {
          return;
        }
      }
      WorkedIsCalls(calls, replies);
    }

    /** A tool answers under the identifier and the name it was called by, whatever it says. */
    method CallTool(call: Call) returns (result: Reply)
      ensures result.id == call.id && result.name == call.name
    {
      var content: string := *;
      var failed: bool := *;
      return Reply(call.id, call.name, content, failed);
    }

    /** Makes room by emptying the oldest tool result that still says something. */
    method Compact() returns (made: bool)
      modifies this`messages
      ensures Compacted(old(messages), messages)
      ensures made ==> CountUndropped(messages) == CountUndropped(old(messages)) - 1
      ensures made ==> exists i :: OldestEmptied(old(messages), messages, i)
      ensures !made ==> messages == old(messages) && forall i :: 0 <= i < |messages| ==> !Undropped(messages[i])
    {
      for i := 0 to |messages|
        invariant messages == old(messages)
        invariant forall j :: 0 <= j < i ==> !Undropped(messages[j])
      {
        var message := messages[i];
        if message.result.None? || message.result.value.content == DROPPED {
          continue;
        }
        var dropped := message.result.value.(content := DROPPED);
        CountUpdate(messages, i, message.(result := Some(dropped)));
        messages := messages[i := message.(result := Some(dropped))];
        assert OldestEmptied(old(messages), messages, i);
        return true;
      }
      return false;
    }
  }

  lemma NothingYet(messages: seq<Message>, sent: seq<Event>)
    ensures Took(messages, sent, [], messages, sent)
  {}

  lemma {:induction false} CallsAre(chunks: seq<Chunk>)
    ensures Built(chunks).calls == CallsOf(chunks)
  {}

  lemma {:induction false} TookGoesOn(said: seq<Message>, shown: seq<Event>, turn: seq<Round>,
                                       messages: seq<Message>, sent: seq<Event>)
    requires Took(said, shown, turn, messages, sent)
    ensures GoesOn(shown, sent)
  {
    NoneDone(turn);
    assert sent[|shown|..] == EventsOf(turn);
  }

  /** What one more round leaves and shows, on a conversation in which room may have been made. */
  function Left(middle: seq<Message>, now: Round): seq<Message> {
    middle + [Built(now.chunks)] + RepliesAs(now.replies)
  }

  function Told(shown: seq<Event>, now: Round): seq<Event>
    requires Answers(CallsOf(now.chunks), now.replies)
  {
    shown + now.aborted + Shown(now.chunks) + Worked(CallsOf(now.chunks), now.replies)
  }

  /** One more round: when it called for nothing, or was the last there was room for, the turn is over. */
  lemma {:induction false} RoundTook(limit: nat, said: seq<Message>, shown: seq<Event>, turn: seq<Round>,
                                      before: seq<Message>, sent: seq<Event>, now: Round, middle: seq<Message>)
    requires Took(said, shown, turn, before, sent) && |turn| < limit && Compacted(before, middle)
    requires now.retries == 0 ==> middle == before
    requires Answers(CallsOf(now.chunks), now.replies) && |now.replies| == |CallsOf(now.chunks)|
    requires Words(now.aborted) && (now.retries == 0 ==> now.aborted == [])
    ensures CallsOf(now.chunks) != [] ==> Took(said, shown, turn + [now], Left(middle, now), Told(sent, now))
    ensures CallsOf(now.chunks) == [] ==>
              var stop := StopOf(now.chunks);
              Finishes(limit, said, shown, turn + [now], stop, Left(middle, now), Told(sent, now) + [DoneEvent(stop)])
    ensures CallsOf(now.chunks) != [] && |turn| + 1 == limit ==>
              Finishes(limit, said, shown, turn + [now], MaxTokens, Left(middle, now),
                       Told(sent, now) + [DoneEvent(MaxTokens)])
  {
    RoundFollows(said, shown, turn, before, sent, now, middle);
    EndedIs(turn, now, limit, StopOf(now.chunks));
    EndedIs(turn, now, limit, MaxTokens);
    hide RoundsOk, AllCall, Leaves, Left, Told, EventsOf, Answers, Words, Compacted, CallsOf, StopOf, Ended;
  }

  lemma {:induction false} RoundFollows(said: seq<Message>, shown: seq<Event>, turn: seq<Round>, before: seq<Message>,
                                         sent: seq<Event>, now: Round, middle: seq<Message>)
    requires Took(said, shown, turn, before, sent) && Compacted(before, middle)
    requires now.retries == 0 ==> middle == before
    requires Answers(CallsOf(now.chunks), now.replies) && |now.replies| == |CallsOf(now.chunks)|
    requires Words(now.aborted) && (now.retries == 0 ==> now.aborted == [])
    ensures RoundsOk(turn + [now]) && Leaves(said, turn + [now], Left(middle, now))
    ensures Told(sent, now) == shown + EventsOf(turn + [now])
  {
    assert RoundsOk(turn) && Leaves(said, turn, before) && sent == shown + EventsOf(turn);
    hide *;
    RoundIs(now, middle, sent);
    RoundKept(said, turn, now, before, middle);
    RoundShown(turn, now);
    Associates(shown, EventsOf(turn), RoundEvents(now));
  }

  lemma Associates(a: seq<Event>, b: seq<Event>, c: seq<Event>)
    ensures (a + b) + c == a + (b + c)
  {}

  lemma {:induction false} RoundIs(now: Round, middle: seq<Message>, sent: seq<Event>)
    requires Answers(CallsOf(now.chunks), now.replies) && |now.replies| == |CallsOf(now.chunks)|
    requires Words(now.aborted) && (now.retries == 0 ==> now.aborted == [])
    ensures RoundOk(now) && Left(middle, now) == middle + RoundMessages(now)
    ensures Told(sent, now) == sent + RoundEvents(now)
  {
    hide CallsOf, Built, Shown, Worked;
    assert Left(middle, now) == middle + RoundMessages(now);
  }

  lemma EndedIs(turn: seq<Round>, now: Round, limit: nat, stop: Stop)
    requires AllCall(turn) && RoundsOk(turn + [now]) && |turn| < limit
    ensures CallsOf(now.chunks) == [] && stop == StopOf(now.chunks) ==> Ended(turn + [now], limit, stop)
    ensures CallsOf(now.chunks) != [] ==> AllCall(turn + [now])
    ensures CallsOf(now.chunks) != [] && |turn| + 1 == limit && stop == MaxTokens ==> Ended(turn + [now], limit, stop)
  {
    hide RoundsOk, CallsOf, StopOf;
    assert (turn + [now])[..|turn|] == turn;
  }

  lemma RoundKept(start: seq<Message>, turn: seq<Round>, now: Round, before: seq<Message>, middle: seq<Message>)
    requires Leaves(start, turn, before) && Compacted(before, middle)
    requires now.retries == 0 ==> middle == before
    ensures Leaves(start, turn + [now], middle + RoundMessages(now))
  {
    hide Compacted, RoundMessages;
    var all := turn + [now];
    assert all[..|turn|] == turn && all[|turn|] == now;
    assert Untroubled(all) ==> Untroubled(turn) && now.retries == 0 by {
      assert forall i :: 0 <= i < |turn| ==> all[i] == turn[i];
    }
    assert start + MessagesOf(all) == (start + MessagesOf(turn)) + RoundMessages(now);
    CompactedTwice(start + MessagesOf(turn), before, middle);
    CompactedAppend(start + MessagesOf(turn), middle, RoundMessages(now));
  }

  lemma {:induction false} RoundShown(turn: seq<Round>, now: Round)
    requires RoundsOk(turn) && RoundOk(now)
    ensures RoundsOk(turn + [now]) && EventsOf(turn + [now]) == EventsOf(turn) + RoundEvents(now)
  {
    hide RoundOk, RoundEvents;
    assert (turn + [now])[..|turn|] == turn;
  }

  lemma CompactedSame(messages: seq<Message>, sent: seq<Event>)
    ensures Compacted(messages, messages) && GoesOn(sent, sent)
  {}

  /** What one more piece of a stream adds. */
  lemma OneMore(chunks: seq<Chunk>, i: nat)
    requires i < |chunks|
    ensures
      var before, after := chunks[..i], chunks[..i + 1];
      && TextOf(after) == TextOf(before) + (if chunks[i].TextDelta? then chunks[i].text else "")
      && ReasoningOf(after) == ReasoningOf(before) + (if chunks[i].ReasoningDelta? then chunks[i].text else "")
      && CallsOf(after) == CallsOf(before) +
           (if chunks[i].ToolEnd? && chunks[i].tool.Some? then [chunks[i].tool.value] else [])
      && StopOf(after) == (if chunks[i].Done? then chunks[i].stop else StopOf(before))
      && Shown(after) == Shown(before) + (match chunks[i]
                                          case TextDelta(t) => [TextEvent(t)]
                                          case ReasoningDelta(t) => [ReasoningEvent(t)]
                                          case _ => [])
  {
    assert chunks[..i + 1][..i] == chunks[..i];
  }

  lemma {:induction false} NothingWorked(calls: seq<Call>)
    ensures Answers(calls, []) && Worked(calls, []) == [] && RepliesAs([]) == []
  {}

  lemma {:induction false} WorkedMore(calls: seq<Call>, replies: seq<Reply>, reply: Reply)
    requires Answers(calls, replies) && |replies| < |calls|
    requires reply.id == calls[|replies|].id && reply.name == calls[|replies|].name
    ensures Answers(calls, replies + [reply])
    ensures Worked(calls, replies + [reply]) ==
            Worked(calls, replies) + [CallEvent(calls[|replies|]), ResultEvent(reply)]
    ensures RepliesAs(replies + [reply]) == RepliesAs(replies) + [Answering(reply)]
  {}

  /** After a turn that ran to its end, every call is followed by its result. */
  lemma {:induction false} PairedTurn(start: seq<Message>, question: string, turn: seq<Round>, messages: seq<Message>)
    requires Paired(start) && RoundsOk(turn) && Compacted(start + [Asking(question)] + MessagesOf(turn), messages)
    ensures Paired(messages)
  {
    assert Paired([Asking(question)]);
    PairedAppend(start, [Asking(question)]);
    RoundsPaired(turn);
    PairedAppend(start + [Asking(question)], MessagesOf(turn));
    CompactedPaired(start + [Asking(question)] + MessagesOf(turn), messages);
  }
}
