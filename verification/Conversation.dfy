/** What is said in a conversation with a model, and what a caller sees of it. */
module Conversation {
  import opened Options

  datatype Role = User | Assistant | Tool

  datatype Call = Call(id: string, name: string, arguments: map<string, string>)

  datatype Reply = Reply(id: string, name: string, content: string, failed: bool)

  datatype Message = Message(role: Role, content: string, reasoning: string, calls: seq<Call>, result: Option<Reply>)

  /** The kinds of thing a request would carry. */
  datatype Class = Question | Schema | Rows

  datatype Stop = EndTurn | MaxTokens | OtherStop(name: string)

  datatype Event =
    | TextEvent(text: string)
    | ReasoningEvent(text: string)
    | CallEvent(call: Call)
    | ResultEvent(reply: Reply)
    | DoneEvent(stop: Stop)

  /** One piece of a stream; `OtherChunk` is the pieces that only mark where others begin. */
  datatype Chunk =
    | TextDelta(text: string)
    | ReasoningDelta(text: string)
    | ToolEnd(tool: Option<Call>)
    | Done(stop: Stop)
    | OtherChunk

  datatype Reason = ContextOverflow | OtherReason(name: string)

  datatype Error = Cancelled | Empty | Refused(text: string) | Failed(reason: Option<Reason>, text: string)

  /** What is put in place of a result to make room. */
  const DROPPED := "a result that was here has been dropped to make room"

  function Asking(question: string): Message {
    Message(User, question, "", [], None)
  }

  function Answering(reply: Reply): Message {
    Message(Tool, "", "", [], Some(reply))
  }

  // ---------------------------------------------------------------------------------------
  // What a conversation carries
  // ---------------------------------------------------------------------------------------

  function ClassOf(reply: Reply): Class {
    if reply.name == "run_select" then Rows else Schema
  }

  function Carries(messages: seq<Message>): set<Class> {
    if messages == [] then {Question}
    else
      var last := messages[|messages| - 1];
      Carries(messages[..|messages| - 1]) + (if last.result.Some? then {ClassOf(last.result.value)} else {})
  }

  /** The question always; what a result came from decides between rows and the schema. */
  lemma {:induction false} CarriesIs(messages: seq<Message>)
    ensures Question in Carries(messages)
    ensures Rows in Carries(messages) <==> exists i ::
              0 <= i < |messages| && messages[i].result.Some? && messages[i].result.value.name == "run_select"
    ensures Schema in Carries(messages) <==> exists i ::
              0 <= i < |messages| && messages[i].result.Some? && messages[i].result.value.name != "run_select"
  {
    if messages != [] {
      var n := |messages| - 1;
      var before, last := messages[..n], messages[n];
      CarriesIs(before);
      assert forall i :: 0 <= i < n ==> before[i] == messages[i];
      assert last == messages[n];
    }
  }

  // ---------------------------------------------------------------------------------------
  // Making room
  // ---------------------------------------------------------------------------------------

  function Emptied(message: Message): Message
    requires message.result.Some?
  {
    message.(result := Some(message.result.value.(content := DROPPED)))
  }

  predicate Undropped(message: Message) {
    message.result.Some? && message.result.value.content != DROPPED
  }

  function CountUndropped(messages: seq<Message>): nat {
    if messages == [] then 0
    else CountUndropped(messages[..|messages| - 1]) + if Undropped(messages[|messages| - 1]) then 1 else 0
  }

  /** The same conversation, but for results that were emptied. */
  predicate Compacted(before: seq<Message>, after: seq<Message>) {
    && |before| == |after|
    && forall i :: 0 <= i < |before| ==>
         after[i] == before[i] || (before[i].result.Some? && after[i] == Emptied(before[i]))
  }

  lemma CompactedTwice(a: seq<Message>, b: seq<Message>, c: seq<Message>)
    requires Compacted(a, b) && Compacted(b, c)
    ensures Compacted(a, c)
  {}

  lemma CompactedAppend(a: seq<Message>, b: seq<Message>, more: seq<Message>)
    requires Compacted(a, b)
    ensures Compacted(a + more, b + more)
  {}

  /** Making room never changes what a conversation carries. */
  lemma {:induction false} CompactedCarries(before: seq<Message>, after: seq<Message>)
    requires Compacted(before, after)
    ensures Carries(after) == Carries(before)
  {
    if before != [] {
      var n := |before| - 1;
      CompactedCarries(before[..n], after[..n]);
    }
  }

  lemma {:induction false} CountUpdate(messages: seq<Message>, i: nat, message: Message)
    requires i < |messages| && Undropped(messages[i]) && !Undropped(message)
    ensures CountUndropped(messages[i := message]) == CountUndropped(messages) - 1
  {
    var n := |messages| - 1;
    if i < n {
      CountUpdate(messages[..n], i, message);
      assert messages[i := message][..n] == messages[..n][i := message];
    } else {
      assert messages[i := message][..n] == messages[..n];
    }
  }

  // ---------------------------------------------------------------------------------------
  // One turn, round by round
  // ---------------------------------------------------------------------------------------

  /** One round: what attempts that overflowed had already shown, the stream that came
      through, and what the tools it called for answered. */
  datatype Round = Round(retries: nat, aborted: seq<Event>, chunks: seq<Chunk>, replies: seq<Reply>)

  function TextOf(chunks: seq<Chunk>): string {
    if chunks == [] then ""
    else
      var last := chunks[|chunks| - 1];
      TextOf(chunks[..|chunks| - 1]) + if last.TextDelta? then last.text else ""
  }

  function ReasoningOf(chunks: seq<Chunk>): string {
    if chunks == [] then ""
    else
      var last := chunks[|chunks| - 1];
      ReasoningOf(chunks[..|chunks| - 1]) + if last.ReasoningDelta? then last.text else ""
  }

  function CallsOf(chunks: seq<Chunk>): seq<Call> {
    if chunks == [] then []
    else
      var last := chunks[|chunks| - 1];
      CallsOf(chunks[..|chunks| - 1]) + if last.ToolEnd? && last.tool.Some? then [last.tool.value] else []
  }

  function StopOf(chunks: seq<Chunk>): Stop {
    if chunks == [] then EndTurn
    else if chunks[|chunks| - 1].Done? then chunks[|chunks| - 1].stop
    else StopOf(chunks[..|chunks| - 1])
  }

  /** What a stream shows as it comes: its words, in the order they arrive. */
  function Shown(chunks: seq<Chunk>): seq<Event> {
    if chunks == [] then []
    else
      var last := chunks[|chunks| - 1];
      Shown(chunks[..|chunks| - 1]) + match last
        case TextDelta(text) => [TextEvent(text)]
        case ReasoningDelta(text) => [ReasoningEvent(text)]
        case _ => []
  }

  function Built(chunks: seq<Chunk>): Message {
    Message(Assistant, TextOf(chunks), ReasoningOf(chunks), CallsOf(chunks), None)
  }

  /** A stream is read one piece after another: what it builds and shows is what its beginning does
      and then what its ending does. */
  lemma {:induction false} BuiltAppend(a: seq<Chunk>, b: seq<Chunk>)
    ensures Built(a + b).content == Built(a).content + Built(b).content
    ensures Built(a + b).reasoning == Built(a).reasoning + Built(b).reasoning
    ensures Built(a + b).calls == Built(a).calls + Built(b).calls
    ensures Shown(a + b) == Shown(a) + Shown(b)
  {
    hide TextOf, ReasoningOf, CallsOf, Shown;
    WordsAppend(a, b);
    CallsAppend(a, b);
    ShownAppend(a, b);
  }

  lemma {:induction false} WordsAppend(a: seq<Chunk>, b: seq<Chunk>)
    ensures TextOf(a + b) == TextOf(a) + TextOf(b) && ReasoningOf(a + b) == ReasoningOf(a) + ReasoningOf(b)
  {
    if b == [] {
      assert a + b == a;
    } else {
      WordsAppend(a, b[..|b| - 1]);
      Shorter(a, b);
    }
  }

  lemma {:induction false} CallsAppend(a: seq<Chunk>, b: seq<Chunk>)
    ensures CallsOf(a + b) == CallsOf(a) + CallsOf(b)
  {
    if b == [] {
      assert a + b == a;
    } else {
      CallsAppend(a, b[..|b| - 1]);
      Shorter(a, b);
    }
  }

  lemma {:induction false} ShownAppend(a: seq<Chunk>, b: seq<Chunk>)
    ensures Shown(a + b) == Shown(a) + Shown(b)
  {
    if b == [] {
      assert a + b == a;
    } else {
      ShownAppend(a, b[..|b| - 1]);
      Shorter(a, b);
    }
  }

  lemma Shorter(a: seq<Chunk>, b: seq<Chunk>)
    requires b != []
    ensures (a + b)[..|a + b| - 1] == a + b[..|b| - 1] && (a + b)[|a + b| - 1] == b[|b| - 1]
  {}

  /** The last reason given for the end is the one that counts. */
  lemma {:induction false} StopAppend(a: seq<Chunk>, b: seq<Chunk>)
    ensures StopOf(a + b) == if exists i :: 0 <= i < |b| && b[i].Done? then StopOf(b) else StopOf(a)
  {
    if b == [] {
      assert a + b == a;
    } else {
      var n := |b| - 1;
      StopAppend(a, b[..n]);
      Shorter(a, b);
      assert forall i :: 0 <= i < n ==> b[..n][i] == b[i];
    }
  }

  /** Each call is shown, and then its result, in call order. */
  lemma {:induction false} WorkedAt(calls: seq<Call>, replies: seq<Reply>, i: nat)
    requires Answers(calls, replies) && i < |replies|
    ensures |Worked(calls, replies)| == 2 * |replies|
    ensures Worked(calls, replies)[2 * i] == CallEvent(calls[i])
    ensures Worked(calls, replies)[2 * i + 1] == ResultEvent(replies[i])
  {
    var n := |replies| - 1;
    if i < n {
      WorkedAt(calls, replies[..n], i);
    } else if n > 0 {
      WorkedAt(calls, replies[..n], 0);
    }
  }

  /** What one piece builds and shows: words are shown as they come and kept, calls are kept, and
      the reason the stream gives for its end is its answer's. */
  lemma BuiltOne(text: string, call: Call, stop: Stop)
    ensures Built([TextDelta(text)]) == Message(Assistant, text, "", [], None)
    ensures Built([ReasoningDelta(text)]) == Message(Assistant, "", text, [], None)
    ensures Built([ToolEnd(Some(call))]) == Message(Assistant, "", "", [call], None)
    ensures Built([ToolEnd(None)]) == Built([Done(stop)]) == Built([OtherChunk]) == Message(Assistant, "", "", [], None)
    ensures Shown([TextDelta(text)]) == [TextEvent(text)] && Shown([ReasoningDelta(text)]) == [ReasoningEvent(text)]
    ensures Shown([ToolEnd(Some(call))]) == Shown([ToolEnd(None)]) == Shown([Done(stop)]) == Shown([OtherChunk]) == []
    ensures StopOf([Done(stop)]) == stop && StopOf([]) == EndTurn
  {
    Nothing();
    assert [TextDelta(text)][..0] == [] && [ReasoningDelta(text)][..0] == [] && [ToolEnd(Some(call))][..0] == [];
    assert [ToolEnd(None)][..0] == [] && [Done(stop)][..0] == [] && [OtherChunk][..0] == [];
  }

  lemma Nothing()
    ensures TextOf([]) == "" && ReasoningOf([]) == "" && CallsOf([]) == [] && StopOf([]) == EndTurn && Shown([]) == []
  {}

  /** Tools answer the calls they were given, in the order they were given. */
  predicate Answers(calls: seq<Call>, replies: seq<Reply>) {
    && |replies| <= |calls|
    && forall i :: 0 <= i < |replies| ==> replies[i].id == calls[i].id && replies[i].name == calls[i].name
  }

  function RepliesAs(replies: seq<Reply>): (r: seq<Message>)
    ensures |r| == |replies| && forall i :: 0 <= i < |r| ==> r[i] == Answering(replies[i])
  {
    seq(|replies|, i requires 0 <= i < |replies| => Answering(replies[i]))
  }

  function Worked(calls: seq<Call>, replies: seq<Reply>): seq<Event>
    requires Answers(calls, replies)
  {
    if replies == [] then []
    else
      var n := |replies| - 1;
      Worked(calls, replies[..n]) + [CallEvent(calls[n]), ResultEvent(replies[n])]
  }

  predicate RoundOk(round: Round) {
    && Answers(CallsOf(round.chunks), round.replies) && |round.replies| == |CallsOf(round.chunks)|
    && (forall i :: 0 <= i < |round.aborted| ==> round.aborted[i].TextEvent? || round.aborted[i].ReasoningEvent?)
    && (round.retries == 0 ==> round.aborted == [])
  }

  predicate RoundsOk(rounds: seq<Round>) {
    forall i :: 0 <= i < |rounds| ==> RoundOk(rounds[i])
  }

  function RoundMessages(round: Round): seq<Message> {
    [Built(round.chunks)] + RepliesAs(round.replies)
  }

  function RoundEvents(round: Round): seq<Event>
    requires RoundOk(round)
  {
    round.aborted + Shown(round.chunks) + Worked(CallsOf(round.chunks), round.replies)
  }

  function MessagesOf(rounds: seq<Round>): seq<Message> {
    if rounds == [] then []
    else MessagesOf(rounds[..|rounds| - 1]) + RoundMessages(rounds[|rounds| - 1])
  }

  function EventsOf(rounds: seq<Round>): seq<Event>
    requires RoundsOk(rounds)
  {
    if rounds == [] then []
    else EventsOf(rounds[..|rounds| - 1]) + RoundEvents(rounds[|rounds| - 1])
  }

  predicate Untroubled(rounds: seq<Round>) {
    forall i :: 0 <= i < |rounds| ==> rounds[i].retries == 0
  }

  predicate AllCall(rounds: seq<Round>) {
    forall i :: 0 <= i < |rounds| ==> CallsOf(rounds[i].chunks) != []
  }

  /** A turn that ran to its end: every round but the last called for something, and the last
      either called for nothing or was the last there was room for. */
  predicate Ended(rounds: seq<Round>, limit: nat, stop: Stop) {
    && RoundsOk(rounds) && 1 <= |rounds| <= limit
    && AllCall(rounds[..|rounds| - 1])
    && var last := rounds[|rounds| - 1];
       if CallsOf(last.chunks) == [] then stop == StopOf(last.chunks) else |rounds| == limit && stop == MaxTokens
  }

  // ---------------------------------------------------------------------------------------
  // What that means for the conversation and for the caller
  // ---------------------------------------------------------------------------------------

  /** Every message that calls for n tools is followed by their n results, in call order. */
  predicate Paired(messages: seq<Message>) {
    forall p :: 0 <= p < |messages| ==> PairedAt(messages, p)
  }

  predicate PairedAt(messages: seq<Message>, p: nat)
    requires p < |messages|
  {
    var calls := messages[p].calls;
    && p + |calls| < |messages|
    && forall q :: p < q <= p + |calls| ==> IsAnswerTo(messages[q], calls[q - p - 1])
  }

  predicate IsAnswerTo(message: Message, call: Call) {
    && message.role == Tool && message.result.Some?
    && message.result.value.id == call.id && message.result.value.name == call.name
  }

  lemma PairedAppend(a: seq<Message>, b: seq<Message>)
    requires Paired(a) && Paired(b)
    ensures Paired(a + b)
  {
    var all := a + b;
    forall p | 0 <= p < |all|
      ensures PairedAt(all, p)
    {
      if p < |a| {
        assert PairedAt(a, p);
        assert all[p] == a[p];
        assert forall i :: 0 <= i < |a| ==> all[i] == a[i];
      } else {
        var q := p - |a|;
        assert PairedAt(b, q);
        assert all[p] == b[q];
        assert forall i :: |a| <= i < |all| ==> all[i] == b[i - |a|];
      }
    }
  }

  lemma RoundPaired(round: Round)
    requires RoundOk(round)
    ensures Paired(RoundMessages(round))
  {
    hide CallsOf, TextOf, ReasoningOf;
    var all := RoundMessages(round);
    assert |all| == 1 + |round.replies| && all[0].calls == CallsOf(round.chunks);
    forall p | 0 <= p < |all|
      ensures PairedAt(all, p)
    {
      if p == 0 {
        assert forall i :: 1 <= i < |all| ==> all[i] == Answering(round.replies[i - 1]);
      } else {
        assert all[p] == Answering(round.replies[p - 1]);
      }
    }
  }

  lemma {:induction false} RoundsPaired(rounds: seq<Round>)
    requires RoundsOk(rounds)
    ensures Paired(MessagesOf(rounds))
  {
    hide Paired, RoundOk, RoundMessages;
    if rounds == [] {
      NothingPaired();
    } else {
      RoundsPaired(rounds[..|rounds| - 1]);
      RoundPaired(rounds[|rounds| - 1]);
      PairedAppend(MessagesOf(rounds[..|rounds| - 1]), RoundMessages(rounds[|rounds| - 1]));
    }
  }

  lemma NothingPaired()
    ensures Paired([])
  {}

  lemma CompactedPaired(before: seq<Message>, after: seq<Message>)
    requires Compacted(before, after) && Paired(before)
    ensures Paired(after)
  {
    forall p | 0 <= p < |after|
      ensures PairedAt(after, p)
    {
      assert PairedAt(before, p);
      assert after[p].calls == before[p].calls;
      forall q | p < q <= p + |after[p].calls|
        ensures IsAnswerTo(after[q], after[p].calls[q - p - 1])
      {
        assert IsAnswerTo(before[q], before[p].calls[q - p - 1]);
      }
    }
  }

  /** Nothing in some events says that the turn is over. */
  predicate Unended(events: seq<Event>) {
    forall i :: 0 <= i < |events| ==> !events[i].DoneEvent?
  }

  /** More was shown, and none of it says that the turn is over. */
  predicate GoesOn(before: seq<Event>, after: seq<Event>) {
    before <= after && Unended(after[|before|..])
  }

  lemma GoesOnTwice(a: seq<Event>, b: seq<Event>, c: seq<Event>)
    requires GoesOn(a, b) && GoesOn(b, c)
    ensures GoesOn(a, c)
  {}

  /** No round says that the turn is over. */
  lemma {:induction false} NoneDone(rounds: seq<Round>)
    requires RoundsOk(rounds)
    ensures Unended(EventsOf(rounds))
  {
    if rounds != [] {
      NoneDone(rounds[..|rounds| - 1]);
      var last := rounds[|rounds| - 1];
      assert RoundOk(last);
      ShownIsWords(last.chunks);
      WorkedIsCalls(CallsOf(last.chunks), last.replies);
    }
  }

  lemma {:induction false} ShownIsWords(chunks: seq<Chunk>)
    ensures forall i :: 0 <= i < |Shown(chunks)| ==> Shown(chunks)[i].TextEvent? || Shown(chunks)[i].ReasoningEvent?
  {
    if chunks != [] {
      ShownIsWords(chunks[..|chunks| - 1]);
    }
  }

  lemma {:induction false} WorkedIsCalls(calls: seq<Call>, replies: seq<Reply>)
    requires Answers(calls, replies)
    ensures forall i :: 0 <= i < |Worked(calls, replies)| ==>
              Worked(calls, replies)[i].CallEvent? || Worked(calls, replies)[i].ResultEvent?
  {
    if replies != [] {
      WorkedIsCalls(calls, replies[..|replies| - 1]);
    }
  }
}
