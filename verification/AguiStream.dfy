/** The AG-UI adapter: one run's events, whatever the turn behind it yields and wherever it fails. */
module AguiStream {
  import opened ChatExecution
  import opened Keyed
  import opened ReplyChunks
  import opened StableSort
  import Text

  datatype Message = Message(id: string, role: string, content: Option<string>)

  datatype Event =
    | RunStarted(threadId: string, runId: string)
    | TextStart(messageId: string)
    | TextContent(messageId: string, delta: string)
    | TextEnd(messageId: string)
    | StateSnapshot(response: Option<ChatResponse>)
    | MessagesSnapshot(messages: seq<Message>)
    | RunFinished(threadId: string, runId: string)
    | RunError(message: string, code: string)

  datatype Input = Input(threadId: string, runId: string, userText: string)

  /** The calls that may raise: a content event may refuse its text, reading the state and building the request, the
      state read again for the snapshot, storing the checkpoint of a response, and the payloads of the messages. */
  datatype Bridge = Bridge(
    refuses: string -> Option<Error>,
    request: Option<Error>,
    snapshot: Option<Error>,
    checkpoint: ChatResponse -> Option<Error>,
    payloads: Outcome<seq<Message>>)

  function AssistantId(input: Input): string { input.runId + "-assistant" }

  const NoUserMessage := "I did not receive a user message to process."

  /** The text streamed so far: the pieces sent, the text accumulated, the final response and the exception, if any. */
  datatype Phase = Phase(contents: seq<string>, text: string, final: Option<ChatResponse>, failure: Option<Error>)

  function Push(p: Phase, text: string, bridge: Bridge): Phase {
    if bridge.refuses(text).Some? then p.(text := p.text + text, failure := bridge.refuses(text))
    else p.(contents := p.contents + [text], text := p.text + text)
  }

  function PushAll(p: Phase, texts: seq<string>, bridge: Bridge): Phase {
    if texts == [] then p else
      var q := PushAll(p, texts[..|texts| - 1], bridge);
      if q.failure.Some? then q else Push(q, texts[|texts| - 1], bridge)
  }

  function Take(p: Phase, event: TurnEvent, bridge: Bridge): Phase {
    match event
    case Delta(text) => Push(p, text, bridge)
    case Final(Returned(response)) => p.(final := Some(response))
    case Final(Raised(error)) => p.(failure := Some(error))
    case _ => p
  }

  const Empty := Phase([], "", None, None)

  function TakeAll(events: seq<TurnEvent>, bridge: Bridge): Phase {
    if events == [] then Empty else
      var p := TakeAll(events[..|events| - 1], bridge);
      if p.failure.Some? then p else Take(p, events[|events| - 1], bridge)
  }

  /** Reading the turn to its end, or to the exception that ends it. */
  function ReadTurn(turn: Turn, bridge: Bridge): Phase {
    var p := TakeAll(turn.events, bridge);
    if p.failure.Some? then p else p.(failure := turn.failure)
  }

  function TextPhase(input: Input, turn: Turn, bridge: Bridge): Phase {
    if input.userText == "" then Push(Empty, NoUserMessage, bridge)
    else if bridge.request.Some? then Empty.(failure := bridge.request)
    else
      var p := ReadTurn(turn, bridge);
      if p.failure.None? && p.final.Some? && p.text == "" then PushAll(p, Chunks(p.final.value.reply), bridge) else p
  }

  function Contents(input: Input, contents: seq<string>): (events: seq<Event>)
    ensures |events| == |contents|
    ensures forall i :: 0 <= i < |events| ==> events[i] == TextContent(AssistantId(input), contents[i])
  {
    seq(|contents|, i requires 0 <= i < |contents| => TextContent(AssistantId(input), contents[i]))
  }

  function Failed(input: Input, error: Error): seq<Event> {
    [TextEnd(AssistantId(input)),
     match error
     case Http(detail, status) => RunError(detail, Text.Decimal(status))
     case Other(text) => RunError(text, "500")]
  }

  /** What fails after the text is complete. */
  function LateFailure(final: Option<ChatResponse>, bridge: Bridge): Option<Error> {
    if bridge.snapshot.Some? then bridge.snapshot
    else if final.Some? then bridge.checkpoint(final.value)
    else None
  }

  predicate Shown(m: Message) { m.role != "" && m.content.Some? }

  function ShownMessages(messages: seq<Message>): (shown: seq<Message>)
    ensures forall m :: m in shown <==> m in messages && Shown(m)
  {
    if messages == [] then [] else
      (if Shown(messages[0]) then [messages[0]] else []) + ShownMessages(messages[1..])
  }

  function Closing(input: Input, p: Phase, bridge: Bridge): seq<Event> {
    var late := LateFailure(p.final, bridge);
    if p.failure.Some? then Failed(input, p.failure.value)
    else if late.Some? then [TextEnd(AssistantId(input))] + Failed(input, late.value)
    else [TextEnd(AssistantId(input)), StateSnapshot(p.final)] + match bridge.payloads
      case Raised(error) => Failed(input, error)
      case Returned(messages) =>
        [MessagesSnapshot(ShownMessages(messages) + [Message(AssistantId(input), "assistant", Some(p.text))]),
         RunFinished(input.threadId, input.runId)]
  }

  function Script(input: Input, p: Phase, bridge: Bridge): seq<Event> {
    [RunStarted(input.threadId, input.runId), TextStart(AssistantId(input))] + Contents(input, p.contents)
    + Closing(input, p, bridge)
  }

  function Stream(input: Input, turn: Turn, bridge: Bridge): seq<Event> {
    Script(input, TextPhase(input, turn, bridge), bridge)
  }

  // ---- the generator ----

  lemma {:induction false} TakeStops(events: seq<TurnEvent>, k: nat, bridge: Bridge)
    requires k <= |events| && TakeAll(events[..k], bridge).failure.Some?
    ensures TakeAll(events, bridge) == TakeAll(events[..k], bridge)
  {
    if k == |events| {
      assert events[..k] == events;
    } else {
      assert events[..|events| - 1][..k] == events[..k];
      TakeStops(events[..|events| - 1], k, bridge);
    }
  }

  lemma {:induction false} PushStops(p: Phase, texts: seq<string>, k: nat, bridge: Bridge)
    requires k <= |texts| && PushAll(p, texts[..k], bridge).failure.Some?
    ensures PushAll(p, texts, bridge) == PushAll(p, texts[..k], bridge)
  {
    if k == |texts| {
      assert texts[..k] == texts;
    } else {
      assert texts[..|texts| - 1][..k] == texts[..k];
      PushStops(p, texts[..|texts| - 1], k, bridge);
    }
  }

  /** The loop over the turn's events. */
  method ConsumeTurn(turn: Turn, bridge: Bridge) returns (p: Phase)
    ensures p == ReadTurn(turn, bridge)
  {
    var contents, accumulated := [], "";
    var final: Option<ChatResponse> := None;
    for i := 0 to |turn.events|
      invariant TakeAll(turn.events[..i], bridge) == Phase(contents, accumulated, final, None)
    {
      assert turn.events[..i + 1][..i] == turn.events[..i];
      match turn.events[i] {
        case Delta(text) =>
          accumulated := accumulated + text;
          if bridge.refuses(text).Some? {
            TakeStops(turn.events, i + 1, bridge);
            return Phase(contents, accumulated, final, bridge.refuses(text));
          }
          contents := contents + [text];
        case Final(Returned(response)) =>
          final := Some(response);
        case Final(Raised(error)) =>
          TakeStops(turn.events, i + 1, bridge);
          return Phase(contents, accumulated, final, Some(error));
        case _ =>
      }
    }
    assert turn.events[..|turn.events|] == turn.events;
    p := Phase(contents, accumulated, final, turn.failure);
  }

  /** The loop over the chunks of a reply that was not streamed. */
  method SendReply(start: Phase, reply: string, bridge: Bridge) returns (p: Phase)
    requires start.failure.None?
    ensures p == PushAll(start, Chunks(reply), bridge)
  {
    var chunks := SplitReply(reply);
    p := start;
    for i := 0 to |chunks|
      invariant p.failure.None? && p == PushAll(start, chunks[..i], bridge)
    {
      assert chunks[..i + 1][..i] == chunks[..i];
      p := p.(text := p.text + chunks[i]);
      if bridge.refuses(chunks[i]).Some? {
        PushStops(start, chunks, i + 1, bridge);
        p := p.(failure := bridge.refuses(chunks[i]));
        return;
      }
      p := p.(contents := p.contents + [chunks[i]]);
    }
    assert chunks[..|chunks|] == chunks;
  }

  /** The text of the run: the missing message, the turn, or the reply the turn ended with. */
  method SendText(input: Input, turn: Turn, bridge: Bridge) returns (p: Phase)
    ensures p == TextPhase(input, turn, bridge)
  {
    p := Empty;
    if input.userText == "" {
      p := Push(p, NoUserMessage, bridge);
    } else if bridge.request.Some? {
      p := p.(failure := bridge.request);
    } else {
      p := ConsumeTurn(turn, bridge);
      if p.failure.None? && p.final.Some? && p.text == "" {
        p := SendReply(p, p.final.value.reply, bridge);
      }
    }
  }

  /** What follows the text. */
  method Close(input: Input, p: Phase, bridge: Bridge) returns (events: seq<Event>)
    ensures events == Closing(input, p, bridge)
  {
    hide ShownMessages;
    var id := AssistantId(input);
    if p.failure.Some? {
      return Failed(input, p.failure.value);
    }
    events := [TextEnd(id)];
    if bridge.snapshot.Some? {
      return events + Failed(input, bridge.snapshot.value);
    }
    if p.final.Some? && bridge.checkpoint(p.final.value).Some? {
      return events + Failed(input, bridge.checkpoint(p.final.value).value);
    }
    events := events + [StateSnapshot(p.final)];
    match bridge.payloads {
      case Raised(error) =>
        events := events + Failed(input, error);
      case Returned(payloads) =>
        var messages := ShownMessages(payloads) + [Message(id, "assistant", Some(p.text))];
        events := events + [MessagesSnapshot(messages)];
        events := events + [RunFinished(input.threadId, input.runId)];
    }
  }

  method StreamEvents(input: Input, turn: Turn, bridge: Bridge) returns (events: seq<Event>)
    ensures events == Stream(input, turn, bridge)
  {
    hide TextPhase, Closing;
    events := [RunStarted(input.threadId, input.runId), TextStart(AssistantId(input))];
    var p := SendText(input, turn, bridge);
    events := events + Contents(input, p.contents);
    var closing := Close(input, p, bridge);
    events := events + closing;
  }

  // ---- the protocol ----

  predicate Terminal(e: Event) { e.RunFinished? || e.RunError? }

  function CountEnds(events: seq<Event>): nat {
    if events == [] then 0 else
      CountEnds(events[..|events| - 1]) + if events[|events| - 1].TextEnd? then 1 else 0
  }

  /** Wherever the run fails: it starts with its start and the message's start, all content follows directly and
      belongs to the message, and the last event, and no other, ends the run. */
  lemma StreamProtocol(input: Input, turn: Turn, bridge: Bridge)
    ensures var events, n := Stream(input, turn, bridge), 2 + |TextPhase(input, turn, bridge).contents|;
            var id := input.runId + "-assistant";
            && |events| > n + 1 && events[0] == RunStarted(input.threadId, input.runId) && events[1] == TextStart(id)
            && (forall i :: 0 <= i < |events| ==> (events[i].TextContent? <==> 2 <= i < n))
            && (forall i :: 2 <= i < n ==> events[i].messageId == id)
            && events[n] == TextEnd(id)
            && Terminal(events[|events| - 1])
            && (events[|events| - 1].RunFinished? ==> events[|events| - 1] == RunFinished(input.threadId, input.runId))
            && (forall i :: 0 <= i < |events| - 1 ==> !Terminal(events[i]))
  {
    hide TextPhase, LateFailure, ShownMessages;
  }

  lemma {:induction false} CountEndsAppend(a: seq<Event>, b: seq<Event>)
    ensures CountEnds(a + b) == CountEnds(a) + CountEnds(b)
  {
    if b == [] {
      assert a + b == a;
    } else {
      CountEndsAppend(a, b[..|b| - 1]);
      assert (a + b)[..|a + b| - 1] == a + b[..|b| - 1];
    }
  }

  lemma {:induction false} CountEndsNone(events: seq<Event>)
    requires forall i :: 0 <= i < |events| ==> !events[i].TextEnd?
    ensures CountEnds(events) == 0
  {
    if events != [] {
      CountEndsNone(events[..|events| - 1]);
    }
  }

  // ---- the text ----

  /** The response of the last final event. */
  function LastFinal(events: seq<TurnEvent>): Option<ChatResponse> {
    if events == [] then None else
      match events[|events| - 1]
      case Final(Returned(response)) => Some(response)
      case _ => LastFinal(events[..|events| - 1])
  }

  predicate BadFinal(e: TurnEvent) { e.Final? && e.response.Raised? }

  predicate AnyBadFinal(events: seq<TurnEvent>) { exists i :: 0 <= i < |events| && BadFinal(events[i]) }

  predicate Accepts(bridge: Bridge, texts: seq<string>) {
    forall i :: 0 <= i < |texts| ==> bridge.refuses(texts[i]).None?
  }

  function FinalOf(input: Input, turn: Turn): Option<ChatResponse> {
    if input.userText == "" then None else LastFinal(turn.events)
  }

  /** The text the user is meant to get: what the turn streamed; the reply, if it streamed nothing. */
  function ReplyText(input: Input, turn: Turn): string {
    if input.userText == "" then NoUserMessage else
      var streamed, final := Joined(Deltas(turn.events)), LastFinal(turn.events);
      if streamed == "" && final.Some? then final.value.reply else streamed
  }

  /** The pieces it is sent in. */
  function Offered(input: Input, turn: Turn): seq<string> {
    if input.userText == "" then [NoUserMessage] else
      var deltas, final := Deltas(turn.events), LastFinal(turn.events);
      if Joined(deltas) == "" && final.Some? then deltas + Chunks(final.value.reply) else deltas
  }

  predicate TextSucceeds(input: Input, turn: Turn, bridge: Bridge) {
    && Accepts(bridge, Offered(input, turn))
    && (input.userText != "" ==> bridge.request.None? && turn.failure.None? && !AnyBadFinal(turn.events))
  }

  predicate CloseSucceeds(input: Input, turn: Turn, bridge: Bridge) {
    LateFailure(FinalOf(input, turn), bridge).None? && bridge.payloads.Returned?
  }

  lemma AcceptsPush(bridge: Bridge, texts: seq<string>, t: string)
    ensures Accepts(bridge, texts + [t]) <==> Accepts(bridge, texts) && bridge.refuses(t).None?
  {
    var more := texts + [t];
    assert more[|texts|] == t;
    assert forall i :: 0 <= i < |texts| ==> more[i] == texts[i];
  }

  lemma AcceptsAppend(bridge: Bridge, a: seq<string>, b: seq<string>)
    ensures Accepts(bridge, a + b) <==> Accepts(bridge, a) && Accepts(bridge, b)
  {
    var c := a + b;
    assert forall i :: 0 <= i < |a| ==> c[i] == a[i];
    assert forall i :: 0 <= i < |b| ==> c[|a| + i] == b[i];
  }

  lemma {:induction false} TakeAllFacts(events: seq<TurnEvent>, bridge: Bridge)
    ensures var p := TakeAll(events, bridge);
            && (p.failure.None? <==> Accepts(bridge, Deltas(events)) && !AnyBadFinal(events))
            && (p.failure.None? ==> p.contents == Deltas(events) && p.text == Joined(p.contents) && p.final == LastFinal(events))
  {
    if events != [] {
      var n := |events| - 1;
      TakeAllFacts(events[..n], bridge);
      BadFinalLast(events);
      hide AnyBadFinal, Accepts;
      var texts := Deltas(events[..n]);
      match events[n] {
        case Delta(text) =>
          AcceptsPush(bridge, texts, text);
          JoinedPush(texts, text);
        case _ =>
          assert Deltas(events) == texts + [] == texts;
      }
    }
  }

  lemma BadFinalLast(events: seq<TurnEvent>)
    requires events != []
    ensures AnyBadFinal(events) <==> AnyBadFinal(events[..|events| - 1]) || BadFinal(events[|events| - 1])
  {
    var n := |events| - 1;
    assert forall i :: 0 <= i < n ==> events[..n][i] == events[i];
  }

  lemma {:induction false} PushAllFacts(p: Phase, texts: seq<string>, bridge: Bridge)
    requires p.failure.None?
    ensures var q := PushAll(p, texts, bridge);
            && (q.failure.None? <==> Accepts(bridge, texts))
            && (q.failure.None? ==> q.contents == p.contents + texts && q.text == p.text + Joined(texts) && q.final == p.final)
  {
    if texts != [] {
      var n := |texts| - 1;
      PushAllFacts(p, texts[..n], bridge);
      AcceptsPush(bridge, texts[..n], texts[n]);
      assert texts[..n] + [texts[n]] == texts;
      JoinedPush(texts[..n], texts[n]);
    }
  }

  /** The text phase succeeds exactly when every piece is accepted and neither the request, the turn nor the final
      payload fails; it has then sent the pieces, and they are the text. */
  lemma TextPhaseFacts(input: Input, turn: Turn, bridge: Bridge)
    ensures var p := TextPhase(input, turn, bridge);
            && (p.failure.None? <==> TextSucceeds(input, turn, bridge))
            && (p.failure.None? ==>
                  && p.contents == Offered(input, turn) && Joined(p.contents) == p.text
                  && p.text == ReplyText(input, turn) && p.final == FinalOf(input, turn))
  {
    if input.userText == "" {
      JoinedPush([], NoUserMessage);
      assert [] + [NoUserMessage] == [NoUserMessage];
      AcceptsPush(bridge, [], NoUserMessage);
    } else if bridge.request.None? {
      hide Accepts, AnyBadFinal, Chunks, Deltas, LastFinal;
      TakeAllFacts(turn.events, bridge);
      var p := ReadTurn(turn, bridge);
      if p.failure.None? && p.final.Some? && p.text == "" {
        var reply := p.final.value.reply;
        ChunksFacts(reply);
        PushAllFacts(p, Chunks(reply), bridge);
        AcceptsAppend(bridge, p.contents, Chunks(reply));
        JoinedAppend(p.contents, Chunks(reply));
      } else if TextSucceeds(input, turn, bridge) {
        var reply := if LastFinal(turn.events).Some? then LastFinal(turn.events).value.reply else "";
        AcceptsAppend(bridge, Deltas(turn.events), Chunks(reply));
      } else if Joined(Deltas(turn.events)) == "" && LastFinal(turn.events).Some? {
        AcceptsAppend(bridge, Deltas(turn.events), Chunks(LastFinal(turn.events).value.reply));
      }
    }
  }

  function ContentTexts(events: seq<Event>): seq<string> {
    if events == [] then [] else
      var last := events[|events| - 1];
      ContentTexts(events[..|events| - 1]) + if last.TextContent? then [last.delta] else []
  }

  lemma {:induction false} ContentTextsAppend(a: seq<Event>, b: seq<Event>)
    ensures ContentTexts(a + b) == ContentTexts(a) + ContentTexts(b)
  {
    if b == [] {
      assert a + b == a;
    } else {
      ContentTextsAppend(a, b[..|b| - 1]);
      assert (a + b)[..|a + b| - 1] == a + b[..|b| - 1];
    }
  }

  lemma {:induction false} ContentTextsOf(events: seq<Event>)
    ensures (forall i :: 0 <= i < |events| ==> !events[i].TextContent?) ==> ContentTexts(events) == []
    ensures (forall i :: 0 <= i < |events| ==> events[i].TextContent?) ==>
              |ContentTexts(events)| == |events| && forall i :: 0 <= i < |events| ==> ContentTexts(events)[i] == events[i].delta
  {
    if events != [] {
      ContentTextsOf(events[..|events| - 1]);
    }
  }

  lemma ScriptTexts(input: Input, p: Phase, bridge: Bridge)
    ensures ContentTexts(Script(input, p, bridge)) == p.contents
  {
    hide ContentTexts, Closing;
    var opening := [RunStarted(input.threadId, input.runId), TextStart(AssistantId(input))];
    var contents, closing := Contents(input, p.contents), Closing(input, p, bridge);
    assert ContentTexts(opening) == [] by { ContentTextsOf(opening); }
    assert ContentTexts(contents) == p.contents by { ContentTextsOf(contents); }
    assert ContentTexts(closing) == [] by {
      ClosingHasNoText(input, p, bridge);
      ContentTextsOf(closing);
    }
    ContentTextsAppend(opening + contents, closing);
    ContentTextsAppend(opening, contents);
    assert [] + p.contents + [] == p.contents;
  }

  lemma ClosingHasNoText(input: Input, p: Phase, bridge: Bridge)
    ensures forall i :: 0 <= i < |Closing(input, p, bridge)| ==> !Closing(input, p, bridge)[i].TextContent?
  {
    hide LateFailure, ShownMessages;
  }

  /** A run finishes exactly when its text phase and its closing succeed. The pieces it sent, joined, are then the
      content of the assistant message in its snapshot, after the messages it was given; and they are the text the turn
      streamed or, if it streamed none, its reply. */
  lemma StreamConserves(input: Input, turn: Turn, bridge: Bridge)
    ensures var events := Stream(input, turn, bridge);
            var last := |events| - 1;
            && last >= 2
            && (events[last].RunFinished? <==> TextSucceeds(input, turn, bridge) && CloseSucceeds(input, turn, bridge))
            && (events[last].RunFinished? ==>
                  && Joined(ContentTexts(events)) == ReplyText(input, turn)
                  && events[last - 1] == MessagesSnapshot(ShownMessages(bridge.payloads.value) +
                                                          [Message(input.runId + "-assistant", "assistant", Some(ReplyText(input, turn)))])
                  && events[last - 2] == StateSnapshot(FinalOf(input, turn)))
  {
    hide TextSucceeds, FinalOf, ReplyText, Offered, TextPhase, LateFailure, ContentTexts, ShownMessages, Joined;
    var p := TextPhase(input, turn, bridge);
    TextPhaseFacts(input, turn, bridge);
    ScriptTexts(input, p, bridge);
  }

  /** The message is ended once, or twice: twice exactly when the text went through and something failed after it. */
  lemma EndedTwice(input: Input, turn: Turn, bridge: Bridge)
    ensures var ends := CountEnds(Stream(input, turn, bridge));
            && 1 <= ends <= 2
            && (ends == 2 <==> TextSucceeds(input, turn, bridge) && !CloseSucceeds(input, turn, bridge))
  {
    var p := TextPhase(input, turn, bridge);
    TextPhaseFacts(input, turn, bridge);
    var opening := [RunStarted(input.threadId, input.runId), TextStart(AssistantId(input))];
    var contents, closing := Contents(input, p.contents), Closing(input, p, bridge);
    CountEndsNone(opening + contents);
    CountEndsAppend(opening + contents, closing);
    ClosingEnds(input, p, bridge);
    hide TextSucceeds, TextPhase, LateFailure, CountEnds, Closing, FinalOf;
    assert Stream(input, turn, bridge) == opening + contents + closing;
  }

  function EndsOf(e: Event): nat { if e.TextEnd? then 1 else 0 }

  lemma CountEndsTwo(a: Event, b: Event)
    ensures CountEnds([a]) == EndsOf(a)
    ensures CountEnds([a, b]) == EndsOf(a) + EndsOf(b)
  {
    assert [a][..0] == [] && [a, b][..1] == [a];
  }

  lemma ClosingEnds(input: Input, p: Phase, bridge: Bridge)
    ensures CountEnds(Closing(input, p, bridge)) ==
            if p.failure.Some? || (LateFailure(p.final, bridge).None? && bridge.payloads.Returned?) then 1 else 2
  {
    hide LateFailure, ShownMessages, CountEnds;
    var closing := Closing(input, p, bridge);
    var n := |closing|;
    if n == 2 {
      CountEndsTwo(closing[0], closing[1]);
      assert closing == [closing[0], closing[1]];
    } else if n == 3 {
      CountEndsTwo(closing[0], closing[0]);
      CountEndsTwo(closing[1], closing[2]);
      CountEndsAppend([closing[0]], [closing[1], closing[2]]);
      assert closing == [closing[0]] + [closing[1], closing[2]];
    } else {
      CountEndsTwo(closing[0], closing[1]);
      CountEndsTwo(closing[2], closing[3]);
      CountEndsAppend([closing[0], closing[1]], [closing[2], closing[3]]);
      assert closing == [closing[0], closing[1]] + [closing[2], closing[3]];
    }
  }

  // ---- which error is reported ----

  /** The last event of a run that an exception ended: an HTTP exception's detail and status, or the text and 500. */
  predicate Reports(events: seq<Event>, error: Error) {
    events != [] && match error
      case Http(detail, status) => events[|events| - 1] == RunError(detail, Text.Decimal(status))
      case Other(text) => events[|events| - 1] == RunError(text, "500")
  }

  /** The event raises: a piece of text that is refused, or a final payload that is no response. */
  predicate Raises(e: TurnEvent, bridge: Bridge, error: Error) {
    || (e.Delta? && bridge.refuses(e.text) == Some(error))
    || (e.Final? && e.response == Raised(error))
  }

  /** Everything before event `i` goes through, and that event raises. */
  predicate FirstRaises(turn: Turn, bridge: Bridge, i: nat, error: Error) {
    && i < |turn.events| && Accepts(bridge, Deltas(turn.events[..i])) && !AnyBadFinal(turn.events[..i])
    && Raises(turn.events[i], bridge, error)
  }

  lemma {:induction false} ReadingStops(turn: Turn, bridge: Bridge, i: nat, error: Error)
    requires FirstRaises(turn, bridge, i, error)
    ensures ReadTurn(turn, bridge).failure == Some(error)
  {
    TakeAllFacts(turn.events[..i], bridge);
    assert turn.events[..i + 1][..i] == turn.events[..i];
    hide Accepts, AnyBadFinal, Deltas;
    TakeStops(turn.events, i + 1, bridge);
  }

  /** While the text is sent: the refused notice, the request that cannot be built, the first event that raises, or the
      turn's own exception when none does. */
  lemma TextErrorReported(input: Input, turn: Turn, bridge: Bridge, error: Error)
    ensures var events := Stream(input, turn, bridge);
            && (input.userText == "" && bridge.refuses("I did not receive a user message to process.") == Some(error) ==>
                  Reports(events, error))
            && (input.userText != "" && bridge.request == Some(error) ==> Reports(events, error))
            && (input.userText != "" && bridge.request.None? ==>
                  && (forall i: nat :: FirstRaises(turn, bridge, i, error) ==> Reports(events, error))
                  && (Accepts(bridge, Deltas(turn.events)) && !AnyBadFinal(turn.events) && turn.failure == Some(error) ==>
                        Reports(events, error)))
  {
    TakeAllFacts(turn.events, bridge);
    forall i: nat | FirstRaises(turn, bridge, i, error)
      ensures ReadTurn(turn, bridge).failure == Some(error)
    {
      ReadingStops(turn, bridge, i, error);
    }
    hide Accepts, AnyBadFinal, Deltas, TakeAll, LateFailure, FirstRaises, Chunks, PushAll, ShownMessages;
    var p := TextPhase(input, turn, bridge);
    if p.failure == Some(error) {
      assert Closing(input, p, bridge) == Failed(input, error);
    }
  }

  /** After the text: reading the state again, storing the checkpoint of a response, then the payloads of the messages. */
  lemma LateErrorReported(input: Input, turn: Turn, bridge: Bridge, error: Error)
    requires TextSucceeds(input, turn, bridge)
    ensures var events, final := Stream(input, turn, bridge), FinalOf(input, turn);
            && (bridge.snapshot == Some(error) ==> Reports(events, error))
            && (bridge.snapshot.None? && final.Some? && bridge.checkpoint(final.value) == Some(error) ==> Reports(events, error))
            && (bridge.snapshot.None? && (final.Some? ==> bridge.checkpoint(final.value).None?)
                && bridge.payloads == Raised(error) ==>
                  Reports(events, error))
  {
    TextPhaseFacts(input, turn, bridge);
    hide TextSucceeds, TextPhase, FinalOf, ShownMessages, Offered, ReplyText;
  }

  /** The messages shown are those with a role and a content, in their order. */
  lemma {:induction false} ShownInOrder(messages: seq<Message>)
    ensures ShownMessages(messages) == Filter((m: Message) => |m.role| > 0 && m.content.Some?, messages)
  {
    if messages != [] {
      ShownInOrder(messages[1..]);
    }
  }

  // ---- from the executor to the client ----

  /** A whole chat turn seen by an AG-UI client: a run that finishes ingested one result, and its assistant message is
      the text the executor streamed or, if it streamed none, the report of the result as ingested. */
  lemma TurnReachesClient(input: Input, request: ExecutionRequest, keys: seq<string>, dispatch: Dispatch,
                          services: Services, bridge: Bridge)
    requires input.userText != ""
    requires var events := Stream(input, TurnOf(request, keys, dispatch, services).turn, bridge);
             events != [] && events[|events| - 1].RunFinished?
    ensures var t := TurnOf(request, keys, dispatch, services);
            var streamed := Joined(ExecutorTexts(dispatch.events));
            && |t.ingested| == 1 && services.ingest(request, t.ingested[0]).Returned?
            && Joined(ContentTexts(Stream(input, t.turn, bridge))) ==
               if streamed == "" then services.ingest(request, t.ingested[0]).value.report else streamed
  {
    var t := TurnOf(request, keys, dispatch, services);
    StreamConserves(input, t.turn, bridge);
    assert t.turn.failure.None? by { hide TurnOf; }
    FinalReports(request, keys, dispatch, services);
    hide *;
    TurnKeepsText(request, keys, dispatch, services);
    ReplyTextIs(input, t.turn, services.ingest(request, t.ingested[0]).value.report);
  }

  /** A turn that does not fail ends with the report of the result as ingested. */
  lemma FinalReports(request: ExecutionRequest, keys: seq<string>, dispatch: Dispatch, services: Services)
    requires TurnOf(request, keys, dispatch, services).turn.failure.None?
    ensures var t := TurnOf(request, keys, dispatch, services);
            && |t.ingested| == 1 && services.ingest(request, t.ingested[0]).Returned?
            && LastFinal(t.turn.events).Some?
            && LastFinal(t.turn.events).value.reply == services.ingest(request, t.ingested[0]).value.report
  {
    hide RelayAll, AddKey, SessionOf, Incomplete;
  }

  lemma ReplyTextIs(input: Input, turn: Turn, report: string)
    requires input.userText != "" && LastFinal(turn.events).Some? && LastFinal(turn.events).value.reply == report
    ensures var streamed := Joined(Deltas(turn.events)); ReplyText(input, turn) == if streamed == "" then report else streamed
  {
    hide Joined, Deltas, LastFinal;
  }

  /** An executor's error events alone never fail a run: with a bridge that raises nothing, a run ends in an error
      exactly when the turn fails. */
  lemma OnlyExceptionsFail(input: Input, turn: Turn, bridge: Bridge)
    requires input.userText != "" && bridge.request.None? && bridge.snapshot.None? && bridge.payloads.Returned?
    requires (forall t :: bridge.refuses(t).None?) && (forall r :: bridge.checkpoint(r).None?)
    requires !AnyBadFinal(turn.events)
    ensures var events := Stream(input, turn, bridge);
            events != [] && (events[|events| - 1].RunError? <==> turn.failure.Some?)
  {
    hide Deltas, Stream, AnyBadFinal;
    StreamConserves(input, turn, bridge);
    StreamProtocol(input, turn, bridge);
  }
}
