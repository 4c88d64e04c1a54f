/** One streamed chat turn: what the executor's events become, and what is ingested. */
module ChatExecution {
  import opened Keyed
  import opened ReplyChunks

  datatype Error = Http(detail: string, status: nat) | Other(text: string)

  /** What a call returned, or the exception it raised. */
  datatype Outcome<T> = Returned(value: T) | Raised(error: Error)

  datatype ExecutionRequest = ExecutionRequest(requestId: string, ticketId: string, traceRef: string)

  datatype ExecutionResult = ExecutionResult(
    requestId: string, executorId: string, status: string, report: string, outputTicketId: string, traceRef: string,
    reasons: seq<string>)

  /** An event from the dispatch service; the data of a `completed` event may fail its validation. */
  datatype DispatchEvent =
    | DeltaEvent(text: string)
    | CompletedEvent(result: Outcome<ExecutionResult>)
    | ErrorEvent(data: string)
    | OtherEvent(kind: string)

  /** What the dispatch stream yields, and the exception that ends it, if one does. */
  datatype Dispatch = Dispatch(events: seq<DispatchEvent>, failure: Option<Error>)

  datatype ChatResponse = ChatResponse(reply: string, ticketKeys: seq<string>)

  /** An event of the turn; a final payload that is not a response yet may fail its validation. */
  datatype TurnEvent =
    | Start(ticketKeys: seq<string>)
    | Delta(text: string)
    | Problem(data: string)
    | Final(response: Outcome<ChatResponse>)

  datatype Turn = Turn(events: seq<TurnEvent>, failure: Option<Error>)

  datatype Session = Session(ticketId: string, executorId: string, requestId: string)

  /** The calls a turn makes: before its start event (preparing and enriching the context, building the request), and
      once the executor is done (ingesting the result, building the trace events, saving the session, storing the
      response). */
  datatype Services = Services(
    prepare: Option<Error>,
    ingest: (ExecutionRequest, ExecutionResult) -> Outcome<ExecutionResult>,
    traceEvents: (ExecutionRequest, ExecutionResult) -> Option<Error>,
    saveSession: Session -> Option<Error>,
    persist: (ExecutionResult, seq<string>) -> Option<Error>)

  /** The executor's events as far as they have been passed on. */
  datatype Relay = Relay(emitted: seq<TurnEvent>, result: Option<ExecutionResult>, failure: Option<Error>)

  function RelayOne(r: Relay, event: DispatchEvent): Relay {
    match event
    case DeltaEvent(text) => if text != "" then r.(emitted := r.emitted + [Delta(text)]) else r
    case CompletedEvent(Returned(result)) => r.(result := Some(result))
    case CompletedEvent(Raised(error)) => r.(failure := Some(error))
    case ErrorEvent(data) => r.(emitted := r.emitted + [Problem(data)])
    case OtherEvent(_) => r
  }

  function RelayAll(events: seq<DispatchEvent>): Relay {
    if events == [] then Relay([], None, None) else
      var r := RelayAll(events[..|events| - 1]);
      if r.failure.Some? then r else RelayOne(r, events[|events| - 1])
  }

  lemma {:induction false} RelayStops(events: seq<DispatchEvent>, k: nat)
    requires k <= |events| && RelayAll(events[..k]).failure.Some?
    ensures RelayAll(events) == RelayAll(events[..k])
  {
    if k == |events| {
      assert events[..k] == events;
    } else {
      assert events[..|events| - 1][..k] == events[..k];
      RelayStops(events[..|events| - 1], k);
    }
  }

  function Incomplete(request: ExecutionRequest): ExecutionResult {
    ExecutionResult(request.requestId, "none", "failed",
                    "Execution stream ended before a completed result was produced.",
                    request.ticketId, request.traceRef, ["execution_stream_incomplete"])
  }

  function AddKey(keys: seq<string>, key: string): seq<string> {
    if key != "" && key !in keys then keys + [key] else keys
  }

  function SessionOf(result: ExecutionResult, keys: seq<string>): Session {
    Session(if result.outputTicketId != "" then result.outputTicketId else if keys != [] then keys[0] else "",
            result.executorId, result.requestId)
  }

  /** A turn and what it leaves behind. */
  datatype TurnResult = TurnResult(turn: Turn, ingested: seq<ExecutionResult>, ticketKeys: seq<string>, sessions: seq<Session>)

  /** The response of a result: what it did to the keys and the sessions, and the response or the exception. */
  datatype Responding = Responding(ticketKeys: seq<string>, sessions: seq<Session>, response: Outcome<ChatResponse>)

  function Respond(request: ExecutionRequest, keys: seq<string>, result: ExecutionResult, services: Services): Responding {
    match services.traceEvents(request, result)
    case Some(error) => Responding(keys, [], Raised(error))
    case None =>
      var newKeys := AddKey(keys, result.outputTicketId);
      var session := SessionOf(result, newKeys);
      match services.saveSession(session)
      case Some(error) => Responding(newKeys, [], Raised(error))
      case None =>
        Responding(newKeys, [session],
                   match services.persist(result, newKeys)
                   case Some(error) => Raised(error)
                   case None => Returned(ChatResponse(result.report, newKeys)))
  }

  function TurnOf(request: ExecutionRequest, keys: seq<string>, dispatch: Dispatch, services: Services): TurnResult {
    if services.prepare.Some? then TurnResult(Turn([], services.prepare), [], keys, []) else
    var r := RelayAll(dispatch.events);
    var events := [Start(keys)] + r.emitted;
    var failure := if r.failure.Some? then r.failure else dispatch.failure;
    if failure.Some? then TurnResult(Turn(events, failure), [], keys, []) else
      var result := if r.result.Some? then r.result.value else Incomplete(request);
      match services.ingest(request, result)
      case Raised(error) => TurnResult(Turn(events, Some(error)), [result], keys, [])
      case Returned(done) =>
        var out := Respond(request, keys, done, services);
        var turn := match out.response
          case Raised(error) => Turn(events, Some(error))
          case Returned(_) => Turn(events + [Final(out.response)], None);
        TurnResult(turn, [result], out.ticketKeys, out.sessions)
  }

  class ChatRunContext {
    var ticketKeys: seq<string>

    constructor (keys: seq<string>)
      ensures ticketKeys == keys
    {
      ticketKeys := keys;
    }
  }

  class ChatExecutionRuntime {
    var ingested: seq<ExecutionResult>
    var sessions: seq<Session>

    constructor ()
      ensures ingested == [] && sessions == []
    {
      ingested, sessions := [], [];
    }

    method StreamTurn(context: ChatRunContext, request: ExecutionRequest, dispatch: Dispatch, services: Services)
      returns (turn: Turn)
      modifies this, context
      ensures var t := TurnOf(request, old(context.ticketKeys), dispatch, services);
              && turn == t.turn && context.ticketKeys == t.ticketKeys
              && ingested == old(ingested) + t.ingested && sessions == old(sessions) + t.sessions
    {
      hide AddKey, SessionOf, Incomplete, Respond;
      if services.prepare.Some? {
        return Turn([], services.prepare);
      }
      var events := [Start(context.ticketKeys)];
      var executionResult: Option<ExecutionResult> := None;
      var i := 0;
      while i < |dispatch.events|
        invariant i <= |dispatch.events|
        invariant var r := RelayAll(dispatch.events[..i]);
                  events != [] && events[0] == Start(context.ticketKeys) && r == Relay(events[1..], executionResult, None)
      {
        assert dispatch.events[..i + 1][..i] == dispatch.events[..i];
        match dispatch.events[i] {
          case DeltaEvent(text) =>
            if text != "" {
              events := events + [Delta(text)];
            }
          case CompletedEvent(Returned(result)) =>
            executionResult := Some(result);
          case CompletedEvent(Raised(error)) =>
            RelayStops(dispatch.events, i + 1);
            return Turn(events, Some(error));
          case ErrorEvent(data) =>
            events := events + [Problem(data)];
          case OtherEvent(_) =>
        }
        i := i + 1;
      }
      assert dispatch.events[..i] == dispatch.events;
      if dispatch.failure.Some? {
        return Turn(events, dispatch.failure);
      }
      var result := if executionResult.Some? then executionResult.value else Incomplete(request);
      ingested := ingested + [result];
      match services.ingest(request, result) {
        case Raised(error) =>
          turn := Turn(events, Some(error));
        case Returned(done) =>
          var response := ResponseFromResult(context, request, done, services);
          match response {
            case Raised(error) => turn := Turn(events, Some(error));
            case Returned(_) => turn := Turn(events + [Final(response)], None);
          }
      }
    }

    method ResponseFromResult(context: ChatRunContext, request: ExecutionRequest, result: ExecutionResult, services: Services)
      returns (response: Outcome<ChatResponse>)
      modifies this`sessions, context
      ensures var out := Respond(request, old(context.ticketKeys), result, services);
              && context.ticketKeys == out.ticketKeys && sessions == old(sessions) + out.sessions && response == out.response
    {
      var traced := services.traceEvents(request, result);
      if traced.Some? {
        return Raised(traced.value);
      }
      if result.outputTicketId != "" && result.outputTicketId !in context.ticketKeys {
        context.ticketKeys := context.ticketKeys + [result.outputTicketId];
      }
      var session := SessionOf(result, context.ticketKeys);
      var saved := services.saveSession(session);
      if saved.Some? {
        return Raised(saved.value);
      }
      sessions := sessions + [session];
      match services.persist(result, context.ticketKeys) {
        case Some(error) => response := Raised(error);
        case None => response := Returned(ChatResponse(result.report, context.ticketKeys));
      }
    }
  }

  // ---- what a turn promises ----

  function Deltas(events: seq<TurnEvent>): seq<string> {
    if events == [] then [] else
      var last := events[|events| - 1];
      Deltas(events[..|events| - 1]) + if last.Delta? then [last.text] else []
  }

  function ExecutorTexts(events: seq<DispatchEvent>): seq<string> {
    if events == [] then [] else
      var last := events[|events| - 1];
      ExecutorTexts(events[..|events| - 1]) + if last.DeltaEvent? then [last.text] else []
  }

  /** A `completed` event whose data is not a result. */
  predicate Faulty(event: DispatchEvent) { event.CompletedEvent? && event.result.Raised? }

  predicate AnyFaulty(events: seq<DispatchEvent>) { exists i :: 0 <= i < |events| && Faulty(events[i]) }

  predicate LastCompleted(events: seq<DispatchEvent>, i: int) {
    0 <= i < |events| && events[i].CompletedEvent? && forall j :: i < j < |events| ==> !events[j].CompletedEvent?
  }

  /** The result of the last `completed` event. */
  predicate IsLastResult(events: seq<DispatchEvent>, result: ExecutionResult) {
    exists i :: 0 <= i < |events| && LastCompleted(events, i) && events[i].result == Returned(result)
  }

  predicate NoneCompleted(events: seq<DispatchEvent>) {
    forall i :: 0 <= i < |events| ==> !events[i].CompletedEvent?
  }

  predicate PassedOn(e: TurnEvent) { e.Problem? || (e.Delta? && e.text != "") }

  lemma DeltasPush(events: seq<TurnEvent>, e: TurnEvent)
    ensures Deltas(events + [e]) == Deltas(events) + if e.Delta? then [e.text] else []
  {
    assert (events + [e])[..|events|] == events;
  }

  /** Nothing but the executor's errors and non-empty pieces of its text is passed on. */
  lemma {:induction false} RelayEmits(events: seq<DispatchEvent>)
    ensures forall i :: 0 <= i < |RelayAll(events).emitted| ==> PassedOn(RelayAll(events).emitted[i])
  {
    if events != [] {
      RelayEmits(events[..|events| - 1]);
    }
  }

  lemma {:induction false} RelayFails(events: seq<DispatchEvent>)
    ensures RelayAll(events).failure.Some? <==> AnyFaulty(events)
  {
    if events != [] {
      var n := |events| - 1;
      RelayFails(events[..n]);
      if AnyFaulty(events[..n]) {
        var i :| 0 <= i < n && Faulty(events[..n][i]);
        assert Faulty(events[i]);
      } else {
        assert forall i :: 0 <= i < n ==> events[..n][i] == events[i];
      }
    }
  }

  /** The result kept is that of the last `completed` event. */
  lemma {:induction false} RelayResult(events: seq<DispatchEvent>)
    requires !AnyFaulty(events)
    ensures RelayAll(events).result.None? <==> NoneCompleted(events)
    ensures RelayAll(events).result.Some? ==> IsLastResult(events, RelayAll(events).result.value)
  {
    if events != [] {
      var n := |events| - 1;
      assert forall i :: 0 <= i < n ==> events[..n][i] == events[i];
      RelayResult(events[..n]);
      RelayFails(events[..n]);
      var before := RelayAll(events[..n]);
      if events[n].CompletedEvent? {
        assert !Faulty(events[n]);
        assert LastCompleted(events, n);
      } else if before.result.Some? {
        var i :| 0 <= i < n && LastCompleted(events[..n], i) && events[..n][i].result == Returned(before.result.value);
        assert LastCompleted(events, i);
      }
    }
  }

  /** Dropping the empty pieces drops no text. */
  lemma {:induction false} RelayText(events: seq<DispatchEvent>)
    requires RelayAll(events).failure.None?
    ensures Joined(Deltas(RelayAll(events).emitted)) == Joined(ExecutorTexts(events))
  {
    if events != [] {
      var n := |events| - 1;
      RelayText(events[..n]);
      RelayOneText(RelayAll(events[..n]), events[n], ExecutorTexts(events[..n]));
    }
  }

  lemma RelayOneText(r: Relay, event: DispatchEvent, texts: seq<string>)
    requires Joined(Deltas(r.emitted)) == Joined(texts)
    ensures Joined(Deltas(RelayOne(r, event).emitted)) == Joined(texts + if event.DeltaEvent? then [event.text] else [])
  {
    hide Joined, Deltas;
    assert texts + [] == texts;
    match event {
      case DeltaEvent(text) =>
        DeltasPush(r.emitted, Delta(text));
        JoinedPush(Deltas(r.emitted), text);
        JoinedPush(texts, text);
      case ErrorEvent(data) =>
        DeltasPush(r.emitted, Problem(data));
        assert Deltas(r.emitted) + [] == Deltas(r.emitted);
      case _ =>
    }
  }

  /** A turn yields nothing when it cannot be prepared, and otherwise starts with its one start event. It has a final
      event exactly when nothing failed, and then as its last event and only there; a result is ingested exactly when
      the executor's stream was read to its end, and once. */
  lemma TurnProtocol(request: ExecutionRequest, keys: seq<string>, dispatch: Dispatch, services: Services)
    ensures var t := TurnOf(request, keys, dispatch, services);
            var events := t.turn.events;
            && (events == [] <==> services.prepare.Some?)
            && (events != [] ==> events[0] == Start(keys) && (events[|events| - 1].Final? <==> t.turn.failure.None?))
            && (forall i :: 0 < i < |events| ==> PassedOn(events[i]) || (i == |events| - 1 && events[i].Final?))
            && (events == [] ==> t.turn.failure.Some?)
            && |t.ingested| == (if services.prepare.Some? || dispatch.failure.Some? || AnyFaulty(dispatch.events) then 0 else 1)
            && |t.sessions| <= |t.ingested|
            && (t.turn.failure.None? ==> |t.sessions| == 1)
  {
    hide AnyFaulty, AddKey, SessionOf, Incomplete;
    RelayFails(dispatch.events);
    RelayEmits(dispatch.events);
    var r, t := RelayAll(dispatch.events), TurnOf(request, keys, dispatch, services);
    hide RelayAll;
    var events := [Start(keys)] + r.emitted;
    assert forall i :: 0 < i < |events| ==> PassedOn(events[i]);
    assert !events[|events| - 1].Final?;
  }

  /** A turn fails exactly when it cannot be prepared, the dispatch stream raises, a completed result is malformed, or
      ingesting the result, building its trace events, saving its session or storing the response raises; error events
      from the executor do not count. */
  lemma TurnFails(request: ExecutionRequest, keys: seq<string>, dispatch: Dispatch, services: Services)
    ensures var t := TurnOf(request, keys, dispatch, services);
            t.turn.failure.None? <==>
              && services.prepare.None? && dispatch.failure.None? && !AnyFaulty(dispatch.events) && t.ingested != []
              && var done := services.ingest(request, t.ingested[0]);
                 && done.Returned? && services.traceEvents(request, done.value).None?
                 && services.saveSession(SessionOf(done.value, AddKey(keys, done.value.outputTicketId))).None?
                 && services.persist(done.value, AddKey(keys, done.value.outputTicketId)).None?
  {
    hide AnyFaulty, RelayAll, AddKey, SessionOf, Incomplete;
    RelayFails(dispatch.events);
  }

  /** The result that is ingested is that of the last `completed` event; a stream without one gets a failed result that
      names the request's Ticket. */
  lemma LastResultIngested(request: ExecutionRequest, keys: seq<string>, dispatch: Dispatch, services: Services)
    requires TurnOf(request, keys, dispatch, services).ingested != []
    ensures var t := TurnOf(request, keys, dispatch, services);
            var result := t.ingested[0];
            if NoneCompleted(dispatch.events)
            then result == ExecutionResult(request.requestId, "none", "failed",
                                           "Execution stream ended before a completed result was produced.",
                                           request.ticketId, request.traceRef, ["execution_stream_incomplete"])
            else IsLastResult(dispatch.events, result)
  {
    hide AnyFaulty, NoneCompleted, IsLastResult, AddKey, SessionOf;
    RelayFails(dispatch.events);
    if RelayAll(dispatch.events).failure.None? {
      RelayResult(dispatch.events);
    }
  }

  /** The text of a turn that ends is the executor's text, whatever else it sent in between. */
  lemma TurnKeepsText(request: ExecutionRequest, keys: seq<string>, dispatch: Dispatch, services: Services)
    requires TurnOf(request, keys, dispatch, services).ingested != []
    ensures Joined(Deltas(TurnOf(request, keys, dispatch, services).turn.events)) == Joined(ExecutorTexts(dispatch.events))
  {
    TurnShape(request, keys, dispatch, services);
    RelayText(dispatch.events);
    hide *;
    var emitted, events := RelayAll(dispatch.events).emitted, TurnOf(request, keys, dispatch, services).turn.events;
    FramedDeltas(keys, emitted, events[|events| - 1]);
  }

  lemma TurnShape(request: ExecutionRequest, keys: seq<string>, dispatch: Dispatch, services: Services)
    requires TurnOf(request, keys, dispatch, services).ingested != []
    ensures RelayAll(dispatch.events).failure.None?
    ensures var events := TurnOf(request, keys, dispatch, services).turn.events;
            var framed := [Start(keys)] + RelayAll(dispatch.events).emitted;
            events == framed || (events != [] && events[|events| - 1].Final? && events == framed + [events[|events| - 1]])
  {
    hide RelayAll, AddKey, SessionOf, Incomplete;
  }

  lemma FramedDeltas(keys: seq<string>, emitted: seq<TurnEvent>, final: TurnEvent)
    ensures Deltas([Start(keys)] + emitted) == Deltas(emitted)
    ensures !final.Delta? ==> Deltas([Start(keys)] + emitted + [final]) == Deltas(emitted)
  {
    DeltasPush([], Start(keys));
    assert [] + [Start(keys)] == [Start(keys)];
    assert Deltas([]) + [] == [];
    DeltasAppend([Start(keys)], emitted);
    DeltasPush([Start(keys)] + emitted, final);
    hide Deltas;
    assert [] + Deltas(emitted) == Deltas(emitted) && Deltas(emitted) + [] == Deltas(emitted);
  }

  lemma {:induction false} DeltasAppend(a: seq<TurnEvent>, b: seq<TurnEvent>)
    ensures Deltas(a + b) == Deltas(a) + Deltas(b)
  {
    if b == [] {
      assert a + b == a;
    } else {
      var n := |b| - 1;
      DeltasAppend(a, b[..n]);
      assert (a + b)[..|a + b| - 1] == a + b[..n];
    }
  }

  lemma AddKeyFacts(keys: seq<string>, key: string)
    ensures keys <= AddKey(keys, key) && |AddKey(keys, key)| <= |keys| + 1
    ensures NoRepeats(keys) ==> NoRepeats(AddKey(keys, key))
    ensures key != "" ==> key in AddKey(keys, key)
  {
  }

  /** Ticket keys are only added to, at most by the result's own Ticket, and never twice; the response carries them, and
      the saved session belongs to one of them. */
  lemma {:induction false} TurnKeepsKeys(request: ExecutionRequest, keys: seq<string>, dispatch: Dispatch, services: Services)
    ensures var t := TurnOf(request, keys, dispatch, services);
            && keys <= t.ticketKeys && |t.ticketKeys| <= |keys| + 1 && (NoRepeats(keys) ==> NoRepeats(t.ticketKeys))
    ensures var t := TurnOf(request, keys, dispatch, services);
            t.sessions != [] && t.ticketKeys != [] ==> t.sessions[0].ticketId in t.ticketKeys
  {
    hide NoRepeats, AddKey, RelayAll, Incomplete;
    var r := RelayAll(dispatch.events);
    var result := if r.result.Some? then r.result.value else Incomplete(request);
    match services.ingest(request, result) {
      case Raised(_) =>
      case Returned(done) => AddKeyFacts(keys, done.outputTicketId);
    }
  }

  /** What a turn that does not fail leaves: the response is the report of the result as ingested, with the Ticket keys; the
      session is the result's, under its Ticket or else under the first key. */
  lemma TurnLeaves(request: ExecutionRequest, keys: seq<string>, dispatch: Dispatch, services: Services)
    requires TurnOf(request, keys, dispatch, services).turn.failure.None?
    ensures var t := TurnOf(request, keys, dispatch, services);
            && |t.ingested| == 1 && services.ingest(request, t.ingested[0]).Returned? && t.turn.events != []
            && var done := services.ingest(request, t.ingested[0]).value;
            && t.ticketKeys == (if done.outputTicketId == "" || done.outputTicketId in keys then keys
                                else keys + [done.outputTicketId])
            && t.turn.events[|t.turn.events| - 1] == Final(Returned(ChatResponse(done.report, t.ticketKeys)))
            && |t.sessions| == 1 && t.sessions[0].executorId == done.executorId && t.sessions[0].requestId == done.requestId
            && t.sessions[0].ticketId == (if done.outputTicketId != "" then done.outputTicketId
                                          else if t.ticketKeys == [] then "" else t.ticketKeys[0])
  {
    hide RelayAll, Incomplete;
  }
}
