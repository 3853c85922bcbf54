/**
 * The per-session helpers of the WebSocket endpoint: the 1-based navigation
 * wrapper, the frontend control-message dispatch, the "connection closed"
 * classifier and the projection of tool responses into client events.
 */
module Session {
  import opened Common
  import opened Json
  import opened Text
  import opened SlideState
  import opened Tools
  import opened SlideToolkit

  const NavigateToolName := "navigate_slide"

  // ---------------------------------------------------------------------------
  // The navigation tool wrapper: slide numbers from the model are 1-based
  // ---------------------------------------------------------------------------

  /** The index passed on to the slide tools for a request from the model. */
  function BackendIndex(direction: string, index: Option<int>): (r: Option<int>)
    ensures r.Some? <==> index.Some?
    // only "jump" indices are converted
    ensures direction != JumpDirection ==> r == index
    // slide number n >= 1 is index n - 1; anything lower is the first slide
    ensures direction == JumpDirection && index.Some? && index.value >= 1 ==> r == Some(index.value - 1)
    ensures direction == JumpDirection && index.Some? && index.value < 1 ==> r == Some(0)
  {
    if direction == JumpDirection && index.Some? then Some(Max(0, index.value - 1))
    else index
  }

  /** Jumping to slide number `n` of a deck of `total` slides lands on index `n - 1`. */
  lemma JumpToSlideNumber(current: int, total: int, n: int)
    requires 1 <= n <= total
    ensures NavigationTarget(current, total, JumpDirection, BackendIndex(JumpDirection, Some(n))) == Ok(n - 1)
  {
  }

  /** The registered navigation tool: converts the index, then navigates. */
  method NavigateSlideWrapper(tools: SlideTools, direction: string, index: Option<int>) returns (r: Value)
    requires tools.state.Valid()
    modifies tools.state
    ensures tools.state.Valid()
    ensures tools.state.totalSlides == old(tools.state.totalSlides)
    ensures tools.state.sessionMetadata == old(tools.state.sessionMetadata)
    ensures var target := NavigationTarget(old(tools.state.currentSlide), old(tools.state.totalSlides),
                                           direction, BackendIndex(direction, index));
            && tools.state.currentSlide == (if target.Ok? then target.value else old(tools.state.currentSlide))
            && r == (if target.Ok? then NavigateSuccessRecord(direction, target.value, tools.state.totalSlides)
                     else NavigateFailureRecord(target.error))
  {
    if direction == JumpDirection && index.Some? {
      var backendIndex := Max(0, index.value - 1);
      r := tools.NavigateSlide(direction, Some(backendIndex));
      return;
    }
    r := tools.NavigateSlide(direction, index);
  }

  // ---------------------------------------------------------------------------
  // Frontend control messages
  // ---------------------------------------------------------------------------

  /** A parsed control message: its `type` and the two optional slide fields. */
  datatype FrontendMessage = FrontendMessage(msgType: Option<string>, totalSlides: Option<int>, currentSlide: Option<int>)

  /** `message.get(key, 0)` for an integer field. */
  function OrZero(field: Option<int>): int
  {
    match field
    case None => 0
    case Some(v) => v
  }

  /**
   * `slide_info` sets the slide count and then the position, `slide_sync`
   * sets only the position (missing fields count as 0, negatives become 0);
   * every other message leaves the state alone.
   */
  method HandleFrontendMessage(state: StateManager, message: FrontendMessage)
    requires state.Valid()
    modifies state
    ensures state.Valid()
    ensures state.sessionMetadata == old(state.sessionMetadata)
    ensures message.msgType == Some("slide_info") ==>
              && state.totalSlides == Max(0, OrZero(message.totalSlides))
              && state.currentSlide == Max(0, OrZero(message.currentSlide))
    ensures message.msgType == Some("slide_sync") ==>
              && state.totalSlides == old(state.totalSlides)
              && state.currentSlide == Max(0, OrZero(message.currentSlide))
    ensures message.msgType != Some("slide_info") && message.msgType != Some("slide_sync") ==>
              state.totalSlides == old(state.totalSlides) && state.currentSlide == old(state.currentSlide)
  {
    if message.msgType == Some("slide_info") {
      var total := OrZero(message.totalSlides);
      var current := OrZero(message.currentSlide);
      state.SetTotalSlides(total);
      state.SetCurrentSlide(current);
    } else if message.msgType == Some("slide_sync") {
      var current := OrZero(message.currentSlide);
      state.SetCurrentSlide(current);
    }
  }

  // ---------------------------------------------------------------------------
  // Classifying transport errors
  // ---------------------------------------------------------------------------

  /**
   * An error means the remote stream closed when its lower-cased text
   * mentions "1011" or "closed": exactly when one of the two words occurs at
   * some position of the lower-cased text.
   */
  function IsConnectionClosed(error: string): (closed: bool)
    ensures closed <==>
              (exists i :: OccursAt(Lower(error), "1011", i)) || (exists i :: OccursAt(Lower(error), "closed", i))
  {
    ContainsIff(Lower(error), "1011");
    ContainsIff(Lower(error), "closed");
    assert Contains(Lower(error), "1011") ==> exists i :: OccursAt(Lower(error), "1011", i) by {
      if Contains(Lower(error), "1011") {
        var i :| OccursAt(Lower(error), "1011", i);
      }
    }
    assert Contains(Lower(error), "closed") ==> exists i :: OccursAt(Lower(error), "closed", i) by {
      if Contains(Lower(error), "closed") {
        var i :| OccursAt(Lower(error), "closed", i);
      }
    }
    Contains(Lower(error), "1011") || Contains(Lower(error), "closed")
  }

  /** Any text that mentions "1011" or "closed", in any letter case, is classified as closed. */
  lemma ClosedWhenMentioned(before: string, word: string, after: string)
    requires Lower(word) == "1011" || Lower(word) == "closed"
    ensures IsConnectionClosed(before + word + after)
  {
    LowerConcat(before + word, after);
    LowerConcat(before, word);
    assert Lower(before + word + after) == Lower(before) + Lower(word) + Lower(after);
    ContainsPiece(Lower(before), Lower(word), Lower(after));
  }

  /** The classification does not depend on letter case. */
  lemma ClassificationIgnoresCase(error: string)
    ensures IsConnectionClosed(Lower(error)) == IsConnectionClosed(error)
  {
    LowerIdempotent(error);
  }

  // ---------------------------------------------------------------------------
  // Tool-call batches and the client events they produce
  // ---------------------------------------------------------------------------

  /** One function call of a tool-call batch. */
  datatype FunctionCall = FunctionCall(id: string, name: string, args: Option<Args>)

  /** `dict(fc.args) if fc.args else {}`. */
  function CallArgs(call: FunctionCall): Args
  {
    ArgsOrEmpty(call.args)
  }

  datatype ClientEvent =
    | IntentDetected(tool: string, args: Args)
    | SlideCommand(action: Value, slideIndex: int, status: string)
    | ToolResult(tool: string, status: string, data: Value)

  /**
   * The client event a tool response is projected into. For the navigation
   * tool the slide index is read from the result record (0 when absent);
   * when the data is not a record, or the index is not an integer, the
   * projection raises, the error is logged, and no event is sent.
   */
  function ClientEventFor(name: string, args: Args, response: ToolResponse): (e: Option<ClientEvent>)
    ensures name != NavigateToolName ==>
              e == Some(ToolResult(name, StatusText(response.status), response.data))
    ensures name == NavigateToolName && e.Some? ==>
              && e.value.SlideCommand?
              && e.value.action == Get(args, "direction", Str("unknown"))
              && e.value.status == StatusText(response.status)
              && response.data.Object?
              && Get(response.data.fields, "current_slide", Int(0)) == Int(e.value.slideIndex)
    ensures name == NavigateToolName ==>
              (e.Some? <==> response.data.Object? && Get(response.data.fields, "current_slide", Int(0)).Int?)
  {
    if name == NavigateToolName then
      match response.data
      case Object(fields) =>
        (match Get(fields, "current_slide", Int(0))
         case Int(i) => Some(SlideCommand(Get(args, "direction", Str("unknown")), i, StatusText(response.status)))
         case _ => None)
      case _ => None
    else
      Some(ToolResult(name, StatusText(response.status), response.data))
  }

  /** A successful navigation is shown to the client as a command to the new slide. */
  lemma NavigationEventShowsNewSlide(args: Args, direction: string, current: int, total: int)
    ensures ClientEventFor(NavigateToolName, args, ToolResponse(Success, NavigateSuccessRecord(direction, current, total), None))
            == Some(SlideCommand(Get(args, "direction", Str("unknown")), current, "success"))
  {
  }

  /**
   * A navigation that failed inside the tool (for example "jump" without an
   * index) still reaches the client as a successful command to slide 0,
   * because the tool returned a record and the record has no position.
   */
  lemma FailedNavigationEventPointsAtFirstSlide(args: Args, error: string)
    ensures ClientEventFor(NavigateToolName, args, ToolResponse(Success, NavigateFailureRecord(error), None))
            == Some(SlideCommand(Get(args, "direction", Str("unknown")), 0, "success"))
  {
  }

  /** A navigation call whose handler raised produces no client event at all. */
  lemma RaisedNavigationHasNoEvent(args: Args, message: string)
    ensures ClientEventFor(NavigateToolName, args, ToolResponse(Error, Null, Some(message))) == None
  {
  }

  /** The events of one call: the intent announcement, then the projected result if any. */
  function CallEvents(call: FunctionCall, response: FunctionResponse): seq<ClientEvent>
  {
    [IntentDetected(call.name, CallArgs(call))]
    + match ClientEventFor(call.name, CallArgs(call), response.response)
      case Some(e) => [e]
      case None => []
  }

  /** The events of a batch, call by call. */
  function BatchEvents(calls: seq<FunctionCall>, responses: seq<FunctionResponse>): seq<ClientEvent>
    requires |calls| == |responses|
    decreases |calls|
  {
    if calls == [] then []
    else BatchEvents(calls[..|calls| - 1], responses[..|responses| - 1])
         + CallEvents(calls[|calls| - 1], responses[|responses| - 1])
  }

  function CountIntents(events: seq<ClientEvent>): nat
    decreases |events|
  {
    if events == [] then 0
    else CountIntents(events[..|events| - 1]) + (if events[|events| - 1].IntentDetected? then 1 else 0)
  }

  lemma {:induction false} CountIntentsAppend(a: seq<ClientEvent>, b: seq<ClientEvent>)
    ensures CountIntents(a + b) == CountIntents(a) + CountIntents(b)
    decreases |b|
  {
    if b != [] {
      assert (a + b)[..|a + b| - 1] == a + b[..|b| - 1];
      CountIntentsAppend(a, b[..|b| - 1]);
    } else {
      assert a + b == a;
    }
  }

  /**
   * Every call of a batch is announced exactly once, and each call adds at
   * most one result event: a batch of n calls yields n to 2n events.
   */
  lemma {:induction false} BatchEventsAnnounceEveryCall(calls: seq<FunctionCall>, responses: seq<FunctionResponse>)
    requires |calls| == |responses|
    ensures CountIntents(BatchEvents(calls, responses)) == |calls|
    ensures |calls| <= |BatchEvents(calls, responses)| <= 2 * |calls|
    decreases |calls|
  {
    if calls != [] {
      var n := |calls| - 1;
      BatchEventsAnnounceEveryCall(calls[..n], responses[..n]);
      var tail := CallEvents(calls[n], responses[n]);
      CountIntentsAppend(BatchEvents(calls[..n], responses[..n]), tail);
      assert CountIntents(tail) == 1 by {
        var intent := [IntentDetected(calls[n].name, CallArgs(calls[n]))];
        assert intent[..0] == [];
        assert CountIntents(intent) == 1;
        if |tail| == 2 {
          assert tail[..1] == intent;
          assert !tail[1].IntentDetected?;
        } else {
          assert tail == intent;
        }
      }
    }
  }

  /** Taking one more call of a batch adds that call's events at the end. */
  lemma BatchEventsStep(calls: seq<FunctionCall>, i: nat, responses: seq<FunctionResponse>, response: FunctionResponse)
    requires |responses| == i < |calls|
    ensures BatchEvents(calls[..i + 1], responses + [response])
            == BatchEvents(calls[..i], responses) + CallEvents(calls[i], response)
  {
    var longer := responses + [response];
    assert calls[..i + 1][..i] == calls[..i] && calls[..i + 1][i] == calls[i];
    assert longer[..i] == responses && longer[i] == response;
  }

  /** The executor's answers to a batch, call by call. */
  function Answers(executor: ToolExecutor, calls: seq<FunctionCall>): (rs: seq<FunctionResponse>)
    reads executor
    ensures |rs| == |calls|
    decreases |calls|
  {
    if calls == [] then []
    else
      var last := calls[|calls| - 1];
      Answers(executor, calls[..|calls| - 1]) + [executor.ExecuteTool(last.name, last.id, Some(CallArgs(last)))]
  }

  /** Answer k of a batch is the executor's answer to call k. */
  lemma {:induction false} AnswersAt(executor: ToolExecutor, calls: seq<FunctionCall>)
    ensures forall k :: 0 <= k < |calls| ==>
              Answers(executor, calls)[k] == executor.ExecuteTool(calls[k].name, calls[k].id, Some(CallArgs(calls[k])))
    decreases |calls|
  {
    if calls != [] {
      var n := |calls| - 1;
      AnswersAt(executor, calls[..n]);
      forall k | 0 <= k < n
        ensures Answers(executor, calls)[k] == executor.ExecuteTool(calls[k].name, calls[k].id, Some(CallArgs(calls[k])))
      {
        assert calls[..n][k] == calls[k];
      }
    }
  }

  /** Taking one more call of a batch appends that call's answer. */
  lemma AnswersStep(executor: ToolExecutor, calls: seq<FunctionCall>, i: nat)
    requires i < |calls|
    ensures Answers(executor, calls[..i + 1])
            == Answers(executor, calls[..i]) + [executor.ExecuteTool(calls[i].name, calls[i].id, Some(CallArgs(calls[i])))]
  {
    assert calls[..i + 1][..i] == calls[..i] && calls[..i + 1][i] == calls[i];
  }

  /** One call of a batch: announce the intent, execute, then send the projected result if any. */
  method ProcessToolCall(executor: ToolExecutor, call: FunctionCall) returns (result: FunctionResponse, events: seq<ClientEvent>)
    ensures result == executor.ExecuteTool(call.name, call.id, Some(CallArgs(call)))
    ensures result.id == call.id && result.name == call.name
    ensures events == CallEvents(call, result)
  {
    var args := CallArgs(call);
    events := [IntentDetected(call.name, args)];
    result := executor.ExecuteTool(call.name, call.id, Some(args));
    var event := ClientEventFor(call.name, args, result.response);
    if event.Some? {
      events := events + [event.value];
    }
  }

  /**
   * Runs a tool-call batch: one response per call, in call order, each the
   * executor's answer for that call, together with the events sent to the client.
   */
  method ProcessToolCalls(executor: ToolExecutor, calls: seq<FunctionCall>)
    returns (responses: seq<FunctionResponse>, events: seq<ClientEvent>)
    ensures responses == Answers(executor, calls)
    ensures |responses| == |calls|
    ensures forall k :: 0 <= k < |calls| ==>
              responses[k] == executor.ExecuteTool(calls[k].name, calls[k].id, Some(CallArgs(calls[k])))
    ensures forall k :: 0 <= k < |calls| ==> responses[k].id == calls[k].id && responses[k].name == calls[k].name
    ensures events == BatchEvents(calls, responses)
  {
    responses := [];
    events := [];
    for i := 0 to |calls|
      invariant responses == Answers(executor, calls[..i])
      invariant events == BatchEvents(calls[..i], responses)
    {
      var result, callEvents := ProcessToolCall(executor, calls[i]);
      AnswersStep(executor, calls, i);
      BatchEventsStep(calls, i, responses, result);
      events := events + callEvents;
      responses := responses + [result];
    }
    assert calls[..|calls|] == calls;
    AnswersAt(executor, calls);
  }
}
