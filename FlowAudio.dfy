/**
  The `/ws/{flow_id}` endpoint of the voice relay: it finds the flow's first
  ChatInput node, queues every client message until `end_stream`, then a
  `None` sentinel, and a consumer runs each queued event through the flow.
  The consumer runs after the receive loop here; the interleaving of the two
  tasks is not modelled.
 */
module FlowAudio {
  import opened Results
  import opened Json
  import opened VoiceRelay
  import opened Strings

  // ---------------------------------------------------------------------
  // queue_generator

  /** The items a consumer of the queue reads before the first `None`. */
  function UntilSentinel<T>(queue: seq<Option<T>>): seq<T>
    decreases |queue|
  {
    if queue == [] || queue[0].None? then [] else [queue[0].value] + UntilSentinel(queue[1..])
  }

  /** The queue entries `put` for the given items. */
  function Wrapped<T>(items: seq<T>): (r: seq<Option<T>>)
    ensures |r| == |items|
    ensures forall i :: 0 <= i < |items| ==> r[i] == Some(items[i])
  {
    seq(|items|, i requires 0 <= i < |items| => Some(items[i]))
  }

  /** Whatever follows the sentinel, the consumer reads back exactly the items put before it. */
  lemma {:induction false} SentinelRoundTrip<T>(items: seq<T>, later: seq<Option<T>>)
    ensures UntilSentinel(Wrapped(items) + [None] + later) == items
    decreases |items|
  {
    var queue := Wrapped(items) + [None] + later;
    if items == [] {
      assert queue[0] == None;
    } else {
      assert queue[0] == Some(items[0]);
      assert queue[1..] == Wrapped(items[1..]) + [None] + later;
      SentinelRoundTrip(items[1..], later);
    }
  }

  lemma UntilSentinelStep<T>(queue: seq<Option<T>>, i: int)
    requires 0 <= i < |queue| && queue[i].Some?
    ensures UntilSentinel(queue[i..]) == [queue[i].value] + UntilSentinel(queue[i + 1..])
  {
    assert queue[i..][1..] == queue[i + 1..];
  }

  lemma Regroup<T>(done: seq<T>, x: T, rest: seq<T>)
    ensures done + ([x] + rest) == (done + [x]) + rest
  {
  }

  /**
    `queue_generator`: yields each item it takes from the queue and stops at
    the first `None`. `finished` is false when the queue runs dry first, where
    the generator would wait for more.
   */
  method QueueGenerator<T>(queue: seq<Option<T>>) returns (items: seq<T>, finished: bool)
    ensures items == UntilSentinel(queue)
    ensures finished <==> None in queue
  {
    items := [];
    var i := 0;
    while i < |queue| && queue[i].Some?
      invariant 0 <= i <= |queue|
      invariant forall j :: 0 <= j < i ==> queue[j].Some?
      invariant items + UntilSentinel(queue[i..]) == UntilSentinel(queue)
    {
      UntilSentinelStep(queue, i);
      Regroup(items, queue[i].value, UntilSentinel(queue[i + 1..]));
      items := items + [queue[i].value];
      i := i + 1;
    }
    finished := i < |queue|;
    if finished {
      assert queue[i] == None;
    }
  }

  // ---------------------------------------------------------------------
  // The ChatInput lookup

  const ChatInputType := JStr("ChatInput")
  const NoChatInputCode := 4004
  const NoChatInputReason := "No ChatInput component found in flow"

  function FlowNotFound(flowId: string): string {
    "Flow with id " + flowId + " not found"
  }

  /**
    `for node in nodes`: a list yields its items and a str its characters; a
    non-empty dict yields its keys, and the first of them, a str, raises on
    `.get`; the other types are not iterable.
   */
  function Elements(nodes: Json): Result<seq<Json>, string> {
    match nodes
    case JArr(items) => Ok(items)
    case JStr(s) => Ok(seq(|s|, i requires 0 <= i < |s| => JStr([s[i]])))
    case JObj(fields) => if fields == map[] then Ok([]) else Err("'str' object has no attribute 'get'")
    case _ => Err("'" + TypeName(nodes) + "' object is not iterable")
  }

  /** `node.get("data", {}).get("type") == "ChatInput"` */
  function IsChatInput(node: Json): (r: Result<bool, string>)
    ensures r.Ok? ==> node.JObj?
  {
    match Get(node, "data", JObj(map[]))
    case Err(e) => Err(e)
    case Ok(data) =>
      match Get(data, "type", JNull)
      case Err(e) => Err(e)
      case Ok(kind) => Ok(kind == ChatInputType)
  }

  /** The `id` of the first ChatInput node, `None` when there is none, or the error a node raises first. */
  function FirstChatInput(nodes: seq<Json>): Result<Option<Json>, string>
    decreases |nodes|
  {
    if nodes == [] then Ok(None)
    else
      match IsChatInput(nodes[0])
      case Err(e) => Err(e)
      case Ok(found) =>
        if found then Ok(Some(Lookup(nodes[0].fields, "id", JNull))) else FirstChatInput(nodes[1..])
  }

  /** How the endpoint proceeds after looking for the ChatInput. */
  datatype Opening =
    | Listening(chatInputId: Json)
    | Closed(code: int, reason: string)
    | Aborted(error: string)

  /** A falsy or missing id closes the socket just as a missing ChatInput does. */
  function Decide(found: Option<Json>): Opening {
    if found.Some? && Truthy(found.value) then Listening(found.value) else Closed(NoChatInputCode, NoChatInputReason)
  }

  function OpeningOf(flowId: string, flow: Option<Json>): Opening {
    if flow.None? then Aborted(FlowNotFound(flowId))
    else
      match Get(flow.value, "nodes", JArr([]))
      case Err(e) => Aborted(e)
      case Ok(nodes) =>
        match Elements(nodes)
        case Err(e) => Aborted(e)
        case Ok(items) =>
          match FirstChatInput(items)
          case Err(e) => Aborted(e)
          case Ok(found) => Decide(found)
  }

  /** The lookup in `flow_audio_websocket`, stopping at the first ChatInput. */
  method LocateChatInput(flowId: string, flow: Option<Json>) returns (opening: Opening)
    ensures opening == OpeningOf(flowId, flow)
  {
    if flow.None? {
      return Aborted(FlowNotFound(flowId));
    }
    var nodes := Get(flow.value, "nodes", JArr([]));
    if nodes.Err? {
      return Aborted(nodes.error);
    }
    var elements := Elements(nodes.value);
    if elements.Err? {
      return Aborted(elements.error);
    }
    var items := elements.value;
    var chatInputId: Option<Json> := None;
    var i := 0;
    while i < |items|
      invariant 0 <= i <= |items|
      invariant chatInputId.None? ==> FirstChatInput(items) == FirstChatInput(items[i..])
      invariant chatInputId.Some? ==> FirstChatInput(items) == Ok(chatInputId)
    {
      assert items[i..][1..] == items[i + 1..];
      var isChatInput := IsChatInput(items[i]);
      if isChatInput.Err? {
        return Aborted(isChatInput.error);
      }
      if isChatInput.value {
        chatInputId := Some(Lookup(items[i].fields, "id", JNull));
        break;
      }
      i := i + 1;
    }
    opening := Decide(chatInputId);
  }

  /** Every node before `k` is read and is not a ChatInput. */
  predicate PassedOver(nodes: seq<Json>, k: int)
    requires 0 <= k <= |nodes|
  {
    forall j :: 0 <= j < k ==> IsChatInput(nodes[j]) == Ok(false)
  }

  /** The lookup picks the id of the first ChatInput, whatever follows it. */
  lemma {:induction false} FirstChatInputAt(nodes: seq<Json>, k: int)
    requires 0 <= k < |nodes|
    requires PassedOver(nodes, k)
    requires IsChatInput(nodes[k]) == Ok(true)
    ensures FirstChatInput(nodes) == Ok(Some(Lookup(nodes[k].fields, "id", JNull)))
    decreases k
  {
    if k > 0 {
      assert IsChatInput(nodes[0]) == Ok(false);
      assert nodes[1..][k - 1] == nodes[k];
      assert PassedOver(nodes[1..], k - 1) by {
        forall j | 0 <= j < k - 1
          ensures IsChatInput(nodes[1..][j]) == Ok(false)
        {
          assert nodes[1..][j] == nodes[j + 1];
        }
      }
      FirstChatInputAt(nodes[1..], k - 1);
    }
  }

  /** A found id always comes from a ChatInput node with only non-ChatInput nodes before it. */
  lemma {:induction false} FirstChatInputFound(nodes: seq<Json>, id: Json)
    requires FirstChatInput(nodes) == Ok(Some(id))
    ensures exists k :: 0 <= k < |nodes| && PassedOver(nodes, k) && IsChatInput(nodes[k]) == Ok(true)
                        && id == Lookup(nodes[k].fields, "id", JNull)
    decreases |nodes|
  {
    if IsChatInput(nodes[0]) == Ok(true) {
      assert PassedOver(nodes, 0);
    } else {
      FirstChatInputFound(nodes[1..], id);
      var k :| 0 <= k < |nodes[1..]| && PassedOver(nodes[1..], k) && IsChatInput(nodes[1..][k]) == Ok(true)
                && id == Lookup(nodes[1..][k].fields, "id", JNull);
      assert nodes[1..][k] == nodes[k + 1];
      assert PassedOver(nodes, k + 1) by {
        forall j | 0 <= j < k + 1
          ensures IsChatInput(nodes[j]) == Ok(false)
        {
          if j > 0 {
            assert nodes[j] == nodes[1..][j - 1];
          }
        }
      }
    }
  }

  /** Nodes that are all read and none a ChatInput close the socket with 4004. */
  lemma {:induction false} NoChatInputCloses(nodes: seq<Json>)
    requires PassedOver(nodes, |nodes|)
    ensures FirstChatInput(nodes) == Ok(None)
    ensures Decide(None) == Closed(NoChatInputCode, NoChatInputReason)
    decreases |nodes|
  {
    if nodes != [] {
      assert IsChatInput(nodes[0]) == Ok(false);
      assert PassedOver(nodes[1..], |nodes[1..]|) by {
        forall j | 0 <= j < |nodes[1..]|
          ensures IsChatInput(nodes[1..][j]) == Ok(false)
        {
          assert nodes[1..][j] == nodes[j + 1];
        }
      }
      NoChatInputCloses(nodes[1..]);
    }
  }

  // ---------------------------------------------------------------------
  // The receive loop and the queue protocol

  /** What `receive_json` hands the loop: a decoded message, a disconnect, or another exception. */
  datatype Received = Message(message: Json) | Disconnect | ReceiveError(error: string)

  const EndStream := JStr("end_stream")

  /** `{"type": "error", "message": message}` */
  function ErrorReport(message: string): Json {
    JObj(map["type" := JStr("error"), "message" := JStr(message)])
  }

  /** The messages put on the queue and the error reports sent to the client. */
  datatype Intake = Intake(queued: seq<Json>, toClient: seq<Json>)

  /**
    The receive loop: each message goes on the queue until `end_stream`; a
    disconnect ends it quietly and any other exception, including `.get` on a
    message that is not a dict, ends it with an error report. The end of
    `incoming` is the connection going away.
   */
  function Receive(incoming: seq<Received>): Intake
    decreases |incoming|
  {
    if incoming == [] then Intake([], [])
    else
      match incoming[0]
      case Disconnect => Intake([], [])
      case ReceiveError(e) => Intake([], [ErrorReport(e)])
      case Message(m) =>
        match Get(m, "type", JNull)
        case Err(e) => Intake([], [ErrorReport(e)])
        case Ok(kind) =>
          if kind == EndStream then Intake([], [])
          else
            var rest := Receive(incoming[1..]);
            Intake([m] + rest.queued, rest.toClient)
  }

  /**
    The receive loop followed by the `finally` clause: the queue ends with
    exactly one `None`, after every message that was put on it.
   */
  method ReceiveLoop(incoming: seq<Received>) returns (queue: seq<Option<Json>>, toClient: seq<Json>)
    ensures queue == Wrapped(Receive(incoming).queued) + [None]
    ensures toClient == Receive(incoming).toClient
  {
    var queued: seq<Json> := [];
    toClient := [];
    var i := 0;
    var receiving := true;
    while receiving && i < |incoming|
      invariant 0 <= i <= |incoming|
      invariant receiving ==> toClient == [] && queued + Receive(incoming[i..]).queued == Receive(incoming).queued
                              && Receive(incoming[i..]).toClient == Receive(incoming).toClient
      invariant !receiving ==> queued == Receive(incoming).queued && toClient == Receive(incoming).toClient
      decreases |incoming| - i, receiving
    {
      assert incoming[i..][1..] == incoming[i + 1..];
      match incoming[i]
      case Disconnect =>
        assert queued + [] == queued;
        receiving := false;
      case ReceiveError(e) =>
        assert queued + [] == queued;
        toClient := [ErrorReport(e)];
        receiving := false;
      case Message(m) =>
        var kind := Get(m, "type", JNull);
        if kind.Err? {
          assert queued + [] == queued;
          toClient := [ErrorReport(kind.error)];
          receiving := false;
        } else if kind.value == EndStream {
          assert queued + [] == queued;
          receiving := false;
        } else {
          assert queued + ([m] + Receive(incoming[i + 1..]).queued) == (queued + [m]) + Receive(incoming[i + 1..]).queued;
          queued := queued + [m];
          i := i + 1;
        }
    }
    if receiving {
      assert incoming[i..] == [];
      assert queued + [] == queued;
    }
    queue := Wrapped(queued) + [None];
  }

  /** A message the loop puts on the queue: a dict whose `type` is not `end_stream`. */
  predicate Queueable(m: Json) {
    m.JObj? && Lookup(m.fields, "type", JNull) != EndStream
  }

  function Messages(ms: seq<Json>): (r: seq<Received>)
    ensures |r| == |ms|
    ensures forall i :: 0 <= i < |ms| ==> r[i] == Message(ms[i])
  {
    seq(|ms|, i requires 0 <= i < |ms| => Message(ms[i]))
  }

  /**
    Messages followed by `end_stream` are queued exactly, in order, with no
    error report, whatever the client would have sent afterwards.
   */
  lemma {:induction false} EndStreamQueuesEverything(ms: seq<Json>, end: Json, later: seq<Received>)
    requires forall i :: 0 <= i < |ms| ==> Queueable(ms[i])
    requires end.JObj? && Lookup(end.fields, "type", JNull) == EndStream
    ensures Receive(Messages(ms) + [Message(end)] + later) == Intake(ms, [])
    decreases |ms|
  {
    var incoming := Messages(ms) + [Message(end)] + later;
    if ms == [] {
      assert incoming[0] == Message(end);
    } else {
      assert incoming[0] == Message(ms[0]);
      assert Queueable(ms[0]);
      assert incoming[1..] == Messages(ms[1..]) + [Message(end)] + later;
      EndStreamQueuesEverything(ms[1..], end, later);
    }
  }

  /** Every queued message is a dict that is not `end_stream`, and it was received, in order. */
  lemma {:induction false} QueuedAreQueueable(incoming: seq<Received>)
    ensures forall i :: 0 <= i < |Receive(incoming).queued| ==> Queueable(Receive(incoming).queued[i])
    ensures |Receive(incoming).queued| <= |incoming|
    ensures forall i :: 0 <= i < |Receive(incoming).queued| ==> incoming[i] == Message(Receive(incoming).queued[i])
    decreases |incoming|
  {
    if incoming != [] && incoming[0].Message? && Get(incoming[0].message, "type", JNull).Ok?
       && Get(incoming[0].message, "type", JNull).value != EndStream {
      QueuedAreQueueable(incoming[1..]);
      var rest := Receive(incoming[1..]).queued;
      assert Receive(incoming).queued == [incoming[0].message] + rest;
      forall i | 0 < i < |Receive(incoming).queued|
        ensures incoming[i] == Message(Receive(incoming).queued[i])
      {
        assert incoming[1..][i - 1] == incoming[i];
      }
    }
  }

  /** The consumer of the queue reads back exactly the messages the receive loop queued. */
  lemma ConsumerSeesQueued(incoming: seq<Received>, queue: seq<Option<Json>>)
    requires queue == Wrapped(Receive(incoming).queued) + [None]
    ensures UntilSentinel(queue) == Receive(incoming).queued
    ensures multiset(queue)[None] == 1
  {
    var queued := Receive(incoming).queued;
    SentinelRoundTrip(queued, []);
    assert Wrapped(queued) + [None] + [] == queue;
    assert None !in Wrapped(queued);
    assert multiset(queue) == multiset(Wrapped(queued)) + multiset{None};
  }

  // ---------------------------------------------------------------------
  // process_events

  /** `.get("data", {}).get("build_data", "").get("data", {}).get("results", {}).get("message", {}).get("transcript", {}).get("raw", {}).get("text", "")` */
  const TranscriptPath := [Link("data", JObj(map[])), Link("build_data", JStr("")), Link("data", JObj(map[])),
                           Link("results", JObj(map[])), Link("message", JObj(map[])), Link("transcript", JObj(map[])),
                           Link("raw", JObj(map[])), Link("text", JStr(""))]

  const FlowErrorPrefix := "Flow processing error: "

  function TranscriptText(event: Json): Result<string, string> {
    EventText(event, TranscriptPath)
  }

  /**
    `InputValueRequest(components=[chat_input_id], ...)`: the schema types
    `components` as a list of str, so an id that is not a str is refused.
    The request is built before the inner `try`, so a refusal is only logged
    by the outer `except`, and no report is sent.
   */
  predicate RequestAccepted(chatInputId: Json) {
    chatInputId.JStr?
  }

  /** One queued event run through the flow with the ChatInput as its input component. */
  function ProcessEvent(chatInputId: Json, event: Json, parse: string -> Result<Json, string>,
                        runFlow: (Json, Json) -> Result<seq<string>, string>): Result<string, string>
  {
    match runFlow(chatInputId, event)
    case Err(e) => Err(e)
    case Ok(lines) => CollectToolOutput(lines, parse, TranscriptText).result
  }

  /**
    With a flow run that hands back its event stream, as `build_flow` does when
    awaited, an event whose lines all read cleanly is processed to the
    concatenated transcript texts and sends no report.
   */
  lemma ProcessedEventSilent(chatInputId: Json, event: Json, parse: string -> Result<Json, string>,
                             runFlow: (Json, Json) -> Result<seq<string>, string>)
    requires runFlow(chatInputId, event).Ok?
    requires AllClean(runFlow(chatInputId, event).value, parse, TranscriptText)
    ensures ProcessEvent(chatInputId, event, parse, runFlow) ==
            Ok(Concat(ResultTexts(runFlow(chatInputId, event).value, parse, TranscriptText)))
    ensures Report(ProcessEvent(chatInputId, event, parse, runFlow)) == []
  {
    CollectToolOutputCorrect(runFlow(chatInputId, event).value, parse, TranscriptText);
  }

  /** The AttributeError of reading `body_iterator` off a coroutine object. */
  const CoroutineError := "'coroutine' object has no attribute 'body_iterator'"

  /**
    `safe_build_flow` as written: `build_flow` is a coroutine function (it is
    awaited directly in `handle_function_call`), so running it in a thread
    only creates the coroutine, and `process_events` then fails to read
    `response.body_iterator` off it.
   */
  function SafeBuildFlowAsWritten(chatInputId: Json, event: Json): (r: Result<seq<string>, string>)
    ensures r.Err?
  {
    Err(CoroutineError)
  }

  /**
    As written, no queued event reaches the flow's output: with a str id
    every event is answered with the same error report, one per event.
   */
  lemma AsWrittenEveryEventFails(chatInputId: Json, events: seq<Json>, parse: string -> Result<Json, string>)
    ensures var reports := SessionReports(chatInputId, events, parse, SafeBuildFlowAsWritten);
            |reports| == (if chatInputId.JStr? then |events| else 0) &&
            forall k :: 0 <= k < |reports| ==> reports[k] == ErrorReport(FlowErrorPrefix + CoroutineError)
  {
    ReportsAllFailed(Outcomes(chatInputId, events, parse, SafeBuildFlowAsWritten), CoroutineError);
  }

  /** Outcomes that all raised the same error give one identical report each. */
  lemma {:induction false} ReportsAllFailed(outcomes: seq<Result<string, string>>, e: string)
    requires forall i :: 0 <= i < |outcomes| ==> outcomes[i] == Err(e)
    ensures |Reports(outcomes)| == |outcomes|
    ensures forall k :: 0 <= k < |Reports(outcomes)| ==> Reports(outcomes)[k] == ErrorReport(FlowErrorPrefix + e)
    decreases |outcomes|
  {
    if outcomes != [] {
      assert forall i :: 0 <= i < |outcomes[1..]| ==> outcomes[1..][i] == outcomes[i + 1];
      ReportsAllFailed(outcomes[1..], e);
    }
  }

  /** `{"type": "error", "message": "Flow processing error: ..."}` when processing raised, nothing otherwise. */
  function Report(outcome: Result<string, string>): seq<Json> {
    if outcome.Err? then [ErrorReport(FlowErrorPrefix + outcome.error)] else []
  }

  /** The reports sent to the client for a run of outcomes, in order. */
  function Reports(outcomes: seq<Result<string, string>>): seq<Json>
    decreases |outcomes|
  {
    if outcomes == [] then [] else Report(outcomes[0]) + Reports(outcomes[1..])
  }

  /** The outcome of each event, processed on its own. */
  function Outcomes(chatInputId: Json, events: seq<Json>, parse: string -> Result<Json, string>,
                    runFlow: (Json, Json) -> Result<seq<string>, string>): (r: seq<Result<string, string>>)
    ensures |r| == |events|
    ensures forall i :: 0 <= i < |events| ==> r[i] == ProcessEvent(chatInputId, events[i], parse, runFlow)
  {
    seq(|events|, i requires 0 <= i < |events| => ProcessEvent(chatInputId, events[i], parse, runFlow))
  }

  /**
    The reports a session's events draw: one per failing event when the
    ChatInput id makes a valid request, none at all when every request is refused.
   */
  function SessionReports(chatInputId: Json, events: seq<Json>, parse: string -> Result<Json, string>,
                          runFlow: (Json, Json) -> Result<seq<string>, string>): seq<Json>
  {
    if RequestAccepted(chatInputId) then Reports(Outcomes(chatInputId, events, parse, runFlow)) else []
  }

  /** A flow node that is a ChatInput with the id 7. */
  const NumberIdNode := JObj(map["data" := JObj(map["type" := ChatInputType]), "id" := JInt(7)])

  /**
    A ChatInput whose id is truthy but not a str (a number, say) is listened
    to, yet every request for it is refused before the flow runs: the client
    gets no report and no event is processed.
   */
  lemma NonStrIdListensSilently(flowId: string, events: seq<Json>, parse: string -> Result<Json, string>,
                                runFlow: (Json, Json) -> Result<seq<string>, string>)
    ensures OpeningOf(flowId, Some(JObj(map["nodes" := JArr([NumberIdNode])]))) == Listening(JInt(7))
    ensures SessionReports(JInt(7), events, parse, runFlow) == []
  {
    assert IsChatInput(NumberIdNode) == Ok(true);
    assert FirstChatInput([NumberIdNode]) == Ok(Some(JInt(7)));
  }

  lemma OutcomesSnoc(chatInputId: Json, events: seq<Json>, event: Json, parse: string -> Result<Json, string>,
                     runFlow: (Json, Json) -> Result<seq<string>, string>)
    ensures Outcomes(chatInputId, events + [event], parse, runFlow)
            == Outcomes(chatInputId, events, parse, runFlow) + [ProcessEvent(chatInputId, event, parse, runFlow)]
  {
  }

  /**
    `process_events`: takes events until `None`; an event whose processing
    raises is reported to the client and the loop goes on with the next one.
    A refused request is only logged, and the loop goes on as well.
   */
  method ProcessEvents(chatInputId: Json, queue: seq<Option<Json>>, parse: string -> Result<Json, string>,
                       runFlow: (Json, Json) -> Result<seq<string>, string>)
    returns (toClient: seq<Json>)
    ensures toClient == SessionReports(chatInputId, UntilSentinel(queue), parse, runFlow)
  {
    toClient := [];
    ghost var events: seq<Json> := [];
    ghost var outcomes: seq<Result<string, string>> := [];
    var i := 0;
    assert queue[0..] == queue;
    while i < |queue| && queue[i].Some?
      invariant 0 <= i <= |queue|
      invariant events + UntilSentinel(queue[i..]) == UntilSentinel(queue)
      invariant outcomes == Outcomes(chatInputId, events, parse, runFlow)
      invariant toClient == if RequestAccepted(chatInputId) then Reports(outcomes) else []
    {
      var event := queue[i].value;
      var outcome := ProcessEvent(chatInputId, event, parse, runFlow);
      var report := [];
      if RequestAccepted(chatInputId) && outcome.Err? {
        report := [ErrorReport(FlowErrorPrefix + outcome.error)];
      }
      ReportsSnoc(outcomes, outcome);
      OutcomesSnoc(chatInputId, events, event, parse, runFlow);
      UntilSentinelStep(queue, i);
      Regroup(events, event, UntilSentinel(queue[i + 1..]));
      events := events + [event];
      outcomes := outcomes + [outcome];
      toClient := toClient + report;
      i := i + 1;
    }
    assert UntilSentinel(queue[i..]) == [];
    assert events + [] == events;
  }

  /** Reports of a run of outcomes are the reports of its parts: a failing event does not stop the others. */
  lemma {:induction false} ReportsAppend(a: seq<Result<string, string>>, b: seq<Result<string, string>>)
    ensures Reports(a + b) == Reports(a) + Reports(b)
    decreases |a|
  {
    if a == [] {
      assert a + b == b;
    } else {
      assert (a + b)[1..] == a[1..] + b;
      ReportsAppend(a[1..], b);
    }
  }

  /** Exactly one error report per event whose processing raised. */
  lemma {:induction false} ReportsOnePerFailure(outcomes: seq<Result<string, string>>)
    ensures |Reports(outcomes)| == |set i | 0 <= i < |outcomes| && outcomes[i].Err?|
    decreases |outcomes|
  {
    var all := set i | 0 <= i < |outcomes| && outcomes[i].Err?;
    if outcomes == [] {
      assert all == {};
    } else {
      var n := |outcomes| - 1;
      var init := outcomes[..n];
      var last := outcomes[n];
      ReportsOnePerFailure(init);
      assert init + [last] == outcomes;
      ReportsSnoc(init, last);
      var before := set i | 0 <= i < |init| && init[i].Err?;
      var here: set<int> := if last.Err? then {n} else {};
      assert all == before + here;
      assert n !in before;
    }
  }

  lemma ReportsSnoc(init: seq<Result<string, string>>, last: Result<string, string>)
    ensures Reports(init + [last]) == Reports(init) + Report(last)
  {
    ReportsAppend(init, [last]);
    assert Reports([last]) == Report(last) + [];
  }

  /** Each report carries the message of an event whose processing raised. */
  lemma {:induction false} ReportsCarryErrors(outcomes: seq<Result<string, string>>)
    ensures forall r :: r in Reports(outcomes) ==>
              exists i :: 0 <= i < |outcomes| && outcomes[i].Err? && r == ErrorReport(FlowErrorPrefix + outcomes[i].error)
    decreases |outcomes|
  {
    if outcomes != [] {
      ReportsCarryErrors(outcomes[1..]);
      forall r | r in Reports(outcomes)
        ensures exists i :: 0 <= i < |outcomes| && outcomes[i].Err? && r == ErrorReport(FlowErrorPrefix + outcomes[i].error)
      {
        if r in Reports(outcomes[1..]) {
          var i :| 0 <= i < |outcomes[1..]| && outcomes[1..][i].Err? && r == ErrorReport(FlowErrorPrefix + outcomes[1..][i].error);
          assert outcomes[i + 1] == outcomes[1..][i];
        } else {
          assert r in Report(outcomes[0]);
        }
      }
    }
  }
}
