/**
  The voice relay of `flow_as_tool_websocket`: one session between a browser
  client and the upstream realtime model.

  * Audio from the client is cut into 20 ms frames of 24 kHz 16-bit PCM
    (960 bytes); a frame the voice-activity detector calls speech while the
    bot is speaking cancels the bot's response (barge-in).
  * Every upstream event is echoed to the client and then routed by its
    `type`: text deltas feed the speech-synthesis queue, output items toggle
    the speaking flag and open a tool call, argument deltas accumulate, and
    the arguments-done event dispatches the tool call.
  * Client messages are forwarded upstream (audio appends also feed the
    detector's queue) and `elevenlabs.config` reconfigures the session.
  * A dispatched tool call runs the flow and answers upstream with one
    `function_call_output` item.

  Sockets, tasks and threads are not modelled: each handler is a step on the
  session state, and what it sends is appended to an outbox sequence.
 */
module VoiceRelay {
  import opened Results
  import opened Json
  import opened Strings

  // ---------------------------------------------------------------------
  // Audio framing

  const SampleRate24k: nat := 24000
  const VadSampleRate16k: nat := 16000
  const FrameDurationMs: nat := 20
  const BytesPerSample: nat := 2
  const BytesPer24kFrame: nat := (SampleRate24k * FrameDurationMs / 1000) * BytesPerSample
  const BytesPer16kFrame: nat := (VadSampleRate16k * FrameDurationMs / 1000) * BytesPerSample

  lemma FrameSizes()
    ensures BytesPer24kFrame == 960 && BytesPer16kFrame == 640
  {
  }

  type byte = b: int | 0 <= b < 256

  /**
    What resampling to 16 kHz and the detector make of one frame. `Failed`
    stands for an exception inside that step: the frame is dropped.
   */
  datatype Verdict = Speech | Silence | Failed

  /** The whole frames at the front of `bytes`, in order. */
  function Frames(bytes: seq<byte>): seq<seq<byte>>
    decreases |bytes|
  {
    if |bytes| < BytesPer24kFrame then []
    else [bytes[..BytesPer24kFrame]] + Frames(bytes[BytesPer24kFrame..])
  }

  /** What stays buffered after every whole frame has been taken. */
  function Leftover(bytes: seq<byte>): seq<byte>
    decreases |bytes|
  {
    if |bytes| < BytesPer24kFrame then bytes else Leftover(bytes[BytesPer24kFrame..])
  }

  function Flatten(frames: seq<seq<byte>>): seq<byte> {
    if frames == [] then [] else frames[0] + Flatten(frames[1..])
  }

  /** Framing loses and reorders nothing: the frames followed by the leftover are the input. */
  lemma {:induction false} FramesPartition(bytes: seq<byte>)
    ensures Flatten(Frames(bytes)) + Leftover(bytes) == bytes
    decreases |bytes|
  {
    if |bytes| >= BytesPer24kFrame {
      var head := bytes[..BytesPer24kFrame];
      var tail := bytes[BytesPer24kFrame..];
      FramesPartition(tail);
      assert ([head] + Frames(tail))[1..] == Frames(tail);
      assert Flatten(Frames(bytes)) == head + Flatten(Frames(tail));
      assert bytes == head + tail;
    }
  }

  /** Every frame is exactly 960 bytes and the leftover is shorter than a frame. */
  lemma {:induction false} FramesWhole(bytes: seq<byte>)
    ensures forall i :: 0 <= i < |Frames(bytes)| ==> |Frames(bytes)[i]| == BytesPer24kFrame
    ensures |Leftover(bytes)| < BytesPer24kFrame
    decreases |bytes|
  {
    if |bytes| >= BytesPer24kFrame {
      var tail := bytes[BytesPer24kFrame..];
      FramesWhole(tail);
      assert forall i :: 1 <= i < |Frames(bytes)| ==> Frames(bytes)[i] == Frames(tail)[i - 1];
    }
  }

  /** The speaking flag and the number of `response.cancel` messages sent. */
  datatype Barge = Barge(speaking: bool, cancels: nat)

  /**
    Frame-by-frame barge-in over the buffered bytes: a speech frame while the
    bot speaks sends one cancel and clears the flag.
   */
  function BargeOver(speaking: bool, bytes: seq<byte>, classify: seq<byte> -> Verdict): Barge
    decreases |bytes|
  {
    if |bytes| < BytesPer24kFrame then Barge(speaking, 0)
    else
      var interrupt := speaking && classify(bytes[..BytesPer24kFrame]) == Speech;
      var rest := BargeOver(speaking && !interrupt, bytes[BytesPer24kFrame..], classify);
      Barge(rest.speaking, (if interrupt then 1 else 0) + rest.cancels)
  }

  predicate HeardSpeech(bytes: seq<byte>, classify: seq<byte> -> Verdict) {
    exists i :: 0 <= i < |Frames(bytes)| && classify(Frames(bytes)[i]) == Speech
  }

  /**
    However many speech frames arrive, at most one cancel is sent: exactly one
    when the bot was speaking and some frame is speech, and the bot is then no
    longer speaking.
   */
  lemma {:induction false} BargeInOnce(speaking: bool, bytes: seq<byte>, classify: seq<byte> -> Verdict)
    ensures BargeOver(speaking, bytes, classify).cancels ==
              (if speaking && HeardSpeech(bytes, classify) then 1 else 0)
    ensures BargeOver(speaking, bytes, classify).speaking ==
              (speaking && !HeardSpeech(bytes, classify))
    decreases |bytes|
  {
    if |bytes| >= BytesPer24kFrame {
      var head := bytes[..BytesPer24kFrame];
      var tail := bytes[BytesPer24kFrame..];
      var frames := Frames(bytes);
      assert frames == [head] + Frames(tail);
      assert HeardSpeech(bytes, classify) <==> classify(head) == Speech || HeardSpeech(tail, classify) by {
        if HeardSpeech(tail, classify) {
          var i :| 0 <= i < |Frames(tail)| && classify(Frames(tail)[i]) == Speech;
          assert frames[i + 1] == Frames(tail)[i];
        }
        if HeardSpeech(bytes, classify) {
          var i :| 0 <= i < |frames| && classify(frames[i]) == Speech;
          if i > 0 {
            assert frames[i] == Frames(tail)[i - 1];
          }
        }
        if classify(head) == Speech {
          assert frames[0] == head;
        }
      }
      var interrupt := speaking && classify(head) == Speech;
      BargeInOnce(speaking && !interrupt, tail, classify);
    }
  }

  function Cancels(n: nat): (r: seq<UpstreamMessage>)
    ensures |r| == n
    ensures forall i :: 0 <= i < n ==> r[i] == ResponseCancel
  {
    seq(n, _ => ResponseCancel)
  }

  // ---------------------------------------------------------------------
  // Messages

  const TextDeltaEvent := "response.text.delta"
  const TextDoneEvent := "response.text.done"
  const ItemAddedEvent := "response.output_item.added"
  const ItemDoneEvent := "response.output_item.done"
  const ArgsDeltaEvent := "response.function_call_arguments.delta"
  const ArgsDoneEvent := "response.function_call_arguments.done"
  const AudioDeltaEvent := "response.audio.delta"
  const ErrorEvent := "error"
  const AudioAppendMessage := "input_audio_buffer.append"
  const VoiceConfigMessage := "elevenlabs.config"

  /** The voice used before any `elevenlabs.config` message. */
  const DefaultVoice := "JBFqnCBsd6RMkjVDRZzb"

  /** The branches of `forward_to_client`, selected by comparing the event's `type`. */
  datatype Route = TextDelta | TextDone | ItemAdded | ItemDone | ArgsDelta | ArgsDone | AudioDelta | ErrorReport | Unrouted

  function RouteOf(kind: Json): Route {
    if kind == JStr(TextDeltaEvent) then TextDelta
    else if kind == JStr(TextDoneEvent) then TextDone
    else if kind == JStr(ItemAddedEvent) then ItemAdded
    else if kind == JStr(ItemDoneEvent) then ItemDone
    else if kind == JStr(ArgsDeltaEvent) then ArgsDelta
    else if kind == JStr(ArgsDoneEvent) then ArgsDone
    else if kind == JStr(AudioDeltaEvent) then AudioDelta
    else if kind == JStr(ErrorEvent) then ErrorReport
    else Unrouted
  }

  /** Messages sent to the upstream model; `session.update` is shown by its modalities. */
  datatype UpstreamMessage =
    | AudioAppend(audio: Json)
    | SessionUpdate(modalities: seq<string>)
    | Verbatim(text: string)
    | ResponseCancel
    | FunctionCallOutput(callId: Json, output: string)
    | ResponseCreate

  /** Messages sent to the client: an echoed upstream event or a flow build event. */
  datatype ClientBound = Forward(text: string) | BuildProgress(data: Json)

  /** A tool call handed to `handle_function_call`: the output item and its arguments text. */
  datatype ToolCall = ToolCall(item: map<string, Json>, arguments: string)

  /** `last_event_type` and `event_count` of the console log. */
  datatype EventLog = EventLog(last: Json, count: nat)

  /**
    A message as received: its text and its decoded JSON. Text that is not
    JSON raises in `json.loads` before anything is sent or logged, just as a
    decoded value that is not a dict raises at its first `.get`; such a
    message is given with a `decoded` value that is not a dict.
   */
  datatype Incoming = Incoming(raw: string, decoded: Json)

  // ---------------------------------------------------------------------
  // Event log coalescing

  /** `log_event`: a new type restarts the count at one, a repeat increments it. */
  function LogStep(log: EventLog, kind: Json): EventLog {
    if kind != log.last then EventLog(kind, 1) else EventLog(log.last, log.count + 1)
  }

  function LogFrom(log: EventLog, kinds: seq<Json>): EventLog
    decreases |kinds|
  {
    if kinds == [] then log else LogFrom(LogStep(log, kinds[0]), kinds[1..])
  }

  /** How many events at the end of `kinds` have the same type as the last one. */
  function TrailingRun(kinds: seq<Json>): nat
    decreases |kinds|
  {
    if kinds == [] then 0
    else if |kinds| >= 2 && kinds[|kinds| - 2] == kinds[|kinds| - 1] then TrailingRun(kinds[..|kinds| - 1]) + 1
    else 1
  }

  /** The log a history should leave: its last type and the length of its last run. */
  function Summary(kinds: seq<Json>): EventLog {
    EventLog(if kinds == [] then JNull else kinds[|kinds| - 1], TrailingRun(kinds))
  }

  lemma LogStepSummary(history: seq<Json>, kind: Json)
    ensures LogStep(Summary(history), kind) == Summary(history + [kind])
  {
    var h := history + [kind];
    assert h[..|h| - 1] == history;
  }

  /**
    After any sequence of events the log holds the type of the last event and
    the number of consecutive events of that type at the end: the count a
    log line stands for.
   */
  lemma {:induction false} LogCountsTrailingRun(history: seq<Json>, kinds: seq<Json>)
    ensures LogFrom(Summary(history), kinds) == Summary(history + kinds)
    decreases |kinds|
  {
    if kinds == [] {
      assert history + kinds == history;
    } else {
      LogStepSummary(history, kinds[0]);
      LogCountsTrailingRun(history + [kinds[0]], kinds[1..]);
      assert history + [kinds[0]] + kinds[1..] == history + kinds;
    }
  }

  lemma LogFromStart(kinds: seq<Json>)
    ensures LogFrom(EventLog(JNull, 0), kinds) == Summary(kinds)
  {
    assert Summary([]) == EventLog(JNull, 0);
    LogCountsTrailingRun([], kinds);
    assert [] + kinds == kinds;
  }

  // ---------------------------------------------------------------------
  // Session state, one component per concern

  /** The tool call being assembled (`function_call`, `function_call_args`) and the calls handed off. */
  datatype Calls = Calls(pending: Option<map<string, Json>>, args: string, dispatched: seq<ToolCall>)

  /** `text_delta_queue`, whether `text_delta_task` is set, and how many such tasks were started. */
  datatype Synthesis = Synthesis(queue: seq<Option<Json>>, active: bool, started: nat)

  /** The module globals `use_elevenlabs` and `elevenlabs_voice`. */
  datatype VoiceConfig = VoiceConfig(useElevenLabs: Json, voice: Json)

  datatype Relay = Relay(
    speaking: bool,
    vadBuffer: seq<byte>,
    calls: Calls,
    synthesis: Synthesis,
    log: EventLog,
    config: VoiceConfig,
    vadQueue: seq<Json>,
    toUpstream: seq<UpstreamMessage>,
    toClient: seq<ClientBound>)

  /** The state after a handler step, and whether the handler's loop goes on. */
  datatype Stepped = Stepped(state: Relay, alive: bool)

  /** The module globals as the module is first imported, before any session changed them. */
  const ModuleDefaults := VoiceConfig(JBool(false), JStr(DefaultVoice))

  /**
    The state right after connecting: the first `session.update` asks for
    text and audio. The voice settings are the module globals as the last
    `elevenlabs.config` of any earlier session left them.
   */
  function Connected(globals: VoiceConfig): Relay {
    Relay(false, [], Calls(None, "", []), Synthesis([], false, 0), EventLog(JNull, 0), globals, [],
          [SessionUpdate(["text", "audio"])], [])
  }

  /** `process_vad_audio` for one queued chunk. */
  function VadStep(s: Relay, chunk: seq<byte>, classify: seq<byte> -> Verdict): Relay {
    var all := s.vadBuffer + chunk;
    var b := BargeOver(s.speaking, all, classify);
    s.(vadBuffer := Leftover(all), speaking := b.speaking, toUpstream := s.toUpstream + Cancels(b.cancels))
  }

  /** The event types `forward_to_client` routes; any other type is echoed a second time. */
  predicate Claimed(kind: Json) {
    RouteOf(kind) != Unrouted
  }

  /** An output item starts the bot speaking; its completion stops it. */
  function SpeakingAfter(speaking: bool, route: Route): bool {
    if route == ItemAdded then true
    else if route == ItemDone then false
    else speaking
  }

  /** Text deltas are queued for synthesis, starting a task if none is set; text done queues the sentinel. */
  /**
    What `text_delta_queue.put(delta)` puts: a JSON `null` delta is Python's
    `None`, the very object the end-of-text sentinel is.
   */
  function QueuedDelta(delta: Json): (r: Option<Json>)
    ensures r.None? <==> delta.JNull?
    ensures r.Some? ==> r.value == delta
  {
    if delta.JNull? then None else Some(delta)
  }

  function SynthesisAfter(t: Synthesis, f: map<string, Json>, route: Route): Synthesis {
    if route == TextDelta then
      Synthesis(t.queue + [QueuedDelta(Lookup(f, "delta", JStr("")))], true, if t.active then t.started else t.started + 1)
    else if route == TextDone then
      Synthesis(t.queue + [None], false, t.started)
    else t
  }

  /**
    The tool-call bookkeeping of one event, or `None` where the handler
    raises: an `item` that is not a dict, or an argument delta that is not a str.
   */
  function CallsAfter(c: Calls, f: map<string, Json>, route: Route): Option<Calls> {
    if route == ItemAdded then
      var item := Lookup(f, "item", JObj(map[]));
      if !item.JObj? then None
      else if Lookup(item.fields, "type", JNull) == JStr("function_call") then
        Some(c.(pending := Some(item.fields), args := ""))
      else Some(c)
    else if route == ArgsDelta then
      var delta := Lookup(f, "delta", JStr(""));
      if delta.JStr? then Some(c.(args := c.args + delta.s)) else None
    else if route == ArgsDone && c.pending.Some? && c.pending.value != map[] then
      Some(Calls(None, "", c.dispatched + [ToolCall(c.pending.value, c.args)]))
    else Some(c)
  }

  /**
    One iteration of `forward_to_client`: echo the event, route it by type,
    log it. A handler that raises ends the loop before the log.
   */
  function OnUpstream(s: Relay, raw: string, event: Json): Stepped {
    if !event.JObj? then Stepped(s, false)
    else
      var f := event.fields;
      var kind := Lookup(f, "type", JNull);
      var route := RouteOf(kind);
      var echoed := s.toClient + [Forward(raw)];
      var speaking := SpeakingAfter(s.speaking, route);
      match CallsAfter(s.calls, f, route)
      case None => Stepped(s.(toClient := echoed, speaking := speaking), false)
      case Some(calls) =>
        Stepped(s.(toClient := echoed + (if route == Unrouted then [Forward(raw)] else []),
                   speaking := speaking,
                   calls := calls,
                   synthesis := SynthesisAfter(s.synthesis, f, route),
                   log := LogStep(s.log, kind)), true)
  }

  /** What one client message does besides logging. */
  datatype Forwarding = Forwarding(config: VoiceConfig, sent: seq<UpstreamMessage>, queued: seq<Json>, alive: bool)

  /**
    The routing of `forward_to_openai`. A non-empty audio append is sent twice,
    once rebuilt and once verbatim, and queued for the detector; an empty one
    is dropped. A config message missing `enabled` or `voice_id` raises after
    the keys before it were stored; a complete one always asks for text only.
   */
  function ForwardClient(cfg: VoiceConfig, raw: string, f: map<string, Json>, kind: Json): Forwarding {
    if kind == JStr(AudioAppendMessage) then
      var audio := Lookup(f, "audio", JStr(""));
      if Truthy(audio) then Forwarding(cfg, [AudioAppend(audio), Verbatim(raw)], [audio], true)
      else Forwarding(cfg, [], [], true)
    else if kind == JStr(VoiceConfigMessage) then
      if "enabled" !in f then Forwarding(cfg, [], [], false)
      else if "voice_id" !in f then Forwarding(cfg.(useElevenLabs := f["enabled"]), [], [], false)
      else Forwarding(VoiceConfig(f["enabled"], f["voice_id"]), [SessionUpdate(["text"])], [], true)
    else Forwarding(cfg, [Verbatim(raw)], [], true)
  }

  /** One iteration of `forward_to_openai`: log the message, then forward it. */
  function OnClient(s: Relay, raw: string, msg: Json): Stepped {
    if !msg.JObj? then Stepped(s, false)
    else
      var kind := Lookup(msg.fields, "type", JNull);
      var fw := ForwardClient(s.config, raw, msg.fields, kind);
      Stepped(s.(log := LogStep(s.log, kind), config := fw.config,
                 toUpstream := s.toUpstream + fw.sent, vadQueue := s.vadQueue + fw.queued), fw.alive)
  }

  /** `forward_to_client` over a sequence of events, stopping where a handler raises. */
  function UpstreamRun(s: Relay, events: seq<Incoming>): Stepped
    decreases |events|
  {
    if events == [] then Stepped(s, true)
    else
      var next := OnUpstream(s, events[0].raw, events[0].decoded);
      if next.alive then UpstreamRun(next.state, events[1..]) else next
  }

  /** `base64.b64decode` of a queued `audio` value: only a str can decode, and `b64` says whether its text does. */
  function DecodeChunk(audio: Json, b64: string -> Option<seq<byte>>): Option<seq<byte>> {
    if audio.JStr? then b64(audio.s) else None
  }

  /**
    `process_vad_audio` over the queued chunks. A chunk that does not decode
    raises outside the per-frame `try` and ends the task.
   */
  function VadRun(s: Relay, chunks: seq<Json>, b64: string -> Option<seq<byte>>, classify: seq<byte> -> Verdict): Stepped
    decreases |chunks|
  {
    if chunks == [] then Stepped(s, true)
    else
      match DecodeChunk(chunks[0], b64)
      case None => Stepped(s, false)
      case Some(chunk) => VadRun(VadStep(s, chunk, classify), chunks[1..], b64, classify)
  }

  /** A message that is not a dict (or not JSON at all) ends either pump, sending and logging nothing. */
  lemma NonObjectEndsPumps(s: Relay, raw: string, decoded: Json)
    requires !decoded.JObj?
    ensures OnUpstream(s, raw, decoded) == Stepped(s, false)
    ensures OnClient(s, raw, decoded) == Stepped(s, false)
  {
  }

  /** `forward_to_openai` over a sequence of client messages. */
  function ClientRun(s: Relay, msgs: seq<Incoming>): Stepped
    decreases |msgs|
  {
    if msgs == [] then Stepped(s, true)
    else
      var next := OnClient(s, msgs[0].raw, msgs[0].decoded);
      if next.alive then ClientRun(next.state, msgs[1..]) else next
  }

  // ---------------------------------------------------------------------
  // Properties of the routing

  function Kind(e: Incoming): Json
    requires e.decoded.JObj?
  {
    Lookup(e.decoded.fields, "type", JNull)
  }

  /** Every event decodes to a dict. */
  predicate AllObjects(events: seq<Incoming>) {
    events == [] || (events[0].decoded.JObj? && AllObjects(events[1..]))
  }

  function Kinds(events: seq<Incoming>): (r: seq<Json>)
    requires AllObjects(events)
    ensures |r| == |events|
  {
    if events == [] then [] else [Kind(events[0])] + Kinds(events[1..])
  }

  /** Per event, one copy of its text, or two when no route claims its type. */
  function Echo(e: Incoming): seq<ClientBound>
    requires e.decoded.JObj?
  {
    if Claimed(Kind(e)) then [Forward(e.raw)] else [Forward(e.raw), Forward(e.raw)]
  }

  function Echoes(events: seq<Incoming>): seq<ClientBound>
    requires AllObjects(events)
  {
    if events == [] then [] else Echo(events[0]) + Echoes(events[1..])
  }

  lemma UpstreamStepEchoLog(s: Relay, e: Incoming)
    requires OnUpstream(s, e.raw, e.decoded).alive
    ensures e.decoded.JObj?
    ensures OnUpstream(s, e.raw, e.decoded).state.toClient == s.toClient + Echo(e)
    ensures OnUpstream(s, e.raw, e.decoded).state.log == LogStep(s.log, Kind(e))
  {
  }

  /**
    Every event of a run that did not stop is echoed to the client in order,
    twice when no route claims its type, and goes through `log_event` once.
   */
  lemma {:induction false} UpstreamRunEchoesAndLogs(s: Relay, events: seq<Incoming>)
    requires UpstreamRun(s, events).alive
    ensures AllObjects(events)
    ensures UpstreamRun(s, events).state.toClient == s.toClient + Echoes(events)
    ensures UpstreamRun(s, events).state.log == LogFrom(s.log, Kinds(events))
    decreases |events|
  {
    if events != [] {
      UpstreamStepEchoLog(s, events[0]);
      var next := OnUpstream(s, events[0].raw, events[0].decoded);
      UpstreamRunEchoesAndLogs(next.state, events[1..]);
      assert s.toClient + Echo(events[0]) + Echoes(events[1..]) == s.toClient + Echoes(events);
    }
  }

  /** An output item that opens a tool call. */
  predicate OpensCall(e: Incoming) {
    e.decoded.JObj? && RouteOf(Kind(e)) == ItemAdded &&
    var item := Lookup(e.decoded.fields, "item", JObj(map[]));
    item.JObj? && Lookup(item.fields, "type", JNull) == JStr("function_call")
  }

  /**
    An event between opening a call and dispatching it that neither raises,
    opens another call nor dispatches.
   */
  predicate Quiet(e: Incoming) {
    e.decoded.JObj? && !OpensCall(e) && RouteOf(Kind(e)) != ArgsDone &&
    (RouteOf(Kind(e)) == ItemAdded ==> Lookup(e.decoded.fields, "item", JObj(map[])).JObj?) &&
    (RouteOf(Kind(e)) == ArgsDelta ==> Lookup(e.decoded.fields, "delta", JStr("")).JStr?)
  }

  /** Every event of `events` is quiet. */
  predicate AllQuiet(events: seq<Incoming>) {
    events == [] || (Quiet(events[0]) && AllQuiet(events[1..]))
  }

  /** The text an event adds to the arguments: its delta if it is an argument delta. */
  function ArgPart(e: Incoming): string
    requires Quiet(e)
  {
    if RouteOf(Kind(e)) == ArgsDelta then Lookup(e.decoded.fields, "delta", JStr("")).s else ""
  }

  /** The argument text the argument deltas among `events` contribute, in order. */
  function ArgText(events: seq<Incoming>): string
    requires AllQuiet(events)
  {
    if events == [] then "" else ArgPart(events[0]) + ArgText(events[1..])
  }

  /** The tool-call bookkeeping of `forward_to_client` alone, and whether the loop goes on. */
  datatype Tracked = Tracked(calls: Calls, alive: bool)

  function TrackRun(c: Calls, events: seq<Incoming>): Tracked
    decreases |events|
  {
    if events == [] then Tracked(c, true)
    else if !events[0].decoded.JObj? then Tracked(c, false)
    else
      match CallsAfter(c, events[0].decoded.fields, RouteOf(Kind(events[0])))
      case None => Tracked(c, false)
      case Some(next) => TrackRun(next, events[1..])
  }

  lemma UpstreamStepCalls(s: Relay, raw: string, event: Json)
    ensures var r := OnUpstream(s, raw, event);
            var after := if event.JObj? then CallsAfter(s.calls, event.fields, RouteOf(Lookup(event.fields, "type", JNull))) else None;
            r.alive == after.Some? && r.state.calls == (if after.Some? then after.value else s.calls)
  {
  }

  /** The tool-call state of a run, and whether it stops, depend on the tool-call branches alone. */
  lemma {:induction false} UpstreamRunTracksCalls(s: Relay, events: seq<Incoming>)
    ensures UpstreamRun(s, events).alive == TrackRun(s.calls, events).alive
    ensures UpstreamRun(s, events).state.calls == TrackRun(s.calls, events).calls
    decreases |events|
  {
    if events != [] {
      UpstreamStepCalls(s, events[0].raw, events[0].decoded);
      UpstreamRunTracksCalls(OnUpstream(s, events[0].raw, events[0].decoded).state, events[1..]);
    }
  }

  lemma {:induction false} TrackRunAppend(c: Calls, a: seq<Incoming>, b: seq<Incoming>)
    requires TrackRun(c, a).alive
    ensures TrackRun(c, a + b) == TrackRun(TrackRun(c, a).calls, b)
    decreases |a|
  {
    if a == [] {
      assert a + b == b;
    } else {
      assert (a + b)[1..] == a[1..] + b;
      assert (a + b)[0] == a[0];
      TrackRunAppend(CallsAfter(c, a[0].decoded.fields, RouteOf(Kind(a[0]))).value, a[1..], b);
    }
  }

  lemma QuietStep(c: Calls, e: Incoming)
    requires Quiet(e)
    ensures CallsAfter(c, e.decoded.fields, RouteOf(Kind(e))) == Some(c.(args := c.args + ArgPart(e)))
  {
    assert c.args + "" == c.args;
  }

  /**
    Events that open and close no call only append their argument deltas, in
    order, whether or not a call is open.
   */
  lemma {:induction false} QuietRun(c: Calls, events: seq<Incoming>)
    requires AllQuiet(events)
    ensures TrackRun(c, events) == Tracked(c.(args := c.args + ArgText(events)), true)
    decreases |events|
  {
    assert c.args + "" == c.args;
    if events != [] {
      var e := events[0];
      QuietStep(c, e);
      QuietRun(c.(args := c.args + ArgPart(e)), events[1..]);
      assert c.args + ArgPart(e) + ArgText(events[1..]) == c.args + ArgText(events);
    }
  }

  /**
    A call opened by a `function_call` output item and closed by the
    arguments-done event is dispatched exactly once, with the concatenation of
    the argument deltas received in between, and the call state is cleared.
   */
  lemma DispatchCarriesArguments(s: Relay, opening: Incoming, middle: seq<Incoming>, closing: Incoming)
    requires OpensCall(opening)
    requires AllQuiet(middle)
    requires closing.decoded.JObj? && RouteOf(Kind(closing)) == ArgsDone
    ensures var run := UpstreamRun(s, [opening] + middle + [closing]);
            var item := Lookup(opening.decoded.fields, "item", JObj(map[]));
            run.alive &&
            run.state.calls == Calls(None, "", s.calls.dispatched + [ToolCall(item.fields, ArgText(middle))])
  {
    var events := [opening] + middle + [closing];
    var item := Lookup(opening.decoded.fields, "item", JObj(map[]));
    var begun := s.calls.(pending := Some(item.fields), args := "");
    assert TrackRun(s.calls, [opening]) == Tracked(begun, true);
    QuietRun(begun, middle);
    var before := Calls(Some(item.fields), ArgText(middle), s.calls.dispatched);
    assert TrackRun(begun, middle) == Tracked(before, true);
    assert TrackRun(before, [closing]) ==
           Tracked(Calls(None, "", s.calls.dispatched + [ToolCall(item.fields, ArgText(middle))]), true);
    TrackRunAppend(s.calls, [opening], middle);
    TrackRunAppend(s.calls, [opening] + middle, [closing]);
    UpstreamRunTracksCalls(s, events);
  }

  /**
    Arguments-done with no call pending (none opened, or the last one already
    dispatched) dispatches nothing and leaves the call state alone.
   */
  lemma ArgsDoneWithoutCall(s: Relay, e: Incoming)
    requires e.decoded.JObj? && RouteOf(Kind(e)) == ArgsDone && s.calls.pending.None?
    ensures OnUpstream(s, e.raw, e.decoded).alive
    ensures OnUpstream(s, e.raw, e.decoded).state.calls == s.calls
  {
  }

  function CountOpens(events: seq<Incoming>): nat {
    if events == [] then 0 else (if OpensCall(events[0]) then 1 else 0) + CountOpens(events[1..])
  }

  /**
    No tool call is dispatched twice: a run only appends to the dispatched
    calls, at most one per `function_call` item it opens plus the one pending
    when it started.
   */
  lemma {:induction false} DispatchAtMostOncePerCall(s: Relay, events: seq<Incoming>)
    ensures var d := UpstreamRun(s, events).state.calls.dispatched;
            |s.calls.dispatched| <= |d| <= |s.calls.dispatched| + CountOpens(events) + (if s.calls.pending.Some? then 1 else 0) &&
            d[..|s.calls.dispatched|] == s.calls.dispatched
    decreases |events|
  {
    if events != [] {
      var next := OnUpstream(s, events[0].raw, events[0].decoded);
      DispatchStep(s, events[0]);
      DispatchAtMostOncePerCall(next.state, events[1..]);
    }
  }

  /** One event dispatches at most the call pending before it, and only by appending. */
  lemma DispatchStep(s: Relay, e: Incoming)
    ensures var c := OnUpstream(s, e.raw, e.decoded).state.calls;
            c.dispatched[..|s.calls.dispatched|] == s.calls.dispatched &&
            |c.dispatched| + (if c.pending.Some? then 1 else 0) <=
            |s.calls.dispatched| + (if OpensCall(e) then 1 else 0) + (if s.calls.pending.Some? then 1 else 0)
  {
    var d0 := s.calls.dispatched;
    assert forall t: ToolCall :: (d0 + [t])[..|d0|] == d0;
  }

  /**
    The speaking flag after a run of event types: the last output-item event
    decides it, and without one the flag is as it was.
   */
  function LastToggle(speaking: bool, kinds: seq<Json>): bool
    decreases |kinds|
  {
    if kinds == [] then speaking
    else if RouteOf(kinds[|kinds| - 1]) == ItemAdded then true
    else if RouteOf(kinds[|kinds| - 1]) == ItemDone then false
    else LastToggle(speaking, kinds[..|kinds| - 1])
  }

  lemma {:induction false} LastToggleCons(speaking: bool, kind: Json, kinds: seq<Json>)
    ensures LastToggle(speaking, [kind] + kinds) == LastToggle(SpeakingAfter(speaking, RouteOf(kind)), kinds)
    decreases |kinds|
  {
    if kinds != [] {
      var n := |kinds|;
      assert ([kind] + kinds)[..n] == [kind] + kinds[..n - 1];
      assert ([kind] + kinds)[n] == kinds[n - 1];
      LastToggleCons(speaking, kind, kinds[..n - 1]);
    }
  }

  /** After a run the loop survives, the bot is speaking as the last output-item event left it. */
  lemma {:induction false} UpstreamRunSpeaking(s: Relay, events: seq<Incoming>)
    requires UpstreamRun(s, events).alive
    ensures AllObjects(events)
    ensures UpstreamRun(s, events).state.speaking == LastToggle(s.speaking, Kinds(events))
    decreases |events|
  {
    if events != [] {
      var next := OnUpstream(s, events[0].raw, events[0].decoded);
      assert next.alive;
      UpstreamRunSpeaking(next.state, events[1..]);
      LastToggleCons(s.speaking, Kind(events[0]), Kinds(events[1..]));
    }
  }

  /**
    An output item that is not a dict raises after the flag was set: the loop
    ends with the bot marked as speaking.
   */
  lemma RaisingItemStillSpeaks(s: Relay, e: Incoming)
    requires e.decoded.JObj? && RouteOf(Kind(e)) == ItemAdded
    requires !Lookup(e.decoded.fields, "item", JObj(map[])).JObj?
    ensures !OnUpstream(s, e.raw, e.decoded).alive
    ensures OnUpstream(s, e.raw, e.decoded).state.speaking
  {
  }

  /** `text_delta_queue` sentinels: how many `None`s are queued. */
  function Sentinels(q: seq<Option<Json>>): nat {
    if q == [] then 0 else (if q[|q| - 1].None? then 1 else 0) + Sentinels(q[..|q| - 1])
  }

  /**
    A synthesis task is started only when none is set, so every started task
    but the current one has been sent its end-of-text sentinel.
   */
  predicate TasksAccounted(t: Synthesis) {
    t.started <= Sentinels(t.queue) + (if t.active then 1 else 0)
  }

  lemma SynthesisStepAccounted(t: Synthesis, f: map<string, Json>, route: Route)
    requires TasksAccounted(t)
    ensures TasksAccounted(SynthesisAfter(t, f, route))
  {
    var q := t.queue;
    var x := QueuedDelta(Lookup(f, "delta", JStr("")));
    assert (q + [x])[..|q|] == q;
    assert (q + [None])[..|q|] == q;
  }

  /**
    A text delta that is JSON `null` queues a sentinel: the transfer task
    stops on it, so the reply's speech ends there, while `text_delta_task`
    stays set and no new task is started for the deltas after it.
   */
  lemma NullDeltaEndsSpeech(t: Synthesis, f: map<string, Json>)
    requires "delta" in f && f["delta"] == JNull
    ensures SynthesisAfter(t, f, TextDelta).queue == t.queue + [None]
    ensures Sentinels(SynthesisAfter(t, f, TextDelta).queue) == Sentinels(t.queue) + 1
    ensures SynthesisAfter(t, f, TextDelta).active
  {
    assert (t.queue + [None])[..|t.queue|] == t.queue;
  }

  /** The accounting holds over any run of upstream events. */
  lemma {:induction false} UpstreamRunAccountsTasks(s: Relay, events: seq<Incoming>)
    requires TasksAccounted(s.synthesis)
    ensures TasksAccounted(UpstreamRun(s, events).state.synthesis)
    decreases |events|
  {
    if events != [] && events[0].decoded.JObj? {
      var f := events[0].decoded.fields;
      SynthesisStepAccounted(s.synthesis, f, RouteOf(Lookup(f, "type", JNull)));
      var next := OnUpstream(s, events[0].raw, events[0].decoded);
      UpstreamRunAccountsTasks(next.state, events[1..]);
    }
  }

  /** The audio of the client's non-empty append messages, in order. */
  function AppendedAudio(msgs: seq<Incoming>): seq<Json> {
    if msgs == [] then []
    else
      var m := msgs[0].decoded;
      (if m.JObj? && Lookup(m.fields, "type", JNull) == JStr(AudioAppendMessage) &&
          Truthy(Lookup(m.fields, "audio", JStr(""))) then [Lookup(m.fields, "audio", JStr(""))] else [])
        + AppendedAudio(msgs[1..])
  }

  /** Every `session.update` in `out` asks for text output only. */
  predicate TextOnly(out: seq<UpstreamMessage>) {
    forall i :: 0 <= i < |out| && out[i].SessionUpdate? ==> out[i].modalities == ["text"]
  }

  /**
    Over the client messages of a run that did not stop, the detector's queue
    receives exactly the non-empty audio appends, in order.
   */
  lemma {:induction false} ClientRunFeedsDetector(s: Relay, msgs: seq<Incoming>)
    requires ClientRun(s, msgs).alive
    ensures ClientRun(s, msgs).state.vadQueue == s.vadQueue + AppendedAudio(msgs)
    decreases |msgs|
  {
    if msgs != [] {
      var m := msgs[0].decoded;
      var fw := ForwardClient(s.config, msgs[0].raw, m.fields, Lookup(m.fields, "type", JNull));
      var next := OnClient(s, msgs[0].raw, m);
      ClientRunFeedsDetector(next.state, msgs[1..]);
      assert s.vadQueue + fw.queued + AppendedAudio(msgs[1..]) == s.vadQueue + AppendedAudio(msgs);
    }
  }

  /**
    A run of client messages only appends to what goes upstream, and every
    `session.update` it sends asks for text output only, whatever `enabled`
    says.
   */
  lemma {:induction false} ClientRunTextOnly(s: Relay, msgs: seq<Incoming>)
    requires ClientRun(s, msgs).alive
    ensures var out := ClientRun(s, msgs).state.toUpstream;
            |s.toUpstream| <= |out| && out[..|s.toUpstream|] == s.toUpstream && TextOnly(out[|s.toUpstream|..])
    decreases |msgs|
  {
    if msgs != [] {
      var m := msgs[0].decoded;
      var fw := ForwardClient(s.config, msgs[0].raw, m.fields, Lookup(m.fields, "type", JNull));
      ForwardClientTextOnly(s.config, msgs[0].raw, m.fields, Lookup(m.fields, "type", JNull));
      var next := OnClient(s, msgs[0].raw, m);
      ClientRunTextOnly(next.state, msgs[1..]);
      var rest := ClientRun(next.state, msgs[1..]).state.toUpstream;
      assert next.state.toUpstream == s.toUpstream + fw.sent;
      PrefixSplit(rest, s.toUpstream, fw.sent);
      TextOnlyAppend(fw.sent, rest[|next.state.toUpstream|..]);
    }
  }

  /** Forwarding one client message never asks for audio output. */
  lemma ForwardClientTextOnly(cfg: VoiceConfig, raw: string, f: map<string, Json>, kind: Json)
    ensures TextOnly(ForwardClient(cfg, raw, f, kind).sent)
  {
  }

  /**
    The detector runs every chunk before the first one that does not decode,
    and stops there: nothing queued after it is ever heard.
   */
  lemma {:induction false} VadRunStopsAtUndecodable(s: Relay, before: seq<Json>, chunk: Json, after: seq<Json>,
                                                    b64: string -> Option<seq<byte>>, classify: seq<byte> -> Verdict)
    requires forall i :: 0 <= i < |before| ==> DecodeChunk(before[i], b64).Some?
    requires DecodeChunk(chunk, b64).None?
    ensures VadRun(s, before, b64, classify).alive
    ensures VadRun(s, before + [chunk] + after, b64, classify) == Stepped(VadRun(s, before, b64, classify).state, false)
    decreases |before|
  {
    if before == [] {
      assert before + [chunk] + after == [chunk] + after;
    } else {
      var decoded := DecodeChunk(before[0], b64).value;
      assert (before + [chunk] + after)[0] == before[0];
      assert (before + [chunk] + after)[1..] == before[1..] + [chunk] + after;
      VadRunStopsAtUndecodable(VadStep(s, decoded, classify), before[1..], chunk, after, b64, classify);
    }
  }

  /**
    A truthy `audio` that is not a str passes the emptiness test, so it is
    forwarded and queued, and the detector then fails to decode it and stops.
   */
  lemma NonStrAudioEndsDetector(cfg: VoiceConfig, raw: string, f: map<string, Json>, s: Relay,
                                b64: string -> Option<seq<byte>>, classify: seq<byte> -> Verdict)
    requires "audio" in f && !f["audio"].JStr? && Truthy(f["audio"])
    ensures ForwardClient(cfg, raw, f, JStr(AudioAppendMessage)).queued == [f["audio"]]
    ensures VadRun(s, [f["audio"]], b64, classify) == Stepped(s, false)
  {
  }

  /**
    The voice settings outlive the session: once a session has stored a
    complete `elevenlabs.config`, the next session connects with it rather
    than with the module defaults.
   */
  lemma NextSessionInheritsConfig(raw: string, enabled: Json, voice: Json)
    ensures var msg := JObj(map["type" := JStr(VoiceConfigMessage), "enabled" := enabled, "voice_id" := voice]);
            var first := ClientRun(Connected(ModuleDefaults), [Incoming(raw, msg)]);
            first.alive && Connected(first.state.config).config == VoiceConfig(enabled, voice)
  {
    var msg := JObj(map["type" := JStr(VoiceConfigMessage), "enabled" := enabled, "voice_id" := voice]);
    assert Lookup(msg.fields, "type", JNull) == JStr(VoiceConfigMessage);
    assert [Incoming(raw, msg)][1..] == [];
  }

  /** A sequence that starts with `a + b` starts with `a`, and continues with `b`. */
  lemma PrefixSplit<T>(whole: seq<T>, a: seq<T>, b: seq<T>)
    requires |a + b| <= |whole| && whole[..|a + b|] == a + b
    ensures whole[..|a|] == a
    ensures whole[|a|..] == b + whole[|a + b|..]
  {
    assert whole[..|a|] == (a + b)[..|a|];
  }

  lemma TextOnlyAppend(a: seq<UpstreamMessage>, b: seq<UpstreamMessage>)
    requires TextOnly(a) && TextOnly(b)
    ensures TextOnly(a + b)
  {
    forall i | 0 <= i < |a + b| && (a + b)[i].SessionUpdate?
      ensures (a + b)[i].modalities == ["text"]
    {
      if i >= |a| {
        assert (a + b)[i] == b[i - |a|];
      }
    }
  }

  // ---------------------------------------------------------------------
  // The session object

  class RelaySession {
    /** `bot_speaking_flag` */
    var speaking: bool
    /** `vad_audio_buffer` */
    var vadBuffer: seq<byte>
    /** `function_call` and `function_call_args` of the forwarding loop, and the calls handed off */
    var calls: Calls
    /** `text_delta_queue` and `text_delta_task` */
    var synthesis: Synthesis
    /** `shared_state` */
    var log: EventLog
    /** `use_elevenlabs` and `elevenlabs_voice` */
    var config: VoiceConfig
    /** `vad_queue` */
    var vadQueue: seq<Json>
    var toUpstream: seq<UpstreamMessage>
    var toClient: seq<ClientBound>

    function View(): Relay
      reads this
    {
      Relay(speaking, vadBuffer, calls, synthesis, log, config, vadQueue, toUpstream, toClient)
    }

    /** Connecting sends the opening `session.update`; the voice settings are the globals as they stand. */
    constructor (globals: VoiceConfig)
      ensures View() == Connected(globals)
    {
      speaking := false;
      vadBuffer := [];
      calls := Calls(None, "", []);
      synthesis := Synthesis([], false, 0);
      log := EventLog(JNull, 0);
      config := globals;
      vadQueue := [];
      toUpstream := [SessionUpdate(["text", "audio"])];
      toClient := [];
    }

    method LogEvent(kind: Json)
      modifies this`log
      ensures log == LogStep(old(log), kind)
    {
      if kind != log.last {
        log := EventLog(kind, 0);
      }
      log := log.(count := log.count + 1);
    }

    /** Buffers one decoded audio chunk and runs the detector over every whole frame. */
    method OnVadAudio(chunk: seq<byte>, classify: seq<byte> -> Verdict)
      modifies this`vadBuffer, this`speaking, this`toUpstream
      ensures View() == VadStep(old(View()), chunk, classify)
    {
      vadBuffer := vadBuffer + chunk;
      ghost var all := vadBuffer;
      ghost var speaking0 := speaking;
      ghost var sent0 := toUpstream;
      ghost var cancels: nat := 0;
      while |vadBuffer| >= BytesPer24kFrame
        invariant Leftover(vadBuffer) == Leftover(all)
        invariant BargeOver(speaking0, all, classify) ==
                    var r := BargeOver(speaking, vadBuffer, classify); Barge(r.speaking, cancels + r.cancels)
        invariant toUpstream == sent0 + Cancels(cancels)
        decreases |vadBuffer|
      {
        var frame := vadBuffer[..BytesPer24kFrame];
        vadBuffer := vadBuffer[BytesPer24kFrame..];
        if classify(frame) == Speech && speaking {
          toUpstream := toUpstream + [ResponseCancel];
          speaking := false;
          cancels := cancels + 1;
        }
      }
    }

    /**
      `process_vad_audio` over everything queued so far: each chunk is decoded
      and run through the frame loop, until one fails to decode.
     */
    method ProcessVadAudio(b64: string -> Option<seq<byte>>, classify: seq<byte> -> Verdict) returns (alive: bool)
      modifies this`vadBuffer, this`speaking, this`toUpstream
      ensures VadRun(old(View()), vadQueue, b64, classify) == Stepped(View(), alive)
    {
      alive := true;
      var i := 0;
      while i < |vadQueue| && alive
        invariant 0 <= i <= |vadQueue|
        invariant vadQueue == old(vadQueue)
        invariant alive ==> VadRun(old(View()), vadQueue, b64, classify) == VadRun(View(), vadQueue[i..], b64, classify)
        invariant !alive ==> VadRun(old(View()), vadQueue, b64, classify) == Stepped(View(), false)
      {
        assert vadQueue[i..][1..] == vadQueue[i + 1..];
        var decoded := DecodeChunk(vadQueue[i], b64);
        if decoded.None? {
          alive := false;
        } else {
          OnVadAudio(decoded.value, classify);
        }
        i := i + 1;
      }
      if alive {
        assert vadQueue[i..] == [];
      }
    }

    /** The text branches: queue the delta, starting a synthesis task if none is set, or queue the sentinel. */
    method QueueText(f: map<string, Json>, route: Route)
      modifies this`synthesis
      ensures synthesis == SynthesisAfter(old(synthesis), f, route)
    {
      if route == TextDelta {
        var started := if synthesis.active then synthesis.started else synthesis.started + 1;
        var delta := Lookup(f, "delta", JStr(""));
        var item := if delta.JNull? then None else Some(delta);
        synthesis := Synthesis(synthesis.queue + [item], true, started);
      } else if route == TextDone {
        synthesis := synthesis.(queue := synthesis.queue + [None], active := false);
      }
    }

    /**
      The tool-call branches: an added `function_call` item opens a call,
      argument deltas accumulate, arguments-done dispatches. Returns `false`,
      changing nothing, where the handler raises.
     */
    method TrackCall(f: map<string, Json>, route: Route) returns (ok: bool)
      modifies this`calls
      ensures CallsAfter(old(calls), f, route) == (if ok then Some(calls) else None)
      ensures !ok ==> calls == old(calls)
    {
      ok := true;
      if route == ItemAdded {
        var item := Lookup(f, "item", JObj(map[]));
        if !item.JObj? {
          return false;
        }
        if Lookup(item.fields, "type", JNull) == JStr("function_call") {
          calls := calls.(pending := Some(item.fields), args := "");
        }
      } else if route == ArgsDelta {
        var delta := Lookup(f, "delta", JStr(""));
        if !delta.JStr? {
          return false;
        }
        calls := calls.(args := calls.args + delta.s);
      } else if route == ArgsDone {
        // `if function_call:` tests the dict's truth: an empty one dispatches nothing.
        if calls.pending.Some? && calls.pending.value != map[] {
          calls := Calls(None, "", calls.dispatched + [ToolCall(calls.pending.value, calls.args)]);
        }
      }
    }

    /**
      One upstream event: echo it, route it by type, log it. The branches are
      grouped by the state they touch. Returns whether forwarding goes on.
     */
    method OnUpstreamEvent(raw: string, event: Json) returns (alive: bool)
      modifies this
      ensures Stepped(View(), alive) == OnUpstream(old(View()), raw, event)
    {
      if !event.JObj? {
        return false;
      }
      var f := event.fields;
      var kind := Lookup(f, "type", JNull);
      var route := RouteOf(kind);
      ghost var before := View();
      toClient := toClient + [Forward(raw)];
      if route == ItemAdded {
        speaking := true;
      } else if route == ItemDone {
        speaking := false;
      }
      ghost var echoed := View();
      assert echoed == before.(toClient := before.toClient + [Forward(raw)],
                               speaking := SpeakingAfter(before.speaking, route));
      alive := TrackCall(f, route);
      if !alive {
        assert View() == echoed;
        return;
      }
      QueueText(f, route);
      if route == Unrouted {
        toClient := toClient + [Forward(raw)];
      }
      LogEvent(kind);
    }

    /** One client message: log, then forward. Returns whether forwarding goes on. */
    method OnClientMessage(raw: string, msg: Json) returns (alive: bool)
      modifies this
      ensures Stepped(View(), alive) == OnClient(old(View()), raw, msg)
    {
      if !msg.JObj? {
        return false;
      }
      var f := msg.fields;
      var kind := Lookup(f, "type", JNull);
      LogEvent(kind);
      if kind == JStr(AudioAppendMessage) {
        var audio := Lookup(f, "audio", JStr(""));
        if !Truthy(audio) {
          return true;
        }
        toUpstream := toUpstream + [AudioAppend(audio)];
        vadQueue := vadQueue + [audio];
      }
      if kind == JStr(VoiceConfigMessage) {
        if "enabled" !in f {
          return false;
        }
        config := config.(useElevenLabs := f["enabled"]);
        if "voice_id" !in f {
          return false;
        }
        config := config.(voice := f["voice_id"]);
        toUpstream := toUpstream + [SessionUpdate(["text"])];
      } else {
        toUpstream := toUpstream + [Verbatim(raw)];
      }
      alive := true;
    }
  }

  // ---------------------------------------------------------------------
  // Tool call results

  /** `.get("data", {}).get("build_data", "").get("data", {}).get("results", {}).get("message", {}).get("text", "")` */
  const ToolResultPath := [Link("data", JObj(map[])), Link("build_data", JStr("")), Link("data", JObj(map[])),
                           Link("results", JObj(map[])), Link("message", JObj(map[])), Link("text", JStr(""))]

  const ToolErrorPrefix := "Error executing flow: "

  /**
    The text one build event contributes: the text at `path` of an
    `end_vertex` event, nothing for other events, or the error raised on the way.
   */
  function EventText(event: Json, path: seq<Link>): Result<string, string> {
    match Get(event, "event", JNull)
    case Err(e) => Err(e)
    case Ok(name) =>
      if name != JStr("end_vertex") then Ok("")
      else
        match GetPath(event, path)
        case Err(e) => Err(e)
        case Ok(part) => AppendText("", part)
  }

  /** The build events relayed to the client and the accumulated result or the error that ended it. */
  datatype Collected = Collected(events: seq<Json>, result: Result<string, string>)

  /** The text of one build event: its `end_vertex` result text, if it is one. */
  function ToolText(event: Json): Result<string, string> {
    EventText(event, ToolResultPath)
  }

  /** The stream loop of `handle_function_call` over the flow's output lines. */
  function CollectToolOutput(lines: seq<string>, parse: string -> Result<Json, string>, text: Json -> Result<string, string>): Collected
    decreases |lines|
  {
    if lines == [] then Collected([], Ok(""))
    else if lines[0] == "" then CollectToolOutput(lines[1..], parse, text)
    else
      match parse(lines[0])
      case Err(e) => Collected([], Err(e))
      case Ok(event) =>
        match text(event)
        case Err(e) => Collected([event], Err(e))
        case Ok(part) =>
          var rest := CollectToolOutput(lines[1..], parse, text);
          Collected([event] + rest.events, if rest.result.Ok? then Ok(part + rest.result.value) else rest.result)
  }

  /** A line the loop passes without raising. */
  predicate CleanLine(line: string, parse: string -> Result<Json, string>, text: Json -> Result<string, string>) {
    line == "" || (parse(line).Ok? && text(parse(line).value).Ok?)
  }

  predicate AllClean(lines: seq<string>, parse: string -> Result<Json, string>, text: Json -> Result<string, string>) {
    lines == [] || (CleanLine(lines[0], parse, text) && AllClean(lines[1..], parse, text))
  }

  /** The decoded non-blank lines. */
  function DecodedLines(lines: seq<string>, parse: string -> Result<Json, string>, text: Json -> Result<string, string>): seq<Json>
    requires AllClean(lines, parse, text)
  {
    if lines == [] then []
    else (if lines[0] == "" then [] else [parse(lines[0]).value]) + DecodedLines(lines[1..], parse, text)
  }

  /** The `end_vertex` texts of the decoded non-blank lines, in order. */
  function ResultTexts(lines: seq<string>, parse: string -> Result<Json, string>, text: Json -> Result<string, string>): seq<string>
    requires AllClean(lines, parse, text)
  {
    if lines == [] then []
    else (if lines[0] == "" then [] else [text(parse(lines[0]).value).value])
           + ResultTexts(lines[1..], parse, text)
  }

  /**
    The stream loop succeeds exactly when every line is blank or a build event
    it can read; then every decoded event is relayed to the client in order and
    the result is the concatenation of the `end_vertex` texts.
   */
  lemma {:induction false} CollectToolOutputCorrect(lines: seq<string>, parse: string -> Result<Json, string>, text: Json -> Result<string, string>)
    ensures CollectToolOutput(lines, parse, text).result.Ok? <==> AllClean(lines, parse, text)
    ensures AllClean(lines, parse, text) ==>
              CollectToolOutput(lines, parse, text) == Collected(DecodedLines(lines, parse, text), Ok(Concat(ResultTexts(lines, parse, text))))
    decreases |lines|
  {
    if lines != [] {
      CollectToolOutputCorrect(lines[1..], parse, text);
      if lines[0] == "" && AllClean(lines, parse, text) {
        var texts := ResultTexts(lines[1..], parse, text);
        assert DecodedLines(lines, parse, text) == DecodedLines(lines[1..], parse, text) by {
          assert [] + DecodedLines(lines[1..], parse, text) == DecodedLines(lines[1..], parse, text);
        }
        assert ResultTexts(lines, parse, text) == texts by {
          assert [] + texts == texts;
        }
      } else if AllClean(lines, parse, text) {
        var part := text(parse(lines[0]).value).value;
        var texts := ResultTexts(lines[1..], parse, text);
        assert ([part] + texts)[1..] == texts;
        assert Concat([part] + texts) == part + Concat(texts);
      }
    }
  }

  /** The messages `handle_function_call` sends to the client and upstream. */
  datatype ToolReply = ToolReply(toClient: seq<ClientBound>, toUpstream: seq<UpstreamMessage>)

  function Progress(events: seq<Json>): (r: seq<ClientBound>)
    ensures |r| == |events|
    ensures forall i :: 0 <= i < |events| ==> r[i] == BuildProgress(events[i])
  {
    seq(|events|, i requires 0 <= i < |events| => BuildProgress(events[i]))
  }

  /**
    `handle_function_call`: parse the arguments (empty means `{}`), run the
    flow on their `input`, relay the build events and answer with the result,
    then ask for a response; any exception answers with its message instead.
   */
  function ToolCallReply(call: ToolCall, parse: string -> Result<Json, string>,
                         runFlow: Json -> Result<seq<string>, string>): ToolReply
  {
    var callId := Lookup(call.item, "call_id", JNull);
    var args := if call.arguments == "" then Ok(JObj(map[])) else parse(call.arguments);
    var input := if args.Err? then Err(args.error) else Get(args.value, "input", JNull);
    var lines := if input.Err? then Err(input.error) else runFlow(input.value);
    if lines.Err? then ToolReply([], [FunctionCallOutput(callId, ToolErrorPrefix + lines.error)])
    else
      var c := CollectToolOutput(lines.value, parse, ToolText);
      match c.result
      case Ok(output) => ToolReply(Progress(c.events), [FunctionCallOutput(callId, output), ResponseCreate])
      case Err(e) => ToolReply(Progress(c.events), [FunctionCallOutput(callId, ToolErrorPrefix + e)])
  }

  /**
    Every tool call is answered by exactly one `function_call_output` carrying
    its `call_id`; a `response.create` follows exactly when nothing raised, and
    then the output is the concatenated `end_vertex` texts.
   */
  lemma ToolCallAnswersOnce(call: ToolCall, parse: string -> Result<Json, string>,
                            runFlow: Json -> Result<seq<string>, string>)
    ensures var reply := ToolCallReply(call, parse, runFlow);
            1 <= |reply.toUpstream| <= 2 &&
            reply.toUpstream[0].FunctionCallOutput? &&
            reply.toUpstream[0].callId == Lookup(call.item, "call_id", JNull) &&
            forall i :: 1 <= i < |reply.toUpstream| ==> reply.toUpstream[i] == ResponseCreate
    ensures var reply := ToolCallReply(call, parse, runFlow);
            var args := if call.arguments == "" then Ok(JObj(map[])) else parse(call.arguments);
            |reply.toUpstream| == 2 <==>
              args.Ok? && args.value.JObj? &&
              var lines := runFlow(Lookup(args.value.fields, "input", JNull));
              lines.Ok? && AllClean(lines.value, parse, ToolText)
    ensures var reply := ToolCallReply(call, parse, runFlow);
            var args := if call.arguments == "" then Ok(JObj(map[])) else parse(call.arguments);
            |reply.toUpstream| == 2 ==>
              var lines := runFlow(Lookup(args.value.fields, "input", JNull)).value;
              reply.toUpstream[0].output == Concat(ResultTexts(lines, parse, ToolText)) &&
              reply.toClient == Progress(DecodedLines(lines, parse, ToolText))
  {
    var args := if call.arguments == "" then Ok(JObj(map[])) else parse(call.arguments);
    if args.Ok? && args.value.JObj? {
      var lines := runFlow(Lookup(args.value.fields, "input", JNull));
      if lines.Ok? {
        CollectToolOutputCorrect(lines.value, parse, ToolText);
      }
    }
  }

  lemma GlueEmpty(c: Collected)
    ensures Glue([], "", c) == c
  {
    assert [] + c.events == c.events;
    if c.result.Ok? {
      assert "" + c.result.value == c.result.value;
    }
  }

  /** Prefixes the events already relayed and the text already accumulated to the rest of the stream. */
  function Glue(sent: seq<Json>, acc: string, rest: Collected): Collected {
    Collected(sent + rest.events, if rest.result.Ok? then Ok(acc + rest.result.value) else rest.result)
  }

  lemma GlueEnd(sent: seq<Json>, acc: string, r: Result<string, string>)
    ensures Glue(sent, acc, Collected([], r)) == Collected(sent, if r.Ok? then Ok(acc + r.value) else r)
  {
    assert sent + [] == sent;
  }

  /** Moving one event and its text from the rest of the stream to the part already done. */
  lemma GlueShift(sent: seq<Json>, acc: string, event: Json, part: string, after: Collected)
    ensures Glue(sent, acc, Collected([event] + after.events, if after.result.Ok? then Ok(part + after.result.value) else after.result))
            == Glue(sent + [event], acc + part, after)
  {
    assert sent + ([event] + after.events) == (sent + [event]) + after.events;
    if after.result.Ok? {
      assert acc + (part + after.result.value) == (acc + part) + after.result.value;
    }
  }

  /**
    The `async for` loop of `handle_function_call`: collects each decoded build
    event (each one is relayed to the client) and accumulates the `end_vertex`
    texts, stopping at the first line that raises.
   */
  method StreamToolOutput(lines: seq<string>, parse: string -> Result<Json, string>, text: Json -> Result<string, string>)
    returns (events: seq<Json>, result: Result<string, string>)
    ensures Collected(events, result) == CollectToolOutput(lines, parse, text)
  {
    events := [];
    var acc := "";
    ghost var whole := CollectToolOutput(lines, parse, text);
    GlueEmpty(whole);
    var rest := lines;
    while rest != []
      invariant Glue(events, acc, CollectToolOutput(rest, parse, text)) == whole
      decreases |rest|
    {
      var line := rest[0];
      ghost var after := CollectToolOutput(rest[1..], parse, text);
      if line != "" {
        var decoded := parse(line);
        if decoded.Err? {
          GlueEnd(events, acc, Err(decoded.error));
          return events, Err(decoded.error);
        }
        var part := text(decoded.value);
        if part.Err? {
          GlueEnd(events + [decoded.value], acc, Err(part.error));
          return events + [decoded.value], Err(part.error);
        }
        GlueShift(events, acc, decoded.value, part.value, after);
        events := events + [decoded.value];
        acc := acc + part.value;
      }
      rest := rest[1..];
    }
    GlueEnd(events, acc, Ok(""));
    assert acc + "" == acc;
    result := Ok(acc);
  }

  /**
    `handle_function_call`: every path answers the call exactly once, as
    `ToolCallReply` states.
   */
  method HandleFunctionCall(call: ToolCall, parse: string -> Result<Json, string>,
                            runFlow: Json -> Result<seq<string>, string>)
    returns (toClient: seq<ClientBound>, toUpstream: seq<UpstreamMessage>)
    ensures ToolReply(toClient, toUpstream) == ToolCallReply(call, parse, runFlow)
  {
    var callId := Lookup(call.item, "call_id", JNull);
    toClient := [];
    var args := if call.arguments == "" then Ok(JObj(map[])) else parse(call.arguments);
    if args.Err? {
      toUpstream := [FunctionCallOutput(callId, ToolErrorPrefix + args.error)];
      return;
    }
    var input := Get(args.value, "input", JNull);
    if input.Err? {
      toUpstream := [FunctionCallOutput(callId, ToolErrorPrefix + input.error)];
      return;
    }
    var response := runFlow(input.value);
    if response.Err? {
      toUpstream := [FunctionCallOutput(callId, ToolErrorPrefix + response.error)];
      return;
    }
    var events, result := StreamToolOutput(response.value, parse, ToolText);
    toClient := Progress(events);
    if result.Err? {
      toUpstream := [FunctionCallOutput(callId, ToolErrorPrefix + result.error)];
    } else {
      toUpstream := [FunctionCallOutput(callId, result.value), ResponseCreate];
    }
  }
}
