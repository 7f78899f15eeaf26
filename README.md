# Langflow voice relay and component helpers, modelled in Dafny

This project models the core of Langflow's realtime voice relay and a handful of the components and command-line helpers around it, and proves properties of the model.

**The voice relay** (`api/v1/voice_mode.py`):
- the phrase-bounded text chunkers that feed text-to-speech;
- `queue_generator` and its `None` sentinel;
- the tool-call round trip in `handle_function_call`;
- voice-activity detection (VAD) framing and barge-in in `process_vad_audio`;
- the coalescing console log `log_event`;
- the two routing pumps `forward_to_openai` and `forward_to_client`;
- in `flow_audio_websocket`, the ChatInput lookup, the receive loop and the `end_stream`/`None` queue protocol.

**Components and helpers:**
- artifact classification and post-processing (`schema/artifact.py`);
- the Parser component (`components/processing/parser.py`);
- the Astra DB CQL tool's projection parsing and REST request and reply (`components/tools/astradb_cql.py`);
- the URL component's scheme normalisation and loading loop (`components/data/url.py`);
- the `langflow` command-line helpers and the operation selection of `langflow migration` (`__main__.py`).

## Structure

**Shared modules**
- `Results` holds `Option` and `Result`. `Err` carries the message of the exception Python would raise.
- `Json` models values as `json.loads` produces them, with `dict.get` chains.
- `Values` models the Python value shapes the artifact and Parser code tell apart.
- `Strings` models the `str` operations used: `split`, `join`, `replace`, `strip`, `startswith` and `in`.

**One module per source file**
- `TextChunker`, `VoiceRelay` and `FlowAudio` model `voice_mode.py`.
- `Artifact`, `Parser`, `AstraCql`, `UrlComponent` and `Cli` model the other files.

**How the imperative code is modelled**
- Where the source updates state step by step, the model does the same:
  - the relay session is a class (`VoiceRelay.RelaySession`) whose methods update its fields;
  - loops stay loops.
- Each method is proved equal to a specification function, and the properties are lemmas about that function.
- Collaborators the model cannot see are function-typed parameters:
  - the VAD classifier, the flow executor and JSON decoding;
  - pandas, `str.format` and `jsonable_encoder`;
  - the recursive URL loader, the HTTP GET and the port-in-use probe.

## Behaviours kept as the code has them

Each of these is modelled as written and stated by a lemma.

**Text chunkers**
- Both chunkers yield the buffer twice when the end-of-text sentinel arrives with text still buffered. The sentinel branch flushes without clearing the buffer, and the code after the loop flushes it again (`TextChunker.SyncChunksAtEnd`).
- An empty fragment flushes a buffer that ends in a splitter (`TextChunker.EmptyFragment`).
- A fragment that starts with a splitter, arriving on an empty buffer, yields that one character plus a space as a chunk of its own. So `"Hello"`, `","`, `" world"`, `"."` gives three chunks, the middle one two spaces (`TextChunker.HelloWorldSteps`).

**Client messages**
- A non-empty `input_audio_buffer.append` is sent upstream twice, once rebuilt and once verbatim, because the `elevenlabs.config` test that follows is an `if` with its own `else`.
- Every `session.update` sent for `elevenlabs.config` asks for text output only, whatever `enabled` says (`VoiceRelay.ClientRunTextOnly`).

**Upstream events**
- An upstream event of a type that `forward_to_client` does not route is echoed to the client twice (`VoiceRelay.UpstreamRunEchoesAndLogs`).

## Model

| member | source | states |
|---|---|---|
| VoiceRelay.FrameSizes | src/backend/base/langflow/utils/voice_utils.py:11-17 | a 20 ms frame is 960 bytes at 24 kHz and 640 bytes at 16 kHz (16-bit mono) |
| VoiceRelay.FramesPartition | src/backend/base/langflow/api/v1/voice_mode.py:307-311 | taking whole frames off the VAD buffer loses and reorders nothing: the frames followed by the leftover are the buffered bytes |
| VoiceRelay.FramesWhole | src/backend/base/langflow/api/v1/voice_mode.py:309-311 | every frame cut is exactly 960 bytes and fewer than 960 bytes stay buffered |
| VoiceRelay.BargeInOnce | src/backend/base/langflow/api/v1/voice_mode.py:309-322 | over one batch, exactly one `response.cancel` is sent if the bot was speaking and some frame is speech, none otherwise; afterwards the bot is speaking iff it was and no frame was speech |
| VoiceRelay.RelaySession.OnVadAudio | src/backend/base/langflow/api/v1/voice_mode.py:305-325 | the frame loop leaves the leftover bytes buffered, updates the speaking flag and appends the cancels exactly as the batch specification `VadStep` says |
| VoiceRelay.RelaySession.ProcessVadAudio | src/backend/base/langflow/api/v1/voice_mode.py:301-325 | `process_vad_audio` decodes each queued chunk and runs its frames, ending where a chunk fails to decode, exactly as `VadRun` says |
| VoiceRelay.VadRunStopsAtUndecodable | src/backend/base/langflow/api/v1/voice_mode.py:304-306 | every chunk before the first undecodable one is run, and nothing after it: the detector task ends there |
| VoiceRelay.NonStrAudioEndsDetector | src/backend/base/langflow/api/v1/voice_mode.py:411-417 | a truthy non-str `audio` is queued for the detector, which fails to decode it and stops |
| VoiceRelay.RelaySession.LogEvent | src/backend/base/langflow/api/v1/voice_mode.py:336-342 | a new event type restarts the count at one; a repeated type increments it |
| VoiceRelay.LogStepSummary | src/backend/base/langflow/api/v1/voice_mode.py:336-342 | logging one event turns the summary of a history into the summary of the history extended by that event |
| VoiceRelay.LogCountsTrailingRun | src/backend/base/langflow/api/v1/voice_mode.py:336-342 | after any sequence of events the log holds the last event's type and the length of the run of that type at the end |
| VoiceRelay.LogFromStart | src/backend/base/langflow/api/v1/voice_mode.py:334-342 | from the initial `None`/0 state, the log is the summary of all events seen |
| VoiceRelay.RelaySession.constructor | src/backend/base/langflow/api/v1/voice_mode.py:273-298 | a session starts not speaking, with empty buffers, with `use_elevenlabs` and `elevenlabs_voice` as the module globals stand when it connects, and with one `session.update` asking for text and audio already sent |
| VoiceRelay.NextSessionInheritsConfig | src/backend/base/langflow/api/v1/voice_mode.py:404-421 | after a session stores a complete `elevenlabs.config`, the next session connects with that config, not the module defaults |
| VoiceRelay.RelaySession.QueueText | src/backend/base/langflow/api/v1/voice_mode.py:465-472 | a text delta is queued for synthesis (a `null` one as `None`), starting a task only if none is set; text done queues the `None` sentinel and unsets `text_delta_task` |
| VoiceRelay.NullDeltaEndsSpeech | src/backend/base/langflow/api/v1/voice_mode.py:465-471 | a `null` text delta is queued as the same `None` as the end-of-text sentinel, adding one sentinel, while the synthesis task stays set |
| VoiceRelay.RelaySession.TrackCall | src/backend/base/langflow/api/v1/voice_mode.py:474-501 | a `function_call` item opens a call, argument deltas accumulate, arguments-done dispatches the pending call and clears it; a non-dict item or non-str delta raises and changes nothing |
| VoiceRelay.RelaySession.OnUpstreamEvent | src/backend/base/langflow/api/v1/voice_mode.py:457-509 | one `forward_to_client` iteration: echo, route by type, log; the session after it is exactly `OnUpstream` of the session before |
| VoiceRelay.RelaySession.OnClientMessage | src/backend/base/langflow/api/v1/voice_mode.py:406-447 | one `forward_to_openai` iteration: log, then forward; the session after it is exactly `OnClient` of the session before |
| VoiceRelay.NonObjectEndsPumps | src/backend/base/langflow/api/v1/voice_mode.py:408-410 | a message that is not a dict, or not JSON, ends either pump before anything is sent or logged |
| VoiceRelay.UpstreamStepEchoLog | src/backend/base/langflow/api/v1/voice_mode.py:458-509 | an event the loop survives was a dict, is echoed once (twice if unrouted) and is logged once |
| VoiceRelay.UpstreamRunEchoesAndLogs | src/backend/base/langflow/api/v1/voice_mode.py:457-509 | over a run of upstream events, every event is echoed to the client in order (unrouted types twice) and the log is the log of their types |
| VoiceRelay.UpstreamRunTracksCalls | src/backend/base/langflow/api/v1/voice_mode.py:474-501 | whether the upstream pump stops, and its tool-call state, depend on the tool-call branches alone |
| VoiceRelay.QuietRun | src/backend/base/langflow/api/v1/voice_mode.py:484-485 | events that open or close no call only append their argument deltas, in order, whether or not a call is open |
| VoiceRelay.ArgsDoneWithoutCall | src/backend/base/langflow/api/v1/voice_mode.py:486-487 | arguments-done with no call pending dispatches nothing, leaves the call state alone and the loop goes on |
| VoiceRelay.UpstreamRunSpeaking | src/backend/base/langflow/api/v1/voice_mode.py:474-482 | after a run the loop survives, the bot is speaking as the last `output_item.added` or `output_item.done` left it, or as before if neither came |
| VoiceRelay.RaisingItemStillSpeaks | src/backend/base/langflow/api/v1/voice_mode.py:474-478 | an `output_item.added` whose item is not a dict ends the loop with the bot already marked as speaking |
| VoiceRelay.DispatchCarriesArguments | src/backend/base/langflow/api/v1/voice_mode.py:474-501 | a call opened by a `function_call` item and closed by arguments-done is dispatched once, with the concatenation of the deltas in between, and the call state is cleared |
| VoiceRelay.DispatchAtMostOncePerCall | src/backend/base/langflow/api/v1/voice_mode.py:486-501 | a run only appends to the dispatched calls, at most one per `function_call` item it opens plus the one pending at its start |
| VoiceRelay.DispatchStep | src/backend/base/langflow/api/v1/voice_mode.py:486-501 | one upstream event only appends to the dispatched calls, and dispatches at most the call that was pending before it |
| VoiceRelay.SynthesisStepAccounted | src/backend/base/langflow/api/v1/voice_mode.py:465-472 | one event keeps the invariant: synthesis tasks started are at most the queued `None` sentinels, plus one if a task is currently set |
| VoiceRelay.UpstreamRunAccountsTasks | src/backend/base/langflow/api/v1/voice_mode.py:465-472 | over any run of events, synthesis tasks are started only when none is set, so every started task but the current one has been sent its sentinel |
| VoiceRelay.ClientRunFeedsDetector | src/backend/base/langflow/api/v1/voice_mode.py:411-417 | the VAD queue receives exactly the client's non-empty audio appends, in order |
| VoiceRelay.ForwardClientTextOnly | src/backend/base/langflow/api/v1/voice_mode.py:418-445 | forwarding one client message never sends a `session.update` asking for audio |
| VoiceRelay.ClientRunTextOnly | src/backend/base/langflow/api/v1/voice_mode.py:418-447 | a run of client messages only appends upstream, and every `session.update` it sends asks for text only |
| VoiceRelay.CollectToolOutputCorrect | src/backend/base/langflow/api/v1/voice_mode.py:146-161 | the stream loop succeeds iff every line is blank or a readable build event; then every event is relayed in order and the result is the concatenated `end_vertex` texts |
| VoiceRelay.StreamToolOutput | src/backend/base/langflow/api/v1/voice_mode.py:146-161 | the `async for` loop relays each decoded event and accumulates the texts, stopping at the first line that raises, as `CollectToolOutput` specifies |
| VoiceRelay.HandleFunctionCall | src/backend/base/langflow/api/v1/voice_mode.py:124-182 | every path of `handle_function_call` sends exactly what `ToolCallReply` specifies |
| VoiceRelay.ToolCallAnswersOnce | src/backend/base/langflow/api/v1/voice_mode.py:134-182 | each tool call gets exactly one `function_call_output` carrying its `call_id`; `response.create` follows iff nothing raised, and then the output is the concatenated `end_vertex` texts |
| TextChunker.ReadOnce | src/backend/base/langflow/api/v1/voice_mode.py:193-211 | one read flushes on timeout, flushes without clearing on the sentinel, and otherwise cuts at a trailing or leading splitter or appends |
| TextChunker.ChunkLoop | src/backend/base/langflow/api/v1/voice_mode.py:192-211 | the reading loop yields the chunks and leaves the buffer that the run specification `Feed` gives |
| TextChunker.SyncTextChunker | src/backend/base/langflow/api/v1/voice_mode.py:186-213 | `sync_text_chunker` finishes iff the sentinel was read, and yields `SyncChunks` |
| TextChunker.TextChunkerWithTimeout | src/backend/base/langflow/api/v1/voice_mode.py:80-112 | `text_chunker_with_timeout` over a finite source yields `AsyncChunks` |
| TextChunker.GeneratorEndsAtTimeout | src/backend/base/langflow/api/v1/voice_mode.py:89-98 | over an async generator, whose reads end once a timeout cancels one, nothing after the first timeout is chunked, and its flush is the last chunk unless the sentinel came first |
| TextChunker.UntilTimeoutCuts | src/backend/base/langflow/api/v1/voice_mode.py:115-121 | an async generator is read up to and including the first timeout |
| TextChunker.ChunkersSpaceTerminated | src/backend/base/langflow/api/v1/voice_mode.py:186-213 | both chunkers only yield non-empty text followed by one space |
| TextChunker.AdvanceConservesText | src/backend/base/langflow/api/v1/voice_mode.py:192-211 | one read moves text between buffer and chunks without losing or adding any |
| TextChunker.FeedConservesText | src/backend/base/langflow/api/v1/voice_mode.py:192-211 | what the chunks carry, followed by the buffer, is every fragment read before the sentinel, in order |
| TextChunker.SyncChunksAtEnd | src/backend/base/langflow/api/v1/voice_mode.py:200-213 | after the sentinel the chunks carry all text read; with a non-empty buffer the last two chunks are the same buffer plus a space |
| TextChunker.TimeoutEmptiesBuffer | src/backend/base/langflow/api/v1/voice_mode.py:195-199 | a run ending in a timeout leaves the buffer empty, which bounds latency by the flush window |
| TextChunker.FragmentsCutAtBoundaries | src/backend/base/langflow/api/v1/voice_mode.py:204-211 | without timeouts or sentinel, every chunk ends, before its space, in one of the fourteen splitters |
| TextChunker.EmptyFragment | src/backend/base/langflow/api/v1/voice_mode.py:204-211 | an empty fragment changes nothing unless the buffer ends in a splitter, which it then flushes |
| TextChunker.SplitterLedFragmentOnEmptyBuffer | src/backend/base/langflow/api/v1/voice_mode.py:207-209 | on an empty buffer a splitter-led fragment yields its first character plus a space as a chunk |
| TextChunker.SplitterAfterWord | src/backend/base/langflow/api/v1/voice_mode.py:204-209 | a lone splitter after a word that does not end in one closes the word's chunk with that splitter and a space, and leaves the buffer empty |
| TextChunker.HelloWorldSteps | src/backend/base/langflow/api/v1/voice_mode.py:204-211 | "Hello", ",", " world", "." is cut as "Hello, ", "  ", "world. " |
| TextChunker.PartialFlushedByTimeout | src/backend/base/langflow/api/v1/voice_mode.py:193-199 | a fragment with no boundary followed by a timeout yields exactly "partial " |
| TextChunker.PartialThenMoreDropped | src/backend/base/langflow/api/v1/voice_mode.py:89-98 | over an async generator, "partial", a pause, then "more" yields only "partial ", where a source that survives the timeout also yields "more " |
| FlowAudio.QueueGenerator | src/backend/base/langflow/api/v1/voice_mode.py:115-121 | yields the items before the first `None`, and finishes iff the queue holds a `None` |
| FlowAudio.SentinelRoundTrip | src/backend/base/langflow/api/v1/voice_mode.py:115-121 | items put before a `None` are read back exactly, whatever follows the sentinel |
| FlowAudio.IsChatInput | src/backend/base/langflow/api/v1/voice_mode.py:603 | a node that answers without raising is a dict |
| FlowAudio.LocateChatInput | src/backend/base/langflow/api/v1/voice_mode.py:595-609 | the lookup loop stops at the first ChatInput and ends as `OpeningOf` specifies: listening, closed with 4004, or aborted by the error raised |
| FlowAudio.FirstChatInputAt | src/backend/base/langflow/api/v1/voice_mode.py:602-606 | the id picked is that of the first ChatInput node, whatever follows it |
| FlowAudio.FirstChatInputFound | src/backend/base/langflow/api/v1/voice_mode.py:602-606 | a found id always comes from a ChatInput node preceded only by non-ChatInput nodes |
| FlowAudio.NoChatInputCloses | src/backend/base/langflow/api/v1/voice_mode.py:607-609 | nodes none of which is a ChatInput close the socket with code 4004 |
| FlowAudio.ReceiveLoop | src/backend/base/langflow/api/v1/voice_mode.py:669-691 | the receive loop and the `finally` clause leave the queued messages followed by exactly one `None` |
| FlowAudio.EndStreamQueuesEverything | src/backend/base/langflow/api/v1/voice_mode.py:670-677 | messages followed by `end_stream` are queued exactly, in order, with no error report, whatever comes after |
| FlowAudio.QueuedAreQueueable | src/backend/base/langflow/api/v1/voice_mode.py:670-677 | every queued message was received, in order, and is a dict whose type is not `end_stream` |
| FlowAudio.ConsumerSeesQueued | src/backend/base/langflow/api/v1/voice_mode.py:612-618 | the consumer reads back exactly the queued messages, and the queue holds one `None` |
| FlowAudio.ProcessEvents | src/backend/base/langflow/api/v1/voice_mode.py:612-666 | every event before the sentinel is processed and the loop goes on; with a str ChatInput id each event that raises in the flow sends one error report, and with any other id every request is refused and only logged, so no report is sent |
| FlowAudio.NonStrIdListensSilently | src/backend/base/langflow/api/v1/voice_mode.py:596-629 | a flow whose ChatInput id is the number 7 is listened to, but every request for it is refused and the client gets no report |
| FlowAudio.ProcessedEventSilent | src/backend/base/langflow/api/v1/voice_mode.py:626-649 | when the flow run hands back its event stream and every line reads cleanly, the event yields the concatenated transcript texts and sends no report |
| FlowAudio.SafeBuildFlowAsWritten | src/backend/base/langflow/api/v1/voice_mode.py:57-59 | `safe_build_flow` as written never yields an event stream: reading `body_iterator` off the coroutine raises |
| FlowAudio.AsWrittenEveryEventFails | src/backend/base/langflow/api/v1/voice_mode.py:57-59 | as written, with a str ChatInput id every queued event is answered by one identical "Flow processing error" report, and none reaches the flow |
| FlowAudio.ReportsAppend | src/backend/base/langflow/api/v1/voice_mode.py:655-660 | the reports of consecutive outcomes are the reports of each part: a failure does not stop later events |
| FlowAudio.ReportsOnePerFailure | src/backend/base/langflow/api/v1/voice_mode.py:655-660 | over outcomes that reach the inner `except`, exactly one error report is sent per event whose processing raised |
| FlowAudio.ReportsCarryErrors | src/backend/base/langflow/api/v1/voice_mode.py:655-660 | each report carries "Flow processing error: " and the message of an event that raised |
| Json.Get | src/backend/base/langflow/api/v1/voice_mode.py:603 | `.get` succeeds iff the value is a dict, and then returns the entry or the default |
| Json.GetPathNest | src/backend/base/langflow/api/v1/voice_mode.py:153-160 | a chain of `.get`s finds the value nested under exactly its keys |
| Json.AppendText | src/backend/base/langflow/api/v1/voice_mode.py:161 | `result += text_part` succeeds iff the part is a str, and then appends it |
| Artifact.Parse | src/backend/base/langflow/schema/artifact.py:17-24 | parsing succeeds only into the member whose value is exactly the string |
| Artifact.NameParse | src/backend/base/langflow/schema/artifact.py:17-24 | every member's value parses back to that member, so the seven values are distinct |
| Artifact.NeverData | src/backend/base/langflow/schema/artifact.py:27-46 | `get_artifact_type` never answers "data", with or without a build result |
| Artifact.ClassifyByInnermost | src/backend/base/langflow/schema/artifact.py:27-46 | without a build result the type is that of the innermost value, after Data defers to `.data` and Message to `.text` |
| Artifact.BuildResultOnlyStreams | src/backend/base/langflow/schema/artifact.py:42-45 | a build result matters only when the match leaves the type unknown; then a DataFrame raises on its truth test, a generator gives "stream", anything else changes nothing |
| Artifact.ToListOfDicts | src/backend/base/langflow/schema/artifact.py:49-56 | one entry per item in order, serialised if it can dump itself and `str` otherwise; iterating a non-iterable raises |
| Artifact.Records | src/backend/base/langflow/schema/artifact.py:64 | `to_dict(orient="records")` gives a list with one record per DataFrame row |
| Artifact.PostProcessStream | src/backend/base/langflow/schema/artifact.py:61-62 | a stream's raw value is emptied and its type kept |
| Artifact.PostProcessArray | src/backend/base/langflow/schema/artifact.py:63-64 | an array of items keeps its length, each item serialised or stringified |
| Artifact.PostProcessUnknown | src/backend/base/langflow/schema/artifact.py:65-74 | a non-None "unknown" model or dict becomes "object", encoded or "Built Successfully ✨" if encoding fails; anything else is reported built and stays "unknown" |
| Artifact.PostProcessKeeps | src/backend/base/langflow/schema/artifact.py:59-75 | other types, and "unknown" with None, are returned unchanged |
| Artifact.PostProcessTypeChanges | src/backend/base/langflow/schema/artifact.py:59-75 | the type only ever changes from "unknown" to "object", and only an "array" that is not a DataFrame can raise |
| Artifact.PostProcessClassified | src/backend/base/langflow/schema/artifact.py:27-75 | a type the classifier returns stays an artifact type through post-processing |
| Parser.UpdateBuildConfig | src/backend/base/langflow/components/processing/parser.py:74-81 | only the `stringify` field changes the build config, in place, in the order the assignments run |
| Parser.ToggleSetsVisibility | src/backend/base/langflow/components/processing/parser.py:74-81 | `template` is shown and required iff the value is false, `clean_data` takes the value, nothing else changes, and toggling again is idempotent |
| Parser.CleanArgs | src/backend/base/langflow/components/processing/parser.py:83-104 | only a DataFrame, a Data, or a dict with "data" passes `_clean_args` |
| Parser.CleanArgsDispatch | src/backend/base/langflow/components/processing/parser.py:83-104 | a list of Data (the empty list included) raises, DataFrame and Data pass through, a dict with "data" goes to `DataFrame.from_dict` or `Data(**d)`, anything else is unsupported |
| Parser.ValidateInput | src/backend/base/langflow/components/processing/parser.py:127-134 | `_validate_input` accepts exactly Data, Message, DataFrame, str and list |
| Parser.JoinValuesOfStrings | src/backend/base/langflow/components/processing/parser.py:167 | joining str values is joining their texts |
| Parser.ConvertAllItems | src/backend/base/langflow/components/processing/parser.py:167 | the list comprehension succeeds iff every item converts, and then holds each converted item in order |
| Parser.ConvertToStringRules | src/backend/base/langflow/components/processing/parser.py:127-171 | None raises ValueError, other types TypeError, a str is unchanged, a Data without text raises, a list of str is joined by newlines |
| Parser.ConvertToStringTexts | src/backend/base/langflow/components/processing/parser.py:136-171 | a Data or Message gives its text iff that is a str and raises otherwise (an int, bool or generator text at `len`); a DataFrame gives its markdown or the conversion error |
| Parser.ConvertToStringList | src/backend/base/langflow/components/processing/parser.py:166-167 | a list converts iff every item converts, and to a str |
| Parser.JoinValuesOk | src/backend/base/langflow/components/processing/parser.py:167 | `"\n".join` succeeds iff every item is a str |
| Parser.FormatRowsEach | src/backend/base/langflow/components/processing/parser.py:115-118 | every row is formatted, in order, iff none raises |
| Parser.ParseFrameRows | src/backend/base/langflow/components/processing/parser.py:106-125 | without `stringify`, a DataFrame gives one formatted line per row joined by `sep` |
| Parser.StringifyStillCleans | src/backend/base/langflow/components/processing/parser.py:108-111 | `_clean_args` runs before `stringify` is read, so a str input raises even with `stringify` on |
| Parser.StringifyRefusesDict | src/backend/base/langflow/components/processing/parser.py:108-111 | a dict accepted by `_clean_args` is refused by `convert_to_string` with TypeError |
| Parser.ParseDataLine | src/backend/base/langflow/components/processing/parser.py:119-123 | without `stringify`, a Data or Message gives the one line the template makes of its text, whatever `sep` is, or the formatting error |
| Parser.ParserComponent.ParseCombinedText | src/backend/base/langflow/components/processing/parser.py:106-125 | returns the str text `ParseCombined` specifies, or its error; the status is set to the text on the template path and left alone otherwise |
| AstraCql.ProjectionArgs | src/backend/base/langflow/components/tools/astradb_cql.py:121-131 | the loop builds the projection of the comma-split input, as `Projection` specifies |
| AstraCql.ProjectionFields | src/backend/base/langflow/components/tools/astradb_cql.py:121-131 | a field is in the projection iff some element names it, with or without "!" |
| AstraCql.ProjectionLastWins | src/backend/base/langflow/components/tools/astradb_cql.py:125-129 | the last element naming a field decides it: false after "!", true otherwise |
| AstraCql.ProjectionOfEmpty | src/backend/base/langflow/components/tools/astradb_cql.py:122-129 | an empty input projects the empty field name to true |
| AstraCql.PartitionValues | src/backend/base/langflow/components/tools/astradb_cql.py:96 | lists the partition-key values in dict order, one per key |
| AstraCql.BuildKeyPath | src/backend/base/langflow/components/tools/astradb_cql.py:93-103 | the loop builds the key path `KeyPath` specifies, or raises its KeyError |
| AstraCql.KeyPathStopsAtError | src/backend/base/langflow/components/tools/astradb_cql.py:99-103 | once a clustering key raises, the whole path raises the same error |
| AstraCql.KeyPathStartsWithPartition | src/backend/base/langflow/components/tools/astradb_cql.py:96-103 | the path starts with every partition value and adds at most one value per clustering key |
| AstraCql.KeyPathDefined | src/backend/base/langflow/components/tools/astradb_cql.py:99-103 | the path can be built iff every clustering key is an argument or a static filter |
| AstraCql.KeyPathFromArgs | src/backend/base/langflow/components/tools/astradb_cql.py:96-103 | with every clustering key given, the path is the partition values then the argument values |
| AstraCql.Quote | src/backend/base/langflow/components/tools/astradb_cql.py:108 | quoting never shortens and leaves only safe characters and percent escapes |
| AstraCql.QuoteIdentity | src/backend/base/langflow/components/tools/astradb_cql.py:108 | quoting leaves a string unchanged iff all its characters are safe |
| AstraCql.NoSpaceLeft | src/backend/base/langflow/components/tools/astradb_cql.py:108 | `replace(' ', '')` leaves no space |
| AstraCql.FieldsParameterSafe | src/backend/base/langflow/components/tools/astradb_cql.py:107-108 | the fields parameter is absent iff the projection is "*", and otherwise holds only safe characters and escapes after "&fields=" |
| AstraCql.FieldsParameterVerbatim | src/backend/base/langflow/components/tools/astradb_cql.py:107-108 | a projection of safe characters is sent as written |
| AstraCql.Subscript | src/backend/base/langflow/components/tools/astradb_cql.py:117 | `res_data["data"]` succeeds iff the body is a dict with "data" |
| AstraCql.ReplyByStatus | src/backend/base/langflow/components/tools/astradb_cql.py:112-119 | status 400 or more returns the body text; otherwise a non-JSON body returns the status, and a dict body with "data" returns it |
| AstraCql.AstraRest | src/backend/base/langflow/components/tools/astradb_cql.py:90-119 | a missing clustering key raises before any request; otherwise the URL is base, key path, page size and fields, and the reply is `ReplyOf` the response |
| UrlComponent.EnsureUrl | src/backend/base/langflow/components/data/url.py:78-82 | the result has an http(s) scheme, ends with the input, and is at most "https://" longer |
| UrlComponent.EnsureUrlIdempotent | src/backend/base/langflow/components/data/url.py:78-82 | normalising twice is normalising once |
| UrlComponent.EnsureUrlKeeps | src/backend/base/langflow/components/data/url.py:80-81 | a URL is unchanged iff it has a scheme; otherwise it is "https://" followed by the whole URL |
| UrlComponent.EnsureUrlCaseSensitive | src/backend/base/langflow/components/data/url.py:80 | an upper-case "HTTP://" scheme is not recognised and gets "https://" in front |
| UrlComponent.Targets | src/backend/base/langflow/components/data/url.py:88-89 | no more URLs are loaded than listed |
| UrlComponent.TargetsNormalised | src/backend/base/langflow/components/data/url.py:88-89 | every loaded URL has a scheme and is the normalised form of a stripped, non-blank entry |
| UrlComponent.TargetsAppend | src/backend/base/langflow/components/data/url.py:88 | entries are loaded in list order |
| UrlComponent.TargetsEmpty | src/backend/base/langflow/components/data/url.py:88 | nothing is loaded iff every entry is blank |
| UrlComponent.Records | src/backend/base/langflow/components/data/url.py:105 | one record per document with its text and metadata, unless some metadata has a "text" key, which raises |
| UrlComponent.URLComponent.FetchContent | src/backend/base/langflow/components/data/url.py:84-111 | loads every target in order and returns `Fetched`; the status is set on success and unchanged on failure |
| UrlComponent.URLComponent.LoadAllStops | src/backend/base/langflow/components/data/url.py:92-103 | the first loader failure ends the loading with that error |
| UrlComponent.URLComponent.LoadAllEach | src/backend/base/langflow/components/data/url.py:92-103 | loading succeeds iff the loader accepts every target, and then yields all their documents |
| UrlComponent.URLComponent.FetchedOutcome | src/backend/base/langflow/components/data/url.py:84-111 | every failure carries the "Error loading documents: " prefix; success means every target loaded and the records could be built, one per document |
| Strings.StripSpec | src/backend/base/langflow/components/data/url.py:88 | `strip()` removes exactly a whitespace prefix and a whitespace suffix: the result is the middle of the string starting where `lstrip` stops, everything before and after it is whitespace, its ends are not whitespace, and it is empty iff the whole string is whitespace |
| Cli.NumberOfWorkers | src/backend/base/langflow/__main__.py:48-52 | None or -1 gives two workers per CPU plus one; any other value is kept |
| Cli.NumberOfWorkersSettles | src/backend/base/langflow/__main__.py:48-52 | the result is never -1, so asking again changes nothing |
| Cli.LetterFromVersion | src/backend/base/langflow/__main__.py:309-317 | a letter returned occurs in the version |
| Cli.LetterPrecedence | src/backend/base/langflow/__main__.py:309-317 | the letter is the first of "a", "b", "rc" the version contains; there is none iff it contains none of them |
| Cli.LetterIsSubstringTest | src/backend/base/langflow/__main__.py:311-312 | the test is by substring: "1.0.0b1+local" reads as an alpha |
| Cli.UpgradeFlagWords | src/backend/base/langflow/__main__.py:348-351 | the flags are "-U", plus "--pre" exactly for a pre-release |
| Cli.PipCommandWords | src/backend/base/langflow/__main__.py:346-351 | for package names without spaces, the command split at spaces is "pip", "install", the package names (one empty word if none), then the flags |
| Cli.StylizeWrapsEach | src/backend/base/langflow/__main__.py:354-358 | every occurrence of `to_style` is wrapped in Rich markup of the notice colour, and the rest is kept |
| Cli.StylizeAbsent | src/backend/base/langflow/__main__.py:358 | text without `to_style` is unchanged |
| Cli.StylizeWhole | src/backend/base/langflow/__main__.py:354-358 | styling the word alone gives its markup |
| Cli.GetFreePort | src/backend/base/langflow/__main__.py:295-306 | returns the least port from `port` upwards that is not in use; fails with the socket's range error iff the port is negative or every port up to 65535 is in use |
| Cli.Filtered | src/backend/base/langflow/__main__.py:476 | the filter keeps an operation iff it is listed and asked for, and adds none |
| Cli.FilteredDistinct | src/backend/base/langflow/__main__.py:476 | no operation is requested twice |
| Cli.AllOperationsComplete | src/backend/base/langflow/__main__.py:473 | the operations dict covers all five operations |
| Cli.RequestedExactly | src/backend/base/langflow/__main__.py:473-476 | `requested_ops` lists each operation asked for, once |
| Cli.SelectChoice | src/backend/base/langflow/__main__.py:479-488 | from such a list: test if empty, the one operation if single, exit code 1 if two are asked for |
| Cli.SelectExactlyOne | src/backend/base/langflow/__main__.py:473-488 | with no flag "test" runs, with one that one runs, with two or more the command exits with code 1 |
| Cli.BackupOnlyWhenOffered | src/backend/base/langflow/__main__.py:490-500 | a backup or an abort happens only after the offer (not forced, destructive, SQLite); declining both prompts aborts |
| Cli.NoOfferCases | src/backend/base/langflow/__main__.py:490-495 | `--force`, test, backup and non-SQLite databases never see the offer |

## Left out

**Runtime and I/O**
- Concurrency is not modelled: the asyncio tasks, the TTS thread, the websockets and their interleaving. Each pump is modelled as a run over the sequence of messages it receives.
- In `flow_audio_websocket`, the consumer runs after the receive loop rather than beside it.
- Logging, `print` and clocks are not modelled. The timing-only `last_speech_time` and `last_result_time` are also left out.
- `process_text_deltas`, the ElevenLabs client, `_blocking_tts` and `flow_as_tool_websocket`'s setup (the OpenAI connection, the key lookup, the session instructions) are not modelled. Only their queue, flag and modality effects are.

**Collaborators taken as parameters**
- These are parameters and are not modelled: base64 decoding (whether a str decodes; a non-str never does), resampling, `webrtcvad`, `build_flow`, `json.loads`, pandas, `str.format`, `jsonable_encoder`, `recursive_serialize_or_str`, `RecursiveUrlLoader`, BeautifulSoup, `requests` and the port probe.
- `cpu_count` is a parameter.

**Voice relay**
- VoiceRelay.RelaySession.constructor: the voice globals are read once, when the session connects. An `elevenlabs.config` that a concurrent session stores while this one runs is not seen, because each session is modelled with its own copy.
- TextChunker.TextChunkerWithTimeout: models a source whose reads survive the cancellation a timeout makes. Over an async generator such as `queue_generator`, the cancelled read finishes the generator; `GeneratorChunks` models that case.
- FlowAudio.ProcessEvents: `InputValueRequest` is not part of this model. Its refusal of a non-str ChatInput id is modelled; any other validation it does is not.
- VoiceRelay.RelaySession.OnVadAudio: `barge_in_enabled` is `False` (voice_mode.py:54), so `process_vad_audio` is never started. It is modelled because the audio is still queued for it.
- The model only covers text deltas that are JSON values. A `null` delta is queued as the `None` sentinel and ends the speech (`VoiceRelay.NullDeltaEndsSpeech`). Any other non-str delta would raise inside the TTS thread, which is not modelled.
- FlowAudio.Elements: iterating a non-empty dict of nodes is modelled as the first key raising on `.get`, without modelling key order.

**Parser**
- Parser.AsMessageText: a list, dict or DataFrame text passes `len` and is refused by `Message(text=...)`. The exact wording of pydantic's validation error is not modelled.
- Parser.CleanArgs: `DataFrame.from_dict` and `Data(**d)` raise any message the parameter gives. Exception types other than TypeError, ValueError and KeyError, which Python would not wrap, are not told apart.
- `self.log` itself is not modelled. The `len(result)` computed for its message is modelled, because it raises for a non-str result.

**Astra DB CQL tool**
- `run_model` and `as_dataframe` are not modelled. `as_dataframe` calls `astra_rest` twice, and its first result is discarded.
- AstraCql.AstraRest: partition-key, argument and filter values are str only. A non-str value would make `'/'.join` raise, and this is not modelled.
- The request headers and token are not modelled because they do not affect the URL or the reply.

**URL component and command line**
- `fetch_content_text` and `as_dataframe` of the URL component are not modelled.
- After the selection and the backup offer, the migration actions are not modelled: `_handle_backup`, `_migration`, the fix confirmation and the revision change.
- Setting `operations["test"] = True` has no observable effect and is not modelled.
- Cli.GetFreePort: `is_port_in_use` is a parameter. A port outside 0..65535 is modelled as the error `socket.connect_ex` raises, so a search past 65535 fails with that error.
- Typer prompts are modelled as the two answers they return.

## Findings

| source | as written | input that shows it | evidently intended | confidence | as-written member | corrected member |
|---|---|---|---|---|---|---|
| src/backend/base/langflow/api/v1/voice_mode.py:57-59 | `safe_build_flow` passes the coroutine function `build_flow` (awaited directly at line 140) to `asyncio.to_thread`, which only creates the coroutine; `process_events` then reads `response.body_iterator` off it (line 633) and raises AttributeError | any queued event of a flow whose ChatInput id is a str, e.g. `{"type": "conversation.item.create"}` before `end_stream` | the flow's event stream, as `await build_flow(...)` gives it, so that clean events are processed silently | not executed; `build_flow` is not part of this model, its being a coroutine function is read off line 140 | FlowAudio.AsWrittenEveryEventFails | FlowAudio.ProcessedEventSilent |

The rest of the model takes the flow run as intended: `FlowAudio.ProcessEvents` is given the awaited `build_flow` as its `runFlow` parameter.
