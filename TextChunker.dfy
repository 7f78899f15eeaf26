/**
  The incremental text chunker of the voice relay: `sync_text_chunker`, which
  feeds the text-to-speech thread, and its asynchronous twin
  `text_chunker_with_timeout`. Both read text deltas from a queue and cut
  them into phrase-bounded chunks, each followed by one space.

  The timed queue is replaced by an explicit sequence of what each read
  returned: a text fragment, a timeout (nothing arrived within the flush
  window) or the `None` end-of-text sentinel.
 */
module TextChunker {
  import opened Strings

  /** The fourteen phrase boundary characters. */
  const Splitters: seq<char> := ['.', ',', '?', '!', ';', ':', '\U{2014}', '-', '(', ')', '[', ']', '}', ' ']

  predicate IsSplitter(c: char) {
    c in Splitters
  }

  /** What one read of the text queue produced. */
  datatype QueueItem =
    | Fragment(text: string)
    | Timeout
    | EndOfText

  /** The chunks one read emits, the buffer after it, and whether the loop stops. */
  datatype Step = Step(emitted: seq<string>, buffer: string, stop: bool)

  /** The buffer as a chunk, when it holds anything. */
  function Flush(buffer: string): seq<string> {
    if buffer != "" then [buffer + " "] else []
  }

  /** One turn of the chunker's loop. */
  function Advance(buffer: string, item: QueueItem): Step {
    match item
    case Timeout => Step(Flush(buffer), "", false)
    case EndOfText => Step(Flush(buffer), buffer, true)
    case Fragment(text) =>
      if buffer != "" && IsSplitter(buffer[|buffer| - 1]) then
        Step([buffer + " "], text, false)
      else if text != "" && IsSplitter(text[0]) then
        Step([buffer + [text[0]] + " "], text[1..], false)
      else
        Step([], buffer + text, false)
  }

  /** The chunks emitted so far, the current buffer, and whether the sentinel was read. */
  datatype Run = Run(chunks: seq<string>, buffer: string, stopped: bool)

  /** The loop run from `buffer` over `items`, up to and including the first sentinel. */
  function Feed(buffer: string, items: seq<QueueItem>): Run
    decreases |items|
  {
    if items == [] then Run([], buffer, false)
    else
      var step := Advance(buffer, items[0]);
      if step.stop then Run(step.emitted, step.buffer, true)
      else
        var rest := Feed(step.buffer, items[1..]);
        Run(step.emitted + rest.chunks, rest.buffer, rest.stopped)
  }

  /**
    The chunks the synchronous chunker has yielded once it has read `items`.
    Only the sentinel ends its loop, and after the loop it yields the buffer
    once more, since the sentinel branch does not clear it.
   */
  function SyncChunks(items: seq<QueueItem>): seq<string> {
    var run := Feed("", items);
    if run.stopped then run.chunks + Flush(run.buffer) else run.chunks
  }

  /**
    The chunks of the asynchronous chunker over a source that yields `items`
    and then ends: the end of the source also leaves the loop, and the
    buffer is then yielded after the loop.
   */
  function AsyncChunks(items: seq<QueueItem>): seq<string> {
    var run := Feed("", items);
    run.chunks + Flush(run.buffer)
  }

  /** The reading loop shared by both chunkers, with the buffer reassigned in place. */
  method ChunkLoop(items: seq<QueueItem>) returns (chunks: seq<string>, buffer: string, stopped: bool)
    ensures Feed("", items) == Run(chunks, buffer, stopped)
  {
    chunks, buffer, stopped := [], "", false;
    var i := 0;
    while i < |items| && !stopped
      invariant 0 <= i <= |items|
      invariant !stopped ==>
        var rest := Feed(buffer, items[i..]);
        Feed("", items) == Run(chunks + rest.chunks, rest.buffer, rest.stopped)
      invariant stopped ==> Feed("", items) == Run(chunks, buffer, true)
    {
      FeedUnfold(buffer, items[i..]);
      assert items[i..][1..] == items[i + 1..];
      var emitted;
      emitted, buffer, stopped := ReadOnce(buffer, items[i]);
      chunks := chunks + emitted;
      i := i + 1;
    }
    if !stopped {
      assert items[i..] == [];
    }
  }

  /** One turn of the loop: what the read yields, and the buffer it leaves. */
  method ReadOnce(buffer: string, item: QueueItem) returns (emitted: seq<string>, next: string, stop: bool)
    ensures Step(emitted, next, stop) == Advance(buffer, item)
  {
    emitted, next, stop := [], buffer, false;
    match item {
      case Timeout =>
        if buffer != "" {
          emitted := [buffer + " "];
          next := "";
        }
      case EndOfText =>
        if buffer != "" {
          emitted := [buffer + " "];
        }
        stop := true;
      case Fragment(text) =>
        if buffer != "" && IsSplitter(buffer[|buffer| - 1]) {
          emitted := [buffer + " "];
          next := text;
        } else if text != "" && IsSplitter(text[0]) {
          emitted := [buffer + [text[0]] + " "];
          next := text[1..];
        } else {
          next := buffer + text;
        }
    }
  }

  /** One read, then the rest of the loop (unless that read was the sentinel). */
  lemma FeedUnfold(buffer: string, items: seq<QueueItem>)
    requires items != []
    ensures var step := Advance(buffer, items[0]); var rest := Feed(step.buffer, items[1..]);
      Feed(buffer, items) ==
        if step.stop then Run(step.emitted, step.buffer, true)
        else Run(step.emitted + rest.chunks, rest.buffer, rest.stopped)
  {
  }

  /** `sync_text_chunker`: `finished` tells whether the generator has returned. */
  method SyncTextChunker(items: seq<QueueItem>) returns (chunks: seq<string>, finished: bool)
    ensures finished == Feed("", items).stopped
    ensures chunks == SyncChunks(items)
  {
    var buffer;
    chunks, buffer, finished := ChunkLoop(items);
    if finished && buffer != "" {
      chunks := chunks + [buffer + " "];
    }
  }

  /** `text_chunker_with_timeout` over a source that yields `items` and then ends. */
  method TextChunkerWithTimeout(items: seq<QueueItem>) returns (chunks: seq<string>)
    ensures chunks == AsyncChunks(items)
  {
    var buffer, stopped;
    chunks, buffer, stopped := ChunkLoop(items);
    if buffer != "" {
      chunks := chunks + [buffer + " "];
    }
  }

  /**
    What an async generator such as `queue_generator` lets the chunker read.
    A timeout cancels the pending `__anext__`, which finishes the generator:
    the next read ends the loop, so the first timeout is the last item read.
   */
  function UntilTimeout(items: seq<QueueItem>): seq<QueueItem>
    decreases |items|
  {
    if items == [] then []
    else if items[0].Timeout? then [Timeout]
    else [items[0]] + UntilTimeout(items[1..])
  }

  /** The chunks of `text_chunker_with_timeout` over an async generator that would yield `items`. */
  function GeneratorChunks(items: seq<QueueItem>): seq<string> {
    AsyncChunks(UntilTimeout(items))
  }

  // ---------------------------------------------------------------------
  // Properties of the chunker

  /** Every chunk is some text followed by the appended space. */
  predicate SpaceTerminated(chunks: seq<string>) {
    forall i :: 0 <= i < |chunks| ==> |chunks[i]| >= 2 && chunks[i][|chunks[i]| - 1] == ' '
  }

  lemma {:induction false} FeedChunksSpaceTerminated(buffer: string, items: seq<QueueItem>)
    ensures SpaceTerminated(Feed(buffer, items).chunks)
    decreases |items|
  {
    if items != [] {
      var step := Advance(buffer, items[0]);
      if !step.stop {
        FeedChunksSpaceTerminated(step.buffer, items[1..]);
        var rest := Feed(step.buffer, items[1..]);
        assert SpaceTerminated(step.emitted);
        assert Feed(buffer, items).chunks == step.emitted + rest.chunks;
      }
    }
  }

  /** Both chunkers only ever yield non-empty text followed by a space. */
  lemma ChunkersSpaceTerminated(items: seq<QueueItem>)
    ensures SpaceTerminated(SyncChunks(items))
    ensures SpaceTerminated(AsyncChunks(items))
  {
    FeedChunksSpaceTerminated("", items);
  }

  /** A chunk without its appended space. */
  function Unspaced(chunk: string): string {
    if chunk == "" then "" else chunk[..|chunk| - 1]
  }

  /** The text carried by a sequence of chunks. */
  function Spoken(chunks: seq<string>): string {
    if chunks == [] then "" else Unspaced(chunks[0]) + Spoken(chunks[1..])
  }

  lemma {:induction false} SpokenAppend(a: seq<string>, b: seq<string>)
    ensures Spoken(a + b) == Spoken(a) + Spoken(b)
  {
    if a == [] {
      assert a + b == b;
    } else {
      assert (a + b)[1..] == a[1..] + b;
      SpokenAppend(a[1..], b);
    }
  }

  /** The fragments read before the first sentinel, concatenated. */
  function TextBeforeEnd(items: seq<QueueItem>): string {
    if items == [] then ""
    else match items[0]
      case Fragment(text) => text + TextBeforeEnd(items[1..])
      case Timeout => TextBeforeEnd(items[1..])
      case EndOfText => ""
  }

  /** The text a single read contributes. */
  function ItemText(item: QueueItem): string {
    if item.Fragment? then item.text else ""
  }

  /** One read moves text between the buffer and the chunks without losing or adding any. */
  lemma AdvanceConservesText(buffer: string, item: QueueItem)
    ensures var step := Advance(buffer, item);
      Spoken(step.emitted) + (if step.stop then "" else step.buffer) == buffer + ItemText(item)
  {
    assert Unspaced(buffer + " ") == buffer;
    assert Spoken([buffer + " "]) == buffer;
    match item {
      case Fragment(text) =>
        if !(buffer != "" && IsSplitter(buffer[|buffer| - 1])) && text != "" && IsSplitter(text[0]) {
          assert Unspaced(buffer + [text[0]] + " ") == buffer + [text[0]];
          assert Spoken([buffer + [text[0]] + " "]) == buffer + [text[0]];
          assert text == [text[0]] + text[1..];
        }
      case Timeout =>
      case EndOfText =>
    }
  }

  /** The text a run holds: what its chunks carry, then the buffer unless the sentinel ended it. */
  function Carried(run: Run): string {
    Spoken(run.chunks) + (if run.stopped then "" else run.buffer)
  }

  /**
    Conservation of text: what the yielded chunks carry, followed by the
    buffer, is the starting buffer followed by every fragment read. Once the
    sentinel has been read, the chunks alone carry it all.
   */
  lemma {:induction false} FeedConservesText(buffer: string, items: seq<QueueItem>)
    ensures Carried(Feed(buffer, items)) == buffer + TextBeforeEnd(items)
    decreases |items|
  {
    if items != [] {
      var step := Advance(buffer, items[0]);
      FeedUnfold(buffer, items);
      AdvanceConservesText(buffer, items[0]);
      if !step.stop {
        FeedConservesText(step.buffer, items[1..]);
        var rest := Feed(step.buffer, items[1..]);
        SpokenAppend(step.emitted, rest.chunks);
        ConservesAcrossStep(buffer, step, rest, ItemText(items[0]), TextBeforeEnd(items[1..]));
      }
    }
  }

  lemma ConservesAcrossStep(buffer: string, step: Step, rest: Run, x: string, t: string)
    requires !step.stop
    requires Spoken(step.emitted) + step.buffer == buffer + x
    requires Carried(rest) == step.buffer + t
    requires Spoken(step.emitted + rest.chunks) == Spoken(step.emitted) + Spoken(rest.chunks)
    ensures Carried(Run(step.emitted + rest.chunks, rest.buffer, rest.stopped)) == buffer + (x + t)
  {
    var e, r := Spoken(step.emitted), Spoken(rest.chunks);
    var tail := if rest.stopped then "" else rest.buffer;
    assert Carried(rest) == r + tail;
    assert Carried(Run(step.emitted + rest.chunks, rest.buffer, rest.stopped)) == (e + r) + tail;
    Regroup(e, r, tail, step.buffer, t, buffer, x);
  }

  /** Re-associating the pieces of a conserved text. */
  lemma Regroup(e: string, r: string, tail: string, b: string, t: string, buffer: string, x: string)
    requires r + tail == b + t
    requires e + b == buffer + x
    ensures (e + r) + tail == buffer + (x + t)
  {
    calc {
      (e + r) + tail;
      e + (r + tail);
      e + (b + t);
      (e + b) + t;
      (buffer + x) + t;
      buffer + (x + t);
    }
  }

  /**
    The end-of-stream duplicate: once the sentinel is read with a non-empty
    buffer, the synchronous chunker's last two chunks are the same buffer
    plus a space, and the chunks before that last one carry exactly the text
    that was read. With an empty buffer nothing is yielded twice.
   */
  lemma SyncChunksAtEnd(items: seq<QueueItem>)
    requires Feed("", items).stopped
    ensures var run := Feed("", items); var out := SyncChunks(items);
      && Spoken(run.chunks) == TextBeforeEnd(items)
      && (run.buffer == "" ==> out == run.chunks)
      && (run.buffer != "" ==>
            |out| >= 2 && out[|out| - 1] == out[|out| - 2] == run.buffer + " " && out[..|out| - 1] == run.chunks)
  {
    FeedConservesText("", items);
    FeedEndsWithFlush("", items);
    var run := Feed("", items);
    assert Carried(run) == Spoken(run.chunks) + "" == Spoken(run.chunks);
    assert "" + TextBeforeEnd(items) == TextBeforeEnd(items);
  }

  lemma {:induction false} FeedEndsWithFlush(buffer: string, items: seq<QueueItem>)
    requires Feed(buffer, items).stopped
    ensures var run := Feed(buffer, items);
      run.buffer != "" ==> |run.chunks| >= 1 && run.chunks[|run.chunks| - 1] == run.buffer + " "
    decreases |items|
  {
    var step := Advance(buffer, items[0]);
    if !step.stop {
      FeedEndsWithFlush(step.buffer, items[1..]);
    }
  }

  /** A read that times out leaves the buffer empty: latency is bounded by the flush window. */
  lemma {:induction false} TimeoutEmptiesBuffer(buffer: string, items: seq<QueueItem>)
    requires items != [] && items[|items| - 1] == Timeout
    requires !Feed(buffer, items).stopped
    ensures Feed(buffer, items).buffer == ""
    decreases |items|
  {
    var step := Advance(buffer, items[0]);
    if |items| > 1 {
      assert items[1..][|items| - 2] == Timeout;
      TimeoutEmptiesBuffer(step.buffer, items[1..]);
    }
  }

  predicate OnlyFragments(items: seq<QueueItem>) {
    forall i :: 0 <= i < |items| ==> items[i].Fragment?
  }

  /** Every chunk ends, before its space, in a phrase boundary character. */
  predicate PhraseBounded(chunks: seq<string>) {
    forall i :: 0 <= i < |chunks| ==> |chunks[i]| >= 2 && IsSplitter(chunks[i][|chunks[i]| - 2])
  }

  /**
    Without timeouts and before the sentinel, the chunker only cuts at
    phrase boundaries: every yielded chunk ends in one of the fourteen
    splitters.
   */
  lemma {:induction false} FragmentsCutAtBoundaries(buffer: string, items: seq<QueueItem>)
    requires OnlyFragments(items)
    ensures PhraseBounded(Feed(buffer, items).chunks)
    decreases |items|
  {
    if items != [] {
      var step := Advance(buffer, items[0]);
      assert OnlyFragments(items[1..]);
      FragmentsCutAtBoundaries(step.buffer, items[1..]);
      var rest := Feed(step.buffer, items[1..]);
      assert PhraseBounded(step.emitted);
      assert Feed(buffer, items).chunks == step.emitted + rest.chunks;
    }
  }

  /** An empty fragment changes nothing unless the buffer ends in a splitter, which it then flushes. */
  lemma EmptyFragment(buffer: string)
    ensures Advance(buffer, Fragment("")) ==
      if buffer != "" && IsSplitter(buffer[|buffer| - 1]) then Step([buffer + " "], "", false)
      else Step([], buffer, false)
  {
  }

  /**
    On an empty buffer, a fragment that starts with a splitter is cut after
    that one character: " world" yields a chunk that is two spaces, and the
    buffer keeps "world".
   */
  lemma SplitterLedFragmentOnEmptyBuffer(text: string)
    requires text != "" && IsSplitter(text[0])
    ensures Advance("", Fragment(text)) == Step([[text[0], ' ']], text[1..], false)
  {
    assert "" + [text[0]] + " " == [text[0], ' '];
  }

  /** A fragment without a boundary is flushed by the timeout that follows it. */
  lemma PartialFlushedByTimeout()
    ensures SyncChunks([Fragment("partial"), Timeout]) == ["partial "]
  {
    var items := [Fragment("partial"), Timeout];
    assert !IsSplitter('p') && !IsSplitter('l');
    assert Advance("", items[0]) == Step([], "partial", false);
    assert "partial" + " " == "partial ";
    assert Advance("partial", items[1]) == Step(["partial "], "", false);
    FeedUnfold("", items);
    FeedUnfold("partial", items[1..]);
    assert items[1..][1..] == [];
    assert Feed("", items) == Run(["partial "], "", false);
  }

  /**
    Over an async generator, "more" arriving after the pause is never read:
    only "partial " is yielded, where a source whose reads survive the
    timeout would also give "more ".
   */
  lemma PartialThenMoreDropped()
    ensures GeneratorChunks([Fragment("partial"), Timeout, Fragment("more")]) == ["partial "]
    ensures AsyncChunks([Fragment("partial"), Timeout, Fragment("more")]) == ["partial ", "more "]
  {
    var items := [Fragment("partial"), Timeout, Fragment("more")];
    assert items[1..] == [Timeout, Fragment("more")];
    assert UntilTimeout(items[1..]) == [Timeout];
    assert UntilTimeout(items) == [Fragment("partial"), Timeout];
    PartialFlushedByTimeout();
    assert AsyncChunks([Fragment("partial"), Timeout]) == ["partial "] + [];
    assert !IsSplitter('p') && !IsSplitter('l') && !IsSplitter('m');
    assert Advance("", items[0]) == Step([], "partial", false);
    assert Advance("partial", items[1]) == Step(["partial "], "", false);
    assert Advance("", items[2]) == Step([], "more", false);
    FeedUnfold("", items);
    FeedUnfold("partial", items[1..]);
    FeedUnfold("", items[1..][1..]);
    assert items[1..][1..] == [Fragment("more")];
    assert items[1..][1..][1..] == [];
    assert Feed("", items) == Run(["partial "], "more", false);
    assert "more" + " " == "more ";
    assert Flush("more") == ["more "];
  }

  /** Up to the first timeout, the generator's reads are the items themselves. */
  lemma {:induction false} UntilTimeoutCuts(before: seq<QueueItem>, after: seq<QueueItem>)
    requires forall i :: 0 <= i < |before| ==> !before[i].Timeout?
    ensures UntilTimeout(before + [Timeout] + after) == before + [Timeout]
    decreases |before|
  {
    if before == [] {
      assert before + [Timeout] + after == [Timeout] + after;
    } else {
      assert (before + [Timeout] + after)[1..] == before[1..] + [Timeout] + after;
      UntilTimeoutCuts(before[1..], after);
      assert [before[0]] + (before[1..] + [Timeout]) == before + [Timeout];
    }
  }

  /**
    Over an async generator, nothing after the first timeout is chunked; the
    timeout's flush is the last chunk, unless the sentinel came first.
   */
  lemma GeneratorEndsAtTimeout(before: seq<QueueItem>, after: seq<QueueItem>)
    requires forall i :: 0 <= i < |before| ==> !before[i].Timeout?
    ensures GeneratorChunks(before + [Timeout] + after) == AsyncChunks(before + [Timeout])
    ensures !Feed("", before + [Timeout]).stopped ==>
              GeneratorChunks(before + [Timeout] + after) == Feed("", before + [Timeout]).chunks
  {
    UntilTimeoutCuts(before, after);
    var run := Feed("", before + [Timeout]);
    if !run.stopped {
      TimeoutEmptiesBuffer("", before + [Timeout]);
      assert run.chunks + Flush(run.buffer) == run.chunks;
    }
  }

  /**
    Read by read, "Hello", ",", " world", "." yields three chunks, not two:
    " world" arrives on the buffer the comma just emptied, and its leading
    space is cut off as a chunk of two spaces.
   */
  lemma HelloWorldSteps()
    ensures Advance("", Fragment("Hello")) == Step([], "Hello", false)
    ensures Advance("Hello", Fragment(",")) == Step(["Hello, "], "", false)
    ensures Advance("", Fragment(" world")) == Step(["  "], "world", false)
    ensures Advance("world", Fragment(".")) == Step(["world. "], "", false)
  {
    StepHello();
    StepComma();
    StepWorld();
    StepStop();
  }

  lemma StepHello()
    ensures Advance("", Fragment("Hello")) == Step([], "Hello", false)
  {
    assert !IsSplitter('H');
    assert "" + "Hello" == "Hello";
  }

  /** A lone splitter after a word that does not end in one closes the word's chunk and empties the buffer. */
  lemma SplitterAfterWord(word: string, c: char)
    requires word != "" && !IsSplitter(word[|word| - 1]) && IsSplitter(c)
    ensures Advance(word, Fragment([c])) == Step([word + [c] + " "], "", false)
  {
    assert [c][1..] == "";
  }

  lemma StepComma()
    ensures Advance("Hello", Fragment(",")) == Step(["Hello, "], "", false)
  {
    assert !IsSplitter("Hello"[4]) by { assert "Hello"[4] == 'o'; }
    SplitterAfterWord("Hello", ',');
    assert "Hello" + [','] + " " == "Hello, ";
  }

  lemma StepWorld()
    ensures Advance("", Fragment(" world")) == Step(["  "], "world", false)
  {
    assert "" + [' '] + " " == "  ";
    assert " world"[1..] == "world";
  }

  lemma StepStop()
    ensures Advance("world", Fragment(".")) == Step(["world. "], "", false)
  {
    assert !IsSplitter("world"[4]) by { assert "world"[4] == 'd'; }
    SplitterAfterWord("world", '.');
    assert "world" + ['.'] + " " == "world. ";
  }
}
