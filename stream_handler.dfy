/**
 * `StreamHandler.stream_response` in utils/streaming.py: the loop that reads
 * the agent's response events, buffers text fragments, flushes them through
 * the flush policy and the formatters, and interleaves tool markers.
 *
 * The event source is a finite list of events, each stamped with the event
 * loop's clock in integer milliseconds; whether the source exists at all and
 * whether it raises after its last event are parameters.
 */
module StreamHandler {
  import opened Wrappers
  import opened PyStrings
  import opened PyValue
  import opened StreamFormat

  /** One chunk from the response iterator, with the time it was read. */
  datatype Event = Event(time: int, chunk: Value)

  /**
   * The response iterator: none at all (a falsy result), or a list of events
   * after which the iteration ends normally or raises.
   */
  datatype Source = NoIterator | Iterator(events: seq<Event>, raises: bool)

  const NoResponseChunk: string :=
    "I apologize, but I'm having trouble generating a response. Please try again."

  const ErrorChunk: string :=
    "\n\n\U{274C} I apologize, but I encountered an error while processing your request. Please try again.\n\n"

  function ToolMarker(name: string): string {
    "\n\n\U{1F527} **Using " + name + "...**\n\n"
  }

  function ResultsChunk(formatted: string): string {
    "\n\n\U{1F4CA} **Results:**\n\n" + formatted + "\n\n"
  }

  /**
   * The loop's state: the local variables `buffer` and `last_chunk_time`, the
   * chunks yielded so far, and the raw text handed to the formatter so far.
   */
  datatype Assembly = Assembly(buffer: string, lastChunkTime: int, chunks: seq<string>, flushed: string)

  function Start(time: int): Assembly {
    Assembly("", time, [], "")
  }

  predicate IsToolCall(v: Value) {
    v.VDict? && DictHas(v.entries, "tool_call")
  }

  predicate IsToolResult(v: Value) {
    v.VDict? && !DictHas(v.entries, "tool_call") && DictHas(v.entries, "tool_result")
  }

  /** A string chunk that the loop appends to the buffer. */
  predicate IsText(v: Value) {
    v.VStr? && !IsBlank(v.s)
  }

  /** Events the loop skips: falsy chunks, blank strings, dicts with neither key, other types. */
  predicate Ignored(v: Value) {
    !Truthy(v) || !(IsToolCall(v) || IsToolResult(v) || IsText(v))
  }

  /** The pending buffer, if non-blank, yielded as one formatted chunk and cleared. */
  function FlushPending(a: Assembly): Assembly {
    if !IsBlank(a.buffer) then
      a.(buffer := "", chunks := a.chunks + [FormatAndFlushBuffer(a.buffer)], flushed := a.flushed + a.buffer)
    else a
  }

  /** The flush policy fires on a text event. */
  predicate PolicyFlushes(a: Assembly, e: Event) {
    Truthy(e.chunk) && IsText(e.chunk)
    && ShouldFlushBuffer(a.buffer + e.chunk.s, e.time - a.lastChunkTime)
  }

  /** One turn of the `async for` loop. */
  function Step(a: Assembly, e: Event): Assembly {
    if !Truthy(e.chunk) then a
    else
      match e.chunk
      case VDict(es) =>
        if DictHas(es, "tool_call") then
          var p := FlushPending(a);
          p.(chunks := p.chunks + [ToolMarker(Str(DictGet(es, "tool_call").value))])
        else if DictHas(es, "tool_result") then
          var p := FlushPending(a);
          p.(chunks := p.chunks + [ResultsChunk(FormatToolResult(DictGet(es, "tool_result").value))])
        else a
      case VStr(s) =>
        if IsBlank(s) then a
        else
          var b := a.buffer + s;
          if ShouldFlushBuffer(b, e.time - a.lastChunkTime) then
            var f := FormatAndFlushBuffer(b);
            Assembly("", e.time, a.chunks + (if f != "" then [f] else []), a.flushed + b)
          else a.(buffer := b)
      case _ => a
  }

  /** The state after the loop has read `events`, starting at time `start`. */
  function Run(start: int, events: seq<Event>): Assembly {
    if |events| == 0 then Start(start)
    else Step(Run(start, events[..|events| - 1]), events[|events| - 1])
  }

  /** The final flush after the loop. */
  function FinalFlush(buffer: string): seq<string> {
    if IsBlank(buffer) then []
    else
      var f := FormatAndFlushBuffer(buffer);
      if f != "" then [f] else []
  }

  /** Every chunk `stream_response` yields, in order. */
  function Output(source: Source, start: int): seq<string> {
    match source
    case NoIterator => [NoResponseChunk]
    case Iterator(events, raises) =>
      var a := Run(start, events);
      if raises then a.chunks + [ErrorChunk] else a.chunks + FinalFlush(a.buffer)
  }

  /** Yields the pending buffer, if non-blank, and clears it. */
  method FlushBuffer(buffer: string, out: seq<string>, ghost flushed: string)
    returns (buffer': string, out': seq<string>, ghost flushed': string)
    ensures forall t :: Assembly(buffer', t, out', flushed') == FlushPending(Assembly(buffer, t, out, flushed))
  {
    buffer', out', flushed' := buffer, out, flushed;
    if !IsBlank(buffer) {
      out' := out + [FormatAndFlushBuffer(buffer)];
      flushed' := flushed + buffer;
      buffer' := "";
    }
  }

  /** Appends a text fragment and applies the flush policy to the new buffer. */
  method HandleText(buffer: string, lastChunkTime: int, out: seq<string>, ghost flushed: string, s: string, now: int)
    returns (buffer': string, lastChunkTime': int, out': seq<string>, ghost flushed': string)
    requires !IsBlank(s)
    ensures Assembly(buffer', lastChunkTime', out', flushed') == Step(Assembly(buffer, lastChunkTime, out, flushed), Event(now, VStr(s)))
  {
    ghost var a := Assembly(buffer, lastChunkTime, out, flushed);
    ghost var e := Event(now, VStr(s));
    TextStep(a, e);
    buffer', lastChunkTime', out', flushed' := buffer + s, lastChunkTime, out, flushed;
    if ShouldFlushBuffer(buffer', now - lastChunkTime) {
      assert PolicyFlushes(a, e);
      var formatted := FormatAndFlushBuffer(buffer');
      if formatted != "" {
        out' := out' + [formatted];
      }
      flushed' := flushed' + buffer';
      buffer' := "";
      lastChunkTime' := now;
    } else {
      assert !PolicyFlushes(a, e);
    }
  }

  /**
   * The body of the `async for` loop: updates `buffer` and `last_chunk_time`
   * and appends what it yields to `out`.
   */
  method HandleEvent(buffer: string, lastChunkTime: int, out: seq<string>, ghost flushed: string, e: Event)
    returns (buffer': string, lastChunkTime': int, out': seq<string>, ghost flushed': string)
    ensures Assembly(buffer', lastChunkTime', out', flushed') == Step(Assembly(buffer, lastChunkTime, out, flushed), e)
  {
    buffer', lastChunkTime', out', flushed' := buffer, lastChunkTime, out, flushed;
    if !Truthy(e.chunk) {
      return;
    }
    if e.chunk.VDict? && (DictHas(e.chunk.entries, "tool_call") || DictHas(e.chunk.entries, "tool_result")) {
      var es := e.chunk.entries;
      buffer', out', flushed' := FlushBuffer(buffer, out, flushed);
      if DictHas(es, "tool_call") {
        out' := out' + [ToolMarker(Str(DictGet(es, "tool_call").value))];
      } else {
        out' := out' + [ResultsChunk(FormatToolResult(DictGet(es, "tool_result").value))];
      }
    } else if e.chunk.VStr? && !IsBlank(e.chunk.s) {
      assert e == Event(e.time, VStr(e.chunk.s));
      buffer', lastChunkTime', out', flushed' := HandleText(buffer, lastChunkTime, out, flushed, e.chunk.s, e.time);
    } else {
      IgnoredStep(Assembly(buffer, lastChunkTime, out, flushed), e);
    }
  }

  /** `stream_response`, with its `buffer` and `last_chunk_time` updated in place. */
  method StreamResponse(source: Source, startTime: int) returns (out: seq<string>)
    ensures out == Output(source, startTime)
  {
    if source.NoIterator? {
      return [NoResponseChunk];
    }
    var events := source.events;
    var buffer := "";
    var lastChunkTime := startTime;
    ghost var flushed := "";
    out := [];
    var i := 0;
    while i < |events|
      invariant 0 <= i <= |events|
      invariant Run(startTime, events[..i]) == Assembly(buffer, lastChunkTime, out, flushed)
    {
      assert events[..i + 1][..i] == events[..i];
      buffer, lastChunkTime, out, flushed := HandleEvent(buffer, lastChunkTime, out, flushed, events[i]);
      i := i + 1;
    }
    assert events[..|events|] == events;
    if source.raises {
      out := out + [ErrorChunk];
    } else if !IsBlank(buffer) {
      var finalChunk := FormatAndFlushBuffer(buffer);
      if finalChunk != "" {
        out := out + [finalChunk];
      }
    }
  }

  // ---------------------------------------------------------------- properties of one step

  /** Skipped events change nothing: not the buffer, not the timer, not the output. */
  lemma IgnoredStep(a: Assembly, e: Event)
    requires Ignored(e.chunk)
    ensures Step(a, e) == a
  {
  }

  /**
   * A tool call first yields the pending non-blank buffer as its own chunk and
   * clears it, and then yields the marker; a blank buffer is left where it is.
   * The timer is not touched.
   */
  lemma ToolCallStep(a: Assembly, e: Event)
    requires Truthy(e.chunk) && IsToolCall(e.chunk)
    ensures var marker := ToolMarker(Str(DictGet(e.chunk.entries, "tool_call").value));
      Step(a, e) ==
        if IsBlank(a.buffer) then a.(chunks := a.chunks + [marker])
        else Assembly("", a.lastChunkTime, a.chunks + [FormatAndFlushBuffer(a.buffer), marker], a.flushed + a.buffer)
  {
  }

  /** A tool result is handled like a tool call, with the formatted payload as its chunk. */
  lemma ToolResultStep(a: Assembly, e: Event)
    requires Truthy(e.chunk) && IsToolResult(e.chunk)
    ensures var results := ResultsChunk(FormatToolResult(DictGet(e.chunk.entries, "tool_result").value));
      Step(a, e) ==
        if IsBlank(a.buffer) then a.(chunks := a.chunks + [results])
        else Assembly("", a.lastChunkTime, a.chunks + [FormatAndFlushBuffer(a.buffer), results], a.flushed + a.buffer)
  {
  }

  /**
   * A text event appends to the buffer; when the policy fires on the new
   * buffer, the whole of it is formatted into one chunk, the buffer is cleared
   * and the timer restarts at the event's time.
   */
  lemma TextStep(a: Assembly, e: Event)
    requires Truthy(e.chunk) && IsText(e.chunk)
    ensures var b := a.buffer + e.chunk.s;
      if PolicyFlushes(a, e) then
        FormatAndFlushBuffer(b) != ""
        && Step(a, e) == Assembly("", e.time, a.chunks + [FormatAndFlushBuffer(b)], a.flushed + b)
      else Step(a, e) == a.(buffer := b)
  {
    var b := a.buffer + e.chunk.s;
    if PolicyFlushes(a, e) {
      FormatAndFlushNonBlank(b);
    }
  }

  /** The timer moves only when the flush policy fires, and then to the event's time. */
  lemma TimerStep(a: Assembly, e: Event)
    ensures Step(a, e).lastChunkTime == if PolicyFlushes(a, e) then e.time else a.lastChunkTime
  {
  }

  // ---------------------------------------------------------------- invariants of the loop

  /** The text fragments the loop accepts into the buffer, concatenated in order. */
  function AcceptedText(events: seq<Event>): string {
    if |events| == 0 then ""
    else
      var e := events[|events| - 1];
      AcceptedText(events[..|events| - 1]) + (if Truthy(e.chunk) && IsText(e.chunk) then e.chunk.s else "")
  }

  /**
   * No text is lost or duplicated across flushes: everything handed to the
   * formatter, followed by the pending buffer, is exactly the accepted text.
   */
  lemma {:induction false} Reconstruction(start: int, events: seq<Event>)
    ensures Run(start, events).flushed + Run(start, events).buffer == AcceptedText(events)
  {
    if |events| > 0 {
      var init := events[..|events| - 1];
      Reconstruction(start, init);
      ReconstructionStep(Run(start, init), events[|events| - 1]);
    }
  }

  /** One turn moves text from the event into the buffer, or from the buffer into what was flushed. */
  lemma ReconstructionStep(a: Assembly, e: Event)
    ensures Step(a, e).flushed + Step(a, e).buffer
      == a.flushed + a.buffer + (if Truthy(e.chunk) && IsText(e.chunk) then e.chunk.s else "")
  {
    assert a.flushed + a.buffer + "" == a.flushed + a.buffer;
    if Truthy(e.chunk) && IsText(e.chunk) {
      TextMovesText(a, e);
    } else if Truthy(e.chunk) && (IsToolCall(e.chunk) || IsToolResult(e.chunk)) {
      ToolMovesText(a, e);
    } else {
      IgnoredStep(a, e);
    }
  }

  lemma TextMovesText(a: Assembly, e: Event)
    requires Truthy(e.chunk) && IsText(e.chunk)
    ensures Step(a, e).flushed + Step(a, e).buffer == a.flushed + a.buffer + e.chunk.s
  {
    var b := a.buffer + e.chunk.s;
    TextStep(a, e);
    Assoc(a.flushed, a.buffer, e.chunk.s);
    var s := Step(a, e);
    if PolicyFlushes(a, e) {
      assert s.flushed == a.flushed + b && s.buffer == "";
      assert s.flushed + s.buffer == s.flushed;
    } else {
      assert s.flushed == a.flushed && s.buffer == b;
    }
  }

  lemma ToolMovesText(a: Assembly, e: Event)
    requires Truthy(e.chunk) && (IsToolCall(e.chunk) || IsToolResult(e.chunk))
    ensures Step(a, e).flushed + Step(a, e).buffer == a.flushed + a.buffer
  {
    var p := FlushPending(a);
    assert Step(a, e).flushed == p.flushed && Step(a, e).buffer == p.buffer;
    if !IsBlank(a.buffer) {
      assert p.flushed + p.buffer == a.flushed + a.buffer + "";
      assert a.flushed + a.buffer + "" == a.flushed + a.buffer;
    }
  }

  /**
   * Between events the buffer is empty, or it is non-blank and trips none of
   * the content rules: no punctuation mark, no leading bullet or header, no
   * blank line, and at most 200 characters.
   */
  predicate QuietBuffer(b: string) {
    b == "" || (!IsBlank(b) && !FlushesOnContent(b))
  }

  lemma {:induction false} BufferInvariant(start: int, events: seq<Event>)
    ensures QuietBuffer(Run(start, events).buffer)
    ensures |Run(start, events).buffer| <= MaxBufferLen
  {
    if |events| > 0 {
      var init := events[..|events| - 1];
      BufferInvariant(start, init);
      QuietStep(Run(start, init), events[|events| - 1]);
    }
  }

  /** One turn keeps the buffer quiet. */
  lemma QuietStep(a: Assembly, e: Event)
    requires QuietBuffer(a.buffer) && |a.buffer| <= MaxBufferLen
    ensures QuietBuffer(Step(a, e).buffer) && |Step(a, e).buffer| <= MaxBufferLen
  {
    if Truthy(e.chunk) && IsText(e.chunk) {
      TextStep(a, e);
      var b := a.buffer + e.chunk.s;
      if !PolicyFlushes(a, e) {
        ShouldFlushCharacterisation(b, e.time - a.lastChunkTime);
        TextKeepsNonBlank(a.buffer, e.chunk.s);
      }
    } else if Truthy(e.chunk) && (IsToolCall(e.chunk) || IsToolResult(e.chunk)) {
      assert Step(a, e).buffer == FlushPending(a).buffer;
    } else {
      IgnoredStep(a, e);
    }
  }

  lemma TextKeepsNonBlank(buffer: string, s: string)
    requires !IsBlank(s)
    ensures !IsBlank(buffer + s)
  {
    var k :| 0 <= k < |s| && !IsSpace(s[k]);
    assert (buffer + s)[|buffer| + k] == s[k];
  }

  /** Chunks are only ever appended: the output after a prefix of the events is a prefix of the output. */
  lemma {:induction false} ChunksGrow(start: int, events: seq<Event>, n: nat)
    requires n <= |events|
    ensures Run(start, events[..n]).chunks <= Run(start, events).chunks
    decreases |events| - n
  {
    if n < |events| {
      var init := events[..|events| - 1];
      assert init[..n] == events[..n];
      ChunksGrow(start, init, n);
      var a := Run(start, init);
      var e := events[|events| - 1];
      assert a.chunks <= Step(a, e).chunks;
    } else {
      assert events[..n] == events;
    }
  }

  /** Every chunk the loop yields is non-empty and ends with a blank line. */
  predicate WellSeparated(chunks: seq<string>) {
    forall k :: 0 <= k < |chunks| ==> |chunks[k]| > 0 && EndsWith(chunks[k], "\n\n")
  }

  lemma MarkerShapes(name: string, formatted: string)
    ensures EndsWith(ToolMarker(name), "\n\n")
    ensures EndsWith(ResultsChunk(formatted), "\n\n")
  {
    var m := ToolMarker(name);
    assert m[|m| - 2..] == "\n\n";
    var r := ResultsChunk(formatted);
    assert r[|r| - 2..] == "\n\n";
  }

  lemma WellSeparatedAppend(chunks: seq<string>, more: seq<string>)
    requires WellSeparated(chunks) && WellSeparated(more)
    ensures WellSeparated(chunks + more)
  {
    assert forall k :: |chunks| <= k < |chunks + more| ==> (chunks + more)[k] == more[k - |chunks|];
  }

  lemma {:induction false} ChunksWellSeparated(start: int, events: seq<Event>)
    ensures WellSeparated(Run(start, events).chunks)
  {
    if |events| > 0 {
      var init := events[..|events| - 1];
      ChunksWellSeparated(start, init);
      SeparatedStep(Run(start, init), events[|events| - 1]);
    }
  }

  /** One turn appends only well-separated chunks. */
  lemma SeparatedStep(a: Assembly, e: Event)
    requires WellSeparated(a.chunks)
    ensures WellSeparated(Step(a, e).chunks)
  {
    if Truthy(e.chunk) && (IsToolCall(e.chunk) || IsToolResult(e.chunk)) {
      ToolSeparated(a, e);
    } else if Truthy(e.chunk) && IsText(e.chunk) {
      TextSeparated(a, e);
    } else {
      IgnoredStep(a, e);
    }
  }

  lemma ToolSeparated(a: Assembly, e: Event)
    requires WellSeparated(a.chunks)
    requires Truthy(e.chunk) && (IsToolCall(e.chunk) || IsToolResult(e.chunk))
    ensures WellSeparated(Step(a, e).chunks)
  {
    var p := FlushPending(a);
    FlushSeparated(a);
    if IsToolCall(e.chunk) {
      var name := Str(DictGet(e.chunk.entries, "tool_call").value);
      MarkerShapes(name, "");
      WellSeparatedAppend(p.chunks, [ToolMarker(name)]);
    } else {
      var formatted := FormatToolResult(DictGet(e.chunk.entries, "tool_result").value);
      MarkerShapes("", formatted);
      WellSeparatedAppend(p.chunks, [ResultsChunk(formatted)]);
    }
  }

  lemma TextSeparated(a: Assembly, e: Event)
    requires WellSeparated(a.chunks)
    requires Truthy(e.chunk) && IsText(e.chunk)
    ensures WellSeparated(Step(a, e).chunks)
  {
    TextStep(a, e);
    var b := a.buffer + e.chunk.s;
    if PolicyFlushes(a, e) {
      FormatAndFlushNonBlank(b);
      WellSeparatedAppend(a.chunks, [FormatAndFlushBuffer(b)]);
    }
  }

  /** Flushing the pending buffer keeps the chunks well separated. */
  lemma FlushSeparated(a: Assembly)
    requires WellSeparated(a.chunks)
    ensures WellSeparated(FlushPending(a).chunks)
  {
    if !IsBlank(a.buffer) {
      FormatAndFlushNonBlank(a.buffer);
      WellSeparatedAppend(a.chunks, [FormatAndFlushBuffer(a.buffer)]);
    }
  }

  // ---------------------------------------------------------------- end of the stream

  /** At a normal end, a pending non-blank buffer is yielded as one last chunk. */
  lemma DrainOnEnd(start: int, events: seq<Event>)
    ensures var a := Run(start, events);
      Output(Iterator(events, false), start) ==
        a.chunks + (if IsBlank(a.buffer) then [] else [FormatAndFlushBuffer(a.buffer)])
  {
    var a := Run(start, events);
    if !IsBlank(a.buffer) {
      FormatAndFlushNonBlank(a.buffer);
    }
  }

  /**
   * When the iterator raises, the error chunk follows the chunks already
   * yielded and the pending buffer is dropped, not flushed.
   */
  lemma FailureDropsBuffer(start: int, events: seq<Event>)
    ensures Output(Iterator(events, true), start) == Run(start, events).chunks + [ErrorChunk]
  {
  }

  /** The whole of the accepted text reaches the formatter when the stream ends normally. */
  lemma {:induction false} NothingLostAtEnd(start: int, events: seq<Event>)
    ensures var a := Run(start, events);
      a.flushed + (if IsBlank(a.buffer) then "" else a.buffer) == AcceptedText(events)
  {
    Reconstruction(start, events);
    BufferInvariant(start, events);
  }
}
