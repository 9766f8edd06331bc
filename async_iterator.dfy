/**
 * `ImprovedAsyncResponseIterator` in utils/streaming.py: a producer that reads
 * completion deltas, announces the first tool call, batches content into
 * "complete thought" chunks on a queue, and a consumer `__anext__` that pops
 * the queue or decides, on a timeout, whether the stream has ended.
 *
 * The producer task and the consumer are modelled one after the other: the
 * producer is `ProcessChunks` over the deltas the completion stream delivered
 * (and the exception it raised, if any), the consumer is `Anext` over the
 * queue the producer left.
 */
module AsyncIterator {
  import opened Wrappers
  import opened PyStrings
  import opened PyValue
  import opened StreamFormat
  import StreamHandler

  // ---------------------------------------------------------------- the send policy

  /** A sentence end at `k`, followed by whitespace. */
  predicate PunctSpaceAt(b: string, k: int) {
    0 <= k < |b| - 1 && IsPunct(b[k]) && IsSpace(b[k + 1])
  }

  /** A digit, a point at `k`, then whitespace. */
  predicate NumberSpaceAt(b: string, k: int) {
    1 <= k < |b| - 1 && IsDigit(b[k - 1]) && b[k] == '.' && IsSpace(b[k + 1])
  }

  /** `re.search(r'[.!?]\s', buffer)`. */
  predicate PunctThenSpace(b: string) {
    exists k :: 0 <= k < |b| && PunctSpaceAt(b, k)
  }

  /** `re.search(r'\d+\.\s', buffer)`. */
  predicate NumberThenSpace(b: string) {
    exists k :: 0 <= k < |b| && NumberSpaceAt(b, k)
  }

  /** `_should_send_chunk`, its tests in the source's order. */
  predicate ShouldSendChunk(b: string) {
    if |b| < 10 then false
    else if PunctThenSpace(b) then true
    else if HasChar(b, '\n') then true
    else if NumberThenSpace(b) then true
    else |b| > 100
  }

  /**
   * The numbered-list test never decides anything: a number, a point and a
   * space already contain a sentence end followed by a space. So a buffer is
   * sent exactly when it has at least 10 characters and a sentence end
   * followed by whitespace, a newline, or more than 100 characters.
   */
  lemma ShouldSendCharacterisation(b: string)
    ensures ShouldSendChunk(b) <==> |b| >= 10 && (PunctThenSpace(b) || HasChar(b, '\n') || |b| > 100)
  {
    if NumberThenSpace(b) {
      NumberedIsPunct(b);
    }
  }

  lemma NumberedIsPunct(b: string)
    requires NumberThenSpace(b)
    ensures PunctThenSpace(b)
  {
    var k :| 0 <= k < |b| && NumberSpaceAt(b, k);
    assert b[k] == '.' && IsSpace(b[k + 1]);
    assert PunctSpaceAt(b, k);
  }

  /** A buffer that is not sent has at most 100 characters. */
  lemma UnsentBound(b: string)
    requires !ShouldSendChunk(b)
    ensures |b| <= 100
  {
  }

  // ---------------------------------------------------------------- deltas and the queue

  /** `delta.function_call`, when present and truthy; its `name` may be missing. */
  datatype FunctionCall = FunctionCall(name: Option<string>)

  /**
   * One completion chunk: a falsy chunk or one without choices, or the first
   * choice's delta (missing or empty content is `""`).
   */
  datatype Chunk = NoChoices | Delta(functionCall: Option<FunctionCall>, content: string)

  /** What the producer puts on the queue: a `{"tool_call": name}` dict or a string. */
  datatype QueueItem = QToolCall(name: Option<string>) | QText(text: string)

  /** `not self.current_tool` fails: a name is recorded and it is non-empty. */
  predicate ToolRecorded(t: Option<string>) {
    t.Some? && t.value != ""
  }

  /** The producer's part of the iterator's state. */
  datatype Producer = Producer(currentTool: Option<string>, buffer: string, queue: seq<QueueItem>)

  /** One turn of the loop over the completion stream. */
  function Feed(p: Producer, c: Chunk): (r: Producer)
    ensures |p.queue| <= |r.queue| <= |p.queue| + 2 && r.queue[..|p.queue|] == p.queue
    ensures c.NoChoices? ==> r == p
  {
    match c
    case NoChoices => p
    case Delta(fc, content) =>
      var p1 :=
        if fc.Some? && !ToolRecorded(p.currentTool) then
          p.(currentTool := fc.value.name, queue := p.queue + [QToolCall(fc.value.name)])
        else p;
      if content == "" then p1
      else
        var b := p1.buffer + content;
        if ShouldSendChunk(b) then p1.(buffer := "", queue := p1.queue + [QText(b)])
        else p1.(buffer := b)
  }

  function FeedAll(p: Producer, cs: seq<Chunk>): Producer {
    if |cs| == 0 then p else Feed(FeedAll(p, cs[..|cs| - 1]), cs[|cs| - 1])
  }

  /**
   * After the loop: the remaining buffer is queued (and, as in the source, not
   * cleared); or, when the stream raised with message `m`, `"Error: " + m` is
   * queued instead and the buffer is dropped.
   */
  function Finish(p: Producer, failure: Option<string>): (r: Producer)
    ensures r.currentTool == p.currentTool
    ensures |p.queue| <= |r.queue| <= |p.queue| + 1 && r.queue[..|p.queue|] == p.queue
    ensures failure.Some? ==> r.queue == p.queue + [QText("Error: " + failure.value)]
  {
    match failure
    case None => if p.buffer != "" then p.(queue := p.queue + [QText(p.buffer)]) else p
    case Some(m) => p.(queue := p.queue + [QText("Error: " + m)])
  }

  /** What `__anext__` returns: a queued item, the empty chunk `""` after a timeout, or the end. */
  datatype Next = Yield(item: QueueItem) | Tick | Stop

  /** The timeout branch of `__anext__`: the stream ends only when the producer is done and nothing is queued. */
  function OnTimeout(done: bool, queueEmpty: bool): (r: Next)
    ensures r == Stop <==> done && queueEmpty
    ensures r != Stop ==> r == Tick
  {
    if done && queueEmpty then Stop else Tick
  }

  /** `config.get("temperature", 0.7)` and `config.get("max_tokens", 500)`. */
  function CompletionSettings(config: seq<(string, Value)>): (r: (Value, Value))
    ensures !DictHas(config, "temperature") ==> r.0 == VFloat(0.7)
    ensures DictHas(config, "temperature") ==> r.0 == DictGet(config, "temperature").value
    ensures !DictHas(config, "max_tokens") ==> r.1 == VInt(500)
    ensures DictHas(config, "max_tokens") ==> r.1 == DictGet(config, "max_tokens").value
  {
    (GetOr(config, "temperature", VFloat(0.7)), GetOr(config, "max_tokens", VInt(500)))
  }

  // ---------------------------------------------------------------- the iterator

  class ImprovedAsyncResponseIterator {
    var config: seq<(string, Value)>
    var currentTool: Option<string>
    var queue: seq<QueueItem>
    var done: bool
    var started: bool
    var buffer: string

    constructor(config: seq<(string, Value)>)
      ensures this.config == config
      ensures currentTool == None && queue == [] && !done && !started && buffer == ""
    {
      this.config := config;
      currentTool := None;
      queue := [];
      done := false;
      started := false;
      buffer := "";
    }

    function State(): Producer
      reads this
    {
      Producer(currentTool, buffer, queue)
    }

    /**
     * `_process_chunks` over the chunks the stream delivered before it ended,
     * or before it raised `failure`.
     */
    method ProcessChunks(chunks: seq<Chunk>, failure: Option<string>)
      modifies this
      ensures State() == Finish(FeedAll(old(State()), chunks), failure)
      ensures done
      ensures config == old(config) && started == old(started)
    {
      ghost var start := State();
      var i := 0;
      while i < |chunks|
        invariant 0 <= i <= |chunks|
        invariant State() == FeedAll(start, chunks[..i])
        invariant config == old(config) && started == old(started)
      {
        assert chunks[..i + 1][..i] == chunks[..i];
        var c := chunks[i];
        if c.Delta? {
          if c.functionCall.Some? && !ToolRecorded(currentTool) {
            currentTool := c.functionCall.value.name;
            queue := queue + [QToolCall(currentTool)];
          }
          if c.content != "" {
            buffer := buffer + c.content;
            if ShouldSendChunk(buffer) {
              queue := queue + [QText(buffer)];
              buffer := "";
            }
          }
        }
        i := i + 1;
      }
      assert chunks[..|chunks|] == chunks;
      if failure.Some? {
        queue := queue + [QText("Error: " + failure.value)];
      } else if buffer != "" {
        queue := queue + [QText(buffer)];
      }
      done := true;
    }

    /** `__anext__`: starts the producer on the first call; pops the queue or takes the timeout branch. */
    method Anext() returns (r: Next)
      modifies this
      ensures started
      ensures old(queue) != [] ==> r == Yield(old(queue)[0]) && queue == old(queue)[1..]
      ensures old(queue) == [] ==> r == OnTimeout(done, true) && queue == []
      ensures config == old(config) && currentTool == old(currentTool) && buffer == old(buffer) && done == old(done)
    {
      if !started {
        started := true;
      }
      if queue != [] {
        r := Yield(queue[0]);
        queue := queue[1..];
      } else {
        r := OnTimeout(done, true);
      }
    }
  }

  // ---------------------------------------------------------------- properties of the producer

  /** The number of tool-call announcements in a queue. */
  function ToolCalls(q: seq<QueueItem>): nat {
    if |q| == 0 then 0 else ToolCalls(q[..|q| - 1]) + (if q[|q| - 1].QToolCall? then 1 else 0)
  }

  /** The strings in a queue, concatenated in order. */
  function QueuedText(q: seq<QueueItem>): string {
    if |q| == 0 then "" else QueuedText(q[..|q| - 1]) + (if q[|q| - 1].QText? then q[|q| - 1].text else "")
  }

  /**
   * Every function call that arrives while no tool name is recorded carries a
   * non-empty name. Later deltas of the same call, which carry only arguments
   * and no name, are unconstrained.
   */
  predicate NamedWhileUnrecorded(p: Producer, cs: seq<Chunk>) {
    forall i :: 0 <= i < |cs| && cs[i].Delta? && cs[i].functionCall.Some? && !ToolRecorded(FeedAll(p, cs[..i]).currentTool) ==>
      ToolRecorded(cs[i].functionCall.value.name)
  }

  /** The content of the deltas, concatenated in order. */
  function Content(cs: seq<Chunk>): string {
    if |cs| == 0 then ""
    else Content(cs[..|cs| - 1]) + (if cs[|cs| - 1].Delta? then cs[|cs| - 1].content else "")
  }

  lemma QueueAppend(q: seq<QueueItem>, x: QueueItem)
    ensures ToolCalls(q + [x]) == ToolCalls(q) + (if x.QToolCall? then 1 else 0)
    ensures QueuedText(q + [x]) == QueuedText(q) + (if x.QText? then x.text else "")
  {
    assert (q + [x])[..|q|] == q;
  }

  /**
   * Once a non-empty tool name is recorded it never changes, and when the
   * call that arrives with no name recorded is named, it is the only one
   * announced.
   */
  lemma {:induction false} OneToolAnnouncement(p: Producer, cs: seq<Chunk>)
    requires NamedWhileUnrecorded(p, cs)
    ensures var r := FeedAll(p, cs);
      (ToolRecorded(p.currentTool) ==> r.currentTool == p.currentTool)
      && ToolCalls(r.queue) == ToolCalls(p.queue) + (if ToolRecorded(r.currentTool) && !ToolRecorded(p.currentTool) then 1 else 0)
  {
    if |cs| > 0 {
      var init := cs[..|cs| - 1];
      assert NamedWhileUnrecorded(p, init) by {
        assert forall i :: 0 <= i < |init| ==> init[i] == cs[i] && init[..i] == cs[..i];
      }
      OneToolAnnouncement(p, init);
      var q := FeedAll(p, init);
      var c := cs[|cs| - 1];
      if c.Delta? {
        var p1 :=
          if c.functionCall.Some? && !ToolRecorded(q.currentTool) then
            q.(currentTool := c.functionCall.value.name, queue := q.queue + [QToolCall(c.functionCall.value.name)])
          else q;
        if c.functionCall.Some? && !ToolRecorded(q.currentTool) {
          QueueAppend(q.queue, QToolCall(c.functionCall.value.name));
        }
        if c.content != "" && ShouldSendChunk(p1.buffer + c.content) {
          QueueAppend(p1.queue, QText(p1.buffer + c.content));
        }
      }
    }
  }

  /**
   * A call that arrives without a name records nothing, so the next call is
   * announced as well: a stream whose first call delta has no name announces
   * two tool calls.
   */
  lemma UnnamedCallAnnouncedAgain(name: string)
    requires name != ""
    ensures var r := FeedAll(Producer(None, "", []), [Delta(Some(FunctionCall(None)), ""), Delta(Some(FunctionCall(Some(name))), "")]);
      r.currentTool == Some(name) && r.queue == [QToolCall(None), QToolCall(Some(name))]
  {
    var cs := [Delta(Some(FunctionCall(None)), ""), Delta(Some(FunctionCall(Some(name))), "")];
    assert cs[..1][..0] == [];
    assert FeedAll(Producer(None, "", []), cs[..1]) == Producer(None, "", [QToolCall(None)]);
  }

  /** One delta moves its content into the buffer or onto the queue, and nowhere else. */
  lemma FeedContent(q: Producer, c: Chunk)
    ensures QueuedText(Feed(q, c).queue) + Feed(q, c).buffer
      == QueuedText(q.queue) + q.buffer + (if c.Delta? then c.content else "")
  {
    if c.Delta? {
      var p1 :=
        if c.functionCall.Some? && !ToolRecorded(q.currentTool) then
          q.(currentTool := c.functionCall.value.name, queue := q.queue + [QToolCall(c.functionCall.value.name)])
        else q;
      if c.functionCall.Some? && !ToolRecorded(q.currentTool) {
        QueueAppend(q.queue, QToolCall(c.functionCall.value.name));
      }
      assert QueuedText(p1.queue) + p1.buffer == QueuedText(q.queue) + q.buffer;
      if c.content == "" {
        assert QueuedText(q.queue) + q.buffer + "" == QueuedText(q.queue) + q.buffer;
      } else {
        var b := p1.buffer + c.content;
        Assoc(QueuedText(p1.queue), p1.buffer, c.content);
        if ShouldSendChunk(b) {
          QueueAppend(p1.queue, QText(b));
          assert QueuedText(p1.queue) + b + "" == QueuedText(p1.queue) + b;
        }
      }
    } else {
      assert QueuedText(q.queue) + q.buffer + "" == QueuedText(q.queue) + q.buffer;
    }
  }

  /**
   * No content is lost or duplicated: the strings queued, followed by the
   * buffer, are the buffer and queued strings before, followed by all content.
   */
  lemma {:induction false} ContentPreserved(p: Producer, cs: seq<Chunk>)
    ensures var r := FeedAll(p, cs);
      QueuedText(r.queue) + r.buffer == QueuedText(p.queue) + p.buffer + Content(cs)
  {
    if |cs| > 0 {
      var init := cs[..|cs| - 1];
      var c := cs[|cs| - 1];
      ContentPreserved(p, init);
      FeedContent(FeedAll(p, init), c);
      var more := if c.Delta? then c.content else "";
      assert Content(cs) == Content(init) + more;
      Assoc(QueuedText(p.queue) + p.buffer, Content(init), more);
    }
  }

  /** A stream that ends normally queues exactly its content, starting from a fresh iterator. */
  lemma AllContentQueued(cs: seq<Chunk>)
    ensures QueuedText(Finish(FeedAll(Producer(None, "", []), cs), None).queue) == Content(cs)
  {
    var r := FeedAll(Producer(None, "", []), cs);
    ContentPreserved(Producer(None, "", []), cs);
    assert QueuedText([]) + "" + Content(cs) == Content(cs);
    if r.buffer != "" {
      QueueAppend(r.queue, QText(r.buffer));
    } else {
      assert QueuedText(r.queue) + "" == QueuedText(r.queue);
    }
  }

  /**
   * Between deltas the buffer never satisfies the send policy (so it holds at
   * most 100 characters), and every string queued by the loop does.
   */
  lemma {:induction false} SendPolicyInvariant(p: Producer, cs: seq<Chunk>)
    requires !ShouldSendChunk(p.buffer)
    ensures var r := FeedAll(p, cs);
      !ShouldSendChunk(r.buffer) && |r.buffer| <= 100
      && p.queue <= r.queue
      && forall j :: |p.queue| <= j < |r.queue| && r.queue[j].QText? ==> ShouldSendChunk(r.queue[j].text)
  {
    if |cs| > 0 {
      SendPolicyInvariant(p, cs[..|cs| - 1]);
    }
  }

  /** Every string on the queue of a stream that ended normally is non-empty. */
  lemma NoEmptyText(cs: seq<Chunk>)
    ensures var q := Finish(FeedAll(Producer(None, "", []), cs), None).queue;
      forall j :: 0 <= j < |q| && q[j].QText? ==> q[j].text != ""
  {
    SendPolicyInvariant(Producer(None, "", []), cs);
  }

  /** On failure the partial buffer is dropped and the error message is the last item. */
  lemma FailureDropsBuffer(p: Producer, cs: seq<Chunk>, m: string)
    ensures var r := FeedAll(p, cs);
      Finish(r, Some(m)).queue == r.queue + [QText("Error: " + m)]
  {
  }

  // ---------------------------------------------------------------- handing items to stream_response

  /** The Python value `__anext__` hands to its consumer. */
  function AsValue(n: Next): Value
    requires n != Stop
  {
    match n
    case Tick => VStr("")
    case Yield(QText(s)) => VStr(s)
    case Yield(QToolCall(name)) => VDict([("tool_call", if name.Some? then VStr(name.value) else VNone)])
  }

  /** The empty chunk returned on a timeout is skipped by `stream_response`. */
  lemma TickIgnored(a: StreamHandler.Assembly, time: int)
    ensures StreamHandler.Step(a, StreamHandler.Event(time, AsValue(Tick))) == a
  {
  }

  /** A queued tool call reaches `stream_response` as a tool-call event. */
  lemma ToolCallReachesHandler(name: Option<string>)
    ensures Truthy(AsValue(Yield(QToolCall(name)))) && StreamHandler.IsToolCall(AsValue(Yield(QToolCall(name))))
  {
    var es := AsValue(Yield(QToolCall(name))).entries;
    assert es[0].0 == "tool_call";
  }
}
