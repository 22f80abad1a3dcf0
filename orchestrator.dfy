/**
 * The streaming tool-call orchestration of one chat request: stream the
 * first model round while forwarding text and collecting tool-call deltas,
 * run the collected calls one by one, extend the history, and stream a
 * second, tool-less round. The upstream model is a function from a request
 * (history, and whether tools are offered) to the chunks of its stream; the
 * JSON decoder is a function that may fail with an error text.
 */
module Orchestrator {

  import opened Wrappers
  import Json
  import Weather
  import opened ToolCalls
  import opened Messages

  /** `chunk.choices[0].delta`: its text ("" when absent) and its tool-call deltas. */
  datatype Chunk = Chunk(content: string, toolCalls: seq<ToolDelta>)

  /** The outward events, one per `data: <json>` line of the event stream. */
  datatype Event =
    | TextEvent(text: string)                             // {"type": "text", ...}
    | ToolStart(toolCallId: string, toolName: string)     // {"type": "tool_start", ...}
    | ToolResult(toolCallId: string, result: Payload)     // {"type": "tool_result", ...}

  /** One call of the completion endpoint: the history sent, and whether the tool schema is offered. */
  datatype Request = Request(history: seq<Message>, offersTools: bool)

  /** What one request produces: the events in order, the upstream calls made, the final history. */
  datatype Run = Run(events: seq<Event>, requests: seq<Request>, history: seq<Message>)

  type Upstream = Request -> seq<Chunk>

  type Parser = string -> Result<Json.Value, string>

  const WeatherTool := "get_current_weather"

  const UnknownFunction := "Unknown function"

  /** The name a tool_start event reports: the delta's name fragment, or "unknown". */
  function StartName(d: ToolDelta): string {
    if d.name != "" then d.name else "unknown"
  }

  /** The tool_start events of a run of deltas: one for each delta whose id fragment is non-empty,
      carrying that fragment rather than the accumulated id. */
  function StartEvents(ds: seq<ToolDelta>): (es: seq<Event>)
    ensures forall k :: 0 <= k < |es| ==> es[k].ToolStart?
    ensures |es| <= |ds|
  {
    if ds == [] then []
    else
      var d := ds[|ds| - 1];
      StartEvents(ds[..|ds| - 1]) + (if d.id != "" then [ToolStart(d.id, StartName(d))] else [])
  }

  /** The number of deltas that carry an id fragment. */
  function IdCount(ds: seq<ToolDelta>): nat {
    if ds == [] then 0 else IdCount(ds[..|ds| - 1]) + (if ds[|ds| - 1].id != "" then 1 else 0)
  }

  /** There is one tool_start per delta that carries an id fragment. */
  lemma {:induction false} StartEventsCount(ds: seq<ToolDelta>)
    ensures |StartEvents(ds)| == IdCount(ds)
  {
    if ds != [] {
      StartEventsCount(ds[..|ds| - 1]);
    }
  }

  /** The delta at position k, when it carries an id fragment, is announced by the tool_start at
      position IdCount(ds[..k]): one event per such delta, in delta order, with its own fragment. */
  lemma {:induction false} StartEventsAt(ds: seq<ToolDelta>, k: nat)
    requires k < |ds| && ds[k].id != ""
    ensures IdCount(ds[..k]) < |StartEvents(ds)|
    ensures StartEvents(ds)[IdCount(ds[..k])] == ToolStart(ds[k].id, StartName(ds[k]))
  {
    var p := ds[..|ds| - 1];
    StartEventsCount(p);
    assert StartEvents(ds) == StartEvents(p) + (if ds[|ds| - 1].id != "" then [ToolStart(ds[|ds| - 1].id, StartName(ds[|ds| - 1]))] else []);
    if k == |ds| - 1 {
      assert ds[..k] == p;
    } else {
      assert p[..k] == ds[..k] && p[k] == ds[k];
      StartEventsAt(p, k);
    }
  }

  lemma StartEventsSnoc(ds: seq<ToolDelta>, d: ToolDelta)
    ensures StartEvents(ds + [d]) == StartEvents(ds) + (if d.id != "" then [ToolStart(d.id, StartName(d))] else [])
  {
    assert (ds + [d])[..|ds|] == ds;
  }

  function ContentEvents(c: Chunk): seq<Event> {
    if c.content != "" then [TextEvent(c.content)] else []
  }

  /** The events of one first-round chunk: its text first, then a tool_start per id fragment. */
  function ChunkEvents(c: Chunk): (es: seq<Event>)
    ensures c.content != "" ==> |es| > 0 && es[0] == TextEvent(c.content)
    ensures forall k :: (if c.content != "" then 1 else 0) <= k < |es| ==> es[k].ToolStart?
  {
    ContentEvents(c) + StartEvents(c.toolCalls)
  }

  function FirstRoundEvents(cs: seq<Chunk>): (es: seq<Event>)
    ensures forall k :: 0 <= k < |es| ==> es[k].TextEvent? || es[k].ToolStart?
  {
    if cs == [] then [] else FirstRoundEvents(cs[..|cs| - 1]) + ChunkEvents(cs[|cs| - 1])
  }

  /** The events of the second round: the text of each chunk that has some, and nothing else. */
  function TextEvents(cs: seq<Chunk>): (es: seq<Event>)
    ensures forall k :: 0 <= k < |es| ==> es[k].TextEvent? && es[k].text != ""
    ensures |es| <= |cs|
  {
    if cs == [] then [] else TextEvents(cs[..|cs| - 1]) + ContentEvents(cs[|cs| - 1])
  }

  /** The number of chunks that carry text. */
  function TextCount(cs: seq<Chunk>): nat {
    if cs == [] then 0 else TextCount(cs[..|cs| - 1]) + (if cs[|cs| - 1].content != "" then 1 else 0)
  }

  /** There is one text event per chunk that carries text. */
  lemma {:induction false} TextEventsCount(cs: seq<Chunk>)
    ensures |TextEvents(cs)| == TextCount(cs)
  {
    if cs != [] {
      TextEventsCount(cs[..|cs| - 1]);
    }
  }

  /** The chunk at position k, when it carries text, is forwarded by the text event at position
      TextCount(cs[..k]): every text is forwarded, once, in chunk order. */
  lemma {:induction false} TextEventsAt(cs: seq<Chunk>, k: nat)
    requires k < |cs| && cs[k].content != ""
    ensures TextCount(cs[..k]) < |TextEvents(cs)|
    ensures TextEvents(cs)[TextCount(cs[..k])] == TextEvent(cs[k].content)
  {
    var p := cs[..|cs| - 1];
    TextEventsCount(p);
    assert TextEvents(cs) == TextEvents(p) + ContentEvents(cs[|cs| - 1]);
    if k == |cs| - 1 {
      assert cs[..k] == p;
    } else {
      assert p[..k] == cs[..k] && p[k] == cs[k];
      TextEventsAt(p, k);
    }
  }

  /** All tool-call deltas of a stream, in arrival order. */
  function Deltas(cs: seq<Chunk>): seq<ToolDelta> {
    if cs == [] then [] else Deltas(cs[..|cs| - 1]) + cs[|cs| - 1].toolCalls
  }

  lemma RoundSnoc(cs: seq<Chunk>, c: Chunk)
    ensures Deltas(cs + [c]) == Deltas(cs) + c.toolCalls
    ensures FirstRoundEvents(cs + [c]) == FirstRoundEvents(cs) + ChunkEvents(c)
    ensures TextEvents(cs + [c]) == TextEvents(cs) + ContentEvents(c)
  {
    assert (cs + [c])[..|cs|] == cs;
  }

  datatype Executed = Executed(result: Option<Event>, reply: Message)

  /** One pass of the execution loop: decode the arguments, dispatch on the name, and produce
      the tool message and, when nothing raised, the tool_result event. */
  function ExecuteCall(call: ToolCall, parse: Parser): (x: Executed)
    ensures x.reply.ToolReply? && x.reply.toolCallId == call.id && x.reply.name == call.name
    ensures x.result.Some? <==> x.reply.output.Output?
    ensures x.result.Some? ==> x.result.value == ToolResult(call.id, x.reply.output.payload)
  {
    match parse(call.arguments)
    case Failure(e) => Executed(None, ToolReply(call.id, call.name, Raised(e)))
    case Success(args) =>
      var content: Result<Payload, string> :=
        if call.name == WeatherTool then
          match Weather.Call(args)
          case Success(report) => Success(WeatherResult(report))
          case Failure(e) => Failure(Weather.ErrorText(e))
        else Success(ErrorPayload(UnknownFunction));
      match content
      case Success(p) => Executed(Some(ToolResult(call.id, p)), ToolReply(call.id, call.name, Output(p)))
      case Failure(e) => Executed(None, ToolReply(call.id, call.name, Raised(e)))
  }

  /** Arguments that do not decode give a tool message with the decoder's error text; any name but
      the weather tool's gives the "Unknown function" error object, announced by a tool_result; the
      weather tool announces its result exactly when the call does not raise. */
  lemma ExecuteCallDispatch(call: ToolCall, parse: Parser)
    ensures parse(call.arguments).Failure? ==>
      ExecuteCall(call, parse) == Executed(None, ToolReply(call.id, call.name, Raised(parse(call.arguments).error)))
    ensures parse(call.arguments).Success? && call.name != WeatherTool ==>
      ExecuteCall(call, parse).result == Some(ToolResult(call.id, ErrorPayload(UnknownFunction))) &&
      ExecuteCall(call, parse).reply.output == Output(ErrorPayload(UnknownFunction))
    ensures parse(call.arguments).Success? && call.name == WeatherTool ==>
      (ExecuteCall(call, parse).result.Some? <==> Weather.Call(parse(call.arguments).value).Success?) &&
      (Weather.Call(parse(call.arguments).value).Failure? ==>
        ExecuteCall(call, parse).reply.output == Raised(Weather.ErrorText(Weather.Call(parse(call.arguments).value).error))) &&
      (Weather.Call(parse(call.arguments).value).Success? ==>
        ExecuteCall(call, parse).reply.output == Output(WeatherResult(Weather.Call(parse(call.arguments).value).value)))
  {
  }

  datatype Phase = Phase(events: seq<Event>, replies: seq<Message>)

  /** The execution loop over the calls, in order. */
  function ToolPhase(calls: seq<ToolCall>, parse: Parser): (p: Phase)
    ensures |p.replies| == |calls|
    ensures forall k :: 0 <= k < |calls| ==> p.replies[k] == ExecuteCall(calls[k], parse).reply
  {
    if calls == [] then Phase([], [])
    else
      var q := ToolPhase(calls[..|calls| - 1], parse);
      var x := ExecuteCall(calls[|calls| - 1], parse);
      Phase(q.events + (if x.result.Some? then [x.result.value] else []), q.replies + [x.reply])
  }

  lemma ToolPhaseSnoc(calls: seq<ToolCall>, c: ToolCall, parse: Parser)
    ensures var q, x := ToolPhase(calls, parse), ExecuteCall(c, parse);
      ToolPhase(calls + [c], parse) ==
        Phase(q.events + (if x.result.Some? then [x.result.value] else []), q.replies + [x.reply])
  {
    assert (calls + [c])[..|calls|] == calls;
  }

  lemma ToolPhaseStep(calls: seq<ToolCall>, k: nat, parse: Parser, result: Option<Event>, reply: Message)
    requires k < |calls| && Executed(result, reply) == ExecuteCall(calls[k], parse)
    ensures ToolPhase(calls[..k + 1], parse).events ==
      ToolPhase(calls[..k], parse).events + (if result.Some? then [result.value] else [])
    ensures ToolPhase(calls[..k + 1], parse).replies == ToolPhase(calls[..k], parse).replies + [reply]
  {
    assert calls[..k + 1] == calls[..k] + [calls[k]];
    ToolPhaseSnoc(calls[..k], calls[k], parse);
  }

  /** The whole request, as a function of the history, the upstream model and the decoder. */
  function Orchestrate(messages: seq<Message>, upstream: Upstream, parse: Parser): (r: Run)
    ensures 1 <= |r.requests| <= 2 && r.requests[0] == Request(messages, true)
    ensures |messages| <= |r.history| && r.history[..|messages|] == messages
    ensures r.requests[|r.requests| - 1].history == r.history
  {
    var first := Request(messages, true);
    var round1 := upstream(first);
    var table := Accumulate(Deltas(round1));
    if table.order == [] then
      Run(FirstRoundEvents(round1), [first], messages)
    else
      var calls := Values(table);
      var phase := ToolPhase(calls, parse);
      var history := messages + [AssistantToolCalls(calls)] + phase.replies;
      var second := Request(history, false);
      Run(FirstRoundEvents(round1) + phase.events + TextEvents(upstream(second)), [first, second], history)
  }

  /** The first `async for chunk in stream` loop: forward text, feed the accumulator and
      announce every delta that carries an id fragment. */
  method StreamFirstRound(stream: seq<Chunk>) returns (events: seq<Event>, acc: Accumulator)
    ensures fresh(acc) && acc.Valid()
    ensures acc.State() == Accumulate(Deltas(stream))
    ensures events == FirstRoundEvents(stream)
  {
    events := [];
    acc := new Accumulator();
    for i := 0 to |stream|
      invariant fresh(acc)
      invariant acc.State() == Accumulate(Deltas(stream[..i]))
      invariant events == FirstRoundEvents(stream[..i])
    {
      FirstRoundStep(stream, i);
      var chunkEvents := FeedChunk(acc, stream[i], Deltas(stream[..i]));
      events := events + chunkEvents;
    }
    assert stream[..|stream|] == stream;
  }

  lemma FirstRoundStep(stream: seq<Chunk>, i: nat)
    requires i < |stream|
    ensures Deltas(stream[..i + 1]) == Deltas(stream[..i]) + stream[i].toolCalls
    ensures FirstRoundEvents(stream[..i + 1]) == FirstRoundEvents(stream[..i]) + ChunkEvents(stream[i])
  {
    assert stream[..i + 1] == stream[..i] + [stream[i]];
    RoundSnoc(stream[..i], stream[i]);
  }

  /** One pass of the first loop: the chunk's text first, then its deltas. */
  method FeedChunk(acc: Accumulator, chunk: Chunk, ghost seen: seq<ToolDelta>) returns (events: seq<Event>)
    requires acc.State() == Accumulate(seen)
    modifies acc
    ensures acc.State() == Accumulate(seen + chunk.toolCalls)
    ensures events == ChunkEvents(chunk)
  {
    events := if chunk.content != "" then [TextEvent(chunk.content)] else [];
    var starts := FeedDeltas(acc, chunk.toolCalls, seen);
    events := events + starts;
  }

  /** The inner `for tc in delta.tool_calls` loop of one chunk. */
  method FeedDeltas(acc: Accumulator, ds: seq<ToolDelta>, ghost seen: seq<ToolDelta>) returns (starts: seq<Event>)
    requires acc.State() == Accumulate(seen)
    modifies acc
    ensures acc.State() == Accumulate(seen + ds)
    ensures starts == StartEvents(ds)
  {
    starts := [];
    assert seen + ds[..0] == seen;
    for j := 0 to |ds|
      invariant acc.State() == Accumulate(seen + ds[..j])
      invariant starts == StartEvents(ds[..j])
    {
      var tc := ds[j];
      FeedStep(seen, ds, j);
      acc.Add(tc);
      starts := starts + (if tc.id != "" then [ToolStart(tc.id, StartName(tc))] else []);
    }
    assert ds[..|ds|] == ds;
  }

  lemma FeedStep(seen: seq<ToolDelta>, ds: seq<ToolDelta>, j: nat)
    requires j < |ds|
    ensures Accumulate(seen + ds[..j + 1]) == Apply(Accumulate(seen + ds[..j]), ds[j])
    ensures StartEvents(ds[..j + 1]) ==
      StartEvents(ds[..j]) + (if ds[j].id != "" then [ToolStart(ds[j].id, StartName(ds[j]))] else [])
  {
    assert seen + ds[..j + 1] == (seen + ds[..j]) + [ds[j]];
    assert ds[..j + 1] == ds[..j] + [ds[j]];
    AccumulateSnoc(seen + ds[..j], ds[j]);
    StartEventsSnoc(ds[..j], ds[j]);
  }

  /** The `for index, tc_data in tool_calls.items()` loop: run each call in first-seen order,
      appending one tool message per call to the history and one tool_result per call that
      did not raise. */
  method ExecuteToolCalls(calls: seq<ToolCall>, history: seq<Message>, parse: Parser)
    returns (results: seq<Event>, current: seq<Message>)
    ensures results == ToolPhase(calls, parse).events
    ensures current == history + ToolPhase(calls, parse).replies
  {
    results, current := [], history;
    for k := 0 to |calls|
      invariant results == ToolPhase(calls[..k], parse).events
      invariant current == history + ToolPhase(calls[..k], parse).replies
    {
      var result, reply := RunToolCall(calls[k], parse);
      ToolPhaseStep(calls, k, parse, result, reply);
      results := results + (if result.Some? then [result.value] else []);
      current := current + [reply];
    }
    assert calls[..|calls|] == calls;
  }

  /** The `try`/`except` body for one call, step by step as the source runs it; its contract says it
      computes the same outcome as the function ExecuteCall, which the lemmas reason about. */
  method RunToolCall(call: ToolCall, parse: Parser) returns (result: Option<Event>, reply: Message)
    ensures Executed(result, reply) == ExecuteCall(call, parse)
  {
    var parsed := parse(call.arguments);
    if parsed.Failure? {
      return None, ToolReply(call.id, call.name, Raised(parsed.error));
    }
    var resultContent: Result<Payload, string>;
    if call.name == WeatherTool {
      var report := Weather.Call(parsed.value);
      if report.Success? {
        resultContent := Success(WeatherResult(report.value));
      } else {
        resultContent := Failure(Weather.ErrorText(report.error));
      }
    } else {
      resultContent := Success(ErrorPayload(UnknownFunction));
    }
    if resultContent.Success? {
      result := Some(ToolResult(call.id, resultContent.value));
      reply := ToolReply(call.id, call.name, Output(resultContent.value));
    } else {
      result := None;
      reply := ToolReply(call.id, call.name, Raised(resultContent.error));
    }
  }

  /** The second `async for chunk in stream2` loop: forward text only. */
  method StreamFinalRound(stream: seq<Chunk>) returns (events: seq<Event>)
    ensures events == TextEvents(stream)
  {
    events := [];
    for i := 0 to |stream|
      invariant events == TextEvents(stream[..i])
    {
      assert stream[..i + 1][..i] == stream[..i];
      if stream[i].content != "" {
        events := events + [TextEvent(stream[i].content)];
      }
    }
    assert stream[..|stream|] == stream;
  }

  /** `stream_generator_sse`: the generator's yields are collected in `run.events`. */
  method StreamGeneratorSse(messages: seq<Message>, upstream: Upstream, parse: Parser) returns (run: Run)
    ensures run == Orchestrate(messages, upstream, parse)
  {
    var current := messages;
    var first := Request(current, true);
    var requests := [first];
    var events, acc := StreamFirstRound(upstream(first));
    if acc.order != [] {
      EmptyIffNoDeltas(Deltas(upstream(first)));
      OrchestrateToolRound(messages, upstream, parse);
      var calls := Values(acc.State());
      current := current + [AssistantToolCalls(calls)];
      var results;
      results, current := ExecuteToolCalls(calls, current, parse);
      events := events + results;
      var second := Request(current, false);
      requests := requests + [second];
      var final := StreamFinalRound(upstream(second));
      events := events + final;
    }
    run := Run(events, requests, current);
  }

  /** The tool_start events among es, in order. */
  function Starts(es: seq<Event>): seq<Event> {
    if es == [] then [] else Starts(es[..|es| - 1]) + (if es[|es| - 1].ToolStart? then [es[|es| - 1]] else [])
  }

  /** The text events among es, in order. */
  function Texts(es: seq<Event>): seq<Event> {
    if es == [] then [] else Texts(es[..|es| - 1]) + (if es[|es| - 1].TextEvent? then [es[|es| - 1]] else [])
  }

  /** The tool_result events that a run of tool messages implies: one per message whose
      content is a payload, with that payload. */
  function ResultsOf(replies: seq<Message>): seq<Event> {
    if replies == [] then []
    else
      var r := replies[|replies| - 1];
      ResultsOf(replies[..|replies| - 1]) +
        (if r.ToolReply? && r.output.Output? then [ToolResult(r.toolCallId, r.output.payload)] else [])
  }

  lemma {:induction false} FiltersDistribute(a: seq<Event>, b: seq<Event>)
    ensures Starts(a + b) == Starts(a) + Starts(b)
    ensures Texts(a + b) == Texts(a) + Texts(b)
  {
    if b != [] {
      var b', e := b[..|b| - 1], b[|b| - 1];
      assert a + b == (a + b') + [e];
      assert (a + b)[..|a + b| - 1] == a + b';
      FiltersDistribute(a, b');
    } else {
      assert a + b == a;
    }
  }

  lemma {:induction false} FiltersOfStarts(es: seq<Event>)
    requires forall k :: 0 <= k < |es| ==> es[k].ToolStart?
    ensures Starts(es) == es && Texts(es) == []
  {
    if es != [] {
      FiltersOfStarts(es[..|es| - 1]);
    }
  }

  lemma {:induction false} FiltersOfTexts(es: seq<Event>)
    requires forall k :: 0 <= k < |es| ==> es[k].TextEvent?
    ensures Texts(es) == es && Starts(es) == []
  {
    if es != [] {
      FiltersOfTexts(es[..|es| - 1]);
    }
  }

  lemma {:induction false} FiltersOfResults(es: seq<Event>)
    requires forall k :: 0 <= k < |es| ==> es[k].ToolResult?
    ensures Texts(es) == [] && Starts(es) == []
  {
    if es != [] {
      FiltersOfResults(es[..|es| - 1]);
    }
  }

  lemma {:induction false} ResultsAreResults(replies: seq<Message>)
    ensures forall k :: 0 <= k < |ResultsOf(replies)| ==> ResultsOf(replies)[k].ToolResult?
  {
    if replies != [] {
      ResultsAreResults(replies[..|replies| - 1]);
    }
  }

  lemma {:induction false} StartEventsConcat(a: seq<ToolDelta>, b: seq<ToolDelta>)
    ensures StartEvents(a + b) == StartEvents(a) + StartEvents(b)
  {
    if b != [] {
      var b', d := b[..|b| - 1], b[|b| - 1];
      var tail := if d.id != "" then [ToolStart(d.id, StartName(d))] else [];
      calc {
        StartEvents(a + b);
        { assert a + b == (a + b') + [d]; }
        StartEvents((a + b') + [d]);
        { StartEventsSnoc(a + b', d); }
        StartEvents(a + b') + tail;
        { StartEventsConcat(a, b'); }
        StartEvents(a) + StartEvents(b') + tail;
        { assert b == b' + [d]; StartEventsSnoc(b', d); }
        StartEvents(a) + StartEvents(b);
      }
    } else {
      assert a + b == a;
    }
  }

  /** The first round's events interleave two streams: its text events are the chunks' texts
      in order, and its tool_start events are one per delta with an id fragment, in delta order. */
  lemma {:induction false} FirstRoundEventKinds(cs: seq<Chunk>)
    ensures Texts(FirstRoundEvents(cs)) == TextEvents(cs)
    ensures Starts(FirstRoundEvents(cs)) == StartEvents(Deltas(cs))
  {
    if cs != [] {
      var p, c := cs[..|cs| - 1], cs[|cs| - 1];
      assert cs == p + [c];
      RoundSnoc(p, c);
      FirstRoundEventKinds(p);
      var before, here := FirstRoundEvents(p), ChunkEvents(c);
      FiltersDistribute(before, here);
      ChunkFilters(c);
      calc {
        Texts(FirstRoundEvents(cs));
        Texts(before) + Texts(here);
        TextEvents(p) + ContentEvents(c);
        TextEvents(cs);
      }
      calc {
        Starts(FirstRoundEvents(cs));
        Starts(before) + Starts(here);
        StartEvents(Deltas(p)) + StartEvents(c.toolCalls);
        { StartEventsConcat(Deltas(p), c.toolCalls); }
        StartEvents(Deltas(cs));
      }
    }
  }

  lemma ChunkFilters(c: Chunk)
    ensures Texts(ChunkEvents(c)) == ContentEvents(c)
    ensures Starts(ChunkEvents(c)) == StartEvents(c.toolCalls)
  {
    FiltersDistribute(ContentEvents(c), StartEvents(c.toolCalls));
    FiltersOfTexts(ContentEvents(c));
    FiltersOfStarts(StartEvents(c.toolCalls));
  }

  /** Without tool deltas the first round produces only its text events. */
  lemma {:induction false} NoDeltasOnlyText(cs: seq<Chunk>)
    requires Deltas(cs) == []
    ensures FirstRoundEvents(cs) == TextEvents(cs)
  {
    if cs != [] {
      var p, c := cs[..|cs| - 1], cs[|cs| - 1];
      assert cs == p + [c];
      RoundSnoc(p, c);
      NoDeltasOnlyText(p);
    }
  }

  /** A tool_result is emitted exactly for the calls whose tool message carries a payload,
      with that payload and in the order of the tool messages. */
  lemma {:induction false} ToolResultsMatchReplies(calls: seq<ToolCall>, parse: Parser)
    ensures ToolPhase(calls, parse).events == ResultsOf(ToolPhase(calls, parse).replies)
  {
    if calls != [] {
      var p := calls[..|calls| - 1];
      ToolResultsMatchReplies(p, parse);
      var replies := ToolPhase(calls, parse).replies;
      assert replies[..|replies| - 1] == ToolPhase(p, parse).replies;
    }
  }

  /** The request is answered in one round exactly when the first round carries no tool delta;
      then the history is left as it was and the output is the first round's text. */
  lemma SingleRoundIffNoToolDeltas(messages: seq<Message>, upstream: Upstream, parse: Parser)
    ensures var run := Orchestrate(messages, upstream, parse);
      var round1 := upstream(Request(messages, true));
      (|run.requests| == 1 <==> Deltas(round1) == []) &&
      (Deltas(round1) == [] ==> run.history == messages && run.events == TextEvents(round1))
  {
    var round1 := upstream(Request(messages, true));
    EmptyIffNoDeltas(Deltas(round1));
    if Deltas(round1) == [] {
      NoDeltasOnlyText(round1);
    }
  }

  lemma OrchestrateToolRound(messages: seq<Message>, upstream: Upstream, parse: Parser)
    requires Deltas(upstream(Request(messages, true))) != []
    ensures var round1 := upstream(Request(messages, true));
      var calls := Values(Accumulate(Deltas(round1)));
      var phase := ToolPhase(calls, parse);
      var history := messages + [AssistantToolCalls(calls)] + phase.replies;
      |calls| > 0 &&
      Orchestrate(messages, upstream, parse) == Run(
        FirstRoundEvents(round1) + phase.events + TextEvents(upstream(Request(history, false))),
        [Request(messages, true), Request(history, false)], history)
  {
    EmptyIffNoDeltas(Deltas(upstream(Request(messages, true))));
  }

  /** After a round with tool calls the history is the original messages, one assistant message
      listing the calls in first-seen order, then one tool message per call with its id and name,
      in the same order; the second request sends that history without tools. */
  lemma ToolRoundHistory(messages: seq<Message>, upstream: Upstream, parse: Parser)
    requires Deltas(upstream(Request(messages, true))) != []
    ensures var run := Orchestrate(messages, upstream, parse);
      var calls := Values(Accumulate(Deltas(upstream(Request(messages, true)))));
      var n := |messages|;
      |calls| > 0 &&
      run.requests == [Request(messages, true), Request(run.history, false)] &&
      |run.history| == n + 1 + |calls| &&
      run.history[..n] == messages &&
      run.history[n] == AssistantToolCalls(calls) &&
      (forall k :: 0 <= k < |calls| ==>
        run.history[n + 1 + k].ToolReply? &&
        run.history[n + 1 + k].toolCallId == calls[k].id &&
        run.history[n + 1 + k].name == calls[k].name)
  {
    OrchestrateToolRound(messages, upstream, parse);
    HistoryShape(messages, Values(Accumulate(Deltas(upstream(Request(messages, true))))), parse);
  }

  lemma HistoryShape(messages: seq<Message>, calls: seq<ToolCall>, parse: Parser)
    ensures var history := messages + [AssistantToolCalls(calls)] + ToolPhase(calls, parse).replies;
      var n := |messages|;
      |history| == n + 1 + |calls| &&
      history[..n] == messages &&
      history[n] == AssistantToolCalls(calls) &&
      (forall k :: 0 <= k < |calls| ==>
        history[n + 1 + k].ToolReply? &&
        history[n + 1 + k].toolCallId == calls[k].id &&
        history[n + 1 + k].name == calls[k].name)
  {
    var replies := ToolPhase(calls, parse).replies;
    var history := messages + [AssistantToolCalls(calls)] + replies;
    var n := |messages|;
    assert history[..n] == messages;
    forall k | 0 <= k < |calls|
      ensures history[n + 1 + k] == replies[k]
    {
    }
  }

  /** After a round with tool calls the output is the first round's events, then a tool_result for
      each tool message that carries a payload, in history order, then the second round's text. */
  lemma ToolRoundEvents(messages: seq<Message>, upstream: Upstream, parse: Parser)
    requires Deltas(upstream(Request(messages, true))) != []
    ensures var run := Orchestrate(messages, upstream, parse);
      |run.requests| == 2 && |run.history| > |messages| &&
      run.events == FirstRoundEvents(upstream(Request(messages, true))) +
        ResultsOf(run.history[|messages| + 1..]) + TextEvents(upstream(run.requests[1]))
  {
    var round1 := upstream(Request(messages, true));
    EmptyIffNoDeltas(Deltas(round1));
    var calls := Values(Accumulate(Deltas(round1)));
    var phase := ToolPhase(calls, parse);
    ToolResultsMatchReplies(calls, parse);
    var history := messages + [AssistantToolCalls(calls)] + phase.replies;
    assert history[|messages| + 1..] == phase.replies;
  }

  /** There are never more than two upstream calls: the first sends the history as received and
      offers the tools, a second one sends the final history and does not. */
  lemma AtMostTwoRounds(messages: seq<Message>, upstream: Upstream, parse: Parser)
    ensures var run := Orchestrate(messages, upstream, parse);
      1 <= |run.requests| <= 2 &&
      run.requests[0] == Request(messages, true) &&
      (|run.requests| == 2 ==> !run.requests[1].offersTools && run.requests[1].history == run.history)
  {
  }

  /** Across the whole output, the tool_start events are those of the first round's deltas. */
  lemma RunToolStarts(messages: seq<Message>, upstream: Upstream, parse: Parser)
    ensures Starts(Orchestrate(messages, upstream, parse).events) == StartEvents(Deltas(upstream(Request(messages, true))))
  {
    var run := Orchestrate(messages, upstream, parse);
    var round1 := upstream(Request(messages, true));
    FirstRoundEventKinds(round1);
    if Accumulate(Deltas(round1)).order != [] {
      var calls := Values(Accumulate(Deltas(round1)));
      var phase := ToolPhase(calls, parse);
      var history := messages + [AssistantToolCalls(calls)] + phase.replies;
      var final := TextEvents(upstream(Request(history, false)));
      assert run.events == FirstRoundEvents(round1) + phase.events + final;
      ToolPhaseOnlyResults(calls, parse);
      FiltersOfThreeParts(FirstRoundEvents(round1), phase.events, final);
    }
  }

  /** Across the whole output, the text events are the first round's text, then the second round's. */
  lemma RunTexts(messages: seq<Message>, upstream: Upstream, parse: Parser)
    ensures var run := Orchestrate(messages, upstream, parse);
      Texts(run.events) == TextEvents(upstream(Request(messages, true))) +
        (if |run.requests| == 2 then TextEvents(upstream(run.requests[1])) else [])
  {
    var run := Orchestrate(messages, upstream, parse);
    var round1 := upstream(Request(messages, true));
    FirstRoundEventKinds(round1);
    if Accumulate(Deltas(round1)).order != [] {
      var calls := Values(Accumulate(Deltas(round1)));
      var phase := ToolPhase(calls, parse);
      var history := messages + [AssistantToolCalls(calls)] + phase.replies;
      var final := TextEvents(upstream(Request(history, false)));
      assert run.events == FirstRoundEvents(round1) + phase.events + final;
      assert run.requests[1] == Request(history, false);
      ToolPhaseOnlyResults(calls, parse);
      FiltersOfThreeParts(FirstRoundEvents(round1), phase.events, final);
    }
  }

  lemma FiltersOfThreeParts(a: seq<Event>, b: seq<Event>, c: seq<Event>)
    requires Starts(b) == [] && Texts(b) == []
    requires forall k :: 0 <= k < |c| ==> c[k].TextEvent?
    ensures Starts(a + b + c) == Starts(a) && Texts(a + b + c) == Texts(a) + c
  {
    var ab := a + b;
    FiltersDistribute(a, b);
    assert Starts(ab) == Starts(a) + [] == Starts(a);
    assert Texts(ab) == Texts(a) + [] == Texts(a);
    FiltersOfTexts(c);
    FiltersDistribute(ab, c);
    assert Starts(ab + c) == Starts(a) + [];
  }

  lemma ToolPhaseOnlyResults(calls: seq<ToolCall>, parse: Parser)
    ensures Starts(ToolPhase(calls, parse).events) == [] && Texts(ToolPhase(calls, parse).events) == []
  {
    ToolResultsMatchReplies(calls, parse);
    ResultsAreResults(ToolPhase(calls, parse).replies);
    FiltersOfResults(ToolPhase(calls, parse).events);
  }

  /** A first round made of one chunk carrying one delta with an id announces that call once, runs
      it, records the assistant message and its one tool message, and ends with the second round. */
  lemma SingleCallExchange(messages: seq<Message>, upstream: Upstream, parse: Parser, d: ToolDelta)
    requires upstream(Request(messages, true)) == [Chunk("", [d])]
    requires d.id != ""
    ensures var call := ToolCall(d.id, d.name, d.arguments);
      var x := ExecuteCall(call, parse);
      var history := messages + [AssistantToolCalls([call]), x.reply];
      var run := Orchestrate(messages, upstream, parse);
      run.history == history &&
      run.requests == [Request(messages, true), Request(history, false)] &&
      run.events == [ToolStart(d.id, StartName(d))] + (if x.result.Some? then [x.result.value] else []) +
        TextEvents(upstream(Request(history, false)))
  {
    var call := ToolCall(d.id, d.name, d.arguments);
    SingleDeltaRound(d);
    ToolPhaseSnoc([], call, parse);
    assert [call] == [] + [call];
    OrchestrateToolRound(messages, upstream, parse);
  }

  lemma SingleDeltaRound(d: ToolDelta)
    requires d.id != ""
    ensures Deltas([Chunk("", [d])]) == [d]
    ensures FirstRoundEvents([Chunk("", [d])]) == [ToolStart(d.id, StartName(d))]
    ensures Values(Accumulate([d])) == [ToolCall(d.id, d.name, d.arguments)]
  {
    assert [Chunk("", [d])] == [] + [Chunk("", [d])];
    RoundSnoc([], Chunk("", [d]));
    assert [d] == [] + [d];
    StartEventsSnoc([], d);
    SingleDeltaTable(d);
  }

  lemma SingleDeltaTable(d: ToolDelta)
    ensures Values(Accumulate([d])) == [ToolCall(d.id, d.name, d.arguments)]
  {
    assert [d] == [] + [d];
    AccumulateSnoc([], d);
    assert Extend(ToolCall("", "", ""), d) == ToolCall(d.id, d.name, d.arguments);
    assert Accumulate([d]) == Table(map[d.index := ToolCall(d.id, d.name, d.arguments)], [d.index]);
  }

  /** As written, an id split over two deltas of one call announces the call twice, each time with
      the fragment, while the accumulated id is the whole. */
  lemma SplitIdStartsTwice()
    ensures var cs := [
        Chunk("", [ToolDelta(0, "call_", "get_current_weather", "")]),
        Chunk("", [ToolDelta(0, "42", "", "{}")])
      ];
      FirstRoundEvents(cs) == [ToolStart("call_", "get_current_weather"), ToolStart("42", "unknown")] &&
      Accumulate(Deltas(cs)).calls[0].id == "call_42"
  {
    var d1, d2 := ToolDelta(0, "call_", "get_current_weather", ""), ToolDelta(0, "42", "", "{}");
    var cs := [Chunk("", [d1]), Chunk("", [d2])];
    assert cs == [Chunk("", [d1])] + [Chunk("", [d2])];
    RoundSnoc([Chunk("", [d1])], Chunk("", [d2]));
    RoundSnoc([], Chunk("", [d1]));
    assert [d1] == [] + [d1];
    StartEventsSnoc([], d1);
    StartEventsSnoc([], d2);
    assert Deltas(cs) == [d1] + [d2];
    AccumulateSnoc([d1], d2);
    AccumulateSnoc([], d1);
    assert Accumulate([d1]).calls[0] == ToolCall("call_", "get_current_weather", "");
  }

  /** A first round that asks for the weather at one location, with no other argument, yields the
      tool_start, the tool_result holding the lookup in celsius, then the second round's text. */
  lemma WeatherExchange(messages: seq<Message>, upstream: Upstream, parse: Parser, d: ToolDelta, location: string)
    requires upstream(Request(messages, true)) == [Chunk("", [d])]
    requires d.id != "" && d.name == WeatherTool
    requires parse(d.arguments) == Success(Json.Object([("location", Json.Str(location))]))
    ensures var run := Orchestrate(messages, upstream, parse);
      |run.requests| == 2 &&
      run.events == [
        ToolStart(d.id, WeatherTool),
        ToolResult(d.id, WeatherResult(Weather.GetCurrentWeather(location, Weather.DefaultUnit)))
      ] + TextEvents(upstream(run.requests[1]))
  {
    SingleCallExchange(messages, upstream, parse, d);
    WeatherCallResult(ToolCall(d.id, d.name, d.arguments), parse, location);
  }

  lemma WeatherCallResult(call: ToolCall, parse: Parser, location: string)
    requires call.name == WeatherTool
    requires parse(call.arguments) == Success(Json.Object([("location", Json.Str(location))]))
    ensures ExecuteCall(call, parse).result ==
      Some(ToolResult(call.id, WeatherResult(Weather.GetCurrentWeather(location, Weather.DefaultUnit))))
  {
    Weather.LocationOnly(location);
  }

}
