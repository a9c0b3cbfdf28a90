/** `complete_stream` of src/llm/openai.rs: rebuilding a response from streamed deltas. */
module StreamDecoder {
  import opened Wrappers
  import opened Json
  import opened LlmTypes
  import opened ResponseBody
  import opened Sse
  import Seqs

  // ----- one streamed document ---------------------------------------------------------

  /** One element of `delta.tool_calls`. */
  datatype ToolDelta = ToolDelta(id: Option<string>, name: string, args: Option<string>)

  function ToolDeltaOf(tc: Json): ToolDelta {
    ToolDelta(
      AsStr(At(tc, "id")),
      AsStr(At(At(tc, "function"), "name")).GetOr(""),
      AsStr(At(At(tc, "function"), "arguments")))
  }

  function ToolDeltasOf(tcs: seq<Json>): seq<ToolDelta> {
    if tcs == [] then [] else [ToolDeltaOf(tcs[0])] + ToolDeltasOf(tcs[1..])
  }

  /** The parts of a streamed document that are read. */
  datatype Frame = Frame(finish: Option<string>, inputTokens: Option<U64>, outputTokens: Option<U64>,
    thinking: Option<string>, text: Option<string>, tools: seq<ToolDelta>)

  function Delta(j: Json): Json {
    At(Item(At(j, "choices"), 0), "delta")
  }

  function FrameOf(j: Json): Frame {
    var usage := Get(j, "usage").GetOr(Null);
    Frame(
      AsStr(At(Item(At(j, "choices"), 0), "finish_reason")),
      AsU64(At(usage, "prompt_tokens")),
      AsU64(At(usage, "completion_tokens")),
      AsStr(At(Delta(j), "reasoning_content")),
      AsStr(At(Delta(j), "content")),
      ToolDeltasOf(AsArr(At(Delta(j), "tool_calls")).GetOr([])))
  }

  // ----- the accumulator ---------------------------------------------------------------

  /** The variables of the loop, and the events sent so far. */
  datatype Acc = Acc(
    blocks: seq<ContentBlock>,
    thinking: string,
    text: string,
    tool: Call,
    stopReason: StopReason,
    usage: Usage,
    sent: seq<StreamEvent>)

  const NoTool := Call("", "", "")
  const Empty := Acc([], "", "", NoTool, EndTurn, Usage(0, 0), [])

  function FlushTool(codec: Codec, a: Acc): Acc {
    if a.tool.id == "" then a else a.(blocks := a.blocks + [ToToolUse(codec, a.tool)], tool := NoTool)
  }

  function FlushText(a: Acc): Acc {
    a.(blocks := a.blocks + ThinkingBlock(a.thinking) + TextBlock(a.text), thinking := "", text := "")
  }

  /** What `[DONE]` does. */
  function Finish(codec: Codec, a: Acc): Acc {
    var b := FlushTool(codec, FlushText(a));
    b.(sent := b.sent + [Done])
  }

  function OpenTool(codec: Codec, a: Acc, d: ToolDelta): Acc {
    match d.id
    case None => a
    case Some(id) =>
      var b := FlushTool(codec, a);
      b.(tool := b.tool.(id := id, name := d.name), sent := b.sent + [ToolStart(id, d.name)])
  }

  function AddArgs(a: Acc, d: ToolDelta): Acc {
    match d.args
    case None => a
    case Some(args) =>
      a.(tool := a.tool.(args := a.tool.args + args), sent := a.sent + [ToolInputDelta(a.tool.id, args)])
  }

  function ToolStep(codec: Codec, a: Acc, d: ToolDelta): Acc {
    AddArgs(OpenTool(codec, a, d), d)
  }

  function ToolSteps(codec: Codec, a: Acc, ds: seq<ToolDelta>): Acc
    decreases |ds|
  {
    if ds == [] then a else ToolSteps(codec, ToolStep(codec, a, ds[0]), ds[1..])
  }

  function MetaStep(a: Acc, f: Frame): Acc {
    a.(stopReason := if f.finish.Some? then ParseFinishReason(f.finish.value) else a.stopReason,
       usage := Usage(
         if f.inputTokens.Some? then ToU32(f.inputTokens.value) else a.usage.inputTokens,
         if f.outputTokens.Some? then ToU32(f.outputTokens.value) else a.usage.outputTokens))
  }

  function TextStep(a: Acc, f: Frame): Acc {
    var b := if f.thinking.None? then a
             else a.(thinking := a.thinking + f.thinking.value, sent := a.sent + [ThinkingDelta(f.thinking.value)]);
    if f.text.None? then b else b.(text := b.text + f.text.value, sent := b.sent + [TextDelta(f.text.value)])
  }

  function FrameStep(codec: Codec, a: Acc, f: Frame): Acc {
    ToolSteps(codec, TextStep(MetaStep(a, f), f), f.tools)
  }

  function DataStep(codec: Codec, a: Acc, data: string): Acc {
    match codec.parse(data)
    case None => a
    case Some(j) => FrameStep(codec, a, FrameOf(j))
  }

  /** The events of one chunk: `[DONE]` leaves the inner loop and drops the rest of the chunk. */
  function ChunkStep(codec: Codec, a: Acc, es: seq<SseEvent>): Acc
    decreases |es|
  {
    if es == [] then a
    else if es[0].data == "[DONE]" then Finish(codec, a)
    else ChunkStep(codec, DataStep(codec, a, es[0].data), es[1..])
  }

  function ChunkSteps(codec: Codec, a: Acc, buffer: string, chunks: seq<string>): Acc
    decreases |chunks|
  {
    if chunks == [] then a
    else
      var d := Drain(buffer + chunks[0]);
      ChunkSteps(codec, ChunkStep(codec, a, d.events), d.rest, chunks[1..])
  }

  function Response(a: Acc): CompletionResponse {
    CompletionResponse(a.blocks, a.stopReason, a.usage)
  }

  // ----- the method --------------------------------------------------------------------

  /** The reply to the request: the transport can fail at once, or later between two chunks. */
  datatype Reply =
    | NoReply(error: string)
    | Status(status: nat, retryAfter: Option<nat>, body: string, chunks: seq<Result<string, string>>)

  function Received(chunks: seq<Result<string, string>>): seq<string> {
    if chunks == [] || chunks[0].Err? then [] else [chunks[0].value] + Received(chunks[1..])
  }

  function FirstError(chunks: seq<Result<string, string>>): Option<string> {
    if chunks == [] then None else if chunks[0].Err? then Some(chunks[0].error) else FirstError(chunks[1..])
  }

  predicate IsSuccess(status: nat) {
    200 <= status < 300
  }

  /** What is received are the chunks before the first transport error, and that error is the one there is. */
  lemma {:induction false} ReceivedExactly(chunks: seq<Result<string, string>>)
    ensures var k := |Received(chunks)|;
            && k <= |chunks|
            && (forall i | 0 <= i < k :: chunks[i] == Ok(Received(chunks)[i]))
            && (k < |chunks| ==> chunks[k].Err? && FirstError(chunks) == Some(chunks[k].error))
            && (k == |chunks| ==> FirstError(chunks) == None)
  {
    if chunks != [] && chunks[0].Ok? {
      ReceivedExactly(chunks[1..]);
      var rest := Received(chunks[1..]);
      assert forall i | 1 <= i <= |rest| :: chunks[i] == chunks[1..][i - 1] && Received(chunks)[i] == rest[i - 1];
    }
  }

  /** The reply is read to its end exactly when no chunk is an error; otherwise up to the first one. */
  lemma StopsAtFirstError(chunks: seq<Result<string, string>>)
    ensures FirstError(chunks).None? <==> forall i | 0 <= i < |chunks| :: chunks[i].Ok?
    ensures forall i | 0 <= i < |chunks| && chunks[i].Err? && (forall j | 0 <= j < i :: chunks[j].Ok?) ::
              FirstError(chunks) == Some(chunks[i].error) && |Received(chunks)| == i
  {
    ReceivedExactly(chunks);
    var k := |Received(chunks)|;
    assert forall i | 0 <= i < k :: chunks[i].Ok?;
  }

  /**
   Errors by transport and status, and otherwise all that the chunks up to the first transport error make the
   accumulator send; the response is returned exactly when there is no such error.
   */
  method CompleteStream(codec: Codec, reply: Reply) returns (r: Result<CompletionResponse, LlmError>, sent: seq<StreamEvent>)
    ensures reply.NoReply? ==> r == Err(Http(reply.error)) && sent == []
    ensures reply.Status? && reply.status == 429 ==> r == Err(RateLimited(reply.retryAfter)) && sent == []
    ensures reply.Status? && reply.status != 429 && !(200 <= reply.status < 300) ==>
              r == Err(Api(reply.status, reply.body)) && sent == []
    ensures reply.Status? && 200 <= reply.status < 300 ==>
              var a := ChunkSteps(codec, Empty, "", Received(reply.chunks));
              && sent == a.sent
              && (r.Ok? <==> forall i | 0 <= i < |reply.chunks| :: reply.chunks[i].Ok?)
              && (r.Ok? ==> r.value == CompletionResponse(a.blocks, a.stopReason, a.usage))
              && forall i | 0 <= i < |reply.chunks| && reply.chunks[i].Err? && (forall j | 0 <= j < i :: reply.chunks[j].Ok?) ::
                   r == Err(Http(reply.chunks[i].error)) && |Received(reply.chunks)| == i
  {
    sent := [];
    if reply.NoReply? {
      return Err(Http(reply.error)), sent;
    }
    if reply.status == 429 {
      return Err(RateLimited(reply.retryAfter)), sent;
    }
    if !IsSuccess(reply.status) {
      return Err(Api(reply.status, reply.body)), sent;
    }
    var parser := new SseParser();
    var blocks: seq<ContentBlock> := [];
    var thinking, text := "", "";
    var tool := NoTool;
    var stopReason := EndTurn;
    var usage := Usage(0, 0);
    var chunks := reply.chunks;
    StopsAtFirstError(chunks);
    var i := 0;
    while i < |chunks|
      invariant 0 <= i <= |chunks|
      invariant fresh(parser)
      invariant ChunkSteps(codec, Acc(blocks, thinking, text, tool, stopReason, usage, sent), parser.buffer, Received(chunks[i..]))
                == ChunkSteps(codec, Empty, "", Received(chunks))
      invariant FirstError(chunks[i..]) == FirstError(chunks)
    {
      assert chunks[i..][0] == chunks[i] && chunks[i..][1..] == chunks[i + 1..];
      if chunks[i].Err? {
        return Err(Http(chunks[i].error)), sent;
      }
      var events := parser.Feed(chunks[i].value);
      ghost var start := Acc(blocks, thinking, text, tool, stopReason, usage, sent);
      blocks, thinking, text, tool, stopReason, usage, sent :=
        HandleEvents(codec, events, blocks, thinking, text, tool, stopReason, usage, sent);
      i := i + 1;
    }
    assert chunks[i..] == [];
    return Ok(CompletionResponse(blocks, stopReason, usage)), sent;
  }

  /** The loop over the events of one chunk. */
  method HandleEvents(codec: Codec, events: seq<SseEvent>, blocks0: seq<ContentBlock>, thinking0: string, text0: string,
      tool0: Call, stopReason0: StopReason, usage0: Usage, sent0: seq<StreamEvent>)
    returns (blocks: seq<ContentBlock>, thinking: string, text: string, tool: Call, stopReason: StopReason, usage: Usage,
      sent: seq<StreamEvent>)
    ensures Acc(blocks, thinking, text, tool, stopReason, usage, sent)
            == ChunkStep(codec, Acc(blocks0, thinking0, text0, tool0, stopReason0, usage0, sent0), events)
  {
    blocks, thinking, text, tool, stopReason, usage, sent := blocks0, thinking0, text0, tool0, stopReason0, usage0, sent0;
    ghost var total := ChunkStep(codec, Acc(blocks0, thinking0, text0, tool0, stopReason0, usage0, sent0), events);
    var k := 0;
    while k < |events|
      invariant 0 <= k <= |events|
      invariant ChunkStep(codec, Acc(blocks, thinking, text, tool, stopReason, usage, sent), events[k..]) == total
    {
      var event := events[k];
      ghost var a := Acc(blocks, thinking, text, tool, stopReason, usage, sent);
      assert events[k..][0] == event && events[k..][1..] == events[k + 1..];
      k := k + 1;
      if event.data == "[DONE]" {
        Seqs.Unit(blocks);
        if thinking != "" {
          blocks := blocks + [Thinking(thinking)];
          thinking := "";
        }
        Seqs.Unit(blocks);
        if text != "" {
          blocks := blocks + [Text(text)];
          text := "";
        }
        assert Acc(blocks, thinking, text, tool, stopReason, usage, sent) == FlushText(a);
        if tool.id != "" {
          var input := ParseOrEmpty(codec, tool.args);
          blocks := blocks + [ToolUse(tool.id, tool.name, input)];
          tool := NoTool;
        }
        sent := sent + [Done];
        return;
      }
      var parsed := codec.parse(event.data);
      if parsed.None? {
        continue;
      }
      var data := parsed.value;
      var reason := AsStr(At(Item(At(data, "choices"), 0), "finish_reason"));
      if reason.Some? {
        stopReason := ParseFinishReason(reason.value);
      }
      var u := Get(data, "usage");
      if u.Some? {
        var pt := AsU64(At(u.value, "prompt_tokens"));
        if pt.Some? {
          usage := usage.(inputTokens := ToU32(pt.value));
        }
        var ct := AsU64(At(u.value, "completion_tokens"));
        if ct.Some? {
          usage := usage.(outputTokens := ToU32(ct.value));
        }
      }
      assert Acc(blocks, thinking, text, tool, stopReason, usage, sent) == MetaStep(a, FrameOf(data));
      var delta := At(Item(At(data, "choices"), 0), "delta");
      var reasoning := AsStr(At(delta, "reasoning_content"));
      if reasoning.Some? {
        thinking := thinking + reasoning.value;
        sent := sent + [ThinkingDelta(reasoning.value)];
      }
      var content := AsStr(At(delta, "content"));
      if content.Some? {
        text := text + content.value;
        sent := sent + [TextDelta(content.value)];
      }
      var toolCalls := AsArr(At(delta, "tool_calls"));
      if toolCalls.Some? {
        blocks, tool, sent := HandleToolCalls(codec, toolCalls.value, blocks, tool, sent,
          Acc(blocks, thinking, text, tool, stopReason, usage, sent));
      }
    }
    assert events[k..] == [];
  }

  /** The loop over `delta.tool_calls`. */
  method HandleToolCalls(codec: Codec, tcs: seq<Json>, blocks0: seq<ContentBlock>, tool0: Call, sent0: seq<StreamEvent>,
      ghost a: Acc)
    returns (blocks: seq<ContentBlock>, tool: Call, sent: seq<StreamEvent>)
    requires a.blocks == blocks0 && a.tool == tool0 && a.sent == sent0
    ensures a.(blocks := blocks, tool := tool, sent := sent) == ToolSteps(codec, a, ToolDeltasOf(tcs))
  {
    blocks, tool, sent := blocks0, tool0, sent0;
    var k := 0;
    while k < |tcs|
      invariant 0 <= k <= |tcs|
      invariant ToolSteps(codec, a.(blocks := blocks, tool := tool, sent := sent), ToolDeltasOf(tcs[k..]))
                == ToolSteps(codec, a, ToolDeltasOf(tcs))
    {
      var tc := tcs[k];
      assert tcs[k..][0] == tc && tcs[k..][1..] == tcs[k + 1..];
      var id := AsStr(At(tc, "id"));
      if id.Some? {
        if tool.id != "" {
          var input := ParseOrEmpty(codec, tool.args);
          blocks := blocks + [ToolUse(tool.id, tool.name, input)];
          tool := NoTool;
        }
        tool := tool.(id := id.value, name := AsStr(At(At(tc, "function"), "name")).GetOr(""));
        sent := sent + [ToolStart(tool.id, tool.name)];
      }
      var args := AsStr(At(At(tc, "function"), "arguments"));
      if args.Some? {
        tool := tool.(args := tool.args + args.value);
        sent := sent + [ToolInputDelta(tool.id, args.value)];
      }
      k := k + 1;
    }
    assert tcs[k..] == [];
  }

  // ----- what a document sends ---------------------------------------------------------

  /** A document sends its thinking, then its text, then the events of its tool-call deltas. */
  lemma SendsInOrder(codec: Codec, a: Acc, f: Frame)
    requires f.tools == []
    ensures FrameStep(codec, a, f).sent ==
              a.sent + (match f.thinking case None => [] case Some(t) => [ThinkingDelta(t)])
                     + (match f.text case None => [] case Some(t) => [TextDelta(t)])
  {
    Seqs.Unit(a.sent);
    Seqs.Unit(a.sent + match f.thinking case None => [] case Some(t) => [ThinkingDelta(t)]);
  }

  /** A delta announces the call it opens and then its fragment, under the id of the call that is open then. */
  lemma DeltaSends(codec: Codec, a: Acc, d: ToolDelta)
    ensures ToolStep(codec, a, d).sent ==
              a.sent + (match d.id case None => [] case Some(id) => [ToolStart(id, d.name)])
                     + (match d.args case None => [] case Some(args) => [ToolInputDelta(d.id.GetOr(a.tool.id), args)])
  {
    Seqs.Unit(a.sent);
    Seqs.Unit(a.sent + match d.id case None => [] case Some(id) => [ToolStart(id, d.name)]);
  }

  /** The end marker flushes thinking, then text, then the open call, where there is any, and keeps nothing of them. */
  lemma EndFlushes(codec: Codec, a: Acc)
    ensures var b := Finish(codec, a);
            && b.blocks == a.blocks + (if a.thinking == "" then [] else [Thinking(a.thinking)])
                         + (if a.text == "" then [] else [Text(a.text)])
                         + (if a.tool.id == "" then [] else [ToToolUse(codec, a.tool)])
            && b.thinking == "" && b.text == "" && b.tool.id == ""
            && b.stopReason == a.stopReason && b.usage == a.usage
  {
    Seqs.Unit(FlushText(a).blocks);
  }

  /** The end marker is announced, after everything else, and nothing else is. */
  lemma EndSends(codec: Codec, a: Acc)
    ensures Finish(codec, a).sent == a.sent + [Done]
  {
  }
}
