/** `parse_response_body` of src/llm/openai.rs: a whole response read at once. */
module ResponseBody {
  import opened Wrappers
  import opened Json
  import opened LlmTypes
  import Seqs

  /** A tool call as it is spelled on the wire: the input is still text. */
  datatype Call = Call(id: string, name: string, args: string)

  function CallOf(tc: Json): Call {
    Call(
      AsStr(At(tc, "id")).GetOr(""),
      AsStr(At(At(tc, "function"), "name")).GetOr(""),
      AsStr(At(At(tc, "function"), "arguments")).GetOr("{}"))
  }

  function CallsOf(tcs: seq<Json>): seq<Call> {
    if tcs == [] then [] else [CallOf(tcs[0])] + CallsOf(tcs[1..])
  }

  function ToToolUse(codec: Codec, call: Call): ContentBlock {
    ToolUse(call.id, call.name, ParseOrEmpty(codec, call.args))
  }

  function ToToolUses(codec: Codec, calls: seq<Call>): seq<ContentBlock> {
    if calls == [] then [] else [ToToolUse(codec, calls[0])] + ToToolUses(codec, calls[1..])
  }

  lemma {:induction false} ToolUsesAppend(codec: Codec, a: seq<Call>, b: seq<Call>)
    ensures ToToolUses(codec, a + b) == ToToolUses(codec, a) + ToToolUses(codec, b)
  {
    if a == [] {
      Seqs.Unit(b);
      Seqs.Unit(ToToolUses(codec, b));
    } else {
      Seqs.TailOfSum(a, b);
      ToolUsesAppend(codec, a[1..], b);
      Seqs.Assoc([ToToolUse(codec, a[0])], ToToolUses(codec, a[1..]), ToToolUses(codec, b));
    }
  }

  function ThinkingBlock(thinking: string): seq<ContentBlock> {
    if thinking == "" then [] else [Thinking(thinking)]
  }

  function TextBlock(text: string): seq<ContentBlock> {
    if text == "" then [] else [Text(text)]
  }

  /** The parts of a response document that are read, in the order of the content list. */
  datatype Whole = Whole(thinking: string, text: string, calls: seq<Call>, finish: Option<string>,
    inputTokens: Option<U64>, outputTokens: Option<U64>)

  function Choice(json: Json): Option<Json> {
    GetItem(At(json, "choices"), 0)
  }

  function WholeOf(json: Json): Whole {
    var choice := Choice(json).GetOr(Null);
    var message := At(choice, "message");
    Whole(
      AsStr(At(message, "reasoning_content")).GetOr(""),
      AsStr(At(message, "content")).GetOr(""),
      CallsOf(AsArr(At(message, "tool_calls")).GetOr([])),
      AsStr(At(choice, "finish_reason")),
      AsU64(At(At(json, "usage"), "prompt_tokens")),
      AsU64(At(At(json, "usage"), "completion_tokens")))
  }

  function ContentOf(codec: Codec, w: Whole): seq<ContentBlock> {
    ThinkingBlock(w.thinking) + TextBlock(w.text) + ToToolUses(codec, w.calls)
  }

  function ResponseOf(codec: Codec, w: Whole): CompletionResponse {
    CompletionResponse(
      ContentOf(codec, w),
      ParseFinishReason(w.finish.GetOr("stop")),
      Usage(ToU32(w.inputTokens.GetOr(0)), ToU32(w.outputTokens.GetOr(0))))
  }

  /** The response is thinking, text, then every tool call; without a choice it is an error. */
  method ParseResponseBody(codec: Codec, json: Json) returns (r: Result<CompletionResponse, LlmError>)
    ensures Choice(json).None? ==> r == Err(StreamError("No choices in response"))
    ensures Choice(json).Some? ==> r == Ok(ResponseOf(codec, WholeOf(json)))
  {
    var first := GetItem(At(json, "choices"), 0);
    if first.None? {
      return Err(StreamError("No choices in response"));
    }
    var choice := first.value;
    var message := At(choice, "message");
    var content: seq<ContentBlock> := [];
    var reasoning := AsStr(At(message, "reasoning_content"));
    if reasoning.Some? && reasoning.value != "" {
      content := content + [Thinking(reasoning.value)];
    }
    var text := AsStr(At(message, "content"));
    if text.Some? && text.value != "" {
      content := content + [Text(text.value)];
    }
    ghost var before := content;
    assert before == ThinkingBlock(reasoning.GetOr("")) + TextBlock(text.GetOr(""));
    var toolCalls := AsArr(At(message, "tool_calls"));
    Seqs.Unit(before);
    if toolCalls.Some? {
      var tcs := toolCalls.value;
      var i := 0;
      while i < |tcs|
        invariant 0 <= i <= |tcs|
        invariant content + ToToolUses(codec, CallsOf(tcs[i..])) == before + ToToolUses(codec, CallsOf(tcs))
      {
        var tc := tcs[i];
        assert tcs[i..][0] == tc && tcs[i..][1..] == tcs[i + 1..];
        var id := AsStr(At(tc, "id")).GetOr("");
        var name := AsStr(At(At(tc, "function"), "name")).GetOr("");
        var arguments := AsStr(At(At(tc, "function"), "arguments")).GetOr("{}");
        var input := ParseOrEmpty(codec, arguments);
        Seqs.Assoc(content, [ToolUse(id, name, input)], ToToolUses(codec, CallsOf(tcs[i + 1..])));
        content := content + [ToolUse(id, name, input)];
        i := i + 1;
      }
      assert tcs[i..] == [];
      Seqs.Unit(content);
    }
    var finishReason := AsStr(At(choice, "finish_reason")).GetOr("stop");
    var stopReason := ParseFinishReason(finishReason);
    var usage := Usage(
      ToU32(AsU64(At(At(json, "usage"), "prompt_tokens")).GetOr(0)),
      ToU32(AsU64(At(At(json, "usage"), "completion_tokens")).GetOr(0)));
    return Ok(CompletionResponse(content, stopReason, usage));
  }

  // ----- stop reasons, counts and defaults ---------------------------------------------

  /** What a finish reason means. */
  predicate Means(text: string, reason: StopReason) {
    && (text == "stop" ==> reason == EndTurn)
    && (text == "length" ==> reason == MaxTokens)
    && (text == "tool_calls" ==> reason == ToolUseStop)
    && (text != "stop" && text != "length" && text != "tool_calls" ==> reason == Other(text))
  }

  /** A count is returned as it is where it fits 32 bits, and truncated otherwise. */
  predicate Counted(n: U64, count: U32) {
    (n < 0x1_0000_0000 ==> count == n) && (n - count) % 0x1_0000_0000 == 0
  }

  lemma ReasonMeans(text: string)
    ensures Means(text, ParseFinishReason(text))
  {
  }

  lemma CountsFit(n: U64)
    ensures Counted(n, ToU32(n))
  {
  }

  /** The stop reason and the counts of a response, spelled out by its document; absent ones have defaults. */
  lemma MetaRead(codec: Codec, json: Json)
    requires Choice(json).Some?
    ensures var choice, x := Choice(json).value, ResponseOf(codec, WholeOf(json));
            && (forall t | At(choice, "finish_reason") == Str(t) :: Means(t, x.stopReason))
            && (!At(choice, "finish_reason").Str? ==> x.stopReason == EndTurn)
    ensures var usage, x := At(json, "usage"), ResponseOf(codec, WholeOf(json));
            && (forall n: U64 | At(usage, "prompt_tokens") == Int(n) :: Counted(n, x.usage.inputTokens))
            && (forall n: U64 | At(usage, "completion_tokens") == Int(n) :: Counted(n, x.usage.outputTokens))
            && (AsU64(At(usage, "prompt_tokens")).None? ==> x.usage.inputTokens == 0)
            && (AsU64(At(usage, "completion_tokens")).None? ==> x.usage.outputTokens == 0)
  {
    hide Means, Counted, ParseFinishReason, ToU32, ContentOf, CallsOf;
    var choice, usage := Choice(json).value, At(json, "usage");
    var reason := AsStr(At(choice, "finish_reason")).GetOr("stop");
    ReasonMeans(reason);
    StopIsEnd();
    CountsFit(AsU64(At(usage, "prompt_tokens")).GetOr(0));
    CountsFit(AsU64(At(usage, "completion_tokens")).GetOr(0));
    ZeroCount();
  }

  lemma StopIsEnd()
    ensures ParseFinishReason("stop") == EndTurn
  {
  }

  lemma ZeroCount()
    ensures ToU32(0) == 0
  {
  }

  /** The order of a response's content: thinking and text where there is any, then one block per tool call. */
  lemma ContentOrder(codec: Codec, w: Whole)
    ensures var rest := if w.text == "" then [] else [Text(w.text)];
            ContentOf(codec, w) == (if w.thinking == "" then rest else [Thinking(w.thinking)] + rest) + ToToolUses(codec, w.calls)
    ensures |ToToolUses(codec, w.calls)| == |w.calls|
    ensures forall i | 0 <= i < |w.calls| :: ToToolUses(codec, w.calls)[i] == ToToolUse(codec, w.calls[i])
  {
    Seqs.Unit(TextBlock(w.text));
    UsesByCall(codec, w.calls);
  }

  lemma {:induction false} UsesByCall(codec: Codec, calls: seq<Call>)
    ensures |ToToolUses(codec, calls)| == |calls|
    ensures forall i | 0 <= i < |calls| :: ToToolUses(codec, calls)[i] == ToToolUse(codec, calls[i])
  {
    hide ToToolUse;
    if calls != [] {
      UsesByCall(codec, calls[1..]);
      assert forall i | 1 <= i < |calls| :: calls[i] == calls[1..][i - 1];
    }
  }

  /** A tool call of a response: absent texts are empty, and arguments that are absent or no JSON give an empty object. */
  lemma CallRead(codec: Codec, tc: Json)
    ensures var b := ToToolUse(codec, CallOf(tc));
            && b.ToolUse?
            && (forall t | At(tc, "id") == Str(t) :: b.id == t) && (!At(tc, "id").Str? ==> b.id == "")
            && (forall t | At(At(tc, "function"), "name") == Str(t) :: b.name == t)
            && (!At(At(tc, "function"), "name").Str? ==> b.name == "")
            && (forall t, j | At(At(tc, "function"), "arguments") == Str(t) && codec.parse(t) == Some(j) :: b.input == j)
            && (forall t | At(At(tc, "function"), "arguments") == Str(t) && codec.parse(t) == None :: b.input == Obj(map[]))
            && (!At(At(tc, "function"), "arguments").Str? && codec.parse("{}") == Some(Obj(map[])) ==> b.input == Obj(map[]))
  {
  }
}
