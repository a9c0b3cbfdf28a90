/** Responses sent back as conversation history, and concrete documents for messages and their deltas. */
module Reencoding {
  import opened Wrappers
  import opened Text
  import opened Json
  import opened LlmTypes
  import opened ResponseBody
  import opened RequestBody
  import opened StreamDecoder
  import opened StreamTheorems
  import opened StreamedWhole
  import opened Sse
  import Seqs

  /** A content list as it survives being sent back: one text block, then the tool calls. */
  function NormalForm(blocks: seq<ContentBlock>): seq<ContentBlock> {
    TextBlock(Join(BlockTexts(blocks))) + ToolsOf(blocks)
  }

  function NoThinking(blocks: seq<ContentBlock>): seq<ContentBlock> {
    if blocks == [] then [] else (if blocks[0].Thinking? then [] else [blocks[0]]) + NoThinking(blocks[1..])
  }

  /** A response document whose message is this wire message. */
  function AsResponse(wire: Json): Json {
    Obj(map["choices" := Arr([Obj(map["message" := wire])])])
  }

  /** The printed inputs of the tool calls parse to what they were. */
  predicate InputsReadBack(codec: Codec, blocks: seq<ContentBlock>) {
    forall i | 0 <= i < |blocks| && blocks[i].ToolUse? :: ParseOrEmpty(codec, codec.show(blocks[i].input)) == blocks[i].input
  }

  lemma HeadsAndTails<T>(x: T, a: seq<T>, y: T, b: seq<T>)
    ensures [x] + a == [y] + b <==> x == y && a == b
  {
    assert ([x] + a)[1..] == a && ([y] + b)[1..] == b;
  }

  lemma {:induction false} CallsReadBack(codec: Codec, blocks: seq<ContentBlock>)
    ensures ToToolUses(codec, CallsOf(ToolCalls(codec, blocks))) == ToolsOf(blocks) <==> InputsReadBack(codec, blocks)
  {
    if blocks != [] {
      var b := blocks[0];
      CallsReadBack(codec, blocks[1..]);
      FirstInput(codec, blocks);
      if b.ToolUse? {
        CallsHead(codec, blocks);
        HeadsAndTails(ToolUse(b.id, b.name, ParseOrEmpty(codec, codec.show(b.input))),
          ToToolUses(codec, CallsOf(ToolCalls(codec, blocks[1..]))), b, ToolsOf(blocks[1..]));
      } else {
        Seqs.Unit(ToolCalls(codec, blocks[1..]));
        Seqs.Unit(ToolsOf(blocks[1..]));
      }
    }
  }

  lemma FirstInput(codec: Codec, blocks: seq<ContentBlock>)
    requires blocks != []
    ensures InputsReadBack(codec, blocks) <==>
              && InputsReadBack(codec, blocks[1..])
              && (blocks[0].ToolUse? ==> ParseOrEmpty(codec, codec.show(blocks[0].input)) == blocks[0].input)
  {
    hide ParseOrEmpty;
    assert forall i | 1 <= i < |blocks| :: blocks[i] == blocks[1..][i - 1];
    assert forall i | 0 <= i < |blocks| - 1 :: blocks[1..][i] == blocks[i + 1];
  }

  lemma CallsHead(codec: Codec, blocks: seq<ContentBlock>)
    requires blocks != [] && blocks[0].ToolUse?
    ensures var b := blocks[0];
            ToToolUses(codec, CallsOf(ToolCalls(codec, blocks)))
            == [ToolUse(b.id, b.name, ParseOrEmpty(codec, codec.show(b.input)))] + ToToolUses(codec, CallsOf(ToolCalls(codec, blocks[1..])))
  {
    hide ParseOrEmpty;
    var b := blocks[0];
    var j, rest := ToolCall(codec, b.id, b.name, b.input), ToolCalls(codec, blocks[1..]);
    assert ([j] + rest)[1..] == rest;
    assert CallOf(j) == Call(b.id, b.name, codec.show(b.input));
    assert ([CallOf(j)] + CallsOf(rest))[1..] == CallsOf(rest);
  }

  /**
   Serializing any content list and reading it back as a response gives its normal form if and only if the inputs of
   its tool calls read back.
   */
  lemma ReencodingNormalizes(codec: Codec, blocks: seq<ContentBlock>)
    ensures Choice(AsResponse(AssistantMessage(codec, blocks))).Some?
    ensures ContentOf(codec, WholeOf(AsResponse(AssistantMessage(codec, blocks)))) == NormalForm(blocks)
            <==> InputsReadBack(codec, blocks)
  {
    var w := WholeOf(AsResponse(AssistantMessage(codec, blocks)));
    CallsReadBack(codec, blocks);
    SerializedParts(codec, blocks);
    SameHead(TextBlock(w.text), ToToolUses(codec, w.calls), ToolsOf(blocks));
    Seqs.Unit(TextBlock(w.text));
  }

  lemma SameHead<T>(a: seq<T>, b: seq<T>, c: seq<T>)
    ensures a + b == a + c <==> b == c
  {
    assert (a + b)[|a|..] == b && (a + c)[|a|..] == c;
  }

  lemma SerializedParts(codec: Codec, blocks: seq<ContentBlock>)
    ensures var json := AsResponse(AssistantMessage(codec, blocks));
            Choice(json).Some? && WholeOf(json).thinking == "" && WholeOf(json).text == Join(BlockTexts(blocks))
            && WholeOf(json).calls == CallsOf(ToolCalls(codec, blocks))
  {
    var m := AssistantMessage(codec, blocks);
    assert Choice(AsResponse(m)) == Some(Obj(map["message" := m]));
    assert At(Obj(map["message" := m]), "message") == m;
  }

  lemma {:induction false} NoThinkingAppend(a: seq<ContentBlock>, b: seq<ContentBlock>)
    ensures NoThinking(a + b) == NoThinking(a) + NoThinking(b)
  {
    if a == [] {
      Seqs.Unit(b);
      Seqs.Unit(NoThinking(b));
    } else {
      Seqs.TailOfSum(a, b);
      NoThinkingAppend(a[1..], b);
      Seqs.Assoc(if a[0].Thinking? then [] else [a[0]], NoThinking(a[1..]), NoThinking(b));
    }
  }

  lemma BlockTextsAppend(a: seq<ContentBlock>, b: seq<ContentBlock>)
    ensures BlockTexts(a + b) == BlockTexts(a) + BlockTexts(b)
    ensures NoThinking(a + b) == NoThinking(a) + NoThinking(b)
  {
    BlocksAppend(AnyCodec, a, b);
    NoThinkingAppend(a, b);
  }

  const AnyCodec := Codec((j: Json) => "", (t: string) => None)

  lemma {:induction false} ToolsOnly(blocks: seq<ContentBlock>)
    ensures OnlyTools(ToolsOf(blocks))
  {
    if blocks != [] {
      ToolsOnly(blocks[1..]);
    }
  }

  lemma {:induction false} ToolsHaveNoText(blocks: seq<ContentBlock>)
    requires OnlyTools(blocks)
    ensures BlockTexts(blocks) == [] && NoThinking(blocks) == blocks
  {
    if blocks != [] {
      ToolsHaveNoText(blocks[1..]);
      Seqs.HeadTail(blocks);
    }
  }

  /** One optional text block and tool calls are their own normal form. */
  lemma NormalFormOf(text: string, tools: seq<ContentBlock>)
    requires OnlyTools(tools)
    ensures NormalForm(TextBlock(text) + tools) == TextBlock(text) + tools
    ensures NoThinking(TextBlock(text) + tools) == TextBlock(text) + tools
  {
    var head := TextBlock(text);
    BlockTextsAppend(head, tools);
    ProjectionsAppend(head, tools);
    ToolsHaveNoText(tools);
    OnlyToolsAre(tools);
    Seqs.Unit(tools);
    if head != [] {
      assert head[1..] == [];
      assert BlockTexts(head) == [text] && ToolsOf(head) == [] && NoThinking(head) == head;
    }
    Seqs.Unit(BlockTexts(head));
  }

  lemma NormalFormIdempotent(blocks: seq<ContentBlock>)
    ensures NormalForm(NormalForm(blocks)) == NormalForm(blocks)
  {
    ToolsOnly(blocks);
    NormalFormOf(Join(BlockTexts(blocks)), ToolsOf(blocks));
  }

  lemma UsesAreTools(codec: Codec, calls: seq<Call>)
    ensures OnlyTools(ToToolUses(codec, calls))
  {
    UsesProject(codec, calls);
    ToolsOnly(ToToolUses(codec, calls));
  }

  /** On a parsed response the normal form only drops the thinking. */
  lemma NormalFormOfParsed(codec: Codec, w: Whole)
    ensures NormalForm(ContentOf(codec, w)) == NoThinking(ContentOf(codec, w))
    ensures NormalForm(ContentOf(codec, w)) == TextBlock(w.text) + ToToolUses(codec, w.calls)
  {
    var head := ThinkingBlock(w.thinking);
    var tail := TextBlock(w.text) + ToToolUses(codec, w.calls);
    UsesAreTools(codec, w.calls);
    NormalFormOf(w.text, ToToolUses(codec, w.calls));
    Seqs.Assoc(head, TextBlock(w.text), ToToolUses(codec, w.calls));
    BlockTextsAppend(head, tail);
    ProjectionsAppend(head, tail);
    if head != [] {
      assert head[1..] == [];
    }
    assert BlockTexts(head) == [] && ToolsOf(head) == [] && NoThinking(head) == [];
    Seqs.Unit(BlockTexts(tail));
    Seqs.Unit(ToolsOf(tail));
    Seqs.Unit(NoThinking(tail));
  }

  lemma {:induction false} CallsShown(codec: Codec, blocks: seq<ContentBlock>)
    ensures ToolCalls(codec, blocks) == ToolCalls(codec, ToolsOf(blocks))
  {
    if blocks != [] {
      var tools, rest := ToolsOf(blocks), ToolsOf(blocks[1..]);
      CallsShown(codec, blocks[1..]);
      Seqs.Unit(rest);
      Seqs.Unit(ToolCalls(codec, rest));
      if blocks[0].ToolUse? {
        assert tools[0] == blocks[0] && tools[1..] == rest;
      }
    }
  }

  /** The streamed and the whole response are the same history, however many tool calls there are. */
  lemma SameHistory(codec: Codec, w: Whole)
    ensures AssistantMessage(codec, StreamedContent(codec, w)) == AssistantMessage(codec, ContentOf(codec, w))
  {
    StreamedParts(codec, w);
    WholeParts(codec, w);
    CallsShown(codec, StreamedContent(codec, w));
    CallsShown(codec, ContentOf(codec, w));
    StreamedTexts(codec, w);
    ContentTexts(codec, w);
  }

  lemma PendingTexts(w: Whole)
    ensures BlockTexts(ThinkingBlock(w.thinking) + TextBlock(w.text)) == if w.text == "" then [] else [w.text]
  {
    BlockTextsAppend(ThinkingBlock(w.thinking), TextBlock(w.text));
  }

  lemma ContentTexts(codec: Codec, w: Whole)
    ensures BlockTexts(ContentOf(codec, w)) == if w.text == "" then [] else [w.text]
  {
    PendingTexts(w);
    UsesAreTools(codec, w.calls);
    ToolsHaveNoText(ToToolUses(codec, w.calls));
    BlockTextsAppend(ThinkingBlock(w.thinking) + TextBlock(w.text), ToToolUses(codec, w.calls));
  }

  lemma StreamedTexts(codec: Codec, w: Whole)
    ensures BlockTexts(StreamedContent(codec, w)) == if w.text == "" then [] else [w.text]
  {
    PendingTexts(w);
    if w.calls != [] {
      var n := |w.calls| - 1;
      var init := ToToolUses(codec, w.calls[..n]);
      var pending := ThinkingBlock(w.thinking) + TextBlock(w.text);
      UsesAreTools(codec, w.calls[..n]);
      ToolsHaveNoText(init);
      ToolsHaveNoText([ToToolUse(codec, w.calls[n])]);
      BlockTextsAppend(init, pending);
      BlockTextsAppend(init + pending, [ToToolUse(codec, w.calls[n])]);
    }
  }

  // ----- concrete documents ------------------------------------------------------------

  function OptionStr(s: Option<string>): Json {
    match s case None => Null case Some(t) => Str(t)
  }

  function CallJson(c: Call): Json {
    Obj(map["id" := Str(c.id), "function" := Obj(map["name" := Str(c.name), "arguments" := Str(c.args)])])
  }

  function CallJsons(cs: seq<Call>): seq<Json> {
    if cs == [] then [] else [CallJson(cs[0])] + CallJsons(cs[1..])
  }

  function OptionInt(n: Option<U64>): Json {
    match n case None => Null case Some(k) => Int(k)
  }

  function UsageJson(i: Option<U64>, o: Option<U64>): Json {
    Obj(map["prompt_tokens" := OptionInt(i), "completion_tokens" := OptionInt(o)])
  }

  /** A whole response as a provider sends it. */
  function WholeJson(w: Whole): Json {
    Obj(map[
      "choices" := Arr([Obj(map[
        "message" := Obj(map["reasoning_content" := Str(w.thinking), "content" := Str(w.text), "tool_calls" := Arr(CallJsons(w.calls))]),
        "finish_reason" := OptionStr(w.finish)])]),
      "usage" := UsageJson(w.inputTokens, w.outputTokens)])
  }

  function ToolDeltaJson(d: ToolDelta): Json {
    Obj(map["id" := OptionStr(d.id), "function" := Obj(map["name" := Str(d.name), "arguments" := OptionStr(d.args)])])
  }

  function ToolDeltaJsons(ds: seq<ToolDelta>): seq<Json> {
    if ds == [] then [] else [ToolDeltaJson(ds[0])] + ToolDeltaJsons(ds[1..])
  }

  /** One streamed delta as a provider sends it. */
  function FrameJson(f: Frame): Json {
    Obj(map[
      "choices" := Arr([Obj(map[
        "delta" := Obj(map["reasoning_content" := OptionStr(f.thinking), "content" := OptionStr(f.text), "tool_calls" := Arr(ToolDeltaJsons(f.tools))]),
        "finish_reason" := OptionStr(f.finish)])]),
      "usage" := UsageJson(f.inputTokens, f.outputTokens)])
  }

  function FrameJsons(fs: seq<Frame>): seq<Json> {
    if fs == [] then [] else [FrameJson(fs[0])] + FrameJsons(fs[1..])
  }

  lemma {:induction false} CallJsonsRead(cs: seq<Call>)
    ensures CallsOf(CallJsons(cs)) == cs
  {
    if cs != [] {
      CallJsonsRead(cs[1..]);
      assert ([CallJson(cs[0])] + CallJsons(cs[1..]))[1..] == CallJsons(cs[1..]);
      assert CallOf(CallJson(cs[0])) == cs[0];
      Seqs.HeadTail(cs);
    }
  }

  lemma WholeJsonRead(w: Whole)
    ensures Choice(WholeJson(w)).Some? && WholeOf(WholeJson(w)) == w
  {
    CallJsonsRead(w.calls);
    hide CallsOf, CallJsons;
    var message := Obj(map["reasoning_content" := Str(w.thinking), "content" := Str(w.text), "tool_calls" := Arr(CallJsons(w.calls))]);
    var choice := Obj(map["message" := message, "finish_reason" := OptionStr(w.finish)]);
    assert Choice(WholeJson(w)) == Some(choice);
    assert At(choice, "message") == message;
  }

  lemma {:induction false} ToolDeltaJsonsRead(ds: seq<ToolDelta>)
    ensures ToolDeltasOf(ToolDeltaJsons(ds)) == ds
  {
    if ds != [] {
      ToolDeltaJsonsRead(ds[1..]);
      assert ([ToolDeltaJson(ds[0])] + ToolDeltaJsons(ds[1..]))[1..] == ToolDeltaJsons(ds[1..]);
      assert ToolDeltaOf(ToolDeltaJson(ds[0])) == ds[0];
      Seqs.HeadTail(ds);
    }
  }

  lemma FrameJsonRead(f: Frame)
    ensures FrameOf(FrameJson(f)) == f
  {
    ToolDeltaJsonsRead(f.tools);
  }

  lemma {:induction false} FrameJsonsRead(fs: seq<Frame>)
    ensures FramesOf(FrameJsons(fs)) == fs
  {
    if fs != [] {
      FrameJsonRead(fs[0]);
      FrameJsonsRead(fs[1..]);
      assert ([FrameJson(fs[0])] + FrameJsons(fs[1..]))[1..] == FrameJsons(fs[1..]);
      Seqs.HeadTail(fs);
    }
  }

  /**
   For every well-cut list of deltas, printed as documents and streamed in any chunking, the result is the
   response parsed from the whole message, up to where the last call stands; sent back, both are the same message.
   */
  lemma AnyCutStreamsTheWhole(codec: Codec, fs: seq<Frame>, es: seq<SseEvent>, last: SseEvent, chunks: seq<string>)
    requires EndIsNoJson(codec)
    requires WellCutAll(false, GatherTools(fs))
    requires Carries(codec, es, FrameJsons(fs)) && last.data == "[DONE]"
    requires forall e | e in es + [last] :: Printable(e)
    requires Concat(chunks) == PrintAll(es + [last])
    ensures var streamed := Response(ChunkSteps(codec, Empty, "", chunks));
            var direct := ResponseOf(codec, WholeOf(WholeJson(Gather(fs))));
            && SameResponse(codec, Gather(fs), streamed, direct)
            && AssistantMessage(codec, streamed.content) == AssistantMessage(codec, direct.content)
  {
    FrameJsonsRead(fs);
    WholeJsonRead(Gather(fs));
    StreamedEqualsWhole(codec, FrameJsons(fs), WholeJson(Gather(fs)), es, last, chunks);
    SameHistory(codec, Gather(fs));
  }
}
