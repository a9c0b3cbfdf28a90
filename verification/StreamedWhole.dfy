/** A message streamed in pieces against the same message sent whole. */
module StreamedWhole {
  import opened Wrappers
  import opened Text
  import opened Json
  import opened LlmTypes
  import opened ResponseBody
  import opened StreamDecoder
  import opened StreamTheorems
  import opened Sse
  import Seqs

  // ----- gathering the pieces ----------------------------------------------------------

  function FramesOf(js: seq<Json>): seq<Frame> {
    if js == [] then [] else [FrameOf(js[0])] + FramesOf(js[1..])
  }

  function Later<T>(first: Option<T>, later: Option<T>): Option<T> {
    if later.Some? then later else first
  }

  /** The message that a list of frames is a cut of. */
  function Gather(fs: seq<Frame>): Whole {
    Whole(GatherThinking(fs), GatherText(fs), CutCalls([], GatherTools(fs)),
      LastFinish(fs), LastInput(fs), LastOutput(fs))
  }

  function GatherThinking(fs: seq<Frame>): string {
    if fs == [] then "" else fs[0].thinking.GetOr("") + GatherThinking(fs[1..])
  }

  function GatherText(fs: seq<Frame>): string {
    if fs == [] then "" else fs[0].text.GetOr("") + GatherText(fs[1..])
  }

  function GatherTools(fs: seq<Frame>): seq<ToolDelta> {
    if fs == [] then [] else fs[0].tools + GatherTools(fs[1..])
  }

  function LastFinish(fs: seq<Frame>): Option<string> {
    if fs == [] then None else Later(fs[0].finish, LastFinish(fs[1..]))
  }

  function LastInput(fs: seq<Frame>): Option<U64> {
    if fs == [] then None else Later(fs[0].inputTokens, LastInput(fs[1..]))
  }

  function LastOutput(fs: seq<Frame>): Option<U64> {
    if fs == [] then None else Later(fs[0].outputTokens, LastOutput(fs[1..]))
  }

  // ----- running over frames -----------------------------------------------------------

  function RunFrames(codec: Codec, a: Acc, fs: seq<Frame>): Acc
    decreases |fs|
  {
    if fs == [] then a else RunFrames(codec, FrameStep(codec, a, fs[0]), fs[1..])
  }

  lemma {:induction false} ToolStepsFrame(codec: Codec, a: Acc, ds: seq<ToolDelta>)
    ensures var r := ToolSteps(codec, a, ds);
            r.thinking == a.thinking && r.text == a.text && r.stopReason == a.stopReason && r.usage == a.usage
    decreases |ds|
  {
    if ds != [] {
      ToolStepsFrame(codec, ToolStep(codec, a, ds[0]), ds[1..]);
    }
  }

  /** Thinking, text, stop reason and usage of a run. */
  lemma {:induction false} FramesText(codec: Codec, a: Acc, fs: seq<Frame>)
    ensures RunFrames(codec, a, fs).thinking == a.thinking + GatherThinking(fs)
    ensures RunFrames(codec, a, fs).text == a.text + GatherText(fs)
    decreases |fs|
  {
    if fs == [] {
      Seqs.Unit(a.thinking);
      Seqs.Unit(a.text);
    } else {
      hide ToolSteps;
      ToolStepsFrame(codec, TextStep(MetaStep(a, fs[0]), fs[0]), fs[0].tools);
      FramesText(codec, FrameStep(codec, a, fs[0]), fs[1..]);
      Seqs.Assoc(a.thinking, fs[0].thinking.GetOr(""), GatherThinking(fs[1..]));
      Seqs.Assoc(a.text, fs[0].text.GetOr(""), GatherText(fs[1..]));
      Seqs.Unit(a.thinking);
      Seqs.Unit(a.text);
    }
  }

  lemma {:induction false} FramesMeta(codec: Codec, a: Acc, fs: seq<Frame>)
    ensures RunFrames(codec, a, fs).stopReason ==
            if LastFinish(fs).Some? then ParseFinishReason(LastFinish(fs).value) else a.stopReason
    ensures RunFrames(codec, a, fs).usage.inputTokens ==
            if LastInput(fs).Some? then ToU32(LastInput(fs).value) else a.usage.inputTokens
    ensures RunFrames(codec, a, fs).usage.outputTokens ==
            if LastOutput(fs).Some? then ToU32(LastOutput(fs).value) else a.usage.outputTokens
    decreases |fs|
  {
    if fs != [] {
      ToolStepsFrame(codec, TextStep(MetaStep(a, fs[0]), fs[0]), fs[0].tools);
      FramesMeta(codec, FrameStep(codec, a, fs[0]), fs[1..]);
    }
  }

  // ----- tool calls of a run -----------------------------------------------------------

  lemma {:induction false} CutAppend(open: bool, calls: seq<Call>, a: seq<ToolDelta>, b: seq<ToolDelta>)
    ensures WellCutAll(open, a + b) <==> WellCutAll(open, a) && WellCutAll(Opens(open, a), b)
    ensures CutCalls(calls, a + b) == CutCalls(CutCalls(calls, a), b)
    ensures Opens(open, a + b) == Opens(Opens(open, a), b)
    decreases |a|
  {
    if a == [] {
      Seqs.Unit(b);
    } else {
      Seqs.TailOfSum(a, b);
      CutAppend(open || a[0].id.Some?, CallStep(calls, a[0]), a[1..], b);
    }
  }

  lemma NoDeltas(codec: Codec, a: Acc, calls: seq<Call>)
    ensures CutCalls(calls, []) == calls && Opens(a.tool.id != "", []) == (a.tool.id != "")
  {
  }

  lemma TextStepRebuilt(codec: Codec, a: Acc, f: Frame, calls: seq<Call>)
    requires Rebuilt(codec, a, calls)
    ensures Rebuilt(codec, TextStep(MetaStep(a, f), f), calls) && TextStep(MetaStep(a, f), f).tool == a.tool
  {
  }

  lemma {:induction false} FramesRebuild(codec: Codec, a: Acc, calls: seq<Call>, fs: seq<Frame>)
    requires Rebuilt(codec, a, calls) && WellCutAll(a.tool.id != "", GatherTools(fs))
    ensures Rebuilt(codec, RunFrames(codec, a, fs), CutCalls(calls, GatherTools(fs)))
    ensures RunFrames(codec, a, fs).tool.id != "" <==> Opens(a.tool.id != "", GatherTools(fs))
    decreases |fs|
  {
    hide CutCalls, WellCutAll, Opens, ToolSteps, Rebuilt, TextStep, MetaStep;
    if fs == [] {
      NoDeltas(codec, a, calls);
    } else {
      var here, rest := fs[0].tools, GatherTools(fs[1..]);
      var b := TextStep(MetaStep(a, fs[0]), fs[0]);
      TextStepRebuilt(codec, a, fs[0], calls);
      CutAppend(a.tool.id != "", calls, here, rest);
      ToolStepsRebuild(codec, b, calls, here);
      ToolStepsOpen(codec, b, calls, here);
      FramesRebuild(codec, FrameStep(codec, a, fs[0]), CutCalls(calls, here), fs[1..]);
    }
  }

  predicate OnlyTools(bs: seq<ContentBlock>) {
    forall i | 0 <= i < |bs| :: bs[i].ToolUse?
  }

  lemma {:induction false} OnlyToolsAre(bs: seq<ContentBlock>)
    requires OnlyTools(bs)
    ensures ToolsOf(bs) == bs
  {
    if bs != [] {
      OnlyToolsAre(bs[1..]);
      Seqs.HeadTail(bs);
    }
  }

  lemma {:induction false} ToolStepsOnlyTools(codec: Codec, a: Acc, ds: seq<ToolDelta>)
    requires OnlyTools(a.blocks)
    ensures OnlyTools(ToolSteps(codec, a, ds).blocks)
    decreases |ds|
  {
    if ds != [] {
      ToolStepsOnlyTools(codec, ToolStep(codec, a, ds[0]), ds[1..]);
    }
  }

  /** Nothing but tool calls is flushed before `[DONE]`. */
  lemma {:induction false} FramesOnlyTools(codec: Codec, a: Acc, fs: seq<Frame>)
    requires OnlyTools(a.blocks)
    ensures OnlyTools(RunFrames(codec, a, fs).blocks)
    decreases |fs|
  {
    if fs != [] {
      ToolStepsOnlyTools(codec, TextStep(MetaStep(a, fs[0]), fs[0]), fs[0].tools);
      FramesOnlyTools(codec, FrameStep(codec, a, fs[0]), fs[1..]);
    }
  }

  lemma {:induction false} CallsIffOpen(calls: seq<Call>, ds: seq<ToolDelta>)
    ensures CutCalls(calls, ds) != [] <==> Opens(calls != [], ds)
    decreases |ds|
  {
    if ds != [] {
      CallsIffOpen(CallStep(calls, ds[0]), ds[1..]);
    }
  }

  // ----- the streamed content list -----------------------------------------------------

  /** All tool calls but the last, then thinking and text, then the last call. */
  function StreamedContent(codec: Codec, w: Whole): seq<ContentBlock> {
    var pending := ThinkingBlock(w.thinking) + TextBlock(w.text);
    if w.calls == [] then pending
    else
      var n := |w.calls| - 1;
      ToToolUses(codec, w.calls[..n]) + pending + [ToToolUse(codec, w.calls[n])]
  }

  lemma RunContent(codec: Codec, fs: seq<Frame>)
    requires WellCutAll(false, GatherTools(fs))
    ensures Finish(codec, RunFrames(codec, Empty, fs)).blocks == StreamedContent(codec, Gather(fs))
  {
    var a, w := RunFrames(codec, Empty, fs), Gather(fs);
    FramesText(codec, Empty, fs);
    FramesRebuild(codec, Empty, [], fs);
    FramesOnlyTools(codec, Empty, fs);
    OnlyToolsAre(a.blocks);
    CallsIffOpen([], GatherTools(fs));
    var pending := ThinkingBlock(w.thinking) + TextBlock(w.text);
    assert a.thinking == w.thinking && a.text == w.text;
    Seqs.Assoc(a.blocks, ThinkingBlock(a.thinking), TextBlock(a.text));
    assert FlushText(a).blocks == a.blocks + pending;
    if w.calls == [] {
      assert a.blocks == [];
      Seqs.Unit(pending);
    } else {
      var n := |w.calls| - 1;
      assert a.tool == w.calls[n];
      assert a.blocks == ToToolUses(codec, w.calls[..n]);
    }
  }

  lemma Rotation<T>(init: seq<T>, pending: seq<T>, last: seq<T>)
    requires init != [] && pending != [] ==> init[0] != pending[0]
    ensures init + pending + last == pending + (init + last) <==> init == [] || pending == []
  {
    if init == [] || pending == [] {
      Seqs.Unit(init);
      Seqs.Unit(pending);
      Seqs.Unit(last);
    } else {
      assert (init + pending + last)[0] == init[0];
      assert (pending + (init + last))[0] == pending[0];
    }
  }

  /** All calls but the last, and the last. */
  lemma LastCall(codec: Codec, calls: seq<Call>)
    requires calls != []
    ensures var n := |calls| - 1;
            && ToToolUses(codec, calls) == ToToolUses(codec, calls[..n]) + [ToToolUse(codec, calls[n])]
            && |ToToolUses(codec, calls[..n])| == n
            && (n > 0 ==> ToToolUses(codec, calls[..n])[0].ToolUse?)
  {
    var n := |calls| - 1;
    assert calls == calls[..n] + [calls[n]];
    ToolUsesAppend(codec, calls[..n], [calls[n]]);
    UsesCount(codec, calls[..n]);
  }

  /** The two content lists are equal exactly with at most one call, or with nothing but calls. */
  lemma ContentEqualExactly(codec: Codec, w: Whole)
    ensures StreamedContent(codec, w) == ContentOf(codec, w)
            <==> |w.calls| <= 1 || (w.thinking == "" && w.text == "")
  {
    var pending := ThinkingBlock(w.thinking) + TextBlock(w.text);
    assert pending == [] <==> w.thinking == "" && w.text == "";
    if w.calls == [] {
      Seqs.Unit(pending);
    } else {
      var n := |w.calls| - 1;
      LastCall(codec, w.calls);
      Rotation(ToToolUses(codec, w.calls[..n]), pending, [ToToolUse(codec, w.calls[n])]);
    }
  }

  lemma WholeParts(codec: Codec, w: Whole)
    ensures TextsOf(ContentOf(codec, w)) == w.text
    ensures ThinkingsOf(ContentOf(codec, w)) == w.thinking
    ensures ToolsOf(ContentOf(codec, w)) == ToToolUses(codec, w.calls)
  {
    var pending := ThinkingBlock(w.thinking) + TextBlock(w.text);
    PendingProjections(w.thinking, w.text);
    UsesProject(codec, w.calls);
    ProjectionsAppend(pending, ToToolUses(codec, w.calls));
  }

  lemma StreamedParts(codec: Codec, w: Whole)
    ensures TextsOf(StreamedContent(codec, w)) == w.text
    ensures ThinkingsOf(StreamedContent(codec, w)) == w.thinking
    ensures ToolsOf(StreamedContent(codec, w)) == ToToolUses(codec, w.calls)
  {
    var pending := ThinkingBlock(w.thinking) + TextBlock(w.text);
    PendingProjections(w.thinking, w.text);
    if w.calls != [] {
      hide TextsOf, ThinkingsOf, ToolsOf;
      var n := |w.calls| - 1;
      var init, last := w.calls[..n], [w.calls[n]];
      LastCall(codec, w.calls);
      UsesProject(codec, init);
      UsesProject(codec, last);
      assert ToToolUses(codec, last) == [ToToolUse(codec, w.calls[n])];
      TwoProjections(ToToolUses(codec, init), pending, ToToolUses(codec, last));
      Seqs.Unit(ToToolUses(codec, init));
      Seqs.Unit(w.text);
      Seqs.Unit(w.thinking);
    }
  }

  lemma TwoProjections(a: seq<ContentBlock>, b: seq<ContentBlock>, c: seq<ContentBlock>)
    ensures TextsOf(a + b + c) == TextsOf(a) + TextsOf(b) + TextsOf(c)
    ensures ThinkingsOf(a + b + c) == ThinkingsOf(a) + ThinkingsOf(b) + ThinkingsOf(c)
    ensures ToolsOf(a + b + c) == ToolsOf(a) + ToolsOf(b) + ToolsOf(c)
  {
    ProjectionsAppend(a, b);
    ProjectionsAppend(a + b, c);
  }

  lemma {:induction false} UsesProject(codec: Codec, calls: seq<Call>)
    ensures TextsOf(ToToolUses(codec, calls)) == "" && ThinkingsOf(ToToolUses(codec, calls)) == ""
    ensures ToolsOf(ToToolUses(codec, calls)) == ToToolUses(codec, calls)
  {
    if calls != [] {
      UsesProject(codec, calls[1..]);
      Seqs.TailOfSum([ToToolUse(codec, calls[0])], ToToolUses(codec, calls[1..]));
    }
  }

  // ----- events and chunks -------------------------------------------------------------

  function DataSteps(codec: Codec, a: Acc, es: seq<SseEvent>): Acc
    decreases |es|
  {
    if es == [] then a else DataSteps(codec, DataStep(codec, a, es[0].data), es[1..])
  }

  predicate NoDone(es: seq<SseEvent>) {
    forall i | 0 <= i < |es| :: es[i].data != "[DONE]"
  }

  lemma {:induction false} ChunkWithoutDone(codec: Codec, a: Acc, es: seq<SseEvent>)
    requires NoDone(es)
    ensures ChunkStep(codec, a, es) == DataSteps(codec, a, es)
    decreases |es|
  {
    if es != [] {
      ChunkWithoutDone(codec, DataStep(codec, a, es[0].data), es[1..]);
    }
  }

  lemma {:induction false} ChunkWithDone(codec: Codec, a: Acc, es: seq<SseEvent>, last: SseEvent)
    requires NoDone(es) && last.data == "[DONE]"
    ensures ChunkStep(codec, a, es + [last]) == Finish(codec, DataSteps(codec, a, es))
    decreases |es|
  {
    if es == [] {
      Seqs.Unit([last]);
    } else {
      Seqs.TailOfSum(es, [last]);
      ChunkWithDone(codec, DataStep(codec, a, es[0].data), es[1..], last);
    }
  }

  lemma {:induction false} DataStepsAppend(codec: Codec, a: Acc, es: seq<SseEvent>, fs: seq<SseEvent>)
    ensures DataSteps(codec, a, es + fs) == DataSteps(codec, DataSteps(codec, a, es), fs)
    decreases |es|
  {
    if es == [] {
      Seqs.Unit(fs);
    } else {
      Seqs.TailOfSum(es, fs);
      DataStepsAppend(codec, DataStep(codec, a, es[0].data), es[1..], fs);
    }
  }

  /** Chunks that complete no event change nothing. */
  lemma {:induction false} NoEventsNoChange(codec: Codec, a: Acc, buffer: string, chunks: seq<string>)
    requires FeedAll(buffer, chunks).events == []
    ensures ChunkSteps(codec, a, buffer, chunks) == a
    decreases |chunks|
  {
    if chunks != [] {
      var d := Drain(buffer + chunks[0]);
      NoEventsNoChange(codec, a, d.rest, chunks[1..]);
    }
  }

  lemma SplitLast<T>(a: seq<T>, b: seq<T>, init: seq<T>, last: T)
    requires a + b == init + [last]
    ensures b == [] ==> a == init + [last]
    ensures b != [] ==> |a| <= |init| && a == init[..|a|] && b == init[|a|..] + [last]
  {
    Seqs.Unit(a);
    if b != [] {
      assert a == (a + b)[..|a|] == (init + [last])[..|a|];
      assert b == (a + b)[|a|..] == (init + [last])[|a|..];
    }
  }

  /** With `[DONE]` as the last event, every chunking gives the same result. */
  lemma {:induction false} AnyChunking(codec: Codec, a: Acc, buffer: string, chunks: seq<string>,
      es: seq<SseEvent>, last: SseEvent)
    requires FeedAll(buffer, chunks).events == es + [last]
    requires NoDone(es) && last.data == "[DONE]"
    ensures ChunkSteps(codec, a, buffer, chunks) == Finish(codec, DataSteps(codec, a, es))
    decreases |chunks|
  {
    hide ChunkStep, DataSteps, Finish, Drain;
    if chunks != [] {
      var d := Drain(buffer + chunks[0]);
      var rest := FeedAll(d.rest, chunks[1..]).events;
      SplitLast(d.events, rest, es, last);
      if rest == [] {
        ChunkWithDone(codec, a, es, last);
        NoEventsNoChange(codec, Finish(codec, DataSteps(codec, a, es)), d.rest, chunks[1..]);
      } else {
        var k := |d.events|;
        ChunkWithoutDone(codec, a, d.events);
        AnyChunking(codec, DataSteps(codec, a, d.events), d.rest, chunks[1..], es[k..], last);
        assert es == es[..k] + es[k..];
        DataStepsAppend(codec, a, es[..k], es[k..]);
      }
    }
  }

  /** The events that carry a list of documents, in any spelling and with any event types. */
  predicate Carries(codec: Codec, es: seq<SseEvent>, js: seq<Json>) {
    && |es| == |js|
    && forall i | 0 <= i < |js| :: codec.parse(es[i].data) == Some(js[i])
  }

  lemma {:induction false} CarriedFrames(codec: Codec, a: Acc, es: seq<SseEvent>, js: seq<Json>)
    requires EndIsNoJson(codec) && Carries(codec, es, js)
    ensures DataSteps(codec, a, es) == RunFrames(codec, a, FramesOf(js)) && NoDone(es)
    decreases |es|
  {
    if js != [] {
      assert es[0].data != "[DONE]";
      assert forall i | 0 <= i < |js| - 1 :: es[1..][i] == es[i + 1] && js[1..][i] == js[i + 1];
      CarriedFrames(codec, FrameStep(codec, a, FrameOf(js[0])), es[1..], js[1..]);
      assert FramesOf(js)[1..] == FramesOf(js[1..]);
    }
  }

  /** What a streamed response has in common with the whole one. */
  predicate SameResponse(codec: Codec, w: Whole, streamed: CompletionResponse, direct: CompletionResponse) {
    && streamed.stopReason == direct.stopReason
    && streamed.usage == direct.usage
    && TextsOf(streamed.content) == TextsOf(direct.content) == w.text
    && ThinkingsOf(streamed.content) == ThinkingsOf(direct.content) == w.thinking
    && ToolsOf(streamed.content) == ToolsOf(direct.content) == ToToolUses(codec, w.calls)
    && (streamed.content == direct.content <==> |w.calls| <= 1 || (w.thinking == "" && w.text == ""))
  }

  lemma FinishedFrames(codec: Codec, fs: seq<Frame>)
    requires WellCutAll(false, GatherTools(fs))
    ensures var streamed := Response(Finish(codec, RunFrames(codec, Empty, fs)));
            && SameResponse(codec, Gather(fs), streamed, ResponseOf(codec, Gather(fs)))
            && streamed.content == StreamedContent(codec, Gather(fs))
  {
    hide TextsOf, ThinkingsOf, ToolsOf, StreamedContent, RunFrames, GatherTools;
    var w := Gather(fs);
    RunContent(codec, fs);
    FramesMeta(codec, Empty, fs);
    StreamedParts(codec, w);
    WholeParts(codec, w);
    ContentEqualExactly(codec, w);
  }

  lemma StreamRun(codec: Codec, js: seq<Json>, es: seq<SseEvent>, last: SseEvent, chunks: seq<string>)
    requires EndIsNoJson(codec)
    requires Carries(codec, es, js) && last.data == "[DONE]"
    requires forall e | e in es + [last] :: Printable(e)
    requires Concat(chunks) == PrintAll(es + [last])
    ensures ChunkSteps(codec, Empty, "", chunks) == Finish(codec, RunFrames(codec, Empty, FramesOf(js)))
  {
    RoundTrip(es + [last], chunks);
    CarriedFrames(codec, Empty, es, js);
    AnyChunking(codec, Empty, "", chunks, es, last);
  }

  /**
   A message cut into deltas and sent as events in any chunking, with `[DONE]` last, gives the stop reason,
   usage, thinking, text and tool calls of the whole message; the content lists are the same exactly with
   at most one tool call or with nothing but tool calls, and otherwise the calls but the last come first.
   */
  lemma StreamedEqualsWhole(codec: Codec, js: seq<Json>, whole: Json, es: seq<SseEvent>, last: SseEvent, chunks: seq<string>)
    requires EndIsNoJson(codec)
    requires WellCutAll(false, GatherTools(FramesOf(js)))
    requires Choice(whole).Some? && WholeOf(whole) == Gather(FramesOf(js))
    requires Carries(codec, es, js) && last.data == "[DONE]"
    requires forall e | e in es + [last] :: Printable(e)
    requires Concat(chunks) == PrintAll(es + [last])
    ensures var streamed := Response(ChunkSteps(codec, Empty, "", chunks));
            && SameResponse(codec, WholeOf(whole), streamed, ResponseOf(codec, WholeOf(whole)))
            && streamed.content == StreamedContent(codec, WholeOf(whole))
  {
    StreamRun(codec, js, es, last, chunks);
    FinishedFrames(codec, FramesOf(js));
  }

  /** The last document of a stream that has a finish reason decides, and likewise for the counts. */
  lemma StreamedMeta(codec: Codec, js: seq<Json>, i: nat)
    requires i < |js|
    ensures var x := Finish(codec, RunFrames(codec, Empty, FramesOf(js)));
            && (forall t | FinishText(js[i]) == Str(t) && (forall k | i < k < |js| :: !FinishText(js[k]).Str?) ::
                  Means(t, x.stopReason))
            && (forall n: U64 | UsageCount(js[i], "prompt_tokens") == Int(n)
                           && (forall k | i < k < |js| :: AsU64(UsageCount(js[k], "prompt_tokens")).None?) ::
                  Counted(n, x.usage.inputTokens))
            && (forall n: U64 | UsageCount(js[i], "completion_tokens") == Int(n)
                           && (forall k | i < k < |js| :: AsU64(UsageCount(js[k], "completion_tokens")).None?) ::
                  Counted(n, x.usage.outputTokens))
  {
    hide RunFrames, FramesOf, FinishText, UsageCount, Finish, Means, Counted, ParseFinishReason, ToU32;
    FramesMeta(codec, Empty, FramesOf(js));
    FinishKeepsMeta(codec, RunFrames(codec, Empty, FramesOf(js)));
    LastOf(js, i);
    ReasonMeans(AsStr(FinishText(js[i])).GetOr(""));
    CountsFit(AsU64(UsageCount(js[i], "prompt_tokens")).GetOr(0));
    CountsFit(AsU64(UsageCount(js[i], "completion_tokens")).GetOr(0));
  }

  lemma FinishKeepsMeta(codec: Codec, a: Acc)
    ensures Finish(codec, a).stopReason == a.stopReason && Finish(codec, a).usage == a.usage
  {
  }

  function FinishText(j: Json): Json {
    At(Item(At(j, "choices"), 0), "finish_reason")
  }

  function UsageCount(j: Json, key: string): Json {
    At(Get(j, "usage").GetOr(Null), key)
  }

  lemma {:induction false} LastOf(js: seq<Json>, i: nat)
    requires i < |js|
    ensures (forall k | i < k < |js| :: !FinishText(js[k]).Str?) && FinishText(js[i]).Str? ==>
              LastFinish(FramesOf(js)) == Some(FinishText(js[i]).text)
    ensures (forall k | i < k < |js| :: AsU64(UsageCount(js[k], "prompt_tokens")).None?)
            && AsU64(UsageCount(js[i], "prompt_tokens")).Some? ==>
              LastInput(FramesOf(js)) == AsU64(UsageCount(js[i], "prompt_tokens"))
    ensures (forall k | i < k < |js| :: AsU64(UsageCount(js[k], "completion_tokens")).None?)
            && AsU64(UsageCount(js[i], "completion_tokens")).Some? ==>
              LastOutput(FramesOf(js)) == AsU64(UsageCount(js[i], "completion_tokens"))
    decreases |js|
  {
    hide FinishText, UsageCount;
    var rest := js[1..];
    assert forall k | 1 <= k < |js| :: js[k] == rest[k - 1];
    assert forall k | 0 <= k < |rest| :: rest[k] == js[k + 1];
    FrameReads(js[0]);
    if i > 0 {
      LastOf(rest, i - 1);
    } else {
      NoneLater(rest);
    }
  }

  lemma FrameReads(j: Json)
    ensures FrameOf(j).finish == AsStr(FinishText(j))
    ensures FrameOf(j).inputTokens == AsU64(UsageCount(j, "prompt_tokens"))
    ensures FrameOf(j).outputTokens == AsU64(UsageCount(j, "completion_tokens"))
  {
  }

  lemma {:induction false} NoneLater(js: seq<Json>)
    ensures (forall k | 0 <= k < |js| :: !FinishText(js[k]).Str?) ==> LastFinish(FramesOf(js)) == None
    ensures (forall k | 0 <= k < |js| :: AsU64(UsageCount(js[k], "prompt_tokens")).None?) ==> LastInput(FramesOf(js)) == None
    ensures (forall k | 0 <= k < |js| :: AsU64(UsageCount(js[k], "completion_tokens")).None?) ==> LastOutput(FramesOf(js)) == None
    decreases |js|
  {
    hide FinishText, UsageCount;
    if js != [] {
      var rest := js[1..];
      assert forall k | 0 <= k < |rest| :: rest[k] == js[k + 1];
      FrameReads(js[0]);
      NoneLater(rest);
    }
  }

  // ----- without the end marker --------------------------------------------------------

  /**
   A stream cut off before `[DONE]` yields no thinking, no text and not the last call; that is all there is if and only
   if there is none of these.
   */
  lemma TruncatedStream(codec: Codec, js: seq<Json>, es: seq<SseEvent>, chunks: seq<string>)
    requires EndIsNoJson(codec)
    requires WellCutAll(false, GatherTools(FramesOf(js)))
    requires Carries(codec, es, js)
    requires forall e | e in es :: Printable(e)
    requires Concat(chunks) == PrintAll(es)
    ensures var calls := Gather(FramesOf(js)).calls;
            Response(ChunkSteps(codec, Empty, "", chunks)).content
            == if calls == [] then [] else ToToolUses(codec, calls[..|calls| - 1])
    ensures var w := Gather(FramesOf(js));
            Response(ChunkSteps(codec, Empty, "", chunks)).content == ContentOf(codec, w)
            <==> w.thinking == "" && w.text == "" && w.calls == []
  {
    var fs := FramesOf(js);
    RoundTrip(es, chunks);
    CarriedFrames(codec, Empty, es, js);
    AnyChunkingWithoutDone(codec, Empty, "", chunks, es);
    FramesRebuild(codec, Empty, [], fs);
    FramesOnlyTools(codec, Empty, fs);
    OnlyToolsAre(RunFrames(codec, Empty, fs).blocks);
    CallsIffOpen([], GatherTools(fs));
    TruncatedLoses(codec, Gather(fs));
  }

  lemma TruncatedLoses(codec: Codec, w: Whole)
    ensures (if w.calls == [] then [] else ToToolUses(codec, w.calls[..|w.calls| - 1])) == ContentOf(codec, w)
            <==> w.thinking == "" && w.text == "" && w.calls == []
  {
    UsesCount(codec, w.calls);
    if w.calls != [] {
      UsesCount(codec, w.calls[..|w.calls| - 1]);
    }
  }

  lemma {:induction false} AnyChunkingWithoutDone(codec: Codec, a: Acc, buffer: string, chunks: seq<string>, es: seq<SseEvent>)
    requires FeedAll(buffer, chunks).events == es && NoDone(es)
    ensures ChunkSteps(codec, a, buffer, chunks) == DataSteps(codec, a, es)
    decreases |chunks|
  {
    if chunks != [] {
      var d := Drain(buffer + chunks[0]);
      var rest := FeedAll(d.rest, chunks[1..]).events;
      var k := |d.events|;
      assert es == d.events + rest;
      assert forall i | 0 <= i < |rest| :: rest[i] == es[k + i];
      assert forall i | 0 <= i < k :: d.events[i] == es[i];
      ChunkWithoutDone(codec, a, d.events);
      AnyChunkingWithoutDone(codec, DataSteps(codec, a, d.events), d.rest, chunks[1..], rest);
      DataStepsAppend(codec, a, d.events, rest);
    }
  }
}
