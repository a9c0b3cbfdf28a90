/** What the streaming accumulator conserves, and when a streamed response equals the whole one. */
module StreamTheorems {
  import opened Json
  import opened LlmTypes
  import opened ResponseBody
  import opened StreamDecoder
  import opened Sse
  import Seqs

  // ----- projections of a content list and of the sent events --------------------------

  function TextsOf(bs: seq<ContentBlock>): string {
    if bs == [] then "" else (if bs[0].Text? then bs[0].text else "") + TextsOf(bs[1..])
  }

  function ThinkingsOf(bs: seq<ContentBlock>): string {
    if bs == [] then "" else (if bs[0].Thinking? then bs[0].thinking else "") + ThinkingsOf(bs[1..])
  }

  function ToolsOf(bs: seq<ContentBlock>): seq<ContentBlock> {
    if bs == [] then [] else (if bs[0].ToolUse? then [bs[0]] else []) + ToolsOf(bs[1..])
  }

  lemma {:induction false} ProjectionsAppend(a: seq<ContentBlock>, b: seq<ContentBlock>)
    ensures TextsOf(a + b) == TextsOf(a) + TextsOf(b)
    ensures ThinkingsOf(a + b) == ThinkingsOf(a) + ThinkingsOf(b)
    ensures ToolsOf(a + b) == ToolsOf(a) + ToolsOf(b)
  {
    if a == [] {
      Seqs.Unit(b);
      Seqs.Unit(ToolsOf(b));
      Seqs.Unit(TextsOf(b));
      Seqs.Unit(ThinkingsOf(b));
    } else {
      Seqs.TailOfSum(a, b);
      Seqs.Assoc(if a[0].Text? then a[0].text else "", TextsOf(a[1..]), TextsOf(b));
      Seqs.Assoc(if a[0].Thinking? then a[0].thinking else "", ThinkingsOf(a[1..]), ThinkingsOf(b));
      ProjectionsAppend(a[1..], b);
      Seqs.Assoc(if a[0].ToolUse? then [a[0]] else [], ToolsOf(a[1..]), ToolsOf(b));
    }
  }

  function SentText(es: seq<StreamEvent>): string {
    if es == [] then ""
    else
      var e := es[|es| - 1];
      SentText(es[..|es| - 1]) + if e.TextDelta? then e.text else ""
  }

  function SentThinking(es: seq<StreamEvent>): string {
    if es == [] then ""
    else
      var e := es[|es| - 1];
      SentThinking(es[..|es| - 1]) + if e.ThinkingDelta? then e.thought else ""
  }

  /** The calls a receiver of the events puts together: each start opens one, each fragment goes to the last. */
  function SentCalls(es: seq<StreamEvent>): seq<Call> {
    if es == [] then [] else SentStep(SentCalls(es[..|es| - 1]), es[|es| - 1])
  }

  function SentStep(calls: seq<Call>, e: StreamEvent): seq<Call> {
    if e.ToolStart? then calls + [Call(e.startedId, e.name, "")]
    else if e.ToolInputDelta? then Extend(calls, e.json)
    else calls
  }

  function Extend(calls: seq<Call>, args: string): seq<Call> {
    if calls == [] then calls
    else
      var n := |calls| - 1;
      calls[..n] + [calls[n].(args := calls[n].args + args)]
  }

  lemma Sent(es: seq<StreamEvent>, e: StreamEvent)
    ensures SentText(es + [e]) == SentText(es) + if e.TextDelta? then e.text else ""
    ensures SentThinking(es + [e]) == SentThinking(es) + if e.ThinkingDelta? then e.thought else ""
    ensures SentCalls(es + [e]) == SentStep(SentCalls(es), e)
  {
    assert (es + [e])[..|es + [e]| - 1] == es;
  }

  // ----- text and thinking are conserved -----------------------------------------------

  /** Flushed text followed by pending text is the text sent; likewise for thinking. */
  predicate TextKept(a: Acc) {
    && TextsOf(a.blocks) + a.text == SentText(a.sent)
    && ThinkingsOf(a.blocks) + a.thinking == SentThinking(a.sent)
  }

  lemma FlushToolKeepsText(codec: Codec, a: Acc)
    ensures TextsOf(FlushTool(codec, a).blocks) == TextsOf(a.blocks)
    ensures ThinkingsOf(FlushTool(codec, a).blocks) == ThinkingsOf(a.blocks)
  {
    if a.tool.id != "" {
      ProjectionsAppend(a.blocks, [ToToolUse(codec, a.tool)]);
    }
  }

  lemma PendingProjections(thinking: string, text: string)
    ensures TextsOf(ThinkingBlock(thinking) + TextBlock(text)) == text
    ensures ThinkingsOf(ThinkingBlock(thinking) + TextBlock(text)) == thinking
    ensures ToolsOf(ThinkingBlock(thinking) + TextBlock(text)) == []
  {
    ProjectionsAppend(ThinkingBlock(thinking), TextBlock(text));
  }

  lemma FlushTextKeepsText(a: Acc)
    ensures TextsOf(FlushText(a).blocks) == TextsOf(a.blocks) + a.text
    ensures ThinkingsOf(FlushText(a).blocks) == ThinkingsOf(a.blocks) + a.thinking
    ensures ToolsOf(FlushText(a).blocks) == ToolsOf(a.blocks)
  {
    PendingProjections(a.thinking, a.text);
    ProjectionsAppend(a.blocks, ThinkingBlock(a.thinking) + TextBlock(a.text));
    Seqs.Assoc(a.blocks, ThinkingBlock(a.thinking), TextBlock(a.text));
    Seqs.Unit(ToolsOf(a.blocks));
  }

  lemma FinishKeepsText(codec: Codec, a: Acc)
    requires TextKept(a)
    ensures TextKept(Finish(codec, a))
  {
    FlushTextKeepsText(a);
    FlushToolKeepsText(codec, FlushText(a));
    Sent(a.sent, Done);
  }

  lemma OpenKeepsText(codec: Codec, a: Acc, d: ToolDelta)
    requires TextKept(a)
    ensures TextKept(OpenTool(codec, a, d))
  {
    FlushToolKeepsText(codec, a);
    if d.id.Some? {
      Sent(a.sent, ToolStart(d.id.value, d.name));
    }
  }

  lemma ArgsKeepText(a: Acc, d: ToolDelta)
    requires TextKept(a)
    ensures TextKept(AddArgs(a, d))
  {
    if d.args.Some? {
      Sent(a.sent, ToolInputDelta(a.tool.id, d.args.value));
    }
  }

  lemma ToolStepKeepsText(codec: Codec, a: Acc, d: ToolDelta)
    requires TextKept(a)
    ensures TextKept(ToolStep(codec, a, d))
  {
    OpenKeepsText(codec, a, d);
    ArgsKeepText(OpenTool(codec, a, d), d);
  }

  lemma {:induction false} ToolStepsKeepText(codec: Codec, a: Acc, ds: seq<ToolDelta>)
    requires TextKept(a)
    ensures TextKept(ToolSteps(codec, a, ds))
    decreases |ds|
  {
    if ds != [] {
      ToolStepKeepsText(codec, a, ds[0]);
      ToolStepsKeepText(codec, ToolStep(codec, a, ds[0]), ds[1..]);
    }
  }

  lemma ThoughtKept(a: Acc, t: string)
    requires TextKept(a)
    ensures TextKept(a.(thinking := a.thinking + t, sent := a.sent + [ThinkingDelta(t)]))
  {
    hide SentText, SentThinking, SentCalls;
    Sent(a.sent, ThinkingDelta(t));
    Seqs.Unit(SentText(a.sent));
    Seqs.Assoc(ThinkingsOf(a.blocks), a.thinking, t);
  }

  lemma WordsKept(a: Acc, t: string)
    requires TextKept(a)
    ensures TextKept(a.(text := a.text + t, sent := a.sent + [TextDelta(t)]))
  {
    hide SentText, SentThinking, SentCalls;
    Sent(a.sent, TextDelta(t));
    Seqs.Unit(SentThinking(a.sent));
    Seqs.Assoc(TextsOf(a.blocks), a.text, t);
  }

  lemma TextStepKeepsText(a: Acc, f: Frame)
    requires TextKept(a)
    ensures TextKept(TextStep(a, f))
  {
    hide TextKept;
    var b := a;
    if f.thinking.Some? {
      ThoughtKept(a, f.thinking.value);
      b := a.(thinking := a.thinking + f.thinking.value, sent := a.sent + [ThinkingDelta(f.thinking.value)]);
    }
    if f.text.Some? {
      WordsKept(b, f.text.value);
    }
  }

  /** Whatever an event holds, text and thinking are conserved by it. */
  lemma EventKeepsText(codec: Codec, a: Acc, data: string)
    requires TextKept(a)
    ensures TextKept(DataStep(codec, a, data))
    ensures TextKept(Finish(codec, a))
  {
    FinishKeepsText(codec, a);
    if codec.parse(data).Some? {
      var f := FrameOf(codec.parse(data).value);
      TextStepKeepsText(MetaStep(a, f), f);
      ToolStepsKeepText(codec, TextStep(MetaStep(a, f), f), f.tools);
    }
  }

  lemma {:induction false} ChunkKeepsText(codec: Codec, a: Acc, es: seq<SseEvent>)
    requires TextKept(a)
    ensures TextKept(ChunkStep(codec, a, es))
    decreases |es|
  {
    if es != [] {
      EventKeepsText(codec, a, es[0].data);
      if es[0].data != "[DONE]" {
        ChunkKeepsText(codec, DataStep(codec, a, es[0].data), es[1..]);
      }
    }
  }

  /** Over any stream in any chunking, flushed and pending text are exactly what was sent. */
  lemma {:induction false} StreamKeepsText(codec: Codec, a: Acc, buffer: string, chunks: seq<string>)
    requires TextKept(a)
    ensures TextKept(ChunkSteps(codec, a, buffer, chunks))
    decreases |chunks|
  {
    if chunks != [] {
      var d := Drain(buffer + chunks[0]);
      ChunkKeepsText(codec, a, d.events);
      StreamKeepsText(codec, ChunkStep(codec, a, d.events), d.rest, chunks[1..]);
    }
  }

  // ----- tool calls --------------------------------------------------------------------

  function CallStep(calls: seq<Call>, d: ToolDelta): seq<Call> {
    var started := if d.id.Some? then calls + [Call(d.id.value, d.name, "")] else calls;
    if d.args.Some? then Extend(started, d.args.value) else started
  }

  function CutCalls(calls: seq<Call>, ds: seq<ToolDelta>): seq<Call>
    decreases |ds|
  {
    if ds == [] then calls else CutCalls(CallStep(calls, ds[0]), ds[1..])
  }

  /** The flushed tool blocks followed by the open call are exactly these calls, and nothing is left over. */
  predicate Rebuilt(codec: Codec, a: Acc, calls: seq<Call>) {
    if a.tool.id == "" then
      a.tool == NoTool && ToolsOf(a.blocks) == ToToolUses(codec, calls)
    else
      && calls != []
      && calls[|calls| - 1] == a.tool
      && ToolsOf(a.blocks) == ToToolUses(codec, calls[..|calls| - 1])
  }

  /** A delta opens a call with a non-empty id, or has no fragment for a call that is not open. */
  predicate WellCut(open: bool, d: ToolDelta) {
    if d.id.Some? then d.id.value != "" else d.args.GetOr("") == "" || open
  }

  predicate WellCutAll(open: bool, ds: seq<ToolDelta>)
    decreases |ds|
  {
    ds != [] ==> WellCut(open, ds[0]) && WellCutAll(open || ds[0].id.Some?, ds[1..])
  }

  lemma FlushRebuilds(codec: Codec, a: Acc, calls: seq<Call>)
    requires Rebuilt(codec, a, calls)
    ensures Rebuilt(codec, FlushTool(codec, a), calls) && FlushTool(codec, a).tool == NoTool
  {
    if a.tool.id != "" {
      var n := |calls| - 1;
      assert calls == calls[..n] + [a.tool];
      ToolUsesAppend(codec, calls[..n], [a.tool]);
      ProjectionsAppend(a.blocks, [ToToolUse(codec, a.tool)]);
    }
  }

  lemma OpenRebuilds(codec: Codec, a: Acc, calls: seq<Call>, d: ToolDelta)
    requires Rebuilt(codec, a, calls)
    requires d.id.Some? ==> d.id.value != ""
    ensures Rebuilt(codec, OpenTool(codec, a, d), if d.id.Some? then calls + [Call(d.id.value, d.name, "")] else calls)
  {
    if d.id.Some? {
      FlushRebuilds(codec, a, calls);
      assert (calls + [Call(d.id.value, d.name, "")])[..|calls|] == calls;
    }
  }

  lemma ArgsRebuild(codec: Codec, a: Acc, calls: seq<Call>, d: ToolDelta)
    requires Rebuilt(codec, a, calls)
    requires d.args.GetOr("") == "" || a.tool.id != ""
    ensures Rebuilt(codec, AddArgs(a, d), if d.args.Some? then Extend(calls, d.args.value) else calls)
  {
    if d.args.Some? && calls != [] {
      var n := |calls| - 1;
      assert Extend(calls, d.args.value)[..n] == calls[..n];
      if a.tool.id == "" {
        assert calls[n].args + "" == calls[n].args;
        assert Extend(calls, d.args.value) == calls;
      }
    }
  }

  lemma ToolStepRebuilds(codec: Codec, a: Acc, calls: seq<Call>, d: ToolDelta)
    requires Rebuilt(codec, a, calls) && WellCut(a.tool.id != "", d)
    ensures Rebuilt(codec, ToolStep(codec, a, d), CallStep(calls, d))
    ensures ToolStep(codec, a, d).tool.id != "" <==> (a.tool.id != "" || d.id.Some?)
  {
    OpenRebuilds(codec, a, calls, d);
    ArgsRebuild(codec, OpenTool(codec, a, d), if d.id.Some? then calls + [Call(d.id.value, d.name, "")] else calls, d);
  }

  lemma {:induction false} ToolStepsRebuild(codec: Codec, a: Acc, calls: seq<Call>, ds: seq<ToolDelta>)
    requires Rebuilt(codec, a, calls) && WellCutAll(a.tool.id != "", ds)
    ensures Rebuilt(codec, ToolSteps(codec, a, ds), CutCalls(calls, ds))
    decreases |ds|
  {
    if ds != [] {
      ToolStepRebuilds(codec, a, calls, ds[0]);
      ToolStepsRebuild(codec, ToolStep(codec, a, ds[0]), CallStep(calls, ds[0]), ds[1..]);
    }
  }

  /** The events sent describe exactly the deltas received. */
  lemma ToolStepSends(codec: Codec, a: Acc, d: ToolDelta)
    ensures SentCalls(ToolStep(codec, a, d).sent) == CallStep(SentCalls(a.sent), d)
  {
    var b := OpenTool(codec, a, d);
    if d.id.Some? {
      Sent(a.sent, ToolStart(d.id.value, d.name));
    }
    if d.args.Some? {
      Sent(b.sent, ToolInputDelta(b.tool.id, d.args.value));
    }
  }

  /** The tool blocks and the open call match the sent events. */
  predicate ToolsKept(codec: Codec, a: Acc) {
    Rebuilt(codec, a, SentCalls(a.sent))
  }

  /**
   A tool-call delta conserves the calls if and only if its id is not empty and its fragment, if any,
   has an open call to go to.
   */
  lemma ToolStepKeepsExactly(codec: Codec, a: Acc, d: ToolDelta)
    requires ToolsKept(codec, a)
    ensures ToolsKept(codec, ToolStep(codec, a, d)) <==> WellCut(a.tool.id != "", d)
  {
    ToolStepSends(codec, a, d);
    if WellCut(a.tool.id != "", d) {
      ToolStepRebuilds(codec, a, SentCalls(a.sent), d);
    } else if d.id.Some? {
      FlushRebuilds(codec, a, SentCalls(a.sent));
      UsesCount(codec, SentCalls(a.sent));
      UsesCount(codec, CallStep(SentCalls(a.sent), d));
    }
  }

  lemma {:induction false} UsesCount(codec: Codec, calls: seq<Call>)
    ensures |ToToolUses(codec, calls)| == |calls|
  {
    if calls != [] {
      UsesCount(codec, calls[1..]);
    }
  }

  lemma FinishKeepsTools(codec: Codec, a: Acc)
    requires ToolsKept(codec, a)
    ensures ToolsKept(codec, Finish(codec, a)) && Finish(codec, a).tool == NoTool
  {
    FlushTextKeepsText(a);
    FlushRebuilds(codec, FlushText(a), SentCalls(a.sent));
    Sent(a.sent, Done);
  }

  lemma TextStepKeepsTools(a: Acc, f: Frame)
    ensures SentCalls(TextStep(MetaStep(a, f), f).sent) == SentCalls(a.sent)
  {
    if f.thinking.Some? {
      Sent(a.sent, ThinkingDelta(f.thinking.value));
    }
    var sent := if f.thinking.None? then a.sent else a.sent + [ThinkingDelta(f.thinking.value)];
    if f.text.Some? {
      Sent(sent, TextDelta(f.text.value));
    }
  }

  lemma {:induction false} ToolStepsKeepTools(codec: Codec, a: Acc, ds: seq<ToolDelta>)
    requires ToolsKept(codec, a) && WellCutAll(a.tool.id != "", ds)
    ensures ToolsKept(codec, ToolSteps(codec, a, ds))
    decreases |ds|
  {
    if ds != [] {
      ToolStepKeepsExactly(codec, a, ds[0]);
      ToolStepSends(codec, a, ds[0]);
      ToolStepRebuilds(codec, a, SentCalls(a.sent), ds[0]);
      ToolStepsKeepTools(codec, ToolStep(codec, a, ds[0]), ds[1..]);
    }
  }

  /** An event whose deltas are well cut conserves the tool calls. */
  lemma EventKeepsTools(codec: Codec, a: Acc, data: string)
    requires ToolsKept(codec, a)
    requires codec.parse(data).Some? ==> WellCutAll(a.tool.id != "", FrameOf(codec.parse(data).value).tools)
    ensures ToolsKept(codec, DataStep(codec, a, data))
  {
    if codec.parse(data).Some? {
      var f := FrameOf(codec.parse(data).value);
      TextStepKeepsTools(a, f);
      ToolStepsKeepTools(codec, TextStep(MetaStep(a, f), f), f.tools);
    }
  }

  // ----- tool calls over a whole stream ------------------------------------------------

  /** Whether a call is open after these deltas. */
  predicate Opens(open: bool, ds: seq<ToolDelta>)
    decreases |ds|
  {
    if ds == [] then open else Opens(open || ds[0].id.Some?, ds[1..])
  }

  lemma {:induction false} ToolStepsOpen(codec: Codec, a: Acc, calls: seq<Call>, ds: seq<ToolDelta>)
    requires Rebuilt(codec, a, calls) && WellCutAll(a.tool.id != "", ds)
    ensures ToolSteps(codec, a, ds).tool.id != "" <==> Opens(a.tool.id != "", ds)
    decreases |ds|
  {
    if ds != [] {
      ToolStepRebuilds(codec, a, calls, ds[0]);
      ToolStepsOpen(codec, ToolStep(codec, a, ds[0]), CallStep(calls, ds[0]), ds[1..]);
    }
  }

  function ToolsIn(codec: Codec, data: string): seq<ToolDelta> {
    match codec.parse(data)
    case None => []
    case Some(j) => FrameOf(j).tools
  }

  /** Every delta of a chunk up to `[DONE]` is well cut. */
  predicate ChunkWellCut(codec: Codec, open: bool, es: seq<SseEvent>)
    decreases |es|
  {
    es == [] || es[0].data == "[DONE]"
    || (WellCutAll(open, ToolsIn(codec, es[0].data)) && ChunkWellCut(codec, Opens(open, ToolsIn(codec, es[0].data)), es[1..]))
  }

  /** Whether a call is open after a chunk: `[DONE]` closes it. */
  predicate ChunkOpens(codec: Codec, open: bool, es: seq<SseEvent>)
    decreases |es|
  {
    if es == [] then open
    else es[0].data != "[DONE]" && ChunkOpens(codec, Opens(open, ToolsIn(codec, es[0].data)), es[1..])
  }

  predicate StreamWellCut(codec: Codec, open: bool, buffer: string, chunks: seq<string>)
    decreases |chunks|
  {
    chunks == []
    || var d := Drain(buffer + chunks[0]);
       ChunkWellCut(codec, open, d.events) && StreamWellCut(codec, ChunkOpens(codec, open, d.events), d.rest, chunks[1..])
  }

  lemma DataOpens(codec: Codec, a: Acc, data: string)
    requires ToolsKept(codec, a) && WellCutAll(a.tool.id != "", ToolsIn(codec, data))
    ensures DataStep(codec, a, data).tool.id != "" <==> Opens(a.tool.id != "", ToolsIn(codec, data))
  {
    if codec.parse(data).Some? {
      var f := FrameOf(codec.parse(data).value);
      TextStepKeepsTools(a, f);
      ToolStepsOpen(codec, TextStep(MetaStep(a, f), f), SentCalls(a.sent), f.tools);
    }
  }

  lemma {:induction false} ChunkKeepsTools(codec: Codec, a: Acc, es: seq<SseEvent>)
    requires ToolsKept(codec, a) && ChunkWellCut(codec, a.tool.id != "", es)
    ensures ToolsKept(codec, ChunkStep(codec, a, es))
    ensures ChunkStep(codec, a, es).tool.id != "" <==> ChunkOpens(codec, a.tool.id != "", es)
    decreases |es|
  {
    hide ToolsKept, DataStep, Finish;
    if es != [] {
      if es[0].data == "[DONE]" {
        FinishKeepsTools(codec, a);
      } else {
        EventKeepsTools(codec, a, es[0].data);
        DataOpens(codec, a, es[0].data);
        ChunkKeepsTools(codec, DataStep(codec, a, es[0].data), es[1..]);
      }
    }
  }

  /** Over any well-cut stream in any chunking, the tool blocks and the open call match the calls sent. */
  lemma {:induction false} StreamKeepsTools(codec: Codec, a: Acc, buffer: string, chunks: seq<string>)
    requires ToolsKept(codec, a) && StreamWellCut(codec, a.tool.id != "", buffer, chunks)
    ensures ToolsKept(codec, ChunkSteps(codec, a, buffer, chunks))
    decreases |chunks|
  {
    hide ToolsKept, ChunkStep, Drain;
    if chunks != [] {
      var d := Drain(buffer + chunks[0]);
      ChunkKeepsTools(codec, a, d.events);
      StreamKeepsTools(codec, ChunkStep(codec, a, d.events), d.rest, chunks[1..]);
    }
  }

  // ----- exactly when every delta of a stream is conserved -----------------------------

  /** The calls are kept after every one of these deltas. */
  predicate DeltasKept(codec: Codec, a: Acc, ds: seq<ToolDelta>)
    decreases |ds|
  {
    ds == [] || (ToolsKept(codec, ToolStep(codec, a, ds[0])) && DeltasKept(codec, ToolStep(codec, a, ds[0]), ds[1..]))
  }

  /** The accumulator when the tool-call deltas of an event come. */
  function BeforeTools(codec: Codec, a: Acc, data: string): Acc {
    match codec.parse(data)
    case None => a
    case Some(j) => TextStep(MetaStep(a, FrameOf(j)), FrameOf(j))
  }

  predicate EventsKept(codec: Codec, a: Acc, es: seq<SseEvent>)
    decreases |es|
  {
    es == [] || es[0].data == "[DONE]"
    || (DeltasKept(codec, BeforeTools(codec, a, es[0].data), ToolsIn(codec, es[0].data))
        && EventsKept(codec, DataStep(codec, a, es[0].data), es[1..]))
  }

  /** The calls are kept after every delta of the stream that is read. */
  predicate StreamKept(codec: Codec, a: Acc, buffer: string, chunks: seq<string>)
    decreases |chunks|
  {
    chunks == []
    || var d := Drain(buffer + chunks[0]);
       EventsKept(codec, a, d.events) && StreamKept(codec, ChunkStep(codec, a, d.events), d.rest, chunks[1..])
  }

  lemma {:induction false} DeltasKeptExactly(codec: Codec, a: Acc, ds: seq<ToolDelta>)
    requires ToolsKept(codec, a)
    ensures DeltasKept(codec, a, ds) <==> WellCutAll(a.tool.id != "", ds)
    decreases |ds|
  {
    hide WellCut;
    if ds != [] {
      ToolStepKeepsExactly(codec, a, ds[0]);
      if WellCut(a.tool.id != "", ds[0]) {
        ToolStepRebuilds(codec, a, SentCalls(a.sent), ds[0]);
        DeltasKeptExactly(codec, ToolStep(codec, a, ds[0]), ds[1..]);
      }
    }
  }

  lemma BeforeToolsKept(codec: Codec, a: Acc, data: string)
    requires ToolsKept(codec, a)
    ensures ToolsKept(codec, BeforeTools(codec, a, data)) && BeforeTools(codec, a, data).tool == a.tool
  {
    if codec.parse(data).Some? {
      TextStepKeepsTools(a, FrameOf(codec.parse(data).value));
    }
  }

  lemma {:induction false} EventsKeptExactly(codec: Codec, a: Acc, es: seq<SseEvent>)
    requires ToolsKept(codec, a)
    ensures EventsKept(codec, a, es) <==> ChunkWellCut(codec, a.tool.id != "", es)
    decreases |es|
  {
    hide ToolsKept, DataStep, BeforeTools, ToolsIn, DeltasKept, WellCutAll, Opens;
    if es != [] && es[0].data != "[DONE]" {
      var data := es[0].data;
      BeforeToolsKept(codec, a, data);
      DeltasKeptExactly(codec, BeforeTools(codec, a, data), ToolsIn(codec, data));
      if WellCutAll(a.tool.id != "", ToolsIn(codec, data)) {
        DataKeepsTools(codec, a, data);
        EventsKeptExactly(codec, DataStep(codec, a, data), es[1..]);
      }
    }
  }

  lemma DataKeepsTools(codec: Codec, a: Acc, data: string)
    requires ToolsKept(codec, a) && WellCutAll(a.tool.id != "", ToolsIn(codec, data))
    ensures ToolsKept(codec, DataStep(codec, a, data))
    ensures DataStep(codec, a, data).tool.id != "" <==> Opens(a.tool.id != "", ToolsIn(codec, data))
  {
    EventKeepsTools(codec, a, data);
    DataOpens(codec, a, data);
  }

  /** The calls are kept after every delta of a stream if and only if every delta of it is well cut. */
  lemma {:induction false} StreamKeptExactly(codec: Codec, a: Acc, buffer: string, chunks: seq<string>)
    requires ToolsKept(codec, a)
    ensures StreamKept(codec, a, buffer, chunks) <==> StreamWellCut(codec, a.tool.id != "", buffer, chunks)
    decreases |chunks|
  {
    hide ToolsKept, ChunkStep, Drain, EventsKept, ChunkWellCut, ChunkOpens;
    if chunks != [] {
      var d := Drain(buffer + chunks[0]);
      EventsKeptExactly(codec, a, d.events);
      if ChunkWellCut(codec, a.tool.id != "", d.events) {
        ChunkKeepsTools(codec, a, d.events);
        StreamKeptExactly(codec, ChunkStep(codec, a, d.events), d.rest, chunks[1..]);
      }
    }
  }
}
