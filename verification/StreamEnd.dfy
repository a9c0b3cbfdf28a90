/** What may follow `[DONE]`: when the result does not depend on the chunking. */
module StreamEnd {
  import opened Text
  import opened Json
  import opened LlmTypes
  import opened StreamDecoder
  import opened StreamedWhole
  import opened Sse
  import Seqs

  // ----- frames that change nothing ----------------------------------------------------

  /** The documents among the events. */
  function Frames(codec: Codec, es: seq<SseEvent>): seq<Frame> {
    if es == [] then []
    else
      (match codec.parse(es[0].data) case None => [] case Some(j) => [FrameOf(j)]) + Frames(codec, es[1..])
  }

  lemma {:induction false} DataStepsAreFrames(codec: Codec, a: Acc, es: seq<SseEvent>)
    ensures DataSteps(codec, a, es) == RunFrames(codec, a, Frames(codec, es))
    decreases |es|
  {
    hide FrameStep, FrameOf;
    if es != [] {
      var rest := Frames(codec, es[1..]);
      DataStepsAreFrames(codec, DataStep(codec, a, es[0].data), es[1..]);
      match codec.parse(es[0].data)
      case None => Seqs.Unit(rest);
      case Some(j) => assert ([FrameOf(j)] + rest)[1..] == rest;
    }
  }

  predicate SilentDeltas(ds: seq<ToolDelta>) {
    forall i | 0 <= i < |ds| :: ds[i].id.None? && ds[i].args.None?
  }

  /** A document without deltas. */
  predicate Silent(f: Frame) {
    f.thinking.None? && f.text.None? && SilentDeltas(f.tools)
  }

  predicate AllSilent(fs: seq<Frame>) {
    forall i | 0 <= i < |fs| :: Silent(fs[i])
  }

  lemma {:induction false} ToolStepsSend(codec: Codec, a: Acc, ds: seq<ToolDelta>)
    ensures SilentDeltas(ds) ==> ToolSteps(codec, a, ds) == a
    ensures |ToolSteps(codec, a, ds).sent| >= |a.sent|
    ensures !SilentDeltas(ds) ==> |ToolSteps(codec, a, ds).sent| > |a.sent|
    decreases |ds|
  {
    if ds != [] {
      ToolStepsSend(codec, ToolStep(codec, a, ds[0]), ds[1..]);
      assert SilentDeltas(ds) <==> ds[0].id.None? && ds[0].args.None? && SilentDeltas(ds[1..]) by {
        assert forall i | 1 <= i < |ds| :: ds[i] == ds[1..][i - 1];
        assert forall i | 0 <= i < |ds| - 1 :: ds[1..][i] == ds[i + 1];
      }
    }
  }

  lemma FrameSends(codec: Codec, a: Acc, f: Frame)
    ensures Silent(f) ==> FrameStep(codec, a, f) == MetaStep(a, f)
    ensures |FrameStep(codec, a, f).sent| >= |a.sent|
    ensures !Silent(f) ==> |FrameStep(codec, a, f).sent| > |a.sent|
  {
    hide SilentDeltas, ToolSteps;
    ToolStepsSend(codec, TextStep(MetaStep(a, f), f), f.tools);
  }

  /** A run without deltas leaves everything but stop reason and usage alone; any delta is sent. */
  lemma {:induction false} RunSends(codec: Codec, a: Acc, fs: seq<Frame>)
    ensures var b := RunFrames(codec, a, fs);
            && |b.sent| >= |a.sent|
            && (AllSilent(fs) ==> b == a.(stopReason := b.stopReason, usage := b.usage))
            && (!AllSilent(fs) ==> |b.sent| > |a.sent|)
    decreases |fs|
  {
    hide Silent, FrameStep;
    if fs != [] {
      FrameSends(codec, a, fs[0]);
      RunSends(codec, FrameStep(codec, a, fs[0]), fs[1..]);
      assert AllSilent(fs) <==> Silent(fs[0]) && AllSilent(fs[1..]) by {
        assert forall i | 1 <= i < |fs| :: fs[i] == fs[1..][i - 1];
        assert forall i | 0 <= i < |fs| - 1 :: fs[1..][i] == fs[i + 1];
      }
    }
  }

  /** No deltas, and the last finish reason and token counts, if any, are those already held. */
  predicate NothingNew(b: Acc, fs: seq<Frame>) {
    && AllSilent(fs)
    && (LastFinish(fs).Some? ==> ParseFinishReason(LastFinish(fs).value) == b.stopReason)
    && (LastInput(fs).Some? ==> ToU32(LastInput(fs).value) == b.usage.inputTokens)
    && (LastOutput(fs).Some? ==> ToU32(LastOutput(fs).value) == b.usage.outputTokens)
  }

  /** Documents leave the accumulator as it is if and only if they bring nothing new. */
  lemma UnchangedExactly(codec: Codec, b: Acc, fs: seq<Frame>)
    ensures RunFrames(codec, b, fs) == b <==> NothingNew(b, fs)
  {
    hide AllSilent, RunFrames;
    RunSends(codec, b, fs);
    FramesMeta(codec, b, fs);
  }

  lemma {:induction false} SuffixNothingNew(b: Acc, fs: seq<Frame>, gs: seq<Frame>)
    requires NothingNew(b, fs + gs)
    ensures NothingNew(b, gs)
    decreases |fs|
  {
    hide Silent;
    if fs == [] {
      Seqs.Unit(gs);
    } else {
      Seqs.TailOfSum(fs, gs);
      assert forall i | 0 <= i < |fs[1..] + gs| :: (fs[1..] + gs)[i] == (fs + gs)[i + 1];
      SuffixNothingNew(b, fs[1..], gs);
    }
  }

  lemma {:induction false} FramesAppend(codec: Codec, es: seq<SseEvent>, gs: seq<SseEvent>)
    ensures Frames(codec, es + gs) == Frames(codec, es) + Frames(codec, gs)
    decreases |es|
  {
    hide FrameOf;
    if es == [] {
      Seqs.Unit(gs);
      Seqs.Unit(Frames(codec, gs));
    } else {
      Seqs.TailOfSum(es, gs);
      FramesAppend(codec, es[1..], gs);
      Seqs.Assoc(match codec.parse(es[0].data) case None => [] case Some(j) => [FrameOf(j)],
        Frames(codec, es[1..]), Frames(codec, gs));
    }
  }

  // ----- every chunking ----------------------------------------------------------------

  /** `[DONE]` drops what follows it in its chunk. */
  lemma {:induction false} ChunkThroughDone(codec: Codec, a: Acc, pre: seq<SseEvent>, done: SseEvent, tail: seq<SseEvent>)
    requires NoDone(pre) && done.data == "[DONE]"
    ensures ChunkStep(codec, a, pre + [done] + tail) == Finish(codec, DataSteps(codec, a, pre))
    decreases |pre|
  {
    hide Finish, DataStep;
    var es := pre + [done] + tail;
    if pre == [] {
      assert es[0] == done;
    } else {
      assert es[0] == pre[0] && es[1..] == pre[1..] + [done] + tail;
      ChunkThroughDone(codec, DataStep(codec, a, pre[0].data), pre[1..], done, tail);
    }
  }

  /** Where a chunk ends: before the marker, or after it. */
  lemma SplitAtDone(d: seq<SseEvent>, rest: seq<SseEvent>, pre: seq<SseEvent>, done: SseEvent, tail: seq<SseEvent>)
    requires d + rest == pre + [done] + tail
    ensures |d| <= |pre| ==> d == pre[..|d|] && rest == pre[|d|..] + [done] + tail
    ensures |d| > |pre| ==> var k := |d| - |pre| - 1;
                            k <= |tail| && d == pre + [done] + tail[..k] && rest == tail[k..]
  {
    var es := pre + [done] + tail;
    assert d == es[..|d|] && rest == es[|d|..];
  }

  lemma {:induction false} EveryChunking(codec: Codec, a: Acc, buffer: string, chunks: seq<string>,
      pre: seq<SseEvent>, done: SseEvent, tail: seq<SseEvent>)
    requires FeedAll(buffer, chunks).events == pre + [done] + tail
    requires NoDone(pre) && done.data == "[DONE]" && NoDone(tail)
    requires NothingNew(Finish(codec, DataSteps(codec, a, pre)), Frames(codec, tail))
    ensures ChunkSteps(codec, a, buffer, chunks) == Finish(codec, DataSteps(codec, a, pre))
    decreases |chunks|
  {
    hide ChunkStep, DataSteps, Finish, Drain, NothingNew, Frames;
    if chunks != [] {
      var d := Drain(buffer + chunks[0]);
      var rest := FeedAll(d.rest, chunks[1..]).events;
      SplitAtDone(d.events, rest, pre, done, tail);
      if |d.events| <= |pre| {
        var k := |d.events|;
        ChunkWithoutDone(codec, a, d.events);
        assert pre == pre[..k] + pre[k..];
        DataStepsAppend(codec, a, pre[..k], pre[k..]);
        EveryChunking(codec, DataSteps(codec, a, d.events), d.rest, chunks[1..], pre[k..], done, tail);
      } else {
        var k := |d.events| - |pre| - 1;
        ChunkThroughDone(codec, a, pre, done, tail[..k]);
        AfterDone(codec, Finish(codec, DataSteps(codec, a, pre)), d.rest, chunks[1..], tail, k);
      }
    }
  }

  lemma AfterDone(codec: Codec, b: Acc, buffer: string, chunks: seq<string>, tail: seq<SseEvent>, k: nat)
    requires k <= |tail| && NoDone(tail) && NothingNew(b, Frames(codec, tail))
    requires FeedAll(buffer, chunks).events == tail[k..]
    ensures ChunkSteps(codec, b, buffer, chunks) == b
  {
    hide NothingNew, Frames, FeedAll, ChunkSteps;
    assert tail == tail[..k] + tail[k..];
    FramesAppend(codec, tail[..k], tail[k..]);
    SuffixNothingNew(b, Frames(codec, tail[..k]), Frames(codec, tail[k..]));
    AnyChunkingWithoutDone(codec, b, buffer, chunks, tail[k..]);
    DataStepsAreFrames(codec, b, tail[k..]);
    UnchangedExactly(codec, b, Frames(codec, tail[k..]));
  }

  // ----- two chunkings that differ -----------------------------------------------------

  lemma OneChunk(codec: Codec, a: Acc, c: string, es: seq<SseEvent>)
    requires Drain(c) == Fed(es, "")
    ensures ChunkSteps(codec, a, "", [c]) == ChunkStep(codec, a, es)
  {
    hide Drain;
    Seqs.Unit(c);
    assert [c][1..] == [];
  }

  lemma TwoChunks(codec: Codec, a: Acc, c: string, d: string, es: seq<SseEvent>, fs: seq<SseEvent>)
    requires Drain(c) == Fed(es, "") && Drain(d) == Fed(fs, "")
    ensures ChunkSteps(codec, a, "", [c, d]) == ChunkStep(codec, ChunkStep(codec, a, es), fs)
  {
    hide Drain, ChunkStep;
    Seqs.Unit(c);
    assert [c, d][1..] == [d];
    OneChunk(codec, ChunkStep(codec, a, es), d, fs);
  }

  lemma {:induction false} PrintAllAppend(es: seq<SseEvent>, gs: seq<SseEvent>)
    ensures PrintAll(es + gs) == PrintAll(es) + PrintAll(gs)
    decreases |es|
  {
    hide Print;
    if es == [] {
      Seqs.Unit(gs);
      Seqs.Unit(PrintAll(gs));
    } else {
      Seqs.TailOfSum(es, gs);
      PrintAllAppend(es[1..], gs);
      Seqs.Assoc(Print(es[0]), PrintAll(es[1..]), PrintAll(gs));
    }
  }

  predicate AllPrintable(es: seq<SseEvent>) {
    forall e | e in es :: Printable(e)
  }

  /** Cutting the stream between two events. */
  lemma CutBetween(codec: Codec, a: Acc, es: seq<SseEvent>, gs: seq<SseEvent>)
    requires AllPrintable(es) && AllPrintable(gs)
    ensures Concat([PrintAll(es), PrintAll(gs)]) == PrintAll(es + gs)
    ensures ChunkSteps(codec, a, "", [PrintAll(es), PrintAll(gs)]) == ChunkStep(codec, ChunkStep(codec, a, es), gs)
  {
    hide ChunkStep, Drain, Printable, PrintAll;
    DrainPrinted(es);
    DrainPrinted(gs);
    TwoChunks(codec, a, PrintAll(es), PrintAll(gs), es, gs);
    PrintAllAppend(es, gs);
    ConcatTwo(PrintAll(es), PrintAll(gs));
  }

  lemma ConcatTwo(a: string, b: string)
    ensures Concat([a, b]) == a + b && Concat([a]) == a
  {
    assert [a][1..] == [] && [b][1..] == [];
    assert Concat([a]) == a + "" && Concat([b]) == b + "";
    Seqs.Unit(a);
    Seqs.Unit(b);
    assert [a, b][1..] == [b];
  }

  lemma {:induction false} FirstDone(es: seq<SseEvent>) returns (k: nat)
    requires !NoDone(es)
    ensures k < |es| && es[k].data == "[DONE]" && NoDone(es[..k])
  {
    k := |es| - 1;
    if !NoDone(es[..k]) {
      var init := es[..k];
      k := FirstDone(init);
      assert es[..k] == init[..k];
    }
  }

  /** A second marker is sent again, so the chunking that reads it differs. */
  lemma SecondDone(codec: Codec, b: Acc, tail: seq<SseEvent>)
    requires tail != [] && tail[0].data == "[DONE]"
    ensures ChunkStep(codec, b, tail) != b
  {
  }

  /** The text of a stream in which documents and markers follow the first marker. */
  function Stream(pre: seq<SseEvent>, done: SseEvent, tail: seq<SseEvent>): string {
    PrintAll(pre + [done] + tail)
  }

  ghost predicate ChunkingNeverMatters(codec: Codec, a: Acc, text: string) {
    forall c: seq<string>, d: seq<string> | Concat(c) == text && Concat(d) == text ::
      ChunkSteps(codec, a, "", c) == ChunkSteps(codec, a, "", d)
  }

  lemma TailMatters(codec: Codec, a: Acc, pre: seq<SseEvent>, done: SseEvent, tail: seq<SseEvent>)
    requires NoDone(pre) && done.data == "[DONE]" && AllPrintable(pre + [done] + tail)
    requires ChunkingNeverMatters(codec, a, Stream(pre, done, tail))
    ensures NoDone(tail) && NothingNew(Finish(codec, DataSteps(codec, a, pre)), Frames(codec, tail))
  {
    hide ChunkStep, DataSteps, Finish, NothingNew, Frames, ChunkSteps, PrintAll, Printable;
    var b := Finish(codec, DataSteps(codec, a, pre));
    var k := 0;
    if !NoDone(tail) {
      k := FirstDone(tail);
    }
    var early, late := pre + [done] + tail[..k], tail[k..];
    assert early + late == pre + [done] + tail;
    assert forall e | e in early || e in late :: e in pre + [done] + tail;
    CutBetween(codec, a, early, late);
    CutBetween(codec, a, early + late, []);
    Seqs.Unit(early + late);
    ChunkThroughDone(codec, a, pre, done, tail[..k]);
    ChunkThroughDone(codec, a, pre, done, tail);
    NoEvents(codec, b);
    assert ChunkStep(codec, b, late) == b;
    if !NoDone(tail) {
      SecondDone(codec, b, late);
    } else {
      assert late == tail;
      ChunkWithoutDone(codec, b, tail);
      DataStepsAreFrames(codec, b, tail);
      UnchangedExactly(codec, b, Frames(codec, tail));
    }
  }

  lemma NoEvents(codec: Codec, b: Acc)
    ensures ChunkStep(codec, b, []) == b
  {
  }

  /**
   After `[DONE]` the chunking never matters if and only if no second `[DONE]` follows and the documents that follow
   have no deltas and end with the finish reason and the token counts already held.
   */
  lemma AfterDoneExactly(codec: Codec, a: Acc, pre: seq<SseEvent>, done: SseEvent, tail: seq<SseEvent>)
    requires NoDone(pre) && done.data == "[DONE]" && AllPrintable(pre + [done] + tail)
    ensures ChunkingNeverMatters(codec, a, Stream(pre, done, tail))
            <==> NoDone(tail) && NothingNew(Finish(codec, DataSteps(codec, a, pre)), Frames(codec, tail))
  {
    hide NoDone, NothingNew, Frames, Finish, DataSteps, ChunkSteps, PrintAll;
    var b := Finish(codec, DataSteps(codec, a, pre));
    if ChunkingNeverMatters(codec, a, Stream(pre, done, tail)) {
      TailMatters(codec, a, pre, done, tail);
    }
    if NoDone(tail) && NothingNew(b, Frames(codec, tail)) {
      forall c: seq<string> | Concat(c) == Stream(pre, done, tail) ensures ChunkSteps(codec, a, "", c) == b {
        RoundTrip(pre + [done] + tail, c);
        EveryChunking(codec, a, "", c, pre, done, tail);
      }
    }
  }
}
