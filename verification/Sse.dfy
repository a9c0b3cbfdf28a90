/** The incremental Server-Sent Events parser of src/llm/sse.rs. */
module Sse {
  import opened Wrappers
  import opened Text
  import Seqs

  datatype SseEvent = SseEvent(eventType: Option<string>, data: string)

  // ----- specification -----------------------------------------------------------------

  predicate BlankAt(s: string, i: nat) {
    i + 1 < |s| && s[i] == '\n' && s[i + 1] == '\n'
  }

  ghost predicate NoBlank(s: string) {
    forall i: nat :: !BlankAt(s, i)
  }

  /** `find("\n\n")`: the first event terminator. */
  function FindBlank(s: string): (r: Option<nat>)
    ensures r.None? ==> NoBlank(s)
    ensures r.Some? ==> BlankAt(s, r.value) && forall i: nat | i < r.value :: !BlankAt(s, i)
  {
    FindBlankFrom(s, 0)
  }

  function FindBlankFrom(s: string, from: nat): (r: Option<nat>)
    requires forall i: nat | i < from :: !BlankAt(s, i)
    ensures r.None? ==> NoBlank(s)
    ensures r.Some? ==> BlankAt(s, r.value) && forall i: nat | i < r.value :: !BlankAt(s, i)
    decreases |s| - from
  {
    if from + 1 >= |s| then None
    else if BlankAt(s, from) then Some(from)
    else FindBlankFrom(s, from + 1)
  }

  /** The two variables a block is read into. */
  datatype Fields = Fields(eventType: Option<string>, dataLines: seq<string>)

  function LineField(f: Fields, line: string): Fields {
    if StartsWith(line, ":") then f
    else if StartsWith(line, "event: ") then f.(eventType := Some(line[7..]))
    else if StartsWith(line, "event:") then f.(eventType := Some(line[6..]))
    else if StartsWith(line, "data: ") then f.(dataLines := f.dataLines + [line[6..]])
    else if StartsWith(line, "data:") then f.(dataLines := f.dataLines + [line[5..]])
    else f
  }

  function LineFields(f: Fields, lines: seq<string>): Fields
    decreases |lines|
  {
    if lines == [] then f else LineFields(LineField(f, lines[0]), lines[1..])
  }

  function ReadFields(block: string): Fields {
    LineFields(Fields(None, []), Split(block))
  }

  /** What one block adds to the event list: nothing or one event. */
  function ParseBlock(block: string): seq<SseEvent> {
    if TrimsToEmpty(block) then []
    else
      var f := ReadFields(block);
      if f.dataLines == [] then [] else [SseEvent(f.eventType, Join(f.dataLines))]
  }

  datatype Pieces = Pieces(blocks: seq<string>, rest: string)

  /** The terminated blocks of a text, and what follows the last terminator. */
  function Cut(s: string): Pieces
    decreases |s|
  {
    match FindBlank(s)
    case None => Pieces([], s)
    case Some(p) =>
      var c := Cut(s[p + 2..]);
      Pieces([s[..p]] + c.blocks, c.rest)
  }

  function BlockEvents(blocks: seq<string>): seq<SseEvent> {
    if blocks == [] then [] else ParseBlock(blocks[0]) + BlockEvents(blocks[1..])
  }

  datatype Fed = Fed(events: seq<SseEvent>, rest: string)

  /** All complete events of a text, and what stays in the buffer. */
  function Drain(s: string): Fed {
    Fed(BlockEvents(Cut(s).blocks), Cut(s).rest)
  }

  /** Feeding a list of chunks one after the other. */
  function FeedAll(buffer: string, chunks: seq<string>): Fed
    decreases |chunks|
  {
    if chunks == [] then Fed([], buffer)
    else
      var d := Drain(buffer + chunks[0]);
      var rest := FeedAll(d.rest, chunks[1..]);
      Fed(d.events + rest.events, rest.rest)
  }

  // ----- the parser --------------------------------------------------------------------

  class SseParser {
    var buffer: string

    constructor ()
      ensures buffer == ""
    {
      buffer := "";
    }

    /** Returns exactly the events the buffered text and the chunk complete, and keeps the rest. */
    method Feed(chunk: string) returns (events: seq<SseEvent>)
      modifies this
      ensures Fed(events, buffer) == Drain(old(buffer) + chunk)
      ensures NoBlank(buffer)
    {
      buffer := buffer + chunk;
      events := [];
      ghost var whole := Cut(buffer);
      ghost var done: seq<string> := [];
      while FindBlank(buffer).Some?
        invariant whole == Cut(old(buffer) + chunk)
        invariant whole == Pieces(done + Cut(buffer).blocks, Cut(buffer).rest)
        invariant events == BlockEvents(done)
        decreases |buffer|
      {
        var pos := FindBlank(buffer).value;
        var block := buffer[..pos];
        buffer := buffer[pos + 2..];
        BlockEventsAppend(done, [block]);
        Seqs.Assoc(done, [block], Cut(buffer).blocks);
        done := done + [block];
        if TrimsToEmpty(block) {
          continue;
        }
        var eventType, dataLines := ReadBlock(block);
        if dataLines != [] {
          events := events + [SseEvent(eventType, Join(dataLines))];
        }
      }
      Seqs.Unit(done);
    }

    /** The inner loop of `feed`: one pass over the lines of a block. */
    method ReadBlock(block: string) returns (eventType: Option<string>, dataLines: seq<string>)
      ensures Fields(eventType, dataLines) == ReadFields(block)
    {
      eventType, dataLines := None, [];
      var lines := Split(block);
      var i := 0;
      while i < |lines|
        invariant 0 <= i <= |lines|
        invariant LineFields(Fields(eventType, dataLines), lines[i..]) == ReadFields(block)
      {
        var line := lines[i];
        assert lines[i..][0] == line && lines[i..][1..] == lines[i + 1..];
        i := i + 1;
        if StartsWith(line, ":") {
          continue;
        }
        if StartsWith(line, "event: ") {
          eventType := Some(line[7..]);
        } else if StartsWith(line, "event:") {
          eventType := Some(line[6..]);
        } else if StartsWith(line, "data: ") {
          dataLines := dataLines + [line[6..]];
        } else if StartsWith(line, "data:") {
          dataLines := dataLines + [line[5..]];
        }
      }
    }
  }

  // ----- chunk independence ------------------------------------------------------------

  lemma FindBlankPrefix(a: string, b: string)
    requires FindBlank(a).Some?
    ensures FindBlank(a + b) == FindBlank(a)
  {
    var p := FindBlank(a).value;
    var s := a + b;
    assert forall i: nat | i + 1 < |a| :: BlankAt(s, i) == BlankAt(a, i);
    assert BlankAt(s, p);
    assert forall i: nat | i < p :: BlankAt(s, i) == BlankAt(a, i);
  }

  lemma {:induction false} BlockEventsAppend(a: seq<string>, b: seq<string>)
    ensures BlockEvents(a + b) == BlockEvents(a) + BlockEvents(b)
  {
    if a == [] {
      assert a + b == b;
    } else {
      assert (a + b)[1..] == a[1..] + b;
      BlockEventsAppend(a[1..], b);
    }
  }

  lemma {:induction false} CutSplit(a: string, b: string)
    ensures Cut(a + b).blocks == Cut(a).blocks + Cut(Cut(a).rest + b).blocks
    ensures Cut(a + b).rest == Cut(Cut(a).rest + b).rest
    decreases |a|
  {
    match FindBlank(a)
    case None =>
    case Some(p) =>
      FindBlankPrefix(a, b);
      assert (a + b)[..p] == a[..p];
      assert (a + b)[p + 2..] == a[p + 2..] + b;
      var tail := Cut(a[p + 2..]);
      CutSplit(a[p + 2..], b);
      Seqs.Assoc([a[..p]], tail.blocks, Cut(tail.rest + b).blocks);
  }

  lemma DrainSplit(a: string, b: string)
    ensures Drain(a + b).events == Drain(a).events + Drain(Drain(a).rest + b).events
    ensures Drain(a + b).rest == Drain(Drain(a).rest + b).rest
  {
    CutSplit(a, b);
    BlockEventsAppend(Cut(a).blocks, Cut(Cut(a).rest + b).blocks);
  }

  lemma {:induction false} DrainLeavesNoBlank(s: string)
    ensures NoBlank(Drain(s).rest)
    decreases |s|
  {
    match FindBlank(s)
    case None =>
    case Some(p) => DrainLeavesNoBlank(s[p + 2..]);
  }

  lemma NothingToDrain(s: string)
    requires NoBlank(s)
    ensures Drain(s) == Fed([], s)
  {
    assert FindBlank(s).None?;
  }

  /** For every text and every way of cutting it, the events and the final buffer are those of one feed. */
  lemma {:induction false} ChunkIndependence(buffer: string, chunks: seq<string>)
    requires NoBlank(buffer)
    ensures FeedAll(buffer, chunks) == Drain(buffer + Concat(chunks))
    ensures NoBlank(FeedAll(buffer, chunks).rest)
    decreases |chunks|
  {
    hide Drain, NoBlank;
    if chunks == [] {
      NothingToDrain(buffer);
      Seqs.Unit(buffer);
    } else {
      var first, rest := buffer + chunks[0], Concat(chunks[1..]);
      DrainLeavesNoBlank(first);
      ChunkIndependence(Drain(first).rest, chunks[1..]);
      DrainSplit(first, rest);
      Seqs.Assoc(buffer, chunks[0], rest);
    }
  }

  // ----- printing and reading back -----------------------------------------------------

  function DataLines(lines: seq<string>): seq<string> {
    if lines == [] then [] else ["data: " + lines[0]] + DataLines(lines[1..])
  }

  function EventLines(e: SseEvent): seq<string> {
    (if e.eventType.Some? then ["event: " + e.eventType.value] else []) + DataLines(Split(e.data))
  }

  /** An event as a sender writes it: an optional `event: ` line, `data: ` lines, and a blank line. */
  function Print(e: SseEvent): string {
    Join(EventLines(e)) + "\n\n"
  }

  function PrintAll(es: seq<SseEvent>): string {
    if es == [] then "" else Print(es[0]) + PrintAll(es[1..])
  }

  predicate Printable(e: SseEvent) {
    e.eventType.Some? ==> LfFree(e.eventType.value)
  }

  /** Lines that keep a block in one piece. */
  predicate Solid(lines: seq<string>) {
    forall l | l in lines :: l != "" && LfFree(l)
  }

  lemma {:induction false} DataLinesSolid(lines: seq<string>)
    requires forall l | l in lines :: LfFree(l)
    ensures Solid(DataLines(lines)) && |DataLines(lines)| == |lines|
  {
    if lines != [] {
      assert LfFree(lines[0]);
      DataLinesSolid(lines[1..]);
    }
  }

  lemma {:induction false} DataLinesRead(f: Fields, lines: seq<string>)
    ensures LineFields(f, DataLines(lines)) == f.(dataLines := f.dataLines + lines)
    decreases |lines|
  {
    if lines == [] {
      assert f.dataLines + lines == f.dataLines;
    } else {
      var line := "data: " + lines[0];
      assert !StartsWith(line, ":") by { assert line[0] == 'd'; }
      assert !StartsWith(line, "event: ") by { assert line[0] == 'd'; }
      assert !StartsWith(line, "event:") by { assert line[0] == 'd'; }
      assert StartsWith(line, "data: ") && line[6..] == lines[0];
      var f' := LineField(f, line);
      assert f' == f.(dataLines := f.dataLines + [lines[0]]);
      DataLinesRead(f', lines[1..]);
      assert f'.dataLines + lines[1..] == f.dataLines + lines;
      assert DataLines(lines)[1..] == DataLines(lines[1..]);
    }
  }

  lemma EventLinesRead(e: SseEvent)
    ensures LineFields(Fields(None, []), EventLines(e)) == Fields(e.eventType, Split(e.data))
  {
    var f := Fields(None, []);
    if e.eventType.Some? {
      var line := "event: " + e.eventType.value;
      assert !StartsWith(line, ":") by { assert line[0] == 'e'; }
      assert StartsWith(line, "event: ") && line[7..] == e.eventType.value;
      assert EventLines(e)[1..] == DataLines(Split(e.data));
      DataLinesRead(Fields(e.eventType, []), Split(e.data));
    } else {
      assert EventLines(e) == DataLines(Split(e.data));
      DataLinesRead(f, Split(e.data));
    }
    assert [] + Split(e.data) == Split(e.data);
  }

  lemma {:induction false} SolidJoin(lines: seq<string>)
    requires |lines| >= 1 && Solid(lines)
    ensures Join(lines) != "" && Join(lines)[0] != '\n' && Join(lines)[|Join(lines)| - 1] != '\n'
    ensures NoBlank(Join(lines))
  {
    var l := lines[0];
    assert l in lines && LfFree(l) && l != "";
    assert forall i | 0 <= i < |l| :: l[i] != '\n';
    if |lines| > 1 {
      var r := Join(lines[1..]);
      SolidJoin(lines[1..]);
      var s := l + "\n" + r;
      assert s == Join(lines);
      assert forall i | 0 <= i < |l| :: s[i] == l[i];
      assert forall i | |l| < i < |s| :: s[i] == r[i - |l| - 1];
      assert forall i: nat | |l| < i :: BlankAt(s, i) == BlankAt(r, i - |l| - 1);
      assert forall i: nat | i < |l| :: !BlankAt(s, i);
    }
  }

  lemma FindBlankAfter(block: string, rest: string)
    requires NoBlank(block) && block != "" && block[|block| - 1] != '\n'
    ensures FindBlank(block + "\n\n" + rest) == Some(|block|)
  {
    var s := block + "\n\n" + rest;
    assert BlankAt(s, |block|);
    forall i: nat | i < |block| ensures !BlankAt(s, i) {
      assert s[i] == block[i];
      if i + 1 < |block| {
        assert s[i + 1] == block[i + 1];
        assert !BlankAt(block, i);
      }
    }
  }

  lemma EventLinesSolid(e: SseEvent)
    requires Printable(e)
    ensures Solid(EventLines(e)) && |EventLines(e)| >= 1
    ensures !IsWhite(Join(EventLines(e))[0])
  {
    var lines := EventLines(e);
    DataLinesSolid(Split(e.data));
    SolidJoin(lines);
    assert lines[0][0] == 'e' || lines[0][0] == 'd';
    assert Join(lines)[0] == lines[0][0];
  }

  lemma PrintedBlock(e: SseEvent)
    requires Printable(e)
    ensures ParseBlock(Join(EventLines(e))) == [e]
  {
    EventLinesSolid(e);
    SplitJoin(EventLines(e));
    EventLinesRead(e);
    JoinSplit(e.data);
  }

  lemma PrintedEnd(e: SseEvent, rest: string)
    requires Printable(e)
    ensures FindBlank(Print(e) + rest) == Some(|Print(e)| - 2)
  {
    var block := Join(EventLines(e));
    EventLinesSolid(e);
    SolidJoin(EventLines(e));
    FindBlankAfter(block, rest);
    assert Print(e) + rest == block + "\n\n" + rest;
  }

  lemma {:induction false} DrainPrinted(es: seq<SseEvent>)
    requires forall e | e in es :: Printable(e)
    ensures Drain(PrintAll(es)) == Fed(es, "")
  {
    if es != [] {
      var e := es[0];
      var rest := PrintAll(es[1..]);
      assert e in es;
      PrintedBlock(e);
      PrintedEnd(e, rest);
      var s := Print(e) + rest;
      assert s[..|Print(e)| - 2] == Join(EventLines(e));
      assert s[|Print(e)|..] == rest;
      DrainPrinted(es[1..]);
      assert es == [e] + es[1..];
    }
  }

  /** Printing any list of events and feeding it in any chunking gives that list back and empties the buffer. */
  lemma RoundTrip(es: seq<SseEvent>, chunks: seq<string>)
    requires forall e | e in es :: Printable(e)
    requires Concat(chunks) == PrintAll(es)
    ensures FeedAll("", chunks) == Fed(es, "")
  {
    ChunkIndependence("", chunks);
    assert "" + Concat(chunks) == PrintAll(es);
    DrainPrinted(es);
  }
}
