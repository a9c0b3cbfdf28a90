/**
 Sections 9.2.5 and 9.2.6 of the WHATWG HTML Living Standard ("Parsing an event stream",
 "Interpreting an event stream"), restricted to the event type and data buffers, and what
 the block-splitting parser has to do with them.
 */
module SseStandard {
  import opened Wrappers
  import opened Text
  import opened Sse
  import Seqs

  // ----- the standard ------------------------------------------------------------------

  datatype Message = Message(eventType: string, data: string)

  datatype Buffers = Buffers(dataBuffer: string, typeBuffer: string, dispatched: seq<Message>)

  const Start := Buffers("", "", [])

  function FindEol(s: string, from: nat): (r: Option<nat>)
    requires from <= |s|
    ensures r.Some? ==> from <= r.value < |s|
    decreases |s| - from
  {
    if from == |s| then None
    else if s[from] == '\r' || s[from] == '\n' then Some(from)
    else FindEol(s, from + 1)
  }

  /** Lines end with CR LF, LF or CR; what follows the last line end is discarded. */
  function Lines(s: string): seq<string>
    decreases |s|
  {
    match FindEol(s, 0)
    case None => []
    case Some(p) =>
      var next := if s[p] == '\r' && p + 1 < |s| && s[p + 1] == '\n' then p + 2 else p + 1;
      [s[..p]] + Lines(s[next..])
  }

  function SkipBom(s: string): string {
    if s != "" && s[0] == '\U{FEFF}' then s[1..] else s
  }

  function FindColon(line: string, from: nat): (r: Option<nat>)
    requires from <= |line|
    ensures r.Some? ==> from <= r.value < |line|
    decreases |line| - from
  {
    if from == |line| then None
    else if line[from] == ':' then Some(from)
    else FindColon(line, from + 1)
  }

  function Field(b: Buffers, name: string, value: string): Buffers {
    if name == "event" then b.(typeBuffer := value)
    else if name == "data" then b.(dataBuffer := b.dataBuffer + value + "\n")
    else b
  }

  function Dispatch(b: Buffers): Buffers {
    if b.dataBuffer == "" then Buffers("", "", b.dispatched)
    else
      var n := |b.dataBuffer| - 1;
      var data := if b.dataBuffer[n] == '\n' then b.dataBuffer[..n] else b.dataBuffer;
      Buffers("", "", b.dispatched + [Message(if b.typeBuffer == "" then "message" else b.typeBuffer, data)])
  }

  function Line(b: Buffers, line: string): Buffers {
    if line == "" then Dispatch(b)
    else if line[0] == ':' then b
    else
      match FindColon(line, 0)
      case None => Field(b, line, "")
      case Some(p) =>
        var value := line[p + 1..];
        Field(b, line[..p], if value != "" && value[0] == ' ' then value[1..] else value)
  }

  function Run(b: Buffers, lines: seq<string>): Buffers
    decreases |lines|
  {
    if lines == [] then b else Run(Line(b, lines[0]), lines[1..])
  }

  function Interpret(s: string): seq<Message> {
    Run(Start, Lines(SkipBom(s))).dispatched
  }

  // ----- reading the parser's events as messages ---------------------------------------

  function Meaning(e: SseEvent): Message {
    var t := e.eventType.GetOr("");
    Message(if t == "" then "message" else t, e.data)
  }

  function Meanings(es: seq<SseEvent>): seq<Message> {
    if es == [] then [] else [Meaning(es[0])] + Meanings(es[1..])
  }

  /** A bare field name is the field with an empty value. */
  function Expand(line: string): string {
    if line == "data" then "data:" else if line == "event" then "event:" else line
  }

  function ExpandAll(lines: seq<string>): seq<string> {
    if lines == [] then [] else [Expand(lines[0])] + ExpandAll(lines[1..])
  }

  function FieldsOf(lines: seq<string>): Fields {
    LineFields(Fields(None, []), lines)
  }

  function FieldMessages(f: Fields): seq<Message> {
    if f.dataLines == [] then [] else [Meaning(SseEvent(f.eventType, Join(f.dataLines)))]
  }

  // ----- conditions --------------------------------------------------------------------

  /** The value of the last `event:` line. */
  function LastType(lines: seq<string>): string {
    if lines == [] then ""
    else
      var n := |lines| - 1;
      if StartsWith(lines[n], "event: ") then lines[n][7..]
      else if StartsWith(lines[n], "event:") then lines[n][6..]
      else LastType(lines[..n])
  }

  /** The last line that names the event type is a bare `event`, and a type other than `message` came before it. */
  predicate ClearsType(lines: seq<string>) {
    lines != [] &&
    var n := |lines| - 1;
    !StartsWith(lines[n], "event:") &&
    if lines[n] == "event" then LastType(lines[..n]) !in {"", "message"} else ClearsType(lines[..n])
  }

  predicate HasData(lines: seq<string>) {
    lines != [] && (StartsWith(lines[|lines| - 1], "data:") || HasData(lines[..|lines| - 1]))
  }

  /** The lines of a block whose bare field names do not matter. */
  predicate Plain(lines: seq<string>) {
    "data" !in lines && (HasData(lines) ==> !ClearsType(lines))
  }

  predicate LfOnly(s: string) {
    '\r' !in s && (s != "" ==> s[0] != '\U{FEFF}')
  }

  // ----- lines of an LF-only stream ----------------------------------------------------

  function Complete(lines: seq<string>): seq<string>
    requires |lines| >= 1
  {
    lines[..|lines| - 1]
  }

  lemma {:induction false} EolIsLf(s: string, from: nat)
    requires '\r' !in s && from <= |s| && LfFree(s[..from])
    ensures FindEol(s, from) == FindLf(s)
    decreases |s| - from
  {
    if from == |s| {
      assert s[..from] == s;
      assert FindLf(s).None?;
    } else if s[from] == '\n' {
      var rest := s[from + 1..];
      assert s == s[..from] + "\n" + rest;
      FindLfAt(s[..from], rest);
      assert FindEol(s, from) == Some(from);
    } else {
      assert s[from] != '\r';
      assert s[..from + 1] == s[..from] + [s[from]];
      EolIsLf(s, from + 1);
    }
  }

  lemma {:induction false} LinesAreSplit(s: string)
    requires '\r' !in s
    ensures Lines(s) == Complete(Split(s))
    decreases |s|
  {
    EolIsLf(s, 0);
    match FindLf(s)
    case None =>
    case Some(p) =>
      var rest := s[p + 1..];
      assert s[p] != '\r';
      LinesAreSplit(rest);
      assert Split(s) == [s[..p]] + Split(rest);
      CompleteSum([s[..p]], Split(rest));
  }

  lemma CompleteSum(a: seq<string>, b: seq<string>)
    requires |b| >= 1
    ensures Complete(a + b) == a + Complete(b)
  {
  }

  /** The lines of a text are those of its blocks, each followed by a blank line, and those of the rest. */
  function BlockLines(blocks: seq<string>): seq<string> {
    if blocks == [] then [] else Split(blocks[0]) + [""] + BlockLines(blocks[1..])
  }

  lemma {:induction false} SplitByBlocks(s: string)
    ensures Split(s) == BlockLines(Cut(s).blocks) + Split(Cut(s).rest)
    decreases |s|
  {
    match FindBlank(s)
    case None =>
      Seqs.Unit(Split(s));
    case Some(p) =>
      var rest := s[p + 2..];
      SplitByBlocks(rest);
      BlankSplits(s, p);
      Seqs.Assoc(Split(s[..p]) + [""], BlockLines(Cut(rest).blocks), Split(Cut(rest).rest));
  }

  lemma BlankSplits(s: string, p: nat)
    requires BlankAt(s, p)
    ensures Split(s) == Split(s[..p]) + [""] + Split(s[p + 2..])
  {
    var rest := s[p + 2..];
    assert s == s[..p] + "\n" + ("" + "\n" + rest);
    SplitAppend(s[..p], "" + "\n" + rest);
    SplitAppend("", rest);
    assert Split("") == [""];
    Seqs.Assoc(Split(s[..p]), [""], Split(rest));
  }

  lemma EmptyHead(lines: seq<string>)
    requires |lines| >= 1 && lines[0] == ""
    ensures (Join(lines) + "\n")[0] == '\n'
  {
  }

  /** In a text without a blank line only the first line can be empty. */
  lemma {:induction false} InnerLinesNotEmpty(lines: seq<string>)
    requires |lines| >= 1 && NoBlank(Join(lines) + "\n")
    ensures forall i | 1 <= i < |lines| :: lines[i] != ""
  {
    if |lines| > 1 {
      var l, r := lines[0], Join(lines[1..]);
      var s := l + "\n" + r + "\n";
      assert s == Join(lines) + "\n";
      assert s[|l| + 1..] == r + "\n";
      forall i: nat ensures !BlankAt(r + "\n", i) {
        assert !BlankAt(s, i + |l| + 1);
        assert i < |r| + 1 ==> (r + "\n")[i] == s[i + |l| + 1];
        assert i + 1 < |r| + 1 ==> (r + "\n")[i + 1] == s[i + |l| + 2];
      }
      InnerLinesNotEmpty(lines[1..]);
      assert !BlankAt(s, |l|);
      assert s[|l|] == '\n';
      assert s[|l| + 1] == (r + "\n")[0];
      if lines[1] == "" {
        EmptyHead(lines[1..]);
      }
      assert forall i | 2 <= i < |lines| :: lines[i] == lines[1..][i - 1];
    }
  }

  // ----- one line, one block -----------------------------------------------------------

  function Terminated(lines: seq<string>): string {
    if lines == [] then "" else lines[0] + "\n" + Terminated(lines[1..])
  }

  lemma {:induction false} TerminatedSnoc(lines: seq<string>, l: string)
    ensures Terminated(lines + [l]) == Terminated(lines) + l + "\n"
  {
    if lines == [] {
      assert lines + [l] == [l];
    } else {
      Seqs.TailOfSum(lines, [l]);
      TerminatedSnoc(lines[1..], l);
    }
  }

  lemma {:induction false} TerminatedJoin(lines: seq<string>)
    requires lines != []
    ensures Terminated(lines) == Join(lines) + "\n"
  {
    if |lines| > 1 {
      TerminatedJoin(lines[1..]);
    }
  }

  /** The buffers hold what the parser has read from the same lines. */
  predicate Same(f: Fields, b: Buffers) {
    b.dataBuffer == Terminated(f.dataLines) && b.typeBuffer == f.eventType.GetOr("")
  }

  lemma {:induction false} NoColon(line: string, from: nat)
    requires from <= |line| && forall i | from <= i < |line| :: line[i] != ':'
    ensures FindColon(line, from).None?
    decreases |line| - from
  {
    if from < |line| {
      NoColon(line, from + 1);
    }
  }

  lemma {:induction false} ColonAt(line: string, from: nat, p: nat)
    requires from <= p < |line| && line[p] == ':'
    requires forall i | from <= i < p :: line[i] != ':'
    ensures FindColon(line, from) == Some(p)
    decreases p - from
  {
    if from < p {
      ColonAt(line, from + 1, p);
    }
  }

  lemma {:induction false} BeforeColon(line: string, from: nat)
    requires from <= |line| && FindColon(line, from).Some?
    ensures var p := FindColon(line, from).value; line[p] == ':' && forall i | from <= i < p :: line[i] != ':'
    decreases |line| - from
  {
    if line[from] != ':' {
      BeforeColon(line, from + 1);
    }
  }

  lemma EventLine(b: Buffers, line: string)
    requires StartsWith(line, "event:")
    ensures Line(b, line) == b.(typeBuffer := if StartsWith(line, "event: ") then line[7..] else line[6..])
  {
    var h := line[..6];
    assert h == "event:";
    assert line[0] == h[0] && line[1] == h[1] && line[2] == h[2] && line[3] == h[3] && line[4] == h[4] && line[5] == h[5];
    ColonAt(line, 0, 5);
    assert line[..5] == "event";
    var v := line[6..];
    assert StartsWith(line, "event: ") ==> line[6] == line[..7][6] == ' ';
    if v != "" && v[0] == ' ' {
      assert line[..7] == "event: ";
      assert v[1..] == line[7..];
    }
  }

  lemma DataLine(b: Buffers, line: string)
    requires StartsWith(line, "data:")
    ensures Line(b, line) ==
            b.(dataBuffer := b.dataBuffer + (if StartsWith(line, "data: ") then line[6..] else line[5..]) + "\n")
  {
    var h := line[..5];
    assert h == "data:";
    assert line[0] == h[0] && line[1] == h[1] && line[2] == h[2] && line[3] == h[3] && line[4] == h[4];
    ColonAt(line, 0, 4);
    assert line[..4] == "data";
    var v := line[5..];
    assert StartsWith(line, "data: ") ==> line[5] == line[..6][5] == ' ';
    if v != "" && v[0] == ' ' {
      assert line[..6] == "data: ";
      assert v[1..] == line[6..];
    }
  }

  lemma OtherLine(b: Buffers, line: string)
    requires line != "" && line != "event" && line != "data"
    requires !StartsWith(line, "event:") && !StartsWith(line, "data:")
    ensures Line(b, line) == b
  {
    match FindColon(line, 0)
    case None =>
    case Some(p) =>
      BeforeColon(line, 0);
      assert line[..p + 1] == line[..p] + ":";
      assert line[..p] == "event" ==> p == 5 && StartsWith(line, "event:");
      assert line[..p] == "data" ==> p == 4 && StartsWith(line, "data:");
  }

  lemma LineAgrees(f: Fields, b: Buffers, line: string)
    requires line != "" && Same(f, b)
    ensures Same(LineField(f, Expand(line)), Line(b, line))
    ensures Line(b, line).dispatched == b.dispatched
  {
    var l := Expand(line);
    if line == "data" {
      NoColon(line, 0);
      assert l[0] == 'd' && l[5..] == "" && StartsWith(l, "data:");
      TerminatedSnoc(f.dataLines, "");
    } else if line == "event" {
      NoColon(line, 0);
      assert l[0] == 'e' && l[6..] == "" && StartsWith(l, "event:");
    } else if StartsWith(line, "event:") {
      EventLine(b, line);
      assert line[0] == line[..6][0] == 'e';
    } else if StartsWith(line, "data:") {
      DataLine(b, line);
      assert line[0] == line[..5][0] == 'd';
      TerminatedSnoc(f.dataLines, if StartsWith(line, "data: ") then line[6..] else line[5..]);
    } else {
      OtherLine(b, line);
      NotLonger(line);
    }
  }

  lemma NotLonger(line: string)
    ensures StartsWith(line, "event: ") ==> StartsWith(line, "event:")
    ensures StartsWith(line, "data: ") ==> StartsWith(line, "data:")
  {
    if StartsWith(line, "event: ") {
      assert "event: " == "event:" + " ";
      PrefixOfPrefix(line, "event:", " ");
    }
    if StartsWith(line, "data: ") {
      assert "data: " == "data:" + " ";
      PrefixOfPrefix(line, "data:", " ");
    }
  }

  lemma {:induction false} LinesAgree(f: Fields, b: Buffers, lines: seq<string>)
    requires Same(f, b) && forall i | 0 <= i < |lines| :: lines[i] != ""
    ensures Same(LineFields(f, ExpandAll(lines)), Run(b, lines))
    ensures Run(b, lines).dispatched == b.dispatched
    decreases |lines|
  {
    if lines != [] {
      LineAgrees(f, b, lines[0]);
      LinesAgree(LineField(f, Expand(lines[0])), Line(b, lines[0]), lines[1..]);
    }
  }

  lemma LeadingEmptyLine(f: Fields, sent: seq<Message>, lines: seq<string>)
    requires lines != [] && lines[0] == ""
    ensures LineFields(f, ExpandAll(lines)) == LineFields(f, ExpandAll(lines[1..]))
    ensures Run(Buffers("", "", sent), lines) == Run(Buffers("", "", sent), lines[1..])
  {
    assert LineField(f, Expand("")) == f;
    assert ExpandAll(lines) == [""] + ExpandAll(lines[1..]);
    assert ExpandAll(lines)[1..] == ExpandAll(lines[1..]);
  }

  /** From empty buffers, the standard reads from these lines what the parser reads from the expanded ones. */
  predicate ReadAlike(sent: seq<Message>, lines: seq<string>) {
    var b := Run(Buffers("", "", sent), lines);
    Same(FieldsOf(ExpandAll(lines)), b) && b.dispatched == sent
  }

  lemma NonEmptyLinesAgree(sent: seq<Message>, lines: seq<string>)
    requires forall i | 0 <= i < |lines| :: lines[i] != ""
    ensures ReadAlike(sent, lines)
  {
    LinesAgree(Fields(None, []), Buffers("", "", sent), lines);
  }

  /** An empty line at the start of a block changes nothing. */
  lemma BlockLinesAgree(sent: seq<Message>, lines: seq<string>)
    requires forall i | 1 <= i < |lines| :: lines[i] != ""
    ensures ReadAlike(sent, lines)
  {
    if lines != [] && lines[0] == "" {
      LeadingEmptyLine(Fields(None, []), sent, lines);
      NonEmptyLinesAgree(sent, lines[1..]);
    } else {
      NonEmptyLinesAgree(sent, lines);
    }
  }

  lemma DispatchAgrees(f: Fields, b: Buffers)
    requires Same(f, b)
    ensures Dispatch(b) == Buffers("", "", b.dispatched + FieldMessages(f))
  {
    if f.dataLines != [] {
      TerminatedJoin(f.dataLines);
      assert b.dataBuffer == Join(f.dataLines) + "\n";
    } else {
      Seqs.Unit(b.dispatched);
    }
  }

  lemma {:induction false} RunAppend(b: Buffers, a: seq<string>, c: seq<string>)
    ensures Run(b, a + c) == Run(Run(b, a), c)
    decreases |a|
  {
    if a == [] {
      Seqs.Unit(c);
    } else {
      Seqs.TailOfSum(a, c);
      RunAppend(Line(b, a[0]), a[1..], c);
    }
  }

  /** What the standard dispatches for one terminated block. */
  function BlockMessages(block: string): seq<Message> {
    FieldMessages(FieldsOf(ExpandAll(Split(block))))
  }

  lemma BlockRun(sent: seq<Message>, block: string)
    requires NoBlank(block + "\n")
    ensures Run(Buffers("", "", sent), Split(block) + [""]) == Buffers("", "", sent + BlockMessages(block))
  {
    var lines := Split(block);
    JoinSplit(block);
    InnerLinesNotEmpty(lines);
    BlockLinesAgree(sent, lines);
    RunAppend(Buffers("", "", sent), lines, [""]);
    DispatchAgrees(FieldsOf(ExpandAll(lines)), Run(Buffers("", "", sent), lines));
  }

  function AllBlockMessages(blocks: seq<string>): seq<Message> {
    if blocks == [] then [] else BlockMessages(blocks[0]) + AllBlockMessages(blocks[1..])
  }

  ghost predicate Tight(blocks: seq<string>) {
    forall b | b in blocks :: NoBlank(b + "\n")
  }

  lemma {:induction false} CutIsTight(s: string)
    ensures Tight(Cut(s).blocks) && NoBlank(Cut(s).rest)
    decreases |s|
  {
    match FindBlank(s)
    case None =>
    case Some(p) =>
      CutIsTight(s[p + 2..]);
      var t := s[..p] + "\n";
      assert forall i | 0 <= i < |t| :: t[i] == s[i];
      assert forall i: nat :: BlankAt(t, i) ==> i < p && BlankAt(s, i);
  }

  lemma {:induction false} BlocksRun(sent: seq<Message>, blocks: seq<string>)
    requires Tight(blocks)
    ensures Run(Buffers("", "", sent), BlockLines(blocks)) == Buffers("", "", sent + AllBlockMessages(blocks))
    decreases |blocks|
  {
    if blocks == [] {
      Seqs.Unit(sent);
    } else {
      var here := Split(blocks[0]) + [""];
      assert blocks[0] in blocks;
      BlockRun(sent, blocks[0]);
      RunAppend(Buffers("", "", sent), here, BlockLines(blocks[1..]));
      BlocksRun(sent + BlockMessages(blocks[0]), blocks[1..]);
      Seqs.Assoc(sent, BlockMessages(blocks[0]), AllBlockMessages(blocks[1..]));
    }
  }

  lemma RestDispatchesNothing(sent: seq<Message>, rest: string)
    requires NoBlank(rest)
    ensures Run(Buffers("", "", sent), Complete(Split(rest))).dispatched == sent
  {
    var lines := Split(rest);
    var init := Complete(lines);
    JoinSplit(rest);
    if init != [] {
      Seqs.HeadTail(lines);
      var last := lines[|lines| - 1];
      assert lines == init + [last];
      JoinSnoc(init, last);
      var t := Join(init) + "\n";
      assert rest == t + last;
      assert forall i: nat :: BlankAt(t, i) ==> BlankAt(rest, i);
      InnerLinesNotEmpty(init);
      BlockLinesAgree(sent, init);
    }
  }

  /** The standard's messages for an LF-only stream, block by block. */
  lemma {:induction false} InterpretByBlocks(s: string)
    requires LfOnly(s)
    ensures Interpret(s) == AllBlockMessages(Cut(s).blocks)
  {
    RunByBlocks(s);
  }

  lemma {:induction false} RunByBlocks(s: string)
    requires '\r' !in s
    ensures Run(Start, Lines(s)).dispatched == AllBlockMessages(Cut(s).blocks)
  {
    var c := Cut(s);
    LinesAreSplit(s);
    SplitByBlocks(s);
    CompleteSum(BlockLines(c.blocks), Split(c.rest));
    CutIsTight(s);
    RunAppend(Start, BlockLines(c.blocks), Complete(Split(c.rest)));
    BlocksRun([], c.blocks);
    Seqs.Unit(AllBlockMessages(c.blocks));
    RestDispatchesNothing(AllBlockMessages(c.blocks), c.rest);
  }
}
