/** CR LF line ends and a leading byte order mark: what the parser makes of streams that are not LF-only. */
module SseOutside {
  import opened Wrappers
  import opened Text
  import opened Sse
  import opened SseStandard
  import opened SseExact
  import Seqs

  // ----- CR LF -------------------------------------------------------------------------

  /** Where every LF follows a CR, the parser finds no terminator and never emits anything. */
  lemma CrLfIsMissed(s: string)
    requires forall i | 0 <= i < |s| && s[i] == '\n' :: i > 0 && s[i - 1] == '\r'
    ensures Drain(s) == Fed([], s)
  {
    assert forall i: nat :: BlankAt(s, i) ==> s[i + 1 - 1] == '\r';
    assert NoBlank(s);
  }

  lemma {:induction false} EolAt(s: string, from: nat, p: nat)
    requires from <= p < |s| && (s[p] == '\r' || s[p] == '\n')
    requires forall i | from <= i < p :: s[i] != '\r' && s[i] != '\n'
    ensures FindEol(s, from) == Some(p)
    decreases p - from
  {
    if from < p {
      EolAt(s, from + 1, p);
    }
  }

  lemma LineEnd(s: string, p: nat)
    requires p + 1 < |s| && s[p] == '\r' && s[p + 1] == '\n'
    requires forall i | 0 <= i < p :: s[i] != '\r' && s[i] != '\n'
    ensures Lines(s) == [s[..p]] + Lines(s[p + 2..])
  {
    EolAt(s, 0, p);
  }

  lemma LfEnd(s: string, p: nat)
    requires p < |s| && s[p] == '\n' && forall i | 0 <= i < p :: s[i] != '\r' && s[i] != '\n'
    ensures Lines(s) == [s[..p]] + Lines(s[p + 1..])
  {
    EolAt(s, 0, p);
  }

  function ToCrLf(s: string): string {
    if s == "" then "" else (if s[0] == '\n' then "\r\n" else [s[0]]) + ToCrLf(s[1..])
  }

  lemma {:induction false} ToCrLfLine(line: string, rest: string)
    requires LfFree(line)
    ensures ToCrLf(line + "\n" + rest) == line + "\r\n" + ToCrLf(rest)
    ensures ToCrLf(line) == line
  {
    if line == "" {
      assert (line + "\n" + rest)[1..] == rest;
    } else {
      var tail := line[1..];
      assert (line + "\n" + rest)[1..] == tail + "\n" + rest && (line + "\n" + rest)[0] == line[0] && line[0] != '\n';
      ToCrLfLine(tail, rest);
      assert line == [line[0]] + tail;
      assert [line[0]] + (tail + "\r\n" + ToCrLf(rest)) == line + "\r\n" + ToCrLf(rest);
    }
  }

  /** The lines of the standard are the same with both line ends. */
  lemma {:induction false} SameLines(s: string)
    requires '\r' !in s
    ensures Lines(ToCrLf(s)) == Lines(s)
    decreases |s|
  {
    hide Lines, ToCrLf, FindLf;
    match FindLf(s)
    case None =>
      ToCrLfLine(s, "");
    case Some(p) =>
      var line, rest := s[..p], s[p + 1..];
      assert s == line + "\n" + rest;
      ToCrLfLine(line, rest);
      LfEnd(s, p);
      var t := line + "\r\n" + ToCrLf(rest);
      LineEnd(t, p);
      assert t[..p] == line && t[p + 2..] == ToCrLf(rest);
      SameLines(rest);
  }

  lemma {:induction false} EveryLfFollowsCr(s: string)
    ensures forall i | 0 <= i < |ToCrLf(s)| && ToCrLf(s)[i] == '\n' :: i > 0 && ToCrLf(s)[i - 1] == '\r'
  {
    if s != "" {
      EveryLfFollowsCr(s[1..]);
      var head, rest := if s[0] == '\n' then "\r\n" else [s[0]], ToCrLf(s[1..]);
      assert forall i | |head| <= i < |ToCrLf(s)| :: ToCrLf(s)[i] == rest[i - |head|];
    }
  }

  lemma ToCrLfBom(s: string)
    ensures SkipBom(ToCrLf(s)) == ToCrLf(SkipBom(s))
  {
    if s != "" {
      if s[0] == '\n' {
        assert ToCrLf(s)[0] == '\r';
      } else {
        assert ToCrLf(s)[0] == s[0] && ToCrLf(s)[1..] == ToCrLf(s[1..]);
      }
    }
  }

  /**
   With CR LF line ends the standard reads what it reads with LF, and the parser nothing: they agree if and only if the
   stream holds no message.
   */
  lemma CrLfAgreesExactly(s: string)
    requires '\r' !in s
    ensures Interpret(ToCrLf(s)) == Interpret(s) && Drain(ToCrLf(s)) == Fed([], ToCrLf(s))
    ensures Meanings(Drain(ToCrLf(s)).events) == Interpret(ToCrLf(s)) <==> Interpret(s) == []
  {
    hide Lines, Run, ToCrLf, Drain;
    EveryLfFollowsCr(s);
    CrLfIsMissed(ToCrLf(s));
    ToCrLfBom(s);
    assert '\r' !in SkipBom(s);
    SameLines(SkipBom(s));
    NoMeanings();
  }

  // ----- a byte order mark -------------------------------------------------------------

  const Mark := '\U{FEFF}'

  lemma FindBlankMarked(s: string)
    ensures FindBlank([Mark] + s) == match FindBlank(s) case None => None case Some(p) => Some(p + 1)
  {
    hide FindBlankFrom;
    var t := [Mark] + s;
    assert forall i: nat :: BlankAt(t, i + 1) == BlankAt(s, i);
    assert forall i: nat :: i == 0 || BlankAt(t, i) == BlankAt(s, i - 1);
    assert !BlankAt(t, 0);
  }

  lemma CutMarked(s: string)
    ensures var blocks := Cut(s).blocks;
            Cut([Mark] + s).blocks == if blocks == [] then [] else [[Mark] + blocks[0]] + blocks[1..]
  {
    hide FindBlank;
    FindBlankMarked(s);
    var t := [Mark] + s;
    match FindBlank(s)
    case None =>
    case Some(p) =>
      assert t[..p + 1] == [Mark] + s[..p] && t[p + 3..] == s[p + 2..];
      assert ([s[..p]] + Cut(s[p + 2..]).blocks)[1..] == Cut(s[p + 2..]).blocks;
  }

  lemma MarkedLine(f: Fields, line: string)
    ensures LineField(f, [Mark] + line) == f
  {
    FirstLetter([Mark] + line);
    NotLonger([Mark] + line);
  }

  lemma {:induction false} SplitMarked(b: string)
    ensures Split([Mark] + b) == [[Mark] + Split(b)[0]] + Split(b)[1..]
  {
    match FindLf(b)
    case None =>
      SplitOneLine(b);
      SplitOneLine([Mark] + b);
    case Some(p) =>
      var line, rest := b[..p], b[p + 1..];
      assert b == line + "\n" + rest;
      assert [Mark] + b == [Mark] + line + "\n" + rest;
      SplitAtLf(line, rest);
      SplitAtLf([Mark] + line, rest);
  }

  /** A mark hides the first line of a block, whatever it is. */
  lemma MarkedFields(b: string)
    ensures ReadFields([Mark] + b) == FieldsOf(Split(b)[1..])
  {
    hide Split, LineField;
    SplitMarked(b);
    MarkedLine(Fields(None, []), Split(b)[0]);
    var first, rest := [Mark] + Split(b)[0], Split(b)[1..];
    assert ([first] + rest)[1..] == rest;
  }

  // ----- when hiding the first line does not matter ------------------------------------

  predicate NamesData(line: string) {
    line == "data" || StartsWith(line, "data:")
  }

  predicate NamesType(line: string) {
    line == "event" || StartsWith(line, "event:")
  }

  predicate SomeNamesType(lines: seq<string>) {
    exists i :: 0 <= i < |lines| && NamesType(lines[i])
  }

  /**
   The block without its first line means what the standard reads from all of it: the first line is not data, no later
   line is a bare `data`, and, if there is data, its type does not depend on the first line or on a bare `event`.
   */
  predicate Harmless(first: string, rest: seq<string>) {
    && !NamesData(first) && "data" !in rest
    && (HasData(rest) ==> if SomeNamesType(rest) then !ClearsType(rest) else StandardType([first]) in {"", "message"})
  }

  lemma {:induction false} DataFrom(f: Fields, lines: seq<string>)
    ensures LineFields(f, lines).dataLines == f.dataLines + FieldsOf(lines).dataLines
    decreases |lines|
  {
    hide LineField;
    if lines == [] {
      Seqs.Unit(f.dataLines);
    } else {
      var e := Fields(None, []);
      DataFrom(LineField(f, lines[0]), lines[1..]);
      DataFrom(LineField(e, lines[0]), lines[1..]);
      LineType(f, lines[0]);
      LineType(e, lines[0]);
      AddedData(f, lines[0]);
      Seqs.Assoc(f.dataLines, LineField(e, lines[0]).dataLines, FieldsOf(lines[1..]).dataLines);
    }
  }

  /** What a line adds to the data does not depend on what came before. */
  lemma AddedData(f: Fields, line: string)
    ensures LineField(f, line).dataLines == f.dataLines + LineField(Fields(None, []), line).dataLines
  {
    LineType(f, line);
    LineType(Fields(None, []), line);
    Seqs.Unit(f.dataLines);
    Seqs.Unit([line]);
  }

  lemma ExpandHead(first: string, rest: seq<string>)
    ensures ExpandAll([first] + rest) == [Expand(first)] + ExpandAll(rest)
  {
    assert ([first] + rest)[1..] == rest;
  }

  lemma HeadData(first: string, rest: seq<string>)
    ensures var e := Fields(None, []);
            FieldsOf(ExpandAll([first] + rest)).dataLines
            == LineField(e, Expand(first)).dataLines + FieldsOf(ExpandAll(rest)).dataLines
    ensures LineField(Fields(None, []), Expand(first)).dataLines == [] <==> !NamesData(first)
  {
    hide LineField;
    var e := Fields(None, []);
    ExpandHead(first, rest);
    assert ([Expand(first)] + ExpandAll(rest))[1..] == ExpandAll(rest);
    DataFrom(LineField(e, Expand(first)), ExpandAll(rest));
    ExpandedLine(e, first);
    LineType(e, first);
    NotLonger(first);
  }

  lemma {:induction false} TypeAfterHead(first: string, rest: seq<string>)
    ensures StandardType([first] + rest) == if SomeNamesType(rest) then StandardType(rest) else StandardType([first])
    ensures !SomeNamesType(rest) ==> LastType(rest) == ""
    decreases |rest|
  {
    if rest == [] {
      Seqs.Unit([first]);
    } else {
      var n := |rest| - 1;
      var all, init := [first] + rest, rest[..n];
      assert all[|all| - 1] == rest[n] && all[..|all| - 1] == [first] + init;
      TypeAfterHead(first, init);
      NotLonger(rest[n]);
      SomeSnoc(rest);
    }
  }

  lemma SomeSnoc(lines: seq<string>)
    requires lines != []
    ensures SomeNamesType(lines) <==> SomeNamesType(lines[..|lines| - 1]) || NamesType(lines[|lines| - 1])
  {
    hide NamesType;
    var init := lines[..|lines| - 1];
    if SomeNamesType(init) {
      var i :| 0 <= i < |init| && NamesType(init[i]);
      assert NamesType(lines[i]);
    }
    if SomeNamesType(lines) {
      var i :| 0 <= i < |lines| && NamesType(lines[i]);
      assert i < |init| ==> NamesType(init[i]);
    }
  }

  lemma SameMessages(f: Fields, g: Fields)
    requires AllLfFree(f.dataLines) && AllLfFree(g.dataLines)
    ensures FieldMessages(f) == FieldMessages(g)
            <==> f.dataLines == g.dataLines && (f.dataLines != [] ==> Shown(TypeOf(f)) == Shown(TypeOf(g)))
  {
    if f.dataLines != [] && g.dataLines != [] && Join(f.dataLines) == Join(g.dataLines) {
      JoinInjective(f.dataLines, g.dataLines);
    }
  }

  lemma HarmlessExactly(first: string, rest: seq<string>)
    requires AllLfFree([first] + rest)
    ensures Harmless(first, rest) <==> FieldMessages(FieldsOf(rest)) == FieldMessages(FieldsOf(ExpandAll([first] + rest)))
  {
    hide LineFields, ExpandAll, HasData, ClearsType, StandardType, LastType, LineField, NamesData, FieldsOf, SomeNamesType;
    var f, e := FieldsOf(rest), FieldsOf(ExpandAll([first] + rest));
    LfFreeParts(first, rest);
    SameMessages(f, e);
    DataRead(rest);
    HeadData(first, rest);
    Lengths(f.dataLines, LineField(Fields(None, []), Expand(first)).dataLines, FieldsOf(ExpandAll(rest)).dataLines);
    TypesRead(rest);
    TypesRead([first] + rest);
    TypeAfterHead(first, rest);
    ClearsTypeExactly(rest);
  }

  lemma LfFreeParts(first: string, rest: seq<string>)
    requires AllLfFree([first] + rest)
    ensures AllLfFree(FieldsOf(rest).dataLines) && AllLfFree(FieldsOf(ExpandAll([first] + rest)).dataLines)
  {
    hide LineFields, ExpandAll;
    assert forall i | 0 <= i < |rest| :: rest[i] == ([first] + rest)[i + 1];
    ExpandLfFree([first] + rest);
    DataLinesLfFree(Fields(None, []), rest);
    DataLinesLfFree(Fields(None, []), ExpandAll([first] + rest));
  }

  lemma Lengths<T>(a: seq<T>, b: seq<T>, c: seq<T>)
    requires |c| >= |a|
    ensures a == b + c ==> b == [] && a == c
    ensures b == [] && a == c ==> a == b + c
  {
    Seqs.Unit(c);
  }

  // ----- the exact condition -----------------------------------------------------------

  /** All blocks but the first read as the standard reads them, and the first one does without its first line. */
  predicate MarkHarmless(blocks: seq<string>) {
    blocks != [] ==>
      && Harmless(Split(blocks[0])[0], Split(blocks[0])[1..])
      && forall i | 1 <= i < |blocks| :: Plain(Split(blocks[i]))
  }

  lemma FirstBlock(b: string)
    ensures Meanings(ParseBlock([Mark] + b)) == BlockMessages(b) <==> Harmless(Split(b)[0], Split(b)[1..])
    ensures |Meanings(ParseBlock([Mark] + b))| <= |BlockMessages(b)|
  {
    hide Split, LineFields, ExpandAll, Harmless, Meanings, ParseBlock;
    var first, rest := Split(b)[0], Split(b)[1..];
    assert Split(b) == [first] + rest;
    BlockMeaning([Mark] + b);
    MarkedFields(b);
    HarmlessExactly(first, rest);
    DataRead(rest);
    HeadData(first, rest);
  }

  /**
   After a leading mark, on a stream without CR, the parser emits the standard's messages if and only if the first
   block does without its first line and every other block is free of bare field names that matter.
   */
  lemma MarkAgreesExactly(s: string)
    requires '\r' !in s
    ensures Meanings(Drain([Mark] + s).events) == Interpret([Mark] + s) <==> MarkHarmless(Cut(s).blocks)
  {
    hide Cut, Lines, Run, Split, Plain, Harmless, Meanings, ParseBlock, LineFields, BlockMessages;
    var blocks := Cut(s).blocks;
    assert ([Mark] + s)[1..] == s;
    RunByBlocks(s);
    CutMarked(s);
    if blocks == [] {
      NoMeanings();
    } else {
      MarkedBlocks(blocks);
    }
  }

  lemma MarkedBlocks(blocks: seq<string>)
    requires blocks != []
    ensures Meanings(BlockEvents([[Mark] + blocks[0]] + blocks[1..])) == AllBlockMessages(blocks) <==> MarkHarmless(blocks)
  {
    hide Split, Plain, Harmless, Meanings, ParseBlock, LineFields, BlockMessages;
    var b, rest := blocks[0], blocks[1..];
    assert ([[Mark] + b] + rest)[1..] == rest;
    FirstBlock(b);
    MeaningsAppend(ParseBlock([Mark] + b), BlockEvents(rest));
    BlocksCount(rest);
    SumsEqual(Meanings(ParseBlock([Mark] + b)), Meanings(BlockEvents(rest)), BlockMessages(b), AllBlockMessages(rest));
    BlocksAgreeExactly(rest);
    assert forall i | 1 <= i < |blocks| :: blocks[i] == rest[i - 1];
    assert forall i | 0 <= i < |rest| :: rest[i] == blocks[i + 1];
  }

  /** For example, a mark hides the only line of this stream from the parser and not from the standard. */
  lemma BomIsNotSkipped()
    ensures Drain("\U{FEFF}data:x\n\n").events == []
    ensures Interpret("\U{FEFF}data:x\n\n") == [Message("message", "x")]
  {
    hide Run, Lines, Drain, SkipBom;
    BomDrain();
    BomLines();
    OneMessage();
  }

  lemma OneMessage()
    ensures Run(Start, ["data:x", ""]).dispatched == [Message("message", "x")]
  {
    DataLine(Start, "data:x");
    assert "data:x"[5..] == "x";
    NotSpaced();
    var b := Buffers("x\n", "", []);
    assert "" + "x" + "\n" == "x\n";
    assert Line(Start, "data:x") == b;
    assert b.dataBuffer[..1] == "x";
    assert ["data:x", ""][1..] == [""];
    assert Run(b, [""]) == Line(b, "");
  }

  lemma NotSpaced()
    ensures !StartsWith("data:x", "data: ")
  {
    assert "data:x"[5] != "data: "[5];
  }

  lemma TwoLines(line: string)
    requires LfFree(line) && '\r' !in line
    ensures Lines(line + "\n\n") == [line, ""]
  {
    hide Lines;
    var s := line + "\n\n";
    LfEnd(s, |line|);
    assert s[..|line|] == line && s[|line| + 1..] == "\n";
    LfEnd("\n", 0);
    assert "\n"[..0] == "" && "\n"[1..] == "";
    NoLines();
  }

  lemma NoLines()
    ensures Lines("") == []
  {
  }

  lemma BomLines()
    ensures Lines(SkipBom("\U{FEFF}data:x\n\n")) == ["data:x", ""]
  {
    hide Lines;
    assert "\U{FEFF}data:x\n\n"[1..] == "data:x" + "\n\n";
    TwoLines("data:x");
  }

  lemma BomBlock(block: string)
    requires block == "\U{FEFF}data:x"
    ensures ParseBlock(block) == [] && NoBlank(block)
  {
    SplitOneLine(block);
    assert block[0] != 'd' && block[0] != 'e' && block[0] != ':';
    assert [block][1..] == [];
    assert LineFields(Fields(None, []), [block]).dataLines == [];
  }

  lemma OneBlock(block: string)
    requires NoBlank(block) && block != "" && block[|block| - 1] != '\n'
    ensures Drain(block + "\n\n") == Fed(ParseBlock(block), "")
  {
    hide ParseBlock, FindBlank;
    var s := block + "\n\n";
    FindBlankAfter(block, "");
    Seqs.Unit(s);
    assert s[..|block|] == block && s[|block| + 2..] == "";
    NothingCut();
    Seqs.Unit([block]);
    assert Cut(s) == Pieces([block], "");
    BlockEventsOne(block);
  }

  lemma BlockEventsOne(block: string)
    ensures BlockEvents([block]) == ParseBlock(block)
  {
    hide ParseBlock;
    assert [block][1..] == [];
    assert BlockEvents([block]) == ParseBlock(block) + BlockEvents([block][1..]);
    Seqs.Unit(ParseBlock(block));
  }

  lemma NothingCut()
    ensures Cut("") == Pieces([], "")
  {
  }

  lemma BomDrain()
    ensures Drain("\U{FEFF}data:x\n\n").events == []
  {
    hide ParseBlock, Drain, NoBlank;
    var block := "\U{FEFF}data:x";
    BomBlock(block);
    OneBlock(block);
    assert "\U{FEFF}data:x\n\n" == block + "\n\n";
  }
}
