/** When the block-splitting parser and the machine of the standard agree on an LF-only stream: the exact condition. */
module SseExact {
  import opened Wrappers
  import opened Text
  import opened Sse
  import opened SseStandard
  import Seqs

  // ----- the exact condition -----------------------------------------------------------

  lemma {:induction false} LineFieldsAppend(f: Fields, a: seq<string>, b: seq<string>)
    ensures LineFields(f, a + b) == LineFields(LineFields(f, a), b)
    decreases |a|
  {
    if a == [] {
      Seqs.Unit(b);
    } else {
      Seqs.TailOfSum(a, b);
      LineFieldsAppend(LineField(f, a[0]), a[1..], b);
    }
  }

  lemma {:induction false} FieldsSnoc(init: seq<string>, last: string)
    ensures FieldsOf(init + [last]) == LineField(FieldsOf(init), last)
  {
    LineFieldsAppend(Fields(None, []), init, [last]);
  }

  lemma {:induction false} ExpandSnoc(init: seq<string>, last: string)
    ensures ExpandAll(init + [last]) == ExpandAll(init) + [Expand(last)]
  {
    if init == [] {
      assert init + [last] == [last];
    } else {
      Seqs.TailOfSum(init, [last]);
      ExpandSnoc(init[1..], last);
    }
  }

  /** The type the standard reads: a bare `event` sets the empty type. */
  function StandardType(lines: seq<string>): string {
    if lines == [] then ""
    else
      var n := |lines| - 1;
      if StartsWith(lines[n], "event: ") then lines[n][7..]
      else if StartsWith(lines[n], "event:") then lines[n][6..]
      else if lines[n] == "event" then ""
      else StandardType(lines[..n])
  }

  function TypeOf(f: Fields): string {
    f.eventType.GetOr("")
  }

  lemma {:induction false} LineType(f: Fields, line: string)
    ensures TypeOf(LineField(f, line)) ==
            if StartsWith(line, "event: ") then line[7..]
            else if StartsWith(line, "event:") then line[6..]
            else TypeOf(f)
    ensures LineField(f, line).dataLines ==
            if StartsWith(line, "data: ") then f.dataLines + [line[6..]]
            else if StartsWith(line, "data:") then f.dataLines + [line[5..]]
            else f.dataLines
  {
    NotLonger(line);
    FirstLetter(line);
  }

  lemma {:induction false} FirstLetter(line: string)
    ensures StartsWith(line, "event:") ==> line[0] == 'e'
    ensures StartsWith(line, "data:") ==> line[0] == 'd'
    ensures StartsWith(line, ":") ==> line[0] == ':'
  {
    assert StartsWith(line, "event:") ==> line[0] == line[..6][0];
    assert StartsWith(line, "data:") ==> line[0] == line[..5][0];
    assert StartsWith(line, ":") ==> line[0] == line[..1][0];
  }

  lemma {:induction false} ExpandedLine(f: Fields, line: string)
    ensures TypeOf(LineField(f, Expand(line))) ==
            if line == "event" then "" else TypeOf(LineField(f, line))
    ensures LineField(f, Expand(line)).dataLines ==
            if line == "data" then f.dataLines + [""] else LineField(f, line).dataLines
  {
    LineType(f, Expand(line));
    if line == "data" {
      assert "data:"[5..] == "" && StartsWith("data:", "data:") && !StartsWith("data:", "event:");
    } else if line == "event" {
      assert "event:"[6..] == "" && StartsWith("event:", "event:") && !StartsWith("event:", "data:");
    }
  }

  lemma {:induction false} TypesRead(lines: seq<string>)
    ensures TypeOf(FieldsOf(lines)) == LastType(lines)
    ensures TypeOf(FieldsOf(ExpandAll(lines))) == StandardType(lines)
  {
    hide LineField;
    if lines != [] {
      var n := |lines| - 1;
      var init, last := lines[..n], lines[n];
      assert lines == init + [last];
      TypesRead(init);
      FieldsSnoc(init, last);
      ExpandSnoc(init, last);
      FieldsSnoc(ExpandAll(init), Expand(last));
      LineType(FieldsOf(init), last);
      LineType(FieldsOf(ExpandAll(init)), last);
      ExpandedLine(FieldsOf(ExpandAll(init)), last);
    }
  }

  function Shown(t: string): string {
    if t == "" then "message" else t
  }

  lemma {:induction false} ClearsTypeExactly(lines: seq<string>)
    ensures ClearsType(lines) <==> Shown(LastType(lines)) != Shown(StandardType(lines))
  {
    if lines != [] {
      NotLonger(lines[|lines| - 1]);
      ClearsTypeExactly(lines[..|lines| - 1]);
    }
  }

  lemma {:induction false} DataRead(lines: seq<string>)
    ensures HasData(lines) <==> FieldsOf(lines).dataLines != []
    ensures "data" !in lines ==> FieldsOf(ExpandAll(lines)).dataLines == FieldsOf(lines).dataLines
    ensures "data" in lines ==> |FieldsOf(ExpandAll(lines)).dataLines| > |FieldsOf(lines).dataLines|
    ensures |FieldsOf(ExpandAll(lines)).dataLines| >= |FieldsOf(lines).dataLines|
  {
    hide LineField;
    if lines != [] {
      var n := |lines| - 1;
      var init, last := lines[..n], lines[n];
      assert lines == init + [last];
      DataRead(init);
      FieldsSnoc(init, last);
      ExpandSnoc(init, last);
      FieldsSnoc(ExpandAll(init), Expand(last));
      NotLonger(last);
      LineType(FieldsOf(init), last);
      LineType(FieldsOf(ExpandAll(init)), last);
      ExpandedLine(FieldsOf(ExpandAll(init)), last);
    }
  }

  predicate AllLfFree(lines: seq<string>) {
    forall i | 0 <= i < |lines| :: LfFree(lines[i])
  }

  lemma {:induction false} DataLinesLfFree(f: Fields, lines: seq<string>)
    requires AllLfFree(f.dataLines) && AllLfFree(lines)
    ensures AllLfFree(LineFields(f, lines).dataLines)
    decreases |lines|
  {
    if lines != [] {
      LineType(f, lines[0]);
      DataLinesLfFree(LineField(f, lines[0]), lines[1..]);
    }
  }

  lemma {:induction false} ExpandLfFree(lines: seq<string>)
    requires AllLfFree(lines)
    ensures AllLfFree(ExpandAll(lines))
  {
    if lines != [] {
      ExpandLfFree(lines[1..]);
    }
  }

  lemma {:induction false} JoinInjective(a: seq<string>, b: seq<string>)
    requires a != [] && b != [] && AllLfFree(a) && AllLfFree(b) && Join(a) == Join(b)
    ensures a == b
  {
    SplitJoin(a);
    SplitJoin(b);
  }

  /** A block reads as the standard reads it exactly when its bare field names do not matter. */
  lemma {:induction false} PlainExactly(lines: seq<string>)
    requires AllLfFree(lines)
    ensures Plain(lines) <==> FieldMessages(FieldsOf(lines)) == FieldMessages(FieldsOf(ExpandAll(lines)))
  {
    var f, g := FieldsOf(lines), FieldsOf(ExpandAll(lines));
    DataRead(lines);
    TypesRead(lines);
    ClearsTypeExactly(lines);
    ExpandLfFree(lines);
    DataLinesLfFree(Fields(None, []), lines);
    DataLinesLfFree(Fields(None, []), ExpandAll(lines));
    if f.dataLines != [] && Join(f.dataLines) == Join(g.dataLines) {
      JoinInjective(f.dataLines, g.dataLines);
    }
  }

  lemma {:induction false} WhiteLines(s: string)
    requires TrimsToEmpty(s)
    ensures forall i | 0 <= i < |Split(s)| :: TrimsToEmpty(Split(s)[i])
    decreases |s|
  {
    match FindLf(s)
    case None =>
    case Some(p) => WhiteLines(s[p + 1..]);
  }

  lemma {:induction false} WhiteHasNoData(lines: seq<string>)
    requires forall i | 0 <= i < |lines| :: TrimsToEmpty(lines[i])
    ensures !HasData(lines)
  {
    if lines != [] {
      FirstLetter(lines[|lines| - 1]);
      WhiteHasNoData(lines[..|lines| - 1]);
    }
  }

  /** Skipping white blocks loses nothing. */
  lemma {:induction false} BlockMeaning(block: string)
    ensures Meanings(ParseBlock(block)) == FieldMessages(ReadFields(block))
  {
    if TrimsToEmpty(block) {
      WhiteLines(block);
      WhiteHasNoData(Split(block));
      DataRead(Split(block));
    }
    var f := ReadFields(block);
    var e := SseEvent(f.eventType, Join(f.dataLines));
    assert Meanings([e]) == [Meaning(e)];
  }

  lemma {:induction false} MeaningsAppend(a: seq<SseEvent>, b: seq<SseEvent>)
    ensures Meanings(a + b) == Meanings(a) + Meanings(b)
  {
    if a == [] {
      Seqs.Unit(b);
    } else {
      Seqs.TailOfSum(a, b);
      MeaningsAppend(a[1..], b);
    }
  }

  lemma {:induction false} BlockCount(block: string)
    ensures |ParseBlock(block)| == |Meanings(ParseBlock(block))| <= |BlockMessages(block)|
  {
    BlockMeaning(block);
    DataRead(Split(block));
  }

  lemma {:induction false} BlocksCount(blocks: seq<string>)
    ensures |Meanings(BlockEvents(blocks))| <= |AllBlockMessages(blocks)|
  {
    if blocks != [] {
      MeaningsAppend(ParseBlock(blocks[0]), BlockEvents(blocks[1..]));
      BlockCount(blocks[0]);
      BlocksCount(blocks[1..]);
    }
  }

  lemma SumsEqual<T>(a: seq<T>, b: seq<T>, c: seq<T>, d: seq<T>)
    requires |a| <= |c| && |b| <= |d|
    ensures a + b == c + d <==> a == c && b == d
  {
    if a + b == c + d {
      assert |a| == |c|;
      assert a == (a + b)[..|a|] && c == (c + d)[..|a|];
      assert b == (a + b)[|a|..] && d == (c + d)[|a|..];
    }
  }

  lemma NoMeanings()
    ensures Meanings([]) == []
  {
  }

  lemma {:induction false} BlocksAgreeExactly(blocks: seq<string>)
    ensures Meanings(BlockEvents(blocks)) == AllBlockMessages(blocks)
            <==> forall i | 0 <= i < |blocks| :: Plain(Split(blocks[i]))
  {
    hide Plain, Split, Meanings, ParseBlock, LineFields;
    if blocks == [] {
      assert Meanings([]) == [] by {
        NoMeanings();
      }
    } else {
      var rest := blocks[1..];
      MeaningsAppend(ParseBlock(blocks[0]), BlockEvents(rest));
      BlockCount(blocks[0]);
      BlocksCount(rest);
      SumsEqual(Meanings(ParseBlock(blocks[0])), Meanings(BlockEvents(rest)), BlockMessages(blocks[0]), AllBlockMessages(rest));
      BlockMeaning(blocks[0]);
      PlainExactly(Split(blocks[0]));
      BlocksAgreeExactly(rest);
      assert forall i | 1 <= i < |blocks| :: blocks[i] == rest[i - 1];
      assert forall i | 0 <= i < |rest| :: rest[i] == blocks[i + 1];
    }
  }

  /**
   On an LF-only stream the parser emits exactly the standard's messages if and only if no terminated
   block has a bare `data` line, or has data and a bare `event` line that clears its type.
   */
  lemma {:induction false} AgreesExactly(s: string)
    requires LfOnly(s)
    ensures Meanings(Drain(s).events) == Interpret(s)
            <==> forall i | 0 <= i < |Cut(s).blocks| :: Plain(Split(Cut(s).blocks[i]))
  {
    InterpretByBlocks(s);
    BlocksAgreeExactly(Cut(s).blocks);
  }

  // ----- streams without bare field names ----------------------------------------------

  predicate NoBareNames(lines: seq<string>) {
    "data" !in lines && "event" !in lines
  }

  lemma {:induction false} NoBareIsPlain(lines: seq<string>)
    requires NoBareNames(lines)
    ensures Plain(lines) && !ClearsType(lines)
  {
    if lines != [] {
      assert lines[|lines| - 1] in lines;
      NoBareIsPlain(lines[..|lines| - 1]);
    }
  }

  lemma {:induction false} BlockLinesContain(blocks: seq<string>, i: nat, l: string)
    requires i < |blocks| && l in Split(blocks[i])
    ensures l in BlockLines(blocks)
  {
    if i > 0 {
      BlockLinesContain(blocks[1..], i - 1, l);
    }
  }

  lemma {:induction false} CutAtLf(s: string, p: nat, n: nat)
    requires p < n <= |s| && s[p] == '\n'
    ensures s == s[..p] + "\n" + s[p + 1..]
    ensures s[..n] == s[..p] + "\n" + s[p + 1..][..n - p - 1]
  {
  }

  lemma {:induction false} CompletePrefix(s: string, n: nat)
    requires n <= |s|
    ensures forall i | 0 <= i < |Complete(Split(s[..n]))| :: Complete(Split(s[..n]))[i] in Complete(Split(s))
    decreases |s|
  {
    hide Split, FindLf;
    var t := s[..n];
    match FindLf(s)
    case None =>
      SplitOneLine(t);
    case Some(p) =>
      if n <= p {
        assert t == s[..p][..n];
        SplitOneLine(t);
      } else {
        var line, rest, m := s[..p], s[p + 1..], n - p - 1;
        CutAtLf(s, p, n);
        SplitAtLf(line, rest);
        SplitAtLf(line, rest[..m]);
        CompletePrefix(rest, m);
        CompleteSum([line], Split(rest));
        CompleteSum([line], Split(rest[..m]));
      }
  }

  /**
   For every LF-only stream with no line that is exactly `data` or `event`, the events emitted after
   every prefix are the messages the standard has dispatched by then.
   */
  lemma {:induction false} RefinesStandard(s: string, n: nat)
    requires LfOnly(s) && NoBareNames(Complete(Split(s))) && n <= |s|
    ensures Meanings(Drain(s[..n]).events) == Interpret(s[..n])
  {
    var t := s[..n];
    CompletePrefix(s, n);
    SplitByBlocks(t);
    var c := Cut(t);
    CompleteSum(BlockLines(c.blocks), Split(c.rest));
    forall i | 0 <= i < |c.blocks| ensures Plain(Split(c.blocks[i])) {
      forall l | l in Split(c.blocks[i]) ensures l in Complete(Split(t)) {
        BlockLinesContain(c.blocks, i, l);
      }
      NoBareIsPlain(Split(c.blocks[i]));
    }
    AgreesExactly(t);
  }
}
