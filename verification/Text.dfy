/** Facts about sequences of any element type. */
module Seqs {

  lemma Assoc<T>(a: seq<T>, b: seq<T>, c: seq<T>)
    ensures a + (b + c) == a + b + c
  {
  }

  lemma Unit<T>(a: seq<T>)
    ensures a + [] == a && [] + a == a
  {
  }

  lemma HeadTail<T>(a: seq<T>)
    requires a != []
    ensures a == [a[0]] + a[1..]
  {
  }

  lemma TailOfSum<T>(a: seq<T>, b: seq<T>)
    requires a != []
    ensures (a + b)[0] == a[0] && (a + b)[1..] == a[1..] + b
  {
  }
}

/** Strings as the source uses them: split and join on LF, prefixes, white space, byte length. */
module Text {
  import opened Wrappers
  import Seqs

  predicate LfFree(s: string) {
    '\n' !in s
  }

  predicate StartsWith(s: string, prefix: string) {
    |prefix| <= |s| && s[..|prefix|] == prefix
  }

  lemma NotPrefix(s: string, prefix: string, i: nat)
    requires i < |prefix| && i < |s| && s[i] != prefix[i]
    ensures !StartsWith(s, prefix)
  {
    assert |prefix| <= |s| ==> s[..|prefix|][i] == s[i];
  }

  lemma PrefixOfSum(a: string, b: string)
    ensures StartsWith(a + b, a)
  {
  }

  lemma PrefixOfPrefix(s: string, a: string, b: string)
    requires StartsWith(s, a + b)
    ensures StartsWith(s, a)
  {
    assert s[..|a|] == s[..|a + b|][..|a|];
  }

  function FindLf(s: string): (r: Option<nat>)
    ensures r.None? ==> LfFree(s)
    ensures r.Some? ==> r.value < |s| && s[r.value] == '\n' && LfFree(s[..r.value])
  {
    if s == "" then None
    else if s[0] == '\n' then Some(0)
    else
      match FindLf(s[1..])
      case None => None
      case Some(p) =>
        assert s[..p + 1] == [s[0]] + s[1..][..p];
        Some(p + 1)
  }

  /** `split('\n')`: always at least one piece. */
  function Split(s: string): (lines: seq<string>)
    ensures |lines| >= 1
    ensures forall l | l in lines :: LfFree(l)
    decreases |s|
  {
    match FindLf(s)
    case None => [s]
    case Some(p) => [s[..p]] + Split(s[p + 1..])
  }

  /** `join("\n")`. */
  function Join(lines: seq<string>): string {
    if |lines| == 0 then ""
    else if |lines| == 1 then lines[0]
    else lines[0] + "\n" + Join(lines[1..])
  }

  function Concat(parts: seq<string>): string {
    if parts == [] then "" else parts[0] + Concat(parts[1..])
  }

  lemma FindLfAt(a: string, b: string)
    requires LfFree(a)
    ensures FindLf(a + "\n" + b) == Some(|a|)
  {
    var s := a + "\n" + b;
    assert s[|a|] == '\n';
    assert forall i | 0 <= i < |a| :: s[i] == a[i] && a[i] != '\n';
    assert forall p | |a| < p <= |s| :: s[..p][|a|] == '\n' && !LfFree(s[..p]);
  }

  lemma SplitOneLine(line: string)
    requires LfFree(line)
    ensures Split(line) == [line]
  {
    assert FindLf(line).None?;
  }

  lemma SplitAtLf(line: string, rest: string)
    requires LfFree(line)
    ensures Split(line + "\n" + rest) == [line] + Split(rest)
  {
    hide FindLf;
    FindLfAt(line, rest);
    assert (line + "\n" + rest)[..|line|] == line;
    assert (line + "\n" + rest)[|line| + 1..] == rest;
  }

  lemma {:induction false} SplitAppend(a: string, b: string)
    ensures Split(a + "\n" + b) == Split(a) + Split(b)
    decreases |a|
  {
    hide FindLf, LfFree;
    match FindLf(a)
    case None =>
      SplitAtLf(a, b);
    case Some(p) =>
      var line, rest := a[..p], a[p + 1..];
      assert a == line + "\n" + rest;
      Seqs.Assoc(line + "\n", rest, "\n");
      Seqs.Assoc(line + "\n", rest + "\n", b);
      SplitAtLf(line, rest + "\n" + b);
      SplitAppend(rest, b);
      Seqs.Assoc([line], Split(rest), Split(b));
  }

  lemma {:induction false} JoinSplit(s: string)
    ensures Join(Split(s)) == s
    decreases |s|
  {
    match FindLf(s)
    case None =>
    case Some(p) =>
      JoinSplit(s[p + 1..]);
      assert Split(s)[1..] == Split(s[p + 1..]);
      assert s == s[..p] + "\n" + s[p + 1..];
  }

  lemma {:induction false} SplitJoin(lines: seq<string>)
    requires |lines| >= 1 && forall l | l in lines :: LfFree(l)
    ensures Split(Join(lines)) == lines
  {
    if |lines| == 1 {
      assert LfFree(lines[0]);
      assert FindLf(lines[0]).None?;
      assert lines == [lines[0]];
    } else {
      assert lines[0] in lines;
      SplitAppend(lines[0], Join(lines[1..]));
      SplitJoin(lines[1..]);
      assert Split(lines[0]) == [lines[0]];
      assert lines == [lines[0]] + lines[1..];
    }
  }

  lemma {:induction false} JoinSnoc(lines: seq<string>, last: string)
    requires |lines| >= 1
    ensures Join(lines + [last]) == Join(lines) + "\n" + last
  {
    if |lines| == 1 {
      assert (lines + [last])[1..] == [last];
    } else {
      assert (lines + [last])[1..] == lines[1..] + [last];
      JoinSnoc(lines[1..], last);
    }
  }

  /** Unicode `White_Space`, the set `trim` removes. */
  predicate IsWhite(c: char) {
    || '\U{0009}' <= c <= '\U{000D}'
    || c == ' ' || c == '\U{0085}' || c == '\U{00A0}' || c == '\U{1680}'
    || '\U{2000}' <= c <= '\U{200A}'
    || c == '\U{2028}' || c == '\U{2029}' || c == '\U{202F}' || c == '\U{205F}' || c == '\U{3000}'
  }

  /** `trim().is_empty()`. */
  predicate TrimsToEmpty(s: string) {
    forall i | 0 <= i < |s| :: IsWhite(s[i])
  }

  /** `str::len`: bytes of the UTF-8 encoding. */
  function Utf8Len(s: string): nat {
    if s == "" then 0
    else
      var c := s[0];
      (if c < '\U{0080}' then 1 else if c < '\U{0800}' then 2 else if c < '\U{10000}' then 3 else 4) + Utf8Len(s[1..])
  }

  function DecimalNat(n: nat): string {
    if n < 10 then [('0' as int + n) as char] else DecimalNat(n / 10) + [('0' as int + n % 10) as char]
  }

  function Decimal(n: int): string {
    if n < 0 then "-" + DecimalNat(-n) else DecimalNat(n)
  }

  /** The number that digits spell. */
  function ValueOf(digits: string): int
    requires forall i | 0 <= i < |digits| :: '0' <= digits[i] <= '9'
  {
    if digits == "" then 0
    else 10 * ValueOf(digits[..|digits| - 1]) + (digits[|digits| - 1] as int - '0' as int)
  }

  /** The decimal form has no leading zero and spells its number. */
  lemma {:induction false} DecimalSpells(n: nat)
    ensures var s := DecimalNat(n);
            && |s| >= 1 && (forall i | 0 <= i < |s| :: '0' <= s[i] <= '9') && ValueOf(s) == n && (s[0] == '0' ==> n == 0)
    ensures Decimal(n) == DecimalNat(n) && (n > 0 ==> var m: int := n; Decimal(-m) == "-" + DecimalNat(n))
  {
    if n >= 10 {
      DecimalSpells(n / 10);
      var s := DecimalNat(n);
      assert s[..|s| - 1] == DecimalNat(n / 10);
    } else {
      assert DecimalNat(n)[..0] == "";
    }
  }

  lemma {:induction false} Utf8LenAppend(a: string, b: string)
    ensures Utf8Len(a + b) == Utf8Len(a) + Utf8Len(b)
  {
    if a == "" {
      Seqs.Unit(b);
    } else {
      Seqs.TailOfSum(a, b);
      Utf8LenAppend(a[1..], b);
    }
  }

  /** The bytes of one character, by the ranges of UTF-8; those of a text add up. */
  lemma Utf8LenOne(c: char)
    ensures Utf8Len("") == 0
    ensures c <= '\U{007F}' ==> Utf8Len([c]) == 1
    ensures '\U{0080}' <= c <= '\U{07FF}' ==> Utf8Len([c]) == 2
    ensures '\U{0800}' <= c <= '\U{FFFF}' ==> Utf8Len([c]) == 3
    ensures '\U{10000}' <= c ==> Utf8Len([c]) == 4
  {
    assert [c][1..] == "";
  }
}
