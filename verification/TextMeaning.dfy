/** What the lines of a report are, said of the text they come from. */
module TextMeaning {
  import opened Text
  import opened TextWrap

  // ---------- Characters ----------

  /** The characters at which a text is split into lines. */
  lemma LineBreaksAre(c: char)
    ensures IsLineBreak(c) <==>
              c in {'\n', '\U{0b}', '\U{0c}', '\r', '\U{1c}', '\U{1d}', '\U{1e}', '\U{85}', '\U{2028}', '\U{2029}'}
  {
  }

  /** The characters that a line may be wrapped at. */
  lemma BlanksAre(c: char)
    ensures IsBlank(c) <==> c in {'\t', '\n', '\U{0b}', '\U{0c}', '\r', ' '}
  {
  }

  // ---------- Lines and the breaks between them ----------

  /** One line break: a carriage return and a line feed, or any other single one. */
  predicate IsBreak(b: string) { b == "\r\n" || (|b| == 1 && IsLineBreak(b[0])) }

  /** The lines with their breaks, one behind the other. */
  function Glue(lines: seq<string>, breaks: seq<string>): string
    requires |lines| == |breaks|
  {
    if lines == [] then "" else lines[0] + breaks[0] + Glue(lines[1..], breaks[1..])
  }

  /** The `i`-th break ends its line; only the last line may go without, if it is not empty. */
  predicate BreakFits(lines: seq<string>, breaks: seq<string>, i: int)
    requires |lines| == |breaks| && 0 <= i < |lines|
  {
    && (IsBreak(breaks[i]) || (breaks[i] == "" && i == |lines| - 1 && lines[i] != ""))
    && (breaks[i] == "\r" && i + 1 < |lines| && lines[i + 1] == "" ==> !("\n" <= breaks[i + 1]))
  }

  /** The text is these lines, with such breaks, and a carriage return with a line feed is one break. */
  predicate IsSplit(text: string, lines: seq<string>, breaks: seq<string>) {
    && |lines| == |breaks| && text == Glue(lines, breaks)
    && (forall i :: 0 <= i < |lines| ==> NoLineBreaks(lines[i]))
    && forall i :: 0 <= i < |lines| ==> BreakFits(lines, breaks, i)
  }

  lemma SplitMore(text: string, line: string, b: string, rest: string, lines: seq<string>, breaks: seq<string>)
    requires text == line + b + rest && NoLineBreaks(line) && IsSplit(rest, lines, breaks)
    requires IsBreak(b) || (b == "" && rest == "" && line != "")
    requires b == "\r" ==> !("\n" <= rest)
    ensures IsSplit(text, [line] + lines, [b] + breaks)
  {
    hide NoLineBreaks, IsBreak;
    var all, bs := [line] + lines, [b] + breaks;
    assert all[1..] == lines && bs[1..] == breaks;
    if rest == "" && b == "" { GlueNothing(lines, breaks); }
    forall i | 0 <= i < |all|
      ensures NoLineBreaks(all[i]) && BreakFits(all, bs, i)
    {
      if i > 0 {
        assert all[i] == lines[i - 1] && bs[i] == breaks[i - 1] && BreakFits(lines, breaks, i - 1);
      } else if lines != [] && lines[0] == "" {
        GlueStarts(lines, breaks);
      }
    }
  }

  lemma GlueNothing(lines: seq<string>, breaks: seq<string>)
    requires IsSplit("", lines, breaks)
    ensures lines == []
  {
    if lines != [] { GlueSome(lines, breaks); }
  }

  lemma GlueSome(lines: seq<string>, breaks: seq<string>)
    requires |lines| == |breaks| && lines != [] && BreakFits(lines, breaks, 0)
    ensures Glue(lines, breaks) != ""
  {
  }

  lemma GlueStarts(lines: seq<string>, breaks: seq<string>)
    requires |lines| == |breaks| && lines != [] && lines[0] == ""
    ensures "\n" <= breaks[0] ==> "\n" <= Glue(lines, breaks)
  {
  }

  /** Splitting a text gives its lines: with the breaks between them they are the text. */
  lemma {:induction false} SplitTells(text: string) returns (breaks: seq<string>)
    ensures IsSplit(text, SplitLines(text), breaks)
    decreases |text|
  {
    hide IsSplit, NoLineBreaks, IsLineBreak;
    if text == "" {
      breaks := [];
      NothingSplit();
    } else {
      var n := LineLength(text);
      if n == |text| {
        NothingSplit();
        assert text[..n] == text && text + "" + "" == text && [text] + [] == [text];
        SplitMore(text, text, "", "", [], []);
        breaks := [""] + [];
      } else {
        var skip := if text[n] == '\r' && n + 1 < |text| && text[n + 1] == '\n' then 2 else 1;
        var rest := text[n + skip..];
        var more := SplitTells(rest);
        breaks := [text[n..n + skip]] + more;
        BreakHere(text, n, skip);
        SplitMore(text, text[..n], text[n..n + skip], rest, SplitLines(rest), more);
      }
    }
  }

  lemma NothingSplit()
    ensures IsSplit("", [], [])
  {
  }

  lemma BreakHere(text: string, n: nat, skip: nat)
    requires n < |text| && IsLineBreak(text[n])
    requires skip == if text[n] == '\r' && n + 1 < |text| && text[n + 1] == '\n' then 2 else 1
    ensures text == text[..n] + text[n..n + skip] + text[n + skip..] && IsBreak(text[n..n + skip])
    ensures text[n..n + skip] == "\r" ==> !("\n" <= text[n + skip..])
  {
  }

  // ---------- Tabs ----------

  predicate NoTabs(s: string) { forall i :: 0 <= i < |s| ==> s[i] != '\t' }

  /** The number of characters in front of position `p` since the last line end. */
  function Column(r: string, p: nat): nat
    requires p <= |r|
  {
    if p == 0 || r[p - 1] == '\n' || r[p - 1] == '\r' then 0 else Column(r, p - 1) + 1
  }

  /** What stands in `r` from `a` to `b` for the character `c`: for a tab one to eight blanks, up to the next
      multiple of eight columns, and otherwise the character. */
  predicate StandsFor(c: char, r: string, a: nat, b: nat)
    requires a <= b <= |r|
  {
    if c == '\t' then
      1 <= b - a <= 8 && (forall k :: a <= k < b ==> r[k] == ' ') && Column(r, b) % 8 == 0
    else r[a..b] == [c]
  }

  predicate StandsAt(s: string, r: string, at: seq<nat>, i: int)
    requires |at| == |s| + 1 && 0 <= i < |s|
  {
    at[i] <= at[i + 1] <= |r| && StandsFor(s[i], r, at[i], at[i + 1])
  }

  /** The characters of `s` stand in `r` one behind the other, the `i`-th one from `at[i]` on. */
  predicate IsExpanded(s: string, r: string, at: seq<nat>) {
    |at| == |s| + 1 && at[|s|] == |r| && forall i :: 0 <= i < |s| ==> StandsAt(s, r, at, i)
  }

  lemma {:induction false} ColumnBlanks(r: string, p: nat, k: nat)
    requires p + k <= |r| && forall i :: p <= i < p + k ==> r[i] == ' '
    ensures Column(r, p + k) == Column(r, p) + k
  {
    if k > 0 { ColumnBlanks(r, p, k - 1); }
  }

  /** What one character becomes in a column. */
  function Piece(c: char, col: nat): string { if c == '\t' then Repeat(' ', 8 - col % 8) else [c] }

  function NextColumn(c: char, col: nat): nat {
    if c == '\t' then col + 8 - col % 8 else if c == '\n' || c == '\r' then 0 else col + 1
  }

  lemma ExpandFirst(s: string, col: nat)
    requires s != ""
    ensures ExpandTabs(s, col) == Piece(s[0], col) + ExpandTabs(s[1..], NextColumn(s[0], col))
  {
  }

  lemma PieceAt(r: string, a: nat, piece: string, rest: string)
    requires a <= |r| && r[a..] == piece + rest
    ensures var b := a + |piece|; b <= |r| && r[a..b] == piece && r[b..] == rest
  {
    var b := a + |piece|;
    assert r[a..b] == r[a..][..|piece|];
    assert r[b..] == r[a..][|piece|..];
  }

  lemma BlanksStand(r: string, a: nat, n: nat)
    requires a + n <= |r| && r[a..a + n] == Repeat(' ', n) && n == 8 - Column(r, a) % 8
    ensures StandsFor('\t', r, a, a + n) && Column(r, a + n) == Column(r, a) + n
  {
    assert forall k :: a <= k < a + n ==> r[k] == r[a..a + n][k - a];
    ColumnBlanks(r, a, n);
  }

  lemma CharStands(c: char, r: string, a: nat)
    requires a + 1 <= |r| && r[a..a + 1] == [c] && c != '\t'
    ensures StandsFor(c, r, a, a + 1) && Column(r, a + 1) == NextColumn(c, Column(r, a))
  {
    assert r[a] == r[a..a + 1][0];
  }

  lemma PieceStands(c: char, r: string, a: nat, rest: string)
    requires a <= |r| && r[a..] == Piece(c, Column(r, a)) + rest
    ensures var b := a + |Piece(c, Column(r, a))|;
      a <= b <= |r| && StandsFor(c, r, a, b) && Column(r, b) == NextColumn(c, Column(r, a)) && r[b..] == rest
  {
    hide StandsFor, Column;
    PieceAt(r, a, Piece(c, Column(r, a)), rest);
    if c == '\t' { BlanksStand(r, a, 8 - Column(r, a) % 8); } else { CharStands(c, r, a); }
  }

  /** From `a` on, `r` is the expansion of `s` from its column on. */
  lemma {:induction false} ExpandTells(s: string, r: string, a: nat) returns (at: seq<nat>)
    requires a <= |r| && r[a..] == ExpandTabs(s, Column(r, a))
    ensures at != [] && at[0] == a && IsExpanded(s, r, at)
    decreases |s|
  {
    hide StandsFor, Column, ExpandTabs, Piece, StandsAt;
    if s == "" {
      at := [a];
      NothingExpanded(r, a);
    } else {
      var col := Column(r, a);
      ExpandFirst(s, col);
      PieceStands(s[0], r, a, ExpandTabs(s[1..], NextColumn(s[0], col)));
      var b := a + |Piece(s[0], col)|;
      var more := ExpandTells(s[1..], r, b);
      at := [a] + more;
      ExpandedMore(s, r, a, more);
    }
  }

  lemma ExpandedMore(s: string, r: string, a: nat, more: seq<nat>)
    requires s != "" && more != [] && IsExpanded(s[1..], r, more)
    requires a <= more[0] <= |r| && StandsFor(s[0], r, a, more[0])
    ensures IsExpanded(s, r, [a] + more)
  {
    hide StandsFor;
    var at := [a] + more;
    forall i | 0 <= i < |s|
      ensures StandsAt(s, r, at, i)
    {
      if i > 0 { assert StandsAt(s[1..], r, more, i - 1) && at[i] == more[i - 1] && at[i + 1] == more[i]; }
    }
  }

  lemma NothingExpanded(r: string, a: nat)
    requires a <= |r| && r[a..] == ExpandTabs("", Column(r, a))
    ensures a == |r|
  {
  }

  /** `r` is the line with its tabs expanded. */
  ghost predicate Expanded(s: string, r: string) { exists at: seq<nat> :: at != [] && at[0] == 0 && IsExpanded(s, r, at) }

  lemma ExpandsTabs(s: string)
    ensures Expanded(s, ExpandTabs(s, 0))
  {
    hide IsExpanded;
    var r := ExpandTabs(s, 0);
    assert r[0..] == r && Column(r, 0) == 0;
    var at := ExpandTells(s, r, 0);
  }

  lemma {:induction false} NoTabsNoChange(s: string, col: nat)
    requires NoTabs(s)
    ensures ExpandTabs(s, col) == s
  {
    if s != "" { NoTabsNoChange(s[1..], NextColumn(s[0], col)); }
  }

  /** A line without tabs stays as it is. */
  lemma NoTabsSame(s: string, r: string)
    requires NoTabs(s) && r == ExpandTabs(s, 0)
    ensures r == s
  {
    NoTabsNoChange(s, 0);
  }

  // ---------- The wrapped lines of a text ----------

  /** The wrapped lines of one line: together they are the line with its tabs expanded. */
  ghost predicate IsWrapped(line: string, pieces: seq<string>) {
    && pieces != [] && Expanded(line, Concat(pieces)) && (NoTabs(line) ==> Concat(pieces) == line)
    && (line != "" ==> forall i :: 0 <= i < |pieces| ==> pieces[i] != "")
  }

  lemma WrapTells(line: string, width: nat)
    requires width > 0
    ensures IsWrapped(line, WrapLine(line, width))
  {
    hide Expanded, ExpandTabs;
    ExpandsTabs(line);
    if NoTabs(line) { NoTabsSame(line, ExpandTabs(line, 0)); }
  }

  /** The wrapped lines of a text are those of its lines, one after the other. */
  lemma {:induction false} WrapAllTells(lines: seq<string>, width: nat) returns (groups: seq<seq<string>>)
    requires width > 0
    ensures |groups| == |lines| && Flatten(groups) == WrapAll(lines, width)
    ensures forall i :: 0 <= i < |lines| ==> IsWrapped(lines[i], groups[i])
  {
    hide IsWrapped, WrapLine;
    groups := [];
    if lines != [] {
      var more := WrapAllTells(lines[1..], width);
      WrapTells(lines[0], width);
      groups := [WrapLine(lines[0], width)] + more;
      assert groups[1..] == more;
      assert forall i :: 0 < i < |lines| ==> lines[i] == lines[1..][i - 1];
    }
  }
}
