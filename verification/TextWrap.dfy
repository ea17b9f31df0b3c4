/**
 How a report text becomes lines of at most `width` characters: `str.splitlines`, then
 `textwrap.wrap` with white space kept and long words broken.
 */
module TextWrap {
  import opened Text

  // ---------- str.splitlines ----------

  predicate IsLineBreak(c: char) {
    || '\n' <= c <= '\r'
    || '\U{1c}' <= c <= '\U{1e}'
    || c == '\U{85}' || c == '\U{2028}' || c == '\U{2029}'
  }

  predicate NoLineBreaks(s: string) { forall i :: 0 <= i < |s| ==> !IsLineBreak(s[i]) }

  /** The length of the first line of `s`. */
  function LineLength(s: string): (n: nat)
    ensures n <= |s| && NoLineBreaks(s[..n]) && (n < |s| ==> IsLineBreak(s[n]))
  {
    if s == "" || IsLineBreak(s[0]) then 0 else
      var n := 1 + LineLength(s[1..]);
      assert forall i :: 1 <= i < n ==> s[..n][i] == s[1..][..n - 1][i - 1];
      n
  }

  function SplitLines(s: string): (lines: seq<string>)
    ensures forall line <- lines :: NoLineBreaks(line)
    decreases |s|
  {
    if s == "" then []
    else
      var n := LineLength(s);
      if n == |s| then [s]
      else
        var skip := if s[n] == '\r' && n + 1 < |s| && s[n + 1] == '\n' then 2 else 1;
        [s[..n]] + SplitLines(s[n + skip..])
  }

  // ---------- textwrap.wrap ----------

  /** `line.expandtabs(8)` from column `col` */
  function ExpandTabs(s: string, col: nat): (r: string)
    ensures |r| >= |s|
    ensures NoLineBreaks(s) ==> NoLineBreaks(r)
  {
    if s == "" then ""
    else if s[0] == '\t' then
      Repeat(' ', 8 - col % 8) + ExpandTabs(s[1..], col + 8 - col % 8)
    else if s[0] == '\n' || s[0] == '\r' then [s[0]] + ExpandTabs(s[1..], 0)
    else [s[0]] + ExpandTabs(s[1..], col + 1)
  }

  /** The white space at which textwrap splits. */
  predicate IsBlank(c: char) { '\t' <= c <= '\r' || c == ' ' }

  /** The length of the longest prefix that is all blank or all non-blank. */
  function ChunkLength(s: string): (n: nat)
    requires s != ""
    ensures 1 <= n <= |s|
    ensures forall i :: 0 <= i < n ==> IsBlank(s[i]) == IsBlank(s[0])
    ensures n < |s| ==> IsBlank(s[n]) != IsBlank(s[0])
  {
    if |s| == 1 || IsBlank(s[1]) != IsBlank(s[0]) then 1 else 1 + ChunkLength(s[1..])
  }

  predicate NoneEmpty(chunks: seq<string>) { forall i :: 0 <= i < |chunks| ==> chunks[i] != "" }

  /** Words and the gaps between them. */
  function Chunks(s: string): (chunks: seq<string>)
    ensures Concat(chunks) == s
    ensures NoneEmpty(chunks)
    decreases |s|
  {
    if s == "" then [] else
      var n := ChunkLength(s);
      var rest := Chunks(s[n..]);
      assert s == s[..n] + s[n..];
      assert ([s[..n]] + rest)[1..] == rest;
      [s[..n]] + rest
  }

  /** Takes chunks while they fit into `room` characters. */
  function Fill(chunks: seq<string>, room: nat): (r: (string, seq<string>))
    requires NoneEmpty(chunks)
    ensures |r.0| <= room
    ensures r.0 + Concat(r.1) == Concat(chunks)
    ensures NoneEmpty(r.1)
    ensures r.1 != [] ==> |r.0| + |r.1[0]| > room
    ensures r.0 == "" ==> r.1 == chunks
    decreases |chunks|
  {
    if chunks == [] || |chunks[0]| > room then ("", chunks)
    else
      var (line, rest) := Fill(chunks[1..], room - |chunks[0]|);
      Regroup3(chunks[0], line, Concat(rest));
      (chunks[0] + line, rest)
  }

  /** Cutting the first chunk in two loses nothing. */
  lemma CutChunk(line: string, rest: seq<string>, room: nat)
    requires NoneEmpty(rest) && rest != [] && room < |rest[0]|
    ensures var broken := [rest[0][room..]] + rest[1..];
      NoneEmpty(broken) && (line + rest[0][..room]) + Concat(broken) == line + Concat(rest)
  {
    var broken := [rest[0][room..]] + rest[1..];
    assert broken[1..] == rest[1..];
    Rejoined(line, rest[0][..room], rest[0][room..], Concat(rest[1..]));
    assert rest[0] == rest[0][..room] + rest[0][room..];
  }

  lemma Rejoined(a: string, b: string, c: string, d: string)
    ensures (a + b) + (c + d) == a + ((b + c) + d)
  {
  }

  /** The next line: the chunks that fit, and as much of a chunk longer than a whole line as there
      is room left for. */
  function NextLine(chunks: seq<string>, width: nat): (r: (string, seq<string>))
    requires NoneEmpty(chunks)
    requires chunks != [] && width > 0
    ensures 1 <= |r.0| <= width
    ensures r.0 + Concat(r.1) == Concat(chunks)
    ensures NoneEmpty(r.1)
    ensures |Concat(r.1)| < |Concat(chunks)|
  {
    var (line, rest) := Fill(chunks, width);
    if rest != [] && |rest[0]| > width then
      var room := width - |line|;
      CutChunk(line, rest, room);
      (line + rest[0][..room], [rest[0][room..]] + rest[1..])
    else
      (line, rest)
  }

  function WrapChunks(chunks: seq<string>, width: nat): (lines: seq<string>)
    requires NoneEmpty(chunks)
    requires width > 0
    ensures Concat(lines) == Concat(chunks)
    ensures forall line <- lines :: 1 <= |line| <= width
    decreases |Concat(chunks)|
  {
    if chunks == [] then [] else
      var (line, rest) := NextLine(chunks, width);
      var lines := WrapChunks(rest, width);
      assert ([line] + lines)[1..] == lines;
      [line] + lines
  }

  // ---------- Greedy filling ----------

  /** The position where chunk `n` begins. */
  function StartOf(chunks: seq<string>, n: nat): nat
    requires n <= |chunks|
  {
    |Concat(chunks[..n])|
  }

  /** A line of this length may end at position `end`, which is in chunk `n`: either the chunk begins
      there, could stand on a line of its own, and does not fit any more; or it is longer than a whole
      line, and the line is full. */
  predicate MayEnd(chunks: seq<string>, n: nat, end: nat, length: nat, width: nat)
    requires n < |chunks|
  {
    && StartOf(chunks, n) <= end < StartOf(chunks, n) + |chunks[n]|
    && if |chunks[n]| <= width then end == StartOf(chunks, n) && length + |chunks[n]| > width else length == width
  }

  /** Every line but the last ends where it may. */
  ghost predicate Greedy(chunks: seq<string>, lines: seq<string>, width: nat) {
    forall i :: 0 <= i < |lines| - 1 ==> EndsWell(chunks, StartOf(lines, i + 1), |lines[i]|, width)
  }

  ghost predicate EndsWell(chunks: seq<string>, end: nat, length: nat, width: nat) {
    exists n :: 0 <= n < |chunks| && MayEnd(chunks, n, end, length, width)
  }

  lemma ConcatFirst(a: seq<string>)
    requires a != []
    ensures Concat(a) == a[0] + Concat(a[1..])
  {
  }

  lemma ConcatNone()
    ensures Concat([]) == ""
  {
  }

  lemma {:induction false} ConcatAppend(a: seq<string>, b: seq<string>)
    ensures Concat(a + b) == Concat(a) + Concat(b)
  {
    hide Concat;
    if a == [] {
      assert a + b == b;
      ConcatNone();
    } else {
      var t := a[1..];
      ConcatAppend(t, b);
      ConcatFirst(a + b);
      ConcatFirst(a);
      assert (a + b)[1..] == t + b;
      Regroup3(a[0], Concat(t), Concat(b));
    }
  }

  lemma StartBehind(chunks: seq<string>, n: nat, m: nat)
    requires n <= |chunks| && m <= |chunks| - n
    ensures StartOf(chunks, n + m) == StartOf(chunks, n) + StartOf(chunks[n..], m)
  {
    assert chunks[..n + m] == chunks[..n] + chunks[n..][..m];
    ConcatAppend(chunks[..n], chunks[n..][..m]);
  }

  /** `textwrap.wrap(line, width, ...)` with the options the report uses: it loses nothing but tabs,
      which become spaces, and every line it makes has between one and `width` characters. */
  function Wrap(line: string, width: nat): (lines: seq<string>)
    requires width > 0
    ensures Concat(lines) == ExpandTabs(line, 0)
    ensures forall l <- lines :: 1 <= |l| <= width
  {
    WrapChunks(Chunks(ExpandTabs(line, 0)), width)
  }

  /** What taking one line leaves: the chunks behind those it holds, the first of them cut if it is longer
      than a whole line. */
  /** Whole chunks are taken. */
  lemma {:induction false} FillTakesChunks(chunks: seq<string>, room: nat)
    requires NoneEmpty(chunks)
    ensures var (line, rest) := Fill(chunks, room);
      |rest| <= |chunks| && rest == chunks[|chunks| - |rest|..] && line == Concat(chunks[..|chunks| - |rest|])
  {
    if chunks == [] || |chunks[0]| > room {
      assert chunks[..0] == [];
    } else {
      FillTakesChunks(chunks[1..], room - |chunks[0]|);
      TakeOne(chunks, |Fill(chunks[1..], room - |chunks[0]|).1|);
    }
  }

  lemma TakeOne(chunks: seq<string>, left: nat)
    requires left < |chunks|
    ensures chunks[1..][|chunks| - 1 - left..] == chunks[|chunks| - left..]
    ensures Concat(chunks[..|chunks| - left]) == chunks[0] + Concat(chunks[1..][..|chunks| - 1 - left])
  {
    assert chunks[..|chunks| - left][1..] == chunks[1..][..|chunks| - 1 - left];
  }

  lemma LineTaken(chunks: seq<string>, width: nat) returns (n: nat, room: nat)
    requires NoneEmpty(chunks) && chunks != [] && width > 0
    ensures n <= |chunks| && (n == |chunks| ==> room == 0)
    ensures var r := NextLine(chunks, width); |r.0| == StartOf(chunks, n) + room
    ensures var rest := NextLine(chunks, width).1;
      if n < |chunks| && |chunks[n]| > width then
        |NextLine(chunks, width).0| == width && room < |chunks[n]| && rest == [chunks[n][room..]] + chunks[n + 1..]
      else
        room == 0 && rest == chunks[n..] && (n < |chunks| ==> |NextLine(chunks, width).0| + |chunks[n]| > width)
  {
    hide Fill, Concat, NoneEmpty;
    FillTakesChunks(chunks, width);
    var (line, rest) := Fill(chunks, width);
    n := |chunks| - |rest|;
    room := if rest != [] && |rest[0]| > width then width - |line| else 0;
    if rest != [] { assert rest[0] == chunks[n] && rest[1..] == chunks[n + 1..]; }
  }

  /** A place where a line may end in the chunks that are left is one in all the chunks. */
  lemma EndMoves(chunks: seq<string>, n: nat, room: nat, rest: seq<string>, m: nat, end: nat, length: nat, width: nat)
    requires n <= |chunks| && m < |rest| && 0 < end
    requires if n < |chunks| && |chunks[n]| > width then room < |chunks[n]| && rest == [chunks[n][room..]] + chunks[n + 1..]
             else room == 0 && rest == chunks[n..]
    requires MayEnd(rest, m, end, length, width)
    ensures n + m < |chunks| && MayEnd(chunks, n + m, StartOf(chunks, n) + room + end, length, width)
  {
    hide Concat;
    StartBehind(chunks, n, m);
    if n < |chunks| && |chunks[n]| > width {
      CutStart(chunks, n, room, m);
      assert m > 0 ==> rest[m] == chunks[n + m];
    }
  }

  lemma CutStart(chunks: seq<string>, n: nat, room: nat, m: nat)
    requires n < |chunks| && room < |chunks[n]| && m < |chunks| - n
    ensures var rest := [chunks[n][room..]] + chunks[n + 1..];
      StartOf(chunks[n..], m) == if m == 0 then 0 else StartOf(rest, m) + room
    ensures StartOf([chunks[n][room..]] + chunks[n + 1..], 0) == 0
  {
    var rest := [chunks[n][room..]] + chunks[n + 1..];
    if m > 0 {
      assert chunks[n..][..m] == [chunks[n]] + chunks[n + 1..][..m - 1];
      assert rest[..m] == [chunks[n][room..]] + chunks[n + 1..][..m - 1];
      assert ([chunks[n]] + chunks[n + 1..][..m - 1])[1..] == chunks[n + 1..][..m - 1];
      assert ([chunks[n][room..]] + chunks[n + 1..][..m - 1])[1..] == chunks[n + 1..][..m - 1];
    }
  }

  lemma {:induction false} FillsGreedily(chunks: seq<string>, width: nat)
    requires NoneEmpty(chunks) && width > 0
    ensures Greedy(chunks, WrapChunks(chunks, width), width)
    decreases |Concat(chunks)|
  {
    hide Concat, NextLine, NoneEmpty, MayEnd, Greedy;
    if chunks == [] {
      NothingEnds(width);
    } else {
      var (line, rest) := NextLine(chunks, width);
      FillsGreedily(rest, width);
      OneMoreLine(chunks, line, rest, WrapChunks(rest, width), width);
    }
  }

  lemma NothingEnds(width: nat)
    ensures Greedy([], [], width)
  {
  }

  lemma OneMoreLine(chunks: seq<string>, line: string, rest: seq<string>, more: seq<string>, width: nat)
    requires NoneEmpty(chunks) && chunks != [] && width > 0 && (line, rest) == NextLine(chunks, width)
    requires Greedy(rest, more, width) && (rest == [] ==> more == [])
    requires forall l <- more :: 1 <= |l|
    ensures Greedy(chunks, [line] + more, width)
  {
    hide Concat, NextLine, MayEnd, StartOf;
    var lines := [line] + more;
    var n, room := LineTaken(chunks, width);
    forall i | 0 <= i < |lines| - 1
      ensures EndsWell(chunks, StartOf(lines, i + 1), |lines[i]|, width)
    {
      LinesSoFar(line, more, i);
      if i == 0 {
        FirstEnds(chunks, n, room, |line|, width);
      } else {
        assert EndsWell(rest, StartOf(more, i - 1 + 1), |more[i - 1]|, width);
        var m :| 0 <= m < |rest| && MayEnd(rest, m, StartOf(more, i), |more[i - 1]|, width);
        EndMoves(chunks, n, room, rest, m, StartOf(more, i), |more[i - 1]|, width);
      }
    }
  }

  lemma LinesSoFar(line: string, more: seq<string>, i: nat)
    requires i <= |more| && forall l <- more :: 1 <= |l|
    ensures StartOf([line] + more, i + 1) == |line| + StartOf(more, i)
    ensures i == 0 ==> StartOf(more, i) == 0
    ensures i > 0 ==> StartOf(more, i) > 0
  {
    assert ([line] + more)[..i + 1] == [line] + more[..i];
    assert ([line] + more[..i])[1..] == more[..i];
    if i > 0 { assert more[..i][0] == more[0]; }
  }

  lemma FirstEnds(chunks: seq<string>, n: nat, room: nat, length: nat, width: nat)
    requires n < |chunks| && chunks[n] != "" && length == StartOf(chunks, n) + room
    requires if |chunks[n]| > width then length == width && room < |chunks[n]|
             else room == 0 && length + |chunks[n]| > width
    ensures MayEnd(chunks, n, length, length, width)
  {
  }

  /** Filling is greedy: a line ends only where the next chunk does not fit, and no chunk that fits on a
      line of its own is cut. */
  lemma WrapIsGreedy(line: string, width: nat)
    requires width > 0
    ensures Greedy(Chunks(ExpandTabs(line, 0)), Wrap(line, width), width)
  {
    FillsGreedily(Chunks(ExpandTabs(line, 0)), width);
  }

  /** The wrapped lines of one source line; an empty line stays one empty line. */
  function WrapLine(line: string, width: nat): (lines: seq<string>)
    requires width > 0
    ensures lines != []
    ensures Concat(lines) == ExpandTabs(line, 0)
    ensures forall l <- lines :: |l| <= width
  {
    if line == "" then [""] else Wrap(line, width)
  }

  function WrapAll(lines: seq<string>, width: nat): seq<string>
    requires width > 0
  {
    if lines == [] then [] else WrapLine(lines[0], width) + WrapAll(lines[1..], width)
  }

  lemma WrapAllStep(done: seq<string>, lines: seq<string>, i: nat, width: nat)
    requires width > 0 && i < |lines|
    ensures done + WrapAll(lines[i..], width) == (done + WrapLine(lines[i], width)) + WrapAll(lines[i + 1..], width)
  {
    assert lines[i..][1..] == lines[i + 1..];
  }

  lemma WrapAllDone(done: seq<string>, lines: seq<string>, width: nat)
    requires width > 0
    ensures done + WrapAll(lines[|lines|..], width) == done
    ensures [] + WrapAll(lines[0..], width) == WrapAll(lines, width)
  {
    assert lines[0..] == lines;
  }

  lemma LineWrapped(line: string, width: nat)
    requires width > 0
    ensures WrapLine(line, width) == if line == "" then [""] else Wrap(line, width)
    ensures line != "" ==> Wrap(line, width) != []
  {
  }

  method WrapTextLines(text: string, width: nat) returns (wrapped: seq<string>)
    requires width > 0
    ensures wrapped == WrapAll(SplitLines(text), width)
  {
    hide WrapAll, WrapLine, Wrap, SplitLines;
    wrapped := [];
    var lines := SplitLines(text);
    var i := 0;
    WrapAllDone([], lines, width);
    while i < |lines|
      invariant 0 <= i <= |lines|
      invariant WrapAll(lines, width) == wrapped + WrapAll(lines[i..], width)
    {
      var line := lines[i];
      WrapAllStep(wrapped, lines, i, width);
      LineWrapped(line, width);
      if line == "" {
        wrapped := wrapped + [""];
      } else {
        var chunks := Wrap(line, width);
        wrapped := wrapped + (if chunks == [] then [""] else chunks);
      }
      i := i + 1;
    }
    WrapAllDone(wrapped, lines, width);
  }

  /** The wrapped lines fit and hold no line break, whatever the text. */
  lemma {:induction false} WrapAllFits(lines: seq<string>, width: nat)
    requires width > 0
    requires forall line <- lines :: NoLineBreaks(line)
    ensures forall l <- WrapAll(lines, width) :: |l| <= width && NoLineBreaks(l)
  {
    if lines != [] {
      var first := WrapLine(lines[0], width);
      PartsHaveNoBreaks(first);
      WrapAllFits(lines[1..], width);
    }
  }

  lemma {:induction false} PartsHaveNoBreaks(parts: seq<string>)
    requires NoLineBreaks(Concat(parts))
    ensures forall p <- parts :: NoLineBreaks(p)
  {
    if parts != [] {
      var all := Concat(parts);
      assert forall i :: 0 <= i < |parts[0]| ==> parts[0][i] == all[i];
      assert forall i :: 0 <= i < |Concat(parts[1..])| ==> Concat(parts[1..])[i] == all[|parts[0]| + i];
      PartsHaveNoBreaks(parts[1..]);
    }
  }
}
