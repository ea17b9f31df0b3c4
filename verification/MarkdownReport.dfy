/** The Markdown of the report: tables that are printed and read back, and the loop that cuts a text
    into blocks. */
module MarkdownReport {
  import opened Text

  // ---------- Table rows ----------

  /** `s.replace("\n", " ")` */
  function Flat(s: string): (r: string)
    ensures |r| == |s| && forall i :: 0 <= i < |s| ==> r[i] == if s[i] == '\n' then ' ' else s[i]
  {
    if s == "" then "" else [if s[0] == '\n' then ' ' else s[0]] + Flat(s[1..])
  }

  function FlatCells(cells: seq<string>): (r: seq<string>)
    ensures |r| == |cells| && forall i :: 0 <= i < |cells| ==> r[i] == Flat(cells[i])
  {
    if cells == [] then [] else [Flat(cells[0])] + FlatCells(cells[1..])
  }

  /** Cells between bars. */
  function BarLine(cells: seq<string>): string { "| " + Join(cells, " | ") + " |" }

  /** A row as `md_table` prints it. */
  function RowLine(cells: seq<string>): string { BarLine(FlatCells(cells)) }

  /** The number of bars that `s` starts with. */
  function BarsBefore(s: string): (n: nat)
    ensures n <= |s| && (forall i :: 0 <= i < n ==> s[i] == '|') && (n < |s| ==> s[n] != '|')
  {
    if s == "" || s[0] != '|' then 0 else 1 + BarsBefore(s[1..])
  }

  /** The length of `s` without the bars at its end. */
  function BarsBehind(s: string): (n: nat)
    ensures n <= |s| && (forall i :: n <= i < |s| ==> s[i] == '|') && (n > 0 ==> s[n - 1] != '|')
  {
    if s == "" || s[|s| - 1] != '|' then |s| else BarsBehind(s[..|s| - 1])
  }

  /** `s.strip("|")` */
  function StripBars(s: string): string {
    var t := s[BarsBefore(s)..];
    t[..BarsBehind(t)]
  }

  /** `s.split("|")` */
  function SplitBars(s: string): (r: seq<string>)
    ensures |r| >= 1
  {
    if s == "" then [""]
    else if s[0] == '|' then [""] + SplitBars(s[1..])
    else var r := SplitBars(s[1..]); [[s[0]] + r[0]] + r[1..]
  }

  function StripAll(cells: seq<string>): (r: seq<string>)
    ensures |r| == |cells| && forall i :: 0 <= i < |cells| ==> r[i] == Strip(cells[i])
  {
    seq(|cells|, i requires 0 <= i < |cells| => Strip(cells[i]))
  }

  /** A row as the table renderer reads it. */
  function ParseRow(line: string): seq<string> { StripAll(SplitBars(StripBars(Strip(line)))) }

  // ---------- Reading back what was printed ----------

  predicate NoBar(s: string) { forall i :: 0 <= i < |s| ==> s[i] != '|' }

  /** A cell that reads back as itself: trimmed, on one line, without a bar. */
  predicate PlainCell(c: string) { Trimmed(c) && NoBar(c) && forall i :: 0 <= i < |c| ==> c[i] != '\n' }

  /** The number of bars in `s`. */
  function Bars(s: string): nat { if s == "" then 0 else (if s[0] == '|' then 1 else 0) + Bars(s[1..]) }

  lemma {:induction false} SplitCounts(s: string)
    ensures |SplitBars(s)| == 1 + Bars(s)
  {
    if s != "" { SplitCounts(s[1..]); }
  }

  lemma {:induction false} BarsAppend(s: string, t: string)
    ensures Bars(s + t) == Bars(s) + Bars(t)
  {
    if s == "" {
      assert s + t == t;
    } else {
      assert (s + t)[1..] == s[1..] + t;
      BarsAppend(s[1..], t);
    }
  }

  lemma {:induction false} NoBars(s: string)
    ensures NoBar(s) <==> Bars(s) == 0
  {
    if s != "" {
      NoBars(s[1..]);
      assert NoBar(s) <==> s[0] != '|' && NoBar(s[1..]) by { assert s == [s[0]] + s[1..]; }
    }
  }

  lemma {:induction false} SplitFirst(a: string, rest: string)
    requires NoBar(a)
    ensures SplitBars(a + "|" + rest) == [a] + SplitBars(rest)
    ensures SplitBars(a) == [a]
  {
    if a == "" {
      assert a + "|" + rest == "|" + rest;
      assert ("|" + rest)[1..] == rest;
    } else {
      assert (a + "|" + rest)[1..] == a[1..] + "|" + rest;
      SplitFirst(a[1..], rest);
      assert [a[0]] + a[1..] == a;
    }
  }

  /** What is left of a printed row when its outer bars are stripped. */
  function Inner(cells: seq<string>): string { " " + Join(FlatCells(cells), " | ") + " " }

  lemma RowInner(cells: seq<string>)
    ensures StripBars(Strip(RowLine(cells))) == Inner(cells)
  {
    hide Join, FlatCells;
    var line, inner := RowLine(cells), Inner(cells);
    assert line == "|" + inner + "|";
    BarIsSolid();
    StripTrimmed(line);
    BarsStripped(inner);
  }

  lemma BarIsSolid()
    ensures !IsSpace('|')
  {
  }

  lemma BarsStripped(inner: string)
    requires inner != "" && inner[0] != '|' && inner[|inner| - 1] != '|'
    ensures StripBars("|" + inner + "|") == inner
  {
    var s := "|" + inner + "|";
    assert s[1..] == inner + "|";
    assert BarsBefore(s) == 1;
    var t := inner + "|";
    assert t[..|t| - 1] == inner;
    assert BarsBehind(t) == |inner|;
  }

  /** The bars of a printed row: one between any two cells, and those in the cells. */
  function CellBars(cells: seq<string>): nat { if cells == [] then 0 else Bars(cells[0]) + CellBars(cells[1..]) }

  lemma {:induction false} FlatBars(s: string)
    ensures Bars(Flat(s)) == Bars(s)
  {
    if s != "" {
      FlatBars(s[1..]);
      assert Flat(s)[1..] == Flat(s[1..]);
    }
  }

  lemma {:induction false} JoinedBars(cells: seq<string>)
    requires cells != []
    ensures Bars(Join(FlatCells(cells), " | ")) == CellBars(cells) + |cells| - 1
    decreases |cells|
  {
    var flat := FlatCells(cells);
    FlatBars(cells[0]);
    assert flat[1..] == FlatCells(cells[1..]);
    if |cells| > 1 {
      JoinedBars(cells[1..]);
      BarsAppend(flat[0] + " | ", Join(flat[1..], " | "));
      BarsAppend(flat[0], " | ");
      assert Bars(" | ") == 1 by { assert " | "[1..] == "| " && "| "[1..] == " "; }
    } else {
      assert cells[1..] == [];
    }
  }

  lemma InnerBars(cells: seq<string>)
    requires cells != []
    ensures |SplitBars(Inner(cells))| == |cells| + CellBars(cells)
  {
    hide Join, FlatCells;
    var j := Join(FlatCells(cells), " | ");
    JoinedBars(cells);
    BarsAppend(" " + j, " ");
    BarsAppend(" ", j);
    assert Bars(" ") == 0;
    SplitCounts(Inner(cells));
  }

  lemma {:induction false} CellBarsZero(cells: seq<string>)
    ensures CellBars(cells) == 0 <==> forall i :: 0 <= i < |cells| ==> NoBar(cells[i])
  {
    hide NoBar;
    if cells != [] {
      NoBars(cells[0]);
      CellBarsZero(cells[1..]);
      assert cells == [cells[0]] + cells[1..];
    }
  }

  /** Without bars in the cells, the parts are the cells with a space around each. */
  lemma {:induction false} SplitInner(cells: seq<string>)
    requires cells != [] && forall i :: 0 <= i < |cells| ==> NoBar(cells[i])
    ensures |SplitBars(Inner(cells))| == |cells|
    ensures forall i :: 0 <= i < |cells| ==> SplitBars(Inner(cells))[i] == " " + Flat(cells[i]) + " "
    decreases |cells|
  {
    hide SplitBars;
    var first := " " + Flat(cells[0]) + " ";
    var flat := FlatCells(cells);
    assert flat[1..] == FlatCells(cells[1..]);
    assert NoBar(first);
    if |cells| == 1 {
      SplitFirst(first, "");
    } else {
      SplitInner(cells[1..]);
      SplitFirst(first, Inner(cells[1..]));
      InnerSplits(flat[0], Join(flat[1..], " | "));
    }
  }

  lemma InnerSplits(a: string, rest: string)
    ensures " " + (a + " | " + rest) + " " == " " + a + " " + "|" + (" " + rest + " ")
  {
  }

  lemma StripLeftPadded(s: string)
    ensures StripLeft(" " + s + " ") == if StripLeft(s) != "" then StripLeft(s) + " " else ""
  {
    hide AllSpace, IsSpace, Lead;
    LeadPadded(s);
    if Lead(s) < |s| {
      assert (" " + s + " ")[1 + Lead(s)..] == s[Lead(s)..] + " ";
    }
  }

  lemma StripRightPadded(l: string)
    ensures StripRight(l + " ") == StripRight(l)
  {
    assert (l + " ")[..|l|] == l;
  }

  lemma StripPadded(s: string)
    ensures Strip(" " + s + " ") == Strip(s)
  {
    hide AllSpace, StripLeft, StripRight;
    StripLeftPadded(s);
    StripRightPadded(StripLeft(s));
  }

  lemma {:induction false} LeadPadded(s: string)
    ensures Lead(" " + s + " ") == if Lead(s) < |s| then 1 + Lead(s) else |s| + 2
  {
    assert (" " + s + " ")[1..] == s + " ";
    LeadBehind(s);
  }

  lemma {:induction false} LeadBehind(s: string)
    ensures Lead(s + " ") == if Lead(s) < |s| then Lead(s) else |s| + 1
  {
    if s == "" {
      assert s + " " == " ";
    } else if IsSpace(s[0]) {
      assert (s + " ")[1..] == s[1..] + " ";
      LeadBehind(s[1..]);
    }
  }

  lemma StripShorter(s: string)
    ensures |Strip(s)| <= |s|
    ensures |Strip(s)| == |s| ==> Strip(s) == s && Trimmed(s)
  {
    hide IsSpace;
    var l := StripLeft(s);
    if |StripRight(l)| == |s| {
      assert l == s && StripRight(l) == s;
    }
  }

  lemma StripKept(s: string)
    requires |Strip(s)| == |s|
    ensures Strip(s) == s && Trimmed(s)
  {
    StripShorter(s);
  }

  lemma FlatSame(c: string)
    ensures Strip(Flat(c)) == c <==> Trimmed(c) && forall i :: 0 <= i < |c| ==> c[i] != '\n'
  {
    hide IsSpace, Strip;
    if Trimmed(c) && forall i :: 0 <= i < |c| ==> c[i] != '\n' {
      assert Flat(c) == c;
      StripTrimmed(c);
    }
    if Strip(Flat(c)) == c { StripKept(Flat(c)); }
  }

  /** A printed row reads back as the same cells exactly when there are cells, and each is trimmed, on
      one line and without a bar. */
  lemma RowReadsBack(cells: seq<string>)
    ensures ParseRow(RowLine(cells)) == cells <==> cells != [] && forall i :: 0 <= i < |cells| ==> PlainCell(cells[i])
  {
    hide SplitBars, StripBars, Strip, RowLine, Inner, NoBar, Flat, Trimmed;
    RowInner(cells);
    var parts := SplitBars(Inner(cells));
    if cells != [] {
      CellBarsZero(cells);
      if forall i :: 0 <= i < |cells| ==> NoBar(cells[i]) {
        SplitInner(cells);
        forall i | 0 <= i < |cells|
          ensures StripAll(parts)[i] == cells[i] <==> PlainCell(cells[i])
        {
          StripPadded(Flat(cells[i]));
          FlatSame(cells[i]);
        }
      } else {
        InnerBars(cells);
      }
    }
  }

  // ---------- Blocks ----------

  datatype Kind = Title(level: nat) | Table | Bullets | Ordered | Code | Paragraph | Blank

  datatype Block = Block(kind: Kind, lines: seq<string>)

  predicate Starts(s: string, pat: string) { pat <= s }

  /** `". " in s[:4]` */
  predicate DotNear(s: string) {
    exists i :: 0 <= i <= 2 && i + 2 <= |s| && s[i] == '.' && s[i + 1] == ' '
  }

  /** The line begins an ordered list: its first two characters are digits. */
  predicate BeginsOrdered(s: string) {
    s != "" && IsDigit(s[0]) && (|s| > 1 ==> IsDigit(s[1])) && DotNear(s)
  }

  /** The line goes on with one: one digit is enough. */
  predicate GoesOnOrdered(s: string) { s != "" && IsDigit(s[0]) && DotNear(s) }

  /** What the tests at the top of the loop make of a line. */
  function KindOf(line: string): Kind {
    if Starts(line, "# ") then Title(1)
    else if Starts(line, "## ") then Title(2)
    else if Starts(line, "### ") then Title(3)
    else if Starts(line, "| ") then Table
    else if Starts(line, "- ") then Bullets
    else if BeginsOrdered(line) then Ordered
    else if Starts(line, "    ") then Code
    else if Strip(line) != "" then Paragraph
    else Blank
  }

  /** What the inner loop of a block asks of a further line. */
  predicate GoesOn(k: Kind, line: string) {
    match k
    case Table => Starts(line, "| ")
    case Bullets => Starts(line, "- ")
    case Ordered => GoesOnOrdered(line)
    case Code => Starts(line, "    ")
    case _ => false
  }

  /** A line that begins a block of several lines passes the test of that block's inner loop. */
  lemma EntryTaken(line: string)
    ensures var k := KindOf(line); k.Table? || k.Bullets? || k.Ordered? || k.Code? ==> GoesOn(k, line)
  {
    hide Strip, DotNear;
  }

  function AllLines(bs: seq<Block>): seq<string> {
    if bs == [] then [] else AllLines(bs[..|bs| - 1]) + bs[|bs| - 1].lines
  }

  /** The block is the longest one that begins with its first line. */
  predicate IsBlock(b: Block, after: seq<string>) {
    && b.lines != [] && b.kind == KindOf(b.lines[0])
    && (forall i :: 1 <= i < |b.lines| ==> GoesOn(b.kind, b.lines[i]))
    && (after != [] ==> !GoesOn(b.kind, after[0]))
  }

  /** The blocks are cut from the front of the lines, each as long as it can be. */
  predicate AreBlocks(bs: seq<Block>, lines: seq<string>) {
    bs == [] || (
      && AreBlocks(bs[..|bs| - 1], lines)
      && |AllLines(bs)| <= |lines|
      && IsBlock(bs[|bs| - 1], lines[|AllLines(bs)|..]))
  }

  /** The loop of `render_html`: every line is taken exactly once, in order, by a block that its first
      line begins and that ends where the next line does not go on with it. */
  method CutBlocks(lines: seq<string>) returns (blocks: seq<Block>)
    ensures AllLines(blocks) == lines && AreBlocks(blocks, lines)
  {
    hide KindOf, GoesOn, IsBlock, AllLines, AreBlocks;
    blocks := [];
    NoBlocks(lines);
    var i := 0;
    while i < |lines|
      invariant 0 <= i <= |lines| && AllLines(blocks) == lines[..i] && AreBlocks(blocks, lines)
    {
      var kind, begin := KindOf(lines[i]), i;
      EntryTaken(lines[i]);
      if kind.Table? || kind.Bullets? || kind.Ordered? || kind.Code? {
        while i < |lines| && GoesOn(kind, lines[i])
          invariant begin <= i <= |lines|
          invariant forall j :: begin <= j < i ==> GoesOn(kind, lines[j])
          invariant i == begin ==> GoesOn(kind, lines[begin])
        {
          i := i + 1;
        }
      } else {
        KindsAlone(kind);
        i := i + 1;
      }
      BlockCut(lines, begin, i, kind);
      MoreBlocks(blocks, lines, begin, i, kind);
      blocks := blocks + [Block(kind, lines[begin..i])];
    }
    assert lines[..i] == lines;
  }

  lemma NoBlocks(lines: seq<string>)
    ensures AllLines([]) == [] && AreBlocks([], lines)
  {
  }

  lemma BlockCut(lines: seq<string>, begin: nat, end: nat, kind: Kind)
    requires begin < end <= |lines| && kind == KindOf(lines[begin])
    requires forall j :: begin < j < end ==> GoesOn(kind, lines[j])
    requires end < |lines| ==> !GoesOn(kind, lines[end])
    ensures IsBlock(Block(kind, lines[begin..end]), lines[end..])
  {
    hide KindOf, GoesOn;
  }

  lemma MoreBlocks(bs: seq<Block>, lines: seq<string>, begin: nat, end: nat, kind: Kind)
    requires begin < end <= |lines| && AllLines(bs) == lines[..begin] && AreBlocks(bs, lines)
    requires IsBlock(Block(kind, lines[begin..end]), lines[end..])
    ensures var more := bs + [Block(kind, lines[begin..end])];
      AllLines(more) == lines[..end] && AreBlocks(more, lines)
  {
    hide IsBlock;
    assert (bs + [Block(kind, lines[begin..end])])[..|bs|] == bs;
    assert lines[..end] == lines[..begin] + lines[begin..end];
  }

  lemma KindsAlone(k: Kind)
    requires !(k.Table? || k.Bullets? || k.Ordered? || k.Code?)
    ensures forall l :: !GoesOn(k, l)
  {
  }

  /** A line that goes on with an ordered list begins one if and only if its second character is a digit
      too, and otherwise a paragraph. */
  lemma OrderedBegins(line: string)
    requires GoesOnOrdered(line)
    ensures |line| > 1 && KindOf(line) == if IsDigit(line[1]) then Ordered else Paragraph
  {
    hide IsSpace;
    DigitIsSolid(line[0]);
    assert StripLeft(line) == line;
    Kept(line, 0);
  }

  lemma DigitIsSolid(c: char)
    ensures IsDigit(c) ==> !IsSpace(c)
  {
  }

  /** So a line such as `1. item` goes on with an ordered list but does not begin one, whatever its digit. */
  lemma SingleDigitBeginsNothing(d: char, rest: string)
    requires IsDigit(d)
    ensures GoesOnOrdered([d] + ". " + rest) && KindOf([d] + ". " + rest) == Paragraph
  {
    hide KindOf;
    var line := [d] + ". " + rest;
    assert line[0] == d && line[1] == '.' && line[2] == ' ';
    assert DotNear(line);
    OrderedBegins(line);
  }

  // ---------- What the lines begin with ----------

  /** The line begins with `n` characters `c`. */
  predicate BeginsWith(line: string, n: nat, c: char) { |line| >= n && forall i :: 0 <= i < n ==> line[i] == c }

  /** A dot and a blank stand within the first four characters. */
  predicate NumberEnds(line: string) {
    || (|line| > 1 && line[0] == '.' && line[1] == ' ') || (|line| > 2 && line[1] == '.' && line[2] == ' ')
    || (|line| > 3 && line[2] == '.' && line[3] == ' ')
  }

  /** The kind of a line by its first characters: a title of level `n` has `n` hashes, up to three, and a blank;
      a table a bar and a blank; a list a hyphen and a blank; an ordered list two digits or one that is the whole
      line, and a dot and a blank near; code four blanks; and a blank line nothing else than white space. */
  lemma KindTells(line: string)
    ensures var k := KindOf(line);
      && (forall n: nat :: k == Title(n) <==> 1 <= n <= 3 && BeginsWith(line, n, '#') && |line| > n && line[n] == ' ')
      && (k == Table <==> |line| > 1 && line[0] == '|' && line[1] == ' ')
      && (k == Bullets <==> |line| > 1 && line[0] == '-' && line[1] == ' ')
      && (k == Ordered <==> |line| > 1 && IsDigit(line[0]) && IsDigit(line[1]) && NumberEnds(line))
      && (k == Code <==> BeginsWith(line, 4, ' '))
      && (k == Blank <==> !BeginsWith(line, 4, ' ') && AllSpace(line))
  {
    hide Strip;
    PrefixesAre(line);
    DotNearIs(line);
    BlankIs(line);
  }

  lemma DotNearIs(line: string)
    ensures DotNear(line) <==> NumberEnds(line)
  {
    if |line| > 1 && line[0] == '.' && line[1] == ' ' { assert DotNear(line); }
    if |line| > 2 && line[1] == '.' && line[2] == ' ' { assert DotNear(line); }
    if |line| > 3 && line[2] == '.' && line[3] == ' ' { assert DotNear(line); }
  }

  lemma PrefixesAre(line: string)
    ensures Starts(line, "# ") <==> BeginsWith(line, 1, '#') && |line| > 1 && line[1] == ' '
    ensures Starts(line, "## ") <==> BeginsWith(line, 2, '#') && |line| > 2 && line[2] == ' '
    ensures Starts(line, "### ") <==> BeginsWith(line, 3, '#') && |line| > 3 && line[3] == ' '
    ensures Starts(line, "| ") <==> |line| > 1 && line[0] == '|' && line[1] == ' '
    ensures Starts(line, "- ") <==> |line| > 1 && line[0] == '-' && line[1] == ' '
    ensures Starts(line, "    ") <==> BeginsWith(line, 4, ' ')
  {
  }

  lemma BlankIs(line: string)
    ensures Strip(line) == "" <==> AllSpace(line)
  {
    hide IsSpace;
    var l := StripLeft(line);
    assert line == line[..|line| - |l|] + l;
    if AllSpace(line) { assert AllSpace(l); }
    if Strip(line) == "" {
      assert l[0..] == l;
      assert AllSpace(l);
    }
  }
}
