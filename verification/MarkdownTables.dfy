/** Whole tables of the report: printed as Markdown, and read by the renderer. */
module MarkdownTables {
  import opened Text
  import TextWrap
  import opened MarkdownReport

  // ---------- Printing ----------

  function Rule(n: nat): (r: seq<string>)
    ensures |r| == n && forall i :: 0 <= i < n ==> r[i] == "---"
  {
    seq(n, i => "---")
  }

  function RowLines(rows: seq<seq<string>>): (r: seq<string>)
    ensures |r| == |rows| && forall i :: 0 <= i < |rows| ==> r[i] == RowLine(rows[i])
  {
    if rows == [] then [] else [RowLine(rows[0])] + RowLines(rows[1..])
  }

  /** The lines of a table. The headers are printed as they are; only the cells lose their line feeds. */
  function TableLines(headers: seq<string>, rows: seq<seq<string>>): seq<string> {
    [BarLine(headers), BarLine(Rule(|headers|))] + RowLines(rows)
  }

  /** `md_table` */
  method MdTable(headers: seq<string>, rows: seq<seq<string>>) returns (text: string)
    ensures text == Join(TableLines(headers, rows), "\n")
  {
    hide BarLine, RowLine;
    var out := [BarLine(headers), BarLine(Rule(|headers|))];
    for i := 0 to |rows|
      invariant out == [BarLine(headers), BarLine(Rule(|headers|))] + RowLines(rows[..i])
    {
      out := out + [RowLine(rows[i])];
      RowLinesMore(rows[..i], rows[i]);
      assert rows[..i + 1] == rows[..i] + [rows[i]];
    }
    assert rows[..|rows|] == rows;
    text := Join(out, "\n");
  }

  lemma {:induction false} RowLinesMore(rows: seq<seq<string>>, row: seq<string>)
    ensures RowLines(rows + [row]) == RowLines(rows) + [RowLine(row)]
  {
    hide RowLine;
  }

  // ---------- Reading ----------

  /** The lines in front that begin with a bar: what the renderer takes for a table. */
  function TakeTable(lines: seq<string>): (r: seq<string>)
    ensures r <= lines && forall i :: 0 <= i < |r| ==> Starts(r[i], "| ")
  {
    if lines != [] && Starts(lines[0], "| ") then [lines[0]] + TakeTable(lines[1..]) else []
  }

  function ParseRows(lines: seq<string>): (r: seq<seq<string>>)
    ensures |r| == |lines| && forall i :: 0 <= i < |lines| ==> r[i] == ParseRow(lines[i])
  {
    seq(|lines|, i requires 0 <= i < |lines| => ParseRow(lines[i]))
  }

  datatype Grid = Grid(headers: seq<string>, body: seq<seq<string>>)

  /** The headers are the first row, the body is what follows the second; two rows are needed. */
  function TableOf(lines: seq<string>): Option<Grid> {
    var rows := ParseRows(lines);
    if |rows| < 2 then None else Some(Grid(rows[0], rows[2..]))
  }

  /** The table that stands at the start of a text. */
  function ReadTable(text: string): Option<Grid> { TableOf(TakeTable(TextWrap.SplitLines(text))) }

  /** The loop of `render_markdown_table_html`. */
  method RenderRows(lines: seq<string>) returns (table: Option<Grid>)
    ensures table == TableOf(lines)
  {
    hide ParseRow;
    var rows := [];
    for i := 0 to |lines|
      invariant |rows| == i && forall j :: 0 <= j < i ==> rows[j] == ParseRow(lines[j])
    {
      rows := rows + [ParseRow(lines[i])];
    }
    assert rows == ParseRows(lines);
    if |rows| < 2 {
      return None;
    }
    return Some(Grid(rows[0], rows[2..]));
  }

  // ---------- What any row reads as ----------

  /** A cell that can be read: trimmed, on one line and without a bar. */
  predicate Legible(c: string) { Trimmed(c) && NoBar(c) && TextWrap.NoLineBreaks(c) }

  predicate LegibleRow(cells: seq<string>) { cells != [] && forall i :: 0 <= i < |cells| ==> Legible(cells[i]) }

  predicate LegibleRows(rows: seq<seq<string>>) { forall i :: 0 <= i < |rows| ==> LegibleRow(rows[i]) }

  predicate Clear(c: string) { NoBar(c) && TextWrap.NoLineBreaks(c) }

  lemma {:induction false} PartsClear(s: string)
    requires TextWrap.NoLineBreaks(s)
    ensures forall i :: 0 <= i < |SplitBars(s)| ==> Clear(SplitBars(s)[i])
  {
    hide TextWrap.IsLineBreak;
    if s != "" { PartsClear(s[1..]); }
  }

  lemma StripLegible(c: string)
    requires Clear(c)
    ensures Legible(Strip(c))
  {
    hide TextWrap.IsLineBreak, IsSpace;
    var l := StripLeft(c);
    assert Strip(c) == StripRight(l);
  }

  lemma StripBarsLines(s: string)
    requires TextWrap.NoLineBreaks(s)
    ensures TextWrap.NoLineBreaks(StripBars(s)) && TextWrap.NoLineBreaks(Strip(s))
  {
    hide TextWrap.IsLineBreak, IsSpace;
    var l := StripLeft(s);
    assert Strip(s) == StripRight(l);
  }

  /** Whatever a line holds, its cells are legible. */
  lemma ParsedLegible(line: string)
    requires TextWrap.NoLineBreaks(line)
    ensures LegibleRow(ParseRow(line))
  {
    hide SplitBars, StripBars, Strip, TextWrap.NoLineBreaks, Trimmed, NoBar;
    StripBarsLines(line);
    StripBarsLines(Strip(line));
    var parts := SplitBars(StripBars(Strip(line)));
    PartsClear(StripBars(Strip(line)));
    forall i | 0 <= i < |parts|
      ensures Legible(StripAll(parts)[i])
    {
      StripLegible(parts[i]);
    }
  }

  lemma ReadLegible(text: string)
    ensures ReadTable(text).Some? ==> LegibleRow(ReadTable(text).value.headers) && LegibleRows(ReadTable(text).value.body)
  {
    hide LegibleRow, ParseRow, TextWrap.NoLineBreaks, TextWrap.SplitLines;
    var lines := TakeTable(TextWrap.SplitLines(text));
    var rows := ParseRows(lines);
    forall i | 0 <= i < |rows|
      ensures LegibleRow(rows[i])
    {
      assert lines[i] == TextWrap.SplitLines(text)[i];
      assert lines[i] in TextWrap.SplitLines(text);
      ParsedLegible(lines[i]);
    }
  }

  // ---------- What a printed table reads as ----------

  lemma LegibleIsPlain(cells: seq<string>)
    requires LegibleRow(cells)
    ensures forall i :: 0 <= i < |cells| ==> PlainCell(cells[i])
    ensures FlatCells(cells) == cells
  {
    hide Trimmed, NoBar;
    forall i | 0 <= i < |cells|
      ensures PlainCell(cells[i]) && Flat(cells[i]) == cells[i]
    {
      assert Legible(cells[i]);
      NoFeedFlat(cells[i]);
    }
  }

  lemma NoFeedFlat(c: string)
    requires TextWrap.NoLineBreaks(c)
    ensures Flat(c) == c && forall i :: 0 <= i < |c| ==> c[i] != '\n'
  {
    FeedBreaks();
    assert forall i :: 0 <= i < |c| ==> c[i] != '\n';
  }

  lemma FeedBreaks()
    ensures TextWrap.IsLineBreak('\n')
  {
  }

  lemma LegibleReads(cells: seq<string>)
    requires LegibleRow(cells)
    ensures ParseRow(BarLine(cells)) == cells
  {
    hide ParseRow, BarLine, PlainCell, LegibleRow;
    LegibleIsPlain(cells);
    RowReadsBack(cells);
    NotNone(cells);
  }

  lemma NotNone(cells: seq<string>)
    requires LegibleRow(cells)
    ensures cells != []
  {
  }

  /** A line that stands alone in a text. */
  predicate TableLine(l: string) { TextWrap.NoLineBreaks(l) && Starts(l, "| ") }

  lemma LinesAppend(a: string, b: string)
    requires TextWrap.NoLineBreaks(a) && TextWrap.NoLineBreaks(b)
    ensures TextWrap.NoLineBreaks(a + b)
  {
  }

  lemma {:induction false} JoinLines(cells: seq<string>, sep: string)
    requires TextWrap.NoLineBreaks(sep) && forall i :: 0 <= i < |cells| ==> TextWrap.NoLineBreaks(cells[i])
    ensures TextWrap.NoLineBreaks(Join(cells, sep))
  {
    hide TextWrap.NoLineBreaks;
    if |cells| == 0 {
      EmptyLine();
    } else if |cells| > 1 {
      JoinLines(cells[1..], sep);
      LinesAppend(cells[0], sep);
      LinesAppend(cells[0] + sep, Join(cells[1..], sep));
    }
  }

  lemma EmptyLine()
    ensures TextWrap.NoLineBreaks("") && TextWrap.NoLineBreaks("| ") && TextWrap.NoLineBreaks(" | ")
    ensures TextWrap.NoLineBreaks(" |") && TextWrap.NoLineBreaks("---")
  {
  }

  lemma BarTableLine(cells: seq<string>)
    requires forall i :: 0 <= i < |cells| ==> TextWrap.NoLineBreaks(cells[i])
    ensures TableLine(BarLine(cells))
  {
    hide TextWrap.NoLineBreaks, Join;
    EmptyLine();
    JoinLines(cells, " | ");
    LinesAppend("| ", Join(cells, " | "));
    LinesAppend("| " + Join(cells, " | "), " |");
  }

  lemma BreakFirst(l: string, t: string)
    requires TextWrap.NoLineBreaks(l)
    ensures l != "" ==> TextWrap.SplitLines(l) == [l]
    ensures TextWrap.SplitLines(l + ("\n" + t)) == [l] + TextWrap.SplitLines(t)
  {
    hide TextWrap.IsLineBreak;
    FeedBreaks();
    var s := l + ("\n" + t);
    LengthIs(s, |l|);
    LengthIs(l, |l|);
    assert s[..|l|] == l && s[|l|] == '\n' && s[|l| + 1..] == t;
  }

  lemma {:induction false} LengthIs(s: string, n: nat)
    requires n <= |s| && (forall i :: 0 <= i < n ==> !TextWrap.IsLineBreak(s[i])) && (n < |s| ==> TextWrap.IsLineBreak(s[n]))
    ensures TextWrap.LineLength(s) == n
  {
    hide TextWrap.IsLineBreak;
    if n > 0 { LengthIs(s[1..], n - 1); }
  }

  /** Lines that are joined are split again. */
  lemma {:induction false} SplitJoined(lines: seq<string>)
    requires forall i :: 0 <= i < |lines| ==> TableLine(lines[i])
    ensures TextWrap.SplitLines(Join(lines, "\n")) == lines && TakeTable(lines) == lines
  {
    hide TextWrap.SplitLines, TextWrap.NoLineBreaks;
    if lines == [] {
      NothingToSplit();
    } else {
      SplitJoined(lines[1..]);
      var rest := Join(lines[1..], "\n");
      BreakFirst(lines[0], rest);
      if |lines| > 1 {
        assert Join(lines, "\n") == lines[0] + ("\n" + rest) by { Regroup3(lines[0], "\n", rest); }
      }
      assert lines == [lines[0]] + lines[1..];
    }
  }

  lemma NothingToSplit()
    ensures TextWrap.SplitLines("") == []
  {
  }

  function FlatRows(rows: seq<seq<string>>): (r: seq<seq<string>>)
    ensures |r| == |rows| && forall i :: 0 <= i < |rows| ==> r[i] == FlatCells(rows[i])
  {
    if rows == [] then [] else [FlatCells(rows[0])] + FlatRows(rows[1..])
  }

  lemma LegibleTableLine(cells: seq<string>)
    requires LegibleRow(cells)
    ensures TableLine(BarLine(cells)) && ParseRow(BarLine(cells)) == cells
  {
    hide BarLine, ParseRow, TableLine, TextWrap.NoLineBreaks, Trimmed, NoBar;
    LegibleReads(cells);
    BarTableLine(cells);
  }

  lemma RowReads(rows: seq<seq<string>>, i: nat)
    requires LegibleRows(FlatRows(rows)) && i < |rows|
    ensures TableLine(RowLine(rows[i])) && ParseRow(RowLine(rows[i])) == FlatRows(rows)[i]
  {
    hide BarLine, ParseRow, TableLine, FlatCells, FlatRows, LegibleRow, TextWrap.NoLineBreaks;
    assert LegibleRow(FlatRows(rows)[i]);
    LegibleTableLine(FlatCells(rows[i]));
    assert RowLine(rows[i]) == BarLine(FlatCells(rows[i]));
  }

  lemma TwoLines(headers: seq<string>)
    requires LegibleRow(headers)
    ensures TableLine(BarLine(headers)) && ParseRow(BarLine(headers)) == headers && TableLine(BarLine(Rule(|headers|)))
  {
    hide BarLine, ParseRow, TableLine, TextWrap.NoLineBreaks, Trimmed, NoBar;
    EmptyLine();
    LegibleTableLine(headers);
    BarTableLine(Rule(|headers|));
  }

  lemma AllTableLines(headers: seq<string>, rows: seq<seq<string>>)
    requires LegibleRow(headers) && LegibleRows(FlatRows(rows))
    ensures var lines := TableLines(headers, rows);
      (forall i :: 0 <= i < |lines| ==> TableLine(lines[i])) && TableOf(lines) == Some(Grid(headers, FlatRows(rows)))
  {
    hide BarLine, ParseRow, TableLine, FlatCells, FlatRows, RowLine, RowLines, LegibleRow, LegibleRows;
    var lines := TableLines(headers, rows);
    TwoLines(headers);
    forall i | 2 <= i < |lines|
      ensures TableLine(lines[i]) && ParseRow(lines[i]) == FlatRows(rows)[i - 2]
    {
      RowReads(rows, i - 2);
      assert lines[i] == RowLine(rows[i - 2]);
    }
    assert ParseRows(lines)[2..] == FlatRows(rows);
  }

  /** A printed table reads as its headers and its cells without their line feeds if and only if the
      headers and these cells are legible, none of the rows being empty. */
  lemma TableReads(headers: seq<string>, rows: seq<seq<string>>)
    ensures ReadTable(Join(TableLines(headers, rows), "\n")) == Some(Grid(headers, FlatRows(rows)))
      <==> LegibleRow(headers) && LegibleRows(FlatRows(rows))
  {
    hide LegibleRow, ReadTable, TableLines, TableOf, TableLine;
    var text := Join(TableLines(headers, rows), "\n");
    ReadLegible(text);
    if LegibleRow(headers) && LegibleRows(FlatRows(rows)) {
      AllTableLines(headers, rows);
      SplitJoined(TableLines(headers, rows));
      ReadOf(text, TableLines(headers, rows));
    }
  }

  lemma ReadOf(text: string, lines: seq<string>)
    requires TextWrap.SplitLines(text) == lines && TakeTable(lines) == lines
    ensures ReadTable(text) == TableOf(lines)
  {
    hide TextWrap.SplitLines, TableOf, TakeTable;
  }

  /** It reads back as just what was printed if and only if the headers and the cells themselves are
      legible. */
  lemma TableReadsBack(headers: seq<string>, rows: seq<seq<string>>)
    ensures ReadTable(Join(TableLines(headers, rows), "\n")) == Some(Grid(headers, rows))
      <==> LegibleRow(headers) && LegibleRows(rows)
  {
    hide LegibleRow, ReadTable, TableLines;
    ReadLegible(Join(TableLines(headers, rows), "\n"));
    if LegibleRows(rows) {
      forall i | 0 <= i < |rows|
        ensures FlatRows(rows)[i] == rows[i]
      {
        assert LegibleRow(rows[i]);
        LegibleIsPlain(rows[i]);
      }
      assert FlatRows(rows) == rows;
      TableReads(headers, rows);
    }
  }

  /** A header with a line feed is never read, though a cell with one reads as a space. */
  lemma HeaderFeeds(headers: seq<string>, rows: seq<seq<string>>, i: nat, j: nat)
    requires i < |headers| && j < |headers[i]| && headers[i][j] == '\n'
    ensures forall body :: ReadTable(Join(TableLines(headers, rows), "\n")) != Some(Grid(headers, body))
  {
    hide ReadTable, TableLines, Trimmed, NoBar;
    ReadLegible(Join(TableLines(headers, rows), "\n"));
    FeedBreaks();
    assert !Legible(headers[i]);
  }
}
