/** The statements about whole files: from a text to the bytes and back to its lines. */
module PdfResults {
  import opened Text
  import TextMeaning
  import opened Latin1
  import opened PdfWriter
  import opened PdfReader
  import opened PdfContent
  import opened PdfRoundTrip
  import opened PdfReport

  // ---------- What the encoding does to a file ----------

  function LossyAll(ss: seq<string>): (r: seq<string>)
    ensures |r| == |ss|
  {
    if ss == [] then [] else [Lossy(ss[0])] + LossyAll(ss[1..])
  }

  function LossyPages(pages: seq<seq<string>>): (r: seq<seq<string>>)
    ensures |r| == |pages|
  {
    if pages == [] then [] else [LossyAll(pages[0])] + LossyPages(pages[1..])
  }

  lemma {:induction false} LossyAllAppend(a: seq<string>, b: seq<string>)
    ensures LossyAll(a + b) == LossyAll(a) + LossyAll(b)
  {
    if a == [] {
      assert a + b == b;
    } else {
      assert (a + b)[1..] == a[1..] + b;
      LossyAllAppend(a[1..], b);
    }
  }

  lemma LossyThree(a: string, b: string, c: string)
    ensures Lossy(a + b + c) == Lossy(a) + Lossy(b) + Lossy(c)
  {
  }

  lemma {:induction false} LossyReplace(s: string, c: char, sub: string)
    requires c as int < 256 && c != '?' && IsLatin(sub)
    ensures Lossy(ReplaceChar(s, c, sub)) == ReplaceChar(Lossy(s), c, sub)
  {
    if s != "" {
      LossyReplace(s[1..], c, sub);
      LossyAppend(if s[0] == c then sub else [s[0]], ReplaceChar(s[1..], c, sub));
      LossyLatin(sub);
      assert Lossy(s)[1..] == Lossy(s[1..]);
      assert Lossy([s[0]]) == [Lossy(s)[0]];
    } else {
      assert Lossy(s) == "";
    }
  }

  lemma LossyShowLine(line: string)
    ensures Lossy(ShowLine(line)) == ShowLine(Lossy(line))
  {
    LossyReplace(line, '\\', "\\\\");
    LossyReplace(ReplaceChar(line, '\\', "\\\\"), '(', "\\(");
    LossyReplace(ReplaceChar(ReplaceChar(line, '\\', "\\\\"), '(', "\\("), ')', "\\)");
    LossyThree("(", PdfEscape(line), ") Tj");
    LossyLatin("(");
    LossyLatin(") Tj");
  }

  lemma {:induction false} LossyLineOps(page: seq<string>, first: bool)
    ensures LossyAll(LineOps(page, first)) == LineOps(LossyAll(page), first)
  {
    if page != [] {
      LossyLineOps(page[1..], false);
      LossyShowLine(page[0]);
      LossyLatin("T*");
      var one := [ShowLine(page[0])];
      LossyAllAppend(one, LineOps(page[1..], false));
      LossyAllAppend(["T*"], one);
      LossyAllAppend(["T*"] + one, LineOps(page[1..], false));
      assert ["T*", ShowLine(page[0])] == ["T*"] + one;
      assert LossyAll(one) == [Lossy(one[0])] + LossyAll(one[1..]);
      assert LossyAll(["T*"]) == [Lossy("T*")] + LossyAll(["T*"][1..]);
      assert LossyAll(page)[1..] == LossyAll(page[1..]);
    }
  }

  lemma {:induction false} LossyJoin(ss: seq<string>, sep: string)
    requires IsLatin(sep)
    ensures Lossy(Join(ss, sep)) == Join(LossyAll(ss), sep)
  {
    if |ss| > 1 {
      LossyJoin(ss[1..], sep);
      LossyThree(ss[0], sep, Join(ss[1..], sep));
      LossyLatin(sep);
      assert LossyAll(ss)[1..] == LossyAll(ss[1..]);
    } else {
      assert Lossy("") == "";
    }
  }

  lemma LossyStream(page: seq<string>)
    ensures Lossy(StreamText(page)) == StreamText(LossyAll(page))
  {
    hide Lossy, LineOps, Join;
    var head, foot := ["BT", "/F1 10 Tf", "36 756 Td", "12 TL"], ["ET"];
    LossyLineOps(page, true);
    LossyAllAppend(head + LineOps(page, true), foot);
    LossyAllAppend(head, LineOps(page, true));
    LossyHead();
    LossyJoin(head + LineOps(page, true) + foot, "\n");
  }

  lemma LossyHead()
    ensures LossyAll(["BT", "/F1 10 Tf", "36 756 Td", "12 TL"]) == ["BT", "/F1 10 Tf", "36 756 Td", "12 TL"]
    ensures LossyAll(["ET"]) == ["ET"]
  {
    LossyOne("ET", []);
    LossyOne("12 TL", []);
    LossyOne("36 756 Td", ["12 TL"]);
    LossyOne("/F1 10 Tf", ["36 756 Td", "12 TL"]);
    LossyOne("BT", ["/F1 10 Tf", "36 756 Td", "12 TL"]);
    assert ["BT"] + (["/F1 10 Tf"] + (["36 756 Td"] + ["12 TL"])) == ["BT", "/F1 10 Tf", "36 756 Td", "12 TL"];
    assert ["/F1 10 Tf"] + ["36 756 Td", "12 TL"] == ["/F1 10 Tf", "36 756 Td", "12 TL"];
    assert ["36 756 Td"] + ["12 TL"] == ["36 756 Td", "12 TL"];
    assert ["12 TL"] + [] == ["12 TL"];
    assert ["ET"] + [] == ["ET"];
  }

  lemma LossyOne(s: string, more: seq<string>)
    requires IsLatin(s)
    ensures LossyAll([s] + more) == [s] + LossyAll(more)
  {
    LossyLatin(s);
    assert ([s] + more)[1..] == more;
  }

  lemma LatinAppend(s: string, t: string)
    requires IsLatin(s) && IsLatin(t)
    ensures IsLatin(s + t)
  {
  }

  lemma LatinDec(n: nat)
    ensures IsLatin(Dec(n))
  {
  }

  lemma LossyContent(page: seq<string>)
    ensures Lossy(ContentObject(StreamText(page))) == ContentObject(StreamText(LossyAll(page)))
  {
    hide LineOps, LossyAll;
    var stream := StreamText(page);
    LossyStream(page);
    var head := "<< /Length " + Dec(|stream|) + " >>\nstream\n";
    LatinAppend("<< /Length ", Dec(|stream|));
    LatinAppend("<< /Length " + Dec(|stream|), " >>\nstream\n");
    LossyLatin(head);
    LossyLatin("\nendstream");
    LossyThree(head, stream, "\nendstream");
  }

  lemma {:induction false} LossyContents(pages: seq<seq<string>>)
    ensures LossyAll(ContentObjects(pages)) == ContentObjects(LossyPages(pages))
  {
    if pages != [] {
      LossyContents(pages[1..]);
      LossyContent(pages[0]);
      var first := [ContentObject(StreamText(pages[0]))];
      LossyAllAppend(first, ContentObjects(pages[1..]));
      assert LossyAll(first) == [Lossy(first[0])] + LossyAll(first[1..]);
      assert LossyPages(pages)[1..] == LossyPages(pages[1..]);
    }
  }

  predicate AllLatin(ss: seq<string>) { forall i :: 0 <= i < |ss| ==> IsLatin(ss[i]) }

  lemma {:induction false} LossyAllLatin(ss: seq<string>)
    requires AllLatin(ss)
    ensures LossyAll(ss) == ss
  {
    if ss != [] {
      LossyLatin(ss[0]);
      LossyAllLatin(ss[1..]);
    }
  }

  lemma {:induction false} LatinJoinRefs(ids: seq<nat>)
    ensures IsLatin(Join(RefTexts(ids), " "))
  {
    if |ids| > 0 {
      LatinRef(ids[0]);
      LatinJoinRefs(ids[1..]);
      assert RefTexts(ids)[1..] == RefTexts(ids[1..]);
    }
  }

  lemma LatinRef(id: nat)
    ensures IsLatin(RefText(id))
  {
    LatinDec(id);
  }

  lemma LatinTree(count: nat, ids: seq<nat>)
    ensures IsLatin(PagesObject(count, KidsText(ids)))
  {
    LatinJoinRefs(ids);
    LatinDec(count);
    LatinAppend("[ ", Join(RefTexts(ids), " "));
    LatinAppend("[ " + Join(RefTexts(ids), " "), " ]");
    LatinAppend("<< /Type /Pages /Count ", Dec(count));
    LatinAppend("<< /Type /Pages /Count " + Dec(count), " /Kids ");
    LatinAppend("<< /Type /Pages /Count " + Dec(count) + " /Kids ", KidsText(ids));
  }

  lemma PageWords()
    ensures IsLatin("<< /Type /Page ") && IsLatin("/MediaBox [0 0 612 792] ")
    ensures IsLatin("/Resources << /Font << /F1 ") && IsLatin(" 0 R >> >> ")
  {
  }

  lemma RefWords()
    ensures IsLatin("/Parent ") && IsLatin(" 0 R ") && IsLatin("/Contents ") && IsLatin(" 0 R >>")
  {
  }

  lemma LatinPage(parent: nat, font: nat, content: nat)
    ensures IsLatin(PageObject(parent, font, content))
  {
    hide IsLatin;
    var a, b := "<< /Type /Page ", "/Parent " + Dec(parent) + " 0 R ";
    var d, e := "/Resources << /Font << /F1 " + Dec(font) + " 0 R >> >> ", "/Contents " + Dec(content) + " 0 R >>";
    PageWords();
    RefWords();
    LatinAround("/Parent ", parent, " 0 R ");
    LatinAround("/Resources << /Font << /F1 ", font, " 0 R >> >> ");
    LatinAround("/Contents ", content, " 0 R >>");
    LatinAppend(a, b);
    LatinAppend(a + b, "/MediaBox [0 0 612 792] ");
    LatinAppend(a + b + "/MediaBox [0 0 612 792] ", d);
    LatinAppend(a + b + "/MediaBox [0 0 612 792] " + d, e);
  }

  lemma LatinAround(before: string, n: nat, after: string)
    requires IsLatin(before) && IsLatin(after)
    ensures IsLatin(before + Dec(n) + after)
  {
    LatinDec(n);
  }

  lemma {:induction false} LatinPages(contents: seq<nat>, parent: nat, font: nat)
    ensures AllLatin(PageObjects(contents, parent, font))
  {
    if contents != [] {
      LatinPage(parent, font, contents[0]);
      LatinPages(contents[1..], parent, font);
    }
  }

  lemma LatinFont()
    ensures IsLatin(FONT)
  {
    assert IsLatin("<< /Type /Font ");
    assert IsLatin("/Subtype /Type1 ");
    assert IsLatin("/BaseFont /Courier >>");
  }

  lemma LossyMiddle(a: seq<string>, b: seq<string>, c: seq<string>, d: seq<string>, e: seq<string>)
    requires AllLatin(a) && AllLatin(c) && AllLatin(d) && AllLatin(e)
    ensures LossyAll(a + b + c + d + e) == a + LossyAll(b) + c + d + e
  {
    LossyAllAppend(a + b + c + d, e);
    LossyAllAppend(a + b + c, d);
    LossyAllAppend(a + b, c);
    LossyAllAppend(a, b);
    LossyAllLatin(a);
    LossyAllLatin(c);
    LossyAllLatin(d);
    LossyAllLatin(e);
  }

  lemma LatinCatalog(pages: nat)
    ensures IsLatin(CatalogObject(pages))
  {
    LatinAround("<< /Type /Catalog /Pages ", pages, " 0 R >>");
  }

  /** The encoding touches nothing but the lines. */
  lemma LossyObjects(pages: seq<seq<string>>)
    ensures LossyAll(Objects(pages)) == Objects(LossyPages(pages))
  {
    var n := |pages|;
    LossyContents(pages);
    LatinFont();
    LatinTree(n, Range(n + 3, n));
    LatinPages(Range(2, n), PagesId(n), 1);
    LatinCatalog(PagesId(n));
    LossyMiddle([FONT], ContentObjects(pages), [PagesObject(n, KidsText(Range(n + 3, n)))],
                PageObjects(Range(2, n), PagesId(n), 1), [CatalogObject(PagesId(n))]);
  }

  lemma LossyWrapped(id: nat, payload: string)
    ensures Lossy(Wrapped(id, payload)) == Wrapped(id, Lossy(payload))
  {
    LatinAround("", id, " 0 obj\n");
    assert "" + Dec(id) + " 0 obj\n" == Dec(id) + " 0 obj\n";
    LossyLatin(Dec(id) + " 0 obj\n");
    LossyLatin("\nendobj\n");
    LossyThree(Dec(id) + " 0 obj\n", payload, "\nendobj\n");
  }

  lemma {:induction false} LossyBody(os: seq<string>, id: nat)
    ensures Lossy(Body(os, id)) == Body(LossyAll(os), id)
  {
    if os != [] {
      LossyBody(os[1..], id + 1);
      LossyWrapped(id, os[0]);
      LossyAppend(Wrapped(id, os[0]), Body(os[1..], id + 1));
      assert LossyAll(os)[1..] == LossyAll(os[1..]);
    } else {
      assert Lossy("") == "";
    }
  }

  lemma {:induction false} SameOffsets(os: seq<string>, id: nat, start: nat)
    ensures Offsets(LossyAll(os), id, start) == Offsets(os, id, start)
  {
    if os != [] {
      LossyWrapped(id, os[0]);
      SameOffsets(os[1..], id + 1, start + |Wrapped(id, os[0])|);
      assert LossyAll(os)[1..] == LossyAll(os[1..]);
    }
  }

  lemma {:induction false} LatinEntries(offsets: seq<nat>)
    ensures IsLatin(XrefEntries(offsets))
  {
    if offsets != [] {
      LatinEntries(offsets[1..]);
      LatinAppend(Pad10(offsets[0]), " 00000 n \n");
      LatinAppend(XrefEntry(offsets[0]), XrefEntries(offsets[1..]));
    }
  }

  lemma LatinTrailer(size: nat, root: nat, xref: nat)
    ensures IsLatin(Trailer(size, root, xref))
  {
    var a := "trailer\n<< /Size " + Dec(size) + " /Root ";
    LatinAround("trailer\n<< /Size ", size, " /Root ");
    var b := a + Dec(root) + " 0 R >>\nstartxref\n";
    LatinAround(a, root, " 0 R >>\nstartxref\n");
    LatinAround(b, xref, "\n%%EOF\n");
  }

  lemma LatinTail(os: seq<string>, root: nat)
    ensures IsLatin(Tail(os, root))
  {
    LatinAround("xref\n0 ", |os| + 1, "\n");
    LatinEntries(Offsets(os, 1, |HEADER|));
    LatinTrailer(|os| + 1, root, XrefPosition(os));
    LatinAppend(XrefHead(|os| + 1), FREE_ENTRY);
    LatinAppend(XrefHead(|os| + 1) + FREE_ENTRY, XrefEntries(Offsets(os, 1, |HEADER|)));
  }

  lemma LatinHeader()
    ensures IsLatin(HEADER)
  {
  }

  lemma LossyFile(os: seq<string>, root: nat)
    ensures Lossy(FileText(os, root)) == FileText(LossyAll(os), root)
  {
    LossyThree(HEADER, Body(os, 1), Tail(os, root));
    LossyBody(os, 1);
    LatinHeader();
    LossyLatin(HEADER);
    LatinTail(os, root);
    LossyLatin(Tail(os, root));
    SameTail(os, root);
  }

  lemma SameTail(os: seq<string>, root: nat)
    ensures Tail(LossyAll(os), root) == Tail(os, root)
  {
    SameOffsets(os, 1, |HEADER|);
    SamePosition(os);
  }

  lemma SamePosition(os: seq<string>)
    ensures XrefPosition(LossyAll(os)) == XrefPosition(os)
  {
    LossyBody(os, 1);
    assert |Lossy(Body(os, 1))| == |Body(os, 1)|;
  }

  lemma {:induction false} LossyPaginate(lines: seq<string>)
    ensures LossyPages(Paginate(lines)) == Paginate(LossyAll(lines))
    decreases |lines|
  {
    if lines == [] {
    } else if |lines| <= LINES_PER_PAGE {
      assert LossyPages([lines]) == [LossyAll(lines)] + LossyPages([lines][1..]);
    } else {
      var page, rest := lines[..LINES_PER_PAGE], lines[LINES_PER_PAGE..];
      LossyPaginate(rest);
      LossyAllAppend(page, rest);
      assert page + rest == lines;
      assert LossyAll(lines)[..LINES_PER_PAGE] == LossyAll(page);
      assert LossyAll(lines)[LINES_PER_PAGE..] == LossyAll(rest);
      assert ([page] + Paginate(rest))[1..] == Paginate(rest);
    }
  }

  /** The file of some lines, decoded, is the file of the lines with question marks for the
      characters that Latin-1 lacks. */
  lemma DecodesAsLossy(lines: seq<string>)
    ensures Decode(Encode(PdfText(lines))) == PdfText(LossyAll(lines))
  {
    var pages := Paginate(lines);
    DecodeEncode(PdfText(lines));
    LossyFile(Objects(pages), CatalogId(|pages|));
    LossyObjects(pages);
    LossyPaginate(lines);
  }

  // ---------- Reading a whole file ----------

  /** The byte positions that the cross-reference table of the report holds. */
  function ReportOffsets(lines: seq<string>): seq<nat> {
    Offsets(Objects(Paginate(lines)), 1, |HEADER|)
  }

  lemma {:induction false} PagesHaveNoReturns(lines: seq<string>)
    requires AllNoReturns(lines)
    ensures PagesNoReturns(Paginate(lines))
    decreases |lines|
  {
    if |lines| > LINES_PER_PAGE {
      PagesHaveNoReturns(lines[LINES_PER_PAGE..]);
    }
  }

  lemma ReadsFrom(v: string, slots: seq<Slot>, pages: seq<seq<string>>)
    requires PagesNoReturns(pages)
    requires ReadFrame(v) == Some((slots, PdfSyntax.RefVal(CatalogId(|pages|), 0)))
    requires AllStand(v, slots, Objects(pages), 1)
    ensures ReadText(v) == Some(PlacedPages(pages))
  {
    ReadsTree(v, slots, pages);
  }

  lemma ReadsText(lines: seq<string>)
    requires AllNoReturns(lines)
    ensures ReadText(PdfText(lines))
         == if AllBelow(ReportOffsets(lines), TEN_DIGITS) then Some(PlacedPages(Paginate(lines))) else None
  {
    PagesHaveNoReturns(lines);
    ReadsObjects(Paginate(lines));
  }

  lemma NoFrame(v: string)
    requires ReadFrame(v).None?
    ensures ReadText(v).None?
  {
  }

  lemma ReadsObjects(pages: seq<seq<string>>)
    requires PagesNoReturns(pages)
    ensures ReadText(FileText(Objects(pages), CatalogId(|pages|)))
         == if AllBelow(Offsets(Objects(pages), 1, |HEADER|), TEN_DIGITS) then Some(PlacedPages(pages)) else None
  {
    hide ReadText, ReadFrame, AllStand, AllBelow, Offsets;
    var os, root := Objects(pages), CatalogId(|pages|);
    FrameOf(os, root);
    if AllBelow(Offsets(os, 1, |HEADER|), TEN_DIGITS) {
      AllObjectsStand(os, root);
      ReadsFrom(FileText(os, root), SlotsOf(os), pages);
    } else {
      NoFrame(FileText(os, root));
    }
  }

  lemma AllObjectsStand(os: seq<string>, root: nat)
    ensures AllStand(FileText(os, root), SlotsOf(os), os, 1)
  {
    ObjectsStand(os, root, 0);
    assert os[0..] == os;
  }

  lemma FrameOf(os: seq<string>, root: nat)
    ensures ReadFrame(FileText(os, root))
         == if AllBelow(Offsets(os, 1, |HEADER|), TEN_DIGITS) then Some((SlotsOf(os), PdfSyntax.RefVal(root, 0))) else None
  {
    var offsets := Offsets(os, 1, |HEADER|);
    TailOf(os, root);
    ReadFile(FileText(os, root), HEADER + Body(os, 1), offsets, root);
  }

  lemma TailOf(os: seq<string>, root: nat)
    ensures var offsets := Offsets(os, 1, |HEADER|);
      Tail(os, root) == TableText(offsets) + Trailer(|offsets| + 1, root, |HEADER + Body(os, 1)|)
  {
  }

  /** The lines of the report: wrapped, with question marks for what Latin-1 lacks. */
  function ReportLines(text: string): seq<string> {
    LossyAll(TextWrap.WrapAll(TextWrap.SplitLines(text), WIDTH))
  }

  lemma {:induction false} LinesHaveNoReturns(lines: seq<string>)
    requires forall l <- lines :: TextWrap.NoLineBreaks(l)
    ensures AllNoReturns(LossyAll(lines))
  {
    if lines != [] {
      assert forall l <- lines[1..] :: l in lines;
      LinesHaveNoReturns(lines[1..]);
      assert lines[0] in lines;
    }
  }

  /** The main result. Whatever the text, the reader finds in the written bytes exactly the wrapped
      lines in order, sixty to a page, each at its place on the page -- as long as every object
      starts below byte 10^10. From there on the file has no readable cross-reference table. */
  lemma ReadsBack(text: string)
    ensures var lines := TextWrap.WrapAll(TextWrap.SplitLines(text), WIDTH);
      ReadPdf(Encode(PdfText(lines)))
      == if AllBelow(ReportOffsets(lines), TEN_DIGITS) then Some(PlacedPages(Paginate(ReportLines(text)))) else None
  {
    hide PdfText, ReadText;
    var lines := TextWrap.WrapAll(TextWrap.SplitLines(text), WIDTH);
    TextWrap.WrapAllFits(TextWrap.SplitLines(text), WIDTH);
    LinesHaveNoReturns(lines);
    DecodesAsLossy(lines);
    SameReportOffsets(lines);
    ReadsText(LossyAll(lines));
  }

  lemma SameReportOffsets(lines: seq<string>)
    ensures ReportOffsets(LossyAll(lines)) == ReportOffsets(lines)
  {
    LossyPaginate(lines);
    LossyObjects(Paginate(lines));
    SameOffsets(Objects(Paginate(lines)), 1, |HEADER|);
  }

  // ---------- Pages and places ----------

  /** The pages part the lines into runs of one to sixty; all but the last are full. */
  lemma {:induction false} PagesPartition(lines: seq<string>)
    ensures var pages := Paginate(lines);
      && Flatten(pages) == lines
      && (forall i :: 0 <= i < |pages| ==> 1 <= |pages[i]| <= LINES_PER_PAGE)
      && (forall i :: 0 <= i < |pages| - 1 ==> |pages[i]| == LINES_PER_PAGE)
    decreases |lines|
  {
    if lines == [] {
    } else if |lines| <= LINES_PER_PAGE {
      assert Flatten([lines][1..]) == [];
    } else {
      var page, rest := lines[..LINES_PER_PAGE], lines[LINES_PER_PAGE..];
      PagesPartition(rest);
      assert ([page] + Paginate(rest))[1..] == Paginate(rest);
      assert page + rest == lines;
    }
  }

  /** Every line is shown at the left margin, between the top and the bottom margin, a full line
      below the one before it. */
  lemma LinesOnPage(lines: seq<string>, p: nat, i: nat)
    requires p < |Paginate(lines)| && i < |Paginate(lines)[p]|
    ensures var shown := PlacedPages(Paginate(lines))[p];
      && shown[i].x == 36 && 36 <= shown[i].y <= 756
      && shown[i].text == Paginate(lines)[p][i]
      && (i > 0 ==> shown[i].y == shown[i - 1].y - 12)
  {
    PagesPartition(lines);
  }

  /** The strings shown, page by page. */
  function ShownTexts(pages: seq<seq<Shown>>): seq<string> {
    if pages == [] then [] else TextsOf(pages[0]) + ShownTexts(pages[1..])
  }

  function TextsOf(shown: seq<Shown>): seq<string> {
    if shown == [] then [] else [shown[0].text] + TextsOf(shown[1..])
  }

  lemma {:induction false} PlacedTexts(page: seq<string>, y: int)
    ensures TextsOf(Placed(page, y)) == page
  {
    if page != [] {
      var more := Placed(page[1..], y - 12);
      PlacedTexts(page[1..], y - 12);
      assert ([Shown(36, y, page[0])] + more)[1..] == more;
      assert page == [page[0]] + page[1..];
    }
  }

  lemma {:induction false} PagesTexts(pages: seq<seq<string>>)
    ensures ShownTexts(PlacedPages(pages)) == Flatten(pages)
  {
    if pages != [] {
      var more := PlacedPages(pages[1..]);
      PagesTexts(pages[1..]);
      PlacedTexts(pages[0], 756);
      assert ([Placed(pages[0], 756)] + more)[1..] == more;
    }
  }

  /** The strings `bs` are the strings `ss`, with question marks for the characters above 255. */
  predicate SameButUnknown(ss: seq<string>, bs: seq<string>) {
    |ss| == |bs| && forall i :: 0 <= i < |ss| ==> IsLossy(ss[i], bs[i])
  }

  predicate IsLossy(s: string, b: string) {
    |s| == |b| && forall j :: 0 <= j < |s| ==> b[j] == if s[j] as int < 256 then s[j] else '?'
  }

  lemma {:induction false} LossyAllIs(ss: seq<string>)
    ensures SameButUnknown(ss, LossyAll(ss))
  {
    hide IsLossy;
    if ss != [] {
      LossyAllIs(ss[1..]);
      LossyIs(ss[0]);
      assert forall i :: 0 < i < |ss| ==> ss[i] == ss[1..][i - 1] && LossyAll(ss)[i] == LossyAll(ss[1..])[i - 1];
    }
  }

  lemma LossyIs(s: string)
    ensures IsLossy(s, Lossy(s))
  {
  }

  /** What is read off the file is the text itself: its lines, between which only their breaks are missing,
      each one with its tabs expanded, cut into pieces and with a question mark for every character that the
      encoding does not have. */
  lemma TextReadsBack(text: string) returns (breaks: seq<string>, groups: seq<seq<string>>)
    requires AllBelow(ReportOffsets(TextWrap.WrapAll(TextWrap.SplitLines(text), WIDTH)), TEN_DIGITS)
    ensures var lines := TextWrap.SplitLines(text);
      var read := ReadPdf(Encode(PdfText(TextWrap.WrapAll(lines, WIDTH))));
      && TextMeaning.IsSplit(text, lines, breaks)
      && |groups| == |lines| && (forall i :: 0 <= i < |lines| ==> TextMeaning.IsWrapped(lines[i], groups[i]))
      && read.Some? && SameButUnknown(Flatten(groups), ShownTexts(read.value))
  {
    hide PdfText, ReadText, ReadPdf, PlacedPages, ReportOffsets, TextMeaning.IsSplit, TextMeaning.IsWrapped, LossyAll,
         SameButUnknown;
    LossyAllIs(TextWrap.WrapAll(TextWrap.SplitLines(text), WIDTH));
    breaks := TextMeaning.SplitTells(text);
    groups := TextMeaning.WrapAllTells(TextWrap.SplitLines(text), WIDTH);
    ReadsBack(text);
    PagesPartition(ReportLines(text));
    PagesTexts(Paginate(ReportLines(text)));
  }

  /** The cross-reference table is in the fixed format exactly when all offsets fit ten digits. */
  lemma {:induction false} TableInFixedFormat(offsets: seq<nat>)
    ensures |XrefEntries(offsets)| >= 20 * |offsets|
    ensures |XrefEntries(offsets)| == 20 * |offsets| <==> AllBelow(offsets, TEN_DIGITS)
  {
    if offsets != [] {
      TableInFixedFormat(offsets[1..]);
      EntryIsTwentyBytes(offsets[0]);
      assert forall i :: 0 <= i < |offsets[1..]| ==> offsets[1..][i] == offsets[i + 1];
      assert forall i :: 0 < i < |offsets| ==> offsets[i] == offsets[1..][i - 1];
    }
  }

  // ---------- A text that is too long ----------

  /** Every object takes at least one byte. */
  lemma {:induction false} OffsetsGrow(os: seq<string>, id: nat, start: nat)
    ensures forall i :: 0 <= i < |os| ==> Offsets(os, id, start)[i] >= start + i
  {
    if os != [] {
      var next := start + |Wrapped(id, os[0])|;
      OffsetsGrow(os[1..], id + 1, next);
      var all := Offsets(os, id, start);
      forall i | 0 < i < |os|
        ensures all[i] >= start + i
      {
        assert all[i] == Offsets(os[1..], id + 1, next)[i - 1];
      }
    }
  }

  lemma {:induction false} FlattenLength(pages: seq<seq<string>>)
    requires forall i :: 0 <= i < |pages| ==> |pages[i]| <= LINES_PER_PAGE
    ensures |Flatten(pages)| <= LINES_PER_PAGE * |pages|
  {
    if pages != [] { FlattenLength(pages[1..]); }
  }

  /** A text of as many empty lines makes as many lines of the report. */
  lemma {:induction false} EmptyLines(n: nat)
    ensures |TextWrap.WrapAll(TextWrap.SplitLines(Repeat('\n', n)), WIDTH)| == n
  {
    var text := Repeat('\n', n);
    if n == 0 {
      assert text == "";
    } else {
      EmptyLines(n - 1);
      FirstIsEmpty(text, Repeat('\n', n - 1));
    }
  }

  lemma FirstIsEmpty(text: string, rest: string)
    requires text != "" && text[0] == '\n' && text[1..] == rest
    ensures TextWrap.WrapAll(TextWrap.SplitLines(text), WIDTH) == [""] + TextWrap.WrapAll(TextWrap.SplitLines(rest), WIDTH)
  {
    hide TextWrap.Wrap;
    assert TextWrap.IsLineBreak('\n');
    assert TextWrap.LineLength(text) == 0;
    assert TextWrap.SplitLines(text) == [""] + TextWrap.SplitLines(rest);
    assert ([""] + TextWrap.SplitLines(rest))[1..] == TextWrap.SplitLines(rest);
  }

  /** A report of six times 10^11 empty lines: its file cannot be read. */
  lemma HugeText()
    ensures var lines := TextWrap.WrapAll(TextWrap.SplitLines(Repeat('\n', LINES_PER_PAGE * TEN_DIGITS)), WIDTH);
      !AllBelow(ReportOffsets(lines), TEN_DIGITS) && ReadPdf(Encode(PdfText(lines))) == None
  {
    hide TextWrap.WrapAll, TextWrap.SplitLines, Paginate, Flatten, ReadPdf, PdfText, Objects, PlacedPages, ReportLines;
    var text := Repeat('\n', LINES_PER_PAGE * TEN_DIGITS);
    var lines := TextWrap.WrapAll(TextWrap.SplitLines(text), WIDTH);
    EmptyLines(LINES_PER_PAGE * TEN_DIGITS);
    PagesPartition(lines);
    var pages := Paginate(lines);
    FlattenLength(pages);
    var os := Objects(pages);
    OffsetsGrow(os, 1, |HEADER|);
    assert |os| > |pages| >= TEN_DIGITS;
    assert ReportOffsets(lines)[|os| - 1] >= TEN_DIGITS;
    ReadsBack(text);
  }
}
