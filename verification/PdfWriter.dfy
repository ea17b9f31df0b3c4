/**
 The report's PDF writer. `PdfText` says what the file holds, piece by piece; `WriteTextPdf` is the
 procedure that assembles it: it appends objects, patches the placeholder of the page tree, and
 notes byte offsets while it writes.
 */
module PdfWriter {
  import opened Text
  import opened Latin1
  import TextWrap

  const WIDTH := 78
  const LINES_PER_PAGE := 60  // (792 - 2 * 36) / 12
  const HEADER := "%PDF-1.4\n%\U{e2}\U{e3}\U{cf}\U{d3}\n"
  const KIDS_PLACEHOLDER := "__PAGES_KIDS__"

  // ---------- Strings ----------

  function PdfEscape(s: string): string {
    ReplaceChar(ReplaceChar(ReplaceChar(s, '\\', "\\\\"), '(', "\\("), ')', "\\)")
  }

  /** `s.replace(pat, sub)`: leftmost occurrences, one after the other */
  function Replace<T(==)>(s: seq<T>, pat: seq<T>, sub: seq<T>): seq<T>
    requires pat != []
    decreases |s|
  {
    if |s| < |pat| then s
    else if s[..|pat|] == pat then sub + Replace(s[|pat|..], pat, sub)
    else [s[0]] + Replace(s[1..], pat, sub)
  }

  // ---------- Pages ----------

  function Paginate(lines: seq<string>): (pages: seq<seq<string>>)
    decreases |lines|
  {
    if lines == [] then []
    else if |lines| <= LINES_PER_PAGE then [lines]
    else [lines[..LINES_PER_PAGE]] + Paginate(lines[LINES_PER_PAGE..])
  }

  function ShowLine(line: string): string { "(" + PdfEscape(line) + ") Tj" }

  function LineOps(page: seq<string>, first: bool): seq<string> {
    if page == [] then []
    else (if first then [ShowLine(page[0])] else ["T*", ShowLine(page[0])]) + LineOps(page[1..], false)
  }

  function StreamText(page: seq<string>): string {
    Join(["BT", "/F1 10 Tf", "36 756 Td", "12 TL"] + LineOps(page, true) + ["ET"], "\n")
  }

  // ---------- Objects ----------

  const FONT := "<< /Type /Font " + "/Subtype /Type1 " + "/BaseFont /Courier >>"

  function ContentObject(stream: string): string {
    "<< /Length " + Dec(|stream|) + " >>\nstream\n" + stream + "\nendstream"
  }

  function PagesObject(count: nat, kids: string): string {
    "<< /Type /Pages /Count " + Dec(count) + " /Kids " + kids + " >>"
  }

  function PageObject(parent: nat, font: nat, content: nat): string {
    "<< /Type /Page "
    + ("/Parent " + Dec(parent) + " 0 R ")
    + "/MediaBox [0 0 612 792] "
    + ("/Resources << /Font << /F1 " + Dec(font) + " 0 R >> >> ")
    + ("/Contents " + Dec(content) + " 0 R >>")
  }

  function CatalogObject(pages: nat): string {
    "<< /Type /Catalog /Pages " + Dec(pages) + " 0 R >>"
  }

  function RefText(id: nat): string { Dec(id) + " 0 R" }

  function RefTexts(ids: seq<nat>): seq<string> {
    if ids == [] then [] else [RefText(ids[0])] + RefTexts(ids[1..])
  }

  function KidsText(ids: seq<nat>): string { "[ " + Join(RefTexts(ids), " ") + " ]" }

  /** The numbers `first`, `first + 1`, ... */
  function Range(first: nat, count: nat): (ids: seq<nat>)
    ensures |ids| == count && forall i :: 0 <= i < count ==> ids[i] == first + i
  {
    seq(count, i => first + i)
  }

  function ContentObjects(pages: seq<seq<string>>): (os: seq<string>)
    ensures |os| == |pages|
  {
    if pages == [] then [] else [ContentObject(StreamText(pages[0]))] + ContentObjects(pages[1..])
  }

  function PageObjects(contents: seq<nat>, parent: nat, font: nat): (os: seq<string>)
    ensures |os| == |contents|
  {
    if contents == [] then [] else [PageObject(parent, font, contents[0])] + PageObjects(contents[1..], parent, font)
  }

  function PagesId(pages: nat): nat { pages + 2 }

  function CatalogId(pages: nat): nat { 2 * pages + 3 }

  /** The payloads of all objects; the object numbered `k` is at index `k - 1`. */
  function Objects(pages: seq<seq<string>>): (os: seq<string>)
    ensures |os| == CatalogId(|pages|)
  {
    var n := |pages|;
    [FONT] + ContentObjects(pages)
    + [PagesObject(n, KidsText(Range(n + 3, n)))]
    + PageObjects(Range(2, n), PagesId(n), 1)
    + [CatalogObject(PagesId(n))]
  }

  // ---------- The file ----------

  function Wrapped(id: nat, payload: string): string { Dec(id) + " 0 obj\n" + payload + "\nendobj\n" }

  function Body(objects: seq<string>, id: nat): string {
    if objects == [] then "" else Wrapped(id, objects[0]) + Body(objects[1..], id + 1)
  }

  /** The positions of the objects when the first, numbered `id`, is at `start`. */
  function Offsets(objects: seq<string>, id: nat, start: nat): (offsets: seq<nat>)
    ensures |offsets| == |objects|
  {
    if objects == [] then [] else [start] + Offsets(objects[1..], id + 1, start + |Wrapped(id, objects[0])|)
  }

  function XrefEntry(offset: nat): string { Pad10(offset) + " 00000 n \n" }

  function XrefEntries(offsets: seq<nat>): string {
    if offsets == [] then "" else XrefEntry(offsets[0]) + XrefEntries(offsets[1..])
  }

  const FREE_ENTRY := "0000000000 65535 f \n"

  function XrefHead(count: nat): string { "xref\n0 " + Dec(count) + "\n" }

  function Trailer(size: nat, root: nat, xref: nat): string {
    "trailer\n<< /Size " + Dec(size) + " /Root " + Dec(root) + " 0 R >>\nstartxref\n" + Dec(xref) + "\n%%EOF\n"
  }

  function XrefPosition(objects: seq<string>): nat { |HEADER| + |Body(objects, 1)| }

  /** Everything after the objects. */
  function Tail(objects: seq<string>, root: nat): string {
    XrefHead(|objects| + 1) + FREE_ENTRY + XrefEntries(Offsets(objects, 1, |HEADER|))
    + Trailer(|objects| + 1, root, XrefPosition(objects))
  }

  function FileText(objects: seq<string>, root: nat): string {
    HEADER + Body(objects, 1) + Tail(objects, root)
  }

  function PdfText(lines: seq<string>): string {
    var pages := Paginate(lines);
    FileText(Objects(pages), CatalogId(|pages|))
  }

  // ---------- Patching the page tree ----------

  lemma {:induction false} ReplaceAbsent<T>(s: seq<T>, pat: seq<T>, sub: seq<T>)
    requires pat != [] && pat[0] !in s
    ensures Replace(s, pat, sub) == s
  {
    if |s| >= |pat| {
      assert s[..|pat|][0] == s[0] != pat[0];
      ReplaceAbsent(s[1..], pat, sub);
    }
  }

  lemma ReplaceFirst<T>(pat: seq<T>, after: seq<T>, sub: seq<T>)
    requires pat != []
    ensures Replace(pat + after, pat, sub) == sub + Replace(after, pat, sub)
  {
    var s := pat + after;
    assert s[..|pat|] == pat && s[|pat|..] == after;
  }

  lemma ReplaceSkips<T>(h: T, t: seq<T>, pat: seq<T>, sub: seq<T>)
    requires pat != [] && h != pat[0] && |pat| <= 1 + |t|
    ensures Replace([h] + t, pat, sub) == [h] + Replace(t, pat, sub)
  {
    var s := [h] + t;
    assert s[..|pat|][0] == h && s[1..] == t;
  }

  lemma FrontMoves<T>(h: T, t: seq<T>, a: seq<T>, b: seq<T>)
    ensures ([h] + t) + a + b == [h] + (t + a + b)
  {
  }

  lemma {:induction false} ReplaceOnce<T>(before: seq<T>, pat: seq<T>, after: seq<T>, sub: seq<T>)
    requires pat != [] && pat[0] !in before && pat[0] !in after
    ensures Replace(before + pat + after, pat, sub) == before + sub + after
  {
    hide Replace;
    if before == [] {
      assert before + pat + after == pat + after;
      ReplaceFirst(pat, after, sub);
      ReplaceAbsent(after, pat, sub);
      assert before + sub + after == sub + after;
    } else {
      var h, t := before[0], before[1..];
      ReplaceOnce(t, pat, after, sub);
      FrontMoves(h, t, pat, after);
      FrontMoves(h, t, sub, after);
      assert before == [h] + t;
      ReplaceSkips(h, t + pat + after, pat, sub);
    }
  }

  // ---------- The procedure ----------

  /** The content stream of one page. */
  method PageStream(page: seq<string>) returns (stream: seq<byte>)
    ensures stream == Encode(StreamText(page))
  {
    var streamLines := ["BT", "/F1 10 Tf", "36 756 Td"];
    streamLines := streamLines + ["12 TL"];
    ghost var head := ["BT", "/F1 10 Tf", "36 756 Td", "12 TL"];
    var idx := 0;
    while idx < |page|
      invariant 0 <= idx <= |page|
      invariant streamLines + LineOps(page[idx..], idx == 0) == head + LineOps(page, true)
    {
      var line := page[idx];
      LineOpsStep(page, idx, streamLines);
      if idx == 0 {
        streamLines := streamLines + [ShowLine(line)];
      } else {
        streamLines := streamLines + ["T*"];
        streamLines := streamLines + [ShowLine(line)];
      }
      idx := idx + 1;
    }
    streamLines := streamLines + ["ET"];
    assert streamLines == head + LineOps(page, true) + ["ET"];
    stream := Encode(Join(streamLines, "\n"));
  }

  lemma LineOpsStep(page: seq<string>, idx: nat, before: seq<string>)
    requires idx < |page|
    ensures before + LineOps(page[idx..], idx == 0)
         == before + (if idx == 0 then [ShowLine(page[idx])] else ["T*"] + [ShowLine(page[idx])]) + LineOps(page[idx + 1..], false)
  {
    assert page[idx..][1..] == page[idx + 1..];
  }

  /** Appends the content object of every page. */
  method AddContents(before: seq<seq<byte>>, pages: seq<seq<string>>)
    returns (objects: seq<seq<byte>>, contentIds: seq<nat>)
    ensures objects == before + EncodeAll(ContentObjects(pages))
    ensures contentIds == Range(|before| + 1, |pages|)
  {
    objects, contentIds := before, [];
    var i := 0;
    while i < |pages|
      invariant 0 <= i <= |pages| && |objects| == |before| + i
      invariant contentIds == Range(|before| + 1, i)
      invariant objects + EncodeAll(ContentObjects(pages[i..])) == before + EncodeAll(ContentObjects(pages))
    {
      var stream := PageStream(pages[i]);
      var payload := Encode("<< /Length " + Dec(|stream|) + " >>\nstream\n") + stream + Encode("\nendstream");
      EncodeThree("<< /Length " + Dec(|stream|) + " >>\nstream\n", StreamText(pages[i]), "\nendstream");
      assert pages[i..][1..] == pages[i + 1..];
      EncodeAllStep(objects, ContentObject(StreamText(pages[i])), ContentObjects(pages[i + 1..]));
      objects := objects + [payload];
      contentIds := contentIds + [|objects|];
      i := i + 1;
    }
  }

  /** Appends the page object of every content object. */
  method AddPages(before: seq<seq<byte>>, contentIds: seq<nat>, pagesId: nat, fontId: nat)
    returns (objects: seq<seq<byte>>, pageIds: seq<nat>)
    ensures objects == before + EncodeAll(PageObjects(contentIds, pagesId, fontId))
    ensures pageIds == Range(|before| + 1, |contentIds|)
  {
    objects, pageIds := before, [];
    var i := 0;
    while i < |contentIds|
      invariant 0 <= i <= |contentIds| && |objects| == |before| + i
      invariant pageIds == Range(|before| + 1, i)
      invariant objects + EncodeAll(PageObjects(contentIds[i..], pagesId, fontId))
             == before + EncodeAll(PageObjects(contentIds, pagesId, fontId))
    {
      assert contentIds[i..][1..] == contentIds[i + 1..];
      EncodeAllStep(objects, PageObject(pagesId, fontId, contentIds[i]), PageObjects(contentIds[i + 1..], pagesId, fontId));
      objects := objects + [Encode(PageObject(pagesId, fontId, contentIds[i]))];
      pageIds := pageIds + [|objects|];
      i := i + 1;
    }
  }

  lemma EncodeAllStep(before: seq<seq<byte>>, s: string, rest: seq<string>)
    ensures before + EncodeAll([s] + rest) == before + [Encode(s)] + EncodeAll(rest)
  {
    EncodeAllOne(s);
    EncodeAllAppend([s], rest);
  }

  lemma UpdateMiddle<T>(before: seq<T>, x: T, after: seq<T>, y: T)
    ensures (before + [x] + after)[|before| := y] == before + [y] + after
  {
  }

  /** The object list: font, contents, page tree with a placeholder, pages, patched page tree,
      catalog. Object numbers are positions in the list, counted from one. */
  method BuildObjects(pages: seq<seq<string>>) returns (objects: seq<seq<byte>>, catalogId: nat)
    ensures objects == EncodeAll(Objects(pages))
    ensures catalogId == CatalogId(|pages|)
  {
    hide Replace, Encode, EncodeAll, ContentObjects, PageObjects, PagesObject, CatalogObject, KidsText, Objects, FONT;
    objects := [Encode(FONT)];
    var fontId := |objects|;
    var contentIds: seq<nat>;
    objects, contentIds := AddContents(objects, pages);

    objects := objects + [Encode(PagesObject(|pages|, KIDS_PLACEHOLDER))];
    var pagesId := |objects|;
    var pageIds: seq<nat>;
    objects, pageIds := AddPages(objects, contentIds, pagesId, fontId);

    var kids := KidsText(pageIds);
    PatchKids(|pages|, kids);
    UpdateMiddle([Encode(FONT)] + EncodeAll(ContentObjects(pages)), objects[pagesId - 1],
                 EncodeAll(PageObjects(contentIds, pagesId, fontId)), Encode(PagesObject(|pages|, kids)));
    objects := objects[pagesId - 1 := Replace(objects[pagesId - 1], Encode(KIDS_PLACEHOLDER), Encode(kids))];

    objects := objects + [Encode(CatalogObject(pagesId))];
    catalogId := |objects|;
    ObjectsEncoded(pages);
  }

  /** The placeholder stands in the page tree object once, so patching puts the kids there and
      changes nothing else. */
  lemma PatchKids(count: nat, kids: string)
    ensures Replace(Encode(PagesObject(count, KIDS_PLACEHOLDER)), Encode(KIDS_PLACEHOLDER), Encode(kids))
         == Encode(PagesObject(count, kids))
  {
    var before, after := "<< /Type /Pages /Count " + Dec(count) + " /Kids ", " >>";
    var mark := Encode(KIDS_PLACEHOLDER)[0];
    assert mark == '_' as int as byte;
    assert mark !in Encode("<< /Type /Pages /Count ") && mark !in Encode(Dec(count)) && mark !in Encode(" /Kids ");
    EncodeThree("<< /Type /Pages /Count ", Dec(count), " /Kids ");
    assert mark !in Encode(after);
    ReplaceOnce(Encode(before), Encode(KIDS_PLACEHOLDER), Encode(after), Encode(kids));
    EncodeThree(before, KIDS_PLACEHOLDER, after);
    EncodeThree(before, kids, after);
  }

  lemma ObjectsEncoded(pages: seq<seq<string>>)
    ensures var n := |pages|;
      EncodeAll(Objects(pages))
      == [Encode(FONT)] + EncodeAll(ContentObjects(pages))
         + [Encode(PagesObject(n, KidsText(Range(n + 3, n))))]
         + EncodeAll(PageObjects(Range(2, n), PagesId(n), 1))
         + [Encode(CatalogObject(PagesId(n)))]
  {
    var n := |pages|;
    var a, b, c := [FONT], ContentObjects(pages), [PagesObject(n, KidsText(Range(n + 3, n)))];
    var d, e := PageObjects(Range(2, n), PagesId(n), 1), [CatalogObject(PagesId(n))];
    EncodeAllAppend(a + b + c + d, e);
    EncodeAllAppend(a + b + c, d);
    EncodeAllAppend(a + b, c);
    EncodeAllAppend(a, b);
    EncodeAllOne(FONT);
    EncodeAllOne(c[0]);
    EncodeAllOne(e[0]);
  }

  /** Writes the header and the objects, noting where each object begins. */
  method WriteObjects(objects: seq<seq<byte>>, ghost texts: seq<string>) returns (file: seq<byte>, offsets: seq<nat>)
    requires objects == EncodeAll(texts)
    ensures file == Encode(HEADER + Body(texts, 1))
    ensures offsets == [0] + Offsets(texts, 1, |HEADER|)
  {
    hide Dec, Offsets;
    file := Encode(HEADER);
    offsets := [0];
    ghost var whole := Encode(HEADER) + Encode(Body(texts, 1));
    ghost var all := [0] + Offsets(texts, 1, |HEADER|);
    var i := 0;
    while i < |objects|
      invariant 0 <= i <= |objects|
      invariant file + Encode(Body(texts[i..], i + 1)) == whole
      invariant offsets + Offsets(texts[i..], i + 1, |file|) == all
    {
      ghost var head, foot := Encode(Dec(i + 1) + " 0 obj\n"), Encode("\nendobj\n");
      ghost var rest := Encode(Body(texts[i + 1..], i + 2));
      BodyStep(texts, i, |file|);
      assert Encode(texts[i]) == objects[i];
      RegroupFive(file, head, objects[i], foot, rest);
      offsets := offsets + [|file|];
      file := file + Encode(Dec(i + 1) + " 0 obj\n");
      file := file + objects[i];
      file := file + Encode("\nendobj\n");
      i := i + 1;
    }
    EncodeAppend(HEADER, Body(texts, 1));
  }

  lemma RegroupFive<T>(a: seq<T>, b: seq<T>, c: seq<T>, d: seq<T>, e: seq<T>)
    ensures a + (b + c + d + e) == a + b + c + d + e
  {
  }

  lemma BodyStep(texts: seq<string>, i: nat, start: nat)
    requires i < |texts|
    ensures Encode(Body(texts[i..], i + 1))
         == Encode(Dec(i + 1) + " 0 obj\n") + Encode(texts[i]) + Encode("\nendobj\n") + Encode(Body(texts[i + 1..], i + 2))
    ensures Offsets(texts[i..], i + 1, start)
         == [start] + Offsets(texts[i + 1..], i + 2, start + |Wrapped(i + 1, texts[i])|)
  {
    assert texts[i..][1..] == texts[i + 1..];
    EncodeAppend(Wrapped(i + 1, texts[i]), Body(texts[i + 1..], i + 2));
    EncodeThree(Dec(i + 1) + " 0 obj\n", texts[i], "\nendobj\n");
  }

  /** The cross-reference entries of the given offsets. */
  method WriteEntries(entries: seq<nat>) returns (table: seq<byte>)
    ensures table == Encode(XrefEntries(entries))
  {
    hide XrefEntry, Encode;
    table := [];
    var i := 0;
    while i < |entries|
      invariant 0 <= i <= |entries|
      invariant table + Encode(XrefEntries(entries[i..])) == Encode(XrefEntries(entries))
    {
      assert entries[i..][1..] == entries[i + 1..];
      EncodeAppend(XrefEntry(entries[i]), XrefEntries(entries[i + 1..]));
      table := table + Encode(XrefEntry(entries[i]));
      i := i + 1;
    }
  }

  /** Writes the objects, then the cross-reference table and the trailer. */
  method WriteFile(objects: seq<seq<byte>>, catalogId: nat, ghost texts: seq<string>) returns (file: seq<byte>)
    requires objects == EncodeAll(texts)
    ensures file == Encode(FileText(texts, catalogId))
  {
    hide Encode, EncodeAll, Body, Offsets, Dec, XrefHead, XrefEntries, Trailer;
    var offsets: seq<nat>;
    file, offsets := WriteObjects(objects, texts);
    var xrefOffset := |file|;
    EncodeFive(HEADER + Body(texts, 1), XrefHead(|texts| + 1), FREE_ENTRY,
               XrefEntries(Offsets(texts, 1, |HEADER|)), Trailer(|texts| + 1, catalogId, xrefOffset));
    file := file + Encode(XrefHead(|objects| + 1));
    file := file + Encode(FREE_ENTRY);
    assert offsets[1..] == Offsets(texts, 1, |HEADER|);
    var table := WriteEntries(offsets[1..]);
    file := file + table;
    file := file + Encode(Trailer(|objects| + 1, catalogId, xrefOffset));
  }

  /** The whole writer: wrap, paginate, build the objects, write the file. */
  method WriteTextPdf(text: string) returns (file: seq<byte>)
    ensures file == Encode(PdfText(TextWrap.WrapAll(TextWrap.SplitLines(text), WIDTH)))
  {
    var lines := TextWrap.WrapTextLines(text, WIDTH);
    var pages := Paginate(lines);
    var objects, catalogId := BuildObjects(pages);
    file := WriteFile(objects, catalogId, Objects(pages));
  }
}
