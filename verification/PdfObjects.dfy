/** What the reader's lexer and parser make of each object that the writer prints. */
module PdfObjects {
  import opened Text
  import opened PdfSyntax
  import opened PdfWriter

  // ---------- The objects as values ----------

  const FONT_VAL := DictVal(Entry("Type", NameVal("Font"), Entry("Subtype", NameVal("Type1"),
                      Entry("BaseFont", NameVal("Courier"), NoEntries))))

  function LengthVal(length: nat): Val { DictVal(Entry("Length", IntVal(length), NoEntries)) }

  function RefItems(ids: seq<nat>): Items {
    if ids == [] then NoItems else Item(RefVal(ids[0], 0), RefItems(ids[1..]))
  }

  function PagesVal(count: nat, ids: seq<nat>): Val {
    DictVal(Entry("Type", NameVal("Pages"), Entry("Count", IntVal(count), Entry("Kids", ArrayVal(RefItems(ids)), NoEntries))))
  }

  const MEDIA_BOX := ArrayVal(Item(IntVal(0), Item(IntVal(0), Item(IntVal(612), Item(IntVal(792), NoItems)))))

  function ResourcesVal(font: nat): Val {
    DictVal(Entry("Font", DictVal(Entry("F1", RefVal(font, 0), NoEntries)), NoEntries))
  }

  function PageVal(parent: nat, font: nat, content: nat): Val {
    DictVal(Entry("Type", NameVal("Page"), Entry("Parent", RefVal(parent, 0), Entry("MediaBox", MEDIA_BOX,
      Entry("Resources", ResourcesVal(font), Entry("Contents", RefVal(content, 0), NoEntries))))))
  }

  function CatalogVal(pages: nat): Val {
    DictVal(Entry("Type", NameVal("Catalog"), Entry("Pages", RefVal(pages, 0), NoEntries)))
  }

  function TrailerVal(size: nat, root: nat): Val {
    DictVal(Entry("Size", IntVal(size), Entry("Root", RefVal(root, 0), NoEntries)))
  }

  // ---------- The printed objects lex as those values ----------

  /** The names that occur are regular. */
  lemma RegularNames()
    ensures AllRegular("Type") && AllRegular("Font") && AllRegular("Length") && AllRegular("Pages") && AllRegular("Page")
  {
  }

  lemma FontNames()
    ensures AllRegular("Subtype") && AllRegular("Type1") && AllRegular("BaseFont") && AllRegular("Courier")
  {
  }

  lemma TreeNames()
    ensures AllRegular("Catalog") && AllRegular("Size") && AllRegular("Root") && AllRegular("Kids") && AllRegular("Count")
  {
  }

  lemma PageNames()
    ensures AllRegular("Parent") && AllRegular("MediaBox") && AllRegular("Resources") && AllRegular("Contents")
  {
  }

  lemma NameEntry(key: string, name: string, others: string, es: Entries)
    requires AllRegular(key) && AllRegular(name) && Lexes(others, EntryTokens(es))
    ensures Lexes(EntryText(key, NameText(name), others), EntryTokens(Entry(key, NameVal(name), es)))
  {
    hide Lexes, EntryText, NameText, EntryTokens, Tokens, AllRegular;
    NameLexes(name);
    EntryLexes(key, NameText(name), NameVal(name), others, es);
  }

  lemma IntEntry(key: string, n: nat, others: string, es: Entries)
    requires AllRegular(key) && Lexes(others, EntryTokens(es))
    ensures Lexes(EntryText(key, Dec(n) + " ", others), EntryTokens(Entry(key, IntVal(n), es)))
  {
    hide Lexes, EntryText, NameText, EntryTokens, Tokens, AllRegular, Dec;
    IntLexes(n);
    EntryLexes(key, Dec(n) + " ", IntVal(n), others, es);
  }

  lemma RefEntry(key: string, id: nat, others: string, es: Entries)
    requires AllRegular(key) && Lexes(others, EntryTokens(es))
    ensures Lexes(EntryText(key, Dec(id) + " 0 R ", others), EntryTokens(Entry(key, RefVal(id, 0), es)))
  {
    hide Lexes, EntryText, NameText, EntryTokens, Tokens, AllRegular, Dec;
    RefLexes(id);
    EntryLexes(key, Dec(id) + " 0 R ", RefVal(id, 0), others, es);
  }

  lemma FontLexes()
    ensures Lexes(FONT, Tokens(FONT_VAL))
  {
    hide Lexes, EntryText, NameText, EntryTokens, Tokens, AllRegular, FONT;
    RegularNames();
    FontNames();
    CloseLexes("");
    var base := EntryText("BaseFont", NameText("Courier"), ">>" + "");
    var subtype := EntryText("Subtype", NameText("Type1"), base);
    var es := FONT_VAL.entries;
    NameEntry("BaseFont", "Courier", ">>" + "", NoEntries);
    NameEntry("Subtype", "Type1", base, es.others.others);
    NameEntry("Type", "Font", subtype, es.others);
    DictLexes(EntryText("Type", NameText("Font"), subtype), es);
    FontPrinted();
  }

  lemma FontPrinted()
    ensures FONT == "<< " + EntryText("Type", NameText("Font"), EntryText("Subtype", NameText("Type1"),
                      EntryText("BaseFont", NameText("Courier"), ">>" + "")))
  {
    hide Lexes;
    var e3 := EntryText("BaseFont", NameText("Courier"), ">>" + "");
    assert e3 == "/BaseFont /Courier >>";
    assert NameText("Subtype") + NameText("Type1") == "/Subtype /Type1 ";
    assert "<< " + (NameText("Type") + NameText("Font")) == "<< /Type /Font ";
    var e2 := EntryText("Subtype", NameText("Type1"), e3);
    Regroup3("<< ", NameText("Type") + NameText("Font"), e2);
    Regroup3("<< /Type /Font ", "/Subtype /Type1 ", e3);
  }

  lemma LengthPrinted(length: string)
    ensures "<< /Length " + length + " >>\n" == "<< " + EntryText("Length", length + " ", ">>" + "\n")
  {
    assert "<< " + NameText("Length") == "<< /Length ";
  }

  lemma LengthLexes(length: nat)
    ensures Lexes("<< /Length " + Dec(length) + " >>\n", Tokens(LengthVal(length)))
  {
    hide Lexes, EntryText, NameText, EntryTokens, Tokens, AllRegular, Dec;
    RegularNames();
    CloseLexes("\n");
    IntEntry("Length", length, ">>" + "\n", NoEntries);
    DictLexes(EntryText("Length", Dec(length) + " ", ">>" + "\n"), LengthVal(length).entries);
    LengthPrinted(Dec(length));
  }

  lemma CatalogLexes(pages: nat)
    ensures Lexes(CatalogObject(pages), Tokens(CatalogVal(pages)))
  {
    hide Lexes, EntryText, NameText, EntryTokens, Tokens, AllRegular, Dec;
    RegularNames();
    TreeNames();
    CloseLexes("");
    var tree := EntryText("Pages", Dec(pages) + " 0 R ", ">>" + "");
    RefEntry("Pages", pages, ">>" + "", NoEntries);
    NameEntry("Type", "Catalog", tree, CatalogVal(pages).entries.others);
    DictLexes(EntryText("Type", NameText("Catalog"), tree), CatalogVal(pages).entries);
    CatalogPrinted(Dec(pages));
  }

  lemma CatalogPrinted(id: string)
    ensures "<< /Type /Catalog /Pages " + id + " 0 R >>"
         == "<< " + EntryText("Type", NameText("Catalog"), EntryText("Pages", id + " 0 R ", ">>" + ""))
  {
    assert NameText("Type") + NameText("Catalog") == "/Type /Catalog ";
  }

  lemma TrailerLexes(size: nat, root: nat)
    ensures Lexes("<< /Size " + Dec(size) + " /Root " + Dec(root) + " 0 R >>\n", Tokens(TrailerVal(size, root)))
  {
    hide Lexes, EntryText, NameText, EntryTokens, Tokens, AllRegular, Dec;
    TreeNames();
    CloseLexes("\n");
    var last := EntryText("Root", Dec(root) + " 0 R ", ">>" + "\n");
    RefEntry("Root", root, ">>" + "\n", NoEntries);
    IntEntry("Size", size, last, TrailerVal(size, root).entries.others);
    DictLexes(EntryText("Size", Dec(size) + " ", last), TrailerVal(size, root).entries);
    TrailerPrinted(Dec(size), Dec(root));
  }

  lemma TrailerPrinted(size: string, root: string)
    ensures "<< /Size " + size + " /Root " + root + " 0 R >>\n"
         == "<< " + EntryText("Size", size + " ", EntryText("Root", root + " 0 R ", ">>" + "\n"))
  {
  }

  lemma RefItemsLex(ids: seq<nat>)
    ensures Lexes(RefList(ids) + "] ", ItemTokens(RefItems(ids)))
  {
    if ids == [] {
      LexesToken(ArrayClose, " ");
      assert RefList(ids) + "] " == Show(ArrayClose) + " ";
    } else {
      RefLexes(ids[0]);
      RefItemsLex(ids[1..]);
      var ref := Dec(ids[0]) + " 0 R ";
      LexesThen(ref, Tokens(RefVal(ids[0], 0)), RefList(ids[1..]) + "] ", ItemTokens(RefItems(ids[1..])));
      Regroup3(ref, RefList(ids[1..]), "] ");
    }
  }

  /** The kids of the page tree, each with a blank after it. */
  function RefList(ids: seq<nat>): string {
    if ids == [] then "" else Dec(ids[0]) + " 0 R " + RefList(ids[1..])
  }

  lemma JoinRefs(ids: seq<nat>)
    requires ids != []
    ensures Join(RefTexts(ids), " ") + " " == RefList(ids)
  {
    if |ids| == 1 {
      assert RefTexts(ids[1..]) == [];
      assert RefList(ids[1..]) == "";
      RefBlank(ids[0]);
    } else {
      JoinRefs(ids[1..]);
      assert RefTexts(ids)[1..] == RefTexts(ids[1..]);
      RefBlank(ids[0]);
      Regroup3(RefText(ids[0]) + " ", Join(RefTexts(ids[1..]), " "), " ");
    }
  }

  lemma RefBlank(id: nat)
    ensures RefText(id) + " " == Dec(id) + " 0 R "
  {
  }

  /** Without pages the kids are printed as two blanks, otherwise with one blank on either side. */
  lemma KidsLex(ids: seq<nat>)
    ensures Lexes(KidsText(ids) + " ", Tokens(ArrayVal(RefItems(ids))))
  {
    RefItemsLex(ids);
    LexesToken(ArrayOpen, if ids == [] then "  " else " ");
    var open := Show(ArrayOpen) + (if ids == [] then "  " else " ");
    LexesThen(open, [ArrayOpen], RefList(ids) + "] ", ItemTokens(RefItems(ids)));
    if ids == [] {
      assert KidsText(ids) + " " == open + (RefList(ids) + "] ");
    } else {
      JoinRefs(ids);
      KidsPrinted(Join(RefTexts(ids), " "), RefList(ids));
    }
  }

  lemma KidsPrinted(joined: string, list: string)
    requires joined + " " == list
    ensures "[ " + joined + " ]" + " " == "[" + " " + (list + "] ")
  {
    assert "[ " + joined + " ]" + " " == "[ " + (joined + " ") + "] ";
  }

  lemma PagesLexes(count: nat, ids: seq<nat>)
    ensures Lexes(PagesObject(count, KidsText(ids)), Tokens(PagesVal(count, ids)))
  {
    hide Lexes, EntryText, NameText, EntryTokens, Tokens, AllRegular, Dec, KidsText, RefItems;
    RegularNames();
    TreeNames();
    CloseLexes("");
    KidsLex(ids);
    var kids := EntryText("Kids", KidsText(ids) + " ", ">>" + "");
    EntryLexes("Kids", KidsText(ids) + " ", ArrayVal(RefItems(ids)), ">>" + "", NoEntries);
    var es := PagesVal(count, ids).entries;
    var counted := EntryText("Count", Dec(count) + " ", kids);
    IntEntry("Count", count, kids, es.others.others);
    NameEntry("Type", "Pages", counted, es.others);
    DictLexes(EntryText("Type", NameText("Pages"), counted), es);
    PagesPrinted(Dec(count), KidsText(ids));
  }

  lemma KidsEntry(kids: string)
    ensures EntryText("Kids", kids + " ", ">>" + "") == "/Kids " + kids + " >>"
  {
  }

  lemma CountEntry(count: string, after: string)
    ensures EntryText("Count", count + " ", after) == "/Count " + count + " " + after
  {
  }

  lemma TypePages(after: string)
    ensures "<< " + EntryText("Type", NameText("Pages"), after) == "<< /Type /Pages " + after
  {
    assert NameText("Type") + NameText("Pages") == "/Type /Pages ";
  }

  lemma PagesRegrouped(count: string, kids: string)
    ensures "<< /Type /Pages " + ("/Count " + count + " " + ("/Kids " + kids + " >>"))
         == "<< /Type /Pages /Count " + count + " /Kids " + kids + " >>"
  {
    assert "<< /Type /Pages " + "/Count " == "<< /Type /Pages /Count ";
    assert " " + "/Kids " == " /Kids ";
  }

  lemma PagesPrinted(count: string, kids: string)
    ensures "<< /Type /Pages /Count " + count + " /Kids " + kids + " >>"
         == "<< " + EntryText("Type", NameText("Pages"), EntryText("Count", count + " ", EntryText("Kids", kids + " ", ">>" + "")))
  {
    hide EntryText, NameText;
    KidsEntry(kids);
    var rest := "/Kids " + kids + " >>";
    CountEntry(count, rest);
    TypePages("/Count " + count + " " + rest);
    PagesRegrouped(count, kids);
  }

  lemma BoxTokens()
    ensures Tokens(MEDIA_BOX)
      == [ArrayOpen] + (Tokens(IntVal(0)) + (Tokens(IntVal(0)) + (Tokens(IntVal(612)) + [Num(792), ArrayClose])))
  {
  }

  lemma BoxText()
    ensures "[0 0 612 792] "
      == Show(ArrayOpen) + "" + (Dec(0) + " " + (Dec(0) + " " + (Dec(612) + " " + (Dec(792) + "] "))))
  {
    assert Dec(0) == "0" && Dec(612) == "612" && Dec(792) == "792";
  }

  lemma MediaBoxLexes()
    ensures Lexes("[0 0 612 792] ", Tokens(MEDIA_BOX))
  {
    hide Lexes, Dec, Tokens, ItemTokens;
    LexesToken(ArrayOpen, "");
    IntLexes(0);
    IntLexes(612);
    NumberThenClose(792);
    BoxTokens();
    BoxText();
    var last := Dec(612) + " " + (Dec(792) + "] ");
    LexesThen(Dec(612) + " ", Tokens(IntVal(612)), Dec(792) + "] ", [Num(792), ArrayClose]);
    var more := Dec(0) + " " + last;
    LexesThen(Dec(0) + " ", Tokens(IntVal(0)), last, Tokens(IntVal(612)) + [Num(792), ArrayClose]);
    LexesThen(Dec(0) + " ", Tokens(IntVal(0)), more, Tokens(IntVal(0)) + (Tokens(IntVal(612)) + [Num(792), ArrayClose]));
    LexesThen(Show(ArrayOpen) + "", [ArrayOpen], Dec(0) + " " + more,
              Tokens(IntVal(0)) + (Tokens(IntVal(0)) + (Tokens(IntVal(612)) + [Num(792), ArrayClose])));
  }

  lemma NumberThenClose(n: nat)
    ensures Lexes(Dec(n) + "] ", [Num(n), ArrayClose])
  {
    forall rest: string, stops: set<string> | Next(rest).Some? && NoStops([Num(n), ArrayClose], stops)
      ensures Next(Dec(n) + "] " + rest).Some?
      ensures Lex(Dec(n) + "] " + rest, stops) == ([Num(n), ArrayClose] + Lex(rest, stops).0, Lex(rest, stops).1)
    {
      assert Show(ArrayClose) + (" " + rest) == "] " + rest;
      LexStep(ArrayClose, " " + rest, stops);
      LexSkipsWhite(" ", rest, stops);
      LexStep(Num(n), "] " + rest, stops);
      Regroup3(Dec(n), "] ", rest);
      Regroup3([Num(n)], [ArrayClose], Lex(rest, stops).0);
      assert [Num(n)] + [ArrayClose] == [Num(n), ArrayClose];
    }
  }

  lemma ResourcesLex(font: nat)
    ensures Lexes("<< /Font << /F1 " + Dec(font) + " 0 R >> >> ", Tokens(ResourcesVal(font)))
  {
    CloseLexes(" ");
    RefLexes(font);
    var ref := Dec(font) + " 0 R ";
    var inner := EntryText("F1", ref, ">>" + " ");
    EntryLexes("F1", ref, RefVal(font, 0), ">>" + " ", NoEntries);
    var fonts := DictVal(Entry("F1", RefVal(font, 0), NoEntries));
    DictLexes(inner, fonts.entries);
    var entries := EntryText("Font", "<< " + inner, ">>" + " ");
    EntryLexes("Font", "<< " + inner, fonts, ">>" + " ", NoEntries);
    DictLexes(entries, ResourcesVal(font).entries);
    ResourcesPrinted(Dec(font));
  }

  lemma ResourcesPrinted(font: string)
    ensures "<< /Font << /F1 " + font + " 0 R >> >> "
         == "<< " + EntryText("Font", "<< " + EntryText("F1", font + " 0 R ", ">>" + " "), ">>" + " ")
  {
    assert EntryText("F1", font + " 0 R ", ">>" + " ") == "/F1 " + font + " 0 R >> ";
  }

  function ContentsText(content: nat): string { EntryText("Contents", Dec(content) + " 0 R ", ">>" + "") }

  function ResourcesText(font: nat, content: nat): string {
    EntryText("Resources", "<< /Font << /F1 " + Dec(font) + " 0 R >> >> ", ContentsText(content))
  }

  lemma ContentsLex(content: nat, es: Entries)
    requires es == Entry("Contents", RefVal(content, 0), NoEntries)
    ensures Lexes(ContentsText(content), EntryTokens(es))
  {
    hide Lexes, EntryText, NameText, EntryTokens, Tokens, AllRegular, Dec;
    PageNames();
    CloseLexes("");
    RefEntry("Contents", content, ">>" + "", NoEntries);
  }

  lemma PageResourcesLex(font: nat, content: nat, es: Entries)
    requires es == Entry("Resources", ResourcesVal(font), Entry("Contents", RefVal(content, 0), NoEntries))
    ensures Lexes(ResourcesText(font, content), EntryTokens(es))
  {
    hide Lexes, EntryText, NameText, EntryTokens, Tokens, AllRegular, Dec, ContentsText, ResourcesVal;
    PageNames();
    ContentsLex(content, es.others);
    ResourcesLex(font);
    EntryLexes("Resources", "<< /Font << /F1 " + Dec(font) + " 0 R >> >> ", ResourcesVal(font), ContentsText(content), es.others);
  }

  lemma PageHeadLexes(parent: nat, others: string, es: Entries)
    requires Lexes(others, EntryTokens(es))
    ensures Lexes("<< " + EntryText("Type", NameText("Page"), EntryText("Parent", Dec(parent) + " 0 R ", others)),
                  Tokens(DictVal(Entry("Type", NameVal("Page"), Entry("Parent", RefVal(parent, 0), es)))))
  {
    hide Lexes, EntryText, NameText, EntryTokens, Tokens, AllRegular, Dec;
    RegularNames();
    PageNames();
    var child := EntryText("Parent", Dec(parent) + " 0 R ", others);
    RefEntry("Parent", parent, others, es);
    NameEntry("Type", "Page", child, Entry("Parent", RefVal(parent, 0), es));
    DictLexes(EntryText("Type", NameText("Page"), child), Entry("Type", NameVal("Page"), Entry("Parent", RefVal(parent, 0), es)));
  }

  lemma BoxLexes(font: nat, content: nat, es: Entries)
    requires es == Entry("MediaBox", MEDIA_BOX, Entry("Resources", ResourcesVal(font), Entry("Contents", RefVal(content, 0), NoEntries)))
    ensures Lexes(EntryText("MediaBox", "[0 0 612 792] ", ResourcesText(font, content)), EntryTokens(es))
  {
    hide Lexes, EntryText, NameText, EntryTokens, Tokens, AllRegular, Dec, MEDIA_BOX, ResourcesVal, ResourcesText;
    PageNames();
    PageResourcesLex(font, content, es.others);
    MediaBoxLexes();
    EntryLexes("MediaBox", "[0 0 612 792] ", MEDIA_BOX, ResourcesText(font, content), es.others);
  }

  lemma PageLexes(parent: nat, font: nat, content: nat)
    ensures Lexes(PageObject(parent, font, content), Tokens(PageVal(parent, font, content)))
  {
    hide Lexes, EntryText, NameText, Dec, Tokens, EntryTokens, MEDIA_BOX, ResourcesVal;
    var es := PageVal(parent, font, content).entries;
    BoxLexes(font, content, es.others.others);
    PageHeadLexes(parent, EntryText("MediaBox", "[0 0 612 792] ", ResourcesText(font, content)), es.others.others);
    PagePrinted(Dec(parent), Dec(font), Dec(content));
  }

  lemma PagePrinted(parent: string, font: string, content: string)
    ensures "<< /Type /Page " + ("/Parent " + parent + " 0 R ") + "/MediaBox [0 0 612 792] "
            + ("/Resources << /Font << /F1 " + font + " 0 R >> >> ") + ("/Contents " + content + " 0 R >>")
         == "<< " + EntryText("Type", NameText("Page"), EntryText("Parent", parent + " 0 R ",
              EntryText("MediaBox", "[0 0 612 792] ", EntryText("Resources", "<< /Font << /F1 " + font + " 0 R >> >> ",
              EntryText("Contents", content + " 0 R ", ">>" + "")))))
  {
    var a, b, c := "<< /Type /Page ", "/Parent " + parent + " 0 R ", "/MediaBox [0 0 612 792] ";
    var d := "/Resources << /Font << /F1 " + font + " 0 R >> >> ";
    var e5 := EntryText("Contents", content + " 0 R ", ">>" + "");
    ContentsPrinted(content);
    var e4 := EntryText("Resources", "<< /Font << /F1 " + font + " 0 R >> >> ", e5);
    ResourcesEntry(font, e5);
    var e3 := EntryText("MediaBox", "[0 0 612 792] ", e4);
    assert NameText("MediaBox") + "[0 0 612 792] " == c;
    var e2 := EntryText("Parent", parent + " 0 R ", e3);
    ParentEntry(parent, e3);
    assert "<< " + (NameText("Type") + NameText("Page")) == a;
    Regroup3("<< ", NameText("Type") + NameText("Page"), e2);
    Regroup(a, b, c, d);
    Regroup3(a + b + c, d, e5);
    Regroup(a, b, c, d + e5);
  }

  lemma ContentsPrinted(content: string)
    ensures EntryText("Contents", content + " 0 R ", ">>" + "") == "/Contents " + content + " 0 R >>"
  {
  }

  lemma ResourcesEntry(font: string, after: string)
    ensures EntryText("Resources", "<< /Font << /F1 " + font + " 0 R >> >> ", after)
         == "/Resources << /Font << /F1 " + font + " 0 R >> >> " + after
  {
    assert NameText("Resources") + "<< /Font << /F1 " == "/Resources << /Font << /F1 ";
    Regroup3(NameText("Resources"), "<< /Font << /F1 ", font);
    Regroup3(NameText("Resources"), "<< /Font << /F1 " + font, " 0 R >> >> ");
  }

  lemma ParentEntry(parent: string, after: string)
    ensures EntryText("Parent", parent + " 0 R ", after) == "/Parent " + parent + " 0 R " + after
  {
  }
}
