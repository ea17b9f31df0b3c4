/**
 The main results about the PDF writer: what it writes is read back line by line, the
 cross-reference table is exact, and every reference resolves.
 */
module PdfReport {
  import opened Text
  import opened PdfSyntax
  import opened PdfWriter
  import opened PdfReader
  import opened PdfObjects
  import opened PdfContent
  import opened PdfRoundTrip

  // ---------- The numbering of objects ----------

  lemma {:induction false} ContentObjectAt(pages: seq<seq<string>>, j: nat)
    requires j < |pages|
    ensures ContentObjects(pages)[j] == ContentObject(StreamText(pages[j]))
  {
    if j > 0 { ContentObjectAt(pages[1..], j - 1); }
  }

  lemma {:induction false} PageObjectAt(contents: seq<nat>, parent: nat, font: nat, j: nat)
    requires j < |contents|
    ensures PageObjects(contents, parent, font)[j] == PageObject(parent, font, contents[j])
  {
    if j > 0 { PageObjectAt(contents[1..], parent, font, j - 1); }
  }

  /** Object 1 is the font, then come the contents, the page tree, the pages and the catalog; the
      numbers that page tree, pages and catalog mention are the numbers of what they mean. */
  lemma Numbering(pages: seq<seq<string>>)
    ensures var os, n := Objects(pages), |pages|;
      && |os| == 2 * n + 3
      && os[0] == FONT
      && (forall i :: 1 <= i <= n ==> os[i] == ContentObject(StreamText(pages[i - 1])))
      && os[n + 1] == PagesObject(n, KidsText(Range(n + 3, n)))
      && (forall i :: n + 2 <= i < 2 * n + 2 ==> os[i] == PageObject(n + 2, 1, i - n))
      && os[2 * n + 2] == CatalogObject(n + 2)
  {
    hide CatalogId, CatalogObject, ContentObject, ContentObjects, Dec, FONT, IsDigit, Join, KidsText, LineOps;
    var os, n := Objects(pages), |pages|;
    var contents, tree := ContentObjects(pages), PagesObject(n, KidsText(Range(n + 3, n)));
    var leaves := PageObjects(Range(2, n), PagesId(n), 1);
    assert os == [FONT] + contents + [tree] + leaves + [CatalogObject(PagesId(n))];
    forall i | 1 <= i <= n
      ensures os[i] == ContentObject(StreamText(pages[i - 1]))
    {
      ContentObjectAt(pages, i - 1);
    }
    forall i | n + 2 <= i < 2 * n + 2
      ensures os[i] == PageObject(n + 2, 1, i - n)
    {
      PageObjectAt(Range(2, n), PagesId(n), 1, i - n - 2);
      assert os[i] == leaves[i - n - 2];
    }
  }

  // ---------- Walking the page tree ----------

  function SlotsOf(os: seq<string>): (slots: seq<Slot>)
    ensures |slots| == |os| + 1
  {
    [Free] + Slots(Offsets(os, 1, |HEADER|))
  }

  ghost predicate Stands(v: string, slots: seq<Slot>, id: nat, payload: string) {
    exists after :: StandsAt(v, slots, id, payload, after)
  }

  /** The objects, numbered from `id`, are all found through their slots. */
  ghost predicate AllStand(v: string, slots: seq<Slot>, os: seq<string>, id: nat) {
    os == [] || (Stands(v, slots, id, os[0]) && AllStand(v, slots, os[1..], id + 1))
  }

  lemma {:induction false} OneStands(v: string, slots: seq<Slot>, os: seq<string>, id: nat, k: nat)
    requires AllStand(v, slots, os, id) && k < |os|
    ensures Stands(v, slots, id + k, os[k])
  {
    if k > 0 { OneStands(v, slots, os[1..], id + 1, k - 1); }
  }

  lemma {:induction false} ObjectsStand(os: seq<string>, root: nat, k: nat)
    requires k <= |os|
    ensures AllStand(FileText(os, root), SlotsOf(os), os[k..], k + 1)
    decreases |os| - k
  {
    if k < |os| {
      var after := ObjectAtOffset(os, root, k + 1);
      assert StandsAt(FileText(os, root), SlotsOf(os), k + 1, os[k], after);
      ObjectsStand(os, root, k + 1);
      assert os[k..][1..] == os[k + 1..];
    }
  }

  lemma ReadDict(v: string, slots: seq<Slot>, id: nat, payload: string, val: Val, kind: string)
    requires Stands(v, slots, id, payload)
    requires val.DictVal? && Lookup(val.entries, "Type") == Some(NameVal(kind))
    requires Lexes(payload, Tokens(val))
    ensures ReadTyped(v, slots, RefVal(id, 0), kind) == Some(val.entries)
  {
    var after :| StandsAt(v, slots, id, payload, after);
    ReadPlain(v, slots, id, payload, val, after);
  }

  lemma PageLookups(parent: nat, font: nat, content: nat)
    ensures var es := PageVal(parent, font, content).entries;
      && Lookup(es, "Type") == Some(NameVal("Page"))
      && Lookup(es, "Parent") == Some(RefVal(parent, 0))
      && Lookup(es, "Resources") == Some(ResourcesVal(font))
      && Lookup(es, "Contents") == Some(RefVal(content, 0))
  {
    var es := PageVal(parent, font, content).entries;
    assert "Type"[0] != "Parent"[0] && "Parent"[0] != "Contents"[0] && "Resources"[0] != "Contents"[0];
    assert "Resources"[0] != "Type"[0] && "Resources"[0] != "Parent"[0] && "MediaBox"[0] !in {'T', 'P', 'R', 'C'};
    assert Lookup(es.others.others.others, "Resources") == Some(ResourcesVal(font));
    assert Lookup(es.others.others.others.others, "Contents") == Some(RefVal(content, 0));
    assert Lookup(es.others.others.others, "Contents") == Some(RefVal(content, 0));
    assert Lookup(es.others, "Contents") == Lookup(es.others.others, "Contents");
    assert Lookup(es.others, "Resources") == Lookup(es.others.others, "Resources");
  }

  lemma FontFound(v: string, slots: seq<Slot>, parent: nat, content: nat)
    requires Stands(v, slots, 1, FONT)
    ensures HasFont(v, slots, PageVal(parent, 1, content).entries)
  {
    FontLexes();
    assert Lookup(FONT_VAL.entries, "Type") == Some(NameVal("Font"));
    ReadDict(v, slots, 1, FONT, FONT_VAL, "Font");
    PageLookups(parent, 1, content);
    FontLookups();
  }

  lemma FontLookups()
    ensures var fonts := DictVal(Entry("F1", RefVal(1, 0), NoEntries));
      && Lookup(ResourcesVal(1).entries, "Font") == Some(fonts)
      && Lookup(fonts.entries, "F1") == Some(RefVal(1, 0))
  {
  }

  /** The content stream of page `j` reads back as its lines, from the top of the page down. */
  lemma ReadsContent(page: seq<string>)
    requires AllNoReturns(page)
    ensures ReadContent(StreamText(page)) == Some(Placed(page, 756))
  {
    StreamLexes(page);
    assert Next("").None?;
    ExecuteSetup(LineTokens(page, true) + [ET]);
    ExecuteLines(page, true, 756);
    SetupFirst(page);
  }

  lemma SetupFirst(page: seq<string>)
    ensures PageTokens(page) == SETUP + (LineTokens(page, true) + [ET])
  {
  }

  lemma ExecuteSetup(rest: seq<Token>)
    ensures Execute(SETUP + rest, [], START) == Execute(rest, [], LineState(756))
  {
    var st1 := START.(inText := true, x := 0, y := 0);
    ExecuteOne(BT, [], [Name("F1"), Num(10), TF] + ([Num(36), Num(756), TD] + ([Num(12)] + [TL] + [])) + rest, START, st1);
    var st2 := st1.(font := Some("F1"));
    ExecuteOne(TF, [Name("F1"), Num(10)], [Num(36), Num(756), TD] + ([Num(12)] + [TL] + []) + rest, st1, st2);
    var st3 := st2.(x := 36, y := 756);
    ExecuteOne(TD, [Num(36), Num(756)], [Num(12)] + [TL] + [] + rest, st2, st3);
    ExecuteOne(TL, [Num(12)], rest, st3, LineState(756));
    SetupSplit(rest);
  }

  lemma SetupSplit(rest: seq<Token>)
    ensures SETUP + rest == [] + [BT] + ([Name("F1"), Num(10), TF] + ([Num(36), Num(756), TD] + ([Num(12)] + [TL] + [])) + rest)
    ensures [Name("F1"), Num(10), TF] + ([Num(36), Num(756), TD] + ([Num(12)] + [TL] + [])) + rest
         == [Name("F1"), Num(10)] + [TF] + ([Num(36), Num(756), TD] + ([Num(12)] + [TL] + []) + rest)
    ensures [Num(36), Num(756), TD] + ([Num(12)] + [TL] + []) + rest == [Num(36), Num(756)] + [TD] + ([Num(12)] + [TL] + [] + rest)
    ensures [Num(12)] + [TL] + [] + rest == [Num(12)] + [TL] + rest
  {
  }

  /** Operands and an operator that shows nothing. */
  lemma ExecuteOne(op: Token, args: seq<Token>, rest: seq<Token>, st: TextState, next: TextState)
    requires op.Key? && |args| <= 2 && forall i :: 0 <= i < |args| ==> !args[i].Key?
    requires Operate(op.word, args, st) == Some((next, []))
    ensures Execute(args + [op] + rest, [], st) == Execute(rest, [], next)
  {
    PushArgs(args, [], [op] + rest, st);
    assert args + [op] + rest == args + ([op] + rest);
    assert [] + args == args;
    assert ([op] + rest)[1..] == rest;
    var later := Execute(rest, [], next);
    assert later.Some? ==> [] + later.value == later.value;
  }

  lemma {:induction false} PushArgs(args: seq<Token>, pushed: seq<Token>, rest: seq<Token>, st: TextState)
    requires forall i :: 0 <= i < |args| ==> !args[i].Key?
    ensures Execute(args + rest, pushed, st) == Execute(rest, pushed + args, st)
  {
    if args == [] {
      assert args + rest == rest && pushed + args == pushed;
    } else {
      assert (args + rest)[1..] == args[1..] + rest;
      PushArgs(args[1..], pushed + [args[0]], rest, st);
      assert pushed + [args[0]] + args[1..] == pushed + args;
    }
  }

  /** One page, reached through its object and its content object. */
  lemma ReadsPage(v: string, slots: seq<Slot>, id: nat, parent: nat, content: nat, page: seq<string>)
    requires AllNoReturns(page)
    requires Stands(v, slots, 1, FONT)
    requires Stands(v, slots, id, PageObject(parent, 1, content))
    requires Stands(v, slots, content, ContentObject(StreamText(page)))
    ensures ReadPage(v, slots, RefVal(id, 0), RefVal(parent, 0)) == Some(Placed(page, 756))
  {
    PageLexes(parent, 1, content);
    PageLookups(parent, 1, content);
    ReadDict(v, slots, id, PageObject(parent, 1, content), PageVal(parent, 1, content), "Page");
    FontFound(v, slots, parent, content);
    ReadsContentObject(v, slots, content, StreamText(page));
    ReadsContent(page);
  }

  lemma ReadsContentObject(v: string, slots: seq<Slot>, content: nat, stream: string)
    requires Stands(v, slots, content, ContentObject(stream))
    ensures ReadObject(v, slots, content) == Some(Object(LengthVal(|stream|), Some(stream)))
  {
    var after :| StandsAt(v, slots, content, ContentObject(stream), after);
    ReadContents(v, slots, content, stream, after);
  }

  /** Every page's lines, each page from the top down. */
  function PlacedPages(pages: seq<seq<string>>): (shown: seq<seq<Shown>>)
    ensures |shown| == |pages|
    ensures forall i :: 0 <= i < |pages| ==> shown[i] == Placed(pages[i], 756)
  {
    if pages == [] then [] else [Placed(pages[0], 756)] + PlacedPages(pages[1..])
  }

  predicate PagesNoReturns(pages: seq<seq<string>>) {
    pages == [] || (AllNoReturns(pages[0]) && PagesNoReturns(pages[1..]))
  }

  /** The pages' objects, numbered from `first`, and their contents, numbered from `content`. */
  ghost predicate PagesStand(v: string, slots: seq<Slot>, pages: seq<seq<string>>, first: nat, parent: nat,
                             content: nat) {
    pages == [] || (
      && Stands(v, slots, first, PageObject(parent, 1, content))
      && Stands(v, slots, content, ContentObject(StreamText(pages[0])))
      && PagesStand(v, slots, pages[1..], first + 1, parent, content + 1))
  }

  lemma PageStands(v: string, slots: seq<Slot>, pages: seq<seq<string>>, k: nat)
    requires AllStand(v, slots, Objects(pages), 1) && k < |pages|
    ensures Stands(v, slots, |pages| + 3 + k, PageObject(|pages| + 2, 1, k + 2))
    ensures Stands(v, slots, k + 2, ContentObject(StreamText(pages[k])))
  {
    hide FONT, IsDigit, Join, KidsText, Objects, PageObject;
    var os, n := Objects(pages), |pages|;
    Numbering(pages);
    assert os[k + 1] == ContentObject(StreamText(pages[k]));
    assert os[n + 2 + k] == PageObject(n + 2, 1, n + 2 + k - n);
    OneStands(v, slots, os, 1, n + 2 + k);
    OneStands(v, slots, os, 1, k + 1);
  }

  lemma {:induction false} AllPagesStand(v: string, slots: seq<Slot>, pages: seq<seq<string>>, k: nat)
    requires AllStand(v, slots, Objects(pages), 1) && k <= |pages|
    ensures PagesStand(v, slots, pages[k..], |pages| + 3 + k, |pages| + 2, k + 2)
    decreases |pages| - k
  {
    if k < |pages| {
      PageStands(v, slots, pages, k);
      AllPagesStand(v, slots, pages, k + 1);
      assert pages[k..][1..] == pages[k + 1..];
    }
  }

  lemma {:induction false} ReadsKids(v: string, slots: seq<Slot>, pages: seq<seq<string>>, first: nat,
                                     parent: nat, content: nat)
    requires PagesNoReturns(pages)
    requires Stands(v, slots, 1, FONT)
    requires PagesStand(v, slots, pages, first, parent, content)
    ensures ReadKids(v, slots, RefItems(Range(first, |pages|)), RefVal(parent, 0)) == Some(PlacedPages(pages))
  {
    hide PageObject, ReadPage, Wrapped;
    if pages != [] {
      assert Range(first, |pages|)[1..] == Range(first + 1, |pages| - 1);
      ReadsPage(v, slots, first, parent, content, pages[0]);
      ReadsKids(v, slots, pages[1..], first + 1, parent, content + 1);
    }
  }

  lemma TreeLookups(pages: nat, ids: seq<nat>)
    ensures var es := PagesVal(pages, ids).entries;
      && Lookup(es, "Type") == Some(NameVal("Pages"))
      && Lookup(es, "Count") == Some(IntVal(pages))
      && Lookup(es, "Kids") == Some(ArrayVal(RefItems(ids)))
    ensures Lookup(CatalogVal(pages).entries, "Type") == Some(NameVal("Catalog"))
    ensures Lookup(CatalogVal(pages).entries, "Pages") == Some(RefVal(pages, 0))
  {
    var es := PagesVal(pages, ids).entries;
    assert "Type"[0] != "Count"[0] && "Type"[0] != "Kids"[0] && "Count"[0] != "Kids"[0] && "Pages"[0] != "Type"[0];
    assert Lookup(es.others.others, "Kids") == Some(ArrayVal(RefItems(ids)));
    assert Lookup(es.others, "Kids") == Lookup(es.others.others, "Kids");
  }

  predicate CatalogLeadsTo(v: string, slots: seq<Slot>, root: Val, ref: Val) {
    var catalog := ReadTyped(v, slots, root, "Catalog");
    catalog.Some? && Lookup(catalog.value, "Pages") == Some(ref)
  }

  predicate TreeHolds(v: string, slots: seq<Slot>, ref: Val, kids: Items, count: nat) {
    var tree := ReadTyped(v, slots, ref, "Pages");
    tree.Some? && Lookup(tree.value, "Kids") == Some(ArrayVal(kids)) && Lookup(tree.value, "Count") == Some(IntVal(count))
  }

  predicate KidsShow(v: string, slots: seq<Slot>, kids: Items, ref: Val, pages: seq<seq<Shown>>) {
    ReadKids(v, slots, kids, ref) == Some(pages)
  }

  lemma TreeFrom(v: string, slots: seq<Slot>, root: Val, ref: Val, kids: Items, pages: seq<seq<Shown>>)
    requires CatalogLeadsTo(v, slots, root, ref)
    requires TreeHolds(v, slots, ref, kids, |pages|)
    requires KidsShow(v, slots, kids, ref, pages)
    ensures ReadTree(v, slots, root) == Some(pages)
  {
  }

  /** From the catalog to every line. */
  lemma ReadsTree(v: string, slots: seq<Slot>, pages: seq<seq<string>>)
    requires PagesNoReturns(pages)
    requires AllStand(v, slots, Objects(pages), 1)
    ensures ReadTree(v, slots, RefVal(CatalogId(|pages|), 0)) == Some(PlacedPages(pages))
  {
    ReadsCatalog(v, slots, pages);
    ReadsPageTree(v, slots, pages);
    ReadsAllKids(v, slots, pages);
    TreeFrom(v, slots, RefVal(CatalogId(|pages|), 0), RefVal(|pages| + 2, 0),
             RefItems(Range(|pages| + 3, |pages|)), PlacedPages(pages));
  }

  lemma ReadsAllKids(v: string, slots: seq<Slot>, pages: seq<seq<string>>)
    requires PagesNoReturns(pages)
    requires AllStand(v, slots, Objects(pages), 1)
    ensures KidsShow(v, slots, RefItems(Range(|pages| + 3, |pages|)), RefVal(|pages| + 2, 0), PlacedPages(pages))
  {
    hide ReadPage, RefTexts, Stands, StreamText;
    AllPagesStand(v, slots, pages, 0);
    assert pages[0..] == pages;
    FontStands(v, slots, pages);
    ReadsKids(v, slots, pages, |pages| + 3, |pages| + 2, 2);
  }

  lemma FontStands(v: string, slots: seq<Slot>, pages: seq<seq<string>>)
    requires AllStand(v, slots, Objects(pages), 1)
    ensures Stands(v, slots, 1, FONT)
  {
    Numbering(pages);
    OneStands(v, slots, Objects(pages), 1, 0);
  }

  lemma CatalogStands(v: string, slots: seq<Slot>, pages: seq<seq<string>>)
    requires AllStand(v, slots, Objects(pages), 1)
    ensures Stands(v, slots, CatalogId(|pages|), CatalogObject(|pages| + 2))
    ensures Stands(v, slots, |pages| + 2, PagesObject(|pages|, KidsText(Range(|pages| + 3, |pages|))))
  {
    var os, n := Objects(pages), |pages|;
    Numbering(pages);
    OneStands(v, slots, os, 1, 2 * n + 2);
    OneStands(v, slots, os, 1, n + 1);
  }

  lemma ReadsCatalog(v: string, slots: seq<Slot>, pages: seq<seq<string>>)
    requires AllStand(v, slots, Objects(pages), 1)
    ensures CatalogLeadsTo(v, slots, RefVal(CatalogId(|pages|), 0), RefVal(|pages| + 2, 0))
  {
    CatalogStands(v, slots, pages);
    CatalogLexes(|pages| + 2);
    TreeLookups(|pages| + 2, []);
    ReadDict(v, slots, CatalogId(|pages|), CatalogObject(|pages| + 2), CatalogVal(|pages| + 2), "Catalog");
  }

  lemma ReadsPageTree(v: string, slots: seq<Slot>, pages: seq<seq<string>>)
    requires AllStand(v, slots, Objects(pages), 1)
    ensures TreeHolds(v, slots, RefVal(|pages| + 2, 0), RefItems(Range(|pages| + 3, |pages|)), |pages|)
  {
    var ids := Range(|pages| + 3, |pages|);
    CatalogStands(v, slots, pages);
    PagesLexes(|pages|, ids);
    TreeLookups(|pages|, ids);
    ReadDict(v, slots, |pages| + 2, PagesObject(|pages|, KidsText(ids)), PagesVal(|pages|, ids), "Pages");
  }
}
