/** The sections of a prompt file, as a reader finds them line by line. */
module PromptSections {
  import opened Text
  import opened TextLines
  import opened Prompts

  // ---------- Reading ----------

  /** A line that begins a section. */
  predicate IsHeading(line: string) { "## " <= line }

  /** The lines behind the first one that is `heading`. */
  function Behind(lines: seq<string>, heading: string): Option<seq<string>> {
    if lines == [] then None
    else if lines[0] == heading then Some(lines[1..])
    else Behind(lines[1..], heading)
  }

  /** The lines before the next heading. */
  function UpTo(lines: seq<string>): seq<string> {
    if lines == [] || IsHeading(lines[0]) then [] else [lines[0]] + UpTo(lines[1..])
  }

  /** The lines of a section; the last section goes to the end of the file. */
  function Section(lines: seq<string>, heading: string): Option<seq<string>> {
    var behind := Behind(lines, heading);
    if behind.None? then None else Some(UpTo(behind.value))
  }

  /** The name in a list entry. */
  function ReadItem(line: string): seq<string> {
    if |line| > 3 && line[..3] == "- `" && line[|line| - 1] == '`' then [line[3..|line| - 1]] else []
  }

  function ReadItems(lines: seq<string>): seq<string> {
    if lines == [] then [] else ReadItem(lines[0]) + ReadItems(lines[1..])
  }

  // ---------- The lines of a prompt file ----------

  /** The lines of each text, one behind the other. */
  function LinesOf(texts: seq<string>): seq<string> {
    if texts == [] then [] else Lines(texts[0]) + LinesOf(texts[1..])
  }

  lemma {:induction false} LinesTwo(a: string, b: string)
    ensures Lines(a + ("\n" + b)) == Lines(a) + Lines(b)
    decreases |a|
  {
    hide Lines, OneLine;
    var l, t := CutFirst(a);
    if OneLine(a) {
      LinesFirst(a, b);
      LinesAlone(a);
    } else {
      LinesTwo(t, b);
      LinesFirst(l, t);
      LinesFirst(l, t + ("\n" + b));
      Regroup3(l, "\n" + t, "\n" + b);
      Regroup3("\n", t, "\n" + b);
      Regroup3([l], Lines(t), Lines(b));
    }
  }

  lemma {:induction false} LinesJoined(texts: seq<string>)
    requires texts != []
    ensures Lines(Join(texts, "\n")) == LinesOf(texts)
  {
    hide Lines;
    if |texts| == 1 {
      assert Lines(texts[0]) + [] == Lines(texts[0]);
    } else {
      LinesJoined(texts[1..]);
      LinesTwo(texts[0], Join(texts[1..], "\n"));
      Regroup3(texts[0], "\n", Join(texts[1..], "\n"));
    }
  }

  lemma {:induction false} LinesOfMore(a: seq<string>, b: seq<string>)
    ensures LinesOf(a + b) == LinesOf(a) + LinesOf(b)
  {
    hide Lines;
    if a == [] {
      assert a + b == b;
    } else {
      assert (a + b)[1..] == a[1..] + b;
      LinesOfMore(a[1..], b);
      Regroup3(Lines(a[0]), LinesOf(a[1..]), LinesOf(b));
    }
  }

  lemma {:induction false} LinesOfOneLine(texts: seq<string>)
    requires forall i :: 0 <= i < |texts| ==> OneLine(texts[i])
    ensures LinesOf(texts) == texts
  {
    hide Lines, OneLine;
    if texts != [] {
      LinesAlone(texts[0]);
      LinesOfOneLine(texts[1..]);
    }
  }

  // ---------- Sections ----------

  lemma {:induction false} BehindFirst(front: seq<string>, heading: string, more: seq<string>)
    requires heading !in front
    ensures Behind(front + ([heading] + more), heading) == Some(more)
  {
    var all := front + ([heading] + more);
    if front == [] {
      assert all == [heading] + more;
      assert all[1..] == more;
    } else {
      assert all[1..] == front[1..] + ([heading] + more);
      BehindFirst(front[1..], heading, more);
    }
  }

  predicate NoHeading(lines: seq<string>) { forall i :: 0 <= i < |lines| ==> !IsHeading(lines[i]) }

  lemma {:induction false} UpToNext(body: seq<string>, more: seq<string>)
    requires NoHeading(body) && (more == [] || IsHeading(more[0]))
    ensures UpTo(body + more) == body
  {
    if body == [] {
      assert body + more == more;
    } else {
      assert (body + more)[1..] == body[1..] + more;
      UpToNext(body[1..], more);
    }
  }

  lemma SectionStands(front: seq<string>, heading: string, body: seq<string>, more: seq<string>)
    requires heading !in front && NoHeading(body) && (more == [] || IsHeading(more[0]))
    ensures Section(front + ([heading] + (body + more)), heading) == Some(body)
  {
    hide IsHeading, NoHeading;
    BehindFirst(front, heading, body + more);
    UpToNext(body, more);
  }

  // ---------- Items ----------

  lemma ReadBullet(item: string)
    ensures ReadItem("- `" + item + "`") == [item]
  {
    var line := "- `" + item + "`";
    assert line[3..|line| - 1] == item;
  }

  lemma {:induction false} ReadBullets(items: seq<string>)
    ensures ReadItems(Bullets(items)) == items
  {
    hide ReadItem;
    if items != [] {
      ReadBullet(items[0]);
      ReadBullets(items[1..]);
      assert (["- `" + items[0] + "`"] + Bullets(items[1..]))[1..] == Bullets(items[1..]);
      assert items == [items[0]] + items[1..];
    }
  }

  lemma {:induction false} ReadItemsMore(a: seq<string>, b: seq<string>)
    ensures ReadItems(a + b) == ReadItems(a) + ReadItems(b)
  {
    hide ReadItem;
    if a == [] {
      assert a + b == b;
    } else {
      assert (a + b)[1..] == a[1..] + b;
      ReadItemsMore(a[1..], b);
      Regroup3(ReadItem(a[0]), ReadItems(a[1..]), ReadItems(b));
    }
  }

  /** The list of a section, between its two empty lines, reads as the items; the sentence that stands there
      when there are none reads as none. */
  lemma ReadSection(items: seq<string>, otherwise: string)
    requires |otherwise| > 2 && otherwise[2] != '`'
    ensures ReadItems([""] + Items(items, otherwise) + [""]) == items
  {
    hide ReadItem, Bullets;
    ReadNone(otherwise);
    ReadItemsMore([""] + Items(items, otherwise), [""]);
    ReadItemsMore([""], Items(items, otherwise));
    ReadBullets(items);
    ReadOneItem("");
    ReadOneItem(otherwise);
  }

  lemma ReadOneItem(line: string)
    ensures ReadItems([line]) == ReadItem(line)
  {
    hide ReadItem;
    assert [line][1..] == [];
  }

  lemma ReadNone(otherwise: string)
    requires |otherwise| > 2 && otherwise[2] != '`'
    ensures ReadItem(otherwise) == [] && ReadItem("") == []
  {
    if |otherwise| > 3 { assert otherwise[..3][2] != "- `"[2]; }
  }

  // ---------- The whole file ----------

  const RESOURCES := "## Resource Sequence"
  const SAFETY := "## Safety Notes"
  const TEXT := "## Prompt Text"
  const PURPOSE := "## Purpose"

  /** No line of the text begins a section. */
  predicate Quiet(s: string) { NoHeading(Lines(s)) }

  /** The title, the names and the items are on one line, and the description and the safety notes begin no section. */
  predicate Plain(p: Prompt) {
    && OneLine(Title(p)) && OneLine(p.name)
    && (forall i :: 0 <= i < |p.tools| ==> OneLine(p.tools[i]))
    && (forall i :: 0 <= i < |p.resources| ==> OneLine(p.resources[i]))
    && Quiet(Strip(p.description)) && Quiet(Strip(p.safety))
  }

  /** What stands in front of the prompt's own text. */
  function Front(p: Prompt, stem: string): seq<string> {
    HeadLines(p, stem) + (Purpose(p) + ([MARKER]
      + ([""] + Items(p.tools, NO_TOOLS) + ["", RESOURCES, ""] + Items(p.resources, NO_RESOURCES)
         + ["", SAFETY, ""] + [Or(p.safety, NO_SAFETY), ""] + [TEXT, ""])))
  }

  lemma FrontThenText(p: Prompt, stem: string)
    ensures HeadLines(p, stem) + (Purpose(p) + ([MARKER] + Contract(p))) == Front(p, stem) + [Or(p.text, NO_TEXT)] + [""]
  {
    hide HeadLines, Purpose, MARKER, Items, Or, RESOURCES, SAFETY, TEXT, NO_TOOLS, NO_RESOURCES, NO_SAFETY, NO_TEXT;
    ContractParts(p);
    var a := [""] + Items(p.tools, NO_TOOLS) + ["", RESOURCES, ""] + Items(p.resources, NO_RESOURCES)
             + ["", SAFETY, ""] + [Or(p.safety, NO_SAFETY), ""];
    var t := [Or(p.text, NO_TEXT)] + [""];
    ShiftEnd(HeadLines(p, stem), Purpose(p), [MARKER], a, [TEXT, ""], [Or(p.text, NO_TEXT)], [""]);
  }

  lemma ContractParts(p: Prompt)
    ensures Contract(p) == [""] + Items(p.tools, NO_TOOLS) + ["", RESOURCES, ""] + Items(p.resources, NO_RESOURCES)
             + ["", SAFETY, ""] + [Or(p.safety, NO_SAFETY), ""] + ([TEXT, ""] + [Or(p.text, NO_TEXT)] + [""])
  {
    hide Items, Or;
    assert [TEXT, ""] + [Or(p.text, NO_TEXT)] + [""] == [TEXT, "", Or(p.text, NO_TEXT), ""];
  }

  lemma ShiftEnd<T>(h: seq<T>, p: seq<T>, m: seq<T>, a: seq<T>, t: seq<T>, x: seq<T>, z: seq<T>)
    ensures h + (p + (m + (a + (t + x + z)))) == (h + (p + (m + (a + t)))) + x + z
  {
    Regroup3(t, x, z);
    Regroup3(a, t, x + z);
    Regroup3(m, a + t, x + z);
    Regroup3(p, m + (a + t), x + z);
    Regroup3(h, p + (m + (a + t)), x + z);
    Regroup3(h + (p + (m + (a + t))), x, z);
  }

  lemma StripEnd(x: string, o: string)
    requires x != "" && !IsSpace(x[0]) && o != "" && !IsSpace(o[|o| - 1])
    ensures Strip(x + o + "\n") == x + o
  {
    var s := x + o + "\n";
    assert s[0] == x[0] && Lead(s) == 0 && s[0..] == s;
    assert s[..|s| - 1] == x + o;
    assert (x + o)[|x + o| - 1] == o[|o| - 1];
    assert Trail(s) == |x + o|;
  }

  lemma OrIsSolid(s: string, otherwise: string)
    requires otherwise != "" && !IsSpace(otherwise[|otherwise| - 1])
    ensures Or(s, otherwise) != "" && !IsSpace(Or(s, otherwise)[|Or(s, otherwise)| - 1])
  {
    hide IsSpace;
  }

  /** Stripping the joined lines takes away the last line feed, which is put back. */
  lemma RenderIsJoined(p: Prompt, stem: string)
    ensures Render(p, stem) == Join(Front(p, stem) + [Or(p.text, NO_TEXT)] + [""], "\n")
  {
    hide Front, Or, IsSpace, Strip, Contract, Purpose, MARKER, NO_TEXT;
    var front, o := Front(p, stem), Or(p.text, NO_TEXT);
    FrontThenText(p, stem);
    JoinIsFeed(front + [o], "");
    FeedLast(front, o);
    assert Feed(front) + o + "\n" + "" == Feed(front) + o + "\n";
    NoTextIsSolid();
    OrIsSolid(p.text, NO_TEXT);
    FrontStarts(p, stem);
    StripEnd(Feed(front), o);
  }

  lemma NoTextIsSolid()
    ensures NO_TEXT != "" && !IsSpace(NO_TEXT[|NO_TEXT| - 1])
  {
  }

  lemma FrontStarts(p: Prompt, stem: string)
    ensures Feed(Front(p, stem)) != "" && !IsSpace(Feed(Front(p, stem))[0])
  {
    hide Contract, Purpose, MARKER, Title, Items, Or;
    assert Front(p, stem)[0] == "# " + Title(p);
  }

  // ---------- Its lines ----------

  /** The lines between two headings. */
  function Between(body: seq<string>): seq<string> { [""] + body + [""] }

  function Opening(p: Prompt, stem: string): seq<string> { LinesOf(HeadLines(p, stem)) + LinesOf(Purpose(p)) }

  /** The four sections, one below the other. */
  function Sections(t: seq<string>, r: seq<string>, s: seq<string>, x: seq<string>): seq<string> {
    [MARKER] + (Between(t) + ([RESOURCES] + (Between(r) + ([SAFETY] + (Between(s) + ([TEXT] + Between(x)))))))
  }

  lemma HeadingLines()
    ensures OneLine(MARKER) && OneLine(RESOURCES) && OneLine(SAFETY) && OneLine(TEXT) && OneLine("")
  {
  }

  lemma {:induction false} BulletsOneLine(items: seq<string>)
    requires forall i :: 0 <= i < |items| ==> OneLine(items[i])
    ensures forall i :: 0 <= i < |Bullets(items)| ==> OneLine(Bullets(items)[i])
  {
    if items != [] {
      BulletsOneLine(items[1..]);
      OneLineItem(items[0]);
    }
  }

  lemma OneLineItem(item: string)
    requires OneLine(item)
    ensures OneLine("- `" + item + "`")
  {
  }

  lemma ItemsLines(items: seq<string>, otherwise: string)
    requires OneLine(otherwise) && forall i :: 0 <= i < |items| ==> OneLine(items[i])
    ensures LinesOf(Items(items, otherwise)) == Items(items, otherwise)
  {
    hide OneLine, Bullets, LinesOf;
    BulletsOneLine(items);
    LinesOfOneLine(Items(items, otherwise));
  }

  lemma NoneLines()
    ensures OneLine(NO_TOOLS) && |NO_TOOLS| > 2 && NO_TOOLS[0] == '-' && NO_TOOLS[2] == 'N'
    ensures OneLine(NO_RESOURCES) && |NO_RESOURCES| > 2 && NO_RESOURCES[0] == '-' && NO_RESOURCES[2] == 'N'
  {
  }

  lemma OneText(s: string)
    ensures LinesOf([s]) == Lines(s)
  {
    hide Lines;
    assert [s][1..] == [] && Lines(s) + [] == Lines(s);
  }

  lemma FixedLines(texts: seq<string>)
    requires forall i :: 0 <= i < |texts| ==> OneLine(texts[i])
    ensures LinesOf(texts) == texts
  {
    hide OneLine, LinesOf;
    LinesOfOneLine(texts);
  }

  /** The lines of the contract. */
  lemma ContractLines(t: seq<string>, r: seq<string>, safety: string, text: string)
    requires LinesOf(t) == t && LinesOf(r) == r
    ensures LinesOf([MARKER] + ([""] + t + ["", RESOURCES, ""] + r + ["", SAFETY, ""] + [safety, ""] + [TEXT, ""]) + [text] + [""])
         == Sections(t, r, Lines(safety), Lines(text))
  {
    hide LinesOf, Lines, MARKER, RESOURCES, SAFETY, TEXT, OneLine;
    HeadingLines();
    OneText(safety);
    OneText(text);
    FixedLines([MARKER]);
    FixedLines([""]);
    FixedLines(["", RESOURCES, ""]);
    FixedLines(["", SAFETY, ""]);
    FixedLines([TEXT, ""]);
    assert [safety, ""] == [safety] + [""];
    LinesOfMore([safety], [""]);
    var a := [""] + t;
    var b := a + ["", RESOURCES, ""];
    var c := b + r;
    var d := c + ["", SAFETY, ""];
    var e := d + [safety, ""];
    var f := e + [TEXT, ""];
    LinesOfMore([""], t);
    LinesOfMore(a, ["", RESOURCES, ""]);
    LinesOfMore(b, r);
    LinesOfMore(c, ["", SAFETY, ""]);
    LinesOfMore(d, [safety, ""]);
    LinesOfMore(e, [TEXT, ""]);
    LinesOfMore([MARKER], f);
    LinesOfMore([MARKER] + f, [text]);
    LinesOfMore([MARKER] + f + [text], [""]);
    SectionPieces(MARKER, t, RESOURCES, r, SAFETY, Lines(safety), TEXT, Lines(text));
  }

  lemma SectionPieces(m: string, t: seq<string>, r0: string, r: seq<string>, s0: string, s: seq<string>, x0: string, x: seq<string>)
    ensures [m] + ([""] + t + ["", r0, ""] + r + ["", s0, ""] + (s + [""]) + [x0, ""]) + x + [""]
         == [m] + (Between(t) + ([r0] + (Between(r) + ([s0] + (Between(s) + ([x0] + Between(x)))))))
  {
    var z := [x0] + Between(x);
    var y := [s0] + (Between(s) + z);
    assert [m] + ([""] + t + ["", r0, ""] + r + ["", s0, ""] + (s + [""]) + [x0, ""]) + x + [""]
        == [m] + ([""] + t + ["", r0, ""] + r + ["", s0, ""] + (s + [""]) + z);
    assert [""] + t + ["", r0, ""] + r + ["", s0, ""] + (s + [""]) + z == [""] + t + ["", r0, ""] + r + [""] + y;
    assert [""] + t + ["", r0, ""] + r + [""] + y == Between(t) + ([r0] + (Between(r) + y));
  }

  lemma FileLines(p: Prompt, stem: string)
    requires Plain(p)
    ensures Lines(Render(p, stem))
         == Opening(p, stem) + Sections(Items(p.tools, NO_TOOLS), Items(p.resources, NO_RESOURCES),
                                        Lines(Or(p.safety, NO_SAFETY)), Lines(Or(p.text, NO_TEXT)))
  {
    hide LinesOf, Lines, MARKER, RESOURCES, SAFETY, TEXT, NO_TOOLS, NO_RESOURCES, NO_SAFETY, NO_TEXT, OneLine, Render,
         HeadLines, Purpose, Or, Items, Sections, Quiet, Join;
    RenderIsJoined(p, stem);
    LinesJoined(Front(p, stem) + [Or(p.text, NO_TEXT)] + [""]);
    NoneLines();
    ItemsLines(p.tools, NO_TOOLS);
    ItemsLines(p.resources, NO_RESOURCES);
    var t, r := Items(p.tools, NO_TOOLS), Items(p.resources, NO_RESOURCES);
    var c := [""] + t + ["", RESOURCES, ""] + r + ["", SAFETY, ""] + [Or(p.safety, NO_SAFETY), ""] + [TEXT, ""];
    ContractLines(t, r, Or(p.safety, NO_SAFETY), Or(p.text, NO_TEXT));
    var z := [MARKER] + c + [Or(p.text, NO_TEXT)] + [""];
    FrontGroups(HeadLines(p, stem), Purpose(p), [MARKER] + c, [Or(p.text, NO_TEXT)], [""]);
    LinesOfMore(HeadLines(p, stem) + Purpose(p), z);
    LinesOfMore(HeadLines(p, stem), Purpose(p));
  }

  lemma FrontGroups<T>(h: seq<T>, p: seq<T>, c: seq<T>, x: seq<T>, z: seq<T>)
    ensures h + (p + c) + x + z == (h + p) + (c + x + z)
  {
    Regroup3(h, p, c);
    Regroup3(h + p, c, x);
    Regroup3(h + p, c + x, z);
  }

  // ---------- What is in front of the sections ----------

  lemma {:induction false} BulletsQuiet(items: seq<string>)
    ensures NoHeading(Bullets(items))
  {
    if items != [] {
      BulletsQuiet(items[1..]);
      NoHeadingItem(items[0]);
    }
  }

  lemma NoHeadingItem(item: string)
    ensures !IsHeading("- `" + item + "`")
  {
    assert ("- `" + item + "`")[0] == '-';
  }

  lemma ItemsQuiet(items: seq<string>, otherwise: string)
    requires otherwise != "" && otherwise[0] == '-'
    ensures NoHeading(Between(Items(items, otherwise)))
  {
    hide Bullets;
    BulletsQuiet(items);
  }

  lemma TextQuiet(s: string)
    requires Quiet(s)
    ensures NoHeading(Between(Lines(s)))
  {
    hide Lines;
  }

  lemma QuietLine(front: string, name: string, back: string)
    requires OneLine(front) && |front| > 1 && (front[0] != '#' || front[1] != '#') && OneLine(name) && OneLine(back)
    ensures OneLine(front + name + back) && !IsHeading(front + name + back)
  {
    var l := front + name + back;
    assert l[0] == front[0] && l[1] == front[1];
  }

  lemma HeadPieces()
    ensures OneLine("# ") && OneLine("Alias for `") && OneLine("`.") && OneLine("Canonical prompt: `")
    ensures OneLine("Invocation name: `") && OneLine("`") && OneLine("") && !IsHeading("")
  {
  }

  lemma HeadLinesQuiet(p: Prompt, stem: string)
    requires OneLine(Title(p)) && OneLine(p.name) && OneLine(stem)
    ensures LinesOf(HeadLines(p, stem)) == HeadLines(p, stem) && NoHeading(HeadLines(p, stem))
  {
    hide Title, LinesOf, OneLine, IsHeading;
    HeadPieces();
    QuietLine("# ", Title(p), "");
    assert "# " + Title(p) + "" == "# " + Title(p);
    QuietLine("Alias for `", p.name, "`.");
    QuietLine("Canonical prompt: `", p.name, "`");
    QuietLine("Invocation name: `", stem, "`");
    SixLines("# " + Title(p), "", Notice(p, stem), "Canonical prompt: `" + p.name + "`", "Invocation name: `" + stem + "`", "");
  }

  lemma SixLines(a: string, b: string, c: string, d: string, e: string, f: string)
    requires OneLine(a) && OneLine(b) && OneLine(c) && OneLine(d) && OneLine(e) && OneLine(f)
    requires !IsHeading(a) && !IsHeading(b) && !IsHeading(c) && !IsHeading(d) && !IsHeading(e) && !IsHeading(f)
    ensures LinesOf([a, b, c, d, e, f]) == [a, b, c, d, e, f] && NoHeading([a, b, c, d, e, f])
  {
    hide OneLine, IsHeading, LinesOf;
    LinesOfOneLine([a, b, c, d, e, f]);
  }

  lemma PurposeLines(p: Prompt)
    ensures LinesOf(Purpose(p)) == if Strip(p.description) != "" then [PURPOSE] + Between(Lines(Strip(p.description))) else []
  {
    hide Lines, Strip, LinesOf, OneLine;
    var d := Strip(p.description);
    if d != "" {
      PurposeOneLine();
      FixedLines([PURPOSE, ""]);
      FixedLines([""]);
      OneText(d);
      LinesOfMore([PURPOSE, ""], [d] + [""]);
      LinesOfMore([d], [""]);
      assert Purpose(p) == [PURPOSE, ""] + ([d] + [""]);
      assert [PURPOSE, ""] + (Lines(d) + [""]) == [PURPOSE] + Between(Lines(d));
    } else {
      NoTexts();
    }
  }

  lemma PurposeOneLine()
    ensures OneLine(PURPOSE) && OneLine("")
  {
  }

  lemma NoTexts()
    ensures LinesOf([]) == []
  {
  }

  // ---------- Reading the sections ----------

  lemma Headings()
    ensures IsHeading(MARKER) && IsHeading(RESOURCES) && IsHeading(SAFETY) && IsHeading(TEXT) && IsHeading(PURPOSE)
    ensures MARKER != RESOURCES && MARKER != SAFETY && MARKER != TEXT && MARKER != PURPOSE
    ensures RESOURCES != SAFETY && RESOURCES != TEXT && RESOURCES != PURPOSE
    ensures SAFETY != TEXT && SAFETY != PURPOSE && TEXT != PURPOSE
  {
    assert |MARKER| == 16 && |RESOURCES| == 20 && |SAFETY| == 15 && |TEXT| == 14 && |PURPOSE| == 10;
  }

  lemma NotAmong(lines: seq<string>, heading: string)
    requires NoHeading(lines) && IsHeading(heading)
    ensures heading !in lines
  {
    hide IsHeading;
  }

  /** Each of the sections reads as the lines between its heading and the next one, the last as those up to
      the end. */
  lemma SectionsStand(o: seq<string>, t: seq<string>, r: seq<string>, s: seq<string>, x: seq<string>)
    requires MARKER !in o && RESOURCES !in o && SAFETY !in o && TEXT !in o
    requires NoHeading(Between(t)) && NoHeading(Between(r)) && NoHeading(Between(s))
    ensures var lines := o + Sections(t, r, s, x);
      && Section(lines, MARKER) == Some(Between(t)) && Section(lines, RESOURCES) == Some(Between(r))
      && Section(lines, SAFETY) == Some(Between(s)) && Behind(lines, TEXT) == Some(Between(x))
  {
    hide MARKER, RESOURCES, SAFETY, TEXT, Between, NoHeading, IsHeading, Section, Behind;
    Headings();
    var z := [TEXT] + Between(x);
    var y := [SAFETY] + (Between(s) + z);
    var w := [RESOURCES] + (Between(r) + y);
    NotAmongAll(t, r, s);
    SectionStands(o, MARKER, Between(t), w);
    var o2 := o + ([MARKER] + Between(t));
    assert o + Sections(t, r, s, x) == o2 + w by {
      Regroup3(o, [MARKER] + Between(t), w);
      Regroup3([MARKER], Between(t), w);
    }
    SectionStands(o2, RESOURCES, Between(r), y);
    var o3 := o2 + ([RESOURCES] + Between(r));
    assert o2 + w == o3 + y by { Regroup3(o2, [RESOURCES] + Between(r), y); Regroup3([RESOURCES], Between(r), y); }
    SectionStands(o3, SAFETY, Between(s), z);
    var o4 := o3 + ([SAFETY] + Between(s));
    assert o3 + y == o4 + z by { Regroup3(o3, [SAFETY] + Between(s), z); Regroup3([SAFETY], Between(s), z); }
    BehindFirst(o4, TEXT, Between(x));
  }

  lemma NotAmongAll(t: seq<string>, r: seq<string>, s: seq<string>)
    requires NoHeading(Between(t)) && NoHeading(Between(r)) && NoHeading(Between(s))
    ensures RESOURCES !in Between(t) && SAFETY !in Between(t) && TEXT !in Between(t)
    ensures SAFETY !in Between(r) && TEXT !in Between(r) && TEXT !in Between(s)
  {
    hide MARKER, RESOURCES, SAFETY, TEXT, Between, NoHeading, IsHeading;
    Headings();
    NotAmong(Between(t), RESOURCES);
    NotAmong(Between(t), SAFETY);
    NotAmong(Between(t), TEXT);
    NotAmong(Between(r), SAFETY);
    NotAmong(Between(r), TEXT);
    NotAmong(Between(s), TEXT);
  }

  lemma OpeningHasNone(p: Prompt, stem: string)
    requires Plain(p) && OneLine(stem)
    ensures var o := Opening(p, stem); MARKER !in o && RESOURCES !in o && SAFETY !in o && TEXT !in o
  {
    hide MARKER, RESOURCES, SAFETY, TEXT, PURPOSE, Between, NoHeading, IsHeading, LinesOf, Lines, HeadLines, Strip,
         Purpose, OneLine;
    Headings();
    HeadLinesQuiet(p, stem);
    PurposeLines(p);
    var d := Between(Lines(Strip(p.description)));
    TextQuiet(Strip(p.description));
    NoneOf(HeadLines(p, stem));
    NoneOf(d);
  }

  lemma NoneOf(lines: seq<string>)
    requires NoHeading(lines)
    ensures MARKER !in lines && RESOURCES !in lines && SAFETY !in lines && TEXT !in lines && PURPOSE !in lines
  {
    hide MARKER, RESOURCES, SAFETY, TEXT, PURPOSE, NoHeading, IsHeading;
    Headings();
    NotAmong(lines, MARKER);
    NotAmong(lines, RESOURCES);
    NotAmong(lines, SAFETY);
    NotAmong(lines, TEXT);
    NotAmong(lines, PURPOSE);
  }

  /** The sections of a rendered prompt read back: the tools, the resources, the safety notes and the text, each
      under its own heading; and the purpose if there is a description. */
  lemma SectionsRead(p: Prompt, stem: string)
    requires Plain(p) && OneLine(stem)
    ensures var lines := Lines(Render(p, stem));
      && Section(lines, "## Tool Sequence").Some? && ReadItems(Section(lines, "## Tool Sequence").value) == p.tools
      && Section(lines, "## Resource Sequence").Some? && ReadItems(Section(lines, "## Resource Sequence").value) == p.resources
      && Section(lines, "## Safety Notes")
         == Some(Between(Lines(if Strip(p.safety) != "" then Strip(p.safety) else NO_SAFETY)))
      && Behind(lines, "## Prompt Text") == Some(Between(Lines(if Strip(p.text) != "" then Strip(p.text) else NO_TEXT)))
  {
    hide Lines, Section, Behind, ReadItems, Between, Render, Opening, Sections, Items, Quiet, NoHeading, OneLine, Strip,
         NO_TOOLS, NO_RESOURCES, NO_SAFETY, NO_TEXT;
    var t, r := Items(p.tools, NO_TOOLS), Items(p.resources, NO_RESOURCES);
    var s, x := Lines(Or(p.safety, NO_SAFETY)), Lines(Or(p.text, NO_TEXT));
    FileLines(p, stem);
    OpeningHasNone(p, stem);
    NoneLines();
    ItemsQuiet(p.tools, NO_TOOLS);
    ItemsQuiet(p.resources, NO_RESOURCES);
    SafetyQuiet(p);
    SectionsStand(Opening(p, stem), t, r, s, x);
    ItemsBetween(p.tools, NO_TOOLS);
    ItemsBetween(p.resources, NO_RESOURCES);
  }

  lemma ItemsBetween(items: seq<string>, otherwise: string)
    requires |otherwise| > 2 && otherwise[2] != '`'
    ensures ReadItems(Between(Items(items, otherwise))) == items
  {
    hide ReadItems, Items;
    ReadSection(items, otherwise);
  }

  lemma SafetyQuiet(p: Prompt)
    requires Quiet(Strip(p.safety))
    ensures NoHeading(Between(Lines(Or(p.safety, NO_SAFETY))))
  {
    hide Lines, Strip, IsHeading;
    TextQuiet(Strip(p.safety));
    if Strip(p.safety) == "" {
      NoSafetyLine();
      LinesAlone(NO_SAFETY);
    }
  }

  lemma NoSafetyLine()
    ensures OneLine(NO_SAFETY) && !IsHeading(NO_SAFETY) && !IsHeading("")
  {
    assert NO_SAFETY[0] == 'U';
  }

  /** The purpose stands under its heading, if there is one. */
  lemma PurposeRead(p: Prompt, stem: string)
    requires Plain(p) && OneLine(stem)
    ensures var d := Strip(p.description);
      d != "" ==> Section(Lines(Render(p, stem)), "## Purpose") == Some(Between(Lines(d)))
  {
    hide Lines, Section, Between, Render, Items, NoHeading, OneLine, Strip, HeadLines, LinesOf, IsHeading,
         MARKER, RESOURCES, SAFETY, TEXT, Purpose;
    var d := Strip(p.description);
    Headings();
    FileLines(p, stem);
    HeadLinesQuiet(p, stem);
    PurposeLines(p);
    NoneOf(HeadLines(p, stem));
    var rest := Sections(Items(p.tools, NO_TOOLS), Items(p.resources, NO_RESOURCES),
                         Lines(Or(p.safety, NO_SAFETY)), Lines(Or(p.text, NO_TEXT)));
    if d != "" {
      TextQuiet(d);
      SectionStands(HeadLines(p, stem), PURPOSE, Between(Lines(d)), rest);
      Regroup3(HeadLines(p, stem), [PURPOSE] + Between(Lines(d)), rest);
      Regroup3([PURPOSE], Between(Lines(d)), rest);
    }
  }

  // ---------- The title ----------

  predicate IsLetter(c: char) { 'a' <= c <= 'z' || 'A' <= c <= 'Z' }

  /** The letter in upper or lower case. */
  predicate IsCased(c: char, upper: bool, d: char) {
    if 'a' <= c <= 'z' && upper then d as int == c as int - 32
    else if 'A' <= c <= 'Z' && !upper then d as int == c as int + 32
    else d == c
  }

  /** `d` is what becomes of the `i`-th character of a name: a blank of an underscore or a hyphen, a capital of a
      letter that begins a word, and a small letter of any other. */
  predicate IsTitled(name: string, i: int, d: char)
    requires 0 <= i < |name|
  {
    if name[i] == '_' || name[i] == '-' then d == ' '
    else IsCased(name[i], i == 0 || !IsLetter(name[i - 1]), d)
  }

  lemma {:induction false} SpacedIs(s: string)
    ensures |Spaced(s)| == |s|
    ensures forall i :: 0 <= i < |s| ==> Spaced(s)[i] == if s[i] == '_' || s[i] == '-' then ' ' else s[i]
  {
    if s != "" {
      SpacedIs(s[1..]);
      assert forall i :: 0 < i < |s| ==> s[i] == s[1..][i - 1];
    }
  }

  lemma {:induction false} TitleCaseIs(s: string, inside: bool)
    ensures |TitleCase(s, inside)| == |s|
    ensures forall i :: 0 <= i < |s| ==>
              IsCased(s[i], if i == 0 then !inside else !IsLetter(s[i - 1]), TitleCase(s, inside)[i])
  {
    if s != "" {
      hide IsCased;
      var t := s[1..];
      TitleCaseIs(t, IsLetter(s[0]));
      FirstCased(s, inside);
      forall i | 0 < i < |s|
        ensures IsCased(s[i], !IsLetter(s[i - 1]), TitleCase(s, inside)[i])
      {
        assert s[i] == t[i - 1] && (i > 1 ==> s[i - 1] == t[i - 2]);
      }
    }
  }

  lemma FirstCased(s: string, inside: bool)
    requires s != ""
    ensures TitleCase(s, inside) != "" && IsCased(s[0], !inside, TitleCase(s, inside)[0])
    ensures TitleCase(s, inside)[1..] == TitleCase(s[1..], IsLetter(s[0]))
  {
  }

  /** The title that a prompt without one gets is its name, word by word. */
  lemma TitleTells(p: Prompt)
    ensures p.title != "" ==> Title(p) == p.title
    ensures p.title == "" ==> |Title(p)| == |p.name| && forall i :: 0 <= i < |p.name| ==> IsTitled(p.name, i, Title(p)[i])
  {
    hide TitleCase, Spaced;
    var s := Spaced(p.name);
    SpacedIs(p.name);
    TitleCaseIs(s, false);
    if p.title == "" {
      forall i | 0 <= i < |p.name|
        ensures IsTitled(p.name, i, Title(p)[i])
      {
        assert s[i] == if p.name[i] == '_' || p.name[i] == '-' then ' ' else p.name[i];
        assert IsCased(s[i], if i == 0 then true else !IsLetter(s[i - 1]), TitleCase(s, false)[i]);
        if i > 0 {
          assert s[i - 1] == if p.name[i - 1] == '_' || p.name[i - 1] == '-' then ' ' else p.name[i - 1];
          assert IsLetter(s[i - 1]) <==> IsLetter(p.name[i - 1]);
        }
      }
    }
  }
}
