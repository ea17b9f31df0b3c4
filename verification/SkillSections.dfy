/** Every section of a skill page, as a reader finds it line by line. */
module SkillSections {
  import opened Text
  import opened TextLines
  import opened PromptSections
  import SkillPages
  import Prompts
  import PromptResults

  /** Headings, each with the lines below it, one after the other. */
  function Laid(parts: seq<(string, seq<string>)>): seq<string> {
    if parts == [] then [] else [parts[0].0] + (parts[0].1 + Laid(parts[1..]))
  }

  predicate DistinctHeadings(parts: seq<(string, seq<string>)>) {
    && (forall i :: 0 <= i < |parts| ==> IsHeading(parts[i].0))
    && forall i, j :: 0 <= i < j < |parts| ==> parts[i].0 != parts[j].0
  }

  predicate QuietBodies(parts: seq<(string, seq<string>)>) { forall i :: 0 <= i < |parts| ==> NoHeading(parts[i].1) }

  /** Each section reads as its own lines. */
  lemma {:induction false} PartRead(front: seq<string>, parts: seq<(string, seq<string>)>, k: nat)
    requires k < |parts| && DistinctHeadings(parts) && QuietBodies(parts)
    requires forall i :: 0 <= i < |parts| ==> parts[i].0 !in front
    ensures Section(front + Laid(parts), parts[k].0) == Some(parts[k].1)
    decreases k
  {
    hide IsHeading, NoHeading, Section;
    var (h, body) := parts[0];
    var more := parts[1..];
    LaidStarts(more);
    if k == 0 {
      SectionStands(front, h, body, Laid(more));
    } else {
      var next := front + ([h] + body);
      forall i | 0 <= i < |more|
        ensures more[i].0 !in next
      {
        assert more[i] == parts[i + 1];
        NotAmong(body, more[i].0);
      }
      assert forall i :: 0 <= i < |more| ==> more[i] == parts[i + 1];
      PartRead(next, more, k - 1);
      Regroup3(front, [h] + body, Laid(more));
      Regroup3([h], body, Laid(more));
    }
  }

  lemma LaidStarts(parts: seq<(string, seq<string>)>)
    requires forall i :: 0 <= i < |parts| ==> IsHeading(parts[i].0)
    ensures Laid(parts) == [] || IsHeading(Laid(parts)[0])
  {
  }

  // ---------- The sections of a page ----------

  function Body(s: SkillPages.Skill, bridge: string, k: nat): seq<string>
    requires k < 9
  {
    match k
    case 0 => ["", s.purpose, "", bridge, ""]
    case 1 => Between(SkillPages.Dashes(s.useWhen))
    case 2 => Between(SkillPages.Steps(s.workflow, 1))
    case 3 => ["", "Tools:"] + SkillPages.Dashes(s.tools) + (["", "Resources:"] + SkillPages.Dashes(s.resources) + [""])
    case 4 => Between(SkillPages.Dashes(s.output))
    case 5 => ["", s.approval, ""]
    case 6 => Between(SkillPages.Dashes(s.never))
    case 7 => ["", s.fallback, ""]
    case _ => ["", "`" + s.example + "`", ""]
  }

  const HEADINGS := ["## Purpose", "## Use when", "## Workflow", "## Mission Control calls", "## User-facing output",
                     "## Approval behavior", "## Never do", "## Failure and fallback", "## Example invocation"]

  function Parts(s: SkillPages.Skill, bridge: string): seq<(string, seq<string>)> {
    [ (HEADINGS[0], Body(s, bridge, 0)), (HEADINGS[1], Body(s, bridge, 1)), (HEADINGS[2], Body(s, bridge, 2)),
      (HEADINGS[3], Body(s, bridge, 3)), (HEADINGS[4], Body(s, bridge, 4)), (HEADINGS[5], Body(s, bridge, 5)),
      (HEADINGS[6], Body(s, bridge, 6)), (HEADINGS[7], Body(s, bridge, 7)), (HEADINGS[8], Body(s, bridge, 8)) ]
  }

  /** All fields are on one line, and those that make up a line begin no section. */
  predicate Plain(s: SkillPages.Skill, bridge: string) {
    && OneLine(s.name) && OneLine(s.title) && OneLine(s.description) && OneLine(s.purpose) && OneLine(bridge)
    && OneLine(s.approval) && OneLine(s.fallback) && OneLine(s.example)
    && AllOneLine(s.useWhen) && AllOneLine(s.workflow) && AllOneLine(s.tools) && AllOneLine(s.resources)
    && AllOneLine(s.output) && AllOneLine(s.never)
    && !IsHeading(s.purpose) && !IsHeading(bridge) && !IsHeading(s.approval) && !IsHeading(s.fallback)
  }

  predicate AllOneLine(lines: seq<string>) { forall i :: 0 <= i < |lines| ==> OneLine(lines[i]) }

  lemma HeadingLengths()
    ensures |HEADINGS| == 9
    ensures var h := HEADINGS;
      && |h[0]| == 10 && |h[1]| == 11 && |h[2]| == 11 && |h[3]| == 24 && |h[4]| == 21
      && |h[5]| == 20 && |h[6]| == 11 && |h[7]| == 23 && |h[8]| == 21
  {
  }

  lemma HeadingLetters()
    requires |HEADINGS| == 9 && |HEADINGS[1]| > 3 && |HEADINGS[2]| > 3 && |HEADINGS[4]| > 3 && |HEADINGS[6]| > 3 && |HEADINGS[8]| > 3
    ensures var h := HEADINGS; h[1][3] == 'U' && h[2][3] == 'W' && h[4][3] == 'U' && h[6][3] == 'N' && h[8][3] == 'E'
  {
  }

  lemma HeadingsBegin()
    requires |HEADINGS| == 9
    ensures forall i :: 0 <= i < 9 ==> IsHeading(HEADINGS[i])
  {
  }

  lemma HeadingsDiffer()
    ensures |HEADINGS| == 9 && (forall i :: 0 <= i < 9 ==> IsHeading(HEADINGS[i]))
    ensures forall i, j :: 0 <= i < j < 9 ==> HEADINGS[i] != HEADINGS[j]
  {
    hide HEADINGS, IsHeading;
    HeadingLengths();
    HeadingLetters();
    HeadingsBegin();
  }

  // ---------- Bodies ----------

  lemma DashQuiet(item: string)
    requires OneLine(item)
    ensures OneLine("- " + item) && !IsHeading("- " + item)
  {
    assert ("- " + item)[0] == '-';
  }

  lemma DashesQuiet(items: seq<string>)
    requires AllOneLine(items)
    ensures AllOneLine(SkillPages.Dashes(items)) && NoHeading(SkillPages.Dashes(items))
  {
    hide OneLine, IsHeading;
    forall i | 0 <= i < |items|
      ensures OneLine(SkillPages.Dashes(items)[i]) && !IsHeading(SkillPages.Dashes(items)[i])
    {
      DashQuiet(items[i]);
    }
  }

  lemma StepQuiet(k: nat, item: string)
    requires OneLine(item)
    ensures OneLine(Dec(k) + ". " + item) && !IsHeading(Dec(k) + ". " + item)
  {
    var d := Dec(k);
    assert (d + ". " + item)[0] == d[0] && IsDigit(d[0]);
    assert forall i :: 0 <= i < |d| ==> IsDigit(d[i]);
  }

  lemma StepsQuiet(items: seq<string>)
    requires AllOneLine(items)
    ensures AllOneLine(SkillPages.Steps(items, 1)) && NoHeading(SkillPages.Steps(items, 1))
  {
    hide OneLine, IsHeading, Dec;
    forall i | 0 <= i < |items|
      ensures OneLine(SkillPages.Steps(items, 1)[i]) && !IsHeading(SkillPages.Steps(items, 1)[i])
    {
      StepQuiet(1 + i, items[i]);
    }
  }

  lemma FixedQuiet()
    ensures OneLine("") && !IsHeading("") && OneLine("Tools:") && !IsHeading("Tools:")
    ensures OneLine("Resources:") && !IsHeading("Resources:")
  {
    assert "Tools:"[0] == 'T' && "Resources:"[0] == 'R';
  }

  lemma QuietAppend(a: seq<string>, b: seq<string>)
    requires AllOneLine(a) && NoHeading(a) && AllOneLine(b) && NoHeading(b)
    ensures AllOneLine(a + b) && NoHeading(a + b)
  {
    hide OneLine, IsHeading;
  }

  lemma ExampleQuiet(example: string)
    requires OneLine(example)
    ensures OneLine("`" + example + "`") && !IsHeading("`" + example + "`")
  {
    assert ("`" + example + "`")[0] == '`';
  }

  lemma BodyQuiet(s: SkillPages.Skill, bridge: string, k: nat)
    requires Plain(s, bridge) && k < 9
    ensures AllOneLine(Body(s, bridge, k)) && NoHeading(Body(s, bridge, k))
  {
    hide OneLine, IsHeading, SkillPages.Dashes, SkillPages.Steps;
    FixedQuiet();
    DashesQuiet(s.useWhen);
    DashesQuiet(s.tools);
    DashesQuiet(s.resources);
    DashesQuiet(s.output);
    DashesQuiet(s.never);
    StepsQuiet(s.workflow);
    ExampleQuiet(s.example);
    if k == 3 {
      QuietAppend(["", "Tools:"], SkillPages.Dashes(s.tools));
      QuietAppend(["", "Resources:"], SkillPages.Dashes(s.resources));
      QuietAppend(["", "Resources:"] + SkillPages.Dashes(s.resources), [""]);
      QuietAppend(["", "Tools:"] + SkillPages.Dashes(s.tools), ["", "Resources:"] + SkillPages.Dashes(s.resources) + [""]);
    }
  }

  // ---------- The page ----------

  lemma FrontQuiet(s: SkillPages.Skill)
    requires OneLine(s.name) && OneLine(s.description) && OneLine(s.title)
    ensures AllOneLine(SkillPages.Front(s)) && NoHeading(SkillPages.Front(s)) && SkillPages.Front(s) != []
  {
    FrontLine("name: ", s.name);
    FrontLine("description: ", s.description);
    FrontLine("# ", s.title);
    assert "---"[0] == '-' && "name: "[0] == 'n';
  }

  lemma FrontLine(key: string, value: string)
    requires OneLine(key) && |key| > 1 && (key[0] != '#' || key[1] != '#') && OneLine(value)
    ensures OneLine(key + value) && !IsHeading(key + value)
  {
    assert (key + value)[0] == key[0] && (key + value)[1] == key[1];
  }

  /** The lines of a page are those of its parts, below the front matter. */
  lemma PageParts(s: SkillPages.Skill, bridge: string)
    ensures SkillPages.Page(s, bridge) == Join(SkillPages.Front(s) + Laid(Parts(s, bridge)), "\n")
  {
    hide Join, SkillPages.Front, SkillPages.PurposeBody, SkillPages.UseWhenBody, SkillPages.WorkflowBody,
         SkillPages.CallsBody, SkillPages.Dashes, SkillPages.Steps;
    HeadingTexts();
    BodiesAre(s, bridge);
    RestParts(s);
    LaidNine(Parts(s, bridge));
  }

  lemma BodiesAre(s: SkillPages.Skill, bridge: string)
    ensures Body(s, bridge, 0) == SkillPages.PurposeBody(s, bridge) && Body(s, bridge, 1) == SkillPages.UseWhenBody(s)
    ensures Body(s, bridge, 2) == SkillPages.WorkflowBody(s) && Body(s, bridge, 3) == SkillPages.CallsBody(s)
  {
    hide SkillPages.Dashes, SkillPages.Steps;
  }

  lemma HeadingTexts()
    ensures SkillPages.Heading("Purpose") == HEADINGS[0] && SkillPages.Heading("Use when") == HEADINGS[1]
    ensures SkillPages.Heading("Workflow") == HEADINGS[2] && SkillPages.Heading("Mission Control calls") == HEADINGS[3]
    ensures SkillPages.Heading("User-facing output") == HEADINGS[4]
  {
    hide HEADINGS, SkillPages.Heading;
    FirstTexts();
    CallsText();
    OutputText();
  }

  lemma FirstTexts()
    ensures |HEADINGS| == 9 && SkillPages.Heading("Purpose") == HEADINGS[0]
    ensures SkillPages.Heading("Use when") == HEADINGS[1] && SkillPages.Heading("Workflow") == HEADINGS[2]
  {
  }

  lemma CallsText()
    ensures |HEADINGS| == 9 && SkillPages.Heading("Mission Control calls") == HEADINGS[3]
  {
  }

  lemma OutputText()
    ensures |HEADINGS| == 9 && SkillPages.Heading("User-facing output") == HEADINGS[4]
  {
  }

  /** The lines behind the heading of the output, section by section. */
  lemma RestParts(s: SkillPages.Skill)
    ensures SkillPages.Rest(s) == Between(SkillPages.Dashes(s.output)) + ([HEADINGS[5]] + (["", s.approval, ""]
              + ([HEADINGS[6]] + (Between(SkillPages.Dashes(s.never)) + ([HEADINGS[7]] + (["", s.fallback, ""]
              + ([HEADINGS[8]] + ["", "`" + s.example + "`", ""])))))))
  {
    hide SkillPages.Dashes;
    var o, n := SkillPages.Dashes(s.output), SkillPages.Dashes(s.never);
    var z := ["", HEADINGS[7], "", s.fallback, "", HEADINGS[8], "", "`" + s.example + "`", ""];
    assert SkillPages.Rest(s) == [""] + o + ["", HEADINGS[5], "", s.approval, "", HEADINGS[6], ""] + n + z;
    RestPieces(o, HEADINGS[5], s.approval, HEADINGS[6], n, HEADINGS[7], s.fallback, HEADINGS[8], "`" + s.example + "`");
  }

  lemma RestPieces(o: seq<string>, h5: string, a: string, h6: string, n: seq<string>, h7: string, f: string,
                   h8: string, e: string)
    ensures [""] + o + ["", h5, "", a, "", h6, ""] + n + ["", h7, "", f, "", h8, "", e, ""]
         == Between(o) + ([h5] + (["", a, ""] + ([h6] + (Between(n) + ([h7] + (["", f, ""] + ([h8] + ["", e, ""])))))))
  {
    var z := [h7] + (["", f, ""] + ([h8] + ["", e, ""]));
    assert n + ["", h7, "", f, "", h8, "", e, ""] == n + [""] + z;
    assert [""] + n + [""] + z == Between(n) + z;
    var y := [h5] + (["", a, ""] + ([h6] + (Between(n) + z)));
    assert ["", h5, "", a, "", h6, ""] + (n + [""] + z) == [""] + y;
    assert [""] + o + ([""] + y) == Between(o) + y;
    Regroup3([""] + o, ["", h5, "", a, "", h6, ""], n + ["", h7, "", f, "", h8, "", e, ""]);
    Regroup3([""] + o + ["", h5, "", a, "", h6, ""], n, ["", h7, "", f, "", h8, "", e, ""]);
  }

  lemma LaidMore(p: (string, seq<string>), more: seq<(string, seq<string>)>)
    ensures Laid([p] + more) == [p.0] + (p.1 + Laid(more))
  {
    assert ([p] + more)[1..] == more;
  }

  lemma LaidNine(ps: seq<(string, seq<string>)>)
    requires |ps| == 9
    ensures Laid(ps) == [ps[0].0] + (ps[0].1 + ([ps[1].0] + (ps[1].1 + ([ps[2].0] + (ps[2].1 + ([ps[3].0] + (ps[3].1
              + ([ps[4].0] + (ps[4].1 + ([ps[5].0] + (ps[5].1 + ([ps[6].0] + (ps[6].1 + ([ps[7].0] + (ps[7].1
              + ([ps[8].0] + ps[8].1))))))))))))))))
  {
    hide Laid;
    forall k | 0 <= k < 9
      ensures Laid(ps[k..]) == [ps[k].0] + (ps[k].1 + Laid(ps[k + 1..]))
    {
      LaidMore(ps[k], ps[k + 1..]);
      assert ps[k..] == [ps[k]] + ps[k + 1..];
    }
    LaidNothing();
    assert ps[0..] == ps && ps[9..] == [];
    assert ps[8].1 + [] == ps[8].1;
  }

  lemma LaidNothing()
    ensures Laid([]) == []
  {
  }

  lemma AppendOneLine(h: string, a: seq<string>, b: seq<string>)
    requires OneLine(h) && AllOneLine(a) && AllOneLine(b)
    ensures AllOneLine([h] + (a + b))
  {
    hide OneLine;
  }

  lemma NothingOneLine()
    ensures AllOneLine([])
  {
  }

  lemma {:induction false} LaidOneLine(parts: seq<(string, seq<string>)>)
    requires forall i :: 0 <= i < |parts| ==> OneLine(parts[i].0) && AllOneLine(parts[i].1)
    ensures AllOneLine(Laid(parts))
  {
    hide OneLine, AllOneLine;
    NothingOneLine();
    if parts != [] {
      LaidOneLine(parts[1..]);
      AppendOneLine(parts[0].0, parts[0].1, Laid(parts[1..]));
    }
  }

  lemma HeadingsOneLine()
    requires |HEADINGS| == 9
    ensures forall i :: 0 <= i < 9 ==> OneLine(HEADINGS[i])
  {
    hide HEADINGS, OneLine;
    FirstHeadings();
    LastHeadings();
  }

  lemma FirstHeadings()
    requires |HEADINGS| == 9
    ensures forall i :: 0 <= i < 5 ==> OneLine(HEADINGS[i])
  {
    assert OneLine(HEADINGS[0]) && OneLine(HEADINGS[1]) && OneLine(HEADINGS[2]) && OneLine(HEADINGS[3]) && OneLine(HEADINGS[4]);
  }

  lemma LastHeadings()
    requires |HEADINGS| == 9
    ensures forall i :: 5 <= i < 9 ==> OneLine(HEADINGS[i])
  {
    assert OneLine(HEADINGS[5]) && OneLine(HEADINGS[6]) && OneLine(HEADINGS[7]) && OneLine(HEADINGS[8]);
  }

  /** The lines of a page. */
  lemma PageLinesAre(s: SkillPages.Skill, bridge: string)
    requires Plain(s, bridge)
    ensures Lines(SkillPages.Page(s, bridge)) == SkillPages.Front(s) + Laid(Parts(s, bridge))
  {
    hide OneLine, IsHeading, Body, HEADINGS, SkillPages.Front, SkillPages.Page, Laid, Lines, NoHeading, AllOneLine, Join;
    var parts, front := Parts(s, bridge), SkillPages.Front(s);
    HeadingsDiffer();
    HeadingsOneLine();
    FrontQuiet(s);
    forall i | 0 <= i < 9
      ensures parts[i] == (HEADINGS[i], Body(s, bridge, i)) && AllOneLine(parts[i].1)
    {
      PartIs(s, bridge, i);
      BodyQuiet(s, bridge, i);
    }
    LaidOneLine(parts);
    PageLines(front, parts);
    PageParts(s, bridge);
  }

  /** The page begins with its front matter, the name and the description, and the title. */
  lemma FrontReads(s: SkillPages.Skill, bridge: string)
    requires Plain(s, bridge)
    ensures var lines := Lines(SkillPages.Page(s, bridge));
      && |lines| > 6 && lines[0] == "---" && lines[1] == "name: " + s.name && lines[2] == "description: " + s.description
      && lines[3] == "---" && lines[4] == "" && lines[5] == "# " + s.title && lines[6] == ""
  {
    hide Plain, SkillPages.Page, Laid, Lines, Parts;
    PageLinesAre(s, bridge);
  }

  /** Every section of a page reads as what was printed there: the purpose and the bridge, the uses, the numbered
      steps, the tools and resources, the output, the approval, what never to do, the fallback and the example. */
  lemma EverySectionReads(s: SkillPages.Skill, bridge: string, k: nat)
    requires Plain(s, bridge) && k < 9
    ensures Section(Lines(SkillPages.Page(s, bridge)), HEADINGS[k]) == Some(Body(s, bridge, k))
  {
    hide OneLine, IsHeading, Body, HEADINGS, SkillPages.Front, SkillPages.Page, Laid, Section, Lines, NoHeading,
         AllOneLine, Join;
    var parts, front := Parts(s, bridge), SkillPages.Front(s);
    HeadingsDiffer();
    FrontQuiet(s);
    forall i | 0 <= i < 9
      ensures parts[i] == (HEADINGS[i], Body(s, bridge, i)) && NoHeading(parts[i].1) && HEADINGS[i] !in front
    {
      PartIs(s, bridge, i);
      BodyQuiet(s, bridge, i);
      NotAmong(front, HEADINGS[i]);
    }
    PageLinesAre(s, bridge);
    PartRead(front, parts, k);
  }

  lemma PartIs(s: SkillPages.Skill, bridge: string, i: nat)
    requires i < 9
    ensures Parts(s, bridge)[i] == (HEADINGS[i], Body(s, bridge, i))
  {
    hide HEADINGS, Body;
  }

  lemma PageLines(front: seq<string>, parts: seq<(string, seq<string>)>)
    requires AllOneLine(front) && AllOneLine(Laid(parts)) && front != []
    ensures Lines(Join(front + Laid(parts), "\n")) == front + Laid(parts)
  {
    hide OneLine, Join, Lines, Laid, LinesOf;
    LinesJoined(front + Laid(parts));
    LinesOfOneLine(front + Laid(parts));
  }

  // ---------- Numbered items ----------

  lemma FrontOf(a: string, b: string)
    ensures forall i :: 0 <= i < |a| ==> (a + b)[i] == a[i]
  {
  }

  /** The first dot and blank in a numbered line stand behind its number. */
  lemma DotBehindNumber(d: string, item: string)
    requires AllDigits(d)
    ensures Prompts.Find(d + ". " + item, ". ") == Some(|d|)
  {
    var line := d + ". " + item;
    assert line == d + (". " + item);
    FrontOf(d, ". " + item);
    assert line[|d|..|d| + 2] == ". ";
    forall j: nat | j < |d|
      ensures !At(line, j, ". ")
    {
      assert IsDigit(line[j]) && line[j..j + 2][0] == line[j];
    }
    PromptResults.FindIs(line, ". ", |d|);
  }

  lemma {:induction false} TwoDigits(n: nat)
    ensures |Dec(n)| > 1 <==> n >= 10
  {
  }

  /** The steps that a page prints are read as list items only from the tenth on: the test looks at the first two
      characters of a line, and behind one digit there is the dot. */
  lemma NumberedItem(n: nat, item: string)
    ensures SkillPages.ItemOf(Dec(n) + ". " + item) == if n >= 10 then [Strip(item)] else []
  {
    hide Strip, Prompts.Find;
    var d := Dec(n);
    var line := d + ". " + item;
    TwoDigits(n);
    DotBehindNumber(d, item);
    assert line == d + (". " + item);
    FrontOf(d, ". " + item);
    assert IsDigit(d[0]) && line[0] == d[0];
    assert n >= 10 ==> IsDigit(d[1]) && line[1] == d[1];
    assert n < 10 ==> line[1] == '.';
    assert line[|d| + 2..] == item;
    OtherFront(line);
  }

  lemma OtherFront(line: string)
    requires line != "" && IsDigit(line[0])
    ensures !("- " <= line)
  {
  }
}
