/** The pages of the skills: printed from a skill, and read back section by section for the index. */
module SkillPages {
  import opened Text
  import TextWrap
  import opened Prompts
  import PromptResults
  import opened TextLines

  datatype Skill = Skill(name: string, title: string, description: string, purpose: string, useWhen: seq<string>,
                         workflow: seq<string>, tools: seq<string>, resources: seq<string>, output: seq<string>,
                         approval: string, never: seq<string>, fallback: string, example: string)

  // ---------- Printing ----------

  function Dashes(items: seq<string>): (r: seq<string>)
    ensures |r| == |items| && forall i :: 0 <= i < |items| ==> r[i] == "- " + items[i]
  {
    if items == [] then [] else ["- " + items[0]] + Dashes(items[1..])
  }

  function Steps(items: seq<string>, k: nat): (r: seq<string>)
    ensures |r| == |items| && forall i :: 0 <= i < |items| ==> r[i] == Dec(k + i) + ". " + items[i]
  {
    if items == [] then [] else [Dec(k) + ". " + items[0]] + Steps(items[1..], k + 1)
  }

  function Heading(h: string): string { "## " + h }

  /** The lines in front of the first section; `bridge` is the sentence that every page repeats. */
  function Front(s: Skill): seq<string> {
    ["---", "name: " + s.name, "description: " + s.description, "---", "", "# " + s.title, ""]
  }

  function PurposeBody(s: Skill, bridge: string): seq<string> { ["", s.purpose, "", bridge, ""] }

  function UseWhenBody(s: Skill): seq<string> { [""] + Dashes(s.useWhen) + [""] }

  function WorkflowBody(s: Skill): seq<string> { [""] + Steps(s.workflow, 1) + [""] }

  function CallsBody(s: Skill): seq<string> {
    ["", "Tools:"] + Dashes(s.tools) + (["", "Resources:"] + Dashes(s.resources) + [""])
  }

  function Rest(s: Skill): seq<string> {
    [""] + Dashes(s.output) + ["", "## Approval behavior", "", s.approval, "", "## Never do", ""] + Dashes(s.never)
    + ["", "## Failure and fallback", "", s.fallback, "", "## Example invocation", "", "`" + s.example + "`", ""]
  }

  /** The text of `SKILL.md`. */
  function Page(s: Skill, bridge: string): string {
    Join(Front(s) + ([Heading("Purpose")] + (PurposeBody(s, bridge) + ([Heading("Use when")] + (UseWhenBody(s)
      + ([Heading("Workflow")] + (WorkflowBody(s) + ([Heading("Mission Control calls")] + (CallsBody(s)
      + ([Heading("User-facing output")] + Rest(s)))))))))), "\n")
  }

  // ---------- Reading ----------

  const NEXT := "\n## "

  /** `_extract_section` */
  function Section(content: string, h: string): string {
    var r := Find(content, Heading(h));
    if r.None? then ""
    else
      var tail := content[r.value + |Heading(h)|..];
      var n := Find(tail, NEXT);
      Strip(if n.None? then tail else tail[..n.value])
  }

  /** The text behind the first `". "`, if there is one. */
  function AfterDot(line: string): Option<string> {
    var r := Find(line, ". ");
    if r.None? then None else Some(line[r.value + 2..])
  }

  /** The item of a trimmed line, if it is a list line. */
  function ItemOf(line: string): seq<string> {
    if "- " <= line then [Strip(line[2..])]
    else if line != "" && IsDigit(line[0]) && (|line| > 1 ==> IsDigit(line[1])) && AfterDot(line).Some? then
      [Strip(AfterDot(line).value)]
    else []
  }

  function ItemsOf(lines: seq<string>): seq<string> {
    if lines == [] then [] else ItemOf(Strip(lines[0])) + ItemsOf(lines[1..])
  }

  /** `_extract_list_items` */
  function ListItems(section: string): seq<string> { ItemsOf(TextWrap.SplitLines(section)) }

  datatype Summary = Summary(purpose: string, useWhen: string, primary: string)

  const SEE := "See SKILL.md"

  /** `_skill_summary` of a page */
  function Summarize(name: string, content: string): Summary {
    var purpose, uses := Section(content, "Purpose"), ListItems(Section(content, "Use when"));
    var calls := ListItems(Section(content, "Mission Control calls"));
    Summary(
      if purpose != "" then Strip(TextWrap.SplitLines(purpose)[0]) else name,
      if uses != [] then uses[0] else SEE,
      if calls != [] then Join(if |calls| > 4 then calls[..4] else calls, ", ") else SEE)
  }

  // ---------- Sections ----------

  /** The heading of the section does not occur in the text. */
  predicate Free(s: string, h: string) { Find(s, Heading(h)).None? }

  predicate AllFree(lines: seq<string>, marker: string) {
    forall i :: 0 <= i < |lines| ==> Find(lines[i], marker).None?
  }

  lemma {:induction false} FindBehindLines(lines: seq<string>, rest: seq<string>, marker: string)
    requires AllFree(lines, marker) && rest != [] && marker <= rest[0]
    requires PromptResults.NoSeparator(marker) && marker != ""
    ensures Find(Join(lines + rest, "\n"), marker) == Some(|Join(lines + rest, "\n")| - |Join(rest, "\n")|)
  {
    hide Find, PromptResults.NoSeparator;
    if lines == [] {
      assert lines + rest == rest;
      StartsWith(Join(rest, "\n"), rest, marker);
    } else {
      var more := lines[1..] + rest;
      assert (lines + rest)[1..] == more;
      FindBehindLines(lines[1..], rest, marker);
      PromptResults.FindPast(lines[0], '\n', Join(more, "\n"), marker);
    }
  }

  lemma StartsWith(text: string, rest: seq<string>, marker: string)
    requires rest != [] && marker <= rest[0] && text == Join(rest, "\n")
    ensures Find(text, marker) == Some(0)
  {
    assert text[0..|marker|] == rest[0][..|marker|];
    PromptResults.FindIs(text, marker, 0);
  }

  /** Lines of a section's body: on one line each, and no heading. */
  predicate BodyLines(lines: seq<string>) {
    forall i :: 0 <= i < |lines| ==> OneLine(lines[i]) && !("## " <= lines[i])
  }

  /** A line feed in front of each line. */
  function FedLines(lines: seq<string>): string { if lines == [] then "" else "\n" + lines[0] + FedLines(lines[1..]) }

  lemma {:induction false} JoinFed(line: string, lines: seq<string>)
    ensures Join([line] + lines, "\n") == line + FedLines(lines)
    decreases lines
  {
    assert ([line] + lines)[1..] == lines;
    if lines != [] {
      JoinFed(lines[0], lines[1..]);
      assert [lines[0]] + lines[1..] == lines;
    }
  }

  lemma {:induction false} FedAppend(a: seq<string>, b: seq<string>)
    ensures FedLines(a + b) == FedLines(a) + FedLines(b)
  {
    if a == [] {
      assert a + b == b;
    } else {
      assert (a + b)[1..] == a[1..] + b;
      FedAppend(a[1..], b);
    }
  }

  lemma NextFirst(after: string)
    requires NEXT <= after
    ensures Find(after, NEXT) == Some(0)
  {
    assert after[0..0 + |NEXT|] == after[..|NEXT|];
    PromptResults.FindIs(after, NEXT, 0);
  }

  /** Behind a section's lines the next heading is the first one found. */
  lemma {:induction false} FindNext(body: seq<string>, after: string)
    requires BodyLines(body) && NEXT <= after
    ensures Find(FedLines(body) + after, NEXT) == Some(|FedLines(body)|)
  {
    hide Find, OneLine, At;
    if body == [] {
      NextFirst(after);
      assert FedLines(body) + after == after;
    } else {
      var rest := FedLines(body[1..]) + after;
      FindNext(body[1..], after);
      FedStarts(body[1..], after);
      FoundAt("\n" + body[0], rest, body[0], |FedLines(body[1..])|);
      Regroup3("\n" + body[0], FedLines(body[1..]), after);
    }
  }

  lemma FedStarts(body: seq<string>, after: string)
    requires NEXT <= after
    ensures FedLines(body) + after != "" && (FedLines(body) + after)[0] == '\n'
  {
  }

  lemma AtBehind(front: string, rest: string, k: nat)
    requires At(rest, k, NEXT)
    ensures At(front + rest, |front| + k, NEXT)
  {
    assert (front + rest)[|front| + k..|front| + k + |NEXT|] == rest[k..k + |NEXT|];
  }

  lemma NoneBefore(line: string, rest: string, k: nat)
    requires OneLine(line) && !("## " <= line) && rest != "" && rest[0] == '\n' && k <= |rest|
    requires forall j :: 0 <= j < k ==> !At(rest, j, NEXT)
    ensures forall i :: 0 <= i < 1 + |line| + k ==> !At("\n" + line + rest, i, NEXT)
  {
    hide At, OneLine;
    forall i | 0 <= i < 1 + |line| + k
      ensures !At("\n" + line + rest, i, NEXT)
    {
      NotOnLine(line, rest, i);
    }
  }

  lemma FoundAt(front: string, rest: string, line: string, k: nat)
    requires front == "\n" + line && OneLine(line) && !("## " <= line) && rest != "" && rest[0] == '\n'
    requires Find(rest, NEXT) == Some(k)
    ensures Find(front + rest, NEXT) == Some(|front| + k)
  {
    hide Find, At, OneLine, NEXT;
    PromptResults.OccursFits(rest, NEXT, k);
    NoneBefore(line, rest, k);
    AtBehind(front, rest, k);
    PromptResults.FindIs(front + rest, NEXT, |front| + k);
  }

  lemma NoFeedIn(line: string, j: nat)
    requires OneLine(line) && j < |line|
    ensures line[j] != '\n'
  {
  }

  lemma Starts(line: string, rest: string)
    requires OneLine(line) && !("## " <= line) && rest != "" && rest[0] == '\n'
    ensures !At("\n" + line + rest, 0, NEXT)
  {
    var s := "\n" + line + rest;
    if At(s, 0, NEXT) {
      AtChar(s, 0, NEXT, 3);
      AtChar(s, 0, NEXT, 2);
      AtChar(s, 0, NEXT, 1);
    }
  }

  lemma Behind(front: string, rest: string, i: nat)
    requires i >= |front| && At(front + rest, i, NEXT)
    ensures At(rest, i - |front|, NEXT)
  {
    assert (front + rest)[i..i + |NEXT|] == rest[i - |front|..i - |front| + |NEXT|];
  }

  lemma NotOnLine(line: string, rest: string, i: nat)
    requires OneLine(line) && !("## " <= line) && rest != "" && rest[0] == '\n'
    requires i <= |line| || (i - 1 - |line| < |rest| && !At(rest, i - 1 - |line|, NEXT))
    ensures !At("\n" + line + rest, i, NEXT)
  {
    hide OneLine;
    var s := "\n" + line + rest;
    if At(s, i, NEXT) {
      if i == 0 {
        Starts(line, rest);
      } else if i <= |line| {
        AtChar(s, i, NEXT, 0);
        NoFeedIn(line, i - 1);
      } else {
        Behind("\n" + line, rest, i);
      }
    }
  }

  /** A section is its body, stripped. */
  lemma SectionIs(before: seq<string>, h: string, body: seq<string>, next: string, after: seq<string>)
    requires AllFree(before, Heading(h)) && PromptResults.NoSeparator(h) && BodyLines(body)
    ensures Section(Join(before + ([Heading(h)] + (body + ([Heading(next)] + after))), "\n"), h) == Strip(FedLines(body))
  {
    hide Find, Strip, AllFree, BodyLines;
    var rest := [Heading(h)] + (body + ([Heading(next)] + after));
    var content := Join(before + rest, "\n");
    HeadingPlain(h);
    FindBehindLines(before, rest, Heading(h));
    JoinFed(Heading(h), body + ([Heading(next)] + after));
    FedAppend(body, [Heading(next)] + after);
    var more := FedLines([Heading(next)] + after);
    FedNext(next, after);
    FindNext(body, more);
    JoinEnds(before, rest);
    var at := |content| - |Join(rest, "\n")|;
    assert content[at..] == Heading(h) + (FedLines(body) + more);
    assert content[at + |Heading(h)|..] == FedLines(body) + more by {
      assert content[at + |Heading(h)|..] == content[at..][|Heading(h)|..];
    }
    assert (FedLines(body) + more)[..|FedLines(body)|] == FedLines(body);
  }

  lemma HeadingPlain(h: string)
    requires PromptResults.NoSeparator(h)
    ensures PromptResults.NoSeparator(Heading(h)) && Heading(h) != ""
  {
  }

  lemma FedNext(next: string, after: seq<string>)
    ensures NEXT <= FedLines([Heading(next)] + after)
  {
    assert ([Heading(next)] + after)[0] == "## " + next;
    assert FedLines([Heading(next)] + after) == NEXT + (next + FedLines(([Heading(next)] + after)[1..]));
  }

  lemma {:induction false} JoinEnds(before: seq<string>, rest: seq<string>)
    requires rest != []
    ensures |Join(before + rest, "\n")| >= |Join(rest, "\n")|
    ensures Join(before + rest, "\n")[|Join(before + rest, "\n")| - |Join(rest, "\n")|..] == Join(rest, "\n")
  {
    if before == [] {
      assert before + rest == rest;
    } else {
      assert (before + rest)[1..] == before[1..] + rest;
      JoinEnds(before[1..], rest);
    }
  }

  // ---------- What a section's lines hold ----------

  /** The only line breaks are line feeds. */
  predicate OnlyFeeds(s: string) { forall i :: 0 <= i < |s| && TextWrap.IsLineBreak(s[i]) ==> s[i] == '\n' }

  lemma NothingSplit()
    ensures TextWrap.SplitLines("") == []
  {
  }

  /** The first line, and what the lines of the rest are. */
  lemma FirstSplit(s: string) returns (l: string)
    requires s != "" && OnlyFeeds(s)
    ensures l <= s && OneLine(l)
    ensures |l| == |s| ==> TextWrap.SplitLines(s) == [l]
    ensures |l| < |s| ==> s[|l|] == '\n' && OnlyFeeds(s[|l|..][1..])
    ensures |l| < |s| ==> TextWrap.SplitLines(s) == [l] + TextWrap.SplitLines(s[|l|..][1..])
  {
    hide TextWrap.IsLineBreak;
    var n := TextWrap.LineLength(s);
    l := s[..n];
    NoBreakOneLine(l);
    if n < |s| {
      var rest := s[n..][1..];
      assert s[n + 1..] == rest;
      assert forall i :: 0 <= i < |rest| ==> rest[i] == s[n + 1 + i];
    } else {
      assert l == s;
    }
  }

  lemma OneWord(l: string, lines: seq<string>)
    ensures Words([l] + lines) == Word(l) + Words(lines)
  {
    assert ([l] + lines)[1..] == lines;
  }

  lemma CutAt(s: string, l: string)
    requires l <= s && |l| < |s| && s[|l|] == '\n'
    ensures s == l + ("\n" + s[|l|..][1..])
  {
  }

  lemma {:induction false} WordsOfSplit(s: string)
    requires OnlyFeeds(s)
    ensures Words(TextWrap.SplitLines(s)) == TextWords(s)
    decreases |s|
  {
    hide TextWords, TextWrap.SplitLines, OnlyFeeds, Words, Word;
    if s == "" {
      NothingBlank();
      NothingSplit();
      NoWords();
    } else {
      var l := FirstSplit(s);
      if |l| < |s| {
        var t := s[|l|..][1..];
        WordsOfSplit(t);
        CutAt(s, l);
        WordsOfLine(l, t);
        OneWord(l, TextWrap.SplitLines(t));
      } else {
        assert s == l && [l] + [] == [l];
        OneWord(l, []);
        NoWords();
        LineWord(l);
      }
    }
  }

  lemma NoWords()
    ensures Words([]) == [] && forall w: seq<string> :: w + Words([]) == w
  {
  }

  lemma NoBreakOneLine(l: string)
    requires TextWrap.NoLineBreaks(l)
    ensures OneLine(l)
  {
    assert TextWrap.IsLineBreak('\n');
  }

  function WordItems(words: seq<string>): seq<string> {
    if words == [] then [] else ItemOf(words[0]) + WordItems(words[1..])
  }

  lemma NoItem()
    ensures ItemOf("") == []
  {
  }

  lemma {:induction false} ItemsOfWords(lines: seq<string>)
    ensures ItemsOf(lines) == WordItems(Words(lines))
  {
    hide ItemOf, Strip;
    if lines != [] {
      ItemsOfWords(lines[1..]);
      NoItem();
      if Strip(lines[0]) == "" {
        assert Words(lines) == Words(lines[1..]);
      } else {
        assert ([Strip(lines[0])] + Words(lines[1..]))[1..] == Words(lines[1..]);
      }
    }
  }

  lemma {:induction false} WordsOfFed(body: seq<string>)
    requires forall i :: 0 <= i < |body| ==> OneLine(body[i])
    ensures TextWords(FedLines(body)) == Words(body)
  {
    hide TextWords, OneLine, Word;
    if body == [] {
      NothingBlank();
    } else {
      WordsOfFed(body[1..]);
      FedText(body[0], body[1..]);
    }
  }

  lemma FedText(l: string, rest: seq<string>)
    requires OneLine(l)
    ensures TextWords("\n" + l + FedLines(rest)) == Word(l) + TextWords(FedLines(rest))
  {
    hide TextWords, OneLine, Word;
    var t := l + FedLines(rest);
    FeedInFront(t);
    Regroup3("\n", l, FedLines(rest));
    if rest == [] {
      NothingBlank();
      LineWord(l);
      assert t == l;
    } else {
      var more := rest[0] + FedLines(rest[1..]);
      Regroup3("\n", rest[0], FedLines(rest[1..]));
      WordsOfLine(l, more);
      FeedInFront(more);
    }
  }

  lemma NothingInFront(s: string, ws: seq<string>)
    ensures "" + s == s && [] + ws == ws
  {
  }

  lemma FeedInFront(t: string)
    ensures TextWords("\n" + t) == TextWords(t)
  {
    hide TextWords, Word, Lines, TextFilled;
    WordsOfLine("", t);
    NothingBlank();
    NothingInFront("\n" + t, TextWords(t));
  }

  /** A body without other breaks than those between its lines. */
  predicate Unbroken(body: seq<string>) { forall i :: 0 <= i < |body| ==> TextWrap.NoLineBreaks(body[i]) }

  lemma {:induction false} FedOnlyFeeds(body: seq<string>)
    requires Unbroken(body)
    ensures OnlyFeeds(FedLines(body))
  {
    hide TextWrap.IsLineBreak;
    if body != [] { FedOnlyFeeds(body[1..]); }
  }

  lemma StripOnlyFeeds(s: string)
    requires OnlyFeeds(s)
    ensures OnlyFeeds(Strip(s))
  {
    hide TextWrap.IsLineBreak, IsSpace;
  }

  /** The list items of a section are those of the body's words. */
  lemma ItemsOfSection(body: seq<string>)
    requires Unbroken(body)
    ensures ListItems(Strip(FedLines(body))) == WordItems(Words(body))
  {
    hide TextWords, Strip, Words, ItemsOf, WordItems, OnlyFeeds;
    SectionWords(body);
    ItemsOfWords(TextWrap.SplitLines(Strip(FedLines(body))));
  }

  lemma SectionWords(body: seq<string>)
    requires Unbroken(body)
    ensures Words(TextWrap.SplitLines(Strip(FedLines(body)))) == Words(body)
  {
    hide TextWords, Strip, Words, OnlyFeeds, TextWrap.NoLineBreaks;
    forall i | 0 <= i < |body|
      ensures OneLine(body[i])
    {
      NoBreakOneLine(body[i]);
    }
    FedOnlyFeeds(body);
    StripOnlyFeeds(FedLines(body));
    WordsOfSplit(Strip(FedLines(body)));
    WordsStripped(FedLines(body));
    WordsOfFed(body);
  }

  /** The first line of a section is the first word of its body. */
  lemma FirstOfSection(body: seq<string>)
    requires Unbroken(body) && Words(body) != []
    ensures var sec := Strip(FedLines(body)); sec != "" && Strip(TextWrap.SplitLines(sec)[0]) == Words(body)[0]
  {
    hide FedLines, IsSpace, TextWrap.IsLineBreak;
    SectionWords(body);
    var sec := Strip(FedLines(body));
    if sec != "" {
      var lines := TextWrap.SplitLines(sec);
      assert lines[0] != "" && lines[0][0] == sec[0] by { FirstLine(sec); }
      assert !IsSpace(sec[0]) by { StrippedStarts(FedLines(body)); }
      Kept(lines[0], 0);
      assert StripLeft(lines[0]) == lines[0];
    }
  }

  lemma StrippedStarts(s: string)
    ensures Strip(s) != "" ==> !IsSpace(Strip(s)[0])
  {
    hide IsSpace;
  }

  lemma FirstLine(s: string)
    requires s != "" && !IsSpace(s[0])
    ensures TextWrap.SplitLines(s) != [] && TextWrap.SplitLines(s)[0] != "" && TextWrap.SplitLines(s)[0][0] == s[0]
  {
    BreaksAreSpace(s[0]);
  }

  lemma BreaksAreSpace(c: char)
    ensures TextWrap.IsLineBreak(c) ==> IsSpace(c)
  {
  }

  // ---------- Reading back ----------

  const USE := "Use when"

  const CALLS := "Mission Control calls"

  /** A field in front of all the sections that are read. */
  predicate InFront(x: string) { Free(x, "Purpose") && Free(x, USE) && Free(x, CALLS) }

  /** A line that stands by itself in the first section. */
  predicate Raw(x: string) { TextWrap.NoLineBreaks(x) && !("## " <= x) && Free(x, USE) && Free(x, CALLS) }

  /** A list item that reads back: on one line, trimmed and not empty. */
  predicate Item(x: string) { TextWrap.NoLineBreaks(x) && Trimmed(x) && x != "" }

  predicate AllItems(xs: seq<string>) { forall i :: 0 <= i < |xs| ==> Item(xs[i]) }

  /** What the page needs of a skill: no heading that is searched for occurs in a field in front of it,
      the lines of the first section are not headings, and what is read is on one line and trimmed. It
      needs nothing of the fields behind the calls. */
  predicate Readable(s: Skill, bridge: string) {
    && InFront(s.name) && InFront(s.title) && InFront(s.description)
    && Raw(s.purpose) && Trimmed(s.purpose) && s.purpose != "" && Raw(bridge)
    && AllItems(s.useWhen) && AllFree(s.useWhen, Heading(CALLS)) && AllFree(s.workflow, Heading(CALLS))
    && AllItems(s.tools) && AllItems(s.resources)
  }

  predicate NoHash(p: string) { forall i :: 0 <= i < |p| ==> p[i] != '#' }

  /** A text without a hash in front of another one adds no heading. */
  lemma FreeAppend(p: string, x: string, h: string)
    requires NoHash(p) && Free(x, h)
    ensures Free(p + x, h)
  {
    hide Find, At, NoHash, Heading;
    forall i | 0 <= i <= |p + x|
      ensures !At(p + x, i, Heading(h))
    {
      NotInAppend(p, x, h, i);
    }
    PromptResults.FindNone(p + x, Heading(h));
  }

  lemma NotInAppend(p: string, x: string, h: string, i: nat)
    requires NoHash(p) && Free(x, h)
    ensures !At(p + x, i, Heading(h))
  {
    hide Find;
    if At(p + x, i, Heading(h)) {
      AtChar(p + x, i, Heading(h), 0);
      if i >= |p| {
        assert (p + x)[i..i + |Heading(h)|] == x[i - |p|..i - |p| + |Heading(h)|];
        PromptResults.FindSome(x, Heading(h), i - |p|);
      }
    }
  }

  lemma FreeTitle(x: string, h: string)
    requires Free(x, h)
    ensures Free("# " + x, h)
  {
    hide Find, At;
    var s := "# " + x;
    assert " " + x == s[1..];
    forall i | 0 <= i <= |s|
      ensures !At(s, i, Heading(h))
    {
      if i == 0 {
        NotFirst(s, h);
      } else {
        NotInAppend(" ", x, h, i - 1);
        MoveOne(s, i, Heading(h));
      }
    }
    PromptResults.FindNone(s, Heading(h));
  }

  lemma NotFirst(s: string, h: string)
    requires |s| >= 2 && s[1] == ' '
    ensures !At(s, 0, Heading(h))
  {
    if At(s, 0, Heading(h)) { AtChar(s, 0, Heading(h), 1); }
  }

  lemma MoveOne(s: string, i: nat, pat: string)
    requires 1 <= i <= |s|
    ensures At(s, i, pat) == At(s[1..], i - 1, pat)
  {
    OccursShift(s, pat);
  }

  /** A heading does not hold another one with another first letter. */
  lemma FreeHeading(a: string, b: string)
    requires NoHash(a) && a != "" && b != "" && a[0] != b[0]
    ensures Find(Heading(a), Heading(b)).None?
  {
    hide Find, At;
    var s := Heading(a);
    forall i | 0 <= i <= |s|
      ensures !At(s, i, Heading(b))
    {
      if At(s, i, Heading(b)) {
        AtChar(s, i, Heading(b), 0);
        AtChar(s, i, Heading(b), 1);
        AtChar(s, i, Heading(b), 3);
      }
    }
    PromptResults.FindNone(s, Heading(b));
  }

  lemma FrontFree(s: Skill, h: string)
    requires Free(s.name, h) && Free(s.title, h) && Free(s.description, h)
    ensures AllFree(Front(s), Heading(h))
  {
    hide Find, TextWrap.NoLineBreaks;
    NoneShort("---", h);
    NoneShort("", h);
    FreeAppend("name: ", s.name, h);
    FreeAppend("description: ", s.description, h);
    FreeTitle(s.title, h);
  }

  lemma NoneShort(x: string, h: string)
    requires NoHash(x)
    ensures Free(x, h)
  {
    FreeAppend(x, "", h);
    assert x + "" == x;
  }

  lemma DashesFree(items: seq<string>, h: string)
    requires AllFree(items, Heading(h))
    ensures AllFree(Dashes(items), Heading(h))
  {
    hide Find;
    forall i | 0 <= i < |items|
      ensures Find(Dashes(items)[i], Heading(h)).None?
    {
      assert Free(items[i], h);
      FreeAppend("- ", items[i], h);
    }
  }

  lemma StepsFree(items: seq<string>, h: string)
    requires AllFree(items, Heading(h))
    ensures AllFree(Steps(items, 1), Heading(h))
  {
    hide Find, Dec;
    forall i | 0 <= i < |items|
      ensures Find(Steps(items, 1)[i], Heading(h)).None?
    {
      assert Free(items[i], h);
      assert NoHash(Dec(1 + i) + ". ");
      FreeAppend(Dec(1 + i) + ". ", items[i], h);
    }
  }

  lemma FreeJoin(a: seq<string>, b: seq<string>, marker: string)
    requires AllFree(a, marker) && AllFree(b, marker)
    ensures AllFree(a + b, marker)
  {
    hide Find;
  }

  lemma FreeOne(line: string, marker: string)
    requires Find(line, marker).None?
    ensures AllFree([line], marker)
  {
  }

  lemma DashIsBody(x: string)
    requires TextWrap.NoLineBreaks(x)
    ensures TextWrap.NoLineBreaks("- " + x) && OneLine("- " + x) && !("## " <= "- " + x)
  {
    NoBreakOneLine("- " + x);
    assert ("- " + x)[0] == '-';
  }

  lemma DashesBody(items: seq<string>)
    requires AllItems(items)
    ensures BodyLines(Dashes(items)) && Unbroken(Dashes(items))
  {
    hide TextWrap.NoLineBreaks, OneLine, Trimmed;
    forall i | 0 <= i < |items|
      ensures OneLine(Dashes(items)[i]) && !("## " <= Dashes(items)[i]) && TextWrap.NoLineBreaks(Dashes(items)[i])
    {
      assert Item(items[i]);
      DashIsBody(items[i]);
    }
  }

  lemma {:induction false} WordItemsAppend(a: seq<string>, b: seq<string>)
    ensures WordItems(a + b) == WordItems(a) + WordItems(b)
  {
    hide ItemOf;
    if a == [] {
      assert a + b == b;
    } else {
      assert (a + b)[1..] == a[1..] + b;
      WordItemsAppend(a[1..], b);
      Regroup3(ItemOf(a[0]), WordItems(a[1..]), WordItems(b));
    }
  }

  lemma DashItem(x: string)
    requires Item(x)
    ensures Word("- " + x) == ["- " + x] && ItemOf("- " + x) == [x]
  {
    hide TextWrap.NoLineBreaks, Strip, IsSpace;
    DashText(x);
    StripTrimmed("- " + x);
    StripTrimmed(x);
    DashLine("- " + x, x);
  }

  lemma DashText(x: string)
    requires Trimmed(x) && x != ""
    ensures Trimmed("- " + x) && ("- " + x)[2..] == x && "- " <= "- " + x
  {
  }

  lemma DashLine(line: string, x: string)
    requires "- " <= line && line[2..] == x && Strip(x) == x
    ensures ItemOf(line) == [x]
  {
    hide Strip;
  }

  lemma {:induction false} DashesItems(items: seq<string>)
    requires AllItems(items)
    ensures WordItems(Words(Dashes(items))) == items
  {
    hide Item, ItemOf, Word;
    if items != [] {
      DashesItems(items[1..]);
      DashItem(items[0]);
      var line := "- " + items[0];
      assert Dashes(items)[1..] == Dashes(items[1..]);
      assert ([line] + Words(Dashes(items[1..])))[1..] == Words(Dashes(items[1..]));
    }
  }

  /** Lines that hold no items. */
  lemma NoItems()
    ensures WordItems(Words([""])) == []
    ensures WordItems(Words(["", "Tools:"])) == [] && WordItems(Words(["", "Resources:"])) == []
  {
    hide Strip, ItemOf;
    NothingBlank();
    LabelSolid();
    StripTrimmed("Tools:");
    StripTrimmed("Resources:");
    LabelItems();
    assert ["", "Tools:"][1..] == ["Tools:"] && ["Tools:"][1..] == [] && [""][1..] == [];
    assert ["", "Resources:"][1..] == ["Resources:"] && ["Resources:"][1..] == [];
  }

  lemma LabelSolid()
    ensures Trimmed("Tools:") && Trimmed("Resources:")
  {
  }

  lemma LabelItems()
    ensures ItemOf("Tools:") == [] && ItemOf("Resources:") == []
  {
    hide AfterDot;
    assert "Tools:"[0] == 'T' && "Resources:"[0] == 'R';
  }

  lemma ItemsJoined(a: seq<string>, b: seq<string>)
    ensures WordItems(Words(a + b)) == WordItems(Words(a)) + WordItems(Words(b))
  {
    hide Words, WordItems;
    WordsAppend(a, b);
    WordItemsAppend(Words(a), Words(b));
  }

  lemma LinesJoined(a: seq<string>, b: seq<string>)
    requires BodyLines(a) && Unbroken(a) && BodyLines(b) && Unbroken(b)
    ensures BodyLines(a + b) && Unbroken(a + b)
  {
    hide OneLine, TextWrap.NoLineBreaks;
  }

  /** The lines around the items. */
  lemma PlainLines()
    ensures BodyLines([""]) && Unbroken([""])
    ensures BodyLines(["", "Tools:"]) && Unbroken(["", "Tools:"])
    ensures BodyLines(["", "Resources:"]) && Unbroken(["", "Resources:"])
  {
    hide OneLine, TextWrap.NoLineBreaks;
    EmptyIsBody();
  }

  lemma UseWhenLines(s: Skill)
    requires AllItems(s.useWhen)
    ensures BodyLines(UseWhenBody(s)) && Unbroken(UseWhenBody(s))
  {
    hide BodyLines, Unbroken, Dashes;
    PlainLines();
    DashesBody(s.useWhen);
    LinesJoined([""], Dashes(s.useWhen));
    LinesJoined([""] + Dashes(s.useWhen), [""]);
  }

  lemma UseWhenItems(s: Skill)
    requires AllItems(s.useWhen)
    ensures BodyLines(UseWhenBody(s)) && Unbroken(UseWhenBody(s)) && WordItems(Words(UseWhenBody(s))) == s.useWhen
  {
    hide BodyLines, Unbroken, Words, WordItems, Dashes;
    UseWhenLines(s);
    DashesItems(s.useWhen);
    NoItems();
    ItemsJoined([""], Dashes(s.useWhen));
    ItemsJoined([""] + Dashes(s.useWhen), [""]);
    assert [] + s.useWhen + [] == s.useWhen;
  }

  lemma EmptyIsBody()
    ensures OneLine("") && TextWrap.NoLineBreaks("") && OneLine("Tools:") && OneLine("Resources:")
    ensures TextWrap.NoLineBreaks("Tools:") && TextWrap.NoLineBreaks("Resources:")
    ensures !("## " <= "") && !("## " <= "Tools:") && !("## " <= "Resources:")
  {
    assert "Tools:"[0] == 'T' && "Resources:"[0] == 'R';
  }

  lemma CallsLines(s: Skill)
    requires AllItems(s.tools) && AllItems(s.resources)
    ensures BodyLines(CallsBody(s)) && Unbroken(CallsBody(s))
  {
    hide BodyLines, Unbroken, Dashes;
    PlainLines();
    DashesBody(s.tools);
    DashesBody(s.resources);
    LinesJoined(["", "Tools:"], Dashes(s.tools));
    LinesJoined(["", "Resources:"], Dashes(s.resources));
    LinesJoined(["", "Resources:"] + Dashes(s.resources), [""]);
    LinesJoined(["", "Tools:"] + Dashes(s.tools), ["", "Resources:"] + Dashes(s.resources) + [""]);
  }

  lemma CallsItems(s: Skill)
    requires AllItems(s.tools) && AllItems(s.resources)
    ensures BodyLines(CallsBody(s)) && Unbroken(CallsBody(s)) && WordItems(Words(CallsBody(s))) == s.tools + s.resources
  {
    hide BodyLines, Unbroken, Words, WordItems, Dashes;
    CallsLines(s);
    NoItems();
    LabelledItems("Tools:", s.tools);
    LabelledItems("Resources:", s.resources);
    var first, second := ["", "Tools:"] + Dashes(s.tools), ["", "Resources:"] + Dashes(s.resources);
    ItemsJoined(second, [""]);
    ItemsJoined(first, second + [""]);
    assert s.resources + [] == s.resources;
  }

  lemma LabelledItems(caption: string, items: seq<string>)
    requires AllItems(items) && WordItems(Words(["", caption])) == []
    ensures WordItems(Words(["", caption] + Dashes(items))) == items
  {
    hide Words, WordItems, Dashes;
    DashesItems(items);
    ItemsJoined(["", caption], Dashes(items));
    assert [] + items == items;
  }

  lemma PurposeFirst(purpose: string, rest: seq<string>)
    requires purpose != "" && Strip(purpose) == purpose
    ensures Words(["", purpose] + rest) == [purpose] + Words(rest)
  {
    hide Strip;
    NothingBlank();
    var b := ["", purpose] + rest;
    assert b[1..] == [purpose] + rest && b[1..][1..] == rest;
  }

  lemma TwoAndThree<T>(a: T, b: T, c: T, d: T, e: T)
    ensures [a, b, c, d, e] == [a, b] + [c, d, e]
  {
  }

  lemma PurposeLines(purpose: string, bridge: string)
    requires Raw(purpose) && Raw(bridge)
    ensures BodyLines(["", purpose, "", bridge, ""]) && Unbroken(["", purpose, "", bridge, ""])
  {
    hide OneLine, TextWrap.NoLineBreaks, Free;
    EmptyIsBody();
    NoBreakOneLine(purpose);
    NoBreakOneLine(bridge);
  }

  lemma PurposeWords(s: Skill, bridge: string)
    requires Raw(s.purpose) && Trimmed(s.purpose) && s.purpose != "" && Raw(bridge)
    ensures BodyLines(PurposeBody(s, bridge)) && Unbroken(PurposeBody(s, bridge))
    ensures Words(PurposeBody(s, bridge)) != [] && Words(PurposeBody(s, bridge))[0] == s.purpose
  {
    hide Raw, Trimmed, BodyLines, Unbroken, Strip, Words;
    PurposeLines(s.purpose, bridge);
    StripTrimmed(s.purpose);
    PurposeFirst(s.purpose, ["", bridge, ""]);
    TwoAndThree("", s.purpose, "", bridge, "");
  }

  // ---------- The three sections ----------

  lemma ReadsPurpose(s: Skill, bridge: string)
    requires Readable(s, bridge)
    ensures Section(Page(s, bridge), "Purpose") == Strip(FedLines(PurposeBody(s, bridge)))
  {
    hide Section, Item, FedLines, Strip, AllFree, BodyLines, Find;
    FrontFree(s, "Purpose");
    PurposeWords(s, bridge);
    SectionIs(Front(s), "Purpose", PurposeBody(s, bridge), "Use when", UseWhenBody(s)
      + ([Heading("Workflow")] + (WorkflowBody(s) + ([Heading("Mission Control calls")] + (CallsBody(s)
      + ([Heading("User-facing output")] + Rest(s)))))));
  }

  lemma ThroughPurposeFree(s: Skill, bridge: string, h: string)
    requires Readable(s, bridge) && (h == USE || h == CALLS)
    ensures AllFree(Front(s) + [Heading("Purpose")] + PurposeBody(s, bridge), Heading(h))
  {
    hide Find, TextWrap.NoLineBreaks, Heading;
    FrontFree(s, h);
    FreeHeading("Purpose", h);
    NoneShort("", h);
    FreeOne(Heading("Purpose"), Heading(h));
    FreeJoin(Front(s), [Heading("Purpose")], Heading(h));
    FreeJoin(Front(s) + [Heading("Purpose")], PurposeBody(s, bridge), Heading(h));
  }

  lemma ReadsUseWhen(s: Skill, bridge: string)
    requires Readable(s, bridge)
    ensures Section(Page(s, bridge), "Use when") == Strip(FedLines(UseWhenBody(s)))
  {
    hide Section, Item, FedLines, Strip, AllFree, BodyLines, Find, Readable, Front;
    var before := Front(s) + [Heading("Purpose")] + PurposeBody(s, bridge);
    var after := WorkflowBody(s) + ([Heading("Mission Control calls")] + (CallsBody(s)
      + ([Heading("User-facing output")] + Rest(s))));
    ThroughPurposeFree(s, bridge, "Use when");
    BodiesAreLines(s, bridge);
    SectionIs(before, "Use when", UseWhenBody(s), "Workflow", after);
    Regroup(Front(s), [Heading("Purpose")], PurposeBody(s, bridge),
            [Heading("Use when")] + (UseWhenBody(s) + ([Heading("Workflow")] + after)));
  }

  lemma BodiesAreLines(s: Skill, bridge: string)
    requires Readable(s, bridge)
    ensures BodyLines(UseWhenBody(s)) && BodyLines(CallsBody(s))
  {
    hide Words, WordItems;
    UseWhenItems(s);
    CallsItems(s);
  }

  lemma ThroughWorkflowFree(s: Skill, bridge: string)
    requires Readable(s, bridge)
    ensures AllFree(Front(s) + [Heading("Purpose")] + PurposeBody(s, bridge) + ([Heading("Use when")] + UseWhenBody(s)
              + ([Heading("Workflow")] + WorkflowBody(s))), Heading("Mission Control calls"))
  {
    hide Find, TextWrap.NoLineBreaks, Heading, Front, AllFree, PurposeBody;
    var h := "Mission Control calls";
    ThroughPurposeFree(s, bridge, h);
    FreeHeading("Use when", h);
    FreeHeading("Workflow", h);
    FreeOne(Heading("Use when"), Heading(h));
    FreeOne(Heading("Workflow"), Heading(h));
    NoneShort("", h);
    FreeOne("", Heading(h));
    DashesFree(s.useWhen, h);
    StepsFree(s.workflow, h);
    FreeJoin([""], Dashes(s.useWhen), Heading(h));
    FreeJoin([""] + Dashes(s.useWhen), [""], Heading(h));
    FreeJoin([""], Steps(s.workflow, 1), Heading(h));
    FreeJoin([""] + Steps(s.workflow, 1), [""], Heading(h));
    FreeJoin([Heading("Use when")], UseWhenBody(s), Heading(h));
    FreeJoin([Heading("Workflow")], WorkflowBody(s), Heading(h));
    FreeJoin([Heading("Use when")] + UseWhenBody(s), [Heading("Workflow")] + WorkflowBody(s), Heading(h));
    FreeJoin(Front(s) + [Heading("Purpose")] + PurposeBody(s, bridge),
             [Heading("Use when")] + UseWhenBody(s) + ([Heading("Workflow")] + WorkflowBody(s)), Heading(h));
  }

  lemma ReadsCalls(s: Skill, bridge: string)
    requires Readable(s, bridge)
    ensures Section(Page(s, bridge), "Mission Control calls") == Strip(FedLines(CallsBody(s)))
  {
    hide Section, FedLines, Strip, AllFree, BodyLines, Readable, Front, PurposeBody, UseWhenBody, WorkflowBody;
    hide CallsBody, Rest, Heading, Join;
    var a, b := Front(s) + [Heading("Purpose")] + PurposeBody(s, bridge), [Heading("Use when")] + UseWhenBody(s);
    var c := [Heading("Workflow")] + WorkflowBody(s);
    var last := [Heading("Mission Control calls")] + (CallsBody(s) + ([Heading("User-facing output")] + Rest(s)));
    ThroughWorkflowFree(s, bridge);
    BodiesAreLines(s, bridge);
    CallsName();
    SectionIs(a + (b + c), "Mission Control calls", CallsBody(s), "User-facing output", Rest(s));
    SixParts(Front(s), [Heading("Purpose")], PurposeBody(s, bridge), [Heading("Use when")], UseWhenBody(s),
             [Heading("Workflow")], WorkflowBody(s), last);
  }

  lemma CallsName()
    ensures PromptResults.NoSeparator("Mission Control calls")
  {
  }

  lemma SixParts<T>(a: seq<T>, b: seq<T>, c: seq<T>, d: seq<T>, e: seq<T>, f: seq<T>, g: seq<T>, last: seq<T>)
    ensures a + b + c + (d + e + (f + g)) + last == a + (b + (c + (d + (e + (f + (g + last))))))
  {
  }

  /** The summary that is read off a page is that of the skill it was printed from: its purpose, the
      first of its uses, and the first four of its tools and then resources. */
  lemma SummaryReadsBack(s: Skill, bridge: string)
    requires Readable(s, bridge)
    ensures var calls := s.tools + s.resources;
      Summarize(s.name, Page(s, bridge)) ==
        Summary(s.purpose, (if s.useWhen != [] then s.useWhen[0] else SEE),
                (if calls != [] then Join(if |calls| > 4 then calls[..4] else calls, ", ") else SEE))
  {
    hide Page, Section, ListItems, Join, Words, WordItems, PurposeBody, UseWhenBody, CallsBody, FedLines, Strip;
    hide Item, Raw, InFront;
    ReadsPurpose(s, bridge);
    ReadsUseWhen(s, bridge);
    ReadsCalls(s, bridge);
    PurposeWords(s, bridge);
    UseWhenItems(s);
    CallsItems(s);
    FirstOfSection(PurposeBody(s, bridge));
    ItemsOfSection(UseWhenBody(s));
    ItemsOfSection(CallsBody(s));
  }
}
