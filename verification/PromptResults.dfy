/** When the prompt files that are written from a catalog pass the check. */
module PromptResults {
  import opened Text
  import opened Prompts

  // ---------- First occurrences ----------

  lemma {:induction false} FindIs(s: string, pat: string, k: nat)
    requires At(s, k, pat) && forall j :: 0 <= j < k ==> !At(s, j, pat)
    ensures Find(s, pat) == Some(k)
  {
  }

  lemma FindSome(s: string, pat: string, k: nat)
    requires At(s, k, pat)
    ensures Find(s, pat).Some? && Find(s, pat).value <= k
  {
  }

  lemma FindNone(s: string, pat: string)
    requires forall j :: 0 <= j <= |s| ==> !At(s, j, pat)
    ensures Find(s, pat) == None
  {
  }

  predicate Separator(c: char) { c == '`' || c == '\n' }

  predicate NoSeparator(pat: string) { forall i :: 0 <= i < |pat| ==> !Separator(pat[i]) }

  lemma OccursIn(a: string, c: char, b: string, pat: string, i: nat)
    requires Separator(c) && NoSeparator(pat) && pat != ""
    ensures i <= |a| ==> (At(a + [c] + b, i, pat) <==> At(a, i, pat))
    ensures i > |a| ==> (At(a + [c] + b, i, pat) <==> At(b, i - |a| - 1, pat))
  {
    var s := a + [c] + b;
    if i <= |a| {
      if i + |pat| <= |a| {
        assert s[i..i + |pat|] == a[i..i + |pat|];
      } else if i + |pat| <= |s| {
        assert s[i..i + |pat|][|a| - i] == c;
      }
    } else if i + |pat| <= |s| {
      assert s[i..i + |pat|] == b[i - |a| - 1..i - |a| - 1 + |pat|];
    }
  }

  predicate SameBefore(s: string, a: string, pat: string, i: nat) {
    i <= |a| ==> (At(s, i, pat) <==> At(a, i, pat))
  }

  predicate SameBehind(s: string, n: nat, b: string, pat: string, i: nat) {
    i >= n ==> (At(s, i, pat) <==> At(b, i - n, pat))
  }

  lemma FindInFront(s: string, a: string, b: string, pat: string)
    requires |s| == |a| + 1 + |b|
    requires forall i: nat :: SameBefore(s, a, pat, i) && SameBehind(s, |a| + 1, b, pat, i)
    ensures Find(s, pat) ==
            if Find(a, pat).Some? then Find(a, pat)
            else if Find(b, pat).Some? then Some(|a| + 1 + Find(b, pat).value) else None
  {
    hide Find, At;
    var ra, rb, n := Find(a, pat), Find(b, pat), |a| + 1;
    if ra.Some? {
      OccursFits(a, pat, ra.value);
      assert SameBefore(s, a, pat, ra.value);
      forall i | 0 <= i < ra.value
        ensures !At(s, i, pat)
      {
        assert SameBefore(s, a, pat, i);
      }
      FindIs(s, pat, ra.value);
    } else {
      forall i | 0 <= i < (if rb.Some? then n + rb.value else |s| + 1)
        ensures !At(s, i, pat)
      {
        assert SameBefore(s, a, pat, i) && SameBehind(s, n, b, pat, i);
      }
      if rb.Some? {
        assert SameBefore(s, a, pat, n + rb.value) && SameBehind(s, n, b, pat, n + rb.value);
        FindIs(s, pat, n + rb.value);
      } else {
        FindNone(s, pat);
      }
    }
  }

  /** A pattern without separators is found in front of a separator or behind it. */
  lemma FindPast(a: string, c: char, b: string, pat: string)
    requires Separator(c) && NoSeparator(pat) && pat != ""
    ensures Find(a + [c] + b, pat) ==
            if Find(a, pat).Some? then Find(a, pat)
            else if Find(b, pat).Some? then Some(|a| + 1 + Find(b, pat).value) else None
  {
    hide Find, At, Separator, NoSeparator;
    var s := a + [c] + b;
    forall i: nat
      ensures SameBefore(s, a, pat, i) && SameBehind(s, |a| + 1, b, pat, i)
    {
      OccursIn(a, c, b, pat, i);
    }
    FindInFront(s, a, b, pat);
  }

  lemma OccursFits(s: string, pat: string, i: nat)
    requires At(s, i, pat)
    ensures i + |pat| <= |s|
  {
  }

  // ---------- Texts in pieces ----------

  /** A piece of text and the separator behind it. */
  type Piece = (string, char)

  function Cut(ps: seq<Piece>, t: string): string {
    if ps == [] then t else ps[0].0 + [ps[0].1] + Cut(ps[1..], t)
  }

  predicate Separated(ps: seq<Piece>) { forall i :: 0 <= i < |ps| ==> Separator(ps[i].1) }

  predicate Unmarked(s: string) { Find(s, MARKER).None? }

  predicate AllUnmarked(ps: seq<Piece>) { forall i :: 0 <= i < |ps| ==> Unmarked(ps[i].0) }

  lemma MarkerFacts()
    ensures NoSeparator(MARKER) && MARKER != "" && MARKER[0] == '#' && MARKER[1] == '#' && |MARKER| == 16
    ensures MARKER[15] == 'e'
  {
  }

  /** What comes after the marker when it is not in the pieces. */
  lemma {:induction false} AfterPieces(ps: seq<Piece>, t: string)
    requires Separated(ps) && AllUnmarked(ps) && !Unmarked(t)
    ensures AfterMarker(Cut(ps, t)) == AfterMarker(t)
  {
    hide Find, Separator, MARKER;
    if ps != [] {
      var rest := Cut(ps[1..], t);
      AfterPieces(ps[1..], t);
      MarkerFacts();
      FindPast(ps[0].0, ps[0].1, rest, MARKER);
      var whole := ps[0].0 + [ps[0].1] + rest;
      var k := Find(rest, MARKER).value + |MARKER|;
      assert whole[|ps[0].0| + 1 + k..] == rest[k..];
    }
  }

  /** How much comes after the marker when the first piece that has it is `ps[n]`. */
  lemma {:induction false} AfterPiece(ps: seq<Piece>, t: string, n: nat)
    requires Separated(ps) && n < |ps| && AllUnmarked(ps[..n]) && !Unmarked(ps[n].0)
    ensures AfterMarker(Cut(ps, t)).Some?
    ensures |AfterMarker(Cut(ps, t)).value| == |Cut(ps[n..], t)| - Find(ps[n].0, MARKER).value - 16
    decreases n
  {
    hide Find, Separator, MARKER;
    var rest := Cut(ps[1..], t);
    MarkerFacts();
    FindPast(ps[0].0, ps[0].1, rest, MARKER);
    if n == 0 {
      assert ps[0..] == ps;
    } else {
      assert ps[..n][0] == ps[0];
      assert ps[1..][..n - 1] == ps[..n][1..];
      AfterPiece(ps[1..], t, n - 1);
      assert ps[1..][n - 1..] == ps[n..];
    }
  }

  // ---------- The rendered text ----------

  lemma {:induction false} JoinAppend(xs: seq<string>, ys: seq<string>, sep: string)
    requires xs != [] && ys != []
    ensures Join(xs + ys, sep) == Join(xs, sep) + sep + Join(ys, sep)
  {
    if |xs| == 1 {
      assert (xs + ys)[1..] == ys;
    } else {
      JoinAppend(xs[1..], ys, sep);
      assert (xs + ys)[1..] == xs[1..] + ys;
      Regroup3(xs[0] + sep, Join(xs[1..], sep), sep + Join(ys, sep));
    }
  }

  /** The text in front of the purpose, as the lines it is made of. */
  function HeadText(title: string, notice: string, canonical: string, invocation: string): string {
    "# " + title + "\n\n" + notice + "\n" + canonical + "\n" + invocation + "\n\n"
  }

  lemma JoinNext(a: string, ys: seq<string>)
    requires ys != []
    ensures Join([a] + ys, "\n") == a + "\n" + Join(ys, "\n")
  {
    assert ([a] + ys)[1..] == ys;
  }

  lemma HeadLinesJoined(a: string, b: string, c: string, d: string)
    ensures a + "\n" + ("" + "\n" + (b + "\n" + (c + "\n" + (d + "\n" + "")))) + "\n"
         == a + "\n\n" + b + "\n" + c + "\n" + d + "\n\n"
  {
    assert "" + "\n" + (b + "\n" + (c + "\n" + (d + "\n" + ""))) == "\n" + b + "\n" + c + "\n" + d + "\n";
  }

  lemma HeadJoin(a: string, b: string, c: string, d: string)
    ensures Join([a, "", b, c, d, ""], "\n") + "\n" == a + "\n\n" + b + "\n" + c + "\n" + d + "\n\n"
  {
    hide Join;
    JoinNext(d, [""]);
    JoinNext(c, [d, ""]);
    JoinNext(b, [c, d, ""]);
    JoinNext("", [b, c, d, ""]);
    JoinNext(a, ["", b, c, d, ""]);
    assert [a] + ["", b, c, d, ""] == [a, "", b, c, d, ""];
    assert [""] + [b, c, d, ""] == ["", b, c, d, ""];
    assert [b] + [c, d, ""] == [b, c, d, ""];
    assert [c] + [d, ""] == [c, d, ""];
    assert [d] + [""] == [d, ""];
    JoinOne("");
    HeadLinesJoined(a, b, c, d);
  }

  function BodyText(p: Prompt): string { Join(Purpose(p) + ([MARKER] + Contract(p)), "\n") }

  /** The part of the text that does not depend on the stem. */
  function Tail(p: Prompt): string { StripRight(BodyText(p)) + "\n" }

  /** A line of a joined text stands at its place. */
  lemma JoinedLine(before: seq<string>, line: string, behind: seq<string>) returns (k: nat)
    requires behind != []
    ensures At(Join(before + ([line] + behind), "\n"), k, line)
  {
    hide Join;
    var rest := [line] + behind;
    JoinAppend([line], behind, "\n");
    JoinOne(line);
    if before == [] {
      assert before + rest == rest;
      k := 0;
    } else {
      JoinAppend(before, rest, "\n");
      k := |Join(before, "\n")| + 1;
    }
    InFront(Join(before + rest, "\n"), k, line, Join(behind, "\n"));
  }

  lemma SomeContract(p: Prompt)
    ensures Contract(p) != []
  {
    hide Items, Or;
  }

  lemma BodyHasMarker(p: Prompt) returns (k: nat)
    ensures At(BodyText(p), k, MARKER)
  {
    hide Join, MARKER, Contract, Purpose;
    SomeContract(p);
    k := JoinedLine(Purpose(p), MARKER, Contract(p));
  }

  lemma JoinOne(a: string)
    ensures Join([a], "\n") == a
  {
  }

  lemma InFront(s: string, k: nat, pat: string, after: string)
    requires k <= |s| && s[k..] == pat + "\n" + after
    ensures At(s, k, pat)
  {
    assert s[k..k + |pat|] == s[k..][..|pat|];
  }

  lemma TailHasMarker(p: Prompt)
    ensures !Unmarked(Tail(p))
  {
    hide Find, BodyText, MARKER;
    var k := BodyHasMarker(p);
    MarkerFacts();
    var b := BodyText(p);
    assert b[k + 15] == b[k..k + |MARKER|][15];
    Kept(b, k + 15);
    assert Tail(p)[k..k + |MARKER|] == b[k..k + |MARKER|];
    FindSome(Tail(p), MARKER, k);
  }

  lemma {:induction false} TrailAppend(a: string, b: string)
    requires StripRight(b) != ""
    ensures StripRight(a + b) == a + StripRight(b)
    decreases |b|
  {
    if !IsSpace(b[|b| - 1]) {
      assert (a + b)[|a + b| - 1] == b[|b| - 1];
    } else {
      var less := b[..|b| - 1];
      assert (a + b)[..|a + b| - 1] == a + less;
      TrailAppend(a, less);
    }
  }

  lemma StripHead(a: string, b: string)
    requires a != "" && !IsSpace(a[0]) && StripRight(b) != ""
    ensures Strip(a + b) == a + StripRight(b)
  {
    assert StripLeft(a + b) == a + b;
    TrailAppend(a, b);
  }

  lemma RenderParts(p: Prompt, stem: string)
    ensures Render(p, stem) == HeadText(Title(p), Notice(p, stem), CanonicalLine(p.name), InvocationLine(stem)) + Tail(p)
  {
    hide Join, Strip, StripRight, MARKER, Title, Notice, Contract, Purpose, IsSpace;
    var lines := Purpose(p) + ([MARKER] + Contract(p));
    var head := HeadText(Title(p), Notice(p, stem), CanonicalLine(p.name), InvocationLine(stem));
    JoinAppend(HeadLines(p, stem), lines, "\n");
    HeadJoin("# " + Title(p), Notice(p, stem), CanonicalLine(p.name), InvocationLine(stem));
    assert Join(HeadLines(p, stem) + lines, "\n") == head + BodyText(p);
    BodyIsSolid(p);
    HashIsSolid();
    StripHead(head, BodyText(p));
    Regroup3(head, StripRight(BodyText(p)), "\n");
  }

  lemma HashIsSolid()
    ensures !IsSpace('#')
  {
  }

  lemma BodyIsSolid(p: Prompt)
    ensures StripRight(BodyText(p)) != ""
  {
    hide BodyText, MARKER, IsSpace;
    var k := BodyHasMarker(p);
    MarkerFacts();
    assert BodyText(p)[k] == BodyText(p)[k..k + |MARKER|][0];
    HashIsSolid();
    Kept(BodyText(p), k);
  }

  // ---------- The two texts in pieces ----------

  function Ending(name: string, stem: string): seq<Piece> {
    [("Canonical prompt: ", '`'), (name, '`'), ("", '\n'), ("Invocation name: ", '`'), (stem, '`'), ("", '\n'), ("", '\n')]
  }

  function CanonicalPieces(title: string, name: string): seq<Piece> {
    [("# " + title, '\n'), ("", '\n'), ("", '\n')] + Ending(name, name)
  }

  function AliasPieces(title: string, name: string, alias: string): seq<Piece> {
    [("# " + title, '\n'), ("", '\n'), ("Alias for ", '`'), (name, '`'), (".", '\n')] + Ending(name, alias)
  }

  lemma {:induction false} CutAppend(ps: seq<Piece>, qs: seq<Piece>, t: string)
    ensures Cut(ps + qs, t) == Cut(ps, Cut(qs, t))
  {
    if ps == [] {
      assert ps + qs == qs;
    } else {
      assert (ps + qs)[1..] == ps[1..] + qs;
      CutAppend(ps[1..], qs, t);
    }
  }

  lemma TwoFeeds(t: string)
    ensures Cut([("", '\n'), ("", '\n')], t) == "\n\n" + t
  {
    var ps: seq<Piece> := [("", '\n'), ("", '\n')];
    assert ps[1..] == [("", '\n')];
    assert ps[1..][1..] == [];
    assert Cut(ps[1..], t) == "" + "\n" + t;
    assert Cut(ps, t) == "" + "\n" + ("" + "\n" + t);
  }

  lemma QuotedText(front: string, quoted: string, ps: seq<Piece>, t: string)
    ensures Cut([(front, '`'), (quoted, '`')] + ps, t) == front + "`" + quoted + "`" + Cut(ps, t)
  {
    var qs: seq<Piece> := [(front, '`'), (quoted, '`')] + ps;
    assert qs[1..] == [(quoted, '`')] + ps;
    assert qs[1..][1..] == ps;
    assert Cut(qs[1..], t) == quoted + "`" + Cut(ps, t);
    Regroup(front, "`", quoted + "`", Cut(ps, t));
    Regroup3(front + "`", quoted, "`");
  }

  lemma FeedText(line: string, ps: seq<Piece>, t: string)
    ensures Cut([(line, '\n')] + ps, t) == line + "\n" + Cut(ps, t)
  {
    assert ([(line, '\n')] + ps)[1..] == ps;
  }

  lemma EndingText(name: string, stem: string, t: string)
    ensures Cut(Ending(name, stem), t) == CanonicalLine(name) + "\n" + (InvocationLine(stem) + ("\n\n" + t))
  {
    hide Cut;
    var feeds: seq<Piece> := [("", '\n'), ("", '\n')];
    var inv: seq<Piece> := [("Invocation name: ", '`'), (stem, '`')];
    var can: seq<Piece> := [("Canonical prompt: ", '`'), (name, '`')];
    TwoFeeds(t);
    QuotedText("Invocation name: ", stem, feeds, t);
    FeedText("", inv + feeds, t);
    QuotedText("Canonical prompt: ", name, [("", '\n')] + (inv + feeds), t);
    assert Ending(name, stem) == can + ([("", '\n')] + (inv + feeds));
    assert "" + "\n" == "\n";
    Regroup3(CanonicalLine(name), "\n", InvocationLine(stem) + ("\n\n" + t));
  }

  /** The pieces of the text for a stem. */
  function Pieces(p: Prompt, stem: string): seq<Piece> {
    if stem == p.name then CanonicalPieces(Title(p), p.name) else AliasPieces(Title(p), p.name, stem)
  }

  lemma RenderCanonical(p: Prompt)
    ensures Render(p, p.name) == Cut(Pieces(p, p.name), Tail(p))
  {
    hide Cut, Tail, Title, Ending, Render, CanonicalLine, InvocationLine;
    RenderParts(p, p.name);
    EndingText(p.name, p.name, Tail(p));
    CanonicalCut("# " + Title(p), Ending(p.name, p.name), Tail(p));
    CanonicalHead("# " + Title(p), CanonicalLine(p.name), InvocationLine(p.name), Tail(p));
  }

  lemma CanonicalCut(title: string, ending: seq<Piece>, t: string)
    ensures Cut([(title, '\n'), ("", '\n'), ("", '\n')] + ending, t)
         == title + "\n" + ("" + "\n" + ("" + "\n" + Cut(ending, t)))
  {
    hide Cut;
    FeedText("", ending, t);
    FeedText("", [("", '\n')] + ending, t);
    FeedText(title, [("", '\n')] + ([("", '\n')] + ending), t);
    assert [(title, '\n'), ("", '\n'), ("", '\n')] + ending == [(title, '\n')] + ([("", '\n')] + ([("", '\n')] + ending));
  }

  lemma RenderAlias(p: Prompt, alias: string)
    requires alias != p.name
    ensures Render(p, alias) == Cut(Pieces(p, alias), Tail(p))
  {
    hide Cut, Tail, Title, Ending, Render, CanonicalLine, InvocationLine;
    RenderParts(p, alias);
    EndingText(p.name, alias, Tail(p));
    AliasCut("# " + Title(p), p.name, Ending(p.name, alias), Tail(p));
    AliasHead("# " + Title(p), "Alias for `" + p.name + "`", CanonicalLine(p.name), InvocationLine(alias), Tail(p));
  }

  lemma AliasCut(title: string, name: string, ending: seq<Piece>, t: string)
    ensures Cut([(title, '\n'), ("", '\n'), ("Alias for ", '`'), (name, '`'), (".", '\n')] + ending, t)
         == title + "\n" + ("" + "\n" + ("Alias for `" + name + "`" + ("." + "\n" + Cut(ending, t))))
  {
    hide Cut;
    var notice: seq<Piece> := [("Alias for ", '`'), (name, '`')];
    var rest: seq<Piece> := [(".", '\n')] + ending;
    FeedText(".", ending, t);
    QuotedText("Alias for ", name, rest, t);
    assert "Alias for " + "`" == "Alias for `";
    FeedText("", notice + rest, t);
    FeedText(title, [("", '\n')] + (notice + rest), t);
    assert [(title, '\n'), ("", '\n'), ("Alias for ", '`'), (name, '`'), (".", '\n')] + ending
        == [(title, '\n')] + ([("", '\n')] + (notice + rest));
  }

  lemma RenderPieces(p: Prompt, stem: string)
    ensures Render(p, stem) == Cut(Pieces(p, stem), Tail(p))
  {
    hide Cut, Tail, Title, Render, Pieces;
    if stem == p.name { RenderCanonical(p); } else { RenderAlias(p, stem); }
  }

  lemma CanonicalHead(title: string, canonical: string, invocation: string, t: string)
    ensures title + "\n\n" + "" + "\n" + canonical + "\n" + invocation + "\n\n" + t
         == title + "\n" + ("" + "\n" + ("" + "\n" + (canonical + "\n" + (invocation + ("\n\n" + t)))))
  {
  }

  lemma AliasHead(title: string, notice: string, canonical: string, invocation: string, t: string)
    ensures title + "\n\n" + (notice + ".") + "\n" + canonical + "\n" + invocation + "\n\n" + t
         == title + "\n" + ("" + "\n" + (notice + ("." + "\n" + (canonical + "\n" + (invocation + ("\n\n" + t))))))
  {
  }

  // ---------- The lines the check looks for ----------

  lemma LineFound(front: string, line: string, back: string)
    ensures Find(front + line + back, line).Some?
  {
    var s := front + line + back;
    assert s[|front|..|front| + |line|] == line;
    FindSome(s, line, |front|);
  }

  lemma LinesFound(p: Prompt, stem: string)
    ensures Find(Render(p, stem), CanonicalLine(p.name)).Some?
    ensures Find(Render(p, stem), InvocationLine(stem)).Some?
  {
    hide Find, Render, Tail, Title, Notice, CanonicalLine, InvocationLine;
    var title, notice, c, i, t := "# " + Title(p), Notice(p, stem), CanonicalLine(p.name), InvocationLine(stem), Tail(p);
    RenderParts(p, stem);
    var before := title + "\n\n" + notice + "\n";
    LineFound(before, c, "\n" + i + "\n\n" + t);
    LineFound(before + c + "\n", i, "\n\n" + t);
    SameText(before, c, i, t);
  }

  lemma SameText(before: string, c: string, i: string, t: string)
    ensures before + c + "\n" + i + "\n\n" + t == before + c + ("\n" + i + "\n\n" + t)
    ensures before + c + "\n" + i + "\n\n" + t == (before + c + "\n") + i + ("\n\n" + t)
  {
  }

  lemma RenderIsSolid(p: Prompt, stem: string)
    ensures Strip(Render(p, stem)) != ""
  {
    hide Render, Tail, Title, Notice, IsSpace;
    RenderParts(p, stem);
    HashIsSolid();
    var r := Render(p, stem);
    assert r[0] == '#';
    assert StripLeft(r) == r;
    Kept(r, 0);
  }

  // ---------- When an alias agrees with its prompt ----------

  lemma BehindTitleMark(title: string, i: nat)
    requires i <= |title|
    ensures At("# " + title, i + 2, MARKER) <==> At(title, i, MARKER)
  {
    hide MARKER;
    var s := "# " + title;
    if i + |MARKER| <= |title| { assert s[i + 2..i + 2 + |MARKER|] == title[i..i + |MARKER|]; }
  }

  lemma NotAtTitleMark(title: string, i: nat)
    requires i < 2
    ensures !At("# " + title, i, MARKER)
  {
    hide MARKER;
    MarkerFacts();
    if At("# " + title, i, MARKER) {
      AtChar("# " + title, i, MARKER, 0);
      AtChar("# " + title, i, MARKER, 1);
    }
  }

  lemma TitlePiece(title: string)
    ensures Find("# " + title, MARKER) == if Find(title, MARKER).Some? then Some(2 + Find(title, MARKER).value) else None
  {
    hide MARKER, At, Find;
    var s := "# " + title;
    forall i | 0 <= i <= |s|
      ensures At(s, i, MARKER) <==> i >= 2 && At(title, i - 2, MARKER)
    {
      if i < 2 { NotAtTitleMark(title, i); } else { BehindTitleMark(title, i - 2); }
    }
    var r := Find(title, MARKER);
    if r.Some? {
      OccursFits(title, MARKER, r.value);
      FindIs(s, MARKER, r.value + 2);
    } else {
      FindNone(s, MARKER);
    }
  }

  lemma FixedUnmarked()
    ensures Unmarked("") && Unmarked("Alias for ") && Unmarked(".")
    ensures Unmarked("Canonical prompt: ") && Unmarked("Invocation name: ")
  {
    hide Unmarked;
    ShortUnmarked("");
    ShortUnmarked("Alias for ");
    ShortUnmarked(".");
    NoHash("Canonical prompt: ");
    NoHash("Invocation name: ");
  }

  lemma ShortUnmarked(s: string)
    requires |s| < 16
    ensures Unmarked(s)
  {
    hide MARKER;
    MarkerFacts();
  }

  lemma NoHash(s: string)
    requires forall i :: 0 <= i < |s| ==> s[i] != '#'
    ensures Unmarked(s)
  {
    hide MARKER, Find;
    MarkerFacts();
    forall j | 0 <= j <= |s|
      ensures !At(s, j, MARKER)
    {
      if j + |MARKER| <= |s| { assert s[j..j + |MARKER|][0] == s[j]; }
    }
    FindNone(s, MARKER);
  }

  /** The texts of a prompt and of an alias go on alike behind the marker, if neither the title nor the
      names hold a marker of their own. */
  lemma SameAfter(p: Prompt, alias: string)
    requires alias != p.name && Unmarked(Title(p)) && Unmarked(p.name) && Unmarked(alias)
    ensures AfterMarker(Render(p, p.name)) == AfterMarker(Render(p, alias))
    ensures AfterMarker(Render(p, p.name)).Some?
  {
    hide Find, Cut, Title, Tail, Render, MARKER;
    RenderPieces(p, p.name);
    RenderPieces(p, alias);
    TailHasMarker(p);
    TitlePiece(Title(p));
    FixedUnmarked();
    AfterPieces(Pieces(p, p.name), Tail(p));
    AfterPieces(Pieces(p, alias), Tail(p));
  }

  // ---------- and when not ----------

  lemma CutNext(ps: seq<Piece>, t: string, n: nat)
    requires n < |ps|
    ensures |Cut(ps[n..], t)| == |ps[n].0| + 1 + |Cut(ps[n + 1..], t)|
  {
    assert ps[n..][1..] == ps[n + 1..];
  }

  lemma AliasLine(name: string, alias: string, t: string)
    ensures |Cut(Ending(name, alias), t)| == 19 + |name| + 1 + 1 + 18 + |alias| + 3 + |t|
  {
    EndingText(name, alias, t);
  }

  /** A marker in the title: the alias has more behind it. */
  lemma TitleMarked(p: Prompt, alias: string)
    requires alias != p.name && !Unmarked(Title(p))
    ensures AfterMarker(Render(p, p.name)) != AfterMarker(Render(p, alias))
  {
    hide Find, Cut, Title, Tail, Render, MARKER, AfterMarker;
    var t, title := Tail(p), "# " + Title(p);
    RenderPieces(p, p.name);
    RenderPieces(p, alias);
    TitlePiece(Title(p));
    var c, a := Pieces(p, p.name), Pieces(p, alias);
    AfterPiece(c, t, 0);
    AfterPiece(a, t, 0);
    assert c[0..] == c && a[0..] == a;
    CanonicalCut(title, Ending(p.name, p.name), t);
    AliasCut(title, p.name, Ending(p.name, alias), t);
    AliasLine(p.name, p.name, t);
    AliasLine(p.name, alias, t);
  }

  /** A marker in the name, and none in the title: so has it. */
  lemma NameMarked(p: Prompt, alias: string)
    requires alias != p.name && Unmarked(Title(p)) && !Unmarked(p.name)
    ensures AfterMarker(Render(p, p.name)) != AfterMarker(Render(p, alias))
  {
    hide Find, Cut, Title, Tail, Render, MARKER, AfterMarker;
    var t := Tail(p);
    RenderPieces(p, p.name);
    RenderPieces(p, alias);
    TitlePiece(Title(p));
    FixedUnmarked();
    var c, a := Pieces(p, p.name), Pieces(p, alias);
    AfterPiece(c, t, 4);
    AfterPiece(a, t, 3);
    assert c[3..] == Ending(p.name, p.name) && a[5..] == Ending(p.name, alias);
    CutNext(c, t, 3);
    CutNext(a, t, 3);
    CutNext(a, t, 4);
    AliasLine(p.name, p.name, t);
    AliasLine(p.name, alias, t);
  }

  /** Behind the alias there are two more lines and the tail. */
  lemma BehindAlias(p: Prompt, alias: string)
    requires |Pieces(p, alias)| == 12 && Pieces(p, alias)[10].0 == "" && Pieces(p, alias)[11].0 == ""
    ensures |Cut(Pieces(p, alias)[9..], Tail(p))| == |Pieces(p, alias)[9].0| + 3 + |Tail(p)|
  {
    hide Cut, Tail, Pieces;
    var a, t := Pieces(p, alias), Tail(p);
    CutNext(a, t, 9);
    CutNext(a, t, 10);
    CutNext(a, t, 11);
    assert a[12..] == [];
    CutNothing(t);
  }

  lemma CanonicalAfter(p: Prompt)
    requires Unmarked(Title(p)) && Unmarked(p.name)
    ensures AfterMarker(Render(p, p.name)) == AfterMarker(Tail(p))
  {
    hide Find, Cut, Title, Tail, Render, MARKER, AfterMarker;
    RenderPieces(p, p.name);
    TitlePiece(Title(p));
    FixedUnmarked();
    TailHasMarker(p);
    AfterPieces(Pieces(p, p.name), Tail(p));
  }

  lemma AliasAfter(p: Prompt, alias: string)
    requires alias != p.name && Unmarked(Title(p)) && Unmarked(p.name) && !Unmarked(alias)
    ensures AfterMarker(Render(p, alias)).Some? && |AfterMarker(Render(p, alias)).value| > |Tail(p)|
  {
    hide Find, Cut, Title, Tail, Render, MARKER, AfterMarker, Pieces, Separated, AllUnmarked;
    RenderPieces(p, alias);
    TitlePiece(Title(p));
    AliasPieceAt(p, alias);
    MarkerFacts();
    AfterPiece(Pieces(p, alias), Tail(p), 9);
    BehindAlias(p, alias);
    OccursFits(alias, MARKER, Find(alias, MARKER).value);
  }

  /** A marker in the alias alone: so has it again. */
  lemma AliasMarked(p: Prompt, alias: string)
    requires alias != p.name && Unmarked(Title(p)) && Unmarked(p.name) && !Unmarked(alias)
    ensures AfterMarker(Render(p, p.name)) != AfterMarker(Render(p, alias))
  {
    hide Find, Title, Tail, Render, MARKER, Unmarked;
    CanonicalAfter(p);
    AliasAfter(p, alias);
  }

  lemma AliasPieceAt(p: Prompt, alias: string)
    requires alias != p.name && Unmarked("# " + Title(p)) && Unmarked(p.name)
    ensures var a := Pieces(p, alias);
      |a| == 12 && a[9].0 == alias && AllUnmarked(a[..9]) && Separated(a) && a[10].0 == "" && a[11].0 == ""
  {
    hide Find, Title;
    FixedUnmarked();
  }

  lemma CutNothing(t: string)
    ensures Cut([], t) == t
  {
  }

  // ---------- Whole catalogs ----------

  /** No two stems of the catalog are the same. */
  predicate DistinctStems(catalog: seq<Prompt>) {
    forall i, j, k, l ::
      (0 <= i < |catalog| && 0 <= j < |Stems(catalog[i])| && 0 <= k < |catalog| && 0 <= l < |Stems(catalog[k])|
       && Stems(catalog[i])[j] == Stems(catalog[k])[l]) ==> i == k && j == l
  }

  /** The names that are put in front of the contract hold no marker, where there are aliases. */
  predicate NamesUnmarked(p: Prompt) {
    p.aliases != [] ==>
      Unmarked(Title(p)) && Unmarked(p.name) && forall j :: 0 <= j < |p.aliases| ==> Unmarked(p.aliases[j])
  }

  /** The files after syncing. */
  function Synced(catalog: seq<Prompt>): map<string, string> { Written(catalog, |catalog|, 0) }

  /** With distinct stems no file is written twice, so each holds its own text. */
  lemma {:induction false} WrittenIs(catalog: seq<Prompt>, i: nat, j: nat, k: nat, l: nat)
    requires i <= |catalog| && (i < |catalog| ==> j <= |Stems(catalog[i])|) && (i == |catalog| ==> j == 0)
    requires k < |catalog| && l < |Stems(catalog[k])| && DistinctStems(catalog)
    ensures k < i || (k == i && l < j) ==>
              var stem := Stems(catalog[k])[l];
              stem in Written(catalog, i, j) && Written(catalog, i, j)[stem] == Render(catalog[k], stem)
    decreases i, j
  {
    hide Render, Stems;
    if j > 0 {
      WrittenIs(catalog, i, j - 1, k, l);
    } else if i > 0 {
      WrittenIs(catalog, i - 1, |Stems(catalog[i - 1])|, k, l);
    }
  }

  lemma {:induction false} WrittenOnly(catalog: seq<Prompt>, i: nat, j: nat)
    requires i <= |catalog| && (i < |catalog| ==> j <= |Stems(catalog[i])|) && (i == |catalog| ==> j == 0)
    ensures Written(catalog, i, j).Keys <= AllStems(catalog)
    ensures forall stem :: stem in Written(catalog, i, j) ==> exists p: Prompt :: Written(catalog, i, j)[stem] == Render(p, stem)
    decreases i, j
  {
    hide Render, Stems;
    if j > 0 {
      WrittenOnly(catalog, i, j - 1);
    } else if i > 0 {
      WrittenOnly(catalog, i - 1, |Stems(catalog[i - 1])|);
    }
  }

  /** The stem's file holds the text of its own prompt. */
  predicate HasOwnText(catalog: seq<Prompt>, k: nat, l: nat)
    requires k < |catalog| && l < |Stems(catalog[k])|
  {
    var stem := Stems(catalog[k])[l];
    stem in Synced(catalog) && Synced(catalog)[stem] == Render(catalog[k], stem)
  }

  lemma SyncedFiles(catalog: seq<Prompt>)
    requires DistinctStems(catalog)
    ensures Synced(catalog).Keys == AllStems(catalog)
    ensures forall k, l :: 0 <= k < |catalog| && 0 <= l < |Stems(catalog[k])| ==>
              HasOwnText(catalog, k, l)
  {
    hide Render, Stems, Written, DistinctStems;
    forall k, l | 0 <= k < |catalog| && 0 <= l < |Stems(catalog[k])|
      ensures HasOwnText(catalog, k, l)
    {
      WrittenIs(catalog, |catalog|, 0, k, l);
    }
    WrittenOnly(catalog, |catalog|, 0);
    forall stem | stem in AllStems(catalog)
      ensures stem in Synced(catalog)
    {
      var k, l :| 0 <= k < |catalog| && 0 <= l < |Stems(catalog[k])| && Stems(catalog[k])[l] == stem;
      assert HasOwnText(catalog, k, l);
    }
  }

  lemma AliasAgreement(p: Prompt, alias: string, files: map<string, string>)
    requires alias in files && files[alias] == Render(p, alias) && alias != p.name
    ensures AliasAgrees(p, Render(p, p.name), alias, files) <==> Unmarked(Title(p)) && Unmarked(p.name) && Unmarked(alias)
  {
    hide Find, Render, Title, AfterMarker, CanonicalLine, InvocationLine, Unmarked;
    LinesFound(p, alias);
    RenderSplits(p, p.name);
    if !Unmarked(Title(p)) {
      TitleMarked(p, alias);
    } else if !Unmarked(p.name) {
      NameMarked(p, alias);
    } else if !Unmarked(alias) {
      AliasMarked(p, alias);
    } else {
      SameAfter(p, alias);
    }
  }

  /** For a catalog without repeated names, the files that are written pass the check exactly when no
      prompt with aliases has a marker of the tool sequence in its title, its name or an alias. */
  lemma SyncPasses(catalog: seq<Prompt>)
    requires DistinctStems(catalog)
    ensures Accepts(catalog, Synced(catalog), Synced(catalog)) <==>
              forall i :: 0 <= i < |catalog| ==> NamesUnmarked(catalog[i])
  {
    hide Synced, Title, Unmarked, AliasAgrees, Render, Strip, AllStems, DistinctStems;
    var files := Synced(catalog);
    SyncedFiles(catalog);
    forall i | 0 <= i < |catalog|
      ensures PromptAgrees(catalog[i], files) <==> NamesUnmarked(catalog[i])
    {
      PromptAgreement(catalog, i, files);
    }
  }

  /** A catalog without repeated names whose own files fail the check: the marker is in a title. */
  lemma MarkedCatalog()
    ensures var catalog := [Prompt("a", ["b"], MARKER, "", [], [], "", "")];
      DistinctStems(catalog) && !Accepts(catalog, Synced(catalog), Synced(catalog))
  {
    hide MARKER, Find, Accepts, Synced, DistinctStems, NamesUnmarked;
    var p := Prompt("a", ["b"], MARKER, "", [], [], "", "");
    OneIsDistinct(p, "b");
    MarkedTitle(p);
    SyncPasses([p]);
    assert [p][0] == p;
  }

  lemma OneIsDistinct(p: Prompt, alias: string)
    requires p.aliases == [alias] && p.name != alias
    ensures DistinctStems([p])
  {
    assert Stems(p) == [p.name, alias];
  }

  lemma MarkedTitle(p: Prompt)
    requires p.title == MARKER && p.aliases != []
    ensures !NamesUnmarked(p)
  {
    hide MARKER, Find;
    MarkerFound();
    MarkerFacts();
  }

  lemma MarkerFound()
    ensures Find(MARKER, MARKER).Some?
  {
    hide MARKER;
    assert At(MARKER, 0, MARKER);
    FindSome(MARKER, MARKER, 0);
  }

  lemma PromptAgreement(catalog: seq<Prompt>, i: nat, files: map<string, string>)
    requires i < |catalog| && DistinctStems(catalog)
    requires files == Synced(catalog) && forall l :: 0 <= l < |Stems(catalog[i])| ==> HasOwnText(catalog, i, l)
    ensures PromptAgrees(catalog[i], files) <==> NamesUnmarked(catalog[i])
  {
    hide Title, Unmarked, AliasAgrees, Render, Strip, Synced;
    var p := catalog[i];
    assert Stems(p)[0] == p.name && HasOwnText(catalog, i, 0);
    RenderIsSolid(p, p.name);
    forall j | 0 <= j < |p.aliases|
      ensures AliasAgrees(p, files[p.name], p.aliases[j], files) <==>
                Unmarked(Title(p)) && Unmarked(p.name) && Unmarked(p.aliases[j])
    {
      assert Stems(p)[j + 1] == p.aliases[j] && HasOwnText(catalog, i, j + 1);
      assert p.aliases[j] != p.name;
      AliasAgreement(p, p.aliases[j], files);
    }
    if p.aliases != [] {
      assert PromptAgrees(p, files) ==> AliasAgrees(p, files[p.name], p.aliases[0], files);
    }
  }

  /** Every text that is written can be split at the marker, so the check never fails to. */
  lemma RenderSplits(p: Prompt, stem: string)
    ensures AfterMarker(Render(p, stem)).Some?
  {
    hide Find, Render, Tail, Title, Notice, CanonicalLine, InvocationLine, MARKER;
    RenderParts(p, stem);
    TailHasMarker(p);
    var head := HeadText(Title(p), Notice(p, stem), CanonicalLine(p.name), InvocationLine(stem));
    var k := Find(Tail(p), MARKER).value;
    OccursFits(Tail(p), MARKER, k);
    assert (head + Tail(p))[|head| + k..|head| + k + |MARKER|] == Tail(p)[k..k + |MARKER|];
    OccursMoved(head, Tail(p), k);
    FindSome(head + Tail(p), MARKER, |head| + k);
  }

  lemma OccursMoved(head: string, t: string, k: nat)
    requires At(t, k, MARKER)
    ensures At(head + t, |head| + k, MARKER)
  {
    hide MARKER;
    assert (head + t)[|head| + k..|head| + k + |MARKER|] == t[k..k + |MARKER|];
  }

  /** Writing both directories and checking them: the result of the check, for any catalog without
      repeated names and whatever the directories held before. */
  method SyncAndValidate(catalog: seq<Prompt>, canonical: PromptDirectory, mirror: PromptDirectory)
    returns (complaints: seq<Complaint>, split: bool)
    requires DistinctStems(catalog)
    modifies canonical, mirror
    ensures complaints == [] && split <==> forall i :: 0 <= i < |catalog| ==> NamesUnmarked(catalog[i])
  {
    hide Synced, Title, Unmarked, Render, Stems, DistinctStems, Accepts, AfterMarker, Written, NamesUnmarked;
    canonical.Sync(catalog);
    mirror.Sync(catalog);
    SyncPasses(catalog);
    SyncedIs(catalog);
    complaints, split := Validate(catalog, canonical.files, mirror.files);
  }

  lemma SyncedIs(catalog: seq<Prompt>)
    ensures Synced(catalog) == Written(catalog, |catalog|, 0)
  {
    hide Written;
  }
}
