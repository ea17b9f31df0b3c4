/**
 Texts line by line: the lines that are not blank, as they stand and without the white space around
 them, and what stripping a text does to them.
 */
module TextLines {
  import opened Text

  /** `s.split("\n")` */
  function Lines(s: string): (r: seq<string>)
    ensures |r| >= 1
  {
    if s == "" then [""]
    else if s[0] == '\n' then [""] + Lines(s[1..])
    else var r := Lines(s[1..]); [[s[0]] + r[0]] + r[1..]
  }

  predicate Blank(line: string) { Strip(line) == "" }

  /** A line, if it is not blank. */
  function Own(line: string): seq<string> { if Blank(line) then [] else [line] }

  /** The lines that are not blank. */
  function Filled(lines: seq<string>): seq<string> {
    if lines == [] then [] else Own(lines[0]) + Filled(lines[1..])
  }

  function TextFilled(s: string): seq<string> { Filled(Lines(s)) }

  /** A line without the white space around it, if anything is left of it. */
  function Word(line: string): seq<string> { if Blank(line) then [] else [Strip(line)] }

  function Words(lines: seq<string>): seq<string> {
    if lines == [] then [] else Word(lines[0]) + Words(lines[1..])
  }

  function TextWords(s: string): seq<string> { Words(Lines(s)) }

  /** The lines that are not blank and have a line feed behind them. */
  function Fed(s: string): seq<string> { Filled(Lines(s)[..|Lines(s)| - 1]) }

  /** The line behind the last line feed, if it is not blank. */
  function Unfed(s: string): seq<string> { Own(Lines(s)[|Lines(s)| - 1]) }

  // ---------- Line by line ----------

  lemma {:induction false} LinesFirst(l: string, t: string)
    requires OneLine(l)
    ensures Lines(l + ("\n" + t)) == [l] + Lines(t)
  {
    if l == "" {
      assert l + ("\n" + t) == "\n" + t;
      assert ("\n" + t)[1..] == t;
    } else {
      assert (l + ("\n" + t))[1..] == l[1..] + ("\n" + t);
      LinesFirst(l[1..], t);
      assert [l[0]] + l[1..] == l;
      assert ([l[1..]] + Lines(t))[1..] == Lines(t);
    }
  }

  lemma {:induction false} LinesAlone(l: string)
    requires OneLine(l)
    ensures Lines(l) == [l]
  {
    if l != "" {
      LinesAlone(l[1..]);
      assert [l[0]] + l[1..] == l;
    }
  }

  lemma NothingBlank()
    ensures Blank("") && Own("") == [] && Word("") == [] && Lines("") == [""]
    ensures TextFilled("") == [] && TextWords("") == []
  {
    assert Strip("") == "";
  }

  /** One more line in front. */
  lemma FilledMore(l: string, t: string)
    requires OneLine(l)
    ensures TextFilled(l + ("\n" + t)) == Own(l) + TextFilled(t)
    ensures Fed(l + ("\n" + t)) == Own(l) + Fed(t) && Unfed(l + ("\n" + t)) == Unfed(t)
  {
    hide Lines, Own;
    LinesFirst(l, t);
    var all := [l] + Lines(t);
    assert all[1..] == Lines(t);
    assert all[..|all| - 1] == [l] + Lines(t)[..|Lines(t)| - 1];
    assert all[..|all| - 1][1..] == Lines(t)[..|Lines(t)| - 1];
  }

  lemma FilledAlone(l: string)
    requires OneLine(l)
    ensures TextFilled(l) == Own(l) && Fed(l) == [] && Unfed(l) == Own(l)
  {
    hide Lines, Own;
    LinesAlone(l);
    WordsAlone(l);
    assert [l][..0] == [];
  }

  lemma WordsOfLine(l: string, t: string)
    requires OneLine(l)
    ensures TextWords(l + ("\n" + t)) == Word(l) + TextWords(t)
  {
    hide Lines, Word;
    LinesFirst(l, t);
    assert ([l] + Lines(t))[1..] == Lines(t);
  }

  lemma LineWord(l: string)
    requires OneLine(l)
    ensures TextWords(l) == Word(l)
  {
    hide Lines, Word;
    LinesAlone(l);
    WordsAlone(l);
  }

  /** The position of the first line feed, or the length. */
  function Break(s: string): (n: nat)
    ensures n <= |s| && OneLine(s[..n]) && (n < |s| ==> s[n] == '\n')
  {
    if s == "" || s[0] == '\n' then 0 else 1 + Break(s[1..])
  }

  /** A text is one line, or a line and the text behind its line feed. */
  lemma CutFirst(s: string) returns (l: string, t: string)
    ensures OneLine(l)
    ensures if OneLine(s) then l == s else |t| < |s| && s == l + ("\n" + t)
  {
    var n := Break(s);
    l := s[..n];
    if n < |s| {
      t := s[n + 1..];
      assert s[n] == '\n';
    } else {
      t := "";
      assert l == s;
    }
  }

  // ---------- Lines and words ----------

  lemma {:induction false} WordsAppend(a: seq<string>, b: seq<string>)
    ensures Words(a + b) == Words(a) + Words(b)
  {
    hide Word;
    if a == [] {
      assert a + b == b;
    } else {
      WordsAppend(a[1..], b);
      assert (a + b)[1..] == a[1..] + b;
      Regroup3(Word(a[0]), Words(a[1..]), Words(b));
    }
  }

  lemma {:induction false} FilledAppend(a: seq<string>, b: seq<string>)
    ensures Filled(a + b) == Filled(a) + Filled(b)
  {
    hide Own;
    if a == [] {
      assert a + b == b;
    } else {
      FilledAppend(a[1..], b);
      assert (a + b)[1..] == a[1..] + b;
      Regroup3(Own(a[0]), Filled(a[1..]), Filled(b));
    }
  }

  lemma WordsAlone(l: string)
    ensures Words([l]) == Word(l) && Filled([l]) == Own(l)
  {
  }

  /** The words are those of the lines that are not blank. */
  lemma {:induction false} WordsOfFilled(lines: seq<string>)
    ensures Words(Filled(lines)) == Words(lines)
  {
    if lines != [] {
      WordsOfFilled(lines[1..]);
      WordsAppend(Own(lines[0]), Filled(lines[1..]));
      WordsAlone(lines[0]);
    }
  }

  /** The lines that are not blank, with and without a line feed behind them. */
  lemma FilledParts(s: string)
    ensures TextFilled(s) == Fed(s) + Unfed(s)
  {
    hide Lines, Own;
    var r := Lines(s);
    assert r == r[..|r| - 1] + [r[|r| - 1]];
    FilledAppend(r[..|r| - 1], [r[|r| - 1]]);
    WordsAlone(r[|r| - 1]);
  }

  lemma {:induction false} FedClosed(t: string)
    ensures Fed(t + "\n") == TextFilled(t) && Unfed(t + "\n") == []
    decreases |t|
  {
    hide TextFilled, Fed, Unfed, Own;
    var l, u := CutFirst(t);
    if OneLine(t) {
      FilledMore(t, "");
      FilledAlone("");
      FilledAlone(t);
      NothingBlank();
      assert t + "\n" == t + ("\n" + "");
    } else {
      FedClosed(u);
      FilledMore(l, u);
      FilledMore(l, u + "\n");
      assert t + "\n" == l + ("\n" + (u + "\n"));
    }
  }

  // ---------- Stripping a line ----------

  lemma SpaceMakesBlank(l: string)
    ensures Blank(l) <==> StripLeft(l) == ""
  {
    var k := StripLeft(l);
    if k != "" { Kept(k, 0); }
  }

  lemma StripTwice(l: string)
    ensures StripLeft(StripLeft(l)) == StripLeft(l)
    ensures Strip(StripLeft(l)) == Strip(l) && Blank(StripLeft(l)) == Blank(l) && Word(StripLeft(l)) == Word(l)
  {
    hide IsSpace, StripRight;
    assert Lead(StripLeft(l)) == 0;
  }

  lemma StripLeftOfRight(l: string)
    requires !Blank(l)
    ensures StripRight(l) != "" && StripLeft(StripRight(l)) == StripRight(StripLeft(l))
  {
    hide IsSpace;
    SpaceMakesBlank(l);
    var n := Lead(l);
    Kept(l, n);
    var r := StripRight(l);
    LeadIs(r, n);
    LeftThenRight(l, n);
  }

  lemma {:induction false} LeadIs(s: string, n: nat)
    requires n < |s| && (forall i :: 0 <= i < n ==> IsSpace(s[i])) && !IsSpace(s[n])
    ensures Lead(s) == n
  {
    hide IsSpace;
    if n > 0 { LeadIs(s[1..], n - 1); }
  }

  lemma {:induction false} TrailIs(s: string, n: nat)
    requires n <= |s| && (forall i :: n <= i < |s| ==> IsSpace(s[i])) && (n > 0 ==> !IsSpace(s[n - 1]))
    ensures Trail(s) == n
  {
    hide IsSpace;
    if n < |s| { TrailIs(s[..|s| - 1], n); }
  }

  lemma LeftThenRight(l: string, n: nat)
    requires n < |l| && n < Trail(l) && n == Lead(l)
    ensures StripRight(l)[n..] == StripRight(l[n..])
  {
    hide IsSpace, Lead, Trail;
    var m, t := Trail(l), l[n..];
    forall i | m - n <= i < |t|
      ensures IsSpace(t[i])
    {
      assert t[i] == l[n + i];
    }
    assert t[m - n - 1] == l[m - 1];
    TrailIs(t, m - n);
    assert l[..m][n..] == t[..m - n];
  }

  /** The white space at the end of a line makes no difference to its word. */
  lemma StripRightWord(l: string)
    ensures Blank(StripRight(l)) == Blank(l) && Word(StripRight(l)) == Word(l)
  {
    hide IsSpace, StripLeft;
    var r := StripRight(l);
    SpaceMakesBlank(l);
    SpaceMakesBlank(r);
    if Blank(l) {
      BlankRight(l);
    } else {
      StripLeftOfRight(l);
      StripRightTwice(StripLeft(l));
    }
  }

  lemma BlankRight(l: string)
    requires StripLeft(l) == ""
    ensures StripRight(l) == "" && Blank("")
  {
    hide IsSpace;
    assert l[..|l|] == l;
    NothingBlank();
  }

  lemma StripRightTwice(l: string)
    ensures StripRight(StripRight(l)) == StripRight(l)
  {
    hide IsSpace;
    TrailIs(StripRight(l), |StripRight(l)|);
  }

  // ---------- Stripping a text ----------

  function TrimFirst(ls: seq<string>): seq<string> { if ls == [] then [] else [StripLeft(ls[0])] + ls[1..] }

  function TrimLast(ls: seq<string>): seq<string> {
    if ls == [] then [] else ls[..|ls| - 1] + [StripRight(ls[|ls| - 1])]
  }

  /** What stripping a text makes of its lines: the first one loses its indentation, the last one the
      white space at its end. */
  function TrimEnds(ls: seq<string>): seq<string> { TrimLast(TrimFirst(ls)) }

  lemma WordsTrimmed(ls: seq<string>)
    ensures Words(TrimFirst(ls)) == Words(ls) && Words(TrimLast(ls)) == Words(ls)
  {
    hide StripLeft, StripRight, Words, Word;
    if ls != [] {
      var n := |ls| - 1;
      WordsAppend([ls[0]], ls[1..]);
      WordsAppend([StripLeft(ls[0])], ls[1..]);
      WordsAppend(ls[..n], [ls[n]]);
      WordsAppend(ls[..n], [StripRight(ls[n])]);
      assert ls == [ls[0]] + ls[1..] && ls == ls[..n] + [ls[n]];
      WordsAlone(ls[0]);
      WordsAlone(StripLeft(ls[0]));
      WordsAlone(ls[n]);
      WordsAlone(StripRight(ls[n]));
      StripTwice(ls[0]);
      StripRightWord(ls[n]);
    }
  }

  lemma StripLeftFront(c: char, l: string)
    requires IsSpace(c)
    ensures StripLeft([c] + l) == StripLeft(l)
  {
    assert ([c] + l)[1..] == l;
  }

  lemma SpaceInFront(c: char, s: string)
    requires IsSpace(c)
    ensures TrimFirst(TextFilled([c] + s)) == TrimFirst(TextFilled(s))
  {
    hide StripLeft, StripRight;
    assert ([c] + s)[1..] == s;
    var r := Lines(s);
    if c == '\n' {
      NothingBlank();
      assert ([""] + r)[1..] == r;
    } else {
      assert ([[c] + r[0]] + r[1..])[1..] == r[1..];
      StripLeftFront(c, r[0]);
    }
  }

  lemma SpaceFront(c: char, s: string)
    requires IsSpace(c)
    ensures TextWords([c] + s) == TextWords(s)
  {
    hide Lines, Words, Filled, TrimFirst, TrimLast;
    SpaceInFront(c, s);
    WordsTrimmed(TextFilled(s));
    WordsTrimmed(TextFilled([c] + s));
    WordsOfFilled(Lines(s));
    WordsOfFilled(Lines([c] + s));
  }

  lemma {:induction false} SpacesFront(w: string, s: string)
    requires AllSpace(w)
    ensures TextWords(w + s) == TextWords(s)
  {
    hide TextWords, IsSpace;
    if w == "" {
      assert w + s == s;
    } else {
      SpacesFront(w[1..], s);
      SpaceFront(w[0], w[1..] + s);
      assert w + s == [w[0]] + (w[1..] + s);
    }
  }

  /** A text that starts with a solid character keeps its first line. */
  lemma FirstIsSolid(s: string)
    requires s == "" || !IsSpace(s[0])
    ensures TrimFirst(TextFilled(s)) == TextFilled(s)
  {
    hide IsSpace, StripRight;
    NothingBlank();
    if s != "" {
      var r := Lines(s);
      SolidIsNoFeed(s[0]);
      assert r[0][0] == s[0];
      assert StripLeft(r[0]) == r[0];
      SpaceMakesBlank(r[0]);
    }
  }

  lemma {:induction false} FilledLeft(s: string)
    ensures TextFilled(StripLeft(s)) == TrimFirst(TextFilled(s))
  {
    hide TextFilled, TrimFirst, IsSpace;
    if s == "" || !IsSpace(s[0]) {
      assert StripLeft(s) == s;
      FirstIsSolid(s);
    } else {
      FilledLeft(s[1..]);
      SpaceInFront(s[0], s[1..]);
      assert s == [s[0]] + s[1..];
      StripLeftFront(s[0], s[1..]);
    }
  }

  lemma TrimLastMore(a: seq<string>, ls: seq<string>)
    ensures TrimLast(a + ls) == if ls == [] then TrimLast(a) else a + TrimLast(ls)
  {
    hide StripRight;
    if ls == [] {
      assert a + ls == a;
    } else {
      var n := |a + ls| - 1;
      assert (a + ls)[..n] == a + ls[..|ls| - 1];
    }
  }

  lemma StripRightBack(t: string, c: char)
    requires IsSpace(c)
    ensures StripRight(t + [c]) == StripRight(t)
  {
    hide IsSpace;
    assert (t + [c])[..|t + [c]| - 1] == t;
  }

  lemma BlankBack(t: string, c: char)
    requires IsSpace(c)
    ensures Blank(t + [c]) == Blank(t)
  {
    hide IsSpace, StripLeft, StripRight;
    StripRightWord(t);
    StripRightWord(t + [c]);
    StripRightBack(t, c);
  }

  lemma {:induction false} SpaceBehind(s: string, c: char)
    requires IsSpace(c)
    ensures TrimLast(TextFilled(s + [c])) == TrimLast(TextFilled(s))
    ensures TextFilled(s + [c]) == [] <==> TextFilled(s) == []
    decreases |s|
  {
    hide TextFilled, TrimLast, IsSpace, Own;
    var l, t := CutFirst(s);
    if OneLine(s) {
      SpaceBehindLine(s, c);
    } else {
      SpaceBehind(t, c);
      FilledMore(l, t);
      FilledMore(l, t + [c]);
      assert s + [c] == l + ("\n" + (t + [c]));
      TrimLastMore(Own(l), TextFilled(t));
      TrimLastMore(Own(l), TextFilled(t + [c]));
    }
  }

  lemma SpaceBehindLine(l: string, c: char)
    requires OneLine(l) && IsSpace(c)
    ensures TrimLast(TextFilled(l + [c])) == TrimLast(TextFilled(l))
    ensures TextFilled(l + [c]) == [] <==> TextFilled(l) == []
  {
    hide TextFilled, StripRight, Blank, IsSpace;
    FilledAlone(l);
    if c == '\n' {
      FilledMore(l, "");
      NothingBlank();
      assert l + [c] == l + ("\n" + "");
    } else {
      FilledAlone(l + [c]);
      BlankBack(l, c);
      StripRightBack(l, c);
    }
  }

  lemma {:induction false} LastIsSolid(s: string)
    requires s == "" || !IsSpace(s[|s| - 1])
    ensures TrimLast(TextFilled(s)) == TextFilled(s)
    ensures s != "" ==> TextFilled(s) != []
    decreases |s|
  {
    hide TextFilled, TrimLast, IsSpace, Own;
    var l, t := CutFirst(s);
    if OneLine(s) {
      SolidLine(s);
    } else {
      SolidIsNoFeed(s[|s| - 1]);
      assert t != "" && t[|t| - 1] == s[|s| - 1];
      LastIsSolid(t);
      FilledMore(l, t);
      TrimLastMore(Own(l), TextFilled(t));
    }
  }

  lemma LastKept(l: string)
    requires l == "" || !IsSpace(l[|l| - 1])
    ensures StripRight(l) == l && (l != "" ==> StripLeft(l) != "")
  {
    hide IsSpace, Lead;
    TrailIs(l, |l|);
    assert l[..|l|] == l;
    assert Lead(l) < |l| || l == "";
  }

  lemma SolidLine(l: string)
    requires OneLine(l) && (l == "" || !IsSpace(l[|l| - 1]))
    ensures TrimLast(TextFilled(l)) == TextFilled(l) && (l != "" ==> TextFilled(l) != [])
  {
    hide TextFilled, IsSpace, StripLeft, StripRight;
    FilledAlone(l);
    NothingBlank();
    SpaceMakesBlank(l);
    LastKept(l);
  }

  lemma {:induction false} FilledRight(s: string)
    ensures TextFilled(StripRight(s)) == TrimLast(TextFilled(s))
    decreases |s|
  {
    hide TextFilled, TrimLast, IsSpace;
    if s == "" || !IsSpace(s[|s| - 1]) {
      assert StripRight(s) == s;
      LastIsSolid(s);
    } else {
      var n := |s| - 1;
      FilledRight(s[..n]);
      SpaceBehind(s[..n], s[n]);
      assert s == s[..n] + [s[n]];
      StripRightBack(s[..n], s[n]);
    }
  }

  /** Stripping a text trims its first and its last line and leaves the others. */
  lemma FilledStripped(s: string)
    ensures TextFilled(Strip(s)) == TrimEnds(TextFilled(s))
  {
    hide TextFilled, StripLeft, StripRight, TrimFirst, TrimLast;
    FilledLeft(s);
    FilledRight(StripLeft(s));
  }

  lemma WordsStripped(s: string)
    ensures TextWords(Strip(s)) == TextWords(s)
  {
    hide Lines, Strip, Words, Filled, TrimFirst, TrimLast;
    FilledStripped(s);
    WordsTrimmed(TextFilled(s));
    WordsTrimmed(TrimFirst(TextFilled(s)));
    WordsOfFilled(Lines(s));
    WordsOfFilled(Lines(Strip(s)));
  }
}
