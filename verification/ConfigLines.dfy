/** What the steps of stripping a configuration do to the lines and the words of a text. */
module ConfigLines {
  import opened Text
  import opened TextLines
  import opened ConfigEditor
  import opened ConfigMatching
  import opened ConfigRoundTrip

  // ---------- Tidying ----------

  lemma {:induction false} CollapseLine(l: string, r: string)
    requires OneLine(l)
    ensures Collapse(l + r) == l + Collapse(r)
  {
    if l == "" {
      assert l + r == r && l + Collapse(r) == Collapse(r);
    } else {
      assert (l + r)[1..] == l[1..] + r && (l + r)[0] == l[0];
      CollapseLine(l[1..], r);
      assert [l[0]] + (l[1..] + Collapse(r)) == l + Collapse(r);
    }
  }

  predicate AllFeeds(w: string) { forall i :: 0 <= i < |w| ==> w[i] == '\n' }

  /** What a run of line feeds collapses to. */
  function FeedRun(r: string): (f: string)
    ensures AllFeeds(f) && f != ""
  {
    if Feeds(r) >= 2 then "\n\n" else "\n"
  }

  lemma CollapseFeeds(r: string)
    requires r == "" || r[0] == '\n'
    ensures r == "" ==> Collapse(r) == r
    ensures r != "" ==> Feeds(r) > 0 && Collapse(r) == FeedRun(r) + Collapse(r[Feeds(r)..])
  {
  }

  lemma {:induction false} FeedsInFront(w: string, t: string)
    requires AllFeeds(w)
    ensures TextFilled(w + t) == TextFilled(t)
  {
    hide TextFilled, Fed, Unfed;
    if w == "" {
      assert w + t == t;
    } else {
      FeedsInFront(w[1..], t);
      FilledMore("", w[1..] + t);
      NothingBlank();
      assert w + t == "" + ("\n" + (w[1..] + t));
    }
  }

  lemma FeedsBetween(l: string, w: string, t: string)
    requires OneLine(l) && AllFeeds(w) && w != ""
    ensures TextFilled(l + (w + t)) == Own(l) + TextFilled(t)
  {
    hide TextFilled, Fed, Unfed, Own;
    FeedsInFront(w[1..], t);
    FilledMore(l, w[1..] + t);
    assert w + t == "\n" + (w[1..] + t);
  }

  lemma {:induction false} CollapseFilled(s: string)
    ensures TextFilled(Collapse(s)) == TextFilled(s)
    decreases |s|
  {
    hide TextFilled, Collapse, FeedRun, Feeds, OneLine;
    var n := Break(s);
    var l, r := s[..n], s[n..];
    assert s == l + r;
    CollapseLine(l, r);
    CollapseFeeds(r);
    if r != "" {
      CollapseFilled(r[Feeds(r)..]);
      CollapseBetween(l, r);
    }
  }

  lemma CollapseBetween(l: string, r: string)
    requires OneLine(l) && r != "" && r[0] == '\n'
    requires TextFilled(Collapse(r[Feeds(r)..])) == TextFilled(r[Feeds(r)..])
    ensures TextFilled(l + Collapse(r)) == TextFilled(l + r)
  {
    hide TextFilled, Collapse, FeedRun, OneLine;
    var k := Feeds(r);
    CollapseFeeds(r);
    FeedsBetween(l, r[..k], r[k..]);
    assert r == r[..k] + r[k..];
    FeedsBetween(l, FeedRun(r), Collapse(r[k..]));
  }

  /** Tidying ends every line, and trims the first and the last of those that are not blank. */
  lemma TidyLines(w: string)
    ensures Fed(Tidy(w)) == TrimEnds(TextFilled(w)) && Unfed(Tidy(w)) == []
  {
    hide TextFilled, Fed, Unfed, Strip, Collapse, TrimEnds;
    CollapseFilled(w);
    FilledStripped(Collapse(w));
    FedClosed(Strip(Collapse(w)));
    FilledAlone("");
    NothingBlank();
  }

  /** Tidying keeps all the words. */
  lemma WordsTidy(w: string)
    ensures TextWords(Tidy(w)) == TextWords(w)
  {
    hide Lines, Fed, Unfed, Tidy, Words, Filled, TrimFirst, TrimLast;
    var ls, first := TextFilled(w), TrimFirst(TextFilled(w));
    TidyLines(w);
    FilledParts(Tidy(w));
    assert TextFilled(Tidy(w)) == TrimLast(first);
    WordsTrimmed(ls);
    WordsTrimmed(first);
    WordsOfFilled(Lines(w));
    WordsOfFilled(Lines(Tidy(w)));
  }

  // ---------- Where server headers stand ----------

  lemma ServerBehind(l: string, t: string, i: nat)
    requires i <= |t|
    ensures ServerAt(l + ("\n" + t), |l| + 1 + i) == ServerAt(t, i)
  {
    hide SERVER;
    var s, q, pat := l + ("\n" + t), |l| + 1, SERVER + "\n";
    assert s[q - 1] == '\n' && forall j :: 0 <= j < |t| ==> s[q + j] == t[j];
    if i + |pat| <= |t| { assert s[q + i..q + i + |pat|] == t[i..i + |pat|]; }
  }

  lemma ServerInFront(l: string, t: string)
    requires OneLine(l)
    ensures ServerAt(l + ("\n" + t), 0) <==> l == SERVER
    ensures forall i :: 0 < i <= |l| ==> !ServerAt(l + ("\n" + t), i)
  {
    hide SERVER;
    ServerLine();
    var s, q := l + ("\n" + t), |l| + 1;
    assert s[..q] == l + "\n" && s[0..q - 1] == l && s[q - 1] == '\n';
    if l == SERVER { assert s[0..0 + |SERVER + "\n"|] == SERVER + "\n"; }
    if At(s, 0, SERVER + "\n") { MarkerIsLine(s, 0, q, SERVER); }
    forall i | 0 < i <= |l|
      ensures !ServerAt(s, i)
    {
      assert s[i - 1] == l[i - 1];
    }
  }

  lemma ServerMore(l: string, t: string)
    requires OneLine(l)
    ensures NoServers(l + ("\n" + t)) <==> l != SERVER && NoServers(t)
  {
    hide ServerAt, SERVER;
    var s, q := l + ("\n" + t), |l| + 1;
    ServerInFront(l, t);
    forall i | 0 <= i <= |t|
      ensures ServerAt(s, q + i) == ServerAt(t, i)
    {
      ServerBehind(l, t, i);
    }
    if l != SERVER && NoServers(t) {
      forall i | 0 <= i <= |s|
        ensures !ServerAt(s, i)
      {
        if i >= q { assert ServerAt(s, q + (i - q)) == ServerAt(t, i - q); }
      }
    }
  }

  /** A server header is found exactly when one of the ended lines reads so. */
  lemma {:induction false} ServersFed(s: string)
    ensures NoServers(s) <==> SERVER !in Fed(s)
    decreases |s|
  {
    hide ServerAt, Fed, Unfed, TextFilled, SERVER, Strip;
    var l, t := CutFirst(s);
    if OneLine(s) {
      FilledAlone(s);
      assert s[0..] == s;
      forall i | 0 <= i <= |s|
        ensures !ServerAt(s, i)
      {
        NoServerAhead(s, i);
      }
    } else {
      ServersFed(t);
      ServerMore(l, t);
      FilledMore(l, t);
      ServerLine();
      StripTrimmed(SERVER);
    }
  }

  lemma NoServerAhead(s: string, i: nat)
    requires OneLine(s) && i <= |s|
    ensures !ServerAt(s, i)
  {
    hide SERVER;
    assert s[0..] == s;
    NoMarkerAhead(s, 0, i, SERVER);
  }

  lemma {:induction false} ServersCounted(s: string, k: nat)
    requires k <= |s| && exists i :: k <= i < |s| && ServerAt(s, i)
    ensures RemoveServers(s, k).1 > 0
    decreases |s| - k
  {
    hide ServerAt;
    if !ServerAt(s, k) { ServersCounted(s, k + 1); }
  }

  // ---------- Solid characters of words ----------

  function SolidAll(words: seq<string>): nat { if words == [] then 0 else Solid(words[0]) + SolidAll(words[1..]) }

  lemma {:induction false} SolidAllAppend(a: seq<string>, b: seq<string>)
    ensures SolidAll(a + b) == SolidAll(a) + SolidAll(b)
  {
    hide Solid;
    if a == [] {
      assert a + b == b;
    } else {
      assert (a + b)[1..] == a[1..] + b;
      SolidAllAppend(a[1..], b);
    }
  }

  lemma SolidWord(l: string)
    ensures SolidAll(Word(l)) == Solid(l)
  {
    hide Strip;
    SolidStrip(l);
    SolidSpace("");
  }

  /** All solid characters are in the words. */
  lemma {:induction false} SolidOfWords(s: string)
    ensures Solid(s) == SolidAll(TextWords(s))
    decreases |s|
  {
    hide Solid, SolidAll, TextWords, Word;
    var l, t := CutFirst(s);
    SolidWord(l);
    if OneLine(s) {
      LineWord(s);
    } else {
      SolidOfWords(t);
      WordsOfLine(l, t);
      SolidAllAppend(Word(l), TextWords(t));
      SolidAppend(l, "\n" + t);
      SolidAppend("\n", t);
      SolidSpace("\n");
    }
  }

  // ---------- A start marker that was left standing ----------

  /** A start marker line stands at `p`, behind some of the words. */
  predicate SpoiltAt(w: string, words: seq<string>, p: nat) {
    p <= |w| && LineStart(w, p) && At(w, p, START + "\n") && TextWords(w[..p]) <= words
  }

  ghost predicate Spoilt(w: string, words: seq<string>) { exists p :: SpoiltAt(w, words, p) }

  lemma SpoiltMore(l: string, w: string, words: seq<string>)
    requires OneLine(l) && Spoilt(w, words)
    ensures Spoilt(l + ("\n" + w), Word(l) + words)
  {
    hide TextWords, START, Word;
    var p: nat :| SpoiltAt(w, words, p);
    var v, q := l + ("\n" + w), |l| + 1;
    WordsOfLine(l, w[..p]);
    assert v[..q + p] == l + ("\n" + w[..p]);
    assert v[q..] == w;
    AtShifted(v, q, p, START + "\n");
    assert LineStart(v, q + p) by { assert p > 0 ==> v[q + p - 1] == w[p - 1]; }
    assert SpoiltAt(v, Word(l) + words, q + p);
  }

  /** Removing server tables in front of a line: either one of them takes the whole rest of the text, or
      the line is reached, and still begins a line. */
  lemma {:induction false} ServersBefore(w: string, k: nat, p: nat) returns (a: string)
    requires k <= p <= |w| && LineStart(w, p)
    ensures var r := RemoveServers(w, k).0;
      || Solid(r) < Solid(w[k..p])
      || (r == a + RemoveServers(w, p).0 && if a == "" then LineStart(w, k) else a[|a| - 1] == '\n')
    decreases p - k
  {
    hide Solid, ServerAt, ServerEnd;
    a := "";
    if k == p {
      assert a + RemoveServers(w, p).0 == RemoveServers(w, p).0;
    } else if ServerAt(w, k) {
      var e := ServerEnd(w, k);
      ServerEndsLine(w, k, p);
      ServerIsSolid(w, k);
      if e <= p {
        a := ServersBefore(w, e, p);
        SolidSplit(w, k, e, p);
      } else {
        SolidPositive(w, k, k, p);
        SolidSpace("");
      }
    } else {
      a := ServersBefore(w, k + 1, p);
      SolidKept(w, k, p, RemoveServers(w, k + 1).0);
      Regroup3([w[k]], a, RemoveServers(w, p).0);
      a := [w[k]] + a;
    }
  }

  lemma ServerEndsLine(w: string, k: nat, p: nat)
    requires k < p <= |w| && LineStart(w, p) && ServerAt(w, k)
    ensures LineStart(w, k) && (ServerEnd(w, k) <= p || ServerEnd(w, k) == |w|)
  {
    hide SERVER;
    ServerLine();
    AtLine(w, k, SERVER);
    assert w[p - 1] == '\n';
    assert forall i :: k <= i < k + |SERVER| ==> w[i] != '\n';
  }

  lemma StartKept(w: string, p: nat)
    requires p <= |w| && At(w, p, START + "\n")
    ensures p + |START| < |w|
    ensures RemoveServers(w, p).0 == START + ("\n" + RemoveServers(w, p + |START| + 1).0)
  {
    hide START, SERVER, RemoveServers;
    StartLine();
    ServerLine();
    AtLine(w, p, START);
    var q := p + |START| + 1;
    forall i | p <= i < q
      ensures !ServerAt(w, i)
    {
      AtStarts(w, i, SERVER + "\n");
    }
    NoServersBefore(w, p, q);
    assert w[p..q] == START + "\n";
    Regroup3(START, "\n", RemoveServers(w, q).0);
  }

  /** A text with such a line does not come down to the words, however many server tables are
      removed. */
  lemma SpoiltStays(w: string, words: seq<string>)
    requires Spoilt(w, words) && START !in words
    ensures TextWords(RemoveServers(w, 0).0) != words
  {
    hide TextWords, START, Solid, RemoveServers, SolidAll;
    var p: nat :| SpoiltAt(w, words, p);
    var a := ServersBefore(w, 0, p);
    var r := RemoveServers(w, 0).0;
    assert w[0..p] == w[..p];
    if Solid(r) < Solid(w[..p]) {
      SolidOfWords(r);
      SolidOfWords(w[..p]);
      var n := |TextWords(w[..p])|;
      assert words == TextWords(w[..p]) + words[n..];
      SolidAllAppend(TextWords(w[..p]), words[n..]);
    } else {
      StartKept(w, p);
      var more := RemoveServers(w, p + |START| + 1).0;
      assert r == a + (START + ("\n" + more));
      MarkerInText(a, more);
    }
  }

  lemma {:induction false} MarkerInText(a: string, more: string)
    requires a == "" || a[|a| - 1] == '\n'
    ensures START in TextWords(a + (START + ("\n" + more)))
    decreases |a|
  {
    hide TextWords, START, Strip, Blank;
    var mark := START + ("\n" + more);
    if a == "" {
      StartLine();
      assert a + mark == mark;
      MarkerWord(START);
      WordsOfLine(START, more);
    } else {
      var l, t := CutFirst(a);
      assert a[|a| - 1] == '\n';
      MarkerInText(t, more);
      WordsOfLine(l, t + mark);
      assert a + mark == l + ("\n" + (t + mark));
    }
  }

  lemma MarkerWord(t: string)
    requires t != "" && Trimmed(t)
    ensures Word(t) == [t]
  {
    StripTrimmed(t);
  }

  // ---------- Where start markers stand ----------

  lemma {:induction false} SkipShifted(s: string, q: nat, i: nat)
    requires q <= |s| && i <= |s| - q
    ensures Skip(s, q + i) == q + Skip(s[q..], i)
    decreases |s| - q - i
  {
    hide IsSpace;
    if i < |s| - q && IsSpace(s[q + i]) { SkipShifted(s, q, i + 1); }
  }

  lemma AtShifted(s: string, q: nat, i: nat, pat: string)
    requires q <= |s| && i <= |s| - q
    ensures At(s, q + i, pat) == At(s[q..], i, pat)
  {
    if q + i + |pat| <= |s| { assert s[q + i..q + i + |pat|] == s[q..][i..i + |pat|]; }
  }

  lemma HeadMore(l: string, t: string)
    requires OneLine(l)
    ensures NoHeads(l + ("\n" + t)) <==> StripLeft(l) != START && NoHeads(t)
  {
    hide HeadAt, START, StripLeft, IsSpace;
    var s, q := l + ("\n" + t), |l| + 1;
    forall i | 0 <= i <= |t|
      ensures HeadAt(s, q + i) == HeadAt(t, i)
    {
      HeadBehind(l, t, i);
    }
    HeadInFront(l, t);
    if StripLeft(l) != START && NoHeads(t) {
      forall i | 0 <= i <= |s|
        ensures !HeadAt(s, i)
      {
        if i >= q { assert HeadAt(s, q + (i - q)) == HeadAt(t, i - q); }
      }
    }
    if NoHeads(s) {
      assert !HeadAt(s, 0) && HeadAt(s, q + 0) == HeadAt(t, 0);
      assert forall i :: 0 <= i <= |t| ==> HeadAt(s, q + i) == HeadAt(t, i);
    }
  }

  lemma HeadBehind(l: string, t: string, i: nat)
    requires i <= |t|
    ensures HeadAt(l + ("\n" + t), |l| + 1 + i) == HeadAt(t, i)
  {
    hide START, Skip, At;
    var s, q := l + ("\n" + t), |l| + 1;
    assert s[q..] == t && s[q - 1] == '\n';
    assert i > 0 ==> s[q + i - 1] == t[i - 1];
    SkipShifted(s, q, i);
    AtShifted(s, q, Skip(t, i), START + "\n");
  }

  /** On its first line a text has a head exactly if the line is a marker, or it is blank and the rest has
      one at its start. */
  lemma HeadInFront(l: string, t: string)
    requires OneLine(l)
    ensures forall i :: 0 < i <= |l| ==> !HeadAt(l + ("\n" + t), i)
    ensures HeadAt(l + ("\n" + t), 0) <==> StripLeft(l) == START || (StripLeft(l) == "" && HeadAt(t, 0))
  {
    hide START, Skip, At, StripLeft, IsSpace;
    var s := l + ("\n" + t);
    StartLine();
    assert s[0..0 + |l|] == l && s[|l|] == '\n';
    assert forall k :: 0 <= k < |l| ==> s[k] == l[k];
    SkipLine(s, 0, l);
    if StripLeft(l) == "" {
      BlankSkips(s, 0, l);
      HeadBehind(l, t, 0);
    } else if At(s, Skip(s, 0), START + "\n") {
      MarkerOnLine(s, 0, l, START);
    } else if StripLeft(l) == START {
      MarkerStands(s, l);
    }
  }

  lemma MarkerStands(s: string, l: string)
    requires |l| < |s| && s[..|l|] == l && s[|l|] == '\n' && StripLeft(l) == START
    ensures At(s, |l| - |START|, START + "\n")
  {
    hide START, StripLeft;
    assert l[|l| - |START|..] == START;
    assert s[..|l| + 1] == l + "\n";
    assert s[|l| - |START|..|l| + 1] == START + "\n";
  }

  /** A start marker line is found exactly when one of the ended lines is one, up to indentation. */
  lemma {:induction false} HeadsFed(s: string)
    ensures NoHeads(s) <==> forall l :: l in Fed(s) ==> StripLeft(l) != START
    decreases |s|
  {
    hide HeadAt, Fed, Unfed, TextFilled, START, StripLeft, Blank;
    var l, t := CutFirst(s);
    if OneLine(s) {
      FilledAlone(s);
      forall i | 0 <= i <= |s|
        ensures !HeadAt(s, i)
      {
        NoHeadAhead(s, i);
      }
    } else {
      HeadsFed(t);
      HeadMore(l, t);
      FilledMore(l, t);
      StartNotBlank(l);
    }
  }

  lemma StartNotBlank(l: string)
    ensures StripLeft(l) == START ==> !Blank(l)
  {
    hide START, StripLeft;
    StartLine();
    SpaceMakesBlank(l);
  }

  lemma NoHeadAhead(s: string, i: nat)
    requires OneLine(s) && i <= |s|
    ensures !HeadAt(s, i)
  {
    hide START, Skip;
    assert s[0..] == s;
    NoMarkerAhead(s, 0, Skip(s, i), START);
  }
}
