/** How the patterns of the configuration editor match: facts about single positions and lines. */
module ConfigMatching {
  import opened Text
  import opened ConfigEditor

  // ---------- Lines ----------

  lemma FeedEnds(lines: seq<string>)
    ensures Feed(lines) == "" || Feed(lines)[|Feed(lines)| - 1] == '\n'
  {
  }

  lemma CutLine(x: string, k: nat, l: string, more: string)
    requires k <= |x| && x[k..] == l + "\n" + more
    ensures k + |l| < |x| && x[k..k + |l|] == l && x[k + |l|] == '\n' && x[k + |l| + 1..] == more
  {
    assert x[k..k + |l|] == x[k..][..|l|];
    assert x[k + |l|] == x[k..][|l|];
    assert x[k + |l| + 1..] == x[k..][|l| + 1..];
  }

  lemma LineEnd(x: string, k: nat, j: nat, l: string)
    requires k + |l| < |x| && x[k..k + |l|] == l && x[k + |l|] == '\n'
    requires k <= j <= k + |l|
    ensures x[j..k + |l|] == l[j - k..]
    ensures OneLine(l) ==> OneLine(x[j..k + |l|]) && OneLine(x[k..j])
  {
    assert x[k..j] == x[k..k + |l|][..j - k];
  }

  // ---------- The markers ----------

  lemma StartLine()
    ensures OneLine(START) && NoReturns(START)
    ensures |START| > 2 && START[0] == '#' && START[2] == '>' && START[|START| - 1] == '>'
    ensures Trimmed(START)
  {
  }

  lemma EndLine()
    ensures OneLine(END) && NoReturns(END)
    ensures |END| > 2 && END[0] == '#' && END[2] == '<'
  {
  }

  lemma ServerLine()
    ensures OneLine(SERVER) && NoReturns(SERVER)
    ensures SERVER != "" && SERVER[0] == '[' && SERVER[|SERVER| - 1] == ']'
    ensures Trimmed(SERVER)
  {
  }

  // ---------- Positions ----------

  /** Reading a pattern's characters off the text it stands in. */
  lemma AtChars(text: string, j: nat, pat: string)
    requires At(text, j, pat)
    ensures forall i :: j <= i < j + |pat| ==> text[i] == pat[i - j]
  {
    assert forall i :: j <= i < j + |pat| ==> text[i] == text[j..j + |pat|][i - j];
  }

  lemma AtStarts(text: string, j: nat, pat: string)
    requires pat != ""
    ensures At(text, j, pat) ==> text[j] == pat[0]
  {
    if At(text, j, pat) { AtChars(text, j, pat); }
  }

  /** The same for a one-line pattern with a line feed after it. */
  lemma AtLine(text: string, j: nat, t: string)
    requires At(text, j, t + "\n")
    ensures j + |t| < |text| && text[j + |t|] == '\n'
    ensures forall i :: j <= i < j + |t| ==> text[i] == t[i - j]
  {
    AtChars(text, j, t + "\n");
    assert (t + "\n")[|t|] == '\n';
  }

  lemma {:induction false} SkipTo(text: string, i: nat, j: nat)
    requires i <= j <= |text|
    requires forall k :: i <= k < j ==> IsSpace(text[k])
    requires j < |text| ==> !IsSpace(text[j])
    ensures Skip(text, i) == j
    decreases j - i
  {
    hide IsSpace;
    if i < j { SkipTo(text, i + 1, j); }
  }

  lemma {:induction false} SkipStops(u: string, i: nat, m: nat)
    requires i <= m < |u| && !IsSpace(u[m])
    ensures Skip(u, i) <= m
    decreases m - i
  {
    hide IsSpace;
    if i < m { SkipStops(u, i + 1, m); }
  }

  lemma SkipInPrefix(s: string, rest: string, i: nat)
    requires i <= |s| && Skip(s, i) < |s|
    ensures Skip(s + rest, i) == Skip(s, i)
  {
    hide IsSpace;
    var j := Skip(s, i);
    assert forall k :: i <= k <= j ==> (s + rest)[k] == s[k];
    SkipTo(s + rest, i, j);
  }

  lemma SkipTwice(x: string, k: nat)
    requires k <= |x|
    ensures Skip(x, Skip(x, k)) == Skip(x, k)
  {
  }

  /** Skipping white space in front of a line. */
  lemma {:induction false} SkipLine(x: string, k: nat, l: string)
    requires k + |l| <= |x| && x[k..k + |l|] == l
    ensures StripLeft(l) == "" ==> Skip(x, k) == Skip(x, k + |l|)
    ensures StripLeft(l) != "" ==> Skip(x, k) == k + |l| - |StripLeft(l)|
    decreases |l|
  {
    if l != "" {
      assert x[k] == x[k..k + |l|][0] == l[0];
      if IsSpace(l[0]) {
        assert x[k + 1..k + 1 + |l[1..]|] == x[k..k + |l|][1..];
        SkipLine(x, k + 1, l[1..]);
      }
    }
  }

  /** A one-line pattern and its line feed fit in what is written before the last line feed. */
  lemma AtInPrefix(s: string, rest: string, j: nat, mark: string)
    requires |s| >= 1 && s[|s| - 1] == '\n' && j < |s| && OneLine(mark)
    ensures At(s + rest, j, mark + "\n") == At(s, j, mark + "\n")
  {
    var pat := mark + "\n";
    assert forall i :: 0 <= i < |s| ==> (s + rest)[i] == s[i];
    if j + |pat| <= |s| {
      assert (s + rest)[j..j + |pat|] == s[j..j + |pat|];
    } else if At(s + rest, j, pat) {
      AtLine(s + rest, j, mark);
    }
  }

  /** A one-line pattern in a line and the line feed behind it is the rest of the line. */
  lemma MarkerIsLine(x: string, j: nat, q: nat, t: string)
    requires j < q <= |x| && x[q - 1] == '\n' && OneLine(x[j..q - 1])
    requires OneLine(t) && At(x, j, t + "\n")
    ensures x[j..q - 1] == t
  {
    AtLine(x, j, t);
    assert forall i :: j <= i < q - 1 ==> x[i] == x[j..q - 1][i - j];
    assert j + |t| == q - 1;
    assert x[j..q - 1] == t;
  }

  lemma MarkerOnLine(x: string, k: nat, l: string, t: string)
    requires k + |l| < |x| && x[k..k + |l|] == l && x[k + |l|] == '\n'
    requires OneLine(l) && StripLeft(l) != "" && OneLine(t) && At(x, Skip(x, k), t + "\n")
    ensures StripLeft(l) == t
  {
    hide StripLeft;
    SkipLine(x, k, l);
    var j, q := Skip(x, k), k + |l| + 1;
    LineEnd(x, k, j, l);
    MarkerIsLine(x, j, q, t);
  }

  lemma NoMarkerAhead(x: string, k: nat, j: nat, t: string)
    requires k <= j <= |x| && OneLine(x[k..])
    ensures !At(x, j, t + "\n")
  {
    assert forall i :: k <= i < |x| ==> x[i] == x[k..][i - k];
    if At(x, j, t + "\n") { AtLine(x, j, t); }
  }

  // ---------- The scan for the end marker ----------

  lemma FootTaken(x: string, p: nat)
    requires p <= |x| && FootAt(x, p)
    ensures FootEnd(x, p) == Some(Skip(x, Skip(x, p) + |END|))
  {
  }

  lemma FootNext(x: string, p: nat)
    requires p < |x| && !FootAt(x, p)
    ensures FootEnd(x, p) == FootEnd(x, p + 1)
  {
  }

  lemma {:induction false} FootPastLine(text: string, p: nat, q: nat)
    requires p < q <= |text|
    requires text[q - 1] == '\n' && forall i :: p <= i < q - 1 ==> text[i] != '\n'
    requires !FootAt(text, p)
    ensures FootEnd(text, p) == FootEnd(text, q)
    decreases q - p
  {
    hide FootEnd, Skip, END;
    FootNext(text, p);
    if p + 1 < q {
      assert !LineStart(text, p + 1);
      FootPastLine(text, p + 1, q);
    }
  }

  /** A line that does not end a managed block. */
  predicate BodyLine(l: string) { OneLine(l) && NoReturns(l) && !At(StripLeft(l), 0, END) }

  predicate AllBody(lines: seq<string>) { lines == [] || (BodyLine(lines[0]) && AllBody(lines[1..])) }

  lemma FootOnLine(x: string, p: nat, l: string, t: string)
    requires p + |l| < |x| && x[p..p + |l|] == l && x[p + |l|] == '\n'
    requires OneLine(l) && StripLeft(l) != "" && OneLine(t) && At(x, Skip(x, p), t)
    ensures At(StripLeft(l), 0, t)
  {
    hide StripLeft, Skip;
    SkipLine(x, p, l);
    var j, q := Skip(x, p), p + |l|;
    LineEnd(x, p, j, l);
    AtChars(x, j, t);
    assert forall i :: j <= i < j + |t| ==> x[i] != '\n';
    assert j + |t| <= q;
    assert x[j..q][..|t|] == x[j..j + |t|];
    assert StripLeft(l) == x[j..q];
  }

  lemma NoFootOnBody(x: string, p: nat, l: string)
    requires p + |l| < |x| && x[p..p + |l|] == l && x[p + |l|] == '\n'
    requires BodyLine(l) && StripLeft(l) != ""
    ensures !FootAt(x, p)
  {
    hide StripLeft, END, Skip;
    EndLine();
    if At(x, Skip(x, p), END) { FootOnLine(x, p, l, END); }
  }

  lemma BodyIsLine(l: string)
    requires BodyLine(l)
    ensures OneLine(l) && NoReturns(l)
  {
  }

  lemma FootSkipsLine(x: string, p: nat, l: string)
    requires p + |l| < |x| && x[p..p + |l|] == l && x[p + |l|] == '\n'
    requires LineStart(x, p) && BodyLine(l)
    ensures FootEnd(x, p) == FootEnd(x, p + |l| + 1)
  {
    hide FootEnd, BodyLine, END, StripLeft, IsSpace;
    BodyIsLine(l);
    var q := p + |l| + 1;
    if FootAt(x, p) {
      if StripLeft(l) != "" { NoFootOnBody(x, p, l); }
      BlankSkips(x, p, l);
      FootTaken(x, p);
      FootTaken(x, q);
    } else {
      LineEnd(x, p, p, l);
      assert forall i :: p <= i < q - 1 ==> x[i] == x[p..p + |l|][i - p];
      FootPastLine(x, p, q);
    }
  }

  lemma BlankSkips(x: string, p: nat, l: string)
    requires p + |l| < |x| && x[p..p + |l|] == l && x[p + |l|] == '\n' && StripLeft(l) == ""
    ensures Skip(x, p) == Skip(x, p + |l| + 1)
  {
    SkipLine(x, p, l);
  }

  /** The end marker, behind white space, begins what stands at `p`, and `rest` ends it. */
  predicate FootStands(x: string, p: nat, j: nat, rest: string) {
    && p <= j < |x| && At(x, j, END) && !IsSpace(x[j]) && j + |END| + |rest| == |x|
    && forall k :: p <= k < j ==> IsSpace(x[k])
  }

  lemma FootPieces(x: string, p: nat, within: string, rest: string)
    requires p <= |x| && AllSpace(within) && x[p..] == within + (END + rest)
    ensures FootStands(x, p, p + |within|, rest)
  {
    hide END, IsSpace, At;
    EndIsSolid();
    SpaceThenEnd(x, p, within, END, rest);
  }

  lemma FootTail(x: string, p: nat, j: nat, rest: string)
    requires FootStands(x, p, j, rest) && LineStart(x, p)
    ensures |rest| <= |x| && FootEnd(x, p) == Some(Skip(x, |x| - |rest|))
  {
    hide FootEnd, END, IsSpace, Skip, At, LineStart;
    FootBehind(x, p, j);
  }

  lemma SpaceThenEnd(x: string, p: nat, within: string, mark: string, rest: string)
    requires p <= |x| && AllSpace(within) && mark != "" && x[p..] == within + (mark + rest)
    ensures var j := p + |within|;
      j + |mark| == |x| - |rest| && x[j] == mark[0] && At(x, j, mark) && forall k :: p <= k < j ==> IsSpace(x[k])
  {
    hide IsSpace;
    var j := p + |within|;
    assert x[j..] == x[p..][|within|..] == mark + rest;
    assert x[j..j + |mark|] == x[j..][..|mark|] == mark;
    forall k | p <= k < j
      ensures IsSpace(x[k])
    {
      assert x[k] == x[p..][k - p] == within[k - p];
    }
  }

  lemma FootBehind(x: string, p: nat, j: nat)
    requires p <= j < |x| && LineStart(x, p) && At(x, j, END) && !IsSpace(x[j])
    requires forall k :: p <= k < j ==> IsSpace(x[k])
    ensures j + |END| <= |x| && FootEnd(x, p) == Some(Skip(x, j + |END|))
  {
    hide FootEnd, END, IsSpace, Skip;
    SkipTo(x, p, j);
    FootTaken(x, p);
  }

  lemma EndIsSolid()
    ensures END != "" && !IsSpace(END[0])
  {
  }

  /** The scan for the end marker runs over the block's lines and takes the end marker behind them,
      however it is indented, together with the white space that follows. */
  lemma {:induction false} FootOfLines(x: string, p: nat, lines: seq<string>, within: string, rest: string)
    requires p <= |x| && LineStart(x, p) && AllBody(lines) && AllSpace(within)
    requires x[p..] == Feed(lines) + (within + (END + rest))
    ensures |rest| <= |x| && FootEnd(x, p) == Some(Skip(x, |x| - |rest|))
    decreases lines
  {
    hide FootEnd, BodyLine, END, Skip, LineStart, IsSpace, FootStands;
    var tail := within + (END + rest);
    if lines == [] {
      assert "" + tail == tail;
      FootPieces(x, p, within, rest);
      FootTail(x, p, p + |within|, rest);
    } else {
      Regroup3(lines[0] + "\n", Feed(lines[1..]), tail);
      FootStep(x, p, lines[0], Feed(lines[1..]) + tail);
      FootOfLines(x, p + |lines[0]| + 1, lines[1..], within, rest);
    }
  }

  lemma FootStep(x: string, p: nat, l: string, more: string)
    requires p <= |x| && LineStart(x, p) && BodyLine(l) && x[p..] == l + "\n" + more
    ensures var q := p + |l| + 1; q <= |x| && LineStart(x, q) && x[q..] == more && FootEnd(x, p) == FootEnd(x, q)
  {
    hide FootEnd, BodyLine, END, Skip, FootAt;
    CutLine(x, p, l, more);
    FootSkipsLine(x, p, l);
  }

  lemma {:induction false} NoFootInside(x: string, i: nat)
    requires 0 < i <= |x| && forall j :: i - 1 <= j < |x| ==> x[j] != '\n'
    ensures FootEnd(x, i) == None
    decreases |x| - i
  {
    hide END, Skip;
    assert !LineStart(x, i);
    if i < |x| { NoFootInside(x, i + 1); }
  }

  lemma FootOnLastLine(x: string, p: nat, last: string)
    requires p <= |x| && x[p..] == last && At(x, Skip(x, p), END)
    ensures At(StripLeft(last), 0, END)
  {
    hide END, Skip, IsSpace, StripLeft;
    EndIsSolid();
    var j := Skip(x, p);
    assert x[p..p + |last|] == last;
    SkipLine(x, p, last);
    AtStarts(x, j, END);
    NothingSkipped(x);
    assert x[j..] == x[p..][j - p..];
    assert x[j..][..|END|] == x[j..j + |END|];
  }

  lemma NothingSkipped(x: string)
    ensures Skip(x, |x|) == |x|
  {
  }

  /** On the last line there is an end marker only if the line starts with it. */
  lemma NoFootOnLast(x: string, p: nat, last: string)
    requires p <= |x| && x[p..] == last && BodyLine(last)
    ensures FootEnd(x, p) == None
  {
    hide FootEnd, END, Skip, StripLeft, At;
    assert forall j :: p <= j < |x| ==> x[j] == last[j - p];
    if At(x, Skip(x, p), END) { FootOnLastLine(x, p, last); }
    if p < |x| {
      FootNext(x, p);
      NoFootInside(x, p + 1);
    } else {
      NoFootAtEnd(x);
    }
  }

  lemma NoFootAtEnd(x: string)
    ensures FootEnd(x, |x|) == None
  {
  }

  /** Lines of which none starts with the end marker hold none. */
  lemma {:induction false} NoFootAhead(x: string, p: nat, lines: seq<string>, last: string)
    requires p <= |x| && LineStart(x, p) && AllBody(lines) && BodyLine(last) && x[p..] == Feed(lines) + last
    ensures FootEnd(x, p) == None
    decreases lines
  {
    hide FootEnd, BodyLine, END, Skip, LineStart;
    if lines == [] {
      assert "" + last == last;
      NoFootOnLast(x, p, last);
    } else {
      Regroup3(lines[0] + "\n", Feed(lines[1..]), last);
      FootStep(x, p, lines[0], Feed(lines[1..]) + last);
      NoFootAhead(x, p + |lines[0]| + 1, lines[1..], last);
    }
  }

  // ---------- Removing ----------

  lemma TakeBlock(x: string, k: nat, e: nat)
    requires k < |x| && BlockEnd(x, k) == Some(e)
    ensures RemoveBlocks(x, k) == (RemoveBlocks(x, e).0, RemoveBlocks(x, e).1 + 1)
  {
  }

  lemma KeepChar(x: string, k: nat)
    requires k < |x| && BlockEnd(x, k) == None
    ensures RemoveBlocks(x, k) == ([x[k]] + RemoveBlocks(x, k + 1).0, RemoveBlocks(x, k + 1).1)
  {
  }

  lemma RemoveAtEnd(x: string)
    ensures RemoveBlocks(x, |x|) == ("", 0)
  {
  }

  lemma {:induction false} NoBlocksBefore(u: string, k: nat, n: nat)
    requires k <= n <= |u|
    requires forall i :: k <= i < n ==> BlockEnd(u, i) == None
    ensures RemoveBlocks(u, k) == (u[k..n] + RemoveBlocks(u, n).0, RemoveBlocks(u, n).1)
    decreases n - k
  {
    hide BlockEnd, RemoveBlocks;
    var after := RemoveBlocks(u, n).0;
    if k < n {
      KeepChar(u, k);
      NoBlocksBefore(u, k + 1, n);
      assert u[k..n] == [u[k]] + u[k + 1..n];
      Regroup3([u[k]], u[k + 1..n], after);
    } else {
      assert u[k..n] + after == after;
    }
  }

  lemma {:induction false} NoServersBefore(u: string, k: nat, n: nat)
    requires k <= n <= |u|
    requires forall i :: k <= i < n ==> !ServerAt(u, i)
    ensures RemoveServers(u, k) == (u[k..n] + RemoveServers(u, n).0, RemoveServers(u, n).1)
    decreases n - k
  {
    hide ServerAt;
    var after := RemoveServers(u, n).0;
    if k < n {
      NoServersBefore(u, k + 1, n);
      assert u[k..n] == [u[k]] + u[k + 1..n];
      Regroup3([u[k]], u[k + 1..n], after);
    } else {
      assert u[k..n] + after == after;
    }
  }

  lemma NoServersIn(s: string)
    requires forall i :: 0 <= i < |s| ==> !ServerAt(s, i)
    ensures RemoveServers(s, 0) == (s, 0)
  {
    hide ServerAt;
    NoServersBefore(s, 0, |s|);
    assert s[0..|s|] == s && s + "" == s;
  }

  // ---------- No carriage returns ----------

  lemma {:induction false} PlainFeedsSame(s: string)
    requires NoReturns(s)
    ensures PlainFeeds(s) == s
  {
    if s != "" { PlainFeedsSame(s[1..]); }
  }

  lemma {:induction false} UniversalNewlinesSame(s: string)
    requires NoReturns(s)
    ensures UniversalNewlines(s) == s
  {
    if s != "" { UniversalNewlinesSame(s[1..]); }
  }

  lemma {:induction false} RemoveBlocksReturns(s: string, k: nat)
    requires k <= |s| && NoReturns(s)
    ensures NoReturns(RemoveBlocks(s, k).0)
    decreases |s| - k
  {
    hide BlockEnd;
    if k < |s| {
      var e := BlockEnd(s, k);
      RemoveBlocksReturns(s, if e.Some? then e.value else k + 1);
    }
  }

  lemma {:induction false} RemoveServersReturns(s: string, k: nat)
    requires k <= |s| && NoReturns(s)
    ensures NoReturns(RemoveServers(s, k).0)
    decreases |s| - k
  {
    hide ServerAt;
    if k < |s| {
      RemoveServersReturns(s, if ServerAt(s, k) then ServerEnd(s, k) else k + 1);
    }
  }

  lemma {:induction false} CollapseReturns(s: string)
    requires NoReturns(s)
    ensures NoReturns(Collapse(s))
    decreases |s|
  {
    if s == "" {
    } else if s[0] == '\n' {
      CollapseReturns(s[Feeds(s)..]);
    } else {
      CollapseReturns(s[1..]);
    }
  }

  lemma TidyReturns(s: string)
    requires NoReturns(s)
    ensures NoReturns(Tidy(s))
  {
    hide Collapse, IsSpace;
    CollapseReturns(s);
  }

  lemma StripConfigReturns(x: string)
    requires NoReturns(x)
    ensures NoReturns(StripConfig(x).0)
  {
    hide Tidy, RemoveBlocks, RemoveServers, NoReturns;
    PlainFeedsSame(x);
    RemoveBlocksReturns(x, 0);
    RemoveServersReturns(RemoveBlocks(x, 0).0, 0);
    TidyReturns(RemoveServers(RemoveBlocks(x, 0).0, 0).0);
  }
}
