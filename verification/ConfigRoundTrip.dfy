/**
 Stripping undoes inserting: the managed block that `Upsert` adds is removed by `StripConfig` again,
 and the rest of the text comes back -- exactly when the stripped text is clean.
 */
module ConfigRoundTrip {
  import opened Text
  import opened ConfigEditor
  import opened ConfigMatching

  // ---------- What a clean text is ----------

  /** No line of the text is a start marker, or would be one with its indentation removed. */
  predicate NoHeads(s: string) { forall i :: 0 <= i <= |s| ==> !HeadAt(s, i) }

  /** No line of the text is the server table's header, flush left. */
  predicate NoServers(s: string) { forall i :: 0 <= i <= |s| ==> !ServerAt(s, i) }

  /** What a caller can look for in a stripped text: no start marker line and no server header. */
  predicate Clean(s: string) { NoHeads(s) && NoServers(s) }

  /** The form of every stripped text: empty, or ending in one line feed after a solid character. */
  predicate Tidied(s: string) {
    s == "" || (|s| >= 2 && s[|s| - 1] == '\n' && !IsSpace(s[|s| - 2]))
  }

  /** What follows a stripped text makes no difference to where its start markers are. */
  lemma HeadsInPrefix(s: string, rest: string, i: nat)
    requires Tidied(s) && i < |s|
    ensures HeadAt(s + rest, i) == HeadAt(s, i)
  {
    hide START, Skip, IsSpace;
    assert LineStart(s + rest, i) == LineStart(s, i);
    if i == |s| - 1 {
      SolidIsNoFeed(s[|s| - 2]);
    } else {
      SkipStops(s, i, |s| - 2);
      SkipInPrefix(s, rest, i);
      StartLine();
      AtInPrefix(s, rest, Skip(s, i), START);
    }
  }

  // ---------- Solid characters ----------

  /** The number of characters that are not white space. */
  function Solid(s: string): nat {
    if s == "" then 0 else (if IsSpace(s[0]) then 0 else 1) + Solid(s[1..])
  }

  lemma {:induction false} SolidAppend(s: string, t: string)
    ensures Solid(s + t) == Solid(s) + Solid(t)
  {
    hide IsSpace;
    if s == "" {
      assert s + t == t;
    } else {
      assert (s + t)[1..] == s[1..] + t;
      SolidAppend(s[1..], t);
    }
  }

  lemma {:induction false} SolidSpace(s: string)
    requires AllSpace(s)
    ensures Solid(s) == 0
  {
    hide IsSpace;
    if s != "" { SolidSpace(s[1..]); }
  }

  lemma {:induction false} SolidCollapse(s: string)
    ensures Solid(Collapse(s)) == Solid(s)
    decreases |s|
  {
    if s == "" {
    } else if s[0] == '\n' {
      SolidCollapse(s[Feeds(s)..]);
      SolidFeeds(s, Feeds(s), Collapse(s[Feeds(s)..]));
    } else {
      SolidCollapse(s[1..]);
      assert ([s[0]] + Collapse(s[1..]))[1..] == Collapse(s[1..]);
    }
  }

  lemma SolidFeeds(s: string, n: nat, rest: string)
    requires n <= |s| && forall i :: 0 <= i < n ==> s[i] == '\n'
    ensures Solid(s) == Solid(s[n..])
    ensures Solid("\n\n" + rest) == Solid("\n" + rest) == Solid(rest)
  {
    hide Solid;
    assert s == s[..n] + s[n..];
    SolidAppend(s[..n], s[n..]);
    SolidSpace(s[..n]);
    SolidSpace("\n\n");
    SolidSpace("\n");
    SolidAppend("\n\n", rest);
    SolidAppend("\n", rest);
  }

  lemma SolidLeft(s: string)
    ensures Solid(StripLeft(s)) == Solid(s)
  {
    hide Solid, IsSpace;
    var t := StripLeft(s);
    var n := |s| - |t|;
    assert s == s[..n] + t;
    SolidAppend(s[..n], t);
    SolidSpace(s[..n]);
  }

  lemma SolidRight(s: string)
    ensures Solid(StripRight(s)) == Solid(s)
  {
    hide Solid, IsSpace;
    var r := StripRight(s);
    assert s == r + s[|r|..];
    SolidAppend(r, s[|r|..]);
    SolidSpace(s[|r|..]);
  }

  lemma SolidStrip(s: string)
    ensures Solid(Strip(s)) == Solid(s)
  {
    hide Solid, StripLeft, StripRight;
    SolidLeft(s);
    SolidRight(StripLeft(s));
  }

  /** Tidying a text removes white space only. */
  lemma SolidTidy(w: string)
    ensures Solid(Tidy(w)) == Solid(w)
  {
    hide Solid, Strip, Collapse;
    SolidCollapse(w);
    SolidStrip(Collapse(w));
    SolidAppend(Strip(Collapse(w)), "\n");
    SolidSpace("\n");
    SolidSpace("");
  }

  lemma SolidSplit(u: string, a: nat, b: nat, c: nat)
    requires a <= b <= c <= |u|
    ensures Solid(u[a..c]) == Solid(u[a..b]) + Solid(u[b..c])
  {
    hide Solid;
    assert u[a..c] == u[a..b] + u[b..c];
    SolidAppend(u[a..b], u[b..c]);
  }

  lemma SolidPositive(u: string, a: nat, j: nat, b: nat)
    requires a <= j < b <= |u| && !IsSpace(u[j])
    ensures Solid(u[a..b]) > 0
  {
    hide IsSpace;
    SolidSplit(u, a, j, b);
    assert u[j..b][0] == u[j];
  }

  /** A kept character, in front of what becomes of the rest. */
  lemma SolidKept(u: string, k: nat, n: nat, kept: string)
    requires k < n <= |u|
    ensures Solid(kept) <= Solid(u[k + 1..n]) ==> Solid([u[k]] + kept) <= Solid(u[k..n])
    ensures Solid(kept) < Solid(u[k + 1..n]) ==> Solid([u[k]] + kept) < Solid(u[k..n])
  {
    hide Solid;
    SolidSplit(u, k, k + 1, n);
    SolidAppend([u[k]], kept);
    assert u[k..k + 1] == [u[k]];
  }

  /** Removing server tables removes solid characters as soon as there is one. */
  lemma {:induction false} ServersTakeSolid(w: string, k: nat)
    requires k <= |w|
    ensures Solid(RemoveServers(w, k).0) <= Solid(w[k..|w|])
    ensures (exists i :: k <= i < |w| && ServerAt(w, i)) ==> Solid(RemoveServers(w, k).0) < Solid(w[k..|w|])
    decreases |w| - k
  {
    hide Solid, ServerAt;
    if k < |w| {
      if ServerAt(w, k) {
        var e := ServerEnd(w, k);
        ServersTakeSolid(w, e);
        SolidSplit(w, k, e, |w|);
        ServerIsSolid(w, k);
        SolidPositive(w, k, k, e);
      } else {
        ServersTakeSolid(w, k + 1);
        SolidKept(w, k, |w|, RemoveServers(w, k + 1).0);
      }
    } else {
      SolidSpace("");
      assert w[k..|w|] == "";
    }
  }

  lemma ServerIsSolid(w: string, k: nat)
    requires k <= |w| && ServerAt(w, k)
    ensures k < |w| && !IsSpace(w[k])
  {
    hide SERVER;
    ServerLine();
    AtLine(w, k, SERVER);
  }

  // ---------- Removing the block that Upsert wrote ----------

  const MARK := |START| + 1

  /** The user's text is `u[..n]`, and a fresh block from `m` to the end is all that follows but
      white space. */
  predicate Fresh(u: string, n: nat, m: nat) {
    && n <= m && m + MARK <= |u|
    && Tidied(u[..n])
    && (forall i :: n <= i < m ==> u[i] == '\n')
    && m == (if n == 0 then 0 else n + 1)
    && At(u, m, START + "\n")
    && FootEnd(u, m + MARK) == Some(|u|)
  }

  lemma FreshBounds(u: string, n: nat, m: nat)
    requires Fresh(u, n, m)
    ensures n <= m < m + MARK <= |u| && FootEnd(u, m + MARK) == Some(|u|)
  {
  }

  lemma FreshMark(u: string, n: nat, m: nat)
    requires Fresh(u, n, m)
    ensures u[m] == '#' && u[m + 2] == '>' && !IsSpace(u[m])
    ensures forall i :: m <= i < m + |START| ==> u[i] != '\n'
    ensures n > 0 ==> u[n - 1] == '\n'
    ensures LineStart(u, n) && LineStart(u, m)
  {
    hide START, FootEnd;
    StartLine();
    AtLine(u, m, START);
    if n > 0 { assert u[n - 1] == u[..n][n - 1]; }
  }

  lemma FreshSkip(u: string, n: nat, m: nat)
    requires Fresh(u, n, m)
    ensures Skip(u, n) == m && Skip(u, m) == m
  {
    hide START, FootEnd, Skip;
    FreshMark(u, n, m);
    SkipTo(u, n, m);
    SkipTo(u, m, m);
  }

  /** From the end of the user's text, or after the blank line, everything is removed. */
  lemma FreshBlockRemoved(u: string, n: nat, m: nat, k: nat)
    requires Fresh(u, n, m) && (k == n || k == m)
    ensures RemoveBlocks(u, k) == ("", 1)
  {
    hide START, FootEnd, Skip, RemoveBlocks;
    FreshMark(u, n, m);
    FreshSkip(u, n, m);
    assert HeadAt(u, k);
    TakeBlock(u, k, |u|);
    RemoveAtEnd(u);
  }

  lemma EndInText(u: string, n: nat, m: nat, j: nat)
    requires Fresh(u, n, m) && j <= m && At(u, j, END)
    ensures j + |END| < n
  {
    hide START, END, FootEnd;
    EndLine();
    AtChars(u, j, END);
    FreshMark(u, n, m);
    assert u[j] == END[0] && u[j + 2] == END[2];
  }

  lemma FootBeforeBlock(u: string, n: nat, m: nat, p: nat)
    requires Fresh(u, n, m) && p < m + MARK && FootAt(u, p)
    ensures Skip(u, Skip(u, p) + |END|) <= m
  {
    hide START, END, FootEnd, Skip, Tidied;
    FreshMark(u, n, m);
    assert p <= m;
    SkipStops(u, p, m);
    EndInText(u, n, m, Skip(u, p));
    SkipStops(u, Skip(u, p) + |END|, m);
  }

  /** A scan for the end marker that starts before the fresh block's lines stops before the fresh
      block or at the very end. */
  lemma {:induction false} FootStops(u: string, n: nat, m: nat, p: nat)
    requires Fresh(u, n, m) && p <= m + MARK && p <= |u|
    ensures FootEnd(u, p).Some?
    ensures FootEnd(u, p).value <= m || FootEnd(u, p).value == |u|
    decreases m + MARK - p
  {
    hide Fresh, FootEnd, FootAt, END;
    FreshBounds(u, n, m);
    if p < m + MARK {
      if FootAt(u, p) {
        FootBeforeBlock(u, n, m, p);
        FootTaken(u, p);
      } else {
        FootNext(u, p);
        FootStops(u, n, m, p + 1);
      }
    }
  }

  /** A marker in the user's text starts a block; it ends in the text, just before the fresh block,
      or with it. */
  lemma HeadTakesSolid(u: string, n: nat, m: nat, k: nat)
    requires Fresh(u, n, m) && k < n && HeadAt(u, k)
    ensures BlockEnd(u, k).Some?
    ensures BlockEnd(u, k).value <= m || BlockEnd(u, k).value == |u|
    ensures Skip(u, k) < BlockEnd(u, k).value && Skip(u, k) + MARK <= n && !IsSpace(u[Skip(u, k)])
  {
    hide Fresh, FootEnd, Skip, HeadAt;
    FreshBounds(u, n, m);
    MarkInText(u, n, m, k);
    FootStops(u, n, m, Skip(u, k) + MARK);
  }

  lemma MarkInText(u: string, n: nat, m: nat, k: nat)
    requires Fresh(u, n, m) && k < n && HeadAt(u, k)
    ensures Skip(u, k) + MARK <= n && !IsSpace(u[Skip(u, k)])
  {
    hide START, FootEnd, Skip, IsSpace, HeadAt;
    var s := u[..n];
    assert u == s + u[n..];
    HeadsInPrefix(s, u[n..], k);
    HeadFits(s, k);
    SkipInPrefix(s, u[n..], k);
  }

  lemma HeadFits(s: string, k: nat)
    requires k < |s| && HeadAt(s, k)
    ensures Skip(s, k) + MARK <= |s| && !IsSpace(s[Skip(s, k)])
  {
    hide START, Skip;
    assert |START + "\n"| == MARK;
  }

  /** The removal leaves no more solid characters than the user's text has from `k` on, and fewer
      if a start marker is left there. */
  lemma {:induction false} BlocksTakeSolid(u: string, n: nat, m: nat, k: nat)
    requires Fresh(u, n, m) && k <= n <= |u|
    ensures Solid(RemoveBlocks(u, k).0) <= Solid(u[k..n])
    ensures (exists i :: k <= i < n && HeadAt(u, i)) ==> Solid(RemoveBlocks(u, k).0) < Solid(u[k..n])
    decreases n - k
  {
    hide Solid, Fresh, HeadAt, RemoveBlocks, Skip;
    if k == n {
      FreshBlockRemoved(u, n, m, k);
      SolidSpace("");
    } else if HeadAt(u, k) {
      HeadTakesSolid(u, n, m, k);
      SolidPositive(u, k, Skip(u, k), n);
      BlockTakesSolid(u, n, m, k, BlockEnd(u, k).value);
    } else {
      KeepChar(u, k);
      BlocksTakeSolid(u, n, m, k + 1);
      SolidKept(u, k, n, RemoveBlocks(u, k + 1).0);
    }
  }

  lemma {:induction false} BlockTakesSolid(u: string, n: nat, m: nat, k: nat, e: nat)
    requires Fresh(u, n, m) && k < n <= |u| && e <= |u| && BlockEnd(u, k) == Some(e)
    requires e <= m || e == |u|
    requires Skip(u, k) < e && Skip(u, k) < n && !IsSpace(u[Skip(u, k)])
    ensures Solid(RemoveBlocks(u, k).0) < Solid(u[k..n])
    decreases n - k, 0
  {
    hide Solid, HeadAt, RemoveBlocks, BlockEnd, Skip, FootEnd, START;
    TakeBlock(u, k, e);
    SolidPositive(u, k, Skip(u, k), n);
    SolidSpace("");
    if e <= n {
      BlocksTakeSolid(u, n, m, e);
      SolidSplit(u, k, e, n);
      SolidPositive(u, k, Skip(u, k), e);
    } else if e == |u| {
      RemoveAtEnd(u);
    } else {
      FreshBlockRemoved(u, n, m, e);
    }
  }

  // ---------- Tidying twice ----------

  /** No three line feeds in a row. */
  predicate FewFeeds(s: string) {
    |s| < 3 || (!(s[0] == '\n' && s[1] == '\n' && s[2] == '\n') && FewFeeds(s[1..]))
  }

  lemma {:induction false} FewFeedsDrop(s: string, n: nat)
    requires FewFeeds(s) && n <= |s|
    ensures FewFeeds(s[n..])
  {
    if n > 0 && |s| >= 3 { FewFeedsDrop(s[1..], n - 1); }
  }

  lemma {:induction false} FewFeedsTake(s: string, n: nat)
    requires FewFeeds(s) && n <= |s|
    ensures FewFeeds(s[..n])
  {
    if n >= 3 {
      FewFeedsTake(s[1..], n - 1);
      assert s[..n][1..] == s[1..][..n - 1];
    }
  }

  lemma {:induction false} FewFeedsLine(t: string)
    requires FewFeeds(t) && t != "" && t[|t| - 1] != '\n'
    ensures FewFeeds(t + "\n")
  {
    if |t| >= 2 {
      assert (t + "\n")[1..] == t[1..] + "\n";
      FewFeedsLine(t[1..]);
    }
  }

  lemma {:induction false} CollapseFewFeeds(s: string)
    ensures FewFeeds(Collapse(s))
    ensures s != "" ==> Collapse(s) != "" && Collapse(s)[0] == s[0]
    decreases |s|
  {
    hide FewFeeds;
    FewFeedsMore(' ', "");
    if s == "" {
    } else if s[0] == '\n' {
      CollapseFewFeeds(s[Feeds(s)..]);
      FewFeedsFront(Collapse(s[Feeds(s)..]));
    } else {
      CollapseFewFeeds(s[1..]);
      FewFeedsMore(s[0], Collapse(s[1..]));
    }
  }

  lemma FewFeedsMore(c: char, rest: string)
    ensures FewFeeds("")
    ensures FewFeeds(rest) && c != '\n' ==> FewFeeds([c] + rest)
  {
    assert ([c] + rest)[1..] == rest;
  }

  lemma FewFeedsFront(rest: string)
    requires FewFeeds(rest) && (rest == "" || rest[0] != '\n')
    ensures FewFeeds("\n" + rest) && FewFeeds("\n\n" + rest)
  {
    assert ("\n\n" + rest)[1..] == "\n" + rest && ("\n" + rest)[1..] == rest;
  }

  lemma {:induction false} CollapseSame(s: string)
    requires FewFeeds(s)
    ensures Collapse(s) == s
    decreases |s|
  {
    if s == "" {
    } else if s[0] == '\n' {
      var n := Feeds(s);
      assert n < 3 || s[2] == '\n';
      FewFeedsDrop(s, n);
      CollapseSame(s[n..]);
      assert s == s[..n] + s[n..];
      assert s[..n] == if n >= 2 then "\n\n" else "\n";
    } else {
      FewFeedsDrop(s, 1);
      CollapseSame(s[1..]);
    }
  }

  function Closed(t: string): string { if t == "" then "" else t + "\n" }

  lemma StripLine(t: string)
    requires t != "" && Trimmed(t)
    ensures Strip(t + "\n") == t && StripRight(t + "\n") == t
  {
    assert StripLeft(t + "\n") == t + "\n";
    assert (t + "\n")[..|t + "\n"| - 1] == t;
  }

  lemma TidyClosed(t: string)
    requires Trimmed(t) && FewFeeds(t)
    ensures Tidy(Closed(t)) == Closed(t)
  {
    hide Strip, Collapse, FewFeeds;
    if t != "" {
      SolidIsNoFeed(t[|t| - 1]);
      FewFeedsLine(t);
      CollapseSame(t + "\n");
      StripLine(t);
    } else {
      FewFeedsMore(' ', "");
      CollapseSame("");
      StripTrimmed("");
    }
  }

  /** What tidying makes is the closed form of a trimmed text, which tidying leaves as it is. */
  lemma TidyForm(w: string) returns (t: string)
    ensures Trimmed(t) && Tidy(w) == Closed(t) && Tidy(Closed(t)) == Closed(t)
  {
    hide FewFeeds, Collapse;
    CollapseFewFeeds(w);
    t := TrimmedPart(Collapse(w));
    TidyClosed(t);
  }

  lemma TrimmedPart(c: string) returns (t: string)
    requires FewFeeds(c)
    ensures t == Strip(c) && Trimmed(t) && FewFeeds(t)
  {
    hide FewFeeds, IsSpace;
    var l := StripLeft(c);
    t := StripRight(l);
    FewFeedsDrop(c, |c| - |l|);
    FewFeedsTake(l, |t|);
  }

  // ---------- The text that Upsert makes ----------

  /** Where the start marker stands after a stripped text. */
  function MarkPos(s: string): nat { if s == "" then 0 else |s| + 1 }

  /** What `UpsertIsFresh` says of a stripped text `s` and a new text `u`. */
  predicate FreshOf(u: string, s: string) {
    && |s| <= |u| && u[..|s|] == s
    && Fresh(u, |s|, MarkPos(s))
    && NoReturns(u) && NoReturns(s)
    && Tidy(s) == s
  }

  lemma UpsertIsFresh(existing: string, lines: seq<string>)
    requires NoReturns(existing) && AllBody(lines)
    ensures FreshOf(Upsert(existing, Block(lines)), StripConfig(existing).0)
  {
    hide RemoveServers, RemoveBlocks, Tidy, NewText, FreshOf, NoReturns, Block, AllBody, Trimmed;
    var t := TidyForm(RemoveServers(RemoveBlocks(PlainFeeds(existing), 0).0, 0).0);
    StripConfigReturns(existing);
    NewTextIsFresh(StripConfig(existing).0, t, lines);
  }

  lemma NewTextIsFresh(s: string, t: string, lines: seq<string>)
    requires NoReturns(s) && AllBody(lines)
    requires Trimmed(t) && s == Closed(t) && Tidy(s) == s
    ensures FreshOf(NewText(s, Block(lines)), s)
  {
    hide NoReturns, AllBody, Trimmed, Closed, Tidy, NewText, Block, START, END, Fresh, Feed;
    var gap := if s == "" then "" else "\n";
    UpsertText(s, t, gap, lines);
    ClosedIsTidied(t);
    var u := NewText(s, Block(lines));
    InstalledIsFresh(u, s, gap, START + "\n", Feed(lines) + (END + "\n"), lines);
    InstalledReturns(s, gap, lines);
  }

  lemma ClosedIsTidied(t: string)
    requires Trimmed(t)
    ensures Tidied(Closed(t))
  {
  }

  lemma {:induction false} BodyReturns(lines: seq<string>)
    requires AllBody(lines)
    ensures NoReturns(Feed(lines))
  {
    hide BodyLine;
    if lines != [] {
      BodyIsLine(lines[0]);
      BodyReturns(lines[1..]);
    }
  }

  lemma MarkerReturns()
    ensures NoReturns(START + "\n") && NoReturns(END + "\n")
  {
    hide START, END;
    StartLine();
    EndLine();
  }

  lemma InstalledReturns(s: string, gap: string, lines: seq<string>)
    requires NoReturns(s) && (gap == "" || gap == "\n") && AllBody(lines)
    ensures NoReturns(s + gap + (START + "\n") + (Feed(lines) + (END + "\n")))
  {
    hide START, END, Feed, AllBody;
    MarkerReturns();
    BodyReturns(lines);
  }

  lemma BlockText(lines: seq<string>)
    ensures Block(lines) == START + "\n" + Feed(lines) + END
  {
    hide START, END;
    JoinIsFeed([START] + lines, END);
    assert ([START] + lines)[1..] == lines;
  }

  lemma UpsertText(s: string, t: string, gap: string, lines: seq<string>)
    requires Trimmed(t) && s == Closed(t) && gap == if s == "" then "" else "\n"
    ensures NewText(s, Block(lines)) == s + gap + (START + "\n") + (Feed(lines) + (END + "\n"))
  {
    hide START, END, Feed, Block, NewText, Trimmed;
    BlockText(lines);
    NewTextOf(t, Block(lines));
    InstallText(if t == "" then "" else t + "\n\n", START + "\n", Feed(lines), END);
    assert s + gap == if t == "" then "" else t + "\n\n";
  }

  lemma NewTextOf(t: string, block: string)
    requires Trimmed(t)
    ensures NewText(Closed(t), block) == if t == "" then block + "\n" else t + "\n\n" + block + "\n"
  {
    hide Strip, StripRight, IsSpace;
    if t == "" { StripTrimmed(""); } else { StripLine(t); }
  }

  lemma InstallText(front: string, mark: string, body: string, end: string)
    ensures front + (mark + body + end) + "\n" == front + mark + (body + (end + "\n"))
    ensures front == "" ==> (mark + body + end) + "\n" == front + mark + (body + (end + "\n"))
  {
    Regroup(mark, body, end, "\n");
    Regroup3(front, mark + body + end, "\n");
    Regroup3(front, mark, body + (end + "\n"));
    if front == "" { assert front + mark == mark; }
  }

  lemma Slices(u: string, a: string, b: string, c: string, d: string)
    requires u == a + b + c + d && c != ""
    ensures var m, h := |a| + |b|, |a| + |b| + |c|;
      && h <= |u| && u[..|a|] == a && u[m..h] == c && u[h..] == d && u[h - 1] == c[|c| - 1]
      && forall i :: |a| <= i < m ==> u[i] == b[i - |a|]
  {
  }

  lemma InstalledIsFresh(u: string, s: string, gap: string, mark: string, tail: string, lines: seq<string>)
    requires Tidied(s) && gap == (if s == "" then "" else "\n") && AllBody(lines)
    requires mark == START + "\n" && tail == Feed(lines) + (END + "\n")
    requires u == s + gap + mark + tail
    ensures |s| <= |u| && u[..|s|] == s
    ensures Fresh(u, |s|, MarkPos(s))
  {
    hide START, END, Feed, AllBody, FootEnd, IsSpace, Tidied;
    Slices(u, s, gap, mark, tail);
    assert |mark| == MARK && mark[MARK - 1] == '\n';
    assert |s| + |gap| == MarkPos(s);
    MarkIsFresh(u, MarkPos(s), lines);
  }

  lemma MarkIsFresh(u: string, m: nat, lines: seq<string>)
    requires m + MARK <= |u| && u[m..m + MARK] == START + "\n" && u[m + MARK - 1] == '\n'
    requires AllBody(lines) && u[m + MARK..] == Feed(lines) + (END + "\n")
    ensures At(u, m, START + "\n")
    ensures FootEnd(u, m + MARK) == Some(|u|)
  {
    hide START, END, Feed, AllBody, FootEnd;
    assert "" + (END + "\n") == END + "\n";
    FootOfLines(u, m + MARK, lines, "", "\n");
    var n := |u| - 1;
    assert u[n] == u[m + MARK..][|u[m + MARK..]| - 1] == '\n';
    SkipTo(u, n, |u|);
  }
}
