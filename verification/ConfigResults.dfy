/**
 The statements about whole configuration files: inserting, stripping, inserting again, removing.
 */
module ConfigResults {
  import opened Text
  import opened TextLines
  import opened ConfigEditor
  import opened ConfigMatching
  import opened ConfigRoundTrip
  import opened ConfigLines
  import opened ConfigWords

  // ---------- Stripping what was just written ----------

  /** Without markers in the user's text, removing blocks leaves just that text. */
  lemma KeptText(u: string, n: nat, m: nat)
    requires Fresh(u, n, m) && forall i :: 0 <= i < n ==> !HeadAt(u, i)
    ensures RemoveBlocks(u, 0) == (u[..n], 1)
  {
    hide RemoveBlocks, HeadAt;
    FreshBounds(u, n, m);
    forall i | 0 <= i < n
      ensures BlockEnd(u, i) == None
    {
    }
    NoBlocksBefore(u, 0, n);
    FreshBlockRemoved(u, n, m, n);
    assert u[0..n] == u[..n] && u[..n] + "" == u[..n];
  }

  lemma HeadsOf(u: string, s: string, i: nat)
    requires |s| <= |u| && u[..|s|] == s && Tidied(s) && i < |s|
    ensures HeadAt(u, i) == HeadAt(s, i)
  {
    assert u == s + u[|s|..];
    HeadsInPrefix(s, u[|s|..], i);
  }

  lemma StripCleanHeads(u: string, s: string)
    requires FreshOf(u, s) && NoHeads(s)
    ensures RemoveBlocks(u, 0) == (s, 1)
  {
    forall i | 0 <= i < |s|
      ensures !HeadAt(u, i)
    {
      HeadsOf(u, s, i);
    }
    KeptText(u, |s|, MarkPos(s));
  }

  lemma StripLeftoverHead(u: string, s: string)
    requires FreshOf(u, s) && !NoHeads(s)
    ensures Solid(RemoveBlocks(u, 0).0) < Solid(s)
  {
    var i :| 0 <= i <= |s| && HeadAt(s, i);
    HeadsOf(u, s, i);
    BlocksTakeSolid(u, |s|, MarkPos(s), 0);
    assert u[0..|s|] == s;
  }

  /** What stripping makes of a freshly written text: its user part, if that is clean, and
      otherwise less of it. */
  lemma StripFresh(u: string, s: string)
    requires FreshOf(u, s)
    ensures Clean(s) ==> StripConfig(u) == (s, true)
    ensures !Clean(s) ==> Solid(StripConfig(u).0) < Solid(s)
  {
    hide Solid, Tidy, Fresh, RemoveBlocks, RemoveServers, HeadAt, ServerAt, PlainFeeds;
    PlainFeedsSame(u);
    var plain := RemoveBlocks(u, 0).0;
    ServersTakeSolid(plain, 0);
    SolidTidy(RemoveServers(plain, 0).0);
    assert plain[0..|plain|] == plain;
    if NoHeads(s) {
      StripCleanHeads(u, s);
      if NoServers(s) {
        NoServersIn(s);
      } else {
        ServerInside(s);
      }
    } else {
      StripLeftoverHead(u, s);
    }
  }

  // ---------- The laws ----------

  /** Stripping undoes inserting exactly when the stripped text is clean; so does removing the
      registration, which writes the stripped text if stripping says that it changed something. */
  lemma StripAfterUpsert(raw: string, lines: seq<string>)
    requires AllBody(lines)
    ensures var existing := UniversalNewlines(raw);
      var stripped := StripConfig(existing).0;
      var again := StripConfig(UniversalNewlines(Upsert(existing, Block(lines))));
      (again.0 == stripped <==> Clean(stripped)) && (again == (stripped, true) <==> Clean(stripped))
  {
    var existing := UniversalNewlines(raw);
    UpsertIsFresh(existing, lines);
    UniversalNewlinesSame(Upsert(existing, Block(lines)));
    StripFresh(Upsert(existing, Block(lines)), StripConfig(existing).0);
  }

  /** The block and what it is added to keep their solid characters. */
  lemma SolidNewText(s: string, block: string)
    ensures Solid(NewText(s, block)) == Solid(s) + Solid(block)
  {
    hide Solid, Strip, StripRight;
    SolidStrip(s);
    SolidSpace("\n");
    SolidAppend(block, "\n");
    if Strip(s) != "" {
      SolidRight(s);
      SolidSpace("\n\n");
      SolidAppend(StripRight(s), "\n\n");
      SolidAppend(StripRight(s) + "\n\n", block);
      SolidAppend(StripRight(s) + "\n\n" + block, "\n");
    } else {
      SolidSpace("");
    }
  }

  /** Inserting twice is inserting once, under the same condition and no other. */
  lemma UpsertTwice(raw: string, lines: seq<string>)
    requires AllBody(lines)
    ensures var existing := UniversalNewlines(raw);
      var once := Upsert(existing, Block(lines));
      Upsert(UniversalNewlines(once), Block(lines)) == once <==> Clean(StripConfig(existing).0)
  {
    var existing, block := UniversalNewlines(raw), Block(lines);
    var once, s := Upsert(existing, block), StripConfig(existing).0;
    UpsertIsFresh(existing, lines);
    UniversalNewlinesSame(once);
    StripFresh(once, s);
    SolidNewText(s, block);
    SolidNewText(StripConfig(once).0, block);
  }

  // ---------- The block that is written ----------

  predicate PlainText(s: string) { OneLine(s) && NoReturns(s) }

  lemma {:induction false} ReplacePlain(s: string, c: char, sub: string)
    requires PlainText(s) && PlainText(sub)
    ensures PlainText(ReplaceChar(s, c, sub))
  {
    if s != "" { ReplacePlain(s[1..], c, sub); }
  }

  lemma EscapePlain(s: string)
    requires PlainText(s)
    ensures PlainText(TomlEscape(s)) && PlainText(TomlEscape(PosixText(s)))
  {
    ReplacePlain(s, '\\', "\\\\");
    ReplacePlain(ReplaceChar(s, '\\', "\\\\"), '"', "\\\"");
    var p := PosixText(s);
    ReplacePlain(s, '\\', "/");
    ReplacePlain(p, '\\', "\\\\");
    ReplacePlain(ReplaceChar(p, '\\', "\\\\"), '"', "\\\"");
  }

  predicate GoodLine(l: string) { PlainText(l) && l != "" && !IsSpace(l[0]) && l[0] != '#' }

  lemma GoodIsBody(l: string)
    requires GoodLine(l)
    ensures BodyLine(l)
  {
    hide END, IsSpace;
    EndLine();
    assert StripLeft(l) == l;
    AtStarts(l, 0, END);
  }

  lemma {:induction false} GoodLines(lines: seq<string>)
    requires forall i :: 0 <= i < |lines| ==> GoodLine(lines[i])
    ensures AllBody(lines)
  {
    hide GoodLine, BodyLine;
    if lines != [] {
      GoodIsBody(lines[0]);
      GoodLines(lines[1..]);
    }
  }

  lemma {:induction false} AppendBody(lines: seq<string>, more: seq<string>)
    requires AllBody(lines) && AllBody(more)
    ensures AllBody(lines + more)
  {
    hide BodyLine;
    if lines == [] {
      assert lines + more == more;
    } else {
      AppendBody(lines[1..], more);
      assert (lines + more)[1..] == lines[1..] + more;
    }
  }

  /** A line goes on being good when plain text is added to it. */
  lemma GoodMore(a: string, b: string)
    requires GoodLine(a) && PlainText(b)
    ensures GoodLine(a + b)
  {
  }

  lemma GoodQuoted(front: string, value: string, back: string)
    requires GoodLine(front) && PlainText(value) && PlainText(back)
    ensures GoodLine(front + value + back)
  {
    hide GoodLine, PlainText;
    GoodMore(front, value);
    GoodMore(front + value, back);
  }

  lemma GoodFour(a: string, r: string, b: string, p: string, c: string, h: string, d: string, n: string, e: string)
    requires GoodLine(a) && PlainText(b) && PlainText(c) && PlainText(d) && PlainText(e)
    requires PlainText(r) && PlainText(p) && PlainText(h) && PlainText(n)
    ensures GoodLine(a + r + b + p + c + h + d + n + e)
  {
    hide GoodLine, PlainText;
    GoodQuoted(a, r, b);
    GoodQuoted(a + r + b, p, c);
    GoodQuoted(a + r + b + p + c, h, d);
    GoodQuoted(a + r + b + p + c + h + d, n, e);
  }

  /** For arguments on one line, no line of the block ends it early. */
  lemma BlockLinesAreBody(repo: string, python: string, host: string, port: nat, plugin: Option<string>)
    requires PlainText(repo) && PlainText(python) && PlainText(host) && (plugin.Some? ==> PlainText(plugin.value))
    ensures AllBody(BlockLines(repo, python, host, port, plugin))
  {
    hide TomlEscape, PosixText, Dec, AllBody, GoodLine, PlainText, ServerBlock, PluginBlock;
    EscapePlain(repo);
    EscapePlain(python);
    EscapePlain(host);
    DecIsPlain(port);
    var server := ServerBlock(TomlEscape(PosixText(repo)), TomlEscape(PosixText(python)), TomlEscape(host), Dec(port));
    ServerBlockIsBody(TomlEscape(PosixText(repo)), TomlEscape(PosixText(python)), TomlEscape(host), Dec(port));
    if plugin.Some? && plugin.value != "" {
      EscapePlain(plugin.value);
      PluginBlockIsBody(TomlEscape(plugin.value));
      AppendBody(server, PluginBlock(TomlEscape(plugin.value)));
    } else {
      assert server + [] == server;
    }
  }

  lemma DecIsPlain(n: nat)
    ensures PlainText(Dec(n))
  {
  }

  lemma ServerBlockIsBody(r: string, p: string, h: string, port: string)
    requires PlainText(r) && PlainText(p) && PlainText(h) && PlainText(port)
    ensures AllBody(ServerBlock(r, p, h, port))
  {
    hide GoodLine, PlainText, SERVER, AllBody;
    FixedLines();
    FixedPieces();
    MorePieces();
    GoodQuoted("command = \"", p, "\"");
    GoodQuoted("cwd = \"", r, "\"");
    GoodFour("env = { MISSION_CONTROL_REPO_ROOT = \"", r, "\", MISSION_CONTROL_PYTHON = \"", p,
             "\", MISSION_CONTROL_BACKEND_HOST = \"", h, "\", MISSION_CONTROL_BACKEND_PORT = \"", port, "\" }");
    GoodLines(ServerBlock(r, p, h, port));
  }

  lemma PluginBlockIsBody(plugin: string)
    requires PlainText(plugin)
    ensures AllBody(PluginBlock(plugin))
  {
    hide GoodLine, PlainText, AllBody;
    FixedLines();
    FixedPieces();
    GoodQuoted("[plugins.\"", plugin, "\"]");
    var more := ["[plugins.\"" + plugin + "\"]", "enabled = true"];
    GoodLines(more);
    BlankIsBody();
    AppendBody([""], more);
    assert [""] + more == PluginBlock(plugin);
  }

  lemma FixedLines()
    ensures GoodLine(SERVER) && GoodLine("args = [\"scripts/" + "serve-mission-control-mcp.py\"]")
    ensures GoodLine("command = \"") && GoodLine("cwd = \"") && GoodLine("enabled = true")
  {
    hide GoodLine, SERVER;
    ServerIsGood();
    ArgsAreGood();
    ShortAreGood();
  }

  lemma ServerIsGood()
    ensures GoodLine(SERVER)
  {
    hide SERVER;
    ServerLine();
    assert SERVER[0] == '[';
  }

  lemma ArgsAreGood()
    ensures GoodLine("args = [\"scripts/" + "serve-mission-control-mcp.py\"]")
  {
    GoodMore("args = [\"scripts/", "serve-mission-control-mcp.py\"]");
  }

  lemma ShortAreGood()
    ensures GoodLine("command = \"") && GoodLine("cwd = \"") && GoodLine("enabled = true")
  {
  }

  lemma FixedPieces()
    ensures GoodLine("env = { MISSION_CONTROL_REPO_ROOT = \"") && GoodLine("[plugins.\"")
    ensures PlainText("\"") && PlainText("\" }") && PlainText("\"]")
  {
  }

  lemma MorePieces()
    ensures PlainText("\", MISSION_CONTROL_PYTHON = \"") && PlainText("\", MISSION_CONTROL_BACKEND_HOST = \"")
    ensures PlainText("\", MISSION_CONTROL_BACKEND_PORT = \"")
  {
    hide PlainText;
    PythonPiece();
    HostPiece();
    PortPiece();
  }

  lemma PythonPiece()
    ensures PlainText("\", MISSION_CONTROL_PYTHON = \"")
  {
  }

  lemma HostPiece()
    ensures PlainText("\", MISSION_CONTROL_BACKEND_HOST = \"")
  {
  }

  lemma PortPiece()
    ensures PlainText("\", MISSION_CONTROL_BACKEND_PORT = \"")
  {
  }

  lemma BlankIsBody()
    ensures BodyLine("") && AllBody([""])
  {
    hide END;
    EndLine();
    assert [""][1..] == [];
  }

  // ---------- Texts that are, and are not, clean ----------

  /** The laws for a text of user lines and managed blocks. If the text keeps the lines, they hold
      exactly when none of the lines that are left is a marker once the first and the last are trimmed,
      and all words of the user's lines are there after inserting and stripping. */
  lemma LawsForUserTexts(parts: seq<Part>, tail: seq<string>, last: string, lines: seq<string>)
    requires AllParts(parts) && Loose(tail, last) && AllBody(lines)
    ensures var x := Doc(parts, tail, last);
      var stripped, once := StripConfig(x).0, Upsert(x, Block(lines));
      var lawful := Clean(stripped);
      && (StripConfig(once) == (stripped, true) <==> lawful)
      && (Upsert(once, Block(lines)) == once <==> lawful)
      && (Keeps(parts, tail) ==>
            && (lawful <==> NoMarkers(TrimEnds(Left(parts, tail, false) + LeftLast(parts, tail, last, false))))
            && (lawful ==> TextWords(StripConfig(once).0) == UserWords(parts, tail, last)))
  {
    hide StripConfig, Upsert, Block, Doc, AllParts, Loose, AllBody, Left, LeftLast, TrimEnds, UserWords, NoMarkers,
         TextWords, Keeps, Clean, NoReturns;
    var x := Doc(parts, tail, last);
    DocReturns(parts, tail, last);
    UniversalNewlinesSame(x);
    UserLinesSurvive(parts, tail, last);
    if Keeps(parts, tail) { CleanOfKept(parts, tail, last); }
    UpsertIsFresh(x, lines);
    UniversalNewlinesSame(Upsert(x, Block(lines))) by {
      FreshReturns(Upsert(x, Block(lines)), StripConfig(x).0);
    }
    StripAfterUpsert(x, lines);
    UpsertTwice(x, lines);
  }

  lemma FreshReturns(u: string, s: string)
    requires FreshOf(u, s)
    ensures NoReturns(u)
  {
    hide Fresh, Tidy;
  }

  lemma {:induction false} FewFeedsOneLine(t: string)
    requires OneLine(t)
    ensures FewFeeds(t)
  {
    if |t| >= 3 { FewFeedsOneLine(t[1..]); }
  }

  /** A text of one unfinished line is taken for neither marker nor header. */
  lemma StripOneLine(t: string)
    requires OneLine(t) && NoReturns(t) && Trimmed(t) && t != ""
    ensures StripConfig(t) == (t + "\n", false)
  {
    PlainFeedsSame(t);
    assert t[0..] == t;
    KeepLast(t, 0);
    forall i | 0 <= i < |t|
      ensures !ServerAt(t, i)
    {
      NoMarkerAhead(t, 0, i, SERVER);
    }
    NoServersIn(t);
    FewFeedsOneLine(t);
    CollapseSame(t);
    StripTrimmed(t);
  }

  /** A file that holds the header and no line feed: stripping does not see the header, but ends the
      line, and then the header is seen -- so stripping again does not give the same, and inserting
      twice is not inserting once. */
  lemma LeftoverServer(lines: seq<string>)
    requires AllBody(lines)
    ensures var s := StripConfig(SERVER).0;
      && s == SERVER + "\n" && !Clean(s)
      && StripConfig(Upsert(SERVER, Block(lines))).0 != s
      && Upsert(Upsert(SERVER, Block(lines)), Block(lines)) != Upsert(SERVER, Block(lines))
  {
    hide SERVER, StripConfig, NewText, Block, AllBody, FreshOf, Solid, Clean;
    ServerLine();
    StripOneLine(SERVER);
    ServerStands();
    var s, once, block := SERVER + "\n", Upsert(SERVER, Block(lines)), Block(lines);
    UpsertIsFresh(SERVER, lines);
    StripFresh(once, s);
    SolidNewText(s, block);
    SolidNewText(StripConfig(once).0, block);
  }

  lemma ServerStands()
    ensures !Clean(SERVER + "\n")
  {
    hide SERVER;
    var s := SERVER + "\n";
    assert s[0..0 + |s|] == s;
    assert ServerAt(s, 0);
  }

  // ---------- Lines that do not survive ----------

  const INDENTED := "  " + SERVER

  const FOO := "foo"

  const FIRST := Part([], "", [], "", "\n")

  const SECOND := Part([], "  ", [SERVER], "", "\n")

  lemma IndentedLine()
    ensures StripLeft(INDENTED) == SERVER && Strip(INDENTED) == SERVER && UserLine(INDENTED)
  {
    hide SERVER, START, Strip, OneLine, NoReturns;
    StartLine();
    ServerLine();
    IndentedStrips(SERVER);
    IndentedIsLine(SERVER);
  }

  lemma {:induction false} IndentedStrips(t: string)
    requires Trimmed(t)
    ensures StripLeft("  " + t) == t && Strip("  " + t) == t
  {
    hide IsSpace, Trimmed, StripRight, StripLeft;
    BlankIsSpace();
    StripTrimmed(t);
    StripLeftFront(' ', t);
    StripLeftFront(' ', [' '] + t);
    assert "  " + t == [' '] + ([' '] + t);
  }

  lemma IndentedIsLine(t: string)
    requires OneLine(t) && NoReturns(t)
    ensures OneLine("  " + t) && NoReturns("  " + t)
  {
  }

  lemma BlankIsSpace()
    ensures IsSpace(' ')
  {
  }

  lemma FooLine()
    ensures Trimmed(FOO) && FOO != "" && FOO[0] == 'f' && OneLine(FOO) && NoReturns(FOO)
  {
  }

  lemma MoreLines()
    ensures UserLine(FOO) && !Blank(FOO) && StripLeft(FOO) == FOO && FOO != START
  {
    hide START, FOO, Trimmed;
    StartLine();
    FooLine();
    StripTrimmed(FOO);
  }

  /** The header takes everything behind it, if that does not begin a table. */
  lemma {:induction false} HeaderTakesAll(w: string, k: nat, rest: string)
    requires k <= |w| && LineStart(w, k) && w[k..] == SERVER + ("\n" + rest) && (rest == "" || rest[0] != '[')
    ensures RemoveServers(w, k) == ("", 1)
  {
    hide SERVER;
    var j := k + |SERVER| + 1;
    assert w[k..j] == w[k..][..|SERVER| + 1] == SERVER + "\n";
    assert w[j..] == w[k..][|SERVER| + 1..] == rest;
    assert rest != "" ==> w[j] == w[j..][0];
    assert k < |w| && ServerAt(w, k) && ServerEnd(w, k) == |w|;
  }

  /** A bare block at the start of a text is gone, and so is the white space behind it. */
  lemma {:induction false} FirstGone(x: string, doc: string)
    requires x == Managed(FIRST, doc)
    ensures |doc| <= |x| && x[|x| - |doc|..] == doc && LineStart(x, |x| - |doc|)
    ensures RemoveBlocks(x, 0) == (RemoveBlocks(x, Skip(x, |x| - |doc|)).0, RemoveBlocks(x, Skip(x, |x| - |doc|)).1 + 1)
  {
    hide START, END, RemoveBlocks, Skip, FootEnd, Managed, BlockEnd, At, LineStart, EndsLine, GoodPart;
    assert x[0..] == x;
    FirstIsGood();
    TextStarts(x);
    BlockFacts(x, 0, FIRST, doc, true);
    BlockFound(x, 0, 0, Skip(x, |x| - |doc|));
    TakeBlock(x, 0, Skip(x, |x| - |doc|));
    EndBehind(x, 0, FIRST, doc);
    EndsLine1();
  }

  lemma TextStarts(x: string)
    ensures LineStart(x, 0)
  {
  }

  lemma EndsLine1()
    ensures EndsLine(FIRST.behind, false)
  {
  }

  lemma FirstIsGood()
    ensures GoodPart(FIRST) && GoodPart(SECOND) && White("  ")
  {
    hide START, SERVER, FOO, END, BodyLine;
    OthersAreBody();
    assert [SERVER][1..] == [];
    assert White("") && White("\n") && White("  ");
  }

  lemma {:induction false} LineAt(x: string, k: nat, l: string, more: string)
    requires k <= |x| && x[k..] == l + ("\n" + more)
    ensures k + |l| < |x| && x[k..k + |l|] == l && x[k + |l|] == '\n' && x[k + |l| + 1..] == more
  {
    Regroup3(l, "\n", more);
    CutLine(x, k, l, more);
  }

  /** An indented header right behind a managed block: the block takes the indentation with it, the header
      is then flush left, and it goes with all that follows. Behind a line of the user's it would have
      stayed. */
  lemma {:induction false} IndentedHeaderIsLost()
    ensures StripConfig(START + "\n" + END + "\n" + "  " + SERVER + "\n" + FOO + "\n") == ("", true)
    ensures !Keeps([FIRST], [INDENTED, FOO]) && Keeps([FIRST], [FOO, INDENTED])
  {
    hide START, END, SERVER, RemoveBlocks, RemoveServers, UserLine, Skip, Blank, FootEnd, At, Strip, StripLeft,
         PlainFeeds;
    var doc := INDENTED + ("\n" + (FOO + ("\n" + "")));
    var x := Managed(FIRST, doc);
    HeaderText(x, doc);
    LostPlain(x, doc);
    var plain := RemoveBlocks(x, 0).0;
    assert plain[0..] == plain;
    HeaderTakesAll(plain, 0, FOO + ("\n" + ""));
    WhichAreKept();
    EmptyTidy();
  }

  lemma EmptyTidy()
    ensures Tidy("") == ""
  {
    StripTrimmed("");
  }

  lemma {:induction false} HeaderText(x: string, doc: string)
    requires doc == INDENTED + ("\n" + (FOO + ("\n" + ""))) && x == Managed(FIRST, doc)
    ensures x == START + "\n" + END + "\n" + "  " + SERVER + "\n" + FOO + "\n"
    ensures PlainFeeds(x) == x
  {
    hide START, END, SERVER, PlainFeeds, FOO;
    StartLine();
    EndLine();
    ServerLine();
    FooLine();
    PlainFeedsSame(x);
  }

  lemma {:induction false} LostPlain(x: string, doc: string)
    requires doc == INDENTED + ("\n" + (FOO + ("\n" + ""))) && x == Managed(FIRST, doc)
    ensures RemoveBlocks(x, 0) == (SERVER + ("\n" + (FOO + ("\n" + ""))), 1)
  {
    hide START, END, SERVER, RemoveBlocks, UserLine, Skip, Strip, StripLeft, Managed, LineStart, INDENTED, FOO;
    FirstGone(x, doc);
    var n := |x| - |doc|;
    LineAt(x, n, INDENTED, FOO + ("\n" + ""));
    var q := n + |INDENTED| + 1;
    FooStays(x, q);
    HeaderShows(x, n);
  }

  lemma {:induction false} HeaderShows(x: string, n: nat)
    requires n + |INDENTED| < |x| && x[n..n + |INDENTED|] == INDENTED && x[n + |INDENTED|] == '\n'
    ensures var rest := RemoveBlocks(x, n + |INDENTED| + 1);
      RemoveBlocks(x, Skip(x, n)) == (SERVER + ("\n" + rest.0), rest.1)
  {
    hide START, SERVER, RemoveBlocks, UserLine, Skip, Strip, StripLeft, INDENTED;
    IndentedLine();
    ServerLine();
    UserKept(x, n, INDENTED);
    FilledLine(x, n, INDENTED, true);
  }

  lemma {:induction false} FooStays(x: string, q: nat)
    requires q <= |x| && x[q..] == FOO + ("\n" + "")
    ensures RemoveBlocks(x, q) == (FOO + ("\n" + ""), 0)
  {
    hide RemoveBlocks, UserLine, Blank, FOO, KeptAt, Skip, BlockEnd, StripLeft;
    MoreLines();
    LineAt(x, q, FOO, "");
    UserKept(x, q, FOO);
    FilledLine(x, q, FOO, false);
    assert q + |FOO| + 1 == |x|;
    RemoveAtEnd(x);
  }

  lemma LeftBehindFirst(tail: seq<string>)
    ensures AllFound([FIRST]) && Left([FIRST], tail, false) == Shown(tail, true)
  {
    hide Shown;
    assert [FIRST][1..] == [] && FIRST.user == [];
    assert Left([FIRST], tail, false) == Shown([], false) + Left([], tail, true);
    NothingShown();
  }

  lemma NothingShown()
    ensures forall behind :: Shown([], behind) == []
  {
  }

  lemma ShownLast(b: string)
    requires !Blank(b)
    ensures Shown([b], false) == [b]
  {
    hide Blank;
    assert [b][1..] == [];
  }

  lemma ShownFirst(a: string, b: string)
    requires !Blank(a) && !Blank(StripLeft(a))
    ensures Shown([a, b], true) == [StripLeft(a)] + Shown([b], false)
  {
    hide Blank, StripLeft;
    assert [a, b][1..] == [b];
  }

  lemma ShownTwo(a: string, b: string)
    requires !Blank(a) && !Blank(b)
    ensures Shown([a, b], true) == [StripLeft(a), b]
  {
    hide StripLeft, StripRight, Shown, Blank;
    StripTwice(a);
    ShownLast(b);
    ShownFirst(a, b);
  }

  lemma WhichAreKept()
    ensures !Keeps([FIRST], [INDENTED, FOO]) && Keeps([FIRST], [FOO, INDENTED])
  {
    hide SERVER, Strip, StripLeft, UserLine, Shown, Left, INDENTED, FOO;
    IndentedLine();
    MoreLines();
    ServerLine();
    FooLine();
    IndentedIsOther();
    LeftBehindFirst([INDENTED, FOO]);
    LeftBehindFirst([FOO, INDENTED]);
    ShownTwo(INDENTED, FOO);
    ShownTwo(FOO, INDENTED);
    assert [StripLeft(INDENTED), FOO][0] == SERVER;
    assert SERVER[0] != FOO[0];
  }

  lemma IndentedIsOther()
    ensures INDENTED != SERVER
  {
    hide SERVER;
    assert |INDENTED| == |SERVER| + 2;
  }

  /** An indented start marker right behind a managed block: its indentation goes with the first block, so
      it does not begin a line where the scan goes on, and the second block is not found. */
  lemma IndentedStartStays()
    ensures var x := START + "\n" + END + "\n" + "  " + START + "\n" + SERVER + "\n" + END + "\n" + (FOO + "\n");
      && x == Doc([FIRST, SECOND], [FOO], "")
      && TextWords(StripConfig(x).0) != UserWords([FIRST, SECOND], [FOO], "") == [FOO]
  {
    hide START, END, SERVER, StripConfig, TextWords, AllFound, FOO;
    TwoParts();
    MoreLines();
    UserLinesSurvive([FIRST, SECOND], [FOO], "");
  }

  lemma TwoParts()
    ensures AllParts([FIRST, SECOND]) && Loose([FOO], "") && !AllFound([FIRST, SECOND])
    ensures UserWords([FIRST, SECOND], [FOO], "") == [FOO]
    ensures Doc([FIRST, SECOND], [FOO], "")
      == START + "\n" + END + "\n" + "  " + START + "\n" + SERVER + "\n" + END + "\n" + (FOO + "\n")
  {
    hide START, END, SERVER, UserLine, GoodPart, AllFound, UserWords, Doc, FOO;
    BothGood();
    MoreLines();
    FooIsLoose();
    SecondNotFound();
    FooIsWord();
    TwoBlocks();
  }

  lemma FooIsLoose()
    ensures Loose([FOO], "")
  {
    hide UserLine, BodyLine, FOO;
    MoreLines();
    assert [FOO][1..] == [] && Loose([], "");
  }

  lemma BothGood()
    ensures AllParts([FIRST, SECOND])
  {
    hide GoodPart;
    FirstIsGood();
    assert [FIRST, SECOND][1..] == [SECOND] && [SECOND][1..] == [];
    assert AllParts([SECOND]);
  }

  lemma SecondNotFound()
    ensures !AllFound([FIRST, SECOND])
  {
    assert "  "[|"  "| - 1] == ' ';
    assert !EndsLine(SECOND.before, true) && !EndsLine(SECOND.before, false);
    assert SECOND.user == [] && AllBlank([]);
  }

  lemma FooIsWord()
    ensures UserWords([FIRST, SECOND], [FOO], "") == [FOO]
  {
    hide Word, Words, FOO;
    FooWord();
    assert [FIRST, SECOND][1..] == [SECOND] && [SECOND][1..] == [] && FIRST.user == [] && SECOND.user == [];
    assert UserWords([], [FOO], "") == [FOO];
    assert UserWords([SECOND], [FOO], "") == Words([]) + UserWords([], [FOO], "");
  }

  lemma FooWord()
    ensures Words([FOO]) == [FOO] && Word("") == [] && Words([]) == []
  {
    hide Strip, FOO, Trimmed;
    FooLine();
    StripTrimmed(FOO);
    NothingBlank();
    assert [FOO][1..] == [];
  }

  lemma TwoBlocks()
    ensures Doc([FIRST, SECOND], [FOO], "")
      == START + "\n" + END + "\n" + "  " + START + "\n" + SERVER + "\n" + END + "\n" + (FOO + "\n")
  {
    hide START, END, SERVER, Managed, Feed, FOO;
    assert [FIRST, SECOND][1..] == [SECOND] && [SECOND][1..] == [];
    assert FIRST.user == [] && SECOND.user == [];
    FeedOne(FOO);
    FeedOne(SERVER);
    var doc := FOO + "\n";
    assert Doc([], [FOO], "") == doc;
    assert Doc([SECOND], [FOO], "") == Managed(SECOND, doc);
    SecondText(doc);
    FirstText(Managed(SECOND, doc));
    TextOfBoth(doc);
  }

  lemma FeedOne(l: string)
    ensures Feed([]) == "" && Feed([l]) == l + "\n"
  {
    assert [l][1..] == [];
  }

  lemma FirstText(doc: string)
    ensures Managed(FIRST, doc) == START + "\n" + END + "\n" + doc
  {
    hide START, END;
  }

  lemma SecondText(doc: string)
    ensures Managed(SECOND, doc) == "  " + START + "\n" + SERVER + "\n" + END + "\n" + doc
  {
    hide START, END, SERVER, Feed;
    FeedOne(SERVER);
  }

  lemma TextOfBoth(doc: string)
    ensures START + "\n" + END + "\n" + ("  " + START + "\n" + SERVER + "\n" + END + "\n" + doc)
      == START + "\n" + END + "\n" + "  " + START + "\n" + SERVER + "\n" + END + "\n" + doc
  {
    hide START, END, SERVER;
  }

  /** A block whose end marker is missing is left standing, and its header goes with all that follows. */
  lemma UnclosedBlockIsCut()
    ensures Loose([START, SERVER, FOO], "")
    ensures TextWords(StripConfig(START + "\n" + SERVER + "\n" + FOO + "\n").0) != UserWords([], [START, SERVER, FOO], "")
  {
    hide START, SERVER, FOO, StripConfig, TextWords, UserWords, Loose, Left, Blank;
    OpenLoose();
    HeaderLeft();
    assert AllFound([]);
    UserLinesSurvive([], [START, SERVER, FOO], "");
    OpenText();
  }

  lemma OpenLoose()
    ensures Loose([START, SERVER, FOO], "")
  {
    hide START, SERVER, FOO, BodyLine, END;
    OthersAreBody();
    assert [START, SERVER, FOO][1..] == [SERVER, FOO] && [SERVER, FOO][1..] == [FOO] && [FOO][1..] == [];
    assert AllBody([FOO]);
    assert AllBody([SERVER, FOO]);
  }

  lemma OthersAreBody()
    ensures BodyLine(START) && BodyLine(SERVER) && BodyLine(FOO) && BodyLine("")
  {
    hide START, SERVER, FOO, END, StripLeft, Trimmed;
    StartLine();
    ServerLine();
    FooLine();
    EndLine();
    StripTrimmed(START);
    StripTrimmed(SERVER);
    StripTrimmed(FOO);
    StripTrimmed("");
    AtThird(START, END);
    AtStarts(SERVER, 0, END);
    AtStarts(FOO, 0, END);
  }

  lemma HeaderLeft()
    ensures SERVER in Left([], [START, SERVER, FOO], false)
  {
    hide START, SERVER, FOO, Blank, Shown;
    MarkersFilled();
    ShownNext(START, [SERVER, FOO]);
    ShownNext(SERVER, [FOO]);
    assert [START] + [SERVER, FOO] == [START, SERVER, FOO] && [SERVER] + [FOO] == [SERVER, FOO];
  }

  lemma ShownNext(line: string, more: seq<string>)
    ensures Shown([line] + more, false) == Own(line) + Shown(more, false)
  {
    assert ([line] + more)[1..] == more;
  }

  lemma MarkersFilled()
    ensures !Blank(SERVER) && !Blank(START)
  {
    hide SERVER, START, Trimmed;
    ServerLine();
    StartLine();
    StripTrimmed(SERVER);
    StripTrimmed(START);
  }

  lemma FeedNext(line: string, more: seq<string>)
    ensures Feed([line] + more) == line + "\n" + Feed(more)
  {
    assert ([line] + more)[1..] == more;
  }

  lemma OpenText()
    ensures Doc([], [START, SERVER, FOO], "") == START + "\n" + SERVER + "\n" + FOO + "\n"
  {
    hide START, SERVER, FOO, Feed;
    FeedNext(START, [SERVER, FOO]);
    FeedNext(SERVER, [FOO]);
    FeedOne(FOO);
    assert [START] + [SERVER, FOO] == [START, SERVER, FOO] && [SERVER] + [FOO] == [SERVER, FOO];
    Regroup(START + "\n", SERVER, "\n", FOO + "\n");
    Regroup3(START + "\n" + SERVER + "\n", FOO, "\n");
    assert Doc([], [START, SERVER, FOO], "") == Feed([START, SERVER, FOO]);
  }

  // ---------- Words that are there by chance ----------

  const CHANCE := Part([], "  ", [FOO, SERVER], "", "\n")

  /** The condition on texts with a block that is not found is needed: here the lines of a block left standing
      read as the lines that are lost, so all the words seem to survive. */
  lemma SameWordsByChance()
    ensures AllParts([FIRST, CHANCE]) && Loose([START, FOO], "") && !AllFound([FIRST, CHANCE])
    ensures TextWords(StripConfig(Doc([FIRST, CHANCE], [START, FOO], "")).0)
         == UserWords([FIRST, CHANCE], [START, FOO], "") == [START, FOO]
  {
    hide START, END, SERVER, FOO, Doc, AllParts, Loose, AllFound, UserWords, TextWords, Tidy, RemoveBlocks,
         RemoveServers, PlainFeeds;
    ChanceGood();
    ChanceNotFound();
    OpenFoo();
    ChanceWords();
    var x := Doc([FIRST, CHANCE], [START, FOO], "");
    DocReturns([FIRST, CHANCE], [START, FOO], "");
    PlainFeedsSame(x);
    var plain := RemoveBlocks(x, 0).0;
    ChanceText();
    ChancePlain(x);
    ChanceBare(plain);
    WordsTidy(RemoveServers(plain, 0).0);
    TwoWords();
  }

  lemma ChanceGood()
    ensures AllParts([FIRST, CHANCE])
  {
    hide GoodPart;
    FirstIsGood();
    ChanceIsGood();
    assert [FIRST, CHANCE][1..] == [CHANCE] && [CHANCE][1..] == [];
    assert AllParts([CHANCE]);
  }

  lemma ChanceIsGood()
    ensures GoodPart(CHANCE)
  {
    hide SERVER, FOO, END, BodyLine;
    FirstIsGood();
    OthersAreBody();
    assert [FOO, SERVER][1..] == [SERVER] && [SERVER][1..] == [];
    assert AllBody([SERVER]);
  }

  lemma ChanceNotFound()
    ensures !AllFound([FIRST, CHANCE])
  {
    assert "  "[|"  "| - 1] == ' ';
    assert !EndsLine(CHANCE.before, true) && !EndsLine(CHANCE.before, false);
    assert CHANCE.user == [] && AllBlank([]);
  }

  lemma OpenFoo()
    ensures Loose([START, FOO], "")
  {
    hide START, FOO, BodyLine;
    OthersAreBody();
    assert [START, FOO][1..] == [FOO] && [FOO][1..] == [];
    assert AllBody([FOO]);
  }

  lemma MarkerWords()
    ensures Word(START) == [START] && Word(FOO) == [FOO] && Word("") == []
  {
    hide START, FOO, Trimmed;
    StartLine();
    FooLine();
    StripTrimmed(START);
    StripTrimmed(FOO);
    NothingBlank();
  }

  lemma NotBlankMarkers()
    ensures !Blank(START) && !Blank(FOO) && !Blank(SERVER) && !Blank(END)
  {
    hide START, SERVER, END, FOO, Trimmed, StripRight;
    MarkersFilled();
    FooLine();
    EndIsSolid();
    StripTrimmed(FOO);
    Kept(END, 0);
    assert StripLeft(END) == END;
  }

  lemma ChanceWords()
    ensures UserWords([FIRST, CHANCE], [START, FOO], "") == [START, FOO]
  {
    hide START, FOO, Word, Blank;
    MarkerWords();
    assert [FIRST, CHANCE][1..] == [CHANCE] && [CHANCE][1..] == [] && [START, FOO][1..] == [FOO] && [FOO][1..] == [];
    assert Words([]) == [] && Words([FOO]) == [FOO];
    assert Words([START, FOO]) == [START] + [FOO];
    assert UserWords([], [START, FOO], "") == [START, FOO];
    assert UserWords([CHANCE], [START, FOO], "") == Words([]) + UserWords([], [START, FOO], "");
  }

  lemma TwoWords()
    ensures TextWords(START + ("\n" + (FOO + ("\n" + "")))) == [START, FOO]
  {
    hide START, FOO, Word, TextWords, Blank;
    MarkerWords();
    StartLine();
    FooLine();
    NothingBlank();
    WordsOfLine(START, FOO + ("\n" + ""));
    WordsOfLine(FOO, "");
  }

  /** The lines that are left standing. */
  function Standing(): seq<string> { [FOO, SERVER, END, START, FOO] }

  lemma ChanceText()
    ensures Doc([FIRST, CHANCE], [START, FOO], "") == Managed(FIRST, "  " + (START + ("\n" + Feed(Standing()))))
  {
    hide START, END, SERVER, FOO, Feed, Managed;
    assert [FIRST, CHANCE][1..] == [CHANCE] && [CHANCE][1..] == [];
    var doc := Feed([START, FOO]);
    assert Doc([], [START, FOO], "") == doc + "" == doc;
    FeedOne(FOO);
    assert Doc([CHANCE], [START, FOO], "") == Feed([]) + Managed(CHANCE, doc) == Managed(CHANCE, doc);
    ChanceStands(doc);
    var d := "  " + (START + ("\n" + Feed(Standing())));
    assert Doc([FIRST, CHANCE], [START, FOO], "") == Feed([]) + Managed(FIRST, d) == Managed(FIRST, d);
  }

  lemma ChanceStands(doc: string)
    requires doc == Feed([START, FOO])
    ensures Managed(CHANCE, doc) == "  " + (START + ("\n" + Feed(Standing())))
  {
    hide START, END, SERVER, FOO, Feed;
    FeedNext(FOO, [SERVER, END, START, FOO]);
    FeedNext(SERVER, [END, START, FOO]);
    FeedNext(END, [START, FOO]);
    FeedNext(FOO, [SERVER]);
    FeedOne(SERVER);
    assert [FOO] + [SERVER, END, START, FOO] == Standing() && [SERVER] + [END, START, FOO] == [SERVER, END, START, FOO];
    assert [END] + [START, FOO] == [END, START, FOO] && [FOO] + [SERVER] == [FOO, SERVER];
    Regroup3(FOO + "\n", SERVER + "\n", END + "\n" + doc);
    Regroup3(END, "\n", doc);
    assert "" + (END + ("\n" + doc)) == END + ("\n" + doc);
  }

  lemma StandsIndented(x: string, n: nat, more: string)
    requires n <= |x| && x[n..] == "  " + (START + ("\n" + more))
    ensures var j := n + 2; var q := j + |START| + 1;
      && q <= |x| && Skip(x, n) == j && x[j..q - 1] == START && x[q - 1] == '\n' && x[q..] == more
      && BlockEnd(x, j) == None
  {
    hide START, IsSpace, At, BlockEnd, Skip, LineStart;
    StartLine();
    StartIsSolid();
    TwoSkipped(x, n, START + ("\n" + more));
    TwoIn(x, n, START + ("\n" + more));
    LineAt(x, n + 2, START, more);
    NoLineNoBlock(x, n + 2);
  }

  lemma {:induction false} TwoSkipped(x: string, n: nat, rest: string)
    requires n <= |x| && x[n..] == "  " + rest && rest != "" && !IsSpace(rest[0])
    ensures Skip(x, n) == n + 2
  {
    hide IsSpace;
    BlankIsSpace();
    assert x[n] == x[n..][0] && x[n + 1] == x[n..][1] && x[n + 2] == x[n..][2];
    SkipTo(x, n, n + 2);
  }

  lemma NoLineNoBlock(x: string, i: nat)
    requires i <= |x| && !LineStart(x, i)
    ensures BlockEnd(x, i) == None
  {
  }

  lemma {:induction false} TwoIn(x: string, n: nat, rest: string)
    requires n <= |x| && x[n..] == "  " + rest
    ensures n + 2 <= |x| && x[n + 2..] == rest && !LineStart(x, n + 2)
  {
    assert x[n + 2..] == x[n..][2..];
    assert x[n + 1] == x[n..][1];
  }

  /** Loose lines that are not blank stay as they are. */
  lemma {:induction false} LooseStays(x: string, k: nat, lines: seq<string>, last: string)
    requires k <= |x| && LineStart(x, k) && x[k..] == Feed(lines) + last && Loose(lines, last)
    requires forall i :: 0 <= i < |lines| ==> !Blank(lines[i])
    ensures RemoveBlocks(x, k) == (x[k..], 0)
    decreases lines
  {
    hide RemoveBlocks, UserLine, Loose, KeptAt, Blank, BodyLine, BlockEnd, Skip, StripLeft;
    LooseLine(lines, last);
    if lines == [] {
      assert "" + last == last;
      KeepLast(x, k);
    } else {
      var l, more := lines[0], Feed(lines[1..]) + last;
      Regroup3(l + "\n", Feed(lines[1..]), last);
      CutLine(x, k, l, more);
      if UserLine(l) {
        UserKept(x, k, l);
      } else {
        OpenKept(x, k, l, lines[1..], last);
      }
      LooseStays(x, k + |l| + 1, lines[1..], last);
      FilledLine(x, k, l, false);
      Regroup3(l, "\n", more);
    }
  }

  lemma StandingLoose()
    ensures Loose(Standing(), "") && forall i :: 0 <= i < |Standing()| ==> !Blank(Standing()[i])
  {
    hide START, END, SERVER, FOO, UserLine, Blank, Loose, Standing;
    OpenFoo();
    StandingUser();
    StandingJoined();
    LooseMore(END, [START, FOO], "");
    LooseMore(SERVER, [END] + [START, FOO], "");
    LooseMore(FOO, [SERVER] + ([END] + [START, FOO]), "");
    StandingFilled();
  }

  lemma StandingJoined()
    ensures Standing() == [FOO] + ([SERVER] + ([END] + [START, FOO]))
  {
    hide START, END, SERVER, FOO;
  }

  lemma StandingFilled()
    ensures forall i :: 0 <= i < |Standing()| ==> !Blank(Standing()[i])
  {
    hide START, END, SERVER, FOO, Blank;
    NotBlankMarkers();
    var s := Standing();
    assert s[0] == FOO && s[1] == SERVER && s[2] == END && s[3] == START && s[4] == FOO;
  }

  lemma LooseMore(l: string, lines: seq<string>, last: string)
    requires UserLine(l) && Loose(lines, last)
    ensures Loose([l] + lines, last)
  {
    hide UserLine;
    assert ([l] + lines)[1..] == lines;
  }

  lemma StandingUser()
    ensures UserLine(FOO) && UserLine(SERVER) && UserLine(END)
  {
    hide START, END, SERVER, FOO, Trimmed;
    MoreLines();
    StartLine();
    ServerLine();
    EndLine();
    EndIsSolid();
    StripTrimmed(SERVER);
    assert StripLeft(END) == END;
    assert SERVER[0] != START[0] && END[2] != START[2];
  }

  lemma {:induction false} ChancePlain(x: string)
    requires x == Managed(FIRST, "  " + (START + ("\n" + Feed(Standing()))))
    ensures RemoveBlocks(x, 0).0 == START + ("\n" + Feed(Standing()))
  {
    hide START, END, SERVER, FOO, RemoveBlocks, Managed, Feed, Loose, Standing, Blank, Skip, BlockEnd;
    var more := Feed(Standing());
    var doc := "  " + (START + ("\n" + more));
    FirstGone(x, doc);
    var n := |x| - |doc|;
    StandsIndented(x, n, more);
    StartLine();
    var q := n + 2 + |START| + 1;
    KeepLine(x, n + 2, q);
    StandingLoose();
    assert more + "" == more;
    LooseStays(x, q, Standing(), "");
  }

  /** A line that does not begin a table is kept. */
  lemma {:induction false} TableFreeKept(w: string, k: nat, l: string, more: string)
    requires k <= |w| && w[k..] == l + ("\n" + more) && OneLine(l) && l != "" && l[0] != '['
    ensures k + |l| < |w| && w[k + |l|] == '\n' && w[k + |l| + 1..] == more
    ensures RemoveServers(w, k).0 == l + ("\n" + RemoveServers(w, k + |l| + 1).0)
  {
    hide SERVER, RemoveServers;
    ServerLine();
    LineAt(w, k, l, more);
    var q := k + |l| + 1;
    forall i | k <= i < q
      ensures !ServerAt(w, i)
    {
      assert i < q - 1 ==> w[i] == l[i - k];
      assert i > k ==> w[i - 1] == l[i - 1 - k];
      AtStarts(w, i, SERVER + "\n");
    }
    NoServersBefore(w, k, q);
    assert w[k..q] == l + "\n";
    Regroup3(l, "\n", RemoveServers(w, q).0);
  }

  lemma {:induction false} ChanceBare(plain: string)
    requires plain == START + ("\n" + Feed(Standing()))
    ensures RemoveServers(plain, 0).0 == START + ("\n" + (FOO + ("\n" + "")))
  {
    hide START, END, SERVER, FOO, RemoveServers, Feed;
    StartLine();
    FooLine();
    EndLine();
    assert plain[0..] == plain;
    StandingText();
    var tail := END + "\n" + Feed([START, FOO]);
    TableFreeKept(plain, 0, START, FOO + ("\n" + (SERVER + ("\n" + tail))));
    var q := |START| + 1;
    TableFreeKept(plain, q, FOO, SERVER + ("\n" + tail));
    HeaderTakesAll(plain, q + |FOO| + 1, tail);
  }

  lemma StandingText()
    ensures Feed(Standing()) == FOO + ("\n" + (SERVER + ("\n" + (END + "\n" + Feed([START, FOO])))))
  {
    hide START, END, SERVER, FOO, Feed;
    FeedNext(FOO, [SERVER, END, START, FOO]);
    FeedNext(SERVER, [END, START, FOO]);
    FeedNext(END, [START, FOO]);
    assert [FOO] + [SERVER, END, START, FOO] == Standing() && [SERVER] + [END, START, FOO] == [SERVER, END, START, FOO];
    assert [END] + [START, FOO] == [END, START, FOO];
    Regroup3(SERVER, "\n", END + "\n" + Feed([START, FOO]));
    Regroup3(FOO, "\n", SERVER + "\n" + (END + "\n" + Feed([START, FOO])));
  }
}
