/** Reading a content stream gives back the lines of its page, each at its place. */
module PdfContent {
  import opened Text
  import opened PdfSyntax
  import opened PdfWriter
  import opened PdfReader

  // ---------- Escaping and reading strings ----------

  function EscapeOne(c: char): string {
    if c == '\\' then "\\\\" else if c == '(' then "\\(" else if c == ')' then "\\)" else [c]
  }

  function Escaped(s: string): string {
    if s == "" then "" else EscapeOne(s[0]) + Escaped(s[1..])
  }

  lemma {:induction false} ReplaceCharAppend(s: string, t: string, c: char, sub: string)
    ensures ReplaceChar(s + t, c, sub) == ReplaceChar(s, c, sub) + ReplaceChar(t, c, sub)
  {
    if s == "" {
      assert s + t == t;
    } else {
      assert (s + t)[1..] == s[1..] + t;
      ReplaceCharAppend(s[1..], t, c, sub);
    }
  }

  lemma ReplaceCharOne(d: char, c: char, sub: string)
    ensures ReplaceChar([d], c, sub) == if d == c then sub else [d]
  {
    assert ReplaceChar([d][1..], c, sub) == "";
  }

  lemma ReplaceCharTwo(d: char, e: char, c: char, sub: string)
    requires d != c && e != c
    ensures ReplaceChar([d, e], c, sub) == [d, e]
  {
    ReplaceCharOne(e, c, sub);
    assert [d, e][1..] == [e];
  }

  /** The three replacements in a row escape each character on its own: no replacement touches
      what an earlier one put in. */
  lemma {:induction false} EscapesEach(s: string)
    ensures PdfEscape(s) == Escaped(s)
  {
    if s != "" {
      var c, t := s[0], s[1..];
      var t1 := ReplaceChar(t, '\\', "\\\\");
      var t2 := ReplaceChar(t1, '(', "\\(");
      var c1 := if c == '\\' then "\\\\" else [c];
      EscapesEach(t);
      EscapeOnePasses(c);
      assert ReplaceChar(s, '\\', "\\\\") == c1 + t1;
      ReplaceCharAppend(c1, t1, '(', "\\(");
      ReplaceCharAppend(ReplaceChar(c1, '(', "\\("), t2, ')', "\\)");
    }
  }

  lemma EscapeOnePasses(c: char)
    ensures ReplaceChar(ReplaceChar(if c == '\\' then "\\\\" else [c], '(', "\\("), ')', "\\)") == EscapeOne(c)
  {
    ReplaceCharTwo('\\', '\\', '(', "\\(");
    ReplaceCharTwo('\\', '\\', ')', "\\)");
    ReplaceCharTwo('\\', '(', ')', "\\)");
    ReplaceCharOne(c, '(', "\\(");
    ReplaceCharOne(c, ')', "\\)");
  }

  lemma ReadBackslashed(c: char, later: string)
    requires c == '\\' || c == '(' || c == ')'
    ensures ReadString("\\" + [c] + later, 0) == Prepend(c, ReadString(later, 0))
  {
    assert !IsOctal(c);
    assert ("\\" + [c] + later)[2..] == later;
  }

  lemma ReadOrdinary(c: char, later: string)
    requires c != '\\' && c != '(' && c != ')' && c != '\r'
    ensures ReadString([c] + later, 0) == Prepend(c, ReadString(later, 0))
  {
    assert ([c] + later)[1..] == later;
  }

  lemma ReadEscapedOne(c: char, later: string)
    requires c != '\r'
    ensures ReadString(EscapeOne(c) + later, 0) == Prepend(c, ReadString(later, 0))
  {
    hide ReadString;
    if c == '\\' || c == '(' || c == ')' {
      assert EscapeOne(c) == "\\" + [c];
      ReadBackslashed(c, later);
    } else {
      ReadOrdinary(c, later);
    }
  }

  lemma {:induction false} ReadEscaped(s: string, rest: string)
    requires NoReturns(s)
    ensures ReadString(Escaped(s) + (")" + rest), 0) == Some((s, rest))
  {
    if s == "" {
      assert Escaped(s) + (")" + rest) == ")" + rest;
      assert (")" + rest)[1..] == rest;
    } else {
      hide ReadString, EscapeOne;
      ReadEscaped(s[1..], rest);
      ReadEscapedOne(s[0], Escaped(s[1..]) + (")" + rest));
      Regroup3(EscapeOne(s[0]), Escaped(s[1..]), ")" + rest);
      assert s == [s[0]] + s[1..];
    }
  }

  // ---------- Tokens of a page ----------

  const BT := Key("BT")
  const ET := Key("ET")
  const TF := Key("Tf")
  const TD := Key("Td")
  const TL := Key("TL")
  const TJ := Key("Tj")
  const NEXT_LINE := Key("T*")

  const SETUP := [BT] + ([Name("F1"), Num(10), TF] + ([Num(36), Num(756), TD] + ([Num(12)] + [TL] + [])))

  function LineTokens(page: seq<string>, first: bool): seq<Token> {
    if page == [] then []
    else (if first then [Str(page[0]), TJ] else [NEXT_LINE, Str(page[0]), TJ]) + LineTokens(page[1..], false)
  }

  lemma LexFirst(s: string, token: Token, more: string, stops: set<string>)
    requires Next(s) == Some((token, more)) && !token.Key?
    ensures Lex(s, stops) == ([token] + Lex(more, stops).0, Lex(more, stops).1)
  {
  }

  lemma StringThen(line: string, rest: string, stops: set<string>)
    requires NoReturns(line) && Next(rest).Some? && TJ.word !in stops
    ensures Next(ShowLine(line) + "\n" + rest).Some?
    ensures Lex(ShowLine(line) + "\n" + rest, stops) == ([Str(line), TJ] + Lex(rest, stops).0, Lex(rest, stops).1)
  {
    hide Next, Lex, ShowLine, NoReturns;
    NextString(line, rest);
    LexFirst(ShowLine(line) + "\n" + rest, Str(line), " " + (Show(TJ) + "\n" + rest), stops);
    LexShown(rest, stops);
    assert [Str(line), TJ] + Lex(rest, stops).0 == [Str(line)] + ([TJ] + Lex(rest, stops).0);
  }

  lemma StringLexes(line: string)
    requires NoReturns(line)
    ensures Lexes(ShowLine(line) + "\n", [Str(line), TJ])
  {
    hide Next, Lex, ShowLine, NoReturns;
    forall rest: string, stops: set<string> | Next(rest).Some? && NoStops([Str(line), TJ], stops)
      ensures Next(ShowLine(line) + "\n" + rest).Some?
      ensures Lex(ShowLine(line) + "\n" + rest, stops) == ([Str(line), TJ] + Lex(rest, stops).0, Lex(rest, stops).1)
    {
      assert [Str(line), TJ][1] == TJ;
      StringThen(line, rest, stops);
    }
  }

  lemma NextString(line: string, rest: string)
    requires NoReturns(line)
    ensures Next(ShowLine(line) + "\n" + rest) == Some((Str(line), " " + (Show(TJ) + "\n" + rest)))
  {
    var shown := Show(TJ) + "\n" + rest;
    EscapesEach(line);
    ReadEscaped(line, " " + shown);
    ShownLine(line, rest, shown);
    assert (ShowLine(line) + "\n" + rest)[1..] == Escaped(line) + (")" + (" " + shown));
  }

  lemma LexShown(rest: string, stops: set<string>)
    requires Next(rest).Some? && TJ.word !in stops
    ensures Lex(" " + (Show(TJ) + "\n" + rest), stops) == ([TJ] + Lex(rest, stops).0, Lex(rest, stops).1)
  {
    LexesToken(TJ, "\n");
    assert NoStops([TJ], stops);
    LexSkipsWhite(" ", Show(TJ) + "\n" + rest, stops);
  }

  lemma ShownLine(line: string, rest: string, shown: string)
    requires PdfEscape(line) == Escaped(line) && shown == Show(TJ) + "\n" + rest
    ensures ShowLine(line) + "\n" + rest == "(" + (Escaped(line) + (")" + (" " + shown)))
  {
    assert " " + shown == " Tj" + ("\n" + rest);
    assert ")" + (" Tj" + ("\n" + rest)) == ") Tj" + ("\n" + rest);
  }

  lemma {:induction false} FeedAppend(a: seq<string>, b: seq<string>)
    ensures Feed(a + b) == Feed(a) + Feed(b)
  {
    if a == [] {
      assert a + b == b;
    } else {
      assert (a + b)[1..] == a[1..] + b;
      FeedAppend(a[1..], b);
    }
  }

  predicate AllNoReturns(lines: seq<string>) { forall i :: 0 <= i < |lines| ==> NoReturns(lines[i]) }

  lemma {:induction false} LineOpsLex(page: seq<string>, first: bool)
    requires AllNoReturns(page)
    ensures Lexes(Feed(LineOps(page, first)), LineTokens(page, first))
  {
    hide Lexes, Escaped;
    if page == [] {
      EmptyLexes(Feed(LineOps(page, first)), LineTokens(page, first));
    } else {
      var later, tokens := Feed(LineOps(page[1..], false)), LineTokens(page[1..], false);
      LineOpsLex(page[1..], false);
      StringLexes(page[0]);
      var shown := ShowLine(page[0]) + "\n";
      LexesThen(shown, [Str(page[0]), TJ], later, tokens);
      FeedOne(ShowLine(page[0]), LineOps(page[1..], false));
      if !first {
        NextLineLexes([ShowLine(page[0])] + LineOps(page[1..], false), [Str(page[0]), TJ] + tokens);
        assert ["T*"] + ([ShowLine(page[0])] + LineOps(page[1..], false)) == LineOps(page, first);
        assert [NEXT_LINE] + ([Str(page[0]), TJ] + tokens) == LineTokens(page, first);
      }
    }
  }

  lemma NextLineLexes(lines: seq<string>, tokens: seq<Token>)
    requires Lexes(Feed(lines), tokens)
    ensures Lexes(Feed(["T*"] + lines), [NEXT_LINE] + tokens)
  {
    LexesToken(NEXT_LINE, "\n");
    FeedLexes("T*", [NEXT_LINE], lines, tokens);
  }

  lemma FeedOne(s: string, more: seq<string>)
    ensures Feed([s] + more) == s + "\n" + Feed(more)
  {
    assert ([s] + more)[1..] == more;
  }

  lemma EmptyLexes(text: string, ts: seq<Token>)
    requires text == "" && ts == []
    ensures Lexes(text, ts)
  {
    forall rest: string, stops: set<string> | Next(rest).Some? && NoStops(ts, stops)
      ensures Next(text + rest).Some?
      ensures Lex(text + rest, stops) == (ts + Lex(rest, stops).0, Lex(rest, stops).1)
    {
      assert text + rest == rest;
      assert ts + Lex(rest, stops).0 == Lex(rest, stops).0;
    }
  }

  lemma FeedLexes(line: string, ts: seq<Token>, lines: seq<string>, us: seq<Token>)
    requires Lexes(line + "\n", ts) && Lexes(Feed(lines), us)
    ensures Lexes(Feed([line] + lines), ts + us)
  {
    FeedOne(line, lines);
    LexesThen(line + "\n", ts, Feed(lines), us);
  }

  const HEAD := ["BT"] + (["/F1 10 Tf"] + (["36 756 Td"] + (["12 TL"] + [])))

  lemma SetupLexes()
    ensures Lexes(Feed(HEAD), SETUP)
  {
    EmptyLexes(Feed([]), []);
    LexesToken(Num(12), " ");
    LexesToken(TL, "\n");
    LexesThen(Dec(12) + " ", [Num(12)], "TL" + "\n", [TL]);
    assert Dec(12) + " " + ("TL" + "\n") == "12 TL" + "\n";
    FeedLexes("12 TL", [Num(12)] + [TL], [], []);
    MoveLexes();
    FeedLexes("36 756 Td", [Num(36), Num(756), TD], ["12 TL"] + [], [Num(12)] + [TL] + []);
    FontLineLexes();
    FeedLexes("/F1 10 Tf", [Name("F1"), Num(10), TF], ["36 756 Td"] + (["12 TL"] + []),
              [Num(36), Num(756), TD] + ([Num(12)] + [TL] + []));
    LexesToken(BT, "\n");
    FeedLexes("BT", [BT], ["/F1 10 Tf"] + (["36 756 Td"] + (["12 TL"] + [])),
              [Name("F1"), Num(10), TF] + ([Num(36), Num(756), TD] + ([Num(12)] + [TL] + [])));
  }

  lemma SetupNumbers()
    ensures Dec(36) == "36" && Dec(756) == "756" && Dec(10) == "10"
  {
    assert Dec(75) == "75";
  }

  lemma ThreeLex(a: string, ta: Token, b: string, tb: Token, c: string, tc: Token)
    requires Lexes(a, [ta]) && Lexes(b, [tb]) && Lexes(c, [tc])
    ensures Lexes(a + (b + c), [ta, tb, tc])
  {
    hide Lexes;
    LexesThen(b, [tb], c, [tc]);
    LexesThen(a, [ta], b + c, [tb] + [tc]);
    assert [ta] + ([tb] + [tc]) == [ta, tb, tc];
  }

  lemma MoveLexes()
    ensures Lexes("36 756 Td" + "\n", [Num(36), Num(756), TD])
  {
    hide Lexes, Dec;
    SetupNumbers();
    LexesToken(Num(36), " ");
    LexesToken(Num(756), " ");
    LexesToken(TD, "\n");
    ThreeLex(Dec(36) + " ", Num(36), Dec(756) + " ", Num(756), "Td" + "\n", TD);
    assert Dec(36) + " " + (Dec(756) + " " + ("Td" + "\n")) == "36 756 Td" + "\n";
  }

  lemma FontLineLexes()
    ensures Lexes("/F1 10 Tf" + "\n", [Name("F1"), Num(10), TF])
  {
    hide Lexes, Dec;
    SetupNumbers();
    LexesToken(Name("F1"), " ");
    LexesToken(Num(10), " ");
    LexesToken(TF, "\n");
    ThreeLex("/" + "F1" + " ", Name("F1"), Dec(10) + " ", Num(10), "Tf" + "\n", TF);
    assert "/" + "F1" + " " + (Dec(10) + " " + ("Tf" + "\n")) == "/F1 10 Tf" + "\n";
  }

  function PageTokens(page: seq<string>): seq<Token> { SETUP + LineTokens(page, true) + [ET] }

  lemma StreamLexes(page: seq<string>)
    requires AllNoReturns(page)
    ensures Lex(StreamText(page), {}) == (PageTokens(page), "")
  {
    SetupLexes();
    LineOpsLex(page, true);
    LexesThen(Feed(HEAD), SETUP, Feed(LineOps(page, true)), LineTokens(page, true));
    StreamPrinted(page);
    EndLexes(Feed(HEAD) + Feed(LineOps(page, true)), SETUP + LineTokens(page, true));
  }

  lemma StreamPrinted(page: seq<string>)
    ensures StreamText(page) == Feed(HEAD) + Feed(LineOps(page, true)) + "ET"
  {
    assert HEAD == ["BT", "/F1 10 Tf", "36 756 Td", "12 TL"];
    JoinIsFeed(HEAD + LineOps(page, true), "ET");
    FeedAppend(HEAD, LineOps(page, true));
  }

  lemma EndLexes(text: string, ts: seq<Token>)
    requires Lexes(text, ts)
    ensures Lex(text + "ET", {}) == (ts + [ET], "")
  {
    NextShow(ET, "");
    assert Show(ET) + "" == "ET";
    assert Lex("", {}) == ([], "");
    assert [ET] + [] == [ET];
    assert NoStops(ts, {});
    assert Lex(text + "ET", {}) == (ts + Lex("ET", {}).0, Lex("ET", {}).1);
  }

  // ---------- Running the tokens ----------

  /** The lines of a page from `y` down, twelve units apart. */
  function Placed(page: seq<string>, y: int): (shown: seq<Shown>)
    ensures |shown| == |page|
    ensures forall i :: 0 <= i < |page| ==> shown[i] == Shown(36, y - 12 * i, page[i])
  {
    if page == [] then [] else [Shown(36, y, page[0])] + Placed(page[1..], y - 12)
  }

  function LineState(y: int): TextState { TextState(true, Some("F1"), 12, 36, y) }

  lemma ExecuteEnd(y: int)
    ensures Execute(LineTokens([], true) + [ET], [], LineState(y)) == Some([])
    ensures Execute(LineTokens([], false) + [ET], [], LineState(y)) == Some([])
  {
    var done, nothing: seq<Shown> := LineState(y).(inText := false), [];
    assert [] + [ET] == [ET] && [ET][1..] == [];
    assert Operate("ET", [], LineState(y)) == Some((done, nothing));
    assert nothing + nothing == nothing;
  }

  lemma ExecuteNextLine(later: seq<Token>, y: int)
    ensures Execute([NEXT_LINE] + later, [], LineState(y)) == Execute(later, [], LineState(y - 12))
  {
    assert ([NEXT_LINE] + later)[1..] == later;
    assert Operate("T*", [], LineState(y)) == Some((LineState(y - 12), []));
    var shown := Execute(later, [], LineState(y - 12));
    assert shown.Some? ==> [] + shown.value == shown.value;
  }

  /** Running the tokens of the lines shows them one below the other. `y` is the place of the
      current line: that of the first line, or of the line before. */
  lemma {:induction false} ExecuteLines(page: seq<string>, first: bool, y: int)
    ensures Execute(LineTokens(page, first) + [ET], [], LineState(y)) == Some(Placed(page, if first then y else y - 12))
  {
    hide Operate;
    if page == [] {
      ExecuteEnd(y);
    } else {
      hide Execute;
      var at := if first then y else y - 12;
      var later := LineTokens(page[1..], false) + [ET];
      ExecuteLines(page[1..], false, at);
      ExecuteShow(page[0], later, at);
      if first {
        assert LineTokens(page, first) + [ET] == [Str(page[0]), TJ] + later;
      } else {
        assert LineTokens(page, first) + [ET] == [NEXT_LINE] + ([Str(page[0]), TJ] + later);
        ExecuteNextLine([Str(page[0]), TJ] + later, y);
      }
    }
  }

  lemma ExecuteShow(line: string, after: seq<Token>, y: int)
    requires Execute(after, [], LineState(y)).Some?
    ensures Execute([Str(line), TJ] + after, [], LineState(y))
         == Some([Shown(36, y, line)] + Execute(after, [], LineState(y)).value)
  {
    var ts := [Str(line), TJ] + after;
    assert ts[1..] == [TJ] + after;
    assert ts[1..][1..] == after;
    assert [] + [Str(line)] == [Str(line)];
    assert Operate("Tj", [Str(line)], LineState(y)) == Some((LineState(y), [Shown(36, y, line)]));
  }
}
