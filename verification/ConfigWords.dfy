/**
 What becomes of a configuration text that is made of the user's lines and of managed blocks: which of
 the lines that are not blank are still there after stripping.
 */
module ConfigWords {
  import opened Text
  import opened TextLines
  import opened ConfigEditor
  import opened ConfigMatching
  import opened ConfigRoundTrip
  import opened ConfigLines

  // ---------- A text made of user lines and managed blocks ----------

  /** Any line but a start marker. */
  predicate UserLine(l: string) { OneLine(l) && NoReturns(l) && StripLeft(l) != START }

  /** The user's lines in front of a managed block, the white space before the start marker, the lines
      between the markers, and the white space before and behind the end marker. */
  datatype Part = Part(user: seq<string>, before: string, body: seq<string>, within: string, behind: string)

  predicate AllUser(lines: seq<string>) { lines == [] || (UserLine(lines[0]) && AllUser(lines[1..])) }

  /** The lines behind the last block, the last one unfinished: none of them begins a block, as it is no start
      marker, or no end marker follows it. */
  predicate Loose(lines: seq<string>, last: string) {
    if lines == [] then OneLine(last) && NoReturns(last)
    else (UserLine(lines[0]) && Loose(lines[1..], last)) || (AllBody(lines) && BodyLine(last))
  }

  predicate White(s: string) { AllSpace(s) && NoReturns(s) }

  predicate GoodPart(p: Part) {
    AllUser(p.user) && White(p.before) && AllBody(p.body) && White(p.within) && White(p.behind)
  }

  predicate AllParts(parts: seq<Part>) { parts == [] || (GoodPart(parts[0]) && AllParts(parts[1..])) }

  /** A managed block and the text behind it. */
  function Managed(p: Part, rest: string): string {
    p.before + (START + ("\n" + (Feed(p.body) + (p.within + (END + (p.behind + rest))))))
  }

  /** The text: each part's lines and block, then the remaining lines, the last one unfinished. */
  function Doc(parts: seq<Part>, tail: seq<string>, last: string): string {
    if parts == [] then Feed(tail) + last else Feed(parts[0].user) + Managed(parts[0], Doc(parts[1..], tail, last))
  }

  /** The words of the user's lines. */
  function UserWords(parts: seq<Part>, tail: seq<string>, last: string): seq<string> {
    if parts == [] then Words(tail) + Word(last)
    else Words(parts[0].user) + UserWords(parts[1..], tail, last)
  }

  // ---------- What is left when the blocks are gone ----------

  predicate AllBlank(lines: seq<string>) { lines == [] || (Blank(lines[0]) && AllBlank(lines[1..])) }

  function Unindented(line: string, behind: bool): string { if behind then StripLeft(line) else line }

  /** The lines that are not blank; right behind a block the first of them has lost its indentation, as
      the white space behind the end marker goes with the block. */
  function Shown(lines: seq<string>, behind: bool): seq<string> {
    if lines == [] then []
    else Own(Unindented(lines[0], behind)) + Shown(lines[1..], behind && Blank(lines[0]))
  }

  /** The ended lines that removing blocks leaves. */
  function Left(parts: seq<Part>, tail: seq<string>, behind: bool): seq<string> {
    if parts == [] then Shown(tail, behind) else Shown(parts[0].user, behind) + Left(parts[1..], tail, true)
  }

  /** The unfinished line that it leaves. */
  function LeftLast(parts: seq<Part>, tail: seq<string>, last: string, behind: bool): seq<string> {
    if parts == [] then Own(Unindented(last, behind && AllBlank(tail)))
    else LeftLast(parts[1..], tail, last, true)
  }

  /** The white space ends with a line feed; `otherwise` says so for what stands before it. */
  predicate EndsLine(white: string, otherwise: bool) {
    if white != "" then white[|white| - 1] == '\n' else otherwise
  }

  /** The block's start marker is still found right behind another block, which takes the white space
      before the marker with it: there is a line of the user's between them, or the marker is flush
      left. `ended` says whether the other block ends with a line feed. */
  predicate Found(p: Part, ended: bool) { !AllBlank(p.user) || EndsLine(p.before, p.user != [] || ended) }

  /** Every block behind another one is found. */
  predicate AllFound(parts: seq<Part>) {
    |parts| < 2 || (Found(parts[1], EndsLine(parts[0].behind, false)) && AllFound(parts[1..]))
  }

  /** What removing the blocks comes to: these lines are left, and this many blocks are gone; or a start
      marker is left standing. */
  ghost predicate Outcome(r: (string, nat), found: bool, fed: seq<string>, last: seq<string>, words: seq<string>,
                          blocks: nat) {
    && (found ==> Fed(r.0) == fed && Unfed(r.0) == last && r.1 == blocks)
    && (!found ==> Spoilt(r.0, words))
  }

  /** Where the scan goes on: right behind a block it has passed the white space. */
  function From(x: string, k: nat, behind: bool): (j: nat)
    requires k <= |x|
    ensures k <= j <= |x|
  {
    if behind then Skip(x, k) else k
  }

  // ---------- The user's lines ----------

  lemma UserIsLine(l: string)
    requires UserLine(l)
    ensures OneLine(l) && NoReturns(l)
  {
  }

  /** The line stands at `k`, and if it is not blank no block begins there, nor behind its indentation. */
  predicate KeptAt(x: string, k: nat, l: string) {
    && k + |l| < |x| && x[k..k + |l|] == l && x[k + |l|] == '\n' && OneLine(l)
    && (!Blank(l) ==> BlockEnd(x, k).None? && BlockEnd(x, Skip(x, k)).None?)
  }

  lemma NoHeadNoBlock(x: string, i: nat)
    requires i <= |x| && !HeadAt(x, i)
    ensures BlockEnd(x, i) == None
  {
  }

  /** A user's line begins no block, with or without its indentation. */
  lemma UserKept(x: string, k: nat, l: string)
    requires k + |l| < |x| && x[k..k + |l|] == l && x[k + |l|] == '\n' && UserLine(l)
    ensures KeptAt(x, k, l)
  {
    hide START, StripLeft, StripRight, Skip, BlockEnd;
    if !Blank(l) {
      StartLine();
      SpaceMakesBlank(l);
      SkipTwice(x, k);
      if At(x, Skip(x, k), START + "\n") { MarkerOnLine(x, k, l, START); }
      NoHeadNoBlock(x, k);
      NoHeadNoBlock(x, Skip(x, k));
    }
  }

  lemma NoFootNoBlock(x: string, i: nat)
    requires i <= |x| && (HeadAt(x, i) ==> FootEnd(x, Skip(x, i) + |START| + 1).None?)
    ensures BlockEnd(x, i) == None
  {
  }

  /** Nor does a start marker that no end marker follows. */
  lemma OpenKept(x: string, k: nat, l: string, lines: seq<string>, last: string)
    requires k + |l| < |x| && x[k..k + |l|] == l && x[k + |l|] == '\n' && x[k + |l| + 1..] == Feed(lines) + last
    requires OneLine(l) && StripLeft(l) == START && AllBody(lines) && BodyLine(last)
    ensures KeptAt(x, k, l)
  {
    hide START, StripLeft, StripRight, Skip, FootEnd, BodyLine, Blank, BlockEnd;
    var q := k + |l| + 1;
    StartLine();
    SkipLine(x, k, l);
    SkipTwice(x, k);
    assert LineStart(x, q);
    NoFootAhead(x, q, lines, last);
    assert Skip(x, k) + |START| + 1 == q;
    NoFootNoBlock(x, k);
    NoFootNoBlock(x, Skip(x, k));
  }

  lemma NoBlockInside(x: string, i: nat, j: nat)
    requires j <= i <= |x| && BlockEnd(x, j).None? && (i > j ==> x[i - 1] != '\n')
    ensures BlockEnd(x, i) == None
  {
  }

  /** The rest of a line is kept when no block begins on it. */
  lemma KeepLine(x: string, j: nat, q: nat)
    requires j < q <= |x| && x[q - 1] == '\n' && OneLine(x[j..q - 1])
    requires BlockEnd(x, j).None?
    ensures RemoveBlocks(x, j) == (x[j..q - 1] + ("\n" + RemoveBlocks(x, q).0), RemoveBlocks(x, q).1)
  {
    hide RemoveBlocks, BlockEnd;
    forall i | j <= i < q
      ensures BlockEnd(x, i) == None
    {
      assert i > j ==> x[i - 1] == x[j..q - 1][i - 1 - j];
      NoBlockInside(x, i, j);
    }
    NoBlocksBefore(x, j, q);
    assert x[j..q] == x[j..q - 1] + "\n";
    Regroup3(x[j..q - 1], "\n", RemoveBlocks(x, q).0);
  }

  /** One more line in front of what is left. */
  lemma {:induction false} OutcomeMore(l: string, r: (string, nat), found: bool, fed: seq<string>,
                                       last: seq<string>, words: seq<string>,
                    blocks: nat)
    requires OneLine(l) && Outcome(r, found, fed, last, words, blocks)
    ensures Outcome((l + ("\n" + r.0), r.1), found, Own(l) + fed, last, Word(l) + words, blocks)
  {
    hide Fed, Unfed, TextFilled, Own, Word, Spoilt;
    FilledMore(l, r.0);
    if !found { SpoiltMore(l, r.0, words); }
  }

  /** The head of a block moves over a blank line; otherwise the blank line is kept. */
  lemma BlankLine(x: string, k: nat, l: string)
    requires k + |l| < |x| && x[k..k + |l|] == l && x[k + |l|] == '\n' && OneLine(l) && Blank(l) && LineStart(x, k)
    ensures var q := k + |l| + 1;
      || RemoveBlocks(x, k) == RemoveBlocks(x, q)
      || RemoveBlocks(x, k) == (l + ("\n" + RemoveBlocks(x, q).0), RemoveBlocks(x, q).1)
  {
    hide BlockEnd, RemoveBlocks, Strip, Skip;
    var q := k + |l| + 1;
    SpaceMakesBlank(l);
    BlankSkips(x, k, l);
    if BlockEnd(x, k).Some? {
      HeadMoves(x, k, q);
    } else {
      LineEnd(x, k, k, l);
      KeepLine(x, k, q);
    }
  }

  lemma HeadMoves(x: string, k: nat, q: nat)
    requires k <= |x| && q <= |x| && LineStart(x, q) && Skip(x, k) == Skip(x, q) && BlockEnd(x, k).Some?
    ensures RemoveBlocks(x, k) == RemoveBlocks(x, q)
  {
    hide START, Skip, FootEnd, RemoveBlocks;
    assert BlockEnd(x, k) == BlockEnd(x, q);
    TakeBlock(x, k, BlockEnd(x, k).value);
    TakeBlock(x, q, BlockEnd(x, k).value);
  }

  /** One line of the user's. */
  lemma {:induction false} OutcomeLine(x: string, k: nat, l: string, behind: bool, found: bool,
                                       fed: seq<string>, last: seq<string>, words: seq<string>, blocks: nat)
    requires KeptAt(x, k, l) && (!behind ==> LineStart(x, k))
    requires Outcome(RemoveBlocks(x, From(x, k + |l| + 1, behind && Blank(l))), found, fed, last, words, blocks)
    ensures Outcome(RemoveBlocks(x, From(x, k, behind)), found, Own(Unindented(l, behind)) + fed, last,
                    Word(l) + words, blocks)
  {
    hide RemoveBlocks, Outcome, BlockEnd, LineStart, Strip, StripLeft, Skip, Unindented, Own, Word, Blank;
    var q := k + |l| + 1;
    if Blank(l) {
      OutcomeBlank(x, k, l, behind, found, fed, last, words, blocks);
    } else {
      FilledLine(x, k, l, behind);
      OutcomeMore(Unindented(l, behind), RemoveBlocks(x, q), found, fed, last, words, blocks);
      UnindentedWord(l, behind);
    }
  }

  lemma UnindentedWord(l: string, behind: bool)
    ensures Word(Unindented(l, behind)) == Word(l) && Blank(Unindented(l, behind)) == Blank(l)
  {
    hide Strip, StripLeft;
    StripTwice(l);
  }

  lemma {:induction false} OutcomeBlank(x: string, k: nat, l: string, behind: bool, found: bool,
                                        fed: seq<string>, last: seq<string>, words: seq<string>, blocks: nat)
    requires KeptAt(x, k, l) && Blank(l) && (!behind ==> LineStart(x, k))
    requires Outcome(RemoveBlocks(x, From(x, k + |l| + 1, behind)), found, fed, last, words, blocks)
    ensures Outcome(RemoveBlocks(x, From(x, k, behind)), found, Own(Unindented(l, behind)) + fed, last,
                    Word(l) + words, blocks)
  {
    hide RemoveBlocks, Outcome, BlockEnd, LineStart, Strip, StripLeft, Skip, Unindented;
    var q := k + |l| + 1;
    UnindentedWord(l, behind);
    assert [] + fed == fed && [] + words == words;
    if behind {
      SpaceMakesBlank(l);
      BlankSkips(x, k, l);
    } else {
      BlankLine(x, k, l);
      OutcomeMore(l, RemoveBlocks(x, q), found, fed, last, words, blocks);
    }
  }

  /** What the scan sees of a line. */
  lemma {:induction false} LineFrom(x: string, k: nat, l: string, behind: bool)
    requires k + |l| < |x| && x[k..k + |l|] == l && x[k + |l|] == '\n'
    requires OneLine(l) && !Blank(l)
    ensures From(x, k, behind) <= k + |l| && x[From(x, k, behind)..k + |l|] == Unindented(l, behind)
    ensures OneLine(Unindented(l, behind))
  {
    hide Strip, Skip, IsSpace;
    SpaceMakesBlank(l);
    SkipLine(x, k, l);
    LineEnd(x, k, From(x, k, behind), l);
    assert l[0..] == l;
  }

  lemma {:induction false} FilledLine(x: string, k: nat, l: string, behind: bool)
    requires KeptAt(x, k, l) && !Blank(l)
    ensures OneLine(Unindented(l, behind))
    ensures RemoveBlocks(x, From(x, k, behind))
      == (Unindented(l, behind) + ("\n" + RemoveBlocks(x, k + |l| + 1).0), RemoveBlocks(x, k + |l| + 1).1)
  {
    hide RemoveBlocks, LineStart, Strip, Skip, BlockEnd;
    var j, q := From(x, k, behind), k + |l| + 1;
    LineFrom(x, k, l, behind);
    KeepLine(x, j, q);
  }

  lemma {:induction false} OutcomeLines(x: string, k: nat, lines: seq<string>, rest: string, behind: bool, found: bool,
                                        fed: seq<string>, last: seq<string>, words: seq<string>, blocks: nat)
    requires k <= |x| && x[k..] == Feed(lines) + rest && AllUser(lines) && (!behind ==> LineStart(x, k))
    requires Outcome(RemoveBlocks(x, From(x, |x| - |rest|, behind && AllBlank(lines))), found, fed, last, words, blocks)
    ensures Outcome(RemoveBlocks(x, From(x, k, behind)), found, Shown(lines, behind) + fed, last, Words(lines) + words,
                    blocks)
    decreases lines
  {
    hide Outcome, RemoveBlocks, UserLine, From, Own, Word, Unindented, Blank, KeptAt;
    if lines == [] {
      assert k == |x| - |rest|;
      assert Shown(lines, behind) + fed == fed && Words(lines) + words == words;
    } else {
      var l, more, next := lines[0], Feed(lines[1..]) + rest, behind && Blank(lines[0]);
      Regroup3(l + "\n", Feed(lines[1..]), rest);
      CutLine(x, k, l, more);
      UserKept(x, k, l);
      OutcomeLines(x, k + |l| + 1, lines[1..], rest, next, found, fed, last, words, blocks);
      OutcomeLine(x, k, l, behind, found, Shown(lines[1..], next) + fed, last, Words(lines[1..]) + words, blocks);
      Regroup3(Own(Unindented(l, behind)), Shown(lines[1..], next), fed);
      Regroup3(Word(l), Words(lines[1..]), words);
    }
  }

  lemma KeepLast(x: string, k: nat)
    requires k <= |x| && OneLine(x[k..])
    ensures RemoveBlocks(x, k) == (x[k..], 0)
  {
    hide START, RemoveBlocks, Skip, FootEnd;
    forall i | k <= i < |x|
      ensures BlockEnd(x, i) == None
    {
      NoMarkerAhead(x, k, Skip(x, i), START);
    }
    NoBlocksBefore(x, k, |x|);
    RemoveAtEnd(x);
    assert x[k..|x|] == x[k..] && x[k..] + "" == x[k..];
  }

  /** The last, unfinished line. */
  lemma {:induction false} OutcomeLast(x: string, k: nat, last: string, behind: bool, words: seq<string>)
    requires k <= |x| && x[k..] == last && OneLine(last)
    ensures Outcome(RemoveBlocks(x, From(x, k, behind)), true, [], Own(Unindented(last, behind)), words, 0)
  {
    hide RemoveBlocks, StripLeft, Own, Fed, Unfed, TextFilled, Skip;
    RestOfLast(x, k, last);
    KeepLast(x, From(x, k, behind));
    FilledAlone(Unindented(last, behind));
  }

  lemma RestOfLast(x: string, k: nat, last: string)
    requires k <= |x| && x[k..] == last && OneLine(last)
    ensures x[Skip(x, k)..] == StripLeft(last) && OneLine(StripLeft(last))
  {
    assert x[k..k + |last|] == last;
    SkipLine(x, k, last);
    assert Skip(x, |x|) == |x|;
    assert x[Skip(x, k)..] == x[k..][Skip(x, k) - k..];
  }

  lemma LooseLine(lines: seq<string>, last: string)
    requires Loose(lines, last)
    ensures lines == [] ==> OneLine(last)
    ensures lines != [] ==> OneLine(lines[0]) && Loose(lines[1..], last)
    ensures lines != [] && !UserLine(lines[0]) ==>
              AllBody(lines[1..]) && BodyLine(last) && StripLeft(lines[0]) == START
  {
    hide START, StripLeft, END;
  }

  /** The lines behind the last block. */
  lemma {:induction false} OutcomeTail(x: string, k: nat, lines: seq<string>, last: string, behind: bool)
    requires k <= |x| && x[k..] == Feed(lines) + last && Loose(lines, last) && (!behind ==> LineStart(x, k))
    ensures Outcome(RemoveBlocks(x, From(x, k, behind)), true, Shown(lines, behind),
                    Own(Unindented(last, behind && AllBlank(lines))), Words(lines) + Word(last), 0)
    decreases lines
  {
    hide Outcome, RemoveBlocks, UserLine, From, Own, Word, Unindented, Blank, KeptAt, Loose, AllBody, BodyLine, START;
    LooseLine(lines, last);
    if lines == [] {
      assert "" + last == last && [] + Word(last) == Word(last);
      OutcomeLast(x, k, last, behind, Word(last));
    } else {
      var l, more, next := lines[0], Feed(lines[1..]) + last, behind && Blank(lines[0]);
      Regroup3(l + "\n", Feed(lines[1..]), last);
      CutLine(x, k, l, more);
      if UserLine(l) {
        UserKept(x, k, l);
      } else {
        OpenKept(x, k, l, lines[1..], last);
      }
      OutcomeTail(x, k + |l| + 1, lines[1..], last, next);
      OutcomeLine(x, k, l, behind, true, Shown(lines[1..], next), Own(Unindented(last, next && AllBlank(lines[1..]))),
                  Words(lines[1..]) + Word(last), 0);
      Regroup3(Word(l), Words(lines[1..]), Word(last));
    }
  }

  // ---------- Managed blocks ----------

  lemma LineStartBehind(x: string, k: nat, w: string, more: string)
    requires k <= |x| && x[k..] == w + more
    ensures |more| <= |x| && LineStart(x, k + |w|) == EndsLine(w, LineStart(x, k))
  {
    if w != "" { assert x[k + |w| - 1] == x[k..][|w| - 1]; }
  }

  /** A line that begins with white space and is a marker otherwise. */
  lemma MarkFound(x: string, k: nat, before: string, mark: string, more: string)
    requires k <= |x| && x[k..] == before + (mark + ("\n" + more)) && White(before)
    requires mark != "" && !IsSpace(mark[0])
    ensures var j := k + |before|; j + |mark| < |x| && At(x, j, mark + "\n") && Skip(x, k) == j == Skip(x, j)
  {
    hide IsSpace;
    var j := k + |before|;
    Regroup3(mark, "\n", more);
    SpaceThenEnd(x, k, before, mark + "\n", more);
    SkipTo(x, k, j);
    SkipTo(x, j, j);
  }

  lemma BehindMark(x: string, k: nat, before: string, mark: string, more: string)
    requires k <= |x| && x[k..] == before + (mark + ("\n" + more))
    ensures var m := k + |before| + |mark| + 1; m <= |x| && LineStart(x, m) && x[m..] == more
    ensures LineStart(x, k + |before|) == EndsLine(before, LineStart(x, k))
  {
    var j := k + |before|;
    var m := j + |mark| + 1;
    Regroup3(mark, "\n", more);
    assert x[j..] == x[k..][|before|..] == (mark + "\n") + more;
    assert x[m..] == x[j..][|mark| + 1..];
    assert x[m - 1] == x[j..][|mark|];
    LineStartBehind(x, k, before, mark + ("\n" + more));
  }

  /** Where the pieces of a managed block stand. */
  lemma {:induction false} BlockPieces(x: string, k: nat, p: Part, rest: string)
    requires k <= |x| && x[k..] == Managed(p, rest) && White(p.before)
    ensures var j := k + |p.before|; j + |START| < |x| && At(x, j, START + "\n") && Skip(x, k) == j == Skip(x, j)
    ensures var m := k + |p.before| + |START| + 1;
      LineStart(x, m) && x[m..] == Feed(p.body) + (p.within + (END + (p.behind + rest)))
    ensures LineStart(x, k + |p.before|) == EndsLine(p.before, LineStart(x, k))
  {
    hide START, END, Feed, IsSpace, LineStart, Skip;
    var more := Feed(p.body) + (p.within + (END + (p.behind + rest)));
    StartLine();
    StartIsSolid();
    MarkFound(x, k, p.before, START, more);
    BehindMark(x, k, p.before, START, more);
  }

  lemma StartIsSolid()
    ensures !IsSpace(START[0])
  {
  }

  lemma {:induction false} BlockEndHere(x: string, m: nat, p: Part, rest: string)
    requires m <= |x| && LineStart(x, m) && AllBody(p.body) && White(p.within) && White(p.behind)
    requires x[m..] == Feed(p.body) + (p.within + (END + (p.behind + rest)))
    ensures |rest| <= |x| && FootEnd(x, m) == Some(Skip(x, |x| - |rest|))
  {
    hide END, Feed, IsSpace, FootEnd, AllBody, Skip, LineStart;
    FootOfLines(x, m, p.body, p.within, p.behind + rest);
    EndOf(x, m, Feed(p.body), p.within, END, p.behind + rest);
    SkipWhite(x, |x| - |p.behind + rest|, p.behind, rest);
  }

  lemma EndOf(x: string, m: nat, a: string, b: string, c: string, d: string)
    requires m <= |x| && x[m..] == a + (b + (c + d))
    ensures |d| <= |x| && x[|x| - |d|..] == d
  {
    assert x[|x| - |d|..] == x[m..][|a + b + c|..];
    Regroup3(a, b, c + d);
    Regroup3(a + b, c, d);
  }

  lemma {:induction false} SkipWhite(x: string, n: nat, w: string, rest: string)
    requires n <= |x| && x[n..] == w + rest && AllSpace(w)
    ensures |rest| <= |x| && Skip(x, n) == Skip(x, |x| - |rest|)
    decreases |w|
  {
    hide IsSpace;
    if w == "" {
      assert n == |x| - |rest|;
    } else {
      assert x[n] == x[n..][0] == w[0];
      assert x[n + 1..] == x[n..][1..] == w[1..] + rest;
      SkipWhite(x, n + 1, w[1..], rest);
    }
  }

  /** A managed block leaves nothing, if its start marker is found; otherwise the marker stays. */
  lemma {:induction false} OutcomeBlock(x: string, k: nat, p: Part, rest: string, behind: bool, ended: bool,
                                        found: bool,
                     fed: seq<string>, last: seq<string>, words: seq<string>, blocks: nat)
    requires k <= |x| && x[k..] == Managed(p, rest) && GoodPart(p)
    requires |rest| <= |x| && ended == LineStart(x, k) && (!behind ==> ended)
    requires Outcome(RemoveBlocks(x, Skip(x, |x| - |rest|)), found, fed, last, words, blocks)
    ensures Outcome(RemoveBlocks(x, From(x, k, behind)), found && (behind ==> EndsLine(p.before, ended)), fed,
                    last, words, blocks + 1)
  {
    hide Outcome, RemoveBlocks, START, END, Feed, FootEnd, Skip, At, LineStart, EndsLine, GoodPart, Managed, BlockEnd;
    BlockFacts(x, k, p, rest, ended);
    var j := k + |p.before|;
    if behind && !LineStart(x, j) {
      MarkerStays(x, j, fed, last, words, blocks + 1);
    } else {
      OutcomeFound(x, if behind then j else k, j, |x| - |rest|, found, fed, last, words, blocks);
    }
  }

  lemma {:induction false} BlockFacts(x: string, k: nat, p: Part, rest: string, ended: bool)
    requires k <= |x| && ended == LineStart(x, k) && x[k..] == Managed(p, rest) && GoodPart(p)
    ensures var j := k + |p.before|;
      && j + |START| < |x| && |rest| <= |x| && At(x, j, START + "\n") && Skip(x, k) == j == Skip(x, j)
      && FootEnd(x, j + |START| + 1) == Some(Skip(x, |x| - |rest|))
      && LineStart(x, j) == EndsLine(p.before, ended)
  {
    hide START, END, Feed, FootEnd, Skip, At, LineStart, EndsLine, Managed, White, AllBody, AllUser;
    BlockPieces(x, k, p, rest);
    BlockEndHere(x, k + |p.before| + |START| + 1, p, rest);
  }

  lemma BlockFound(x: string, i: nat, j: nat, e: nat)
    requires i <= |x| && LineStart(x, i) && Skip(x, i) == j && At(x, j, START + "\n")
    requires FootEnd(x, j + |START| + 1) == Some(e)
    ensures BlockEnd(x, i) == Some(e)
  {
    hide START, FootEnd, Skip;
  }

  lemma {:induction false} OutcomeFound(x: string, i: nat, j: nat, n: nat, found: bool, fed: seq<string>,
                                        last: seq<string>,
                     words: seq<string>, blocks: nat)
    requires i <= |x| && n <= |x| && LineStart(x, i) && Skip(x, i) == j && At(x, j, START + "\n") && j + |START| < |x|
    requires FootEnd(x, j + |START| + 1) == Some(Skip(x, n))
    requires Outcome(RemoveBlocks(x, Skip(x, n)), found, fed, last, words, blocks)
    ensures Outcome(RemoveBlocks(x, i), found, fed, last, words, blocks + 1)
  {
    hide Outcome, RemoveBlocks, START, FootEnd, Skip, At, LineStart, BlockEnd;
    BlockFound(x, i, j, Skip(x, n));
    TakeBlock(x, i, Skip(x, n));
    OutcomeTaken(RemoveBlocks(x, i), RemoveBlocks(x, Skip(x, n)), found, fed, last, words, blocks);
  }

  lemma OutcomeTaken(r: (string, nat), s: (string, nat), found: bool, fed: seq<string>, last: seq<string>,
                     words: seq<string>, blocks: nat)
    requires Outcome(s, found, fed, last, words, blocks) && r == (s.0, s.1 + 1)
    ensures Outcome(r, found, fed, last, words, blocks + 1)
  {
  }

  /** A start marker that does not begin a line is kept. */
  lemma MarkerStays(x: string, j: nat, fed: seq<string>, last: seq<string>, words: seq<string>, blocks: nat)
    requires j <= |x| && At(x, j, START + "\n") && !LineStart(x, j)
    ensures Outcome(RemoveBlocks(x, j), false, fed, last, words, blocks)
  {
    hide START, RemoveBlocks, FootEnd, Skip, TextWords;
    StartLine();
    AtLine(x, j, START);
    var q := j + |START| + 1;
    assert x[j..q - 1] == START;
    KeepLine(x, j, q);
    var w := RemoveBlocks(x, j).0;
    Regroup3(START, "\n", RemoveBlocks(x, q).0);
    assert w[0..0 + |START + "\n"|] == START + "\n";
    assert w[..0] == "";
    NothingBlank();
    assert SpoiltAt(w, words, 0);
  }

  // ---------- The whole text ----------

  /** Where the block and the rest behind it begin. */
  lemma {:induction false} Cuts(x: string, k: nat, lines: seq<string>, p: Part, doc: string)
    requires k <= |x| && x[k..] == Feed(lines) + Managed(p, doc)
    ensures var m := |x| - |Managed(p, doc)|;
      k <= m && x[m..] == Managed(p, doc) && LineStart(x, m) == (lines != [] || LineStart(x, k))
    ensures var n := |x| - |doc|;
      k <= n && x[n..] == doc && LineStart(x, n) == EndsLine(p.behind, false)
  {
    hide START, END, Feed, LineStart, EndsLine;
    var blk := Managed(p, doc);
    var m := |x| - |blk|;
    assert x[m..] == x[k..][|Feed(lines)|..];
    LineStartBehind(x, k, Feed(lines), blk);
    FedEndsLine(lines, LineStart(x, k));
    EndBehind(x, m, p, doc);
  }

  lemma FedEndsLine(lines: seq<string>, otherwise: bool)
    ensures EndsLine(Feed(lines), otherwise) == (lines != [] || otherwise)
  {
    FeedEnds(lines);
  }

  lemma Behind(x: string, k: nat, a: string, b: string)
    requires k <= |x| && x[k..] == a + b
    ensures k + |a| == |x| - |b| && x[k + |a|..] == b
  {
    assert x[k + |a|..] == x[k..][|a|..];
  }

  lemma {:induction false} EndBehind(x: string, m: nat, p: Part, doc: string)
    requires m <= |x| && x[m..] == Managed(p, doc)
    ensures var n := |x| - |doc|;
      m <= n && x[n..] == doc && LineStart(x, n) == EndsLine(p.behind, false)
  {
    hide START, END, Feed, LineStart, EndsLine, Managed;
    var front := p.before + START + "\n" + Feed(p.body) + p.within;
    ManagedParts(p, doc);
    Behind(x, m, front, END + (p.behind + doc));
    var e := m + |front|;
    Behind(x, e, END, p.behind + doc);
    LineStartBehind(x, e, END, p.behind + doc);
    Behind(x, e + |END|, p.behind, doc);
    LineStartBehind(x, e + |END|, p.behind, doc);
    EndNoLine();
  }

  lemma EndNoLine()
    ensures !EndsLine(END, true) && !EndsLine(END, false)
  {
  }

  lemma ManagedParts(p: Part, doc: string)
    ensures Managed(p, doc) == p.before + START + "\n" + Feed(p.body) + p.within + (END + (p.behind + doc))
  {
    hide START, END, Feed;
    var d := END + (p.behind + doc);
    Regroup3(p.before + START + "\n" + Feed(p.body), p.within, d);
    Regroup3(p.before + START + "\n", Feed(p.body), p.within + d);
    Regroup3(p.before + START, "\n", Feed(p.body) + (p.within + d));
    Regroup3(p.before, START, "\n" + (Feed(p.body) + (p.within + d)));
  }

  /** The first block is found, and every one behind another. */
  predicate FoundFrom(parts: seq<Part>, behind: bool, ended: bool) {
    (behind && parts != [] ==> Found(parts[0], ended)) && AllFound(parts)
  }

  lemma {:induction false} OutcomeDoc(x: string, k: nat, parts: seq<Part>, tail: seq<string>, last: string,
                                      behind: bool)
    requires k <= |x| && (!behind ==> LineStart(x, k)) && AllParts(parts) && Loose(tail, last)
    requires x[k..] == Doc(parts, tail, last)
    ensures Outcome(RemoveBlocks(x, From(x, k, behind)), FoundFrom(parts, behind, LineStart(x, k)),
                    Left(parts, tail, behind), LeftLast(parts, tail, last, behind), UserWords(parts, tail, last), |parts|)
    decreases parts
  {
    hide Outcome, Loose, START, END, RemoveBlocks, From, LineStart, GoodPart, Own, Word, Unindented, Managed;
    if parts == [] {
      OutcomeTail(x, k, tail, last, behind);
    } else {
      OutcomePart(x, k, parts, tail, last, behind);
    }
  }

  lemma {:induction false} OutcomePart(x: string, k: nat, parts: seq<Part>, tail: seq<string>, last: string,
                                       behind: bool)
    requires k <= |x| && (!behind ==> LineStart(x, k)) && AllParts(parts) && Loose(tail, last)
    requires parts != [] && x[k..] == Doc(parts, tail, last)
    ensures Outcome(RemoveBlocks(x, From(x, k, behind)), FoundFrom(parts, behind, LineStart(x, k)),
                    Left(parts, tail, behind), LeftLast(parts, tail, last, behind), UserWords(parts, tail, last), |parts|)
    decreases parts, 0
  {
    hide Outcome, Loose, START, END, RemoveBlocks, LineStart, AllUser, Shown, Words, Feed, Managed, AllBlank, EndsLine,
         Left, LeftLast, UserWords, From, FoundFrom, AllParts, GoodPart;
    var p, doc := parts[0], Doc(parts[1..], tail, last);
    var fed, left := Left(parts[1..], tail, true), LeftLast(parts[1..], tail, last, true);
    var words := UserWords(parts[1..], tail, last);
    PartOf(parts, tail, last, behind);
    Cuts(x, k, p.user, p, doc);
    var m, n := |x| - |Managed(p, doc)|, |x| - |doc|;
    OutcomeDoc(x, n, parts[1..], tail, last, true);
    var found, mode := FoundFrom(parts[1..], true, EndsLine(p.behind, false)), behind && AllBlank(p.user);
    OutcomeAfter(x, n, found, fed, left, words, |parts| - 1);
    OutcomeBlock(x, m, p, doc, mode, LineStart(x, m), found, fed, left, words, |parts| - 1);
    PartFound(parts, behind, LineStart(x, k));
    OutcomeLines(x, k, p.user, Managed(p, doc), behind, FoundFrom(parts, behind, LineStart(x, k)), fed, left, words, |parts|);
  }

  lemma OutcomeAfter(x: string, n: nat, found: bool, fed: seq<string>, last: seq<string>, words: seq<string>,
                     blocks: nat)
    requires n <= |x| && Outcome(RemoveBlocks(x, From(x, n, true)), found, fed, last, words, blocks)
    ensures Outcome(RemoveBlocks(x, Skip(x, n)), found, fed, last, words, blocks)
  {
  }

  lemma PartOf(parts: seq<Part>, tail: seq<string>, last: string, behind: bool)
    requires parts != []
    ensures var p, more := parts[0], parts[1..];
      && Doc(parts, tail, last) == Feed(p.user) + Managed(p, Doc(more, tail, last))
      && Left(parts, tail, behind) == Shown(p.user, behind) + Left(more, tail, true)
      && LeftLast(parts, tail, last, behind) == LeftLast(more, tail, last, true)
      && UserWords(parts, tail, last) == Words(p.user) + UserWords(more, tail, last)
      && (AllParts(parts) ==> GoodPart(p) && AllUser(p.user) && AllParts(more))
      && (p.user == [] ==> AllBlank(p.user))
  {
    hide Managed, Shown, Words, Feed;
  }

  lemma PartFound(parts: seq<Part>, behind: bool, ended: bool)
    requires parts != []
    ensures var p := parts[0];
      FoundFrom(parts, behind, ended) <==>
        FoundFrom(parts[1..], true, EndsLine(p.behind, false))
        && (behind && AllBlank(p.user) ==> EndsLine(p.before, p.user != [] || ended))
  {
    hide EndsLine, AllBlank;
    if |parts| == 1 { assert parts[1..] == []; }
  }

  // ---------- No carriage returns ----------

  lemma {:induction false} UserReturns(lines: seq<string>)
    requires AllUser(lines)
    ensures NoReturns(Feed(lines))
  {
    hide UserLine;
    if lines != [] {
      UserIsLine(lines[0]);
      UserReturns(lines[1..]);
    }
  }

  lemma {:induction false} LooseReturns(lines: seq<string>, last: string)
    requires Loose(lines, last)
    ensures NoReturns(Feed(lines)) && NoReturns(last)
  {
    hide START, END, StripLeft;
    if lines != [] {
      if UserLine(lines[0]) && Loose(lines[1..], last) {
        LooseReturns(lines[1..], last);
      } else {
        BodyReturns(lines);
      }
    }
  }

  lemma {:induction false} DocReturns(parts: seq<Part>, tail: seq<string>, last: string)
    requires AllParts(parts) && Loose(tail, last)
    ensures NoReturns(Doc(parts, tail, last))
  {
    hide AllUser, AllBody, Loose, START, END, Feed, Managed, White, NoReturns;
    if parts == [] {
      LooseReturns(tail, last);
      ReturnsAppend(Feed(tail), last);
    } else {
      var p, doc := parts[0], Doc(parts[1..], tail, last);
      UserReturns(p.user);
      DocReturns(parts[1..], tail, last);
      ManagedReturns(p, doc);
      ReturnsAppend(Feed(p.user), Managed(p, doc));
    }
  }

  lemma ReturnsAppend(a: string, b: string)
    requires NoReturns(a) && NoReturns(b)
    ensures NoReturns(a + b)
  {
  }

  lemma ManagedReturns(p: Part, doc: string)
    requires GoodPart(p) && NoReturns(doc)
    ensures NoReturns(Managed(p, doc))
  {
    hide START, END, Feed, NoReturns, AllUser, AllBody, AllSpace;
    StartLine();
    EndLine();
    BodyReturns(p.body);
    FeedReturns();
    ReturnsAppend(p.behind, doc);
    ReturnsAppend(END, p.behind + doc);
    ReturnsAppend(p.within, END + (p.behind + doc));
    ReturnsAppend(Feed(p.body), p.within + (END + (p.behind + doc)));
    ReturnsAppend("\n", Feed(p.body) + (p.within + (END + (p.behind + doc))));
    ReturnsAppend(START, "\n" + (Feed(p.body) + (p.within + (END + (p.behind + doc)))));
    ReturnsAppend(p.before, START + ("\n" + (Feed(p.body) + (p.within + (END + (p.behind + doc))))));
  }

  lemma FeedReturns()
    ensures NoReturns("\n")
  {
  }

  // ---------- The words that are left ----------

  lemma WordsOfOwn(l: string, behind: bool)
    ensures Words(Own(Unindented(l, behind))) == Word(l)
  {
    hide Strip, StripLeft;
    StripTwice(l);
    WordsAlone(Unindented(l, behind));
  }

  lemma {:induction false} WordsOfShown(lines: seq<string>, behind: bool)
    ensures Words(Shown(lines, behind)) == Words(lines)
    decreases lines
  {
    hide Own, Word, Unindented, Blank;
    if lines != [] {
      var next := behind && Blank(lines[0]);
      WordsOfShown(lines[1..], next);
      WordsOfOwn(lines[0], behind);
      WordsAppend(Own(Unindented(lines[0], behind)), Shown(lines[1..], next));
    }
  }

  /** Whatever indentation is lost, the words are the user's. */
  lemma {:induction false} WordsOfLeft(parts: seq<Part>, tail: seq<string>, last: string, behind: bool)
    ensures Words(Left(parts, tail, behind) + LeftLast(parts, tail, last, behind)) == UserWords(parts, tail, last)
    decreases parts
  {
    hide Own, Word, Words, Unindented, AllBlank, Shown;
    if parts == [] {
      WordsOfShown(tail, behind);
      WordsOfOwn(last, behind && AllBlank(tail));
      WordsAppend(Shown(tail, behind), LeftLast(parts, tail, last, behind));
    } else {
      var fed, left := Left(parts[1..], tail, true), LeftLast(parts[1..], tail, last, true);
      WordsOfLeft(parts[1..], tail, last, true);
      WordsOfShown(parts[0].user, behind);
      WordsAppend(Shown(parts[0].user, behind), fed + left);
      Regroup3(Shown(parts[0].user, behind), fed, left);
    }
  }

  // ---------- The results ----------

  lemma {:induction false} BlocksCounted(x: string, k: nat, m: nat)
    requires k <= m < |x| && BlockEnd(x, m).Some?
    ensures RemoveBlocks(x, k).1 > 0
    decreases m - k
  {
    hide BlockEnd;
    if k < m && BlockEnd(x, k).None? { BlocksCounted(x, k + 1, m); }
  }

  /** The first block is always found. */
  lemma FirstBlock(x: string, parts: seq<Part>, tail: seq<string>, last: string)
    requires AllParts(parts) && parts != [] && x == Doc(parts, tail, last)
    ensures RemoveBlocks(x, 0).1 > 0
  {
    hide RemoveBlocks, Managed, GoodPart, Feed, START, BlockEnd, FootEnd, Skip, At, EndsLine;
    var p, doc := parts[0], Doc(parts[1..], tail, last);
    assert x[0..] == x;
    Cuts(x, 0, p.user, p, doc);
    var m := |x| - |Managed(p, doc)|;
    BlockFacts(x, m, p, doc, true);
    var j := m + |p.before|;
    BlockFound(x, m, j, Skip(x, |x| - |doc|));
    BlocksCounted(x, 0, m);
  }

  /** The condition for a text to keep the user's lines: every block behind another is found, and no
      line that is left, apart from the unfinished one, reads as the server's header. */
  predicate Keeps(parts: seq<Part>, tail: seq<string>) { AllFound(parts) && SERVER !in Left(parts, tail, false) }

  /** The text without its blocks. */
  lemma PlainDoc(parts: seq<Part>, tail: seq<string>, last: string)
    requires AllParts(parts) && Loose(tail, last)
    ensures var x := Doc(parts, tail, last);
      && PlainFeeds(x) == x
      && Outcome(RemoveBlocks(x, 0), AllFound(parts), Left(parts, tail, false), LeftLast(parts, tail, last, false),
                 UserWords(parts, tail, last), |parts|)
      && (RemoveBlocks(x, 0).1 > 0 <==> parts != [])
  {
    hide RemoveBlocks, Doc, UserWords, PlainFeeds, Loose, Left, LeftLast, Fed, Unfed, Spoilt, AllParts;
    var x := Doc(parts, tail, last);
    DocReturns(parts, tail, last);
    PlainFeedsSame(x);
    assert x[0..] == x;
    OutcomeDoc(x, 0, parts, tail, last, false);
    if parts != [] { FirstBlock(x, parts, tail, last); }
  }

  /** The steps behind the removal of blocks keep the words if and only if no header is found. */
  lemma WordsKept(plain: string)
    ensures TextWords(Tidy(RemoveServers(plain, 0).0)) == TextWords(plain) <==> SERVER !in Fed(plain)
    ensures RemoveServers(plain, 0).1 > 0 <==> SERVER in Fed(plain)
    ensures SERVER !in Fed(plain) ==> RemoveServers(plain, 0).0 == plain
  {
    hide TextWords, Tidy, RemoveServers, Solid, SolidAll, ServerAt, Fed;
    var bare := RemoveServers(plain, 0).0;
    ServersFed(plain);
    WordsTidy(bare);
    if NoServers(plain) {
      NoServersIn(plain);
    } else {
      ServerInside(plain);
      ServersTakeSolid(plain, 0);
      ServersCounted(plain, 0);
      SolidOfWords(bare);
      SolidOfWords(plain);
      assert plain[0..|plain|] == plain;
    }
  }

  lemma ServerInside(s: string)
    requires !NoServers(s)
    ensures exists i :: 0 <= i < |s| && ServerAt(s, i)
  {
    var i :| 0 <= i <= |s| && ServerAt(s, i);
    assert i < |s|;
  }

  /** The words of what removing blocks has left. */
  lemma PlainWords(plain: string, parts: seq<Part>, tail: seq<string>, last: string)
    requires Fed(plain) == Left(parts, tail, false) && Unfed(plain) == LeftLast(parts, tail, last, false)
    ensures TextFilled(plain) == Left(parts, tail, false) + LeftLast(parts, tail, last, false)
    ensures TextWords(plain) == UserWords(parts, tail, last)
  {
    hide Left, LeftLast, UserWords, Fed, Unfed, Words, Filled, Lines;
    FilledParts(plain);
    WordsOfFilled(Lines(plain));
    WordsOfLeft(parts, tail, last, false);
  }

  /** Whatever the managed blocks of a text hold, and however their markers are indented: if the text keeps
      the lines, stripping leaves just the lines that are left when the blocks are gone, the first and the
      last of them trimmed; so the lines of the user's that are not blank survive, in order and up to the
      white space around them. They do so if and only if the text keeps them -- but for a block that is not
      found in a text whose lines themselves hold a start marker. The text is changed if there is a block or
      a header is left. */
  lemma UserLinesSurvive(parts: seq<Part>, tail: seq<string>, last: string)
    requires AllParts(parts) && Loose(tail, last)
    ensures var (stripped, changed) := StripConfig(Doc(parts, tail, last));
      && (Keeps(parts, tail) ==>
            && Fed(stripped) == TrimEnds(Left(parts, tail, false) + LeftLast(parts, tail, last, false))
            && Unfed(stripped) == []
            && TextWords(stripped) == UserWords(parts, tail, last))
      && (AllFound(parts) || START !in UserWords(parts, tail, last) ==>
            (TextWords(stripped) == UserWords(parts, tail, last) <==> Keeps(parts, tail)))
      && (changed <==> parts != [] || SERVER in Left(parts, tail, false))
  {
    hide TextWords, Tidy, RemoveBlocks, RemoveServers, Doc, UserWords, PlainFeeds, Loose, Left, LeftLast,
         Fed, Unfed, Spoilt, AllParts, TextFilled, TrimEnds;
    PlainDoc(parts, tail, last);
    var plain := RemoveBlocks(Doc(parts, tail, last), 0).0;
    WordsKept(plain);
    if AllFound(parts) {
      PlainWords(plain, parts, tail, last);
      TidyLines(plain);
    } else if START !in UserWords(parts, tail, last) {
      SpoiltStays(plain, UserWords(parts, tail, last));
      WordsTidy(RemoveServers(plain, 0).0);
    }
  }

  /** None of the lines is a marker, up to the indentation of a start marker. */
  predicate NoMarkers(lines: seq<string>) {
    SERVER !in lines && forall i :: 0 <= i < |lines| ==> StripLeft(lines[i]) != START
  }

  lemma CleanByLines(s: string)
    ensures Clean(s) <==> NoMarkers(Fed(s))
  {
    hide START, SERVER, HeadAt, ServerAt, Fed, StripLeft;
    ServersFed(s);
    HeadsFed(s);
    assert forall i :: 0 <= i < |Fed(s)| ==> Fed(s)[i] in Fed(s);
  }

  /** If the lines are kept, the stripped text is clean exactly when none of those that are left, trimmed as
      they are, is a marker. */
  lemma CleanOfKept(parts: seq<Part>, tail: seq<string>, last: string)
    requires AllParts(parts) && Loose(tail, last) && Keeps(parts, tail)
    ensures Clean(StripConfig(Doc(parts, tail, last)).0)
      <==> NoMarkers(TrimEnds(Left(parts, tail, false) + LeftLast(parts, tail, last, false)))
  {
    hide StripConfig, Doc, Loose, AllParts, Left, LeftLast, Fed, TrimEnds, NoMarkers, Clean, Keeps;
    UserLinesSurvive(parts, tail, last);
    CleanByLines(StripConfig(Doc(parts, tail, last)).0);
  }

  // ---------- Every text is one of these ----------

  lemma NoBodyFed(t: string)
    ensures AllBody([]) && Feed([]) + t == t
  {
  }

  lemma MoreBody(l: string, more: seq<string>)
    requires BodyLine(l) && AllBody(more)
    ensures AllBody([l] + more)
  {
    hide BodyLine;
  }

  /** What stands behind the end marker in its line, and the lines below. */
  lemma FootTail(l: string, u: string, one: bool, behind: string) returns (rest: string)
    requires At(StripLeft(l), 0, END) && behind == StripLeft(l)[|END|..] && NoReturns(l) && (!one ==> NoReturns(u))
    ensures var within := l[..|l| - |StripLeft(l)|];
      White(within) && NoReturns(rest) && (if one then l else l + ("\n" + u)) == within + (END + rest)
  {
    hide END, StripLeft, IsSpace, At, NoReturns;
    var within := l[..|l| - |StripLeft(l)|];
    FootCut(l, within, behind);
    if one {
      rest := behind;
    } else {
      rest := behind + ("\n" + u);
      RestReturns(behind, u);
      Regroup3(within, END + behind, "\n" + u);
      Regroup3(END, behind, "\n" + u);
    }
  }

  lemma RestReturns(a: string, u: string)
    requires NoReturns(a) && NoReturns(u)
    ensures NoReturns(a + ("\n" + u))
  {
    assert NoReturns("\n" + u);
  }

  /** Looking for an end marker: the lines up to it and the text behind it, or all the lines. */
  lemma {:induction false} SearchFoot(t: string)
    returns (found: bool, body: seq<string>, within: string, rest: string)
    requires NoReturns(t)
    ensures AllBody(body)
    ensures found ==> White(within) && NoReturns(rest) && t == Feed(body) + (within + (END + rest))
    ensures !found ==> BodyLine(rest) && t == Feed(body) + rest
    decreases |t|
  {
    hide END, IsSpace, StripLeft, BodyLine, Feed, AllBody, NoReturns;
    var l, u := CutFirst(t);
    var one := OneLine(t);
    body := [];
    NoBodyFed(t);
    if !one { ReturnsBehind(l, u); }
    if At(StripLeft(l), 0, END) {
      found, within := true, l[..|l| - |StripLeft(l)|];
      rest := FootTail(l, u, one, StripLeft(l)[|END|..]);
      NoBodyFed(within + (END + rest));
    } else if one {
      found, within, rest := false, "", t;
      OtherIsBody(t);
    } else {
      var more;
      OtherIsBody(l);
      found, more, within, rest := SearchFoot(u);
      body := [l] + more;
      MoreBody(l, more);
      var tail := if found then within + (END + rest) else rest;
      FeedInFront(l, more, tail);
    }
  }

  lemma OtherIsBody(l: string)
    requires OneLine(l) && NoReturns(l) && !At(StripLeft(l), 0, END)
    ensures BodyLine(l)
  {
  }

  lemma FeedInFront(l: string, more: seq<string>, tail: string)
    ensures l + ("\n" + (Feed(more) + tail)) == Feed([l] + more) + tail
  {
    assert ([l] + more)[1..] == more;
    Regroup3(l + "\n", Feed(more), tail);
    Regroup3(l, "\n", Feed(more) + tail);
  }

  lemma ReturnsBehind(l: string, u: string)
    requires NoReturns(l + ("\n" + u))
    ensures NoReturns(l) && NoReturns(u)
  {
    var s := l + ("\n" + u);
    assert forall i :: 0 <= i < |l| ==> s[i] == l[i];
    assert forall i :: 0 <= i < |u| ==> s[|l| + 1 + i] == u[i];
  }

  lemma FootCut(l: string, within: string, behind: string)
    requires At(StripLeft(l), 0, END) && NoReturns(l)
    requires within == l[..|l| - |StripLeft(l)|] && behind == StripLeft(l)[|END|..]
    ensures White(within) && NoReturns(behind) && l == within + (END + behind)
  {
    hide END, IsSpace, StripLeft;
    var r := StripLeft(l);
    assert r == r[0..0 + |END|] + r[|END|..];
    assert l == within + r;
  }

  /** Every text without carriage returns is made of user lines and managed blocks in this way. */
  lemma {:induction false} EveryTextIsDoc(x: string) returns (parts: seq<Part>, tail: seq<string>, last: string)
    requires NoReturns(x)
    ensures AllParts(parts) && Loose(tail, last) && x == Doc(parts, tail, last)
    decreases |x|
  {
    hide START, END, StripLeft, NoReturns, BodyLine, Managed;
    var l, t := CutFirst(x);
    if OneLine(x) {
      parts, tail, last := [], [], x;
      assert x == "" + x;
    } else {
      ReturnsBehind(l, t);
      var found, body, within, rest := false, [], "", "";
      if StripLeft(l) == START { found, body, within, rest := SearchFoot(t); }
      if StripLeft(l) == START && found {
        var more;
        var p := Part([], l[..|l| - |START|], body, within, "");
        RestIsShorter(l, t, body, within, rest);
        more, tail, last := EveryTextIsDoc(rest);
        parts := [p] + more;
        assert parts[1..] == more;
        BlockCut(l, t, p, rest);
      } else if StripLeft(l) == START {
        parts, tail, last := [], [l] + body, rest;
        FeedInFront(l, body, rest);
        OpenIsLoose(l, body, rest);
      } else {
        parts, tail, last := EveryTextIsDoc(t);
        parts, tail := LineInFront(l, parts, tail, last);
      }
    }
  }

  lemma RestIsShorter(l: string, t: string, body: seq<string>, within: string, rest: string)
    requires t == Feed(body) + (within + (END + rest))
    ensures |rest| < |l + ("\n" + t)|
  {
  }

  lemma BlockCut(l: string, t: string, p: Part, rest: string)
    requires OneLine(l) && NoReturns(l) && StripLeft(l) == START && p.user == [] && p.before == l[..|l| - |START|]
    requires AllBody(p.body) && White(p.within) && p.behind == ""
    requires t == Feed(p.body) + (p.within + (END + rest))
    ensures GoodPart(p) && l + ("\n" + t) == Feed(p.user) + Managed(p, rest)
  {
    hide START, END, IsSpace, StripLeft, Feed, AllBody;
    assert l == p.before + START;
    assert "" + rest == rest;
    Regroup3(p.before, START, "\n" + t);
    NothingFed();
    assert White(p.before) && White("");
    assert Managed(p, rest) == "" + Managed(p, rest);
  }

  lemma NothingFed()
    ensures Feed([]) == "" && AllUser([])
  {
  }

  lemma OpenIsLoose(l: string, body: seq<string>, last: string)
    requires OneLine(l) && NoReturns(l) && StripLeft(l) == START && AllBody(body) && BodyLine(last)
    ensures Loose([l] + body, last)
  {
    hide START, END, StripLeft;
    StartLine();
    EndLine();
    AtThird(START, END);
    assert ([l] + body)[1..] == body;
  }

  lemma AtThird(text: string, pat: string)
    ensures At(text, 0, pat) && |pat| > 2 ==> |text| > 2 && text[2] == pat[2]
  {
    if At(text, 0, pat) { AtChars(text, 0, pat); }
  }

  /** One more line of the user's in front. */
  lemma LineInFront(l: string, parts: seq<Part>, tail: seq<string>, last: string)
    returns (more: seq<Part>, lines: seq<string>)
    requires UserLine(l) && AllParts(parts) && Loose(tail, last)
    ensures AllParts(more) && Loose(lines, last) && Doc(more, lines, last) == l + ("\n" + Doc(parts, tail, last))
  {
    hide UserLine, Managed, AllBody, White, BodyLine;
    if parts == [] {
      more, lines := [], [l] + tail;
      assert lines[1..] == tail;
      FeedInFront(l, tail, last);
    } else {
      var p := parts[0];
      more, lines := [p.(user := [l] + p.user)] + parts[1..], tail;
      assert more[1..] == parts[1..] && ([l] + p.user)[1..] == p.user;
      FeedInFront(l, p.user, Managed(p, Doc(parts[1..], tail, last)));
      SameManaged(p, p.(user := [l] + p.user), Doc(parts[1..], tail, last));
    }
  }

  lemma SameManaged(p: Part, q: Part, rest: string)
    requires q == p.(user := q.user)
    ensures Managed(p, rest) == Managed(q, rest)
  {
  }
}
