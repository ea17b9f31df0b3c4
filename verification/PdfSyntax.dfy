/**
 The part of the PDF object syntax that a reader of the generated files needs: white space and
 delimiters (section 7.2 of ISO 32000-1), numbers, names, literal strings (7.3.4.2), arrays,
 dictionaries and indirect references (7.3.6, 7.3.7, 7.3.10).

 `Next` and `Lex` read characters, `ParseVal` reads tokens. Each has an inverse, `Show` and
 `Tokens`, and a lemma that reading undoes printing.
 */
module PdfSyntax {
  import opened Text

  // ---------- Characters ----------

  predicate IsWhite(c: char) {
    c == '\0' || c == '\t' || c == '\n' || c == '\U{0c}' || c == '\r' || c == ' '
  }

  predicate IsDelimiter(c: char) {
    c == '(' || c == ')' || c == '<' || c == '>' || c == '[' || c == ']' || c == '{' || c == '}' || c == '/' || c == '%'
  }

  predicate IsRegular(c: char) { !IsWhite(c) && !IsDelimiter(c) }

  predicate AllRegular(s: string) { forall i :: 0 <= i < |s| ==> IsRegular(s[i]) }

  /** The text cannot prolong a run of regular characters that ends just before it. */
  predicate EndsRun(rest: string) { rest == "" || !IsRegular(rest[0]) }

  /** The length of the longest prefix of regular characters. */
  function RunLength(s: string): (n: nat)
    ensures n <= |s| && AllRegular(s[..n]) && EndsRun(s[n..])
  {
    if EndsRun(s) then 0 else
      var n := 1 + RunLength(s[1..]);
      assert s[1..][n - 1..] == s[n..];
      assert forall i :: 1 <= i < n ==> s[..n][i] == s[1..][..n - 1][i - 1];
      n
  }

  lemma {:induction false} RunLengthIs(w: string, rest: string)
    requires AllRegular(w) && EndsRun(rest)
    ensures RunLength(w + rest) == |w|
  {
    if w == "" {
      assert w + rest == rest;
    } else {
      assert (w + rest)[1..] == w[1..] + rest;
      RunLengthIs(w[1..], rest);
    }
  }

  // ---------- Literal strings (7.3.4.2) ----------

  predicate IsOctal(c: char) { '0' <= c <= '7' }

  /** The length, at most three, of the octal digits that start `s`. */
  function OctalLength(s: string): (n: nat)
    ensures n <= 3 && n <= |s| && forall i :: 0 <= i < n ==> IsOctal(s[i])
  {
    if |s| == 0 || !IsOctal(s[0]) then 0
    else if |s| == 1 || !IsOctal(s[1]) then 1
    else if |s| == 2 || !IsOctal(s[2]) then 2
    else 3
  }

  function OctalValue(s: string): nat
    requires |s| <= 3 && forall i :: 0 <= i < |s| ==> IsOctal(s[i])
  {
    if s == "" then 0
    else assert IsOctal(s[|s| - 1]); OctalValue(s[..|s| - 1]) * 8 + (s[|s| - 1] as int - '0' as int)
  }

  function Prepend(c: char, r: Option<(string, string)>): Option<(string, string)> {
    if r.Some? then Some(([c] + r.value.0, r.value.1)) else None
  }

  /** Reads a literal string after its opening parenthesis, `depth` parentheses deep; returns the
      value and the text after the closing parenthesis. */
  function ReadString(s: string, depth: nat): Option<(string, string)>
    decreases |s|
  {
    if s == "" then None
    else if s[0] == '\\' then
      if |s| == 1 then None
      else if s[1] == 'n' then Prepend('\n', ReadString(s[2..], depth))
      else if s[1] == 'r' then Prepend('\r', ReadString(s[2..], depth))
      else if s[1] == 't' then Prepend('\t', ReadString(s[2..], depth))
      else if s[1] == 'b' then Prepend('\U{08}', ReadString(s[2..], depth))
      else if s[1] == 'f' then Prepend('\U{0c}', ReadString(s[2..], depth))
      else if s[1] == '\r' && |s| > 2 && s[2] == '\n' then ReadString(s[3..], depth)
      else if s[1] == '\r' || s[1] == '\n' then ReadString(s[2..], depth)
      else if IsOctal(s[1]) then
        var n := OctalLength(s[1..]);
        Prepend((OctalValue(s[1..][..n]) % 256) as char, ReadString(s[1 + n..], depth))
      else Prepend(s[1], ReadString(s[2..], depth))
    else if s[0] == '(' then Prepend('(', ReadString(s[1..], depth + 1))
    else if s[0] == ')' then
      if depth == 0 then Some(("", s[1..])) else Prepend(')', ReadString(s[1..], depth - 1))
    else if s[0] == '\r' && |s| > 1 && s[1] == '\n' then Prepend('\n', ReadString(s[2..], depth))
    else if s[0] == '\r' then Prepend('\n', ReadString(s[1..], depth))
    else Prepend(s[0], ReadString(s[1..], depth))
  }

  // ---------- Tokens ----------

  datatype Token =
    | Num(n: nat)
    | Name(name: string)
    | Str(text: string)
    | Key(word: string)
    | DictOpen | DictClose | ArrayOpen | ArrayClose

  function CommentLength(s: string): (n: nat)
    ensures n <= |s|
  {
    if s == "" || s[0] == '\n' || s[0] == '\r' then 0 else 1 + CommentLength(s[1..])
  }

  /** The first token of `s` and the text after it; `None` at the end or on a malformed token. */
  function Next(s: string): (r: Option<(Token, string)>)
    ensures r.Some? ==> |r.value.1| < |s|
    decreases |s|
  {
    if s == "" then None
    else if IsWhite(s[0]) then Next(s[1..])
    else if s[0] == '%' then
      assert CommentLength(s) >= 1;
      Next(s[CommentLength(s)..])
    else if s[0] == '[' then Some((ArrayOpen, s[1..]))
    else if s[0] == ']' then Some((ArrayClose, s[1..]))
    else if s[0] == '<' then
      if |s| > 1 && s[1] == '<' then Some((DictOpen, s[2..])) else None
    else if s[0] == '>' then
      if |s| > 1 && s[1] == '>' then Some((DictClose, s[2..])) else None
    else if s[0] == '(' then
      var r := ReadString(s[1..], 0);
      ReadStringShrinks(s[1..], 0);
      if r.Some? then Some((Str(r.value.0), r.value.1)) else None
    else if s[0] == '/' then
      var n := RunLength(s[1..]);
      Some((Name(s[1..][..n]), s[1..][n..]))
    else if IsDelimiter(s[0]) then None
    else
      var n := RunLength(s);
      Some((WordToken(s[..n]), s[n..]))
  }

  function WordToken(w: string): Token {
    if w != "" && AllDigits(w) then Num(Value(w)) else Key(w)
  }

  lemma ReadStringShrinks(s: string, depth: nat)
    ensures ReadString(s, depth).Some? ==> |ReadString(s, depth).value.1| < |s|
    decreases |s|
  {
  }

  /** Reads tokens up to and including the first keyword in `stops`, or as far as tokens go; returns
      them with the text after them. */
  function Lex(s: string, stops: set<string>): (seq<Token>, string)
    decreases |s|
  {
    var r := Next(s);
    if r.None? then ([], s)
    else if r.value.0.Key? && r.value.0.word in stops then ([r.value.0], r.value.1)
    else
      var (ts, rest) := Lex(r.value.1, stops);
      ([r.value.0] + ts, rest)
  }

  // ---------- Printing tokens ----------

  /** A token that `Show` prints: all but strings, and words that lex back as themselves. */
  predicate Showable(t: Token) {
    match t
    case Num(_) => true
    case Name(n) => AllRegular(n)
    case Key(w) => w != "" && AllRegular(w) && !IsDigit(w[0])
    case Str(_) => false
    case _ => true
  }

  function Show(t: Token): string
    requires Showable(t)
  {
    match t
    case Num(n) => Dec(n)
    case Name(n) => "/" + n
    case Key(w) => w
    case DictOpen => "<<"
    case DictClose => ">>"
    case ArrayOpen => "["
    case ArrayClose => "]"
  }

  /** The printed token runs into a following regular character. */
  predicate NeedsGap(t: Token) { t.Num? || t.Name? || t.Key? }

  lemma DigitsAreRegular(s: string)
    requires AllDigits(s)
    ensures AllRegular(s)
  {
  }

  lemma NextWord(w: string, rest: string)
    requires w != "" && AllRegular(w) && EndsRun(rest)
    ensures Next(w + rest) == Some((WordToken(w), rest))
  {
    hide EndsRun;
    RunLengthIs(w, rest);
    var s := w + rest;
    assert s[0] == w[0] && IsRegular(s[0]);
    assert s[..|w|] == w && s[|w|..] == rest;
  }

  lemma NextNum(n: nat, rest: string)
    requires EndsRun(rest)
    ensures Next(Dec(n) + rest) == Some((Num(n), rest))
  {
    hide Next, EndsRun;
    DigitsAreRegular(Dec(n));
    DecValue(n);
    NextWord(Dec(n), rest);
  }

  lemma NextKey(w: string, rest: string)
    requires Showable(Key(w)) && EndsRun(rest)
    ensures Next(w + rest) == Some((Key(w), rest))
  {
    hide Next, EndsRun;
    NextWord(w, rest);
    assert !IsDigit(w[0]);
  }

  lemma NextName(n: string, rest: string)
    requires AllRegular(n) && EndsRun(rest)
    ensures Next("/" + n + rest) == Some((Name(n), rest))
  {
    hide EndsRun, AllRegular;
    var s := "/" + n + rest;
    assert s[1..] == n + rest;
    RunLengthIs(n, rest);
  }

  lemma NextSign(t: Token, rest: string)
    requires Showable(t) && !NeedsGap(t)
    ensures Next(Show(t) + rest) == Some((t, rest))
  {
    hide RunLength, ReadString;
    var s := Show(t) + rest;
    assert s[|Show(t)|..] == rest;
  }

  lemma {:induction false} NextShow(t: Token, rest: string)
    requires Showable(t) && (NeedsGap(t) ==> EndsRun(rest))
    ensures Next(Show(t) + rest) == Some((t, rest))
  {
    match t
    case Num(n) => NextNum(n, rest);
    case Name(n) => NextName(n, rest);
    case Key(w) => NextKey(w, rest);
    case _ => NextSign(t, rest);
  }

  predicate AllWhite(s: string) { forall i :: 0 <= i < |s| ==> IsWhite(s[i]) }

  lemma {:induction false} NextSkipsWhite(gap: string, rest: string)
    requires AllWhite(gap)
    ensures Next(gap + rest) == Next(rest)
  {
    if gap == "" {
      assert gap + rest == rest;
    } else {
      assert (gap + rest)[1..] == gap[1..] + rest;
      NextSkipsWhite(gap[1..], rest);
    }
  }

  lemma LexSkipsWhite(gap: string, rest: string, stops: set<string>)
    requires AllWhite(gap)
    ensures Next(rest).Some? ==> Lex(gap + rest, stops) == Lex(rest, stops)
  {
    NextSkipsWhite(gap, rest);
  }

  predicate NoStops(ts: seq<Token>, stops: set<string>) {
    forall i :: 0 <= i < |ts| && ts[i].Key? ==> ts[i].word !in stops
  }

  /** In front of any text that goes on with a token, `text` lexes as the tokens `ts`. */
  ghost predicate Lexes(text: string, ts: seq<Token>) {
    forall rest: string, stops: set<string> :: Next(rest).Some? && NoStops(ts, stops) ==>
      Next(text + rest).Some? && Lex(text + rest, stops) == (ts + Lex(rest, stops).0, Lex(rest, stops).1)
  }

  lemma LexesUse(text: string, ts: seq<Token>, rest: string, stops: set<string>)
    requires Lexes(text, ts) && Next(rest).Some? && NoStops(ts, stops)
    ensures Lex(text + rest, stops) == (ts + Lex(rest, stops).0, Lex(rest, stops).1)
  {
  }

  lemma LexStep(t: Token, after: string, stops: set<string>)
    requires Showable(t) && (NeedsGap(t) ==> EndsRun(after))
    requires t.Key? ==> t.word !in stops
    ensures Next(Show(t) + after) == Some((t, after))
    ensures Lex(Show(t) + after, stops) == ([t] + Lex(after, stops).0, Lex(after, stops).1)
  {
    NextShow(t, after);
  }

  lemma LexesToken(t: Token, gap: string)
    requires Showable(t) && AllWhite(gap)
    requires NeedsGap(t) ==> gap != ""
    ensures Lexes(Show(t) + gap, [t])
  {
    forall rest: string, stops: set<string> | Next(rest).Some? && NoStops([t], stops)
      ensures Next(Show(t) + gap + rest).Some?
      ensures Lex(Show(t) + gap + rest, stops) == ([t] + Lex(rest, stops).0, Lex(rest, stops).1)
    {
      assert [t][0] == t;
      LexStep(t, gap + rest, stops);
      LexSkipsWhite(gap, rest, stops);
      Regroup3(Show(t), gap, rest);
    }
  }

  lemma LexesThen(a: string, ts: seq<Token>, b: string, us: seq<Token>)
    requires Lexes(a, ts) && Lexes(b, us)
    ensures Lexes(a + b, ts + us)
  {
    forall rest: string, stops: set<string> | Next(rest).Some? && NoStops(ts + us, stops)
      ensures Next(a + b + rest).Some?
      ensures Lex(a + b + rest, stops) == (ts + us + Lex(rest, stops).0, Lex(rest, stops).1)
    {
      assert NoStops(ts, stops) by { assert forall i :: 0 <= i < |ts| ==> (ts + us)[i] == ts[i]; }
      assert NoStops(us, stops) by { assert forall i :: 0 <= i < |us| ==> (ts + us)[|ts| + i] == us[i]; }
      Regroup3(a, b, rest);
      Regroup3(ts, us, Lex(rest, stops).0);
    }
  }

  // ---------- Objects ----------

  datatype Val =
    | IntVal(n: nat)
    | NameVal(name: string)
    | RefVal(id: nat, generation: nat)
    | ArrayVal(items: Items)
    | DictVal(entries: Entries)

  datatype Items = NoItems | Item(head: Val, tail: Items)

  datatype Entries = NoEntries | Entry(key: string, val: Val, others: Entries)

  const R := Key("R")

  function Lookup(es: Entries, key: string): Option<Val> {
    match es
    case NoEntries => None
    case Entry(k, v, others) => if k == key then Some(v) else Lookup(others, key)
  }

  /** Reads one object and returns the tokens after it. */
  function ParseVal(ts: seq<Token>): (r: Option<(Val, seq<Token>)>)
    ensures r.Some? ==> |r.value.1| < |ts|
    decreases |ts|, 0
  {
    if ts == [] then None
    else match ts[0]
      case Num(k) =>
        if |ts| >= 3 && ts[1].Num? && ts[2] == R then Some((RefVal(k, ts[1].n), ts[3..]))
        else Some((IntVal(k), ts[1..]))
      case Name(n) => Some((NameVal(n), ts[1..]))
      case ArrayOpen =>
        var r := ParseItems(ts[1..]);
        if r.None? then None else Some((ArrayVal(r.value.0), r.value.1))
      case DictOpen =>
        var r := ParseEntries(ts[1..]);
        if r.None? then None else Some((DictVal(r.value.0), r.value.1))
      case _ => None
  }

  function ParseItems(ts: seq<Token>): (r: Option<(Items, seq<Token>)>)
    ensures r.Some? ==> |r.value.1| < |ts|
    decreases |ts|, 1
  {
    if ts == [] then None
    else if ts[0] == ArrayClose then Some((NoItems, ts[1..]))
    else
      var v := ParseVal(ts);
      if v.None? then None else
        var others := ParseItems(v.value.1);
        if others.None? then None else Some((Item(v.value.0, others.value.0), others.value.1))
  }

  function ParseEntries(ts: seq<Token>): (r: Option<(Entries, seq<Token>)>)
    ensures r.Some? ==> |r.value.1| < |ts|
    decreases |ts|, 1
  {
    if ts == [] then None
    else if ts[0] == DictClose then Some((NoEntries, ts[1..]))
    else if !ts[0].Name? then None
    else
      var v := ParseVal(ts[1..]);
      if v.None? then None else
        var others := ParseEntries(v.value.1);
        if others.None? then None else Some((Entry(ts[0].name, v.value.0, others.value.0), others.value.1))
  }

  function Tokens(v: Val): (ts: seq<Token>)
    ensures |ts| >= 1
  {
    match v
    case IntVal(n) => [Num(n)]
    case NameVal(n) => [Name(n)]
    case RefVal(k, g) => [Num(k), Num(g), R]
    case ArrayVal(items) => [ArrayOpen] + ItemTokens(items)
    case DictVal(entries) => [DictOpen] + EntryTokens(entries)
  }

  function ItemTokens(items: Items): (ts: seq<Token>)
    ensures |ts| >= 1
  {
    match items
    case NoItems => [ArrayClose]
    case Item(v, tail) => Tokens(v) + ItemTokens(tail)
  }

  function EntryTokens(es: Entries): (ts: seq<Token>)
    ensures |ts| >= 1
  {
    match es
    case NoEntries => [DictClose]
    case Entry(k, v, others) => [Name(k)] + Tokens(v) + EntryTokens(others)
  }

  /** The tokens do not turn a number before them into a reference. */
  predicate NoReferenceTail(ts: seq<Token>) {
    |ts| >= 2 && ts[0].Num? ==> ts[1] != R
  }

  lemma TokensNoReferenceTail(v: Val, ts: seq<Token>)
    requires ts == [] || ts[0] != R
    ensures NoReferenceTail(Tokens(v) + ts)
    ensures (Tokens(v) + ts)[0] != R
  {
  }

  // ---------- Printed objects ----------

  lemma NameLexes(n: string)
    requires AllRegular(n)
    ensures Lexes(NameText(n), Tokens(NameVal(n)))
  {
    LexesToken(Name(n), " ");
  }

  lemma IntLexes(n: nat)
    ensures Lexes(Dec(n) + " ", Tokens(IntVal(n)))
  {
    LexesToken(Num(n), " ");
  }

  lemma RefLexes(id: nat)
    ensures Lexes(Dec(id) + " 0 R ", Tokens(RefVal(id, 0)))
  {
    IntLexes(id);
    IntLexes(0);
    LexesToken(R, " ");
    var zero, r := Dec(0) + " ", Show(R) + " ";
    LexesThen(zero, [Num(0)], r, [R]);
    LexesThen(Dec(id) + " ", [Num(id)], zero + r, [Num(0)] + [R]);
    assert Dec(id) + " 0 R " == Dec(id) + " " + (zero + r);
    assert Tokens(RefVal(id, 0)) == [Num(id)] + ([Num(0)] + [R]);
  }

  function NameText(n: string): string { "/" + n + " " }

  function EntryText(key: string, value: string, others: string): string { NameText(key) + value + others }

  lemma EntryLexes(key: string, value: string, v: Val, others: string, es: Entries)
    requires AllRegular(key)
    requires Lexes(value, Tokens(v)) && Lexes(others, EntryTokens(es))
    ensures Lexes(EntryText(key, value, others), EntryTokens(Entry(key, v, es)))
  {
    NameLexes(key);
    LexesThen(NameText(key), [Name(key)], value, Tokens(v));
    LexesThen(NameText(key) + value, [Name(key)] + Tokens(v), others, EntryTokens(es));
  }

  lemma DictLexes(entries: string, es: Entries)
    requires Lexes(entries, EntryTokens(es))
    ensures Lexes("<< " + entries, Tokens(DictVal(es)))
  {
    LexesToken(DictOpen, " ");
    assert Show(DictOpen) + " " == "<< ";
    LexesThen("<< ", [DictOpen], entries, EntryTokens(es));
  }

  lemma CloseLexes(gap: string)
    requires AllWhite(gap)
    ensures Lexes(">>" + gap, EntryTokens(NoEntries))
  {
    LexesToken(DictClose, gap);
  }

  /** Parsing undoes printing. */
  lemma {:induction false} ParseTokens(v: Val, ts: seq<Token>)
    requires NoReferenceTail(ts)
    ensures ParseVal(Tokens(v) + ts) == Some((v, ts))
    decreases v
  {
    var all := Tokens(v) + ts;
    match v
    case IntVal(_) =>
      assert all[1..] == ts;
      if |all| >= 3 && all[1].Num? {
        assert all[2] == ts[1];
      }
    case NameVal(_) =>
      assert all[1..] == ts;
    case RefVal(_, _) =>
      assert all[3..] == ts;
    case ArrayVal(items) =>
      assert all[1..] == ItemTokens(items) + ts;
      ParseItemTokens(items, ts);
    case DictVal(entries) =>
      assert all[1..] == EntryTokens(entries) + ts;
      ParseEntryTokens(entries, ts);
  }

  lemma {:induction false} ParseItemTokens(items: Items, ts: seq<Token>)
    ensures ParseItems(ItemTokens(items) + ts) == Some((items, ts))
    decreases items
  {
    match items
    case NoItems =>
      assert (ItemTokens(items) + ts)[1..] == ts;
    case Item(v, tail) =>
      var after := ItemTokens(tail) + ts;
      assert ItemTokens(items) + ts == Tokens(v) + after;
      ItemTokensStart(tail, ts);
      ParseTokens(v, after);
      ParseItemTokens(tail, ts);
      assert (Tokens(v) + after)[0] == Tokens(v)[0] != ArrayClose;
  }

  lemma ItemTokensStart(items: Items, ts: seq<Token>)
    ensures NoReferenceTail(ItemTokens(items) + ts) && (ItemTokens(items) + ts)[0] != R
  {
    match items
    case NoItems =>
    case Item(v, tail) =>
      ItemTokensStart(tail, ts);
      assert ItemTokens(items) + ts == Tokens(v) + (ItemTokens(tail) + ts);
      TokensNoReferenceTail(v, ItemTokens(tail) + ts);
  }

  lemma {:induction false} ParseEntryTokens(es: Entries, ts: seq<Token>)
    ensures ParseEntries(EntryTokens(es) + ts) == Some((es, ts))
    decreases es
  {
    var all := EntryTokens(es) + ts;
    match es
    case NoEntries =>
      assert all[1..] == ts;
    case Entry(k, v, others) =>
      var after := EntryTokens(others) + ts;
      assert all[1..] == Tokens(v) + after;
      ParseTokens(v, after);
      ParseEntryTokens(others, ts);
  }
}
