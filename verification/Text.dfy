/** The Python string operations that the modelled scripts rely on. */
module Text {

  datatype Option<+T> = None | Some(value: T)

  /** `sep.join(parts)` */
  function Join(parts: seq<string>, sep: string): string {
    if |parts| == 0 then ""
    else if |parts| == 1 then parts[0]
    else parts[0] + sep + Join(parts[1..], sep)
  }

  /** `"".join(parts)` */
  function Concat(parts: seq<string>): string {
    if parts == [] then "" else parts[0] + Concat(parts[1..])
  }

  /** The parts one behind the other. */
  function Flatten<T>(parts: seq<seq<T>>): seq<T> {
    if parts == [] then [] else parts[0] + Flatten(parts[1..])
  }

  /** `text.replace(c, sub)` for a one-character `c` */
  function ReplaceChar(s: string, c: char, sub: string): string {
    if s == "" then "" else (if s[0] == c then sub else [s[0]]) + ReplaceChar(s[1..], c, sub)
  }

  predicate OneLine(s: string) { forall i :: 0 <= i < |s| ==> s[i] != '\n' }

  /** The text is a carriage return nowhere. */
  predicate NoReturns(s: string) { forall i :: 0 <= i < |s| ==> s[i] != '\r' }

  /** Each line with a line feed after it. */
  function Feed(lines: seq<string>): string {
    if lines == [] then "" else lines[0] + "\n" + Feed(lines[1..])
  }

  lemma {:induction false} JoinIsFeed(lines: seq<string>, last: string)
    ensures Join(lines + [last], "\n") == Feed(lines) + last
  {
    if lines == [] {
      assert lines + [last] == [last];
    } else {
      assert (lines + [last])[1..] == lines[1..] + [last];
      JoinIsFeed(lines[1..], last);
    }
  }

  lemma {:induction false} FeedLast(lines: seq<string>, last: string)
    ensures Feed(lines + [last]) == Feed(lines) + last + "\n"
  {
    if lines == [] {
      assert lines + [last] == [last] && [last][1..] == [];
    } else {
      FeedLast(lines[1..], last);
      assert (lines + [last])[1..] == lines[1..] + [last];
    }
  }

  predicate Distinct<T(==)>(items: seq<T>) { forall i, j :: 0 <= i < j < |items| ==> items[i] != items[j] }

  predicate IsDigit(c: char) { '0' <= c <= '9' }

  predicate AllDigits(s: string) { forall i :: 0 <= i < |s| ==> IsDigit(s[i]) }

  /** `str(n)` */
  function Dec(n: nat): (s: string)
    ensures |s| >= 1 && AllDigits(s)
  {
    if n < 10 then ['0' + n as char] else Dec(n / 10) + ['0' + (n % 10) as char]
  }

  /** `int(s)` on a run of decimal digits */
  function Value(s: string): nat
    requires AllDigits(s)
  {
    if s == "" then 0 else Value(s[..|s| - 1]) * 10 + (s[|s| - 1] as int - '0' as int)
  }

  lemma {:induction false} DecValue(n: nat)
    ensures Value(Dec(n)) == n
  {
    if n >= 10 {
      DecValue(n / 10);
      assert Dec(n)[..|Dec(n)| - 1] == Dec(n / 10);
    } else {
      assert Dec(n)[..0] == "";
    }
  }

  /** A run of `n` copies of `c`. */
  function Repeat(c: char, n: nat): (s: string)
    ensures |s| == n && forall i :: 0 <= i < n ==> s[i] == c
  {
    seq(n, i => c)
  }

  /** `f"{n:010d}"`: at least ten digits, more when the number needs them */
  function Pad10(n: nat): (s: string)
    ensures AllDigits(s) && |s| >= 10
  {
    var d := Dec(n);
    if |d| < 10 then Repeat('0', 10 - |d|) + d else d
  }

  lemma {:induction false} ValueLeadingZeros(k: nat, s: string)
    requires AllDigits(s)
    ensures AllDigits(Repeat('0', k) + s) && Value(Repeat('0', k) + s) == Value(s)
    decreases |s|, k
  {
    var z := Repeat('0', k) + s;
    if s == "" {
      if k > 0 {
        assert z[..|z| - 1] == Repeat('0', k - 1) + s;
        ValueLeadingZeros(k - 1, s);
      }
    } else {
      assert z[..|z| - 1] == Repeat('0', k) + s[..|s| - 1];
      ValueLeadingZeros(k, s[..|s| - 1]);
    }
  }

  lemma Pad10Value(n: nat)
    ensures Value(Pad10(n)) == n
  {
    DecValue(n);
    if |Dec(n)| < 10 {
      ValueLeadingZeros(10 - |Dec(n)|, Dec(n));
    }
  }

  function Pow10(k: nat): nat { if k == 0 then 1 else 10 * Pow10(k - 1) }

  /** A number has at most `k` digits exactly when it is below ten to the `k`. */
  lemma {:induction false} DecLength(n: nat, k: nat)
    requires k >= 1
    ensures |Dec(n)| <= k <==> n < Pow10(k)
    decreases n
  {
    if n < 10 {
      Pow10AtLeast10(k);
    } else if k == 1 {
      assert Pow10(1) == 10 * Pow10(0);
    } else {
      DecLength(n / 10, k - 1);
    }
  }

  lemma {:induction false} Pow10AtLeast10(k: nat)
    requires k >= 1
    ensures Pow10(k) >= 10
  {
    if k > 1 { Pow10AtLeast10(k - 1); }
  }

  /** Concatenation associates: three parts, four parts. */
  lemma Regroup3<T>(a: seq<T>, b: seq<T>, c: seq<T>)
    ensures a + b + c == a + (b + c)
  {
  }

  lemma Regroup<T>(a: seq<T>, b: seq<T>, c: seq<T>, d: seq<T>)
    ensures a + b + c + d == a + (b + (c + d))
  {
  }

  // ---------- White space ----------

  /** `c.isspace()`, which is also what `\s` matches */
  predicate IsSpace(c: char) {
    || '\t' <= c <= '\r' || '\U{1c}' <= c <= ' ' || c == '\U{85}' || c == '\U{a0}' || c == '\U{1680}'
    || '\U{2000}' <= c <= '\U{200a}' || c == '\U{2028}' || c == '\U{2029}' || c == '\U{202f}'
    || c == '\U{205f}' || c == '\U{3000}'
  }

  lemma SolidIsNoFeed(c: char)
    ensures !IsSpace(c) ==> c != '\n'
  {
  }

  predicate AllSpace(s: string) { forall i :: 0 <= i < |s| ==> IsSpace(s[i]) }

  /** The number of white-space characters that `s` starts with. */
  function Lead(s: string): (n: nat)
    ensures n <= |s| && (forall i :: 0 <= i < n ==> IsSpace(s[i])) && (n < |s| ==> !IsSpace(s[n]))
  {
    if s == "" || !IsSpace(s[0]) then 0 else 1 + Lead(s[1..])
  }

  /** The length of `s` without the white space at its end. */
  function Trail(s: string): (n: nat)
    ensures n <= |s| && (forall i :: n <= i < |s| ==> IsSpace(s[i])) && (n > 0 ==> !IsSpace(s[n - 1]))
  {
    if s == "" || !IsSpace(s[|s| - 1]) then |s| else Trail(s[..|s| - 1])
  }

  /** `s.lstrip()` */
  function StripLeft(s: string): (r: string)
    ensures r == "" || !IsSpace(r[0])
    ensures |r| <= |s| && r == s[|s| - |r|..] && AllSpace(s[..|s| - |r|])
  {
    s[Lead(s)..]
  }

  /** `s.rstrip()` */
  function StripRight(s: string): (r: string)
    ensures r == "" || !IsSpace(r[|r| - 1])
    ensures |r| <= |s| && r == s[..|r|] && AllSpace(s[|r|..])
  {
    s[..Trail(s)]
  }

  /** `s.strip()` */
  function Strip(s: string): string { StripRight(StripLeft(s)) }

  /** A text between solid characters, or none. */
  predicate Trimmed(t: string) { t == "" || (!IsSpace(t[0]) && !IsSpace(t[|t| - 1])) }

  lemma StripTrimmed(t: string)
    requires Trimmed(t)
    ensures Strip(t) == t && StripLeft(t) == t && StripRight(t) == t
  {
    assert t[0..] == t && t[..|t|] == t;
  }

  /** A character that is not white space is kept when the end is stripped. */
  lemma Kept(b: string, i: nat)
    requires i < |b| && !IsSpace(b[i])
    ensures i < |StripRight(b)|
  {
    hide IsSpace;
    var r := StripRight(b);
    assert forall j :: |r| <= j < |b| ==> b[j] == b[|r|..][j - |r|];
  }

  // ---------- Occurrences ----------

  /** `pat` occurs in `text` at `i`. */
  predicate At(text: string, i: nat, pat: string) { i + |pat| <= |text| && text[i..i + |pat|] == pat }

  /** Reading one character of a pattern off the text it stands in. */
  lemma AtChar(text: string, i: nat, pat: string, j: nat)
    requires At(text, i, pat) && j < |pat|
    ensures i + j < |text| && text[i + j] == pat[j]
  {
    assert text[i + j] == text[i..i + |pat|][j];
  }
}
