/** How the line ends of a configuration are read. */
module ConfigNewlines {
  import opened Text
  import opened ConfigEditor

  /** The text with this line end for each line feed. */
  function WithEnds(s: string, end: string): string {
    if s == "" then "" else (if s[0] == '\n' then end else [s[0]]) + WithEnds(s[1..], end)
  }

  lemma ReadEnd(end: string, more: string)
    requires end == "\r\n" || end == "\n" || (end == "\r" && (more == "" || more[0] != '\n'))
    ensures UniversalNewlines(end + more) == "\n" + UniversalNewlines(more)
  {
    var s := end + more;
    assert s[|end|..] == more;
    if end == "\r" && more != "" { assert s[1] == more[0]; }
  }

  lemma ReadChar(c: char, more: string)
    requires c != '\r'
    ensures UniversalNewlines([c] + more) == [c] + UniversalNewlines(more)
  {
    assert ([c] + more)[1..] == more;
  }

  /** A text reads the same with the line ends of any system. */
  lemma {:induction false} EndsReadAlike(s: string, end: string)
    requires NoReturns(s) && (end == "\n" || end == "\r\n" || end == "\r")
    ensures UniversalNewlines(WithEnds(s, end)) == s
    ensures end == "\r" ==> WithEnds(s, end) == "" || WithEnds(s, end)[0] != '\n'
  {
    if s != "" {
      hide UniversalNewlines;
      EndsReadAlike(s[1..], end);
      assert s == [s[0]] + s[1..];
      if s[0] == '\n' { ReadEnd(end, WithEnds(s[1..], end)); } else { ReadChar(s[0], WithEnds(s[1..], end)); }
    }
  }

  lemma PlainEnd(more: string)
    ensures PlainFeeds("\r\n" + more) == "\n" + PlainFeeds(more)
  {
    assert ("\r\n" + more)[2..] == more;
  }

  lemma PlainChar(c: char, more: string)
    requires c != '\r' || more == "" || more[0] != '\n'
    ensures PlainFeeds([c] + more) == [c] + PlainFeeds(more)
  {
    assert ([c] + more)[1..] == more;
    if more != "" { assert ([c] + more)[1] == more[0]; }
  }

  /** Replacing line ends undoes writing them: every line feed behind a return loses it, and a return
      elsewhere stays. */
  lemma {:induction false} FeedsReplaced(s: string)
    ensures PlainFeeds(WithEnds(s, "\r\n")) == s
  {
    if s != "" {
      hide PlainFeeds;
      FeedsReplaced(s[1..]);
      assert s == [s[0]] + s[1..];
      if s[0] == '\n' {
        PlainEnd(WithEnds(s[1..], "\r\n"));
      } else {
        EndsStart(s[1..]);
        PlainChar(s[0], WithEnds(s[1..], "\r\n"));
      }
    }
  }

  lemma EndsStart(s: string)
    ensures WithEnds(s, "\r\n") == "" || WithEnds(s, "\r\n")[0] != '\n'
  {
  }
}
