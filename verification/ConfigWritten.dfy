/** What a reader finds in a configuration after the block was written. */
module ConfigWritten {
  import opened Text
  import opened TextLines
  import opened ConfigEditor
  import opened ConfigMatching
  import ConfigResults
  import opened ConfigReading

  /** The lines behind the last line that is `mark`. */
  function Behind(lines: seq<string>, mark: string): Option<seq<string>> {
    if lines == [] then None
    else
      var r := Behind(lines[1..], mark);
      if r.Some? then r else if lines[0] == mark then Some(lines[1..]) else None
  }

  /** The lines before the first one that is `mark`. */
  function Before(lines: seq<string>, mark: string): Option<seq<string>> {
    if lines == [] then None
    else if lines[0] == mark then Some([])
    else
      var r := Before(lines[1..], mark);
      if r.None? then None else Some([lines[0]] + r.value)
  }

  /** The settings between the last start marker and the end marker that follows it. */
  function ReadManaged(text: string): Option<(seq<(string, Setting)>, seq<Section>)> {
    var behind := Behind(Lines(text), START);
    if behind.None? then None
    else
      var block := Before(behind.value, END);
      if block.None? then None else ReadLines(block.value)
  }

  // ---------- Lines ----------

  predicate AllOneLine(lines: seq<string>) { forall i :: 0 <= i < |lines| ==> OneLine(lines[i]) }

  lemma {:induction false} LinesFed(lines: seq<string>)
    requires AllOneLine(lines)
    ensures Lines(Feed(lines)) == lines + [""]
  {
    hide Lines, OneLine;
    if lines == [] {
      NothingBlank();
      assert [] + [""] == [""];
    } else {
      LinesFed(lines[1..]);
      LinesFirst(lines[0], Feed(lines[1..]));
      Regroup3(lines[0], "\n", Feed(lines[1..]));
      assert lines == [lines[0]] + lines[1..];
      Regroup3([lines[0]], lines[1..], [""]);
    }
  }

  /** In front of a text that ends with a line feed there are more lines. */
  lemma {:induction false} LinesBehind(front: string, t: string) returns (ls: seq<string>)
    requires front == "" || front[|front| - 1] == '\n'
    ensures Lines(front + t) == ls + Lines(t)
    decreases |front|
  {
    hide Lines, OneLine;
    if front == "" {
      ls := [];
      assert front + t == t && [] + Lines(t) == Lines(t);
    } else {
      var l, u := CutFirst(front);
      NotOneLine(front);
      assert u == "" || u[|u| - 1] == front[|front| - 1];
      var more := LinesBehind(u, t);
      ls := [l] + more;
      LinesFirst(l, u + t);
      Regroup3(l, "\n" + u, t);
      Regroup3("\n", u, t);
      Regroup3([l], more, Lines(t));
    }
  }

  lemma NotOneLine(s: string)
    requires s != "" && s[|s| - 1] == '\n'
    ensures !OneLine(s)
  {
  }

  lemma {:induction false} BehindLast(front: seq<string>, mark: string, more: seq<string>)
    requires mark !in more
    ensures Behind(front + ([mark] + more), mark) == Some(more)
  {
    if front == [] {
      NoneBehind(more, mark);
      assert front + ([mark] + more) == [mark] + more;
      assert ([mark] + more)[1..] == more;
    } else {
      BehindLast(front[1..], mark, more);
      assert (front + ([mark] + more))[1..] == front[1..] + ([mark] + more);
    }
  }

  lemma {:induction false} NoneBehind(lines: seq<string>, mark: string)
    requires mark !in lines
    ensures Behind(lines, mark).None?
  {
    if lines != [] { NoneBehind(lines[1..], mark); }
  }

  lemma {:induction false} BeforeFirst(lines: seq<string>, mark: string, more: seq<string>)
    requires mark !in lines
    ensures Before(lines + ([mark] + more), mark) == Some(lines)
  {
    if lines == [] {
      assert lines + ([mark] + more) == [mark] + more;
    } else {
      BeforeFirst(lines[1..], mark, more);
      assert (lines + ([mark] + more))[1..] == lines[1..] + ([mark] + more);
      assert lines == [lines[0]] + lines[1..];
    }
  }

  /** A block at the end of a text reads as its own lines. */
  lemma ReadsOwnBlock(front: string, lines: seq<string>)
    requires front == "" || front[|front| - 1] == '\n'
    requires AllOneLine(lines) && START !in lines && END !in lines
    ensures ReadManaged(front + (Block(lines) + "\n")) == ReadLines(lines)
  {
    hide START, END, Lines, OneLine, ReadLines;
    StartLine();
    EndLine();
    var all := [START] + lines + [END];
    BlockFed(lines);
    var before := LinesBehind(front, Feed(all));
    LinesFed(all);
    var tail := [END] + [""];
    assert all + [""] == [START] + (lines + tail);
    assert START !in lines + tail;
    BehindLast(before, START, lines + tail);
    BeforeFirst(lines, END, [""]);
  }

  lemma BlockFed(lines: seq<string>)
    ensures Block(lines) + "\n" == Feed([START] + lines + [END])
  {
    hide START, END;
    JoinIsFeed([START] + lines, END);
    FeedLast([START] + lines, END);
  }

  // ---------- The written block ----------

  lemma LegibleIsPlain(s: string)
    requires Legible(s)
    ensures ConfigResults.PlainText(s)
  {
    assert IsControl('\n') && IsControl('\r');
  }

  lemma {:induction false} BodyIsOneLine(lines: seq<string>)
    requires AllBody(lines)
    ensures AllOneLine(lines)
  {
    hide OneLine;
    if lines != [] {
      BodyIsOneLine(lines[1..]);
      assert forall i :: 0 < i < |lines| ==> lines[i] == lines[1..][i - 1];
    }
  }

  predicate NoComment(l: string) { l == "" || l[0] != '#' }

  lemma Front9(a: string, b: string, c: string, d: string, e: string, f: string, g: string, h: string, i: string)
    requires a != ""
    ensures (a + b + c + d + e + f + g + h + i)[0] == a[0]
  {
  }

  lemma ServerHasNoComment(r: string, p: string, h: string, n: string)
    ensures forall l :: l in ServerBlock(r, p, h, n) ==> NoComment(l)
  {
    var b := ServerBlock(r, p, h, n);
    assert NoComment(b[0]) && NoComment(b[1]) && NoComment(b[2]) && NoComment(b[3]);
    Front9("env = { MISSION_CONTROL_REPO_ROOT = \"", r, "\", MISSION_CONTROL_PYTHON = \"", p,
           "\", MISSION_CONTROL_BACKEND_HOST = \"", h, "\", MISSION_CONTROL_BACKEND_PORT = \"", n, "\" }");
    hide NoComment, ServerBlock;
    forall l | l in b
      ensures NoComment(l)
    {
      var i :| 0 <= i < |b| && b[i] == l;
      assert i == 0 || i == 1 || i == 2 || i == 3 || i == 4;
    }
  }

  lemma PluginHasNoComment(plugin: string)
    ensures forall l :: l in PluginBlock(plugin) ==> NoComment(l)
  {
    var b := PluginBlock(plugin);
    assert NoComment(b[0]) && NoComment(b[1]) && NoComment(b[2]);
  }

  /** No line of the block is a comment, so none is a marker. */
  lemma NoMarkerInside(repo: string, python: string, host: string, port: nat, plugin: Option<string>)
    ensures forall l :: l in BlockLines(repo, python, host, port, plugin) ==> NoComment(l)
  {
    hide TomlEscape, PosixText, Dec, ServerBlock, PluginBlock, NoComment;
    ServerHasNoComment(TomlEscape(PosixText(repo)), TomlEscape(PosixText(python)), TomlEscape(host), Dec(port));
    if plugin.Some? { PluginHasNoComment(TomlEscape(plugin.value)); }
  }

  /** Whatever the configuration held, the block that is written reads back as its arguments: `command` is the
      Python, `cwd` the repository, the environment has both and the server's host and port, and the
      plugin has its table if there is one. */
  lemma WrittenReadsBack(existing: string, repo: string, python: string, host: string, port: nat, plugin: Option<string>)
    requires Legible(repo) && Legible(python) && Legible(host) && (plugin.Some? ==> Legible(plugin.value))
    ensures ReadManaged(Upsert(existing, Block(BlockLines(repo, python, host, port, plugin))))
         == Some(([], Tables(repo, python, host, port, plugin)))
  {
    hide BlockLines, Tables, ReadLines, ReadManaged, Block, StripConfig, START, END, Legible;
    var lines := BlockLines(repo, python, host, port, plugin);
    LegibleIsPlain(repo);
    LegibleIsPlain(python);
    LegibleIsPlain(host);
    if plugin.Some? { LegibleIsPlain(plugin.value); }
    ConfigResults.BlockLinesAreBody(repo, python, host, port, plugin);
    BodyIsOneLine(lines);
    NoMarkerInside(repo, python, host, port, plugin);
    StartLine();
    EndLine();
    ReadBlock(repo, python, host, port, plugin);
    var stripped := StripConfig(existing).0;
    if Strip(stripped) != "" {
      var front := StripRight(stripped) + "\n\n";
      ReadsOwnBlock(front, lines);
      Regroup3(front, Block(lines), "\n");
    } else {
      ReadsOwnBlock("", lines);
      assert "" + (Block(lines) + "\n") == Block(lines) + "\n";
    }
  }
}
