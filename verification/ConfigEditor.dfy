/**
 The managed-block editor of the Codex configuration file: stripping the block that Mission Control
 manages, and putting a fresh one at the end. The two regular expressions are modelled as the
 matchers they denote, with the flags they carry: `^` matches at the start of every line, and `.`
 matches line feeds too.
 */
module ConfigEditor {
  import opened Text

  const START := "# >>> mission-control managed >>>"
  const END := "# <<< mission-control managed <<<"
  const SERVER := "[mcp_servers.\"mission-control\"]"

  // ---------- Matching ----------

  predicate LineStart(text: string, i: nat)
    requires i <= |text|
  {
    i == 0 || text[i - 1] == '\n'
  }

  /** The first position from `i` on that is not white space. */
  function Skip(text: string, i: nat): (j: nat)
    requires i <= |text|
    ensures i <= j <= |text|
    ensures forall k :: i <= k < j ==> IsSpace(text[k])
    ensures j < |text| ==> !IsSpace(text[j])
    decreases |text| - i
  {
    if i < |text| && IsSpace(text[i]) then Skip(text, i + 1) else i
  }

  /** `^\s*START\n` matches at `i`. */
  predicate HeadAt(text: string, i: nat)
    requires i <= |text|
  {
    LineStart(text, i) && At(text, Skip(text, i), START + "\n")
  }

  /** `^\s*END` matches at `p`. */
  predicate FootAt(text: string, p: nat)
    requires p <= |text|
  {
    LineStart(text, p) && At(text, Skip(text, p), END)
  }

  /** Where `.*?^\s*END\s*\n?` ends when it is matched from `p`: after the white space that follows
      the first end marker. */
  function FootEnd(text: string, p: nat): (e: Option<nat>)
    requires p <= |text|
    ensures e.Some? ==> p < e.value <= |text|
    decreases |text| - p
  {
    if FootAt(text, p) then Some(Skip(text, Skip(text, p) + |END|))
    else if p < |text| then FootEnd(text, p + 1)
    else None
  }

  /** The end of a managed block that starts at `i`. */
  function BlockEnd(text: string, i: nat): (e: Option<nat>)
    requires i <= |text|
    ensures e.Some? ==> i < e.value <= |text|
  {
    if HeadAt(text, i) then FootEnd(text, Skip(text, i) + |START| + 1) else None
  }

  /** `pattern.subn("", text)` for the managed block, from position `i` on */
  function RemoveBlocks(text: string, i: nat): (r: (string, nat))
    requires i <= |text|
    decreases |text| - i
  {
    if i == |text| then ("", 0)
    else
      var e := BlockEnd(text, i);
      if e.Some? then
        var rest := RemoveBlocks(text, e.value);
        (rest.0, rest.1 + 1)
      else
        var rest := RemoveBlocks(text, i + 1);
        ([text[i]] + rest.0, rest.1)
  }

  /** The server table's header line stands at `i`. */
  predicate ServerAt(text: string, i: nat)
    requires i <= |text|
  {
    LineStart(text, i) && At(text, i, SERVER + "\n")
  }

  /** The end of the server table at `i`: the header alone if the next line opens a table, and
      otherwise, as the dot runs across line feeds, the end of the text. */
  function ServerEnd(text: string, i: nat): (e: nat)
    requires i <= |text| && ServerAt(text, i)
    ensures i < e <= |text|
  {
    var j := i + |SERVER| + 1;
    if j < |text| && text[j] == '[' then j else |text|
  }

  function RemoveServers(text: string, i: nat): (r: (string, nat))
    requires i <= |text|
    decreases |text| - i
  {
    if i == |text| then ("", 0)
    else if ServerAt(text, i) then
      var rest := RemoveServers(text, ServerEnd(text, i));
      (rest.0, rest.1 + 1)
    else
      var rest := RemoveServers(text, i + 1);
      ([text[i]] + rest.0, rest.1)
  }

  /** The number of line feeds that start `s`. */
  function Feeds(s: string): (n: nat)
    ensures n <= |s| && (forall i :: 0 <= i < n ==> s[i] == '\n') && (n < |s| ==> s[n] != '\n')
  {
    if s == "" || s[0] != '\n' then 0 else 1 + Feeds(s[1..])
  }

  /** `re.sub(r"\n{3,}", "\n\n", s)` */
  function Collapse(s: string): string
    decreases |s|
  {
    if s == "" then ""
    else if s[0] == '\n' then (if Feeds(s) >= 2 then "\n\n" else "\n") + Collapse(s[Feeds(s)..])
    else [s[0]] + Collapse(s[1..])
  }

  /** `text.replace("\r\n", "\n")` */
  function PlainFeeds(s: string): string
    decreases |s|
  {
    if s == "" then ""
    else if |s| > 1 && s[0] == '\r' && s[1] == '\n' then "\n" + PlainFeeds(s[2..])
    else [s[0]] + PlainFeeds(s[1..])
  }

  /** What reading a file in text mode makes of line ends. */
  function UniversalNewlines(s: string): (r: string)
    ensures forall i :: 0 <= i < |r| ==> r[i] != '\r'
    decreases |s|
  {
    if s == "" then ""
    else if s[0] == '\r' then "\n" + UniversalNewlines(s[if |s| > 1 && s[1] == '\n' then 2 else 1..])
    else [s[0]] + UniversalNewlines(s[1..])
  }

  // ---------- The operations ----------

  /** The tail of `strip_mission_control_config`: at most one blank line in a row, no white space
      around, one line feed at the end. */
  function Tidy(s: string): string {
    var t := Strip(Collapse(s));
    if t == "" then "" else t + "\n"
  }

  /** The text without managed blocks and server tables, and whether there were any. */
  function StripConfig(text: string): (string, bool) {
    var (plain, blocks) := RemoveBlocks(PlainFeeds(text), 0);
    var (bare, servers) := RemoveServers(plain, 0);
    (Tidy(bare), blocks > 0 || servers > 0)
  }

  function TomlEscape(s: string): string { ReplaceChar(ReplaceChar(s, '\\', "\\\\"), '"', "\\\"") }

  function PosixText(s: string): string { ReplaceChar(s, '\\', "/") }

  /** The server's table. */
  function ServerBlock(repo: string, python: string, host: string, port: string): seq<string> {
    [ SERVER,
      "command = \"" + python + "\"",
      "args = [\"scripts/" + "serve-mission-control-mcp.py\"]",
      "cwd = \"" + repo + "\"",
      "env = { MISSION_CONTROL_REPO_ROOT = \"" + repo + "\", MISSION_CONTROL_PYTHON = \"" + python
        + "\", MISSION_CONTROL_BACKEND_HOST = \"" + host + "\", MISSION_CONTROL_BACKEND_PORT = \"" + port + "\" }" ]
  }

  function PluginBlock(plugin: string): seq<string> { ["", "[plugins.\"" + plugin + "\"]", "enabled = true"] }

  /** The lines between the markers. `repo` and `python` are the resolved paths. */
  function BlockLines(repo: string, python: string, host: string, port: nat, plugin: Option<string>): seq<string> {
    ServerBlock(TomlEscape(PosixText(repo)), TomlEscape(PosixText(python)), TomlEscape(host), Dec(port))
    + if plugin.Some? && plugin.value != "" then PluginBlock(TomlEscape(plugin.value)) else []
  }

  function Block(lines: seq<string>): string { Join([START] + lines + [END], "\n") }

  /** A stripped text with a block at its end. */
  function NewText(stripped: string, block: string): string {
    if Strip(stripped) != "" then StripRight(stripped) + "\n\n" + block + "\n" else block + "\n"
  }

  /** The new configuration text. */
  function Upsert(existing: string, block: string): string { NewText(StripConfig(existing).0, block) }
}
