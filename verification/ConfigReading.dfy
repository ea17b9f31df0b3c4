/**
 A reader for the lines of a configuration, independent of the writer: table headers, keys, basic strings
 with their escapes, lists of strings and inline tables of strings (TOML 1.0.0). And what it reads off the
 block that Mission Control writes.
 */
module ConfigReading {
  import opened Text
  import opened ConfigEditor

  // ---------- Values ----------

  datatype Setting = Words(text: string) | Flag(on: bool) | Several(texts: seq<string>) | Table(fields: seq<(string, string)>)

  /** What a line says. */
  datatype Line = Nothing | Header(path: seq<string>) | Pair(key: string, value: Setting)

  datatype Section = Section(path: seq<string>, settings: seq<(string, Setting)>)

  /** Control characters, which a string must not hold; a tab is none. */
  predicate IsControl(c: char) { (c < ' ' && c != '\t') || c == '\U{7f}' }

  function Prepend(c: char, r: Option<(string, string)>): Option<(string, string)> {
    if r.None? then None else Some(([c] + r.value.0, r.value.1))
  }

  /** The character that a backslash and this one stand for. */
  function Escape(c: char): Option<char> {
    if c == '"' || c == '\\' then Some(c)
    else if c == 'b' then Some('\U{08}')
    else if c == 't' then Some('\t')
    else if c == 'n' then Some('\n')
    else if c == 'f' then Some('\U{0c}')
    else if c == 'r' then Some('\r')
    else None
  }

  /** The rest of a string whose opening quote has been read, and what stands behind the closing one. */
  function ReadRest(s: string): Option<(string, string)> {
    if s == "" then None
    else if s[0] == '"' then Some(("", s[1..]))
    else if s[0] == '\\' then
      if |s| == 1 || Escape(s[1]).None? then None else Prepend(Escape(s[1]).value, ReadRest(s[2..]))
    else if IsControl(s[0]) then None
    else Prepend(s[0], ReadRest(s[1..]))
  }

  function ReadString(s: string): Option<(string, string)> {
    if s == "" || s[0] != '"' then None else ReadRest(s[1..])
  }

  predicate IsBare(c: char) { 'A' <= c <= 'Z' || 'a' <= c <= 'z' || '0' <= c <= '9' || c == '_' || c == '-' }

  /** A run of characters that may stand in a key without quotes. */
  function BareLength(s: string): (n: nat)
    ensures n <= |s|
  {
    if s == "" || !IsBare(s[0]) then 0 else 1 + BareLength(s[1..])
  }

  function ReadKey(s: string): Option<(string, string)> {
    if s != "" && s[0] == '"' then ReadString(s)
    else if BareLength(s) == 0 then None
    else Some((s[..BareLength(s)], s[BareLength(s)..]))
  }

  /** `text` and what stands behind it. */
  function Expect(s: string, text: string): Option<string> { if text <= s then Some(s[|text|..]) else None }

  /** The keys of a header, up to its bracket. */
  function ReadPath(s: string): Option<seq<string>>
    decreases |s|
  {
    var key := ReadKey(s);
    if key.None? then None
    else if key.value.1 == "]" then Some([key.value.0])
    else if |key.value.1| >= |s| || Expect(key.value.1, ".").None? then None
    else
      var more := ReadPath(key.value.1[1..]);
      if more.None? then None else Some([key.value.0] + more.value)
  }

  function ReadField(s: string): Option<((string, string), string)> {
    var key := ReadKey(s);
    if key.None? || Expect(key.value.1, " = ").None? then None
    else
      var value := ReadString(Expect(key.value.1, " = ").value);
      if value.None? then None else Some(((key.value.0, value.value.0), value.value.1))
  }

  /** The fields of an inline table, up to its brace. */
  function ReadFields(s: string): Option<seq<(string, string)>>
    decreases |s|
  {
    var field := ReadField(s);
    if field.None? then None
    else if field.value.1 == " }" then Some([field.value.0])
    else if |field.value.1| >= |s| || Expect(field.value.1, ", ").None? then None
    else
      var more := ReadFields(field.value.1[2..]);
      if more.None? then None else Some([field.value.0] + more.value)
  }

  /** The strings of a list, up to its bracket. */
  function ReadTexts(s: string): Option<seq<string>>
    decreases |s|
  {
    var text := ReadString(s);
    if text.None? then None
    else if text.value.1 == "]" then Some([text.value.0])
    else if |text.value.1| >= |s| || Expect(text.value.1, ", ").None? then None
    else
      var more := ReadTexts(text.value.1[2..]);
      if more.None? then None else Some([text.value.0] + more.value)
  }

  function ReadSetting(s: string): Option<Setting> {
    if s == "true" then Some(Flag(true))
    else if s == "false" then Some(Flag(false))
    else if Expect(s, "\"").Some? then
      var text := ReadString(s);
      if text.Some? && text.value.1 == "" then Some(Words(text.value.0)) else None
    else if Expect(s, "[").Some? then
      var texts := ReadTexts(s[1..]);
      if texts.None? then None else Some(Several(texts.value))
    else if Expect(s, "{ ").Some? then
      var fields := ReadFields(s[2..]);
      if fields.None? then None else Some(Table(fields.value))
    else None
  }

  function ReadLine(line: string): Option<Line> {
    if line == "" then Some(Nothing)
    else if Expect(line, "[").Some? then
      var path := ReadPath(line[1..]);
      if path.None? then None else Some(Header(path.value))
    else
      var key := ReadKey(line);
      if key.None? || Expect(key.value.1, " = ").None? then None
      else
        var value := ReadSetting(Expect(key.value.1, " = ").value);
        if value.None? then None else Some(Pair(key.value.0, value.value))
  }

  /** The settings before the first header, and the tables that follow. */
  function ReadLines(lines: seq<string>): Option<(seq<(string, Setting)>, seq<Section>)> {
    if lines == [] then Some(([], []))
    else
      var line, more := ReadLine(lines[0]), ReadLines(lines[1..]);
      if line.None? || more.None? then None
      else match line.value
        case Nothing => more
        case Header(path) => Some(([], [Section(path, more.value.0)] + more.value.1))
        case Pair(key, value) => Some(([(key, value)] + more.value.0, more.value.1))
  }

  // ---------- Escaping ----------

  /** The text may stand in a string. */
  predicate Legible(s: string) { forall i :: 0 <= i < |s| ==> !IsControl(s[i]) }

  function EscapeOne(c: char): string { if c == '\\' then "\\\\" else if c == '"' then "\\\"" else [c] }

  lemma ReplaceCharFirst(c: char, t: string, d: char, sub: string)
    ensures ReplaceChar([c] + t, d, sub) == (if c == d then sub else [c]) + ReplaceChar(t, d, sub)
  {
    assert ([c] + t)[1..] == t;
  }

  lemma TomlEscapeFirst(c: char, t: string)
    ensures TomlEscape([c] + t) == EscapeOne(c) + TomlEscape(t)
  {
    var u := ReplaceChar(t, '\\', "\\\\");
    ReplaceCharFirst(c, t, '\\', "\\\\");
    if c == '\\' {
      assert "\\\\" + u == ['\\'] + (['\\'] + u);
      ReplaceCharFirst('\\', ['\\'] + u, '"', "\\\"");
      ReplaceCharFirst('\\', u, '"', "\\\"");
      assert ['\\'] + (['\\'] + TomlEscape(t)) == "\\\\" + TomlEscape(t);
    } else {
      ReplaceCharFirst(c, u, '"', "\\\"");
    }
  }

  lemma ReadOne(c: char, later: string)
    ensures ReadRest(EscapeOne(c) + later) == if IsControl(c) then None else Prepend(c, ReadRest(later))
  {
    var s := EscapeOne(c) + later;
    if c == '\\' || c == '"' { assert s[2..] == later; } else { assert s[1..] == later; }
  }

  /** A string reads back as it was before escaping, if and only if it is legible. */
  lemma {:induction false} ReadEscaped(s: string, rest: string)
    ensures ReadRest(TomlEscape(s) + ("\"" + rest)) == if Legible(s) then Some((s, rest)) else None
  {
    if s == "" {
      assert TomlEscape(s) + ("\"" + rest) == "\"" + rest;
      assert ("\"" + rest)[1..] == rest;
    } else {
      hide ReadRest, EscapeOne, TomlEscape, IsControl;
      var later := TomlEscape(s[1..]) + ("\"" + rest);
      assert s == [s[0]] + s[1..];
      TomlEscapeFirst(s[0], s[1..]);
      ReadEscaped(s[1..], rest);
      Regroup3(EscapeOne(s[0]), TomlEscape(s[1..]), "\"" + rest);
      ReadOne(s[0], later);
      LegibleFirst(s);
    }
  }

  lemma LegibleFirst(s: string)
    requires s != ""
    ensures Legible(s) <==> !IsControl(s[0]) && Legible(s[1..])
  {
    hide IsControl;
    assert forall i :: 0 < i < |s| ==> s[i] == s[1..][i - 1];
  }

  lemma ReadQuoted(s: string, rest: string)
    ensures ReadString("\"" + (TomlEscape(s) + ("\"" + rest))) == if Legible(s) then Some((s, rest)) else None
  {
    hide ReadRest, TomlEscape;
    ReadEscaped(s, rest);
    assert ("\"" + (TomlEscape(s) + ("\"" + rest)))[1..] == TomlEscape(s) + ("\"" + rest);
  }

  /** A text that needs no escapes. */
  predicate NoEscapes(s: string) { forall i :: 0 <= i < |s| ==> s[i] != '\\' && s[i] != '"' }

  lemma {:induction false} EscapesNothing(s: string)
    requires NoEscapes(s)
    ensures TomlEscape(s) == s
  {
    if s != "" {
      hide TomlEscape;
      assert s == [s[0]] + s[1..];
      TomlEscapeFirst(s[0], s[1..]);
      EscapesNothing(s[1..]);
    } else {
      assert TomlEscape("") == "";
    }
  }

  // ---------- Keys and lines ----------

  predicate AllBare(key: string) { key != "" && forall i :: 0 <= i < |key| ==> IsBare(key[i]) }

  lemma {:induction false} BareBehind(key: string, rest: string)
    requires (forall i :: 0 <= i < |key| ==> IsBare(key[i])) && (rest == "" || !IsBare(rest[0]))
    ensures BareLength(key + rest) == |key|
  {
    hide IsBare;
    if key == "" {
      assert key + rest == rest;
    } else {
      assert (key + rest)[1..] == key[1..] + rest;
      BareBehind(key[1..], rest);
    }
  }

  lemma ReadBareKey(key: string, rest: string)
    requires AllBare(key) && rest != "" && !IsBare(rest[0])
    ensures ReadKey(key + rest) == Some((key, rest))
  {
    hide BareLength;
    BareBehind(key, rest);
    assert (key + rest)[..|key|] == key && (key + rest)[|key|..] == rest;
    assert IsBare(key[0]);
  }

  lemma Expected(text: string, rest: string)
    ensures Expect(text + rest, text) == Some(rest)
  {
    assert (text + rest)[..|text|] == text;
  }

  /** `key = "value"` */
  function FieldText(key: string, value: string): string { key + (" = " + ("\"" + (TomlEscape(value) + "\""))) }

  function FieldsText(fields: seq<(string, string)>): string {
    if fields == [] then ""
    else if |fields| == 1 then FieldText(fields[0].0, fields[0].1) + " }"
    else FieldText(fields[0].0, fields[0].1) + (", " + FieldsText(fields[1..]))
  }

  lemma FieldBehind(key: string, value: string, rest: string)
    ensures FieldText(key, value) + rest == key + (" = " + ("\"" + (TomlEscape(value) + ("\"" + rest))))
  {
    hide TomlEscape;
    var e := TomlEscape(value);
    Regroup3(key, " = " + ("\"" + (e + "\"")), rest);
    Regroup3(" = ", "\"" + (e + "\""), rest);
    Regroup3("\"", e + "\"", rest);
    Regroup3(e, "\"", rest);
  }

  lemma KeyThen(key: string, behind: string)
    requires AllBare(key)
    ensures ReadKey(key + (" = " + behind)) == Some((key, " = " + behind))
    ensures Expect(" = " + behind, " = ") == Some(behind)
  {
    hide ReadKey, AllBare;
    ReadBareKey(key, " = " + behind);
    Expected(" = ", behind);
  }

  lemma ReadFieldText(key: string, value: string, rest: string)
    requires AllBare(key)
    ensures ReadField(FieldText(key, value) + rest) == if Legible(value) then Some(((key, value), rest)) else None
  {
    hide TomlEscape, ReadKey, ReadString, Expect, AllBare, Legible, FieldText;
    var behind := "\"" + (TomlEscape(value) + ("\"" + rest));
    FieldBehind(key, value, rest);
    KeyThen(key, behind);
    ReadQuoted(value, rest);
  }

  ghost predicate AllLegible(fields: seq<(string, string)>) { forall i :: 0 <= i < |fields| ==> Legible(fields[i].1) }

  /** An inline table reads back if and only if all its values are legible. */
  lemma {:induction false} ReadFieldsText(fields: seq<(string, string)>)
    requires fields != [] && forall i :: 0 <= i < |fields| ==> AllBare(fields[i].0)
    ensures ReadFields(FieldsText(fields)) == if AllLegible(fields) then Some(fields) else None
  {
    hide ReadField, FieldText, Legible, AllBare, Expect;
    var (key, value) := fields[0];
    if |fields| == 1 {
      assert fields == [(key, value)];
      ReadFieldText(key, value, " }");
    } else {
      var more := fields[1..];
      var behind := ", " + FieldsText(more);
      ReadFieldText(key, value, behind);
      Expected(", ", FieldsText(more));
      ReadFieldsText(more);
      AllLegibleFirst(fields);
      FieldLong(key, value);
      FieldsStep(FieldText(key, value) + behind, (key, value), FieldsText(more));
      assert fields == [(key, value)] + more;
    }
  }

  lemma AllLegibleFirst(fields: seq<(string, string)>)
    requires fields != []
    ensures AllLegible(fields) <==> Legible(fields[0].1) && AllLegible(fields[1..])
  {
    hide Legible;
    var more := fields[1..];
    assert forall i :: 0 <= i < |more| ==> more[i] == fields[i + 1];
    assert forall i :: 0 < i < |fields| ==> fields[i] == more[i - 1];
  }

  lemma FieldLong(key: string, value: string)
    ensures |FieldText(key, value)| > 2
  {
    hide TomlEscape;
  }

  lemma FieldsStep(s: string, field: (string, string), more: string)
    requires |s| > |more| + 2
    ensures ReadField(s) == Some((field, ", " + more)) ==>
              ReadFields(s) == if ReadFields(more).None? then None else Some([field] + ReadFields(more).value)
    ensures ReadField(s).None? ==> ReadFields(s).None?
  {
    hide ReadField;
    assert (", " + more)[2..] == more;
    assert (", " + more)[0] != " }"[0];
    Expected(", ", more);
  }

  /** A line with a text. */
  lemma ReadTextLine(key: string, value: string)
    requires AllBare(key)
    ensures ReadLine(FieldText(key, value)) == if Legible(value) then Some(Pair(key, Words(value))) else None
  {
    hide TomlEscape, ReadKey, ReadString, AllBare, Legible, FieldText;
    var behind := "\"" + (TomlEscape(value) + ("\"" + ""));
    FieldBehind(key, value, "");
    assert FieldText(key, value) + "" == FieldText(key, value);
    KeyThen(key, behind);
    ReadQuoted(value, "");
    NoBracket(key, " = " + behind);
    NotOther(behind);
  }

  lemma OtherStart(text: string, s: string)
    requires text != "" && s != "" && text[0] != s[0]
    ensures Expect(s, text).None?
  {
  }

  lemma NoBracket(key: string, rest: string)
    requires AllBare(key)
    ensures key + rest != "" && Expect(key + rest, "[").None?
  {
    assert (key + rest)[0] == key[0] && IsBare(key[0]);
    OtherStart("[", key + rest);
  }

  lemma NotOther(behind: string)
    requires behind != "" && behind[0] == '"'
    ensures behind != "true" && behind != "false" && Expect(behind, "\"").Some?
  {
    assert behind[..1] == "\"";
  }

  /** A line with an inline table. */
  lemma ReadTableLine(key: string, fields: seq<(string, string)>)
    requires AllBare(key) && fields != [] && forall i :: 0 <= i < |fields| ==> AllBare(fields[i].0)
    ensures ReadLine(key + (" = " + ("{ " + FieldsText(fields))))
         == if AllLegible(fields) then Some(Pair(key, Table(fields))) else None
  {
    hide ReadKey, AllBare, AllLegible, FieldsText, ReadFields;
    var behind := "{ " + FieldsText(fields);
    KeyThen(key, behind);
    NoBracket(key, " = " + behind);
    ReadFieldsText(fields);
    assert behind[2..] == FieldsText(fields);
    assert behind[0] == '{';
    Expected("{ ", FieldsText(fields));
    OnlyBrace(behind);
  }

  lemma OnlyBrace(behind: string)
    requires behind != "" && behind[0] == '{'
    ensures behind != "true" && behind != "false" && Expect(behind, "\"").None? && Expect(behind, "[").None?
  {
    OtherStart("\"", behind);
    OtherStart("[", behind);
  }

  /** A line with a list of one text. */
  lemma ReadListLine(key: string, value: string)
    requires AllBare(key) && Legible(value)
    ensures ReadLine(key + (" = " + ("[" + ("\"" + (TomlEscape(value) + ("\"" + "]")))))) == Some(Pair(key, Several([value])))
  {
    hide TomlEscape, ReadKey, ReadString, AllBare, Legible;
    var text := "\"" + (TomlEscape(value) + ("\"" + "]"));
    var behind := "[" + text;
    KeyThen(key, behind);
    NoBracket(key, " = " + behind);
    ReadQuoted(value, "]");
    assert behind[1..] == text;
    Expected("[", text);
    OnlyBracket(behind);
  }

  lemma OnlyBracket(behind: string)
    requires behind != "" && behind[0] == '['
    ensures behind != "true" && behind != "false" && Expect(behind, "\"").None?
  {
    OtherStart("\"", behind);
  }

  /** The header of a table with a quoted name. */
  lemma ReadHeaderLine(table: string, name: string)
    requires AllBare(table)
    ensures ReadLine("[" + (table + ("." + ("\"" + (TomlEscape(name) + ("\"" + "]"))))))
         == if Legible(name) then Some(Header([table, name])) else None
  {
    hide TomlEscape, ReadString, Legible, ReadKey, ReadPath;
    var quoted := "\"" + (TomlEscape(name) + ("\"" + "]"));
    var path := table + ("." + quoted);
    var line := "[" + path;
    assert line[1..] == path;
    Expected("[", path);
    ReadBareKey(table, "." + quoted);
    ReadQuoted(name, "]");
    ReadQuotedKey(quoted);
    LastKey(quoted, name);
    MoreKeys(path, table, quoted);
    assert [table] + [name] == [table, name];
  }

  lemma LastKey(s: string, name: string)
    ensures ReadKey(s) == Some((name, "]")) ==> ReadPath(s) == Some([name])
    ensures ReadKey(s).None? ==> ReadPath(s).None?
  {
    hide ReadKey;
  }

  lemma MoreKeys(s: string, key: string, more: string)
    requires ReadKey(s) == Some((key, "." + more)) && |more| + 1 < |s|
    ensures ReadPath(s) == if ReadPath(more).None? then None else Some([key] + ReadPath(more).value)
  {
    hide ReadKey;
    assert ("." + more)[1..] == more;
    assert ("." + more)[0] != "]"[0];
    Expected(".", more);
  }

  lemma ReadQuotedKey(s: string)
    requires s != "" && s[0] == '"'
    ensures ReadKey(s) == ReadString(s)
  {
  }

  // ---------- The block that is written ----------

  /** Slashes for backslashes, and nothing else. */
  lemma {:induction false} PosixTextIs(s: string)
    ensures |PosixText(s)| == |s|
    ensures forall i :: 0 <= i < |s| ==> PosixText(s)[i] == if s[i] == '\\' then '/' else s[i]
    ensures Legible(PosixText(s)) <==> Legible(s)
  {
    if s != "" {
      PosixTextIs(s[1..]);
      assert forall i :: 0 < i < |s| ==> s[i] == s[1..][i - 1];
      LegibleFirst(s);
      LegibleFirst(PosixText(s));
      assert PosixText(s)[1..] == PosixText(s[1..]);
    }
  }

  const SCRIPT := "scripts/" + "serve-mission-control-mcp.py"

  /** The settings of the server's table. */
  function ServerSettings(repo: string, python: string, host: string, port: string): seq<(string, Setting)> {
    [ ("command", Words(python)), ("args", Several([SCRIPT])), ("cwd", Words(repo)),
      ("env", Table(Environment(repo, python, host, port))) ]
  }

  function Environment(repo: string, python: string, host: string, port: string): seq<(string, string)> {
    [ ("MISSION_CONTROL_REPO_ROOT", repo), ("MISSION_CONTROL_PYTHON", python),
      ("MISSION_CONTROL_BACKEND_HOST", host), ("MISSION_CONTROL_BACKEND_PORT", port) ]
  }

  /** The tables of the block: the server's, and the plugin's if there is one. */
  function Tables(repo: string, python: string, host: string, port: nat, plugin: Option<string>): seq<Section> {
    [Section(["mcp_servers", "mission-control"], ServerSettings(PosixText(repo), PosixText(python), host, Dec(port)))]
    + if plugin.Some? && plugin.value != "" then [Section(["plugins", plugin.value], [("enabled", Flag(true))])] else []
  }

  lemma BareKeys()
    ensures AllBare("command") && AllBare("args") && AllBare("cwd") && AllBare("env")
    ensures AllBare("mcp_servers") && AllBare("plugins") && AllBare("enabled")
  {
  }

  lemma BareNames()
    ensures AllBare("MISSION_CONTROL_REPO_ROOT") && AllBare("MISSION_CONTROL_PYTHON")
  {
  }

  lemma BareBackend()
    ensures AllBare("MISSION_CONTROL_BACKEND_HOST") && AllBare("MISSION_CONTROL_BACKEND_PORT")
  {
  }

  lemma DecNeedsNoEscapes(n: nat)
    ensures NoEscapes(Dec(n)) && Legible(Dec(n))
  {
    var d := Dec(n);
    forall i | 0 <= i < |d|
      ensures d[i] != '\\' && d[i] != '"' && !IsControl(d[i])
    {
      assert IsDigit(d[i]);
    }
  }

  lemma ScriptIsPlain()
    ensures NoEscapes(SCRIPT) && Legible(SCRIPT)
  {
  }

  lemma NameIsPlain()
    ensures NoEscapes("mission-control") && Legible("mission-control")
  {
  }

  lemma TextLineIs(key: string, value: string)
    ensures key + " = \"" + TomlEscape(value) + "\"" == FieldText(key, value)
  {
    hide TomlEscape;
    var e := TomlEscape(value);
    assert " = \"" == " = " + "\"";
    Regroup(key, " = \"", e, "\"");
    Regroup3(" = ", "\"", e + "\"");
  }

  lemma ServerText()
    ensures "[" + ("mcp_servers" + ("." + ("\"" + ("mission-control" + ("\"" + "]"))))) == SERVER
  {
  }

  lemma ReadServerHeader()
    ensures ReadLine(SERVER) == Some(Header(["mcp_servers", "mission-control"]))
  {
    hide ReadLine, TomlEscape, AllBare, NoEscapes, Legible, SERVER;
    BareKeys();
    NameIsPlain();
    EscapesNothing("mission-control");
    ReadHeaderLine("mcp_servers", "mission-control");
    ServerText();
  }

  lemma ReadArgs()
    ensures ReadLine("args = [\"scripts/" + "serve-mission-control-mcp.py\"]") == Some(Pair("args", Several([SCRIPT])))
  {
    hide ReadLine, TomlEscape, AllBare, NoEscapes, Legible, SCRIPT;
    BareKeys();
    ScriptIsPlain();
    EscapesNothing(SCRIPT);
    ReadListLine("args", SCRIPT);
    ArgsText();
  }

  lemma ScriptText()
    ensures SCRIPT == "scripts/" + "serve-mission-control-mcp.py"
    ensures "serve-mission-control-mcp.py\"]" == "serve-mission-control-mcp.py" + ("\"" + "]")
  {
  }

  lemma ArgsFront()
    ensures "args = [\"scripts/" == "args" + (" = " + ("[" + ("\"" + "scripts/")))
  {
  }

  lemma ArgsText()
    ensures "args" + (" = " + ("[" + ("\"" + (SCRIPT + ("\"" + "]"))))) == "args = [\"scripts/" + "serve-mission-control-mcp.py\"]"
  {
    hide SCRIPT;
    ScriptText();
    ArgsFront();
    ArgsPieces("args", " = ", "[", "\"", "scripts/", "serve-mission-control-mcp.py", "]");
  }

  lemma ArgsPieces(k: string, e: string, o: string, q: string, a: string, b: string, z: string)
    ensures k + (e + (o + (q + ((a + b) + (q + z))))) == (k + (e + (o + (q + a)))) + (b + (q + z))
  {
    Regroup3(a, b, q + z);
    Regroup3(q, a, b + (q + z));
    Regroup3(o, q + a, b + (q + z));
    Regroup3(e, o + (q + a), b + (q + z));
    Regroup3(k, e + (o + (q + a)), b + (q + z));
  }

  /** The line of the environment, as the writer puts it together. */
  lemma EnvironmentText(r: string, p: string, h: string, n: string)
    requires NoEscapes(n)
    ensures "env = { MISSION_CONTROL_REPO_ROOT = \"" + TomlEscape(r) + "\", MISSION_CONTROL_PYTHON = \"" + TomlEscape(p)
              + "\", MISSION_CONTROL_BACKEND_HOST = \"" + TomlEscape(h) + "\", MISSION_CONTROL_BACKEND_PORT = \"" + n + "\" }"
         == "env" + (" = " + ("{ " + FieldsText(Environment(r, p, h, n))))
  {
    hide TomlEscape, FieldText, FieldsText;
    EscapesNothing(n);
    var a, b, c, d := "MISSION_CONTROL_REPO_ROOT", "MISSION_CONTROL_PYTHON",
                      "MISSION_CONTROL_BACKEND_HOST", "MISSION_CONTROL_BACKEND_PORT";
    FourFields(a, r, b, p, c, h, d, n);
    FieldQuoted(a, r);
    FieldQuoted(b, p);
    FieldQuoted(c, h);
    FieldQuoted(d, n);
    EnvironmentPieces(TomlEscape(r), TomlEscape(p), TomlEscape(h), n);
  }

  lemma FieldQuoted(key: string, value: string)
    ensures FieldText(key, value) == key + " = \"" + TomlEscape(value) + "\""
  {
    hide TomlEscape;
    TextLineIs(key, value);
  }

  lemma FourFields(a: string, r: string, b: string, p: string, c: string, h: string, d: string, n: string)
    ensures FieldsText([(a, r), (b, p), (c, h), (d, n)])
         == FieldText(a, r) + (", " + (FieldText(b, p) + (", " + (FieldText(c, h) + (", " + (FieldText(d, n) + " }"))))))
  {
    hide FieldText;
    FieldsMore((a, r), [(b, p), (c, h), (d, n)]);
    FieldsMore((b, p), [(c, h), (d, n)]);
    FieldsMore((c, h), [(d, n)]);
    assert [(a, r)] + [(b, p), (c, h), (d, n)] == [(a, r), (b, p), (c, h), (d, n)];
    assert [(b, p)] + [(c, h), (d, n)] == [(b, p), (c, h), (d, n)];
    assert [(c, h)] + [(d, n)] == [(c, h), (d, n)];
  }

  lemma FieldsMore(f: (string, string), more: seq<(string, string)>)
    requires more != []
    ensures FieldsText([f] + more) == FieldText(f.0, f.1) + (", " + FieldsText(more))
  {
    hide FieldText;
    assert ([f] + more)[1..] == more;
  }

  /** The end of one field and the beginning of the next. */
  lemma FieldStep(x: string, a: string, q: string, r: string, t: string, c: string, b: string)
    ensures x + (a + q) + r + (t + (c + (b + q))) == (x + (a + q + r + t) + c) + (b + q)
  {
  }

  lemma FieldEnd(x: string, a: string, q: string, r: string, t: string, z: string)
    ensures x + (a + q) + r + (t + z) == x + (a + q + r + t) + z
  {
  }

  lemma FourJoined(k: string, e: string, o: string, c: string, f1: string, f2: string, f3: string, f4: string, z: string)
    ensures (k + (e + o)) + f1 + c + f2 + c + f3 + c + f4 + z
         == k + (e + (o + (f1 + (c + (f2 + (c + (f3 + (c + (f4 + z)))))))))
  {
    var w3 := f3 + (c + (f4 + z));
    var w2 := f2 + (c + w3);
    Regroup((k + (e + o)) + f1 + c + f2 + c + f3, c, f4, z);
    Regroup((k + (e + o)) + f1 + c + f2, c, f3, c + (f4 + z));
    Regroup((k + (e + o)) + f1, c, f2, c + w3);
    Regroup3(k + (e + o), f1, c + w2);
    Regroup3(k, e + o, f1 + (c + w2));
    Regroup3(e, o, f1 + (c + w2));
  }

  /** The same pieces, grouped by field. */
  lemma EnvironmentPieces(r: string, p: string, h: string, n: string)
    ensures "env = { MISSION_CONTROL_REPO_ROOT = \"" + r + "\", MISSION_CONTROL_PYTHON = \"" + p
              + "\", MISSION_CONTROL_BACKEND_HOST = \"" + h + "\", MISSION_CONTROL_BACKEND_PORT = \"" + n + "\" }"
         == "env" + (" = " + ("{ " + (("MISSION_CONTROL_REPO_ROOT" + " = \"" + r + "\"") + (", "
              + (("MISSION_CONTROL_PYTHON" + " = \"" + p + "\"") + (", "
              + (("MISSION_CONTROL_BACKEND_HOST" + " = \"" + h + "\"") + (", "
              + (("MISSION_CONTROL_BACKEND_PORT" + " = \"" + n + "\"") + " }")))))))))
  {
    FirstPiece();
    PythonPiece();
    HostPiece();
    PortPiece();
    assert "\" }" == "\"" + " }";
    FieldsGlued("env", " = ", "{ ", ", ", " = \"", "\"", " }", "MISSION_CONTROL_REPO_ROOT", "MISSION_CONTROL_PYTHON",
                "MISSION_CONTROL_BACKEND_HOST", "MISSION_CONTROL_BACKEND_PORT", r, p, h, n);
  }

  lemma FieldsGlued(k: string, e: string, o: string, c: string, q: string, t: string, z: string,
                    a: string, b: string, d: string, g: string, r: string, p: string, h: string, n: string)
    ensures (k + (e + o)) + (a + q) + r + (t + (c + (b + q))) + p + (t + (c + (d + q))) + h + (t + (c + (g + q))) + n + (t + z)
         == k + (e + (o + ((a + q + r + t) + (c + ((b + q + p + t) + (c + ((d + q + h + t) + (c + ((g + q + n + t) + z)))))))))
  {
    var x1 := k + (e + o);
    var x2 := x1 + (a + q + r + t) + c;
    var x3 := x2 + (b + q + p + t) + c;
    var x4 := x3 + (d + q + h + t) + c;
    FieldStep(x1, a, q, r, t, c, b);
    FieldStep(x2, b, q, p, t, c, d);
    FieldStep(x3, d, q, h, t, c, g);
    FieldEnd(x4, g, q, n, t, z);
    FourJoined(k, e, o, c, a + q + r + t, b + q + p + t, d + q + h + t, g + q + n + t, z);
  }

  lemma FirstPiece()
    ensures "env = { MISSION_CONTROL_REPO_ROOT = \"" == ("env" + (" = " + "{ ")) + ("MISSION_CONTROL_REPO_ROOT" + " = \"")
  {
  }

  lemma PythonPiece()
    ensures "\", MISSION_CONTROL_PYTHON = \"" == "\"" + (", " + ("MISSION_CONTROL_PYTHON" + " = \""))
  {
  }

  lemma HostPiece()
    ensures "\", MISSION_CONTROL_BACKEND_HOST = \"" == "\"" + (", " + ("MISSION_CONTROL_BACKEND_HOST" + " = \""))
  {
    assert "\", MISSION_CONTROL_BACKEND_HOST" == "\", " + "MISSION_CONTROL_BACKEND_HOST";
    assert "\", " == "\"" + ", ";
  }

  lemma PortPiece()
    ensures "\", MISSION_CONTROL_BACKEND_PORT = \"" == "\"" + (", " + ("MISSION_CONTROL_BACKEND_PORT" + " = \""))
  {
    assert "\", MISSION_CONTROL_BACKEND_PORT" == "\", " + "MISSION_CONTROL_BACKEND_PORT";
    assert "\", " == "\"" + ", ";
  }

  // ---------- Reading the block ----------

  lemma ReadEnvironment(r: string, p: string, h: string, n: string)
    requires NoEscapes(n) && Legible(n)
    ensures ReadLine("env = { MISSION_CONTROL_REPO_ROOT = \"" + TomlEscape(r) + "\", MISSION_CONTROL_PYTHON = \"" + TomlEscape(p)
              + "\", MISSION_CONTROL_BACKEND_HOST = \"" + TomlEscape(h) + "\", MISSION_CONTROL_BACKEND_PORT = \"" + n + "\" }")
         == if Legible(r) && Legible(p) && Legible(h) then Some(Pair("env", Table(Environment(r, p, h, n)))) else None
  {
    hide ReadLine, TomlEscape, FieldsText, AllBare, NoEscapes, Legible;
    EnvironmentText(r, p, h, n);
    BareKeys();
    BareNames();
    BareBackend();
    var fields := Environment(r, p, h, n);
    ReadTableLine("env", fields);
    assert fields[0].1 == r && fields[1].1 == p && fields[2].1 == h && fields[3].1 == n;
  }

  /** The lines of the server's table, from its header on. */
  lemma ReadServer(r: string, p: string, h: string, n: string, more: seq<string>)
    requires NoEscapes(n) && Legible(n) && ReadLines(more).Some? && ReadLines(more).value.0 == []
    ensures ReadLines(ServerBlock(TomlEscape(r), TomlEscape(p), TomlEscape(h), n) + more)
         == if Legible(r) && Legible(p) && Legible(h)
            then Some(([], [Section(["mcp_servers", "mission-control"], ServerSettings(r, p, h, n))] + ReadLines(more).value.1))
            else None
  {
    hide ReadLine, TomlEscape, NoEscapes, Legible, ReadLines, SERVER, SCRIPT, AllBare;
    BareKeys();
    ReadServerHeader();
    ReadArgs();
    TextLineIs("command", p);
    ReadTextLine("command", p);
    TextLineIs("cwd", r);
    ReadTextLine("cwd", r);
    ReadEnvironment(r, p, h, n);
    assert "command = \"" == "command" + " = \"" && "cwd = \"" == "cwd" + " = \"";
    var block := ServerBlock(TomlEscape(r), TomlEscape(p), TomlEscape(h), n);
    FiveLines(block[0], block[1], block[2], block[3], block[4], more);
    assert block == [block[0], block[1], block[2], block[3], block[4]];
  }

  lemma ReadMore(line: string, more: seq<string>)
    ensures ReadLines([line] + more) == if ReadLine(line).None? || ReadLines(more).None? then None
      else match ReadLine(line).value
        case Nothing => ReadLines(more)
        case Header(path) => Some(([], [Section(path, ReadLines(more).value.0)] + ReadLines(more).value.1))
        case Pair(key, value) => Some(([(key, value)] + ReadLines(more).value.0, ReadLines(more).value.1))
  {
    hide ReadLine;
    assert ([line] + more)[1..] == more;
  }

  /** A header and four settings, one below the other. */
  lemma FiveLines(a: string, b: string, c: string, d: string, e: string, more: seq<string>)
    requires ReadLines(more).Some? && ReadLines(more).value.0 == []
    requires ReadLine(a).Some? && ReadLine(a).value.Header? && ReadLine(c).Some?
    requires forall l :: l == b || l == c || l == d || l == e ==> ReadLine(l).Some? ==> ReadLine(l).value.Pair?
    ensures ReadLines([a, b, c, d, e] + more) ==
            if ReadLine(b).None? || ReadLine(d).None? || ReadLine(e).None? then None
            else Some(([], [Section(ReadLine(a).value.path, [Set(ReadLine(b).value), Set(ReadLine(c).value),
                                                             Set(ReadLine(d).value), Set(ReadLine(e).value)])]
                           + ReadLines(more).value.1))
  {
    hide ReadLine, ReadLines;
    ReadMore(e, more);
    ReadMore(d, [e] + more);
    ReadMore(c, [d] + ([e] + more));
    ReadMore(b, [c] + ([d] + ([e] + more)));
    ReadMore(a, [b] + ([c] + ([d] + ([e] + more))));
    assert [a] + ([b] + ([c] + ([d] + ([e] + more)))) == [a, b, c, d, e] + more;
    if ReadLine(b).Some? && ReadLine(d).Some? && ReadLine(e).Some? {
      FourOnes(Set(ReadLine(b).value), Set(ReadLine(c).value), Set(ReadLine(d).value), Set(ReadLine(e).value));
    }
  }

  lemma FourOnes<T>(a: T, b: T, c: T, d: T)
    ensures [a] + ([b] + ([c] + ([d] + []))) == [a, b, c, d]
  {
  }

  lemma OneOnly<T>(a: T)
    ensures [a] + [] == [a]
  {
  }

  function Set(l: Line): (string, Setting)
    requires l.Pair?
  {
    (l.key, l.value)
  }

  lemma ReadNothing()
    ensures ReadLines([]) == Some(([], []))
  {
  }

  /** The lines of the plugin's table. */
  lemma ReadPlugin(plugin: string)
    ensures ReadLines(PluginBlock(TomlEscape(plugin)))
         == if Legible(plugin) then Some(([], [Section(["plugins", plugin], [("enabled", Flag(true))])])) else None
  {
    hide ReadLine, TomlEscape, ReadLines, AllBare, Legible;
    BareKeys();
    EmptyLineIs();
    EnabledLine();
    PluginText(TomlEscape(plugin));
    ReadHeaderLine("plugins", plugin);
    var header := "[plugins.\"" + TomlEscape(plugin) + "\"]";
    ReadNothing();
    OneOnly(("enabled", Flag(true)));
    OneOnly(Section(["plugins", plugin], [("enabled", Flag(true))]));
    ReadMore("enabled = true", []);
    ReadMore(header, ["enabled = true"] + []);
    ReadMore("", [header] + (["enabled = true"] + []));
    assert [""] + ([header] + (["enabled = true"] + [])) == PluginBlock(TomlEscape(plugin));
  }

  lemma EmptyLineIs()
    ensures ReadLine("") == Some(Nothing)
  {
  }

  lemma EnabledLine()
    ensures ReadLine("enabled = true") == Some(Pair("enabled", Flag(true)))
  {
    hide ReadKey, AllBare;
    BareKeys();
    KeyThen("enabled", "true");
    NoBracket("enabled", " = " + "true");
    assert "enabled = true" == "enabled" + (" = " + "true");
  }

  lemma PluginText(e: string)
    ensures "[plugins.\"" + e + "\"]" == "[" + ("plugins" + ("." + ("\"" + (e + ("\"" + "]")))))
  {
    assert "[plugins.\"" == "[" + ("plugins" + ("." + "\""));
    assert "\"]" == "\"" + "]";
    Regroup3(".", "\"", e + "\"]");
    Regroup3("plugins", "." + "\"", e + "\"]");
    Regroup3("[", "plugins" + ("." + "\""), e + "\"]");
    Regroup3("[plugins.\"", e, "\"]");
  }

  /** The block reads back as the tables of its arguments, with slashes in the two paths, if and only if the
      arguments hold no control characters. */
  lemma ReadBlock(repo: string, python: string, host: string, port: nat, plugin: Option<string>)
    ensures ReadLines(BlockLines(repo, python, host, port, plugin))
         == if Legible(repo) && Legible(python) && Legible(host) && (plugin.Some? ==> Legible(plugin.value))
            then Some(([], Tables(repo, python, host, port, plugin))) else None
  {
    hide TomlEscape, PosixText, Legible, NoEscapes, Dec, ReadLines, ServerBlock, PluginBlock, ServerSettings;
    PosixTextIs(repo);
    PosixTextIs(python);
    DecNeedsNoEscapes(port);
    var r, p := PosixText(repo), PosixText(python);
    var server := ServerBlock(TomlEscape(r), TomlEscape(p), TomlEscape(host), Dec(port));
    NothingLegible();
    if plugin.Some? && plugin.value != "" {
      ReadPlugin(plugin.value);
      if Legible(plugin.value) {
        ReadServer(r, p, host, Dec(port), PluginBlock(TomlEscape(plugin.value)));
      } else {
        ReadNone(server, PluginBlock(TomlEscape(plugin.value)));
      }
    } else {
      ReadNothing();
      ReadServer(r, p, host, Dec(port), []);
      assert server + [] == server;
    }
  }

  lemma NothingLegible()
    ensures Legible("")
  {
  }

  lemma {:induction false} ReadNone(lines: seq<string>, more: seq<string>)
    requires ReadLines(more).None?
    ensures ReadLines(lines + more).None?
  {
    hide ReadLine, ReadLines;
    if lines == [] {
      assert lines + more == more;
    } else {
      ReadNone(lines[1..], more);
      ReadMore(lines[0], lines[1..] + more);
      assert [lines[0]] + (lines[1..] + more) == lines + more;
    }
  }
}
