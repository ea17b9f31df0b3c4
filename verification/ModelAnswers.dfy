/** The contract that a model's answer must meet: its normal form, the check, and the coercion of an
    answer that edits where it must not. */
module ModelAnswers {
  import opened Text

  // ---------- JSON values ----------

  datatype Json =
    | Null | Bool(b: bool) | Number(text: string) | Str(s: string)
    | List(items: seq<Json>) | Obj(fields: map<string, Json>)

  type Payload = map<string, Json>

  /** An answer: its text, and the JSON object that the tolerant parser finds in it, if any. */
  datatype Answer = Answer(text: string, json: Option<Payload>)

  /** What the check takes from elsewhere: how other values than strings are shown and listed, which
      texts are placeholders, how a complaint is worded. */
  datatype Env = Env(show: Json -> string, list: Json -> seq<Json>, placeholder: string -> bool,
                     wording: Reason -> string)

  /** What the prompt says: whether it asks for edits, and whether the task is an editing one. */
  datatype Prompt = Prompt(text: string, asksEdits: bool, editing: Option<bool>)

  /** The value of a key that may be missing. */
  function Get(p: Payload, key: string): Json { if key in p then p[key] else Null }

  predicate Falsy(j: Json) {
    match j
    case Null => true
    case Bool(b) => !b
    case Number(text) => text == "0" || text == "0.0" || text == "-0.0"
    case Str(s) => s == ""
    case List(items) => items == []
    case Obj(fields) => fields == map[]
  }

  /** `str(j)` */
  function Shown(env: Env, j: Json): string { if j.Str? then j.s else env.show(j) }

  /** `str(j or "")` */
  function ShownOr(env: Env, j: Json): string { if Falsy(j) then "" else Shown(env, j) }

  /** `list(j or [])` */
  function Listed(env: Env, j: Json): seq<Json> { if Falsy(j) then [] else if j.List? then j.items else env.list(j) }

  /** `[str(item) for item in list(j or []) if str(item).strip()]` */
  function Texts(env: Env, items: seq<Json>): seq<string> {
    if items == [] then []
    else (if Strip(Shown(env, items[0])) != "" then [Shown(env, items[0])] else []) + Texts(env, items[1..])
  }

  /** The same with each one stripped. */
  function Stripped(texts: seq<string>): seq<string> {
    if texts == [] then [] else [Strip(texts[0])] + Stripped(texts[1..])
  }

  // ---------- Normal form ----------

  /** The first of the keys that holds a text that is not blank. */
  function FirstText(p: Payload, keys: seq<string>): (r: Option<string>)
    ensures r.Some? ==> Strip(r.value) != ""
  {
    if keys == [] then None
    else
      var j := Get(p, keys[0]);
      if j.Str? && Strip(j.s) != "" then Some(j.s) else FirstText(p, keys[1..])
  }

  const PATH_KEYS := ["path", "file", "filepath", "filename"]
  const CONTENT_KEYS := ["content", "full_content", "updated_content", "new_content", "file_content", "text"]
  const SEARCH_KEYS := ["search", "find", "old", "before", "original", "old_text"]
  const REPLACE_KEYS := ["replace", "replacement", "new", "after", "updated", "new_text"]

  function SetText(p: Payload, key: string, value: Option<string>): Payload {
    if value.Some? then p[key := Str(value.value)] else p
  }

  function EditPath(p: Payload, files: seq<string>): Option<string> {
    var path := FirstText(p, PATH_KEYS);
    if path.None? && |files| == 1 then Some(files[0]) else path
  }

  /** `_normalize_edit_entry` */
  function NormalEdit(edit: Json, files: seq<string>): Option<Json> {
    if !edit.Obj? then None
    else
      var p := edit.fields;
      var content, search, replace := FirstText(p, CONTENT_KEYS), FirstText(p, SEARCH_KEYS), FirstText(p, REPLACE_KEYS);
      var q := SetText(SetText(p, "path", EditPath(p, files)), "content", content);
      Some(Obj(SetText(SetText(q, "search", search), "replace", replace)))
  }

  function NormalEdits(edits: seq<Json>, files: seq<string>): seq<Json> {
    if edits == [] then []
    else
      var e := NormalEdit(edits[0], files);
      (if e.Some? then [e.value] else []) + NormalEdits(edits[1..], files)
  }

  /** `_normalize_payload_contract` */
  function Normal(env: Env, p: Payload): Payload {
    var report, edits := Get(p, "report"), Get(p, "edits");
    if !report.Obj? || !edits.List? then p
    else
      var files := Stripped(Texts(env, Listed(env, Get(report.fields, "files_changed"))));
      p["edits" := List(NormalEdits(edits.items, files))]
  }

  /** `_parse_json_object` */
  function Parsed(env: Env, a: Answer): Option<Payload> {
    if a.json.None? then None else Some(Normal(env, a.json.value))
  }

  // ---------- The check ----------

  datatype Reason =
    | NotJson | NotJsonWithKeys | NoReport | NoEditsList
    | EditsWhereNone | FilesWhereNone | ClaimWhereNone | ClaimWithoutEdits
    | EditNotObject | EditUnsupported | PlaceholderContent | PlaceholderReplacement

  predicate Contains(s: string, pat: string) { exists i :: 0 <= i <= |s| && At(s, i, pat) }

  function LowerChar(c: char): char { if 'A' <= c <= 'Z' then (c as int + 32) as char else c }

  /** `s.lower()` of a text that is ASCII */
  function Lower(s: string): (r: string)
    ensures |r| == |s| && forall i :: 0 <= i < |s| ==> r[i] == LowerChar(s[i])
  {
    if s == "" then "" else [LowerChar(s[0])] + Lower(s[1..])
  }

  const PHRASES := ["fixed", "fix", "corrected", "correctly add", "updated", "implemented", "changed", "modified", "patched"]

  /** The text speaks of a change to the code. */
  predicate ClaimsChange(text: string) { exists k :: 0 <= k < |PHRASES| && Contains(Lower(text), PHRASES[k]) }

  /** `_report_claims_code_change` */
  predicate ReportClaims(env: Env, report: Payload) {
    ClaimsChange(ShownOr(env, Get(report, "summary")) + " " + ShownOr(env, Get(report, "recommended_next_task")))
  }

  predicate Supported(edit: Payload) {
    && Get(edit, "path").Str?
    && (Get(edit, "content").Str? || (Get(edit, "search").Str? && Get(edit, "search").s != "" && Get(edit, "replace").Str?))
  }

  predicate Placeholder(env: Env, j: Json) { j.Str? && env.placeholder(j.s) }

  /** The first complaint about the edits. */
  function EditsReason(env: Env, edits: seq<Json>): Option<Reason> {
    if edits == [] then None
    else if !edits[0].Obj? then Some(EditNotObject)
    else if !Supported(edits[0].fields) then Some(EditUnsupported)
    else if Placeholder(env, Get(edits[0].fields, "content")) then Some(PlaceholderContent)
    else if Placeholder(env, Get(edits[0].fields, "replace")) then Some(PlaceholderReplacement)
    else EditsReason(env, edits[1..])
  }

  predicate IsDone(env: Env, report: Payload) { Lower(Strip(ShownOr(env, Get(report, "status")))) == "done" }

  /** `_repair_reason` */
  function RepairReason(env: Env, prompt: Prompt, a: Answer): Option<Reason> {
    var payload := Parsed(env, a);
    if !prompt.asksEdits then (if payload.Some? then None else Some(NotJson))
    else if payload.None? then Some(NotJsonWithKeys)
    else
      var report, edits := Get(payload.value, "report"), Get(payload.value, "edits");
      if !report.Obj? then Some(NoReport)
      else if !edits.List? then Some(NoEditsList)
      else
        var done, claims := IsDone(env, report.fields), ReportClaims(env, report.fields);
        var files := Get(report.fields, "files_changed");
        var changed := files.List? && files.items != [];
        if prompt.editing == Some(false) && edits.items != [] then Some(EditsWhereNone)
        else if prompt.editing == Some(false) && changed then Some(FilesWhereNone)
        else if prompt.editing == Some(false) && done && claims then Some(ClaimWhereNone)
        else if done && (claims || changed) && edits.items == [] then Some(ClaimWithoutEdits)
        else EditsReason(env, edits.items)
  }

  // ---------- Coercion ----------

  /** The summary of a coerced answer with evidence, as its words. */
  const EVIDENCE := ["Captured", "non-editing", "task", "evidence", "and", "ignored",
                     "a", "stray", "code-change", "claim", "from", "the", "model."]

  const NO_EVIDENCE :=
    "Mission Control rejected a non-editing response that claimed code changes without durable command evidence."

  const NOTE := "Original model summary before coercion: "

  function Strs(texts: seq<string>): seq<Json> {
    if texts == [] then [] else [Str(texts[0])] + Strs(texts[1..])
  }

  /** The report of a coerced answer. */
  function CoercedReport(env: Env, report: Payload, reason: Reason): Payload {
    var summary := Strip(ShownOr(env, Get(report, "summary")));
    var tests := Texts(env, Listed(env, Get(report, "tests_run")));
    var blockers := Texts(env, Listed(env, Get(report, "blockers")));
    var risks := Texts(env, Listed(env, Get(report, "risks")));
    var why := env.wording(reason);
    report["status" := Str(if tests != [] then "done" else "blocked")]
          ["summary" := Str(if tests != [] then Join(EVIDENCE, " ") else NO_EVIDENCE)]
          ["files_changed" := List([])]
          ["blockers" := List(Strs(if why in blockers then blockers else blockers + [why]))]
          ["risks" := List(Strs(if tests != [] && summary != "" then risks + [NOTE + summary] else risks))]
  }

  /** `_coerce_non_editing_contract_violation` */
  function Coerced(env: Env, prompt: Prompt, a: Answer, reason: Reason): Option<Payload> {
    var payload := Parsed(env, a);
    if prompt.editing != Some(false) || payload.None? || !Get(payload.value, "report").Obj? then None
    else
      var report := CoercedReport(env, Get(payload.value, "report").fields, reason);
      Some(payload.value["report" := Obj(report)]["edits" := List([])])
  }

  // ---------- Normalizing twice ----------

  lemma FirstKey(p: Payload, keys: seq<string>)
    requires keys != [] && keys[0] in p && p[keys[0]].Str? && Strip(p[keys[0]].s) != ""
    ensures FirstText(p, keys) == Some(p[keys[0]].s)
  {
  }

  /** Other keys than those looked at make no difference. */
  lemma {:induction false} FirstTextSame(p: Payload, q: Payload, keys: seq<string>)
    requires forall k :: k in keys ==> Get(p, k) == Get(q, k)
    ensures FirstText(p, keys) == FirstText(q, keys)
  {
    hide Strip;
    if keys != [] {
      assert keys[0] in keys;
      forall k | k in keys[1..]
        ensures Get(p, k) == Get(q, k)
      {
        assert k in keys;
      }
      FirstTextSame(p, q, keys[1..]);
    }
  }

  /** The files that a report names are not blank. */
  predicate NoneBlank(files: seq<string>) { forall i :: 0 <= i < |files| ==> Strip(files[i]) != "" }

  lemma StripTwice(s: string)
    ensures Strip(Strip(s)) == Strip(s)
  {
    hide IsSpace;
    var t := Strip(s);
    if t != "" {
      assert t[0] == StripLeft(s)[0];
      assert Lead(t) == 0 && Trail(t) == |t|;
      assert t[0..] == t && t[..|t|] == t;
    }
  }

  lemma {:induction false} FilesNotBlank(env: Env, items: seq<Json>)
    ensures NoneBlank(Stripped(Texts(env, items)))
  {
    hide Strip;
    if items != [] {
      FilesNotBlank(env, items[1..]);
      StripTwice(Shown(env, items[0]));
      var one := if Strip(Shown(env, items[0])) != "" then [Shown(env, items[0])] else [];
      StrippedAppend(one, Texts(env, items[1..]));
    }
  }

  lemma {:induction false} StrippedAppend(xs: seq<string>, ys: seq<string>)
    ensures Stripped(xs + ys) == Stripped(xs) + Stripped(ys)
  {
    hide Strip;
    if xs == [] {
      assert xs + ys == ys;
    } else {
      assert (xs + ys)[1..] == xs[1..] + ys;
      StrippedAppend(xs[1..], ys);
    }
  }

  /** None of the four keys that are set. */
  predicate IsOther(k: string) { k != "path" && k != "content" && k != "search" && k != "replace" }

  ghost predicate OtherKeys(p: Payload, q: Payload) { forall k :: IsOther(k) ==> Get(p, k) == Get(q, k) }

  /** A field is settled when setting it again changes nothing. */
  lemma Settled(p: Payload, q: Payload, key: string, keys: seq<string>, value: Option<string>)
    requires keys != [] && keys[0] == key
    requires value.Some? ==> Get(q, key) == Str(value.value) && Strip(value.value) != ""
    requires value.None? ==> FirstText(p, keys) == None && Get(q, key) == Get(p, key)
    requires forall k :: k in keys[1..] ==> Get(q, k) == Get(p, k)
    ensures FirstText(q, keys) == value
    ensures SetText(q, key, value) == q
  {
    hide Strip;
    if value.Some? {
      FirstKey(q, keys);
      assert q[key := Str(value.value)] == q;
    } else {
      forall k | k in keys
        ensures Get(q, k) == Get(p, k)
      {
      }
      FirstTextSame(p, q, keys);
    }
  }

  predicate AllOther(keys: seq<string>) { forall i :: 0 <= i < |keys| ==> IsOther(keys[i]) }

  lemma KeysOther()
    ensures AllOther(PATH_KEYS[1..]) && AllOther(CONTENT_KEYS[1..]) && AllOther(SEARCH_KEYS[1..]) && AllOther(REPLACE_KEYS[1..])
    ensures PATH_KEYS != [] && CONTENT_KEYS != [] && SEARCH_KEYS != [] && REPLACE_KEYS != []
    ensures PATH_KEYS[0] == "path" && CONTENT_KEYS[0] == "content" && SEARCH_KEYS[0] == "search" && REPLACE_KEYS[0] == "replace"
  {
    assert PATH_KEYS[1..] == ["file", "filepath", "filename"];
    assert CONTENT_KEYS[1..] == ["full_content", "updated_content", "new_content", "file_content", "text"];
    assert SEARCH_KEYS[1..] == ["find", "old", "before", "original", "old_text"];
    assert REPLACE_KEYS[1..] == ["replacement", "new", "after", "updated", "new_text"];
  }

  lemma GetOfSet(p: Payload, key: string, value: Option<string>, k: string)
    ensures Get(SetText(p, key, value), k) == if k == key && value.Some? then Str(value.value) else Get(p, k)
  {
  }

  /** Each of the four keys after normalization. */
  lemma NormalKeys(p: Payload, path: Option<string>, content: Option<string>, search: Option<string>,
                   replace: Option<string>)
    ensures var q := SetText(SetText(SetText(SetText(p, "path", path), "content", content), "search", search), "replace", replace);
      && OtherKeys(p, q)
      && Get(q, "path") == (if path.Some? then Str(path.value) else Get(p, "path"))
      && Get(q, "content") == (if content.Some? then Str(content.value) else Get(p, "content"))
      && Get(q, "search") == (if search.Some? then Str(search.value) else Get(p, "search"))
      && Get(q, "replace") == (if replace.Some? then Str(replace.value) else Get(p, "replace"))
  {
    hide Get, SetText;
    assert "path"[0] == 'p' && "content"[0] == 'c' && "search"[0] == 's' && "replace"[0] == 'r';
    var q1 := SetText(p, "path", path);
    var q2 := SetText(q1, "content", content);
    var q3 := SetText(q2, "search", search);
    var q := SetText(q3, "replace", replace);
    forall k: string
      ensures Get(q, k) == if k == "replace" && replace.Some? then Str(replace.value)
                           else if k == "search" && search.Some? then Str(search.value)
                           else if k == "content" && content.Some? then Str(content.value)
                           else if k == "path" && path.Some? then Str(path.value) else Get(p, k)
    {
      GetOfSet(p, "path", path, k);
      GetOfSet(q1, "content", content, k);
      GetOfSet(q2, "search", search, k);
      GetOfSet(q3, "replace", replace, k);
    }
  }

  lemma SettledKey(p: Payload, q: Payload, key: string, keys: seq<string>, value: Option<string>)
    requires keys != [] && keys[0] == key && AllOther(keys[1..]) && OtherKeys(p, q)
    requires Get(q, key) == if value.Some? then Str(value.value) else Get(p, key)
    requires value.Some? ==> Strip(value.value) != ""
    requires value.None? ==> FirstText(p, keys) == None
    ensures FirstText(q, keys) == value
    ensures SetText(q, key, value) == q
  {
    hide Strip, FirstText, IsOther;
    forall k | k in keys[1..]
      ensures Get(q, k) == Get(p, k)
    {
      var i :| 0 <= i < |keys[1..]| && keys[1..][i] == k;
    }
    Settled(p, q, key, keys, value);
  }

  /** Normalizing an edit twice is normalizing it once. */
  lemma NormalEditTwice(edit: Json, files: seq<string>)
    requires NoneBlank(files) && edit.Obj?
    ensures NormalEdit(NormalEdit(edit, files).value, files) == NormalEdit(edit, files)
  {
    hide FirstText, SetText, AllOther, Strip, PATH_KEYS, CONTENT_KEYS, SEARCH_KEYS, REPLACE_KEYS;
    var p := edit.fields;
    var path, content := EditPath(p, files), FirstText(p, CONTENT_KEYS);
    var search, replace := FirstText(p, SEARCH_KEYS), FirstText(p, REPLACE_KEYS);
    var q := NormalEdit(edit, files).value.fields;
    KeysOther();
    NormalKeys(p, path, content, search, replace);
    SettledKey(p, q, "path", PATH_KEYS, path);
    SettledKey(p, q, "content", CONTENT_KEYS, content);
    SettledKey(p, q, "search", SEARCH_KEYS, search);
    SettledKey(p, q, "replace", REPLACE_KEYS, replace);
    assert EditPath(q, files) == path;
  }

  lemma {:induction false} NormalEditsTwice(edits: seq<Json>, files: seq<string>)
    requires NoneBlank(files)
    ensures NormalEdits(NormalEdits(edits, files), files) == NormalEdits(edits, files)
  {
    hide NormalEdit;
    if edits != [] {
      NormalEditsTwice(edits[1..], files);
      NotObject(edits[0], files);
      if edits[0].Obj? {
        var e := NormalEdit(edits[0], files).value;
        NormalEditTwice(edits[0], files);
        assert ([e] + NormalEdits(edits[1..], files))[1..] == NormalEdits(edits[1..], files);
      } else {
        assert [] + NormalEdits(edits[1..], files) == NormalEdits(edits[1..], files);
      }
    }
  }

  lemma NotObject(edit: Json, files: seq<string>)
    ensures NormalEdit(edit, files).Some? <==> edit.Obj?
  {
  }

  /** Normalizing an answer twice is normalizing it once. */
  lemma NormalTwice(env: Env, p: Payload)
    ensures Normal(env, Normal(env, p)) == Normal(env, p)
  {
    hide NormalEdits, Texts, Stripped, Listed;
    var report, edits := Get(p, "report"), Get(p, "edits");
    if report.Obj? && edits.List? {
      var files := Stripped(Texts(env, Listed(env, Get(report.fields, "files_changed"))));
      FilesNotBlank(env, Listed(env, Get(report.fields, "files_changed")));
      NormalEditsTwice(edits.items, files);
      assert "report"[0] != "edits"[0];
      var q := Normal(env, p);
      assert Get(q, "report") == report;
      assert q["edits" := Get(q, "edits")] == q;
    }
  }

  // ---------- A coerced answer ----------

  lemma CoercedShape(env: Env, prompt: Prompt, a: Answer, reason: Reason)
    requires Coerced(env, prompt, a, reason).Some?
    ensures var p := Coerced(env, prompt, a, reason).value;
      && Get(p, "edits") == List([])
      && Get(p, "report") == Obj(CoercedReport(env, Get(Parsed(env, a).value, "report").fields, reason))
      && Normal(env, p) == p
  {
    hide CoercedReport, Texts, Stripped;
    var p := Coerced(env, prompt, a, reason).value;
    assert "report"[0] != "edits"[0];
    assert Get(p, "edits") == List([]);
    assert NormalEdits([], Stripped(Texts(env, Listed(env, Get(Get(p, "report").fields, "files_changed"))))) == [];
    assert p["edits" := List([])] == p;
  }

  lemma KeyLengths()
    ensures |"status"| == 6 && |"summary"| == 7 && |"files_changed"| == 13 && |"blockers"| == 8 && |"risks"| == 5
    ensures |"recommended_next_task"| == 21 && |"tests_run"| == 9
  {
  }

  lemma SetFive(p: Payload, a: Json, b: Json, c: Json, d: Json, e: Json)
    ensures var r := p["status" := a]["summary" := b]["files_changed" := c]["blockers" := d]["risks" := e];
      && Get(r, "status") == a && Get(r, "summary") == b && Get(r, "files_changed") == c
      && Get(r, "recommended_next_task") == Get(p, "recommended_next_task") && Get(r, "tests_run") == Get(p, "tests_run")
  {
    KeyLengths();
  }

  /** What the coerced report says under the keys that the check looks at. */
  lemma CoercedKeys(env: Env, report: Payload, reason: Reason)
    ensures var r := CoercedReport(env, report, reason);
      var evidence := Texts(env, Listed(env, Get(report, "tests_run"))) != [];
      && Get(r, "status") == Str(if evidence then "done" else "blocked")
      && Get(r, "summary") == Str(if evidence then Join(EVIDENCE, " ") else NO_EVIDENCE)
      && Get(r, "files_changed") == List([])
      && Get(r, "recommended_next_task") == Get(report, "recommended_next_task")
      && Get(r, "tests_run") == Get(report, "tests_run")
  {
    hide Texts, Listed, EVIDENCE, NO_EVIDENCE, NOTE, Strs, Get;
    KeyLengths();
    var r := CoercedReport(env, report, reason);
    SetFive(report, r["status"], r["summary"], r["files_changed"], r["blockers"], r["risks"]);
  }
}
