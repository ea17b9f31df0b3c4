/** Which answers the check accepts, said of the fields of the answer as the model gave it. */
module ModelContract {
  import opened Text
  import opened ModelAnswers

  // ---------- Fields ----------

  predicate IsText(j: Json) { j.Str? && Strip(j.s) != "" }

  /** The first of the keys that holds a text that is not blank holds this text. */
  ghost predicate Says(p: Payload, keys: seq<string>, text: string) {
    Strip(text) != "" && exists k :: 0 <= k < |keys| && Get(p, keys[k]) == Str(text)
                                     && forall i :: 0 <= i < k ==> !IsText(Get(p, keys[i]))
  }

  /** The text that counts for a field: that one, or, if none of its keys has one, a blank one at the first key. */
  ghost predicate Holds(p: Payload, keys: seq<string>, text: string) {
    || Says(p, keys, text)
    || (keys != [] && Get(p, keys[0]) == Str(text) && forall i :: 0 <= i < |keys| ==> !IsText(Get(p, keys[i])))
  }

  predicate IsBlank(env: Env, j: Json) { Strip(Shown(env, j)) == "" }

  /** All the items but this one are blank. */
  predicate IsOnly(env: Env, items: seq<Json>, k: int) {
    0 <= k < |items| && !IsBlank(env, items[k]) && forall i :: 0 <= i < |items| && i != k ==> IsBlank(env, items[i])
  }

  predicate AllBlank(env: Env, items: seq<Json>) { forall i :: 0 <= i < |items| ==> IsBlank(env, items[i]) }

  /** The report names exactly one file. */
  ghost predicate OneFile(env: Env, report: Payload) {
    exists k :: IsOnly(env, Listed(env, Get(report, "files_changed")), k)
  }

  /** The edit has a path, if only that of the one file that the report names. */
  ghost predicate HasPath(e: Payload, oneFile: bool) { oneFile || exists t :: Holds(e, PATH_KEYS, t) }

  /** It has the new content, or a text to search for and one to put in its place. */
  ghost predicate HasChange(e: Payload) {
    || (exists t :: Holds(e, CONTENT_KEYS, t))
    || ((exists t :: t != "" && Holds(e, SEARCH_KEYS, t)) && exists t :: Holds(e, REPLACE_KEYS, t))
  }

  /** It does not abbreviate what it puts in. */
  ghost predicate WrittenOut(env: Env, e: Payload) {
    forall t :: Holds(e, CONTENT_KEYS, t) || Holds(e, REPLACE_KEYS, t) ==> !env.placeholder(t)
  }

  ghost predicate AcceptableEdit(env: Env, e: Payload, oneFile: bool) {
    HasPath(e, oneFile) && HasChange(e) && WrittenOut(env, e)
  }

  /** All the entries that are objects are; other entries are left out. */
  ghost predicate AllAcceptable(env: Env, edits: seq<Json>, oneFile: bool) {
    forall i :: 0 <= i < |edits| && edits[i].Obj? ==> AcceptableEdit(env, edits[i].fields, oneFile)
  }

  /** What counts of a value that may be missing: nothing of a missing one, of `false`, of zero and of what is
      empty; the text of a text; and of other values the way they are shown. */
  lemma ValuesCount(env: Env, p: Payload, key: string)
    ensures var j := Get(p, key);
      && (key !in p ==> ShownOr(env, j) == "" && Listed(env, j) == [])
      && (j in {Null, Bool(false), Str(""), List([]), Obj(map[])} ==> ShownOr(env, j) == "" && Listed(env, j) == [])
      && (j.Number? && j.text in {"0", "0.0", "-0.0"} ==> ShownOr(env, j) == "")
      && (j.Str? ==> ShownOr(env, j) == j.s) && (j.List? ==> Listed(env, j) == j.items)
      && (j == Bool(true) ==> ShownOr(env, j) == env.show(j))
      && (j.Number? && j.text !in {"0", "0.0", "-0.0"} ==> ShownOr(env, j) == env.show(j))
      && (j.List? && j.items != [] ==> ShownOr(env, j) == env.show(j))
      && (j.Obj? && j.fields != map[] ==> ShownOr(env, j) == env.show(j))
  {
  }

  // ---------- The report ----------

  predicate SameLetter(c: char, d: char) { c == d || ('A' <= c <= 'Z' && c as int + 32 == d as int) }

  /** The phrase, which is in lower case, stands in the text at `i`, in whatever case. */
  predicate StandsAt(text: string, i: int, phrase: string) {
    0 <= i <= |text| - |phrase| && forall j :: 0 <= j < |phrase| ==> SameLetter(text[i + j], phrase[j])
  }

  ghost predicate Mentions(text: string, phrase: string) { exists i :: StandsAt(text, i, phrase) }

  /** The report says that the task is done. */
  predicate SaysDone(env: Env, report: Payload) {
    var t := Strip(ShownOr(env, Get(report, "status")));
    |t| == 4 && StandsAt(t, 0, "done")
  }

  /** Its summary or its recommendation speaks of a change to the code. */
  ghost predicate SpeaksOfChange(env: Env, report: Payload) {
    exists k :: 0 <= k < |PHRASES| &&
      Mentions(ShownOr(env, Get(report, "summary")) + " " + ShownOr(env, Get(report, "recommended_next_task")), PHRASES[k])
  }

  predicate NamesFiles(report: Payload) {
    var files := Get(report, "files_changed");
    files.List? && files.items != []
  }

  // ---------- The answer ----------

  /** Some entry of the list is an object. */
  predicate SomeEdit(edits: seq<Json>) { exists i :: 0 <= i < |edits| && edits[i].Obj? }

  /** The answer that a prompt for edits asks for: a report and a list of edits that can be applied, no claim of
      a finished change without edits, and, on a task without editing, neither edits nor changed files nor such a claim. */
  ghost predicate AcceptablePayload(env: Env, editing: Option<bool>, p: Payload) {
    var report, edits := Get(p, "report"), Get(p, "edits");
    report.Obj? && edits.List? &&
    var done, speaks, files := SaysDone(env, report.fields), SpeaksOfChange(env, report.fields), NamesFiles(report.fields);
    && AllAcceptable(env, edits.items, OneFile(env, report.fields))
    && (done && (speaks || files) ==> SomeEdit(edits.items))
    && (editing == Some(false) ==> !SomeEdit(edits.items) && !files && !(done && speaks))
  }

  ghost predicate Acceptable(env: Env, prompt: Prompt, a: Answer) {
    a.json.Some? && (prompt.asksEdits ==> AcceptablePayload(env, prompt.editing, a.json.value))
  }

  // ---------- Fields, as the normal form has them ----------

  lemma {:induction false} FirstTextSays(p: Payload, keys: seq<string>)
    ensures forall t :: FirstText(p, keys) == Some(t) <==> Says(p, keys, t)
    ensures FirstText(p, keys).None? <==> forall i :: 0 <= i < |keys| ==> !IsText(Get(p, keys[i]))
  {
    hide Strip;
    if keys != [] && !IsText(Get(p, keys[0])) {
      var more := keys[1..];
      FirstTextSays(p, more);
      forall t
        ensures Says(p, keys, t) <==> Says(p, more, t)
      {
        SaysBehind(p, keys, t);
      }
      assert forall i :: 0 <= i < |more| ==> more[i] == keys[i + 1];
      assert forall i :: 0 < i < |keys| ==> keys[i] == more[i - 1];
    } else if keys != [] {
      forall t
        ensures FirstText(p, keys) == Some(t) <==> Says(p, keys, t)
      {
        SaysFirst(p, keys, t);
      }
    }
  }

  lemma SaysBehind(p: Payload, keys: seq<string>, t: string)
    requires keys != [] && !IsText(Get(p, keys[0]))
    ensures Says(p, keys, t) <==> Says(p, keys[1..], t)
  {
    hide Strip;
    var more := keys[1..];
    if Says(p, keys, t) {
      var k :| 0 <= k < |keys| && Get(p, keys[k]) == Str(t) && forall i :: 0 <= i < k ==> !IsText(Get(p, keys[i]));
      assert more[k - 1] == keys[k] && forall i :: 0 <= i < k - 1 ==> more[i] == keys[i + 1];
    }
    if Says(p, more, t) {
      var k :| 0 <= k < |more| && Get(p, more[k]) == Str(t) && forall i :: 0 <= i < k ==> !IsText(Get(p, more[i]));
      assert more[k] == keys[k + 1] && forall i :: 0 < i < k + 1 ==> keys[i] == more[i - 1];
    }
  }

  lemma SaysFirst(p: Payload, keys: seq<string>, t: string)
    requires keys != [] && IsText(Get(p, keys[0]))
    ensures Says(p, keys, t) <==> Get(p, keys[0]) == Str(t)
  {
    hide Strip;
  }

  /** What a field has after it is set from its keys. */
  lemma FieldHolds(p: Payload, keys: seq<string>, value: Json)
    requires keys != []
    requires value == if FirstText(p, keys).Some? then Str(FirstText(p, keys).value) else Get(p, keys[0])
    ensures forall t :: value == Str(t) <==> Holds(p, keys, t)
  {
    hide Strip, FirstText;
    FirstTextSays(p, keys);
  }

  lemma OnlyFirst(env: Env, items: seq<Json>)
    requires items != []
    ensures AllBlank(env, items) <==> IsBlank(env, items[0]) && AllBlank(env, items[1..])
    ensures IsOnly(env, items, 0) <==> !IsBlank(env, items[0]) && AllBlank(env, items[1..])
    ensures forall k :: k > 0 ==> (IsOnly(env, items, k) <==> IsBlank(env, items[0]) && IsOnly(env, items[1..], k - 1))
  {
    hide IsBlank;
    var more := items[1..];
    assert forall i :: 0 <= i < |more| ==> more[i] == items[i + 1];
    assert forall i :: 0 < i < |items| ==> items[i] == more[i - 1];
  }

  lemma {:induction false} TextsCount(env: Env, items: seq<Json>)
    ensures Texts(env, items) == [] <==> AllBlank(env, items)
    ensures |Texts(env, items)| == 1 <==> exists k :: IsOnly(env, items, k)
  {
    hide Strip, Shown, AllBlank, IsOnly;
    if items == [] {
      NothingOnly(env);
    } else {
      TextsCount(env, items[1..]);
      OnlyFirst(env, items);
      if k :| IsOnly(env, items[1..], k) { OnlyFrom(env, items[1..], k); assert k + 1 > 0 && k == k + 1 - 1; }
      if k :| IsOnly(env, items, k) { OnlyFrom(env, items, k); }
      if IsBlank(env, items[0]) && exists k :: IsOnly(env, items[1..], k) {
        var k :| IsOnly(env, items[1..], k);
        OnlyFrom(env, items[1..], k);
        assert IsOnly(env, items, k + 1);
      }
    }
  }

  lemma OnlyFrom(env: Env, items: seq<Json>, k: int)
    requires IsOnly(env, items, k)
    ensures k >= 0 && !AllBlank(env, items)
  {
  }

  lemma NothingOnly(env: Env)
    ensures AllBlank(env, []) && forall k :: !IsOnly(env, [], k)
  {
  }

  /** The texts of a list are those of its items that are not blank. */
  lemma {:induction false} TextsAre(env: Env, items: seq<Json>)
    ensures forall t :: t in Texts(env, items) <==> exists i :: 0 <= i < |items| && Shown(env, items[i]) == t && Strip(t) != ""
  {
    hide Strip, Shown;
    if items != [] {
      var more := items[1..];
      TextsAre(env, more);
      assert forall i :: 0 <= i < |more| ==> more[i] == items[i + 1];
      assert forall i :: 0 < i < |items| ==> items[i] == more[i - 1];
      forall t
        ensures t in Texts(env, items) <==> exists i :: 0 <= i < |items| && Shown(env, items[i]) == t && Strip(t) != ""
      {
        if i :| 0 <= i < |more| && Shown(env, more[i]) == t && Strip(t) != "" { assert Shown(env, items[i + 1]) == t; }
        if i :| 0 < i < |items| && Shown(env, items[i]) == t && Strip(t) != "" { assert Shown(env, more[i - 1]) == t; }
      }
    }
  }

  lemma {:induction false} StrippedCount(texts: seq<string>)
    ensures |Stripped(texts)| == |texts|
  {
    if texts != [] { StrippedCount(texts[1..]); }
  }

  lemma OneFileCount(env: Env, report: Payload)
    ensures |Stripped(Texts(env, Listed(env, Get(report, "files_changed"))))| == 1 <==> OneFile(env, report)
  {
    hide Texts, Stripped, IsOnly, Listed;
    TextsCount(env, Listed(env, Get(report, "files_changed")));
    StrippedCount(Texts(env, Listed(env, Get(report, "files_changed"))));
  }

  // ---------- Edits ----------

  lemma HeadKeys()
    ensures PATH_KEYS != [] && CONTENT_KEYS != [] && SEARCH_KEYS != [] && REPLACE_KEYS != []
    ensures PATH_KEYS[0] == "path" && CONTENT_KEYS[0] == "content" && SEARCH_KEYS[0] == "search" && REPLACE_KEYS[0] == "replace"
  {
  }

  /** The fields of an edit in normal form. */
  lemma NormalFields(e: Payload, files: seq<string>)
    ensures var q := NormalEdit(Obj(e), files);
      && q.Some? && q.value.Obj?
      && (Get(q.value.fields, "path").Str? <==> HasPath(e, |files| == 1))
      && (forall t :: Get(q.value.fields, "content") == Str(t) <==> Holds(e, CONTENT_KEYS, t))
      && (forall t :: Get(q.value.fields, "search") == Str(t) <==> Holds(e, SEARCH_KEYS, t))
      && (forall t :: Get(q.value.fields, "replace") == Str(t) <==> Holds(e, REPLACE_KEYS, t))
  {
    hide FirstText, SetText, Holds, Says, PATH_KEYS, CONTENT_KEYS, SEARCH_KEYS, REPLACE_KEYS;
    var content, search := FirstText(e, CONTENT_KEYS), FirstText(e, SEARCH_KEYS);
    var replace := FirstText(e, REPLACE_KEYS);
    var q := NormalEdit(Obj(e), files).value.fields;
    HeadKeys();
    NormalKeys(e, EditPath(e, files), content, search, replace);
    FieldHolds(e, CONTENT_KEYS, Get(q, "content"));
    FieldHolds(e, SEARCH_KEYS, Get(q, "search"));
    FieldHolds(e, REPLACE_KEYS, Get(q, "replace"));
    PathHolds(e, files, Get(q, "path"));
  }

  lemma PathHolds(e: Payload, files: seq<string>, value: Json)
    requires PATH_KEYS != [] && PATH_KEYS[0] == "path"
    requires value == if EditPath(e, files).Some? then Str(EditPath(e, files).value) else Get(e, "path")
    ensures value.Str? <==> HasPath(e, |files| == 1)
  {
    hide FirstText, Says, Holds, PATH_KEYS;
    if |files| != 1 || FirstText(e, PATH_KEYS).Some? {
      FieldHolds(e, PATH_KEYS, value);
      if value.Str? { assert Holds(e, PATH_KEYS, value.s); }
    }
  }

  lemma EditAccepted(env: Env, e: Payload, files: seq<string>)
    ensures var q := NormalEdit(Obj(e), files).value.fields;
      AcceptableEdit(env, e, |files| == 1) <==>
        Supported(q) && !Placeholder(env, Get(q, "content")) && !Placeholder(env, Get(q, "replace"))
  {
    hide NormalEdit, Holds, HasPath, PATH_KEYS, CONTENT_KEYS, SEARCH_KEYS, REPLACE_KEYS;
    NormalFields(e, files);
    var q := NormalEdit(Obj(e), files).value.fields;
    var content, search, replace := Get(q, "content"), Get(q, "search"), Get(q, "replace");
    if content.Str? { assert Holds(e, CONTENT_KEYS, content.s); }
    if search.Str? { assert Holds(e, SEARCH_KEYS, search.s); }
    if replace.Str? { assert Holds(e, REPLACE_KEYS, replace.s); }
  }

  lemma NoEdits(env: Env, oneFile: bool)
    ensures AllAcceptable(env, [], oneFile) && !SomeEdit([])
  {
  }

  lemma EditsFrom(env: Env, edits: seq<Json>, oneFile: bool)
    requires edits != []
    ensures AllAcceptable(env, edits, oneFile) <==>
              (edits[0].Obj? ==> AcceptableEdit(env, edits[0].fields, oneFile)) && AllAcceptable(env, edits[1..], oneFile)
    ensures SomeEdit(edits) <==> edits[0].Obj? || SomeEdit(edits[1..])
  {
    hide AcceptableEdit;
    var more := edits[1..];
    assert forall i :: 0 <= i < |more| ==> more[i] == edits[i + 1];
    assert forall i :: 0 < i < |edits| ==> edits[i] == more[i - 1];
    if i :| 0 < i < |edits| && edits[i].Obj? { assert more[i - 1].Obj?; }
    if i :| 0 <= i < |more| && more[i].Obj? { assert edits[i + 1].Obj?; }
    if AllAcceptable(env, edits, oneFile) {
      forall i | 0 <= i < |more| && more[i].Obj?
        ensures AcceptableEdit(env, more[i].fields, oneFile)
      {
        assert edits[i + 1].Obj?;
      }
    }
    if AllAcceptable(env, more, oneFile) {
      forall i | 0 < i < |edits| && edits[i].Obj?
        ensures AcceptableEdit(env, edits[i].fields, oneFile)
      {
        assert more[i - 1].Obj?;
      }
    }
  }

  lemma {:induction false} EditsAccepted(env: Env, edits: seq<Json>, files: seq<string>)
    ensures EditsReason(env, NormalEdits(edits, files)).None? <==> AllAcceptable(env, edits, |files| == 1)
    ensures NormalEdits(edits, files) == [] <==> !SomeEdit(edits)
  {
    hide AcceptableEdit, AllAcceptable, SomeEdit;
    if edits == [] {
      NoEdits(env, |files| == 1);
    } else {
      EditsAccepted(env, edits[1..], files);
      EditsFrom(env, edits, |files| == 1);
      FirstEdit(env, edits[0], NormalEdits(edits[1..], files), files);
      assert [] + NormalEdits(edits[1..], files) == NormalEdits(edits[1..], files);
    }
  }

  lemma FirstEdit(env: Env, edit: Json, rest: seq<Json>, files: seq<string>)
    ensures NormalEdit(edit, files).Some? <==> edit.Obj?
    ensures edit.Obj? ==> (EditsReason(env, [NormalEdit(edit, files).value] + rest).None? <==>
                             AcceptableEdit(env, edit.fields, |files| == 1) && EditsReason(env, rest).None?)
  {
    hide AcceptableEdit, Supported, Placeholder;
    if edit.Obj? {
      EditAccepted(env, edit.fields, files);
      assert ([NormalEdit(edit, files).value] + rest)[1..] == rest;
    }
  }

  // ---------- The report ----------

  lemma StandsLower(text: string, i: nat, phrase: string)
    requires forall j :: 0 <= j < |phrase| ==> !('A' <= phrase[j] <= 'Z')
    ensures At(Lower(text), i, phrase) <==> StandsAt(text, i, phrase)
  {
    hide Lower;
    if At(Lower(text), i, phrase) {
      forall j | 0 <= j < |phrase|
        ensures SameLetter(text[i + j], phrase[j])
      {
        assert Lower(text)[i..i + |phrase|][j] == phrase[j];
      }
    }
    if StandsAt(text, i, phrase) {
      forall j | 0 <= j < |phrase|
        ensures Lower(text)[i + j] == phrase[j]
      {
        assert SameLetter(text[i + j], phrase[j]);
      }
      assert Lower(text)[i..i + |phrase|] == phrase;
    }
  }

  lemma MentionsIs(text: string, phrase: string)
    requires forall j :: 0 <= j < |phrase| ==> !('A' <= phrase[j] <= 'Z')
    ensures Mentions(text, phrase) <==> Contains(Lower(text), phrase)
  {
    hide Lower, StandsAt;
    forall i: nat
      ensures At(Lower(text), i, phrase) <==> StandsAt(text, i, phrase)
    {
      StandsLower(text, i, phrase);
    }
    if i :| StandsAt(text, i, phrase) { StandsFrom(text, i, phrase); }
  }

  lemma StandsFrom(text: string, i: int, phrase: string)
    requires StandsAt(text, i, phrase)
    ensures 0 <= i <= |text|
  {
  }

  lemma PhrasesLower(k: nat)
    requires k < |PHRASES|
    ensures forall j :: 0 <= j < |PHRASES[k]| ==> !('A' <= PHRASES[k][j] <= 'Z')
  {
  }

  lemma SpeaksIs(env: Env, report: Payload)
    ensures SpeaksOfChange(env, report) <==> ReportClaims(env, report)
  {
    hide PHRASES, Lower, Mentions, Contains, ShownOr;
    var text := ShownOr(env, Get(report, "summary")) + " " + ShownOr(env, Get(report, "recommended_next_task"));
    forall k | 0 <= k < |PHRASES|
      ensures Mentions(text, PHRASES[k]) <==> Contains(Lower(text), PHRASES[k])
    {
      PhrasesLower(k);
      MentionsIs(text, PHRASES[k]);
    }
  }

  lemma SaysDoneIs(env: Env, report: Payload)
    ensures SaysDone(env, report) <==> IsDone(env, report)
  {
    hide Lower, Strip, ShownOr;
    var t := Strip(ShownOr(env, Get(report, "status")));
    var done := "done";
    StandsLower(t, 0, done);
    assert |t| == 4 ==> Lower(t)[0..0 + 4] == Lower(t);
  }

  // ---------- The check ----------

  /** The check accepts exactly the answers that are acceptable. */
  lemma AcceptedExactly(env: Env, prompt: Prompt, a: Answer)
    ensures RepairReason(env, prompt, a).None? <==> Acceptable(env, prompt, a)
  {
    hide IsDone, ReportClaims, SaysDone, SpeaksOfChange, Texts, Stripped, NormalEdits, EditsReason, AcceptableEdit,
         OneFile, SomeEdit, AllAcceptable, Listed;
    if a.json.Some? && prompt.asksEdits {
      var p := a.json.value;
      var report, edits := Get(p, "report"), Get(p, "edits");
      if report.Obj? && edits.List? {
        var files := Stripped(Texts(env, Listed(env, Get(report.fields, "files_changed"))));
        OneFileCount(env, report.fields);
        EditsAccepted(env, edits.items, files);
        SaysDoneIs(env, report.fields);
        SpeaksIs(env, report.fields);
        NormalIs(env, p);
      }
    }
  }

  // ---------- The complaints ----------

  /** What is wrong with an edit. */
  ghost predicate BlamesEdit(env: Env, r: Reason, e: Payload, oneFile: bool) {
    match r
    case EditUnsupported => !HasPath(e, oneFile) || !HasChange(e)
    case PlaceholderContent => exists t :: Holds(e, CONTENT_KEYS, t) && env.placeholder(t)
    case PlaceholderReplacement => exists t :: Holds(e, REPLACE_KEYS, t) && env.placeholder(t)
    case _ => false
  }

  ghost predicate BlamesSome(env: Env, r: Reason, edits: seq<Json>, oneFile: bool) {
    exists i :: 0 <= i < |edits| && edits[i].Obj? && BlamesEdit(env, r, edits[i].fields, oneFile)
  }

  /** What a complaint says of the answer. */
  ghost predicate Blames(env: Env, prompt: Prompt, a: Answer, r: Reason) {
    if a.json.None? then r == if prompt.asksEdits then NotJsonWithKeys else NotJson
    else
      var report, edits := Get(a.json.value, "report"), Get(a.json.value, "edits");
      prompt.asksEdits &&
      if !report.Obj? then r == NoReport
      else if !edits.List? then r == NoEditsList
      else
        var done, speaks, files := SaysDone(env, report.fields), SpeaksOfChange(env, report.fields), NamesFiles(report.fields);
        match r
        case EditsWhereNone => prompt.editing == Some(false) && SomeEdit(edits.items)
        case FilesWhereNone => prompt.editing == Some(false) && !SomeEdit(edits.items) && files
        case ClaimWhereNone => prompt.editing == Some(false) && !SomeEdit(edits.items) && !files && done && speaks
        case ClaimWithoutEdits => prompt.editing != Some(false) && !SomeEdit(edits.items) && done && (speaks || files)
        case _ => BlamesSome(env, r, edits.items, OneFile(env, report.fields))
  }

  lemma FirstComplaint(env: Env, e: Payload, files: seq<string>)
    ensures var r := EditsReason(env, [NormalEdit(Obj(e), files).value]);
      r.Some? ==> BlamesEdit(env, r.value, e, |files| == 1)
  {
    hide NormalEdit, Holds, HasPath, PATH_KEYS, CONTENT_KEYS, SEARCH_KEYS, REPLACE_KEYS;
    NormalFields(e, files);
    var q := NormalEdit(Obj(e), files).value.fields;
    var content, search, replace := Get(q, "content"), Get(q, "search"), Get(q, "replace");
    if content.Str? { assert Holds(e, CONTENT_KEYS, content.s); }
    if search.Str? { assert Holds(e, SEARCH_KEYS, search.s); }
    if replace.Str? { assert Holds(e, REPLACE_KEYS, replace.s); }
    assert EditsReason(env, [Obj(q)][1..]).None?;
  }

  lemma ComplaintOf(env: Env, edit: Json, rest: seq<Json>)
    ensures EditsReason(env, [edit] + rest)
         == if EditsReason(env, [edit]).Some? then EditsReason(env, [edit]) else EditsReason(env, rest)
  {
    hide Supported, Placeholder;
    assert ([edit] + rest)[1..] == rest && [edit][1..] == [];
  }

  lemma {:induction false} EditsBlame(env: Env, edits: seq<Json>, files: seq<string>)
    ensures var r := EditsReason(env, NormalEdits(edits, files)); r.Some? ==> BlamesSome(env, r.value, edits, |files| == 1)
  {
    hide BlamesEdit, EditsReason, NormalEdit;
    if edits == [] {
      NoComplaint(env);
    } else {
      var more := edits[1..];
      EditsBlame(env, more, files);
      BlamesMore(env, edits, |files| == 1);
      FirstEdit(env, edits[0], NormalEdits(more, files), files);
      if edits[0].Obj? {
        FirstComplaint(env, edits[0].fields, files);
        ComplaintOf(env, NormalEdit(edits[0], files).value, NormalEdits(more, files));
      } else {
        assert [] + NormalEdits(more, files) == NormalEdits(more, files);
      }
    }
  }

  lemma NoComplaint(env: Env)
    ensures EditsReason(env, []).None?
  {
  }

  lemma BlamesMore(env: Env, edits: seq<Json>, oneFile: bool)
    requires edits != []
    ensures forall r :: BlamesSome(env, r, edits[1..], oneFile) ==> BlamesSome(env, r, edits, oneFile)
    ensures forall r :: edits[0].Obj? && BlamesEdit(env, r, edits[0].fields, oneFile) ==> BlamesSome(env, r, edits, oneFile)
  {
    hide BlamesEdit;
    var more := edits[1..];
    forall r | BlamesSome(env, r, more, oneFile)
      ensures BlamesSome(env, r, edits, oneFile)
    {
      var i :| 0 <= i < |more| && more[i].Obj? && BlamesEdit(env, r, more[i].fields, oneFile);
      assert edits[i + 1] == more[i];
    }
  }

  lemma EditComplaints(env: Env, r: Reason, edits: seq<Json>, oneFile: bool)
    requires BlamesSome(env, r, edits, oneFile)
    ensures r == EditUnsupported || r == PlaceholderContent || r == PlaceholderReplacement
    ensures SomeEdit(edits)
  {
    hide HasPath, HasChange, Holds;
  }

  lemma PayloadBlames(env: Env, prompt: Prompt, a: Answer)
    requires a.json.Some? && prompt.asksEdits && Get(a.json.value, "report").Obj? && Get(a.json.value, "edits").List?
    ensures var r := RepairReason(env, prompt, a); r.Some? ==> r.value != EditNotObject && Blames(env, prompt, a, r.value)
  {
    hide IsDone, ReportClaims, SaysDone, SpeaksOfChange, Texts, Stripped, NormalEdits, EditsReason, BlamesSome,
         OneFile, SomeEdit, Listed, AllAcceptable, NamesFiles, Normal;
    var p := a.json.value;
    var report, edits := Get(p, "report"), Get(p, "edits");
    var files := Stripped(Texts(env, Listed(env, Get(report.fields, "files_changed"))));
    OneFileCount(env, report.fields);
    EditsAccepted(env, edits.items, files);
    EditsBlame(env, edits.items, files);
    SaysDoneIs(env, report.fields);
    SpeaksIs(env, report.fields);
    NormalIs(env, p);
    NamesFilesIs(report.fields);
    var r := EditsReason(env, NormalEdits(edits.items, files));
    if r.Some? { EditComplaints(env, r.value, edits.items, OneFile(env, report.fields)); }
  }

  /** Every complaint is true of the answer, and the one about an edit that is no object is never made. */
  lemma ReasonIsTrue(env: Env, prompt: Prompt, a: Answer)
    ensures var r := RepairReason(env, prompt, a); r.Some? ==> r.value != EditNotObject && Blames(env, prompt, a, r.value)
  {
    hide IsDone, ReportClaims, SaysDone, SpeaksOfChange, Texts, Stripped, NormalEdits, EditsReason, BlamesSome,
         OneFile, SomeEdit, Listed;
    if a.json.Some? && prompt.asksEdits && Get(a.json.value, "report").Obj? && Get(a.json.value, "edits").List? {
      hide RepairReason, Blames;
      PayloadBlames(env, prompt, a);
    }
  }

  lemma NamesFilesIs(report: Payload)
    ensures var files := Get(report, "files_changed"); NamesFiles(report) <==> files.List? && files.items != []
  {
  }

  lemma NormalIs(env: Env, p: Payload)
    requires Get(p, "report").Obj? && Get(p, "edits").List?
    ensures var files := Stripped(Texts(env, Listed(env, Get(Get(p, "report").fields, "files_changed"))));
      Get(Normal(env, p), "edits") == List(NormalEdits(Get(p, "edits").items, files))
    ensures Get(Normal(env, p), "report") == Get(p, "report")
  {
    hide Texts, Stripped, NormalEdits, Listed;
    assert "report"[0] == 'r' && "edits"[0] == 'e';
  }
}
