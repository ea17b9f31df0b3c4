/** What the check says of an answer that was coerced. */
module ModelCoercion {
  import opened Text
  import opened ModelAnswers
  import opened ModelContract

  // ---------- The summary of a coerced answer claims nothing ----------

  /** Two letters, or three, that every phrase for a code change has near its beginning. */
  predicate Telling(c: char, d: char) {
    || (c == 'i' && d == 'x') || (c == 'r' && d == 'r') || (c == 'u' && d == 'p')
    || (c == 'm' && d == 'p') || (c == 'i' && d == 'f') || (c == 't' && d == 'c')
  }

  /** No space, and none of those letters. */
  predicate Plain(w: string) {
    w == "" || (
      && w[0] != ' '
      && (|w| > 1 ==> !Telling(LowerChar(w[0]), LowerChar(w[1])))
      && (|w| > 2 ==> !(LowerChar(w[0]) == 'g' && LowerChar(w[1]) == 'e' && LowerChar(w[2]) == 'd'))
      && Plain(w[1..]))
  }

  lemma {:induction false} PlainAt(w: string, i: nat)
    requires Plain(w) && i < |w|
    ensures i + 1 < |w| ==> !Telling(LowerChar(w[i]), LowerChar(w[i + 1]))
    ensures i + 2 < |w| ==> !(LowerChar(w[i]) == 'g' && LowerChar(w[i + 1]) == 'e' && LowerChar(w[i + 2]) == 'd')
  {
    if i > 0 { PlainAt(w[1..], i - 1); }
  }

  predicate NoSpace(s: string) { forall i :: 0 <= i < |s| ==> s[i] != ' ' }

  /** What the phrases begin with, up to a space. */
  const HEADS := ["fixed", "fix", "corrected", "correctly", "updated", "implemented", "changed", "modified", "patched"]

  lemma HeadCount()
    ensures |HEADS| == |PHRASES|
  {
  }

  lemma HeadsOfPhrases(k: nat)
    requires k < |PHRASES|
    ensures |HEADS| == |PHRASES| && HEADS[k] <= PHRASES[k]
    ensures HEADS[k] != "" && NoSpace(HEADS[k])
  {
    assert "correctly add"[..9] == "correctly";
  }

  lemma PlainHasNoHead(w: string, k: nat, i: nat)
    requires Plain(w) && k < |HEADS|
    ensures !At(Lower(w), i, HEADS[k])
  {
    hide HEADS, Plain, At, Telling, LowerChar, TellingAt;
    var s, h, j := Lower(w), HEADS[k], TellingAt(k);
    TellingIn(h, k);
    if At(s, i, h) {
      if k == 6 { AtChar(s, i, h, j + 2); }
      AtChar(s, i, h, j);
      AtChar(s, i, h, j + 1);
      PlainAt(w, i + j);
    }
  }

  function TellingAt(k: nat): nat {
    if k == 0 || k == 1 then 1
    else if k == 2 || k == 3 then 2
    else if k == 4 then 0
    else if k == 5 then 1
    else if k == 6 then 4
    else if k == 7 then 3
    else 2
  }

  lemma TellingIn(h: string, k: nat)
    requires k < |HEADS| && h == HEADS[k]
    ensures TellingAt(k) + (if k == 6 then 2 else 1) < |h|
    ensures if k == 6 then h[TellingAt(k)] == 'g' && h[TellingAt(k) + 1] == 'e' && h[TellingAt(k) + 2] == 'd'
            else Telling(h[TellingAt(k)], h[TellingAt(k) + 1])
  {
  }

  predicate AllPlain(ws: seq<string>) { forall i :: 0 <= i < |ws| ==> Plain(ws[i]) }

  lemma EvidencePlain()
    ensures AllPlain(EVIDENCE)
  {
    hide Plain;
    PlainWords();
    PlainCaptured();
    PlainNonEditing();
    PlainCodeChange();
  }

  lemma PlainWords()
    ensures Plain("task") && Plain("evidence") && Plain("and") && Plain("ignored") && Plain("a") && Plain("stray")
    ensures Plain("claim") && Plain("from") && Plain("the") && Plain("model.")
  {
    ShortWords();
    MoreWords();
    PlainModel();
  }

  lemma PlainModel()
    ensures Plain("model.")
  {
  }

  lemma ShortWords()
    ensures Plain("task") && Plain("and") && Plain("a") && Plain("stray") && Plain("claim") && Plain("from") && Plain("the")
  {
    hide Plain;
    SmallWords();
    LongerWords();
  }

  lemma SmallWords()
    ensures Plain("and") && Plain("a") && Plain("from") && Plain("the")
  {
  }

  lemma LongerWords()
    ensures Plain("task") && Plain("stray") && Plain("claim")
  {
  }

  lemma MoreWords()
    ensures Plain("evidence") && Plain("ignored")
  {
    hide Plain;
    PlainEvidence();
    PlainIgnored();
  }

  lemma PlainEvidence()
    ensures Plain("evidence")
  {
  }

  lemma PlainIgnored()
    ensures Plain("ignored")
  {
  }

  lemma PlainCaptured()
    ensures Plain("Captured")
  {
  }

  /** A hyphen keeps what is plain on its two sides apart. */
  lemma {:induction false} PlainHyphen(a: string, b: string)
    requires Plain(a) && Plain(b)
    ensures Plain(a + "-" + b)
  {
    var w := a + "-" + b;
    if a == "" {
      assert w == "-" + b;
      assert w[1..] == b;
    } else {
      PlainHyphen(a[1..], b);
      assert w[1..] == a[1..] + "-" + b;
    }
  }

  lemma NonAndEditing()
    ensures Plain("non") && Plain("editing")
  {
  }

  lemma CodeAndChange()
    ensures Plain("code") && Plain("change")
  {
  }

  lemma PlainNonEditing()
    ensures Plain("non-editing")
  {
    hide Plain;
    NonAndEditing();
    PlainHyphen("non", "editing");
    assert "non" + "-" + "editing" == "non-editing";
  }

  lemma PlainCodeChange()
    ensures Plain("code-change")
  {
    hide Plain;
    CodeAndChange();
    PlainHyphen("code", "change");
    assert "code" + "-" + "change" == "code-change";
  }

  /** A pattern without spaces does not reach over a space. */
  lemma OccursBehind(a: string, b: string, pat: string, i: nat)
    requires pat != "" && NoSpace(pat)
    requires At(a + " " + b, i, pat) && !At(a, i, pat)
    ensures i > |a| && At(b, i - |a| - 1, pat)
  {
    hide At;
    var s := a + " " + b;
    assert s[|a|] == ' ';
    Fits(s, pat, i);
    if i <= |a| < i + |pat| {
      AtChar(s, i, pat, |a| - i);
    } else if i + |pat| <= |a| {
      OccursFront(a, " " + b, pat, i);
      Regroup3(a, " ", b);
    } else {
      OccursTail(a + " ", b, pat, i);
    }
  }

  lemma Fits(s: string, pat: string, i: nat)
    requires At(s, i, pat)
    ensures i + |pat| <= |s|
  {
  }

  lemma OccursFront(a: string, b: string, pat: string, i: nat)
    requires i + |pat| <= |a|
    ensures At(a + b, i, pat) == At(a, i, pat)
  {
    assert (a + b)[i..i + |pat|] == a[i..i + |pat|];
  }

  lemma {:induction false} LowerAppend(a: string, b: string)
    ensures Lower(a + b) == Lower(a) + Lower(b)
  {
  }

  lemma LowerSpace(a: string, b: string)
    ensures Lower(a + " " + b) == Lower(a) + " " + Lower(b)
  {
    LowerAppend(a + " ", b);
    LowerAppend(a, " ");
    assert Lower(" ") == " ";
  }

  lemma JoinedRest(ws: seq<string>, rest: string)
    requires |ws| > 1
    ensures Join(ws, " ") + " " + rest == ws[0] + " " + (Join(ws[1..], " ") + " " + rest)
    ensures |Join(ws, " ")| == |ws[0]| + 1 + |Join(ws[1..], " ")|
  {
    var more := Join(ws[1..], " ");
    Regroup(ws[0], " ", more, " " + rest);
    Regroup3(ws[0] + " " + more, " ", rest);
  }

  /** Behind plain words, what a phrase begins with occurs in the rest or not at all. */
  lemma {:induction false} HeadBehindWords(ws: seq<string>, rest: string, k: nat, i: nat)
    requires ws != [] && AllPlain(ws) && k < |HEADS|
    requires At(Lower(Join(ws, " ") + " " + rest), i, HEADS[k])
    ensures i > |Join(ws, " ")|
    decreases |ws|
  {
    hide Lower, HEADS, Plain, At;
    HeadCount();
    HeadsOfPhrases(k);
    PlainHasNoHead(ws[0], k, i);
    if |ws| == 1 {
      LowerSpace(ws[0], rest);
      OccursBehind(Lower(ws[0]), Lower(rest), HEADS[k], i);
    } else {
      var after := Join(ws[1..], " ") + " " + rest;
      JoinedRest(ws, rest);
      LowerSpace(ws[0], after);
      OccursBehind(Lower(ws[0]), Lower(after), HEADS[k], i);
      HeadBehindWords(ws[1..], rest, k, i - |ws[0]| - 1);
    }
  }

  lemma OccursPrefix(s: string, head: string, pat: string, i: nat)
    requires At(s, i, pat) && head <= pat
    ensures At(s, i, head)
  {
    assert s[i..i + |head|] == s[i..i + |pat|][..|head|];
  }

  lemma OccursTail(a: string, b: string, pat: string, i: nat)
    requires i >= |a| && At(a + b, i, pat)
    ensures At(b, i - |a|, pat)
  {
    assert (a + b)[i..i + |pat|] == b[i - |a|..i - |a| + |pat|];
  }

  lemma OccursInTail(a: string, b: string, pat: string, i: nat)
    requires At(b, i, pat)
    ensures At(a + b, |a| + i, pat)
  {
    assert (a + b)[|a| + i..|a| + i + |pat|] == b[i..i + |pat|];
  }

  /** The summary of a coerced answer adds no claim to the recommendation it is put in front of. */
  lemma EvidenceClaimsNothing(next: string)
    ensures ClaimsChange(Join(EVIDENCE, " ") + " " + next) <==> ClaimsChange(next)
  {
    hide Lower, HEADS, PHRASES, EVIDENCE, At;
    var summary := Join(EVIDENCE, " ");
    LowerSpace(summary, next);
    EvidenceSome();
    EvidencePlain();
    if k :| 0 <= k < |PHRASES| && Contains(Lower(summary + " " + next), PHRASES[k]) {
      var i: nat :| i <= |summary + " " + next| && At(Lower(summary + " " + next), i, PHRASES[k]);
      HeadsOfPhrases(k);
      OccursPrefix(Lower(summary + " " + next), HEADS[k], PHRASES[k], i);
      HeadBehindWords(EVIDENCE, next, k, i);
      OccursTail(Lower(summary) + " ", Lower(next), PHRASES[k], i);
      OccursContained(Lower(next), PHRASES[k], i - |summary| - 1);
    }
    if k :| 0 <= k < |PHRASES| && Contains(Lower(next), PHRASES[k]) {
      var i: nat :| i <= |next| && At(Lower(next), i, PHRASES[k]);
      OccursInTail(Lower(summary) + " ", Lower(next), PHRASES[k], i);
      OccursContained(Lower(summary + " " + next), PHRASES[k], |summary| + 1 + i);
    }
  }

  lemma OccursContained(s: string, pat: string, i: nat)
    requires At(s, i, pat)
    ensures Contains(s, pat)
  {
  }

  lemma EvidenceSome()
    ensures EVIDENCE != []
  {
  }

  // ---------- The check of a coerced answer ----------

  /** The tests that the answer's report lists. */
  function TestsRun(env: Env, a: Answer): seq<string> {
    if Parsed(env, a).None? || !Get(Parsed(env, a).value, "report").Obj? then []
    else Texts(env, Listed(env, Get(Get(Parsed(env, a).value, "report").fields, "tests_run")))
  }

  /** What the answer recommends next. */
  function NextTask(env: Env, a: Answer): string {
    if Parsed(env, a).None? || !Get(Parsed(env, a).value, "report").Obj? then ""
    else ShownOr(env, Get(Get(Parsed(env, a).value, "report").fields, "recommended_next_task"))
  }

  lemma Solids()
    ensures !IsSpace('d') && !IsSpace('e') && !IsSpace('b')
  {
  }

  lemma LowerDone()
    ensures Lower("done") == "done"
  {
    var r := Lower("done");
    assert r[0] == 'd' && r[1] == 'o' && r[2] == 'n' && r[3] == 'e';
  }

  lemma DoneOrBlocked()
    ensures Lower(Strip("done")) == "done" && |Lower(Strip("blocked"))| == 7
  {
    hide IsSpace;
    Solids();
    assert "done"[0..] == "done" && "blocked"[0..] == "blocked";
    assert Strip("done") == "done" && Strip("blocked") == "blocked";
    LowerDone();
  }

  /** A coerced answer has no edits and no changed files, says `done` exactly when tests were run, and
      passes the check that led to it unless the prompt asks for edits and it says `done` and recommends
      a code change. */
  lemma CoercedPasses(env: Env, prompt: Prompt, a: Answer, reason: Reason, b: Answer)
    requires Coerced(env, prompt, a, reason).Some? && b.json == Coerced(env, prompt, a, reason)
    ensures Get(Parsed(env, b).value, "edits") == List([])
    ensures var report := Get(Parsed(env, b).value, "report");
      report.Obj? && Get(report.fields, "files_changed") == List([])
      && Get(report.fields, "status") == Str(if TestsRun(env, a) != [] then "done" else "blocked")
    ensures RepairReason(env, prompt, b) ==
            if prompt.asksEdits && TestsRun(env, a) != [] && ClaimsChange(NextTask(env, a)) then Some(ClaimWhereNone)
            else None
  {
    hide CoercedReport, Texts, ClaimsChange, Normal, EVIDENCE, NO_EVIDENCE, Lower, Strip;
    var p := Coerced(env, prompt, a, reason).value;
    var given := Get(Parsed(env, a).value, "report").fields;
    CoercedShape(env, prompt, a, reason);
    CoercedKeys(env, given, reason);
    var report := CoercedReport(env, given, reason);
    DoneOrBlocked();
    StatusIs(env, report);
    if TestsRun(env, a) != [] {
      SummaryIs(env, report);
      EvidenceClaimsNothing(NextTask(env, a));
    }
  }

  /** The texts that a field lists, blank ones left out. */
  function Given(env: Env, report: Payload, key: string): seq<string> { Texts(env, Listed(env, Get(report, key))) }

  /** The list shows these texts and then, if `more`, this one. */
  predicate ListsThen(j: Json, texts: seq<string>, more: bool, last: string) {
    && j.List? && |j.items| == |texts| + (if more then 1 else 0)
    && (forall i :: 0 <= i < |texts| ==> j.items[i] == Str(texts[i]))
    && (more ==> j.items[|texts|] == Str(last))
  }

  lemma {:induction false} StrsAre(texts: seq<string>)
    ensures |Strs(texts)| == |texts| && forall i :: 0 <= i < |texts| ==> Strs(texts)[i] == Str(texts[i])
  {
    if texts != [] { StrsAre(texts[1..]); }
  }

  lemma ListsMore(texts: seq<string>, more: bool, last: string)
    ensures ListsThen(List(Strs(if more then texts + [last] else texts)), texts, more, last)
  {
    hide Strs;
    StrsAre(texts);
    StrsAre(texts + [last]);
  }

  /** What coercion leaves of the report: the complaint is the last blocker unless it was one already; the
      summary that is given up is the last risk if tests were run; and other fields stay. */
  lemma CoercedTells(env: Env, prompt: Prompt, a: Answer, reason: Reason)
    requires Coerced(env, prompt, a, reason).Some?
    ensures prompt.editing == Some(false) && a.json.Some? && Get(a.json.value, "report").Obj?
    ensures var given, p := Get(a.json.value, "report").fields, Coerced(env, prompt, a, reason).value;
      var r := Get(p, "report");
      var summary, tests := Strip(ShownOr(env, Get(given, "summary"))), Given(env, given, "tests_run") != [];
      && r.Obj? && (forall k :: k != "report" && k != "edits" ==> Get(p, k) == Get(a.json.value, k))
      && (forall k :: k != "status" && k != "summary" && k != "files_changed" && k != "blockers" && k != "risks" ==>
            Get(r.fields, k) == Get(given, k))
      && Get(r.fields, "summary") == Str(if tests then Join(EVIDENCE, " ") else NO_EVIDENCE)
      && ListsThen(Get(r.fields, "blockers"), Given(env, given, "blockers"),
                   env.wording(reason) !in Given(env, given, "blockers"), env.wording(reason))
      && ListsThen(Get(r.fields, "risks"), Given(env, given, "risks"), tests && summary != "", NOTE + summary)
  {
    hide CoercedReport, Texts, Listed, Normal, Strip, EVIDENCE, NO_EVIDENCE, NOTE, ListsThen;
    var q := a.json.value;
    NormalOthers(env, q);
    var given := Get(q, "report").fields;
    CoercedKeys(env, given, reason);
    CoercedLists(env, given, reason);
    assert "report"[0] != "edits"[0];
  }

  lemma NormalOthers(env: Env, p: Payload)
    ensures forall k :: k != "edits" ==> Get(Normal(env, p), k) == Get(p, k)
  {
    hide Texts, Stripped, NormalEdits, Listed;
    assert "report"[0] == 'r' && "edits"[0] == 'e';
  }

  lemma CoercedLists(env: Env, report: Payload, reason: Reason)
    ensures var r := CoercedReport(env, report, reason);
      var summary, tests := Strip(ShownOr(env, Get(report, "summary"))), Given(env, report, "tests_run") != [];
      && (forall k :: k != "status" && k != "summary" && k != "files_changed" && k != "blockers" && k != "risks" ==>
            Get(r, k) == Get(report, k))
      && ListsThen(Get(r, "blockers"), Given(env, report, "blockers"),
                   env.wording(reason) !in Given(env, report, "blockers"), env.wording(reason))
      && ListsThen(Get(r, "risks"), Given(env, report, "risks"), tests && summary != "", NOTE + summary)
  {
    hide Texts, Listed, Strs, Strip, EVIDENCE, NO_EVIDENCE, NOTE, ListsThen, ShownOr, Join;
    KeyLengths();
    var blockers, why := Given(env, report, "blockers"), env.wording(reason);
    var risks, summary := Given(env, report, "risks"), Strip(ShownOr(env, Get(report, "summary")));
    ListsMore(blockers, why !in blockers, why);
    ListsMore(risks, Given(env, report, "tests_run") != [] && summary != "", NOTE + summary);
  }

  const FIX_REPORT := map["tests_run" := List([Str("t")]), "recommended_next_task" := Str("fix")]

  /** An answer on a non-editing task that lists a test and recommends to fix something: its coerced form
      is complained about. */
  lemma FixIsClaimed(env: Env, prompt: Prompt, a: Answer, reason: Reason, b: Answer)
    requires prompt.asksEdits && prompt.editing == Some(false)
    requires a.json == Some(map["report" := Obj(FIX_REPORT), "edits" := List([])])
    requires b.json == Coerced(env, prompt, a, reason)
    ensures b.json.Some? && RepairReason(env, prompt, b) == Some(ClaimWhereNone)
  {
    hide CoercedReport, ClaimsChange, RepairReason, Strip;
    FixParsed(env, a);
    FixClaims(env, a);
    CoercedPasses(env, prompt, a, reason, b);
  }

  lemma FixParsed(env: Env, a: Answer)
    requires a.json == Some(map["report" := Obj(FIX_REPORT), "edits" := List([])])
    ensures Parsed(env, a).Some? && Get(Parsed(env, a).value, "report") == Obj(FIX_REPORT)
  {
    hide Texts, Stripped, NormalEdits, FIX_REPORT;
  }

  lemma FixClaims(env: Env, a: Answer)
    requires Parsed(env, a).Some? && Get(Parsed(env, a).value, "report") == Obj(FIX_REPORT)
    ensures TestsRun(env, a) == ["t"] && ClaimsChange(NextTask(env, a))
  {
    hide Parsed, ClaimsChange, Texts;
    OneTest(env);
    assert NextTask(env, a) == "fix";
    FixIsChange();
  }

  lemma OneTest(env: Env)
    ensures Texts(env, [Str("t")]) == ["t"]
  {
    hide Strip;
    StripT();
    assert [Str("t")][1..] == [];
  }

  lemma FixIsChange()
    ensures ClaimsChange("fix")
  {
    hide Lower;
    LowerFix();
    assert PHRASES[1] == "fix" && "fix"[0..0 + 3] == "fix";
    OccursContained(Lower("fix"), PHRASES[1], 0);
  }

  lemma StripT()
    ensures Strip("t") == "t"
  {
    assert !IsSpace('t');
    StripTrimmed("t");
  }

  lemma LowerFix()
    ensures Lower("fix") == "fix"
  {
    var r := Lower("fix");
    assert r[0] == 'f' && r[1] == 'i' && r[2] == 'x';
  }

  lemma StatusIs(env: Env, report: Payload)
    requires Get(report, "status") == Str("done") || Get(report, "status") == Str("blocked")
    ensures IsDone(env, report) <==> Get(report, "status") == Str("done")
  {
    hide Lower, Strip;
    DoneOrBlocked();
  }

  lemma SummaryIs(env: Env, report: Payload)
    requires Get(report, "summary") == Str(Join(EVIDENCE, " "))
    ensures ReportClaims(env, report) <==>
              ClaimsChange(Join(EVIDENCE, " ") + " " + ShownOr(env, Get(report, "recommended_next_task")))
  {
    hide ClaimsChange, Join, EVIDENCE;
    if Join(EVIDENCE, " ") == "" { assert ShownOr(env, Get(report, "summary")) == ""; }
  }
}
