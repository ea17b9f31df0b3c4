/** The prompt files that are written from the prompt catalog, and the check they must pass. */
module Prompts {
  import opened Text

  datatype Prompt = Prompt(name: string, aliases: seq<string>, title: string, description: string, tools: seq<string>,
                           resources: seq<string>, safety: string, text: string)

  const MARKER := "## Tool Sequence"

  // ---------- Writing ----------

  predicate IsLower(c: char) { 'a' <= c <= 'z' }

  predicate IsUpper(c: char) { 'A' <= c <= 'Z' }

  /** `s.title()` of a text that is ASCII; `inside` says that a letter comes before. */
  function TitleCase(s: string, inside: bool): string {
    if s == "" then ""
    else
      var c := s[0];
      var d := if inside && IsUpper(c) then (c as int + 32) as char
               else if !inside && IsLower(c) then (c as int - 32) as char
               else c;
      [d] + TitleCase(s[1..], IsLower(c) || IsUpper(c))
  }

  /** `s.replace("_", " ").replace("-", " ")` */
  function Spaced(s: string): string {
    if s == "" then "" else [if s[0] == '_' || s[0] == '-' then ' ' else s[0]] + Spaced(s[1..])
  }

  function Title(p: Prompt): string { if p.title != "" then p.title else TitleCase(Spaced(p.name), false) }

  function Notice(p: Prompt, stem: string): string { if stem != p.name then "Alias for `" + p.name + "`." else "" }

  function Items(items: seq<string>, otherwise: string): seq<string> {
    if items == [] then [otherwise] else Bullets(items)
  }

  function Bullets(items: seq<string>): seq<string> {
    if items == [] then [] else ["- `" + items[0] + "`"] + Bullets(items[1..])
  }

  function Or(s: string, otherwise: string): string { if Strip(s) != "" then Strip(s) else otherwise }

  function HeadLines(p: Prompt, stem: string): seq<string> {
    ["# " + Title(p), "", Notice(p, stem), "Canonical prompt: `" + p.name + "`", "Invocation name: `" + stem + "`", ""]
  }

  function Purpose(p: Prompt): seq<string> {
    if Strip(p.description) != "" then ["## Purpose", "", Strip(p.description), ""] else []
  }

  const NO_TOOLS := "- No explicit Mission " + "Control tools are declared."
  const NO_RESOURCES := "- No explicit Mission " + "Control resources are declared."
  const NO_SAFETY := "Use safe summaries and surface pending " + "approvals instead of inventing answers."
  const NO_TEXT := "No prompt text was declared."

  function Contract(p: Prompt): seq<string> {
    [""] + Items(p.tools, NO_TOOLS)
    + ["", "## Resource Sequence", ""] + Items(p.resources, NO_RESOURCES)
    + ["", "## Safety Notes", ""] + [Or(p.safety, NO_SAFETY), ""]
    + ["## Prompt Text", "", Or(p.text, NO_TEXT), ""]
  }

  /** `render_prompt_markdown` */
  function Render(p: Prompt, stem: string): string {
    Strip(Join(HeadLines(p, stem) + (Purpose(p) + ([MARKER] + Contract(p))), "\n")) + "\n"
  }

  function Stems(p: Prompt): seq<string> { [p.name] + p.aliases }

  /** The files that a catalog should have, by stem. */
  function AllStems(catalog: seq<Prompt>): set<string> {
    set i, j | 0 <= i < |catalog| && 0 <= j < |Stems(catalog[i])| :: Stems(catalog[i])[j]
  }

  /** A directory of prompt files: the text of `stem.md` by stem. */
  class PromptDirectory {
    var files: map<string, string>

    constructor (files: map<string, string>)
      ensures this.files == files
    {
      this.files := files;
    }

    /** `sync_prompt_markdown`: every stem has the file written last for it, and there are no others. */
    method Sync(catalog: seq<Prompt>)
      modifies this
      ensures files == Written(catalog, |catalog|, 0)
    {
      hide Written, Render, Stems;
      ghost var before := files;
      var expected: set<string> := {};
      WrittenNone(catalog, before);
      for i := 0 to |catalog|
        invariant expected == Written(catalog, i, 0).Keys && files == before + Written(catalog, i, 0)
      {
        var stems := Stems(catalog[i]);
        for j := 0 to |stems|
          invariant expected == Written(catalog, i, j).Keys && files == before + Written(catalog, i, j)
        {
          WrittenNext(catalog, i, j);
          expected := expected + {stems[j]};
          files := files[stems[j] := Render(catalog[i], stems[j])];
        }
        WrittenAll(catalog, i);
      }
      files := map stem | stem in files && stem in expected :: files[stem];
    }
  }

  /** What has been written when `i` prompts and `j` stems of the next are done. */
  function Written(catalog: seq<Prompt>, i: nat, j: nat): map<string, string>
    requires i <= |catalog| && (i < |catalog| ==> j <= |Stems(catalog[i])|) && (i == |catalog| ==> j == 0)
    decreases i, j
  {
    if j > 0 then Written(catalog, i, j - 1)[Stems(catalog[i])[j - 1] := Render(catalog[i], Stems(catalog[i])[j - 1])]
    else if i > 0 then Written(catalog, i - 1, |Stems(catalog[i - 1])|)
    else map[]
  }

  lemma WrittenNone(catalog: seq<Prompt>, before: map<string, string>)
    ensures Written(catalog, 0, 0) == map[] && before + Written(catalog, 0, 0) == before
  {
  }

  lemma WrittenNext(catalog: seq<Prompt>, i: nat, j: nat)
    requires i < |catalog| && j < |Stems(catalog[i])|
    ensures Written(catalog, i, j + 1) == Written(catalog, i, j)[Stems(catalog[i])[j] := Render(catalog[i], Stems(catalog[i])[j])]
  {
    hide Render;
  }

  lemma WrittenAll(catalog: seq<Prompt>, i: nat)
    requires i < |catalog|
    ensures Written(catalog, i + 1, 0) == Written(catalog, i, |Stems(catalog[i])|)
  {
    hide Stems, Render;
  }

  // ---------- Checking ----------

  /** The first occurrence. */
  function Find(s: string, pat: string): (r: Option<nat>)
    ensures r.Some? ==> At(s, r.value, pat)
    ensures forall j :: 0 <= j < (if r.Some? then r.value else |s| + 1) ==> !At(s, j, pat)
  {
    if At(s, 0, pat) then Some(0)
    else if s == "" then None
    else
      var r := Find(s[1..], pat);
      assert forall j :: 1 <= j <= |s| ==> At(s, j, pat) == At(s[1..], j - 1, pat) by { OccursShift(s, pat); }
      if r.Some? then Some(r.value + 1) else None
  }

  lemma OccursShift(s: string, pat: string)
    requires s != ""
    ensures forall j :: 1 <= j <= |s| ==> At(s, j, pat) == At(s[1..], j - 1, pat)
  {
    var t := s[1..];
    assert s == [s[0]] + t;
    forall j | 1 <= j <= |s|
      ensures At(s, j, pat) == At(t, j - 1, pat)
    {
      if j + |pat| <= |s| { assert ([s[0]] + t)[j..j + |pat|] == t[j - 1..j - 1 + |pat|]; }
    }
  }

  /** `s.split(MARKER, 1)[1]`; `None` where that raises */
  function AfterMarker(s: string): Option<string> {
    var r := Find(s, MARKER);
    if r.Some? then Some(s[r.value + |MARKER|..]) else None
  }

  datatype Complaint =
    | MissingFiles(stems: set<string>) | ExtraFiles(stems: set<string>)
    | MissingPrompt(stem: string) | EmptyPrompt(stem: string)
    | MissingAlias(stem: string)
    | NoCanonicalLine(stem: string) | NoInvocationLine(stem: string) | Drifted(stem: string)

  function CanonicalLine(name: string): string { "Canonical prompt: `" + name + "`" }

  function InvocationLine(alias: string): string { "Invocation name: `" + alias + "`" }

  /** The file of an alias agrees with the text of its prompt; both hold the marker. */
  predicate AliasAgrees(p: Prompt, text: string, alias: string, files: map<string, string>) {
    && alias in files
    && Find(files[alias], CanonicalLine(p.name)).Some?
    && Find(files[alias], InvocationLine(alias)).Some?
    && AfterMarker(text).Some? && AfterMarker(text) == AfterMarker(files[alias])
  }

  predicate PromptAgrees(p: Prompt, files: map<string, string>) {
    && p.name in files && Strip(files[p.name]) != ""
    && forall j :: 0 <= j < |p.aliases| ==> AliasAgrees(p, files[p.name], p.aliases[j], files)
  }

  /** What the check asks of the two directories. */
  predicate Accepts(catalog: seq<Prompt>, files: map<string, string>, mirror: map<string, string>) {
    && files.Keys == AllStems(catalog) && mirror.Keys == AllStems(catalog)
    && forall i :: 0 <= i < |catalog| ==> PromptAgrees(catalog[i], files)
  }

  /** The prompt's own file is there and not blank, so its aliases are looked at. */
  predicate Readable(p: Prompt, files: map<string, string>) { p.name in files && Strip(files[p.name]) != "" }

  /** What a complaint says of a prompt and the first `n` of its aliases. */
  predicate FlawOf(c: Complaint, p: Prompt, files: map<string, string>, n: nat)
    requires n <= |p.aliases|
  {
    match c
    case MissingPrompt(stem) => stem == p.name && stem !in files
    case EmptyPrompt(stem) => stem == p.name && stem in files && Strip(files[stem]) == ""
    case MissingAlias(alias) => Readable(p, files) && alias in p.aliases[..n] && alias !in files
    case NoCanonicalLine(alias) =>
      Readable(p, files) && alias in p.aliases[..n] && alias in files && Find(files[alias], CanonicalLine(p.name)).None?
    case NoInvocationLine(alias) =>
      Readable(p, files) && alias in p.aliases[..n] && alias in files && Find(files[alias], InvocationLine(alias)).None?
    case Drifted(alias) =>
      Readable(p, files) && alias in p.aliases[..n] && alias in files
      && AfterMarker(files[p.name]) != AfterMarker(files[alias])
    case _ => false
  }

  /** What is wrong with one of the first `i` prompts. */
  ghost predicate FlawBelow(c: Complaint, catalog: seq<Prompt>, files: map<string, string>, i: nat)
    requires i <= |catalog|
  {
    exists k :: 0 <= k < i && FlawOf(c, catalog[k], files, |catalog[k].aliases|)
  }

  /** The files of a directory are not those of the catalog. */
  predicate FilesDiffer(c: Complaint, catalog: seq<Prompt>, files: map<string, string>) {
    match c
    case MissingFiles(stems) => stems == AllStems(catalog) - files.Keys && stems != {}
    case ExtraFiles(stems) => stems == files.Keys - AllStems(catalog) && stems != {}
    case _ => false
  }

  lemma OneAliasMore(c: Complaint, p: Prompt, files: map<string, string>, n: nat)
    requires n < |p.aliases|
    ensures FlawOf(c, p, files, n + 1) <==> FlawOf(c, p, files, n) || AliasFlaw(c, p, files, p.aliases[n])
  {
    hide Strip, Find, AfterMarker, CanonicalLine, InvocationLine;
    assert p.aliases[..n + 1] == p.aliases[..n] + [p.aliases[n]];
  }

  /** What is wrong with one alias. */
  predicate AliasFlaw(c: Complaint, p: Prompt, files: map<string, string>, alias: string) {
    Readable(p, files) &&
    match c
    case MissingAlias(a) => a == alias && alias !in files
    case NoCanonicalLine(a) => a == alias && alias in files && Find(files[alias], CanonicalLine(p.name)).None?
    case NoInvocationLine(a) => a == alias && alias in files && Find(files[alias], InvocationLine(alias)).None?
    case Drifted(a) => a == alias && alias in files && AfterMarker(files[p.name]) != AfterMarker(files[alias])
    case _ => false
  }

  lemma OnePromptMore(c: Complaint, catalog: seq<Prompt>, files: map<string, string>, i: nat)
    requires i < |catalog|
    ensures FlawBelow(c, catalog, files, i + 1) <==>
              FlawBelow(c, catalog, files, i) || FlawOf(c, catalog[i], files, |catalog[i].aliases|)
  {
    hide FlawOf;
  }

  lemma NoAliasYet(c: Complaint, p: Prompt, files: map<string, string>)
    ensures Readable(p, files) ==> !FlawOf(c, p, files, 0)
    ensures !Readable(p, files) ==> (FlawOf(c, p, files, |p.aliases|) <==>
              c == if p.name in files then EmptyPrompt(p.name) else MissingPrompt(p.name))
  {
    hide Strip, Find, AfterMarker, CanonicalLine, InvocationLine;
  }

  method ValidateDirectory(catalog: seq<Prompt>, files: map<string, string>) returns (complaints: seq<Complaint>)
    ensures complaints == [] <==> files.Keys == AllStems(catalog)
    ensures forall c :: c in complaints <==> FilesDiffer(c, catalog, files)
  {
    complaints := [];
    var missing, extra := AllStems(catalog) - files.Keys, files.Keys - AllStems(catalog);
    if missing != {} {
      complaints := complaints + [MissingFiles(missing)];
    }
    if extra != {} {
      complaints := complaints + [ExtraFiles(extra)];
    }
    assert missing == {} && extra == {} <==> files.Keys == AllStems(catalog) by {
      assert files.Keys == AllStems(catalog) - missing + extra;
    }
  }

  /** A file in which the check does not find the marker to split at. */
  predicate Unsplit(p: Prompt, files: map<string, string>, alias: string) {
    Readable(p, files) && alias in files && (AfterMarker(files[p.name]).None? || AfterMarker(files[alias]).None?)
  }

  predicate AllSplit(p: Prompt, files: map<string, string>, n: nat)
    requires n <= |p.aliases|
  {
    forall j :: 0 <= j < n ==> !Unsplit(p, files, p.aliases[j])
  }

  ghost predicate AllSplitBelow(catalog: seq<Prompt>, files: map<string, string>, i: nat)
    requires i <= |catalog|
  {
    forall k :: 0 <= k < i ==> AllSplit(catalog[k], files, |catalog[k].aliases|)
  }

  /** What has been added to the complaints is what is wrong with a prompt and its first `n` aliases. */
  ghost predicate Tells(before: seq<Complaint>, after: seq<Complaint>, p: Prompt, files: map<string, string>, n: nat)
    requires n <= |p.aliases|
  {
    forall c :: c in after <==> c in before || FlawOf(c, p, files, n)
  }

  /** The complaints after the first `i` prompts. */
  ghost predicate TellsBelow(before: seq<Complaint>, after: seq<Complaint>, catalog: seq<Prompt>,
                             files: map<string, string>, i: nat)
    requires i <= |catalog|
  {
    forall c :: c in after <==> c in before || FlawBelow(c, catalog, files, i)
  }

  lemma TellsNext(before: seq<Complaint>, sofar: seq<Complaint>, after: seq<Complaint>, catalog: seq<Prompt>,
                  files: map<string, string>, i: nat)
    requires i < |catalog| && TellsBelow(before, sofar, catalog, files, i)
    requires Tells(sofar, after, catalog[i], files, |catalog[i].aliases|)
    ensures TellsBelow(before, after, catalog, files, i + 1)
  {
    hide FlawOf, FlawBelow;
    forall c
      ensures c in after <==> c in before || FlawBelow(c, catalog, files, i + 1)
    {
      OnePromptMore(c, catalog, files, i);
    }
  }

  lemma TellsAlias(sofar: seq<Complaint>, before: seq<Complaint>, after: seq<Complaint>, p: Prompt,
                   files: map<string, string>, j: nat)
    requires j < |p.aliases| && Tells(sofar, before, p, files, j)
    requires forall c :: c in after <==> c in before || AliasFlaw(c, p, files, p.aliases[j])
    ensures Tells(sofar, after, p, files, j + 1)
  {
    hide FlawOf, AliasFlaw;
    forall c
      ensures c in after <==> c in sofar || FlawOf(c, p, files, j + 1)
    {
      OneAliasMore(c, p, files, j);
    }
  }

  /** What is complained of when the prompt's own file is not there or blank. */
  lemma TellsUnreadable(sofar: seq<Complaint>, p: Prompt, files: map<string, string>)
    requires !Readable(p, files)
    ensures Tells(sofar, sofar + [if p.name in files then EmptyPrompt(p.name) else MissingPrompt(p.name)], p, files, |p.aliases|)
    ensures AllSplit(p, files, |p.aliases|)
  {
    hide FlawOf, Readable;
    forall c
      ensures FlawOf(c, p, files, |p.aliases|) <==> c == if p.name in files then EmptyPrompt(p.name) else MissingPrompt(p.name)
    {
      NoAliasYet(c, p, files);
    }
  }

  lemma TellsReadable(sofar: seq<Complaint>, p: Prompt, files: map<string, string>)
    requires Readable(p, files)
    ensures Tells(sofar, sofar, p, files, 0)
  {
    hide FlawOf, Readable;
    forall c
      ensures !FlawOf(c, p, files, 0)
    {
      NoAliasYet(c, p, files);
    }
  }

  ghost predicate NoFlawOf(p: Prompt, files: map<string, string>) { forall c :: !FlawOf(c, p, files, |p.aliases|) }

  /** The check accepts the directories exactly if there is nothing to complain of and every file can be split. */
  lemma AcceptsIs(catalog: seq<Prompt>, files: map<string, string>, mirror: map<string, string>)
    ensures Accepts(catalog, files, mirror) <==>
              && AllSplitBelow(catalog, files, |catalog|)
              && forall c :: !FilesDiffer(c, catalog, files) && !FilesDiffer(c, catalog, mirror)
                             && !FlawBelow(c, catalog, files, |catalog|)
  {
    hide AllStems, FlawBelow, AllSplit, PromptAgrees, FilesDiffer, NoFlawOf;
    forall i | 0 <= i < |catalog|
      ensures PromptAgrees(catalog[i], files) <==>
                AllSplit(catalog[i], files, |catalog[i].aliases|) && NoFlawOf(catalog[i], files)
    {
      AgreesIs(catalog[i], files);
    }
    FilesAgree(catalog, files);
    FilesAgree(catalog, mirror);
    BelowIs(catalog, files);
  }

  lemma BelowIs(catalog: seq<Prompt>, files: map<string, string>)
    ensures (forall c :: !FlawBelow(c, catalog, files, |catalog|)) <==>
              forall k :: 0 <= k < |catalog| ==> NoFlawOf(catalog[k], files)
  {
    hide FlawOf;
    if forall c :: !FlawBelow(c, catalog, files, |catalog|) {
      forall k, c | 0 <= k < |catalog|
        ensures !FlawOf(c, catalog[k], files, |catalog[k].aliases|)
      {
        assert !FlawBelow(c, catalog, files, |catalog|);
      }
    }
  }

  lemma FilesAgree(catalog: seq<Prompt>, files: map<string, string>)
    ensures files.Keys == AllStems(catalog) <==> forall c :: !FilesDiffer(c, catalog, files)
  {
    hide AllStems;
    var missing, extra := AllStems(catalog) - files.Keys, files.Keys - AllStems(catalog);
    if forall c :: !FilesDiffer(c, catalog, files) {
      assert !FilesDiffer(MissingFiles(missing), catalog, files) && !FilesDiffer(ExtraFiles(extra), catalog, files);
      assert files.Keys == AllStems(catalog) - missing + extra;
    }
  }

  lemma AgreesIs(p: Prompt, files: map<string, string>)
    ensures PromptAgrees(p, files) <==>
              AllSplit(p, files, |p.aliases|) && NoFlawOf(p, files)
  {
    hide AfterMarker, Find, Strip, CanonicalLine, InvocationLine;
    assert p.aliases[..|p.aliases|] == p.aliases;
    if !Readable(p, files) {
      assert FlawOf(if p.name in files then EmptyPrompt(p.name) else MissingPrompt(p.name), p, files, |p.aliases|);
    } else {
      forall j | 0 <= j < |p.aliases|
        ensures AliasAgrees(p, files[p.name], p.aliases[j], files) <==>
                  !Unsplit(p, files, p.aliases[j]) && forall c :: !AliasFlaw(c, p, files, p.aliases[j])
      {
        AliasIs(p, files, p.aliases[j]);
      }
      FlawsAre(p, files);
    }
  }

  lemma AliasIs(p: Prompt, files: map<string, string>, alias: string)
    requires Readable(p, files)
    ensures AliasAgrees(p, files[p.name], alias, files) <==>
              !Unsplit(p, files, alias) && forall c :: !AliasFlaw(c, p, files, alias)
  {
    hide AfterMarker, Find, Strip, CanonicalLine, InvocationLine;
    assert alias !in files ==> AliasFlaw(MissingAlias(alias), p, files, alias);
    if alias in files {
      assert Find(files[alias], CanonicalLine(p.name)).None? ==> AliasFlaw(NoCanonicalLine(alias), p, files, alias);
      assert Find(files[alias], InvocationLine(alias)).None? ==> AliasFlaw(NoInvocationLine(alias), p, files, alias);
      assert AfterMarker(files[p.name]) != AfterMarker(files[alias]) ==> AliasFlaw(Drifted(alias), p, files, alias);
    }
  }

  lemma FlawsAre(p: Prompt, files: map<string, string>)
    requires Readable(p, files)
    ensures (forall c :: !FlawOf(c, p, files, |p.aliases|)) <==>
              forall c, j :: 0 <= j < |p.aliases| ==> !AliasFlaw(c, p, files, p.aliases[j])
  {
    hide FlawOf, AliasFlaw, Readable;
    if c, j :| 0 <= j < |p.aliases| && AliasFlaw(c, p, files, p.aliases[j]) {
      SomeFlaw(c, p, files, j);
    }
    if c :| FlawOf(c, p, files, |p.aliases|) {
      var j := SomeAlias(c, p, files);
    }
  }

  lemma SomeFlaw(c: Complaint, p: Prompt, files: map<string, string>, j: nat)
    requires Readable(p, files) && j < |p.aliases| && AliasFlaw(c, p, files, p.aliases[j])
    ensures FlawOf(c, p, files, |p.aliases|)
  {
    hide AfterMarker, Find, Strip, CanonicalLine, InvocationLine;
    assert p.aliases[..|p.aliases|] == p.aliases && p.aliases[j] in p.aliases;
  }

  lemma SomeAlias(c: Complaint, p: Prompt, files: map<string, string>) returns (j: nat)
    requires Readable(p, files) && FlawOf(c, p, files, |p.aliases|)
    ensures j < |p.aliases| && AliasFlaw(c, p, files, p.aliases[j])
  {
    hide AfterMarker, Find, Strip, CanonicalLine, InvocationLine;
    assert p.aliases[..|p.aliases|] == p.aliases;
    var alias := match c case MissingAlias(a) => a case NoCanonicalLine(a) => a case NoInvocationLine(a) => a
                         case Drifted(a) => a case _ => "";
    j :| 0 <= j < |p.aliases| && p.aliases[j] == alias;
  }

  /** `validate`: every flaw is complained of, and nothing else. A text without the marker, which the check
      cannot split, is `split == false`. */
  method Validate(catalog: seq<Prompt>, files: map<string, string>, mirror: map<string, string>)
    returns (complaints: seq<Complaint>, split: bool)
    ensures split <==> AllSplitBelow(catalog, files, |catalog|)
    ensures split ==> forall c :: c in complaints <==>
              FilesDiffer(c, catalog, files) || FilesDiffer(c, catalog, mirror) || FlawBelow(c, catalog, files, |catalog|)
    ensures complaints == [] && split <==> Accepts(catalog, files, mirror)
  {
    hide AllStems, AfterMarker, Find, Strip, CanonicalLine, InvocationLine, FlawOf, FlawBelow, FilesDiffer, Accepts,
         Tells, TellsBelow, AllSplit;
    split := true;
    var first := ValidateDirectory(catalog, files);
    var second := ValidateDirectory(catalog, mirror);
    complaints := first + second;
    NothingBelow(first + second, catalog, files);
    for i := 0 to |catalog|
      invariant split && AllSplitBelow(catalog, files, i)
      invariant TellsBelow(first + second, complaints, catalog, files, i)
    {
      var p := catalog[i];
      ghost var sofar := complaints;
      if p.name !in files {
        TellsUnreadable(sofar, p, files);
        complaints := complaints + [MissingPrompt(p.name)];
        TellsNext(first + second, sofar, complaints, catalog, files, i);
        continue;
      }
      var text := files[p.name];
      if Strip(text) == "" {
        TellsUnreadable(sofar, p, files);
        complaints := complaints + [EmptyPrompt(p.name)];
        TellsNext(first + second, sofar, complaints, catalog, files, i);
        continue;
      }
      TellsReadable(sofar, p, files);
      NoneSplitYet(p, files);
      for j := 0 to |p.aliases|
        invariant split && AllSplit(p, files, j)
        invariant Tells(sofar, complaints, p, files, j)
      {
        var alias := p.aliases[j];
        ghost var before := complaints;
        SplitMore(p, files, j);
        if alias !in files {
          complaints := complaints + [MissingAlias(alias)];
          TellsAlias(sofar, before, complaints, p, files, j);
          continue;
        }
        var other := files[alias];
        if Find(other, CanonicalLine(p.name)).None? {
          complaints := complaints + [NoCanonicalLine(alias)];
        }
        if Find(other, InvocationLine(alias)).None? {
          complaints := complaints + [NoInvocationLine(alias)];
        }
        if AfterMarker(text).None? || AfterMarker(other).None? {
          split := false;
          Unsplits(catalog, files, mirror, i, j);
          return;
        }
        if AfterMarker(text) != AfterMarker(other) {
          complaints := complaints + [Drifted(alias)];
        }
        TellsAlias(sofar, before, complaints, p, files, j);
      }
      TellsNext(first + second, sofar, complaints, catalog, files, i);
    }
    Told(catalog, files, mirror, first, second, complaints);
  }

  lemma NothingBelow(before: seq<Complaint>, catalog: seq<Prompt>, files: map<string, string>)
    ensures TellsBelow(before, before, catalog, files, 0)
  {
  }

  lemma NoneSplitYet(p: Prompt, files: map<string, string>)
    ensures AllSplit(p, files, 0)
  {
  }

  lemma SplitMore(p: Prompt, files: map<string, string>, j: nat)
    requires j < |p.aliases|
    ensures AllSplit(p, files, j + 1) <==> AllSplit(p, files, j) && !Unsplit(p, files, p.aliases[j])
  {
    hide Unsplit;
  }

  lemma Unsplits(catalog: seq<Prompt>, files: map<string, string>, mirror: map<string, string>, i: nat, j: nat)
    requires i < |catalog| && j < |catalog[i].aliases| && Unsplit(catalog[i], files, catalog[i].aliases[j])
    ensures !AllSplitBelow(catalog, files, |catalog|) && !Accepts(catalog, files, mirror)
  {
    hide Unsplit, Accepts;
    assert !AllSplit(catalog[i], files, |catalog[i].aliases|);
    AcceptsIs(catalog, files, mirror);
  }

  lemma Told(catalog: seq<Prompt>, files: map<string, string>, mirror: map<string, string>,
             first: seq<Complaint>, second: seq<Complaint>, complaints: seq<Complaint>)
    requires AllSplitBelow(catalog, files, |catalog|)
    requires forall c :: c in first <==> FilesDiffer(c, catalog, files)
    requires forall c :: c in second <==> FilesDiffer(c, catalog, mirror)
    requires TellsBelow(first + second, complaints, catalog, files, |catalog|)
    ensures forall c :: c in complaints <==>
              FilesDiffer(c, catalog, files) || FilesDiffer(c, catalog, mirror) || FlawBelow(c, catalog, files, |catalog|)
    ensures complaints == [] <==> Accepts(catalog, files, mirror)
  {
    hide FilesDiffer, FlawBelow, Accepts, AllSplitBelow;
    AcceptsIs(catalog, files, mirror);
    assert forall c :: c in first + second <==> c in first || c in second;
    if complaints != [] { assert complaints[0] in complaints; }
  }
}
