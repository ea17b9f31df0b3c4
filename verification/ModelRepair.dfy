/**
 The repair loop: which models are tried in which order, how often each is asked, and which answer is
 printed.
 */
module ModelRepair {
  import opened Text
  import Sorting
  import opened ModelAnswers
  import opened ModelContract

  // ---------- Candidate models ----------

  const DEFAULT_MODEL := "qwen2.5:7b"

  /** The preference of a model: a score, then the length of its name. */
  datatype Score = Score(rank: int, length: int)

  predicate AtMost(a: Score, b: Score) { a.rank < b.rank || (a.rank == b.rank && a.length <= b.length) }

  /** The order in which `sorted(..., reverse=True)` puts names. */
  function ByScore(score: string -> Score): (string, string) -> bool { (x, y) => AtMost(score(y), score(x)) }

  lemma ByScoreOrders(score: string -> Score)
    ensures Sorting.Orders(ByScore(score))
  {
  }

  function Ranked(available: seq<string>, score: string -> Score): seq<string> { Sorting.Sort(available,
                  ByScore(score)) }

  function OrDefault(name: string): string { if name != "" then name else DEFAULT_MODEL }

  /** `max(available, key=score)`: the first of the best */
  function Strongest(available: seq<string>, score: string -> Score): string
    requires available != []
  {
    if |available| == 1 then available[0]
    else
      var best := Strongest(available[..|available| - 1], score);
      if AtMost(score(available[|available| - 1]), score(best)) then best else available[|available| - 1]
  }

  /** `_select_model`; `requested` is trimmed. */
  function SelectModel(requested: string, strict: bool, available: seq<string>, score: string -> Score): string {
    if strict && requested != "" then requested
    else if available == [] then OrDefault(requested)
    else if requested != "" && requested != DEFAULT_MODEL then requested
    else
      var strongest := Strongest(available, score);
      if requested == DEFAULT_MODEL && AtMost(score(strongest), score(DEFAULT_MODEL)) then DEFAULT_MODEL else strongest
  }

  /** Names as the server lists them: trimmed and not blank. */
  predicate Names(names: seq<string>) { forall name :: name in names ==> name != "" && Strip(name) == name }

  lemma {:induction false} StrongestIsBest(available: seq<string>, score: string -> Score)
    requires available != []
    ensures Strongest(available, score) in available
    ensures forall i :: 0 <= i < |available| ==> AtMost(score(available[i]), score(Strongest(available, score)))
  {
    if |available| > 1 {
      StrongestIsBest(available[..|available| - 1], score);
    }
  }

  lemma SelectedIsName(requested: string, strict: bool, available: seq<string>, score: string -> Score)
    requires Strip(requested) == requested && Names(available)
    ensures var s := SelectModel(requested, strict, available, score); s != "" && Strip(s) == s
  {
    hide Strip;
    DefaultIsName();
    if available != [] { StrongestIsBest(available, score); }
  }

  lemma DefaultIsName()
    ensures Strip(DEFAULT_MODEL) == DEFAULT_MODEL && DEFAULT_MODEL != ""
  {
    hide Strip;
    assert DEFAULT_MODEL[0] == 'q' && DEFAULT_MODEL[|DEFAULT_MODEL| - 1] == 'b';
    StripTrimmed(DEFAULT_MODEL);
  }

  /** One score is above another: a greater rank, or the same and a longer name. */
  predicate Above(a: Score, b: Score) { a.rank > b.rank || (a.rank == b.rank && a.length > b.length) }

  predicate SomeAbove(available: seq<string>, score: string -> Score, name: string) {
    exists i :: 0 <= i < |available| && Above(score(available[i]), score(name))
  }

  /** Which model is selected: the one that was asked for, if it is to be taken strictly, if none is available,
      or if it is not the default one; the default one if it was asked for and no available one is above it,
      or if there is none at all; and otherwise the first available one that none is above. */
  lemma SelectTells(requested: string, strict: bool, available: seq<string>, score: string -> Score)
    ensures var s := SelectModel(requested, strict, available, score);
      if requested != "" && (strict || available == [] || requested != DEFAULT_MODEL) then s == requested
      else if available == [] || (requested == DEFAULT_MODEL && !SomeAbove(available, score, DEFAULT_MODEL))
      then s == DEFAULT_MODEL
      else IsFirstBest(available, score, s)
  {
    hide Strongest, DEFAULT_MODEL, IsFirstBest;
    DefaultSome();
    if available != [] {
      StrongestIsFirst(available, score);
      StrongestAbove(available, score, DEFAULT_MODEL);
    }
  }

  /** Some available model is above the name exactly if the strongest one is. */
  lemma StrongestAbove(available: seq<string>, score: string -> Score, name: string)
    requires available != []
    ensures SomeAbove(available, score, name) <==> !AtMost(score(Strongest(available, score)), score(name))
  {
    hide Strongest;
    StrongestIsBest(available, score);
  }

  lemma DefaultSome()
    ensures DEFAULT_MODEL != ""
  {
  }

  /** The first of the available models that no other is above. */
  ghost predicate IsFirstBest(available: seq<string>, score: string -> Score, s: string) {
    exists k :: FirstBestAt(available, score, k) && available[k] == s
  }

  /** `k` is where that one stands. */
  predicate FirstBestAt(available: seq<string>, score: string -> Score, k: int) {
    && 0 <= k < |available|
    && (forall i :: 0 <= i < |available| ==> !Above(score(available[i]), score(available[k])))
    && forall i :: 0 <= i < k ==> Above(score(available[k]), score(available[i]))
  }

  lemma AboveOrder(a: Score, b: Score, c: Score)
    ensures AtMost(a, b) <==> !Above(a, b)
    ensures Above(a, b) ==> !Above(b, a) && (!Above(c, b) ==> Above(a, c)) && !Above(a, a)
    ensures !Above(a, a)
  {
  }

  lemma FirstBestMore(less: seq<string>, score: string -> Score, k: int, name: string)
    requires FirstBestAt(less, score, k)
    ensures !Above(score(name), score(less[k])) ==> FirstBestAt(less + [name], score, k)
    ensures Above(score(name), score(less[k])) ==> FirstBestAt(less + [name], score, |less|)
  {
    hide Above;
    var more := less + [name];
    forall i | 0 <= i < |less|
      ensures Above(score(name), score(less[k])) ==> Above(score(name), score(less[i])) && !Above(score(less[i]), score(name))
    {
      AboveOrder(score(name), score(less[k]), score(less[i]));
      AboveOrder(score(name), score(less[i]), score(less[k]));
    }
    AboveOrder(score(name), score(name), score(name));
  }

  lemma {:induction false} StrongestIsFirst(available: seq<string>, score: string -> Score)
    requires available != []
    ensures IsFirstBest(available, score, Strongest(available, score))
  {
    var k := StrongestAt(available, score);
  }

  lemma {:induction false} StrongestAt(available: seq<string>, score: string -> Score) returns (k: nat)
    requires available != []
    ensures FirstBestAt(available, score, k) && available[k] == Strongest(available, score)
  {
    hide FirstBestAt, Above, AtMost;
    var n := |available| - 1;
    if n == 0 {
      k := 0;
      OnlyBest(available, score);
    } else {
      var less := available[..n];
      k := StrongestAt(less, score);
      PlaceIn(less, score, k);
      FirstBestMore(less, score, k, available[n]);
      AboveOrder(score(available[n]), score(less[k]), score(less[k]));
      assert available == less + [available[n]];
      if Above(score(available[n]), score(less[k])) { k := n; }
    }
  }

  lemma PlaceIn(available: seq<string>, score: string -> Score, k: int)
    requires FirstBestAt(available, score, k)
    ensures 0 <= k < |available|
  {
  }

  lemma OnlyBest(available: seq<string>, score: string -> Score)
    requires |available| == 1
    ensures FirstBestAt(available, score, 0)
  {
  }

  /** A model that has no precedence. */
  predicate Common(name: string, preferred: string, requested: string) {
    name != preferred && name != requested && name != DEFAULT_MODEL
  }

  lemma RankedInOrder(available: seq<string>, score: string -> Score)
    ensures var r := Ranked(available, score);
      forall i, j :: 0 <= i < j < |r| ==> AtMost(score(r[j]), score(r[i]))
  {
    ByScoreOrders(score);
    Sorting.SortFacts(available, ByScore(score));
    var r := Ranked(available, score);
    forall i, j | 0 <= i < j < |r|
      ensures AtMost(score(r[j]), score(r[i]))
    {
      assert ByScore(score)(r[i], r[j]);
    }
  }

  /** Each name once, where it first stands, without blank ones. */
  function Firsts(names: seq<string>): seq<string> {
    if names == [] then []
    else
      var before, name := Firsts(names[..|names| - 1]), names[|names| - 1];
      if name == "" || name in before then before else before + [name]
  }

  lemma {:induction false} FirstsFacts(names: seq<string>)
    ensures Distinct(Firsts(names)) && forall name :: name in Firsts(names) <==> name in names && name != ""
  {
    if names != [] {
      var n := |names| - 1;
      FirstsFacts(names[..n]);
      assert names == names[..n] + [names[n]];
    }
  }

  /** The names stand in the order in which they first stand in the list. */
  predicate FollowsFirsts(names: seq<string>, r: seq<string>) {
    forall i, j :: 0 <= i < j < |r| ==> Sorting.FirstAt(names, r[i]) < Sorting.FirstAt(names, r[j])
  }

  lemma {:induction false} FirstsOrder(names: seq<string>)
    ensures FollowsFirsts(names, Firsts(names))
  {
    hide Sorting.FirstAt;
    if names != [] {
      var n := |names| - 1;
      var before, all := Firsts(names[..n]), Firsts(names);
      FirstsOrder(names[..n]);
      FirstsFacts(names[..n]);
      forall i, j | 0 <= i < j < |all|
        ensures Sorting.FirstAt(names, all[i]) < Sorting.FirstAt(names, all[j])
      {
        assert all[i] == before[i] && before[i] in before;
        FirstInFront(names, n, before[i]);
        if j < |before| {
          assert before[j] in before;
          FirstInFront(names, n, before[j]);
        } else {
          FirstBehind(names, n);
        }
      }
    }
  }

  lemma {:induction false} FirstInFront(names: seq<string>, n: nat, name: string)
    requires n <= |names| && name in names[..n]
    ensures Sorting.FirstAt(names, name) == Sorting.FirstAt(names[..n], name) < n
  {
    hide Sorting.FirstAt;
    assert n > 0;
    var first, rest := names[0], names[1..];
    assert names == [first] + rest && names[..n] == [first] + rest[..n - 1];
    Sorting.FirstMore(first, rest, name);
    Sorting.FirstMore(first, rest[..n - 1], name);
    if first != name { FirstInFront(rest, n - 1, name); }
  }

  lemma {:induction false} FirstBehind(names: seq<string>, n: nat)
    requires n < |names| && names[n] !in names[..n]
    ensures Sorting.FirstAt(names, names[n]) == n
  {
    if n > 0 {
      assert names[..n][1..] == names[1..][..n - 1] && names[..n][0] == names[0];
      FirstBehind(names[1..], n - 1);
    }
  }

  /** The order in which the names are considered: the three with precedence, then the ranked ones. */
  function Considered(preferred: string, requested: string, available: seq<string>, score: string -> Score): seq<string> {
    [preferred, requested, DEFAULT_MODEL] + Ranked(available, score)
  }

  /** A name without precedence stands where it is ranked, behind the three. */
  lemma CommonAt(preferred: string, requested: string, available: seq<string>, score: string -> Score, name: string)
    requires Common(name, preferred, requested)
    ensures Sorting.FirstAt(Considered(preferred, requested, available, score), name)
         == 3 + Sorting.FirstAt(Ranked(available, score), name)
  {
    hide Ranked;
    var names := Considered(preferred, requested, available, score);
    assert names[1..][1..][1..] == Ranked(available, score);
    assert names[1..][0] == requested && names[1..][1..][0] == DEFAULT_MODEL;
  }

  lemma PreciousAt(preferred: string, requested: string, available: seq<string>, score: string -> Score, name: string)
    requires !Common(name, preferred, requested)
    ensures Sorting.FirstAt(Considered(preferred, requested, available, score), name)
         == if name == preferred then 0 else if name == requested then 1 else 2
  {
    hide Ranked;
    var names := Considered(preferred, requested, available, score);
    assert names[1..][0] == requested && names[1..][1..][0] == DEFAULT_MODEL;
  }

  /** Of two candidates in order: one with precedence comes first, in the order preferred, requested,
      default; and of two without it the first one is better, or as good and listed first. */
  predicate InOrder(a: string, b: string, preferred: string, requested: string, available: seq<string>,
                    score: string -> Score) {
    if Common(a, preferred, requested) then
      && Common(b, preferred, requested) && AtMost(score(b), score(a))
      && (AtMost(score(a), score(b)) ==> Sorting.FirstAt(available, a) < Sorting.FirstAt(available, b))
    else
      b != preferred && (b == requested ==> a == preferred)
  }

  lemma ConsideredInOrder(a: string, b: string, preferred: string, requested: string, available: seq<string>,
                          score: string -> Score)
    requires var names := Considered(preferred, requested, available, score);
      a in names && b in names && Sorting.FirstAt(names, a) < Sorting.FirstAt(names, b)
    ensures InOrder(a, b, preferred, requested, available, score)
  {
    hide Ranked, Sorting.FirstAt, AtMost;
    if Common(a, preferred, requested) {
      CommonAt(preferred, requested, available, score, a);
      if Common(b, preferred, requested) {
        CommonAt(preferred, requested, available, score, b);
        RankedBefore(available, score, a, b);
      } else {
        PreciousAt(preferred, requested, available, score, b);
      }
    } else {
      PreciousAt(preferred, requested, available, score, a);
      if !Common(b, preferred, requested) { PreciousAt(preferred, requested, available, score, b); }
    }
  }

  lemma RankedBefore(available: seq<string>, score: string -> Score, a: string, b: string)
    requires var r := Ranked(available, score);
      a in r && b in r && Sorting.FirstAt(r, a) < Sorting.FirstAt(r, b)
    ensures AtMost(score(b), score(a))
    ensures AtMost(score(a), score(b)) ==> Sorting.FirstAt(available, a) < Sorting.FirstAt(available, b)
  {
    hide Sorting.FirstAt, AtMost, Sorting.Orders;
    RankedInOrder(available, score);
    ByScoreOrders(score);
    if AtMost(score(a), score(b)) {
      assert Sorting.Alike(a, b, ByScore(score));
      Sorting.SortKeepsOrder(available, a, b, ByScore(score));
    }
  }

  /** The models to try. The server is asked for its models twice, and may answer differently. */
  method CandidateModels(requested: string, strict: bool, available: seq<string>, later: seq<string>,
                         score: string -> Score)
    returns (candidates: seq<string>)
    requires Strip(requested) == requested && Names(available) && Names(later)
    ensures candidates != [] && Distinct(candidates)
    ensures strict && requested != "" ==> candidates == [requested]
    ensures available == [] ==> candidates == [OrDefault(requested)]
    ensures available != [] ==> candidates[0] == SelectModel(requested, strict, later, score)
    // outside the strict case every available model is tried
    ensures (!strict || requested == "") && available != [] ==>
              forall name :: name in candidates <==>
                name in available || name == candidates[0] || (name == requested != "") || name == DEFAULT_MODEL
    // the selected, the requested and the default one come first, then the others, better ones earlier, and of
    // equally good ones those that are listed earlier
    ensures available != [] ==>
              forall i, j :: 0 <= i < j < |candidates| ==>
                InOrder(candidates[i], candidates[j], candidates[0], requested, available, score)
  {
    hide Strip, SelectModel, ByScore, InOrder, Sorting.FirstAt, Ranked;
    if strict && requested != "" {
      SelectsStrict(requested, later, score);
      return [requested];
    }
    if available == [] {
      return [OrDefault(requested)];
    }
    var ranked := Ranked(available, score);
    RankedAre(available, score);
    SelectedIsName(requested, strict, later, score);
    DefaultIsName();
    var preferred := SelectModel(requested, strict, later, score);
    var names := [preferred, requested, DEFAULT_MODEL] + ranked;
    assert names == Considered(preferred, requested, available, score);
    candidates := [];
    for i := 0 to |names|
      invariant candidates == Firsts(names[..i])
      invariant i > 0 ==> candidates != [] && candidates[0] == preferred
    {
      assert names[..i + 1][..i] == names[..i];
      assert i >= 3 ==> names[i] == ranked[i - 3] && names[i] in ranked;
      assert Strip(names[i]) == names[i];
      var name := Strip(names[i]);
      if name != "" && name !in candidates {
        candidates := candidates + [name];
      }
    }
    assert names[..|names|] == names;
    ConsideredFacts(preferred, requested, available, score);
  }

  lemma ConsideredFacts(preferred: string, requested: string, available: seq<string>, score: string -> Score)
    ensures var cs := Firsts(Considered(preferred, requested, available, score));
      && Distinct(cs)
      && (forall name :: name in cs <==>
            name != "" && (name in available || name == preferred || name == requested || name == DEFAULT_MODEL))
      && forall i, j :: 0 <= i < j < |cs| ==> InOrder(cs[i], cs[j], preferred, requested, available, score)
  {
    hide InOrder, Sorting.FirstAt, Ranked;
    var names := Considered(preferred, requested, available, score);
    var cs := Firsts(names);
    RankedAre(available, score);
    FirstsFacts(names);
    FirstsOrder(names);
    forall i, j | 0 <= i < j < |cs|
      ensures InOrder(cs[i], cs[j], preferred, requested, available, score)
    {
      assert cs[i] in cs && cs[j] in cs;
      ConsideredInOrder(cs[i], cs[j], preferred, requested, available, score);
    }
  }

  lemma RankedAre(available: seq<string>, score: string -> Score)
    ensures forall name :: name in Ranked(available, score) <==> name in available
  {
    ByScoreOrders(score);
    Sorting.SortFacts(available, ByScore(score));
  }

  lemma SelectsStrict(requested: string, available: seq<string>, score: string -> Score)
    requires requested != ""
    ensures SelectModel(requested, true, available, score) == requested
  {
  }

  // ---------- The loop ----------

  /** What asking a model comes to: a text, or a failure that moves on to the next model. */
  type Reply = Option<Answer>

  const CHECKS := 3

  /** One candidate: the replies it gave, in order. */
  datatype Trial = Trial(model: string, replies: seq<Reply>)

  datatype Outcome = Printed(answer: Answer) | Failed

  /** The candidate's replies: up to three answers that fail the check, each followed by another
      request, and then one that passes it, one that is not checked, or a failure. */
  ghost predicate IsTrial(env: Env, prompt: Prompt, t: Trial) {
    && 1 <= |t.replies| <= CHECKS + 1
    && (forall i :: 0 <= i < |t.replies| - 1 ==> t.replies[i].Some? && !Acceptable(env, prompt, t.replies[i].value))
    && (|t.replies| <= CHECKS && t.replies[|t.replies| - 1].Some? ==>
          Acceptable(env, prompt, t.replies[|t.replies| - 1].value))
  }

  /** The last answer passed the check: on that very text. */
  ghost predicate Passes(env: Env, prompt: Prompt, t: Trial)
    requires IsTrial(env, prompt, t)
  {
    |t.replies| <= CHECKS && t.replies[|t.replies| - 1].Some?
  }

  /** The last of four answers, which is not checked, is coerced for the complaint about the third. */
  ghost function CoercedOf(env: Env, prompt: Prompt, t: Trial): Option<Payload>
    requires IsTrial(env, prompt, t)
  {
    if |t.replies| == CHECKS + 1 && t.replies[CHECKS].Some? then
      AcceptedExactly(env, prompt, t.replies[CHECKS - 1].value);
      Coerced(env, prompt, t.replies[CHECKS].value, RepairReason(env, prompt, t.replies[CHECKS - 1].value).value)
    else None
  }

  /** The candidate settles it. */
  ghost predicate Settles(env: Env, prompt: Prompt, t: Trial)
    requires IsTrial(env, prompt, t)
  {
    Passes(env, prompt, t) || CoercedOf(env, prompt, t).Some?
  }

  /** A reply that would pass the check. */
  ghost predicate Good(env: Env, prompt: Prompt, r: Reply) { r.Some? && Acceptable(env, prompt, r.value) }

  /** The first three answers failed the check and the fourth, which is not checked, would have passed. */
  ghost predicate Overlooked(env: Env, prompt: Prompt, t: Trial)
    requires IsTrial(env, prompt, t)
  {
    |t.replies| == CHECKS + 1 && Good(env, prompt, t.replies[CHECKS])
  }

  /** That is the only way in which a good answer goes unused; such an answer is coerced if the task is a
      non-editing one and it has a report, and otherwise the candidate fails. */
  lemma OverlookedExactly(env: Env, prompt: Prompt, t: Trial)
    requires IsTrial(env, prompt, t)
    ensures (exists i :: 0 <= i < |t.replies| && Good(env, prompt, t.replies[i])) && !Passes(env, prompt, t)
      <==> Overlooked(env, prompt, t)
    ensures Overlooked(env, prompt, t) ==>
              var report := Get(Parsed(env, t.replies[CHECKS].value).value, "report");
              (Settles(env, prompt, t) <==> prompt.editing == Some(false) && report.Obj?)
  {
    hide CoercedReport, Normal, AcceptablePayload;
    if Overlooked(env, prompt, t) { GoodIsParsed(env, prompt, t.replies[CHECKS].value); }
  }

  lemma GoodIsParsed(env: Env, prompt: Prompt, a: Answer)
    requires Acceptable(env, prompt, a)
    ensures Parsed(env, a).Some?
  {
    hide Normal, AcceptablePayload;
  }

  /** A trial in which that happens: three replies that hold no object, and then a bare object, which is
      all that a prompt without edits asks for. */
  lemma OverlookedTrial(env: Env, prompt: Prompt, model: string)
    requires !prompt.asksEdits && prompt.editing != Some(false)
    ensures var no, yes := Some(Answer("", None)), Some(Answer("{}", Some(map[])));
      var t := Trial(model, [no, no, no, yes]);
      IsTrial(env, prompt, t) && Overlooked(env, prompt, t) && !Settles(env, prompt, t)
  {
    hide CoercedReport, Normal, AcceptablePayload;
  }

  ghost predicate SomeGood(env: Env, prompt: Prompt, ts: seq<Trial>) {
    exists i, j :: 0 <= i < |ts| && 0 <= j < |ts[i].replies| && Good(env, prompt, ts[i].replies[j])
  }

  ghost predicate SomeOverlooked(env: Env, prompt: Prompt, ts: seq<Trial>)
    requires forall i :: 0 <= i < |ts| ==> IsTrial(env, prompt, ts[i])
  {
    exists i :: 0 <= i < |ts| && Overlooked(env, prompt, ts[i])
  }

  lemma GoodAndFailed(env: Env, prompt: Prompt, ts: seq<Trial>)
    requires forall i :: 0 <= i < |ts| ==> IsTrial(env, prompt, ts[i]) && !Settles(env, prompt, ts[i])
    ensures SomeGood(env, prompt, ts) <==> SomeOverlooked(env, prompt, ts)
  {
    hide Good, IsTrial, Passes, CoercedOf;
    if i, j :| 0 <= i < |ts| && 0 <= j < |ts[i].replies| && Good(env, prompt, ts[i].replies[j]) {
      OverlookedExactly(env, prompt, ts[i]);
    }
    if i :| 0 <= i < |ts| && Overlooked(env, prompt, ts[i]) {
      OverlookedExactly(env, prompt, ts[i]);
      assert Good(env, prompt, ts[i].replies[CHECKS]);
    }
  }

  ghost predicate AreTrials(env: Env, prompt: Prompt, candidates: seq<string>, ts: seq<Trial>) {
    && |ts| <= |candidates|
    && forall i :: 0 <= i < |ts| ==> ts[i].model == candidates[i] && IsTrial(env, prompt, ts[i])
  }

  /** Asks one candidate. `reply` is the world: the reply to the n-th request of the run. */
  method TryModel(env: Env, prompt: Prompt, model: string, reply: nat -> Reply, asked: nat)
    returns (t: Trial, result: Option<Answer>, reason: Option<Reason>)
    ensures IsTrial(env, prompt, t) && t.model == model
    ensures forall i :: 0 <= i < |t.replies| ==> t.replies[i] == reply(asked + i)
    ensures result == t.replies[|t.replies| - 1]
    ensures result.Some? ==> (reason.None? <==> Passes(env, prompt, t))
    ensures result.Some? && reason.Some? ==>
              |t.replies| == CHECKS + 1 && reason == RepairReason(env, prompt, t.replies[CHECKS - 1].value)
  {
    hide RepairReason, Acceptable;
    result := reply(asked);
    var replies := [result];
    reason := None;
    t := Trial(model, replies);
    if result.None? {
      return;
    }
    for attempt := 1 to CHECKS + 1
      invariant |replies| == attempt && result.Some? && result == replies[attempt - 1]
      invariant forall i :: 0 <= i < attempt ==> replies[i] == reply(asked + i)
      invariant forall i :: 0 <= i < attempt - 1 ==> replies[i].Some? && !Acceptable(env, prompt, replies[i].value)
      invariant attempt > 1 ==> reason.Some? && reason == RepairReason(env, prompt, replies[attempt - 2].value)
    {
      reason := RepairReason(env, prompt, result.value);
      AcceptedExactly(env, prompt, result.value);
      if reason.None? {
        break;
      }
      result := reply(asked + attempt);
      replies := replies + [result];
      if result.None? {
        break;
      }
    }
    t := Trial(model, replies);
  }

  /** The run over all candidates. `print` gives the text of a payload, which parses back to it. */
  method Repair(env: Env, prompt: Prompt, candidates: seq<string>, reply: nat -> Reply, dumps: Payload -> string)
    returns (outcome: Outcome, ts: seq<Trial>)
    requires candidates != []
    ensures AreTrials(env, prompt, candidates, ts) && ts != []
    // every candidate but the last one tried has failed, and the run ends with one that has not
    ensures forall i :: 0 <= i < |ts| - 1 ==> !Settles(env, prompt, ts[i])
    ensures outcome.Failed? <==> !Settles(env, prompt, ts[|ts| - 1])
    ensures outcome.Failed? ==> |ts| == |candidates|
    // what is printed is acceptable itself, or is the coerced payload
    ensures outcome.Printed? && Passes(env, prompt, ts[|ts| - 1]) ==>
              && Some(outcome.answer) == ts[|ts| - 1].replies[|ts[|ts| - 1].replies| - 1]
              && Acceptable(env, prompt, outcome.answer)
    ensures outcome.Printed? && !Passes(env, prompt, ts[|ts| - 1]) ==>
              var p := CoercedOf(env, prompt, ts[|ts| - 1]).value;
              outcome.answer == Answer(dumps(p), Some(p))
    // a run that fails had an answer that meets the contract exactly if one of the fourth answers was it
    ensures outcome.Failed? ==> (SomeGood(env, prompt, ts) <==> SomeOverlooked(env, prompt, ts))
    // each candidate is asked at most four times
    ensures Asked(ts) <= (CHECKS + 1) * |ts|
  {
    hide RepairReason, Acceptable, Coerced, SomeGood, SomeOverlooked, Asked;
    NothingAsked();
    outcome, ts := Failed, [];
    for m := 0 to |candidates|
      invariant |ts| == m && outcome.Failed? && AreTrials(env, prompt, candidates, ts)
      invariant forall i :: 0 <= i < m ==> !Settles(env, prompt, ts[i])
      invariant Asked(ts) <= (CHECKS + 1) * |ts|
    {
      var t, result, reason := TryModel(env, prompt, candidates[m], reply, Asked(ts));
      AskedMore(ts, t);
      ts := ts + [t];
      if result.None? {
        continue;
      }
      if reason.Some? {
        var coerced := Coerced(env, prompt, result.value, reason.value);
        if coerced.Some? {
          outcome := Printed(Answer(dumps(coerced.value), coerced));
          break;
        }
        continue;
      }
      outcome := Printed(result.value);
      break;
    }
    if outcome.Failed? { GoodAndFailed(env, prompt, ts); }
  }

  /** The number of requests. */
  function Asked(ts: seq<Trial>): nat {
    if ts == [] then 0 else Asked(ts[..|ts| - 1]) + |ts[|ts| - 1].replies|
  }

  lemma NothingAsked()
    ensures Asked([]) == 0
  {
  }

  lemma AskedMore(ts: seq<Trial>, t: Trial)
    ensures Asked(ts + [t]) == Asked(ts) + |t.replies|
  {
    assert (ts + [t])[..|ts|] == ts;
  }
}
