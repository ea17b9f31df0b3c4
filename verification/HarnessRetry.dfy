/** The retry loop around the attempts at one benchmark task, and which attempt it keeps. */
module HarnessRetry {
  import opened Text

  // ---------- Attempts and their results ----------

  datatype Category = ValidationFailed | SetupFailed | Timeout | OtherCategory(name: string) | NoCategory

  /** A validation command that was run. */
  datatype Check = Check(timedOut: bool, returnCode: int)

  /** What an attempt comes to. Setup may fail, possibly after its own commands were run; otherwise
      there are the changed files, the checks and what the rest of the analysis says. */
  datatype Attempt =
    | Broken(checks: seq<Check>, failures: nat)
    | Ran(changed: seq<string>, checks: seq<Check>, failures: nat, equivalent: bool, completed: bool,
          timedOut: bool, otherwise: Category)

  datatype Result = Result(resolved: bool, patchApplied: bool, validated: bool, category: Category,
                           changed: seq<string>,
                           checks: seq<Check>, failures: nat, equivalent: bool, completed: bool)

  predicate Passed(c: Check) { !c.timedOut && c.returnCode == 0 }

  predicate AllPassed(cs: seq<Check>) { forall i :: 0 <= i < |cs| ==> Passed(cs[i]) }

  /** `classify_failure_category`; what its later tests find is `otherwise`. */
  function Classify(timedOut: bool, patched: bool, attempted: bool, validated: bool, otherwise: Category): Category {
    if timedOut then Timeout
    else if patched && attempted && !validated then ValidationFailed
    else if otherwise.ValidationFailed? then NoCategory
    else otherwise
  }

  function ResultOf(a: Attempt): Result {
    match a
    case Broken(checks, failures) => Result(false, false, false, SetupFailed, [], checks, failures, false, false)
    case Ran(changed, checks, failures, equivalent, completed, timedOut, otherwise) =>
      var patched := changed != [];
      var validated := patched && checks != [] && AllPassed(checks);
      var resolved := patched && validated;
      var category := if resolved then NoCategory else Classify(timedOut, patched, checks != [], validated, otherwise);
      Result(resolved, patched, validated, category, changed, checks, failures, equivalent, completed)
  }

  // ---------- Scores ----------

  function Bit(b: bool): int { if b then 1 else 0 }

  /** `_attempt_selection_score`, as the list of its components */
  function Score(r: Result): seq<int> {
    [ Bit(r.resolved), Bit(r.validated), Bit(r.checks != []), -(if r.checks != [] then r.failures else 10_000),
      Bit(r.patchApplied), Bit(!(r.patchApplied && !r.validated && !r.resolved && r.equivalent)), Bit(r.completed) ]
  }

  /** The order of tuples. */
  predicate Less(a: seq<int>, b: seq<int>) {
    if a == [] || b == [] then a == [] && b != []
    else a[0] < b[0] || (a[0] == b[0] && Less(a[1..], b[1..]))
  }

  lemma {:induction false} LessOrNot(a: seq<int>, b: seq<int>)
    ensures Less(a, b) || Less(b, a) || a == b
    ensures !(Less(a, b) && Less(b, a)) && !Less(a, a)
  {
    if a != [] && b != [] {
      LessOrNot(a[1..], b[1..]);
      assert a == [a[0]] + a[1..] && b == [b[0]] + b[1..];
    }
    if a != [] { LessOrNot(a[1..], a[1..]); }
  }

  lemma {:induction false} LessThen(a: seq<int>, b: seq<int>, c: seq<int>)
    requires Less(a, b) && Less(b, c)
    ensures Less(a, c)
  {
    if a != [] && b[0] == a[0] && c[0] == b[0] { LessThen(a[1..], b[1..], c[1..]); }
  }

  /** Attempt `k` is the best one, and the latest of the best. */
  predicate BestAndLatest(rs: seq<Result>, k: nat)
    requires k < |rs|
  {
    && (forall i :: 0 <= i < |rs| ==> !Less(Score(rs[k]), Score(rs[i])))
    && (forall i :: k < i < |rs| ==> Less(Score(rs[i]), Score(rs[k])))
  }

  lemma BestOne(r: Result)
    ensures BestAndLatest([r], 0)
  {
    hide Score, Less;
    LessOrNot(Score(r), Score(r));
  }

  /** The best of some attempts and one more. */
  lemma BestGrows(rs: seq<Result>, k: nat, r: Result)
    requires k < |rs| && BestAndLatest(rs, k)
    ensures Less(Score(r), Score(rs[k])) ==> BestAndLatest(rs + [r], k)
    ensures !Less(Score(r), Score(rs[k])) ==> BestAndLatest(rs + [r], |rs|)
  {
    hide Score, Less;
    var more := rs + [r];
    LessOrNot(Score(r), Score(rs[k]));
    forall i | 0 <= i < |more|
      ensures Less(Score(r), Score(rs[k])) ==> !Less(Score(rs[k]), Score(more[i]))
      ensures !Less(Score(r), Score(rs[k])) ==> !Less(Score(r), Score(more[i]))
    {
      if i < |rs| {
        assert !Less(Score(rs[k]), Score(rs[i]));
        if Less(Score(r), Score(rs[i])) {
          if Less(Score(rs[k]), Score(r)) { LessThen(Score(rs[k]), Score(r), Score(rs[i])); }
        }
      } else {
        LessOrNot(Score(r), Score(r));
      }
    }
  }

  // ---------- Whether to retry ----------

  predicate FailedValidation(r: Result) { r.patchApplied && !r.validated && r.category.ValidationFailed? }

  /** `_retry_basis_result` */
  function Basis(latest: Result, selected: Result): Result {
    if latest.patchApplied && latest.category.ValidationFailed? then latest
    else if FailedValidation(selected) then selected
    else latest
  }

  predicate ShouldRetry(r: Result, number: nat, limit: nat) { number < limit && !r.resolved && FailedValidation(r) }

  function Limit(maxAttempts: int): nat { if maxAttempts > 1 then maxAttempts else 1 }

  predicate IsAttempt(r: Result) {
    && (r.resolved <==> r.validated)
    && (r.validated ==> r.patchApplied && r.checks != [] && r.category == NoCategory)
    && (r.category.ValidationFailed? ==> r.patchApplied && !r.validated && r.checks != [])
    && (r.patchApplied <==> r.changed != [])
  }

  lemma ResultsAreAttempts(a: Attempt)
    ensures IsAttempt(ResultOf(a))
  {
  }

  /** A resolved attempt beats every one that is not. */
  lemma ResolvedIsBetter(r: Result, q: Result)
    requires r.resolved && !q.resolved
    ensures Less(Score(q), Score(r))
  {
  }

  predicate AnyResolved(rs: seq<Result>) { exists i :: 0 <= i < |rs| && rs[i].resolved }

  predicate AnyPatched(rs: seq<Result>) { exists i :: 0 <= i < |rs| && rs[i].patchApplied }

  predicate AnyValidated(rs: seq<Result>) { exists i :: 0 <= i < |rs| && rs[i].validated }

  /** The changed files of all attempts, each once, blank names dropped, in order. */
  function AllChanged(rs: seq<Result>): seq<string> {
    if rs == [] then [] else AddNames(AllChanged(rs[..|rs| - 1]), rs[|rs| - 1].changed)
  }

  function AddNames(names: seq<string>, more: seq<string>): seq<string>
    decreases more
  {
    if more == [] then names
    else
      var name := Strip(more[0]);
      AddNames(if name == "" || name in names then names else names + [name], more[1..])
  }

  /** The best attempt so far, the latest of equals, as the loop keeps it. */
  function Best(rs: seq<Result>): (k: nat)
    requires rs != []
    ensures k < |rs|
  {
    var n := |rs| - 1;
    if n == 0 then 0
    else
      var k := Best(rs[..n]);
      if Less(Score(rs[n]), Score(rs[k])) then k else n
  }

  lemma {:induction false} BestIsBest(rs: seq<Result>)
    requires rs != []
    ensures BestAndLatest(rs, Best(rs))
  {
    hide Score, Less, BestAndLatest;
    var n := |rs| - 1;
    assert rs == rs[..n] + [rs[n]];
    if n == 0 {
      BestOne(rs[0]);
    } else {
      BestIsBest(rs[..n]);
      BestGrows(rs[..n], Best(rs[..n]), rs[n]);
    }
  }

  lemma BestStep(rs: seq<Result>, r: Result)
    ensures rs == [] ==> Best(rs + [r]) == 0
    ensures rs != [] ==> Best(rs + [r]) == if Less(Score(r), Score(rs[Best(rs)])) then Best(rs) else |rs|
    ensures BestAndLatest(rs + [r], Best(rs + [r]))
  {
    hide Score, Less, BestAndLatest;
    BestIsBest(rs + [r]);
    assert (rs + [r])[..|rs|] == rs;
  }

  lemma LessStep(a: seq<int>, b: seq<int>)
    requires a != [] && b != []
    ensures Less(a, b) <==> a[0] < b[0] || (a[0] == b[0] && Less(a[1..], b[1..]))
  {
  }

  /** An attempt without a patch takes the place of one whose patch failed its checks if and only if it
      ran checks and failed fewer of them. */
  lemma UnpatchedWins(p: Result, q: Result)
    requires IsAttempt(p) && FailedValidation(p) && IsAttempt(q) && !q.patchApplied
    ensures !Less(Score(q), Score(p)) <==> q.checks != [] && q.failures < p.failures
  {
    hide Less;
    assert p.checks != [];
    var a, b := Score(q), Score(p);
    var c, d := a[1..][1..], b[1..][1..];
    LessStep(a, b);
    LessStep(a[1..], b[1..]);
    LessStep(c, d);
    LessStep(c[1..], d[1..]);
    LessStep(c[1..][1..], d[1..][1..]);
    assert a[0] == b[0] == 0 && a[1..][0] == b[1..][0] == 0;
    assert c[0] == Bit(q.checks != []) && d[0] == 1;
    assert q.checks != [] ==> c[1..][0] == 0 - q.failures;
    assert d[1..][0] == 0 - p.failures;
    assert c[1..][1..][0] == 0 && d[1..][1..][0] == 1;
  }

  /** The last attempt is the one selected although it has no patch and an earlier one had one. */
  predicate PatchCredited(rs: seq<Result>) {
    |rs| > 1 && var p, q := rs[Best(rs[..|rs| - 1])], rs[|rs| - 1];
      !q.patchApplied && q.checks != [] && q.failures < p.failures
  }

  /** For attempts of which all but the last were worth building on. */
  lemma CreditedExactly(rs: seq<Result>)
    requires rs != [] && forall i :: 0 <= i < |rs| ==> IsAttempt(rs[i])
    requires |rs| > 1 ==> FailedValidation(rs[Best(rs[..|rs| - 1])])
    ensures AnyPatched(rs) && !rs[Best(rs)].patchApplied <==> PatchCredited(rs)
  {
    hide Score, Less, IsAttempt;
    var n := |rs| - 1;
    if n > 0 {
      var k := Best(rs[..n]);
      assert rs[..n][k] == rs[k] && rs[k].patchApplied;
      if !rs[n].patchApplied { UnpatchedWins(rs[k], rs[n]); }
    }
  }

  // ---------- The loop ----------

  /** Before every attempt but the first one the best of those made was worth building on. */
  ghost predicate GoneOn(rs: seq<Result>) { forall n :: 1 <= n < |rs| ==> FailedValidation(rs[Best(rs[..n])]) }

  lemma NothingGoneOn()
    ensures GoneOn([])
  {
  }

  lemma GoneOnMore(rs: seq<Result>, r: Result)
    requires GoneOn(rs) && (rs != [] ==> FailedValidation(rs[Best(rs)]))
    ensures GoneOn(rs + [r])
  {
    hide FailedValidation, Best;
    var more := rs + [r];
    forall n | 1 <= n < |more|
      ensures FailedValidation(more[Best(more[..n])])
    {
      assert more[..n] == rs[..n];
      if n == |rs| { assert rs[..n] == rs; }
    }
  }

  /** What is known of the attempts while the loop goes on: they failed, and the one selected is worth
      building on. */
  ghost predicate GoesOn(attempt: nat -> Attempt, rs: seq<Result>, selected: nat) {
    && 1 <= selected <= |rs| && selected - 1 == Best(rs)
    && (forall i :: 0 <= i < |rs| ==> rs[i] == ResultOf(attempt(i + 1)) && IsAttempt(rs[i]) && !rs[i].resolved)
    && FailedValidation(rs[selected - 1]) && GoneOn(rs)
  }

  /** What is known of them when it has ended. */
  ghost predicate Stopped(attempt: nat -> Attempt, rs: seq<Result>, selected: nat, limit: nat) {
    && 1 <= |rs| <= limit && 1 <= selected <= |rs| && BestAndLatest(rs, selected - 1)
    && (forall i :: 0 <= i < |rs| ==> rs[i] == ResultOf(attempt(i + 1)))
    && (forall i :: 0 <= i < |rs| - 1 ==> !rs[i].resolved) && (AnyResolved(rs) ==> selected == |rs|)
    && (|rs| < limit ==> !FailedValidation(rs[|rs| - 1]) && !FailedValidation(rs[selected - 1]))
    && rs[selected - 1].resolved == AnyResolved(rs) && rs[selected - 1].validated == AnyValidated(rs)
    && (rs[selected - 1].patchApplied <==> rs[selected - 1].changed != []) && GoneOn(rs)
    && (AnyPatched(rs) && !rs[selected - 1].patchApplied <==> PatchCredited(rs))
  }

  /** One more attempt: which one is the best now, and what is known of them all. */
  lemma {:induction false} OneMore(attempt: nat -> Attempt, rs: seq<Result>, kept: nat, result: Result,
                                   more: seq<Result>)
    requires rs == [] || GoesOn(attempt, rs, kept)
    requires result == ResultOf(attempt(|rs| + 1)) && more == rs + [result]
    ensures forall i :: 0 <= i < |more| ==> more[i] == ResultOf(attempt(i + 1)) && IsAttempt(more[i])
    ensures more[Best(more)] == result || (FailedValidation(more[Best(more)]) && !result.resolved && rs != [])
    ensures result.resolved ==> Best(more) == |rs|
  {
    hide Score, Less, ResultOf, BestAndLatest, Best, FailedValidation;
    ResultsAreAttempts(attempt(|rs| + 1));
    BestStep(rs, result);
    if rs != [] {
      LessOrNot(Score(result), Score(rs[Best(rs)]));
      if result.resolved { ResolvedIsBetter(result, rs[Best(rs)]); }
    }
  }

  lemma {:induction false} AttemptMade(attempt: nat -> Attempt, rs: seq<Result>, kept: nat, result: Result,
                                       more: seq<Result>, limit: nat)
    requires rs == [] || GoesOn(attempt, rs, kept)
    requires |rs| < limit && result == ResultOf(attempt(|rs| + 1)) && more == rs + [result]
    ensures if ShouldRetry(Basis(result, more[Best(more)]), |more|, limit)
      then |more| < limit && GoesOn(attempt, more, Best(more) + 1)
      else Stopped(attempt, more, Best(more) + 1, limit)
  {
    hide Score, Less, ResultOf, BestAndLatest, PatchCredited, Best, GoneOn;
    if rs == [] { NothingGoneOn(); }
    OneMore(attempt, rs, kept, result, more);
    BestIsBest(more);
    GoneOnMore(rs, result);
    assert more[..|more| - 1] == rs;
    if ShouldRetry(Basis(result, more[Best(more)]), |more|, limit) {
      assert !result.resolved;
    } else {
      BestOfAll(more);
      CreditedExactly(more);
    }
  }

  lemma {:induction false} BestOfAll(rs: seq<Result>)
    requires rs != [] && forall i :: 0 <= i < |rs| ==> IsAttempt(rs[i])
    requires forall i :: 0 <= i < |rs| - 1 ==> !rs[i].resolved
    requires rs[|rs| - 1].resolved ==> Best(rs) == |rs| - 1
    ensures rs[Best(rs)].resolved == AnyResolved(rs) && rs[Best(rs)].validated == AnyValidated(rs)
    ensures AnyResolved(rs) ==> Best(rs) == |rs| - 1
  {
    hide Best;
  }

  /** The end of the task: the selected attempt with what all attempts together achieved. The branch for
      the validation is dead, as the selected attempt is validated when any is. */
  method Credited(best: Result, rs: seq<Result>) returns (final: Result)
    requires AnyValidated(rs) ==> best.validated
    requires best in rs
    ensures final == best.(patchApplied := AnyPatched(rs), changed := final.changed)
    ensures final.changed == if best.patchApplied || best.changed != [] || !AnyPatched(rs) then best.changed
                             else AllChanged(rs)
  {
    hide AllChanged;
    var patched, validated := AnyPatched(rs), AnyValidated(rs);
    final := best;
    if patched && !final.patchApplied {
      final := final.(patchApplied := true);
      if AllChanged(rs) != [] && final.changed == [] {
        final := final.(changed := AllChanged(rs));
      }
    }
    if validated && !final.validated {
      assert false;
      final := final.(validated := true);
    }
  }

  lemma Selected(attempt: nat -> Attempt, rs: seq<Result>, selected: nat)
    requires GoesOn(attempt, rs, selected)
    ensures 1 <= selected <= |rs| && selected - 1 == Best(rs)
  {
  }

  /** Runs attempts until one is not worth retrying, and keeps the best of them. */
  method RunAttempts(attempt: nat -> Attempt, maxAttempts: int)
    returns (best: Result, selected: nat, rs: seq<Result>)
    ensures 1 <= selected <= |rs| && Stopped(attempt, rs, selected, Limit(maxAttempts)) && best == rs[selected - 1]
  {
    hide Score, Less, ResultOf, BestAndLatest, Best, Basis, ShouldRetry, GoesOn;
    rs := [];
    selected := 0;
    var limit := Limit(maxAttempts);
    best := ResultOf(attempt(1));
    for number := 1 to limit + 1
      invariant |rs| == number - 1
      invariant rs == [] || 1 <= selected <= |rs|
      invariant rs == [] || (GoesOn(attempt, rs, selected) && best == rs[selected - 1] && number <= limit)
    {
      var result := ResultOf(attempt(number));
      ghost var kept := selected;
      BestStep(rs, result);
      if rs == [] {
        best, selected := result, number;
      } else {
        Selected(attempt, rs, selected);
        LessOrNot(Score(result), Score(best));
        if Less(Score(best), Score(result)) || (Score(result) == Score(best) && number >= selected) {
          best, selected := result, number;
        }
      }
      AttemptMade(attempt, rs, kept, result, rs + [result], limit);
      rs := rs + [result];
      var basis := Basis(result, best);
      if !ShouldRetry(basis, number, limit) {
        break;
      }
    }
  }

  /** Runs one task: returns the selected attempt with what the attempts together achieved.
      `attempt` is the world: the n-th attempt in this task's directory. */
  method RunSingleTask(attempt: nat -> Attempt, maxAttempts: int)
    returns (final: Result, selected: nat, rs: seq<Result>)
    ensures 1 <= |rs| && (|rs| == 1 || |rs| <= maxAttempts) && 1 <= selected <= |rs|
    ensures forall i :: 0 <= i < |rs| ==> rs[i] == ResultOf(attempt(i + 1))
    // the result is the best attempt, the latest of the best
    ensures BestAndLatest(rs, selected - 1)
    // the first resolved attempt ends the loop, and is the one selected
    ensures forall i :: 0 <= i < |rs| - 1 ==> !rs[i].resolved
    ensures AnyResolved(rs) ==> selected == |rs|
    // without one, the loop goes on exactly as long as there is something to build on
    ensures GoneOn(rs)
    ensures |rs| < maxAttempts ==> !FailedValidation(rs[|rs| - 1]) && !FailedValidation(rs[selected - 1])
    // what is returned: validation is never credited beyond the selected attempt
    ensures final.resolved == rs[selected - 1].resolved == AnyResolved(rs)
    ensures final.validated == rs[selected - 1].validated == AnyValidated(rs)
    ensures final == rs[selected - 1].(patchApplied := AnyPatched(rs), changed := final.changed)
    ensures final.changed == if rs[selected - 1].changed != [] then rs[selected - 1].changed
                             else if AnyPatched(rs) then AllChanged(rs) else []
    // a patch is, exactly when the last attempt beats the best before it without one
    ensures final.patchApplied != rs[selected - 1].patchApplied <==> PatchCredited(rs)
  {
    hide ResultOf, AllChanged, BestAndLatest, PatchCredited, FailedValidation, GoneOn;
    var best;
    best, selected, rs := RunAttempts(attempt, maxAttempts);
    final := Credited(best, rs);
  }

  /** A run in which that happens: the first attempt's patch fails its check, the second one has no patch
      and passes its check. */
  method CreditedRun() returns (final: Result, selected: nat, rs: seq<Result>)
    ensures |rs| == selected == 2 && final.patchApplied && rs[0].patchApplied && !rs[1].patchApplied
  {
    var bad, good := Check(false, 1), Check(false, 0);
    var first, second := Ran(["a"], [bad], 5, false, false, false, NoCategory),
                         Ran([], [good], 0, false, false, false, NoCategory);
    assert !Passed([bad][0]) && ["a"] != [];
    assert ResultOf(first) == Result(false, true, false, ValidationFailed, ["a"], [bad], 5, false, false);
    assert ResultOf(second) == Result(false, false, false, NoCategory, [], [good], 0, false, false);
    final, selected, rs := RunSingleTask(n => if n == 1 then first else second, 2);
    assert rs[0] == ResultOf(first);
    assert rs[1] == ResultOf(second);
    assert rs[..1] == [rs[0]];
    assert PatchCredited(rs);
  }
}
