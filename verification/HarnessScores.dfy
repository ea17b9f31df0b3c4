/** Attempts, their order and the files they changed, said of the attempts' own fields. */
module HarnessScores {
  import opened Text
  import opened HarnessRetry

  // ---------- Results ----------

  /** A check that ended in time with return code 0. */
  predicate Succeeded(c: Check) { c.timedOut == false && c.returnCode == 0 }

  /** Some files were changed, and checks were run and all succeeded. */
  predicate Solved(a: Attempt) {
    a.Ran? && a.changed != [] && a.checks != [] && forall i :: 0 <= i < |a.checks| ==> Succeeded(a.checks[i])
  }

  /** Some files were changed and a check failed. */
  predicate FailedChecks(a: Attempt) {
    a.Ran? && a.changed != [] && exists i :: 0 <= i < |a.checks| && !Succeeded(a.checks[i])
  }

  /** What the result of an attempt says: it is resolved and validated if its changes passed all checks; only
      one that ended in time and failed a check counts as failed in validation. */
  lemma ResultTells(a: Attempt)
    ensures var r := ResultOf(a);
      && (r.resolved <==> Solved(a)) && (r.validated <==> Solved(a))
      && (r.patchApplied <==> a.Ran? && a.changed != [])
      && r.changed == (if a.Ran? then a.changed else []) && r.checks == a.checks && r.failures == a.failures
      && (r.equivalent <==> a.Ran? && a.equivalent) && (r.completed <==> a.Ran? && a.completed)
      && (r.category.ValidationFailed? <==> a.Ran? && !a.timedOut && FailedChecks(a))
      && (r.category.SetupFailed? <== a.Broken?)
      && (Solved(a) ==> r.category.NoCategory?)
      && (a.Ran? && a.timedOut && !Solved(a) ==> r.category.Timeout?)
  {
    if a.Ran? { AllPassedIs(a.checks); }
  }

  lemma AllPassedIs(cs: seq<Check>)
    ensures AllPassed(cs) <==> forall i :: 0 <= i < |cs| ==> Succeeded(cs[i])
    ensures AllPassed(cs) <==> !exists i :: 0 <= i < |cs| && !Succeeded(cs[i])
  {
  }

  /** An attempt is worth building on exactly if it ended in time, changed files and failed a check. */
  lemma WorthRetrying(a: Attempt)
    ensures FailedValidation(ResultOf(a)) <==> a.Ran? && !a.timedOut && FailedChecks(a)
  {
    ResultTells(a);
    if a.Ran? { AllPassedIs(a.checks); }
  }

  // ---------- Which attempt is better ----------

  /** The output differs from the expected one in its form only, and is not accepted. */
  predicate OnlyForm(r: Result) { r.patchApplied && !r.validated && !r.resolved && r.equivalent }

  function FailuresOf(r: Result): int { if r.checks == [] then 10_000 else r.failures }

  /** `r` is better than `q`: resolved rather than not, then validated, then checked, then with fewer
      failures, then with a patch, then other than in form only, then completed. */
  predicate Better(r: Result, q: Result) {
    if r.resolved != q.resolved then r.resolved
    else if r.validated != q.validated then r.validated
    else if (r.checks == []) != (q.checks == []) then r.checks != []
    else if FailuresOf(r) != FailuresOf(q) then FailuresOf(r) < FailuresOf(q)
    else if r.patchApplied != q.patchApplied then r.patchApplied
    else if OnlyForm(r) != OnlyForm(q) then !OnlyForm(r)
    else r.completed && !q.completed
  }

  /** Tuples are compared component by component. */
  lemma LessFirst(x: int, a: seq<int>, y: int, b: seq<int>)
    ensures Less([x] + a, [y] + b) <==> x < y || (x == y && Less(a, b))
  {
    assert ([x] + a)[1..] == a && ([y] + b)[1..] == b;
  }

  lemma SevenLess(a: seq<int>, b: seq<int>)
    requires |a| == |b| == 7
    ensures Less(a, b) <==>
            if a[0] != b[0] then a[0] < b[0] else if a[1] != b[1] then a[1] < b[1] else if a[2] != b[2] then a[2] < b[2]
            else if a[3] != b[3] then a[3] < b[3] else if a[4] != b[4] then a[4] < b[4]
            else if a[5] != b[5] then a[5] < b[5] else a[6] < b[6]
  {
    hide Less;
    LessFirst(a[6], [], b[6], []);
    LessFirst(a[5], [a[6]], b[5], [b[6]]);
    LessFirst(a[4], [a[5], a[6]], b[4], [b[5], b[6]]);
    LessFirst(a[3], a[4..], b[3], b[4..]);
    LessFirst(a[2], a[3..], b[2], b[3..]);
    LessFirst(a[1], a[2..], b[1], b[2..]);
    LessFirst(a[0], a[1..], b[0], b[1..]);
    LessNothing();
    Tails(a);
    Tails(b);
  }

  lemma Tails(a: seq<int>)
    requires |a| == 7
    ensures a == [a[0]] + a[1..] && a[1..] == [a[1]] + a[2..] && a[2..] == [a[2]] + a[3..] && a[3..] == [a[3]] + a[4..]
    ensures a[4..] == [a[4]] + [a[5], a[6]] && [a[5], a[6]] == [a[5]] + [a[6]] && [a[6]] == [a[6]] + []
  {
  }

  lemma LessNothing()
    ensures !Less([], [])
  {
  }

  /** Scores compare as the attempts do. */
  lemma ScoresTell(r: Result, q: Result)
    ensures Less(Score(q), Score(r)) <==> Better(r, q)
  {
    hide Less;
    SevenLess(Score(q), Score(r));
  }

  /** The selected attempt is one that no other is better than, and every later one is worse. */
  lemma SelectedTells(rs: seq<Result>, k: nat)
    requires k < |rs|
    ensures BestAndLatest(rs, k) <==>
              (forall i :: 0 <= i < |rs| ==> !Better(rs[i], rs[k])) && forall i :: k < i < |rs| ==> Better(rs[k], rs[i])
  {
    hide Less, Score, Better;
    forall i | 0 <= i < |rs|
      ensures Less(Score(rs[k]), Score(rs[i])) <==> Better(rs[i], rs[k])
      ensures Less(Score(rs[i]), Score(rs[k])) <==> Better(rs[k], rs[i])
    {
      ScoresTell(rs[i], rs[k]);
      ScoresTell(rs[k], rs[i]);
    }
  }

  // ---------- Changed files ----------

  /** The name is that of a file that one of the attempts changed. */
  ghost predicate Named(rs: seq<Result>, name: string) {
    name != "" && exists i, j :: 0 <= i < |rs| && 0 <= j < |rs[i].changed| && Strip(rs[i].changed[j]) == name
  }

  lemma {:induction false} AddedNames(names: seq<string>, more: seq<string>)
    requires Distinct(names)
    ensures Distinct(AddNames(names, more)) && names <= AddNames(names, more)
    ensures forall n :: n in AddNames(names, more) <==>
              n in names || (n != "" && exists j :: 0 <= j < |more| && Strip(more[j]) == n)
    decreases more
  {
    hide Strip;
    if more != [] {
      var name := Strip(more[0]);
      var next := if name == "" || name in names then names else names + [name];
      AddedNames(next, more[1..]);
      assert forall j :: 0 < j < |more| ==> more[j] == more[1..][j - 1];
      assert forall j :: 0 <= j < |more| - 1 ==> more[1..][j] == more[j + 1];
    }
  }

  /** The changed files of all attempts: every name once, none blank, those of earlier attempts first. */
  lemma {:induction false} ChangedTells(rs: seq<Result>)
    ensures Distinct(AllChanged(rs)) && forall n :: n in AllChanged(rs) <==> Named(rs, n)
    ensures rs != [] ==> AllChanged(rs[..|rs| - 1]) <= AllChanged(rs)
  {
    hide AddNames, Named;
    if rs == [] {
      NoneNamed();
    } else {
      var less, r := rs[..|rs| - 1], rs[|rs| - 1];
      ChangedTells(less);
      AddedNames(AllChanged(less), r.changed);
      forall n
        ensures Named(rs, n) <==> Named(less, n) || (n != "" && exists j :: 0 <= j < |r.changed| && Strip(r.changed[j]) == n)
      {
        NamedMore(less, r, n);
        assert less + [r] == rs;
      }
    }
  }

  lemma NoneNamed()
    ensures forall n :: !Named([], n)
  {
  }

  lemma NamedMore(less: seq<Result>, r: Result, n: string)
    ensures Named(less + [r], n) <==> Named(less, n) || (n != "" && exists j :: 0 <= j < |r.changed| && Strip(r.changed[j]) == n)
  {
    hide Strip;
    var rs := less + [r];
    if Named(less, n) {
      var i, j :| 0 <= i < |less| && 0 <= j < |less[i].changed| && Strip(less[i].changed[j]) == n;
      assert rs[i] == less[i];
    }
    if n != "" && exists j :: 0 <= j < |r.changed| && Strip(r.changed[j]) == n {
      var j :| 0 <= j < |r.changed| && Strip(r.changed[j]) == n;
      assert rs[|less|] == r;
    }
    if Named(rs, n) {
      var i, j :| 0 <= i < |rs| && 0 <= j < |rs[i].changed| && Strip(rs[i].changed[j]) == n;
      if i < |less| { assert rs[i] == less[i]; } else { assert rs[i] == r; }
    }
  }
}
