/** What holds over every run of the poll loop, however the server behaves. */
module HarnessResults {
  import opened Text
  import opened HarnessTasks
  import opened HarnessWork
  import opened HarnessSteps
  import opened HarnessPoll

  // ---------- The requests of one cycle ----------

  function Requested(requests: seq<Request>): seq<Task> {
    if requests == [] then [] else Requested(requests[..|requests| - 1]) + [requests[|requests| - 1].task]
  }

  /** The candidates that the budget lets through. */
  function Eligible(cands: seq<Task>, started: set<int>, count: int, budget: int): seq<Task> {
    if cands == [] then []
    else (if InBudget(cands[0], started, count, budget) then [cands[0]] else []) + Eligible(cands[1..], started, count, budget)
  }

  /** Everything up to here was refused. */
  predicate Pending(l: Launched) {
    !l.started && !l.waiting && forall i :: 0 <= i < |l.requests| ==> !l.requests[i].accepted
  }

  /** At most one request is accepted, it is the last one, and the outcome says so. */
  predicate LastAccepted(l: Launched) {
    && (forall i :: 0 <= i < |l.requests| - 1 ==> !l.requests[i].accepted)
    && (l.started <==> l.requests != [] && l.requests[|l.requests| - 1].accepted)
    && (l.started ==> l.progress && !l.waiting)
  }

  lemma {:induction false} LaunchAcceptsLast(cands: seq<Task>, answer: nat -> Answer, started: set<int>,
                                             count: int, budget: int, sofar: Launched)
    requires Pending(sofar)
    ensures LastAccepted(Launch(cands, answer, started, count, budget, sofar))
    decreases |cands|
  {
    hide Transient;
    if cands != [] {
      var t := cands[0];
      if !InBudget(t, started, count, budget) {
        LaunchAcceptsLast(cands[1..], answer, started, count, budget, sofar.(reason := Some(BUDGET)));
      } else {
        var a := answer(|sofar.requests|);
        var next := sofar.(requests := sofar.requests + [Request(t, a.reply.Accepted?)]);
        if a.reply.Refused? {
          LaunchAcceptsLast(cands[1..], answer, started, count, budget, next);
          LaunchAcceptsLast(cands[1..], answer, started, count, budget, next.(progress := true));
        }
      }
    }
  }

  /** `r` requests the first of the eligible tasks `es`, after what `sofar` requested; all of them,
      when it neither started, nor waits for, nor is blocked by one. */
  predicate RequestsFirst(sofar: Launched, es: seq<Task>, r: Launched) {
    && |sofar.requests| <= |r.requests| <= |sofar.requests| + |es|
    && Requested(r.requests) == Requested(sofar.requests) + es[..|r.requests| - |sofar.requests|]
    && (r.reason.None? ==> sofar.reason.None?)
    && (r.reason.None? && !r.started && !r.waiting ==> |r.requests| == |sofar.requests| + |es|)
  }

  lemma RequestOne(sofar: Launched, t: Task, accepted: bool)
    ensures Requested(sofar.requests + [Request(t, accepted)]) == Requested(sofar.requests) + [t]
  {
    assert (sofar.requests + [Request(t, accepted)])[..|sofar.requests|] == sofar.requests;
  }

  lemma RequestsChain(sofar: Launched, next: Launched, t: Task, es: seq<Task>, r: Launched)
    requires |next.requests| == |sofar.requests| + 1 && Requested(next.requests) == Requested(sofar.requests) + [t]
    requires next.reason == sofar.reason && RequestsFirst(next, es, r)
    ensures RequestsFirst(sofar, [t] + es, r)
  {
    var n := |r.requests| - |next.requests|;
    assert ([t] + es)[..n + 1] == [t] + es[..n];
    Regroup3(Requested(sofar.requests), [t], es[..n]);
  }

  lemma RequestsOnly(sofar: Launched, t: Task, es: seq<Task>, r: Launched)
    requires |r.requests| == |sofar.requests| + 1 && Requested(r.requests) == Requested(sofar.requests) + [t]
    requires r.reason.Some? || (r.reason == sofar.reason && (r.started || r.waiting))
    ensures RequestsFirst(sofar, [t] + es, r)
  {
    assert ([t] + es)[..1] == [t];
  }

  lemma {:induction false} LaunchRequestsFirst(cands: seq<Task>, answer: nat -> Answer, started: set<int>,
          count: int, budget: int, sofar: Launched)
    ensures RequestsFirst(sofar, Eligible(cands, started, count, budget), Launch(cands, answer, started, count, budget, sofar))
    decreases |cands|
  {
    hide Transient, RequestsFirst, Requested;
    if cands == [] {
      RequestNone(sofar);
    } else {
      var t, es := cands[0], Eligible(cands[1..], started, count, budget);
      if !InBudget(t, started, count, budget) {
        LaunchRequestsFirst(cands[1..], answer, started, count, budget, sofar.(reason := Some(BUDGET)));
        assert [] + es == es;
        RequestsDespite(sofar, es, Launch(cands, answer, started, count, budget, sofar));
      } else {
        var a := answer(|sofar.requests|);
        var next := sofar.(requests := sofar.requests + [Request(t, a.reply.Accepted?)]);
        RequestOne(sofar, t, a.reply.Accepted?);
        LaunchAfter(cands, answer, started, count, budget, sofar, next, es);
      }
    }
  }

  lemma RequestNone(sofar: Launched)
    ensures RequestsFirst(sofar, [], sofar)
  {
  }

  lemma RequestsDespite(sofar: Launched, es: seq<Task>, r: Launched)
    requires RequestsFirst(sofar.(reason := Some(BUDGET)), es, r)
    ensures RequestsFirst(sofar, es, r)
  {
  }

  lemma {:induction false} LaunchAfter(cands: seq<Task>, answer: nat -> Answer, started: set<int>, count: int,
                                       budget: int,
                                       sofar: Launched, next: Launched, es: seq<Task>)
    requires cands != [] && InBudget(cands[0], started, count, budget)
    requires es == Eligible(cands[1..], started, count, budget)
    requires next == sofar.(requests := sofar.requests + [Request(cands[0], answer(|sofar.requests|).reply.Accepted?)])
    requires Requested(next.requests) == Requested(sofar.requests) + [cands[0]]
    ensures RequestsFirst(sofar, [cands[0]] + es, Launch(cands, answer, started, count, budget, sofar))
    decreases |cands|, 0
  {
    hide Transient, RequestsFirst, Requested;
    var t, r := cands[0], Launch(cands, answer, started, count, budget, sofar);
    var moved := next.(progress := true);
    LaunchRequestsFirst(cands[1..], answer, started, count, budget, next);
    LaunchRequestsFirst(cands[1..], answer, started, count, budget, moved);
    if r == Launch(cands[1..], answer, started, count, budget, next) {
      RequestsChain(sofar, next, t, es, r);
    } else if r == Launch(cands[1..], answer, started, count, budget, moved) {
      RequestsChain(sofar, moved, t, es, r);
    } else {
      RequestsOnly(sofar, t, es, r);
    }
  }

  lemma {:induction false} EligibleFacts(cands: seq<Task>, started: set<int>, count: int, budget: int)
    requires Sorted(cands)
    ensures Sorted(Eligible(cands, started, count, budget))
    ensures forall t :: t in Eligible(cands, started, count, budget) <==> t in cands && InBudget(t, started, count, budget)
  {
    hide Before, InBudget;
    if cands != [] {
      EligibleFacts(cands[1..], started, count, budget);
      var es := Eligible(cands, started, count, budget);
      if InBudget(cands[0], started, count, budget) {
        var rest := Eligible(cands[1..], started, count, budget);
        assert es == [cands[0]] + rest;
        forall j | 0 <= j < |rest|
          ensures Before(cands[0], rest[j])
        {
          assert rest[j] in cands[1..];
          var k :| 1 <= k < |cands| && cands[k] == rest[j];
        }
      } else {
        assert es == Eligible(cands[1..], started, count, budget);
      }
    }
  }

  lemma {:induction false} RequestedAt(requests: seq<Request>)
    ensures |Requested(requests)| == |requests|
    ensures forall i :: 0 <= i < |requests| ==> Requested(requests)[i] == requests[i].task
  {
    if requests != [] { RequestedAt(requests[..|requests| - 1]); }
  }

  /** A start request is justified by the snapshot it was made in. */
  ghost predicate Justified(t: Task, budget: int, s: Poll, snap: Snapshot) {
    !Underway(snap) && Ready(t, snap, s.started) && (s.count < budget || t.id in s.started)
  }

  /** Every start request of a cycle goes to a task that is ready, its dependencies being finished in the
      snapshot, while no task is being worked on; the best candidates come first; one request at most
      is accepted, and none follows it; and if none is accepted, waited for or blocking, every task
      that was justified has been requested. */
  lemma StartsJustified(budget: int, s: Poll, o: Observation)
    ensures var l := LaunchOf(budget, s, o);
      && LastAccepted(l)
      && (forall i :: 0 <= i < |l.requests| ==> Justified(l.requests[i].task, budget, s, o.snap))
      && (forall i, j :: 0 <= i < j < |l.requests| ==> ComesFirst(l.requests[i].task, l.requests[j].task))
      && (l.reason.None? && !l.started && !l.waiting ==>
            forall t :: Justified(t, budget, s, o.snap) ==> t in Requested(l.requests))
  {
    hide Launch, Before, Statuses, Restartable, DependenciesDone, Executing, Underway, Ready, ComesFirst;
    UnderwayIsExecuting(o.snap);
    if !Executing(o.snap) {
      var l := LaunchOf(budget, s, o);
      var cands := Candidates(o.snap, s.started);
      var es := Eligible(cands, s.started, s.count, budget);
      CandidatesFacts(o.snap, s.started);
      EligibleFacts(cands, s.started, s.count, budget);
      LaunchAcceptsLast(cands, o.answer, s.started, s.count, budget, NOTHING);
      LaunchRequestsFirst(cands, o.answer, s.started, s.count, budget, NOTHING);
      RequestedAt(l.requests);
      assert Requested(l.requests) == es[..|l.requests|];
      JustifiedAre(budget, s, o, cands, es, l);
    }
  }

  lemma JustifiedAre(budget: int, s: Poll, o: Observation, cands: seq<Task>, es: seq<Task>, l: Launched)
    requires !Underway(o.snap) && |l.requests| <= |es| && Requested(l.requests) == es[..|l.requests|]
    requires forall t :: t in cands <==> t in o.snap.tasks && Candidate(t, Statuses(o.snap.tasks), s.started, o.snap.agents)
    requires forall t :: t in es <==> t in cands && InBudget(t, s.started, s.count, budget)
    requires |Requested(l.requests)| == |l.requests|
    requires forall i :: 0 <= i < |l.requests| ==> Requested(l.requests)[i] == l.requests[i].task
    requires Sorted(es)
    requires l.reason.None? && !l.started && !l.waiting ==> |l.requests| == |es|
    ensures forall i :: 0 <= i < |l.requests| ==> Justified(l.requests[i].task, budget, s, o.snap)
    ensures forall i, j :: 0 <= i < j < |l.requests| ==> ComesFirst(l.requests[i].task, l.requests[j].task)
    ensures l.reason.None? && !l.started && !l.waiting ==>
              forall t :: Justified(t, budget, s, o.snap) ==> t in Requested(l.requests)
  {
    hide Before, ComesFirst, Statuses, Candidate, Underway, Requested, Ready;
    forall t
      ensures Ready(t, o.snap, s.started) <==> t in cands
    {
      ReadyIsCandidate(t, o.snap, s.started);
    }
    forall i | 0 <= i < |l.requests|
      ensures Justified(l.requests[i].task, budget, s, o.snap)
    {
      assert l.requests[i].task == es[i];
      assert es[i] in es;
    }
    forall i, j | 0 <= i < j < |l.requests|
      ensures ComesFirst(l.requests[i].task, l.requests[j].task)
    {
      assert Before(es[i], es[j]) && es[i] in es && es[j] in es;
      FirstIsBefore(es[i], es[j], o.snap, s.started);
    }
    if |l.requests| == |es| { assert es[..|l.requests|] == es; }
  }

  /** While a task is being worked on, a cycle requests no start, whatever else is ready: it sleeps, or the run
      ends as converged. */
  lemma WorkStartsNothing(budget: int, s: Poll, o: Observation)
    requires Underway(o.snap)
    ensures LaunchOf(budget, s, o).requests == [] && MainLaunch(budget, s, o).requests == []
    ensures Step(budget, s, o).started == s.started && GraceStep(budget, s, o).started == s.started
    ensures VerdictOf(budget, s, o).Sleep? || VerdictOf(budget, s, o).Convergence?
  {
    hide Statuses, Executing, Underway;
    UnderwayIsExecuting(o.snap);
  }

  /** And while none is, a task that is ready and within the budget is requested; the first request goes to
      one that comes before all the others. */
  lemma ReadyIsRequested(budget: int, s: Poll, o: Observation, t: Task)
    requires Justified(t, budget, s, o.snap)
    ensures LaunchOf(budget, s, o).requests != []
    ensures var first := LaunchOf(budget, s, o).requests[0].task; Justified(first, budget, s, o.snap) && ComesFirst(first, t)
  {
    hide Launch, Before, ComesFirst, Statuses, Candidate, Executing, Underway, Ready;
    UnderwayIsExecuting(o.snap);
    ReadyIsCandidate(t, o.snap, s.started);
    var cands := Candidates(o.snap, s.started);
    var es := Eligible(cands, s.started, s.count, budget);
    CandidatesFacts(o.snap, s.started);
    EligibleFacts(cands, s.started, s.count, budget);
    LaunchRequestsSome(cands, o.answer, s.started, s.count, budget, NOTHING);
    LaunchRequestsFirst(cands, o.answer, s.started, s.count, budget, NOTHING);
    var requests := LaunchOf(budget, s, o).requests;
    RequestedAt(requests);
    StartsJustified(budget, s, o);
    assert requests[0].task == es[0] && t in es;
    var k :| 0 <= k < |es| && es[k] == t;
    if k == 0 { BeforeItself(t); } else { FirstIsBefore(es[0], t, o.snap, s.started); }
  }

  lemma BeforeItself(t: Task)
    ensures ComesFirst(t, t)
  {
  }

  lemma RequestsGrow(cands: seq<Task>, answer: nat -> Answer, started: set<int>, count: int, budget: int, sofar: Launched)
    ensures |Launch(cands, answer, started, count, budget, sofar).requests| >= |sofar.requests|
  {
    hide Launch, Eligible, Requested;
    LaunchRequestsFirst(cands, answer, started, count, budget, sofar);
  }

  lemma {:induction false} LaunchRequestsSome(cands: seq<Task>, answer: nat -> Answer, started: set<int>,
                                              count: int, budget: int, sofar: Launched)
    requires Eligible(cands, started, count, budget) != []
    ensures |Launch(cands, answer, started, count, budget, sofar).requests| > |sofar.requests|
    decreases |cands|
  {
    hide Transient, InBudget;
    if !InBudget(cands[0], started, count, budget) {
      LaunchRequestsSome(cands[1..], answer, started, count, budget, sofar.(reason := Some(BUDGET)));
    } else {
      hide Eligible;
      var next := sofar.(requests := sofar.requests + [Request(cands[0], answer(|sofar.requests|).reply.Accepted?)]);
      RequestsGrow(cands[1..], answer, started, count, budget, next);
      RequestsGrow(cands[1..], answer, started, count, budget, next.(progress := true));
    }
  }

  /** The agents make no difference to which tasks are tried: an assigned task is startable by its
      status alone, so the test whether its agent lets it go is never the deciding one. */
  lemma {:induction false} AgentsDoNotMatter(ts: seq<Task>, statuses: map<int, Status>, started: set<int>,
                                             agents: seq<Agent>, others: seq<Agent>)
    ensures Filter(ts, statuses, started, agents) == Filter(ts, statuses, started, others)
  {
    hide CanRelaunch, DependenciesDone, Restartable;
    if ts != [] { AgentsDoNotMatter(ts[1..], statuses, started, agents, others); }
  }

  // ---------- The budget ----------

  /** The counter counts the started tasks and keeps to the budget. */
  predicate Counted(budget: int, s: Poll) {
    s.count == |s.started| && s.count <= if budget > 0 then budget else 0
  }

  lemma BookCounted(budget: int, s: Poll, seen: Poll, o: Observation, l: Launched)
    requires Counted(budget, s) && seen.started == s.started && seen.count == s.count
    requires l == LaunchOf(budget, s, o) || l == NOTHING
    ensures Counted(budget, Book(seen, l))
  {
    hide LaunchOf, Executing, Candidates;
    StartsJustified(budget, s, o);
    if l.started && l.requests != [] {
      var t := l.requests[|l.requests| - 1].task;
      assert InBudget(t, s.started, s.count, budget);
    }
  }

  lemma {:induction false} MainCounted(budget: int, os: seq<Observation>)
    ensures Counted(budget, After(budget, os))
  {
    if os != [] {
      var s, o := After(budget, os[..|os| - 1]), os[|os| - 1];
      MainCounted(budget, os[..|os| - 1]);
      BookCounted(budget, s, Seen(s, o.snap), o, MainLaunch(budget, s, o));
      StepBooks(budget, s, o);
    }
  }

  lemma StepBooks(budget: int, s: Poll, o: Observation)
    ensures var b := Book(Seen(s, o.snap), MainLaunch(budget, s, o));
      Step(budget, s, o).started == b.started && Step(budget, s, o).count == b.count
  {
    hide MainLaunch, VerdictOf, Statuses;
  }

  /** Over a whole run, with its grace loop, the number of tasks started keeps to the budget. */
  lemma {:induction false} BudgetKept(budget: int, main: seq<Observation>, grace: seq<Observation>)
    ensures var s := GraceAfter(budget, After(budget, main), grace);
      s.count == |s.started| && |s.started| <= if budget > 0 then budget else 0
  {
    hide Statuses, LaunchOf, After;
    if grace == [] {
      MainCounted(budget, main);
    } else {
      var s, o := GraceAfter(budget, After(budget, main), grace[..|grace| - 1]), grace[|grace| - 1];
      BudgetKept(budget, main, grace[..|grace| - 1]);
      var seen := if Changed(s, o.snap) then s.(statuses := Statuses(o.snap.tasks), events := o.snap.events) else s;
      BookCounted(budget, s, seen, o, LaunchOf(budget, s, o));
    }
  }

  // ---------- Starts over a run ----------

  /** The state before the `i`-th cycle, main loop first, grace loop after it. */
  function StateAt(budget: int, run: Run, i: nat): Poll
    requires i <= |run.main| + |run.grace|
  {
    if i <= |run.main| then After(budget, run.main[..i])
    else GraceAfter(budget, After(budget, run.main), run.grace[..i - |run.main|])
  }

  function ObservationAt(run: Run, i: nat): Observation
    requires i < |run.main| + |run.grace|
  {
    if i < |run.main| then run.main[i] else run.grace[i - |run.main|]
  }

  /** What the `i`-th cycle of the run launched. */
  function LaunchAt(budget: int, run: Run, i: nat): Launched
    requires i < |run.main| + |run.grace|
  {
    if i < |run.main| then MainLaunch(budget, StateAt(budget, run, i), run.main[i])
    else LaunchOf(budget, StateAt(budget, run, i), run.grace[i - |run.main|])
  }

  /** The `i`-th cycle started the task `t`. */
  predicate StartsAt(budget: int, run: Run, i: nat, t: Task)
    requires i < |run.main| + |run.grace|
  {
    var l := LaunchAt(budget, run, i);
    l.started && l.requests != [] && l.requests[|l.requests| - 1].task == t
  }

  /** What is finished stays finished. */
  ghost predicate NeverUndone(run: Run) {
    forall i, j, id :: 0 <= i <= j < |run.main| + |run.grace| && FinishedIn(ObservationAt(run, i).snap, id) ==>
      FinishedIn(ObservationAt(run, j).snap, id)
  }

  ghost predicate FinishedIn(snap: Snapshot, id: int) { Met(snap.tasks, id) }

  predicate DistinctIds(ts: seq<Task>) { forall i, j :: 0 <= i < j < |ts| ==> ts[i].id != ts[j].id }

  ghost predicate AllDistinct(run: Run) {
    forall i :: 0 <= i < |run.main| + |run.grace| ==> DistinctIds(ObservationAt(run, i).snap.tasks)
  }

  /** A started task has its dependencies finished, and is not finished itself. */
  lemma StartedInSnapshot(budget: int, run: Run, i: nat, t: Task)
    requires i < |run.main| + |run.grace| && StartsAt(budget, run, i, t)
    requires DistinctIds(ObservationAt(run, i).snap.tasks)
    ensures forall d :: d in t.dependencies ==> FinishedIn(ObservationAt(run, i).snap, d)
    ensures !FinishedIn(ObservationAt(run, i).snap, t.id)
  {
    hide LaunchOf, StateAt, Underway;
    var o := ObservationAt(run, i);
    StartsJustified(budget, StateAt(budget, run, i), o);
    assert Ready(t, o.snap, StateAt(budget, run, i).started);
  }

  /** If finished tasks stay finished, the starts of a run respect the dependencies: whenever a task
      is started and another one that it depends on is started too, the other one was started in an
      earlier cycle -- each time. */
  lemma DependencyOrder(budget: int, run: Run, i: nat, t: Task, j: nat, u: Task)
    requires NeverUndone(run) && AllDistinct(run)
    requires i < |run.main| + |run.grace| && j < |run.main| + |run.grace|
    requires StartsAt(budget, run, i, t) && StartsAt(budget, run, j, u) && u.id in t.dependencies
    ensures j < i
  {
    hide StartsAt, FinishedIn;
    StartedInSnapshot(budget, run, i, t);
    StartedInSnapshot(budget, run, j, u);
  }

  /** The started tasks are those whose start was accepted in some cycle of the run. */
  lemma {:induction false} StartedAre(budget: int, run: Run, id: int, n: nat)
    requires n <= |run.main| + |run.grace|
    ensures id in StateAt(budget, run, n).started <==>
              exists i, t :: 0 <= i < n && StartsAt(budget, run, i, t) && t.id == id
    decreases n
  {
    hide LaunchOf, StartsAt, StateAt;
    if n == 0 {
      NoneStarted(budget, run);
    } else {
      StartedAre(budget, run, id, n - 1);
      StartedGrows(budget, run, id, n - 1);
      if t :| StartsAt(budget, run, n - 1, t) && t.id == id {
      }
    }
  }

  lemma NoneStarted(budget: int, run: Run)
    ensures StateAt(budget, run, 0).started == {}
  {
  }

  lemma StartedGrows(budget: int, run: Run, id: int, n: nat)
    requires n < |run.main| + |run.grace|
    ensures id in StateAt(budget, run, n + 1).started <==>
              id in StateAt(budget, run, n).started || exists t :: StartsAt(budget, run, n, t) && t.id == id
  {
    hide LaunchOf, Statuses, Executing;
    var l := LaunchAt(budget, run, n);
    StateGrows(budget, run, n);
    if l.started && l.requests != [] {
      var t := l.requests[|l.requests| - 1].task;
      assert StartsAt(budget, run, n, t);
    }
  }

  lemma StateGrows(budget: int, run: Run, n: nat)
    requires n < |run.main| + |run.grace|
    ensures StateAt(budget, run, n + 1).started == Book(StateAt(budget, run, n), LaunchAt(budget, run, n)).started
  {
    hide LaunchOf, Statuses, Executing, Step;
    if n < |run.main| {
      var os := run.main[..n + 1];
      assert os[..|os| - 1] == run.main[..n] && os[|os| - 1] == run.main[n];
      StepBooks(budget, After(budget, run.main[..n]), run.main[n]);
    } else {
      var k := n - |run.main|;
      var os := run.grace[..k + 1];
      assert os[..|os| - 1] == run.grace[..k] && os[|os| - 1] == run.grace[k];
      assert run.main[..|run.main|] == run.main && run.grace[..0] == [];
      assert StateAt(budget, run, n) == GraceAfter(budget, After(budget, run.main), run.grace[..k]);
      assert StateAt(budget, run, n + 1) == GraceAfter(budget, After(budget, run.main), os);
      assert ObservationAt(run, n) == run.grace[k];
    }
  }

  // ---------- Recovery and exits ----------

  /** How often a run asked the manager for recovery. */
  function Recoveries(budget: int, os: seq<Observation>): nat {
    if os == [] then 0
    else
      var v := VerdictOf(budget, After(budget, os[..|os| - 1]), os[|os| - 1]);
      Recoveries(budget, os[..|os| - 1]) + if v.Recovery? then 1 else 0
  }

  /** How many of its polls saw something changed. */
  function Changes(budget: int, os: seq<Observation>): nat {
    if os == [] then 0
    else Changes(budget, os[..|os| - 1]) + if Changed(After(budget, os[..|os| - 1]), os[|os| - 1].snap) then 1 else 0
  }

  /** The manager is asked at most twice, and twice more for every change that was seen. */
  lemma {:induction false} RecoveriesBounded(budget: int, os: seq<Observation>)
    ensures Recoveries(budget, os) <= MAX_TRIES * Changes(budget, os) + After(budget, os).tries
    ensures After(budget, os).tries <= MAX_TRIES
    ensures Recoveries(budget, os) <= MAX_TRIES * (1 + Changes(budget, os))
  {
    hide Launch, Statuses, Candidates, Converged, Executing, AllTerminal;
    if os != [] { RecoveriesBounded(budget, os[..|os| - 1]); }
  }

  /** A reason for a deadlock stays noted, and then no cycle asks for recovery or sleeps on an idle
      project: the run ends, unless a task is being worked on, or started, or waited for. */
  lemma DeadlockStays(budget: int, s: Poll, o: Observation)
    requires s.reason.Some?
    ensures Step(budget, s, o).reason.Some?
    ensures var v := VerdictOf(budget, s, o);
      v.Convergence? || v.Deadlock? || v.Launching? || v.AwaitingWorker? || (v.Sleep? && Underway(o.snap))
  {
    hide Launch, Statuses, Candidates, Converged, Executing, Underway;
    UnderwayIsExecuting(o.snap);
  }

  lemma {:induction false} NoRecoveryAfterDeadlock(budget: int, os: seq<Observation>, n: nat)
    requires n <= |os| && After(budget, os[..n]).reason.Some?
    ensures After(budget, os).reason.Some? && Recoveries(budget, os) == Recoveries(budget, os[..n])
    decreases |os|
  {
    hide Step, VerdictOf;
    if n == |os| {
      assert os[..n] == os;
    } else {
      var less := os[..|os| - 1];
      assert less[..n] == os[..n];
      NoRecoveryAfterDeadlock(budget, less, n);
      DeadlockStays(budget, After(budget, less), os[|os| - 1]);
    }
  }

  /** The loop does not end while a task is being worked on, except for convergence; and a cycle that
      ends it otherwise has started nothing. */
  lemma ExitsAreQuiet(budget: int, s: Poll, o: Observation)
    requires !Continues(VerdictOf(budget, s, o)) && !VerdictOf(budget, s, o).Convergence?
    ensures !Underway(o.snap)
    ensures forall i :: 0 <= i < |LaunchOf(budget, s, o).requests| ==> !LaunchOf(budget, s, o).requests[i].accepted
    ensures VerdictOf(budget, s, o).Quiet? ==> o.idle && forall t :: Justified(t, budget, s, o.snap) ==>
              t in Requested(LaunchOf(budget, s, o).requests)
  {
    hide LaunchOf, Converged, AllTerminal, Executing, Underway, Justified;
    UnderwayIsExecuting(o.snap);
    StartsJustified(budget, s, o);
  }
}
