/** What trying the candidates comes to, said of the answers that were given. */
module HarnessLaunch {
  import opened Text
  import opened HarnessTasks
  import opened HarnessWork
  import opened HarnessSteps
  import opened HarnessResults

  // ---------- Answers ----------

  /** An agent is at work. */
  predicate AtWork(a: Agent) {
    || a.currentTask != None
    || (a.status != AgentIdle && a.status != AgentWaiting && a.status != AgentDone && a.status != AgentStopped
        && a.status != AgentRetired)
  }

  predicate SomeAtWork(agents: seq<Agent>) { exists k :: 0 <= k < |agents| && AtWork(agents[k]) }

  /** Of the tasks with one identifier the one listed first is asked about. */
  predicate IsFirstTask(tasks: seq<Task>, k: int, id: int) {
    0 <= k < |tasks| && tasks[k].id == id && forall j :: 0 <= j < k ==> tasks[j].id != id
  }

  /** The agent has the task; without a current task an agent at work has the task 0. */
  predicate Has(a: Agent, id: int) { a.currentTask == Some(id) || (id == 0 && a.currentTask == None && AtWork(a)) }

  /** The task is working by now, or its agent has it. */
  ghost predicate Claimed(id: int, tasks: seq<Task>, agents: seq<Agent>) {
    exists k :: IsFirstTask(tasks, k, id) && (
      || tasks[k].status == Working
      || (tasks[k].agent > 0 && exists a :: IsFirst(agents, a, tasks[k].agent) && Has(agents[a], id)))
  }

  /** Some task is working, or assigned, in hand and not waiting. */
  ghost predicate SomeWorking(tasks: seq<Task>, agents: seq<Agent>) {
    exists k :: 0 <= k < |tasks| && (
      || tasks[k].status == Working
      || (tasks[k].status == Assigned && !tasks[k].waiting.forDependencies && InHand(tasks[k], agents)))
  }

  /** A refusal that goes away by itself: the task was claimed in between, no worker is free while some are
      at work, or the paths are taken by work that goes on. */
  ghost predicate GoesAway(a: Answer, id: int)
    requires a.reply.Refused?
  {
    var m := a.reply.message;
    m.text != "" &&
    if m.notStartable then Claimed(id, a.tasks, a.agents)
    else (m.capacity && SomeAtWork(a.agents)) || (m.paths && (SomeAtWork(a.agents) || SomeWorking(a.tasks, a.agents)))
  }

  /** After this answer the next candidate is tried. */
  ghost predicate PassedOver(a: Answer, id: int) {
    a.reply.Refused? && (a.reply.message.dependencies || a.reply.message.superseded || GoesAway(a, id))
  }

  /** The refusal says nothing of dependencies or of a later task, and goes away. */
  ghost predicate Awaited(a: Answer, id: int) {
    a.reply.Refused? && !a.reply.message.dependencies && !a.reply.message.superseded && GoesAway(a, id)
  }

  /** The answer shows that something goes on. */
  ghost predicate Moves(a: Answer, id: int) {
    a.reply.Accepted? || (!a.reply.message.dependencies && (a.reply.message.superseded || GoesAway(a, id)))
  }

  lemma {:induction false} FindTaskFirst(tasks: seq<Task>, id: int)
    ensures FindTask(tasks, id).Some? <==> exists k :: IsFirstTask(tasks, k, id)
    ensures forall k :: IsFirstTask(tasks, k, id) ==> FindTask(tasks, id) == Some(tasks[k])
  {
    if tasks != [] {
      if tasks[0].id == id {
        assert IsFirstTask(tasks, 0, id);
      } else {
        var more := tasks[1..];
        FindTaskFirst(more, id);
        forall k
          ensures IsFirstTask(tasks, k, id) <==> IsFirstTask(more, k - 1, id)
        {
          if IsFirstTask(more, k - 1, id) { assert forall j :: 0 < j < k ==> tasks[j] == more[j - 1]; }
          if IsFirstTask(tasks, k, id) { assert forall j :: 0 <= j < k - 1 ==> more[j] == tasks[j + 1]; }
        }
        if k :| IsFirstTask(more, k, id) { assert IsFirstTask(tasks, k + 1, id); }
      }
    }
  }

  lemma HasIsWorksOn(a: Agent, id: int)
    ensures Has(a, id) <==> WorksOn(a, id)
  {
  }

  lemma ClaimedIs(id: int, tasks: seq<Task>, agents: seq<Agent>)
    ensures Claimed(id, tasks, agents) <==> AlreadyClaimed(id, tasks, agents)
  {
    hide IsFirstTask, IsFirst, FindTask, FindAgent, Has, WorksOn;
    FindTaskFirst(tasks, id);
    var found := FindTask(tasks, id);
    if found.Some? {
      var t := found.value;
      FindAgentFirst(agents, t.agent);
      var agent := FindAgent(agents, t.agent);
      if agent.Some? { HasIsWorksOn(agent.value, id); }
      FirstHasId(tasks, id);
    }
  }

  lemma FirstHasId(tasks: seq<Task>, id: int)
    ensures FindTask(tasks, id).Some? ==> FindTask(tasks, id).value.id == id
  {
  }

  lemma SomeWorkingIs(tasks: seq<Task>, agents: seq<Agent>)
    ensures SomeWorking(tasks, agents) <==> AnyActive(tasks, None, agents)
  {
    hide InHand, HasLiveAgent;
    forall k | 0 <= k < |tasks|
      ensures InHand(tasks[k], agents) <==> HasLiveAgent(tasks[k], agents)
    {
      InHandIsLive(tasks[k], agents);
    }
  }

  lemma SomeAtWorkIs(agents: seq<Agent>)
    ensures SomeAtWork(agents) <==> AnyBusy(agents)
  {
  }

  lemma GoesAwayIs(a: Answer, id: int)
    requires a.reply.Refused?
    ensures GoesAway(a, id) <==> Transient(a.reply.message, a.tasks, a.agents, id)
  {
    hide Claimed, AlreadyClaimed, SomeWorking, AnyActive, SomeAtWork, AnyBusy;
    ClaimedIs(id, a.tasks, a.agents);
    SomeWorkingIs(a.tasks, a.agents);
    SomeAtWorkIs(a.agents);
  }

  // ---------- The whole list of candidates ----------

  /** The reason that a refusal which does not go away leaves behind. */
  function BlockReason(m: Message, id: int, noted: Option<string>): Option<string> {
    if m.text != "" then Some(m.text) else if noted.Some? then noted else Some(CouldNotStart(id))
  }

  /** One of the candidates is beyond the budget. */
  predicate BeyondBudget(cands: seq<Task>, started: set<int>, count: int, budget: int) {
    exists i :: 0 <= i < |cands| && count >= budget && cands[i].id !in started
  }

  function Noted(cands: seq<Task>, started: set<int>, count: int, budget: int, before: Option<string>): Option<string> {
    if BeyondBudget(cands, started, count, budget) then Some(BUDGET) else before
  }

  /** The last request made since `m` ends the trying: its task was started, or is in the way. */
  ghost predicate Ends(l: Launched, answer: nat -> Answer, m: nat) {
    var k := |l.requests|;
    m < k && !PassedOver(answer(k - 1), l.requests[k - 1].task.id)
  }

  /** A request is accepted if its answer says so. */
  ghost predicate Answered(l: Launched, answer: nat -> Answer, m: nat) {
    forall i :: m <= i < |l.requests| ==> l.requests[i].accepted == answer(i).reply.Accepted?
  }

  /** After every request made since `m` but the last one, others were tried. */
  ghost predicate AllPassedOver(l: Launched, answer: nat -> Answer, m: nat) {
    forall i :: m <= i < |l.requests| - 1 ==> PassedOver(answer(i), l.requests[i].task.id)
  }

  /** The requests made for the first `n` candidates, and what their answers made of the trying. */
  ghost predicate RequestsTell(cands: seq<Task>, answer: nat -> Answer, started: set<int>, count: int, budget: int,
                               sofar: Launched, l: Launched, n: nat)
  {
    var m, k := |sofar.requests|, |l.requests|;
    && n <= |cands| && m <= k
    && Requested(l.requests) == Requested(sofar.requests) + Eligible(cands[..n], started, count, budget)
    && Answered(l, answer, m) && AllPassedOver(l, answer, m)
    && (n < |cands| ==> Ends(l, answer, m))
    && (Ends(l, answer, m) ==> n > 0 && InBudget(cands[n - 1], started, count, budget))
  }

  /** Some answer since `m` shows that something goes on. */
  ghost predicate Went(l: Launched, answer: nat -> Answer, m: nat) {
    exists i :: m <= i < |l.requests| && Moves(answer(i), l.requests[i].task.id)
  }

  /** Whether a task was started, is waited for, something went on, and why the trying is stuck. */
  ghost predicate OutcomeTells(cands: seq<Task>, answer: nat -> Answer, started: set<int>, count: int, budget: int,
                               sofar: Launched, l: Launched, n: nat)
    requires n <= |cands| && |sofar.requests| <= |l.requests|
  {
    var m, k := |sofar.requests|, |l.requests|;
    && l.started == (sofar.started || (m < k && answer(k - 1).reply.Accepted?))
    && l.waiting == (sofar.waiting || (m < k && n == |cands| && n > 0 && InBudget(cands[n - 1], started, count, budget)
                                       && Awaited(answer(k - 1), l.requests[k - 1].task.id)))
    && l.progress == (sofar.progress || Went(l, answer, m))
    && var noted := Noted(cands[..n], started, count, budget, sofar.reason);
       l.reason == if Ends(l, answer, m) && answer(k - 1).reply.Refused?
                   then BlockReason(answer(k - 1).reply.message, l.requests[k - 1].task.id, noted) else noted
  }

  ghost predicate Tells(cands: seq<Task>, answer: nat -> Answer, started: set<int>, count: int, budget: int,
                        sofar: Launched, l: Launched, n: nat)
  {
    && RequestsTell(cands, answer, started, count, budget, sofar, l, n)
    && OutcomeTells(cands, answer, started, count, budget, sofar, l, n)
  }

  lemma FirstTried(cands: seq<Task>, n: nat, started: set<int>, count: int, budget: int, before: Option<string>)
    requires cands != [] && 0 < n <= |cands|
    ensures cands[..n] == [cands[0]] + cands[1..][..n - 1]
    ensures Eligible(cands[..n], started, count, budget)
         == (if InBudget(cands[0], started, count, budget) then [cands[0]] else [])
            + Eligible(cands[1..][..n - 1], started, count, budget)
    ensures Noted(cands[..n], started, count, budget, before)
         == Noted(cands[1..][..n - 1], started, count, budget,
                  if InBudget(cands[0], started, count, budget) then before else Some(BUDGET))
  {
    var xs, ys := cands[..n], cands[1..][..n - 1];
    assert xs[1..] == ys;
    assert forall i :: 0 < i < |xs| ==> xs[i] == ys[i - 1];
    assert forall i :: 0 <= i < |ys| ==> ys[i] == xs[i + 1];
    if i :| 0 <= i < |ys| && count >= budget && ys[i].id !in started {
      assert xs[i + 1].id !in started;
    }
    if i :| 0 <= i < |xs| && count >= budget && xs[i].id !in started {
      if i > 0 { assert ys[i - 1].id !in started; }
    }
  }

  /** A candidate beyond the budget is left out, and that is noted. */
  lemma BeyondTells(cands: seq<Task>, answer: nat -> Answer, started: set<int>, count: int, budget: int,
                    sofar: Launched, l: Launched, n: nat)
    requires cands != [] && !InBudget(cands[0], started, count, budget)
    requires Tells(cands[1..], answer, started, count, budget, sofar.(reason := Some(BUDGET)), l, n)
    ensures Tells(cands, answer, started, count, budget, sofar, l, n + 1)
  {
    hide Requested, Eligible, PassedOver, Awaited, Moves, Ends, Noted, Went, Answered, AllPassedOver;
    FirstTried(cands, n + 1, started, count, budget, sofar.reason);
    assert [] + Eligible(cands[1..][..n], started, count, budget) == Eligible(cands[1..][..n], started, count, budget);
    if n > 0 { assert cands[n] == cands[1..][n - 1]; }
  }

  lemma {:induction false} NoneEligible(cands: seq<Task>, started: set<int>, count: int, budget: int)
    requires cands != [] && Eligible(cands, started, count, budget) == []
    ensures !InBudget(cands[|cands| - 1], started, count, budget)
  {
    hide InBudget;
    if |cands| > 1 { NoneEligible(cands[1..], started, count, budget); }
  }

  lemma ThatRequest(l: Launched, before: seq<Request>, r: Request)
    requires |l.requests| > |before| && l.requests[..|before| + 1] == before + [r]
    ensures l.requests[|before|] == r
  {
  }

  lemma RequestedSum(l: Launched, sofar: Launched, next: Launched, t: Task, tried: seq<Task>)
    requires next.requests == sofar.requests + [Request(t, false)]
    requires Requested(l.requests) == Requested(next.requests) + tried
    ensures Requested(l.requests) == Requested(sofar.requests) + ([t] + tried)
    ensures |l.requests| == |next.requests| + |tried|
  {
    hide Requested;
    RequestOne(sofar, t, false);
    Regroup3(Requested(sofar.requests), [t], tried);
    RequestedAt(l.requests);
    RequestedAt(next.requests);
  }

  /** Without a further request, no candidate behind this one was within the budget. */
  lemma NoFurther(cands: seq<Task>, started: set<int>, count: int, budget: int, n: nat)
    requires n < |cands|
    ensures n == 0 ==> Eligible(cands[1..][..n], started, count, budget) == []
    ensures n > 0 ==> cands[n] == cands[1..][n - 1]
    ensures n > 0 && Eligible(cands[1..][..n], started, count, budget) == [] ==> !InBudget(cands[n], started, count, budget)
  {
    if n > 0 && Eligible(cands[1..][..n], started, count, budget) == [] {
      NoneEligible(cands[1..][..n], started, count, budget);
    }
  }

  lemma PassedAnswers(l: Launched, answer: nat -> Answer, m: nat, t: Task)
    requires m < |l.requests| && l.requests[m] == Request(t, false) && PassedOver(answer(m), t.id)
    requires Answered(l, answer, m + 1) && AllPassedOver(l, answer, m + 1)
    ensures Answered(l, answer, m) && AllPassedOver(l, answer, m)
    ensures Ends(l, answer, m) <==> Ends(l, answer, m + 1)
  {
    assert answer(m).reply.Refused?;
    hide PassedOver;
  }

  /** A request after which the others are tried. */
  lemma PassedRequests(cands: seq<Task>, answer: nat -> Answer, started: set<int>, count: int, budget: int,
                       sofar: Launched, next: Launched, l: Launched, n: nat)
    requires cands != [] && InBudget(cands[0], started, count, budget) && PassedOver(answer(|sofar.requests|), cands[0].id)
    requires next.requests == sofar.requests + [Request(cands[0], false)]
    requires RequestsTell(cands[1..], answer, started, count, budget, next, l, n)
    requires |l.requests| >= |next.requests| && l.requests[..|next.requests|] == next.requests
    ensures RequestsTell(cands, answer, started, count, budget, sofar, l, n + 1)
    ensures Ends(l, answer, |sofar.requests|) <==> Ends(l, answer, |next.requests|)
    ensures |l.requests| == |next.requests| && n > 0 ==> !InBudget(cands[n], started, count, budget)
    ensures |l.requests| > |next.requests| ==> n > 0
    ensures l.requests[|sofar.requests|] == Request(cands[0], false)
  {
    var m := |sofar.requests|;
    hide Requested, Eligible, PassedOver, InBudget, Answered, AllPassedOver, Ends;
    FirstTried(cands, n + 1, started, count, budget, None);
    RequestedSum(l, sofar, next, cands[0], Eligible(cands[1..][..n], started, count, budget));
    ThatRequest(l, sofar.requests, Request(cands[0], false));
    PassedAnswers(l, answer, m, cands[0]);
    NoFurther(cands, started, count, budget, n);
  }

  lemma MovesOn(l: Launched, answer: nat -> Answer, m: nat)
    requires m < |l.requests|
    ensures Went(l, answer, m) <==> Moves(answer(m), l.requests[m].task.id) || Went(l, answer, m + 1)
  {
    hide Moves;
  }

  lemma PassedTells(cands: seq<Task>, answer: nat -> Answer, started: set<int>, count: int, budget: int,
                    sofar: Launched, next: Launched, l: Launched, n: nat)
    requires cands != [] && InBudget(cands[0], started, count, budget)
    requires var a := answer(|sofar.requests|);
      && PassedOver(a, cands[0].id) && (|cands| == 1 ==> !Awaited(a, cands[0].id))
      && next == sofar.(requests := sofar.requests + [Request(cands[0], false)],
                        progress := sofar.progress || Moves(a, cands[0].id))
    requires Tells(cands[1..], answer, started, count, budget, next, l, n)
    requires |l.requests| >= |next.requests| && l.requests[..|next.requests|] == next.requests
    ensures Tells(cands, answer, started, count, budget, sofar, l, n + 1)
  {
    assert n < |cands|;
    hide RequestsTell, OutcomeTells, PassedOver, Awaited, Moves, InBudget;
    PassedRequests(cands, answer, started, count, budget, sofar, next, l, n);
    PassedOutcome(cands, answer, started, count, budget, sofar, next, l, n);
  }

  lemma PassedOutcome(cands: seq<Task>, answer: nat -> Answer, started: set<int>, count: int, budget: int,
                      sofar: Launched, next: Launched, l: Launched, n: nat)
    requires n < |cands| && InBudget(cands[0], started, count, budget)
    requires var a := answer(|sofar.requests|);
      && PassedOver(a, cands[0].id) && (|cands| == 1 ==> !Awaited(a, cands[0].id))
      && next == sofar.(requests := sofar.requests + [Request(cands[0], false)],
                        progress := sofar.progress || Moves(a, cands[0].id))
    requires |l.requests| >= |next.requests| && OutcomeTells(cands[1..], answer, started, count, budget, next, l, n)
    requires l.requests[|sofar.requests|] == Request(cands[0], false)
    requires |l.requests| == |next.requests| && n > 0 ==> !InBudget(cands[n], started, count, budget)
    requires |l.requests| > |next.requests| ==> n > 0
    requires Ends(l, answer, |sofar.requests|) <==> Ends(l, answer, |next.requests|)
    ensures OutcomeTells(cands, answer, started, count, budget, sofar, l, n + 1)
  {
    var m := |sofar.requests|;
    assert answer(m).reply.Refused?;
    hide Eligible, PassedOver, Awaited, Moves, Noted, Ends, InBudget, Went, BlockReason;
    FirstTried(cands, n + 1, started, count, budget, sofar.reason);
    MovesOn(l, answer, m);
    NoFurther(cands, started, count, budget, n);
  }

  lemma NothingTells(answer: nat -> Answer, started: set<int>, count: int, budget: int, sofar: Launched)
    ensures Tells([], answer, started, count, budget, sofar, sofar, 0)
  {
    hide Requested, PassedOver, Awaited, Moves;
    var none: seq<Task> := [];
    assert none[..0] == none;
    assert Requested(sofar.requests) + [] == Requested(sofar.requests);
  }

  /** The requests and the answers when the first candidate is the last one tried. */
  lemma LastRequests(cands: seq<Task>, answer: nat -> Answer, started: set<int>, count: int, budget: int,
                     sofar: Launched, l: Launched)
    requires cands != [] && InBudget(cands[0], started, count, budget)
    requires var a := answer(|sofar.requests|);
      && l.requests == sofar.requests + [Request(cands[0], a.reply.Accepted?)]
      && (PassedOver(a, cands[0].id) ==> |cands| == 1)
    ensures RequestsTell(cands, answer, started, count, budget, sofar, l, 1)
    ensures Ends(l, answer, |sofar.requests|) <==> !PassedOver(answer(|sofar.requests|), cands[0].id)
    ensures Went(l, answer, |sofar.requests|) <==> Moves(answer(|sofar.requests|), cands[0].id)
    ensures Noted(cands[..1], started, count, budget, sofar.reason) == sofar.reason
  {
    hide Requested, PassedOver, Moves;
    var m := |sofar.requests|;
    RequestOne(sofar, cands[0], answer(m).reply.Accepted?);
    assert cands[..1] == [cands[0]] && [cands[0]][1..] == [];
    assert Eligible([cands[0]], started, count, budget) == [cands[0]];
    assert l.requests[m] == Request(cands[0], answer(m).reply.Accepted?);
  }

  lemma LastOutcome(cands: seq<Task>, answer: nat -> Answer, started: set<int>, count: int, budget: int,
                    sofar: Launched, l: Launched)
    requires cands != [] && InBudget(cands[0], started, count, budget) && |l.requests| == |sofar.requests| + 1
    requires var m := |sofar.requests|;
      var a := answer(m);
      && l.requests[m] == Request(cands[0], a.reply.Accepted?)
      && (Ends(l, answer, m) <==> !PassedOver(a, cands[0].id)) && (Went(l, answer, m) <==> Moves(a, cands[0].id))
      && Noted(cands[..1], started, count, budget, sofar.reason) == sofar.reason
      && l.started == (sofar.started || a.reply.Accepted?)
      && l.waiting == (sofar.waiting || (|cands| == 1 && Awaited(a, cands[0].id)))
      && l.progress == (sofar.progress || Moves(a, cands[0].id))
      && l.reason == if a.reply.Refused? && !PassedOver(a, cands[0].id)
                     then BlockReason(a.reply.message, cands[0].id, sofar.reason) else sofar.reason
    ensures OutcomeTells(cands, answer, started, count, budget, sofar, l, 1)
  {
    hide Requested, PassedOver, Moves, Awaited, Went, Noted, Ends, BlockReason;
  }

  /** What trying the candidates comes to, as the answers tell. */
  lemma {:induction false} LaunchTells(cands: seq<Task>, answer: nat -> Answer, started: set<int>, count: int,
                                       budget: int, sofar: Launched) returns (n: nat)
    ensures var l := Launch(cands, answer, started, count, budget, sofar);
      && Tells(cands, answer, started, count, budget, sofar, l, n)
      && |l.requests| >= |sofar.requests| && l.requests[..|sofar.requests|] == sofar.requests
    decreases |cands|
  {
    hide Tells, InBudget, PassedOver, Awaited, Moves, GoesAway, Transient;
    var l := Launch(cands, answer, started, count, budget, sofar);
    if cands == [] {
      NothingTells(answer, started, count, budget, sofar);
      n := 0;
    } else if !InBudget(cands[0], started, count, budget) {
      var k := LaunchTells(cands[1..], answer, started, count, budget, sofar.(reason := Some(BUDGET)));
      BeyondTells(cands, answer, started, count, budget, sofar, l, k);
      n := k + 1;
    } else {
      n := TriedTells(cands, answer, started, count, budget, sofar);
    }
  }

  lemma AnswerIs(a: Answer, id: int)
    ensures a.reply.Refused? ==> (GoesAway(a, id) <==> Transient(a.reply.message, a.tasks, a.agents, id))
    ensures PassedOver(a, id) <==>
              a.reply.Refused? && (a.reply.message.dependencies || a.reply.message.superseded || GoesAway(a, id))
    ensures Awaited(a, id) <==>
              a.reply.Refused? && !a.reply.message.dependencies && !a.reply.message.superseded && GoesAway(a, id)
    ensures Moves(a, id) <==>
              a.reply.Accepted? || (!a.reply.message.dependencies && (a.reply.message.superseded || GoesAway(a, id)))
  {
    hide GoesAway, Transient;
    if a.reply.Refused? { GoesAwayIs(a, id); }
  }

  lemma {:induction false} TriedTells(cands: seq<Task>, answer: nat -> Answer, started: set<int>, count: int,
                                      budget: int, sofar: Launched) returns (n: nat)
    requires cands != [] && InBudget(cands[0], started, count, budget)
    ensures var l := Launch(cands, answer, started, count, budget, sofar);
      && Tells(cands, answer, started, count, budget, sofar, l, n)
      && |l.requests| >= |sofar.requests| && l.requests[..|sofar.requests|] == sofar.requests
    decreases |cands|, 0
  {
    hide RequestsTell, OutcomeTells, PassedOver, Awaited, Moves, GoesAway, Transient, Went, Ends, Noted;
    var m, t := |sofar.requests|, cands[0];
    var a := answer(m);
    var l := Launch(cands, answer, started, count, budget, sofar);
    var next := sofar.(requests := sofar.requests + [Request(t, a.reply.Accepted?)],
                       progress := sofar.progress || Moves(a, t.id));
    AnswerIs(a, t.id);
    if PassedOver(a, t.id) && (|cands| == 1 ==> !Awaited(a, t.id)) {
      assert l == Launch(cands[1..], answer, started, count, budget, next);
      var k := LaunchTells(cands[1..], answer, started, count, budget, next);
      hide Launch;
      PassedTells(cands, answer, started, count, budget, sofar, next, l, k);
      assert l.requests[..m] == l.requests[..m + 1][..m] == sofar.requests;
      n := k + 1;
    } else {
      LastRequests(cands, answer, started, count, budget, sofar, l);
      LastOutcome(cands, answer, started, count, budget, sofar, l);
      n := 1;
    }
  }

  // ---------- How a cycle ends ----------

  /** The task has come to an end, good or bad. */
  predicate Over(t: Task) {
    || t.status == Blocked || t.status == Completed || t.status == Done || t.status == Error || t.status == Failed
    || t.status == NeedsReview || t.status == Stopped
  }

  predicate AllOver(tasks: seq<Task>) { tasks != [] && forall k :: 0 <= k < |tasks| ==> Over(tasks[k]) }

  predicate StillOpen(t: Task) { t.status != Completed && t.status != Done && t.status != Superseded }

  /** A fix is done, and what is left open only validates it. */
  ghost predicate OnlyValidationLeft(snap: Snapshot) {
    && !snap.pending
    && (exists k :: 0 <= k < |snap.tasks| && StillOpen(snap.tasks[k]))
    && (forall k :: 0 <= k < |snap.tasks| && StillOpen(snap.tasks[k]) ==> snap.tasks[k].lane.validation || snap.tasks[k].lane.retry)
    && (exists k :: 0 <= k < |snap.tasks| && (snap.tasks[k].status == Done || snap.tasks[k].status == Completed)
                    && snap.tasks[k].lane.fix)
  }

  ghost predicate NothingReady(snap: Snapshot, started: set<int>) { forall t :: !Ready(t, snap, started) }

  /** The manager may be asked for help: some task has a status and has not come to an end. */
  predicate HelpIsDue(snap: Snapshot, tries: nat) {
    && !snap.pending && tries < 2
    && exists k :: 0 <= k < |snap.tasks| && snap.tasks[k].status != NoStatus && !Over(snap.tasks[k])
  }

  lemma ConvergedIs(snap: Snapshot)
    ensures OnlyValidationLeft(snap) <==> Converged(snap)
  {
    assert forall k :: 0 <= k < |snap.tasks| ==> (StillOpen(snap.tasks[k]) <==> Open(snap.tasks[k]));
  }

  lemma AllOverIs(tasks: seq<Task>)
    ensures AllOver(tasks) <==> tasks != [] && AllTerminal(tasks)
  {
  }

  lemma NothingReadyIs(snap: Snapshot, started: set<int>)
    ensures NothingReady(snap, started) <==> Candidates(snap, started) == []
  {
    hide Ready, Candidate, Before, Candidates;
    CandidatesFacts(snap, started);
    forall t
      ensures Ready(t, snap, started) <==> t in Candidates(snap, started)
    {
      ReadyIsCandidate(t, snap, started);
    }
    var cands := Candidates(snap, started);
    if cands != [] { assert cands[0] in cands; }
  }

  lemma HelpIsDueIs(snap: Snapshot, tries: nat)
    ensures snap.tasks != [] ==> (HelpIsDue(snap, tries) <==> ShouldRecover(snap, tries))
  {
  }

  /** How a cycle of the main loop ends, said of the snapshot and of what the trying came to. The run is
      converged; else work goes on; else a task was started or is waited for; else a reason for a deadlock is
      noted, now or earlier; else all tasks are over; else none is ready, and the manager is asked for help at
      most twice in a row; and else nothing happened, for too long or not. */
  lemma VerdictTells(budget: int, s: Poll, o: Observation)
    ensures var l, v := LaunchOf(budget, s, o), VerdictOf(budget, s, o);
      var tries := if Changed(s, o.snap) then 0 else s.tries;
      v == if OnlyValidationLeft(o.snap) then Convergence
           else if Underway(o.snap) then Sleep
           else if l.started then Launching
           else if l.waiting then AwaitingWorker
           else if l.reason.Some? || s.reason.Some? then Deadlock
           else if AllOver(o.snap.tasks) then Finish
           else if o.snap.tasks != [] && NothingReady(o.snap, s.started) then
             (if HelpIsDue(o.snap, tries) then Recovery else NotRunnable)
           else if o.idle then Quiet
           else Sleep
  {
    hide LaunchOf, Statuses, Candidates, Converged, Executing, AllTerminal, ShouldRecover,
         OnlyValidationLeft, Underway, AllOver, NothingReady, HelpIsDue;
    ConvergedIs(o.snap);
    UnderwayIsExecuting(o.snap);
    AllOverIs(o.snap.tasks);
    NothingReadyIs(o.snap, s.started);
    HelpIsDueIs(o.snap, Seen(s, o.snap).tries);
  }

  /** And how a cycle of the grace loop ends. */
  lemma GraceTells(budget: int, s: Poll, o: Observation)
    ensures var l, v := LaunchOf(budget, s, o), GraceVerdictOf(budget, s, o);
      v == if l.started || l.waiting then GoOn
           else if AllOver(o.snap.tasks) then Complete
           else if !o.snap.pending && o.recent && (Underway(o.snap) || SomeAtWork(o.snap.agents)) then GoOn
           else Expire
  {
    hide LaunchOf, Executing, AllTerminal, Underway, AllOver, SomeAtWork, AnyBusy;
    UnderwayIsExecuting(o.snap);
    AllOverIs(o.snap.tasks);
    SomeAtWorkIs(o.snap.agents);
  }

  // ---------- What counts as progress ----------

  /** The task of this identifier that counts has this status. */
  ghost predicate HasStatus(tasks: seq<Task>, id: int, status: Status) {
    exists k :: IsLatest(tasks, k, id) && tasks[k].status == status
  }

  lemma HasStatusIs(tasks: seq<Task>, id: int, status: Status)
    ensures HasStatus(tasks, id, status) <==> id in Statuses(tasks) && Statuses(tasks)[id] == status
  {
    hide Statuses;
    StatusesLatest(tasks, id);
  }

  /** Every task that one list has, the other has with the same status. */
  ghost predicate Covers(a: seq<Task>, b: seq<Task>) {
    forall id, status :: HasStatus(a, id, status) ==> HasStatus(b, id, status)
  }

  predicate Within(a: map<int, Status>, b: map<int, Status>) { forall id :: id in a ==> id in b && b[id] == a[id] }

  lemma CoversIs(a: seq<Task>, b: seq<Task>)
    ensures Covers(a, b) <==> Within(Statuses(a), Statuses(b))
  {
    hide Statuses, HasStatus;
    if Covers(a, b) {
      forall id | id in Statuses(a)
        ensures id in Statuses(b) && Statuses(b)[id] == Statuses(a)[id]
      {
        HasStatusIs(a, id, Statuses(a)[id]);
        HasStatusIs(b, id, Statuses(a)[id]);
      }
    }
    if Within(Statuses(a), Statuses(b)) {
      forall id, status | HasStatus(a, id, status)
        ensures HasStatus(b, id, status)
      {
        HasStatusIs(a, id, status);
        HasStatusIs(b, id, status);
      }
    }
  }

  /** The two snapshots have the same tasks with the same statuses, and as many events. */
  ghost predicate Unchanged(a: Snapshot, b: Snapshot) {
    Covers(a.tasks, b.tasks) && Covers(b.tasks, a.tasks) && a.events == b.events
  }

  /** After a cycle the loop knows the statuses and the events of its snapshot. */
  lemma Knows(budget: int, s: Poll, o: Observation)
    ensures Step(budget, s, o).statuses == Statuses(o.snap.tasks) && Step(budget, s, o).events == o.snap.events
  {
    hide LaunchOf, VerdictOf, Statuses;
  }

  lemma SameMaps(a: map<int, Status>, b: map<int, Status>)
    ensures a == b <==> Within(a, b) && Within(b, a)
  {
    if Within(a, b) && Within(b, a) {
      forall id
        ensures id in a <==> id in b
      {
        assert id in a ==> id in b && b[id] == a[id];
        assert id in b ==> id in a && a[id] == b[id];
      }
      assert forall id :: id in a ==> a[id] == b[id];
    }
  }

  /** A poll sees a change exactly if its snapshot differs from that of the poll before. */
  lemma ChangedTells(budget: int, os: seq<Observation>, snap: Snapshot)
    requires os != []
    ensures Changed(After(budget, os), snap) <==> !Unchanged(os[|os| - 1].snap, snap)
  {
    hide Step, Statuses, Covers, Within;
    var last := os[|os| - 1].snap;
    Knows(budget, After(budget, os[..|os| - 1]), os[|os| - 1]);
    CoversIs(last.tasks, snap.tasks);
    CoversIs(snap.tasks, last.tasks);
    SameMaps(Statuses(last.tasks), Statuses(snap.tasks));
  }

  /** The first poll sees a change exactly if there are tasks or events. */
  lemma FirstChangedTells(budget: int, snap: Snapshot)
    ensures Changed(After(budget, []), snap) <==> snap.tasks != [] || snap.events != 0
  {
    if snap.tasks != [] {
      assert snap.tasks[|snap.tasks| - 1].id in Statuses(snap.tasks);
    }
  }

  /** A cycle counts as progress exactly if something was answered or approved, its snapshot changed, the answer
      to a start request shows that something goes on, or the manager is asked for help. */
  lemma ProgressTells(budget: int, s: Poll, o: Observation)
    ensures Progress(budget, s, o) <==>
              o.acted || Changed(s, o.snap) || VerdictOf(budget, s, o) == Recovery
              || Went(MainLaunch(budget, s, o), o.answer, 0)
  {
    hide VerdictOf, Changed, Moves, Candidates, Launch, Converged, Executing;
    if !Converged(o.snap) && !Executing(o.snap) {
      var n := LaunchTells(Candidates(o.snap, s.started), o.answer, s.started, s.count, budget, NOTHING);
    }
  }
}
