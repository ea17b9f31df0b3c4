/**
 The poll loop of the benchmark harness as a state machine. One step takes what a cycle observes:
 the snapshot, the answers to its start requests, and what the clock says. Nothing is assumed about
 these, so the server may change tasks, agents and events between two polls in any way.
 */
module HarnessSteps {
  import opened Text
  import opened HarnessTasks

  // ---------- Starting one task ----------

  datatype Request = Request(task: Task, accepted: bool)

  /** What trying the candidates came to. */
  datatype Launched = Launched(requests: seq<Request>, started: bool, waiting: bool, reason: Option<string>,
                               progress: bool)

  const BUDGET := "Harness exhausted the unique auto-start budget before all runnable tasks could be launched."

  function CouldNotStart(id: int): string {
    "Mission Control could not start task " + (if id < 0 then "-" + Dec(-id) else Dec(id)) + "."
  }

  /** The task may be requested: it was started before, or the budget has room. */
  predicate InBudget(t: Task, started: set<int>, count: int, budget: int) { count < budget || t.id in started }

  /** Trying the candidates from one on; `sofar` is what the ones before it came to. */
  function Launch(cands: seq<Task>, answer: nat -> Answer, started: set<int>, count: int, budget: int,
                  sofar: Launched): Launched
    decreases |cands|
  {
    if cands == [] then sofar
    else
      var t := cands[0];
      if !InBudget(t, started, count, budget) then
        Launch(cands[1..], answer, started, count, budget, sofar.(reason := Some(BUDGET)))
      else
        var a := answer(|sofar.requests|);
        var next := sofar.(requests := sofar.requests + [Request(t, a.reply.Accepted?)]);
        if a.reply.Accepted? then next.(started := true, progress := true)
        else
          var m := a.reply.message;
          if m.dependencies then Launch(cands[1..], answer, started, count, budget, next)
          else if m.superseded then Launch(cands[1..], answer, started, count, budget, next.(progress := true))
          else if Transient(m, a.tasks, a.agents, t.id) then
            if |cands| == 1 then next.(waiting := true, progress := true)
            else Launch(cands[1..], answer, started, count, budget, next.(progress := true))
          else if m.text != "" then next.(reason := Some(m.text))
          else if sofar.reason.Some? then next
          else next.(reason := Some(CouldNotStart(t.id)))
  }

  const NOTHING := Launched([], false, false, None, false)

  // ---------- One cycle ----------

  /** What a cycle observes. `idle` and `recent` are the two comparisons with the time of the last
      progress, `acted` says that a decision was answered or a command approved. */
  datatype Observation = Observation(snap: Snapshot, answer: nat -> Answer, acted: bool, idle: bool, recent: bool)

  datatype Poll = Poll(started: set<int>, count: int, statuses: map<int, Status>, events: nat,
                       reason: Option<string>, tries: nat)

  const INIT := Poll({}, 0, map[], 0, None, 0)

  datatype Verdict = Convergence | Launching | AwaitingWorker | Deadlock | Finish | Recovery | NotRunnable | Quiet | Sleep

  /** The loop goes on after a cycle with this verdict. */
  predicate Continues(v: Verdict) { v.Launching? || v.AwaitingWorker? || v.Recovery? || v.Sleep? }

  const NOT_RUNNABLE := "No runnable tasks remained; remaining tasks were waiting on dependencies or routing."

  predicate Changed(s: Poll, snap: Snapshot) { Statuses(snap.tasks) != s.statuses || snap.events != s.events }

  /** The state after looking at the snapshot. */
  function Seen(s: Poll, snap: Snapshot): Poll {
    if Changed(s, snap) then s.(statuses := Statuses(snap.tasks), events := snap.events, tries := 0) else s
  }

  /** What starting a task comes to in a cycle; nothing while a task is being executed. */
  function LaunchOf(budget: int, s: Poll, o: Observation): Launched {
    if Executing(o.snap) then NOTHING
    else Launch(Candidates(o.snap, s.started), o.answer, s.started, s.count, budget, NOTHING)
  }

  /** The start request that was accepted, if any, is booked. */
  function Book(s: Poll, l: Launched): Poll {
    if l.started && l.requests != [] then
      var id := l.requests[|l.requests| - 1].task.id;
      s.(started := s.started + {id}, count := if id in s.started then s.count else s.count + 1)
    else s
  }

  /** A converged run starts nothing either. */
  function MainLaunch(budget: int, s: Poll, o: Observation): Launched {
    if Converged(o.snap) then NOTHING else LaunchOf(budget, s, o)
  }

  function VerdictOf(budget: int, s: Poll, o: Observation): Verdict {
    if Converged(o.snap) then Convergence
    else if Executing(o.snap) then Sleep
    else
      var l := LaunchOf(budget, s, o);
      if l.started then Launching
      else if l.waiting then AwaitingWorker
      else if l.reason.Some? || s.reason.Some? then Deadlock
      else if o.snap.tasks != [] && AllTerminal(o.snap.tasks) then Finish
      else if o.snap.tasks != [] && Candidates(o.snap, s.started) == [] then
        if ShouldRecover(o.snap, Seen(s, o.snap).tries) then Recovery else NotRunnable
      else if o.idle then Quiet
      else Sleep
  }

  /** One cycle of the main loop. */
  function Step(budget: int, s: Poll, o: Observation): Poll {
    var l, v := MainLaunch(budget, s, o), VerdictOf(budget, s, o);
    var booked := Book(Seen(s, o.snap), l);
    var noted := if l.reason.Some? then booked.(reason := l.reason) else booked;
    if v.Recovery? then noted.(tries := noted.tries + 1)
    else if v.NotRunnable? then noted.(reason := Some(NOT_RUNNABLE))
    else noted
  }

  /** The cycle counts as progress. */
  predicate Progress(budget: int, s: Poll, o: Observation) {
    || o.acted
    || Changed(s, o.snap)
    || MainLaunch(budget, s, o).progress
    || VerdictOf(budget, s, o).Recovery?
  }

  /** The state after some cycles. */
  function After(budget: int, os: seq<Observation>): Poll {
    if os == [] then INIT else Step(budget, After(budget, os[..|os| - 1]), os[|os| - 1])
  }

  /** The cycles form a run: all before the last go on. */
  ghost predicate IsRun(budget: int, os: seq<Observation>) {
    forall i :: 0 <= i < |os| - 1 ==> Continues(VerdictAt(budget, os, i))
  }

  function VerdictAt(budget: int, os: seq<Observation>, i: nat): Verdict
    requires i < |os|
  {
    VerdictOf(budget, After(budget, os[..i]), os[i])
  }

  // ---------- The grace loop ----------

  datatype GraceVerdict = GoOn | Complete | Expire

  function GraceVerdictOf(budget: int, s: Poll, o: Observation): GraceVerdict {
    if LaunchOf(budget, s, o).started || LaunchOf(budget, s, o).waiting then GoOn
    else if o.snap.tasks != [] && AllTerminal(o.snap.tasks) then Complete
    else if ShouldGrace(o.snap, o.recent) then GoOn
    else Expire
  }

  /** One cycle of the grace loop; it neither notes a deadlock nor asks for recovery. */
  function GraceStep(budget: int, s: Poll, o: Observation): Poll {
    var seen := if Changed(s, o.snap) then s.(statuses := Statuses(o.snap.tasks), events := o.snap.events) else s;
    Book(seen, LaunchOf(budget, s, o))
  }

  function GraceAfter(budget: int, s: Poll, os: seq<Observation>): Poll {
    if os == [] then s else GraceStep(budget, GraceAfter(budget, s, os[..|os| - 1]), os[|os| - 1])
  }

  function GraceVerdictAt(budget: int, s: Poll, os: seq<Observation>, i: nat): GraceVerdict
    requires i < |os|
  {
    GraceVerdictOf(budget, GraceAfter(budget, s, os[..i]), os[i])
  }

  ghost predicate IsGrace(budget: int, s: Poll, os: seq<Observation>) {
    forall i :: 0 <= i < |os| - 1 ==> GraceVerdictAt(budget, s, os, i).GoOn?
  }
}
