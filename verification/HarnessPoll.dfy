/**
 The poll loop itself. The world answers every call in any way it likes; time passes in every sleep,
 by at least the poll interval, and may pass elsewhere.
 */
module HarnessPoll {
  import opened Text
  import opened HarnessTasks
  import opened HarnessWork
  import opened HarnessSteps

  /** The settings of a run that the loop looks at. */
  datatype Config = Config(pollInterval: real, taskTimeout: int, idleTimeout: int, budget: int,
                           autoAnswer: bool, autoApprove: bool)

  /** What the world does: its state at the n-th poll, its answers to the start requests made then,
      whether it had something to answer or approve before, and the time that passes between. */
  datatype World = World(snapshot: nat -> Snapshot, answer: nat -> (nat -> Answer),
                         answered: nat -> bool, approved: nat -> bool, delay: nat -> real)

  ghost predicate TimeGoesOn(w: World) { forall n :: w.delay(n) >= 0.0 }

  /** What a loop whose first poll is the world's `first` saw is what the world showed. */
  ghost predicate Observes(w: World, first: nat, log: seq<Observation>) {
    forall i :: 0 <= i < |log| ==> log[i].snap == w.snapshot(first + i) && log[i].answer == w.answer(first + i)
  }

  lemma ObservesNone(w: World, first: nat)
    ensures Observes(w, first, [])
  {
  }

  lemma ObservesMore(w: World, first: nat, log: seq<Observation>, o: Observation)
    requires Observes(w, first, log) && o.snap == w.snapshot(first + |log|) && o.answer == w.answer(first + |log|)
    ensures Observes(w, first, log + [o])
  {
  }

  /** The time that calls take in the last of `n` passes, which begin at the world's `first`-th poll. */
  function LastPass(w: World, first: nat, n: nat): real {
    if n == 0 then 0.0 else w.delay(2 * (first + n - 1)) + w.delay(2 * (first + n - 1) + 1)
  }

  function Max(a: real, b: real): real { if a < b then b else a }

  function Min(a: real, b: real): real { if b < a then b else a }

  /** `_completion_grace_seconds` */
  function GraceSeconds(c: Config): (g: real)
    ensures 30.0 <= g <= 900.0
  {
    Max(30.0, Min(Max(c.idleTimeout as real, 30.0), Max(180.0, Min(c.taskTimeout as real * 0.5, 900.0))))
  }

  /** Tries the candidates until one is started, or must be waited for, or blocks the rest. */
  method AttemptAutoStart(cands: seq<Task>, answer: nat -> Answer, s: Poll, budget: int)
    returns (started: set<int>, count: int, launched: Launched)
    ensures launched == Launch(cands, answer, s.started, s.count, budget, NOTHING)
    ensures Book(s, launched) == s.(started := started, count := count)
  {
    started, count, launched := s.started, s.count, NOTHING;
    for i := 0 to |cands|
      invariant started == s.started && count == s.count && !launched.started && !launched.waiting
      invariant Launch(cands[i..], answer, s.started, s.count, budget, launched)
             == Launch(cands, answer, s.started, s.count, budget, NOTHING)
    {
      var task := cands[i];
      assert cands[i..][1..] == cands[i + 1..];
      if count >= budget && task.id !in started {
        launched := launched.(reason := Some(BUDGET));
        continue;
      }
      var a := answer(|launched.requests|);
      launched := launched.(requests := launched.requests + [Request(task, a.reply.Accepted?)]);
      if a.reply.Accepted? {
        if task.id !in started {
          count := count + 1;
        }
        started := started + {task.id};
        launched := launched.(started := true, progress := true);
        break;
      }
      var message := a.reply.message;
      if message.dependencies {
        continue;
      }
      if message.superseded {
        launched := launched.(progress := true);
        continue;
      }
      if Transient(message, a.tasks, a.agents, task.id) {
        launched := launched.(progress := true);
        if i < |cands| - 1 {
          continue;
        }
        launched := launched.(waiting := true);
        break;
      }
      if message.text != "" {
        launched := launched.(reason := Some(message.text));
      }
      if launched.reason.None? {
        launched := launched.(reason := Some(CouldNotStart(task.id)));
      }
      break;
    }
  }

  /** The `i`-th pass through the main loop, up to its sleep or its exit. */
  method MainCycle(w: World, c: Config, i: nat, s0: Poll, now0: real, last0: real)
    returns (o: Observation, s: Poll, v: Verdict, now: real, last: real)
    requires TimeGoesOn(w) && last0 <= now0
    ensures s == Step(c.budget, s0, o) && v == VerdictOf(c.budget, s0, o)
    ensures o.snap == w.snapshot(i) && o.answer == w.answer(i)
    ensures now == now0 + w.delay(2 * i) && last0 <= last <= now
    ensures Progress(c.budget, s0, o) ==> last >= now0
    ensures v.Quiet? ==> now - last >= c.idleTimeout as real
    ensures v.Sleep? && !Underway(o.snap) ==> now - last < c.idleTimeout as real
    // while a task is being worked on, none is started and the loop goes on unless it has converged
    ensures Underway(o.snap) ==> s.started == s0.started && (v.Sleep? || v.Convergence?)
  {
    hide Underway, Launch, Candidates, Statuses, Executing, Converged, AllTerminal, ShouldRecover;
    s, now, last := s0, now0, last0;
    var acted := (c.autoAnswer && w.answered(i)) || (c.autoApprove && w.approved(i));
    if acted {
      last := now;
    }
    now := now + w.delay(2 * i);
    var snap := w.snapshot(i);
    UnderwayIsExecuting(snap);
    o := Observation(snap, w.answer(i), acted, false, false);
    var current := Statuses(snap.tasks);
    if current != s.statuses || snap.events != s.events {
      last := now;
      s := s.(statuses := current, events := snap.events, tries := 0);
    }
    if Converged(snap) {
      v := Convergence;
      return;
    }
    var executing := Executing(snap);
    if !executing {
      var cands := Candidates(snap, s.started);
      var started, count, launched := AttemptAutoStart(cands, o.answer, s, c.budget);
      assert launched == LaunchOf(c.budget, s0, o);
      s := s.(started := started, count := count);
      if launched.progress {
        last := now;
      }
      if launched.reason.Some? {
        s := s.(reason := launched.reason);
      }
      if launched.started {
        v := Launching;
        return;
      }
      if launched.waiting {
        v := AwaitingWorker;
        return;
      }
      if s.reason.Some? {
        v := Deadlock;
        return;
      }
      if snap.tasks != [] && AllTerminal(snap.tasks) {
        v := Finish;
        return;
      }
      if snap.tasks != [] && cands == [] {
        if ShouldRecover(snap, s.tries) {
          s := s.(tries := s.tries + 1);
          last := now;
          v := Recovery;
          return;
        }
        s := s.(reason := Some(NOT_RUNNABLE));
        v := NotRunnable;
        return;
      }
    }
    o := o.(idle := now - last >= c.idleTimeout as real);
    v := if o.idle && !executing then Quiet else Sleep;
  }

  /** One more cycle of the run. */
  lemma RunGrows(budget: int, log: seq<Observation>, o: Observation)
    requires IsRun(budget, log) && (log != [] ==> Continues(VerdictAt(budget, log, |log| - 1)))
    ensures IsRun(budget, log + [o])
    ensures VerdictAt(budget, log + [o], |log|) == VerdictOf(budget, After(budget, log), o)
    ensures After(budget, log + [o]) == Step(budget, After(budget, log), o)
  {
    hide VerdictOf, Step;
    var more := log + [o];
    assert more[..|log|] == log;
    forall i | 0 <= i < |log|
      ensures Continues(VerdictAt(budget, more, i))
    {
      assert more[..i] == log[..i] && more[i] == log[i];
      assert VerdictAt(budget, more, i) == VerdictAt(budget, log, i);
    }
  }

  lemma Scaled(a: real, b: real, p: real)
    requires a < b && p > 0.0
    ensures a * p < b * p
  {
  }

  lemma RunStarts(budget: int)
    ensures IsRun(budget, []) && After(budget, []) == INIT && ProgressSeen(budget, [], [], 0.0)
  {
  }

  /** How many poll intervals are left. */
  function Left(left: real, p: real): real
    requires p > 0.0
  {
    left / p
  }

  /** Sleeping for a poll interval uses up at least one of them. */
  /** A pass that begins before the timeout ends, with its calls and its sleep, when the bound says. */
  lemma PassEnds(w: World, n: nat, timeout: real, before: real, p: real)
    requires TimeGoesOn(w) && p > 0.0 && 0.0 <= before < timeout
    ensures w.delay(2 * n) >= 0.0 && w.delay(2 * n + 1) >= 0.0
    ensures before + w.delay(2 * n) + p + w.delay(2 * n + 1) <= Max(0.0, timeout + p + LastPass(w, 0, n + 1))
  {
  }

  lemma NoPassYet(w: World, t: real)
    ensures 0.0 <= Max(0.0, t + LastPass(w, 0, 0))
  {
  }

  lemma Interval(left: real, slept: real, p: real)
    requires p > 0.0 && slept >= p
    ensures Left(left - slept, p) <= Left(left, p) - 1.0
    ensures left > 0.0 ==> Left(left, p) >= 0.0
  {
    var x, y := (left - slept) / p, left / p;
    assert x * p == left - slept;
    assert y * p == left;
    assert (y - x) * p == slept;
    if y - x < 1.0 {
      Scaled(y - x, 1.0, p);
    }
    if left > 0.0 && y < 0.0 {
      Scaled(y, 0.0, p);
    }
  }

  /** The time that `n` naps take. */
  function Naps(n: nat, p: real): real { n as real * p }

  lemma OneMore(n: nat, p: real)
    ensures Naps(n + 1, p) == Naps(n, p) + p && Naps(0, p) == 0.0
  {
  }

  /** The main loop. It ends by itself, or when its time is up. */
  method MainLoop(w: World, c: Config)
    returns (log: seq<Observation>, began: seq<real>, s: Poll, timedOut: bool, now: real, last: real)
    requires TimeGoesOn(w) && c.pollInterval > 0.0
    ensures IsRun(c.budget, log) && s == After(c.budget, log)
    ensures Observes(w, 0, log)
    ensures timedOut <==> log == [] || Continues(VerdictAt(c.budget, log, |log| - 1))
    ensures log != [] ==> Naps(|log| - 1, c.pollInterval) < c.taskTimeout as real
    ensures 0.0 <= now <= Max(0.0, c.taskTimeout as real + c.pollInterval + LastPass(w, 0, |log|))
    ensures |began| == |log| && 0.0 <= last <= now
    ensures ProgressSeen(c.budget, log, began, last)
    ensures log != [] && VerdictAt(c.budget, log, |log| - 1).Quiet? ==> now - last >= c.idleTimeout as real
  {
    hide Max, LastPass, TimeGoesOn, Observes, IsRun, After, VerdictAt, VerdictOf, Step, ProgressSeen, Progress, Naps, Left;
    s, now, last := INIT, 0.0, 0.0;
    log, began, timedOut := [], [], true;
    ObservesNone(w, 0);
    NoPassYet(w, c.taskTimeout as real + c.pollInterval);
    RunStarts(c.budget);
    OneMore(0, c.pollInterval);
    var timeout := c.taskTimeout as real;
    while now < timeout
      invariant IsRun(c.budget, log) && s == After(c.budget, log)
      invariant log != [] ==> Continues(VerdictAt(c.budget, log, |log| - 1))
      invariant Observes(w, 0, log)
      invariant timedOut && |began| == |log| && 0.0 <= last <= now
      invariant Naps(|log|, c.pollInterval) <= now
      invariant log != [] ==> Naps(|log| - 1, c.pollInterval) < timeout
      invariant now <= Max(0.0, timeout + c.pollInterval + LastPass(w, 0, |log|))
      invariant ProgressSeen(c.budget, log, began, last)
      decreases Left(timeout - now, c.pollInterval)
    {
      ghost var before := now;
      PassEnds(w, |log|, timeout, now, c.pollInterval);
      var o, next, v, later, progress := MainCycle(w, c, |log|, s, now, last);
      RunGrows(c.budget, log, o);
      ObservesMore(w, 0, log, o);
      ProgressGrows(c.budget, log, began, last, o, now, progress);
      OneMore(|log|, c.pollInterval);
      log, began, s, now, last := log + [o], began + [now], next, later, progress;
      if !Continues(v) {
        timedOut := false;
        break;
      }
      now := now + c.pollInterval + w.delay(2 * |log| - 1);
      Interval(timeout - before, now - before, c.pollInterval);
    }
  }

  /** `last` is no earlier than the beginning of any cycle that counts as progress. */
  ghost predicate ProgressSeen(budget: int, log: seq<Observation>, began: seq<real>, last: real)
    requires |began| == |log|
  {
    forall i :: 0 <= i < |log| && Progress(budget, After(budget, log[..i]), log[i]) ==> began[i] <= last
  }

  lemma ProgressGrows(budget: int, log: seq<Observation>, began: seq<real>, last: real, o: Observation,
                      now: real, later: real)
    requires |began| == |log| && ProgressSeen(budget, log, began, last) && last <= later
    requires Progress(budget, After(budget, log), o) ==> now <= later
    ensures ProgressSeen(budget, log + [o], began + [now], later)
  {
    hide Progress;
    var more, times := log + [o], began + [now];
    forall i | 0 <= i < |more| && Progress(budget, After(budget, more[..i]), more[i])
      ensures times[i] <= later
    {
      assert more[..i] == log[..i];
      if i == |log| { assert log[..i] == log; }
    }
  }

  // ---------- The grace loop ----------

  /** One pass through the grace loop, with its sleeps. */
  method GraceCycle(w: World, c: Config, i: nat, s0: Poll, now0: real, last0: real)
    returns (o: Observation, s: Poll, v: GraceVerdict, now: real, last: real)
    requires TimeGoesOn(w) && c.pollInterval > 0.0 && last0 <= now0
    ensures s == GraceStep(c.budget, s0, o) && v == GraceVerdictOf(c.budget, s0, o)
    ensures o.snap == w.snapshot(i) && o.answer == w.answer(i)
    ensures now >= now0 + c.pollInterval && last0 <= last <= now
    ensures now <= now0 + 2.0 * c.pollInterval + w.delay(2 * i) + w.delay(2 * i + 1)
  {
    hide Launch, Candidates, Statuses, Executing, AllTerminal, AnyBusy;
    s, now, last := s0, now0, last0;
    var acted := (c.autoAnswer && w.answered(i)) || (c.autoApprove && w.approved(i));
    if acted {
      last := now;
    }
    now := now + c.pollInterval + w.delay(2 * i);
    var snap := w.snapshot(i);
    o := Observation(snap, w.answer(i), acted, false, false);
    var current := Statuses(snap.tasks);
    if current != s.statuses || snap.events != s.events {
      last := now;
      s := s.(statuses := current, events := snap.events);
    }
    if !Executing(snap) {
      var cands := Candidates(snap, s.started);
      var started, count, launched := AttemptAutoStart(cands, o.answer, s, c.budget);
      assert launched == LaunchOf(c.budget, s0, o);
      s := s.(started := started, count := count);
      if launched.progress {
        last := now;
      }
      if launched.started || launched.waiting {
        v := GoOn;
        now := now + c.pollInterval + w.delay(2 * i + 1);
        return;
      }
    }
    if snap.tasks != [] && AllTerminal(snap.tasks) {
      v := Complete;
      return;
    }
    o := o.(recent := now - last <= Max(c.idleTimeout as real, 30.0));
    v := if ShouldGrace(snap, o.recent) then GoOn else Expire;
  }

  lemma GraceGrows(budget: int, s: Poll, log: seq<Observation>, o: Observation)
    requires IsGrace(budget, s, log) && (log != [] ==> GraceVerdictAt(budget, s, log, |log| - 1).GoOn?)
    ensures IsGrace(budget, s, log + [o])
    ensures GraceVerdictAt(budget, s, log + [o], |log|) == GraceVerdictOf(budget, GraceAfter(budget, s, log), o)
    ensures GraceAfter(budget, s, log + [o]) == GraceStep(budget, GraceAfter(budget, s, log), o)
  {
    hide GraceVerdictOf, GraceStep;
    var more := log + [o];
    assert more[..|log|] == log;
    forall i | 0 <= i < |log|
      ensures GraceVerdictAt(budget, s, more, i).GoOn?
    {
      assert more[..i] == log[..i] && more[i] == log[i];
      assert GraceVerdictAt(budget, s, more, i) == GraceVerdictAt(budget, s, log, i);
    }
  }

  lemma GraceStarts(budget: int, s: Poll)
    ensures IsGrace(budget, s, []) && GraceAfter(budget, s, []) == s
  {
  }

  /** The grace loop: the tasks are all done, nothing goes on any more, or the grace is over. The
      world is read from its `first`-th poll on. */
  method GraceLoop(w: World, c: Config, first: nat, s0: Poll, now0: real, last0: real)
    returns (log: seq<Observation>, s: Poll, complete: bool, now: real)
    requires TimeGoesOn(w) && c.pollInterval > 0.0 && last0 <= now0
    ensures IsGrace(c.budget, s0, log) && s == GraceAfter(c.budget, s0, log)
    ensures Observes(w, first, log)
    ensures complete <==> log != [] && GraceVerdictAt(c.budget, s0, log, |log| - 1).Complete?
    ensures log != [] ==> Naps(|log| - 1, c.pollInterval) < GraceSeconds(c)
    ensures now0 <= now <= now0 + GraceSeconds(c) + 2.0 * c.pollInterval + LastPass(w, first, |log|)
  {
    hide Observes, IsGrace, GraceAfter, GraceVerdictAt, GraceVerdictOf, GraceStep, Naps, Left, TimeGoesOn;
    s, now, log, complete := s0, now0, [], false;
    var last, deadline := last0, now0 + GraceSeconds(c);
    GraceStarts(c.budget, s0);
    ObservesNone(w, first);
    OneMore(0, c.pollInterval);
    while now < deadline
      invariant IsGrace(c.budget, s0, log) && s == GraceAfter(c.budget, s0, log)
      invariant log != [] ==> GraceVerdictAt(c.budget, s0, log, |log| - 1).GoOn?
      invariant Observes(w, first, log)
      invariant !complete && last <= now && now0 <= now
      invariant Naps(|log|, c.pollInterval) <= now - now0
      invariant log != [] ==> Naps(|log| - 1, c.pollInterval) < GraceSeconds(c)
      invariant now <= deadline + 2.0 * c.pollInterval + LastPass(w, first, |log|)
      decreases Left(deadline - now, c.pollInterval)
    {
      ghost var before := now;
      var o, next, v, later, progress := GraceCycle(w, c, first + |log|, s, now, last);
      GraceGrows(c.budget, s0, log, o);
      ObservesMore(w, first, log, o);
      OneMore(|log|, c.pollInterval);
      log, s, now, last := log + [o], next, later, progress;
      if !v.GoOn? {
        complete := v.Complete?;
        break;
      }
      Interval(deadline - before, now - before, c.pollInterval);
    }
  }

  // ---------- The whole run ----------

  /** What the poll loop returns. */
  datatype Outcome = Outcome(timedOut: bool, snap: Snapshot, started: set<int>, reason: Option<string>, converged: bool)

  /** The run: what the main loop observed, and what the grace loop did. */
  datatype Run = Run(main: seq<Observation>, grace: seq<Observation>)

  /** The main loop ran out of time. */
  ghost predicate OutOfTime(budget: int, main: seq<Observation>) {
    main == [] || Continues(VerdictAt(budget, main, |main| - 1))
  }

  /** The grace loop saw all tasks ended. */
  ghost predicate EndedInGrace(budget: int, s: Poll, grace: seq<Observation>) {
    grace != [] && GraceVerdictAt(budget, s, grace, |grace| - 1).Complete?
  }

  method PollRun(w: World, c: Config)
    returns (outcome: Outcome, run: Run, began: seq<real>, stopped: real, now: real, last: real)
    requires TimeGoesOn(w) && c.pollInterval > 0.0
    ensures IsRun(c.budget, run.main) && IsGrace(c.budget, After(c.budget, run.main), run.grace)
    ensures Observes(w, 0, run.main) && Observes(w, |run.main| + 1, run.grace)
    ensures outcome.reason == After(c.budget, run.main).reason
    ensures outcome.started == GraceAfter(c.budget, After(c.budget, run.main), run.grace).started
    ensures outcome.converged <==> run.main != [] && VerdictAt(c.budget, run.main, |run.main| - 1).Convergence?
    ensures run.grace != [] ==> OutOfTime(c.budget, run.main)
    ensures outcome.timedOut <==>
              OutOfTime(c.budget, run.main) && !EndedInGrace(c.budget, After(c.budget, run.main), run.grace)
    ensures outcome.snap == w.snapshot(if run.grace == [] then |run.main| else |run.main| + |run.grace|)
    ensures run.main != [] ==> Naps(|run.main| - 1, c.pollInterval) < c.taskTimeout as real
    ensures run.grace != [] ==> Naps(|run.grace| - 1, c.pollInterval) < GraceSeconds(c)
    // it ends in time, but for the calls of the last pass of each loop and the one between the loops
    ensures now <= Max(0.0, c.taskTimeout as real + c.pollInterval + LastPass(w, 0, |run.main|))
                   + w.delay(2 * |run.main|)
                   + GraceSeconds(c) + 2.0 * c.pollInterval + LastPass(w, |run.main| + 1, |run.grace|)
    ensures |began| == |run.main| && ProgressSeen(c.budget, run.main, began, last)
    ensures run.main != [] && VerdictAt(c.budget, run.main, |run.main| - 1).Quiet? ==> stopped - last >= c.idleTimeout as real
  {
    hide IsRun, IsGrace, After, GraceAfter, VerdictAt, GraceVerdictAt, ProgressSeen, Naps, Candidates, ShouldGrace;
    var main, times, s, timedOut, elapsed, progress := MainLoop(w, c);
    began, stopped, now, last := times, elapsed, elapsed, progress;
    GraceStarts(c.budget, s);
    ObservesNone(w, |main| + 1);
    run := Run(main, []);
    now := now + w.delay(2 * |main|);
    var final := w.snapshot(|main|);
    var cands := Candidates(final, s.started);
    var converged := main != [] && VerdictAt(c.budget, main, |main| - 1).Convergence?;
    if timedOut && (ShouldGrace(final, now - last <= Max(c.idleTimeout as real, 30.0)) || cands != []) {
      var grace, later, complete, end := GraceLoop(w, c, |main| + 1, s, now, last);
      run := Run(main, grace);
      now := end;
      if complete {
        timedOut := false;
      }
      if grace != [] {
        final := w.snapshot(|main| + |grace|);
      }
      outcome := Outcome(timedOut, final, later.started, s.reason, converged);
      return;
    }
    outcome := Outcome(timedOut, final, s.started, s.reason, converged);
  }
}
