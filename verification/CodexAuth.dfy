/**
 The single-flight authentication jobs. Every member of `CodexAuthService` but the constructor is one
 stretch of a coroutine between two awaits, so a run is any sequence of them, as the event loop likes
 to order it, with the answers of the operating system and of the login process left open.
 */
module CodexAuth {
  import opened Text

  datatype Status = Queued | Running | Succeeded | Failed

  predicate Terminal(s: Status) { s.Succeeded? || s.Failed? }

  datatype Stream = Out | Err

  /** Where the coroutine of a job is: not begun, starting the process, reading its two streams, waiting
      for its end, through, or dropped by an exception. */
  datatype Stage = Created | Spawning | Reading | Waiting | Ended | Dropped

  /** A job, with the stage of its coroutine and what its readers have collected. */
  datatype Job = Job(logout: bool, status: Status, message: string, output: seq<string>, exitCode: Option<int>,
                     finished: bool,
                     stage: Stage, out: seq<string>, err: seq<string>, outOpen: bool, errOpen: bool)

  datatype State = State(jobs: map<string, Job>, active: Option<string>)

  const INIT := State(map[], None)

  const KEEP := 20

  /** `lines[-20:]` */
  function LastLines(lines: seq<string>): seq<string> { if |lines| > KEEP then lines[|lines| - KEEP..] else lines }

  // ---------- Atomic sections ----------

  datatype Event =
    | Start(id: string, logout: bool, text: string)
    | Begin(id: string)
    | SpawnFails(id: string, error: string)
    | Spawned(id: string)
    | Line(id: string, stream: Stream, raw: string)
    | EndOfStream(id: string, stream: Stream)
    | Gathered(id: string)
    | Finish(id: string, code: int)
    | Drop(id: string, noted: Option<int>)

  predicate IsAt(s: State, id: string, stage: Stage) { id in s.jobs && s.jobs[id].stage == stage }

  predicate Open(j: Job, stream: Stream) { if stream.Out? then j.outOpen else j.errOpen }

  /** The section can run in this state. New identifiers are new; a reader reads until its stream ends,
      even when the coroutine that started it has been dropped. */
  predicate Enabled(s: State, e: Event) {
    match e
    case Start(id, _, _) => id !in s.jobs
    case Begin(id) => IsAt(s, id, Created)
    case SpawnFails(id, _) => IsAt(s, id, Spawning)
    case Spawned(id) => IsAt(s, id, Spawning)
    case Line(id, stream, _) => id in s.jobs && Open(s.jobs[id], stream)
    case EndOfStream(id, stream) => id in s.jobs && Open(s.jobs[id], stream)
    case Gathered(id) => IsAt(s, id, Reading) && !s.jobs[id].outOpen && !s.jobs[id].errOpen
    case Finish(id, _) => IsAt(s, id, Waiting)
    case Drop(id, code) => IsAt(s, id, Waiting) || (code.None? && (IsAt(s, id, Spawning) || IsAt(s, id, Reading)))
  }

  function Put(s: State, id: string, j: Job): State { s.(jobs := s.jobs[id := j]) }

  /** `[*stdout_lines, *stderr_lines]`, or the message when nothing was read */
  function Combined(j: Job): seq<string> { if j.out + j.err == [] then [j.message] else j.out + j.err }

  function Finished(j: Job, code: int): Job {
    var last := Combined(j)[|Combined(j)| - 1];
    j.(exitCode := Some(code), finished := true, stage := Ended,
       status := if code == 0 then Succeeded else Failed,
       message := if code == 0 && j.logout then "Signed out of the local Codex CLI session." else last)
  }

  function Heard(j: Job, stream: Stream, raw: string): Job {
    var text := Strip(raw);
    if text == "" then j
    else
      var k := j.(output := LastLines(j.output + [text]), message := text);
      if stream.Out? then k.(out := k.out + [text]) else k.(err := k.err + [text])
  }

  /** The state after a section. */
  function Step(s: State, e: Event): State
    requires Enabled(s, e)
  {
    match e
    case Start(id, logout, text) =>
      if s.active.Some? then s
      else State(s.jobs[id := Job(logout, Queued, text, [], None, false, Created, [], [], false, false)], Some(id))
    case Begin(id) =>
      Put(s, id, s.jobs[id].(status := Running, message := "Starting Codex authentication...", stage := Spawning))
    case SpawnFails(id, error) =>
      Put(s, id, s.jobs[id].(status := Failed, finished := true, message := error, stage := Ended)).(active := None)
    case Spawned(id) => Put(s, id, s.jobs[id].(stage := Reading, outOpen := true, errOpen := true))
    case Line(id, stream, raw) => Put(s, id, Heard(s.jobs[id], stream, raw))
    case EndOfStream(id, stream) =>
      Put(s, id, if stream.Out? then s.jobs[id].(outOpen := false) else s.jobs[id].(errOpen := false))
    case Gathered(id) => Put(s, id, s.jobs[id].(stage := Waiting))
    case Finish(id, code) => Put(s, id, Finished(s.jobs[id], code)).(active := None)
    case Drop(id, code) =>
      Put(s, id, if code.None? then s.jobs[id].(stage := Dropped)
                 else s.jobs[id].(stage := Dropped, exitCode := code, finished := true))
  }

  class CodexAuthService {
    var jobs: map<string, Job>
    var activeJobId: Option<string>

    ghost function Now(): State
      reads this
    {
      State(jobs, activeJobId)
    }

    constructor ()
      ensures Now() == INIT
    {
      jobs := map[];
      activeJobId := None;
    }

    /** `current_job`: a stale identifier is dropped. */
    method CurrentJob() returns (job: Option<Job>)
      modifies this
      ensures jobs == old(jobs)
      ensures activeJobId == if old(activeJobId).Some? && old(activeJobId).value in jobs then old(activeJobId) else None
      ensures job == if activeJobId.Some? then Some(jobs[activeJobId.value]) else None
    {
      if activeJobId.None? {
        return None;
      }
      if activeJobId.value in jobs {
        return Some(jobs[activeJobId.value]);
      }
      activeJobId := None;
      return None;
    }

    /** `_start_job`: refused while there is a current job. */
    method StartJob(id: string, logout: bool, text: string) returns (started: bool)
      requires Enabled(Now(), Start(id, logout, text))
      requires SingleFlight(Now())
      modifies this
      ensures Now() == Step(old(Now()), Start(id, logout, text))
      ensures started <==> forall k :: k in old(jobs) ==> Terminal(old(jobs)[k].status)
    {
      var current := CurrentJob();
      if current.Some? {
        return false;
      }
      jobs := jobs[id := Job(logout, Queued, text, [], None, false, Created, [], [], false, false)];
      activeJobId := Some(id);
      return true;
    }

    /** The first section of `_run_job`. */
    method BeginJob(id: string)
      requires Enabled(Now(), Begin(id))
      modifies this
      ensures Now() == Step(old(Now()), Begin(id))
    {
      jobs := jobs[id := jobs[id].(status := Running, message := "Starting Codex authentication...", stage := Spawning)];
    }

    /** The process could not be started. */
    method FailToSpawn(id: string, error: string)
      requires Enabled(Now(), SpawnFails(id, error))
      modifies this
      ensures Now() == Step(old(Now()), SpawnFails(id, error))
    {
      var job := jobs[id];
      job := job.(status := Failed);
      job := job.(finished := true);
      job := job.(message := error, stage := Ended);
      jobs := jobs[id := job];
      activeJobId := None;
    }

    /** The process runs and its two readers are started. */
    method StartReaders(id: string)
      requires Enabled(Now(), Spawned(id))
      modifies this
      ensures Now() == Step(old(Now()), Spawned(id))
    {
      jobs := jobs[id := jobs[id].(stage := Reading, outOpen := true, errOpen := true)];
    }

    /** One turn of `read_stream` with a line. */
    method ReadLine(id: string, stream: Stream, raw: string)
      requires Enabled(Now(), Line(id, stream, raw))
      modifies this
      ensures Now() == Step(old(Now()), Line(id, stream, raw))
    {
      var text := Strip(raw);
      if text != "" {
        var job := jobs[id];
        if stream.Out? {
          job := job.(out := job.out + [text]);
        } else {
          job := job.(err := job.err + [text]);
        }
        job := job.(output := LastLines(job.output + [text]));
        job := job.(message := text);
        jobs := jobs[id := job];
      }
    }

    /** Its last turn. */
    method EndStream(id: string, stream: Stream)
      requires Enabled(Now(), EndOfStream(id, stream))
      modifies this
      ensures Now() == Step(old(Now()), EndOfStream(id, stream))
    {
      jobs := jobs[id := if stream.Out? then jobs[id].(outOpen := false) else jobs[id].(errOpen := false)];
    }

    /** Both readers are through; the process is waited for. */
    method Gather(id: string)
      requires Enabled(Now(), Gathered(id))
      modifies this
      ensures Now() == Step(old(Now()), Gathered(id))
    {
      jobs := jobs[id := jobs[id].(stage := Waiting)];
    }

    /** An exception ends the coroutine; with a code, after the end of the process was noted. */
    method DropJob(id: string, code: Option<int>)
      requires Enabled(Now(), Drop(id, code))
      modifies this
      ensures Now() == Step(old(Now()), Drop(id, code))
    {
      var job := jobs[id];
      if code.Some? {
        job := job.(exitCode := code);
        job := job.(finished := true);
      }
      jobs := jobs[id := job.(stage := Dropped)];
    }

    /** The last section of `_run_job`. */
    method FinishJob(id: string, code: int)
      requires Enabled(Now(), Finish(id, code))
      modifies this
      ensures Now() == Step(old(Now()), Finish(id, code))
    {
      var job := jobs[id];
      job := job.(exitCode := Some(code), finished := true, stage := Ended);
      var combined := job.out + job.err;
      if combined == [] {
        combined := [job.message];
      }
      if code == 0 {
        job := job.(status := Succeeded);
        if job.logout {
          job := job.(message := "Signed out of the local Codex CLI session.");
        } else {
          job := job.(message := combined[|combined| - 1]);
        }
      } else {
        job := job.(status := Failed, message := combined[|combined| - 1]);
      }
      jobs := jobs[id := job];
      activeJobId := None;
    }
  }

  // ---------- Runs ----------

  /** The state after a sequence of sections. */
  function After(es: seq<Event>): Option<State> {
    if es == [] then Some(INIT)
    else
      var s := After(es[..|es| - 1]);
      if s.Some? && Enabled(s.value, es[|es| - 1]) then Some(Step(s.value, es[|es| - 1])) else None
  }

  /** One job at most is not through, it is the active one, and there is an active one only then. */
  predicate SingleFlight(s: State) {
    && (s.active.Some? ==> s.active.value in s.jobs && !Terminal(s.jobs[s.active.value].status))
    && (forall id :: id in s.jobs && !Terminal(s.jobs[id].status) ==> s.active == Some(id))
  }

  /** A job's status goes with its stage, and only the readers of a started process are open. */
  predicate Consistent(j: Job) {
    && (j.stage.Created? <==> j.status.Queued?)
    && (j.stage.Ended? <==> Terminal(j.status))
    && (j.outOpen || j.errOpen ==> j.stage.Reading? || j.stage.Dropped?)
    && (j.stage.Spawning? || j.stage.Created? ==> j.out == [] && j.err == [] && j.output == [])
  }

  predicate AllConsistent(s: State) { forall id :: id in s.jobs ==> Consistent(s.jobs[id]) }

  /** A job may be replaced by a consistent one that is through exactly if it was. */
  lemma PutKeeps(s: State, id: string, j: Job)
    requires SingleFlight(s) && AllConsistent(s) && id in s.jobs && Consistent(j)
    requires Terminal(j.status) == Terminal(s.jobs[id].status)
    ensures SingleFlight(Put(s, id, j)) && AllConsistent(Put(s, id, j))
  {
    hide Consistent, Terminal;
  }

  /** The one that is not through may be ended, if the service is freed. */
  lemma EndKeeps(s: State, id: string, j: Job)
    requires SingleFlight(s) && AllConsistent(s) && id in s.jobs && !Terminal(s.jobs[id].status)
    requires Consistent(j) && Terminal(j.status)
    ensures SingleFlight(Put(s, id, j).(active := None)) && AllConsistent(Put(s, id, j).(active := None))
  {
    hide Consistent, Terminal;
  }

  lemma StartKeeps(s: State, id: string, logout: bool, text: string)
    requires SingleFlight(s) && AllConsistent(s) && id !in s.jobs
    ensures var t := Step(s, Start(id, logout, text)); SingleFlight(t) && AllConsistent(t)
  {
  }

  /** The sections that only move the stage of a job on. */
  lemma MoveOn(s: State, e: Event)
    requires SingleFlight(s) && AllConsistent(s) && (e.Begin? || e.Spawned? || e.Gathered?) && Enabled(s, e)
    ensures SingleFlight(Step(s, e)) && AllConsistent(Step(s, e))
  {
    hide SingleFlight, Put;
    var j := s.jobs[e.id];
    assert Consistent(j);
    match e
    case Begin(id) =>
      PutKeeps(s, id, j.(status := Running, message := "Starting Codex authentication...", stage := Spawning));
    case Spawned(id) => PutKeeps(s, id, j.(stage := Reading, outOpen := true, errOpen := true));
    case Gathered(id) => PutKeeps(s, id, j.(stage := Waiting));
  }

  lemma SpawnFailKeeps(s: State, id: string, error: string)
    requires SingleFlight(s) && AllConsistent(s) && Enabled(s, SpawnFails(id, error))
    ensures var t := Step(s, SpawnFails(id, error)); SingleFlight(t) && AllConsistent(t)
  {
    hide SingleFlight, Put;
    assert Consistent(s.jobs[id]);
    EndKeeps(s, id, s.jobs[id].(status := Failed, finished := true, message := error, stage := Ended));
  }

  lemma LineKeeps(s: State, id: string, stream: Stream, raw: string)
    requires SingleFlight(s) && AllConsistent(s) && Enabled(s, Line(id, stream, raw))
    ensures var t := Step(s, Line(id, stream, raw)); SingleFlight(t) && AllConsistent(t)
  {
    hide SingleFlight, Put, Heard;
    assert Consistent(s.jobs[id]);
    HeardKeeps(s.jobs[id], stream, raw);
    PutKeeps(s, id, Heard(s.jobs[id], stream, raw));
  }

  lemma StreamKeeps(s: State, id: string, stream: Stream)
    requires SingleFlight(s) && AllConsistent(s) && Enabled(s, EndOfStream(id, stream))
    ensures var t := Step(s, EndOfStream(id, stream)); SingleFlight(t) && AllConsistent(t)
  {
    hide SingleFlight, Put;
    assert Consistent(s.jobs[id]);
    PutKeeps(s, id, if stream.Out? then s.jobs[id].(outOpen := false) else s.jobs[id].(errOpen := false));
  }

  lemma FinishKeeps(s: State, id: string, code: int)
    requires SingleFlight(s) && AllConsistent(s) && Enabled(s, Finish(id, code))
    ensures var t := Step(s, Finish(id, code)); SingleFlight(t) && AllConsistent(t)
  {
    hide SingleFlight, Put, Finished;
    assert Consistent(s.jobs[id]);
    FinishedKeeps(s.jobs[id], code);
    EndKeeps(s, id, Finished(s.jobs[id], code));
  }

  lemma DropKeeps(s: State, id: string, code: Option<int>)
    requires SingleFlight(s) && AllConsistent(s) && Enabled(s, Drop(id, code))
    ensures var t := Step(s, Drop(id, code)); SingleFlight(t) && AllConsistent(t)
  {
    hide SingleFlight, Put;
    assert Consistent(s.jobs[id]);
    PutKeeps(s, id, if code.None? then s.jobs[id].(stage := Dropped)
                    else s.jobs[id].(stage := Dropped, exitCode := code, finished := true));
  }

  lemma StepKeeps(s: State, e: Event)
    requires Enabled(s, e) && SingleFlight(s) && AllConsistent(s)
    ensures SingleFlight(Step(s, e)) && AllConsistent(Step(s, e))
  {
    hide Heard, Finished, SingleFlight, AllConsistent, Put, Consistent;
    match e
    case Start(id, logout, text) => StartKeeps(s, id, logout, text);
    case Begin(id) => MoveOn(s, e);
    case SpawnFails(id, error) => SpawnFailKeeps(s, id, error);
    case Spawned(id) => MoveOn(s, e);
    case Line(id, stream, raw) => LineKeeps(s, id, stream, raw);
    case EndOfStream(id, stream) => StreamKeeps(s, id, stream);
    case Gathered(id) => MoveOn(s, e);
    case Finish(id, code) => FinishKeeps(s, id, code);
    case Drop(id, code) => DropKeeps(s, id, code);
  }

  lemma HeardKeeps(j: Job, stream: Stream, raw: string)
    requires Consistent(j) && Open(j, stream)
    ensures Consistent(Heard(j, stream, raw)) && Heard(j, stream, raw).status == j.status
  {
    hide Strip, LastLines;
  }

  lemma FinishedKeeps(j: Job, code: int)
    requires Consistent(j) && j.stage.Waiting?
    ensures Consistent(Finished(j, code)) && Terminal(Finished(j, code).status)
  {
  }

  /** Under every interleaving at most one job is not through, and the active identifier names it; so
      `current_job` never finds its identifier stale. */
  lemma {:induction false} AlwaysSingleFlight(es: seq<Event>)
    requires After(es).Some?
    ensures SingleFlight(After(es).value) && AllConsistent(After(es).value)
  {
    hide SingleFlight, AllConsistent, Step, Enabled;
    if es == [] {
      InitKeeps();
    } else {
      AlwaysSingleFlight(es[..|es| - 1]);
      StepKeeps(After(es[..|es| - 1]).value, es[|es| - 1]);
    }
  }

  lemma InitKeeps()
    ensures SingleFlight(INIT) && AllConsistent(INIT)
  {
  }

  /** A job that is through is never touched again. */
  lemma StepSpares(s: State, e: Event, id: string)
    requires Enabled(s, e) && AllConsistent(s) && id in s.jobs && Terminal(s.jobs[id].status)
    ensures id in Step(s, e).jobs && Step(s, e).jobs[id] == s.jobs[id]
  {
    hide Heard, Finished;
    assert Consistent(s.jobs[id]);
  }

  lemma {:induction false} TerminalIsFinal(es: seq<Event>, n: nat, id: string)
    requires n <= |es| && After(es).Some? && After(es[..n]).Some?
    requires id in After(es[..n]).value.jobs && Terminal(After(es[..n]).value.jobs[id].status)
    ensures id in After(es).value.jobs && After(es).value.jobs[id] == After(es[..n]).value.jobs[id]
  {
    hide Step, Enabled;
    if n == |es| {
      assert es[..n] == es;
    } else {
      var less := es[..|es| - 1];
      assert less[..n] == es[..n];
      TerminalIsFinal(less, n, id);
      AlwaysSingleFlight(less);
      StepSpares(After(less).value, es[|es| - 1], id);
    }
  }

  /** A dropped job stays as it is, but for what its readers still read. */
  lemma StepLeavesDropped(s: State, e: Event, id: string)
    requires Enabled(s, e) && SingleFlight(s) && AllConsistent(s) && IsAt(s, id, Dropped)
    ensures IsAt(Step(s, e), id, Dropped)
    ensures Step(s, e).jobs.Keys == s.jobs.Keys
  {
    hide Finished;
    assert Consistent(s.jobs[id]);
    assert s.active == Some(id);
  }

  /** Once an exception has dropped a job, no job is ever started again: the service keeps the dropped
      one as its current job. */
  lemma {:induction false} DroppedForGood(es: seq<Event>, n: nat, id: string)
    requires n <= |es| && After(es).Some? && After(es[..n]).Some? && IsAt(After(es[..n]).value, id, Dropped)
    ensures IsAt(After(es).value, id, Dropped) && After(es).value.active == Some(id)
    ensures After(es).value.jobs.Keys == After(es[..n]).value.jobs.Keys
  {
    hide Step, Enabled;
    AlwaysSingleFlight(es);
    if n == |es| {
      assert es[..n] == es;
    } else {
      var less := es[..|es| - 1];
      assert less[..n] == es[..n];
      DroppedForGood(less, n, id);
      AlwaysSingleFlight(less);
      StepLeavesDropped(After(less).value, es[|es| - 1], id);
    }
    assert Consistent(After(es).value.jobs[id]);
  }

  // ---------- Becoming free again ----------

  predicate NoneDropped(s: State) { forall id :: id in s.jobs ==> !s.jobs[id].stage.Dropped? }

  /** The sections that are left of a job at most. */
  function Ahead(j: Job): nat {
    match j.stage
    case Created => 6
    case Spawning => 5
    case Reading => 2 + (if j.outOpen then 1 else 0) + if j.errOpen then 1 else 0
    case Waiting => 1
    case Ended => 0
    case Dropped => 0
  }

  /** A next section that brings a job nearer to its end. */
  function NextOf(id: string, j: Job): Event {
    match j.stage
    case Created => Begin(id)
    case Spawning => Spawned(id)
    case Reading =>
      if j.outOpen then EndOfStream(id, Out) else if j.errOpen then EndOfStream(id, Err) else Gathered(id)
    case _ => Finish(id, 0)
  }

  lemma AfterOne(es: seq<Event>, e: Event)
    requires After(es).Some? && Enabled(After(es).value, e)
    ensures After(es + [e]) == Some(Step(After(es).value, e))
  {
    assert (es + [e])[..|es|] == es;
  }

  /** From a state without a dropped job the active job can go on, and is then nearer to its end or gone. */
  lemma NextIsPossible(s: State, id: string)
    requires id in s.jobs && Consistent(s.jobs[id])
    requires !Terminal(s.jobs[id].status) && !s.jobs[id].stage.Dropped?
    ensures Enabled(s, NextOf(id, s.jobs[id]))
  {
  }

  /** The section that is next changes this one job, and brings it nearer to its end. */
  predicate Nearer(s: State, id: string, u: State)
    requires id in s.jobs
  {
    && id in u.jobs && u.jobs == s.jobs[id := u.jobs[id]] && (u.active.None? || u.active == s.active)
    && !u.jobs[id].stage.Dropped? && Ahead(u.jobs[id]) < Ahead(s.jobs[id])
  }

  lemma MovesNearer(s: State, id: string)
    requires id in s.jobs && Enabled(s, NextOf(id, s.jobs[id]))
    requires s.jobs[id].stage.Created? || s.jobs[id].stage.Spawning?
    ensures Nearer(s, id, Step(s, NextOf(id, s.jobs[id])))
  {
  }

  lemma ReadsNearer(s: State, id: string)
    requires id in s.jobs && Enabled(s, NextOf(id, s.jobs[id])) && s.jobs[id].stage.Reading?
    ensures Nearer(s, id, Step(s, NextOf(id, s.jobs[id])))
  {
  }

  lemma FinishNearer(s: State, id: string)
    requires id in s.jobs && Enabled(s, NextOf(id, s.jobs[id])) && s.jobs[id].stage.Waiting?
    ensures Nearer(s, id, Step(s, NextOf(id, s.jobs[id])))
  {
    hide Combined;
  }

  lemma NextIsNearer(s: State, id: string)
    requires id in s.jobs && Enabled(s, NextOf(id, s.jobs[id]))
    requires !s.jobs[id].stage.Ended? && !s.jobs[id].stage.Dropped?
    ensures Nearer(s, id, Step(s, NextOf(id, s.jobs[id])))
  {
    hide Enabled, NextOf, Step, Nearer;
    if s.jobs[id].stage.Waiting? {
      FinishNearer(s, id);
    } else if s.jobs[id].stage.Reading? {
      ReadsNearer(s, id);
    } else {
      MovesNearer(s, id);
    }
  }

  lemma NextGoesOn(s: State, id: string)
    requires SingleFlight(s) && AllConsistent(s) && NoneDropped(s) && s.active == Some(id)
    ensures id in s.jobs && Ahead(s.jobs[id]) > 0
    ensures var e := NextOf(id, s.jobs[id]);
      && Enabled(s, e) && Step(s, e).jobs.Keys == s.jobs.Keys && NoneDropped(Step(s, e))
      && (Step(s, e).active.None? || (Step(s, e).active == s.active && Ahead(Step(s, e).jobs[id]) < Ahead(s.jobs[id])))
  {
    hide Enabled, Step, Ahead, NextOf;
    assert Consistent(s.jobs[id]) && !Terminal(s.jobs[id].status) && !s.jobs[id].stage.Dropped?;
    NextIsPossible(s, id);
    NextIsNearer(s, id);
  }

  /** It ends in some continuation of the run, without another job being added. */
  lemma {:induction false} CanBecomeFree(es: seq<Event>) returns (more: seq<Event>)
    requires After(es).Some? && NoneDropped(After(es).value)
    ensures After(es + more).Some? && After(es + more).value.active.None?
    ensures After(es + more).value.jobs.Keys == After(es).value.jobs.Keys
    decreases if After(es).value.active.Some? && After(es).value.active.value in After(es).value.jobs
              then Ahead(After(es).value.jobs[After(es).value.active.value]) else 0
  {
    hide After, Enabled, Step, SingleFlight, AllConsistent, NoneDropped, Ahead, NextOf;
    AlwaysSingleFlight(es);
    var s := After(es).value;
    if s.active.None? {
      more := [];
      assert es + more == es;
    } else {
      var id := s.active.value;
      ActiveIsJob(s);
      var e := NextOf(id, s.jobs[id]);
      NextGoesOn(s, id);
      AfterOne(es, e);
      var rest := CanBecomeFree(es + [e]);
      more := [e] + rest;
      assert es + more == es + [e] + rest;
    }
  }

  lemma ActiveIsJob(s: State)
    requires SingleFlight(s) && s.active.Some?
    ensures s.active.value in s.jobs
  {
  }

  /** The service becomes free again in some continuation of the run. */
  ghost predicate MayBecomeFree(es: seq<Event>) {
    exists more :: After(es + more).Some? && After(es + more).value.active.None?
  }

  /** A job of this identifier is there in some continuation of the run. */
  ghost predicate MayHold(es: seq<Event>, id: string) {
    exists more :: After(es + more).Some? && id in After(es + more).value.jobs
  }

  /** The service can become free again, and start any new job, if and only if no job was dropped. */
  lemma FreeUnlessDropped(es: seq<Event>, id: string)
    requires After(es).Some? && id !in After(es).value.jobs
    ensures MayBecomeFree(es) <==> NoneDropped(After(es).value)
    ensures MayHold(es, id) <==> NoneDropped(After(es).value)
  {
    hide After, NoneDropped;
    if NoneDropped(After(es).value) {
      var more := CanBecomeFree(es);
      StartsWhenFree(es + more, id);
      assert es + more + [Start(id, false, "")] == es + (more + [Start(id, false, "")]);
    } else {
      var dropped := SomeDropped(After(es).value);
      forall more | After(es + more).Some?
        ensures After(es + more).value.active.Some? && id !in After(es + more).value.jobs
      {
        assert (es + more)[..|es|] == es;
        DroppedForGood(es + more, |es|, dropped);
      }
    }
  }

  lemma SomeDropped(s: State) returns (id: string)
    requires !NoneDropped(s)
    ensures IsAt(s, id, Dropped)
  {
    id :| id in s.jobs && s.jobs[id].stage.Dropped?;
  }

  lemma StartsWhenFree(es: seq<Event>, id: string)
    requires After(es).Some? && After(es).value.active.None? && id !in After(es).value.jobs
    ensures var all := es + [Start(id, false, "")];
      After(all).Some? && After(all).value.active == Some(id) && id in After(all).value.jobs
  {
    hide After;
    AfterOne(es, Start(id, false, ""));
  }

  /** A run in which a job is dropped: its process could not be waited for to start. */
  lemma DroppedRun()
    ensures var es := [Start("a", false, ""), Begin("a"), Drop("a", None)];
      && After(es).Some? && IsAt(After(es).value, "a", Dropped) && !MayBecomeFree(es)
  {
    hide After;
    var one, two := [Start("a", false, "")], [Start("a", false, ""), Begin("a")];
    NothingRun();
    assert [] + one == one && one + [Begin("a")] == two;
    AfterOne([], Start("a", false, ""));
    AfterOne(one, Begin("a"));
    AfterOne(two, Drop("a", None));
    assert two + [Drop("a", None)] == [Start("a", false, ""), Begin("a"), Drop("a", None)];
    FreeUnlessDropped(two + [Drop("a", None)], "b");
  }

  lemma NothingRun()
    ensures After([]) == Some(INIT)
  {
  }

  // ---------- What the readers collect ----------

  /** The lines read for a job, in the order in which they were read, each with its stream. */
  function Read(es: seq<Event>, id: string): seq<(Stream, string)> {
    if es == [] then []
    else
      var e, before := es[|es| - 1], Read(es[..|es| - 1], id);
      if e.Line? && e.id == id && Strip(e.raw) != "" then before + [(e.stream, Strip(e.raw))] else before
  }

  function Texts(ls: seq<(Stream, string)>): seq<string> {
    if ls == [] then [] else Texts(ls[..|ls| - 1]) + [ls[|ls| - 1].1]
  }

  /** The lines of one stream. */
  function Of(ls: seq<(Stream, string)>, stream: Stream): seq<string> {
    if ls == [] then []
    else Of(ls[..|ls| - 1], stream) + if ls[|ls| - 1].0 == stream then [ls[|ls| - 1].1] else []
  }

  lemma LastLinesGrow(lines: seq<string>, text: string)
    ensures LastLines(LastLines(lines) + [text]) == LastLines(lines + [text])
  {
  }

  lemma ReadMore(ls: seq<(Stream, string)>, stream: Stream, text: string)
    ensures Texts(ls + [(stream, text)]) == Texts(ls) + [text]
    ensures Of(ls + [(stream, text)], stream) == Of(ls, stream) + [text]
    ensures Of(ls + [(stream, text)], if stream.Out? then Err else Out) == Of(ls, if stream.Out? then Err else Out)
  {
    assert (ls + [(stream, text)])[..|ls|] == ls;
  }

  /** What a job shows and has collected is what was read for it. */
  predicate Collected(j: Job, ls: seq<(Stream, string)>) {
    j.output == LastLines(Texts(ls)) && j.out == Of(ls, Out) && j.err == Of(ls, Err)
  }

  lemma HeardCollects(j: Job, ls: seq<(Stream, string)>, stream: Stream, raw: string)
    requires Collected(j, ls)
    ensures Collected(Heard(j, stream, raw), if Strip(raw) != "" then ls + [(stream, Strip(raw))] else ls)
  {
    hide Strip, LastLines, Texts, Of;
    ReadMore(ls, stream, Strip(raw));
    LastLinesGrow(Texts(ls), Strip(raw));
  }

  lemma NothingCollected()
    ensures LastLines(Texts([])) == [] && Of([], Out) == [] && Of([], Err) == []
  {
  }

  /** Whatever the order in which the two readers take turns, the output shown is the last twenty lines
      of all that was read, and each reader has the lines of its own stream, in their order. */
  lemma {:induction false} OutputIsMerge(es: seq<Event>, id: string)
    requires After(es).Some?
    ensures id in After(es).value.jobs ==> Collected(After(es).value.jobs[id], Read(es, id))
    ensures id !in After(es).value.jobs ==> Read(es, id) == []
  {
    hide Heard, Finished, Collected, Strip;
    if es != [] {
      var less, e := es[..|es| - 1], es[|es| - 1];
      OutputIsMerge(less, id);
      CollectedStep(After(less).value, e, id, Read(less, id));
    }
  }

  lemma CollectedStep(s: State, e: Event, id: string, ls: seq<(Stream, string)>)
    requires Enabled(s, e)
    requires id in s.jobs ==> Collected(s.jobs[id], ls)
    requires id !in s.jobs ==> ls == []
    ensures var t := Step(s, e);
      var more := if e.Line? && e.id == id && Strip(e.raw) != "" then ls + [(e.stream, Strip(e.raw))] else ls;
      (id in t.jobs ==> Collected(t.jobs[id], more)) && (id !in t.jobs ==> more == [])
  {
    hide Heard, LastLines, Texts, Of, Strip;
    NothingCollected();
    if e.Line? && e.id == id { HeardCollects(s.jobs[id], ls, e.stream, e.raw); }
  }

  /** The two lists together hold every line that was read exactly once. */
  lemma {:induction false} NothingLost(ls: seq<(Stream, string)>)
    ensures multiset(Of(ls, Out)) + multiset(Of(ls, Err)) == multiset(Texts(ls))
    ensures |Of(ls, Out)| + |Of(ls, Err)| == |ls|
  {
    if ls != [] { NothingLost(ls[..|ls| - 1]); }
  }
}
