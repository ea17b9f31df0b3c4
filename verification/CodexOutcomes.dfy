/** What a job's status, exit code and message say about the run that it went through. */
module CodexOutcomes {
  import opened Text
  import opened CodexAuth

  const STARTING := "Starting Codex authentication..."

  const SIGNED_OUT := "Signed out of the local Codex CLI session."

  /** The section that started the job: requests made while another job is the current one start nothing. */
  ghost predicate StartedBy(es: seq<Event>, id: string, logout: bool, text: string) {
    exists k :: 0 <= k < |es| && es[k] == Start(id, logout, text)
                && After(es[..k]).Some? && After(es[..k]).value.active.None?
  }

  /** The process could not be started. */
  ghost predicate SpawnFailed(es: seq<Event>, id: string) { exists error :: SpawnFails(id, error) in es }

  /** The process ended with another code than 0. */
  ghost predicate EndedBadly(es: seq<Event>, id: string) { exists code :: code != 0 && Finish(id, code) in es }

  /** The last line read: of the error stream, or of the other one when that was silent. */
  function LastOfStreams(ls: seq<(Stream, string)>): string {
    var out, err := Of(ls, Out), Of(ls, Err);
    if err != [] then err[|err| - 1] else if out != [] then out[|out| - 1] else STARTING
  }

  function LastLine(ls: seq<(Stream, string)>): string { if ls == [] then STARTING else ls[|ls| - 1].1 }

  // ---------- What a job knows of the run ----------

  predicate Did(es: seq<Event>, e: Event) { e in es }

  /** The stage, the status and the exit code. */
  ghost predicate KnowsEnd(es: seq<Event>, id: string, j: Job) {
    && (Did(es, Begin(id)) <==> !j.stage.Created?)
    && (forall c :: Did(es, Finish(id, c)) <==> j.stage.Ended? && j.exitCode == Some(c))
    && (forall c :: Did(es, Drop(id, Some(c))) <==> j.stage.Dropped? && j.exitCode == Some(c))
    && (forall t :: Did(es, SpawnFails(id, t)) <==> j.stage.Ended? && j.exitCode.None? && j.message == t)
    && (j.exitCode.Some? ==> j.stage.Ended? || j.stage.Dropped?)
    && (j.finished <==> j.stage.Ended? || j.exitCode.Some?)
    && j.status == StatusOf(j)
  }

  function StatusOf(j: Job): Status {
    match j.stage
    case Created => Queued
    case Ended => if j.exitCode == Some(0) then Succeeded else Failed
    case _ => Running
  }

  /** The message. */
  ghost predicate KnowsMessage(es: seq<Event>, id: string, j: Job) {
    && (j.stage.Created? ==> StartedBy(es, id, j.logout, j.message))
    && (j.stage.Ended? && j.exitCode.Some? ==>
          j.message == if j.exitCode == Some(0) && j.logout then SIGNED_OUT else LastOfStreams(Read(es, id)))
    && (!j.stage.Created? && !j.stage.Ended? ==> j.message == LastLine(Read(es, id)))
  }

  ghost predicate KnowsStart(es: seq<Event>, id: string, j: Job) {
    && (exists text :: StartedBy(es, id, j.logout, text))
    && forall logout, text :: StartedBy(es, id, logout, text) ==> logout == j.logout
  }

  /** Nothing but refused requests to start it is known of a job that is not there. */
  ghost predicate Unheard(es: seq<Event>, id: string) {
    && !Did(es, Begin(id)) && (forall t :: !Did(es, SpawnFails(id, t)))
    && (forall c :: !Did(es, Finish(id, c))) && (forall c :: !Did(es, Drop(id, c)))
    && forall logout, text :: !StartedBy(es, id, logout, text)
  }

  // ---------- One section more ----------

  lemma InMore(es: seq<Event>, e: Event)
    ensures forall x :: Did(es + [e], x) <==> Did(es, x) || x == e
  {
  }

  lemma StartedMore(es: seq<Event>, e: Event, id: string, logout: bool, text: string)
    requires After(es).Some?
    ensures StartedBy(es + [e], id, logout, text) <==>
              StartedBy(es, id, logout, text) || (e == Start(id, logout, text) && After(es).value.active.None?)
  {
    hide After;
    var all := es + [e];
    assert all[..|es|] == es;
    if k :| 0 <= k < |es| && es[k] == Start(id, logout, text) && After(es[..k]).Some? && After(es[..k]).value.active.None? {
      assert all[k] == es[k] && all[..k] == es[..k];
    }
    if k :| 0 <= k < |all| && all[k] == Start(id, logout, text) && After(all[..k]).Some? && After(all[..k]).value.active.None? {
      if k < |es| { assert all[k] == es[k] && all[..k] == es[..k]; }
    }
    if e == Start(id, logout, text) && After(es).value.active.None? { assert all[|es|] == e; }
  }

  lemma OthersKeepStart(es: seq<Event>, e: Event, id: string, j: Job)
    requires After(es).Some? && KnowsStart(es, id, j) && !(e.Start? && e.id == id && After(es).value.active.None?)
    ensures KnowsStart(es + [e], id, j)
  {
    hide After, StartedBy;
    forall logout, text
      ensures StartedBy(es + [e], id, logout, text) <==> StartedBy(es, id, logout, text)
    {
      StartedMore(es, e, id, logout, text);
    }
  }

  /** A section of another job tells nothing new of this one. */
  lemma OthersKeep(es: seq<Event>, e: Event, id: string, j: Job)
    requires After(es).Some? && (e.id != id || e.Start?) && !(e.Start? && e.id == id && After(es).value.active.None?)
    requires KnowsEnd(es, id, j) && KnowsMessage(es, id, j) && KnowsStart(es, id, j)
    ensures KnowsEnd(es + [e], id, j) && KnowsMessage(es + [e], id, j) && KnowsStart(es + [e], id, j)
  {
    hide Did, After, StartedBy, Read, LastOfStreams, LastLine;
    InMore(es, e);
    OthersKeepStart(es, e, id, j);
    StartedMore(es, e, id, j.logout, j.message);
    ReadOthers(es, e, id);
  }

  lemma ReadOthers(es: seq<Event>, e: Event, id: string)
    ensures !(e.Line? && e.id == id) ==> Read(es + [e], id) == Read(es, id)
    ensures e.Line? && e.id == id && Strip(e.raw) == "" ==> Read(es + [e], id) == Read(es, id)
    ensures e.Line? && e.id == id && Strip(e.raw) != "" ==> Read(es + [e], id) == Read(es, id) + [(e.stream, Strip(e.raw))]
  {
    assert (es + [e])[..|es|] == es;
  }

  lemma OthersUnheard(es: seq<Event>, e: Event, id: string)
    requires After(es).Some? && Unheard(es, id)
    requires e.id != id || (e.Start? && After(es).value.active.Some?)
    ensures Unheard(es + [e], id)
  {
    hide Did, After, StartedBy;
    InMore(es, e);
    forall logout, text
      ensures !StartedBy(es + [e], id, logout, text)
    {
      StartedMore(es, e, id, logout, text);
    }
  }

  /** The section that starts the job. */
  lemma StartTells(es: seq<Event>, id: string, logout: bool, text: string)
    requires After(es).Some? && After(es).value.active.None? && Unheard(es, id)
    ensures var e, j := Start(id, logout, text), Job(logout, Queued, text, [], None, false, Created, [], [], false, false);
      KnowsEnd(es + [e], id, j) && KnowsMessage(es + [e], id, j) && KnowsStart(es + [e], id, j)
  {
    hide Did, After, StartedBy, Read, LastOfStreams, LastLine;
    var e := Start(id, logout, text);
    InMore(es, e);
    forall l, t
      ensures StartedBy(es + [e], id, l, t) <==> l == logout && t == text
    {
      StartedMore(es, e, id, l, t);
    }
  }

  // ---------- The other sections of the job itself ----------

  lemma BeginTells(es: seq<Event>, id: string, j: Job)
    requires KnowsEnd(es, id, j) && j.stage.Created? && Read(es, id) == []
    ensures var e, k := Begin(id), j.(status := Running, message := STARTING, stage := Spawning);
      KnowsEnd(es + [e], id, k) && KnowsMessage(es + [e], id, k)
  {
    hide Did, Read, LastOfStreams, StartedBy;
    InMore(es, Begin(id));
    ReadOthers(es, Begin(id), id);
  }

  lemma SpawnFailEnds(es: seq<Event>, id: string, error: string, j: Job, k: Job)
    requires KnowsEnd(es, id, j) && j.stage.Spawning?
    requires k.stage.Ended? && k.finished && k.exitCode == j.exitCode && k.message == error && k.status.Failed?
    ensures KnowsEnd(es + [SpawnFails(id, error)], id, k)
  {
    hide Did;
    InMore(es, SpawnFails(id, error));
  }

  lemma SpawnFailTells(es: seq<Event>, id: string, error: string, j: Job)
    requires KnowsEnd(es, id, j) && j.stage.Spawning?
    ensures var e, k := SpawnFails(id, error), j.(status := Failed, finished := true, message := error, stage := Ended);
      KnowsEnd(es + [e], id, k) && KnowsMessage(es + [e], id, k)
  {
    hide Did, Read, LastOfStreams, LastLine, StartedBy;
    assert j.exitCode.None?;
    SpawnFailEnds(es, id, error, j, j.(status := Failed, finished := true, message := error, stage := Ended));
    hide KnowsEnd;
  }

  /** A section that is neither the first nor the last one. */
  lemma EndSame(es: seq<Event>, e: Event, id: string, j: Job, k: Job)
    requires KnowsEnd(es, id, j) && !e.Begin? && !e.Finish? && !e.Drop? && !e.SpawnFails?
    requires !j.stage.Created? && !j.stage.Ended? && !k.stage.Created? && !k.stage.Ended?
    requires k.stage.Dropped? == j.stage.Dropped? && k.status == j.status
    requires k.exitCode == j.exitCode && k.finished == j.finished
    ensures KnowsEnd(es + [e], id, k)
  {
    hide Did;
    InMore(es, e);
  }

  /** Nothing but the streams and the stage change. */
  lemma QuietTells(es: seq<Event>, e: Event, id: string, j: Job, k: Job)
    requires KnowsEnd(es, id, j) && KnowsMessage(es, id, j)
    requires e == Spawned(id) || e == Gathered(id) || (e.EndOfStream? && e.id == id)
    requires !j.stage.Created? && !j.stage.Ended? && !k.stage.Created? && !k.stage.Ended?
    requires k.stage.Dropped? == j.stage.Dropped?
    requires k == j.(stage := k.stage, outOpen := k.outOpen, errOpen := k.errOpen)
    ensures KnowsEnd(es + [e], id, k) && KnowsMessage(es + [e], id, k)
  {
    hide KnowsEnd, Read, LastLine, LastOfStreams, StartedBy;
    EndSame(es, e, id, j, k);
    ReadOthers(es, e, id);
  }

  lemma LineTells(es: seq<Event>, id: string, stream: Stream, raw: string, j: Job)
    requires KnowsEnd(es, id, j) && KnowsMessage(es, id, j) && !j.stage.Created? && !j.stage.Ended?
    ensures var e, k := Line(id, stream, raw), Heard(j, stream, raw);
      KnowsEnd(es + [e], id, k) && KnowsMessage(es + [e], id, k)
  {
    hide KnowsEnd, Read, LastOfStreams, LastLines, StartedBy, Strip;
    EndSame(es, Line(id, stream, raw), id, j, Heard(j, stream, raw));
    ReadOthers(es, Line(id, stream, raw), id);
  }

  lemma FinishEnds(es: seq<Event>, id: string, code: int, j: Job, k: Job)
    requires KnowsEnd(es, id, j) && j.stage.Waiting? && k.stage.Ended? && k.finished && k.exitCode == Some(code)
    requires k.status == if code == 0 then Succeeded else Failed
    ensures KnowsEnd(es + [Finish(id, code)], id, k)
  {
    hide Did;
    InMore(es, Finish(id, code));
  }

  lemma FinishTells(es: seq<Event>, id: string, code: int, j: Job)
    requires KnowsEnd(es, id, j) && KnowsMessage(es, id, j) && j.stage.Waiting? && Collected(j, Read(es, id))
    ensures var e, k := Finish(id, code), Finished(j, code);
      KnowsEnd(es + [e], id, k) && KnowsMessage(es + [e], id, k)
  {
    hide KnowsEnd, Read, LastOfStreams, LastLine, StartedBy, Collected, Combined;
    FinishEnds(es, id, code, j, Finished(j, code));
    ReadOthers(es, Finish(id, code), id);
    LastOfBoth(j, Read(es, id));
  }

  /** What the two lists together end with; without any line the message is still the one that the job began with. */
  lemma LastOfBoth(j: Job, ls: seq<(Stream, string)>)
    requires Collected(j, ls) && j.message == LastLine(ls)
    ensures Combined(j)[|Combined(j)| - 1] == LastOfStreams(ls)
  {
    hide LastLines, Texts, Of;
    NothingLost(ls);
  }

  lemma DropTells(es: seq<Event>, id: string, code: Option<int>, j: Job)
    requires KnowsEnd(es, id, j) && KnowsMessage(es, id, j)
    requires j.stage.Spawning? || j.stage.Reading? || j.stage.Waiting?
    ensures var e := Drop(id, code);
      var k := if code.None? then j.(stage := Dropped) else j.(stage := Dropped, exitCode := code, finished := true);
      KnowsEnd(es + [e], id, k) && KnowsMessage(es + [e], id, k)
  {
    hide Did, Read, LastOfStreams, LastLine, StartedBy;
    InMore(es, Drop(id, code));
    ReadOthers(es, Drop(id, code), id);
  }

  lemma OwnTells(s: State, es: seq<Event>, e: Event, id: string)
    requires After(es) == Some(s) && e.id == id && !e.Start? && Enabled(s, e) && id in s.jobs && Consistent(s.jobs[id])
    requires KnowsEnd(es, id, s.jobs[id]) && KnowsMessage(es, id, s.jobs[id]) && Collected(s.jobs[id], Read(es, id))
    ensures KnowsEnd(es + [e], id, Step(s, e).jobs[id]) && KnowsMessage(es + [e], id, Step(s, e).jobs[id])
  {
    hide After, Read, Heard, Finished, KnowsEnd, KnowsMessage, Collected;
    var j, k := s.jobs[id], Step(s, e).jobs[id];
    match e
    case Begin(_) => NothingRead(j, Read(es, id)); BeginTells(es, id, j);
    case SpawnFails(_, error) => SpawnFailTells(es, id, error, j);
    case Line(_, stream, raw) => LineTells(es, id, stream, raw, j);
    case Finish(_, code) => FinishTells(es, id, code, j);
    case Drop(_, code) => DropTells(es, id, code, j);
    case Spawned(_) => QuietTells(es, e, id, j, k);
    case EndOfStream(_, _) => QuietTells(es, e, id, j, k);
    case Gathered(_) => QuietTells(es, e, id, j, k);
  }

  lemma NothingRead(j: Job, ls: seq<(Stream, string)>)
    requires Collected(j, ls) && j.out == [] && j.err == []
    ensures ls == []
  {
    hide LastLines, Texts, Of;
    NothingLost(ls);
  }

  lemma OwnKeeps(s: State, e: Event, id: string)
    requires Enabled(s, e) && e.id == id && !e.Start?
    ensures id in s.jobs && id in Step(s, e).jobs && Step(s, e).jobs[id].logout == s.jobs[id].logout
  {
    hide Strip, LastLines;
  }

  lemma EachConsistent(s: State, id: string)
    requires AllConsistent(s) && id in s.jobs
    ensures Consistent(s.jobs[id])
  {
  }

  lemma OthersStay(s: State, e: Event, id: string)
    requires Enabled(s, e) && (e.id != id || (e.Start? && s.active.Some?))
    ensures (id in Step(s, e).jobs <==> id in s.jobs) && (id in s.jobs ==> Step(s, e).jobs[id] == s.jobs[id])
  {
    hide Heard, Finished;
  }

  // ---------- Over every run ----------

  ghost predicate Knows(es: seq<Event>, id: string, s: State) {
    if id in s.jobs then KnowsEnd(es, id, s.jobs[id]) && KnowsMessage(es, id, s.jobs[id]) && KnowsStart(es, id, s.jobs[id])
    else Unheard(es, id)
  }

  lemma {:induction false} AlwaysKnows(es: seq<Event>, id: string)
    requires After(es).Some?
    ensures Knows(es, id, After(es).value)
  {
    hide Enabled, Step, KnowsEnd, KnowsMessage, KnowsStart, Unheard, Collected, AllConsistent, SingleFlight, Read;
    if es == [] {
      NothingKnown(id);
    } else {
      var less, e := es[..|es| - 1], es[|es| - 1];
      var s := After(less).value;
      assert es == less + [e];
      AlwaysKnows(less, id);
      AlwaysSingleFlight(less);
      if e.id != id || (e.Start? && s.active.Some?) {
        OthersStay(s, e, id);
        RefusedKnows(less, e, id, s);
      } else if e.Start? {
        StartStep(s, id, e.logout, e.text);
        StartTells(less, id, e.logout, e.text);
      } else {
        OwnKeeps(s, e, id);
        OutputIsMerge(less, id);
        EachConsistent(s, id);
        OwnTells(s, less, e, id);
        OthersKeepStart(less, e, id, s.jobs[id]);
        SameStart(es, id, s.jobs[id], Step(s, e).jobs[id]);
      }
    }
  }

  lemma SameStart(es: seq<Event>, id: string, j: Job, k: Job)
    requires KnowsStart(es, id, j) && k.logout == j.logout
    ensures KnowsStart(es, id, k)
  {
  }

  lemma NothingKnown(id: string)
    ensures Unheard([], id)
  {
  }

  lemma StartStep(s: State, id: string, logout: bool, text: string)
    requires Enabled(s, Start(id, logout, text)) && s.active.None?
    ensures id !in s.jobs
    ensures var t := Step(s, Start(id, logout, text));
      id in t.jobs && t.jobs[id] == Job(logout, Queued, text, [], None, false, Created, [], [], false, false)
  {
  }

  /** A section of another job, or a refused request to start this one. */
  lemma RefusedKnows(es: seq<Event>, e: Event, id: string, s: State)
    requires After(es) == Some(s) && Enabled(s, e) && (e.id != id || (e.Start? && s.active.Some?)) && Knows(es, id, s)
    ensures id in s.jobs ==>
              KnowsEnd(es + [e], id, s.jobs[id]) && KnowsMessage(es + [e], id, s.jobs[id]) && KnowsStart(es + [e], id, s.jobs[id])
    ensures id !in s.jobs ==> Unheard(es + [e], id)
  {
    hide After, KnowsEnd, KnowsMessage, KnowsStart, Unheard;
    if id in s.jobs {
      OthersKeep(es, e, id, s.jobs[id]);
    } else {
      OthersUnheard(es, e, id);
    }
  }

  /** What the status of a job says of its run: it has begun or not, its process ended with code 0, or could
      not be started or ended with another code. The exit code is the one that the end of the process gave. */
  lemma StatusTells(es: seq<Event>, id: string)
    requires After(es).Some? && id in After(es).value.jobs
    ensures var j := After(es).value.jobs[id];
      && (j.status.Queued? <==> Begin(id) !in es)
      && (j.status.Succeeded? <==> Finish(id, 0) in es)
      && (j.status.Failed? <==> SpawnFailed(es, id) || EndedBadly(es, id))
      && (forall c :: j.exitCode == Some(c) <==> Finish(id, c) in es || Drop(id, Some(c)) in es)
      && (j.finished <==> SpawnFailed(es, id) || j.exitCode.Some?)
  {
    hide After, Read, StartedBy;
    AlwaysKnows(es, id);
    var j := After(es).value.jobs[id];
    if j.stage.Ended? && j.exitCode.None? { assert Did(es, SpawnFails(id, j.message)); }
    if j.stage.Ended? && j.exitCode.Some? { assert Did(es, Finish(id, j.exitCode.value)); }
  }

  /** What the message of a job is: the text it was started with; why its process could not be started; the
      last line read while the process runs; and in the end the sign-out text or the last line read of the
      error stream, or else of the other one. */
  lemma MessageTells(es: seq<Event>, id: string)
    requires After(es).Some? && id in After(es).value.jobs
    ensures var j := After(es).value.jobs[id];
      && (Begin(id) !in es ==> StartedBy(es, id, j.logout, j.message))
      && (forall error :: SpawnFails(id, error) in es ==> j.message == error)
      && (forall code :: Finish(id, code) in es ==>
            j.message == if code == 0 && j.logout then SIGNED_OUT else LastOfStreams(Read(es, id)))
      && (j.status.Running? ==> j.message == LastLine(Read(es, id)))
      && (exists text :: StartedBy(es, id, j.logout, text))
      && (forall logout, text :: StartedBy(es, id, logout, text) ==> logout == j.logout)
  {
    hide After, Read, StartedBy, LastOfStreams, LastLine;
    AlwaysKnows(es, id);
  }

  /** The output shown is the last twenty lines read, or all of them. */
  lemma OutputTells(es: seq<Event>, id: string)
    requires After(es).Some? && id in After(es).value.jobs
    ensures var all, shown := Texts(Read(es, id)), After(es).value.jobs[id].output;
      |shown| == (if |all| < 20 then |all| else 20) && shown == all[|all| - |shown|..]
  {
    hide After, Read, Texts;
    OutputIsMerge(es, id);
  }
}
