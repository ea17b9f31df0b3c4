/** Which tasks of a snapshot are being worked on and which are ready, in the words of the snapshot. */
module HarnessWork {
  import opened Text
  import opened HarnessTasks

  /** Of the tasks with one identifier the one listed last counts. */
  predicate IsLatest(tasks: seq<Task>, k: int, id: int) {
    0 <= k < |tasks| && tasks[k].id == id && forall j :: k < j < |tasks| ==> tasks[j].id != id
  }

  /** A task that is depended on is completed, done or superseded. */
  ghost predicate Met(tasks: seq<Task>, id: int) {
    exists k :: IsLatest(tasks, k, id)
                && (tasks[k].status == Completed || tasks[k].status == Done || tasks[k].status == Superseded)
  }

  ghost predicate AllMet(t: Task, tasks: seq<Task>) {
    forall i :: 0 <= i < |t.dependencies| ==> Met(tasks, t.dependencies[i])
  }

  /** Of the agents with one identifier the one listed first counts. */
  predicate IsFirst(agents: seq<Agent>, k: int, id: int) {
    0 <= k < |agents| && agents[k].id == id && forall j :: 0 <= j < k ==> agents[j].id != id
  }

  /** The agent that the task is assigned to has it as its current task. */
  ghost predicate InHand(t: Task, agents: seq<Agent>) {
    t.id > 0 && t.agent > 0 && exists k :: IsFirst(agents, k, t.agent) && agents[k].currentTask == Some(t.id)
  }

  /** The task is working, or assigned to an agent that has it in hand, and waits for no other task. */
  ghost predicate WorkedOn(t: Task, snap: Snapshot) {
    || t.status == Working
    || (t.status == Assigned && !t.waiting.forDependencies && AllMet(t, snap.tasks) && InHand(t, snap.agents))
  }

  /** Some task of the snapshot is being worked on. */
  ghost predicate Underway(snap: Snapshot) { exists k :: 0 <= k < |snap.tasks| && WorkedOn(snap.tasks[k], snap) }

  /** A task that was started before may be started again if it came back without an agent, or failed, or
      was sent back. */
  predicate CameBack(t: Task) {
    (t.agent == 0 && t.status != WaitingOnPaths) || t.failures > 0 || t.waiting.mayRestart
  }

  /** The task can be started: it waits for its turn, for no other task, and is not given up. */
  ghost predicate Ready(t: Task, snap: Snapshot, started: set<int>) {
    && t in snap.tasks
    && (t.status == Backlog || t.status == Assigned || t.status == WaitingOnPaths)
    && AllMet(t, snap.tasks) && !t.waiting.superseded
    && (t.id in started && t.id > 0 ==> CameBack(t))
  }

  /** The order in which ready tasks are tried: by status, then by priority, then by identifier. */
  predicate ComesFirst(t: Task, u: Task) {
    if t.status != u.status then t.status == Backlog || u.status == WaitingOnPaths
    else if t.priority != u.priority then t.priority < u.priority
    else t.id <= u.id
  }

  // ---------- They are what the program computes ----------

  lemma {:induction false} StatusesLatest(tasks: seq<Task>, id: int)
    ensures id in Statuses(tasks) <==> exists k :: IsLatest(tasks, k, id)
    ensures forall k :: IsLatest(tasks, k, id) ==> id in Statuses(tasks) && Statuses(tasks)[id] == tasks[k].status
  {
    if tasks != [] {
      var n := |tasks| - 1;
      var less := tasks[..n];
      StatusesLatest(less, id);
      if tasks[n].id == id {
        assert IsLatest(tasks, n, id);
      } else {
        forall k
          ensures IsLatest(tasks, k, id) <==> IsLatest(less, k, id)
        {
          if IsLatest(tasks, k, id) { assert forall j :: k < j < n ==> less[j] == tasks[j]; }
        }
      }
    }
  }

  lemma MetIsFinished(tasks: seq<Task>, id: int)
    ensures Met(tasks, id) <==> id in Statuses(tasks) && Finished(Statuses(tasks)[id])
  {
    hide Statuses, IsLatest;
    StatusesLatest(tasks, id);
  }

  lemma AllMetIsDone(t: Task, tasks: seq<Task>)
    ensures AllMet(t, tasks) <==> DependenciesDone(t, Statuses(tasks))
  {
    hide Statuses, Met, Finished;
    forall i | 0 <= i < |t.dependencies|
      ensures Met(tasks, t.dependencies[i]) <==>
                t.dependencies[i] in Statuses(tasks) && Finished(Statuses(tasks)[t.dependencies[i]])
    {
      MetIsFinished(tasks, t.dependencies[i]);
    }
  }

  lemma {:induction false} FindAgentFirst(agents: seq<Agent>, id: int)
    ensures FindAgent(agents, id).Some? <==> exists k :: IsFirst(agents, k, id)
    ensures forall k :: IsFirst(agents, k, id) ==> FindAgent(agents, id) == Some(agents[k])
  {
    if agents != [] {
      if agents[0].id == id {
        assert IsFirst(agents, 0, id);
      } else {
        var more := agents[1..];
        FindAgentFirst(more, id);
        forall k
          ensures IsFirst(agents, k, id) <==> IsFirst(more, k - 1, id)
        {
          if IsFirst(more, k - 1, id) { assert forall j :: 0 < j < k ==> agents[j] == more[j - 1]; }
          if IsFirst(agents, k, id) { assert forall j :: 0 <= j < k - 1 ==> more[j] == agents[j + 1]; }
        }
        if k :| IsFirst(more, k, id) { assert IsFirst(agents, k + 1, id); }
      }
    }
  }

  lemma InHandIsLive(t: Task, agents: seq<Agent>)
    ensures InHand(t, agents) <==> HasLiveAgent(t, agents)
  {
    hide FindAgent, IsFirst;
    FindAgentFirst(agents, t.agent);
  }

  lemma WorkedOnIsActive(t: Task, snap: Snapshot)
    ensures WorkedOn(t, snap) <==> Active(t, Some(Statuses(snap.tasks)), snap.agents)
  {
    hide Statuses, AllMet, DependenciesDone, InHand, HasLiveAgent;
    AllMetIsDone(t, snap.tasks);
    InHandIsLive(t, snap.agents);
  }

  lemma UnderwayIsExecuting(snap: Snapshot)
    ensures Underway(snap) <==> Executing(snap)
  {
    hide Statuses, WorkedOn, Active;
    forall k | 0 <= k < |snap.tasks|
      ensures WorkedOn(snap.tasks[k], snap) <==> Active(snap.tasks[k], Some(Statuses(snap.tasks)), snap.agents)
    {
      WorkedOnIsActive(snap.tasks[k], snap);
    }
  }

  lemma ReadyIsCandidate(t: Task, snap: Snapshot, started: set<int>)
    ensures Ready(t, snap, started) <==> t in snap.tasks && Candidate(t, Statuses(snap.tasks), started, snap.agents)
  {
    hide Statuses, AllMet, DependenciesDone, CanRelaunch;
    AllMetIsDone(t, snap.tasks);
  }

  lemma FirstIsBefore(t: Task, u: Task, snap: Snapshot, started: set<int>)
    requires Ready(t, snap, started) && Ready(u, snap, started)
    ensures ComesFirst(t, u) <==> Before(t, u)
  {
  }
}
