/** What the benchmark harness reads off a snapshot of tasks and agents. */
module HarnessTasks {
  import opened Text
  import Sorting

  // ---------- Tasks and agents ----------

  datatype Status =
    | Backlog | Assigned | WaitingOnPaths | Working
    | Blocked | Completed | Done | Error | Failed | NeedsReview | Stopped
    | Superseded | NoStatus | OtherStatus(name: string)

  predicate Terminal(s: Status) {
    s.Blocked? || s.Completed? || s.Done? || s.Error? || s.Failed? || s.NeedsReview? || s.Stopped?
  }

  /** A dependency with this status no longer holds a task back. */
  predicate Finished(s: Status) { s.Completed? || s.Done? || s.Superseded? }

  predicate Startable(s: Status) { s.Assigned? || s.Backlog? || s.WaitingOnPaths? }

  /** What the keyword tests find in a task's waiting reason. */
  datatype Waiting = Waiting(forDependencies: bool, superseded: bool, mayRestart: bool)

  /** What the keyword tests find in a task's title, goal, scope, role and milestone. */
  datatype Lane = Lane(validation: bool, fix: bool, retry: bool)

  datatype Task = Task(id: int, status: Status, dependencies: seq<int>, agent: int, priority: int,
                       failures: int, waiting: Waiting, lane: Lane)

  datatype AgentStatus =
    | AgentIdle | AgentWaiting | AgentDone | AgentStopped | AgentRetired
    | OtherAgentStatus(name: string)

  datatype Agent = Agent(id: int, status: AgentStatus, currentTask: Option<int>)

  /** One poll of the server. `pending` says whether a decision or an approval is pending. */
  datatype Snapshot = Snapshot(tasks: seq<Task>, agents: seq<Agent>, events: nat, pending: bool)

  predicate Busy(a: Agent) { a.status.OtherAgentStatus? || a.currentTask.Some? }

  predicate AnyBusy(agents: seq<Agent>) { exists i :: 0 <= i < |agents| && Busy(agents[i]) }

  function FindAgent(agents: seq<Agent>, id: int): Option<Agent> {
    if agents == [] then None
    else if agents[0].id == id then Some(agents[0])
    else FindAgent(agents[1..], id)
  }

  function FindTask(tasks: seq<Task>, id: int): Option<Task> {
    if tasks == [] then None
    else if tasks[0].id == id then Some(tasks[0])
    else FindTask(tasks[1..], id)
  }

  predicate WorksOn(a: Agent, task: int) { (if a.currentTask.Some? then a.currentTask.value else 0) == task && Busy(a) }

  predicate HasLiveAgent(t: Task, agents: seq<Agent>) {
    t.id > 0 && t.agent > 0 && (
      var a := FindAgent(agents, t.agent);
      a.Some? && WorksOn(a.value, t.id))
  }

  /** An agent with this status lets its task go. */
  predicate LetsGo(s: AgentStatus) { s.AgentIdle? || s.AgentWaiting? || s.AgentDone? || s.AgentStopped? }

  predicate CanRelaunch(t: Task, agents: seq<Agent>) {
    if t.agent <= 0 then true
    else if agents == [] then false
    else
      var a := FindAgent(agents, t.agent);
      if a.None? then true
      else !HasLiveAgent(t, agents) && LetsGo(a.value.status)
  }

  // ---------- Statuses and dependencies ----------

  /** The statuses by task; of two tasks with one identifier the later counts. */
  function Statuses(tasks: seq<Task>): map<int, Status> {
    if tasks == [] then map[] else Statuses(tasks[..|tasks| - 1])[tasks[|tasks| - 1].id := tasks[|tasks| - 1].status]
  }

  predicate DependenciesDone(t: Task, statuses: map<int, Status>) {
    forall i :: 0 <= i < |t.dependencies| ==> t.dependencies[i] in statuses && Finished(statuses[t.dependencies[i]])
  }

  /** The task is being executed; without statuses, dependencies are not looked at. */
  predicate Active(t: Task, statuses: Option<map<int, Status>>, agents: seq<Agent>) {
    || t.status.Working?
    || (t.status.Assigned? && HasLiveAgent(t, agents) && !t.waiting.forDependencies
        && (statuses.Some? ==> DependenciesDone(t, statuses.value)))
  }

  predicate AnyActive(tasks: seq<Task>, statuses: Option<map<int, Status>>, agents: seq<Agent>) {
    exists i :: 0 <= i < |tasks| && Active(tasks[i], statuses, agents)
  }

  /** A task of the snapshot is being executed. */
  predicate Executing(snap: Snapshot) { AnyActive(snap.tasks, Some(Statuses(snap.tasks)), snap.agents) }

  predicate AllTerminal(tasks: seq<Task>) { forall i :: 0 <= i < |tasks| ==> Terminal(tasks[i].status) }

  // ---------- Which tasks to start ----------

  predicate Restartable(t: Task, started: set<int>) {
    if t.id <= 0 || t.id !in started then true
    else if (t.status.Backlog? || t.status.Assigned?) && t.agent == 0 then true
    else if t.failures > 0 then true
    else if !Startable(t.status) then false
    else t.waiting.mayRestart
  }

  predicate Candidate(t: Task, statuses: map<int, Status>, started: set<int>, agents: seq<Agent>) {
    && (Startable(t.status) || (t.status.Assigned? && CanRelaunch(t, agents)))
    && Restartable(t, started)
    && DependenciesDone(t, statuses)
    && !t.waiting.superseded
  }

  function Rank(s: Status): nat {
    match s
    case Backlog => 0
    case Assigned => 1
    case WaitingOnPaths => 2
    case _ => 3
  }

  /** The order in which candidates are tried. */
  predicate Before(t: Task, u: Task) {
    || Rank(t.status) < Rank(u.status)
    || (Rank(t.status) == Rank(u.status)
        && (t.priority < u.priority || (t.priority == u.priority && t.id <= u.id)))
  }

  function Filter(ts: seq<Task>, statuses: map<int, Status>, started: set<int>, agents: seq<Agent>): seq<Task> {
    if ts == [] then []
    else (if Candidate(ts[0], statuses, started, agents) then [ts[0]] else []) + Filter(ts[1..], statuses, started, agents)
  }

  /** `_collect_startable_tasks` */
  function Candidates(snap: Snapshot, started: set<int>): seq<Task> {
    Sorting.Sort(Filter(snap.tasks, Statuses(snap.tasks), started, snap.agents), Before)
  }

  predicate Sorted(ts: seq<Task>) { Sorting.Sorted(ts, Before) }

  lemma BeforeOrders()
    ensures Sorting.Orders(Before)
  {
  }

  lemma {:induction false} FilterFacts(ts: seq<Task>, statuses: map<int, Status>, started: set<int>, agents: seq<Agent>)
    ensures forall t :: t in Filter(ts, statuses, started, agents) <==> t in ts && Candidate(t, statuses, started, agents)
    ensures forall t :: multiset(Filter(ts, statuses, started, agents))[t]
                     == if Candidate(t, statuses, started, agents) then multiset(ts)[t] else 0
  {
    hide Candidate;
    if ts != [] {
      FilterFacts(ts[1..], statuses, started, agents);
      assert ts == [ts[0]] + ts[1..];
    }
  }

  /** The candidates are the tasks that may be started, each as often as it is listed, best first. */
  lemma CandidatesFacts(snap: Snapshot, started: set<int>)
    ensures Sorted(Candidates(snap, started))
    ensures forall t :: t in Candidates(snap, started) <==>
              t in snap.tasks && Candidate(t, Statuses(snap.tasks), started, snap.agents)
    ensures forall t :: multiset(Candidates(snap, started))[t]
                     == if Candidate(t, Statuses(snap.tasks), started, snap.agents) then multiset(snap.tasks)[t] else 0
  {
    hide Candidate, Before;
    var kept := Filter(snap.tasks, Statuses(snap.tasks), started, snap.agents);
    FilterFacts(snap.tasks, Statuses(snap.tasks), started, snap.agents);
    BeforeOrders();
    Sorting.SortFacts(kept, Before);
  }

  // ---------- Whether to stop, to recover, to wait ----------

  predicate Open(t: Task) { !Finished(t.status) }

  predicate FixDone(t: Task) { (t.status.Done? || t.status.Completed?) && t.lane.fix }

  predicate OnlyValidates(t: Task) { t.lane.validation || t.lane.retry }

  /** Only validation is left open and a fix is done. */
  predicate Converged(snap: Snapshot) {
    && !snap.pending
    && (exists i :: 0 <= i < |snap.tasks| && Open(snap.tasks[i]))
    && (forall i :: 0 <= i < |snap.tasks| && Open(snap.tasks[i]) ==> OnlyValidates(snap.tasks[i]))
    && (exists i :: 0 <= i < |snap.tasks| && FixDone(snap.tasks[i]))
  }

  const MAX_TRIES := 2

  predicate ShouldRecover(snap: Snapshot, tries: nat) {
    && snap.tasks != [] && !snap.pending && tries < MAX_TRIES
    && exists i :: 0 <= i < |snap.tasks| && !snap.tasks[i].status.NoStatus? && !Terminal(snap.tasks[i].status)
  }

  /** The run may go on past its time: something was seen happening lately and is still going on. */
  predicate ShouldGrace(snap: Snapshot, recent: bool) {
    !snap.pending && recent && (Executing(snap) || AnyBusy(snap.agents))
  }

  // ---------- Answers to a start request ----------

  /** A refusal: its text, and what the keyword tests find in it. */
  datatype Message = Message(text: string, dependencies: bool, superseded: bool, notStartable: bool,
                             capacity: bool, paths: bool)

  datatype Reply = Accepted | Refused(message: Message)

  /** The answer to a request, and the state that is read again after a refusal. */
  datatype Answer = Answer(reply: Reply, tasks: seq<Task>, agents: seq<Agent>)

  predicate AlreadyClaimed(id: int, tasks: seq<Task>, agents: seq<Agent>) {
    var t := FindTask(tasks, id);
    t.Some? && (
      || t.value.status.Working?
      || (t.value.status.Assigned? && HasLiveAgent(t.value, agents))
      || (t.value.agent > 0 && (
            var a := FindAgent(agents, t.value.agent);
            a.Some? && WorksOn(a.value, id))))
  }

  /** The refusal is one that passes by itself. */
  predicate Transient(m: Message, tasks: seq<Task>, agents: seq<Agent>, id: int) {
    if m.text == "" then false
    else if m.notStartable then AlreadyClaimed(id, tasks, agents)
    else if m.capacity && AnyBusy(agents) then true
    else m.paths && (AnyActive(tasks, None, agents) || AnyBusy(agents))
  }
}
