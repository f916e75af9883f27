/** services/manager.py and services/recovery.py: agents, runs, delegations and checkpoints as one state machine. A
    committed transaction is one step. A finish may be tried at any moment and for any run, so that the tasks, stops,
    child timeouts and shutdowns of the service interleave in every way. */
module Lifecycles {
  import opened Prelude

  type AgentId = nat
  type RunId = nat
  type NodeId = nat
  type Spec = nat
  type Text = string

  datatype AgentStatus = Idle | Busy | Erred

  datatype RunStatus = Queued | Running | Succeeded | Failed | Cancelled

  datatype Reason = Created | Started | Ended(status: RunStatus)

  datatype AgentRow = AgentRow(status: AgentStatus, spec: Spec)

  datatype RunRow = RunRow(agent: AgentId, status: RunStatus, output: Option<Text>, error: Option<Text>, spec: Spec)

  datatype Delegation = Delegation(parent: RunId, node: NodeId, depth: nat)

  datatype Checkpoint = Checkpoint(sequence: nat, reason: Reason, spec: Spec, status: RunStatus)

  /** What a run hands down to the runs it delegates to. */
  datatype Context = Context(depth: nat, ancestry: seq<AgentId>)

  const ROOT := Context(0, [])

  /** A live task: it has marked its run as running, or not yet. */
  datatype Task = Task(executing: bool, context: Context)

  datatype Origin = Origin(agent: AgentId, context: Context)

  /** The tables, the process's tasks, and a history of how each run was started. */
  datatype Store = Store(
    agents: map<AgentId, AgentRow>,
    runs: map<RunId, RunRow>,
    delegations: map<RunId, Delegation>,
    checkpoints: map<RunId, seq<Checkpoint>>,
    tasks: map<RunId, Task>,
    serving: bool,
    origins: map<RunId, Origin>)

  const EMPTY := Store(map[], map[], map[], map[], map[], true, map[])

  datatype Via = Via(parent: RunId, node: NodeId)

  datatype Ending = Success(output: Text) | Failure(error: Text) | Cancellation

  const INTERRUPTED: Text := "Run interrupted by application restart"

  datatype Event =
    | CreateAgent(agent: AgentId, spec: Spec)
    | UpdateAgent(agent: AgentId, spec: Spec)
    | DeleteAgent(agent: AgentId)
    | Start(run: RunId, agent: AgentId, via: Option<Via>, registered: bool)
    | MarkRunning(run: RunId)
    | Finish(run: RunId, ending: Ending)
    | TaskEnds(run: RunId)
    | Crash
    | Recover(stale: seq<RunId>)

  predicate Terminal(status: RunStatus) {
    status.Succeeded? || status.Failed? || status.Cancelled?
  }

  predicate Active(s: Store, r: RunId) {
    r in s.runs && !Terminal(s.runs[r].status)
  }

  predicate ActiveFor(s: Store, r: RunId, a: AgentId) {
    Active(s, r) && s.runs[r].agent == a
  }

  ghost predicate HasActive(s: Store, a: AgentId) {
    exists r {:trigger ActiveFor(s, r, a)} :: ActiveFor(s, r, a)
  }

  // ---------------------------------------------------------------- edits

  function MaxSequence(log: seq<Checkpoint>): nat {
    if log == [] then 0
    else
      var rest := MaxSequence(log[..|log| - 1]);
      if rest > log[|log| - 1].sequence then rest else log[|log| - 1].sequence
  }

  /** `create_checkpoint`: numbered after the largest number so far. */
  function Append(log: seq<Checkpoint>, reason: Reason, run: RunRow): seq<Checkpoint> {
    log + [Checkpoint(MaxSequence(log) + 1, reason, run.spec, run.status)]
  }

  function LogOf(s: Store, r: RunId): seq<Checkpoint> {
    if r in s.checkpoints then s.checkpoints[r] else []
  }

  /** A run's new row together with the checkpoint that reports it. */
  function Write(s: Store, r: RunId, run: RunRow, reason: Reason): Store {
    s.(runs := s.runs[r := run], checkpoints := s.checkpoints[r := Append(LogOf(s, r), reason, run)])
  }

  function SetAgent(s: Store, a: AgentId, status: AgentStatus): Store {
    if a in s.agents then s.(agents := s.agents[a := s.agents[a].(status := status)]) else s
  }

  function SetTask(s: Store, r: RunId, executing: bool): Store
    requires r in s.tasks
  {
    s.(tasks := s.tasks[r := s.tasks[r].(executing := executing)])
  }

  // ---------------------------------------------------------------- the steps

  function CreateNext(s: Store, a: AgentId, spec: Spec): Store {
    if a in s.agents then s else s.(agents := s.agents[a := AgentRow(Idle, spec)])
  }

  function UpdateNext(s: Store, a: AgentId, spec: Spec): Store {
    if a in s.agents then s.(agents := s.agents[a := s.agents[a].(spec := spec)]) else s
  }

  /** Deleting an agent deletes its runs, and with a run its checkpoints and every delegation it takes part in. */
  function Remove(s: Store, a: AgentId): Store {
    var kept := map r | r in s.runs && s.runs[r].agent != a :: s.runs[r];
    s.(agents := s.agents - {a},
       runs := kept,
       delegations := map c | c in s.delegations && c in kept && s.delegations[c].parent in kept :: s.delegations[c],
       checkpoints := map r | r in s.checkpoints && r in kept :: s.checkpoints[r])
  }

  ghost function DeleteNext(s: Store, a: AgentId): Store {
    if a !in s.agents || HasActive(s, a) then s else Remove(s, a)
  }

  /** What `TeamGraphRuntime._run_node` hands to a child of a run whose own context and agent are these. */
  function Handed(context: Context, agent: AgentId): Context {
    Context(context.depth + 1, context.ancestry + [agent])
  }

  /** The parent is executing and still has its row, its context leaves room, the child's agent is not an ancestor,
      and the node has not been delegated yet. */
  predicate MayDelegate(s: Store, maxDepth: nat, via: Via, a: AgentId) {
    && via.parent in s.tasks
    && s.tasks[via.parent].executing
    && via.parent in s.runs
    && s.tasks[via.parent].context.depth < maxDepth
    && a !in Handed(s.tasks[via.parent].context, s.runs[via.parent].agent).ancestry
    && (forall c :: c in s.delegations ==>
          !(s.delegations[c].parent == via.parent && s.delegations[c].node == via.node))
  }

  ghost predicate MayStart(s: Store, maxDepth: nat, r: RunId, a: AgentId, via: Option<Via>) {
    && r !in s.origins
    && a in s.agents
    && !HasActive(s, a)
    && (via.Some? ==> MayDelegate(s, maxDepth, via.value, a))
  }

  function ContextOf(s: Store, via: Option<Via>): Context
    requires via.Some? ==> via.value.parent in s.tasks && via.value.parent in s.runs
  {
    match via
    case None => ROOT
    case Some(v) => Handed(s.tasks[v.parent].context, s.runs[v.parent].agent)
  }

  /** A queued run of the agent, its first checkpoint, and the agent shown as running. */
  function Enrol(s: Store, r: RunId, a: AgentId, context: Context): Store
    requires a in s.agents
  {
    var run := RunRow(a, Queued, None, None, s.agents[a].spec);
    s.(agents := s.agents[a := s.agents[a].(status := Busy)],
       runs := s.runs[r := run],
       checkpoints := s.checkpoints[r := Append([], Created, run)],
       origins := s.origins[r := Origin(a, context)])
  }

  function Delegate(s: Store, c: RunId, via: Via, depth: nat): Store {
    s.(delegations := s.delegations[c := Delegation(via.parent, via.node, depth)])
  }

  function Register(s: Store, r: RunId, context: Context): Store {
    s.(tasks := s.tasks[r := Task(false, context)])
  }

  /** `_start_run`: one transaction, and then a task unless the caller is cancelled in between. */
  function Admit(s: Store, r: RunId, a: AgentId, via: Option<Via>, registered: bool): Store
    requires a in s.agents
    requires via.Some? ==> via.value.parent in s.tasks && via.value.parent in s.runs
  {
    var context := ContextOf(s, via);
    var enrolled := Enrol(s, r, a, context);
    var delegated := if via.Some? then Delegate(enrolled, r, via.value, context.depth) else enrolled;
    if registered then Register(delegated, r, context) else delegated
  }

  ghost function StartNext(s: Store, maxDepth: nat, r: RunId, a: AgentId, via: Option<Via>, registered: bool): Store {
    if MayStart(s, maxDepth, r, a, via) then Admit(s, r, a, via, registered) else s
  }

  /** `_mark_running`, which each task calls once; it does nothing for a run that is no longer active. */
  function MarkNext(s: Store, r: RunId): Store {
    if r !in s.tasks || s.tasks[r].executing || !Active(s, r) then s
    else SetTask(Write(s, r, s.runs[r].(status := Running), Started), r, true)
  }

  function Final(run: RunRow, ending: Ending): RunRow {
    match ending
    case Success(output) => run.(status := Succeeded, output := Some(output))
    case Failure(error) => run.(status := Failed, error := Some(error))
    case Cancellation => run.(status := Cancelled)
  }

  /** `_finish_succeeded`, `_finish_failed`, `_finish_cancelled`: the first one to come decides. Only the run's own
      task can succeed it. */
  function FinishNext(s: Store, r: RunId, ending: Ending): Store {
    if !Active(s, r) || (ending.Success? && !(r in s.tasks && s.tasks[r].executing)) then s
    else
      var run := Final(s.runs[r], ending);
      SetAgent(Write(s, r, run, Ended(run.status)), run.agent, if ending.Failure? then Erred else Idle)
  }

  /** The row a run is left with, and how its agent is shown; every other row and agent is as before. */
  ghost predicate LeftAs(s: Store, s': Store, r: RunId, run: RunRow, status: AgentStatus)
    requires r in s.runs
  {
    && s'.runs == s.runs[r := run]
    && s.runs[r].agent in s.agents
    && s'.agents == s.agents[s.runs[r].agent := AgentRow(status, s.agents[s.runs[r].agent].spec)]
    && s'.tasks == s.tasks
    && s'.delegations == s.delegations
  }

  /** A success stores the output and a failure its error; only a failure shows on the agent. */
  ghost predicate FinishedAs(s: Store, s': Store, r: RunId, ending: Ending)
    requires r in s.runs
  {
    match ending
    case Success(output) => LeftAs(s, s', r, s.runs[r].(status := Succeeded, output := Some(output)), Idle)
    case Failure(error) => LeftAs(s, s', r, s.runs[r].(status := Failed, error := Some(error)), Erred)
    case Cancellation => LeftAs(s, s', r, s.runs[r].(status := Cancelled), Idle)
  }

  lemma FinishLeaves(s: Store, maxDepth: nat, r: RunId, ending: Ending)
    requires Sound(s, maxDepth) && Active(s, r)
    requires ending.Success? ==> r in s.tasks && s.tasks[r].executing
    ensures FinishedAs(s, FinishNext(s, r, ending), r, ending)
  {
    hide OneActive, BusyIfActive, TasksOk, DelegationsOk, LogOk, Append, LogOf;
    assert RunOk(s, r);
  }

  function EndTask(s: Store, r: RunId): Store {
    s.(tasks := s.tasks - {r})
  }

  function CrashNext(s: Store): Store {
    s.(tasks := map[], serving := false)
  }

  /** `recover_stale_runs`: every run the restart finds active fails. */
  function FailAll(s: Store, stale: seq<RunId>): Store {
    if stale == [] then s
    else FinishNext(FailAll(s, stale[..|stale| - 1]), stale[|stale| - 1], Failure(INTERRUPTED))
  }

  ghost predicate ListsActive(s: Store, stale: seq<RunId>) {
    Distinct(stale) && (forall r :: r in stale <==> Active(s, r))
  }

  function RecoverNext(s: Store, stale: seq<RunId>): Store {
    FailAll(s, stale).(serving := true)
  }

  /** Between a crash and the end of recovery nothing else runs. */
  ghost function Next(s: Store, maxDepth: nat, e: Event): Store {
    if e.Recover? then
      if !s.serving && ListsActive(s, e.stale) then RecoverNext(s, e.stale) else s
    else if !s.serving then s
    else
      match e
      case CreateAgent(a, spec) => CreateNext(s, a, spec)
      case UpdateAgent(a, spec) => UpdateNext(s, a, spec)
      case DeleteAgent(a) => DeleteNext(s, a)
      case Start(r, a, via, registered) => StartNext(s, maxDepth, r, a, via, registered)
      case MarkRunning(r) => MarkNext(s, r)
      case Finish(r, ending) => FinishNext(s, r, ending)
      case TaskEnds(r) => EndTask(s, r)
      case Crash => CrashNext(s)
      case Recover(_) => s
  }

  // ---------------------------------------------------------------- what stays true

  /** At most one active run per agent. */
  ghost predicate OneActive(s: Store) {
    forall q, r :: Active(s, q) && Active(s, r) && s.runs[q].agent == s.runs[r].agent ==> q == r
  }

  /** An agent is shown as running exactly when it has an active run. */
  ghost predicate BusyIfActive(s: Store) {
    forall a :: a in s.agents ==> (s.agents[a].status.Busy? <==> HasActive(s, a))
  }

  ghost predicate Reports(c: Checkpoint) {
    match c.reason
    case Created => c.status.Queued?
    case Started => c.status.Running?
    case Ended(status) => Terminal(status) && c.status == status
  }

  /** Numbered 1..n, of the run's own spec, each status what its reason says; created first, then perhaps running, and
      an end exactly when the run has ended. */
  ghost predicate LogOk(log: seq<Checkpoint>, run: RunRow) {
    && 1 <= |log| <= 3
    && (forall i :: 0 <= i < |log| ==> log[i].sequence == i + 1 && log[i].spec == run.spec && Reports(log[i]))
    && log[|log| - 1].status == run.status
    && log[0].reason.Created?
    && (|log| == 2 ==> log[1].reason.Started? || (log[1].reason.Ended? && !run.status.Succeeded?))
    && (|log| == 3 ==> log[1].reason.Started? && log[2].reason.Ended?)
  }

  ghost predicate RunOk(s: Store, r: RunId)
    requires r in s.runs
  {
    && s.runs[r].agent in s.agents
    && r in s.origins
    && s.origins[r].agent == s.runs[r].agent
    && r in s.checkpoints
    && LogOk(s.checkpoints[r], s.runs[r])
    && (s.runs[r].output.Some? <==> s.runs[r].status.Succeeded?)
    && (s.runs[r].error.Some? <==> s.runs[r].status.Failed?)
  }

  ghost predicate RunsOk(s: Store) {
    s.runs.Keys == s.checkpoints.Keys && forall r :: r in s.runs ==> RunOk(s, r)
  }

  /** A task has its run's context, and the run's status shows how far it got. */
  ghost predicate TaskOk(s: Store, r: RunId)
    requires r in s.tasks
  {
    && r in s.origins
    && s.tasks[r].context == s.origins[r].context
    && (r in s.runs ==> if s.tasks[r].executing then !s.runs[r].status.Queued? else !s.runs[r].status.Running?)
  }

  ghost predicate TasksOk(s: Store) {
    (forall r :: r in s.tasks ==> TaskOk(s, r)) && (!s.serving ==> s.tasks == map[])
  }

  /** A child was started with what its parent handed down, and its agent is not among its ancestors. */
  ghost predicate DelegationOk(s: Store, maxDepth: nat, c: RunId)
    requires c in s.delegations
  {
    var d := s.delegations[c];
    && c in s.runs && d.parent in s.runs
    && c in s.origins && d.parent in s.origins
    && s.origins[c].context == Handed(s.origins[d.parent].context, s.origins[d.parent].agent)
    && d.depth == s.origins[c].context.depth <= maxDepth
    && s.origins[c].agent !in s.origins[c].context.ancestry
  }

  ghost predicate DelegationsOk(s: Store, maxDepth: nat) {
    && (forall c :: c in s.delegations ==> DelegationOk(s, maxDepth, c))
    && (forall b, c ::
          && b in s.delegations && c in s.delegations
          && s.delegations[b].parent == s.delegations[c].parent
          && s.delegations[b].node == s.delegations[c].node
          ==> b == c)
  }

  ghost predicate Sound(s: Store, maxDepth: nat) {
    OneActive(s) && BusyIfActive(s) && RunsOk(s) && TasksOk(s) && DelegationsOk(s, maxDepth)
  }

  // ---------------------------------------------------------------- what does not change keeps its property

  lemma OneActiveFrame(s: Store, s': Store)
    requires OneActive(s)
    requires forall r :: Active(s', r) ==> Active(s, r) && s'.runs[r].agent == s.runs[r].agent
    ensures OneActive(s')
  {
  }

  ghost predicate SameActive(s: Store, s': Store) {
    forall r, a :: ActiveFor(s', r, a) <==> ActiveFor(s, r, a)
  }

  lemma HasActiveFrame(s: Store, s': Store, a: AgentId)
    requires forall r :: ActiveFor(s', r, a) <==> ActiveFor(s, r, a)
    ensures HasActive(s', a) <==> HasActive(s, a)
  {
    if HasActive(s, a) {
      var r :| ActiveFor(s, r, a);
      assert ActiveFor(s', r, a);
    }
    if HasActive(s', a) {
      var r :| ActiveFor(s', r, a);
      assert ActiveFor(s, r, a);
    }
  }

  lemma BusyFrame(s: Store, s': Store)
    requires BusyIfActive(s) && SameActive(s, s')
    requires forall a :: a in s'.agents ==> a in s.agents && s'.agents[a].status == s.agents[a].status
    ensures BusyIfActive(s')
  {
    forall a | a in s'.agents
      ensures s'.agents[a].status.Busy? <==> HasActive(s', a)
    {
      HasActiveFrame(s, s', a);
      hide HasActive, ActiveFor, SameActive;
    }
  }

  lemma RunsFrame(s: Store, s': Store)
    requires RunsOk(s)
    requires s'.runs == s.runs && s'.checkpoints == s.checkpoints && s'.origins == s.origins
    requires forall r :: r in s.runs ==> s.runs[r].agent in s'.agents
    ensures RunsOk(s')
  {
    hide LogOk;
    forall r | r in s'.runs
      ensures RunOk(s', r)
    {
      assert RunOk(s, r);
    }
  }

  lemma TasksFrame(s: Store, s': Store)
    requires TasksOk(s)
    requires s'.tasks == s.tasks && s'.serving == s.serving
    requires s'.origins == s.origins
    requires forall r :: r in s'.runs ==>
               r in s.runs && (s'.runs[r].status == s.runs[r].status || Terminal(s'.runs[r].status))
    ensures TasksOk(s')
  {
    forall r | r in s'.tasks
      ensures TaskOk(s', r)
    {
      assert TaskOk(s, r);
    }
  }

  lemma DelegationsFrame(s: Store, s': Store, maxDepth: nat)
    requires DelegationsOk(s, maxDepth)
    requires s'.delegations == s.delegations && s'.origins == s.origins && s'.runs.Keys == s.runs.Keys
    ensures DelegationsOk(s', maxDepth)
  {
    forall c | c in s'.delegations
      ensures DelegationOk(s', maxDepth, c)
    {
      assert DelegationOk(s, maxDepth, c);
    }
  }

  // ---------------------------------------------------------------- agents

  lemma SoundCreate(s: Store, maxDepth: nat, a: AgentId, spec: Spec)
    requires Sound(s, maxDepth)
    ensures Sound(CreateNext(s, a, spec), maxDepth)
  {
    hide OneActive, TasksOk, DelegationsOk, BusyIfActive, RunsOk;
    if a !in s.agents {
      var s' := CreateNext(s, a, spec);
      OneActiveFrame(s, s');
      BusyAfterCreate(s, a, spec);
      AgentsExist(s);
      RunsFrame(s, s');
      TasksFrame(s, s');
      DelegationsFrame(s, s', maxDepth);
    }
  }

  lemma AgentsExist(s: Store)
    requires RunsOk(s)
    ensures forall r :: r in s.runs ==> s.runs[r].agent in s.agents
  {
    forall r | r in s.runs
      ensures s.runs[r].agent in s.agents
    {
      assert RunOk(s, r);
    }
  }

  lemma BusyAfterCreate(s: Store, a: AgentId, spec: Spec)
    requires BusyIfActive(s) && RunsOk(s) && a !in s.agents
    ensures BusyIfActive(CreateNext(s, a, spec))
  {
    hide RunsOk;
    var s' := CreateNext(s, a, spec);
    AgentsExist(s);
    forall b | b in s'.agents
      ensures s'.agents[b].status.Busy? <==> HasActive(s', b)
    {
      HasActiveFrame(s, s', b);
    }
  }

  lemma SoundUpdate(s: Store, maxDepth: nat, a: AgentId, spec: Spec)
    requires Sound(s, maxDepth)
    ensures Sound(UpdateNext(s, a, spec), maxDepth)
  {
    hide OneActive, TasksOk, DelegationsOk, BusyIfActive, RunsOk;
    if a in s.agents {
      var s' := UpdateNext(s, a, spec);
      OneActiveFrame(s, s');
      BusyFrame(s, s');
      AgentsExist(s);
      RunsFrame(s, s');
      TasksFrame(s, s');
      DelegationsFrame(s, s', maxDepth);
    }
  }

  lemma SoundRemove(s: Store, maxDepth: nat, a: AgentId)
    requires Sound(s, maxDepth) && !HasActive(s, a)
    ensures Sound(Remove(s, a), maxDepth)
  {
    hide OneActive, TasksOk, DelegationsOk, BusyIfActive, RunsOk, HasActive;
    var s' := Remove(s, a);
    OneActiveFrame(s, s');
    BusyAfterRemove(s, a);
    RunsAfterRemove(s, a);
    TasksFrame(s, s');
    DelegationsAfterRemove(s, maxDepth, a);
  }

  lemma BusyAfterRemove(s: Store, a: AgentId)
    requires BusyIfActive(s)
    ensures BusyIfActive(Remove(s, a))
  {
    var s' := Remove(s, a);
    forall b | b in s'.agents
      ensures s'.agents[b].status.Busy? <==> HasActive(s', b)
    {
      HasActiveFrame(s, s', b);
    }
  }

  lemma RunsAfterRemove(s: Store, a: AgentId)
    requires RunsOk(s)
    ensures RunsOk(Remove(s, a))
  {
    hide LogOk;
    var s' := Remove(s, a);
    assert s'.checkpoints.Keys == s'.runs.Keys;
    forall r | r in s'.runs
      ensures RunOk(s', r)
    {
      assert RunOk(s, r);
    }
  }

  lemma DelegationsAfterRemove(s: Store, maxDepth: nat, a: AgentId)
    requires DelegationsOk(s, maxDepth)
    ensures DelegationsOk(Remove(s, a), maxDepth)
  {
    var s' := Remove(s, a);
    forall c | c in s'.delegations
      ensures DelegationOk(s', maxDepth, c)
    {
      assert DelegationOk(s, maxDepth, c);
    }
  }

  // ---------------------------------------------------------------- starting

  lemma Fresh(s: Store, maxDepth: nat, r: RunId)
    requires Sound(s, maxDepth) && r !in s.origins
    ensures r !in s.runs && r !in s.checkpoints && r !in s.tasks && r !in s.delegations
    ensures forall c :: c in s.delegations ==> s.delegations[c].parent != r
  {
    hide OneActive, BusyIfActive, LogOk;
    assert r in s.runs ==> RunOk(s, r);
    assert r in s.tasks ==> TaskOk(s, r);
    assert forall c :: c in s.delegations ==> DelegationOk(s, maxDepth, c);
  }

  lemma SoundEnrol(s: Store, maxDepth: nat, r: RunId, a: AgentId, context: Context)
    requires Sound(s, maxDepth) && r !in s.origins && a in s.agents && !HasActive(s, a)
    ensures Sound(Enrol(s, r, a, context), maxDepth)
  {
    hide OneActive, TasksOk, DelegationsOk, BusyIfActive, RunsOk, HasActive, Enrol;
    Fresh(s, maxDepth, r);
    EnrolOneActive(s, r, a, context);
    EnrolBusy(s, r, a, context);
    EnrolRuns(s, r, a, context);
    EnrolTasks(s, r, a, context);
    EnrolDelegations(s, maxDepth, r, a, context);
  }

  lemma EnrolOneActive(s: Store, r: RunId, a: AgentId, context: Context)
    requires OneActive(s) && r !in s.runs && a in s.agents && !HasActive(s, a)
    ensures OneActive(Enrol(s, r, a, context))
  {
    var s' := Enrol(s, r, a, context);
    assert forall q :: Active(s, q) && s.runs[q].agent == a ==> ActiveFor(s, q, a);
    hide HasActive;
    assert forall q :: Active(s', q) && q != r ==> Active(s, q) && s'.runs[q] == s.runs[q];
  }

  lemma EnrolBusy(s: Store, r: RunId, a: AgentId, context: Context)
    requires BusyIfActive(s) && r !in s.runs && a in s.agents
    ensures BusyIfActive(Enrol(s, r, a, context))
  {
    var s' := Enrol(s, r, a, context);
    assert ActiveFor(s', r, a);
    forall b | b in s'.agents && b != a
      ensures s'.agents[b].status.Busy? <==> HasActive(s', b)
    {
      HasActiveFrame(s, s', b);
    }
  }

  lemma EnrolRuns(s: Store, r: RunId, a: AgentId, context: Context)
    requires RunsOk(s) && r !in s.runs && r !in s.origins && a in s.agents
    ensures RunsOk(Enrol(s, r, a, context))
  {
    hide LogOk, Append;
    var s' := Enrol(s, r, a, context);
    assert s'.runs.Keys == s.runs.Keys + {r} && s'.checkpoints.Keys == s.checkpoints.Keys + {r};
    FirstCheckpoint(s'.runs[r]);
    forall q | q in s'.runs
      ensures RunOk(s', q)
    {
      if q != r {
        assert RunOk(s, q);
      }
    }
  }

  lemma FirstCheckpoint(run: RunRow)
    requires run.status.Queued?
    ensures LogOk(Append([], Created, run), run)
  {
  }

  lemma EnrolTasks(s: Store, r: RunId, a: AgentId, context: Context)
    requires TasksOk(s) && r !in s.tasks && a in s.agents
    ensures TasksOk(Enrol(s, r, a, context))
  {
    var s' := Enrol(s, r, a, context);
    forall q | q in s'.tasks
      ensures TaskOk(s', q)
    {
      assert TaskOk(s, q);
    }
  }

  lemma EnrolDelegations(s: Store, maxDepth: nat, r: RunId, a: AgentId, context: Context)
    requires DelegationsOk(s, maxDepth) && r !in s.origins && a in s.agents
    ensures DelegationsOk(Enrol(s, r, a, context), maxDepth)
  {
    var s' := Enrol(s, r, a, context);
    forall c | c in s'.delegations
      ensures DelegationOk(s', maxDepth, c)
    {
      assert DelegationOk(s, maxDepth, c);
    }
  }

  lemma SoundDelegate(s: Store, maxDepth: nat, c: RunId, via: Via)
    requires Sound(s, maxDepth) && c in s.runs && c in s.origins && c !in s.delegations
    requires via.parent in s.runs && via.parent in s.origins
    requires s.origins[c].context == Handed(s.origins[via.parent].context, s.origins[via.parent].agent)
    requires s.origins[c].context.depth <= maxDepth
    requires s.origins[c].agent !in s.origins[c].context.ancestry
    requires forall b :: b in s.delegations ==>
               !(s.delegations[b].parent == via.parent && s.delegations[b].node == via.node)
    ensures Sound(Delegate(s, c, via, s.origins[c].context.depth), maxDepth)
  {
    hide OneActive, TasksOk, BusyIfActive, RunsOk;
    var s' := Delegate(s, c, via, s.origins[c].context.depth);
    DelegateDelegations(s, maxDepth, c, via);
    hide DelegationsOk;
    OneActiveFrame(s, s');
    BusyFrame(s, s');
    AgentsExist(s);
    RunsFrame(s, s');
    TasksFrame(s, s');
  }

  lemma DelegateDelegations(s: Store, maxDepth: nat, c: RunId, via: Via)
    requires DelegationsOk(s, maxDepth) && c in s.runs && c in s.origins && c !in s.delegations
    requires via.parent in s.runs && via.parent in s.origins
    requires s.origins[c].context == Handed(s.origins[via.parent].context, s.origins[via.parent].agent)
    requires s.origins[c].context.depth <= maxDepth
    requires s.origins[c].agent !in s.origins[c].context.ancestry
    requires forall b :: b in s.delegations ==>
               !(s.delegations[b].parent == via.parent && s.delegations[b].node == via.node)
    ensures DelegationsOk(Delegate(s, c, via, s.origins[c].context.depth), maxDepth)
  {
    hide Handed;
    var s' := Delegate(s, c, via, s.origins[c].context.depth);
    forall b | b in s'.delegations
      ensures DelegationOk(s', maxDepth, b)
    {
      if b != c {
        assert DelegationOk(s, maxDepth, b);
      }
    }
  }

  lemma SoundRegister(s: Store, maxDepth: nat, r: RunId)
    requires Sound(s, maxDepth) && s.serving && r in s.origins
    requires r in s.runs ==> s.runs[r].status.Queued?
    ensures Sound(Register(s, r, s.origins[r].context), maxDepth)
  {
    hide OneActive, DelegationsOk, BusyIfActive, RunsOk;
    var s' := Register(s, r, s.origins[r].context);
    RegisterTasks(s, r);
    hide TasksOk;
    OneActiveFrame(s, s');
    BusyFrame(s, s');
    AgentsExist(s);
    RunsFrame(s, s');
    DelegationsFrame(s, s', maxDepth);
  }

  lemma RegisterTasks(s: Store, r: RunId)
    requires TasksOk(s) && s.serving && r in s.origins
    requires r in s.runs ==> s.runs[r].status.Queued?
    ensures TasksOk(Register(s, r, s.origins[r].context))
  {
    var s' := Register(s, r, s.origins[r].context);
    forall q | q in s'.tasks
      ensures TaskOk(s', q)
    {
      assert q != r ==> TaskOk(s, q);
    }
  }

  /** A run that may delegate has the context and the agent it was started with. */
  lemma ParentIsKnown(s: Store, maxDepth: nat, p: RunId)
    requires Sound(s, maxDepth) && p in s.runs && p in s.tasks
    ensures p in s.origins
    ensures s.tasks[p].context == s.origins[p].context && s.runs[p].agent == s.origins[p].agent
  {
    hide OneActive, BusyIfActive, DelegationsOk, LogOk;
    assert TaskOk(s, p);
    assert RunOk(s, p);
  }

  lemma SoundAdmit(s: Store, maxDepth: nat, r: RunId, a: AgentId, via: Option<Via>, registered: bool)
    requires Sound(s, maxDepth) && MayStart(s, maxDepth, r, a, via) && s.serving
    requires via.Some? ==> via.value.parent in s.tasks && via.value.parent in s.runs
    ensures Sound(Admit(s, r, a, via, registered), maxDepth)
  {
    hide Sound, HasActive;
    var context := ContextOf(s, via);
    Fresh(s, maxDepth, r);
    SoundEnrol(s, maxDepth, r, a, context);
    var enrolled := Enrol(s, r, a, context);
    var delegated := if via.Some? then Delegate(enrolled, r, via.value, context.depth) else enrolled;
    if via.Some? {
      ParentIsKnown(s, maxDepth, via.value.parent);
      SoundDelegate(enrolled, maxDepth, r, via.value);
    }
    if registered {
      SoundRegister(delegated, maxDepth, r);
    }
  }

  // ---------------------------------------------------------------- a run's log

  lemma {:induction false} Numbered(log: seq<Checkpoint>)
    requires forall i :: 0 <= i < |log| ==> log[i].sequence == i + 1
    ensures MaxSequence(log) == |log|
  {
    if log != [] {
      Numbered(log[..|log| - 1]);
    }
  }

  lemma LogStarts(log: seq<Checkpoint>, run: RunRow)
    requires LogOk(log, run) && run.status.Queued?
    ensures LogOk(Append(log, Started, run.(status := Running)), run.(status := Running))
  {
    Numbered(log);
    hide MaxSequence;
    assert Reports(log[|log| - 1]);
  }

  lemma LogEnds(log: seq<Checkpoint>, run: RunRow, ending: Ending)
    requires LogOk(log, run) && !Terminal(run.status) && (ending.Success? ==> run.status.Running?)
    ensures LogOk(Append(log, Ended(Final(run, ending).status), Final(run, ending)), Final(run, ending))
  {
    Numbered(log);
    hide MaxSequence;
    assert Reports(log[|log| - 1]);
  }

  lemma WriteRuns(s: Store, r: RunId, run: RunRow, reason: Reason)
    requires RunsOk(s) && r in s.runs && run.agent == s.runs[r].agent
    requires LogOk(Append(LogOf(s, r), reason, run), run)
    requires run.output.Some? <==> run.status.Succeeded?
    requires run.error.Some? <==> run.status.Failed?
    ensures RunsOk(Write(s, r, run, reason))
  {
    hide LogOk, Append;
    var s' := Write(s, r, run, reason);
    assert s'.runs.Keys == s'.checkpoints.Keys;
    forall q | q in s'.runs
      ensures RunOk(s', q)
    {
      assert RunOk(s, q);
    }
  }

  // ---------------------------------------------------------------- running

  lemma SoundMark(s: Store, maxDepth: nat, r: RunId)
    requires Sound(s, maxDepth)
    ensures Sound(MarkNext(s, r), maxDepth)
  {
    hide OneActive, TasksOk, DelegationsOk, BusyIfActive, RunsOk, Append;
    if r in s.tasks && !s.tasks[r].executing && Active(s, r) {
      var run := s.runs[r].(status := Running);
      var written := Write(s, r, run, Started);
      var s' := SetTask(written, r, true);
      OneActiveFrame(s, s');
      BusyFrame(s, s');
      MarkRuns(s, r);
      AgentsExist(written);
      RunsFrame(written, s');
      MarkTasks(s, r);
      DelegationsFrame(s, s', maxDepth);
    }
  }

  lemma MarkRuns(s: Store, r: RunId)
    requires RunsOk(s) && TasksOk(s) && r in s.tasks && !s.tasks[r].executing && Active(s, r)
    ensures RunsOk(Write(s, r, s.runs[r].(status := Running), Started))
  {
    assert RunOk(s, r);
    assert TaskOk(s, r);
    hide LogOk, RunsOk, TasksOk, Write;
    LogStarts(LogOf(s, r), s.runs[r]);
    WriteRuns(s, r, s.runs[r].(status := Running), Started);
  }

  lemma MarkTasks(s: Store, r: RunId)
    requires TasksOk(s) && r in s.tasks && r in s.runs
    ensures TasksOk(SetTask(Write(s, r, s.runs[r].(status := Running), Started), r, true))
  {
    hide Append;
    var s' := SetTask(Write(s, r, s.runs[r].(status := Running), Started), r, true);
    forall q | q in s'.tasks
      ensures TaskOk(s', q)
    {
      assert TaskOk(s, q);
    }
  }

  /** An active run's row is replaced by an ended one. */
  ghost predicate Ends(s: Store, s': Store, r: RunId) {
    && s' == s.(agents := s'.agents, runs := s'.runs, checkpoints := s'.checkpoints)
    && s'.runs.Keys == s.runs.Keys
    && s'.agents.Keys == s.agents.Keys
    && (forall q :: q in s.runs && q != r ==> s'.runs[q] == s.runs[q])
    && (r in s.runs ==> s'.runs[r].agent == s.runs[r].agent && Terminal(s'.runs[r].status))
  }

  lemma FinishEnds(s: Store, r: RunId, run: RunRow, status: AgentStatus)
    requires r in s.runs && run.agent == s.runs[r].agent && Terminal(run.status)
    ensures Ends(s, SetAgent(Write(s, r, run, Ended(run.status)), run.agent, status), r)
  {
    hide Append;
  }

  lemma EndsKeeps(s: Store, s': Store, maxDepth: nat, r: RunId)
    requires OneActive(s) && TasksOk(s) && DelegationsOk(s, maxDepth) && Ends(s, s', r)
    ensures OneActive(s') && TasksOk(s') && DelegationsOk(s', maxDepth)
  {
    hide OneActive, TasksOk, DelegationsOk;
    OneActiveFrame(s, s');
    TasksFrame(s, s');
    DelegationsFrame(s, s', maxDepth);
  }

  lemma SoundFinish(s: Store, maxDepth: nat, r: RunId, ending: Ending)
    requires Sound(s, maxDepth)
    ensures Sound(FinishNext(s, r, ending), maxDepth)
  {
    hide OneActive, TasksOk, DelegationsOk, BusyIfActive, RunsOk, Write, SetAgent, Final, Ends;
    if Active(s, r) && (ending.Success? ==> r in s.tasks && s.tasks[r].executing) {
      var run := Final(s.runs[r], ending);
      FinalRow(s.runs[r], ending);
      FinishEnds(s, r, run, if ending.Failure? then Erred else Idle);
      EndsKeeps(s, FinishNext(s, r, ending), maxDepth, r);
      FinishBusy(s, r, run, Ended(run.status), if ending.Failure? then Erred else Idle);
      FinishRuns(s, r, ending);
      SetAgentRuns(Write(s, r, run, Ended(run.status)), run.agent, if ending.Failure? then Erred else Idle);
    }
  }

  lemma SetAgentRuns(s: Store, a: AgentId, status: AgentStatus)
    requires RunsOk(s)
    ensures RunsOk(SetAgent(s, a, status))
  {
    hide RunsOk;
    AgentsExist(s);
    RunsFrame(s, SetAgent(s, a, status));
  }

  lemma FinalRow(run: RunRow, ending: Ending)
    ensures Terminal(Final(run, ending).status) && Final(run, ending).agent == run.agent
  {
  }

  lemma FinishBusy(s: Store, r: RunId, run: RunRow, reason: Reason, status: AgentStatus)
    requires BusyIfActive(s) && OneActive(s) && Active(s, r)
    requires run.agent == s.runs[r].agent && Terminal(run.status) && !status.Busy?
    ensures BusyIfActive(SetAgent(Write(s, r, run, reason), run.agent, status))
  {
    hide Append, LogOf, OneActive, HasActive;
    var s' := SetAgent(Write(s, r, run, reason), run.agent, status);
    assert s'.runs == s.runs[r := run];
    OneEnded(s, s', r);
    forall a | a in s'.agents && a != run.agent
      ensures s'.agents[a].status.Busy? <==> HasActive(s', a)
    {
      HasActiveFrame(s, s', a);
    }
  }

  lemma OneEnded(s: Store, s': Store, r: RunId)
    requires OneActive(s) && Active(s, r) && r in s'.runs && Terminal(s'.runs[r].status)
    requires s'.runs == s.runs[r := s'.runs[r]] && s'.runs[r].agent == s.runs[r].agent
    ensures !HasActive(s', s.runs[r].agent)
  {
    assert forall q :: Active(s', q) ==> Active(s, q) && q != r;
  }

  lemma FinishRuns(s: Store, r: RunId, ending: Ending)
    requires RunsOk(s) && TasksOk(s) && Active(s, r)
    requires ending.Success? ==> r in s.tasks && s.tasks[r].executing
    ensures RunsOk(Write(s, r, Final(s.runs[r], ending), Ended(Final(s.runs[r], ending).status)))
  {
    assert RunOk(s, r);
    assert r in s.tasks ==> TaskOk(s, r);
    hide LogOk, RunsOk, TasksOk, Write;
    LogEnds(LogOf(s, r), s.runs[r], ending);
    WriteRuns(s, r, Final(s.runs[r], ending), Ended(Final(s.runs[r], ending).status));
  }

  lemma SoundEndTask(s: Store, maxDepth: nat, r: RunId)
    requires Sound(s, maxDepth)
    ensures Sound(EndTask(s, r), maxDepth) && Sound(CrashNext(s), maxDepth)
  {
    hide OneActive, DelegationsOk, BusyIfActive, RunsOk;
    FewerTasks(s, EndTask(s, r));
    FewerTasks(s, CrashNext(s));
    hide TasksOk;
    AgentsExist(s);
    OneActiveFrame(s, EndTask(s, r));
    BusyFrame(s, EndTask(s, r));
    RunsFrame(s, EndTask(s, r));
    DelegationsFrame(s, EndTask(s, r), maxDepth);
    OneActiveFrame(s, CrashNext(s));
    BusyFrame(s, CrashNext(s));
    RunsFrame(s, CrashNext(s));
    DelegationsFrame(s, CrashNext(s), maxDepth);
  }

  lemma FewerTasks(s: Store, s': Store)
    requires TasksOk(s) && s'.runs == s.runs && s'.origins == s.origins
    requires forall r :: r in s'.tasks ==> r in s.tasks && s'.tasks[r] == s.tasks[r]
    requires s'.serving == s.serving || s'.tasks == map[]
    ensures TasksOk(s')
  {
    forall r | r in s'.tasks
      ensures TaskOk(s', r)
    {
      assert TaskOk(s, r);
    }
  }

  // ---------------------------------------------------------------- restart

  lemma {:induction false} SoundFailAll(s: Store, maxDepth: nat, stale: seq<RunId>)
    requires Sound(s, maxDepth)
    ensures Sound(FailAll(s, stale), maxDepth)
  {
    hide Sound, FinishNext;
    if stale != [] {
      SoundFailAll(s, maxDepth, stale[..|stale| - 1]);
      SoundFinish(FailAll(s, stale[..|stale| - 1]), maxDepth, stale[|stale| - 1], Failure(INTERRUPTED));
    }
  }

  /** Failing a run leaves every other run's activity alone. */
  lemma FinishActive(s: Store, r: RunId, q: RunId)
    ensures Active(FinishNext(s, r, Failure(INTERRUPTED)), q) <==> Active(s, q) && q != r
  {
    hide Append;
  }

  lemma {:induction false} FailAllActive(s: Store, stale: seq<RunId>, q: RunId)
    ensures Active(FailAll(s, stale), q) <==> Active(s, q) && q !in stale
  {
    hide Active, FinishNext;
    if stale != [] {
      FailAllActive(s, stale[..|stale| - 1], q);
      FinishActive(FailAll(s, stale[..|stale| - 1]), stale[|stale| - 1], q);
      assert stale == stale[..|stale| - 1] + [stale[|stale| - 1]];
    }
  }

  lemma SoundRecover(s: Store, maxDepth: nat, stale: seq<RunId>)
    requires Sound(s, maxDepth) && !s.serving
    ensures Sound(RecoverNext(s, stale), maxDepth)
  {
    hide OneActive, DelegationsOk, BusyIfActive, RunsOk;
    SoundFailAll(s, maxDepth, stale);
    var f, s' := FailAll(s, stale), RecoverNext(s, stale);
    TasksAfterFailAll(s, stale);
    FewerTasks(f, s');
    hide TasksOk;
    AgentsExist(f);
    OneActiveFrame(f, s');
    BusyFrame(f, s');
    RunsFrame(f, s');
    DelegationsFrame(f, s', maxDepth);
  }

  lemma {:induction false} TasksAfterFailAll(s: Store, stale: seq<RunId>)
    ensures FailAll(s, stale).tasks == s.tasks && FailAll(s, stale).serving == s.serving
  {
    hide Active, Append;
    if stale != [] {
      TasksAfterFailAll(s, stale[..|stale| - 1]);
    }
  }

  // ---------------------------------------------------------------- starting and deleting, said outright

  /** The agent exists and all its runs have ended. A delegating parent is executing and still has its row, its depth
      leaves room, the agent is neither the parent's nor one above it, and no child was started for this node. */
  ghost predicate Admissible(s: Store, maxDepth: nat, a: AgentId, via: Option<Via>) {
    && a in s.agents
    && AllEnded(s, a)
    && match via
       case None => true
       case Some(Via(parent, node)) =>
         && parent in s.tasks && s.tasks[parent].executing && parent in s.runs
         && s.tasks[parent].context.depth + 1 <= maxDepth
         && a != s.runs[parent].agent
         && a !in s.tasks[parent].context.ancestry
         && !exists c :: c in s.delegations && s.delegations[c].parent == parent && s.delegations[c].node == node
  }

  ghost predicate AllEnded(s: Store, a: AgentId) {
    forall r :: r in s.runs && s.runs[r].agent == a ==> s.runs[r].status in {Succeeded, Failed, Cancelled}
  }

  lemma AllEndedExactly(s: Store, a: AgentId)
    ensures AllEnded(s, a) <==> !HasActive(s, a)
  {
    assert forall r :: r in s.runs && s.runs[r].agent == a && !Terminal(s.runs[r].status) ==> ActiveFor(s, r, a);
  }

  lemma AdmissibleExactly(s: Store, maxDepth: nat, r: RunId, a: AgentId, via: Option<Via>)
    requires r !in s.origins
    ensures MayStart(s, maxDepth, r, a, via) <==> Admissible(s, maxDepth, a, via)
  {
    hide HasActive, AllEnded;
    AllEndedExactly(s, a);
  }

  /** A queued run with its agent's spec, the agent shown as running, and a task that has not begun; of a delegation,
      the row names the parent and the node, one deeper than the parent, whose agent joins the ancestors. */
  ghost predicate StartedAs(s: Store, s': Store, r: RunId, a: AgentId, via: Option<Via>) {
    && a in s.agents
    && s'.runs == s.runs[r := RunRow(a, Queued, None, None, s.agents[a].spec)]
    && s'.agents == s.agents[a := AgentRow(Busy, s.agents[a].spec)]
    && match via
       case None => s'.delegations == s.delegations && s'.tasks == s.tasks[r := Task(false, Context(0, []))]
       case Some(Via(parent, node)) =>
         && parent in s.tasks && parent in s.runs
         && var above := s.tasks[parent].context;
         && s'.delegations == s.delegations[r := Delegation(parent, node, above.depth + 1)]
         && s'.tasks == s.tasks[r := Task(false, Context(above.depth + 1, above.ancestry + [s.runs[parent].agent]))]
  }

  lemma AdmitStarts(s: Store, maxDepth: nat, r: RunId, a: AgentId, via: Option<Via>)
    requires MayStart(s, maxDepth, r, a, via)
    requires via.Some? ==> via.value.parent in s.tasks && via.value.parent in s.runs
    ensures StartedAs(s, Admit(s, r, a, via, true), r, a, via)
  {
    hide HasActive, Append;
  }

  /** The agent, its runs, and every delegation with one of them are gone, and nothing else. */
  ghost predicate DeletedAs(s: Store, s': Store, a: AgentId) {
    && s'.agents == s.agents - {a}
    && (forall r :: r in s'.runs <==> r in s.runs && s.runs[r].agent != a)
    && (forall r :: r in s'.runs ==> s'.runs[r] == s.runs[r])
    && (forall c :: c in s'.delegations <==>
          c in s.delegations && c in s'.runs && s.delegations[c].parent in s'.runs)
    && (forall c :: c in s'.delegations ==> s'.delegations[c] == s.delegations[c])
  }

  lemma RemoveDeletes(s: Store, a: AgentId)
    ensures DeletedAs(s, Remove(s, a), a)
  {
  }

  // ---------------------------------------------------------------- every step

  /** Every step keeps the invariant. */
  lemma SoundNext(s: Store, maxDepth: nat, e: Event)
    requires Sound(s, maxDepth)
    ensures Sound(Next(s, maxDepth, e), maxDepth)
  {
    hide Sound, CreateNext, UpdateNext, Remove, Admit, MarkNext, FinishNext, EndTask, CrashNext, RecoverNext, HasActive;
    match e
    case CreateAgent(a, spec) => SoundCreate(s, maxDepth, a, spec);
    case UpdateAgent(a, spec) => SoundUpdate(s, maxDepth, a, spec);
    case DeleteAgent(a) =>
      if !HasActive(s, a) {
        SoundRemove(s, maxDepth, a);
      }
    case Start(r, a, via, registered) =>
      if MayStart(s, maxDepth, r, a, via) && s.serving {
        SoundAdmit(s, maxDepth, r, a, via, registered);
      }
    case MarkRunning(r) => SoundMark(s, maxDepth, r);
    case Finish(r, ending) => SoundFinish(s, maxDepth, r, ending);
    case TaskEnds(r) => SoundEndTask(s, maxDepth, r);
    case Crash => SoundEndTask(s, maxDepth, 0);
    case Recover(stale) =>
      if !s.serving {
        SoundRecover(s, maxDepth, stale);
      }
  }
}
