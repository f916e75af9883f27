/** What services/manager.py and services/recovery.py promise over whole histories of the lifecycle machine. */
module LifecycleRuns {
  import opened Prelude
  import opened Lifecycles
  import RunTrees

  /** The store after a history of steps. */
  ghost function Run(maxDepth: nat, events: seq<Event>): Store {
    if events == [] then EMPTY
    else Next(Run(maxDepth, events[..|events| - 1]), maxDepth, events[|events| - 1])
  }

  lemma StartsSound(maxDepth: nat)
    ensures Sound(EMPTY, maxDepth)
  {
  }

  /** The invariant holds after every history. */
  lemma {:induction false} AlwaysSound(maxDepth: nat, events: seq<Event>)
    ensures Sound(Run(maxDepth, events), maxDepth)
    decreases |events|
  {
    hide Sound, Next;
    if events == [] {
      StartsSound(maxDepth);
    } else {
      AlwaysSound(maxDepth, events[..|events| - 1]);
      SoundNext(Run(maxDepth, events[..|events| - 1]), maxDepth, events[|events| - 1]);
    }
  }

  lemma LastStep(maxDepth: nat, events: seq<Event>, k: nat)
    requires k < |events|
    ensures Run(maxDepth, events[..k + 1]) == Next(Run(maxDepth, events[..k]), maxDepth, events[k])
  {
    hide Sound, Next;
    assert events[..k + 1][..k] == events[..k];
  }

  // ---------------------------------------------------------------- one run per agent

  /** At every moment an agent has at most one active run, and is shown as running exactly when it has one. */
  lemma OneRunAtATime(maxDepth: nat, events: seq<Event>, q: RunId, r: RunId)
    ensures var s := Run(maxDepth, events);
            && (Active(s, q) && Active(s, r) && s.runs[q].agent == s.runs[r].agent ==> q == r)
            && (forall a :: a in s.agents ==> (s.agents[a].status.Busy? <==> HasActive(s, a)))
            && (Active(s, q) ==> s.runs[q].agent in s.agents && s.agents[s.runs[q].agent].status.Busy?)
  {
    hide Run, TasksOk, DelegationsOk, LogOk;
    AlwaysSound(maxDepth, events);
    var s := Run(maxDepth, events);
    if Active(s, q) {
      assert RunOk(s, q);
      assert ActiveFor(s, q, s.runs[q].agent);
    }
  }

  // ---------------------------------------------------------------- rows only grow, and end once

  /** A row keeps its agent and spec, its log is only added to, and once it has ended nothing changes. */
  ghost predicate Grows(run: RunRow, log: seq<Checkpoint>, run': RunRow, log': seq<Checkpoint>) {
    && run'.agent == run.agent
    && run'.spec == run.spec
    && log <= log'
    && (Terminal(run.status) ==> run' == run && log' == log)
  }

  ghost predicate Advances(s: Store, s': Store) {
    && (forall r :: r in s.origins ==> r in s'.origins && s'.origins[r] == s.origins[r])
    && (forall r :: r in s'.runs && r in s.origins ==>
          r in s.runs && Grows(s.runs[r], LogOf(s, r), s'.runs[r], LogOf(s', r)))
  }

  lemma AdvancesThrough(s: Store, t: Store, u: Store)
    requires Advances(s, t) && Advances(t, u)
    ensures Advances(s, u)
  {
  }

  lemma SameRowsAdvance(s: Store, s': Store)
    requires s'.runs == s.runs && s'.checkpoints == s.checkpoints && s'.origins == s.origins
    ensures Advances(s, s')
  {
  }

  lemma WriteAdvances(s: Store, r: RunId, run: RunRow, reason: Reason)
    requires Active(s, r)
    requires run.agent == s.runs[r].agent && run.spec == s.runs[r].spec
    ensures Advances(s, Write(s, r, run, reason))
  {
    hide MaxSequence;
    assert LogOf(s, r) <= Append(LogOf(s, r), reason, run);
  }

  lemma RemoveAdvances(s: Store, a: AgentId)
    ensures Advances(s, Remove(s, a))
  {
  }

  lemma EnrolAdvances(s: Store, r: RunId, a: AgentId, context: Context)
    requires r !in s.origins && a in s.agents
    requires forall q :: q in s.runs ==> q in s.origins
    ensures Advances(s, Enrol(s, r, a, context))
  {
    hide Append;
  }

  lemma RunsHaveOrigins(s: Store, maxDepth: nat)
    requires Sound(s, maxDepth)
    ensures forall q :: q in s.runs ==> q in s.origins
  {
    hide OneActive, BusyIfActive, TasksOk, DelegationsOk, LogOk;
    forall q | q in s.runs
      ensures q in s.origins
    {
      assert RunOk(s, q);
    }
  }

  lemma AdmitAdvances(s: Store, maxDepth: nat, r: RunId, a: AgentId, via: Option<Via>, registered: bool)
    requires Sound(s, maxDepth) && r !in s.origins && a in s.agents
    requires via.Some? ==> via.value.parent in s.tasks && via.value.parent in s.runs
    ensures Advances(s, Admit(s, r, a, via, registered))
  {
    hide Sound, Enrol, Advances;
    RunsHaveOrigins(s, maxDepth);
    EnrolAdvances(s, r, a, ContextOf(s, via));
    SameRowsAdvance(Enrol(s, r, a, ContextOf(s, via)), Admit(s, r, a, via, registered));
    AdvancesThrough(s, Enrol(s, r, a, ContextOf(s, via)), Admit(s, r, a, via, registered));
  }

  lemma MarkAdvances(s: Store, r: RunId)
    ensures Advances(s, MarkNext(s, r))
  {
    hide Write, Advances;
    if r in s.tasks && !s.tasks[r].executing && Active(s, r) {
      var written := Write(s, r, s.runs[r].(status := Running), Started);
      WriteAdvances(s, r, s.runs[r].(status := Running), Started);
      SameRowsAdvance(written, SetTaskIfAny(written, r));
      AdvancesThrough(s, written, SetTaskIfAny(written, r));
      WriteKeepsTasks(s, r, s.runs[r].(status := Running), Started);
    } else {
      SameRowsAdvance(s, s);
    }
  }

  ghost function SetTaskIfAny(s: Store, r: RunId): Store {
    if r in s.tasks then SetTask(s, r, true) else s
  }

  lemma WriteKeepsTasks(s: Store, r: RunId, run: RunRow, reason: Reason)
    ensures Write(s, r, run, reason).tasks == s.tasks
  {
  }

  lemma FinishAdvances(s: Store, r: RunId, ending: Ending)
    ensures Advances(s, FinishNext(s, r, ending))
  {
    hide Write, Advances;
    if Active(s, r) && (ending.Success? ==> r in s.tasks && s.tasks[r].executing) {
      var run := Final(s.runs[r], ending);
      var written := Write(s, r, run, Ended(run.status));
      WriteAdvances(s, r, run, Ended(run.status));
      SameRowsAdvance(written, FinishNext(s, r, ending));
      AdvancesThrough(s, written, FinishNext(s, r, ending));
    } else {
      SameRowsAdvance(s, s);
    }
  }

  lemma {:induction false} FailAllAdvances(s: Store, stale: seq<RunId>)
    ensures Advances(s, FailAll(s, stale))
  {
    hide Advances, FinishNext;
    if stale == [] {
      SameRowsAdvance(s, s);
    } else {
      var before := FailAll(s, stale[..|stale| - 1]);
      FailAllAdvances(s, stale[..|stale| - 1]);
      FinishAdvances(before, stale[|stale| - 1], Failure(INTERRUPTED));
      AdvancesThrough(s, before, FailAll(s, stale));
    }
  }

  lemma RecoverAdvances(s: Store, stale: seq<RunId>)
    ensures Advances(s, RecoverNext(s, stale))
  {
    hide Advances;
    FailAllAdvances(s, stale);
    SameRowsAdvance(FailAll(s, stale), RecoverNext(s, stale));
    AdvancesThrough(s, FailAll(s, stale), RecoverNext(s, stale));
  }

  lemma AdvancesNext(s: Store, maxDepth: nat, e: Event)
    requires Sound(s, maxDepth)
    ensures Advances(s, Next(s, maxDepth, e))
  {
    hide Sound, Advances, Remove, Admit, MarkNext, FinishNext, RecoverNext, HasActive;
    SameRowsAdvance(s, s);
    match e
    case CreateAgent(a, spec) => SameRowsAdvance(s, CreateNext(s, a, spec));
    case UpdateAgent(a, spec) => SameRowsAdvance(s, UpdateNext(s, a, spec));
    case DeleteAgent(a) => RemoveAdvances(s, a);
    case Start(r, a, via, registered) =>
      if MayStart(s, maxDepth, r, a, via) {
        AdmitAdvances(s, maxDepth, r, a, via, registered);
      }
    case MarkRunning(r) => MarkAdvances(s, r);
    case Finish(r, ending) => FinishAdvances(s, r, ending);
    case TaskEnds(r) => SameRowsAdvance(s, EndTask(s, r));
    case Crash => SameRowsAdvance(s, CrashNext(s));
    case Recover(stale) => RecoverAdvances(s, stale);
  }

  lemma {:induction false} HistoryAdvances(maxDepth: nat, events: seq<Event>, k: nat, m: nat)
    requires k <= m <= |events|
    ensures Advances(Run(maxDepth, events[..k]), Run(maxDepth, events[..m]))
    decreases m - k
  {
    hide Run, Sound, Next, Advances;
    if k == m {
      SameRowsAdvance(Run(maxDepth, events[..k]), Run(maxDepth, events[..k]));
    } else {
      HistoryAdvances(maxDepth, events, k, m - 1);
      LastStep(maxDepth, events, m - 1);
      AlwaysSound(maxDepth, events[..m - 1]);
      AdvancesNext(Run(maxDepth, events[..m - 1]), maxDepth, events[m - 1]);
      AdvancesThrough(Run(maxDepth, events[..k]), Run(maxDepth, events[..m - 1]), Run(maxDepth, events[..m]));
    }
  }

  /** Once a run has ended, its status, output and error stay as they are for as long as its row exists, whatever
      finishes late, stops, times out or restarts; and a deleted run does not come back. */
  lemma EndedForGood(maxDepth: nat, events: seq<Event>, k: nat, m: nat, r: RunId)
    requires k <= m <= |events| && r in Run(maxDepth, events[..k]).runs
    requires Terminal(Run(maxDepth, events[..k]).runs[r].status)
    ensures r in Run(maxDepth, events[..m]).runs ==>
              Run(maxDepth, events[..m]).runs[r] == Run(maxDepth, events[..k]).runs[r]
    ensures r !in Run(maxDepth, events[..m]).runs ==> r !in Run(maxDepth, events).runs
  {
    hide Run, Sound;
    HistoryAdvances(maxDepth, events, k, m);
    HistoryAdvances(maxDepth, events, m, |events|);
    assert events[..|events|] == events;
    AlwaysSound(maxDepth, events[..k]);
    RunsHaveOrigins(Run(maxDepth, events[..k]), maxDepth);
  }

  // ---------------------------------------------------------------- what an agent's status says

  ghost predicate EndedFor(s: Store, r: RunId, a: AgentId, failed: bool) {
    && r in s.runs && s.runs[r].agent == a && Terminal(s.runs[r].status)
    && s.runs[r].status.Failed? == failed
  }

  ghost predicate HasEnded(s: Store, a: AgentId, failed: bool) {
    exists r :: EndedFor(s, r, a, failed)
  }

  ghost predicate NoRunOf(s: Store, a: AgentId) {
    forall r :: r in s.runs ==> s.runs[r].agent != a
  }

  /** An error shows a failed run; an idle agent has never run, or a run of it succeeded or was cancelled. */
  ghost predicate ShowsRuns(s: Store, a: AgentId)
    requires a in s.agents
  {
    && (s.agents[a].status.Erred? ==> HasEnded(s, a, true))
    && (s.agents[a].status.Idle? ==> NoRunOf(s, a) || HasEnded(s, a, false))
  }

  ghost predicate AllShow(s: Store) {
    forall a :: a in s.agents ==> ShowsRuns(s, a)
  }

  /** Of this agent, the same runs have ended and none is new. */
  ghost predicate SameEnds(s: Store, s': Store, a: AgentId) {
    && (forall r, failed :: EndedFor(s, r, a, failed) ==> EndedFor(s', r, a, failed))
    && (NoRunOf(s, a) ==> NoRunOf(s', a))
  }

  lemma StillShows(s: Store, s': Store, a: AgentId)
    requires a in s.agents && a in s'.agents && s'.agents[a].status == s.agents[a].status
    requires ShowsRuns(s, a) && SameEnds(s, s', a)
    ensures ShowsRuns(s', a)
  {
    hide NoRunOf, EndedFor;
    if HasEnded(s, a, true) {
      var r :| EndedFor(s, r, a, true);
      assert EndedFor(s', r, a, true);
    }
    if HasEnded(s, a, false) {
      var r :| EndedFor(s, r, a, false);
      assert EndedFor(s', r, a, false);
    }
  }

  /** Agents whose status and runs stay the same. */
  lemma OthersStillShow(s: Store, s': Store, but: set<AgentId>)
    requires AllShow(s)
    requires forall a :: a in s'.agents && a !in but ==>
               a in s.agents && s'.agents[a].status == s.agents[a].status && SameEnds(s, s', a)
    ensures forall a :: a in s'.agents && a !in but ==> ShowsRuns(s', a)
  {
    hide ShowsRuns, SameEnds;
    forall a | a in s'.agents && a !in but
      ensures ShowsRuns(s', a)
    {
      StillShows(s, s', a);
    }
  }

  lemma CreateShows(s: Store, maxDepth: nat, a: AgentId, spec: Spec)
    requires Sound(s, maxDepth) && AllShow(s)
    ensures AllShow(CreateNext(s, a, spec))
  {
    AgentsHaveRuns(s, maxDepth);
    hide Sound, ShowsRuns, SameEnds, NoRunOf;
    if a !in s.agents {
      RunsBeside(s, CreateNext(s, a, spec), a);
      OthersStillShow(s, CreateNext(s, a, spec), {a});
      NewlyIdle(CreateNext(s, a, spec), a);
    }
  }

  lemma AgentsHaveRuns(s: Store, maxDepth: nat)
    requires Sound(s, maxDepth)
    ensures forall a, spec :: a !in s.agents ==> NoRunOf(CreateNext(s, a, spec), a)
  {
    hide OneActive, BusyIfActive, TasksOk, DelegationsOk;
    AgentsExist(s);
  }

  /** Only runs of one agent are new. */
  lemma RunsBeside(s: Store, s': Store, a: AgentId)
    requires forall r :: r in s.runs ==> r in s'.runs && s'.runs[r] == s.runs[r]
    requires forall r :: r in s'.runs && r !in s.runs ==> s'.runs[r].agent == a
    ensures forall b :: b != a ==> SameEnds(s, s', b)
  {
    hide Terminal;
  }

  lemma NewlyIdle(s: Store, a: AgentId)
    requires a in s.agents && s.agents[a].status.Idle? && NoRunOf(s, a)
    ensures ShowsRuns(s, a)
  {
  }

  lemma AdmitShows(s: Store, maxDepth: nat, r: RunId, a: AgentId, via: Option<Via>, registered: bool)
    requires Sound(s, maxDepth) && AllShow(s) && r !in s.origins && a in s.agents
    requires via.Some? ==> via.value.parent in s.tasks && via.value.parent in s.runs
    ensures AllShow(Admit(s, r, a, via, registered))
  {
    Fresh(s, maxDepth, r);
    hide Sound, ShowsRuns, Append, SameEnds, NoRunOf;
    var s' := Admit(s, r, a, via, registered);
    AdmitRows(s, r, a, via, registered);
    hide Admit;
    RunsBeside(s, s', a);
    OthersStillShow(s, s', {a});
    BusyShows(s', a);
  }

  lemma AdmitRows(s: Store, r: RunId, a: AgentId, via: Option<Via>, registered: bool)
    requires a in s.agents
    requires via.Some? ==> via.value.parent in s.tasks && via.value.parent in s.runs
    ensures var s' := Admit(s, r, a, via, registered);
            && s'.runs == s.runs[r := RunRow(a, Queued, None, None, s.agents[a].spec)]
            && s'.agents == s.agents[a := AgentRow(Busy, s.agents[a].spec)]
  {
    hide Append;
  }

  lemma BusyShows(s: Store, a: AgentId)
    requires a in s.agents && s.agents[a].status.Busy?
    ensures ShowsRuns(s, a)
  {
  }

  lemma MarkShows(s: Store, r: RunId)
    requires AllShow(s)
    ensures AllShow(MarkNext(s, r))
  {
    hide ShowsRuns, Append, LogOf;
    OthersStillShow(s, MarkNext(s, r), {});
  }

  lemma FinishShows(s: Store, maxDepth: nat, r: RunId, ending: Ending)
    requires Sound(s, maxDepth) && AllShow(s)
    ensures AllShow(FinishNext(s, r, ending))
  {
    hide Sound, ShowsRuns, FinishedAs;
    if Active(s, r) && (ending.Success? ==> r in s.tasks && s.tasks[r].executing) {
      FinishLeaves(s, maxDepth, r, ending);
      hide FinishNext;
      FinishedShows(s, FinishNext(s, r, ending), r, ending);
    }
  }

  lemma FinishedShows(s: Store, s': Store, r: RunId, ending: Ending)
    requires Active(s, r) && FinishedAs(s, s', r, ending) && AllShow(s)
    ensures AllShow(s')
  {
    hide ShowsRuns;
    OthersStillShow(s, s', {s.runs[r].agent});
    assert EndedFor(s', r, s.runs[r].agent, ending.Failure?);
    EndShows(s', s.runs[r].agent, ending.Failure?);
  }

  lemma EndShows(s: Store, a: AgentId, failed: bool)
    requires a in s.agents && s.agents[a].status == (if failed then Erred else Idle) && HasEnded(s, a, failed)
    ensures ShowsRuns(s, a)
  {
  }

  lemma {:induction false} FailAllShows(s: Store, maxDepth: nat, stale: seq<RunId>)
    requires Sound(s, maxDepth) && AllShow(s)
    ensures AllShow(FailAll(s, stale))
  {
    hide Sound, AllShow, FinishNext;
    if stale != [] {
      FailAllShows(s, maxDepth, stale[..|stale| - 1]);
      SoundFailAll(s, maxDepth, stale[..|stale| - 1]);
      FinishShows(FailAll(s, stale[..|stale| - 1]), maxDepth, stale[|stale| - 1], Failure(INTERRUPTED));
    }
  }

  lemma SameTablesShow(s: Store, s': Store)
    requires AllShow(s) && s'.runs == s.runs && s'.agents.Keys == s.agents.Keys
    requires forall a :: a in s.agents ==> s'.agents[a].status == s.agents[a].status
    ensures AllShow(s')
  {
    hide ShowsRuns;
    OthersStillShow(s, s', {});
  }

  lemma RemoveShows(s: Store, a: AgentId)
    requires AllShow(s)
    ensures AllShow(Remove(s, a))
  {
    hide ShowsRuns;
    OthersStillShow(s, Remove(s, a), {});
  }

  lemma ShowsNext(s: Store, maxDepth: nat, e: Event)
    requires Sound(s, maxDepth) && AllShow(s)
    ensures AllShow(Next(s, maxDepth, e))
  {
    hide Sound, AllShow, Remove, Admit, MarkNext, FinishNext, FailAll, HasActive;
    match e
    case CreateAgent(a, spec) => CreateShows(s, maxDepth, a, spec);
    case UpdateAgent(a, spec) => SameTablesShow(s, UpdateNext(s, a, spec));
    case DeleteAgent(a) => RemoveShows(s, a);
    case Start(r, a, via, registered) =>
      if MayStart(s, maxDepth, r, a, via) {
        AdmitShows(s, maxDepth, r, a, via, registered);
      }
    case MarkRunning(r) => MarkShows(s, r);
    case Finish(r, ending) => FinishShows(s, maxDepth, r, ending);
    case TaskEnds(r) => SameTablesShow(s, EndTask(s, r));
    case Crash => SameTablesShow(s, CrashNext(s));
    case Recover(stale) =>
      FailAllShows(s, maxDepth, stale);
      SameTablesShow(FailAll(s, stale), RecoverNext(s, stale));
  }

  lemma {:induction false} AlwaysShows(maxDepth: nat, events: seq<Event>)
    ensures AllShow(Run(maxDepth, events))
    decreases |events|
  {
    hide AllShow, Next, Sound;
    if events == [] {
      NobodyToShow();
    } else {
      AlwaysShows(maxDepth, events[..|events| - 1]);
      AlwaysSound(maxDepth, events[..|events| - 1]);
      ShowsNext(Run(maxDepth, events[..|events| - 1]), maxDepth, events[|events| - 1]);
    }
  }

  lemma NobodyToShow()
    ensures AllShow(EMPTY)
  {
  }

  /** After every history: an agent that has never failed a run is not shown with an error, and one that has failed
      every run it ever had, and has no active one, is. */
  lemma AgentShowsItsRuns(maxDepth: nat, events: seq<Event>, a: AgentId)
    requires a in Run(maxDepth, events).agents
    ensures var s := Run(maxDepth, events);
            && ((forall r :: r in s.runs && s.runs[r].agent == a ==> !s.runs[r].status.Failed?)
                ==> !s.agents[a].status.Erred?)
            && ((forall r :: r in s.runs && s.runs[r].agent == a ==> s.runs[r].status.Failed?)
                && (exists r :: r in s.runs && s.runs[r].agent == a)
                ==> s.agents[a].status.Erred?)
  {
    AlwaysShows(maxDepth, events);
    AlwaysSound(maxDepth, events);
    hide Run, OneActive, RunsOk, TasksOk, DelegationsOk;
  }

  // ---------------------------------------------------------------- the checkpoint log

  /** Whatever happened, a run's log is numbered 1..n without gaps, reads created, perhaps running, and then one end
      exactly when the run has ended, and its last entry shows the run's status. */
  lemma LogMatchesRun(maxDepth: nat, events: seq<Event>, r: RunId)
    requires r in Run(maxDepth, events).runs
    ensures var s := Run(maxDepth, events);
            && r in s.checkpoints
            && LogOk(s.checkpoints[r], s.runs[r])
            && (Terminal(s.runs[r].status) <==> exists i {:trigger s.checkpoints[r][i]} ::
                  0 <= i < |s.checkpoints[r]| && s.checkpoints[r][i].reason.Ended?)
  {
    hide Run, OneActive, BusyIfActive, TasksOk, DelegationsOk;
    AlwaysSound(maxDepth, events);
    var s := Run(maxDepth, events);
    assert RunOk(s, r);
    var log := s.checkpoints[r];
    assert Reports(log[|log| - 1]);
    assert Reports(log[0]);
  }

  lemma AdmittedSpec(s: Store, maxDepth: nat, r: RunId, a: AgentId, via: Option<Via>, registered: bool)
    requires s.serving && MayStart(s, maxDepth, r, a, via)
    ensures var s' := Next(s, maxDepth, Start(r, a, via, registered));
            r in s'.runs && s'.runs[r].agent == a && s'.runs[r].spec == s.agents[a].spec && s'.runs[r].status.Queued?
  {
    hide MayDelegate, HasActive;
  }

  /** Every entry of a run's log carries the spec its agent had when the run started, however the agent is edited
      afterwards. */
  lemma LogKeepsStartingSpec(maxDepth: nat, events: seq<Event>, k: nat, i: nat)
    requires k < |events| && events[k].Start? && Run(maxDepth, events[..k]).serving
    requires MayStart(Run(maxDepth, events[..k]), maxDepth, events[k].run, events[k].agent, events[k].via)
    requires events[k].run in Run(maxDepth, events).runs
    ensures events[k].run in Run(maxDepth, events).checkpoints
    ensures i < |Run(maxDepth, events).checkpoints[events[k].run]| ==>
              Run(maxDepth, events).checkpoints[events[k].run][i].spec
              == Run(maxDepth, events[..k]).agents[events[k].agent].spec
  {
    hide Run, Sound, Next, MayStart;
    var Start(r, a, via, registered) := events[k];
    var before := Run(maxDepth, events[..k]);
    AdmittedSpec(before, maxDepth, r, a, via, registered);
    LastStep(maxDepth, events, k);
    HistoryAdvances(maxDepth, events, k + 1, |events|);
    assert events[..|events|] == events;
    AlwaysSound(maxDepth, events[..k + 1]);
    RunsHaveOrigins(Run(maxDepth, events[..k + 1]), maxDepth);
    LogMatchesRun(maxDepth, events, r);
  }

  // ---------------------------------------------------------------- delegation

  /** Each run of the path was delegated by the one before it. */
  ghost predicate DelegationPath(s: Store, path: seq<RunId>) {
    forall j {:trigger IsStep(s, path, j)} :: 0 < j < |path| ==> IsStep(s, path, j)
  }

  ghost predicate IsStep(s: Store, path: seq<RunId>, j: nat)
    requires 0 < j < |path|
  {
    path[j] in s.delegations && s.delegations[path[j]].parent == path[j - 1]
  }

  lemma PathStep(s: Store, path: seq<RunId>, j: nat)
    requires DelegationPath(s, path) && 0 < j < |path|
    ensures path[j] in s.delegations && s.delegations[path[j]].parent == path[j - 1]
  {
    assert IsStep(s, path, j);
  }

  lemma {:induction false} AncestorsAreHandedDown(s: Store, maxDepth: nat, path: seq<RunId>, i: nat, j: nat)
    requires Sound(s, maxDepth) && DelegationPath(s, path) && i < j < |path|
    ensures path[i] in s.origins && path[j] in s.origins
    ensures s.origins[path[i]].agent in s.origins[path[j]].context.ancestry
    ensures s.origins[path[j]].context.depth == s.origins[path[i]].context.depth + (j - i)
    decreases j - i
  {
    hide OneActive, BusyIfActive, RunsOk, TasksOk;
    PathStep(s, path, j);
    assert DelegationOk(s, maxDepth, path[j]);
    if i + 1 < j {
      AncestorsAreHandedDown(s, maxDepth, path, i, j - 1);
    }
  }

  /** No agent occurs twice on a path of delegations, and a path has at most maxDepth steps: delegation ends even when
      the teams of several agents name each other. */
  lemma DelegationIsBounded(maxDepth: nat, events: seq<Event>, path: seq<RunId>)
    requires path != [] && DelegationPath(Run(maxDepth, events), path)
    ensures |path| <= maxDepth + 1
    ensures forall i, j :: 0 <= i < j < |path| ==>
              && path[i] in Run(maxDepth, events).origins && path[j] in Run(maxDepth, events).origins
              && Run(maxDepth, events).origins[path[i]].agent != Run(maxDepth, events).origins[path[j]].agent
  {
    hide Run, OneActive, BusyIfActive, RunsOk, TasksOk;
    AlwaysSound(maxDepth, events);
    var s := Run(maxDepth, events);
    forall i, j | 0 <= i < j < |path|
      ensures path[i] in s.origins && path[j] in s.origins
      ensures s.origins[path[i]].agent != s.origins[path[j]].agent
    {
      AncestorsAreHandedDown(s, maxDepth, path, i, j);
      PathStep(s, path, j);
      assert DelegationOk(s, maxDepth, path[j]);
    }
    if |path| > 1 {
      PathStep(s, path, |path| - 1);
      AncestorsAreHandedDown(s, maxDepth, path, 0, |path| - 1);
      assert DelegationOk(s, maxDepth, path[|path| - 1]);
    }
  }

  /** A child has one delegation by its key; its stored depth is at most the maximum and one more than its parent's,
      if the parent's own delegation is still there. */
  lemma DepthIsOneMore(maxDepth: nat, events: seq<Event>, c: RunId)
    requires c in Run(maxDepth, events).delegations
    ensures var s := Run(maxDepth, events);
            var d := s.delegations[c];
            && c in s.runs && d.parent in s.runs
            && 1 <= d.depth <= maxDepth
            && (d.parent in s.delegations ==> d.depth == s.delegations[d.parent].depth + 1)
  {
    hide Run, OneActive, BusyIfActive, RunsOk, TasksOk;
    AlwaysSound(maxDepth, events);
    var s := Run(maxDepth, events);
    assert DelegationOk(s, maxDepth, c);
    if s.delegations[c].parent in s.delegations {
      assert DelegationOk(s, maxDepth, s.delegations[c].parent);
    }
  }

  // ---------------------------------------------------------------- depth as distance

  ghost predicate NoDeletes(events: seq<Event>) {
    forall k :: 0 <= k < |events| ==> !events[k].DeleteAgent?
  }

  /** Exactly the runs that were delegated have a delegation row. */
  ghost predicate RowsKept(s: Store) {
    forall r :: r in s.runs && r in s.origins ==> (r in s.delegations <==> s.origins[r].context.depth > 0)
  }

  ghost predicate SameFamily(s: Store, s': Store) {
    s'.runs.Keys == s.runs.Keys && s'.delegations == s.delegations && s'.origins == s.origins
  }

  lemma FinishKeepsFamily(s: Store, r: RunId, ending: Ending)
    ensures SameFamily(s, FinishNext(s, r, ending))
  {
    hide Append, LogOf, Final;
  }

  lemma MarkKeepsFamily(s: Store, r: RunId)
    ensures SameFamily(s, MarkNext(s, r))
  {
    hide Append, LogOf;
  }

  lemma {:induction false} FailAllKeepsFamily(s: Store, stale: seq<RunId>)
    ensures SameFamily(s, FailAll(s, stale))
  {
    hide FinishNext;
    if stale != [] {
      FailAllKeepsFamily(s, stale[..|stale| - 1]);
      FinishKeepsFamily(FailAll(s, stale[..|stale| - 1]), stale[|stale| - 1], Failure(INTERRUPTED));
    }
  }

  lemma AdmitKeepsRows(s: Store, maxDepth: nat, r: RunId, a: AgentId, via: Option<Via>, registered: bool)
    requires Sound(s, maxDepth) && RowsKept(s) && MayStart(s, maxDepth, r, a, via)
    requires via.Some? ==> via.value.parent in s.tasks && via.value.parent in s.runs
    ensures RowsKept(Admit(s, r, a, via, registered))
  {
    hide Sound, HasActive, MayDelegate, Append;
    Fresh(s, maxDepth, r);
    RunsHaveOrigins(s, maxDepth);
    var context := ContextOf(s, via);
    var s' := Admit(s, r, a, via, registered);
    assert s'.origins == s.origins[r := Origin(a, context)];
    forall q | q in s'.runs && q in s'.origins
      ensures q in s'.delegations <==> s'.origins[q].context.depth > 0
    {
      if q != r {
        assert q in s.runs && q in s.origins;
      }
    }
  }

  lemma RowsKeptNext(s: Store, maxDepth: nat, e: Event)
    requires Sound(s, maxDepth) && RowsKept(s) && !e.DeleteAgent?
    ensures RowsKept(Next(s, maxDepth, e))
  {
    hide Sound, Admit, MarkNext, FinishNext, HasActive;
    match e
    case Start(r, a, via, registered) =>
      if MayStart(s, maxDepth, r, a, via) {
        AdmitKeepsRows(s, maxDepth, r, a, via, registered);
      }
    case MarkRunning(r) => MarkKeepsFamily(s, r);
    case Finish(r, ending) => FinishKeepsFamily(s, r, ending);
    case Recover(stale) => FailAllKeepsFamily(s, stale);
    case _ =>
  }

  lemma {:induction false} RowsStay(maxDepth: nat, events: seq<Event>)
    requires NoDeletes(events)
    ensures RowsKept(Run(maxDepth, events))
    decreases |events|
  {
    hide Sound, Next;
    if events != [] {
      RowsStay(maxDepth, events[..|events| - 1]);
      AlwaysSound(maxDepth, events[..|events| - 1]);
      RowsKeptNext(Run(maxDepth, events[..|events| - 1]), maxDepth, events[|events| - 1]);
    }
  }

  /** As long as no agent is deleted, the depth stored with a run is its distance from the root of its tree. */
  lemma DepthIsDistance(maxDepth: nat, events: seq<Event>, path: seq<RunId>, j: nat)
    requires NoDeletes(events) && 0 < j < |path| && DelegationPath(Run(maxDepth, events), path)
    requires path[0] !in Run(maxDepth, events).delegations
    ensures path[j] in Run(maxDepth, events).delegations
    ensures Run(maxDepth, events).delegations[path[j]].depth == j
  {
    hide Run, OneActive, BusyIfActive, RunsOk, TasksOk;
    AlwaysSound(maxDepth, events);
    var s := Run(maxDepth, events);
    RowsStay(maxDepth, events);
    AncestorsAreHandedDown(s, maxDepth, path, 0, j);
    PathStep(s, path, 1);
    assert DelegationOk(s, maxDepth, path[1]);
    PathStep(s, path, j);
    assert DelegationOk(s, maxDepth, path[j]);
  }

  /** Deleting the agent at the top of a chain of delegations makes its child a root, whose own child keeps the depth
      it was stored with: more than its new distance of one. */
  lemma DeletingTheRootLeavesDepths(s: Store, maxDepth: nat, path: seq<RunId>)
    requires Sound(s, maxDepth) && s.serving && |path| == 3 && DelegationPath(s, path)
    requires path[0] in s.runs && !HasActive(s, s.runs[path[0]].agent)
    ensures var s' := Next(s, maxDepth, DeleteAgent(s.runs[path[0]].agent));
            && path[1] in s'.runs && path[1] !in s'.delegations
            && path[2] in s'.delegations && s'.delegations[path[2]].parent == path[1]
            && s'.delegations[path[2]].depth > 1
  {
    hide OneActive, BusyIfActive, TasksOk, HasActive, LogOk;
    PathStep(s, path, 1);
    PathStep(s, path, 2);
    assert DelegationOk(s, maxDepth, path[1]);
    assert DelegationOk(s, maxDepth, path[2]);
    assert RunOk(s, path[0]) && RunOk(s, path[1]) && RunOk(s, path[2]);
  }

  // ---------------------------------------------------------------- restart

  lemma FinishOther(s: Store, r: RunId, q: RunId)
    requires q in s.runs && q != r
    ensures q in FinishNext(s, r, Failure(INTERRUPTED)).runs
    ensures FinishNext(s, r, Failure(INTERRUPTED)).runs[q] == s.runs[q]
  {
    hide Append;
  }

  lemma {:induction false} FailAllRow(s: Store, stale: seq<RunId>, q: RunId)
    requires q in s.runs && Active(s, q) && Distinct(stale)
    ensures q in FailAll(s, stale).runs
    ensures FailAll(s, stale).runs[q]
            == if q in stale then Final(s.runs[q], Failure(INTERRUPTED)) else s.runs[q]
  {
    hide FinishNext, Final, Active;
    if stale != [] {
      var rest, last := stale[..|stale| - 1], stale[|stale| - 1];
      assert stale == rest + [last];
      FailAllRow(s, rest, q);
      if q == last {
        FailAllActive(s, rest, q);
        FinishRow(FailAll(s, rest), q);
      } else {
        FinishOther(FailAll(s, rest), last, q);
      }
    }
  }

  lemma FinishRow(s: Store, q: RunId)
    requires Active(s, q)
    ensures q in FinishNext(s, q, Failure(INTERRUPTED)).runs
    ensures FinishNext(s, q, Failure(INTERRUPTED)).runs[q] == Final(s.runs[q], Failure(INTERRUPTED))
  {
    hide Append;
  }

  /** A restart fails exactly the runs it finds active, and leaves every ended run as it was. */
  lemma RestartFailsTheActive(s: Store, maxDepth: nat, stale: seq<RunId>, q: RunId)
    requires Sound(s, maxDepth) && !s.serving && ListsActive(s, stale) && q in s.runs
    ensures var s' := Next(s, maxDepth, Recover(stale));
            && s'.serving
            && !Active(s', q)
            && q in s'.runs
            && s'.runs[q] == if Active(s, q) then s.runs[q].(status := Failed, error := Some(INTERRUPTED))
                             else s.runs[q]
  {
    hide Sound, FailAll;
    FailAllActive(s, stale, q);
    FailAllKeepsFamily(s, stale);
    if Active(s, q) {
      FailAllRow(s, stale, q);
    } else {
      FailAllAdvances(s, stale);
      RunsHaveOrigins(s, maxDepth);
    }
  }

  /** A crash takes the tasks and nothing else, and until a recovery nothing more happens. */
  lemma {:induction false} DownUntilRecovery(maxDepth: nat, events: seq<Event>, k: nat, m: nat)
    requires k < m <= |events| && events[k] == Crash && Run(maxDepth, events[..k]).serving
    requires forall j :: k < j < m ==> !events[j].Recover?
    ensures Run(maxDepth, events[..m]) == Run(maxDepth, events[..k]).(tasks := map[], serving := false)
    decreases m
  {
    hide Run, StartNext, DeleteNext, MarkNext, FinishNext;
    LastStep(maxDepth, events, m - 1);
    if k < m - 1 {
      DownUntilRecovery(maxDepth, events, k, m - 1);
    }
  }

  // ---------------------------------------------------------------- what get_run_tree may rely on

  /** The rows are the stored delegations, each once, in any order. */
  ghost predicate Lists(rows: seq<RunTrees.Row>, s: Store) {
    && (forall row :: row in rows ==>
          row.child in s.delegations && s.delegations[row.child] == Delegation(row.parent, row.node, row.depth))
    && (forall i, j :: 0 <= i < j < |rows| ==> rows[i].child != rows[j].child)
    && (forall c :: c in s.delegations ==> exists i :: 0 <= i < |rows| && rows[i].child == c)
  }

  lemma StoredRowsJoin(s: Store, maxDepth: nat, rows: seq<RunTrees.Row>, i: nat, j: nat)
    requires Sound(s, maxDepth) && Lists(rows, s) && i < |rows| && j < |rows|
    ensures RunTrees.Joined(rows, maxDepth, i, j)
    ensures rows[i].parent in s.runs && rows[i].child in s.runs
  {
    hide OneActive, BusyIfActive, RunsOk, TasksOk;
    assert rows[i] in rows && rows[j] in rows;
    assert DelegationOk(s, maxDepth, rows[i].child);
    assert DelegationOk(s, maxDepth, rows[j].child);
  }

  /** After any history the delegation table is such a forest as `get_run_tree` needs. */
  lemma DelegationsAreAForest(maxDepth: nat, events: seq<Event>, t: RunTrees.Table)
    requires t.maxDepth == maxDepth && t.runs.Keys == Run(maxDepth, events).runs.Keys
    requires Lists(t.rows, Run(maxDepth, events))
    ensures RunTrees.Forest(t)
  {
    hide Run, Sound, Lists, RunTrees.Joined;
    AlwaysSound(maxDepth, events);
    var s := Run(maxDepth, events);
    forall i, j | 0 <= i < |t.rows| && 0 <= j < |t.rows|
      ensures RunTrees.Joined(t.rows, maxDepth, i, j)
    {
      StoredRowsJoin(s, maxDepth, t.rows, i, j);
    }
    forall i | 0 <= i < |t.rows|
      ensures t.rows[i].parent in t.runs && t.rows[i].child in t.runs
    {
      StoredRowsJoin(s, maxDepth, t.rows, i, i);
      assert t.rows[i].parent in t.runs.Keys && t.rows[i].child in t.runs.Keys;
    }
  }
}
