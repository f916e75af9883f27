/** The lifecycle of runs and the tools they execute as one machine: each step is a step of one of the two machines, or
    of both where they share a row or a task. */
module JointHistories {
  import opened Prelude
  import Json
  import Lifecycles
  import LifecycleRuns
  import Recoveries
  import RestartEvidence
  import Stopping
  import ToolRuns
  import Tools

  type RunId = Lifecycles.RunId

  /** What has happened so far, as each machine sees it. */
  datatype Joint = Joint(life: seq<Lifecycles.Event>, tools: seq<Tools.Event>)

  /** A step that concerns no run's row; a start; an ending by the run's own task or after it; a shutdown that gives up
      on a task; a deletion, with the agent's runs in any order; a step of a tool or an approval; a crash; a
      recovery. */
  datatype Step =
    | Life(step: Lifecycles.Event)
    | Start(run: RunId, agent: Lifecycles.AgentId, via: Option<Lifecycles.Via>, registered: bool)
    | End(run: RunId, ending: Lifecycles.Ending)
    | GiveUp(run: RunId)
    | Delete(agent: Lifecycles.AgentId, doomed: seq<RunId>)
    | Tool(event: Tools.Event)
    | Crash
    | Recover(stale: seq<RunId>)

  ghost function Store(maxDepth: nat, j: Joint): Lifecycles.Store {
    LifecycleRuns.Run(maxDepth, j.life)
  }

  ghost function Desk(j: Joint): Tools.Desk {
    ToolRuns.Run(j.tools)
  }

  /** The row, the tables and the task permit the step; a tool is executed inside the run's own task. */
  ghost predicate Possible(s: Lifecycles.Store, d: Tools.Desk, maxDepth: nat, e: Step) {
    match e
    case Life(event) =>
      && s.serving
      && (event.CreateAgent? || event.UpdateAgent? || event.MarkRunning? || event.TaskEnds?)
      && (event.TaskEnds? ==> Tools.NoneLive(d, event.run))
    case Start(r, a, via, _) => s.serving && Lifecycles.MayStart(s, maxDepth, r, a, via)
    case End(r, ending) =>
      && s.serving && Lifecycles.Active(s, r) && Tools.NoneLive(d, r)
      && (ending.Success? ==> r in s.tasks && s.tasks[r].executing)
    case GiveUp(r) => s.serving && Lifecycles.Active(s, r) && r in s.tasks
    case Delete(a, doomed) =>
      && s.serving && a in s.agents && !Lifecycles.HasActive(s, a) && Distinct(doomed)
      && (forall r :: r in doomed <==> r in s.runs && s.runs[r].agent == a)
    case Tool(event) =>
      && s.serving && !Tools.IsRunEvent(event) && !event.Crash?
      && (event.Invoke? ==> event.run in s.tasks && s.tasks[event.run].executing)
    case Crash => s.serving
    case Recover(stale) => !s.serving && Lifecycles.ListsActive(s, stale)
  }

  function LifeOf(e: Step): seq<Lifecycles.Event> {
    match e
    case Life(event) => [event]
    case Start(r, a, via, registered) => [Lifecycles.Start(r, a, via, registered)]
    case End(r, ending) => [Lifecycles.Finish(r, ending)]
    case GiveUp(r) => [Lifecycles.Finish(r, Lifecycles.Failure(Stopping.SHUTDOWN))]
    case Delete(a, _) => [Lifecycles.DeleteAgent(a)]
    case Tool(_) => []
    case Crash => [Lifecycles.Crash]
    case Recover(stale) => [Lifecycles.Recover(stale)]
  }

  function DeleteRuns(runs: seq<RunId>): seq<Tools.Event> {
    seq(|runs|, i requires 0 <= i < |runs| => Tools.DeleteRun(runs[i]))
  }

  function EndRuns(runs: seq<RunId>): seq<Tools.Event> {
    seq(|runs|, i requires 0 <= i < |runs| => Tools.EndRun(runs[i]))
  }

  function ToolsOf(e: Step): seq<Tools.Event> {
    match e
    case Life(_) => []
    case Start(r, _, _, _) => [Tools.BeginRun(r)]
    case End(r, _) => [Tools.EndRun(r)]
    case GiveUp(r) => [Tools.GiveUpRun(r)]
    case Delete(_, doomed) => DeleteRuns(doomed)
    case Tool(event) => [event]
    case Crash => [Tools.Crash]
    case Recover(stale) => EndRuns(stale)
  }

  ghost function Next(maxDepth: nat, j: Joint, e: Step): Joint {
    if Possible(Store(maxDepth, j), Desk(j), maxDepth, e) then Joint(j.life + LifeOf(e), j.tools + ToolsOf(e)) else j
  }

  ghost function Play(maxDepth: nat, steps: seq<Step>): Joint {
    if steps == [] then Joint([], []) else Next(maxDepth, Play(maxDepth, steps[..|steps| - 1]), steps[|steps| - 1])
  }

  // ---------------------------------------------------------------- the two machines agree

  /** They show the same table of runs, and between a crash and the end of recovery no call of a tool is in progress. */
  ghost predicate Agree(s: Lifecycles.Store, d: Tools.Desk) {
    && RestartEvidence.SameRuns(s, d)
    && (forall r :: r in d.everRun ==> r in s.origins)
    && (!s.serving ==> forall r :: Tools.NoneLive(d, r))
  }

  lemma LifeAppend(maxDepth: nat, life: seq<Lifecycles.Event>, e: Lifecycles.Event)
    ensures LifecycleRuns.Run(maxDepth, life + [e]) == Lifecycles.Next(LifecycleRuns.Run(maxDepth, life), maxDepth, e)
  {
    hide Lifecycles.Next;
    assert (life + [e])[..|life|] == life;
  }

  lemma ToolAppend(tools: seq<Tools.Event>, e: Tools.Event)
    ensures ToolRuns.Run(tools + [e]) == Tools.Next(ToolRuns.Run(tools), e)
  {
    hide Tools.Next;
    assert (tools + [e])[..|tools|] == tools;
  }

  lemma LifeAgrees(s: Lifecycles.Store, d: Tools.Desk, maxDepth: nat, e: Lifecycles.Event)
    requires Agree(s, d) && Possible(s, d, maxDepth, Life(e))
    ensures Agree(Lifecycles.Next(s, maxDepth, e), d)
  {
    hide Lifecycles.Append, Lifecycles.LogOf;
  }

  lemma StartAdds(s: Lifecycles.Store, maxDepth: nat, e: Step)
    requires e.Start? && s.serving && Lifecycles.MayStart(s, maxDepth, e.run, e.agent, e.via)
    ensures var s' := Lifecycles.Next(s, maxDepth, LifeOf(e)[0]);
            && s'.runs == s.runs[e.run := Lifecycles.RunRow(e.agent, Lifecycles.Queued, None, None,
                                                            s.agents[e.agent].spec)]
            && s'.origins.Keys == s.origins.Keys + {e.run} && s'.serving
  {
    hide Lifecycles.Append, Lifecycles.HasActive, Lifecycles.ContextOf;
  }

  lemma StartAgrees(s: Lifecycles.Store, d: Tools.Desk, maxDepth: nat, e: Step)
    requires Agree(s, d) && e.Start? && Possible(s, d, maxDepth, e)
    ensures Agree(Lifecycles.Next(s, maxDepth, LifeOf(e)[0]), Tools.Next(d, Tools.BeginRun(e.run)))
  {
    StartAdds(s, maxDepth, e);
    hide Lifecycles.Next, Lifecycles.HasActive, Lifecycles.MayDelegate, Tools.NoneLive;
    var s' := Lifecycles.Next(s, maxDepth, LifeOf(e)[0]);
    assert forall r :: r in s'.origins <==> r in s'.origins.Keys;
  }

  lemma FinishAgrees(s: Lifecycles.Store, d: Tools.Desk, r: RunId, ending: Lifecycles.Ending, e: Tools.Event)
    requires Agree(s, d) && s.serving && Lifecycles.Active(s, r)
    requires ending.Success? ==> r in s.tasks && s.tasks[r].executing
    requires e == Tools.GiveUpRun(r) || (e == Tools.EndRun(r) && Tools.NoneLive(d, r))
    ensures Agree(Lifecycles.FinishNext(s, r, ending), Tools.Next(d, e))
  {
    hide Lifecycles.Append, Lifecycles.LogOf, Tools.NoneLive;
  }

  lemma ToolAgrees(s: Lifecycles.Store, d: Tools.Desk, maxDepth: nat, e: Tools.Event)
    requires Agree(s, d) && Possible(s, d, maxDepth, Tool(e))
    ensures Agree(s, Tools.Next(d, e))
  {
    ToolKeepsRuns(d, e);
    hide Tools.Next;
  }

  lemma ToolKeepsRuns(d: Tools.Desk, e: Tools.Event)
    requires !Tools.IsRunEvent(e)
    ensures Tools.Next(d, e).runs == d.runs && Tools.Next(d, e).everRun == d.everRun
  {
    hide Tools.Settled, Tools.ReportOf;
  }

  lemma CrashAgrees(s: Lifecycles.Store, d: Tools.Desk, maxDepth: nat)
    requires Agree(s, d) && s.serving
    ensures Agree(Lifecycles.Next(s, maxDepth, Lifecycles.Crash), Tools.Next(d, Tools.Crash))
  {
    ToolKeepsRuns(d, Tools.Crash);
    assert forall r :: Tools.NoneLive(Tools.CrashNext(d), r);
  }

  /** The table without these runs. */
  lemma {:induction false} DeletedRuns(tools: seq<Tools.Event>, doomed: seq<RunId>)
    requires var d := ToolRuns.Run(tools); forall r :: r in doomed ==> r in d.runs && !d.runs[r]
    requires Distinct(doomed)
    ensures var d, d' := ToolRuns.Run(tools), ToolRuns.Run(tools + DeleteRuns(doomed));
            && d'.everRun == d.everRun && d'.executions == d.executions
            && (forall r :: r in d'.runs <==> r in d.runs && r !in doomed)
            && (forall r :: r in d'.runs ==> d'.runs[r] == d.runs[r])
    decreases |doomed|
  {
    hide ToolRuns.Run;
    if doomed == [] {
      assert tools + DeleteRuns(doomed) == tools;
    } else {
      var front, last := doomed[..|doomed| - 1], doomed[|doomed| - 1];
      DeletedRuns(tools, front);
      ToolAppend(tools + DeleteRuns(front), Tools.DeleteRun(last));
      assert tools + DeleteRuns(doomed) == tools + DeleteRuns(front) + [Tools.DeleteRun(last)];
      assert doomed == front + [last];
    }
  }

  lemma {:induction false} EndedRuns(tools: seq<Tools.Event>, stale: seq<RunId>)
    requires var d := ToolRuns.Run(tools); forall r :: r in stale ==> r in d.runs && Tools.NoneLive(d, r)
    ensures var d, d' := ToolRuns.Run(tools), ToolRuns.Run(tools + EndRuns(stale));
            && d'.everRun == d.everRun && d'.executions == d.executions
            && (forall r :: r in d'.runs <==> r in d.runs)
            && (forall r :: r in d'.runs ==> d'.runs[r] == (d.runs[r] && r !in stale))
    decreases |stale|
  {
    hide ToolRuns.Run;
    if stale == [] {
      assert tools + EndRuns(stale) == tools;
    } else {
      var front, last := stale[..|stale| - 1], stale[|stale| - 1];
      EndedRuns(tools, front);
      ToolAppend(tools + EndRuns(front), Tools.EndRun(last));
      assert tools + EndRuns(stale) == tools + EndRuns(front) + [Tools.EndRun(last)];
      assert stale == front + [last];
    }
  }

  lemma DeleteRemoves(s: Lifecycles.Store, maxDepth: nat, a: Lifecycles.AgentId)
    requires s.serving && a in s.agents && !Lifecycles.HasActive(s, a)
    ensures var s' := Lifecycles.Next(s, maxDepth, Lifecycles.DeleteAgent(a));
            && (forall r :: r in s'.runs <==> r in s.runs && s.runs[r].agent != a)
            && (forall r :: r in s'.runs ==> s'.runs[r] == s.runs[r])
            && s'.origins == s.origins && s'.serving
    ensures forall r :: r in s.runs && s.runs[r].agent == a ==> !Lifecycles.Active(s, r)
  {
    forall r | r in s.runs && s.runs[r].agent == a
      ensures !Lifecycles.Active(s, r)
    {
      assert !Lifecycles.ActiveFor(s, r, a);
    }
  }

  lemma DeleteAgrees(j: Joint, s: Lifecycles.Store, maxDepth: nat, a: Lifecycles.AgentId, doomed: seq<RunId>)
    requires Agree(s, Desk(j)) && Possible(s, Desk(j), maxDepth, Delete(a, doomed))
    ensures Agree(Lifecycles.Next(s, maxDepth, Lifecycles.DeleteAgent(a)), ToolRuns.Run(j.tools + DeleteRuns(doomed)))
  {
    DeleteRemoves(s, maxDepth, a);
    hide ToolRuns.Run, Lifecycles.HasActive, Lifecycles.Next, Tools.NoneLive;
    DeletedRuns(j.tools, doomed);
  }

  lemma RecoverAgrees(j: Joint, s: Lifecycles.Store, maxDepth: nat, stale: seq<RunId>)
    requires Agree(s, Desk(j)) && Lifecycles.Sound(s, maxDepth) && Possible(s, Desk(j), maxDepth, Recover(stale))
    ensures Agree(Lifecycles.Next(s, maxDepth, Lifecycles.Recover(stale)), ToolRuns.Run(j.tools + EndRuns(stale)))
  {
    hide ToolRuns.Run, Lifecycles.Sound, Lifecycles.FailAll;
    EndedRuns(j.tools, stale);
    var s' := Lifecycles.Next(s, maxDepth, Lifecycles.Recover(stale));
    LifecycleRuns.FailAllKeepsFamily(s, stale);
    forall r | r in s.runs
      ensures !Lifecycles.Active(s', r)
    {
      LifecycleRuns.RestartFailsTheActive(s, maxDepth, stale, r);
    }
  }

  lemma AgreeNext(maxDepth: nat, j: Joint, e: Step)
    requires Agree(Store(maxDepth, j), Desk(j))
    ensures Agree(Store(maxDepth, Next(maxDepth, j, e)), Desk(Next(maxDepth, j, e)))
  {
    hide Agree, LifecycleRuns.Run, ToolRuns.Run, Lifecycles.Next, Tools.Next, Lifecycles.Sound;
    var s, d := Store(maxDepth, j), Desk(j);
    if Possible(s, d, maxDepth, e) {
      LifecycleRuns.AlwaysSound(maxDepth, j.life);
      assert j.life + [] == j.life && j.tools + [] == j.tools;
      match e
      case Life(event) =>
        LifeAppend(maxDepth, j.life, event);
        LifeAgrees(s, d, maxDepth, event);
      case Start(r, _, _, _) =>
        LifeAppend(maxDepth, j.life, LifeOf(e)[0]);
        ToolAppend(j.tools, Tools.BeginRun(r));
        StartAgrees(s, d, maxDepth, e);
      case End(r, ending) =>
        LifeAppend(maxDepth, j.life, LifeOf(e)[0]);
        ToolAppend(j.tools, Tools.EndRun(r));
        FinishIsNext(s, maxDepth, r, ending);
        FinishAgrees(s, d, r, ending, Tools.EndRun(r));
      case GiveUp(r) =>
        LifeAppend(maxDepth, j.life, LifeOf(e)[0]);
        ToolAppend(j.tools, Tools.GiveUpRun(r));
        FinishIsNext(s, maxDepth, r, Lifecycles.Failure(Stopping.SHUTDOWN));
        FinishAgrees(s, d, r, Lifecycles.Failure(Stopping.SHUTDOWN), Tools.GiveUpRun(r));
      case Delete(a, doomed) =>
        LifeAppend(maxDepth, j.life, Lifecycles.DeleteAgent(a));
        DeleteAgrees(j, s, maxDepth, a, doomed);
      case Tool(event) =>
        ToolAppend(j.tools, event);
        ToolAgrees(s, d, maxDepth, event);
      case Crash =>
        LifeAppend(maxDepth, j.life, Lifecycles.Crash);
        ToolAppend(j.tools, Tools.Crash);
        CrashAgrees(s, d, maxDepth);
      case Recover(stale) =>
        LifeAppend(maxDepth, j.life, Lifecycles.Recover(stale));
        RecoverAgrees(j, s, maxDepth, stale);
    }
  }

  lemma FinishIsNext(s: Lifecycles.Store, maxDepth: nat, r: RunId, ending: Lifecycles.Ending)
    requires s.serving
    ensures Lifecycles.Next(s, maxDepth, Lifecycles.Finish(r, ending)) == Lifecycles.FinishNext(s, r, ending)
  {
  }

  lemma NothingAgrees(maxDepth: nat)
    ensures Agree(Store(maxDepth, Joint([], [])), Desk(Joint([], [])))
  {
  }

  /** Over every joint history both machines show the same table of runs. */
  lemma {:induction false} AlwaysAgree(maxDepth: nat, steps: seq<Step>)
    ensures Agree(Store(maxDepth, Play(maxDepth, steps)), Desk(Play(maxDepth, steps)))
    decreases |steps|
  {
    hide Agree, Next, Store, Desk;
    if steps == [] {
      NothingAgrees(maxDepth);
    } else {
      AlwaysAgree(maxDepth, steps[..|steps| - 1]);
      AgreeNext(maxDepth, Play(maxDepth, steps[..|steps| - 1]), steps[|steps| - 1]);
    }
  }

  // ---------------------------------------------------------------- a restart

  /** What the restart says about a run it finds active. */
  ghost predicate JudgedByLedger(d: Tools.Desk, r: RunId, ids: seq<nat>, actionType: nat -> string,
                                 assessed: Recoveries.Assessment)
    requires ToolRuns.ListsLedger(d, r, ids)
  {
    var stopped := Recoveries.Decided(Recoveries.StoppedNoReplay);
    && (assessed == stopped <==> RestartEvidence.AllSettled(d, r))
    && (assessed != stopped ==>
          assessed == Recoveries.Decided(Recoveries.BlockedUncertainAction(
                        Recoveries.UncertainTypes(ToolRuns.ActionsOf(d, ids, actionType)))))
    && (assessed == stopped ==>
          forall x :: RestartEvidence.LaunchedFor(d, x, r) ==> RestartEvidence.LaunchSettled(d, x))
  }

  /** Over every joint history that a crash ends, on a store nothing else has written to: a run that was active fails,
      it is said to have stopped with nothing to replay exactly when each of its ledger entries is confirmed or failed,
      and blocked by its unsettled actions otherwise. */
  lemma RestartAfterJointHistory(maxDepth: nat, steps: seq<Step>, stale: seq<RunId>, r: RunId, ids: seq<nat>,
                                 runId: string, spec: Lifecycles.Spec -> Json.Object, actionType: nat -> string,
                                 checksum: Json.Object -> string)
    requires var j := Play(maxDepth, steps);
             var s, d := Store(maxDepth, j), Desk(j);
             && Possible(s, d, maxDepth, Recover(stale)) && r in d.runs && d.runs[r] && ToolRuns.ListsLedger(d, r, ids)
    ensures var j := Play(maxDepth, steps);
            var s, d := Store(maxDepth, j), Desk(j);
            JudgedByLedger(d, r, ids, actionType,
                           RestartEvidence.Assessed(s, d, r, ids, runId, spec, actionType, checksum))
    ensures var s, s' := Store(maxDepth, Play(maxDepth, steps)),
                         Store(maxDepth, Next(maxDepth, Play(maxDepth, steps), Recover(stale)));
            && r in s.runs && r in s'.runs
            && s'.runs[r] == s.runs[r].(status := Lifecycles.Failed, error := Some(Lifecycles.INTERRUPTED))
  {
    hide LifecycleRuns.Run, ToolRuns.Run, Play, RestartEvidence.Assessed, RestartEvidence.AllSettled,
      RestartEvidence.LaunchSettled, Lifecycles.Next, Lifecycles.ListsActive, ToolRuns.ListsLedger;
    var j := Play(maxDepth, steps);
    AlwaysAgree(maxDepth, steps);
    RestartEvidence.JointRestart(maxDepth, j.life, j.tools, stale, r, ids, runId, spec, actionType, checksum);
    LifeAppend(maxDepth, j.life, Lifecycles.Recover(stale));
  }
}
