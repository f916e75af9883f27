/** A restart after any history of the lifecycle machine, on a store nothing else has written to. */
module RestartEvidence {
  import opened Prelude
  import Json
  import Lifecycles
  import LifecycleRuns
  import Recoveries
  import ToolRuns
  import Tools

  function StatusName(status: Lifecycles.RunStatus): (name: string)
    ensures name in Recoveries.RUN_STATUSES
  {
    match status
    case Queued => "queued"
    case Running => "running"
    case Succeeded => "succeeded"
    case Failed => "failed"
    case Cancelled => "cancelled"
  }

  /** The row `latest_checkpoint` reads for the run: the one with the largest sequence number. */
  function LatestRow(s: Lifecycles.Store, r: Lifecycles.RunId, runId: string, spec: Lifecycles.Spec -> Json.Object,
                     checksum: Json.Object -> string): Option<Recoveries.Row>
  {
    if r !in s.checkpoints || s.checkpoints[r] == [] then None
    else
      var last := s.checkpoints[r][|s.checkpoints[r]| - 1];
      Some(Recoveries.Written(runId, spec(last.spec), StatusName(last.status), checksum))
  }

  /** No stored run is ever judged corrupt or without a checkpoint, nor does judging it fail: the ledger decides. */
  lemma OnlyTheLedgerDecides(maxDepth: nat, events: seq<Lifecycles.Event>, r: Lifecycles.RunId, runId: string,
                             spec: Lifecycles.Spec -> Json.Object, actions: seq<Recoveries.Action>,
                             checksum: Json.Object -> string)
    requires r in LifecycleRuns.Run(maxDepth, events).runs
    ensures var row := LatestRow(LifecycleRuns.Run(maxDepth, events), r, runId, spec, checksum);
            var assessment := Recoveries.Assess(runId, Recoveries.Decoded(row, actions), checksum);
            if forall i :: 0 <= i < |actions| ==> Recoveries.Settled(actions[i])
            then assessment == Recoveries.Decided(Recoveries.StoppedNoReplay)
            else assessment == Recoveries.Decided(Recoveries.BlockedUncertainAction(Recoveries.UncertainTypes(actions)))
  {
    hide LifecycleRuns.Run, Recoveries.Assess, Recoveries.Written, Lifecycles.Sound;
    var s := LifecycleRuns.Run(maxDepth, events);
    LifecycleRuns.LogMatchesRun(maxDepth, events, r);
    var last := s.checkpoints[r][|s.checkpoints[r]| - 1];
    Recoveries.UntouchedRowsDecideByLedger(runId, spec(last.spec), StatusName(last.status), actions, checksum);
  }

  /** The entry with the largest sequence number is the last one, and it shows the run's status. */
  lemma LatestShowsTheStatus(maxDepth: nat, events: seq<Lifecycles.Event>, r: Lifecycles.RunId, i: nat)
    requires r in LifecycleRuns.Run(maxDepth, events).runs
    requires r in LifecycleRuns.Run(maxDepth, events).checkpoints
    requires i < |LifecycleRuns.Run(maxDepth, events).checkpoints[r]|
    requires LifecycleRuns.Run(maxDepth, events).checkpoints[r][i].sequence
             == Lifecycles.MaxSequence(LifecycleRuns.Run(maxDepth, events).checkpoints[r])
    ensures LifecycleRuns.Run(maxDepth, events).checkpoints[r][i].status
            == LifecycleRuns.Run(maxDepth, events).runs[r].status
  {
    hide LifecycleRuns.Run, Lifecycles.Sound, Lifecycles.MaxSequence;
    LifecycleRuns.LogMatchesRun(maxDepth, events, r);
    Lifecycles.Numbered(LifecycleRuns.Run(maxDepth, events).checkpoints[r]);
  }

  // ---------------------------------------------------------------- checkpoints and ledger together

  /** The lifecycle machine and the machine of the tools show the same table of runs. */
  ghost predicate SameRuns(s: Lifecycles.Store, d: Tools.Desk) {
    forall r :: (r in s.runs <==> r in d.runs) && (r in d.runs ==> (d.runs[r] <==> Lifecycles.Active(s, r)))
  }

  predicate EntrySettled(d: Tools.Desk, e: nat) {
    e in d.ledger && (d.ledger[e].status.Confirmed? || d.ledger[e].status.Failed?)
  }

  /** What the restart makes of a run: its latest checkpoint and its ledger entries, as the two histories left them. */
  ghost function Assessed(s: Lifecycles.Store, d: Tools.Desk, r: Lifecycles.RunId, ids: seq<nat>, runId: string,
                          spec: Lifecycles.Spec -> Json.Object, actionType: nat -> string,
                          checksum: Json.Object -> string): Recoveries.Assessment
    requires ToolRuns.ListsLedger(d, r, ids)
  {
    Recoveries.Assess(runId, Recoveries.Decoded(LatestRow(s, r, runId, spec, checksum),
                                                ToolRuns.ActionsOf(d, ids, actionType)), checksum)
  }

  ghost predicate AllSettled(d: Tools.Desk, r: Tools.RunId) {
    forall e :: e in d.ledger && d.ledger[e].run == r ==> EntrySettled(d, e)
  }

  predicate LaunchedFor(d: Tools.Desk, x: nat, r: Tools.RunId) {
    x in d.launches && x < |d.executions| && d.executions[x].run == r
  }

  predicate LaunchSettled(d: Tools.Desk, x: nat) {
    x < |d.executions| && d.executions[x].entry.Some? && EntrySettled(d, d.executions[x].entry.value)
  }

  lemma LaunchIsListed(events: seq<Tools.Event>, x: nat, r: Tools.RunId)
    requires LaunchedFor(ToolRuns.Run(events), x, r) && r in ToolRuns.Run(events).runs
    requires AllSettled(ToolRuns.Run(events), r)
    ensures LaunchSettled(ToolRuns.Run(events), x)
  {
    hide ToolRuns.Run, Tools.Sound;
    ToolRuns.AlwaysSound(events);
    ToolRuns.LaunchHistory(ToolRuns.Run(events));
    Tools.GateAndTrace(ToolRuns.Run(events), x);
  }

  lemma SettledActions(d: Tools.Desk, r: Tools.RunId, ids: seq<nat>, actionType: nat -> string)
    requires ToolRuns.ListsLedger(d, r, ids)
    ensures var actions := ToolRuns.ActionsOf(d, ids, actionType);
            (forall i :: 0 <= i < |actions| ==> Recoveries.Settled(actions[i]))
            <==> AllSettled(d, r)
  {
    var actions := ToolRuns.ActionsOf(d, ids, actionType);
    if forall i :: 0 <= i < |actions| ==> Recoveries.Settled(actions[i]) {
      forall e | e in d.ledger && d.ledger[e].run == r
        ensures EntrySettled(d, e)
      {
        var i :| 0 <= i < |ids| && ids[i] == e;
        assert Recoveries.Settled(actions[i]);
      }
    }
  }

  /** Wherever a crash cuts in, on a store nothing else has written to: a run found active fails, it is said to have
      stopped with nothing to replay exactly when each of its ledger entries is confirmed or failed, and blocked by its
      unsettled actions otherwise; and if it is said to have stopped, each of its launches is confirmed or failed. */
  lemma JointRestart(maxDepth: nat, life: seq<Lifecycles.Event>, tools: seq<Tools.Event>, stale: seq<Lifecycles.RunId>,
                     r: Lifecycles.RunId, ids: seq<nat>, runId: string, spec: Lifecycles.Spec -> Json.Object,
                     actionType: nat -> string, checksum: Json.Object -> string)
    requires var s, d := LifecycleRuns.Run(maxDepth, life), ToolRuns.Run(tools);
             && SameRuns(s, d) && !s.serving && Lifecycles.ListsActive(s, stale) && Lifecycles.Active(s, r)
             && ToolRuns.ListsLedger(d, r, ids)
    ensures var s, d := LifecycleRuns.Run(maxDepth, life), ToolRuns.Run(tools);
            var assessed := Assessed(s, d, r, ids, runId, spec, actionType, checksum);
            var stopped := Recoveries.Decided(Recoveries.StoppedNoReplay);
            && (assessed == stopped <==> AllSettled(d, r))
            && (assessed != stopped ==>
                  assessed == Recoveries.Decided(Recoveries.BlockedUncertainAction(
                                Recoveries.UncertainTypes(ToolRuns.ActionsOf(d, ids, actionType)))))
            && (assessed == stopped ==> forall x :: LaunchedFor(d, x, r) ==> LaunchSettled(d, x))
    ensures var s := LifecycleRuns.Run(maxDepth, life);
            var after := Lifecycles.Next(s, maxDepth, Lifecycles.Recover(stale));
            && r in after.runs
            && after.runs[r] == s.runs[r].(status := Lifecycles.Failed, error := Some(Lifecycles.INTERRUPTED))
  {
    hide LifecycleRuns.Run, ToolRuns.Run, Recoveries.Assess, Lifecycles.Sound, Lifecycles.Next, LatestRow, AllSettled,
      LaunchSettled;
    var s, d := LifecycleRuns.Run(maxDepth, life), ToolRuns.Run(tools);
    OnlyTheLedgerDecides(maxDepth, life, r, runId, spec, ToolRuns.ActionsOf(d, ids, actionType), checksum);
    SettledActions(d, r, ids, actionType);
    forall x | LaunchedFor(d, x, r) && AllSettled(d, r)
      ensures LaunchSettled(d, x)
    {
      LaunchIsListed(tools, x, r);
    }
    LifecycleRuns.AlwaysSound(maxDepth, life);
    LifecycleRuns.RestartFailsTheActive(s, maxDepth, stale, r);
  }
}
