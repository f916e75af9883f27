/** services/manager.py: `AgentManager` changing its tables in place, one committed transaction per method. */
module Managers {
  import opened Prelude
  import opened Lifecycles
  import opened Stopping

  class AgentManager {
    const maxDepth: nat
    var agents: map<AgentId, AgentRow>
    var runs: map<RunId, RunRow>
    var delegations: map<RunId, Delegation>
    var checkpoints: map<RunId, seq<Checkpoint>>
    var tasks: map<RunId, Task>
    ghost var serving: bool
    ghost var origins: map<RunId, Origin>

    ghost function State(): Store
      reads this
    {
      Store(agents, runs, delegations, checkpoints, tasks, serving, origins)
    }

    ghost predicate Valid()
      reads this
    {
      Sound(State(), maxDepth)
    }

    constructor (maxDepth: nat)
      ensures Valid() && this.maxDepth == maxDepth && State() == EMPTY
    {
      this.maxDepth := maxDepth;
      agents, runs, delegations, checkpoints, tasks := map[], map[], map[], map[], map[];
      serving, origins := true, map[];
    }

    lemma Logged()
      requires Valid()
      ensures runs.Keys == checkpoints.Keys
    {
    }

    predicate Occupied(a: AgentId)
      reads this
    {
      exists r :: r in runs && runs[r].agent == a && !Terminal(runs[r].status)
    }

    lemma OccupiedMeansActive(a: AgentId)
      ensures Occupied(a) <==> HasActive(State(), a)
    {
      if Occupied(a) {
        var r :| r in runs && runs[r].agent == a && !Terminal(runs[r].status);
        assert ActiveFor(State(), r, a);
      }
    }

    /** `delete_agent`, as far as runs are concerned: an active run prevents it, and the deletes cascade. */
    method DeleteAgent(a: AgentId) returns (deleted: bool)
      requires Valid() && serving
      modifies this
      ensures Valid()
      ensures State() == Next(old(State()), maxDepth, Lifecycles.DeleteAgent(a))
      ensures deleted <==> a in old(agents) && AllEnded(old(State()), a)
      ensures if deleted then DeletedAs(old(State()), State(), a) else State() == old(State())
    {
      hide Sound, HasActive, AllEnded, DeletedAs;
      Logged();
      OccupiedMeansActive(a);
      AllEndedExactly(State(), a);
      if a !in agents || Occupied(a) {
        return false;
      }
      SoundRemove(State(), maxDepth, a);
      var kept := map r | r in runs && runs[r].agent != a :: runs[r];
      agents := agents - {a};
      delegations := map c | c in delegations && c in kept && delegations[c].parent in kept :: delegations[c];
      checkpoints := map r | r in checkpoints && r in kept :: checkpoints[r];
      runs := kept;
      assert State() == Remove(old(State()), a);
      RemoveDeletes(old(State()), a);
      Logged();
      deleted := true;
    }

    /** `_start_run` for a run of its own or a delegated one: the agent must be free; the run, the agent's status, the
        first checkpoint and the delegation are one transaction; then the context and the task. */
    method StartRun(r: RunId, a: AgentId, via: Option<Via>) returns (started: bool)
      requires Valid() && serving && r !in origins
      modifies this
      ensures Valid()
      ensures State() == Next(old(State()), maxDepth, Start(r, a, via, true))
      ensures started <==> Admissible(old(State()), maxDepth, a, via)
      ensures if started then StartedAs(old(State()), State(), r, a, via) else State() == old(State())
    {
      hide Sound, HasActive, Append, Admissible, StartedAs;
      AdmissibleExactly(State(), maxDepth, r, a, via);
      Logged();
      OccupiedMeansActive(a);
      var context := ROOT;
      if via.Some? {
        var p := via.value.parent;
        if p !in tasks || !tasks[p].executing || p !in runs || tasks[p].context.depth >= maxDepth {
          return false;
        }
        context := Handed(tasks[p].context, runs[p].agent);
        var taken := exists c :: c in delegations && delegations[c].parent == p
                                 && delegations[c].node == via.value.node;
        if a in context.ancestry || taken {
          return false;
        }
      }
      if a !in agents || Occupied(a) {
        return false;
      }
      SoundAdmit(State(), maxDepth, r, a, via, true);
      AdmitStarts(State(), maxDepth, r, a, via);
      var run := RunRow(a, Queued, None, None, agents[a].spec);
      runs := runs[r := run];
      agents := agents[a := agents[a].(status := Busy)];
      checkpoints := checkpoints[r := Append([], Created, run)];
      if via.Some? {
        delegations := delegations[r := Delegation(via.value.parent, via.value.node, context.depth)];
      }
      tasks := tasks[r := Task(false, context)];
      origins := origins[r := Origin(a, context)];
      assert State() == Admit(old(State()), r, a, via, true);
      Logged();
      started := true;
    }

    /** `_mark_running`, called by the run's task before anything else. */
    method MarkRunning(r: RunId) returns (running: bool)
      requires Valid() && serving && r in tasks && !tasks[r].executing
      modifies this
      ensures Valid()
      ensures State() == Next(old(State()), maxDepth, Lifecycles.MarkRunning(r))
      ensures running <==> r in old(runs) && old(runs)[r].status in {Queued, Running}
      ensures running ==> runs == old(runs)[r := old(runs)[r].(status := Running)]
                          && tasks == old(tasks)[r := old(tasks)[r].(executing := true)]
                          && agents == old(agents) && delegations == old(delegations)
      ensures !running ==> State() == old(State())
    {
      hide Sound;
      Logged();
      SoundMark(State(), maxDepth, r);
      if r !in runs || Terminal(runs[r].status) {
        return false;
      }
      runs := runs[r := runs[r].(status := Running)];
      checkpoints := checkpoints[r := Append(checkpoints[r], Started, runs[r])];
      tasks := tasks[r := tasks[r].(executing := true)];
      assert State() == MarkNext(old(State()), r);
      Logged();
      running := true;
    }

    /** `_finish_succeeded`, `_finish_failed` and `_finish_cancelled`. Only the run's task reports a success. */
    method Finish(r: RunId, ending: Ending) returns (ended: bool)
      requires Valid() && (ending.Success? ==> r in tasks && tasks[r].executing)
      modifies this
      ensures Valid()
      ensures State() == FinishNext(old(State()), r, ending)
      ensures ended <==> r in old(runs) && old(runs)[r].status in {Queued, Running}
      ensures if ended then FinishedAs(old(State()), State(), r, ending) else State() == old(State())
    {
      hide Sound, FinishedAs;
      Logged();
      SoundFinish(State(), maxDepth, r, ending);
      if Active(State(), r) {
        FinishLeaves(State(), maxDepth, r, ending);
      }
      if r !in runs || Terminal(runs[r].status) {
        return false;
      }
      match ending {
        case Success(output) => runs := runs[r := runs[r].(status := Succeeded, output := Some(output))];
        case Failure(error) => runs := runs[r := runs[r].(status := Failed, error := Some(error))];
        case Cancellation => runs := runs[r := runs[r].(status := Cancelled)];
      }
      var a := runs[r].agent;
      if a in agents {
        agents := agents[a := agents[a].(status := if ending.Failure? then Erred else Idle)];
      }
      checkpoints := checkpoints[r := Append(checkpoints[r], Ended(runs[r].status), runs[r])];
      assert State() == FinishNext(old(State()), r, ending);
      Logged();
      ended := true;
    }

    /** `recover_stale_runs`, over the runs a restart finds active. */
    method RecoverStaleRuns(stale: seq<RunId>)
      requires Valid() && !serving && ListsActive(State(), stale)
      modifies this
      ensures Valid()
      ensures State() == Next(old(State()), maxDepth, Recover(stale))
      ensures forall q :: q in old(runs) ==> q in runs
      ensures forall q :: q in old(runs) ==> if old(runs)[q].status in {Queued, Running}
                                             then WasFailed(old(State()), State(), q, INTERRUPTED)
                                             else runs[q] == old(runs)[q]
    {
      hide Sound, FinishNext, ListsActive, WasFailed;
      Logged();
      var i := 0;
      while i < |stale|
        invariant i <= |stale| && Valid()
        invariant State() == FailAll(old(State()), stale[..i])
      {
        var ended := Finish(stale[i], Failure(INTERRUPTED));
        assert stale[..i + 1][..i] == stale[..i];
        i := i + 1;
      }
      assert stale[..|stale|] == stale;
      SoundRecover(old(State()), maxDepth, stale);
      RestartLeaves(old(State()), maxDepth, stale);
      serving := true;
    }

    /** `RunRegistry.cancel`: a task that ends in time does what `_execute_run` does when it is cancelled. */
    method CancelTask(r: RunId, quick: set<RunId>) returns (done: bool)
      requires Valid()
      modifies this
      ensures Valid() && OnlyEnds(old(State()), State(), quick)
      ensures forall q :: q != r ==> SameAt(old(State()), State(), q)
      ensures done <==> r in old(tasks) && r in quick
      ensures if done then !Active(State(), r) && r !in tasks else State() == old(State())
      ensures StopsAs(old(State()), State(), quick)
      ensures done && Active(old(State()), r) ==> WasCancelled(old(State()), State(), r)
    {
      hide Sound, OnlyEnds, FinishNext, FinishedAs, StopsAs, WasCancelled, SameAt;
      if r !in tasks || r !in quick {
        Unchanged(State(), quick);
        NothingStopped(State(), maxDepth, quick);
        return false;
      }
      CancelledTask(State(), maxDepth, r, quick);
      var ended := Finish(r, Cancellation);
      tasks := tasks - {r};
      done := true;
    }

    /** `stop_run`: first everything below, then the run itself. `quick` are the tasks that end within the timeout. */
    method StopRun(r: RunId, quick: set<RunId>) returns (result: StopResult)
      requires Valid()
      modifies this
      ensures Valid() && OnlyEnds(old(State()), State(), quick)
      ensures Falls(old(delegations), maxDepth) && OnlyBelow(old(State()), State(), maxDepth, r, true)
      ensures result == if r !in old(runs) then NoRun
                        else if Terminal(old(runs)[r].status) then AlreadyEnded
                        else if r !in old(tasks) then NoHandle
                        else if r !in quick then CancellationTimedOut
                        else Stopped
      ensures result.NoRun? || result.AlreadyEnded? ==> State() == old(State())
      ensures !result.NoRun? && !result.AlreadyEnded? ==>
                Settles(old(State()), State(), maxDepth, quick, r)
      ensures StopsAs(old(State()), State(), quick)
      ensures result.Stopped? ==> WasCancelled(old(State()), State(), r)
      ensures result.NoHandle? ==> WasFailed(old(State()), State(), r, NO_HANDLE)
      ensures result.CancellationTimedOut? ==> Untouched(old(State()), State(), r)
      decreases maxDepth - (if DepthOf(delegations, r) <= maxDepth then DepthOf(delegations, r) else maxDepth), 1
    {
      hide Sound, OnlyEnds, Settles, Under, FinishNext, FinishedAs, StopsAs, Untouched, WasCancelled, WasFailed;
      ghost var s := State();
      DelegationsFall(s, maxDepth);
      NothingStopped(s, maxDepth, quick);
      if r !in runs {
        Unchanged(s, quick);
        return NoRun;
      }
      if Terminal(runs[r].status) {
        Unchanged(s, quick);
        return AlreadyEnded;
      }
      StopDescendants(r, quick);
      ghost var t := State();
      NotUnderItself(s.delegations, maxDepth, r);
      assert SameAt(s, t, r);
      if r !in tasks {
        FailsWithoutTask(t, maxDepth, r, quick);
        var failed := Finish(r, Failure(NO_HANDLE));
        result := NoHandle;
      } else {
        var done := CancelTask(r, quick);
        if done {
          var ended := Finish(r, Cancellation);
        }
        result := if done then Stopped else CancellationTimedOut;
      }
      StoppedRun(s, t, State(), maxDepth, quick, r);
    }

    /** `_stop_descendants`: each child that is still active, after everything below it. */
    method StopDescendants(r: RunId, quick: set<RunId>)
      requires Valid()
      modifies this
      ensures Valid() && OnlyEnds(old(State()), State(), quick)
      ensures Falls(old(delegations), maxDepth) && OnlyBelow(old(State()), State(), maxDepth, r, false)
      ensures forall c :: ChildOf(old(State()), r, c) && Active(old(State()), c) ==>
                && Settles(old(State()), State(), maxDepth, quick, c)
                && StopLeaves(old(State()), State(), quick, c)
      ensures StopsAs(old(State()), State(), quick)
      decreases maxDepth - (if DepthOf(delegations, r) <= maxDepth then DepthOf(delegations, r) else maxDepth), 0
    {
      hide Sound, OnlyEnds, Settles, Under, Branch, BranchesDone, OnlyBelow;
      hide StopsAs, StopLeaves, WasCancelled, WasFailed, Untouched;
      ghost var s := State();
      DelegationsFall(s, maxDepth);
      var left := set c | c in delegations && delegations[c].parent == r;
      NoBranchDone(s, maxDepth, quick, r, left);
      while left != {}
        invariant Valid() && delegations == s.delegations
        invariant BranchesDone(s, State(), maxDepth, quick, r, left)
        invariant forall c :: c in left ==> ChildOf(s, r, c) && c in runs
      {
        var c :| c in left;
        ghost var t := State();
        assert DepthOf(delegations, r) < DepthOf(delegations, c) <= maxDepth;
        if Terminal(runs[c].status) {
          PassOver(s, t, maxDepth, quick, r, left, c);
        } else {
          StopDescendants(c, quick);
          ghost var u := State();
          KeepsTables(t, u, quick);
          NotUnderItself(s.delegations, maxDepth, c);
          StillThere(t, u, maxDepth, c);
          var result := StopRun(c, quick);
          KeepsTables(u, State(), quick);
          RunItself(u, State(), maxDepth, quick, c);
          StopBranch(s, t, u, State(), maxDepth, quick, r, left, c);
        }
        left := left - {c};
      }
      AllBranchesDone(s, State(), maxDepth, quick, r);
    }

    /** `RunRegistry.cancel_all`, and the runs of the tasks that ended in time: what is left are the other tasks. */
    method CancelAll(quick: set<RunId>) returns (timedOut: set<RunId>)
      requires Valid()
      modifies this
      ensures Valid() && timedOut == old(tasks).Keys - quick
      ensures ShutDownBut(old(State()), State(), quick, timedOut)
    {
      OneRunEach(State(), maxDepth);
      hide Sound, OnlyEnds, FinishNext, FinishedAs, ShutDownBut, StopsAs, ShutsOne, OneActive, SameAt;
      ghost var s := State();
      NothingShutDown(s, maxDepth, quick);
      var all := tasks.Keys;
      var left, completed := all, all * quick;
      while completed != {}
        invariant Valid() && completed <= left <= all && left - quick == all - quick && completed == left * quick
        invariant ShutDownBut(s, State(), quick, left)
        invariant forall q :: q in left ==> q in tasks
      {
        var r :| r in completed;
        ghost var t := State();
        var done := CancelTask(r, quick);
        var ended := Finish(r, Cancellation);
        CancelShutsOne(t, State(), quick, SHUTDOWN, r);
        OtherTasks(t, State(), r);
        ShutDownOne(s, t, State(), quick, left, r);
        left, completed := left - {r}, completed - {r};
      }
      assert left == (left - quick) + left * quick;
      timedOut := left;
    }

    /** `shutdown`: tasks that end in time leave their runs cancelled, the others' runs are failed, and it reports
        whether there were none of those. */
    method Shutdown(quick: set<RunId>) returns (clean: bool)
      requires Valid()
      modifies this
      ensures Valid() && OnlyEnds(old(State()), State(), quick)
      ensures clean <==> old(tasks).Keys <= quick
      ensures forall r :: r in old(tasks) ==> !Active(State(), r)
      ensures forall r :: r in old(runs) && r !in old(tasks) ==> runs[r] == old(runs)[r]
      ensures forall r :: Active(old(State()), r) ==>
                if r !in old(tasks) then Untouched(old(State()), State(), r)
                else if r in quick then WasCancelled(old(State()), State(), r)
                else WasFailed(old(State()), State(), r, SHUTDOWN)
    {
      OneRunEach(State(), maxDepth);
      hide Sound, OnlyEnds, FinishNext, FinishedAs, ShutDownBut, ShutsOne, OneActive;
      hide WasCancelled, WasFailed, Untouched;
      ghost var s := State();
      var timedOut := CancelAll(quick);
      clean := timedOut == {};
      assert forall r :: r in s.tasks.Keys ==> r in quick || r in timedOut;
      while timedOut != {}
        invariant Valid() && timedOut <= s.tasks.Keys - quick && ShutDownBut(s, State(), quick, timedOut)
      {
        var r :| r in timedOut;
        ghost var t := State();
        FailsAtShutdown(t, maxDepth, r, quick);
        var ended := Finish(r, Failure(SHUTDOWN));
        ShutDownOne(s, t, State(), quick, timedOut, r);
        timedOut := timedOut - {r};
      }
      AllShutDown(s, State(), quick);
    }
  }
}
