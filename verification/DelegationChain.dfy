/** A history of the lifecycle machine after which stored depths are no longer distances: a chain of three delegations
    runs to its end, and then the agent at the top is deleted. */
module DelegationChains {
  import opened Prelude
  import opened Lifecycles
  import opened LifecycleRuns

  datatype Stage = Waits | Executes | Done

  function StatusAt(stage: Stage): RunStatus {
    match stage
    case Waits => Queued
    case Executes => Running
    case Done => Succeeded
  }

  ghost predicate RowAt(s: Store, stages: seq<Stage>, r: RunId)
    requires r < |stages|
  {
    && r in s.runs && s.runs[r].agent == r && s.runs[r].status == StatusAt(stages[r])
    && (r in s.tasks <==> !stages[r].Done?)
    && (r in s.tasks ==> s.tasks[r] == Task(stages[r].Executes?, Context(r, seq(r, i => i))))
    && (r in s.delegations <==> r > 0)
    && (r > 0 ==> s.delegations[r] == Delegation(r - 1, 0, r))
  }

  ghost predicate OnlyThese(s: Store, agents: nat, n: nat) {
    && s.serving
    && (forall a :: a in s.agents <==> 0 <= a < agents)
    && (forall r :: r in s.runs || r in s.origins || r in s.tasks || r in s.delegations ==> 0 <= r < n)
  }

  /** The first agents exist; run `i` belongs to agent `i` and was delegated to by run `i - 1`, the first by nobody. */
  ghost predicate Chain(s: Store, agents: nat, stages: seq<Stage>) {
    OnlyThese(s, agents, |stages|) && forall r :: 0 <= r < |stages| ==> RowAt(s, stages, r)
  }

  lemma NothingYet()
    ensures Chain(EMPTY, 0, [])
  {
  }

  lemma AgentJoins(s: Store, maxDepth: nat, agents: nat, spec: Spec)
    requires Chain(s, agents, [])
    ensures Chain(Next(s, maxDepth, CreateAgent(agents, spec)), agents + 1, [])
  {
  }

  /** Whom the next run of the chain is delegated by. */
  function ViaLast(n: nat): Option<Via> {
    if n == 0 then None else Some(Via(n - 1, 0))
  }

  lemma RunMayJoin(s: Store, maxDepth: nat, agents: nat, stages: seq<Stage>)
    requires Chain(s, agents, stages) && |stages| < agents && |stages| <= maxDepth
    requires stages != [] ==> stages[|stages| - 1].Executes?
    ensures MayStart(s, maxDepth, |stages|, |stages|, ViaLast(|stages|))
    ensures ContextOf(s, ViaLast(|stages|)) == Context(|stages|, seq(|stages|, i => i))
  {
    var n := |stages|;
    assert n > 0 ==> RowAt(s, stages, n - 1);
    forall r
      ensures !ActiveFor(s, r, n)
    {
      assert r in s.runs ==> RowAt(s, stages, r);
    }
    forall c | c in s.delegations
      ensures n > 0 ==> !(s.delegations[c].parent == n - 1 && s.delegations[c].node == 0)
    {
      assert RowAt(s, stages, c);
    }
  }

  lemma StartAdds(s: Store, maxDepth: nat, r: RunId, a: AgentId, via: Option<Via>)
    requires s.serving && MayStart(s, maxDepth, r, a, via)
    ensures var s' := Next(s, maxDepth, Start(r, a, via, true));
            && s'.runs == s.runs[r := RunRow(a, Queued, None, None, s.agents[a].spec)]
            && s'.tasks == s.tasks[r := Task(false, ContextOf(s, via))]
            && s'.delegations == (if via.None? then s.delegations
                                  else s.delegations[r := Delegation(via.value.parent, via.value.node,
                                                                     ContextOf(s, via).depth)])
            && s'.origins.Keys == s.origins.Keys + {r}
            && s'.agents.Keys == s.agents.Keys && s'.serving
  {
    hide Append, ContextOf, HasActive;
  }

  lemma RunJoins(s: Store, maxDepth: nat, agents: nat, stages: seq<Stage>, stages': seq<Stage>)
    requires Chain(s, agents, stages) && |stages| < agents && |stages| <= maxDepth
    requires stages != [] ==> stages[|stages| - 1].Executes?
    requires stages' == stages + [Waits]
    ensures Chain(Next(s, maxDepth, Start(|stages|, |stages|, ViaLast(|stages|), true)), agents, stages')
  {
    hide Next, MayStart, ContextOf;
    var n := |stages|;
    RunMayJoin(s, maxDepth, agents, stages);
    StartAdds(s, maxDepth, n, n, ViaLast(n));
    var s' := Next(s, maxDepth, Start(n, n, ViaLast(n), true));
    forall r | 0 <= r < |stages'|
      ensures RowAt(s', stages', r)
    {
      assert r < n ==> RowAt(s, stages, r);
    }
  }

  /** Only this run's row and the tasks have changed, if the agents' statuses and the logs are left aside. */
  ghost predicate Moves(s: Store, s': Store, r: RunId, run: RunRow, tasks: map<RunId, Task>) {
    && s'.runs == s.runs[r := run] && s'.tasks == tasks
    && s'.delegations == s.delegations && s'.origins == s.origins
    && s'.agents.Keys == s.agents.Keys && s'.serving == s.serving
  }

  lemma MarkMoves(s: Store, maxDepth: nat, r: RunId)
    requires s.serving && r in s.tasks && !s.tasks[r].executing && Active(s, r)
    ensures Moves(s, Next(s, maxDepth, MarkRunning(r)), r, s.runs[r].(status := Running),
                  s.tasks[r := s.tasks[r].(executing := true)])
  {
    hide Append, LogOf;
  }

  lemma FinishMoves(s: Store, maxDepth: nat, r: RunId)
    requires s.serving && r in s.tasks && s.tasks[r].executing && Active(s, r)
    ensures Moves(s, Next(Next(s, maxDepth, Finish(r, Success("done"))), maxDepth, TaskEnds(r)), r,
                  s.runs[r].(status := Succeeded, output := Some("done")), s.tasks - {r})
  {
    hide Append, LogOf;
  }

  lemma StageMoves(s: Store, s': Store, agents: nat, stages: seq<Stage>, r: RunId, stages': seq<Stage>, run: RunRow,
                   tasks: map<RunId, Task>)
    requires Chain(s, agents, stages) && r < |stages| == |stages'| && stages' == stages[r := stages'[r]]
    requires Moves(s, s', r, run, tasks)
    requires run.agent == r && run.status == StatusAt(stages'[r])
    requires tasks == if stages'[r].Done? then s.tasks - {r}
                      else s.tasks[r := Task(stages'[r].Executes?, Context(r, seq(r, i => i)))]
    ensures Chain(s', agents, stages')
  {
    forall q | 0 <= q < |stages'|
      ensures RowAt(s', stages', q)
    {
      assert RowAt(s, stages, q);
    }
  }

  lemma RunBegins(s: Store, maxDepth: nat, agents: nat, stages: seq<Stage>, r: RunId, stages': seq<Stage>)
    requires Chain(s, agents, stages) && r < |stages| && stages[r].Waits? && stages' == stages[r := Executes]
    ensures Chain(Next(s, maxDepth, MarkRunning(r)), agents, stages')
  {
    hide Next;
    assert RowAt(s, stages, r);
    MarkMoves(s, maxDepth, r);
    hide Moves;
    StageMoves(s, Next(s, maxDepth, MarkRunning(r)), agents, stages, r, stages', s.runs[r].(status := Running),
               s.tasks[r := s.tasks[r].(executing := true)]);
  }

  lemma RunEnds(s: Store, maxDepth: nat, agents: nat, stages: seq<Stage>, r: RunId, stages': seq<Stage>)
    requires Chain(s, agents, stages) && r < |stages| && stages[r].Executes? && stages' == stages[r := Done]
    ensures Chain(Next(Next(s, maxDepth, Finish(r, Success("done"))), maxDepth, TaskEnds(r)), agents, stages')
  {
    hide Next;
    assert RowAt(s, stages, r);
    FinishMoves(s, maxDepth, r);
    hide Moves;
    StageMoves(s, Next(Next(s, maxDepth, Finish(r, Success("done"))), maxDepth, TaskEnds(r)), agents, stages, r,
               stages', s.runs[r].(status := Succeeded, output := Some("done")), s.tasks - {r});
  }

  const CHAIN := [CreateAgent(0, 0), CreateAgent(1, 0), CreateAgent(2, 0),
                  Start(0, 0, None, true), MarkRunning(0),
                  Start(1, 1, Some(Via(0, 0)), true), MarkRunning(1),
                  Start(2, 2, Some(Via(1, 0)), true), MarkRunning(2),
                  Finish(2, Success("done")), TaskEnds(2), Finish(1, Success("done")), TaskEnds(1),
                  Finish(0, Success("done")), TaskEnds(0)]

  lemma AgentsJoin(maxDepth: nat)
    ensures Chain(LifecycleRuns.Run(maxDepth, CHAIN[..3]), 3, [])
  {
    hide Next, Chain;
    NothingYet();
    assert CHAIN[..0] == [];
    LastStep(maxDepth, CHAIN, 0);
    LastStep(maxDepth, CHAIN, 1);
    LastStep(maxDepth, CHAIN, 2);
    hide LifecycleRuns.Run;
    AgentJoins(EMPTY, maxDepth, 0, 0);
    AgentJoins(LifecycleRuns.Run(maxDepth, CHAIN[..1]), maxDepth, 1, 0);
    AgentJoins(LifecycleRuns.Run(maxDepth, CHAIN[..2]), maxDepth, 2, 0);
  }

  lemma ChainGrows(maxDepth: nat)
    requires maxDepth >= 2
    ensures Chain(LifecycleRuns.Run(maxDepth, CHAIN[..9]), 3, [Executes, Executes, Executes])
  {
    hide LifecycleRuns.Run, Next, Chain;
    AgentsJoin(maxDepth);
    LastStep(maxDepth, CHAIN, 3);
    LastStep(maxDepth, CHAIN, 4);
    LastStep(maxDepth, CHAIN, 5);
    LastStep(maxDepth, CHAIN, 6);
    LastStep(maxDepth, CHAIN, 7);
    LastStep(maxDepth, CHAIN, 8);
    RunJoins(LifecycleRuns.Run(maxDepth, CHAIN[..3]), maxDepth, 3, [], [Waits]);
    RunBegins(LifecycleRuns.Run(maxDepth, CHAIN[..4]), maxDepth, 3, [Waits], 0, [Executes]);
    RunJoins(LifecycleRuns.Run(maxDepth, CHAIN[..5]), maxDepth, 3, [Executes], [Executes, Waits]);
    RunBegins(LifecycleRuns.Run(maxDepth, CHAIN[..6]), maxDepth, 3, [Executes, Waits], 1, [Executes, Executes]);
    RunJoins(LifecycleRuns.Run(maxDepth, CHAIN[..7]), maxDepth, 3, [Executes, Executes], [Executes, Executes, Waits]);
    RunBegins(LifecycleRuns.Run(maxDepth, CHAIN[..8]), maxDepth, 3, [Executes, Executes, Waits], 2,
              [Executes, Executes, Executes]);
  }

  lemma ChainEnds(maxDepth: nat)
    requires maxDepth >= 2
    ensures Chain(LifecycleRuns.Run(maxDepth, CHAIN), 3, [Done, Done, Done])
  {
    hide LifecycleRuns.Run, Next, Chain;
    ChainGrows(maxDepth);
    LastStep(maxDepth, CHAIN, 9);
    LastStep(maxDepth, CHAIN, 10);
    LastStep(maxDepth, CHAIN, 11);
    LastStep(maxDepth, CHAIN, 12);
    LastStep(maxDepth, CHAIN, 13);
    LastStep(maxDepth, CHAIN, 14);
    assert CHAIN[..15] == CHAIN;
    RunEnds(LifecycleRuns.Run(maxDepth, CHAIN[..9]), maxDepth, 3, [Executes, Executes, Executes], 2,
            [Executes, Executes, Done]);
    RunEnds(LifecycleRuns.Run(maxDepth, CHAIN[..11]), maxDepth, 3, [Executes, Executes, Done], 1,
            [Executes, Done, Done]);
    RunEnds(LifecycleRuns.Run(maxDepth, CHAIN[..13]), maxDepth, 3, [Executes, Done, Done], 0, [Done, Done, Done]);
  }

  /** The chain in the store. */
  lemma ChainIsPath(s: Store)
    requires Chain(s, 3, [Done, Done, Done])
    ensures s.serving && DelegationPath(s, [0, 1, 2])
    ensures 0 in s.runs && s.runs[0].agent == 0 && !HasActive(s, 0)
    ensures 2 in s.delegations && s.delegations[2].depth == 2
  {
    var stages := [Done, Done, Done];
    assert RowAt(s, stages, 0) && RowAt(s, stages, 1) && RowAt(s, stages, 2);
    forall j | 0 < j < 3
      ensures IsStep(s, [0, 1, 2], j)
    {
    }
  }

  lemma DeleteKeepsDepth(s: Store, maxDepth: nat)
    requires Sound(s, maxDepth) && Chain(s, 3, [Done, Done, Done])
    ensures var s' := Next(s, maxDepth, DeleteAgent(0));
            && 1 in s'.runs && 1 !in s'.delegations
            && 2 in s'.delegations && s'.delegations[2].parent == 1 && s'.delegations[2].depth == 2
  {
    hide Sound, Chain;
    ChainIsPath(s);
    DeletingTheRootLeavesDepths(s, maxDepth, [0, 1, 2]);
  }

  /** From an empty store, wherever two delegations are allowed on a path: three runs that delegate in a row end, the
      first one's agent is deleted, and the last run, now one step from its root, keeps its depth of two. */
  lemma DepthOutlivesTheRoot(maxDepth: nat)
    requires maxDepth >= 2
    ensures var s := LifecycleRuns.Run(maxDepth, CHAIN + [DeleteAgent(0)]);
            && 1 in s.runs && 1 !in s.delegations
            && 2 in s.delegations && s.delegations[2].parent == 1 && s.delegations[2].depth == 2
  {
    hide LifecycleRuns.Run, Sound, Chain, Next;
    ChainEnds(maxDepth);
    AlwaysSound(maxDepth, CHAIN);
    var events := CHAIN + [DeleteAgent(0)];
    assert events[..15] == CHAIN && events[..16] == events;
    LastStep(maxDepth, events, 15);
    DeleteKeepsDepth(LifecycleRuns.Run(maxDepth, CHAIN), maxDepth);
  }
}
