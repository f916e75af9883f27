/** services/manager.py: the stored agents and the team graphs that refer to them. Each call of the manager is one
    step. */
module AgentStores {
  import opened Prelude
  import opened Json
  import opened TeamGraphs
  import opened TeamParser

  type Agents = map<AgentId, Object>

  /** What the settings and the standard library fix: the worker limit and how a UUID reads. */
  datatype Reader = Reader(maxWorkers: nat, uuid: UuidParser)

  predicate IsTeam(graph: Object) {
    Get(graph, "runtime") == Str("team-v1")
  }

  /** The agents a graph that parses delegates to. */
  ghost predicate Refers(graph: Object, rd: Reader, a: AgentId) {
    Accepts(graph, rd.maxWorkers, rd.uuid) && exists n :: n in Decode(graph, rd.uuid).nodes && n.agentId == a
  }

  /** A team graph of `owner` parses, names existing agents, and does not name its owner. */
  ghost predicate GraphOk(agents: Agents, owner: AgentId, graph: Object, rd: Reader) {
    IsTeam(graph) ==>
      && Accepts(graph, rd.maxWorkers, rd.uuid)
      && (forall n :: n in Decode(graph, rd.uuid).nodes ==> n.agentId in agents && n.agentId != owner)
  }

  ghost predicate RefsOk(agents: Agents, rd: Reader) {
    forall a :: a in agents ==> GraphOk(agents, a, agents[a], rd)
  }

  datatype Call =
    | Create(agent: AgentId, graph: Object)
    | Update(agent: AgentId, graph: Object)
    | Delete(agent: AgentId, busy: bool)

  /** Another agent's graph refers to this one. */
  ghost predicate Referenced(agents: Agents, a: AgentId, rd: Reader) {
    exists b :: b in agents && b != a && Refers(agents[b], rd, a)
  }

  /** Whether the call goes through; a new agent gets an id that is not in use. */
  ghost predicate GoesThrough(agents: Agents, call: Call, rd: Reader) {
    match call
    case Create(a, graph) => a !in agents && GraphOk(agents, a, graph, rd)
    case Update(a, graph) => a in agents && GraphOk(agents, a, graph, rd)
    case Delete(a, busy) => a in agents && !busy && !Referenced(agents, a, rd)
  }

  ghost function Next(agents: Agents, call: Call, rd: Reader): Agents {
    if !GoesThrough(agents, call, rd) then agents
    else
      match call
      case Create(a, graph) => agents[a := graph]
      case Update(a, graph) => agents[a := graph]
      case Delete(a, _) => agents - {a}
  }

  lemma StoringKeepsRefs(agents: Agents, a: AgentId, graph: Object, rd: Reader)
    requires RefsOk(agents, rd) && GraphOk(agents, a, graph, rd)
    ensures RefsOk(agents[a := graph], rd)
  {
    hide Accepts, Decode;
    var stored := agents[a := graph];
    forall b | b in stored
      ensures GraphOk(stored, b, stored[b], rd)
    {
      assert b != a ==> GraphOk(agents, b, agents[b], rd);
    }
  }

  lemma DeletingKeepsRefs(agents: Agents, a: AgentId, rd: Reader)
    requires RefsOk(agents, rd) && !Referenced(agents, a, rd)
    ensures RefsOk(agents - {a}, rd)
  {
    hide Accepts, Decode;
    forall b | b in agents - {a}
      ensures GraphOk(agents - {a}, b, agents[b], rd)
    {
      assert GraphOk(agents, b, agents[b], rd);
      assert !Refers(agents[b], rd, a);
    }
  }

  lemma RefsOkNext(agents: Agents, call: Call, rd: Reader)
    requires RefsOk(agents, rd)
    ensures RefsOk(Next(agents, call, rd), rd)
  {
    hide GraphOk, RefsOk, Referenced;
    if GoesThrough(agents, call, rd) {
      match call
      case Create(a, graph) => StoringKeepsRefs(agents, a, graph, rd);
      case Update(a, graph) => StoringKeepsRefs(agents, a, graph, rd);
      case Delete(a, _) => DeletingKeepsRefs(agents, a, rd);
    }
  }

  /** The agents after a history of calls under one setting. */
  ghost function After(calls: seq<Call>, rd: Reader): Agents {
    if calls == [] then map[] else Next(After(calls[..|calls| - 1], rd), calls[|calls| - 1], rd)
  }

  /** Every stored team graph refers to existing agents other than its owner, whatever was created, edited or
      deleted. */
  lemma {:induction false} StoredTeamsResolve(calls: seq<Call>, rd: Reader)
    ensures RefsOk(After(calls, rd), rd)
  {
    hide RefsOk, Next;
    if calls == [] {
      NothingRefers(rd);
    } else {
      StoredTeamsResolve(calls[..|calls| - 1], rd);
      RefsOkNext(After(calls[..|calls| - 1], rd), calls[|calls| - 1], rd);
    }
  }

  lemma NothingRefers(rd: Reader)
    ensures RefsOk(map[], rd)
  {
  }

  /** Another agent's stored team names this one as a worker. */
  ghost predicate TeamNames(agents: Agents, b: AgentId, a: AgentId, rd: Reader) {
    b in agents && b != a && Refers(agents[b], rd, a)
  }

  /** The parser rejects a graph for its size. */
  predicate TooBig(graph: Object, rd: Reader) {
    Get(graph, "nodes").List? && |Get(graph, "nodes").items| > rd.maxWorkers
  }

  lemma OnlySizeMatters(graph: Object, rd: Reader, now: Reader)
    requires IsTeam(graph) ==> Accepts(graph, rd.maxWorkers, rd.uuid)
    requires now.uuid == rd.uuid
    ensures Accepts(graph, now.maxWorkers, now.uuid) <==> IsTeam(graph) && !TooBig(graph, now)
  {
    hide EntriesOk, TeamGraph.Closed, DistinctEdgeIds, HasCycle, Decode;
  }

  lemma AcceptedIsTeam(graph: Object, rd: Reader)
    ensures Accepts(graph, rd.maxWorkers, rd.uuid) ==> IsTeam(graph)
  {
    hide EntriesOk, TeamGraph.Closed, DistinctEdgeIds, HasCycle, Decode;
  }

  lemma RefersUnder(agents: Agents, b: AgentId, a: AgentId, rd: Reader, now: Reader)
    requires RefsOk(agents, rd) && now.uuid == rd.uuid && b in agents
    ensures Refers(agents[b], now, a) <==> Refers(agents[b], rd, a) && !TooBig(agents[b], now)
  {
    assert GraphOk(agents, b, agents[b], rd);
    OnlySizeMatters(agents[b], rd, now);
    AcceptedIsTeam(agents[b], rd);
    hide Accepts, Decode, TooBig;
  }

  lemma MissingWorker(agents: Agents, b: AgentId, a: AgentId, rd: Reader)
    requires TeamNames(agents, b, a, rd)
    ensures !RefsOk(agents - {a}, rd)
  {
    AcceptedIsTeam(agents[b], rd);
    hide Accepts, Decode;
    assert b in agents - {a} && !GraphOk(agents - {a}, b, agents[b], rd);
  }

  /** The check before a delete skips the graphs that do not parse. Under another worker limit than the one they were
      stored under, the delete of an idle agent goes through and leaves a team with a missing worker exactly when some
      other team names the agent and every such team has more workers than the limit now allows. */
  lemma DeletingUnderAnotherLimit(agents: Agents, a: AgentId, rd: Reader, now: Reader)
    requires RefsOk(agents, rd) && now.uuid == rd.uuid && a in agents
    ensures GoesThrough(agents, Delete(a, false), now) && !RefsOk(Next(agents, Delete(a, false), now), rd)
            <==> && (exists b :: TeamNames(agents, b, a, rd))
                 && (forall b :: TeamNames(agents, b, a, rd) ==> TooBig(agents[b], now))
  {
    hide Refers, RefsOk, TooBig;
    forall b | b in agents
      ensures Refers(agents[b], now, a) <==> Refers(agents[b], rd, a) && !TooBig(agents[b], now)
    {
      RefersUnder(agents, b, a, rd, now);
    }
    if b :| TeamNames(agents, b, a, rd) {
      MissingWorker(agents, b, a, rd);
    } else {
      assert forall b :: b in agents && b != a ==> !TeamNames(agents, b, a, rd);
      DeletingKeepsRefs(agents, a, rd);
    }
  }

  // ---------------------------------------------------------------- a team that is left with a missing worker

  function Worker(id: string, agent: string): Value {
    Obj(map["id" := Str(id), "type" := Str("agent-ref"), "label" := Str(""), "agent_id" := Str(agent)])
  }

  /** Two workers that are the same agent. */
  function Pair(agent: string): Object {
    map["version" := Int(2), "runtime" := Str("team-v1"), "nodes" := List([Worker("a", agent), Worker("b", agent)]),
        "edges" := List([])]
  }

  lemma WorkerReads(id: string, agent: string, uuid: UuidParser)
    requires id != "" && uuid(agent).Some?
    ensures NodeOk(Worker(id, agent), uuid)
    ensures NodeFrom(Worker(id, agent), uuid) == TeamNode(id, "", uuid(agent).value, None)
  {
    var fields := Worker(id, agent).fields;
    assert fields.Keys == {"id", "type", "label", "agent_id"};
    assert "type"[0] != "id"[0] && "label"[0] != "type"[0] && "agent_id"[0] != "label"[0];
    assert |"instructions"| > |"agent_id"|;
  }

  lemma PairHeader(agent: string)
    ensures HeaderOk(Pair(agent)) && IsTeam(Pair(agent))
    ensures Get(Pair(agent), "nodes").items == [Worker("a", agent), Worker("b", agent)]
    ensures Get(Pair(agent), "edges").items == []
  {
    hide Worker;
    assert Pair(agent).Keys == {"version", "runtime", "nodes", "edges"};
    assert "version"[0] != "runtime"[0] && "nodes"[0] != "edges"[0];
  }

  lemma PairIsDag(g: TeamGraph)
    requires |g.nodes| == 2 && g.nodes[0].id == "a" && g.nodes[1].id == "b" && g.edges == []
    ensures g.Closed() && DistinctEdgeIds(g) && !HasCycle(g)
  {
    assert forall p :: Walk(g, p) && |p| >= 2 ==> g.Edge(p[0], p[1]);
  }

  lemma PairReads(agent: string, uuid: UuidParser, maxWorkers: nat)
    requires uuid(agent).Some? && maxWorkers >= 2
    ensures Accepts(Pair(agent), maxWorkers, uuid)
    ensures forall n :: n in Decode(Pair(agent), uuid).nodes ==> n.agentId == uuid(agent).value
    ensures |Decode(Pair(agent), uuid).nodes| == 2
  {
    PairHeader(agent);
    WorkerReads("a", agent, uuid);
    WorkerReads("b", agent, uuid);
    hide Worker, Pair, NodeOk, NodeFrom, HeaderOk, HasCycle, TeamGraph.Closed, DistinctEdgeIds;
    PairIsDag(Decode(Pair(agent), uuid));
  }

  lemma PairIsStored(agent: string, uuid: UuidParser, owner: AgentId, a: AgentId)
    requires uuid(agent) == Some(a) && a != owner
    ensures After([Create(a, map[]), Create(owner, Pair(agent))], Reader(2, uuid))
            == map[a := map[], owner := Pair(agent)]
  {
    hide Pair, Accepts, Decode;
    PairReads(agent, uuid, 2);
    PairHeader(agent);
    var calls := [Create(a, map[]), Create(owner, Pair(agent))];
    assert calls[..1] == [Create(a, map[])] && calls[..0] == [];
    assert After(calls[..1], Reader(2, uuid)) == map[a := map[]];
  }

  /** For example: two agents are created under a limit of two, the second one a team of the first; once the limit is
      one, the first can be deleted. */
  lemma LoweringTheLimitLosesAWorker(agent: string, uuid: UuidParser, owner: AgentId)
    requires uuid(agent).Some? && uuid(agent).value != owner
    ensures var a, rd := uuid(agent).value, Reader(2, uuid);
            var stored := After([Create(a, map[]), Create(owner, Pair(agent))], rd);
            && RefsOk(stored, rd)
            && GoesThrough(stored, Delete(a, false), Reader(1, uuid))
            && !RefsOk(Next(stored, Delete(a, false), Reader(1, uuid)), rd)
  {
    hide Pair, Accepts, Decode, After, RefsOk, Next, GoesThrough;
    var a, rd := uuid(agent).value, Reader(2, uuid);
    PairIsStored(agent, uuid, owner, a);
    StoredTeamsResolve([Create(a, map[]), Create(owner, Pair(agent))], rd);
    var stored: Agents := map[a := map[], owner := Pair(agent)];
    PairReads(agent, uuid, 2);
    PairHeader(agent);
    assert Decode(Pair(agent), uuid).nodes[0] in Decode(Pair(agent), uuid).nodes;
    assert TeamNames(stored, owner, a, rd);
    DeletingUnderAnotherLimit(stored, a, rd, Reader(1, uuid));
  }

  // ---------------------------------------------------------------- the manager's methods

  /** The workers exist, and none is the owner. */
  ghost predicate NamesOk(nodes: seq<TeamNode>, known: set<AgentId>, owner: Option<AgentId>) {
    forall n :: n in nodes ==> n.agentId in known && Some(n.agentId) != owner
  }

  /** All workers up to this one are in order, and this one is not. */
  ghost predicate FirstWrong(nodes: seq<TeamNode>, known: set<AgentId>, owner: Option<AgentId>, i: nat) {
    && i < |nodes| && NamesOk(nodes[..i], known, owner)
    && (nodes[i].agentId !in known || Some(nodes[i].agentId) == owner)
  }

  /** Of a first wrong worker it is said that it is the owner, or else that it does not exist. */
  ghost predicate NameProblemIs(nodes: seq<TeamNode>, known: set<AgentId>, owner: Option<AgentId>, problem: Outcome) {
    exists i: nat :: FirstWrong(nodes, known, owner, i)
                     && problem == if Some(nodes[i].agentId) == owner then DelegatesToItself else UnknownAgent
  }

  ghost predicate ProblemIs(graph: Object, rd: Reader, known: set<AgentId>, owner: Option<AgentId>, problem: Outcome) {
    if !Accepts(graph, rd.maxWorkers, rd.uuid) then problem.BadGraph?
    else NameProblemIs(Decode(graph, rd.uuid).nodes, known, owner, problem)
  }

  datatype Outcome = Done | NotFound | BadGraph(reason: Reason) | DelegatesToItself | UnknownAgent | HasActiveRun
                   | IsReferenced

  class AgentStore {
    const reader: Reader
    var agents: Agents

    ghost predicate Valid()
      reads this
    {
      RefsOk(agents, reader)
    }

    constructor (reader: Reader)
      ensures Valid() && this.reader == reader && agents == map[]
    {
      this.reader := reader;
      agents := map[];
    }

    /** `_validate_team_graph`: the first worker that is the owner, or that does not exist, decides. */
    method Validate(owner: Option<AgentId>, graph: Object) returns (problem: Option<Outcome>)
      ensures problem.None? <==>
                ("runtime" in graph && graph["runtime"] == Str("team-v1") ==>
                   && Accepts(graph, reader.maxWorkers, reader.uuid)
                   && NamesOk(Decode(graph, reader.uuid).nodes, agents.Keys, owner))
      ensures problem.Some? ==> ProblemIs(graph, reader, agents.Keys, owner, problem.value)
    {
      hide Accepts, Decode;
      if !IsTeam(graph) {
        return None;
      }
      var parsed := ParseTeamGraph(graph, reader.maxWorkers, reader.uuid);
      if parsed.Rejected? {
        return Some(BadGraph(parsed.reason));
      }
      problem := CheckNames(owner, parsed.graph.nodes);
    }

    /** The loop over the workers. */
    method CheckNames(owner: Option<AgentId>, nodes: seq<TeamNode>) returns (problem: Option<Outcome>)
      ensures problem.None? <==> NamesOk(nodes, agents.Keys, owner)
      ensures problem.Some? ==> NameProblemIs(nodes, agents.Keys, owner, problem.value)
    {
      var i := 0;
      while i < |nodes|
        invariant i <= |nodes|
        invariant NamesOk(nodes[..i], agents.Keys, owner)
      {
        assert nodes[i] in nodes;
        assert nodes[..i + 1] == nodes[..i] + [nodes[i]];
        if Some(nodes[i].agentId) == owner {
          return Some(DelegatesToItself);
        }
        if nodes[i].agentId !in agents {
          return Some(UnknownAgent);
        }
        i := i + 1;
      }
      assert nodes[..|nodes|] == nodes;
      problem := None;
    }

    /** `create_agent`: checked before the row exists and again with it. */
    method CreateAgent(a: AgentId, graph: Object) returns (outcome: Outcome)
      requires Valid() && a !in agents
      modifies this
      ensures Valid() && agents == Next(old(agents), Create(a, graph), reader)
      ensures outcome.Done? <==> GoesThrough(old(agents), Create(a, graph), reader)
      ensures agents == if outcome.Done? then old(agents)[a := graph] else old(agents)
      ensures !outcome.Done? ==> ProblemIs(graph, reader, old(agents).Keys, None, outcome)
    {
      hide Accepts, Decode, RefsOk;
      RefsOkNext(agents, Create(a, graph), reader);
      var problem := Validate(None, graph);
      if problem.Some? {
        return problem.value;
      }
      assert GraphOk(agents, a, graph, reader);
      ghost var before := agents;
      agents := agents[a := graph];
      problem := Validate(Some(a), graph);
      assert problem.None?;
      outcome := Done;
    }

    /** `update_agent_graph`. */
    method UpdateAgentGraph(a: AgentId, graph: Object) returns (outcome: Outcome)
      requires Valid()
      modifies this
      ensures Valid() && agents == Next(old(agents), Update(a, graph), reader)
      ensures outcome.Done? <==> GoesThrough(old(agents), Update(a, graph), reader)
      ensures outcome.NotFound? <==> a !in old(agents)
      ensures agents == if outcome.Done? then old(agents)[a := graph] else old(agents)
      ensures !outcome.Done? && !outcome.NotFound? ==> ProblemIs(graph, reader, old(agents).Keys, Some(a), outcome)
    {
      hide Accepts, Decode, RefsOk;
      RefsOkNext(agents, Update(a, graph), reader);
      if a !in agents {
        return NotFound;
      }
      var problem := Validate(Some(a), graph);
      if problem.Some? {
        return problem.value;
      }
      assert GraphOk(agents, a, graph, reader);
      agents := agents[a := graph];
      outcome := Done;
    }

    method RefersTo(graph: Object, a: AgentId) returns (refers: bool)
      ensures refers <==> Refers(graph, reader, a)
    {
      hide Accepts, Decode;
      var parsed := ParseTeamGraph(graph, reader.maxWorkers, reader.uuid);
      if parsed.Rejected? {
        return false;
      }
      refers := exists n :: n in parsed.graph.nodes && n.agentId == a;
    }

    /** `delete_agent`: an active run or a team of another agent prevents it. */
    method DeleteAgent(a: AgentId, busy: bool) returns (outcome: Outcome)
      requires Valid()
      modifies this
      ensures Valid() && agents == Next(old(agents), Delete(a, busy), reader)
      ensures outcome.Done? <==> GoesThrough(old(agents), Delete(a, busy), reader)
      ensures outcome == if a !in old(agents) then NotFound
                         else if busy then HasActiveRun
                         else if exists b :: b in old(agents) && b != a && Refers(old(agents)[b], reader, a)
                         then IsReferenced
                         else Done
      ensures agents == if outcome.Done? then old(agents) - {a} else old(agents)
    {
      hide Accepts, Decode, RefsOk, Refers;
      RefsOkNext(agents, Delete(a, busy), reader);
      if a !in agents {
        return NotFound;
      }
      if busy {
        return HasActiveRun;
      }
      var candidates := agents.Keys - {a};
      while candidates != {}
        invariant candidates <= agents.Keys - {a} && agents == old(agents)
        invariant forall b :: b in agents && b != a && b !in candidates ==> !Refers(agents[b], reader, a)
      {
        var b :| b in candidates;
        var refers := RefersTo(agents[b], a);
        if refers {
          return IsReferenced;
        }
        candidates := candidates - {b};
      }
      agents := agents - {a};
      outcome := Done;
    }
  }
}
