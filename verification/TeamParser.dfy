/** domain/orchestration.py: `parse_team_graph`, from an untrusted JSON object to a team graph. */
module TeamParser {
  import opened Prelude
  import opened Json
  import opened TeamGraphs

  datatype Reason =
    | UnsupportedFields | WrongVersion | NotLists | NoWorkers | WorkerLimit | TooManyEdges
    | NodeFields | NodeType | DuplicateNode | NoAgent | BadInstructions | BadUuid
    | EdgeFields | EdgeText | DuplicateEdge | MissingNode | SelfCycle | NotADag

  datatype Parsed = Accepted(graph: TeamGraph) | Rejected(reason: Reason)

  const GRAPH_FIELDS := {"version", "runtime", "nodes", "edges"}
  const NODE_FIELDS := {"id", "type", "label", "position", "agent_id", "instructions"}
  const EDGE_FIELDS := {"id", "source", "target"}
  const MAX_EDGES := 200
  const MAX_INSTRUCTIONS := 4_000

  /** The constructor UUID(text), None where it raises ValueError. */
  type UuidParser = string -> Option<AgentId>

  predicate Text(v: Value) {
    v.Str? && v.s != ""
  }

  // ---------------------------------------------------------------- what a well-formed graph is

  ghost predicate HeaderOk(raw: Object) {
    && raw.Keys <= GRAPH_FIELDS
    && EqualsInt(Get(raw, "version"), 2)
    && Get(raw, "runtime") == Str("team-v1")
    && Get(raw, "nodes").List?
    && Get(raw, "edges").List?
  }

  ghost predicate NodeOk(v: Value, uuid: UuidParser) {
    && v.Obj?
    && v.fields.Keys <= NODE_FIELDS
    && Get(v.fields, "type") == Str("agent-ref")
    && Text(Get(v.fields, "id"))
    && Get(v.fields, "label").Str?
    && Get(v.fields, "agent_id").Str?
    && uuid(Get(v.fields, "agent_id").s).Some?
    && var notes := Get(v.fields, "instructions");
       notes.Null? || (notes.Str? && |notes.s| <= MAX_INSTRUCTIONS)
  }

  ghost predicate EdgeOk(v: Value) {
    && v.Obj?
    && v.fields.Keys <= EDGE_FIELDS
    && Text(Get(v.fields, "id"))
    && Text(Get(v.fields, "source"))
    && Text(Get(v.fields, "target"))
  }

  ghost function NodeFrom(v: Value, uuid: UuidParser): TeamNode
    requires NodeOk(v, uuid)
  {
    var notes := Get(v.fields, "instructions");
    TeamNode(Get(v.fields, "id").s, Get(v.fields, "label").s, uuid(Get(v.fields, "agent_id").s).value,
             if notes.Str? then Some(notes.s) else None)
  }

  ghost function EdgeFrom(v: Value): TeamEdge
    requires EdgeOk(v)
  {
    TeamEdge(Get(v.fields, "id").s, Get(v.fields, "source").s, Get(v.fields, "target").s)
  }

  ghost predicate EntriesOk(raw: Object, uuid: UuidParser)
    requires HeaderOk(raw)
  {
    && (forall v :: v in Get(raw, "nodes").items ==> NodeOk(v, uuid))
    && (forall v :: v in Get(raw, "edges").items ==> EdgeOk(v))
  }

  /** The graph a well-formed object describes, entry by entry and in order. */
  ghost function Decode(raw: Object, uuid: UuidParser): TeamGraph
    requires HeaderOk(raw) && EntriesOk(raw, uuid)
  {
    var nodes, edges := Get(raw, "nodes").items, Get(raw, "edges").items;
    TeamGraph(seq(|nodes|, i requires 0 <= i < |nodes| => NodeFrom(nodes[i], uuid)),
              seq(|edges|, i requires 0 <= i < |edges| => EdgeFrom(edges[i])))
  }

  /** Every field check except the two about cycles. */
  ghost predicate WellFormed(raw: Object, maxWorkers: nat, uuid: UuidParser) {
    && HeaderOk(raw)
    && 0 < |Get(raw, "nodes").items| <= maxWorkers
    && |Get(raw, "edges").items| <= MAX_EDGES
    && EntriesOk(raw, uuid)
    && var g := Decode(raw, uuid);
       && g.Closed()
       && DistinctEdgeIds(g)
  }

  ghost predicate DistinctEdgeIds(g: TeamGraph) {
    forall i, j :: 0 <= i < j < |g.edges| ==> g.edges[i].id != g.edges[j].id
  }

  /** `parse_team_graph` as a function: the well-formed DAGs and nothing else. */
  ghost predicate Accepts(raw: Object, maxWorkers: nat, uuid: UuidParser) {
    WellFormed(raw, maxWorkers, uuid) && !HasCycle(Decode(raw, uuid))
  }

  /** Some entry is no node, or two entries claim one id. */
  ghost predicate NodesBad(items: seq<Value>, uuid: UuidParser) {
    || (exists v :: v in items && !NodeOk(v, uuid))
    || (exists i, j :: 0 <= i < j < |items| && NodeOk(items[i], uuid) && NodeOk(items[j], uuid)
                       && NodeFrom(items[i], uuid).id == NodeFrom(items[j], uuid).id)
  }

  /** Some entry is no edge, two entries claim one id, or an edge leaves the nodes or loops on one of them. */
  ghost predicate EdgesBad(items: seq<Value>, ids: set<string>) {
    || (exists v :: v in items && !EdgeOk(v))
    || SharedEdgeId(items)
    || (exists v :: v in items && StrayEdge(v, ids))
  }

  ghost predicate SharedEdgeId(items: seq<Value>) {
    exists i, j :: 0 <= i < j < |items| && EdgeOk(items[i]) && EdgeOk(items[j])
                   && EdgeFrom(items[i]).id == EdgeFrom(items[j]).id
  }

  ghost predicate StrayEdge(v: Value, ids: set<string>) {
    && EdgeOk(v)
    && var e := EdgeFrom(v);
       e.source !in ids || e.target !in ids || e.source == e.target
  }

  // ---------------------------------------------------------------- the entries, field by field

  /** The entry holds this text under the key. */
  predicate Reads(v: Value, key: string, text: string) {
    v.Obj? && key in v.fields && v.fields[key] == Str(text)
  }

  predicate ReadsNothing(v: Value, key: string) {
    v.Obj? && (key in v.fields ==> v.fields[key] == Null)
  }

  /** The node holds what the entry says under each key. */
  ghost predicate NodeReads(v: Value, node: TeamNode, uuid: UuidParser) {
    && Reads(v, "id", node.id)
    && Reads(v, "label", node.nodeLabel)
    && (exists text :: Reads(v, "agent_id", text) && uuid(text) == Some(node.agentId))
    && match node.instructions
       case Some(text) => Reads(v, "instructions", text)
       case None => ReadsNothing(v, "instructions")
  }

  predicate EdgeReads(v: Value, edge: TeamEdge) {
    Reads(v, "id", edge.id) && Reads(v, "source", edge.source) && Reads(v, "target", edge.target)
  }

  /** Some edge entry leads from the one node to the other. */
  ghost predicate EntryLeads(edges: seq<Value>, source: string, target: string) {
    exists k :: 0 <= k < |edges| && Reads(edges[k], "source", source) && Reads(edges[k], "target", target)
  }

  /** The graph has the entries' nodes in their order, and an edge just where an entry leads. */
  ghost predicate GraphReads(raw: Object, g: TeamGraph, uuid: UuidParser) {
    && Get(raw, "nodes").List? && Get(raw, "edges").List?
    && var nodes, edges := Get(raw, "nodes").items, Get(raw, "edges").items;
       && |g.nodes| == |nodes| && |g.edges| == |edges|
       && (forall i :: 0 <= i < |nodes| ==> NodeReads(nodes[i], g.nodes[i], uuid))
       && (forall i :: 0 <= i < |edges| ==> EdgeReads(edges[i], g.edges[i]))
       && (forall source, target :: g.Edge(source, target) <==> EntryLeads(edges, source, target))
  }

  lemma GraphReadsEntries(raw: Object, g: TeamGraph, uuid: UuidParser)
    requires Get(raw, "nodes").List? && Get(raw, "edges").List?
    requires |g.nodes| == |Get(raw, "nodes").items| && |g.edges| == |Get(raw, "edges").items|
    requires forall i :: 0 <= i < |g.nodes| ==> NodeReads(Get(raw, "nodes").items[i], g.nodes[i], uuid)
    requires forall i :: 0 <= i < |g.edges| ==> EdgeReads(Get(raw, "edges").items[i], g.edges[i])
    ensures GraphReads(raw, g, uuid)
  {
    hide NodeReads;
    var edges := Get(raw, "edges").items;
    forall source, target
      ensures g.Edge(source, target) <==> EntryLeads(edges, source, target)
    {
      if g.Edge(source, target) {
        var e :| e in g.edges && e.source == source && e.target == target;
        var k :| 0 <= k < |g.edges| && g.edges[k] == e;
        assert EdgeReads(edges[k], g.edges[k]);
      }
      if EntryLeads(edges, source, target) {
        var k :| 0 <= k < |edges| && Reads(edges[k], "source", source) && Reads(edges[k], "target", target);
        assert EdgeReads(edges[k], g.edges[k]) && g.edges[k] in g.edges;
      }
    }
  }

  lemma NodeFromReads(v: Value, uuid: UuidParser)
    requires NodeOk(v, uuid)
    ensures NodeReads(v, NodeFrom(v, uuid), uuid)
  {
    assert Reads(v, "agent_id", Get(v.fields, "agent_id").s);
  }

  lemma EdgeFromReads(v: Value)
    requires EdgeOk(v)
    ensures EdgeReads(v, EdgeFrom(v))
  {
  }

  // ---------------------------------------------------------------- what a rejection says

  const NODE_CHECKS := [NodeFields, NodeType, DuplicateNode, NoAgent, BadInstructions, BadUuid]
  const EDGE_CHECKS := [EdgeFields, EdgeText, DuplicateEdge, MissingNode, SelfCycle]
  const GRAPH_CHECKS := [UnsupportedFields, WrongVersion, NotLists, NoWorkers, WorkerLimit, TooManyEdges]

  /** Node entry `i` fails this check. */
  ghost predicate NodeFault(items: seq<Value>, i: nat, uuid: UuidParser, check: Reason)
    requires i < |items|
  {
    var v := items[i];
    match check
    case NodeFields =>
      !v.Obj? || exists key :: key in v.fields
                               && key !in ["id", "type", "label", "position", "agent_id", "instructions"]
    case NodeType =>
      v.Obj? && (Get(v.fields, "type") != Str("agent-ref") || !Get(v.fields, "label").Str?
                 || !Get(v.fields, "id").Str? || Get(v.fields, "id").s == "")
    case DuplicateNode =>
      v.Obj? && exists k :: 0 <= k < i && items[k].Obj? && Get(items[k].fields, "id") == Get(v.fields, "id")
    case NoAgent => v.Obj? && !Get(v.fields, "agent_id").Str?
    case BadInstructions =>
      v.Obj? && var notes := Get(v.fields, "instructions"); notes != Null && (!notes.Str? || |notes.s| > 4_000)
    case BadUuid => v.Obj? && Get(v.fields, "agent_id").Str? && uuid(Get(v.fields, "agent_id").s) == None
    case _ => false
  }

  /** Edge entry `i` fails this check, where `ids` are the nodes' ids. */
  ghost predicate EdgeFault(items: seq<Value>, i: nat, ids: set<string>, check: Reason)
    requires i < |items|
  {
    var v := items[i];
    match check
    case EdgeFields => !v.Obj? || exists key :: key in v.fields && key !in ["id", "source", "target"]
    case EdgeText =>
      v.Obj? && !(IsText(Get(v.fields, "id")) && IsText(Get(v.fields, "source")) && IsText(Get(v.fields, "target")))
    case DuplicateEdge =>
      v.Obj? && exists k :: 0 <= k < i && items[k].Obj? && Get(items[k].fields, "id") == Get(v.fields, "id")
    case MissingNode =>
      && v.Obj? && Get(v.fields, "source").Str? && Get(v.fields, "target").Str?
      && (Get(v.fields, "source").s !in ids || Get(v.fields, "target").s !in ids)
    case SelfCycle => v.Obj? && Get(v.fields, "source") == Get(v.fields, "target")
    case _ => false
  }

  ghost predicate IsText(v: Value) {
    v.Str? && v.s != ""
  }

  /** The object as a whole fails this check. */
  ghost predicate GraphFault(raw: Object, maxWorkers: nat, check: Reason) {
    match check
    case UnsupportedFields => exists key :: key in raw && key !in ["version", "runtime", "nodes", "edges"]
    case WrongVersion =>
      (Get(raw, "version") != Int(2) && Get(raw, "version") != Float(2.0)) || Get(raw, "runtime") != Str("team-v1")
    case NotLists => !Get(raw, "nodes").List? || !Get(raw, "edges").List?
    case NoWorkers => Get(raw, "nodes") == List([])
    case WorkerLimit => Get(raw, "nodes").List? && |Get(raw, "nodes").items| > maxWorkers
    case TooManyEdges => Get(raw, "edges").List? && |Get(raw, "edges").items| > 200
    case _ => false
  }

  ghost predicate NodeClear(items: seq<Value>, i: nat, uuid: UuidParser)
    requires i < |items|
  {
    forall r :: 0 <= r < |NODE_CHECKS| ==> !NodeFault(items, i, uuid, NODE_CHECKS[r])
  }

  ghost predicate EdgeClear(items: seq<Value>, i: nat, ids: set<string>)
    requires i < |items|
  {
    forall r :: 0 <= r < |EDGE_CHECKS| ==> !EdgeFault(items, i, ids, EDGE_CHECKS[r])
  }

  /** The first check that the first faulty entry fails. */
  ghost predicate FirstNodeFault(items: seq<Value>, uuid: UuidParser, i: nat, r: nat) {
    && i < |items| && r < |NODE_CHECKS| && NodeFault(items, i, uuid, NODE_CHECKS[r])
    && (forall k :: 0 <= k < i ==> NodeClear(items, k, uuid))
    && (forall q :: 0 <= q < r ==> !NodeFault(items, i, uuid, NODE_CHECKS[q]))
  }

  ghost predicate FirstEdgeFault(items: seq<Value>, ids: set<string>, i: nat, r: nat) {
    && i < |items| && r < |EDGE_CHECKS| && EdgeFault(items, i, ids, EDGE_CHECKS[r])
    && (forall k :: 0 <= k < i ==> EdgeClear(items, k, ids))
    && (forall q :: 0 <= q < r ==> !EdgeFault(items, i, ids, EDGE_CHECKS[q]))
  }

  ghost predicate NodesBlamed(items: seq<Value>, uuid: UuidParser, reason: Reason) {
    exists i: nat, r: nat :: FirstNodeFault(items, uuid, i, r) && NODE_CHECKS[r] == reason
  }

  ghost predicate EdgesBlamed(items: seq<Value>, ids: set<string>, reason: Reason) {
    exists i: nat, r: nat :: FirstEdgeFault(items, ids, i, r) && EDGE_CHECKS[r] == reason
  }

  ghost predicate GraphBlamed(raw: Object, maxWorkers: nat, reason: Reason) {
    exists r: nat :: r < |GRAPH_CHECKS| && GRAPH_CHECKS[r] == reason && GraphFault(raw, maxWorkers, reason)
                     && forall q :: 0 <= q < r ==> !GraphFault(raw, maxWorkers, GRAPH_CHECKS[q])
  }

  /** The ids that node entries state. */
  ghost function StatedIds(items: seq<Value>): set<string> {
    set i | 0 <= i < |items| && items[i].Obj? && Get(items[i].fields, "id").Str? :: Get(items[i].fields, "id").s
  }

  /** The reason given is that of the first check that fails: those of the object, then entry by entry those of the
      nodes, then those of the edges, and the search for a cycle only if none of them does. */
  ghost predicate RejectedFor(raw: Object, maxWorkers: nat, uuid: UuidParser, reason: Reason) {
    if exists r :: GraphBlamed(raw, maxWorkers, r) then GraphBlamed(raw, maxWorkers, reason)
    else
      && Get(raw, "nodes").List? && Get(raw, "edges").List?
      && var nodes, edges := Get(raw, "nodes").items, Get(raw, "edges").items;
         if exists r :: NodesBlamed(nodes, uuid, r) then NodesBlamed(nodes, uuid, reason)
         else if exists r :: EdgesBlamed(edges, StatedIds(nodes), r) then EdgesBlamed(edges, StatedIds(nodes), reason)
         else reason == NotADag
  }

  /** The parser's own checks of a node entry, in their order, where `ids` are those of the entries before. */
  ghost predicate NodePasses(v: Value, ids: set<string>, uuid: UuidParser, r: nat) {
    if !v.Obj? || r == 0 then v.Obj? && v.fields.Keys - NODE_FIELDS == {}
    else
      var id, notes, agent := Get(v.fields, "id"), Get(v.fields, "instructions"), Get(v.fields, "agent_id");
      if r == 1 then Get(v.fields, "type") == Str("agent-ref") && Text(id) && Get(v.fields, "label").Str?
      else if r == 2 then id.Str? && id.s !in ids
      else if r == 3 then agent.Str?
      else if r == 4 then notes.Null? || (notes.Str? && |notes.s| <= MAX_INSTRUCTIONS)
      else agent.Str? && uuid(agent.s).Some?
  }

  /** The parser's own checks of an edge entry. */
  ghost predicate EdgePasses(v: Value, ids: set<string>, edgeIds: set<string>, r: nat) {
    if !v.Obj? || r == 0 then v.Obj? && v.fields.Keys - EDGE_FIELDS == {}
    else
      var id, source, target := Get(v.fields, "id"), Get(v.fields, "source"), Get(v.fields, "target");
      if r == 1 then Text(id) && Text(source) && Text(target)
      else if r == 2 then id.Str? && id.s !in edgeIds
      else if r == 3 then source.Str? && target.Str? && source.s in ids && target.s in ids
      else source.Str? && target.Str? && source.s != target.s
  }

  /** So many entries have been taken. */
  ghost predicate NodesTaken(items: seq<Value>, uuid: UuidParser, i: nat, nodes: seq<TeamNode>, ids: set<string>) {
    && |nodes| == i <= |items|
    && (forall k :: 0 <= k < i ==> NodeOk(items[k], uuid) && nodes[k] == NodeFrom(items[k], uuid))
    && (forall j, k :: 0 <= j < k < i ==> nodes[j].id != nodes[k].id)
    && ids == (set k | 0 <= k < i :: nodes[k].id)
    && (forall k :: 0 <= k < i ==> NodeClear(items, k, uuid))
  }

  ghost predicate EdgesTaken(items: seq<Value>, ids: set<string>, i: nat, edges: seq<TeamEdge>, edgeIds: set<string>) {
    && |edges| == i <= |items|
    && (forall k :: 0 <= k < i ==> EdgeOk(items[k]) && edges[k] == EdgeFrom(items[k]))
    && (forall j, k :: 0 <= j < k < i ==> edges[j].id != edges[k].id)
    && edgeIds == (set k | 0 <= k < i :: edges[k].id)
    && (forall e :: e in edges ==> e.source in ids && e.target in ids && e.source != e.target)
    && (forall k :: 0 <= k < i ==> EdgeClear(items, k, ids))
  }

  /** Entry `i` fails a check exactly as the parser sees it, once it has passed those before. */
  lemma NodeFaultIs(items: seq<Value>, uuid: UuidParser, i: nat, nodes: seq<TeamNode>, ids: set<string>, r: nat)
    requires NodesTaken(items, uuid, i, nodes, ids) && i < |items| && r < |NODE_CHECKS|
    requires forall q :: 0 <= q < r ==> NodePasses(items[i], ids, uuid, q)
    ensures NodeFault(items, i, uuid, NODE_CHECKS[r]) <==> !NodePasses(items[i], ids, uuid, r)
  {
    hide NodeClear;
    var v := items[i];
    assert r > 0 ==> NodePasses(v, ids, uuid, 0);
    assert r > 1 ==> NodePasses(v, ids, uuid, 1);
    assert r > 3 ==> NodePasses(v, ids, uuid, 3);
    if r == 0 && v.Obj? {
      SomeOtherKey(v.fields);
    }
    if r == 2 {
      TakenNodeId(items, uuid, i, nodes, ids);
    }
  }

  lemma SomeOtherKey(o: Object)
    ensures o.Keys - NODE_FIELDS != {} <==>
              exists key :: key in o && key !in ["id", "type", "label", "position", "agent_id", "instructions"]
    ensures o.Keys - EDGE_FIELDS != {} <==> exists key :: key in o && key !in ["id", "source", "target"]
  {
    if key :| key in o && key !in ["id", "type", "label", "position", "agent_id", "instructions"] {
      assert key in o.Keys - NODE_FIELDS;
    }
    if key :| key in o && key !in ["id", "source", "target"] {
      assert key in o.Keys - EDGE_FIELDS;
    }
  }

  lemma TakenNodeId(items: seq<Value>, uuid: UuidParser, i: nat, nodes: seq<TeamNode>, ids: set<string>)
    requires NodesTaken(items, uuid, i, nodes, ids) && i < |items| && items[i].Obj?
    requires Get(items[i].fields, "id").Str?
    ensures Get(items[i].fields, "id").s in ids <==> NodeFault(items, i, uuid, DuplicateNode)
  {
    hide NodeClear;
    forall k | 0 <= k < i
      ensures items[k].Obj? && Get(items[k].fields, "id") == Str(nodes[k].id)
    {
      assert NodeOk(items[k], uuid);
    }
  }

  lemma EdgeFaultIs(items: seq<Value>, ids: set<string>, i: nat, edges: seq<TeamEdge>, edgeIds: set<string>, r: nat)
    requires EdgesTaken(items, ids, i, edges, edgeIds) && i < |items| && r < |EDGE_CHECKS|
    requires forall q :: 0 <= q < r ==> EdgePasses(items[i], ids, edgeIds, q)
    ensures EdgeFault(items, i, ids, EDGE_CHECKS[r]) <==> !EdgePasses(items[i], ids, edgeIds, r)
  {
    hide EdgeClear;
    var v := items[i];
    assert r > 0 ==> EdgePasses(v, ids, edgeIds, 0);
    assert r > 1 ==> EdgePasses(v, ids, edgeIds, 1);
    if r == 0 && v.Obj? {
      SomeOtherKey(v.fields);
    }
    if r == 2 {
      TakenEdgeId(items, ids, i, edges, edgeIds);
    }
  }

  lemma TakenEdgeId(items: seq<Value>, ids: set<string>, i: nat, edges: seq<TeamEdge>, edgeIds: set<string>)
    requires EdgesTaken(items, ids, i, edges, edgeIds) && i < |items| && items[i].Obj?
    requires Get(items[i].fields, "id").Str?
    ensures Get(items[i].fields, "id").s in edgeIds <==> EdgeFault(items, i, ids, DuplicateEdge)
  {
    hide EdgeClear;
    forall k | 0 <= k < i
      ensures items[k].Obj? && Get(items[k].fields, "id") == Str(edges[k].id)
    {
      assert EdgeOk(items[k]);
    }
  }

  /** An entry that fails one of its checks makes the list bad, and that check is to blame. */
  lemma RejectNode(items: seq<Value>, uuid: UuidParser, i: nat, nodes: seq<TeamNode>, ids: set<string>, r: nat)
    requires NodesTaken(items, uuid, i, nodes, ids) && i < |items| && r < |NODE_CHECKS|
    requires forall q :: 0 <= q < r ==> NodePasses(items[i], ids, uuid, q)
    requires !NodePasses(items[i], ids, uuid, r)
    ensures NodesBad(items, uuid) && NodesBlamed(items, uuid, NODE_CHECKS[r])
  {
    BadNode(items, uuid, i, nodes, ids, r);
    hide NodePasses, NodeFault, NodeClear, NodesBad, NodeOk;
    forall q | 0 <= q <= r
      ensures NodeFault(items, i, uuid, NODE_CHECKS[q]) <==> q == r
    {
      NodeFaultIs(items, uuid, i, nodes, ids, q);
    }
    assert FirstNodeFault(items, uuid, i, r);
  }

  lemma BadNode(items: seq<Value>, uuid: UuidParser, i: nat, nodes: seq<TeamNode>, ids: set<string>, r: nat)
    requires NodesTaken(items, uuid, i, nodes, ids) && i < |items| && r < |NODE_CHECKS|
    requires forall q :: 0 <= q < r ==> NodePasses(items[i], ids, uuid, q)
    requires !NodePasses(items[i], ids, uuid, r)
    ensures NodesBad(items, uuid)
  {
    hide NodeClear;
    var v := items[i];
    if NodeOk(v, uuid) {
      assert r == 2 && v.fields.Keys - NODE_FIELDS == {};
      var k :| 0 <= k < i && nodes[k].id == Get(v.fields, "id").s;
      assert NodeFrom(items[k], uuid).id == NodeFrom(items[i], uuid).id;
    } else {
      assert v in items;
    }
  }

  lemma RejectEdge(items: seq<Value>, ids: set<string>, i: nat, edges: seq<TeamEdge>, edgeIds: set<string>, r: nat)
    requires EdgesTaken(items, ids, i, edges, edgeIds) && i < |items| && r < |EDGE_CHECKS|
    requires forall q :: 0 <= q < r ==> EdgePasses(items[i], ids, edgeIds, q)
    requires !EdgePasses(items[i], ids, edgeIds, r)
    ensures EdgesBad(items, ids) && EdgesBlamed(items, ids, EDGE_CHECKS[r])
  {
    BadEdge(items, ids, i, edges, edgeIds, r);
    hide EdgePasses, EdgeFault, EdgeClear, EdgesBad, EdgeOk;
    forall q | 0 <= q <= r
      ensures EdgeFault(items, i, ids, EDGE_CHECKS[q]) <==> q == r
    {
      EdgeFaultIs(items, ids, i, edges, edgeIds, q);
    }
    assert FirstEdgeFault(items, ids, i, r);
  }

  lemma BadEdge(items: seq<Value>, ids: set<string>, i: nat, edges: seq<TeamEdge>, edgeIds: set<string>, r: nat)
    requires EdgesTaken(items, ids, i, edges, edgeIds) && i < |items| && r < |EDGE_CHECKS|
    requires forall q :: 0 <= q < r ==> EdgePasses(items[i], ids, edgeIds, q)
    requires !EdgePasses(items[i], ids, edgeIds, r)
    ensures EdgesBad(items, ids)
  {
    hide EdgeClear;
    var v := items[i];
    assert v in items;
    if EdgeOk(v) {
      assert v.fields.Keys - EDGE_FIELDS == {};
      if r == 2 {
        var k :| 0 <= k < i && edges[k].id == Get(v.fields, "id").s;
        assert EdgeFrom(items[k]).id == EdgeFrom(items[i]).id;
      } else {
        assert StrayEdge(v, ids);
      }
    }
  }

  /** An entry that passes them all is taken. */
  lemma TakeNode(items: seq<Value>, uuid: UuidParser, i: nat, nodes: seq<TeamNode>, ids: set<string>)
    requires NodesTaken(items, uuid, i, nodes, ids) && i < |items|
    requires forall q :: 0 <= q < |NODE_CHECKS| ==> NodePasses(items[i], ids, uuid, q)
    ensures NodeOk(items[i], uuid)
    ensures var node := NodeFrom(items[i], uuid);
            NodesTaken(items, uuid, i + 1, nodes + [node], ids + {node.id})
  {
    hide NodesTaken;
    NodeIsOk(items[i], ids, uuid);
    forall q | 0 <= q < |NODE_CHECKS|
      ensures !NodeFault(items, i, uuid, NODE_CHECKS[q])
    {
      NodeFaultIs(items, uuid, i, nodes, ids, q);
    }
    assert NodeClear(items, i, uuid);
    assert NodePasses(items[i], ids, uuid, 2);
    hide NodeFault, NodeClear, NodePasses;
    AddNode(items, uuid, i, nodes, ids);
  }

  lemma AddNode(items: seq<Value>, uuid: UuidParser, i: nat, nodes: seq<TeamNode>, ids: set<string>)
    requires NodesTaken(items, uuid, i, nodes, ids) && i < |items|
    requires NodeOk(items[i], uuid) && NodeClear(items, i, uuid) && NodeFrom(items[i], uuid).id !in ids
    ensures var node := NodeFrom(items[i], uuid);
            NodesTaken(items, uuid, i + 1, nodes + [node], ids + {node.id})
  {
    hide NodeClear, NodeOk, NodeFrom;
    assert forall k :: 0 <= k < i ==> nodes[k].id in ids;
  }

  lemma NodeIsOk(v: Value, ids: set<string>, uuid: UuidParser)
    requires forall q :: 0 <= q < |NODE_CHECKS| ==> NodePasses(v, ids, uuid, q)
    ensures NodeOk(v, uuid)
  {
    assert NodePasses(v, ids, uuid, 0) && NodePasses(v, ids, uuid, 1) && NodePasses(v, ids, uuid, 3);
    assert NodePasses(v, ids, uuid, 4) && NodePasses(v, ids, uuid, 5);
    assert v.fields.Keys <= NODE_FIELDS by {
      assert forall key :: key in v.fields.Keys ==> key !in v.fields.Keys - NODE_FIELDS;
    }
  }

  lemma TakeEdge(items: seq<Value>, ids: set<string>, i: nat, edges: seq<TeamEdge>, edgeIds: set<string>)
    requires EdgesTaken(items, ids, i, edges, edgeIds) && i < |items|
    requires forall q :: 0 <= q < |EDGE_CHECKS| ==> EdgePasses(items[i], ids, edgeIds, q)
    ensures EdgeOk(items[i])
    ensures var edge := EdgeFrom(items[i]);
            EdgesTaken(items, ids, i + 1, edges + [edge], edgeIds + {edge.id})
  {
    EdgeIsOk(items[i], ids, edgeIds);
    forall q | 0 <= q < |EDGE_CHECKS|
      ensures !EdgeFault(items, i, ids, EDGE_CHECKS[q])
    {
      EdgeFaultIs(items, ids, i, edges, edgeIds, q);
    }
    assert EdgeClear(items, i, ids);
    assert EdgePasses(items[i], ids, edgeIds, 2) && EdgePasses(items[i], ids, edgeIds, 3);
    assert EdgePasses(items[i], ids, edgeIds, 4);
    hide EdgeFault, EdgeClear, EdgeOk;
    var edge := EdgeFrom(items[i]);
    assert edge.id == Get(items[i].fields, "id").s;
    assert forall k :: 0 <= k < i ==> edges[k].id in edgeIds;
  }

  lemma EdgeIsOk(v: Value, ids: set<string>, edgeIds: set<string>)
    requires forall q :: 0 <= q < |EDGE_CHECKS| ==> EdgePasses(v, ids, edgeIds, q)
    ensures EdgeOk(v)
  {
    assert EdgePasses(v, ids, edgeIds, 0) && EdgePasses(v, ids, edgeIds, 1);
    assert v.fields.Keys <= EDGE_FIELDS by {
      assert forall key :: key in v.fields.Keys ==> key !in v.fields.Keys - EDGE_FIELDS;
    }
  }

  // ---------------------------------------------------------------- the parser

  lemma IdsAreStated(items: seq<Value>, nodes: seq<TeamNode>, uuid: UuidParser)
    requires |nodes| == |items|
    requires forall i :: 0 <= i < |items| ==> NodeOk(items[i], uuid) && nodes[i] == NodeFrom(items[i], uuid)
    ensures (set i | 0 <= i < |nodes| :: nodes[i].id) == StatedIds(items)
  {
    forall i | 0 <= i < |items|
      ensures items[i].Obj? && Get(items[i].fields, "id") == Str(nodes[i].id)
    {
    }
    forall id
      ensures id in (set i | 0 <= i < |nodes| :: nodes[i].id) <==> id in StatedIds(items)
    {
      if id in StatedIds(items) {
        var i :| 0 <= i < |items| && items[i].Obj? && Get(items[i].fields, "id").Str?
                 && Get(items[i].fields, "id").s == id;
        assert nodes[i].id == id;
      }
    }
  }

  lemma NothingTaken(items: seq<Value>, uuid: UuidParser, ids: set<string>)
    ensures NodesTaken(items, uuid, 0, [], {}) && EdgesTaken(items, ids, 0, [], {})
  {
  }

  lemma NodesAllTaken(items: seq<Value>, uuid: UuidParser, nodes: seq<TeamNode>, ids: set<string>)
    requires NodesTaken(items, uuid, |items|, nodes, ids)
    ensures |nodes| == |items| && ids == (set i | 0 <= i < |nodes| :: nodes[i].id) && ids == StatedIds(items)
    ensures forall i :: 0 <= i < |items| ==>
              && NodeOk(items[i], uuid) && nodes[i] == NodeFrom(items[i], uuid) && NodeReads(items[i], nodes[i], uuid)
              && NodeClear(items, i, uuid)
    ensures forall i, j :: 0 <= i < j < |nodes| ==> nodes[i].id != nodes[j].id
  {
    hide NodeReads, NodeClear;
    IdsAreStated(items, nodes, uuid);
    hide NodeOk, StatedIds;
    forall i | 0 <= i < |items|
      ensures NodeReads(items[i], nodes[i], uuid)
    {
      NodeFromReads(items[i], uuid);
    }
  }

  lemma EdgesAllTaken(items: seq<Value>, ids: set<string>, edges: seq<TeamEdge>, edgeIds: set<string>)
    requires EdgesTaken(items, ids, |items|, edges, edgeIds)
    ensures |edges| == |items|
    ensures forall i :: 0 <= i < |items| ==>
              && EdgeOk(items[i]) && edges[i] == EdgeFrom(items[i]) && EdgeReads(items[i], edges[i])
              && EdgeClear(items, i, ids)
    ensures forall i, j :: 0 <= i < j < |edges| ==> edges[i].id != edges[j].id
    ensures forall e :: e in edges ==> e.source in ids && e.target in ids && e.source != e.target
  {
    hide EdgeReads, EdgeClear, EdgeOk;
    forall i | 0 <= i < |items|
      ensures EdgeReads(items[i], edges[i])
    {
      EdgeFromReads(items[i]);
    }
  }

  method ParseNodes(items: seq<Value>, uuid: UuidParser)
      returns (nodes: seq<TeamNode>, ids: set<string>, problem: Option<Reason>)
    ensures problem.None? ==>
              && |nodes| == |items|
              && (forall i :: 0 <= i < |items| ==> NodeOk(items[i], uuid) && nodes[i] == NodeFrom(items[i], uuid))
              && (forall i, j :: 0 <= i < j < |nodes| ==> nodes[i].id != nodes[j].id)
              && ids == set i | 0 <= i < |nodes| :: nodes[i].id
    ensures problem.None? ==> forall i :: 0 <= i < |nodes| ==> NodeReads(items[i], nodes[i], uuid)
    ensures problem.None? ==> forall i :: 0 <= i < |items| ==> NodeClear(items, i, uuid)
    ensures problem.None? ==> ids == StatedIds(items)
    ensures problem.Some? ==>
              && problem.value != WorkerLimit
              && NodesBad(items, uuid)
              && NodesBlamed(items, uuid, problem.value)
  {
    hide NodeReads, NodesTaken, NodesBad, NodesBlamed, NodeOk, NodeClear;
    nodes, ids, problem := [], {}, None;
    NothingTaken(items, uuid, {});
    for i := 0 to |items|
      invariant NodesTaken(items, uuid, i, nodes, ids)
    {
      var raw := items[i];
      if !raw.Obj? || raw.fields.Keys - NODE_FIELDS != {} {
        RejectNode(items, uuid, i, nodes, ids, 0);
        return nodes, ids, Some(NodeFields);
      }
      var id, caption := Get(raw.fields, "id"), Get(raw.fields, "label");
      var agent, notes := Get(raw.fields, "agent_id"), Get(raw.fields, "instructions");
      if Get(raw.fields, "type") != Str("agent-ref") || !Text(id) || !caption.Str? {
        RejectNode(items, uuid, i, nodes, ids, 1);
        return nodes, ids, Some(NodeType);
      }
      if id.s in ids {
        RejectNode(items, uuid, i, nodes, ids, 2);
        return nodes, ids, Some(DuplicateNode);
      }
      if !agent.Str? {
        RejectNode(items, uuid, i, nodes, ids, 3);
        return nodes, ids, Some(NoAgent);
      }
      if !notes.Null? && (!notes.Str? || |notes.s| > MAX_INSTRUCTIONS) {
        RejectNode(items, uuid, i, nodes, ids, 4);
        return nodes, ids, Some(BadInstructions);
      }
      var parsed := uuid(agent.s);
      if parsed.None? {
        RejectNode(items, uuid, i, nodes, ids, 5);
        return nodes, ids, Some(BadUuid);
      }
      TakeNode(items, uuid, i, nodes, ids);
      ids := ids + {id.s};
      nodes := nodes + [TeamNode(id.s, caption.s, parsed.value, if notes.Str? then Some(notes.s) else None)];
    }
    NodesAllTaken(items, uuid, nodes, ids);
  }

  method ParseEdges(items: seq<Value>, ids: set<string>) returns (edges: seq<TeamEdge>, problem: Option<Reason>)
    ensures problem.None? ==>
              && |edges| == |items|
              && (forall i :: 0 <= i < |items| ==> EdgeOk(items[i]) && edges[i] == EdgeFrom(items[i]))
              && (forall i, j :: 0 <= i < j < |edges| ==> edges[i].id != edges[j].id)
              && (forall e :: e in edges ==> e.source in ids && e.target in ids && e.source != e.target)
    ensures problem.None? ==> forall i :: 0 <= i < |edges| ==> EdgeReads(items[i], edges[i])
    ensures problem.None? ==> forall i :: 0 <= i < |items| ==> EdgeClear(items, i, ids)
    ensures problem.Some? ==>
              && problem.value != WorkerLimit
              && EdgesBad(items, ids)
              && EdgesBlamed(items, ids, problem.value)
  {
    hide EdgeReads, EdgesTaken, EdgesBad, EdgesBlamed, EdgeOk, EdgeClear;
    edges, problem := [], None;
    var edgeIds: set<string> := {};
    NothingTaken(items, _ => None, ids);
    for i := 0 to |items|
      invariant EdgesTaken(items, ids, i, edges, edgeIds)
    {
      var raw := items[i];
      if !raw.Obj? || raw.fields.Keys - EDGE_FIELDS != {} {
        RejectEdge(items, ids, i, edges, edgeIds, 0);
        return edges, Some(EdgeFields);
      }
      var id, source, target := Get(raw.fields, "id"), Get(raw.fields, "source"), Get(raw.fields, "target");
      if !Text(id) || !Text(source) || !Text(target) {
        RejectEdge(items, ids, i, edges, edgeIds, 1);
        return edges, Some(EdgeText);
      }
      if id.s in edgeIds {
        RejectEdge(items, ids, i, edges, edgeIds, 2);
        return edges, Some(DuplicateEdge);
      }
      if source.s !in ids || target.s !in ids {
        RejectEdge(items, ids, i, edges, edgeIds, 3);
        return edges, Some(MissingNode);
      }
      if source.s == target.s {
        RejectEdge(items, ids, i, edges, edgeIds, 4);
        return edges, Some(SelfCycle);
      }
      TakeEdge(items, ids, i, edges, edgeIds);
      edgeIds := edgeIds + {id.s};
      edges := edges + [TeamEdge(id.s, source.s, target.s)];
    }
    EdgesAllTaken(items, ids, edges, edgeIds);
  }

  /** The checks of the object as the parser makes them. */
  lemma GraphFaultIs(raw: Object, maxWorkers: nat)
    ensures GraphFault(raw, maxWorkers, UnsupportedFields) <==> raw.Keys - GRAPH_FIELDS != {}
    ensures GraphFault(raw, maxWorkers, WrongVersion) <==>
              !EqualsInt(Get(raw, "version"), 2) || Get(raw, "runtime") != Str("team-v1")
    ensures GraphFault(raw, maxWorkers, NoWorkers) <==>
              Get(raw, "nodes").List? && Get(raw, "nodes").items == []
  {
    if key :| key in raw && key !in ["version", "runtime", "nodes", "edges"] {
      assert key in raw.Keys - GRAPH_FIELDS;
    }
  }

  lemma BlameGraph(raw: Object, maxWorkers: nat, uuid: UuidParser, r: nat)
    requires r < |GRAPH_CHECKS| && GraphFault(raw, maxWorkers, GRAPH_CHECKS[r])
    requires forall q :: 0 <= q < r ==> !GraphFault(raw, maxWorkers, GRAPH_CHECKS[q])
    ensures RejectedFor(raw, maxWorkers, uuid, GRAPH_CHECKS[r])
  {
    hide GraphFault, NodesBlamed, EdgesBlamed;
    assert GraphBlamed(raw, maxWorkers, GRAPH_CHECKS[r]);
  }

  ghost predicate GraphClear(raw: Object, maxWorkers: nat) {
    forall q :: 0 <= q < |GRAPH_CHECKS| ==> !GraphFault(raw, maxWorkers, GRAPH_CHECKS[q])
  }

  /** With nothing wrong so far, the reason is what is wrong next. */
  lemma BlameEntries(raw: Object, maxWorkers: nat, uuid: UuidParser, reason: Reason)
    requires GraphClear(raw, maxWorkers) && Get(raw, "nodes").List? && Get(raw, "edges").List?
    requires var nodes, edges := Get(raw, "nodes").items, Get(raw, "edges").items;
             || NodesBlamed(nodes, uuid, reason)
             || ((forall i :: 0 <= i < |nodes| ==> NodeClear(nodes, i, uuid))
                 && EdgesBlamed(edges, StatedIds(nodes), reason))
             || ((forall i :: 0 <= i < |nodes| ==> NodeClear(nodes, i, uuid))
                 && (forall i :: 0 <= i < |edges| ==> EdgeClear(edges, i, StatedIds(nodes)))
                 && reason == NotADag)
    ensures RejectedFor(raw, maxWorkers, uuid, reason)
  {
    NobodyBlamed(raw, maxWorkers);
    if forall i :: 0 <= i < |Get(raw, "nodes").items| ==> NodeClear(Get(raw, "nodes").items, i, uuid) {
      NoNodeBlamed(Get(raw, "nodes").items, uuid);
    }
    if forall i :: 0 <= i < |Get(raw, "edges").items| ==>
                     EdgeClear(Get(raw, "edges").items, i, StatedIds(Get(raw, "nodes").items)) {
      NoEdgeBlamed(Get(raw, "edges").items, StatedIds(Get(raw, "nodes").items));
    }
    hide GraphBlamed, NodesBlamed, EdgesBlamed, NodeClear, EdgeClear, StatedIds, GraphClear;
  }

  lemma NobodyBlamed(raw: Object, maxWorkers: nat)
    requires GraphClear(raw, maxWorkers)
    ensures forall r :: !GraphBlamed(raw, maxWorkers, r)
  {
    hide GraphFault;
  }

  lemma NotClear(items: seq<Value>, uuid: UuidParser, i: nat, r: nat)
    requires FirstNodeFault(items, uuid, i, r)
    ensures !NodeClear(items, i, uuid)
  {
    hide NodeFault;
  }

  lemma EdgeNotClear(items: seq<Value>, ids: set<string>, i: nat, r: nat)
    requires FirstEdgeFault(items, ids, i, r)
    ensures !EdgeClear(items, i, ids)
  {
    hide EdgeFault;
  }

  lemma NoNodeBlamed(items: seq<Value>, uuid: UuidParser)
    requires forall i :: 0 <= i < |items| ==> NodeClear(items, i, uuid)
    ensures forall reason :: !NodesBlamed(items, uuid, reason)
  {
    hide NodeFault;
    forall reason
      ensures !NodesBlamed(items, uuid, reason)
    {
      if NodesBlamed(items, uuid, reason) {
        var i: nat, r: nat :| FirstNodeFault(items, uuid, i, r) && NODE_CHECKS[r] == reason;
        NotClear(items, uuid, i, r);
      }
    }
  }

  lemma NoEdgeBlamed(items: seq<Value>, ids: set<string>)
    requires forall i :: 0 <= i < |items| ==> EdgeClear(items, i, ids)
    ensures forall reason :: !EdgesBlamed(items, ids, reason)
  {
    hide EdgeFault;
    forall reason
      ensures !EdgesBlamed(items, ids, reason)
    {
      if EdgesBlamed(items, ids, reason) {
        var i: nat, r: nat :| FirstEdgeFault(items, ids, i, r) && EDGE_CHECKS[r] == reason;
        EdgeNotClear(items, ids, i, r);
      }
    }
  }

  method ParseTeamGraph(raw: Object, maxWorkers: nat, uuid: UuidParser) returns (parsed: Parsed)
    ensures parsed.Accepted? <==> Accepts(raw, maxWorkers, uuid)
    ensures parsed.Accepted? ==> parsed.graph == Decode(raw, uuid)
    ensures parsed.Accepted? ==> GraphReads(raw, parsed.graph, uuid)
    ensures parsed == Rejected(WorkerLimit) <==> HeaderOk(raw) && |Get(raw, "nodes").items| > maxWorkers
    ensures parsed.Rejected? ==> RejectedFor(raw, maxWorkers, uuid, parsed.reason)
  {
    hide RejectedFor, NodesBlamed, EdgesBlamed, NodeClear, EdgeClear, StatedIds;
    GraphFaultIs(raw, maxWorkers);
    if raw.Keys - GRAPH_FIELDS != {} {
      BlameGraph(raw, maxWorkers, uuid, 0);
      return Rejected(UnsupportedFields);
    }
    if !EqualsInt(Get(raw, "version"), 2) || Get(raw, "runtime") != Str("team-v1") {
      BlameGraph(raw, maxWorkers, uuid, 1);
      return Rejected(WrongVersion);
    }
    var rawNodes, rawEdges := Get(raw, "nodes"), Get(raw, "edges");
    if !rawNodes.List? || !rawEdges.List? {
      BlameGraph(raw, maxWorkers, uuid, 2);
      return Rejected(NotLists);
    }
    if rawNodes.items == [] {
      BlameGraph(raw, maxWorkers, uuid, 3);
      return Rejected(NoWorkers);
    }
    if |rawNodes.items| > maxWorkers {
      BlameGraph(raw, maxWorkers, uuid, 4);
      return Rejected(WorkerLimit);
    }
    if |rawEdges.items| > MAX_EDGES {
      BlameGraph(raw, maxWorkers, uuid, 5);
      return Rejected(TooManyEdges);
    }
    var nodes, ids, nodeProblem := ParseNodes(rawNodes.items, uuid);
    if nodeProblem.Some? {
      NodeProblemRejects(raw, maxWorkers, uuid);
      BlameEntries(raw, maxWorkers, uuid, nodeProblem.value);
      return Rejected(nodeProblem.value);
    }
    var edges, edgeProblem := ParseEdges(rawEdges.items, ids);
    if edgeProblem.Some? {
      NodesDecode(raw, uuid, nodes, ids);
      EdgeProblemRejects(raw, maxWorkers, uuid, ids);
      BlameEntries(raw, maxWorkers, uuid, edgeProblem.value);
      return Rejected(edgeProblem.value);
    }
    var graph := TeamGraph(nodes, edges);
    EntriesDecode(raw, maxWorkers, uuid, graph);
    var acyclic := EnsureDag(graph);
    if !acyclic {
      BlameEntries(raw, maxWorkers, uuid, NotADag);
      return Rejected(NotADag);
    }
    GraphReadsEntries(raw, graph, uuid);
    return Accepted(graph);
  }

  lemma NodesDecode(raw: Object, uuid: UuidParser, nodes: seq<TeamNode>, ids: set<string>)
    requires HeaderOk(raw) && |nodes| == |Get(raw, "nodes").items|
    requires forall i :: 0 <= i < |nodes| ==>
               NodeOk(Get(raw, "nodes").items[i], uuid) && nodes[i] == NodeFrom(Get(raw, "nodes").items[i], uuid)
    requires ids == set i | 0 <= i < |nodes| :: nodes[i].id
    ensures EntriesOk(raw, uuid) ==> nodes == Decode(raw, uuid).nodes && ids == Decode(raw, uuid).Ids()
  {
  }

  lemma EntriesDecode(raw: Object, maxWorkers: nat, uuid: UuidParser, graph: TeamGraph)
    requires HeaderOk(raw) && 0 < |Get(raw, "nodes").items| <= maxWorkers
    requires |Get(raw, "edges").items| <= MAX_EDGES
    requires |graph.nodes| == |Get(raw, "nodes").items| && |graph.edges| == |Get(raw, "edges").items|
    requires forall i :: 0 <= i < |graph.nodes| ==>
               && NodeOk(Get(raw, "nodes").items[i], uuid)
               && graph.nodes[i] == NodeFrom(Get(raw, "nodes").items[i], uuid)
    requires forall i :: 0 <= i < |graph.edges| ==>
               && EdgeOk(Get(raw, "edges").items[i])
               && graph.edges[i] == EdgeFrom(Get(raw, "edges").items[i])
    requires graph.Closed() && DistinctEdgeIds(graph)
    ensures WellFormed(raw, maxWorkers, uuid) && Decode(raw, uuid) == graph
  {
    assert EntriesOk(raw, uuid);
    assert Decode(raw, uuid).nodes == graph.nodes;
    assert Decode(raw, uuid).edges == graph.edges;
  }

  lemma NodeProblemRejects(raw: Object, maxWorkers: nat, uuid: UuidParser)
    requires HeaderOk(raw) && NodesBad(Get(raw, "nodes").items, uuid)
    ensures !WellFormed(raw, maxWorkers, uuid)
  {
    var items := Get(raw, "nodes").items;
    if EntriesOk(raw, uuid) {
      var i, j :| 0 <= i < j < |items| && NodeOk(items[i], uuid) && NodeOk(items[j], uuid)
                  && NodeFrom(items[i], uuid).id == NodeFrom(items[j], uuid).id;
      assert Decode(raw, uuid).nodes[i].id == Decode(raw, uuid).nodes[j].id;
    }
  }

  lemma EdgeProblemRejects(raw: Object, maxWorkers: nat, uuid: UuidParser, ids: set<string>)
    requires HeaderOk(raw) && EdgesBad(Get(raw, "edges").items, ids)
    requires EntriesOk(raw, uuid) ==> ids == Decode(raw, uuid).Ids()
    ensures !Accepts(raw, maxWorkers, uuid)
  {
    var items := Get(raw, "edges").items;
    if WellFormed(raw, maxWorkers, uuid) {
      var g := Decode(raw, uuid);
      if SharedEdgeId(items) {
        SharedIdSurvives(items, g);
      } else {
        var v :| v in items && StrayEdge(v, ids);
        var k :| 0 <= k < |items| && items[k] == v;
        assert g.edges[k] == EdgeFrom(v);
        SelfLoopIsCycle(g, g.edges[k]);
      }
    }
  }

  lemma SharedIdSurvives(items: seq<Value>, g: TeamGraph)
    requires |g.edges| == |items|
    requires forall k :: 0 <= k < |items| ==> EdgeOk(items[k]) && g.edges[k] == EdgeFrom(items[k])
    requires SharedEdgeId(items)
    ensures !DistinctEdgeIds(g)
  {
    var i, j :| 0 <= i < j < |items| && EdgeOk(items[i]) && EdgeOk(items[j])
                && EdgeFrom(items[i]).id == EdgeFrom(items[j]).id;
    assert g.edges[i].id == g.edges[j].id;
  }

  lemma SelfLoopIsCycle(g: TeamGraph, e: TeamEdge)
    requires e in g.edges && g.Closed() && (e.source in g.Ids() && e.target in g.Ids() ==> e.source == e.target)
    ensures HasCycle(g)
  {
    assert Walk(g, [e.source, e.target]);
    RepeatIsCycle(g, [e.source, e.target], 0, 1);
  }

  // ---------------------------------------------------------------- acceptance, on the entries themselves

  ghost predicate IsWord(v: Value, key: string) {
    v.Obj? && key in v.fields && v.fields[key].Str? && v.fields[key].s != ""
  }

  ghost predicate IsNodeEntry(v: Value, uuid: UuidParser) {
    && v.Obj?
    && (forall key :: key in v.fields ==> key in ["id", "type", "label", "position", "agent_id", "instructions"])
    && IsWord(v, "id")
    && Reads(v, "type", "agent-ref")
    && (exists text :: Reads(v, "label", text))
    && (exists text :: Reads(v, "agent_id", text) && uuid(text).Some?)
    && (ReadsNothing(v, "instructions") || exists text :: Reads(v, "instructions", text) && |text| <= 4_000)
  }

  ghost predicate IsEdgeEntry(v: Value) {
    && v.Obj?
    && (forall key :: key in v.fields ==> key in ["id", "source", "target"])
    && IsWord(v, "id") && IsWord(v, "source") && IsWord(v, "target")
  }

  ghost predicate SameWord(v: Value, key: string, u: Value, otherKey: string) {
    exists text :: Reads(v, key, text) && Reads(u, otherKey, text)
  }

  ghost predicate IdsDiffer(entries: seq<Value>) {
    forall i, j :: 0 <= i < j < |entries| ==> !SameWord(entries[i], "id", entries[j], "id")
  }

  /** The word under the key is the id of some node entry. */
  ghost predicate Known(v: Value, key: string, nodes: seq<Value>) {
    exists k :: 0 <= k < |nodes| && SameWord(v, key, nodes[k], "id")
  }

  ghost predicate EntriesMatch(nodes: seq<Value>, edges: seq<Value>) {
    && IdsDiffer(nodes)
    && IdsDiffer(edges)
    && (forall i :: 0 <= i < |edges| ==> Known(edges[i], "source", nodes) && Known(edges[i], "target", nodes))
  }

  /** The entries lead round in a circle. */
  ghost predicate Circle(edges: seq<Value>, p: seq<string>) {
    |p| >= 2 && p[0] == p[|p| - 1] && forall j :: 0 <= j < |p| - 1 ==> EntryLeads(edges, p[j], p[j + 1])
  }

  ghost predicate IsVersion2(v: Value) {
    v == Int(2) || v == Float(2.0)
  }

  /** What makes a definition a team, read off its entries. */
  ghost predicate TeamEntries(raw: Object, maxWorkers: nat, uuid: UuidParser) {
    && (forall key :: key in raw ==> key in ["version", "runtime", "nodes", "edges"])
    && "version" in raw && IsVersion2(raw["version"])
    && "runtime" in raw && raw["runtime"] == Str("team-v1")
    && "nodes" in raw && raw["nodes"].List? && 1 <= |raw["nodes"].items| <= maxWorkers
    && "edges" in raw && raw["edges"].List? && |raw["edges"].items| <= 200
    && var nodes, edges := raw["nodes"].items, raw["edges"].items;
       && (forall i :: 0 <= i < |nodes| ==> IsNodeEntry(nodes[i], uuid))
       && (forall i :: 0 <= i < |edges| ==> IsEdgeEntry(edges[i]))
       && EntriesMatch(nodes, edges)
       && (forall p :: !Circle(edges, p))
  }

  lemma NodeEntryExactly(v: Value, uuid: UuidParser)
    ensures NodeOk(v, uuid) <==> IsNodeEntry(v, uuid)
  {
    if NodeOk(v, uuid) {
      assert Reads(v, "label", Get(v.fields, "label").s);
      assert Reads(v, "agent_id", Get(v.fields, "agent_id").s);
      if Get(v.fields, "instructions").Str? {
        assert Reads(v, "instructions", Get(v.fields, "instructions").s);
      }
    }
  }

  lemma EdgeEntryExactly(v: Value)
    ensures EdgeOk(v) <==> IsEdgeEntry(v)
  {
  }

  ghost predicate SizesOk(raw: Object, maxWorkers: nat) {
    HeaderOk(raw) && 0 < |Get(raw, "nodes").items| <= maxWorkers && |Get(raw, "edges").items| <= MAX_EDGES
  }

  lemma HeaderExactly(raw: Object, maxWorkers: nat)
    ensures SizesOk(raw, maxWorkers)
            <==> && (forall key :: key in raw ==> key in ["version", "runtime", "nodes", "edges"])
                 && "version" in raw && IsVersion2(raw["version"])
                 && "runtime" in raw && raw["runtime"] == Str("team-v1")
                 && "nodes" in raw && raw["nodes"].List? && 1 <= |raw["nodes"].items| <= maxWorkers
                 && "edges" in raw && raw["edges"].List? && |raw["edges"].items| <= 200
  {
    assert forall key :: key in GRAPH_FIELDS <==> key in ["version", "runtime", "nodes", "edges"];
    assert forall v: Value :: EqualsInt(v, 2) <==> IsVersion2(v);
  }

  lemma EntriesExactly(raw: Object, uuid: UuidParser)
    requires HeaderOk(raw)
    ensures EntriesOk(raw, uuid)
            <==> && (forall i :: 0 <= i < |Get(raw, "nodes").items| ==> IsNodeEntry(Get(raw, "nodes").items[i], uuid))
                 && (forall i :: 0 <= i < |Get(raw, "edges").items| ==> IsEdgeEntry(Get(raw, "edges").items[i]))
  {
    hide NodeOk, IsNodeEntry, EdgeOk, IsEdgeEntry;
    forall v
      ensures NodeOk(v, uuid) <==> IsNodeEntry(v, uuid)
      ensures EdgeOk(v) <==> IsEdgeEntry(v)
    {
      NodeEntryExactly(v, uuid);
      EdgeEntryExactly(v);
    }
  }

  lemma SameWordExactly(v: Value, key: string, u: Value, otherKey: string, text: string, otherText: string)
    requires Reads(v, key, text) && Reads(u, otherKey, otherText)
    ensures SameWord(v, key, u, otherKey) <==> text == otherText
  {
  }

  /** Both ends of edge `i` are nodes. */
  ghost predicate Inside(g: TeamGraph, i: nat)
    requires i < |g.edges|
  {
    && (exists k :: 0 <= k < |g.nodes| && g.edges[i].source == g.nodes[k].id)
    && (exists k :: 0 <= k < |g.nodes| && g.edges[i].target == g.nodes[k].id)
  }

  lemma ClosedExactly(g: TeamGraph)
    ensures g.Closed() <==> && (forall i, j :: 0 <= i < j < |g.nodes| ==> g.nodes[i].id != g.nodes[j].id)
                            && (forall i :: 0 <= i < |g.edges| ==> Inside(g, i))
  {
    forall i | 0 <= i < |g.edges|
      ensures Inside(g, i) <==> g.edges[i].source in g.Ids() && g.edges[i].target in g.Ids()
    {
    }
    hide Inside;
    assert forall i :: 0 <= i < |g.edges| ==> g.edges[i] in g.edges;
  }

  lemma NodeWords(nodes: seq<Value>, g: TeamGraph, uuid: UuidParser)
    requires |g.nodes| == |nodes| && forall i :: 0 <= i < |nodes| ==> NodeReads(nodes[i], g.nodes[i], uuid)
    ensures IdsDiffer(nodes) <==> forall i, j :: 0 <= i < j < |g.nodes| ==> g.nodes[i].id != g.nodes[j].id
  {
    hide SameWord, Reads;
    forall i, j | 0 <= i < |nodes| && 0 <= j < |nodes|
      ensures SameWord(nodes[i], "id", nodes[j], "id") <==> g.nodes[i].id == g.nodes[j].id
    {
      assert NodeReads(nodes[i], g.nodes[i], uuid) && NodeReads(nodes[j], g.nodes[j], uuid);
      SameWordExactly(nodes[i], "id", nodes[j], "id", g.nodes[i].id, g.nodes[j].id);
    }
  }

  lemma EdgeWords(edges: seq<Value>, g: TeamGraph)
    requires |g.edges| == |edges| && forall i :: 0 <= i < |edges| ==> EdgeReads(edges[i], g.edges[i])
    ensures IdsDiffer(edges) <==> DistinctEdgeIds(g)
  {
    hide SameWord, Reads;
    forall i, j | 0 <= i < |edges| && 0 <= j < |edges|
      ensures SameWord(edges[i], "id", edges[j], "id") <==> g.edges[i].id == g.edges[j].id
    {
      assert EdgeReads(edges[i], g.edges[i]) && EdgeReads(edges[j], g.edges[j]);
      SameWordExactly(edges[i], "id", edges[j], "id", g.edges[i].id, g.edges[j].id);
    }
  }

  lemma EndWords(nodes: seq<Value>, v: Value, g: TeamGraph, uuid: UuidParser, i: nat)
    requires |g.nodes| == |nodes| && forall k :: 0 <= k < |nodes| ==> NodeReads(nodes[k], g.nodes[k], uuid)
    requires i < |g.edges| && EdgeReads(v, g.edges[i])
    ensures Inside(g, i) <==> Known(v, "source", nodes) && Known(v, "target", nodes)
  {
    hide SameWord, Reads;
    forall k | 0 <= k < |nodes|
      ensures SameWord(v, "source", nodes[k], "id") <==> g.edges[i].source == g.nodes[k].id
      ensures SameWord(v, "target", nodes[k], "id") <==> g.edges[i].target == g.nodes[k].id
    {
      assert NodeReads(nodes[k], g.nodes[k], uuid);
      SameWordExactly(v, "source", nodes[k], "id", g.edges[i].source, g.nodes[k].id);
      SameWordExactly(v, "target", nodes[k], "id", g.edges[i].target, g.nodes[k].id);
    }
  }

  lemma MatchExactly(raw: Object, g: TeamGraph, uuid: UuidParser)
    requires GraphReads(raw, g, uuid)
    ensures g.Closed() && DistinctEdgeIds(g) <==> EntriesMatch(Get(raw, "nodes").items, Get(raw, "edges").items)
  {
    var nodes, edges := Get(raw, "nodes").items, Get(raw, "edges").items;
    hide IdsDiffer, Known, NodeReads, EdgeReads, Inside, DistinctEdgeIds, TeamGraph.Closed;
    ClosedExactly(g);
    NodeWords(nodes, g, uuid);
    EdgeWords(edges, g);
    forall i | 0 <= i < |edges|
      ensures Inside(g, i) <==> Known(edges[i], "source", nodes) && Known(edges[i], "target", nodes)
    {
      EndWords(nodes, edges[i], g, uuid, i);
    }
  }

  lemma CircleExactly(raw: Object, g: TeamGraph, uuid: UuidParser, p: seq<string>)
    requires GraphReads(raw, g, uuid)
    ensures Circle(Get(raw, "edges").items, p) <==> Walk(g, p) && |p| >= 2 && p[0] == p[|p| - 1]
  {
    hide EntryLeads, NodeReads, EdgeReads;
  }

  lemma DecodeReads(raw: Object, uuid: UuidParser)
    requires HeaderOk(raw) && EntriesOk(raw, uuid)
    ensures GraphReads(raw, Decode(raw, uuid), uuid)
  {
    hide NodeOk, NodeReads, EdgeOk, EdgeReads, NodeFrom, EdgeFrom;
    var g := Decode(raw, uuid);
    var nodes, edges := Get(raw, "nodes").items, Get(raw, "edges").items;
    forall i | 0 <= i < |nodes|
      ensures NodeReads(nodes[i], g.nodes[i], uuid)
    {
      NodeFromReads(nodes[i], uuid);
    }
    forall i | 0 <= i < |edges|
      ensures EdgeReads(edges[i], g.edges[i])
    {
      EdgeFromReads(edges[i]);
    }
    GraphReadsEntries(raw, g, uuid);
  }

  lemma CyclesAreCircles(raw: Object, g: TeamGraph, uuid: UuidParser)
    requires GraphReads(raw, g, uuid)
    ensures HasCycle(g) <==> exists p :: Circle(Get(raw, "edges").items, p)
  {
    var edges := Get(raw, "edges").items;
    hide GraphReads, Walk, Circle;
    forall p
      ensures Circle(edges, p) <==> Walk(g, p) && |p| >= 2 && p[0] == p[|p| - 1]
    {
      CircleExactly(raw, g, uuid, p);
    }
  }

  /** The parser accepts exactly the definitions whose entries make a team. */
  lemma AcceptsExactly(raw: Object, maxWorkers: nat, uuid: UuidParser)
    ensures Accepts(raw, maxWorkers, uuid) <==> TeamEntries(raw, maxWorkers, uuid)
  {
    hide IsVersion2, EntriesOk, IsNodeEntry, IsEdgeEntry, Circle, EntriesMatch, GraphReads, HasCycle, TeamGraph.Closed,
      DistinctEdgeIds, Decode;
    HeaderExactly(raw, maxWorkers);
    if SizesOk(raw, maxWorkers) {
      EntriesExactly(raw, uuid);
      if EntriesOk(raw, uuid) {
        DecodeReads(raw, uuid);
        MatchExactly(raw, Decode(raw, uuid), uuid);
        CyclesAreCircles(raw, Decode(raw, uuid), uuid);
      }
    }
  }
}
