/** domain/orchestration.py: the validated team graph, its parser, and the depth-first cycle check. */
module TeamGraphs {
  import opened Prelude
  import opened Json

  type AgentId = nat

  datatype TeamNode = TeamNode(id: string, nodeLabel: string, agentId: AgentId, instructions: Option<string>)

  datatype TeamEdge = TeamEdge(id: string, source: string, target: string)

  datatype TeamGraph = TeamGraph(nodes: seq<TeamNode>, edges: seq<TeamEdge>) {

    /** One entry per edge, so parallel edges give duplicates. */
    function Predecessors(id: string): seq<string> {
      SourcesInto(edges, id)
    }

    function Successors(id: string): seq<string> {
      TargetsFrom(edges, id)
    }

    ghost function Ids(): set<string> {
      set i | 0 <= i < |nodes| :: nodes[i].id
    }

    ghost predicate Edge(source: string, target: string) {
      exists e :: e in edges && e.source == source && e.target == target
    }

    /** What the field checks guarantee: distinct node ids, and edges that stay inside them. */
    ghost predicate Closed() {
      && (forall i, j :: 0 <= i < j < |nodes| ==> nodes[i].id != nodes[j].id)
      && (forall e :: e in edges ==> e.source in Ids() && e.target in Ids())
    }
  }

  function SourcesInto(edges: seq<TeamEdge>, target: string): (sources: seq<string>)
    ensures forall s :: s in sources <==> exists e :: e in edges && e.source == s && e.target == target
  {
    if edges == [] then []
    else
      var rest := SourcesInto(edges[1..], target);
      assert forall e :: e in edges <==> e == edges[0] || e in edges[1..];
      if edges[0].target == target then [edges[0].source] + rest else rest
  }

  function TargetsFrom(edges: seq<TeamEdge>, source: string): (targets: seq<string>)
    ensures forall t :: t in targets <==> exists e :: e in edges && e.source == source && e.target == t
  {
    if edges == [] then []
    else
      var rest := TargetsFrom(edges[1..], source);
      assert forall e :: e in edges <==> e == edges[0] || e in edges[1..];
      if edges[0].source == source then [edges[0].target] + rest else rest
  }

  /** In edge order, each edge once. */
  lemma {:induction false} SourcesAppend(edges: seq<TeamEdge>, e: TeamEdge, target: string)
    ensures SourcesInto([], target) == []
    ensures SourcesInto(edges + [e], target)
            == SourcesInto(edges, target) + if e.target == target then [e.source] else []
  {
    if edges == [] {
      assert edges + [e] == [e];
    } else {
      SourcesAppend(edges[1..], e, target);
      assert (edges + [e])[1..] == edges[1..] + [e];
    }
  }

  lemma {:induction false} TargetsAppend(edges: seq<TeamEdge>, e: TeamEdge, source: string)
    ensures TargetsFrom([], source) == []
    ensures TargetsFrom(edges + [e], source)
            == TargetsFrom(edges, source) + if e.source == source then [e.target] else []
  {
    if edges == [] {
      assert edges + [e] == [e];
    } else {
      TargetsAppend(edges[1..], e, source);
      assert (edges + [e])[1..] == edges[1..] + [e];
    }
  }

  // ---------------------------------------------------------------- walks, cycles and orders

  ghost predicate Walk(g: TeamGraph, p: seq<string>) {
    |p| > 0 && forall i, j :: 0 <= i && j == i + 1 < |p| ==> g.Edge(p[i], p[j])
  }

  lemma WalkSlice(g: TeamGraph, p: seq<string>, lo: nat, hi: nat)
    requires Walk(g, p) && lo < hi <= |p|
    ensures Walk(g, p[lo..hi])
  {
    var q := p[lo..hi];
    forall i, j | 0 <= i && j == i + 1 < |q|
      ensures g.Edge(q[i], q[j])
    {
      assert g.Edge(p[lo + i], p[lo + j]);
    }
  }

  /** A walk along at least one edge that ends where it began. */
  ghost predicate HasCycle(g: TeamGraph) {
    exists p :: Walk(g, p) && |p| >= 2 && p[0] == p[|p| - 1]
  }

  lemma RepeatIsCycle(g: TeamGraph, p: seq<string>, i: nat, j: nat)
    requires Walk(g, p) && i < j < |p| && p[i] == p[j]
    ensures HasCycle(g)
  {
    WalkSlice(g, p, i, j + 1);
    var c := p[i..j + 1];
    assert c[0] == c[|c| - 1];
  }

  /** A list in which every successor of a member stands strictly before it. */
  ghost predicate SuccessorsFirst(g: TeamGraph, order: seq<string>) {
    && Distinct(order)
    && forall i, v :: 0 <= i < |order| && g.Edge(order[i], v) ==> v in order[..i]
  }

  lemma {:induction false} WalkDescends(g: TeamGraph, order: seq<string>, p: seq<string>, at: nat)
    requires SuccessorsFirst(g, order) && Walk(g, p)
    requires at < |order| && order[at] == p[0]
    ensures forall k :: 0 < k < |p| ==> p[k] in order[..at]
    decreases |p|
  {
    if |p| > 1 {
      assert g.Edge(order[at], p[1]);
      var b :| 0 <= b < at && order[b] == p[1];
      var q := p[1..];
      WalkSlice(g, p, 1, |p|);
      WalkDescends(g, order, q, b);
      assert forall k :: 1 < k < |p| ==> p[k] == q[k - 1];
    }
  }

  /** An order that covers every node rules out cycles. */
  lemma OrderExcludesCycles(g: TeamGraph, order: seq<string>)
    requires g.Closed() && SuccessorsFirst(g, order)
    requires forall id :: id in g.Ids() ==> id in order
    ensures !HasCycle(g)
  {
    if HasCycle(g) {
      var p :| Walk(g, p) && |p| >= 2 && p[0] == p[|p| - 1];
      assert g.Edge(p[0], p[1]);
      assert p[0] in g.Ids();
      var at :| 0 <= at < |order| && order[at] == p[0];
      WalkDescends(g, order, p, at);
      assert false;
    }
  }

  ghost predicate HasPredecessorIn(g: TeamGraph, members: set<string>, n: string) {
    exists m :: m in members && g.Edge(m, n)
  }

  /** A backward walk of any length, as long as every member has a predecessor among the members. */
  lemma {:induction false} BackwardWalk(g: TeamGraph, members: set<string>, steps: nat) returns (p: seq<string>)
    requires members != {}
    requires forall n {:trigger HasPredecessorIn(g, members, n)} :: n in members ==> HasPredecessorIn(g, members, n)
    ensures Walk(g, p) && |p| == steps + 1
    ensures forall k :: 0 <= k < |p| ==> p[k] in members
  {
    if steps == 0 {
      var n :| n in members;
      p := [n];
    } else {
      var q := BackwardWalk(g, members, steps - 1);
      assert HasPredecessorIn(g, members, q[0]);
      var m :| m in members && g.Edge(m, q[0]);
      p := [m] + q;
      forall i, j | 0 <= i && j == i + 1 < |p|
        ensures g.Edge(p[i], p[j])
      {
        if i > 0 {
          assert g.Edge(q[i - 1], q[j - 1]);
        }
      }
    }
  }

  /** In an acyclic graph every nonempty set of names has a member without predecessors in the set. */
  lemma SourceExists(g: TeamGraph, members: set<string>) returns (n: string)
    requires !HasCycle(g) && members != {}
    ensures n in members && !HasPredecessorIn(g, members, n)
  {
    if forall n {:trigger HasPredecessorIn(g, members, n)} :: n in members ==> HasPredecessorIn(g, members, n) {
      var p := BackwardWalk(g, members, |members|);
      var i, j := Pigeonhole(p, members);
      RepeatIsCycle(g, p, i, j);
      assert false;
    }
    n :| n in members && !HasPredecessorIn(g, members, n);
  }

  // ---------------------------------------------------------------- _ensure_dag

  /** The two sets of `_ensure_dag` and its recursive `visit`. The ghost fields record the recursion stack
      and the order in which nodes were finished. */
  class DagCheck {
    const graph: TeamGraph
    var visiting: set<string>
    var visited: set<string>
    ghost var stack: seq<string>
    ghost var order: seq<string>

    ghost predicate Valid()
      reads this
    {
      && visiting == Elements(stack)
      && visited == Elements(order)
      && visiting !! visited
      && visiting <= graph.Ids()
      && visited <= graph.Ids()
      && (stack != [] ==> Walk(graph, stack))
      && SuccessorsFirst(graph, order)
    }

    constructor (graph: TeamGraph)
      ensures this.graph == graph && Valid() && stack == [] && visited == {}
    {
      this.graph := graph;
      visiting, visited, stack, order := {}, {}, [], [];
    }

    /** `ok` is false where the source raises; then the visiting set holds a real cycle. */
    method Visit(id: string) returns (ok: bool)
      requires Valid() && graph.Closed() && id in graph.Ids()
      requires stack != [] ==> graph.Edge(stack[|stack| - 1], id)
      modifies this
      ensures !ok ==> HasCycle(graph)
      ensures ok ==> Valid() && stack == old(stack) && visiting == old(visiting)
      ensures ok ==> old(visited) <= visited && id in visited
      decreases graph.Ids() - visiting
    {
      if id in visiting {
        ghost var k :| 0 <= k < |stack| && stack[k] == id;
        CycleFromStack(graph, stack, k);
        return false;
      }
      if id in visited {
        return true;
      }
      visiting := visiting + {id};
      stack := stack + [id];
      assert Elements(stack) == visiting;
      assert Walk(graph, stack);
      assert graph.Ids() - visiting < graph.Ids() - old(visiting) by {
        assert id in graph.Ids() - old(visiting);
      }
      var successors := graph.Successors(id);
      for i := 0 to |successors|
        invariant Valid() && stack == old(stack) + [id] && visiting == old(visiting) + {id}
        invariant old(visited) <= visited
        invariant forall j :: 0 <= j < i ==> successors[j] in visited
      {
        assert graph.Edge(id, successors[i]) by { assert successors[i] in successors; }
        var inner := Visit(successors[i]);
        if !inner {
          return false;
        }
      }
      visiting := visiting - {id};
      stack := old(stack);
      visited := visited + {id};
      FinishNode(graph, order, id);
      order := order + [id];
      assert Elements(order) == visited;
      return true;
    }
  }

  lemma CycleFromStack(g: TeamGraph, stack: seq<string>, k: nat)
    requires Walk(g, stack) && k < |stack| && g.Edge(stack[|stack| - 1], stack[k])
    ensures HasCycle(g)
  {
    RepeatIsCycle(g, stack + [stack[k]], k, |stack|);
  }

  lemma FinishNode(g: TeamGraph, order: seq<string>, id: string)
    requires SuccessorsFirst(g, order) && id !in order
    requires forall v :: v in g.Successors(id) ==> v in order
    ensures SuccessorsFirst(g, order + [id])
  {
    var longer := order + [id];
    forall i, v | 0 <= i < |longer| && g.Edge(longer[i], v)
      ensures v in longer[..i]
    {
      if i < |order| {
        assert longer[..i] == order[..i];
      } else {
        assert longer[..i] == order;
        assert v in g.Successors(id);
      }
    }
  }

  /** `_ensure_dag`: returns normally exactly when the edge relation has no cycle. */
  method EnsureDag(graph: TeamGraph) returns (ok: bool)
    requires graph.Closed()
    ensures ok <==> !HasCycle(graph)
  {
    var check := new DagCheck(graph);
    for i := 0 to |graph.nodes|
      invariant check.Valid() && check.stack == [] && check.graph == graph && fresh(check)
      invariant forall j :: 0 <= j < i ==> graph.nodes[j].id in check.visited
    {
      assert graph.nodes[i].id in graph.Ids();
      var inner := check.Visit(graph.nodes[i].id);
      if !inner {
        return false;
      }
    }
    OrderExcludesCycles(graph, check.order);
    return true;
  }
}
