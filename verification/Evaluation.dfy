/** The recursive meaning of a team graph: what each worker receives and returns, and how deep it sits.
    The scheduler in TeamRuntime.dfy is proved to compute exactly this. */
module Evaluation {
  import opened Prelude
  import opened TeamGraphs
  import opened BoundedContexts

  /** How one delegated call ends: the child run's final status, or what the call raised. */
  datatype ChildEnd =
    | Succeeded(text: string)
    | SucceededWithoutText
    | RunFailed
    | RunCancelled
    | OrchestrationFailure(code: string)
    | OtherFailure
    | TaskCancelled

  /** One team execution: the request, the context limit, and every child as a function of node and input. */
  datatype World = World(request: string, maximum: int, child: (TeamNode, string) -> ChildEnd)

  ghost predicate Dag(g: TeamGraph) {
    g.Closed() && !HasCycle(g)
  }

  // ---------------------------------------------------------------- a well-founded order

  /** Every predecessor of a member stands strictly before it. */
  ghost predicate PredecessorsFirst(g: TeamGraph, order: seq<string>) {
    && Distinct(order)
    && Elements(order) <= g.Ids()
    && forall i, u :: 0 <= i < |order| && g.Edge(u, order[i]) ==> u in order[..i]
  }

  lemma ExtendOrder(g: TeamGraph, order: seq<string>) returns (longer: seq<string>)
    requires Dag(g) && PredecessorsFirst(g, order) && Elements(order) != g.Ids()
    ensures PredecessorsFirst(g, longer) && |longer| == |order| + 1
  {
    var rest := g.Ids() - Elements(order);
    assert rest != {} by {
      var missing :| missing in g.Ids() && missing !in Elements(order);
      assert missing in rest;
    }
    var n := SourceExists(g, rest);
    longer := order + [n];
    assert Elements(longer) == Elements(order) + {n};
    forall i, u | 0 <= i < |longer| && g.Edge(u, longer[i])
      ensures u in longer[..i]
    {
      if i < |order| {
        assert longer[..i] == order[..i];
      } else {
        assert longer[..i] == order;
        assert u in g.Ids();
        assert u !in rest by { assert !HasPredecessorIn(g, rest, n); }
        assert u in Elements(order);
      }
    }
  }

  lemma {:induction false} CompleteOrder(g: TeamGraph, order: seq<string>) returns (full: seq<string>)
    requires Dag(g) && PredecessorsFirst(g, order)
    ensures PredecessorsFirst(g, full) && Elements(full) == g.Ids()
    decreases |g.Ids()| - |order|
  {
    if Elements(order) == g.Ids() {
      full := order;
    } else {
      var longer := ExtendOrder(g, order);
      OrderFits(g, longer);
      full := CompleteOrder(g, longer);
    }
  }

  lemma OrderFits(g: TeamGraph, order: seq<string>)
    requires PredecessorsFirst(g, order)
    ensures |order| <= |g.Ids()|
  {
    DistinctElements(order);
    SubsetSize(Elements(order), g.Ids());
  }

  lemma OrderExists(g: TeamGraph)
    requires Dag(g)
    ensures exists order :: PredecessorsFirst(g, order) && Elements(order) == g.Ids()
  {
    var order := CompleteOrder(g, []);
  }

  ghost function Order(g: TeamGraph): (order: seq<string>)
    requires Dag(g)
    ensures PredecessorsFirst(g, order) && Elements(order) == g.Ids()
  {
    OrderExists(g);
    var order :| PredecessorsFirst(g, order) && Elements(order) == g.Ids();
    order
  }

  ghost function Position(g: TeamGraph, id: string): (at: nat)
    requires Dag(g) && id in g.Ids()
    ensures at < |Order(g)| && Order(g)[at] == id
  {
    assert id in Elements(Order(g));
    var at: nat :| at < |Order(g)| && Order(g)[at] == id;
    at
  }

  lemma PredecessorIsEarlier(g: TeamGraph, u: string, id: string)
    requires Dag(g) && g.Edge(u, id)
    ensures u in g.Ids() && id in g.Ids() && Position(g, u) < Position(g, id)
  {
    var order, at := Order(g), Position(g, id);
    assert u in order[..at];
    var b :| 0 <= b < at && order[b] == u;
    assert Position(g, u) == b;
  }

  // ---------------------------------------------------------------- evaluation

  ghost function NodeOf(g: TeamGraph, id: string): (node: TeamNode)
    requires id in g.Ids()
    ensures node in g.nodes && node.id == id
  {
    var i :| 0 <= i < |g.nodes| && g.nodes[i].id == id;
    g.nodes[i]
  }

  ghost predicate AllInto(g: TeamGraph, sources: seq<string>, id: string) {
    forall u :: u in sources ==> g.Edge(u, id)
  }

  /** The output of a node: its child applied to the input built from its predecessors' outputs, in edge order.
      None when the child, or any node it depends on, does not succeed with a text. */
  ghost function Eval(w: World, g: TeamGraph, id: string): Option<string>
    requires Dag(g) && id in g.Ids()
    decreases Position(g, id), 1, 0
  {
    var inputs := EvalAll(w, g, id, g.Predecessors(id));
    if inputs.None? then None
    else Output(RunChild(w, NodeOf(g, id), inputs.value))
  }

  ghost function EvalAll(w: World, g: TeamGraph, id: string, sources: seq<string>): (all: Option<seq<Result>>)
    requires Dag(g) && id in g.Ids() && AllInto(g, sources, id)
    decreases Position(g, id), 0, |sources|
  {
    if sources == [] then Some([])
    else
      PredecessorIsEarlier(g, sources[0], id);
      var first, rest := Eval(w, g, sources[0]), EvalAll(w, g, id, sources[1..]);
      if first.None? || rest.None? then None
      else Some([Result(sources[0], first.value)] + rest.value)
  }

  function RunChild(w: World, node: TeamNode, inputs: seq<Result>): ChildEnd {
    w.child(node, WorkerInput(w.request, node.instructions, inputs, w.maximum))
  }

  function Output(end: ChildEnd): Option<string> {
    if end.Succeeded? then Some(end.text) else None
  }

  /** The outputs collected so far, listed for the predecessors of one node. */
  function Gather(outputs: map<string, string>, sources: seq<string>): seq<Result>
    requires forall u :: u in sources ==> u in outputs
  {
    if sources == [] then []
    else [Result(sources[0], outputs[sources[0]])] + Gather(outputs, sources[1..])
  }

  type Meaning = map<string, Option<string>>

  ghost function MeaningOf(w: World, g: TeamGraph): Meaning
    requires Dag(g)
  {
    map id | id in g.Ids() :: Eval(w, g, id)
  }

  ghost predicate Agree(meaning: Meaning, outputs: map<string, string>) {
    forall id :: id in outputs ==> id in meaning && meaning[id] == Some(outputs[id])
  }

  lemma {:induction false} GatherIsEvalAll(w: World, g: TeamGraph, id: string, sources: seq<string>,
                                           outputs: map<string, string>)
    requires Dag(g) && id in g.Ids() && AllInto(g, sources, id)
    requires Agree(MeaningOf(w, g), outputs) && forall u :: u in sources ==> u in outputs
    ensures EvalAll(w, g, id, sources) == Some(Gather(outputs, sources))
  {
    if sources != [] {
      GatherIsEvalAll(w, g, id, sources[1..], outputs);
      assert sources[0] in outputs && MeaningOf(w, g)[sources[0]] == Eval(w, g, sources[0]);
    }
  }

  // ---------------------------------------------------------------- depth

  /** The number of edges on a longest path that ends in the node. */
  ghost function Depth(g: TeamGraph, id: string): nat
    requires Dag(g) && id in g.Ids()
    decreases Position(g, id), 1, 0
  {
    DepthAfter(g, id, g.Predecessors(id))
  }

  ghost function DepthAfter(g: TeamGraph, id: string, sources: seq<string>): nat
    requires Dag(g) && id in g.Ids() && AllInto(g, sources, id)
    decreases Position(g, id), 0, |sources|
  {
    if sources == [] then 0
    else
      PredecessorIsEarlier(g, sources[0], id);
      var first, rest := Depth(g, sources[0]) + 1, DepthAfter(g, id, sources[1..]);
      if first < rest then rest else first
  }

  lemma {:induction false} DepthAfterBounds(g: TeamGraph, id: string, sources: seq<string>)
    requires Dag(g) && id in g.Ids() && AllInto(g, sources, id)
    ensures forall u :: u in sources ==> u in g.Ids() && Depth(g, u) < DepthAfter(g, id, sources)
    ensures sources != [] ==> exists u :: u in sources && u in g.Ids() && Depth(g, u) + 1 == DepthAfter(g, id, sources)
  {
    if sources != [] {
      PredecessorIsEarlier(g, sources[0], id);
      DepthAfterBounds(g, id, sources[1..]);
    }
  }

  lemma DepthBounds(g: TeamGraph, id: string)
    requires Dag(g) && id in g.Ids()
    ensures forall u :: u in g.Predecessors(id) ==> u in g.Ids() && Depth(g, u) < Depth(g, id)
    ensures Depth(g, id) > 0 ==>
              exists u :: u in g.Predecessors(id) && u in g.Ids() && Depth(g, u) + 1 == Depth(g, id)
  {
    assert Depth(g, id) == DepthAfter(g, id, g.Predecessors(id));
    DepthAfterBounds(g, id, g.Predecessors(id));
  }

  ghost predicate WalkTo(g: TeamGraph, p: seq<string>, id: string) {
    Walk(g, p) && p[|p| - 1] == id
  }

  lemma {:induction false} NoLongerWalk(g: TeamGraph, id: string, p: seq<string>)
    requires Dag(g) && id in g.Ids() && WalkTo(g, p, id)
    ensures |p| <= Depth(g, id) + 1
    decreases |p|
  {
    if |p| > 1 {
      var u := p[|p| - 2];
      assert g.Edge(u, p[|p| - 1]);
      assert u in g.Predecessors(id);
      DepthBounds(g, id);
      WalkSlice(g, p, 0, |p| - 1);
      NoLongerWalk(g, u, p[0..|p| - 1]);
    }
  }

  lemma {:induction false} DeepestWalk(g: TeamGraph, id: string) returns (p: seq<string>)
    requires Dag(g) && id in g.Ids()
    ensures WalkTo(g, p, id) && |p| == Depth(g, id) + 1
    decreases Depth(g, id)
  {
    DepthBounds(g, id);
    p := [id];
    if Depth(g, id) > 0 {
      var u :| u in g.Predecessors(id) && u in g.Ids() && Depth(g, u) + 1 == Depth(g, id);
      var q := DeepestWalk(g, u);
      WalkExtends(g, q, u, id);
      p := q + [id];
    }
  }

  /** `Depth` counts the edges of a longest walk into the node: one such walk exists, and none is longer. */
  lemma DepthIsLongestWalk(g: TeamGraph, id: string)
    requires Dag(g) && id in g.Ids()
    ensures exists p :: WalkTo(g, p, id) && |p| == Depth(g, id) + 1
    ensures forall p :: WalkTo(g, p, id) ==> |p| <= Depth(g, id) + 1
  {
    var longest := DeepestWalk(g, id);
    forall p | WalkTo(g, p, id)
      ensures |p| <= Depth(g, id) + 1
    {
      NoLongerWalk(g, id, p);
    }
  }

  lemma WalkExtends(g: TeamGraph, q: seq<string>, u: string, id: string)
    requires WalkTo(g, q, u) && g.Edge(u, id)
    ensures WalkTo(g, q + [id], id)
  {
  }

  /** The depth of every node, as a table. */
  ghost function Depths(g: TeamGraph): (depth: map<string, nat>)
    requires Dag(g)
  {
    map id | id in g.Ids() :: Depth(g, id)
  }

  /** What the scheduler uses of depths: an edge goes down, and a node below the top has a predecessor in the
      level just above it. */
  ghost predicate Levels(g: TeamGraph, depth: map<string, nat>) {
    && depth.Keys == g.Ids()
    && (forall id, u :: id in depth && u in g.Predecessors(id) ==> u in depth && depth[u] < depth[id])
    && (forall id {:trigger Anchored(g, depth, id)} :: id in depth ==> Anchored(g, depth, id))
  }

  ghost predicate Anchored(g: TeamGraph, depth: map<string, nat>, id: string)
    requires id in depth
  {
    depth[id] > 0 ==> exists u :: u in g.Predecessors(id) && u in depth && depth[u] + 1 == depth[id]
  }

  lemma DepthsAreLevels(g: TeamGraph)
    requires Dag(g)
    ensures Levels(g, Depths(g))
  {
    forall id | id in g.Ids()
      ensures forall u :: u in g.Predecessors(id) ==> u in g.Ids() && Depths(g)[u] < Depths(g)[id]
      ensures Anchored(g, Depths(g), id)
    {
      DepthBounds(g, id);
    }
  }
}
