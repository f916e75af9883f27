/** runtime/team.py: `_run_graph` as a state machine whose steps are the steps of its waves. */
module Schedulers {
  import opened Prelude
  import opened TeamGraphs
  import opened BoundedContexts
  import opened Evaluation
  import opened Waves

  ghost predicate Named(nodes: seq<TeamNode>, id: string) {
    exists n :: n in nodes && n.id == id
  }

  ghost predicate DistinctNames(nodes: seq<TeamNode>) {
    forall i, j :: 0 <= i < j < |nodes| ==> nodes[i].id != nodes[j].id
  }

  /** After `k` waves the collected outputs are those of the nodes less than `k` deep, and the rest is pending. */
  ghost predicate AfterWaves(g: TeamGraph, depth: map<string, nat>, pending: seq<TeamNode>,
                             outputs: map<string, string>, k: nat)
  {
    && (forall id :: id in outputs <==> id in depth && depth[id] < k)
    && (forall id :: Named(pending, id) <==> id in depth && depth[id] >= k)
    && (forall n :: n in pending ==> n in g.nodes)
    && DistinctNames(pending)
  }

  predicate Schedulable(g: TeamGraph, outputs: map<string, string>, node: TeamNode) {
    forall u :: u in g.Predecessors(node.id) ==> u in outputs
  }

  ghost predicate Parts(g: TeamGraph, outputs: map<string, string>, pending: seq<TeamNode>, ready: seq<TeamNode>,
                        later: seq<TeamNode>)
  {
    && (forall n :: n in ready <==> n in pending && Schedulable(g, outputs, n))
    && (forall n :: n in later <==> n in pending && !Schedulable(g, outputs, n))
    && DistinctNames(ready)
    && DistinctNames(later)
    && |ready| + |later| == |pending|
  }

  /** The list comprehension that picks the nodes whose predecessors all have outputs. */
  function ReadyNodes(g: TeamGraph, nodes: seq<TeamNode>, outputs: map<string, string>): (ready: seq<TeamNode>)
    ensures forall n :: n in ready ==> Schedulable(g, outputs, n)
  {
    if nodes == [] then []
    else
      var front, last := ReadyNodes(g, nodes[..|nodes| - 1], outputs), nodes[|nodes| - 1];
      if Schedulable(g, outputs, last) then front + [last] else front
  }

  function LaterNodes(g: TeamGraph, nodes: seq<TeamNode>, outputs: map<string, string>): seq<TeamNode> {
    if nodes == [] then []
    else
      var front, last := LaterNodes(g, nodes[..|nodes| - 1], outputs), nodes[|nodes| - 1];
      if Schedulable(g, outputs, last) then front else front + [last]
  }

  lemma {:induction false} ReadyIs(g: TeamGraph, outputs: map<string, string>, nodes: seq<TeamNode>, n: TeamNode)
    ensures n in ReadyNodes(g, nodes, outputs) <==> n in nodes && Schedulable(g, outputs, n)
    ensures n in LaterNodes(g, nodes, outputs) <==> n in nodes && !Schedulable(g, outputs, n)
  {
    hide Schedulable;
    if nodes != [] {
      assert nodes == nodes[..|nodes| - 1] + [nodes[|nodes| - 1]];
      ReadyIs(g, outputs, nodes[..|nodes| - 1], n);
    }
  }

  /** Somewhere in the list the first node stands before the second. */
  ghost predicate StandsBefore(nodes: seq<TeamNode>, first: TeamNode, second: TeamNode) {
    exists a, b :: 0 <= a < b < |nodes| && nodes[a] == first && nodes[b] == second
  }

  lemma StandsBeforeLast(nodes: seq<TeamNode>, first: TeamNode)
    requires nodes != [] && first in nodes[..|nodes| - 1]
    ensures StandsBefore(nodes, first, nodes[|nodes| - 1])
  {
    var a :| 0 <= a < |nodes| - 1 && nodes[a] == first;
  }

  lemma StillBefore(nodes: seq<TeamNode>, first: TeamNode, second: TeamNode)
    requires nodes != [] && StandsBefore(nodes[..|nodes| - 1], first, second)
    ensures StandsBefore(nodes, first, second)
  {
    var a, b :| 0 <= a < b < |nodes| - 1 && nodes[..|nodes| - 1][a] == first && nodes[..|nodes| - 1][b] == second;
    assert nodes[a] == first && nodes[b] == second;
  }

  /** The children of a wave are started in the order of the nodes, and what waits for a later wave keeps that order. */
  lemma {:induction false} ReadyInOrder(g: TeamGraph, outputs: map<string, string>, nodes: seq<TeamNode>, i: nat,
                                        j: nat)
    ensures i < j < |ReadyNodes(g, nodes, outputs)| ==>
              StandsBefore(nodes, ReadyNodes(g, nodes, outputs)[i], ReadyNodes(g, nodes, outputs)[j])
    ensures i < j < |LaterNodes(g, nodes, outputs)| ==>
              StandsBefore(nodes, LaterNodes(g, nodes, outputs)[i], LaterNodes(g, nodes, outputs)[j])
  {
    hide Schedulable, StandsBefore;
    if nodes != [] {
      var front := nodes[..|nodes| - 1];
      var ready, later := ReadyNodes(g, front, outputs), LaterNodes(g, front, outputs);
      ReadyInOrder(g, outputs, front, i, j);
      if i < |ready| {
        ReadyIs(g, outputs, front, ready[i]);
        StandsBeforeLast(nodes, ready[i]);
      }
      if i < |later| {
        ReadyIs(g, outputs, front, later[i]);
        StandsBeforeLast(nodes, later[i]);
      }
      if i < j < |ready| {
        StillBefore(nodes, ready[i], ready[j]);
      }
      if i < j < |later| {
        StillBefore(nodes, later[i], later[j]);
      }
    }
  }

  lemma AppendName(nodes: seq<TeamNode>, n: TeamNode)
    requires DistinctNames(nodes) && forall m :: m in nodes ==> m.id != n.id
    ensures DistinctNames(nodes + [n])
  {
  }

  lemma {:induction false} PartsCount(g: TeamGraph, outputs: map<string, string>, nodes: seq<TeamNode>)
    ensures |ReadyNodes(g, nodes, outputs)| + |LaterNodes(g, nodes, outputs)| == |nodes|
  {
    hide Schedulable;
    if nodes != [] {
      PartsCount(g, outputs, nodes[..|nodes| - 1]);
    }
  }

  lemma {:induction false} ReadyDistinct(g: TeamGraph, outputs: map<string, string>, nodes: seq<TeamNode>)
    requires DistinctNames(nodes)
    ensures DistinctNames(ReadyNodes(g, nodes, outputs)) && DistinctNames(LaterNodes(g, nodes, outputs))
  {
    if nodes != [] {
      var front, last := nodes[..|nodes| - 1], nodes[|nodes| - 1];
      var ready, later := ReadyNodes(g, front, outputs), LaterNodes(g, front, outputs);
      LastNameIsNew(nodes);
      hide Schedulable, DistinctNames;
      FrontDistinct(nodes);
      ReadyDistinct(g, outputs, front);
      forall m | m in ready || m in later
        ensures m.id != last.id
      {
        ReadyIs(g, outputs, front, m);
      }
      AppendName(ready, last);
      AppendName(later, last);
    }
  }

  lemma FrontDistinct(nodes: seq<TeamNode>)
    requires nodes != [] && DistinctNames(nodes)
    ensures DistinctNames(nodes[..|nodes| - 1])
  {
  }

  lemma LastNameIsNew(nodes: seq<TeamNode>)
    requires nodes != [] && DistinctNames(nodes)
    ensures forall m :: m in nodes[..|nodes| - 1] ==> m.id != nodes[|nodes| - 1].id
  {
  }

  lemma PartsOf(g: TeamGraph, outputs: map<string, string>, pending: seq<TeamNode>)
    requires DistinctNames(pending)
    ensures Parts(g, outputs, pending, ReadyNodes(g, pending, outputs), LaterNodes(g, pending, outputs))
  {
    hide ReadyNodes, LaterNodes, Schedulable, DistinctNames;
    PartsCount(g, outputs, pending);
    ReadyDistinct(g, outputs, pending);
    forall n
      ensures n in ReadyNodes(g, pending, outputs) <==> n in pending && Schedulable(g, outputs, n)
      ensures n in LaterNodes(g, pending, outputs) <==> n in pending && !Schedulable(g, outputs, n)
    {
      ReadyIs(g, outputs, pending, n);
    }
  }

  /** The nodes that can run after `k` waves are the pending ones exactly `k` deep. */
  lemma ReadyIsDepth(g: TeamGraph, depth: map<string, nat>, pending: seq<TeamNode>, outputs: map<string, string>,
                     k: nat, node: TeamNode)
    requires Levels(g, depth) && AfterWaves(g, depth, pending, outputs, k) && node in pending
    ensures node.id in depth && depth[node.id] >= k
    ensures Schedulable(g, outputs, node) <==> depth[node.id] == k
  {
    hide SourcesInto, DistinctNames, TeamGraph.Predecessors, TeamGraph.Ids;
    assert Named(pending, node.id);
    assert Anchored(g, depth, node.id);
    if depth[node.id] > k {
      var u :| u in g.Predecessors(node.id) && u in depth && depth[u] + 1 == depth[node.id];
      assert u !in outputs;
    }
  }

  /** The error "no schedulable worker" cannot happen on a graph the parser accepted. */
  lemma SomeNodeIsReady(g: TeamGraph, depth: map<string, nat>, pending: seq<TeamNode>, outputs: map<string, string>,
                        k: nat)
    requires Dag(g) && Levels(g, depth) && AfterWaves(g, depth, pending, outputs, k) && pending != []
    ensures exists n :: n in pending && Schedulable(g, outputs, n)
  {
    var left := set n | n in pending :: n.id;
    assert pending[0].id in left;
    var id := SourceExists(g, left);
    var n :| n in pending && n.id == id;
    forall u | u in g.Predecessors(id)
      ensures u in outputs
    {
      assert g.Edge(u, id) && u in depth;
      assert u !in left by { assert !HasPredecessorIn(g, left, id); }
      assert !Named(pending, u);
    }
  }

  lemma ReadyNames(g: TeamGraph, depth: map<string, nat>, pending: seq<TeamNode>, outputs: map<string, string>, k: nat,
                   ready: seq<TeamNode>, later: seq<TeamNode>)
    requires Levels(g, depth) && AfterWaves(g, depth, pending, outputs, k) && Parts(g, outputs, pending, ready, later)
    ensures forall id :: Named(ready, id) <==> id in depth && depth[id] == k
    ensures forall id :: Named(later, id) <==> id in depth && depth[id] > k
  {
    forall id
      ensures Named(ready, id) <==> id in depth && depth[id] == k
      ensures Named(later, id) <==> id in depth && depth[id] > k
    {
      if Named(ready, id) {
        var n :| n in ready && n.id == id;
        ReadyIsDepth(g, depth, pending, outputs, k, n);
      }
      if Named(later, id) {
        var n :| n in later && n.id == id;
        ReadyIsDepth(g, depth, pending, outputs, k, n);
      }
      if id in depth && depth[id] >= k {
        assert Named(pending, id);
        var n :| n in pending && n.id == id;
        ReadyIsDepth(g, depth, pending, outputs, k, n);
        assert n in ready || n in later;
      }
    }
  }

  function EndOf(w: World, g: TeamGraph, outputs: map<string, string>, node: TeamNode): ChildEnd
    requires Schedulable(g, outputs, node)
  {
    RunChild(w, node, Gather(outputs, g.Predecessors(node.id)))
  }

  lemma NodeIsUnique(g: TeamGraph, node: TeamNode)
    requires g.Closed() && node in g.nodes
    ensures node.id in g.Ids() && NodeOf(g, node.id) == node
  {
    var i :| 0 <= i < |g.nodes| && g.nodes[i] == node;
    assert g.nodes[i].id in g.Ids();
    var chosen := NodeOf(g, node.id);
    var j :| 0 <= j < |g.nodes| && g.nodes[j] == chosen;
    assert g.nodes[j].id == chosen.id == node.id == g.nodes[i].id;
  }

  /** A ready node means what its child returns on the collected outputs. */
  lemma MeaningOfReady(w: World, g: TeamGraph, outputs: map<string, string>, node: TeamNode)
    requires Dag(g) && Agree(MeaningOf(w, g), outputs) && node in g.nodes && Schedulable(g, outputs, node)
    ensures node.id in MeaningOf(w, g) && MeaningOf(w, g)[node.id] == Output(EndOf(w, g, outputs, node))
  {
    NodeIsUnique(g, node);
    GatherIsEvalAll(w, g, node.id, g.Predecessors(node.id), outputs);
    assert MeaningOf(w, g)[node.id] == Eval(w, g, node.id);
  }

  function EndsOf(w: World, g: TeamGraph, ready: seq<TeamNode>, outputs: map<string, string>): seq<ChildEnd>
    requires forall n :: n in ready ==> Schedulable(g, outputs, n)
  {
    seq(|ready|, i requires 0 <= i < |ready| =>
      assert ready[i] in ready;
      EndOf(w, g, outputs, ready[i]))
  }

  /** The outputs once a finished wave has been added, result by result. */
  function Collected(outputs: map<string, string>, ready: seq<TeamNode>, texts: seq<string>): map<string, string>
    requires |ready| == |texts|
  {
    if ready == [] then outputs
    else
      var last := |ready| - 1;
      Collected(outputs, ready[..last], texts[..last])[ready[last].id := texts[last]]
  }

  lemma NamedAppend(nodes: seq<TeamNode>, n: TeamNode)
    ensures forall id :: Named(nodes + [n], id) <==> Named(nodes, id) || id == n.id
  {
    forall id | id == n.id || Named(nodes, id)
      ensures Named(nodes + [n], id)
    {
      if id == n.id {
        assert n in nodes + [n];
      } else {
        var m :| m in nodes && m.id == id;
        assert m in nodes + [n];
      }
    }
  }

  lemma {:induction false} CollectedIs(outputs: map<string, string>, ready: seq<TeamNode>, texts: seq<string>)
    requires |ready| == |texts| && DistinctNames(ready)
    ensures var outputs' := Collected(outputs, ready, texts);
            && (forall id :: id in outputs' <==> id in outputs || Named(ready, id))
            && (forall id :: id in outputs && !Named(ready, id) ==> outputs'[id] == outputs[id])
            && (forall i :: 0 <= i < |ready| ==> ready[i].id in outputs' && outputs'[ready[i].id] == texts[i])
  {
    hide Named;
    if ready == [] {
      NobodyNamed();
    } else {
      var last := |ready| - 1;
      CollectedIs(outputs, ready[..last], texts[..last]);
      NamedAppend(ready[..last], ready[last]);
      assert ready == ready[..last] + [ready[last]];
    }
  }

  lemma NobodyNamed()
    ensures forall id :: !Named([], id)
  {
  }

  /** Collecting a finished wave. */
  lemma NextWave(g: TeamGraph, depth: map<string, nat>, pending: seq<TeamNode>, outputs: map<string, string>, k: nat,
                 ready: seq<TeamNode>, later: seq<TeamNode>, outputs': map<string, string>)
    requires Levels(g, depth) && AfterWaves(g, depth, pending, outputs, k) && Parts(g, outputs, pending, ready, later)
    requires forall id :: id in outputs' <==> id in outputs || Named(ready, id)
    ensures AfterWaves(g, depth, later, outputs', k + 1)
  {
    ReadyNames(g, depth, pending, outputs, k, ready, later);
  }

  lemma StaysInAgreement(w: World, g: TeamGraph, outputs: map<string, string>, ready: seq<TeamNode>,
                         ends: seq<ChildEnd>, texts: seq<string>, outputs': map<string, string>)
    requires Dag(g) && Agree(MeaningOf(w, g), outputs)
    requires |ends| == |ready| == |texts|
    requires forall n :: n in ready ==> n in g.nodes && Schedulable(g, outputs, n)
    requires forall i :: 0 <= i < |ready| ==> ends[i] == EndOf(w, g, outputs, ready[i]) == Succeeded(texts[i])
    requires forall id :: id in outputs' <==> id in outputs || Named(ready, id)
    requires forall id :: id in outputs && !Named(ready, id) ==> outputs'[id] == outputs[id]
    requires forall i :: 0 <= i < |ready| ==> ready[i].id in outputs' && outputs'[ready[i].id] == texts[i]
    ensures Agree(MeaningOf(w, g), outputs')
  {
    forall id | id in outputs'
      ensures id in MeaningOf(w, g) && MeaningOf(w, g)[id] == Some(outputs'[id])
    {
      if Named(ready, id) {
        var n :| n in ready && n.id == id;
        var i :| 0 <= i < |ready| && ready[i] == n;
        MeaningOfReady(w, g, outputs, n);
      }
    }
  }

  // ---------------------------------------------------------------- the scheduler

  /** Outputs, the error of a failed wave, or a cancellation passed on. */
  datatype RunEnd = Done(outputs: map<string, string>) | Aborted(code: string) | Stopped

  /** `_run_graph` in its current wave. `ends` says how the children of this wave will end; `level` is the history of
      the nodes whose child was started, with the wave it was started in. */
  datatype Scheduler = Scheduler(
    pending: seq<TeamNode>,
    outputs: map<string, string>,
    ready: seq<TeamNode>,
    ends: seq<ChildEnd>,
    wave: Wave,
    waves: nat,
    level: map<string, nat>,
    cancelled: bool,
    end: Option<RunEnd>)

  /** The head of the `while pending` loop. */
  function OpenWave(w: World, g: TeamGraph, pending: seq<TeamNode>, outputs: map<string, string>, waves: nat,
                    level: map<string, nat>, cancelled: bool): Scheduler
  {
    var ready := ReadyNodes(g, pending, outputs);
    Scheduler(pending, outputs, ready, EndsOf(w, g, ready, outputs), NewWave(|ready|), waves, level, cancelled,
              if pending == [] then Some(Done(outputs))
              else if ready == [] then Some(Aborted("INVALID_TEAM_GRAPH"))
              else None)
  }

  function StartedIn(ready: seq<TeamNode>, entered: set<nat>): set<string> {
    set i | i in entered && i < |ready| :: ready[i].id
  }

  function Record(level: map<string, nat>, started: set<string>, k: nat): map<string, nat> {
    level + map id | id in started :: k
  }

  function WaveEnded(w: World, g: TeamGraph, s: Scheduler, end: WaveEnd): Scheduler {
    match end
    case Finished(texts) =>
      if |texts| != |s.ready| then s
      else OpenWave(w, g, LaterNodes(g, s.pending, s.outputs), Collected(s.outputs, s.ready, texts), s.waves + 1,
                    s.level, s.cancelled)
    case Broken(cause) => s.(end := Some(if cause.Raised? then Aborted(cause.code) else Stopped))
    case Interrupted => s.(end := Some(Stopped))
  }

  /** A step of the wave; when the wave is left, the loop goes on or ends at once. */
  function GraphStep(w: World, g: TeamGraph, maxParallel: nat, s: Scheduler, e: Event): Scheduler {
    if s.end.Some? then s
    else
      var v := Step(s.wave, s.ends, maxParallel, e);
      var t := s.(wave := v, level := Record(s.level, StartedIn(s.ready, v.entered), s.waves),
                  cancelled := s.cancelled || e.CancelCaller?);
      if v.phase.Left? then WaveEnded(w, g, t, v.phase.end) else t
  }

  function Start(w: World, g: TeamGraph): Scheduler {
    OpenWave(w, g, g.nodes, map[], 0, map[], false)
  }

  /** The scheduler after any history of steps. */
  function Play(w: World, g: TeamGraph, maxParallel: nat, events: seq<Event>): Scheduler {
    if events == [] then Start(w, g)
    else GraphStep(w, g, maxParallel, Play(w, g, maxParallel, events[..|events| - 1]), events[|events| - 1])
  }

  // ---------------------------------------------------------------- what stays true

  /** The outputs agree with the recursive meaning, the ready nodes are those of the current level, and the started ones
      are those with outputs and those of this wave that entered. */
  ghost predicate LevelsOk(w: World, g: TeamGraph, depth: map<string, nat>, meaning: Meaning, s: Scheduler) {
    && AfterWaves(g, depth, s.pending, s.outputs, s.waves)
    && Agree(meaning, s.outputs)
    && s.ready == ReadyNodes(g, s.pending, s.outputs)
    && s.ends == EndsOf(w, g, s.ready, s.outputs)
    && s.level.Keys == s.outputs.Keys + StartedIn(s.ready, s.wave.entered)
    && (forall id :: id in s.level ==> id in depth && s.level[id] == depth[id])
  }

  ghost predicate EndFits(s: Scheduler) {
    match s.end
    case None => s.pending != [] && !s.wave.phase.Left?
    case Some(Done(outputs)) => s.pending == [] && outputs == s.outputs && s.wave.phase.Awaiting?
    case Some(Aborted(code)) => s.wave.phase == Left(Broken(Raised(code)))
    case Some(Stopped) => s.wave.phase == Left(Broken(Cancelled)) || (s.wave.phase == Left(Interrupted) && s.cancelled)
  }

  ghost predicate SchedulerOk(w: World, g: TeamGraph, maxParallel: nat, depth: map<string, nat>, meaning: Meaning,
                              s: Scheduler)
  {
    && LevelsOk(w, g, depth, meaning, s)
    && WaveOk(s.wave, s.ends, maxParallel)
    && (WasCancelled(s.wave) <==> s.cancelled)
    && EndFits(s)
  }

  lemma FirstLevel(g: TeamGraph, depth: map<string, nat>)
    requires g.Closed() && Levels(g, depth)
    ensures AfterWaves(g, depth, g.nodes, map[], 0)
  {
    forall id
      ensures Named(g.nodes, id) <==> id in depth
    {
      if id in depth {
        var i :| 0 <= i < |g.nodes| && g.nodes[i].id == id;
        assert g.nodes[i] in g.nodes;
      }
    }
  }

  lemma OpenOk(w: World, g: TeamGraph, maxParallel: nat, depth: map<string, nat>, pending: seq<TeamNode>,
               outputs: map<string, string>, k: nat, level: map<string, nat>, cancelled: bool)
    requires Dag(g) && Levels(g, depth) && AfterWaves(g, depth, pending, outputs, k) && Agree(MeaningOf(w, g), outputs)
    requires !cancelled
    requires level.Keys == outputs.Keys && forall id :: id in level ==> id in depth && level[id] == depth[id]
    ensures SchedulerOk(w, g, maxParallel, depth, MeaningOf(w, g),
                        OpenWave(w, g, pending, outputs, k, level, cancelled))
  {
    hide Levels, AfterWaves, MeaningOf, Agree, ReadyNodes, EndsOf, WaveOk;
    var s := OpenWave(w, g, pending, outputs, k, level, cancelled);
    OpenSomeReady(g, depth, pending, outputs, k);
    EndsCount(w, g, s.ready, outputs);
    StartsOk(s.ends, maxParallel);
    assert StartedIn(s.ready, {}) == {};
  }

  lemma EndsCount(w: World, g: TeamGraph, ready: seq<TeamNode>, outputs: map<string, string>)
    requires forall n :: n in ready ==> Schedulable(g, outputs, n)
    ensures |EndsOf(w, g, ready, outputs)| == |ready|
  {
  }

  lemma OpenSomeReady(g: TeamGraph, depth: map<string, nat>, pending: seq<TeamNode>, outputs: map<string, string>,
                      k: nat)
    requires Dag(g) && Levels(g, depth) && AfterWaves(g, depth, pending, outputs, k)
    ensures pending != [] ==> ReadyNodes(g, pending, outputs) != []
  {
    if pending != [] {
      SomeNodeIsReady(g, depth, pending, outputs, k);
      PartsOf(g, outputs, pending);
      hide ReadyNodes, LaterNodes, Levels;
      var n :| n in pending && Schedulable(g, outputs, n);
      assert n in ReadyNodes(g, pending, outputs);
    }
  }

  lemma StartedNames(ready: seq<TeamNode>, entered: set<nat>)
    ensures forall id :: id in StartedIn(ready, entered) ==> Named(ready, id)
    ensures (forall i :: 0 <= i < |ready| ==> i in entered) ==>
              forall id :: Named(ready, id) ==> id in StartedIn(ready, entered)
  {
    forall id | Named(ready, id) && forall i :: 0 <= i < |ready| ==> i in entered
      ensures id in StartedIn(ready, entered)
    {
      var n :| n in ready && n.id == id;
      var i :| 0 <= i < |ready| && ready[i] == n;
      assert i in entered;
    }
  }

  lemma CancelledBy(v: Wave, ends: seq<ChildEnd>, maxParallel: nat, e: Event)
    requires !v.phase.Left?
    ensures WasCancelled(Step(v, ends, maxParallel, e)) <==> WasCancelled(v) || e.CancelCaller?
  {
    hide InsideCount, TaskEnd;
  }

  lemma EntersMore(v: Wave, ends: seq<ChildEnd>, maxParallel: nat, e: Event)
    ensures v.entered <= Step(v, ends, maxParallel, e).entered
  {
    hide InsideCount, TaskEnd;
  }

  /** The scheduler after a step of its wave, before anything is made of the wave's end. */
  ghost function Moved(maxParallel: nat, s: Scheduler, e: Event): Scheduler {
    var v := Step(s.wave, s.ends, maxParallel, e);
    s.(wave := v, level := Record(s.level, StartedIn(s.ready, v.entered), s.waves),
       cancelled := s.cancelled || e.CancelCaller?)
  }

  lemma MovedLevels(w: World, g: TeamGraph, maxParallel: nat, depth: map<string, nat>, meaning: Meaning, s: Scheduler,
                    e: Event)
    requires Levels(g, depth) && LevelsOk(w, g, depth, meaning, s)
    ensures LevelsOk(w, g, depth, meaning, Moved(maxParallel, s, e))
  {
    hide Step, Agree, ReadyNodes, EndsOf, AfterWaves, Levels, Record, StartedIn, Named;
    EntersMore(s.wave, s.ends, maxParallel, e);
    ReadyLevel(g, depth, s.pending, s.outputs, s.waves);
    LevelGrows(s.level, s.outputs.Keys, s.ready, s.wave.entered, Moved(maxParallel, s, e).wave.entered, depth, s.waves);
  }

  lemma LevelGrows(level: map<string, nat>, base: set<string>, ready: seq<TeamNode>, entered: set<nat>, more: set<nat>,
                   depth: map<string, nat>, k: nat)
    requires level.Keys == base + StartedIn(ready, entered) && entered <= more
    requires forall id :: id in level ==> id in depth && level[id] == depth[id]
    requires forall id :: Named(ready, id) ==> id in depth && depth[id] == k
    ensures Record(level, StartedIn(ready, more), k).Keys == base + StartedIn(ready, more)
    ensures forall id :: id in Record(level, StartedIn(ready, more), k) ==>
              id in depth && Record(level, StartedIn(ready, more), k)[id] == depth[id]
  {
    hide StartedIn, Named;
    StartedNames(ready, more);
    StartedGrows(ready, entered, more);
  }

  lemma ReadyLevel(g: TeamGraph, depth: map<string, nat>, pending: seq<TeamNode>, outputs: map<string, string>, k: nat)
    requires Levels(g, depth) && AfterWaves(g, depth, pending, outputs, k)
    ensures forall id :: Named(ReadyNodes(g, pending, outputs), id) ==> id in depth && depth[id] == k
  {
    PartsOf(g, outputs, pending);
    hide Levels, ReadyNodes, LaterNodes;
    ReadyNames(g, depth, pending, outputs, k, ReadyNodes(g, pending, outputs), LaterNodes(g, pending, outputs));
  }

  lemma StartedGrows(ready: seq<TeamNode>, entered: set<nat>, more: set<nat>)
    requires entered <= more
    ensures StartedIn(ready, entered) <= StartedIn(ready, more)
  {
  }

  lemma FinishedWave(w: World, g: TeamGraph, maxParallel: nat, depth: map<string, nat>, s: Scheduler,
                     texts: seq<string>)
    requires Dag(g) && Levels(g, depth) && LevelsOk(w, g, depth, MeaningOf(w, g), s)
    requires WaveOk(s.wave, s.ends, maxParallel) && s.wave.phase == Left(Finished(texts)) && !s.cancelled
    ensures SchedulerOk(w, g, maxParallel, depth, MeaningOf(w, g), WaveEnded(w, g, s, Finished(texts)))
  {
    hide ReadyNodes, LaterNodes, WaveOk, Agree, Levels, SchedulerOk, MeaningOf, AfterWaves, EndsOf, Collected, OpenWave;
    FinishedTexts(s.wave, s.ends, maxParallel, texts);
    EndsCount(w, g, s.ready, s.outputs);
    var later, outputs' := LaterNodes(g, s.pending, s.outputs), Collected(s.outputs, s.ready, texts);
    FinishedOutputs(w, g, depth, s, texts);
    StartedNames(s.ready, s.wave.entered);
    assert s.level.Keys == outputs'.Keys;
    OpenOk(w, g, maxParallel, depth, later, outputs', s.waves + 1, s.level, s.cancelled);
  }

  lemma FinishedOutputs(w: World, g: TeamGraph, depth: map<string, nat>, s: Scheduler, texts: seq<string>)
    requires Dag(g) && Levels(g, depth) && LevelsOk(w, g, depth, MeaningOf(w, g), s) && |texts| == |s.ready|
    requires forall i :: 0 <= i < |s.ends| ==> s.ends[i] == Succeeded(texts[i])
    ensures var outputs' := Collected(s.outputs, s.ready, texts);
            && AfterWaves(g, depth, LaterNodes(g, s.pending, s.outputs), outputs', s.waves + 1)
            && Agree(MeaningOf(w, g), outputs')
            && (forall id :: id in outputs' <==> id in s.outputs || Named(s.ready, id))
  {
    hide *;
    LevelFacts(w, g, depth, MeaningOf(w, g), s);
    var later, outputs' := LaterNodes(g, s.pending, s.outputs), Collected(s.outputs, s.ready, texts);
    ReadyFacts(g, depth, s.pending, s.outputs, s.waves);
    CollectedIs(s.outputs, s.ready, texts);
    NextWave(g, depth, s.pending, s.outputs, s.waves, s.ready, later, outputs');
    FinishedAgree(w, g, depth, s, texts, outputs');
  }

  lemma LevelFacts(w: World, g: TeamGraph, depth: map<string, nat>, meaning: Meaning, s: Scheduler)
    requires LevelsOk(w, g, depth, meaning, s)
    ensures AfterWaves(g, depth, s.pending, s.outputs, s.waves) && s.ready == ReadyNodes(g, s.pending, s.outputs)
  {
    hide AfterWaves, Agree, ReadyNodes, EndsOf, StartedIn;
  }

  lemma ReadyFacts(g: TeamGraph, depth: map<string, nat>, pending: seq<TeamNode>, outputs: map<string, string>, k: nat)
    requires AfterWaves(g, depth, pending, outputs, k)
    ensures Parts(g, outputs, pending, ReadyNodes(g, pending, outputs), LaterNodes(g, pending, outputs))
    ensures DistinctNames(ReadyNodes(g, pending, outputs))
    ensures forall n :: n in ReadyNodes(g, pending, outputs) ==> n in g.nodes
  {
    hide ReadyNodes, LaterNodes, DistinctNames, Schedulable;
    PartsOf(g, outputs, pending);
  }

  lemma FinishedTexts(v: Wave, ends: seq<ChildEnd>, maxParallel: nat, texts: seq<string>)
    requires WaveOk(v, ends, maxParallel) && v.phase == Left(Finished(texts))
    ensures |texts| == |ends| && forall i :: 0 <= i < |ends| ==> ends[i] == Succeeded(texts[i]) && i in v.entered
  {
  }

  lemma FinishedAgree(w: World, g: TeamGraph, depth: map<string, nat>, s: Scheduler, texts: seq<string>,
                      outputs': map<string, string>)
    requires Dag(g) && LevelsOk(w, g, depth, MeaningOf(w, g), s) && |texts| == |s.ready|
    requires forall i :: 0 <= i < |s.ends| ==> s.ends[i] == Succeeded(texts[i])
    requires forall id :: id in outputs' <==> id in s.outputs || Named(s.ready, id)
    requires forall id :: id in s.outputs && !Named(s.ready, id) ==> outputs'[id] == s.outputs[id]
    requires forall i :: 0 <= i < |s.ready| ==> s.ready[i].id in outputs' && outputs'[s.ready[i].id] == texts[i]
    ensures Agree(MeaningOf(w, g), outputs')
  {
    PartsOf(g, s.outputs, s.pending);
    hide ReadyNodes, LaterNodes, Agree, MeaningOf, EndOf, Schedulable;
    StaysInAgreement(w, g, s.outputs, s.ready, s.ends, texts, outputs');
  }

  lemma BrokenCause(v: Wave, ends: seq<ChildEnd>, maxParallel: nat, cause: Task)
    requires WaveOk(v, ends, maxParallel) && v.phase == Left(Broken(cause))
    ensures HasFailed(cause)
  {
  }

  lemma GraphStepOk(w: World, g: TeamGraph, maxParallel: nat, depth: map<string, nat>, s: Scheduler, e: Event)
    requires Dag(g) && Levels(g, depth) && SchedulerOk(w, g, maxParallel, depth, MeaningOf(w, g), s)
    ensures SchedulerOk(w, g, maxParallel, depth, MeaningOf(w, g), GraphStep(w, g, maxParallel, s, e))
  {
    hide Levels, LevelsOk, WaveOk, Step, MeaningOf, WasCancelled, OpenWave;
    if s.end.None? {
      var t := Moved(maxParallel, s, e);
      MovedLevels(w, g, maxParallel, depth, MeaningOf(w, g), s, e);
      StepOk(s.wave, s.ends, maxParallel, e);
      CancelledBy(s.wave, s.ends, maxParallel, e);
      if t.wave.phase.Left? {
        WaveEndedOk(w, g, maxParallel, depth, t);
      }
    }
  }

  lemma WaveEndedOk(w: World, g: TeamGraph, maxParallel: nat, depth: map<string, nat>, s: Scheduler)
    requires Dag(g) && Levels(g, depth) && LevelsOk(w, g, depth, MeaningOf(w, g), s)
    requires WaveOk(s.wave, s.ends, maxParallel) && s.wave.phase.Left? && (WasCancelled(s.wave) <==> s.cancelled)
    ensures SchedulerOk(w, g, maxParallel, depth, MeaningOf(w, g), WaveEnded(w, g, s, s.wave.phase.end))
  {
    hide Levels, WaveOk, MeaningOf, AfterWaves, Agree, ReadyNodes, EndsOf;
    match s.wave.phase.end
    case Finished(texts) => FinishedWave(w, g, maxParallel, depth, s, texts);
    case Broken(cause) => BrokenCause(s.wave, s.ends, maxParallel, cause);
    case Interrupted =>
  }

  lemma FirstOk(w: World, g: TeamGraph, maxParallel: nat, depth: map<string, nat>)
    requires Dag(g) && Levels(g, depth)
    ensures SchedulerOk(w, g, maxParallel, depth, MeaningOf(w, g), Start(w, g))
  {
    hide Levels, SchedulerOk, AfterWaves, OpenWave;
    FirstLevel(g, depth);
    OpenOk(w, g, maxParallel, depth, g.nodes, map[], 0, map[], false);
  }

  /** The scheduler's invariant holds after every history. */
  lemma {:induction false} AlwaysOnCourse(w: World, g: TeamGraph, maxParallel: nat, events: seq<Event>)
    requires Dag(g)
    ensures SchedulerOk(w, g, maxParallel, Depths(g), MeaningOf(w, g), Play(w, g, maxParallel, events))
    decreases |events|
  {
    hide SchedulerOk, GraphStep, Depths, Levels, Start;
    DepthsAreLevels(g);
    if events == [] {
      FirstOk(w, g, maxParallel, Depths(g));
    } else {
      AlwaysOnCourse(w, g, maxParallel, events[..|events| - 1]);
      GraphStepOk(w, g, maxParallel, Depths(g), Play(w, g, maxParallel, events[..|events| - 1]), events[|events| - 1]);
    }
  }

  // ---------------------------------------------------------------- how a run of the graph may end

  /** The node's inputs all have a value, and on them its child ends this way. */
  ghost predicate CausedBy(w: World, g: TeamGraph, id: string, task: Task)
    requires Dag(g)
  {
    && id in g.Ids()
    && EvalAll(w, g, id, g.Predecessors(id)).Some?
    && TaskEnd(RunChild(w, NodeOf(g, id), EvalAll(w, g, id, g.Predecessors(id)).value)) == task
  }

  ghost predicate SomeCause(w: World, g: TeamGraph, started: set<string>, task: Task)
    requires Dag(g)
  {
    exists id :: id in started && CausedBy(w, g, id, task)
  }

  ghost predicate AllEvaluate(meaning: Meaning) {
    forall id :: id in meaning ==> meaning[id].Some?
  }

  lemma FailureHasNoMeaning(w: World, g: TeamGraph, id: string, task: Task)
    requires Dag(g) && CausedBy(w, g, id, task) && HasFailed(task)
    ensures id in MeaningOf(w, g) && MeaningOf(w, g)[id] == None
  {
    hide EvalAll, RunChild;
    assert MeaningOf(w, g)[id] == Eval(w, g, id);
  }

  lemma CauseMeansPartial(w: World, g: TeamGraph, started: set<string>, task: Task)
    requires Dag(g) && SomeCause(w, g, started, task) && HasFailed(task)
    ensures !AllEvaluate(MeaningOf(w, g))
  {
    hide CausedBy, MeaningOf;
    var id :| id in started && CausedBy(w, g, id, task);
    FailureHasNoMeaning(w, g, id, task);
  }

  lemma ReadyCause(w: World, g: TeamGraph, outputs: map<string, string>, node: TeamNode)
    requires Dag(g) && Agree(MeaningOf(w, g), outputs) && node in g.nodes && Schedulable(g, outputs, node)
    ensures CausedBy(w, g, node.id, TaskEnd(EndOf(w, g, outputs, node)))
  {
    NodeIsUnique(g, node);
    GatherIsEvalAll(w, g, node.id, g.Predecessors(node.id), outputs);
  }

  lemma FailedIsCause(w: World, g: TeamGraph, depth: map<string, nat>, s: Scheduler, i: nat)
    requires Dag(g) && LevelsOk(w, g, depth, MeaningOf(w, g), s) && Failed(s.wave, s.ends, i)
    ensures SomeCause(w, g, s.level.Keys, s.wave.tasks[i])
  {
    hide Agree, MeaningOf, ReadyNodes, Schedulable, CausedBy, EndOf, AfterWaves;
    ReadyFacts(g, depth, s.pending, s.outputs, s.waves);
    assert s.ready[i] in s.ready;
    ReadyCause(w, g, s.outputs, s.ready[i]);
    assert s.ready[i].id in s.level.Keys;
  }

  lemma BrokenHasCause(w: World, g: TeamGraph, maxParallel: nat, depth: map<string, nat>, s: Scheduler, cause: Task)
    requires Dag(g) && SchedulerOk(w, g, maxParallel, depth, MeaningOf(w, g), s) && s.wave.phase == Left(Broken(cause))
    ensures HasFailed(cause) && SomeCause(w, g, s.level.Keys, cause)
  {
    hide LevelsOk, MeaningOf, SomeCause;
    var i: nat :| Failed(s.wave, s.ends, i) && s.wave.tasks[i] == cause;
    FailedIsCause(w, g, depth, s, i);
  }

  lemma LastLevel(w: World, g: TeamGraph, depth: map<string, nat>, meaning: Meaning, s: Scheduler)
    requires LevelsOk(w, g, depth, meaning, s) && s.pending == []
    ensures s.outputs.Keys == depth.Keys && s.level == depth && Agree(meaning, s.outputs)
  {
    hide Agree, EndsOf, DistinctNames;
    NobodyNamed();
    assert forall id :: id in depth ==> !Named([], id);
    assert s.ready == [] && StartedIn(s.ready, s.wave.entered) == {};
    assert s.outputs.Keys == depth.Keys;
  }

  lemma DoneIsComplete(w: World, g: TeamGraph, maxParallel: nat, s: Scheduler, outputs: map<string, string>)
    requires Dag(g) && SchedulerOk(w, g, maxParallel, Depths(g), MeaningOf(w, g), s) && s.end == Some(Done(outputs))
    ensures outputs.Keys == g.Ids() && Agree(MeaningOf(w, g), outputs) && AllEvaluate(MeaningOf(w, g))
    ensures s.level == Depths(g)
  {
    hide Depths, LevelsOk, WaveOk, Eval;
    DepthsAreLevels(g);
    LastLevel(w, g, Depths(g), MeaningOf(w, g), s);
  }

  lemma {:induction false} CancelledInHistory(w: World, g: TeamGraph, maxParallel: nat, events: seq<Event>)
    requires Play(w, g, maxParallel, events).cancelled
    ensures CancelCaller in events
    decreases |events|
  {
    hide Step, OpenWave;
    if events == [] {
      OpenFields(w, g, g.nodes, map[], 0, map[], false);
    } else {
      var s, e := Play(w, g, maxParallel, events[..|events| - 1]), events[|events| - 1];
      CancelledStep(w, g, maxParallel, s, e);
      hide GraphStep;
      if s.cancelled {
        CancelledInHistory(w, g, maxParallel, events[..|events| - 1]);
      }
    }
  }

  lemma OpenFields(w: World, g: TeamGraph, pending: seq<TeamNode>, outputs: map<string, string>, waves: nat,
                   level: map<string, nat>, cancelled: bool)
    ensures var s := OpenWave(w, g, pending, outputs, waves, level, cancelled);
            s.cancelled == cancelled && s.level == level && s.pending == pending && s.outputs == outputs
  {
  }

  lemma CancelledStep(w: World, g: TeamGraph, maxParallel: nat, s: Scheduler, e: Event)
    ensures GraphStep(w, g, maxParallel, s, e).cancelled <==> s.cancelled || (s.end.None? && e.CancelCaller?)
  {
    hide Step;
  }

  /** However the steps fall: finishing means one output per node, all equal to the recursive meaning, each child
      started in the wave of its depth; an error is that of a child that was started; and a cancellation is the
      caller's or that of a child that was started. */
  lemma EndsForAReason(w: World, g: TeamGraph, maxParallel: nat, events: seq<Event>)
    requires Dag(g) && Play(w, g, maxParallel, events).end.Some?
    ensures var s := Play(w, g, maxParallel, events);
            match s.end.value
            case Done(outputs) =>
              && outputs.Keys == g.Ids() && Agree(MeaningOf(w, g), outputs) && AllEvaluate(MeaningOf(w, g))
              && s.level == Depths(g)
            case Aborted(code) => SomeCause(w, g, s.level.Keys, Raised(code))
            case Stopped => CancelCaller in events || SomeCause(w, g, s.level.Keys, Cancelled)
  {
    hide Play, Agree, MeaningOf, SomeCause, LevelsOk, WaveOk, AllEvaluate, Depths;
    AlwaysOnCourse(w, g, maxParallel, events);
    var s := Play(w, g, maxParallel, events);
    match s.end.value
    case Done(outputs) => DoneIsComplete(w, g, maxParallel, s, outputs);
    case Aborted(code) => BrokenHasCause(w, g, maxParallel, Depths(g), s, Raised(code));
    case Stopped =>
      if s.wave.phase == Left(Broken(Cancelled)) {
        BrokenHasCause(w, g, maxParallel, Depths(g), s, Cancelled);
      } else {
        CancelledInHistory(w, g, maxParallel, events);
      }
  }

  lemma {:induction false} CancelIsNoticed(w: World, g: TeamGraph, maxParallel: nat, events: seq<Event>, k: nat)
    requires k < |events| && events[k].CancelCaller? && Play(w, g, maxParallel, events[..k]).end.None?
    ensures Play(w, g, maxParallel, events).cancelled
    decreases |events|
  {
    hide GraphStep;
    var front := events[..|events| - 1];
    CancelledStep(w, g, maxParallel, Play(w, g, maxParallel, front), events[|events| - 1]);
    if k < |front| {
      assert front[..k] == events[..k];
      CancelIsNoticed(w, g, maxParallel, front, k);
    } else {
      assert front == events[..k];
    }
  }

  lemma CancelledEnd(w: World, g: TeamGraph, maxParallel: nat, depth: map<string, nat>, meaning: Meaning, s: Scheduler)
    requires SchedulerOk(w, g, maxParallel, depth, meaning, s) && s.cancelled && s.end.Some?
    ensures s.end == Some(Stopped)
  {
    hide LevelsOk, WaveOk;
  }

  /** Once the caller has cancelled a run that has not ended, it ends in no other way than cancelled. */
  lemma CancellationStops(w: World, g: TeamGraph, maxParallel: nat, events: seq<Event>, k: nat)
    requires Dag(g) && Play(w, g, maxParallel, events).end.Some?
    requires k < |events| && events[k].CancelCaller? && Play(w, g, maxParallel, events[..k]).end.None?
    ensures Play(w, g, maxParallel, events).end == Some(Stopped)
  {
    hide Play, SchedulerOk, MeaningOf, Depths;
    CancelIsNoticed(w, g, maxParallel, events, k);
    AlwaysOnCourse(w, g, maxParallel, events);
    CancelledEnd(w, g, maxParallel, Depths(g), MeaningOf(w, g), Play(w, g, maxParallel, events));
  }

  /** Unless the caller cancels, the scheduler finishes exactly when every node has a value. */
  lemma FinishesExactly(w: World, g: TeamGraph, maxParallel: nat, events: seq<Event>)
    requires Dag(g) && Play(w, g, maxParallel, events).end.Some? && CancelCaller !in events
    ensures Play(w, g, maxParallel, events).end.value.Done? <==> AllEvaluate(MeaningOf(w, g))
  {
    hide Play, MeaningOf, SomeCause, AllEvaluate, Agree, Depths;
    EndsForAReason(w, g, maxParallel, events);
    var s := Play(w, g, maxParallel, events);
    match s.end.value
    case Done(outputs) =>
    case Aborted(code) => CauseMeansPartial(w, g, s.level.Keys, Raised(code));
    case Stopped => CauseMeansPartial(w, g, s.level.Keys, Cancelled);
  }

  // ---------------------------------------------------------------- what a failure contains

  lemma StartedIsCurrent(w: World, g: TeamGraph, maxParallel: nat, depth: map<string, nat>, s: Scheduler)
    requires Dag(g) && Levels(g, depth) && SchedulerOk(w, g, maxParallel, depth, MeaningOf(w, g), s)
    ensures forall id :: id in s.level ==> id in depth && depth[id] <= s.waves
    ensures forall id :: id in depth && depth[id] < s.waves ==> id in MeaningOf(w, g) && MeaningOf(w, g)[id].Some?
  {
    hide Levels, EndsOf, WaveOk, ReadyNodes, MeaningOf, Named, DistinctNames;
    ReadyLevel(g, depth, s.pending, s.outputs, s.waves);
    StartedNames(s.ready, s.wave.entered);
  }

  /** At every moment of every history: at most `maxParallel` children of the team are inside `run_child`; every node
      started so far lies in the current wave or an earlier one, all of which evaluated completely; and nothing that
      depends on a failed node, however indirectly, has been started. */
  lemma NeverBeyondAFailure(w: World, g: TeamGraph, maxParallel: nat, events: seq<Event>, p: seq<string>)
    requires Dag(g) && Walk(g, p) && |p| > 1 && p[0] in g.Ids() && MeaningOf(w, g)[p[0]].None?
    ensures var s := Play(w, g, maxParallel, events);
            && InsideCount(s.wave.tasks) <= maxParallel
            && (forall id :: id in s.level ==> id in g.Ids() && s.level[id] == Depth(g, id) <= s.waves)
            && (forall id :: id in g.Ids() && Depth(g, id) < s.waves ==> MeaningOf(w, g)[id].Some?)
            && p[|p| - 1] !in s.level
  {
    var s := Play(w, g, maxParallel, events);
    hide Play, Eval;
    AlwaysOnCourse(w, g, maxParallel, events);
    DepthsAreLevels(g);
    AtMostInside(s, w, g, maxParallel, Depths(g));
    StartedIsCurrent(w, g, maxParallel, Depths(g), s);
    LevelIsDepth(s, w, g, maxParallel, Depths(g));
    hide SchedulerOk, Levels, Walk, Depth;
    DependentsAreDeeper(g, MeaningOf(w, g), Depths(g), s.waves, p);
  }

  lemma AtMostInside(s: Scheduler, w: World, g: TeamGraph, maxParallel: nat, depth: map<string, nat>)
    requires Dag(g) && SchedulerOk(w, g, maxParallel, depth, MeaningOf(w, g), s)
    ensures InsideCount(s.wave.tasks) <= maxParallel
    ensures s.end.Some? ==> AllOver(s.wave.tasks)
  {
    hide LevelsOk, InsideCount, MeaningOf;
    if s.end.Some? && s.end.value.Done? {
      NoTasks(s, w, g, maxParallel, depth);
    }
  }

  lemma NoTasks(s: Scheduler, w: World, g: TeamGraph, maxParallel: nat, depth: map<string, nat>)
    requires Dag(g) && SchedulerOk(w, g, maxParallel, depth, MeaningOf(w, g), s) && s.pending == []
    ensures s.wave.tasks == []
  {
    hide InsideCount, MeaningOf, AfterWaves, Agree;
  }

  lemma LevelIsDepth(s: Scheduler, w: World, g: TeamGraph, maxParallel: nat, depth: map<string, nat>)
    requires Dag(g) && SchedulerOk(w, g, maxParallel, depth, MeaningOf(w, g), s)
    ensures forall id :: id in s.level ==> id in depth && s.level[id] == depth[id]
  {
    hide WaveOk, MeaningOf, AfterWaves, Agree, ReadyNodes, EndsOf;
  }

  /** What depends on a node without a value lies beyond every level that evaluated completely, and more. */
  lemma {:induction false} DependentsAreDeeper(g: TeamGraph, meaning: Meaning, depth: map<string, nat>, waves: nat,
                                               p: seq<string>)
    requires g.Closed() && Levels(g, depth) && meaning.Keys == depth.Keys
    requires forall id :: id in depth && depth[id] < waves ==> meaning[id].Some?
    requires Walk(g, p) && |p| > 1 && p[0] in meaning && meaning[p[0]].None?
    ensures p[|p| - 1] in depth && depth[p[|p| - 1]] > waves
  {
    var u, id := p[|p| - 2], p[|p| - 1];
    assert g.Edge(u, id) && u in g.Predecessors(id) && id in g.Ids();
    if |p| > 2 {
      WalkSlice(g, p, 0, |p| - 1);
      DependentsAreDeeper(g, meaning, depth, waves, p[0..|p| - 1]);
    }
  }

  /** When the error of a wave, or a cancellation, leaves the scheduler, every task of the wave is over. */
  lemma NobodyIsLeftBehind(w: World, g: TeamGraph, maxParallel: nat, events: seq<Event>)
    requires Dag(g) && Play(w, g, maxParallel, events).end.Some?
    ensures AllOver(Play(w, g, maxParallel, events).wave.tasks)
  {
    hide Play, SchedulerOk, MeaningOf, Depths;
    AlwaysOnCourse(w, g, maxParallel, events);
    AtMostInside(Play(w, g, maxParallel, events), w, g, maxParallel, Depths(g));
  }

  // ---------------------------------------------------------------- every run of the graph comes to an end

  /** Until it has ended, something other than a cancellation can happen: the error for no schedulable worker is not
      needed to get on. */
  lemma SchedulerCanMove(w: World, g: TeamGraph, maxParallel: nat, events: seq<Event>) returns (e: Event)
    requires Dag(g) && maxParallel > 0 && Play(w, g, maxParallel, events).end.None?
    ensures !e.CancelCaller?
    ensures GraphStep(w, g, maxParallel, Play(w, g, maxParallel, events), e) != Play(w, g, maxParallel, events)
  {
    hide Play, MeaningOf, Depths, Levels, LevelsOk, WaveOk, Step, OpenWave;
    AlwaysOnCourse(w, g, maxParallel, events);
    DepthsAreLevels(g);
    var s := Play(w, g, maxParallel, events);
    e := SomethingCanHappen(s.wave, s.ends, maxParallel);
    var v := Step(s.wave, s.ends, maxParallel, e);
    if v.phase.Left? && v.phase.end.Finished? {
      FinishingMoves(w, g, maxParallel, Depths(g), s, e);
    }
  }

  lemma FinishingMoves(w: World, g: TeamGraph, maxParallel: nat, depth: map<string, nat>, s: Scheduler, e: Event)
    requires Dag(g) && Levels(g, depth) && SchedulerOk(w, g, maxParallel, depth, MeaningOf(w, g), s) && s.end.None?
    requires Step(s.wave, s.ends, maxParallel, e).phase.Left?
    requires Step(s.wave, s.ends, maxParallel, e).phase.end.Finished?
    ensures |GraphStep(w, g, maxParallel, s, e).pending| < |s.pending|
  {
    hide Levels, MeaningOf, Step, LevelsOk, WaveOk, Collected, OpenWave, LaterNodes;
    var v := Step(s.wave, s.ends, maxParallel, e);
    var texts := v.phase.end.texts;
    StepOk(s.wave, s.ends, maxParallel, e);
    FinishedTexts(v, s.ends, maxParallel, texts);
    ReadyShrinks(w, g, depth, MeaningOf(w, g), s);
    OpenFields(w, g, LaterNodes(g, s.pending, s.outputs), Collected(s.outputs, s.ready, texts), s.waves + 1,
               Moved(maxParallel, s, e).level, Moved(maxParallel, s, e).cancelled);
  }

  lemma ReadyShrinks(w: World, g: TeamGraph, depth: map<string, nat>, meaning: Meaning, s: Scheduler)
    requires Dag(g) && Levels(g, depth) && LevelsOk(w, g, depth, meaning, s) && s.pending != []
    ensures |s.ends| == |s.ready| && |LaterNodes(g, s.pending, s.outputs)| < |s.pending|
  {
    hide ReadyNodes, LaterNodes, Agree, Levels;
    EndsCount(w, g, s.ready, s.outputs);
    OpenSomeReady(g, depth, s.pending, s.outputs, s.waves);
    FewerPending(g, s.pending, s.outputs);
  }

  /** A step that changes the wave takes the run nearer to its end: fewer nodes are pending, or as many and the wave is
      nearer to its own end. */
  lemma GraphStepShrinks(w: World, g: TeamGraph, maxParallel: nat, events: seq<Event>, e: Event)
    requires Dag(g)
    ensures var s, t := Play(w, g, maxParallel, events), Play(w, g, maxParallel, events + [e]);
            || s.end.Some?
            || Step(s.wave, s.ends, maxParallel, e) == s.wave
            || |t.pending| < |s.pending|
            || (|t.pending| == |s.pending| && Rank(t.wave) < Rank(s.wave))
  {
    hide Play, MeaningOf, Depths, Levels, LevelsOk, WaveOk, Step, OpenWave, Rank;
    PlayNext(w, g, maxParallel, events, e);
    AlwaysOnCourse(w, g, maxParallel, events);
    DepthsAreLevels(g);
    var s := Play(w, g, maxParallel, events);
    StepShrinks(s.wave, s.ends, maxParallel, e);
    var v := Step(s.wave, s.ends, maxParallel, e);
    if s.end.None? && v.phase.Left? && v.phase.end.Finished? {
      FinishingMoves(w, g, maxParallel, Depths(g), s, e);
    }
  }

  lemma PlayNext(w: World, g: TeamGraph, maxParallel: nat, events: seq<Event>, e: Event)
    ensures Play(w, g, maxParallel, events + [e]) == GraphStep(w, g, maxParallel, Play(w, g, maxParallel, events), e)
  {
    hide GraphStep;
    assert (events + [e])[..|events|] == events;
  }

  lemma FewerPending(g: TeamGraph, pending: seq<TeamNode>, outputs: map<string, string>)
    ensures ReadyNodes(g, pending, outputs) != [] ==> |LaterNodes(g, pending, outputs)| < |pending|
  {
    hide Schedulable, ReadyNodes, LaterNodes;
    PartsCount(g, outputs, pending);
  }
}
