/** runtime/team.py: the coroutine that runs a team graph wave by wave, and the invocation around it. */
module TeamRuntime {
  import opened Prelude
  import opened Json
  import opened TeamGraphs
  import opened TeamParser
  import opened BoundedContexts
  import opened Evaluation
  import opened Waves
  import opened Schedulers
  import opened Solutions

  /** Whether the caller cancels the coroutine right before its step number `k`. */
  predicate CancelledAt(cancels: seq<bool>, k: nat) {
    k < |cancels| && cancels[k]
  }

  /** The caller cancels within the first `steps` steps. */
  ghost predicate CancelledWithin(cancels: seq<bool>, steps: nat) {
    exists k: nat :: k < steps && CancelledAt(cancels, k)
  }

  function Ahead(cancels: seq<bool>, k: nat): nat {
    if k < |cancels| then |cancels| - k else 0
  }

  /** The cancellations in a history are exactly those that the caller makes. */
  predicate Heeds(events: seq<Event>, cancels: seq<bool>, from: nat) {
    forall k :: 0 <= k < |events| ==> (events[k].CancelCaller? <==> CancelledAt(cancels, from + k))
  }

  ghost predicate NotLeftBefore(ends: seq<ChildEnd>, maxParallel: nat, events: seq<Event>) {
    forall k :: 0 <= k < |events| ==> !After(ends, maxParallel, events[..k]).phase.Left?
  }

  /** The coroutine is where the history has taken the wave. */
  ghost predicate Follows(v: Wave, ends: seq<ChildEnd>, maxParallel: nat, events: seq<Event>, cancels: seq<bool>,
                          from: nat)
  {
    && v == After(ends, maxParallel, events)
    && NotLeftBefore(ends, maxParallel, events)
    && Heeds(events, cancels, from)
  }

  lemma FollowsNext(v: Wave, ends: seq<ChildEnd>, maxParallel: nat, events: seq<Event>, cancels: seq<bool>, from: nat,
                    e: Event)
    requires Follows(v, ends, maxParallel, events, cancels, from) && !v.phase.Left?
    requires e.CancelCaller? <==> CancelledAt(cancels, from + |events|)
    ensures Follows(Step(v, ends, maxParallel, e), ends, maxParallel, events + [e], cancels, from)
  {
    hide Step, CancelledAt;
    assert (events + [e])[..|events|] == events;
    forall k | 0 <= k < |events + [e]|
      ensures !After(ends, maxParallel, (events + [e])[..k]).phase.Left?
    {
      assert (events + [e])[..k] == events[..k];
      assert events[..|events|] == events;
    }
  }

  lemma FollowsNone(ends: seq<ChildEnd>, maxParallel: nat, cancels: seq<bool>, from: nat)
    ensures Follows(NewWave(|ends|), ends, maxParallel, [], cancels, from)
  {
  }

  lemma NotTheFirst(v: Wave, ends: seq<ChildEnd>, maxParallel: nat)
    requires WaveOk(v, ends, maxParallel)
    ensures |v.tasks| == |ends|
    ensures v.phase.Draining? && !v.phase.cancelled ==> v.phase.cause.Some? && v.phase.cause.value < |v.tasks|
  {
  }

  /** One more event, the coroutine having done `v'` with it. */
  lemma Follow(v: Wave, ends: seq<ChildEnd>, maxParallel: nat, events: seq<Event>, cancels: seq<bool>, from: nat,
               e: Event, v': Wave)
    requires WaveOk(v, ends, maxParallel) && Follows(v, ends, maxParallel, events, cancels, from) && !v.phase.Left?
    requires e.CancelCaller? <==> CancelledAt(cancels, from + |events|)
    requires v' == Step(v, ends, maxParallel, e) && (v' != v || e.CancelCaller?)
    ensures WaveOk(v', ends, maxParallel) && Follows(v', ends, maxParallel, events + [e], cancels, from)
    ensures Ahead(cancels, from + |events + [e]|) < Ahead(cancels, from + |events|)
            || (Ahead(cancels, from + |events + [e]|) == Ahead(cancels, from + |events|) && Rank(v') < Rank(v))
  {
    hide Step, WaveOk, Follows, Rank;
    FollowsNext(v, ends, maxParallel, events, cancels, from, e);
    StepOk(v, ends, maxParallel, e);
    StepShrinks(v, ends, maxParallel, e);
  }

  /** `asyncio.wait(FIRST_EXCEPTION)` and what the coroutine does next: which task goes on, and how long the waiter
      sleeps after a failure, is up to the event loop; the caller's cancellations are an input. */
  method AwaitFirst(ends: seq<ChildEnd>, maxParallel: nat, cancels: seq<bool>, from: nat)
      returns (v: Wave, events: seq<Event>)
    requires maxParallel > 0
    ensures Follows(v, ends, maxParallel, events, cancels, from) && WaveOk(v, ends, maxParallel) && !v.phase.Awaiting?
  {
    hide Follows, InsideCount, WaveOk, Rank, Ahead;
    v, events := NewWave(|ends|), [];
    FollowsNone(ends, maxParallel, cancels, from);
    StartsOk(ends, maxParallel);
    while v.phase.Awaiting?
      invariant Follows(v, ends, maxParallel, events, cancels, from) && WaveOk(v, ends, maxParallel)
      decreases Ahead(cancels, from + |events|), Rank(v)
    {
      ghost var before := v;
      NotTheFirst(v, ends, maxParallel);
      var e, sleeps := CancelCaller, *;
      if CancelledAt(cancels, from + |events|) {
        v := v.(phase := Draining(None, true));
      } else if AllReturned(v.tasks) {
        e := Wake(None);
        v := v.(phase := Left(Finished(Texts(v.tasks))));
      } else if WaitIsOver(v.tasks) && (AllOver(v.tasks) || !sleeps) {
        SomeHasFailed(v.tasks);
        var i :| 0 <= i < |v.tasks| && HasFailed(v.tasks[i]);
        e := Wake(Some(i));
        v := v.(phase := Draining(Some(i), false));
      } else {
        SomeTaskCanStep(v.tasks, maxParallel);
        var i :| 0 <= i < |v.tasks|
                 && (v.tasks[i].Inside? || (v.tasks[i].Waiting? && InsideCount(v.tasks) < maxParallel));
        if v.tasks[i].Waiting? {
          e := Enter(i);
          v := v.(tasks := v.tasks[i := Inside], entered := v.entered + {i});
        } else {
          e := End(i);
          v := v.(tasks := v.tasks[i := TaskEnd(ends[i])]);
          EndedIsOver(ends[i]);
        }
        assert v.tasks[i] != before.tasks[i];
      }
      Follow(before, ends, maxParallel, events, cancels, from, e, v);
      events := events + [e];
    }
  }

  lemma SomeHasFailed(tasks: seq<Task>)
    requires WaitIsOver(tasks) && !AllReturned(tasks)
    ensures exists i :: 0 <= i < |tasks| && HasFailed(tasks[i])
  {
    if AllOver(tasks) {
      var i :| 0 <= i < |tasks| && !tasks[i].Returned?;
      assert Over(tasks[i]);
    }
  }

  /** `_run_ready`: after that, every cancelled task is awaited. A waiting one never enters, one inside `run_child` ends
      cancelled, or as its child did if that came first. Nothing is left unfinished. */
  method RunReady(ends: seq<ChildEnd>, maxParallel: nat, cancels: seq<bool>, from: nat)
      returns (end: WaveEnd, events: seq<Event>)
    requires maxParallel > 0
    ensures Follows(After(ends, maxParallel, events), ends, maxParallel, events, cancels, from)
    ensures After(ends, maxParallel, events).phase == Left(end)
  {
    hide InsideCount, After, WaveOk, Rank, Ahead, NotLeftBefore, Heeds;
    var v;
    v, events := AwaitFirst(ends, maxParallel, cancels, from);
    while !v.phase.Left?
      invariant !v.phase.Awaiting? && Follows(v, ends, maxParallel, events, cancels, from)
      invariant WaveOk(v, ends, maxParallel)
      decreases Ahead(cancels, from + |events|), Rank(v)
    {
      ghost var before := v;
      NotTheFirst(v, ends, maxParallel);
      var e, tooLate := CancelCaller, *;
      if CancelledAt(cancels, from + |events|) {
        v := v.(phase := Draining(v.phase.cause, true));
      } else if AllOver(v.tasks) {
        e := Leave;
        v := v.(phase := Left(if v.phase.cancelled then Interrupted else Broken(v.tasks[v.phase.cause.value])));
      } else {
        var i :| 0 <= i < |v.tasks| && !Over(v.tasks[i]);
        if v.tasks[i].Inside? && tooLate {
          e := End(i);
          v := v.(tasks := v.tasks[i := TaskEnd(ends[i])]);
          EndedIsOver(ends[i]);
        } else {
          e := Stop(i);
          v := v.(tasks := v.tasks[i := Cancelled]);
        }
        assert v.tasks[i] != before.tasks[i];
      }
      Follow(before, ends, maxParallel, events, cancels, from, e, v);
      events := events + [e];
    }
    end := v.phase.end;
  }

  // ---------------------------------------------------------------- the waves

  /** The history has only just ended the scheduler, if at all. */
  ghost predicate NotEndedBefore(w: World, g: TeamGraph, maxParallel: nat, events: seq<Event>) {
    forall k :: 0 <= k < |events| ==> Play(w, g, maxParallel, events[..k]).end.None?
  }

  /** Between two waves: the loop head with these nodes pending and these outputs collected. */
  ghost predicate BetweenWaves(w: World, g: TeamGraph, maxParallel: nat, events: seq<Event>, pending: seq<TeamNode>,
                               outputs: map<string, string>)
  {
    var s := Play(w, g, maxParallel, events);
    s == OpenWave(w, g, pending, outputs, s.waves, s.level, s.cancelled)
  }

  /** Nothing but the wave itself, the levels and the cancellation mark differs. */
  ghost predicate SameWave(s: Scheduler, t: Scheduler) {
    && t.pending == s.pending && t.outputs == s.outputs && t.ready == s.ready
    && t.ends == s.ends && t.waves == s.waves && t.end == s.end
  }

  /** Playing the history of a wave takes the scheduler through that wave. */
  lemma {:induction false} PlayWave(w: World, g: TeamGraph, maxParallel: nat, base: seq<Event>, events: seq<Event>,
                                    s: Scheduler) returns (x: Scheduler)
    requires s == Play(w, g, maxParallel, base) && s.end.None? && s.wave == NewWave(|s.ends|)
    requires NotLeftBefore(s.ends, maxParallel, events)
    ensures SameWave(s, x) && x.wave == After(s.ends, maxParallel, events)
    ensures Play(w, g, maxParallel, base + events)
            == if x.wave.phase.Left? then WaveEnded(w, g, x, x.wave.phase.end) else x
    decreases |events|
  {
    hide Step, WaveEnded, Record, StartedIn, OpenWave;
    if events == [] {
      x := s;
      assert base + events == base;
    } else {
      var front, e := events[..|events| - 1], events[|events| - 1];
      assert forall k :: 0 <= k < |front| ==> front[..k] == events[..k];
      var y := PlayWave(w, g, maxParallel, base, front, s);
      assert (base + events)[..|base + events| - 1] == base + front;
      x := y.(wave := Step(y.wave, y.ends, maxParallel, e),
              level := Record(y.level, StartedIn(y.ready, Step(y.wave, y.ends, maxParallel, e).entered), y.waves),
              cancelled := y.cancelled || e.CancelCaller?);
    }
  }

  lemma StillRunning(w: World, g: TeamGraph, maxParallel: nat, base: seq<Event>, events: seq<Event>)
    requires NotEndedBefore(w, g, maxParallel, base)
    requires var s := Play(w, g, maxParallel, base);
             s.end.None? && s.wave == NewWave(|s.ends|) && NotLeftBefore(s.ends, maxParallel, events)
    ensures NotEndedBefore(w, g, maxParallel, base + events)
  {
    hide Play, After, WaveEnded, OpenWave, Schedulers.Start;
    var s := Play(w, g, maxParallel, base);
    forall k | 0 <= k < |base + events|
      ensures Play(w, g, maxParallel, (base + events)[..k]).end.None?
    {
      if k < |base| {
        assert (base + events)[..k] == base[..k];
      } else {
        var front := events[..k - |base|];
        assert (base + events)[..k] == base + front;
        assert forall j :: 0 <= j < |front| ==> front[..j] == events[..j];
        var x := PlayWave(w, g, maxParallel, base, front, s);
      }
    }
  }

  /** The list comprehension that picks the nodes whose predecessors all have outputs; the others stay pending. */
  method Ready(g: TeamGraph, pending: seq<TeamNode>, outputs: map<string, string>)
      returns (ready: seq<TeamNode>, later: seq<TeamNode>)
    ensures ready == ReadyNodes(g, pending, outputs) && later == LaterNodes(g, pending, outputs)
  {
    ready, later := [], [];
    for i := 0 to |pending|
      invariant ready == ReadyNodes(g, pending[..i], outputs) && later == LaterNodes(g, pending[..i], outputs)
    {
      assert pending[..i + 1][..i] == pending[..i];
      if Schedulable(g, outputs, pending[i]) {
        ready := ready + [pending[i]];
      } else {
        later := later + [pending[i]];
      }
    }
    assert pending[..|pending|] == pending;
  }

  /** How the child of each ready node will end. */
  method Ends(w: World, g: TeamGraph, ready: seq<TeamNode>, outputs: map<string, string>)
      returns (ends: seq<ChildEnd>)
    requires forall n :: n in ready ==> Schedulable(g, outputs, n)
    ensures ends == EndsOf(w, g, ready, outputs)
  {
    hide RunChild, Gather;
    ends := [];
    for i := 0 to |ready|
      invariant |ends| == i
      invariant forall j :: 0 <= j < i ==> ends[j] == EndsOf(w, g, ready, outputs)[j]
    {
      assert ready[i] in ready && Schedulable(g, outputs, ready[i]);
      ends := ends + [RunChild(w, ready[i], Gather(outputs, g.Predecessors(ready[i].id)))];
    }
  }

  /** Adding the texts of a finished wave to the collected outputs. */
  method Collect(ready: seq<TeamNode>, texts: seq<string>, outputs: map<string, string>)
      returns (outputs': map<string, string>)
    requires |texts| == |ready|
    ensures outputs' == Collected(outputs, ready, texts)
  {
    outputs' := outputs;
    for i := 0 to |ready|
      invariant outputs' == Collected(outputs, ready[..i], texts[..i])
    {
      assert ready[..i + 1][..i] == ready[..i] && texts[..i + 1][..i] == texts[..i];
      outputs' := outputs'[ready[i].id := texts[i]];
    }
    assert ready[..|ready|] == ready && texts[..|texts|] == texts;
  }

  /** What the end of a run after so many steps says about the recursive meaning, when the caller cancels as given. */
  ghost predicate EndIsRight(w: World, g: TeamGraph, cancels: seq<bool>, steps: nat, end: RunEnd)
    requires Dag(g)
  {
    && (CancelledWithin(cancels, steps) ==> end.Stopped?)
    && (!CancelledWithin(cancels, steps) ==> (end.Done? <==> AllEvaluate(MeaningOf(w, g))))
    && match end
       case Done(outputs) => outputs.Keys == g.Ids() && Agree(MeaningOf(w, g), outputs) && AllEvaluate(MeaningOf(w, g))
       case Aborted(code) => SomeCause(w, g, g.Ids(), Raised(code))
       case Stopped => CancelledWithin(cancels, steps) || SomeCause(w, g, g.Ids(), Cancelled)
  }

  lemma CancelsAreEvents(events: seq<Event>, cancels: seq<bool>)
    requires Heeds(events, cancels, 0)
    ensures CancelledWithin(cancels, |events|) <==> CancelCaller in events
  {
    hide CancelledAt;
    if CancelledWithin(cancels, |events|) {
      var k: nat :| k < |events| && CancelledAt(cancels, k);
      assert CancelledAt(cancels, 0 + k) && events[k] == CancelCaller;
    }
    if CancelCaller in events {
      var k :| 0 <= k < |events| && events[k] == CancelCaller;
      assert CancelledAt(cancels, 0 + k);
    }
  }

  lemma StartedNodes(w: World, g: TeamGraph, started: set<string>, task: Task)
    requires Dag(g) && SomeCause(w, g, started, task)
    ensures SomeCause(w, g, g.Ids(), task)
  {
    hide EvalAll, RunChild;
    var id :| id in started && CausedBy(w, g, id, task);
    assert id in g.Ids();
  }

  lemma PlayedRight(w: World, g: TeamGraph, maxParallel: nat, events: seq<Event>, cancels: seq<bool>)
    requires Dag(g) && Play(w, g, maxParallel, events).end.Some? && NotEndedBefore(w, g, maxParallel, events)
    requires Heeds(events, cancels, 0)
    ensures EndIsRight(w, g, cancels, |events|, Play(w, g, maxParallel, events).end.value)
  {
    hide Play, Heeds, Agree, MeaningOf, SomeCause, AllEvaluate, CancelledWithin;
    EndsForAReason(w, g, maxParallel, events);
    CancelsAreEvents(events, cancels);
    var s := Play(w, g, maxParallel, events);
    if CancelCaller in events {
      var k :| 0 <= k < |events| && events[k] == CancelCaller;
      CancellationStops(w, g, maxParallel, events, k);
    } else {
      FinishesExactly(w, g, maxParallel, events);
    }
    match s.end.value
    case Done(_) =>
    case Aborted(code) => StartedNodes(w, g, s.level.Keys, Raised(code));
    case Stopped =>
      if CancelCaller !in events {
        StartedNodes(w, g, s.level.Keys, Cancelled);
      }
  }

  lemma HeedsBoth(base: seq<Event>, more: seq<Event>, cancels: seq<bool>)
    requires Heeds(base, cancels, 0) && Heeds(more, cancels, |base|)
    ensures Heeds(base + more, cancels, 0)
  {
    hide CancelledAt;
  }

  /** The scheduler before the first step of a wave that has nodes. */
  lemma WaveOpened(w: World, g: TeamGraph, maxParallel: nat, events: seq<Event>, pending: seq<TeamNode>,
                   outputs: map<string, string>)
    requires BetweenWaves(w, g, maxParallel, events, pending, outputs) && ReadyNodes(g, pending, outputs) != []
    ensures var s := Play(w, g, maxParallel, events);
            && s.pending == pending && s.outputs == outputs && s.ready == ReadyNodes(g, pending, outputs)
            && s.ends == EndsOf(w, g, s.ready, outputs) && |s.ends| == |s.ready|
            && s.wave == NewWave(|s.ends|) && s.end.None?
  {
    hide Play, Schedulable, EndOf;
  }

  /** The scheduler after a wave that `_run_ready` has left with `result`. */
  lemma WaveDone(w: World, g: TeamGraph, maxParallel: nat, base: seq<Event>, pending: seq<TeamNode>,
                 outputs: map<string, string>, more: seq<Event>, cancels: seq<bool>, result: WaveEnd)
    requires BetweenWaves(w, g, maxParallel, base, pending, outputs) && NotEndedBefore(w, g, maxParallel, base)
    requires Heeds(base, cancels, 0) && ReadyNodes(g, pending, outputs) != []
    requires var ends := EndsOf(w, g, ReadyNodes(g, pending, outputs), outputs);
             && Follows(After(ends, maxParallel, more), ends, maxParallel, more, cancels, |base|)
             && After(ends, maxParallel, more).phase == Left(result)
    ensures NotEndedBefore(w, g, maxParallel, base + more) && Heeds(base + more, cancels, 0)
    ensures match result
            case Finished(texts) =>
              && |texts| == |ReadyNodes(g, pending, outputs)|
              && BetweenWaves(w, g, maxParallel, base + more, LaterNodes(g, pending, outputs),
                              Collected(outputs, ReadyNodes(g, pending, outputs), texts))
            case Broken(cause) =>
              Play(w, g, maxParallel, base + more).end == Some(if cause.Raised? then Aborted(cause.code) else Stopped)
            case Interrupted => Play(w, g, maxParallel, base + more).end == Some(Stopped)
  {
    hide Play, After, WaveOk, ReadyNodes, LaterNodes, Collected, EndsOf, NotLeftBefore, NotEndedBefore, Heeds;
    WaveOpened(w, g, maxParallel, base, pending, outputs);
    var s := Play(w, g, maxParallel, base);
    var x := PlayWave(w, g, maxParallel, base, more, s);
    StillRunning(w, g, maxParallel, base, more);
    HeedsBoth(base, more, cancels);
    match result
    case Finished(texts) =>
      AlwaysOk(s.ends, maxParallel, more);
      FinishedTexts(x.wave, s.ends, maxParallel, texts);
      OpenedAgain(w, g, LaterNodes(g, pending, outputs), Collected(outputs, s.ready, texts), s.waves + 1, x.level,
                  x.cancelled);
    case _ =>
  }

  lemma OpenedAgain(w: World, g: TeamGraph, pending: seq<TeamNode>, outputs: map<string, string>, waves: nat,
                    level: map<string, nat>, cancelled: bool)
    ensures var s := OpenWave(w, g, pending, outputs, waves, level, cancelled);
            s == OpenWave(w, g, pending, outputs, s.waves, s.level, s.cancelled)
  {
  }

  lemma NoWaveYet(w: World, g: TeamGraph, maxParallel: nat, cancels: seq<bool>)
    ensures BetweenWaves(w, g, maxParallel, [], g.nodes, map[]) && NotEndedBefore(w, g, maxParallel, [])
    ensures Heeds([], cancels, 0)
  {
    hide ReadyNodes, EndsOf;
  }

  lemma DoneSolves(w: World, g: TeamGraph, cancels: seq<bool>, steps: nat, outputs: map<string, string>)
    requires Dag(g) && EndIsRight(w, g, cancels, steps, Done(outputs))
    ensures Solves(w, g, outputs)
  {
    hide MeaningOf, Agree, AllEvaluate, Solves, CancelledWithin;
    MeaningSolves(w, g, outputs);
  }

  /** `_run_graph`: waves until nothing is pending, or until one of them fails or is cancelled. The history it returns
      takes the scheduler to this end and no further, and holds just the cancellations that the caller makes. */
  method RunGraph(w: World, g: TeamGraph, maxParallel: nat, cancels: seq<bool>)
      returns (end: RunEnd, events: seq<Event>)
    requires Dag(g) && maxParallel > 0
    ensures Play(w, g, maxParallel, events).end == Some(end) && NotEndedBefore(w, g, maxParallel, events)
    ensures Heeds(events, cancels, 0)
    ensures EndIsRight(w, g, cancels, |events|, end)
    ensures end.Done? ==> Solves(w, g, end.outputs)
  {
    hide Play, EndsOf, After, ReadyNodes, LaterNodes, Collected, Follows, EndIsRight, NotEndedBefore, Heeds;
    var pending, outputs: map<string, string> := g.nodes, map[];
    events := [];
    NoWaveYet(w, g, maxParallel, cancels);
    while pending != []
      invariant BetweenWaves(w, g, maxParallel, events, pending, outputs)
      invariant NotEndedBefore(w, g, maxParallel, events) && Heeds(events, cancels, 0)
      decreases |pending|
    {
      var ready, later := Ready(g, pending, outputs);
      if ready == [] {
        PlayedRight(w, g, maxParallel, events, cancels);
        return Aborted("INVALID_TEAM_GRAPH"), events;
      }
      var ends := Ends(w, g, ready, outputs);
      var result, more := RunReady(ends, maxParallel, cancels, |events|);
      WaveDone(w, g, maxParallel, events, pending, outputs, more, cancels, result);
      FewerPending(g, pending, outputs);
      events := events + more;
      match result {
        case Finished(texts) =>
          outputs := Collect(ready, texts, outputs);
          pending := later;
        case Broken(cause) =>
          PlayedRight(w, g, maxParallel, events, cancels);
          return if cause.Raised? then Aborted(cause.code) else Stopped, events;
        case Interrupted =>
          PlayedRight(w, g, maxParallel, events, cancels);
          return Stopped, events;
      }
    }
    PlayedRight(w, g, maxParallel, events, cancels);
    end := Done(outputs);
    DoneSolves(w, g, cancels, |events|, outputs);
  }

  // ---------------------------------------------------------------- invoke

  datatype Invoked = Answer(text: string) | Error(code: string) | CancelledRun

  lemma LastHasNoSuccessor(g: TeamGraph, order: seq<string>, v: string)
    requires g.Closed() && PredecessorsFirst(g, order) && Elements(order) == g.Ids() && order != []
    ensures v !in g.Successors(order[|order| - 1])
  {
    assert v in g.Successors(order[|order| - 1]) ==> g.Edge(order[|order| - 1], v) && v in Elements(order);
  }

  /** An accepted graph has somewhere to end: the synthesis always sees at least one worker result. */
  lemma SomeTerminal(g: TeamGraph)
    requires Dag(g) && g.nodes != []
    ensures Terminals(g, g.nodes) != []
  {
    var order := Order(g);
    assert g.nodes[0].id in g.Ids();
    assert g.nodes[0].id in Elements(order);
    var last := order[|order| - 1];
    assert last in Elements(order);
    if g.Successors(last) != [] {
      LastHasNoSuccessor(g, order, g.Successors(last)[0]);
    }
    assert NodeOf(g, last) in g.nodes && Named(g.nodes, last);
    SuccessorsExactly(g, last);
    TerminalsExactly(g, g.nodes, last);
  }

  /** The text the synthesis model is asked, as a function of the recursive meaning. */
  ghost function Synthesis(w: World, g: TeamGraph, outputs: map<string, string>): string
    requires outputs.Keys == g.Ids()
  {
    TerminalsNamed(g);
    PROMPT + Render(w.request, Gather(outputs, Terminals(g, g.nodes)), w.maximum)
  }

  lemma TerminalsNamed(g: TeamGraph)
    ensures forall id :: id in Terminals(g, g.nodes) ==> id in g.Ids()
  {
    forall id | id in Terminals(g, g.nodes)
      ensures id in g.Ids()
    {
      assert Named(g.nodes, id);
    }
  }

  /** The answer a complete team run leads to. */
  ghost function Expected(w: World, g: TeamGraph, complete: string -> Option<string>): Invoked
    requires Dag(g) && AllEvaluate(MeaningOf(w, g))
  {
    var outputs := Values(MeaningOf(w, g));
    assert outputs.Keys == g.Ids();
    match complete(Synthesis(w, g, outputs))
    case Some(text) => Answer(text)
    case None => Error("SYNTHESIS_FAILED")
  }

  /** The run of the graph that this invocation made, as a history, and how many steps the invocation took: one more
      than the graph when it came to the synthesis. */
  ghost predicate Took(w: World, g: TeamGraph, maxParallel: nat, cancels: seq<bool>, events: seq<Event>, steps: nat) {
    && NotEndedBefore(w, g, maxParallel, events) && Heeds(events, cancels, 0)
    && Play(w, g, maxParallel, events).end.Some?
    && steps == |events| + if Play(w, g, maxParallel, events).end.value.Done? then 1 else 0
  }

  /** What comes out of a run of an accepted graph that took so many steps. If the caller cancels within them, the run
      is cancelled. Otherwise it is the expected answer whenever every node evaluates, an answer only then, and else the
      failure or cancellation of a child. */
  ghost predicate Answers(w: World, g: TeamGraph, complete: string -> Option<string>, cancels: seq<bool>, steps: nat,
                          r: Invoked)
    requires Dag(g)
  {
    && (CancelledWithin(cancels, steps) ==> r.CancelledRun?)
    && (!CancelledWithin(cancels, steps) && AllEvaluate(MeaningOf(w, g)) ==> r == Expected(w, g, complete))
    && match r
       case Answer(_) => AllEvaluate(MeaningOf(w, g)) && r == Expected(w, g, complete)
       case Error(code) =>
         || (AllEvaluate(MeaningOf(w, g)) && r == Expected(w, g, complete))
         || SomeCause(w, g, g.Ids(), Raised(code))
       case CancelledRun => CancelledWithin(cancels, steps) || SomeCause(w, g, g.Ids(), Cancelled)
  }

  lemma FinishedMeaning(w: World, g: TeamGraph, outputs: map<string, string>)
    requires Dag(g) && Agree(MeaningOf(w, g), outputs) && outputs.Keys == g.Ids()
    ensures AllEvaluate(MeaningOf(w, g)) && Values(MeaningOf(w, g)) == outputs
  {
    hide Eval;
  }

  lemma OneStepMore(cancels: seq<bool>, steps: nat)
    ensures CancelledWithin(cancels, steps + 1) <==> CancelledWithin(cancels, steps) || CancelledAt(cancels, steps)
  {
    hide CancelledAt;
    if CancelledWithin(cancels, steps + 1) {
      var k: nat :| k < steps + 1 && CancelledAt(cancels, k);
      assert k < steps || k == steps;
    }
    if CancelledWithin(cancels, steps) {
      var k: nat :| k < steps && CancelledAt(cancels, k);
      assert k < steps + 1;
    }
  }

  lemma SynthesizedRight(w: World, g: TeamGraph, complete: string -> Option<string>, cancels: seq<bool>, steps: nat,
                         outputs: map<string, string>)
    requires Dag(g) && EndIsRight(w, g, cancels, steps, Done(outputs))
    ensures AllEvaluate(MeaningOf(w, g)) && Values(MeaningOf(w, g)) == outputs
    ensures Answers(w, g, complete, cancels, steps + 1,
                    if CancelledAt(cancels, steps) then CancelledRun else Expected(w, g, complete))
  {
    hide MeaningOf, SomeCause, Synthesis, AllEvaluate, Agree, Values, CancelledWithin;
    FinishedMeaning(w, g, outputs);
    OneStepMore(cancels, steps);
  }

  lemma FailedRight(w: World, g: TeamGraph, complete: string -> Option<string>, cancels: seq<bool>, steps: nat,
                    end: RunEnd)
    requires Dag(g) && EndIsRight(w, g, cancels, steps, end) && !end.Done?
    ensures Answers(w, g, complete, cancels, steps, if end.Aborted? then Error(end.code) else CancelledRun)
  {
    hide MeaningOf, SomeCause, Expected, AllEvaluate, Agree, CancelledWithin;
  }

  /** `complete` is the model call, None where it raises; the caller may still cancel while it is awaited. */
  method InvokeParsed(w: World, g: TeamGraph, maxParallel: nat, complete: string -> Option<string>, cancels: seq<bool>)
      returns (r: Invoked, events: seq<Event>, steps: nat)
    requires Dag(g) && maxParallel > 0
    ensures Took(w, g, maxParallel, cancels, events, steps) && Answers(w, g, complete, cancels, steps, r)
  {
    hide Play, NotEndedBefore, Heeds, MeaningOf, Agree, SomeCause, Render, Gather, Terminals, AllEvaluate, Answers,
      EndIsRight;
    var end;
    end, events := RunGraph(w, g, maxParallel, cancels);
    steps := |events|;
    if !end.Done? {
      FailedRight(w, g, complete, cancels, steps, end);
      return if end.Aborted? then Error(end.code) else CancelledRun, events, steps;
    }
    EndedOutputs(w, g, cancels, steps, end);
    SynthesizedRight(w, g, complete, cancels, steps, end.outputs);
    TerminalsNamed(g);
    var context := BoundedContext(w.request, Gather(end.outputs, Terminals(g, g.nodes)), w.maximum);
    steps := steps + 1;
    if CancelledAt(cancels, |events|) {
      return CancelledRun, events, steps;
    }
    var answer := complete(PROMPT + context);
    r := if answer.Some? then Answer(answer.value) else Error("SYNTHESIS_FAILED");
  }

  lemma EndedOutputs(w: World, g: TeamGraph, cancels: seq<bool>, steps: nat, end: RunEnd)
    requires Dag(g) && EndIsRight(w, g, cancels, steps, end) && end.Done?
    ensures end.outputs.Keys == g.Ids()
  {
    hide MeaningOf, Agree, AllEvaluate, CancelledWithin;
  }

  /** The same without the recursive meaning: what the caller is told about a team with such a solution or without one,
      about a worker that ended so, and about a cancellation within the steps taken. */
  ghost predicate Says(w: World, g: TeamGraph, complete: string -> Option<string>, cancels: seq<bool>, steps: nat,
                       r: Invoked)
    requires Dag(g)
  {
    && (CancelledWithin(cancels, steps) ==> r.CancelledRun?)
    && (!CancelledWithin(cancels, steps) && (exists outputs :: Solves(w, g, outputs)) ==>
          r.Answer? || r == Error("SYNTHESIS_FAILED"))
    && match r
       case Answer(text) => exists outputs, results :: Asked(w, g, complete, outputs, results, Some(text))
       case Error(code) =>
         || (code == "SYNTHESIS_FAILED" && exists outputs, results :: Asked(w, g, complete, outputs, results, None))
         || (exists n, inputs, end :: ChildEnds(w, g, n, inputs, end) && Explains(end, code))
       case CancelledRun =>
         CancelledWithin(cancels, steps) || exists n, inputs :: ChildEnds(w, g, n, inputs, TaskCancelled)
  }

  lemma ExpectedIsAsked(w: World, g: TeamGraph, complete: string -> Option<string>)
    requires Dag(g) && AllEvaluate(MeaningOf(w, g))
    ensures match Expected(w, g, complete)
            case Answer(text) => exists outputs, results :: Asked(w, g, complete, outputs, results, Some(text))
            case Error(code) =>
              code == "SYNTHESIS_FAILED" && exists outputs, results :: Asked(w, g, complete, outputs, results, None)
            case CancelledRun => false
  {
    hide MeaningOf, Solves, TerminalResults, Gather, Terminals, Render;
    var outputs := Values(MeaningOf(w, g));
    SolvedExactly(w, g);
    var solved :| Solves(w, g, solved);
    assert outputs == solved;
    SolutionKeys(w, g, outputs);
    TerminalsNamed(g);
    var results := Gather(outputs, Terminals(g, g.nodes));
    TerminalsAreResults(g, outputs);
    var said := complete(Synthesis(w, g, outputs));
    assert Asked(w, g, complete, outputs, results, said);
  }

  lemma RaisedByChild(w: World, g: TeamGraph, code: string)
    requires Dag(g) && SomeCause(w, g, g.Ids(), Raised(code))
    ensures exists n, inputs, end :: ChildEnds(w, g, n, inputs, end) && Explains(end, code)
  {
    hide ChildEnds, SomeCause, TaskEnd, Explains;
    CauseIsChild(w, g, g.Ids(), Raised(code));
    var n, inputs, end :| ChildEnds(w, g, n, inputs, end) && TaskEnd(end) == Raised(code);
    TaskEndsSo(end);
  }

  lemma CancelledByChild(w: World, g: TeamGraph)
    requires Dag(g) && SomeCause(w, g, g.Ids(), Cancelled)
    ensures exists n, inputs :: ChildEnds(w, g, n, inputs, TaskCancelled)
  {
    hide ChildEnds, SomeCause, TaskEnd;
    CauseIsChild(w, g, g.Ids(), Cancelled);
    var n, inputs, end :| ChildEnds(w, g, n, inputs, end) && TaskEnd(end) == Cancelled;
    TaskEndsSo(end);
  }

  lemma AnswersSay(w: World, g: TeamGraph, complete: string -> Option<string>, cancels: seq<bool>, steps: nat,
                   r: Invoked)
    requires Dag(g) && Answers(w, g, complete, cancels, steps, r)
    ensures Says(w, g, complete, cancels, steps, r)
  {
    hide MeaningOf, AllEvaluate, Expected, SomeCause, CancelledWithin, Solves, Asked, ChildEnds, Explains;
    SolvedExactly(w, g);
    if AllEvaluate(MeaningOf(w, g)) {
      ExpectedIsAsked(w, g, complete);
    }
    match r
    case Answer(_) =>
    case Error(code) =>
      if SomeCause(w, g, g.Ids(), Raised(code)) {
        RaisedByChild(w, g, code);
      }
    case CancelledRun =>
      if !CancelledWithin(cancels, steps) {
        CancelledByChild(w, g);
      }
  }

  /** `TeamGraphRuntime.invoke`: parse, check the depth, run the graph, and ask for a synthesis of the
      terminal outputs. */
  method Invoke(w: World, raw: Object, maxWorkers: nat, uuid: UuidParser, depth: nat, maxDepth: nat,
                maxParallel: nat, complete: string -> Option<string>, cancels: seq<bool>)
      returns (r: Invoked, events: seq<Event>, steps: nat)
    requires maxParallel > 0
    ensures !Accepts(raw, maxWorkers, uuid) ==>
              r == Error(if HeaderOk(raw) && |Get(raw, "nodes").items| > maxWorkers then "WORKER_LIMIT_EXCEEDED"
                         else "INVALID_TEAM_GRAPH")
    ensures Accepts(raw, maxWorkers, uuid) && depth >= maxDepth ==> r == Error("MAX_DEPTH_EXCEEDED")
    ensures Accepts(raw, maxWorkers, uuid) && depth < maxDepth ==>
              && Took(w, Decode(raw, uuid), maxParallel, cancels, events, steps)
              && Answers(w, Decode(raw, uuid), complete, cancels, steps, r)
              && Says(w, Decode(raw, uuid), complete, cancels, steps, r)
  {
    hide Took, Answers, Says;
    var parsed := ParseTeamGraph(raw, maxWorkers, uuid);
    if parsed.Rejected? {
      return Error(if parsed.reason == WorkerLimit then "WORKER_LIMIT_EXCEEDED" else "INVALID_TEAM_GRAPH"), [], 0;
    }
    if depth >= maxDepth {
      return Error("MAX_DEPTH_EXCEEDED"), [], 0;
    }
    r, events, steps := InvokeParsed(w, parsed.graph, maxParallel, complete, cancels);
    AnswersSay(w, parsed.graph, complete, cancels, steps, r);
  }
}
