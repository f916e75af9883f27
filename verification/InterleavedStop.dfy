/** services/manager.py: `stop_run` and `_stop_descendants` section by section, with any other step of the lifecycle
    machine in between. */
module InterleavedStops {
  import opened Prelude
  import opened Lifecycles
  import LifecycleRuns
  import opened Stopping

  /** What a stop still has to do: `stop_run`; `_stop_descendants` before and after it has listed the children; the
      lookup of the task once everything below is done; the wait for the cancelled task; the final read of the run. */
  datatype Action =
    | Stop(run: RunId)
    | Descend(run: RunId)
    | Visit(children: seq<RunId>)
    | Settle(run: RunId)
    | Cancelling(run: RunId)
    | Fetch(run: RunId)

  /** `visited` are the runs for which `stop_run` found an active run, `stuck` those whose cancellation timed out,
      `listed` those that stood in some list of children; `answers` holds what `stop_run` last answered for a run. A
      missing run raises, and that ends the whole stop. */
  datatype Stopper = Stopper(store: Store, agenda: seq<Action>, visited: set<RunId>, stuck: set<RunId>,
                             listed: set<RunId>, answers: map<RunId, StopResult>, raised: bool)

  /** A step of something else; the stop's next section; the list of the children; a cancellation that times out. */
  datatype Step = Other(event: Event) | Go | List(children: seq<RunId>) | TimesOut

  ghost predicate ListsChildren(s: Store, r: RunId, children: seq<RunId>) {
    forall c :: c in children <==> c in s.delegations && s.delegations[c].parent == r
  }

  function Then(m: Stopper, actions: seq<Action>): Stopper
    requires m.agenda != []
  {
    m.(agenda := actions + m.agenda[1..])
  }

  function Answered(m: Stopper, r: RunId, answer: StopResult): Stopper {
    m.(answers := m.answers[r := answer])
  }

  function Raise(m: Stopper): Stopper {
    m.(agenda := [], raised := true)
  }

  function StopNext(m: Stopper, r: RunId): Stopper
    requires m.agenda != []
  {
    if r !in m.store.runs then Raise(m)
    else if Terminal(m.store.runs[r].status) then Answered(Then(m, []), r, AlreadyEnded)
    else Then(m, [Descend(r), Settle(r)]).(visited := m.visited + {r})
  }

  function VisitNext(m: Stopper, children: seq<RunId>): Stopper
    requires m.agenda != []
  {
    if children == [] then Then(m, [])
    else
      var c := children[0];
      if c !in m.store.runs then Raise(m)
      else if Terminal(m.store.runs[c].status) then Then(m, [Visit(children[1..])])
      else Then(m, [Descend(c), Stop(c), Visit(children[1..])])
  }

  function SettleNext(m: Stopper, r: RunId): Stopper
    requires m.agenda != []
  {
    if r in m.store.tasks then Then(m, [Cancelling(r)])
    else Answered(Then(m, []).(store := FinishNext(m.store, r, Failure(NO_HANDLE))), r, NoHandle)
  }

  function CancelledNext(m: Stopper, r: RunId): Stopper
    requires m.agenda != []
  {
    if r in m.store.tasks then m else Then(m, [Fetch(r)]).(store := FinishNext(m.store, r, Cancellation))
  }

  function GoNext(m: Stopper): Stopper
    requires m.agenda != []
  {
    match m.agenda[0]
    case Stop(r) => StopNext(m, r)
    case Descend(_) => m
    case Visit(children) => VisitNext(m, children)
    case Settle(r) => SettleNext(m, r)
    case Cancelling(r) => CancelledNext(m, r)
    case Fetch(r) => if r in m.store.runs then Answered(Then(m, []), r, Stopped) else Raise(m)
  }

  ghost function ListNext(m: Stopper, children: seq<RunId>): Stopper
    requires m.agenda != []
  {
    if m.agenda[0].Descend? && ListsChildren(m.store, m.agenda[0].run, children)
    then Then(m, [Visit(children)]).(listed := m.listed + Elements(children))
    else m
  }

  function TimesOutNext(m: Stopper): Stopper
    requires m.agenda != []
  {
    if m.agenda[0].Cancelling? && m.agenda[0].run in m.store.tasks
    then Answered(Then(m, []).(stuck := m.stuck + {m.agenda[0].run}), m.agenda[0].run, CancellationTimedOut)
    else m
  }

  ghost function Next(m: Stopper, maxDepth: nat, e: Step): Stopper {
    match e
    case Other(event) =>
      if event.Crash? || event.Recover? then m else m.(store := Lifecycles.Next(m.store, maxDepth, event))
    case Go => if m.agenda == [] then m else GoNext(m)
    case List(children) => if m.agenda == [] then m else ListNext(m, children)
    case TimesOut => if m.agenda == [] then m else TimesOutNext(m)
  }

  ghost function Play(s: Store, maxDepth: nat, r: RunId, steps: seq<Step>): Stopper {
    if steps == [] then Stopper(s, [Stop(r)], {}, {}, {}, map[], false)
    else Next(Play(s, maxDepth, r, steps[..|steps| - 1]), maxDepth, steps[|steps| - 1])
  }

  // ---------------------------------------------------------------- what stays true

  /** The delegations of the beginning, as long as both runs have their rows. */
  ghost predicate RowsStay(base: map<RunId, Delegation>, s: Store) {
    forall b :: b in base ==>
      && b in s.origins && base[b].parent in s.origins
      && (b in s.runs && base[b].parent in s.runs ==>
            b in s.delegations && s.delegations[b].parent == base[b].parent)
  }

  ghost predicate WillEnd(agenda: seq<Action>, r: RunId) {
    Settle(r) in agenda || Cancelling(r) in agenda
  }

  ghost predicate InVisit(agenda: seq<Action>, b: RunId) {
    exists a :: a in agenda && a.Visit? && b in a.children
  }

  /** Run `b`, delegated by `c`, is still to be looked at. */
  ghost predicate WillLook(agenda: seq<Action>, c: RunId, b: RunId) {
    Descend(c) in agenda || Stop(b) in agenda || InVisit(agenda, b)
  }

  ghost predicate EndOk(m: Stopper, c: RunId) {
    WillEnd(m.agenda, c) || c in m.stuck || !Active(m.store, c)
  }

  ghost predicate LookOk(m: Stopper, c: RunId, b: RunId) {
    b in m.visited || !Active(m.store, b) || c !in m.store.runs || WillLook(m.agenda, c, b)
  }

  ghost predicate EndsOk(m: Stopper) {
    forall c :: c in m.visited ==> c in m.store.origins && EndOk(m, c)
  }

  ghost predicate LooksOk(base: map<RunId, Delegation>, m: Stopper) {
    forall b :: b in base && base[b].parent in m.visited ==> LookOk(m, base[b].parent, b)
  }

  /** A listed run has been stopped, has ended, or is still to be stopped. */
  ghost predicate ListOk(m: Stopper, b: RunId) {
    && b in m.store.origins
    && (b in m.visited || !Active(m.store, b) || Stop(b) in m.agenda || InVisit(m.agenda, b))
  }

  ghost predicate ListsOk(m: Stopper) {
    forall b :: b in m.listed ==> ListOk(m, b)
  }

  ghost predicate RootOk(m: Stopper, r: RunId) {
    r in m.store.origins && (r in m.visited || Stop(r) in m.agenda || !Active(m.store, r))
  }

  ghost predicate StopperOk(base: map<RunId, Delegation>, maxDepth: nat, r: RunId, m: Stopper) {
    && Sound(m.store, maxDepth)
    && RowsStay(base, m.store)
    && (!m.raised ==> EndsOk(m) && LooksOk(base, m) && ListsOk(m) && RootOk(m, r))
  }

  // ---------------------------------------------------------------- the store moves on

  lemma StaysEnded(s: Store, s': Store, r: RunId)
    requires LifecycleRuns.Advances(s, s') && r in s.origins
    ensures r in s'.origins
    ensures !Active(s, r) ==> !Active(s', r)
    ensures r !in s.runs ==> r !in s'.runs
  {
    hide LogOf;
  }

  lemma StoreMoves(base: map<RunId, Delegation>, maxDepth: nat, r: RunId, m: Stopper, s': Store)
    requires StopperOk(base, maxDepth, r, m)
    requires LifecycleRuns.Advances(m.store, s') && Sound(s', maxDepth) && RowsStay(base, s')
    ensures StopperOk(base, maxDepth, r, m.(store := s'))
  {
    hide Sound, LifecycleRuns.Advances, Active, WillEnd, WillLook;
    var m' := m.(store := s');
    if !m.raised {
      forall c | c in m.visited
        ensures c in s'.origins && EndOk(m', c)
      {
        StaysEnded(m.store, s', c);
      }
      forall b | b in base && base[b].parent in m.visited
        ensures LookOk(m', base[b].parent, b)
      {
        assert LookOk(m, base[b].parent, b);
        StaysEnded(m.store, s', b);
        StaysEnded(m.store, s', base[b].parent);
      }
      forall b | b in m.listed
        ensures ListOk(m', b)
      {
        assert ListOk(m, b);
        StaysEnded(m.store, s', b);
      }
      StaysEnded(m.store, s', r);
    }
  }

  lemma KeptFamily(base: map<RunId, Delegation>, s: Store, s': Store)
    requires RowsStay(base, s) && LifecycleRuns.SameFamily(s, s')
    ensures RowsStay(base, s')
  {
  }

  lemma RowsStayNext(base: map<RunId, Delegation>, s: Store, maxDepth: nat, e: Event)
    requires Sound(s, maxDepth) && RowsStay(base, s) && !e.Recover?
    ensures RowsStay(base, Lifecycles.Next(s, maxDepth, e))
  {
    hide Sound, MarkNext, FinishNext, HasActive, MayDelegate, Append;
    match e
    case MarkRunning(r) =>
      LifecycleRuns.MarkKeepsFamily(s, r);
      KeptFamily(base, s, MarkNext(s, r));
    case Finish(r, ending) =>
      LifecycleRuns.FinishKeepsFamily(s, r, ending);
      KeptFamily(base, s, FinishNext(s, r, ending));
    case _ =>
  }

  // ---------------------------------------------------------------- the agenda moves on

  /** The head of the agenda has been replaced, and runs newly visited or listed are to be gone through. */
  ghost predicate Replaced(m: Stopper, m': Stopper, actions: seq<Action>) {
    && m.agenda != []
    && m' == m.(agenda := actions + m.agenda[1..], visited := m'.visited, listed := m'.listed, answers := m'.answers)
    && m.visited <= m'.visited
    && (forall c :: c in m'.visited && c !in m.visited ==>
          c in m.store.origins && Descend(c) in m'.agenda && Settle(c) in m'.agenda)
    && (forall b :: b in m'.listed && b !in m.listed ==> b in m.store.origins && InVisit(m'.agenda, b))
  }

  lemma OthersStay(m: Stopper, m': Stopper, actions: seq<Action>, a: Action)
    requires Replaced(m, m', actions) && a in m.agenda && a != m.agenda[0]
    ensures a in m'.agenda
  {
    assert m.agenda == [m.agenda[0]] + m.agenda[1..];
  }

  /** What the replaced head stood for is done, or is on the agenda again. */
  ghost predicate HeadDone(base: map<RunId, Delegation>, m: Stopper, m': Stopper)
    requires m.agenda != []
  {
    match m.agenda[0]
    case Stop(r) => r in m'.visited || !Active(m'.store, r)
    case Descend(r) =>
      forall b :: b in base && base[b].parent == r && r in m'.visited ==> LookOk(m', r, b)
    case Visit(children) =>
      forall b :: b in children ==> !Active(m'.store, b) || Stop(b) in m'.agenda || InVisit(m'.agenda, b)
    case Settle(r) => EndOk(m', r)
    case Cancelling(r) => EndOk(m', r)
    case Fetch(_) => true
  }

  lemma ReplacedEnd(base: map<RunId, Delegation>, m: Stopper, m': Stopper, actions: seq<Action>, c: RunId)
    requires Replaced(m, m', actions) && HeadDone(base, m, m') && EndOk(m, c)
    ensures EndOk(m', c)
  {
    hide Active, LookOk, InVisit;
    if Settle(c) in m.agenda && m.agenda[0] != Settle(c) {
      OthersStay(m, m', actions, Settle(c));
    }
    if Cancelling(c) in m.agenda && m.agenda[0] != Cancelling(c) {
      OthersStay(m, m', actions, Cancelling(c));
    }
  }

  lemma ReplacedVisit(base: map<RunId, Delegation>, m: Stopper, m': Stopper, actions: seq<Action>, b: RunId)
    requires Replaced(m, m', actions) && HeadDone(base, m, m') && InVisit(m.agenda, b)
    ensures !Active(m'.store, b) || Stop(b) in m'.agenda || InVisit(m'.agenda, b)
  {
    hide Active, LookOk, EndOk;
    var a :| a in m.agenda && a.Visit? && b in a.children;
    if a != m.agenda[0] {
      OthersStay(m, m', actions, a);
    }
  }

  lemma ReplacedLook(base: map<RunId, Delegation>, m: Stopper, m': Stopper, actions: seq<Action>, b: RunId)
    requires Replaced(m, m', actions) && HeadDone(base, m, m')
    requires b in base && base[b].parent in m.visited && LookOk(m, base[b].parent, b)
    ensures LookOk(m', base[b].parent, b)
  {
    var c := base[b].parent;
    if InVisit(m.agenda, b) {
      ReplacedVisit(base, m, m', actions, b);
    }
    if Descend(c) in m.agenda && m.agenda[0] != Descend(c) {
      OthersStay(m, m', actions, Descend(c));
    }
    if Stop(b) in m.agenda && m.agenda[0] != Stop(b) {
      OthersStay(m, m', actions, Stop(b));
    }
    hide InVisit;
  }

  lemma NewlyVisited(m: Stopper, m': Stopper, actions: seq<Action>, c: RunId, b: RunId)
    requires Replaced(m, m', actions) && c in m'.visited && c !in m.visited
    ensures c in m'.store.origins && EndOk(m', c) && LookOk(m', c, b)
  {
  }

  lemma AgendaMoves(base: map<RunId, Delegation>, maxDepth: nat, r: RunId, m: Stopper, m': Stopper,
                    actions: seq<Action>)
    requires StopperOk(base, maxDepth, r, m) && Replaced(m, m', actions) && HeadDone(base, m, m')
    ensures StopperOk(base, maxDepth, r, m')
  {
    hide Sound, RowsStay, EndOk, LookOk, Active, HeadDone;
    if !m.raised {
      forall c | c in m'.visited
        ensures c in m'.store.origins && EndOk(m', c)
      {
        if c in m.visited {
          ReplacedEnd(base, m, m', actions, c);
        } else {
          NewlyVisited(m, m', actions, c, c);
        }
      }
      forall b | b in base && base[b].parent in m'.visited
        ensures LookOk(m', base[b].parent, b)
      {
        if base[b].parent in m.visited {
          ReplacedLook(base, m, m', actions, b);
        } else {
          NewlyVisited(m, m', actions, base[b].parent, b);
        }
      }
      forall b | b in m'.listed
        ensures ListOk(m', b)
      {
        if b in m.listed {
          ReplacedListed(base, m, m', actions, b);
        }
      }
      ReplacedRoot(base, m, m', actions, r);
    }
  }

  lemma ReplacedListed(base: map<RunId, Delegation>, m: Stopper, m': Stopper, actions: seq<Action>, b: RunId)
    requires Replaced(m, m', actions) && HeadDone(base, m, m') && ListOk(m, b)
    ensures ListOk(m', b)
  {
    if InVisit(m.agenda, b) {
      ReplacedVisit(base, m, m', actions, b);
    }
    if Stop(b) in m.agenda && m.agenda[0] != Stop(b) {
      OthersStay(m, m', actions, Stop(b));
    }
    hide InVisit;
  }

  lemma ReplacedRoot(base: map<RunId, Delegation>, m: Stopper, m': Stopper, actions: seq<Action>, r: RunId)
    requires Replaced(m, m', actions) && HeadDone(base, m, m') && RootOk(m, r)
    ensures RootOk(m', r)
  {
    hide LookOk, EndOk, InVisit, Active;
    if Stop(r) in m.agenda && m.agenda[0] != Stop(r) {
      OthersStay(m, m', actions, Stop(r));
    }
  }

  lemma RaiseOk(base: map<RunId, Delegation>, maxDepth: nat, r: RunId, m: Stopper)
    requires StopperOk(base, maxDepth, r, m)
    ensures StopperOk(base, maxDepth, r, Raise(m))
  {
    hide Sound, RowsStay;
  }

  // ---------------------------------------------------------------- one section after another

  lemma StopOk(base: map<RunId, Delegation>, maxDepth: nat, r: RunId, m: Stopper, c: RunId)
    requires StopperOk(base, maxDepth, r, m) && m.agenda != [] && m.agenda[0] == Stop(c)
    ensures StopperOk(base, maxDepth, r, StopNext(m, c))
  {
    hide StopperOk;
    RaiseOk(base, maxDepth, r, m);
    if c in m.store.runs {
      var m', actions := StopNext(m, c), if Terminal(m.store.runs[c].status) then [] else [Descend(c), Settle(c)];
      KnownRun(base, maxDepth, r, m, c);
      assert Active(m.store, c) ==> m'.agenda[0] == Descend(c) && m'.agenda[1] == Settle(c);
      AgendaMoves(base, maxDepth, r, m, m', actions);
    }
  }

  lemma KnownRun(base: map<RunId, Delegation>, maxDepth: nat, r: RunId, m: Stopper, c: RunId)
    requires StopperOk(base, maxDepth, r, m) && c in m.store.runs
    ensures c in m.store.origins
  {
    LifecycleRuns.RunsHaveOrigins(m.store, maxDepth);
  }

  lemma ChildrenAreKnown(s: Store, maxDepth: nat, r: RunId, children: seq<RunId>)
    requires Sound(s, maxDepth) && ListsChildren(s, r, children)
    ensures forall c :: c in children ==> c in s.origins
  {
    hide OneActive, BusyIfActive, RunsOk, TasksOk;
    forall c | c in children
      ensures c in s.origins
    {
      assert DelegationOk(s, maxDepth, c);
    }
  }

  lemma ListingOk(base: map<RunId, Delegation>, maxDepth: nat, r: RunId, m: Stopper, children: seq<RunId>)
    requires StopperOk(base, maxDepth, r, m) && m.agenda != []
    ensures StopperOk(base, maxDepth, r, ListNext(m, children))
  {
    hide Sound, EndsOk, LooksOk, ListsOk, RootOk;
    if m.agenda[0].Descend? && ListsChildren(m.store, m.agenda[0].run, children) {
      var m' := ListNext(m, children);
      assert m'.agenda[0] == Visit(children);
      ChildrenAreKnown(m.store, maxDepth, m.agenda[0].run, children);
      AgendaMoves(base, maxDepth, r, m, m', [Visit(children)]);
    }
  }

  lemma VisitOk(base: map<RunId, Delegation>, maxDepth: nat, r: RunId, m: Stopper, children: seq<RunId>)
    requires StopperOk(base, maxDepth, r, m) && m.agenda != [] && m.agenda[0] == Visit(children)
    ensures StopperOk(base, maxDepth, r, VisitNext(m, children))
  {
    hide StopperOk;
    RaiseOk(base, maxDepth, r, m);
    if children == [] {
      AgendaMoves(base, maxDepth, r, m, Then(m, []), []);
    } else if children[0] in m.store.runs {
      var c, rest, m' := children[0], children[1..], VisitNext(m, children);
      var actions := if Terminal(m.store.runs[c].status) then [Visit(rest)] else [Descend(c), Stop(c), Visit(rest)];
      assert children == [c] + rest;
      assert actions[|actions| - 1] == Visit(rest) && actions <= m'.agenda;
      assert Visit(rest) in m'.agenda;
      assert Active(m.store, c) ==> m'.agenda[1] == Stop(c);
      AgendaMoves(base, maxDepth, r, m, m', actions);
    }
  }

  lemma FinishMoves(base: map<RunId, Delegation>, maxDepth: nat, r: RunId, m: Stopper, c: RunId, ending: Ending)
    requires StopperOk(base, maxDepth, r, m) && !ending.Success?
    ensures StopperOk(base, maxDepth, r, m.(store := FinishNext(m.store, c, ending)))
    ensures !Active(FinishNext(m.store, c, ending), c)
  {
    var s' := FinishNext(m.store, c, ending);
    LifecycleRuns.FinishAdvances(m.store, c, ending);
    LifecycleRuns.FinishKeepsFamily(m.store, c, ending);
    FinishOnlyEnds(m.store, c, ending, {});
    SoundFinish(m.store, maxDepth, c, ending);
    KeptFamily(base, m.store, s');
    hide StopperOk, FinishNext, Sound, RowsStay, LifecycleRuns.Advances;
    StoreMoves(base, maxDepth, r, m, s');
  }

  lemma SettleOk(base: map<RunId, Delegation>, maxDepth: nat, r: RunId, m: Stopper, c: RunId)
    requires StopperOk(base, maxDepth, r, m) && m.agenda != [] && m.agenda[0] == Settle(c)
    ensures StopperOk(base, maxDepth, r, SettleNext(m, c))
  {
    hide StopperOk, FinishNext;
    if c in m.store.tasks {
      var m' := Then(m, [Cancelling(c)]);
      assert m'.agenda[0] == Cancelling(c);
      AgendaMoves(base, maxDepth, r, m, m', [Cancelling(c)]);
    } else {
      FinishMoves(base, maxDepth, r, m, c, Failure(NO_HANDLE));
      var ended := m.(store := FinishNext(m.store, c, Failure(NO_HANDLE)));
      AgendaMoves(base, maxDepth, r, ended, Answered(Then(ended, []), c, NoHandle), []);
    }
  }

  lemma CancelledOk(base: map<RunId, Delegation>, maxDepth: nat, r: RunId, m: Stopper, c: RunId)
    requires StopperOk(base, maxDepth, r, m) && m.agenda != [] && m.agenda[0] == Cancelling(c)
    ensures StopperOk(base, maxDepth, r, CancelledNext(m, c))
  {
    hide StopperOk, FinishNext;
    if c !in m.store.tasks {
      FinishMoves(base, maxDepth, r, m, c, Cancellation);
      var ended := m.(store := FinishNext(m.store, c, Cancellation));
      AgendaMoves(base, maxDepth, r, ended, Then(ended, [Fetch(c)]), [Fetch(c)]);
    }
  }

  lemma StuckMore(base: map<RunId, Delegation>, maxDepth: nat, r: RunId, m: Stopper, c: RunId)
    requires StopperOk(base, maxDepth, r, m)
    ensures StopperOk(base, maxDepth, r, m.(stuck := m.stuck + {c}))
  {
    hide Sound, RowsStay, Active, WillEnd, WillLook;
    var m' := m.(stuck := m.stuck + {c});
    if !m.raised {
      assert forall q :: q in m.visited ==> EndOk(m, q) && EndOk(m', q);
      assert forall b :: b in base && base[b].parent in m.visited ==>
          LookOk(m, base[b].parent, b) && LookOk(m', base[b].parent, b);
      assert forall b :: b in m.listed ==> ListOk(m, b) && ListOk(m', b);
    }
  }

  lemma TimesOutOk(base: map<RunId, Delegation>, maxDepth: nat, r: RunId, m: Stopper)
    requires StopperOk(base, maxDepth, r, m) && m.agenda != []
    ensures StopperOk(base, maxDepth, r, TimesOutNext(m))
  {
    hide StopperOk;
    if m.agenda[0].Cancelling? && m.agenda[0].run in m.store.tasks {
      var stuck := m.(stuck := m.stuck + {m.agenda[0].run});
      StuckMore(base, maxDepth, r, m, m.agenda[0].run);
      AgendaMoves(base, maxDepth, r, stuck, Answered(Then(stuck, []), m.agenda[0].run, CancellationTimedOut), []);
    }
  }

  lemma FetchOk(base: map<RunId, Delegation>, maxDepth: nat, r: RunId, m: Stopper)
    requires StopperOk(base, maxDepth, r, m) && m.agenda != [] && m.agenda[0].Fetch?
    ensures StopperOk(base, maxDepth, r, GoNext(m))
  {
    hide StopperOk;
    RaiseOk(base, maxDepth, r, m);
    AgendaMoves(base, maxDepth, r, m, Answered(Then(m, []), m.agenda[0].run, Stopped), []);
  }

  lemma OtherOk(base: map<RunId, Delegation>, maxDepth: nat, r: RunId, m: Stopper, e: Event)
    requires StopperOk(base, maxDepth, r, m) && !e.Recover?
    ensures StopperOk(base, maxDepth, r, m.(store := Lifecycles.Next(m.store, maxDepth, e)))
  {
    SoundNext(m.store, maxDepth, e);
    LifecycleRuns.AdvancesNext(m.store, maxDepth, e);
    RowsStayNext(base, m.store, maxDepth, e);
    hide StopperOk, Lifecycles.Next, Sound, RowsStay, LifecycleRuns.Advances;
    StoreMoves(base, maxDepth, r, m, Lifecycles.Next(m.store, maxDepth, e));
  }

  lemma StopperOkNext(base: map<RunId, Delegation>, maxDepth: nat, r: RunId, m: Stopper, e: Step)
    requires StopperOk(base, maxDepth, r, m)
    ensures StopperOk(base, maxDepth, r, Next(m, maxDepth, e))
  {
    hide StopperOk, Lifecycles.Next, StopNext, VisitNext, SettleNext, CancelledNext, ListNext, TimesOutNext;
    match e
    case Other(event) =>
      if !event.Recover? {
        OtherOk(base, maxDepth, r, m, event);
      }
    case Go =>
      if m.agenda != [] {
        GoOk(base, maxDepth, r, m);
      }
    case List(children) =>
      if m.agenda != [] {
        ListingOk(base, maxDepth, r, m, children);
      }
    case TimesOut =>
      if m.agenda != [] {
        TimesOutOk(base, maxDepth, r, m);
      }
  }

  lemma GoOk(base: map<RunId, Delegation>, maxDepth: nat, r: RunId, m: Stopper)
    requires StopperOk(base, maxDepth, r, m) && m.agenda != []
    ensures StopperOk(base, maxDepth, r, GoNext(m))
  {
    hide StopperOk, StopNext, VisitNext, SettleNext, CancelledNext;
    match m.agenda[0]
    case Stop(c) => StopOk(base, maxDepth, r, m, c);
    case Descend(_) =>
    case Visit(children) => VisitOk(base, maxDepth, r, m, children);
    case Settle(c) => SettleOk(base, maxDepth, r, m, c);
    case Cancelling(c) => CancelledOk(base, maxDepth, r, m, c);
    case Fetch(_) => FetchOk(base, maxDepth, r, m);
  }

  lemma BeginsOk(s: Store, maxDepth: nat, r: RunId)
    requires Sound(s, maxDepth) && r in s.runs
    ensures StopperOk(s.delegations, maxDepth, r, Stopper(s, [Stop(r)], {}, {}, {}, map[], false))
  {
    hide OneActive, BusyIfActive, TasksOk, LogOk;
    assert RunOk(s, r);
    forall b | b in s.delegations
      ensures b in s.origins && s.delegations[b].parent in s.origins
    {
      assert DelegationOk(s, maxDepth, b);
    }
    assert Stop(r) in [Stop(r)];
  }

  lemma {:induction false} AlwaysOk(s: Store, maxDepth: nat, r: RunId, steps: seq<Step>)
    requires Sound(s, maxDepth) && r in s.runs
    ensures StopperOk(s.delegations, maxDepth, r, Play(s, maxDepth, r, steps))
    decreases |steps|
  {
    hide StopperOk, Sound, Next;
    if steps == [] {
      BeginsOk(s, maxDepth, r);
    } else {
      AlwaysOk(s, maxDepth, r, steps[..|steps| - 1]);
      StopperOkNext(s.delegations, maxDepth, r, Play(s, maxDepth, r, steps[..|steps| - 1]), steps[|steps| - 1]);
    }
  }

  // ---------------------------------------------------------------- what a finished stop has reached

  /** The run is out of the stop's reach: its task did not end in time, it was deleted, or it had ended before the stop
      came to it. */
  predicate OutOfReach(m: Stopper, r: RunId) {
    r in m.stuck || r !in m.store.runs || (r !in m.visited && !Active(m.store, r))
  }

  /** When a stop has gone through its agenda, whatever else happened meanwhile, each run it visited has ended unless
      its task did not end in time; and so has every run that a visited one had delegated to when the stop began, unless
      it was visited or the visited one deleted. */
  lemma VisitedHaveEnded(s: Store, maxDepth: nat, r: RunId, steps: seq<Step>)
    requires Sound(s, maxDepth) && r in s.runs
    requires Play(s, maxDepth, r, steps).agenda == [] && !Play(s, maxDepth, r, steps).raised
    ensures var m := Play(s, maxDepth, r, steps);
            && (r in m.visited || !Active(m.store, r))
            && (forall c :: c in m.visited ==> c in m.stuck || !Active(m.store, c))
            && (forall b :: b in s.delegations && s.delegations[b].parent in m.visited ==>
                  b in m.visited || !Active(m.store, b) || s.delegations[b].parent !in m.store.runs)
  {
    hide Play, Sound, RowsStay, Active;
    AlwaysOk(s, maxDepth, r, steps);
    var m := Play(s, maxDepth, r, steps);
    forall c | c in m.visited
      ensures c in m.stuck || !Active(m.store, c)
    {
      assert EndOk(m, c);
    }
    forall b | b in s.delegations && s.delegations[b].parent in m.visited
      ensures b in m.visited || !Active(m.store, b) || s.delegations[b].parent !in m.store.runs
    {
      assert LookOk(m, s.delegations[b].parent, b);
    }
  }

  /** The first run of the path that was not visited, or the end of the path. */
  lemma FirstMissed(s: Store, m: Stopper, path: seq<RunId>) returns (i: nat)
    ensures i <= |path| && forall j :: 0 <= j < i ==> path[j] in m.visited
    ensures i < |path| ==> path[i] !in m.visited
  {
    i := 0;
    while i < |path| && path[i] in m.visited
      invariant i <= |path| && forall j :: 0 <= j < i ==> path[j] in m.visited
    {
      i := i + 1;
    }
  }

  /** In every interleaving: a run below the stopped one that is still active when the stop is through lies at or below
      a run that was out of its reach. */
  lemma OnlyOutOfReachGoesOn(s: Store, maxDepth: nat, r: RunId, steps: seq<Step>, path: seq<RunId>)
    requires Sound(s, maxDepth) && r in s.runs
    requires Play(s, maxDepth, r, steps).agenda == [] && !Play(s, maxDepth, r, steps).raised
    requires path != [] && path[0] == r && LifecycleRuns.DelegationPath(s, path)
    requires Active(Play(s, maxDepth, r, steps).store, path[|path| - 1])
    ensures exists i :: 0 <= i < |path| && OutOfReach(Play(s, maxDepth, r, steps), path[i])
  {
    hide Play, Sound, Active;
    VisitedHaveEnded(s, maxDepth, r, steps);
    var m := Play(s, maxDepth, r, steps);
    var i := FirstMissed(s, m, path);
    if i == |path| {
      assert OutOfReach(m, path[|path| - 1]);
    } else if i > 0 {
      LifecycleRuns.PathStep(s, path, i);
      assert OutOfReach(m, path[i]) || OutOfReach(m, path[i - 1]);
    } else {
      assert OutOfReach(m, path[0]);
    }
  }

  // ---------------------------------------------------------------- runs delegated while the stop is under way

  /** A run of the beginning has no delegation it did not have then. */
  ghost predicate NoNewRows(start: Store, s: Store) {
    && (forall b :: b in start.origins ==> b in s.origins)
    && (forall b :: b in s.delegations && b in start.origins ==>
          b in start.delegations && s.delegations[b].parent == start.delegations[b].parent)
  }

  lemma FamilyIsOld(start: Store, s: Store, s': Store)
    requires NoNewRows(start, s) && LifecycleRuns.SameFamily(s, s')
    ensures NoNewRows(start, s')
  {
  }

  lemma NoNewRowsNext(start: Store, s: Store, maxDepth: nat, e: Event)
    requires NoNewRows(start, s) && !e.Recover?
    ensures NoNewRows(start, Lifecycles.Next(s, maxDepth, e))
  {
    hide MarkNext, FinishNext, HasActive, MayDelegate, Append;
    match e
    case MarkRunning(r) =>
      LifecycleRuns.MarkKeepsFamily(s, r);
      FamilyIsOld(start, s, MarkNext(s, r));
    case Finish(r, ending) =>
      LifecycleRuns.FinishKeepsFamily(s, r, ending);
      FamilyIsOld(start, s, FinishNext(s, r, ending));
    case _ =>
  }

  lemma NoNewRowsGo(start: Store, m: Stopper)
    requires NoNewRows(start, m.store) && m.agenda != []
    ensures NoNewRows(start, GoNext(m).store)
  {
    hide NoNewRows, FinishNext;
    match m.agenda[0]
    case Settle(c) =>
      LifecycleRuns.FinishKeepsFamily(m.store, c, Failure(NO_HANDLE));
      FamilyIsOld(start, m.store, FinishNext(m.store, c, Failure(NO_HANDLE)));
    case Cancelling(c) =>
      LifecycleRuns.FinishKeepsFamily(m.store, c, Cancellation);
      FamilyIsOld(start, m.store, FinishNext(m.store, c, Cancellation));
    case _ =>
  }

  lemma {:induction false} AlwaysOldRows(s: Store, maxDepth: nat, r: RunId, steps: seq<Step>)
    ensures NoNewRows(s, Play(s, maxDepth, r, steps).store)
    decreases |steps|
  {
    hide NoNewRows, Lifecycles.Next, GoNext;
    if steps == [] {
      SameRowsAreOld(s);
    } else {
      var m, e := Play(s, maxDepth, r, steps[..|steps| - 1]), steps[|steps| - 1];
      AlwaysOldRows(s, maxDepth, r, steps[..|steps| - 1]);
      if e.Other? && !e.event.Recover? {
        NoNewRowsNext(s, m.store, maxDepth, e.event);
      } else if e.Go? && m.agenda != [] {
        NoNewRowsGo(s, m);
      }
    }
  }

  lemma SameRowsAreOld(s: Store)
    ensures NoNewRows(s, s)
  {
  }

  /** The run was started after the stop began, and after the stop had last listed its parent's children. */
  predicate Late(start: Store, m: Stopper, b: RunId) {
    b !in start.origins && b !in m.listed
  }

  /** Every run that stood in a list of children was visited or has ended, whenever it was delegated. */
  lemma ListedHaveEnded(s: Store, maxDepth: nat, r: RunId, steps: seq<Step>, b: RunId)
    requires Sound(s, maxDepth) && r in s.runs
    requires Play(s, maxDepth, r, steps).agenda == [] && !Play(s, maxDepth, r, steps).raised
    requires b in Play(s, maxDepth, r, steps).listed
    ensures b in Play(s, maxDepth, r, steps).visited || !Active(Play(s, maxDepth, r, steps).store, b)
  {
    hide Play, Sound, RowsStay, Active;
    AlwaysOk(s, maxDepth, r, steps);
    assert ListOk(Play(s, maxDepth, r, steps), b);
  }

  /** In every interleaving, for the delegations as they are at the end: a run below the stopped one that is still
      active lies at or below a run that was out of the stop's reach, or that was delegated after the stop had last
      listed its parent's children. */
  lemma OnlyOutOfReachOrLateGoesOn(s: Store, maxDepth: nat, r: RunId, steps: seq<Step>, path: seq<RunId>)
    requires Sound(s, maxDepth) && r in s.runs
    requires Play(s, maxDepth, r, steps).agenda == [] && !Play(s, maxDepth, r, steps).raised
    requires path != [] && path[0] == r
    requires LifecycleRuns.DelegationPath(Play(s, maxDepth, r, steps).store, path)
    requires Active(Play(s, maxDepth, r, steps).store, path[|path| - 1])
    ensures exists i :: 0 <= i < |path| && (OutOfReach(Play(s, maxDepth, r, steps), path[i])
                                           || (i > 0 && Late(s, Play(s, maxDepth, r, steps), path[i])))
  {
    hide Play, Sound, Active;
    VisitedHaveEnded(s, maxDepth, r, steps);
    AlwaysOldRows(s, maxDepth, r, steps);
    var m := Play(s, maxDepth, r, steps);
    var i := FirstMissed(s, m, path);
    if i == |path| {
      assert OutOfReach(m, path[|path| - 1]);
    } else if i == 0 {
      assert OutOfReach(m, path[0]);
    } else {
      LifecycleRuns.PathStep(m.store, path, i);
      if path[i] in m.listed {
        ListedHaveEnded(s, maxDepth, r, steps, path[i]);
        assert OutOfReach(m, path[i]);
      } else if path[i] in s.origins {
        assert OutOfReach(m, path[i]) || OutOfReach(m, path[i - 1]);
      } else {
        assert Late(s, m, path[i]);
      }
    }
  }

  // ---------------------------------------------------------------- what the caller is told

  /** The answer for a run says whether it has ended. */
  predicate AnswerOk(m: Stopper, c: RunId) {
    && c in m.store.origins
    && (c in m.answers ==> if m.answers[c].CancellationTimedOut? then c in m.stuck else !Active(m.store, c))
  }

  /** These have been looked up, and by the time of the final read the run has ended. */
  predicate ActionOk(m: Stopper, a: Action) {
    match a
    case Settle(c) => c in m.store.origins
    case Cancelling(c) => c in m.store.origins
    case Fetch(c) => c in m.store.origins && !Active(m.store, c)
    case _ => true
  }

  ghost predicate AnswersOk(m: Stopper) {
    && (forall c :: c in m.answers ==> AnswerOk(m, c))
    && (forall a :: a in m.agenda ==> ActionOk(m, a))
  }

  lemma AnswersMove(m: Stopper, s': Store)
    requires AnswersOk(m) && LifecycleRuns.Advances(m.store, s')
    ensures AnswersOk(m.(store := s'))
  {
    hide LifecycleRuns.Advances, Active;
    var m' := m.(store := s');
    forall c | c in m.answers
      ensures AnswerOk(m', c)
    {
      assert AnswerOk(m, c);
      StaysEnded(m.store, s', c);
    }
    forall a | a in m'.agenda
      ensures ActionOk(m', a)
    {
      assert ActionOk(m, a);
      if a.Settle? || a.Cancelling? || a.Fetch? {
        StaysEnded(m.store, s', a.run);
      }
    }
  }

  lemma AnswersThen(m: Stopper, actions: seq<Action>)
    requires AnswersOk(m) && m.agenda != [] && forall a :: a in actions ==> ActionOk(m, a)
    ensures AnswersOk(Then(m, actions)) && AnswersOk(Raise(m))
  {
    hide ActionOk, Active;
    assert forall c :: c in m.answers ==> AnswerOk(m, c) && AnswerOk(Then(m, actions), c) && AnswerOk(Raise(m), c);
    forall a | a in Then(m, actions).agenda
      ensures ActionOk(Then(m, actions), a)
    {
      assert a in actions || a in m.agenda[1..];
      SameAction(m, Then(m, actions), a);
    }
  }

  lemma SameAction(m: Stopper, m': Stopper, a: Action)
    requires m'.store == m.store
    ensures ActionOk(m', a) <==> ActionOk(m, a)
  {
  }

  lemma AnswersAdd(m: Stopper, c: RunId, answer: StopResult, more: set<RunId>)
    requires AnswersOk(m) && c in m.store.origins
    requires if answer.CancellationTimedOut? then c in more else !Active(m.store, c)
    ensures AnswersOk(Answered(m.(stuck := m.stuck + more), c, answer))
    ensures more == {} ==> AnswersOk(Answered(m, c, answer))
  {
    hide Active;
    assert more == {} ==> m.stuck + more == m.stuck;
    var m' := Answered(m.(stuck := m.stuck + more), c, answer);
    forall q | q in m'.answers
      ensures AnswerOk(m', q)
    {
      assert q != c ==> AnswerOk(m, q);
    }
    assert forall a :: a in m'.agenda ==> ActionOk(m, a) && ActionOk(m', a);
  }

  lemma AnswersBeside(m: Stopper, visited: set<RunId>, listed: set<RunId>)
    requires AnswersOk(m)
    ensures AnswersOk(m.(visited := visited, listed := listed))
  {
    hide Active;
    var m' := m.(visited := visited, listed := listed);
    assert forall c :: c in m.answers ==> AnswerOk(m, c) && AnswerOk(m', c);
    assert forall a :: a in m'.agenda ==> ActionOk(m, a) && ActionOk(m', a);
  }

  lemma FinishAnswers(m: Stopper, c: RunId, ending: Ending)
    requires AnswersOk(m) && !ending.Success?
    ensures AnswersOk(m.(store := FinishNext(m.store, c, ending))) && !Active(FinishNext(m.store, c, ending), c)
    ensures c in m.store.origins ==> c in FinishNext(m.store, c, ending).origins
  {
    hide AnswersOk, FinishNext;
    LifecycleRuns.FinishAdvances(m.store, c, ending);
    FinishOnlyEnds(m.store, c, ending, {});
    AnswersMove(m, FinishNext(m.store, c, ending));
  }

  lemma GoAnswers(m: Stopper, maxDepth: nat)
    requires Sound(m.store, maxDepth) && AnswersOk(m) && m.agenda != []
    ensures AnswersOk(GoNext(m))
  {
    hide Sound, FinishNext, AnswersOk, Active;
    LifecycleRuns.RunsHaveOrigins(m.store, maxDepth);
    HeadAction(m);
    AnswersThen(m, []);
    match m.agenda[0]
    case Stop(c) =>
      AnswersThen(m, [Descend(c)]);
      if c in m.store.runs {
        StopAnswers(m, c);
      }
    case Descend(_) =>
    case Visit(children) =>
      if children != [] {
        AnswersThen(m, [Visit(children[1..])]);
        AnswersThen(m, [Descend(children[0]), Stop(children[0]), Visit(children[1..])]);
      }
    case Settle(c) => SettleAnswers(m, c);
    case Cancelling(c) =>
      if c !in m.store.tasks {
        FinishAnswers(m, c, Cancellation);
        AnswersThen(m.(store := FinishNext(m.store, c, Cancellation)), [Fetch(c)]);
      }
    case Fetch(c) =>
      if c in m.store.runs {
        AnswersAdd(Then(m, []), c, Stopped, {});
      }
  }

  lemma HeadAction(m: Stopper)
    requires AnswersOk(m) && m.agenda != []
    ensures ActionOk(m, m.agenda[0])
  {
  }

  lemma StopAnswers(m: Stopper, c: RunId)
    requires AnswersOk(m) && m.agenda != [] && c in m.store.runs && c in m.store.origins
    ensures AnswersOk(StopNext(m, c))
  {
    hide AnswersOk;
    AnswersThen(m, []);
    AnswersThen(m, [Descend(c), Settle(c)]);
    if Terminal(m.store.runs[c].status) {
      AnswersAdd(Then(m, []), c, AlreadyEnded, {});
    } else {
      AnswersBeside(Then(m, [Descend(c), Settle(c)]), m.visited + {c}, m.listed);
    }
  }

  lemma SettleAnswers(m: Stopper, c: RunId)
    requires AnswersOk(m) && m.agenda != [] && c in m.store.origins
    ensures AnswersOk(SettleNext(m, c))
  {
    hide AnswersOk, FinishNext;
    AnswersThen(m, [Cancelling(c)]);
    if c !in m.store.tasks {
      FinishAnswers(m, c, Failure(NO_HANDLE));
      var ended := m.(store := FinishNext(m.store, c, Failure(NO_HANDLE)));
      AnswersThen(ended, []);
      AnswersAdd(Then(ended, []), c, NoHandle, {});
    }
  }

  lemma AnswersNext(m: Stopper, maxDepth: nat, e: Step)
    requires Sound(m.store, maxDepth) && AnswersOk(m)
    ensures AnswersOk(Next(m, maxDepth, e))
  {
    hide Sound, AnswersOk, GoNext, Lifecycles.Next, Active;
    match e
    case Other(event) =>
      LifecycleRuns.AdvancesNext(m.store, maxDepth, event);
      AnswersMove(m, Lifecycles.Next(m.store, maxDepth, event));
    case Go =>
      if m.agenda != [] {
        GoAnswers(m, maxDepth);
      }
    case List(children) =>
      if m.agenda != [] {
        AnswersThen(m, [Visit(children)]);
        AnswersBeside(Then(m, [Visit(children)]), m.visited, m.listed + Elements(children));
      }
    case TimesOut =>
      if m.agenda != [] {
        HeadAction(m);
        AnswersThen(m, []);
        if m.agenda[0].Cancelling? {
          AnswersAdd(Then(m, []), m.agenda[0].run, CancellationTimedOut, {m.agenda[0].run});
        }
      }
  }

  /** In every interleaving: whatever `stop_run` answers for a run, the run has ended, unless the answer is that its
      cancellation timed out. */
  lemma {:induction false} AnswersAreTrue(s: Store, maxDepth: nat, r: RunId, steps: seq<Step>)
    requires Sound(s, maxDepth) && r in s.runs
    ensures AnswersOk(Play(s, maxDepth, r, steps))
    decreases |steps|
  {
    hide Sound, Next, AnswersOk;
    if steps == [] {
      NoAnswersYet(s, r);
    } else {
      AnswersAreTrue(s, maxDepth, r, steps[..|steps| - 1]);
      AlwaysOk(s, maxDepth, r, steps[..|steps| - 1]);
      AnswersNext(Play(s, maxDepth, r, steps[..|steps| - 1]), maxDepth, steps[|steps| - 1]);
    }
  }

  lemma NoAnswersYet(s: Store, r: RunId)
    ensures AnswersOk(Stopper(s, [Stop(r)], {}, {}, {}, map[], false))
  {
  }

  lemma PlayLast(s: Store, maxDepth: nat, r: RunId, steps: seq<Step>, k: nat)
    requires k < |steps|
    ensures Play(s, maxDepth, r, steps[..k + 1]) == Next(Play(s, maxDepth, r, steps[..k]), maxDepth, steps[k])
  {
    hide Next;
    assert steps[..k + 1][..k] == steps[..k];
  }

  /** The step ends a call of `stop_run` for this run: it had ended, its task is gone, its cancellation timed out, or it
      was read after its cancellation. */
  ghost predicate AnswersNow(m: Stopper, e: Step, c: RunId) {
    && m.agenda != []
    && match m.agenda[0]
       case Stop(q) => q == c && e.Go? && c in m.store.runs && Terminal(m.store.runs[c].status)
       case Settle(q) => q == c && e.Go? && c !in m.store.tasks
       case Cancelling(q) => q == c && e.TimesOut? && c in m.store.tasks
       case Fetch(q) => q == c && e.Go? && c in m.store.runs
       case _ => false
  }

  /** Which answer each such end gives; no other step gives one. */
  lemma AnswerStep(m: Stopper, maxDepth: nat, e: Step, c: RunId)
    ensures var m' := Next(m, maxDepth, e);
            if AnswersNow(m, e, c) then
              && c in m'.answers && (m'.answers[c].NoHandle? <==> m.agenda[0] == Settle(c))
              && m'.answers[c] == match m.agenda[0]
                                  case Stop(_) => AlreadyEnded
                                  case Settle(_) => NoHandle
                                  case Cancelling(_) => CancellationTimedOut
                                  case _ => Stopped
            else (c in m'.answers <==> c in m.answers) && (c in m.answers ==> m'.answers[c] == m.answers[c])
  {
    hide Lifecycles.Next, FinishNext, Terminal;
  }

  /** The last answer for the run was given in this step. */
  ghost predicate LastAnswer(s: Store, maxDepth: nat, r: RunId, steps: seq<Step>, k: nat, c: RunId) {
    && k < |steps|
    && AnswersNow(Play(s, maxDepth, r, steps[..k]), steps[k], c)
    && forall j :: k < j < |steps| ==> !AnswersNow(Play(s, maxDepth, r, steps[..j]), steps[j], c)
  }

  lemma {:induction false} LastAnswerStands(s: Store, maxDepth: nat, r: RunId, steps: seq<Step>, k: nat, c: RunId)
    requires LastAnswer(s, maxDepth, r, steps, k, c)
    ensures c in Play(s, maxDepth, r, steps).answers
    ensures Play(s, maxDepth, r, steps).answers[c].NoHandle?
            <==> Play(s, maxDepth, r, steps[..k]).agenda[0] == Settle(c)
    decreases |steps|
  {
    hide Next, AnswersNow;
    var front := steps[..|steps| - 1];
    AnswerStep(Play(s, maxDepth, r, front), maxDepth, steps[|steps| - 1], c);
    assert forall j :: 0 <= j <= |front| ==> front[..j] == steps[..j];
    if k < |front| {
      LastAnswerStands(s, maxDepth, r, front, k, c);
    }
  }

  lemma {:induction false} SomeLastAnswer(s: Store, maxDepth: nat, r: RunId, steps: seq<Step>, c: RunId)
      returns (k: nat)
    requires c in Play(s, maxDepth, r, steps).answers
    ensures LastAnswer(s, maxDepth, r, steps, k, c)
    decreases |steps|
  {
    hide Next, AnswersNow;
    var front := steps[..|steps| - 1];
    AnswerStep(Play(s, maxDepth, r, front), maxDepth, steps[|steps| - 1], c);
    assert forall j :: 0 <= j <= |front| ==> front[..j] == steps[..j];
    if AnswersNow(Play(s, maxDepth, r, front), steps[|steps| - 1], c) {
      k := |front|;
    } else {
      k := SomeLastAnswer(s, maxDepth, r, front, c);
    }
  }

  /** The last look for the run's task found none. */
  ghost predicate FoundNoTask(s: Store, maxDepth: nat, r: RunId, steps: seq<Step>, k: nat, c: RunId) {
    && LastAnswer(s, maxDepth, r, steps, k, c)
    && Play(s, maxDepth, r, steps[..k]).agenda[0] == Settle(c)
    && c !in Play(s, maxDepth, r, steps[..k]).store.tasks
  }

  lemma AnsweredWithoutTask(s: Store, maxDepth: nat, r: RunId, steps: seq<Step>, k: nat, c: RunId)
    requires LastAnswer(s, maxDepth, r, steps, k, c) && Play(s, maxDepth, r, steps[..k]).agenda[0] == Settle(c)
    ensures steps[k] == Go && c !in Play(s, maxDepth, r, steps[..k]).store.tasks
  {
    hide Play;
  }

  lemma SettlesWithoutTask(m: Stopper, maxDepth: nat, c: RunId)
    requires m.agenda != [] && m.agenda[0] == Settle(c) && c !in m.store.tasks
    ensures var s' := Next(m, maxDepth, Go).store;
            if Active(m.store, c)
            then s'.runs == m.store.runs[c := m.store.runs[c].(status := Failed, error := Some(NO_HANDLE))]
            else s' == m.store
  {
    hide Append, LogOf;
  }

  /** In every interleaving: the answer is the conflict of a missing handle exactly when the task was gone once
      everything below had been stopped. */
  lemma NoHandleExactly(s: Store, maxDepth: nat, r: RunId, steps: seq<Step>, c: RunId)
    ensures var m := Play(s, maxDepth, r, steps);
            c in m.answers && m.answers[c].NoHandle?
            <==> exists k: nat :: FoundNoTask(s, maxDepth, r, steps, k, c)
  {
    hide Play, LastAnswer;
    var m := Play(s, maxDepth, r, steps);
    if c in m.answers && m.answers[c].NoHandle? {
      var k := SomeLastAnswer(s, maxDepth, r, steps, c);
      LastAnswerStands(s, maxDepth, r, steps, k, c);
      AnsweredWithoutTask(s, maxDepth, r, steps, k, c);
      assert FoundNoTask(s, maxDepth, r, steps, k, c);
    }
    if k: nat :| FoundNoTask(s, maxDepth, r, steps, k, c) {
      LastAnswerStands(s, maxDepth, r, steps, k, c);
    }
  }

  /** A run that has ended by then, as it does with its task, stays just as it is; one that has not is failed. */
  lemma NoHandleKeepsTheEnded(s: Store, maxDepth: nat, r: RunId, steps: seq<Step>, k: nat, c: RunId)
    requires FoundNoTask(s, maxDepth, r, steps, k, c)
    ensures k < |steps|
    ensures var m, m' := Play(s, maxDepth, r, steps[..k]), Play(s, maxDepth, r, steps[..k + 1]);
            if Active(m.store, c)
            then m'.store.runs
                 == m.store.runs[c := m.store.runs[c].(status := Failed, error := Some(NO_HANDLE))]
            else m'.store == m.store
  {
    hide Play;
    AnsweredWithoutTask(s, maxDepth, r, steps, k, c);
    PlayLast(s, maxDepth, r, steps, k);
    SettlesWithoutTask(Play(s, maxDepth, r, steps[..k]), maxDepth, c);
  }

  /** Once a cancelled task is over, its run is cancelled, unless it ended in some other way first. */
  lemma CancelledUnlessEnded(s: Store, maxDepth: nat, r: RunId, steps: seq<Step>, k: nat, c: RunId)
    requires k < |steps| && steps[k].Go?
    requires Play(s, maxDepth, r, steps[..k]).agenda != [] && c !in Play(s, maxDepth, r, steps[..k]).store.tasks
    requires Play(s, maxDepth, r, steps[..k]).agenda[0] == Cancelling(c)
    ensures var m, m' := Play(s, maxDepth, r, steps[..k]), Play(s, maxDepth, r, steps[..k + 1]);
            if Active(m.store, c)
            then m'.store.runs == m.store.runs[c := m.store.runs[c].(status := Cancelled)]
            else m'.store == m.store
  {
    hide Play;
    PlayLast(s, maxDepth, r, steps, k);
    hide Append, LogOf;
  }

  lemma EndsMeanwhile(s: Store, maxDepth: nat, r: RunId, output: Text)
    requires s.serving && Active(s, r) && r in s.tasks && s.tasks[r].executing
    ensures var s' := Lifecycles.Next(Lifecycles.Next(s, maxDepth, Finish(r, Success(output))), maxDepth, TaskEnds(r));
            r in s'.runs && s'.runs[r].status.Succeeded? && r !in s'.tasks
  {
    hide Append, LogOf;
  }

  lemma GoesDown(s: Store, maxDepth: nat, r: RunId)
    requires Active(s, r) && ListsChildren(s, r, [])
    ensures var m := Next(Stopper(s, [Stop(r)], {}, {}, {}, map[], false), maxDepth, Go);
            Next(Next(m, maxDepth, List([])), maxDepth, Go) == Stopper(s, [Settle(r)], {r}, {}, {}, map[], false)
  {
    var m := Next(Stopper(s, [Stop(r)], {}, {}, {}, map[], false), maxDepth, Go);
    assert m == Stopper(s, [Descend(r), Settle(r)], {r}, {}, {}, map[], false);
    assert Next(m, maxDepth, List([])) == Stopper(s, [Visit([]), Settle(r)], {r}, {}, {}, map[], false);
  }

  lemma FindsNoTask(s: Store, maxDepth: nat, r: RunId)
    requires r !in s.tasks && !Active(s, r)
    ensures Next(Stopper(s, [Settle(r)], {r}, {}, {}, map[], false), maxDepth, Go)
            == Stopper(s, [], {r}, {}, {}, map[r := NoHandle], false)
  {
  }

  lemma OthersGoOn(m: Stopper, maxDepth: nat, r: RunId, output: Text)
    ensures Next(Next(m, maxDepth, Other(Finish(r, Success(output)))), maxDepth, Other(TaskEnds(r)))
            == m.(store := Lifecycles.Next(Lifecycles.Next(m.store, maxDepth, Finish(r, Success(output))), maxDepth,
                                           TaskEnds(r)))
  {
    hide Lifecycles.Next;
  }

  /** For example, a run that succeeds while it is being stopped: it keeps its output, and the answer is the conflict
      that it has no live execution handle. */
  lemma SuccessMayAnswerNoHandle(s: Store, maxDepth: nat, r: RunId, output: Text)
    requires s.serving && Active(s, r) && r in s.tasks && s.tasks[r].executing && ListsChildren(s, r, [])
    ensures var m := Play(s, maxDepth, r,
                          [Go, List([]), Go, Other(Finish(r, Success(output))), Other(TaskEnds(r)), Go]);
            && m.agenda == [] && !m.raised && m.answers == map[r := NoHandle]
            && r in m.store.runs && m.store.runs[r].status.Succeeded?
  {
    hide Lifecycles.Next, Next;
    var steps := [Go, List([]), Go, Other(Finish(r, Success(output))), Other(TaskEnds(r)), Go];
    var s' := Lifecycles.Next(Lifecycles.Next(s, maxDepth, Finish(r, Success(output))), maxDepth, TaskEnds(r));
    EndsMeanwhile(s, maxDepth, r, output);
    GoesDown(s, maxDepth, r);
    FindsNoTask(s', maxDepth, r);
    OthersGoOn(Stopper(s, [Settle(r)], {r}, {}, {}, map[], false), maxDepth, r, output);
    PlayLast(s, maxDepth, r, steps, 0);
    PlayLast(s, maxDepth, r, steps, 1);
    PlayLast(s, maxDepth, r, steps, 2);
    PlayLast(s, maxDepth, r, steps, 3);
    PlayLast(s, maxDepth, r, steps, 4);
    PlayLast(s, maxDepth, r, steps, 5);
    assert steps[..0] == [] && steps[..6] == steps;
  }
}
