/** What services/tools.py and services/remote.py promise over whole histories, and what a restart makes of the ledger
    they leave. */
module ToolRuns {
  import opened Prelude
  import opened Tools
  import Json
  import Recoveries

  ghost function Run(events: seq<Event>): Desk {
    if events == [] then INITIAL else Next(Run(events[..|events| - 1]), events[|events| - 1])
  }

  lemma StartsSound()
    ensures Sound(INITIAL)
  {
  }

  /** The invariant holds after every history. */
  lemma {:induction false} AlwaysSound(events: seq<Event>)
    ensures Sound(Run(events))
    decreases |events|
  {
    hide Sound, Next;
    if events == [] {
      StartsSound();
    } else {
      AlwaysSound(events[..|events| - 1]);
      SoundNext(Run(events[..|events| - 1]), events[|events| - 1]);
    }
  }

  lemma LastStep(events: seq<Event>, k: nat)
    requires k < |events|
    ensures Run(events[..k + 1]) == Next(Run(events[..k]), events[k])
  {
    hide Sound, Next;
    assert events[..k + 1][..k] == events[..k];
  }

  // ---------------------------------------------------------------- decided once

  /** Decided approvals stay as they are, and executions keep their run, kind and approval. */
  ghost predicate Keeps(s: Desk, s': Desk) {
    && |s.approvals| <= |s'.approvals|
    && (forall p :: 0 <= p < |s.approvals| && !s.approvals[p].status.Pending? ==> s'.approvals[p] == s.approvals[p])
    && |s.executions| <= |s'.executions|
    && (forall x :: 0 <= x < |s.executions| ==> SameExecution(s.executions[x], s'.executions[x]))
  }

  predicate SameExecution(q: Execution, q': Execution) {
    && q'.run == q.run
    && q'.controlled == q.controlled
    && (q.approval.Some? ==> q'.approval == q.approval)
    && (q.launched ==> q'.launched)
  }

  lemma KeepsThrough(s: Desk, t: Desk, u: Desk)
    requires Keeps(s, t) && Keeps(t, u)
    ensures Keeps(s, u)
  {
    forall x | 0 <= x < |s.executions|
      ensures SameExecution(s.executions[x], u.executions[x])
    {
      assert SameExecution(s.executions[x], t.executions[x]) && SameExecution(t.executions[x], u.executions[x]);
    }
  }

  lemma SettleKeeps(s: Desk, p: nat, status: ApprovalStatus)
    requires p < |s.approvals| && s.approvals[p].status.Pending?
    ensures Keeps(s, Settle(s, p, status))
  {
  }

  lemma SetPhaseKeeps(s: Desk, x: nat, phase: Phase)
    requires x < |s.executions|
    ensures Keeps(s, SetPhase(s, x, phase))
  {
  }

  lemma WaitEndsKeeps(s: Desk, x: nat)
    ensures Keeps(s, WakeNext(s, x)) && Keeps(s, TimeOutNext(s, x)) && Keeps(s, CancelWaitNext(s, x))
  {
    hide Keeps, Settle, SetPhase;
    Itself(s);
    if At(s, x, Waiting) && s.executions[x].approval.Some? && s.executions[x].approval.value < |s.approvals| {
      var p := s.executions[x].approval.value;
      SetPhaseKeeps(s, x, Cleared);
      SetPhaseKeeps(s, x, Finished);
      SetPhaseKeeps(s, x, Dead);
      if s.approvals[p].status.Pending? {
        SettleKeeps(s, p, Expired);
        SettleKeeps(s, p, Cancelled);
        SettleLeavesExecutions(s, p);
        SetPhaseKeeps(Settle(s, p, Expired), x, Finished);
        SetPhaseKeeps(Settle(s, p, Cancelled), x, Dead);
        KeepsThrough(s, Settle(s, p, Expired), SetPhase(Settle(s, p, Expired), x, Finished));
        KeepsThrough(s, Settle(s, p, Cancelled), SetPhase(Settle(s, p, Cancelled), x, Dead));
      }
    }
  }

  lemma SettleLeavesExecutions(s: Desk, p: nat)
    requires p < |s.approvals|
    ensures Settle(s, p, Expired).executions == s.executions && Settle(s, p, Cancelled).executions == s.executions
  {
  }

  lemma Itself(s: Desk)
    ensures Keeps(s, s)
  {
  }

  lemma AskKeeps(s: Desk, x: nat)
    requires Sound(s)
    ensures Keeps(s, AskNext(s, x))
  {
    hide Sound;
    if At(s, x, Invoked) {
      GateAndTrace(s, x);
    }
  }

  lemma OneMoves(s: Desk, s': Desk, x: nat)
    requires x < |s.executions| == |s'.executions| && s'.approvals == s.approvals
    requires s'.executions == s.executions[x := s'.executions[x]]
    requires SameExecution(s.executions[x], s'.executions[x])
    ensures Keeps(s, s')
  {
  }

  lemma RecordingKeeps(s: Desk, x: nat)
    ensures Keeps(s, IntentNext(s, x)) && Keeps(s, StartedNext(s, x))
  {
    hide Keeps;
    Itself(s);
    if x < |s.executions| {
      OneMoves(s, IntentNext(s, x), x);
      OneMoves(s, StartedNext(s, x), x);
    }
  }

  lemma WorkKeeps(s: Desk, x: nat, outcome: Outcome)
    ensures Keeps(s, LaunchNext(s, x)) && Keeps(s, ObserveNext(s, x, outcome))
  {
    hide Keeps, ReportOf;
    Itself(s);
    if x < |s.executions| {
      OneMoves(s, LaunchNext(s, x), x);
      OneMoves(s, ObserveNext(s, x, outcome), x);
    }
  }

  lemma AwaitKeeps(s: Desk, x: nat)
    ensures Keeps(s, AwaitNext(s, x))
  {
    hide Keeps;
    Itself(s);
    if x < |s.executions| {
      OneMoves(s, AwaitNext(s, x), x);
    }
  }

  lemma EndingKeeps(s: Desk, x: nat)
    ensures Keeps(s, ReportNext(s, x)) && Keeps(s, AbortNext(s, x))
  {
    hide Keeps;
    Itself(s);
    if x < |s.executions| {
      OneMoves(s, ReportNext(s, x), x);
      OneMoves(s, AbortNext(s, x), x);
    }
  }

  lemma OthersKeep(s: Desk, e: Event)
    requires IsRunEvent(e) || e.Invoke? || e.Crash?
    ensures Keeps(s, Next(s, e))
  {
  }

  lemma KeepsNext(s: Desk, e: Event)
    requires Sound(s)
    ensures Keeps(s, Next(s, e))
  {
    hide Sound, Keeps, Settle, AskNext, AwaitNext, WakeNext, TimeOutNext, CancelWaitNext, IntentNext, StartedNext,
      LaunchNext, ObserveNext, ReportNext, AbortNext;
    Itself(s);
    match e
    case Ask(x) => AskKeeps(s, x);
    case AwaitDecision(x) => AwaitKeeps(s, x);
    case Decide(p, approved, overdue) =>
      if Undecided(s, p) {
        SettleKeeps(s, p, if overdue then Expired else if approved then Approved else Rejected);
      }
    case CancelApproval(p) =>
      if Undecided(s, p) {
        SettleKeeps(s, p, Cancelled);
      }
    case Wake(x) => WaitEndsKeeps(s, x);
    case WaitTimesOut(x) => WaitEndsKeeps(s, x);
    case WaitIsCancelled(x) => WaitEndsKeeps(s, x);
    case RecordIntent(x) => RecordingKeeps(s, x);
    case RecordStarted(x) => RecordingKeeps(s, x);
    case Launch(x) => WorkKeeps(s, x, Opened);
    case Observe(x, outcome) => WorkKeeps(s, x, outcome);
    case Report(x) => EndingKeeps(s, x);
    case Abort(x) => EndingKeeps(s, x);
    case _ => OthersKeep(s, e);
  }

  lemma {:induction false} HistoryKeeps(events: seq<Event>, k: nat, m: nat)
    requires k <= m <= |events|
    ensures Keeps(Run(events[..k]), Run(events[..m]))
    decreases m - k
  {
    hide Run, Sound, Next, Keeps;
    if k == m {
      Itself(Run(events[..k]));
    } else {
      HistoryKeeps(events, k, m - 1);
      LastStep(events, m - 1);
      AlwaysSound(events[..m - 1]);
      KeepsNext(Run(events[..m - 1]), events[m - 1]);
      KeepsThrough(Run(events[..k]), Run(events[..m - 1]), Run(events[..m]));
    }
  }

  /** An approval leaves PENDING at most once: once decided, expired or cancelled it stays so. */
  lemma DecidedOnce(events: seq<Event>, k: nat, m: nat, p: nat)
    requires k <= m <= |events| && p < |Run(events[..k]).approvals|
    requires !Run(events[..k]).approvals[p].status.Pending?
    ensures p < |Run(events[..m]).approvals| && Run(events[..m]).approvals[p] == Run(events[..k]).approvals[p]
  {
    hide Run, Sound;
    HistoryKeeps(events, k, m);
  }

  // ---------------------------------------------------------------- the launch gate

  /** When the launcher runs, its execution's approval is approved and stays approved, and a ledger entry of its own
      reads STARTED, unless the run's row, and with it the entry, has been deleted. */
  lemma LaunchGate(events: seq<Event>, k: nat, x: nat)
    requires k < |events| && x in Run(events[..k + 1]).launches && x !in Run(events[..k]).launches
    ensures events[k] == Launch(x) && At(Run(events[..k]), x, Started)
    ensures var p := Run(events[..k]).executions[x].approval;
            && p.Some? && p.value < |Run(events[..k]).approvals| && p.value < |Run(events).approvals|
            && Run(events[..k]).approvals[p.value].status.Approved?
            && Run(events).approvals[p.value].status.Approved?
    ensures var s := Run(events[..k]);
            var e := s.executions[x].entry;
            && e.Some?
            && (e.value in s.ledger <==> s.executions[x].run in s.runs)
            && (e.value in s.ledger ==> s.ledger[e.value].status.Started? && s.ledger[e.value].execution == x)
  {
    hide Run, Sound;
    var s := Run(events[..k]);
    AlwaysSound(events[..k]);
    LastStep(events, k);
    OnlyLaunchLaunches(s, events[k], x);
    GateAndTrace(s, x);
    HistoryKeeps(events, k, |events|);
    assert events[..|events|] == events;
  }

  lemma OnlyLaunchLaunches(s: Desk, e: Event, x: nat)
    requires x in Next(s, e).launches && x !in s.launches
    ensures e == Launch(x) && At(s, x, Started) && s.executions[x].controlled
  {
  }

  /** The launcher runs at most once per execution and at most once per approval, and never for an approval that ends
      rejected, expired or cancelled. */
  lemma LaunchesArePaidFor(events: seq<Event>, x: nat, y: nat)
    requires x in Run(events).launches && y in Run(events).launches
    ensures Distinct(Run(events).launches)
    ensures x < |Run(events).executions| && y < |Run(events).executions|
    ensures Run(events).executions[x].approval.Some?
    ensures Run(events).executions[x].approval.value < |Run(events).approvals|
    ensures Run(events).approvals[Run(events).executions[x].approval.value].status.Approved?
    ensures Run(events).executions[y].approval == Run(events).executions[x].approval ==> y == x
  {
    hide Run, Sound;
    var s := Run(events);
    AlwaysSound(events);
    LaunchHistory(s);
    GateAndTrace(s, x);
    OneApprovalEach(s, x, y);
  }

  lemma LaunchHistory(s: Desk)
    requires Sound(s)
    ensures Distinct(s.launches)
    ensures forall x :: x in s.launches ==> x < |s.executions| && s.executions[x].launched
  {
  }

  lemma OneApprovalEach(s: Desk, x: nat, y: nat)
    requires Sound(s) && x < |s.executions| && y < |s.executions|
    ensures s.executions[x].approval.Some? && s.executions[x].approval == s.executions[y].approval ==> x == y
  {
    hide ApprovalsOk, TracesOk, LaunchesOk, GateOk;
    if x < y {
      assert s.executions[x].approval.Some? ==> s.executions[x].approval != s.executions[y].approval;
    }
  }

  lemma DeleteLeaves(s: Desk, r: RunId)
    requires r in s.runs && s.runs[r]
    ensures var d := Next(Next(s, GiveUpRun(r)), DeleteRun(r));
            d.executions == s.executions && r !in d.runs
  {
  }

  /** A shutdown that gives up on a run whose execution has recorded its intent, and then the deletion of its agent,
      remove the ledger entry; the update to STARTED then changes nothing, and the launcher runs without an entry. */
  lemma DeletedRunLaunchesUnrecorded(s: Desk, x: nat)
    requires Sound(s) && At(s, x, Intended) && s.executions[x].controlled
    requires s.executions[x].run in s.runs && s.runs[s.executions[x].run]
    ensures var r := s.executions[x].run;
            var started := Next(Next(Next(s, GiveUpRun(r)), DeleteRun(r)), RecordStarted(x));
            && x in Next(started, Launch(x)).launches
            && s.executions[x].entry.Some?
            && s.executions[x].entry.value !in Next(started, Launch(x)).ledger
  {
    hide Sound;
    var r := s.executions[x].run;
    var deleted := Next(Next(s, GiveUpRun(r)), DeleteRun(r));
    GateAndTrace(s, x);
    SoundNext(s, GiveUpRun(r));
    SoundNext(Next(s, GiveUpRun(r)), DeleteRun(r));
    DeleteLeaves(s, r);
    GateAndTrace(deleted, x);
    hide RunNext;
  }

  lemma {:induction false} Replays(events: seq<Event>, states: seq<Desk>)
    requires |states| == |events| + 1 && states[0] == INITIAL
    requires forall k :: 0 <= k < |events| ==> Next(states[k], events[k]) == states[k + 1]
    ensures Run(events) == states[|events|]
  {
    hide Next;
    if events != [] {
      Replays(events[..|events| - 1], states[..|events|]);
    }
  }

  /** A desk with one run, one approval and one execution that waits for it or has gone on. */
  function OneOfEach(decision: Option<ApprovalStatus>, phase: Phase): Desk {
    Desk(map[0 := true], {0}, {}, [Approval(if decision.Some? then decision.value else Pending, decision)], 0,
         [Execution(0, true, phase, Some(0), None, false)], map[], 0, [])
  }

  /** The same once the intent is recorded. */
  function Recorded(runs: map<RunId, bool>, abandoned: set<RunId>, ledger: map<nat, Entry>, phase: Phase,
                    launches: seq<nat>): Desk
  {
    Desk(runs, {0}, abandoned, [Approval(Approved, Some(Approved))], 0,
         [Execution(0, true, phase, Some(0), Some(0), launches != [])], ledger, 1, launches)
  }

  const UNRECORDED := [BeginRun(0), Invoke(0, true), Ask(0), AwaitDecision(0), Decide(0, true, false), Wake(0),
                       RecordIntent(0), GiveUpRun(0), DeleteRun(0), RecordStarted(0), Launch(0)]

  lemma UntilAsked(begun: Desk, invoked: Desk)
    requires begun == Desk(map[0 := true], {0}, {}, [], 0, [], map[], 0, [])
    requires invoked == begun.(executions := [Execution(0, true, Invoked, None, None, false)])
    ensures Next(INITIAL, BeginRun(0)) == begun && Next(begun, Invoke(0, true)) == invoked
    ensures Next(invoked, Ask(0)) == OneOfEach(None, Asked)
  {
  }

  lemma UntilCleared()
    ensures Next(OneOfEach(None, Asked), AwaitDecision(0)) == OneOfEach(None, Waiting)
    ensures Next(OneOfEach(None, Waiting), Decide(0, true, false)) == OneOfEach(Some(Approved), Waiting)
    ensures Next(OneOfEach(Some(Approved), Waiting), Wake(0)) == OneOfEach(Some(Approved), Cleared)
  {
  }

  lemma UntilGivenUp(ledger: map<nat, Entry>)
    requires ledger == map[0 := Entry(0, 0, Recoveries.IntentRecorded)]
    ensures Next(OneOfEach(Some(Approved), Cleared), RecordIntent(0))
            == Recorded(map[0 := true], {}, ledger, Intended, [])
    ensures Next(Recorded(map[0 := true], {}, ledger, Intended, []), GiveUpRun(0))
            == Recorded(map[0 := false], {0}, ledger, Intended, [])
  {
  }

  lemma UntilDeleted(ledger: map<nat, Entry>)
    requires ledger == map[0 := Entry(0, 0, Recoveries.IntentRecorded)]
    ensures Next(Recorded(map[0 := false], {0}, ledger, Intended, []), DeleteRun(0))
            == Recorded(map[], {0}, map[], Intended, [])
  {
    var s' := Next(Recorded(map[0 := false], {0}, ledger, Intended, []), DeleteRun(0));
    assert s'.runs == map[] && s'.ledger == map[];
  }

  lemma UntilLaunched()
    ensures Next(Recorded(map[], {0}, map[], Intended, []), RecordStarted(0))
            == Recorded(map[], {0}, map[], Started, [])
    ensures Next(Recorded(map[], {0}, map[], Started, []), Launch(0)) == Recorded(map[], {0}, map[], Started, [0])
  {
  }

  lemma UnrecordedRun()
    ensures Run(UNRECORDED) == Recorded(map[], {0}, map[], Started, [0])
  {
    hide Next;
    var begun := Desk(map[0 := true], {0}, {}, [], 0, [], map[], 0, []);
    var invoked := begun.(executions := [Execution(0, true, Invoked, None, None, false)]);
    var ledger := map[0 := Entry(0, 0, Recoveries.IntentRecorded)];
    UntilAsked(begun, invoked);
    UntilCleared();
    UntilGivenUp(ledger);
    UntilDeleted(ledger);
    UntilLaunched();
    hide OneOfEach, Recorded;
    Replays(UNRECORDED,
            [INITIAL, begun, invoked, OneOfEach(None, Asked), OneOfEach(None, Waiting),
             OneOfEach(Some(Approved), Waiting), OneOfEach(Some(Approved), Cleared),
             Recorded(map[0 := true], {}, ledger, Intended, []),
             Recorded(map[0 := false], {0}, ledger, Intended, []),
             Recorded(map[], {0}, map[], Intended, []), Recorded(map[], {0}, map[], Started, []),
             Recorded(map[], {0}, map[], Started, [0])]);
  }

  /** From the start of the process: asked for, approved, given up on while it runs, deleted, and launched without a
      ledger entry. */
  lemma UnrecordedLaunchHappens()
    ensures var s := Run(UNRECORDED);
            s.launches == [0] && |s.executions| == 1 && s.executions[0].entry == Some(0) && 0 !in s.ledger
  {
    hide Run;
    UnrecordedRun();
  }

  // ---------------------------------------------------------------- nothing is launched unrecorded otherwise

  /** An execution in progress belongs to an active run, or to one that a shutdown gave up on. */
  ghost predicate LivesOk(s: Desk) {
    forall x :: 0 <= x < |s.executions| && Live(s.executions[x]) ==>
      var r := s.executions[x].run;
      r in s.abandoned || (r in s.runs && s.runs[r])
  }

  lemma LivesRuns(s: Desk, e: Event)
    requires LivesOk(s) && (IsRunEvent(e) || e.Invoke? || e.Crash?)
    requires s.runs.Keys <= s.everRun
    ensures LivesOk(Next(s, e))
  {
  }

  /** Any other step wakes no execution that was over, and leaves the runs as they are. */
  ghost predicate Steady(s: Desk, s': Desk) {
    && s'.runs == s.runs && s'.abandoned == s.abandoned && |s'.executions| == |s.executions|
    && forall x :: 0 <= x < |s.executions| && Live(s'.executions[x]) ==>
         Live(s.executions[x]) && s'.executions[x].run == s.executions[x].run
  }

  lemma WaitIsSteady(s: Desk, x: nat)
    ensures Steady(s, AskNext(s, x)) && Steady(s, AwaitNext(s, x)) && Steady(s, WakeNext(s, x))
    ensures Steady(s, TimeOutNext(s, x)) && Steady(s, CancelWaitNext(s, x))
  {
    hide Settled;
  }

  lemma LaunchIsSteady(s: Desk, x: nat, outcome: Outcome)
    ensures Steady(s, IntentNext(s, x)) && Steady(s, StartedNext(s, x)) && Steady(s, LaunchNext(s, x))
    ensures Steady(s, ObserveNext(s, x, outcome)) && Steady(s, ReportNext(s, x)) && Steady(s, AbortNext(s, x))
  {
    hide ReportOf;
  }

  lemma DecisionIsSteady(s: Desk, p: nat, approved: bool, overdue: bool)
    ensures Steady(s, DecideNext(s, p, approved, overdue)) && Steady(s, CancelNext(s, p))
  {
    hide Settled;
  }

  lemma WorkIsSteady(s: Desk, e: Event)
    requires !IsRunEvent(e) && !e.Invoke? && !e.Crash?
    ensures Steady(s, Next(s, e))
  {
    hide Steady, AskNext, AwaitNext, WakeNext, TimeOutNext, CancelWaitNext, DecideNext, CancelNext, IntentNext,
      StartedNext, LaunchNext, ObserveNext, ReportNext, AbortNext;
    match e
    case Decide(p, approved, overdue) => DecisionIsSteady(s, p, approved, overdue);
    case CancelApproval(p) => DecisionIsSteady(s, p, true, true);
    case Observe(x, outcome) => LaunchIsSteady(s, x, outcome);
    case Ask(x) => WaitIsSteady(s, x);
    case AwaitDecision(x) => WaitIsSteady(s, x);
    case Wake(x) => WaitIsSteady(s, x);
    case WaitTimesOut(x) => WaitIsSteady(s, x);
    case WaitIsCancelled(x) => WaitIsSteady(s, x);
    case RecordIntent(x) => LaunchIsSteady(s, x, Opened);
    case RecordStarted(x) => LaunchIsSteady(s, x, Opened);
    case Launch(x) => LaunchIsSteady(s, x, Opened);
    case Report(x) => LaunchIsSteady(s, x, Opened);
    case Abort(x) => LaunchIsSteady(s, x, Opened);
  }

  lemma SteadyLives(s: Desk, s': Desk)
    requires LivesOk(s) && Steady(s, s')
    ensures LivesOk(s')
  {
    forall x | 0 <= x < |s'.executions| && Live(s'.executions[x])
      ensures var r := s'.executions[x].run;
              r in s'.abandoned || (r in s'.runs && s'.runs[r])
    {
      assert Live(s.executions[x]) && s.executions[x].run == s'.executions[x].run;
    }
  }

  lemma {:induction false} AlwaysLives(events: seq<Event>)
    ensures LivesOk(Run(events))
    ensures forall r :: r in Run(events).abandoned ==> GiveUpRun(r) in events
    decreases |events|
  {
    hide LivesOk, Sound, Next, Steady;
    if events == [] {
      NoneYet();
    } else {
      var front, e := events[..|events| - 1], events[|events| - 1];
      AlwaysLives(front);
      AlwaysSound(front);
      KnownRuns(Run(front));
      if IsRunEvent(e) || e.Invoke? || e.Crash? {
        LivesRuns(Run(front), e);
      } else {
        WorkIsSteady(Run(front), e);
        SteadyLives(Run(front), Next(Run(front), e));
      }
      Abandons(Run(front), e);
    }
  }

  lemma NoneYet()
    ensures LivesOk(INITIAL)
  {
  }

  lemma KnownRuns(s: Desk)
    requires Sound(s)
    ensures s.runs.Keys <= s.everRun
  {
  }

  lemma Abandons(s: Desk, e: Event)
    ensures forall r :: r in Next(s, e).abandoned ==> r in s.abandoned || e == GiveUpRun(r)
  {
  }

  /** In every history in which no shutdown has given up on the run, whatever is deleted meanwhile, a launch finds its
      own ledger entry committed as STARTED. */
  lemma RecordedUnlessGivenUp(events: seq<Event>, k: nat, x: nat)
    requires k < |events| && x in Run(events[..k + 1]).launches && x !in Run(events[..k]).launches
    ensures x < |Run(events[..k]).executions|
    ensures GiveUpRun(Run(events[..k]).executions[x].run) !in events[..k] ==>
              var s := Run(events[..k]);
              var e := s.executions[x].entry;
              e.Some? && e.value in s.ledger && s.ledger[e.value].execution == x && s.ledger[e.value].status.Started?
  {
    hide Run;
    LaunchGate(events, k, x);
    AlwaysLives(events[..k]);
  }

  // ---------------------------------------------------------------- what the ledger says of an outcome

  /** What the ledger is to say of a tool that returned so. */
  predicate Stands(outcome: Outcome, status: Recoveries.ActionStatus) {
    match outcome
    case Opened => status == Recoveries.Confirmed
    case NotOpened => status == Recoveries.Failed
    case TimedOut => status == Recoveries.Uncertain
    case Interrupted => status == Recoveries.Uncertain
  }

  /** The tool returns so to the execution: a launcher only once it was called. */
  predicate Returns(s: Desk, e: Event, x: nat, outcome: Outcome) {
    && e == Observe(x, outcome)
    && At(s, x, Started)
    && (outcome.Opened? && s.executions[x].controlled ==> s.executions[x].launched)
  }

  ghost predicate Observed(events: seq<Event>, k: nat, x: nat, outcome: Outcome) {
    k < |events| && Returns(Run(events[..k]), events[k], x, outcome)
  }

  ghost predicate ObservedSo(events: seq<Event>, x: nat, status: Recoveries.ActionStatus) {
    exists k: nat, outcome :: Observed(events, k, x, outcome) && Stands(outcome, status)
  }

  /** The status of the execution's own entry, if that is in the ledger. */
  predicate EntryReads(s: Desk, x: nat, status: Recoveries.ActionStatus) {
    && x < |s.executions| && s.executions[x].entry.Some? && s.executions[x].entry.value in s.ledger
    && s.ledger[s.executions[x].entry.value].status == status
  }

  predicate IsReporting(s: Desk, x: nat, status: Recoveries.ActionStatus) {
    x < |s.executions| && s.executions[x].phase == Reporting(status)
  }

  lemma ReportsObserved(s: Desk, e: Event, x: nat, status: Recoveries.ActionStatus)
    requires IsReporting(Next(s, e), x, status)
    ensures || IsReporting(s, x, status)
            || (e.Observe? && Returns(s, e, x, e.outcome) && Stands(e.outcome, status))
  {
    hide Settled;
  }

  lemma EntryReported(s: Desk, e: Event, x: nat, status: Recoveries.ActionStatus)
    requires Sound(s) && Reported(status) && EntryReads(Next(s, e), x, status)
    ensures EntryReads(s, x, status) || IsReporting(s, x, status)
  {
    hide Sound, Next, EntryReads, IsReporting;
    if e.Report? {
      ReportWrites(s, e, x, status);
    } else {
      OthersWriteNone(s, e, x, status);
    }
  }

  lemma ReportWrites(s: Desk, e: Event, x: nat, status: Recoveries.ActionStatus)
    requires Sound(s) && Reported(status) && EntryReads(Next(s, e), x, status) && e.Report?
    ensures EntryReads(s, x, status) || IsReporting(s, x, status)
  {
    hide GatesOk, ApprovalsOk, LaunchesOk, Settled, ReportOf;
    if x < |s.executions| {
      assert TraceOk(s, x);
      assert forall y :: 0 <= y < |s.executions| ==> TraceOk(s, y);
    }
  }

  lemma OthersWriteNone(s: Desk, e: Event, x: nat, status: Recoveries.ActionStatus)
    requires Sound(s) && Reported(status) && EntryReads(Next(s, e), x, status) && !e.Report?
    ensures EntryReads(s, x, status)
  {
    hide GatesOk, ApprovalsOk, LaunchesOk, Settled, ReportOf;
    if x < |s.executions| {
      assert TraceOk(s, x);
    }
  }

  lemma ObservedLater(events: seq<Event>, x: nat, status: Recoveries.ActionStatus)
    requires events != [] && ObservedSo(events[..|events| - 1], x, status)
    ensures ObservedSo(events, x, status)
  {
    hide Run;
    var front := events[..|events| - 1];
    var k: nat, outcome :| Observed(front, k, x, outcome) && Stands(outcome, status);
    assert front[..k] == events[..k];
    assert Observed(events, k, x, outcome);
  }

  lemma {:induction false} ReportingIsObserved(events: seq<Event>, x: nat, status: Recoveries.ActionStatus)
    requires IsReporting(Run(events), x, status)
    ensures ObservedSo(events, x, status)
    decreases |events|
  {
    hide Next, ObservedSo, Stands;
    var front, e := events[..|events| - 1], events[|events| - 1];
    ReportsObserved(Run(front), e, x, status);
    if IsReporting(Run(front), x, status) {
      ReportingIsObserved(front, x, status);
      ObservedLater(events, x, status);
    } else {
      ObservedNow(events, x, status);
    }
  }

  lemma ObservedNow(events: seq<Event>, x: nat, status: Recoveries.ActionStatus)
    requires events != []
    requires var e := events[|events| - 1];
             e.Observe? && Returns(Run(events[..|events| - 1]), e, x, e.outcome) && Stands(e.outcome, status)
    ensures ObservedSo(events, x, status)
  {
    hide Run, Stands;
    assert Observed(events, |events| - 1, x, events[|events| - 1].outcome);
  }

  /** Over every history: an entry is confirmed only if the launcher returned to its execution, failed only if it could
      not launch, and uncertain only if it timed out or was interrupted. */
  lemma {:induction false} EntryIsObserved(events: seq<Event>, x: nat, status: Recoveries.ActionStatus)
    requires EntryReads(Run(events), x, status) && Reported(status)
    ensures ObservedSo(events, x, status)
    decreases |events|
  {
    hide Next, Sound, ObservedSo, EntryReads, IsReporting;
    if events == [] {
      NothingReported(x, status);
    } else {
      var front, e := events[..|events| - 1], events[|events| - 1];
      AlwaysSound(front);
      EntryReported(Run(front), e, x, status);
      if EntryReads(Run(front), x, status) {
        EntryIsObserved(front, x, status);
      } else {
        ReportingIsObserved(front, x, status);
      }
      ObservedLater(events, x, status);
    }
  }

  lemma NothingReported(x: nat, status: Recoveries.ActionStatus)
    ensures !EntryReads(INITIAL, x, status)
  {
  }

  /** The tool has returned to the execution, or will not any more. */
  predicate PastReturn(s: Desk, x: nat) {
    && x < |s.executions|
    && (s.executions[x].phase.Reporting? || s.executions[x].phase.Finished? || s.executions[x].phase.Dead?)
  }

  lemma PastReturnStays(s: Desk, e: Event, x: nat)
    requires PastReturn(s, x)
    ensures PastReturn(Next(s, e), x)
  {
    hide Settled, ReportOf;
  }

  lemma {:induction false} PastReturnForGood(events: seq<Event>, k: nat, m: nat, x: nat)
    requires k <= m <= |events| && PastReturn(Run(events[..k]), x)
    ensures PastReturn(Run(events[..m]), x)
    decreases m - k
  {
    hide Run, Next, PastReturn;
    if k < m {
      PastReturnForGood(events, k, m - 1, x);
      LastStep(events, m - 1);
      PastReturnStays(Run(events[..m - 1]), events[m - 1], x);
    }
  }

  lemma ReturnedThen(events: seq<Event>, k: nat, x: nat, outcome: Outcome)
    requires Observed(events, k, x, outcome)
    ensures PastReturn(Run(events[..k + 1]), x)
  {
    hide Run, ReportOf;
    LastStep(events, k);
  }

  /** A tool returns to an execution once. */
  lemma ObservedOnce(events: seq<Event>, k: nat, m: nat, x: nat, first: Outcome, second: Outcome)
    requires Observed(events, k, x, first) && Observed(events, m, x, second)
    ensures k == m
  {
    hide Run;
    if k < m {
      ReturnedThen(events, k, x, first);
      PastReturnForGood(events, k + 1, m, x);
    }
    if m < k {
      ReturnedThen(events, m, x, second);
      PastReturnForGood(events, m + 1, k, x);
    }
  }

  /** So an entry that was settled one way was never heard to end another way. */
  lemma SettledAsObserved(events: seq<Event>, k: nat, x: nat, outcome: Outcome, status: Recoveries.ActionStatus)
    requires Observed(events, k, x, outcome) && EntryReads(Run(events), x, status) && Reported(status)
    ensures Stands(outcome, status)
  {
    hide Run, Observed, EntryReads;
    EntryIsObserved(events, x, status);
    var m: nat, other :| Observed(events, m, x, other) && Stands(other, status);
    ObservedOnce(events, k, m, x, outcome, other);
    SameOutcome(events, k, x, outcome, other);
  }

  lemma SameOutcome(events: seq<Event>, k: nat, x: nat, first: Outcome, second: Outcome)
    requires Observed(events, k, x, first) && Observed(events, k, x, second)
    ensures first == second
  {
  }

  // ---------------------------------------------------------------- who waits for an approval

  /** The execution has asked for this approval, and is about to wait for it or waits already. */
  predicate Attends(s: Desk, x: nat, p: nat) {
    && x < |s.executions|
    && s.executions[x].approval == Some(p)
    && (s.executions[x].phase.Asked? || s.executions[x].phase.Waiting?)
  }

  ghost predicate Attended(s: Desk, p: nat) {
    exists x: nat :: Attends(s, x, p)
  }

  /** The step cuts off an execution between asking for this approval and waiting for it. */
  predicate CutsOff(s: Desk, e: Event, p: nat) {
    e.Abort? && At(s, e.execution, Asked) && s.executions[e.execution].approval == Some(p)
  }

  lemma AttendantWaits(s: Desk, x: nat, p: nat, y: nat)
    requires Undecided(s, p) && Attends(s, x, p) && ApprovalOk(s.approvals[p])
    ensures Attends(AskNext(s, y), x, p) && Attends(AwaitNext(s, y), x, p)
    ensures Undecided(WakeNext(s, y), p) ==> Attends(WakeNext(s, y), x, p)
    ensures Undecided(TimeOutNext(s, y), p) ==> Attends(TimeOutNext(s, y), x, p)
    ensures Undecided(CancelWaitNext(s, y), p) ==> Attends(CancelWaitNext(s, y), x, p)
  {
  }

  lemma AttendantWorks(s: Desk, x: nat, p: nat, y: nat, outcome: Outcome)
    requires Attends(s, x, p)
    ensures Attends(IntentNext(s, y), x, p) && Attends(StartedNext(s, y), x, p) && Attends(LaunchNext(s, y), x, p)
    ensures Attends(ObserveNext(s, y, outcome), x, p) && Attends(ReportNext(s, y), x, p)
    ensures Attends(AbortNext(s, y), x, p) <==> !(y == x && At(s, x, Asked))
  {
    hide ReportOf;
  }

  lemma AttendantElsewhere(s: Desk, e: Event, x: nat, p: nat)
    requires Attends(s, x, p) && Undecided(Next(s, e), p)
    requires IsRunEvent(e) || e.Invoke? || e.Decide? || e.CancelApproval? || e.Crash?
    ensures Attends(Next(s, e), x, p)
  {
  }

  /** Seen from the one execution that attends it. */
  lemma AttendantNext(s: Desk, e: Event, x: nat, p: nat)
    requires Undecided(s, p) && Attends(s, x, p) && ApprovalOk(s.approvals[p])
    requires Undecided(Next(s, e), p)
    ensures Attends(Next(s, e), x, p) <==> !(e == Abort(x) && At(s, x, Asked))
  {
    hide AskNext, AwaitNext, WakeNext, TimeOutNext, CancelWaitNext, IntentNext, StartedNext, LaunchNext, ObserveNext,
      ReportNext, AbortNext, Undecided, Attends, ApprovalOk;
    match e
    case Ask(y) => AttendantWaits(s, x, p, y);
    case AwaitDecision(y) => AttendantWaits(s, x, p, y);
    case Wake(y) => AttendantWaits(s, x, p, y);
    case WaitTimesOut(y) => AttendantWaits(s, x, p, y);
    case WaitIsCancelled(y) => AttendantWaits(s, x, p, y);
    case RecordIntent(y) => AttendantWorks(s, x, p, y, Opened);
    case RecordStarted(y) => AttendantWorks(s, x, p, y, Opened);
    case Launch(y) => AttendantWorks(s, x, p, y, Opened);
    case Observe(y, outcome) => AttendantWorks(s, x, p, y, outcome);
    case Report(y) => AttendantWorks(s, x, p, y, Opened);
    case Abort(y) => AttendantWorks(s, x, p, y, Opened);
    case _ => AttendantElsewhere(s, e, x, p);
  }

  lemma OneAttendant(s: Desk, x: nat, y: nat, p: nat)
    requires Sound(s) && x < |s.executions| && s.executions[x].approval == Some(p) && Attends(s, y, p)
    ensures y == x
  {
    hide Sound;
    OneApprovalEach(s, x, y);
  }

  lemma SameApproval(s: Desk, s': Desk, x: nat)
    requires Keeps(s, s') && x < |s.executions| && s.executions[x].approval.Some?
    ensures x < |s'.executions| && s'.executions[x].approval == s.executions[x].approval
  {
    assert SameExecution(s.executions[x], s'.executions[x]);
  }

  /** A pending approval with an attendant loses it, and stays pending, exactly by such a cut. */
  lemma LeftAloneExactly(s: Desk, e: Event, p: nat)
    requires Sound(s) && Undecided(s, p) && Attended(s, p)
    ensures Undecided(Next(s, e), p) && !Attended(Next(s, e), p) <==> CutsOff(s, e, p)
  {
    var x: nat :| Attends(s, x, p);
    if CutsOff(s, e, p) {
      CutLeavesPending(s, e, p);
    }
    hide Sound, Next, Keeps, Undecided, CutsOff;
    FutureOf(s, p);
    SoundNext(s, e);
    KeepsNext(s, e);
    SameApproval(s, Next(s, e), x);
    CutsOffOwn(s, e, x, p);
    if Undecided(Next(s, e), p) {
      AttendantNext(s, e, x, p);
      forall y: nat | Attends(Next(s, e), y, p)
        ensures y == x
      {
        OneAttendant(Next(s, e), x, y, p);
      }
    }
  }

  lemma FutureOf(s: Desk, p: nat)
    requires Sound(s) && Undecided(s, p)
    ensures p < |s.approvals| && ApprovalOk(s.approvals[p])
  {
    FutureIsStatus(s, p);
  }

  lemma CutLeavesPending(s: Desk, e: Event, p: nat)
    requires Undecided(s, p) && CutsOff(s, e, p)
    ensures Undecided(Next(s, e), p)
  {
  }

  lemma CutsOffOwn(s: Desk, e: Event, x: nat, p: nat)
    requires Sound(s) && Attends(s, x, p)
    ensures CutsOff(s, e, p) <==> e == Abort(x) && At(s, x, Asked)
  {
    hide Sound;
    if CutsOff(s, e, p) {
      OneAttendant(s, x, e.execution, p);
    }
  }

  ghost predicate CutOffIn(events: seq<Event>, p: nat) {
    exists k: nat :: k < |events| && CutsOff(Run(events[..k]), events[k], p)
  }

  /** Nothing attends to an approval again, and no approval becomes pending again. */
  lemma NotAttendedStays(s: Desk, e: Event, p: nat)
    requires p < |s.approvals| && !Attended(s, p)
    ensures !Attended(Next(s, e), p)
  {
    hide Settled, ReportOf;
    var s' := Next(s, e);
    forall y: nat
      ensures !Attends(s', y, p)
    {
      assert !Attends(s, y, p);
    }
  }

  lemma StillPending(s: Desk, e: Event, p: nat)
    requires Sound(s) && Undecided(Next(s, e), p)
    ensures if p < |s.approvals| then Undecided(s, p) else Attended(Next(s, e), p)
  {
    hide Sound;
    KeepsNext(s, e);
    hide Keeps;
    if p >= |s.approvals| {
      NewIsAttended(s, e, p);
    } else {
      WasPending(s, e, p);
    }
  }

  lemma NewIsAttended(s: Desk, e: Event, p: nat)
    requires |s.approvals| <= p < |Next(s, e).approvals|
    ensures Attended(Next(s, e), p)
  {
    hide ReportOf;
    assert e.Ask? && Attends(Next(s, e), e.execution, p);
  }

  lemma WasPending(s: Desk, e: Event, p: nat)
    requires Keeps(s, Next(s, e)) && p < |s.approvals| && Undecided(Next(s, e), p)
    ensures Undecided(s, p)
  {
    ForgottenGrows(s, e);
    hide Next;
  }

  lemma ForgottenGrows(s: Desk, e: Event)
    ensures Next(s, e).forgotten == s.forgotten || e.Crash?
    ensures e.Crash? ==> Next(s, e).forgotten == |s.approvals| == |Next(s, e).approvals|
  {
    hide Settled, ReportOf;
  }

  lemma CutIsOfKnown(events: seq<Event>, k: nat, p: nat)
    requires k < |events| && CutsOff(Run(events[..k]), events[k], p)
    ensures p < |Run(events[..|events| - 1]).approvals|
  {
    hide Run, Sound;
    AlwaysSound(events[..k]);
    GateAndTrace(Run(events[..k]), events[k].execution);
    HistoryKeeps(events, k, |events| - 1);
  }

  lemma CutOffEarlier(events: seq<Event>, p: nat)
    requires events != []
    ensures var front := events[..|events| - 1];
            CutOffIn(events, p) <==> CutOffIn(front, p) || CutsOff(Run(front), events[|events| - 1], p)
  {
    hide Run, CutsOff;
    var front := events[..|events| - 1];
    assert forall k :: 0 <= k <= |front| ==> events[..k] == front[..k];
    assert front[..|front|] == front;
    if CutOffIn(events, p) {
      var k: nat :| k < |events| && CutsOff(Run(events[..k]), events[k], p);
      assert k < |front| ==> CutsOff(Run(front[..k]), front[k], p);
    }
    if CutOffIn(front, p) {
      var k: nat :| k < |front| && CutsOff(Run(front[..k]), front[k], p);
      assert CutsOff(Run(events[..k]), events[k], p);
    }
    if CutsOff(Run(front), events[|events| - 1], p) {
      assert CutsOff(Run(events[..|front|]), events[|front|], p);
    }
  }

  /** In every history: an approval that this process knows as pending is attended by the execution that asked for it,
      unless that execution was cut off between asking and waiting. */
  lemma {:induction false} PendingIsAttended(events: seq<Event>, p: nat)
    requires Undecided(Run(events), p)
    ensures Attended(Run(events), p) <==> !CutOffIn(events, p)
    decreases |events|
  {
    hide Sound, Next, Attended, CutsOff, CutOffIn;
    if events != [] {
      var front, e := events[..|events| - 1], events[|events| - 1];
      var s := Run(front);
      AlwaysSound(front);
      CutOffEarlier(events, p);
      StillPending(s, e, p);
      if p >= |s.approvals| {
        NewIsNotCutOff(events, p);
      } else {
        PendingIsAttended(front, p);
        if Attended(s, p) {
          LeftAloneExactly(s, e, p);
        } else {
          NotAttendedStays(s, e, p);
        }
      }
    }
  }

  lemma NewIsNotCutOff(events: seq<Event>, p: nat)
    requires events != [] && p >= |Run(events[..|events| - 1]).approvals|
    ensures !CutOffIn(events, p)
  {
    hide Run, CutsOff;
    if CutOffIn(events, p) {
      var k: nat :| k < |events| && CutsOff(Run(events[..k]), events[k], p);
      CutIsOfKnown(events, k, p);
      assert false;
    }
  }

  /** For example: the run's task is cancelled right after the approval was made. */
  lemma CutOffHappens()
    ensures var s := Run([BeginRun(0), Invoke(0, true), Ask(0), Abort(0)]);
            Undecided(s, 0) && !Attended(s, 0)
  {
    hide Next, OneOfEach, CutsOff, Undecided, Attended;
    var events := [BeginRun(0), Invoke(0, true), Ask(0), Abort(0)];
    var begun := Desk(map[0 := true], {0}, {}, [], 0, [], map[], 0, []);
    var invoked := begun.(executions := [Execution(0, true, Invoked, None, None, false)]);
    UntilAsked(begun, invoked);
    Replays(events[..3], [INITIAL, begun, invoked, OneOfEach(None, Asked)]);
    AlwaysSound(events[..3]);
    AskedIsAttended();
    LeftAloneExactly(OneOfEach(None, Asked), Abort(0), 0);
    LastStep(events, 3);
    assert events[..4] == events;
  }

  lemma AskedIsAttended()
    ensures var s := OneOfEach(None, Asked);
            Undecided(s, 0) && Attended(s, 0) && CutsOff(s, Abort(0), 0)
  {
    assert Attends(OneOfEach(None, Asked), 0, 0);
  }

  // ---------------------------------------------------------------- conservative recovery

  /** The run's ledger entries, in the order the restart reads them. */
  ghost predicate ListsLedger(s: Desk, r: RunId, ids: seq<nat>) {
    forall e :: e in ids <==> e in s.ledger && s.ledger[e].run == r
  }

  function ActionsOf(s: Desk, ids: seq<nat>, actionType: nat -> string): seq<Recoveries.Action>
    requires forall e :: e in ids ==> e in s.ledger
  {
    seq(|ids|, i requires 0 <= i < |ids| => Recoveries.Action(actionType(ids[i]), s.ledger[ids[i]].status))
  }

  /** Wherever a crash cuts in: if something was launched for the run and neither CONFIRMED nor FAILED was committed for
      it, the restart does not decide that the run stopped without anything to replay, whatever its checkpoint. */
  lemma LaunchedMeansUncertain(events: seq<Event>, x: nat, ids: seq<nat>, runId: string,
                               checkpoint: Option<Recoveries.Row>, actionType: nat -> string,
                               checksum: Json.Object -> string)
    requires x in Run(events).launches && x < |Run(events).executions|
    requires Run(events).executions[x].run in Run(events).runs
    requires ListsLedger(Run(events), Run(events).executions[x].run, ids)
    ensures Run(events).executions[x].entry.Some? && Run(events).executions[x].entry.value in Run(events).ledger
    ensures !Recoveries.Settled(Recoveries.Action("", Run(events).ledger[Run(events).executions[x].entry.value].status))
            ==> Recoveries.Assess(runId, Recoveries.Decoded(checkpoint, ActionsOf(Run(events), ids, actionType)),
                                  checksum)
                != Recoveries.Decided(Recoveries.StoppedNoReplay)
  {
    hide Run, Sound, Recoveries.Assess;
    var s := Run(events);
    AlwaysSound(events);
    LaunchHistory(s);
    GateAndTrace(s, x);
    var e := s.executions[x].entry.value;
    var actions := ActionsOf(s, ids, actionType);
    Recoveries.StoppedExactly(runId, Recoveries.Decoded(checkpoint, actions), checksum);
    assert e in ids;
    var i :| 0 <= i < |ids| && ids[i] == e;
    assert actions[i].status == s.ledger[e].status;
  }

  /** A launch whose launcher timed out, or was interrupted, never counts as stopped, however long after. */
  lemma TimedOutMeansUncertain(events: seq<Event>, k: nat, x: nat, outcome: Outcome, ids: seq<nat>, runId: string,
                               checkpoint: Option<Recoveries.Row>, actionType: nat -> string,
                               checksum: Json.Object -> string)
    requires Observed(events, k, x, outcome) && (outcome.TimedOut? || outcome.Interrupted?)
    requires x in Run(events).launches && x < |Run(events).executions|
    requires Run(events).executions[x].run in Run(events).runs
    requires ListsLedger(Run(events), Run(events).executions[x].run, ids)
    ensures Recoveries.Assess(runId, Recoveries.Decoded(checkpoint, ActionsOf(Run(events), ids, actionType)), checksum)
            != Recoveries.Decided(Recoveries.StoppedNoReplay)
  {
    hide Run, Observed, Recoveries.Assess, ListsLedger;
    LaunchedMeansUncertain(events, x, ids, runId, checkpoint, actionType, checksum);
    var s := Run(events);
    var status := s.ledger[s.executions[x].entry.value].status;
    if Reported(status) {
      assert EntryReads(s, x, status);
      SettledAsObserved(events, k, x, outcome, status);
    }
  }

  /** And the other way round: the restart decides so exactly when the checkpoint is in order and every execution of the
      run that has an entry is confirmed or failed. */
  lemma StoppedMeansAllSettled(events: seq<Event>, r: RunId, ids: seq<nat>, runId: string,
                               checkpoint: Recoveries.Row, actionType: nat -> string, checksum: Json.Object -> string)
    requires ListsLedger(Run(events), r, ids)
    requires Recoveries.CheckpointIsValid(runId, checkpoint, checksum).Sound?
    ensures Recoveries.Assess(runId, Recoveries.Decoded(Some(checkpoint), ActionsOf(Run(events), ids, actionType)),
                              checksum) == Recoveries.Decided(Recoveries.StoppedNoReplay)
            <==> forall e :: e in Run(events).ledger && Run(events).ledger[e].run == r ==>
                   Run(events).ledger[e].status.Confirmed? || Run(events).ledger[e].status.Failed?
  {
    hide Run, Sound, Recoveries.Assess, Recoveries.CheckpointIsValid, Recoveries.HeaderOk, Recoveries.StatusOk;
    var s := Run(events);
    var actions := ActionsOf(s, ids, actionType);
    Recoveries.ValidExactly(runId, checkpoint, checksum);
    Recoveries.StoppedExactly(runId, Recoveries.Decoded(Some(checkpoint), actions), checksum);
    if forall i :: 0 <= i < |actions| ==> Recoveries.Settled(actions[i]) {
      forall e | e in s.ledger && s.ledger[e].run == r
        ensures s.ledger[e].status.Confirmed? || s.ledger[e].status.Failed?
      {
        var i :| 0 <= i < |ids| && ids[i] == e;
        assert Recoveries.Settled(actions[i]);
      }
    }
  }
}
