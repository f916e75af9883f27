/** services/tools.py and the approvals of services/remote.py as one state machine: every commit of a tool execution,
    and every way an approval is decided, times out or is cancelled, interleaved with runs that end, are deleted or
    are cut off by a crash. Executions, approvals and ledger entries are numbered in the order they are made. */
module Tools {
  import opened Prelude
  import Recoveries

  type RunId = nat

  datatype ApprovalStatus = Pending | Approved | Rejected | Expired | Cancelled

  /** What the requester sees, and what the waiter's future holds. */
  datatype Approval = Approval(status: ApprovalStatus, future: Option<ApprovalStatus>)

  /** How far an execution has come; each step is one commit or one await. */
  datatype Phase =
    | Invoked
    | Asked
    | Waiting
    | Cleared
    | Intended
    | Started
    | Reporting(report: Recoveries.ActionStatus)
    | Finished
    | Dead

  /** `controlled` executions need an approval and use the desktop launcher. */
  datatype Execution = Execution(run: RunId, controlled: bool, phase: Phase, approval: Option<nat>, entry: Option<nat>,
                                 launched: bool)

  datatype Entry = Entry(run: RunId, execution: nat, status: Recoveries.ActionStatus)

  /** `abandoned` runs were ended by a shutdown that gave up waiting for their task, which went on;
      `forgotten` approvals belonged to a process that has crashed; `used` counts the ledger entries ever made. */
  datatype Desk = Desk(
    runs: map<RunId, bool>,
    everRun: set<RunId>,
    abandoned: set<RunId>,
    approvals: seq<Approval>,
    forgotten: nat,
    executions: seq<Execution>,
    ledger: map<nat, Entry>,
    used: nat,
    launches: seq<nat>)

  const INITIAL := Desk(map[], {}, {}, [], 0, [], map[], 0, [])

  datatype Outcome = Opened | NotOpened | TimedOut | Interrupted

  datatype Event =
    | BeginRun(run: RunId)
    | EndRun(run: RunId)
    | GiveUpRun(run: RunId)
    | DeleteRun(run: RunId)
    | Invoke(run: RunId, controlled: bool)
    | Ask(execution: nat)
    | AwaitDecision(execution: nat)
    | Decide(approval: nat, approved: bool, overdue: bool)
    | CancelApproval(approval: nat)
    | Wake(execution: nat)
    | WaitTimesOut(execution: nat)
    | WaitIsCancelled(execution: nat)
    | RecordIntent(execution: nat)
    | RecordStarted(execution: nat)
    | Launch(execution: nat)
    | Observe(execution: nat, outcome: Outcome)
    | Report(execution: nat)
    | Abort(execution: nat)
    | Crash

  // ---------------------------------------------------------------- edits

  function SetPhase(s: Desk, x: nat, phase: Phase): Desk
    requires x < |s.executions|
  {
    s.(executions := s.executions[x := s.executions[x].(phase := phase)])
  }

  predicate At(s: Desk, x: nat, phase: Phase) {
    x < |s.executions| && s.executions[x].phase == phase
  }

  /** An approval this process knows and nobody has decided. */
  predicate Undecided(s: Desk, p: nat) {
    s.forgotten <= p < |s.approvals| && s.approvals[p].status.Pending?
  }

  /** Out of PENDING: an expiry leaves the future unset, anything else sets it if it is not. */
  function Settled(a: Approval, status: ApprovalStatus): Approval {
    Approval(status, if status.Expired? || a.future.Some? then a.future else Some(status))
  }

  function Settle(s: Desk, p: nat, status: ApprovalStatus): Desk
    requires p < |s.approvals|
  {
    s.(approvals := s.approvals[p := Settled(s.approvals[p], status)])
  }

  /** `update_action`: nothing, without an error, when the entry is gone. */
  function Update(s: Desk, e: nat, status: Recoveries.ActionStatus): Desk {
    if e in s.ledger then s.(ledger := s.ledger[e := s.ledger[e].(status := status)]) else s
  }

  /** Deleting a run deletes its ledger entries. */
  function Forget(s: Desk, r: RunId): Desk {
    s.(runs := s.runs - {r}, ledger := map e | e in s.ledger && s.ledger[e].run != r :: s.ledger[e])
  }

  // ---------------------------------------------------------------- the steps

  /** The run's task is still in the middle of this execution. */
  predicate Live(q: Execution) {
    !q.phase.Finished? && !q.phase.Dead?
  }

  predicate NoneLive(s: Desk, r: RunId) {
    forall x :: 0 <= x < |s.executions| && s.executions[x].run == r ==> !Live(s.executions[x])
  }

  predicate IsRunEvent(e: Event) {
    e.BeginRun? || e.EndRun? || e.GiveUpRun? || e.DeleteRun?
  }

  /** A run is ended by its own task, or once that task is over; only a shutdown whose patience is at an end marks a run
      whose task goes on as failed. */
  function RunNext(s: Desk, e: Event): Desk
    requires IsRunEvent(e)
  {
    match e
    case BeginRun(r) => if r in s.everRun then s else s.(runs := s.runs[r := true], everRun := s.everRun + {r})
    case EndRun(r) => if r in s.runs && NoneLive(s, r) then s.(runs := s.runs[r := false]) else s
    case GiveUpRun(r) =>
      if r in s.runs && s.runs[r] then s.(runs := s.runs[r := false], abandoned := s.abandoned + {r}) else s
    case DeleteRun(r) => if r in s.runs && !s.runs[r] then Forget(s, r) else s
  }

  function InvokeNext(s: Desk, r: RunId, controlled: bool): Desk {
    if r !in s.runs || !(s.runs[r] || r in s.abandoned) then s
    else s.(executions := s.executions
              + [Execution(r, controlled, if controlled then Invoked else Cleared, None, None, false)])
  }

  function AskNext(s: Desk, x: nat): Desk {
    if !At(s, x, Invoked) then s
    else
      s.(approvals := s.approvals + [Approval(Pending, None)],
         executions := s.executions[x := s.executions[x].(phase := Asked, approval := Some(|s.approvals|))])
  }

  /** Between asking and waiting the invocation's row is updated with the approval. */
  function AwaitNext(s: Desk, x: nat): Desk {
    if At(s, x, Asked) then SetPhase(s, x, Waiting) else s
  }

  function DecideNext(s: Desk, p: nat, approved: bool, overdue: bool): Desk {
    if !Undecided(s, p) then s
    else Settle(s, p, if overdue then Expired else if approved then Approved else Rejected)
  }

  function CancelNext(s: Desk, p: nat): Desk {
    if Undecided(s, p) then Settle(s, p, Cancelled) else s
  }

  function WakeNext(s: Desk, x: nat): Desk {
    if !At(s, x, Waiting) || s.executions[x].approval.None? || s.executions[x].approval.value >= |s.approvals| then s
    else
      match s.approvals[s.executions[x].approval.value].future
      case None => s
      case Some(status) => SetPhase(s, x, if status.Approved? then Cleared else Finished)
  }

  /** A wait that runs out never launches, even if the decision has just been made. */
  function TimeOutNext(s: Desk, x: nat): Desk {
    if !At(s, x, Waiting) || s.executions[x].approval.None? || s.executions[x].approval.value >= |s.approvals| then s
    else
      var p := s.executions[x].approval.value;
      SetPhase(if s.approvals[p].status.Pending? then Settle(s, p, Expired) else s, x, Finished)
  }

  function CancelWaitNext(s: Desk, x: nat): Desk {
    if !At(s, x, Waiting) || s.executions[x].approval.None? || s.executions[x].approval.value >= |s.approvals| then s
    else
      var p := s.executions[x].approval.value;
      SetPhase(if s.approvals[p].status.Pending? then Settle(s, p, Cancelled) else s, x, Dead)
  }

  /** The ledger entry must name an existing run. */
  function IntentNext(s: Desk, x: nat): Desk {
    if !At(s, x, Cleared) then s
    else if s.executions[x].run !in s.runs then SetPhase(s, x, Dead)
    else
      s.(ledger := s.ledger[s.used := Entry(s.executions[x].run, x, Recoveries.IntentRecorded)],
         used := s.used + 1,
         executions := s.executions[x := s.executions[x].(phase := Intended, entry := Some(s.used))])
  }

  function StartedNext(s: Desk, x: nat): Desk {
    if !At(s, x, Intended) || s.executions[x].entry.None? then s
    else SetPhase(Update(s, s.executions[x].entry.value, Recoveries.Started), x, Started)
  }

  function LaunchNext(s: Desk, x: nat): Desk {
    if !At(s, x, Started) || s.executions[x].launched || !s.executions[x].controlled then s
    else s.(executions := s.executions[x := s.executions[x].(launched := true)], launches := s.launches + [x])
  }

  /** What each way of returning from the tool is reported as. */
  function ReportOf(outcome: Outcome): Recoveries.ActionStatus {
    match outcome
    case Opened => Recoveries.Confirmed
    case NotOpened => Recoveries.Failed
    case TimedOut => Recoveries.Uncertain
    case Interrupted => Recoveries.Uncertain
  }

  function ObserveNext(s: Desk, x: nat, outcome: Outcome): Desk {
    if !At(s, x, Started) || (outcome.Opened? && s.executions[x].controlled && !s.executions[x].launched) then s
    else SetPhase(s, x, Reporting(ReportOf(outcome)))
  }

  function ReportNext(s: Desk, x: nat): Desk {
    if x >= |s.executions| || !s.executions[x].phase.Reporting? || s.executions[x].entry.None? then s
    else SetPhase(Update(s, s.executions[x].entry.value, s.executions[x].phase.report), x, Finished)
  }

  /** An exception nobody handles, at any point that is not a wait for a decision: between asking and waiting it leaves
      a pending approval behind. */
  function AbortNext(s: Desk, x: nat): Desk {
    if x >= |s.executions| || s.executions[x].phase.Waiting? then s else SetPhase(s, x, Dead)
  }

  function CrashNext(s: Desk): Desk {
    s.(executions := seq(|s.executions|, x requires 0 <= x < |s.executions| => s.executions[x].(phase := Dead)),
       forgotten := |s.approvals|, abandoned := {})
  }

  function Next(s: Desk, e: Event): Desk {
    match e
    case BeginRun(_) => RunNext(s, e)
    case EndRun(_) => RunNext(s, e)
    case GiveUpRun(_) => RunNext(s, e)
    case DeleteRun(_) => RunNext(s, e)
    case Invoke(r, controlled) => InvokeNext(s, r, controlled)
    case Ask(x) => AskNext(s, x)
    case AwaitDecision(x) => AwaitNext(s, x)
    case Decide(p, approved, overdue) => DecideNext(s, p, approved, overdue)
    case CancelApproval(p) => CancelNext(s, p)
    case Wake(x) => WakeNext(s, x)
    case WaitTimesOut(x) => TimeOutNext(s, x)
    case WaitIsCancelled(x) => CancelWaitNext(s, x)
    case RecordIntent(x) => IntentNext(s, x)
    case RecordStarted(x) => StartedNext(s, x)
    case Launch(x) => LaunchNext(s, x)
    case Observe(x, outcome) => ObserveNext(s, x, outcome)
    case Report(x) => ReportNext(s, x)
    case Abort(x) => AbortNext(s, x)
    case Crash => CrashNext(s)
  }

  // ---------------------------------------------------------------- runs, said outright

  /** Every execution of the run has finished or is dead. */
  ghost predicate Quiet(s: Desk, r: RunId) {
    forall x :: 0 <= x < |s.executions| && s.executions[x].run == r ==>
                  s.executions[x].phase == Finished || s.executions[x].phase == Dead
  }

  /** Which events begin, end, give up and delete a run, and when the task of a run may begin another execution: while
      the run is active, or after a shutdown has given up on it. */
  lemma RunsSay(s: Desk, r: RunId, controlled: bool)
    ensures Next(s, BeginRun(r)).runs == if r in s.everRun then s.runs else s.runs[r := true]
    ensures Next(s, EndRun(r)).runs == if r in s.runs && Quiet(s, r) then s.runs[r := false] else s.runs
    ensures var t := Next(s, GiveUpRun(r));
            if r in s.runs && s.runs[r] == true then t.runs == s.runs[r := false] && r in t.abandoned else t == s
    ensures var t := Next(s, DeleteRun(r));
            if r in s.runs && s.runs[r] == false
            then t.runs == s.runs - {r} && (forall e :: e in t.ledger <==> e in s.ledger && s.ledger[e].run != r)
            else t == s
    ensures Next(s, Invoke(r, controlled)).executions
            == if r in s.runs && (s.runs[r] == true || r in s.abandoned)
               then s.executions
                    + [Execution(r, controlled, if controlled then Invoked else Cleared, None, None, false)]
               else s.executions
  {
  }

  // ---------------------------------------------------------------- what stays true

  /** The future only ever holds the status itself, and only an expiry leaves it unset. */
  predicate ApprovalOk(a: Approval) {
    match a.future
    case None => a.status.Pending? || a.status.Expired?
    case Some(status) => a.status == status && !status.Pending? && !status.Expired?
  }

  ghost predicate ApprovalsOk(s: Desk) {
    && s.forgotten <= |s.approvals|
    && (forall p :: 0 <= p < |s.approvals| ==> ApprovalOk(s.approvals[p]))
  }

  /** Only controlled executions have approvals, and past the wait theirs is approved. */
  predicate GateOk(s: Desk, x: nat)
    requires x < |s.executions|
  {
    var q := s.executions[x];
    && (q.approval.Some? ==> q.approval.value < |s.approvals|)
    && (q.phase.Asked? || q.phase.Waiting? ==> q.approval.Some?)
    && (q.phase.Invoked? ==> q.approval.None?)
    && (q.approval.Some? || q.phase.Invoked? ==> q.controlled)
    && (q.controlled && (q.phase.Cleared? || q.phase.Intended? || q.phase.Started? || q.phase.Reporting? || q.launched)
        ==> q.approval.Some? && s.approvals[q.approval.value].status.Approved?)
  }

  ghost predicate GatesOk(s: Desk) {
    && (forall x :: 0 <= x < |s.executions| ==> GateOk(s, x))
    && (forall x, y :: 0 <= x < y < |s.executions| && s.executions[x].approval.Some? ==>
          s.executions[x].approval != s.executions[y].approval)
  }

  /** Once an execution has its entry, the entry is in the ledger exactly as long as the run has its row, and shows how
      far the execution got: what was launched is at least recorded as started. */
  predicate TraceOk(s: Desk, x: nat)
    requires x < |s.executions|
  {
    var q := s.executions[x];
    && q.run in s.everRun
    && (q.phase.Invoked? || q.phase.Asked? || q.phase.Waiting? || q.phase.Cleared? ==> q.entry.None? && !q.launched)
    && (q.phase.Intended? || q.phase.Started? || q.phase.Reporting? || q.launched ==> q.entry.Some?)
    && (q.phase.Intended? ==> !q.launched)
    && (q.launched ==> q.controlled)
    && (q.phase.Reporting? && q.phase.report.Confirmed? && q.controlled ==> q.launched)
    && (q.phase.Reporting? ==> Reported(q.phase.report))
    && (q.entry.Some? ==>
          var e := q.entry.value;
          && e < s.used
          && (e in s.ledger <==> q.run in s.runs)
          && (e in s.ledger ==>
                && s.ledger[e].run == q.run
                && s.ledger[e].execution == x
                && (q.phase.Intended? ==> s.ledger[e].status.IntentRecorded?)
                && (q.phase.Started? || q.phase.Reporting? ==> s.ledger[e].status.Started?)
                && (q.launched ==> !s.ledger[e].status.IntentRecorded?)))
  }

  predicate Reported(status: Recoveries.ActionStatus) {
    status.Confirmed? || status.Failed? || status.Uncertain?
  }

  ghost predicate TracesOk(s: Desk) {
    && s.runs.Keys <= s.everRun
    && (forall e :: e in s.ledger ==> e < s.used && s.ledger[e].run in s.runs)
    && (forall x :: 0 <= x < |s.executions| ==> TraceOk(s, x))
    && (forall x, y :: 0 <= x < y < |s.executions| && s.executions[x].entry.Some? ==>
          s.executions[x].entry != s.executions[y].entry)
  }

  /** Every launch is in the history once. */
  ghost predicate LaunchesOk(s: Desk) {
    && Distinct(s.launches)
    && (forall x :: x in s.launches <==> 0 <= x < |s.executions| && s.executions[x].launched)
  }

  ghost predicate Sound(s: Desk) {
    ApprovalsOk(s) && GatesOk(s) && TracesOk(s) && LaunchesOk(s)
  }

  // ---------------------------------------------------------------- approvals

  lemma SoundSettle(s: Desk, p: nat, status: ApprovalStatus)
    requires Sound(s) && p < |s.approvals| && s.approvals[p].status.Pending? && !status.Pending?
    ensures Sound(Settle(s, p, status))
  {
    hide ApprovalsOk, GatesOk, TracesOk, LaunchesOk;
    SettleApprovals(s, p, status);
    SettleGates(s, p, status);
    TracesFrame(s, Settle(s, p, status));
    LaunchesFrame(s, Settle(s, p, status));
  }

  lemma SettleApprovals(s: Desk, p: nat, status: ApprovalStatus)
    requires ApprovalsOk(s) && p < |s.approvals| && s.approvals[p].status.Pending? && !status.Pending?
    ensures ApprovalsOk(Settle(s, p, status))
  {
    assert ApprovalOk(s.approvals[p]);
  }

  lemma SettleGates(s: Desk, p: nat, status: ApprovalStatus)
    requires GatesOk(s) && p < |s.approvals| && s.approvals[p].status.Pending?
    ensures GatesOk(Settle(s, p, status))
  {
    var s' := Settle(s, p, status);
    forall x | 0 <= x < |s'.executions|
      ensures GateOk(s', x)
    {
      assert GateOk(s, x);
    }
  }

  lemma ApprovalsFrame(s: Desk, s': Desk)
    requires ApprovalsOk(s) && s'.approvals == s.approvals && s'.forgotten == s.forgotten
    ensures ApprovalsOk(s')
  {
  }

  lemma GatesFrame(s: Desk, s': Desk)
    requires GatesOk(s) && s'.approvals == s.approvals && s'.executions == s.executions
    ensures GatesOk(s')
  {
    forall x | 0 <= x < |s'.executions|
      ensures GateOk(s', x)
    {
      assert GateOk(s, x);
    }
  }

  lemma TracesFrame(s: Desk, s': Desk)
    requires TracesOk(s) && s'.runs == s.runs && s'.everRun == s.everRun && s'.executions == s.executions
    requires s'.ledger == s.ledger && s'.used == s.used
    ensures TracesOk(s')
  {
    forall x | 0 <= x < |s'.executions|
      ensures TraceOk(s', x)
    {
      assert TraceOk(s, x);
    }
  }

  lemma LaunchesFrame(s: Desk, s': Desk)
    requires LaunchesOk(s) && s'.launches == s.launches && s'.executions == s.executions
    ensures LaunchesOk(s')
  {
  }

  // ---------------------------------------------------------------- one execution moves on

  /** Only this execution changes, and in the ledger at most its own entry. */
  ghost predicate Touches(s: Desk, s': Desk, x: nat) {
    && x < |s.executions| == |s'.executions|
    && s' == s.(executions := s'.executions, ledger := s'.ledger, launches := s'.launches)
    && (forall y :: 0 <= y < |s.executions| && y != x ==> s'.executions[y] == s.executions[y])
    && s'.executions[x].approval == s.executions[x].approval
    && s'.executions[x].entry == s.executions[x].entry
    && s'.executions[x].run == s.executions[x].run
    && s'.executions[x].controlled == s.executions[x].controlled
    && s'.ledger.Keys == s.ledger.Keys
    && (forall e :: e in s.ledger && s.executions[x].entry != Some(e) ==> s'.ledger[e] == s.ledger[e])
    && (forall e :: e in s.ledger ==> s'.ledger[e].run == s.ledger[e].run)
  }

  lemma TouchGates(s: Desk, s': Desk, x: nat)
    requires GatesOk(s) && Touches(s, s', x) && GateOk(s', x)
    ensures GatesOk(s')
  {
    forall y | 0 <= y < |s'.executions|
      ensures GateOk(s', y)
    {
      assert GateOk(s, y);
    }
  }

  lemma TouchTraces(s: Desk, s': Desk, x: nat)
    requires TracesOk(s) && Touches(s, s', x) && TraceOk(s', x)
    ensures TracesOk(s')
  {
    forall y | 0 <= y < |s'.executions|
      ensures TraceOk(s', y)
    {
      assert TraceOk(s, y);
    }
  }

  lemma SoundTouch(s: Desk, s': Desk, x: nat)
    requires Sound(s) && Touches(s, s', x) && GateOk(s', x) && TraceOk(s', x)
    requires s'.launches == s.launches && s'.executions[x].launched == s.executions[x].launched
    ensures Sound(s')
  {
    hide GatesOk, TracesOk, GateOk, TraceOk, ApprovalsOk;
    ApprovalsFrame(s, s');
    TouchGates(s, s', x);
    TouchTraces(s, s', x);
  }

  lemma GateAndTrace(s: Desk, x: nat)
    requires Sound(s) && x < |s.executions|
    ensures GateOk(s, x) && TraceOk(s, x)
  {
  }

  lemma FutureIsStatus(s: Desk, p: nat)
    requires Sound(s) && p < |s.approvals|
    ensures ApprovalOk(s.approvals[p])
  {
  }

  lemma SoundSetPhase(s: Desk, x: nat, phase: Phase)
    requires Sound(s) && x < |s.executions|
    requires phase.Finished? || phase.Dead?
    ensures Sound(SetPhase(s, x, phase))
  {
    hide Sound;
    GateAndTrace(s, x);
    SoundTouch(s, SetPhase(s, x, phase), x);
  }

  lemma SoundWake(s: Desk, x: nat)
    requires Sound(s)
    ensures Sound(WakeNext(s, x))
  {
    hide Sound;
    if At(s, x, Waiting) && s.executions[x].approval.Some? && s.executions[x].approval.value < |s.approvals| {
      GateAndTrace(s, x);
      FutureIsStatus(s, s.executions[x].approval.value);
      if s.approvals[s.executions[x].approval.value].future.Some? {
        SoundTouch(s, WakeNext(s, x), x);
      }
    }
  }

  lemma SoundWaitEnds(s: Desk, x: nat)
    requires Sound(s)
    ensures Sound(TimeOutNext(s, x)) && Sound(CancelWaitNext(s, x))
  {
    hide Sound;
    if At(s, x, Waiting) && s.executions[x].approval.Some? && s.executions[x].approval.value < |s.approvals| {
      var p := s.executions[x].approval.value;
      if s.approvals[p].status.Pending? {
        SoundSettle(s, p, Expired);
        SoundSettle(s, p, Cancelled);
        SoundSetPhase(Settle(s, p, Expired), x, Finished);
        SoundSetPhase(Settle(s, p, Cancelled), x, Dead);
      } else {
        SoundSetPhase(s, x, Finished);
        SoundSetPhase(s, x, Dead);
      }
    }
  }

  lemma SoundAwait(s: Desk, x: nat)
    requires Sound(s)
    ensures Sound(AwaitNext(s, x))
  {
    hide Sound;
    if At(s, x, Asked) {
      GateAndTrace(s, x);
      SoundTouch(s, AwaitNext(s, x), x);
    }
  }

  lemma SoundStarted(s: Desk, x: nat)
    requires Sound(s)
    ensures Sound(StartedNext(s, x))
  {
    hide Sound;
    if At(s, x, Intended) && s.executions[x].entry.Some? {
      GateAndTrace(s, x);
      SoundTouch(s, StartedNext(s, x), x);
    }
  }

  lemma SoundLaunch(s: Desk, x: nat)
    requires Sound(s)
    ensures Sound(LaunchNext(s, x))
  {
    hide Sound;
    if At(s, x, Started) && !s.executions[x].launched && s.executions[x].controlled {
      var s' := LaunchNext(s, x);
      GateAndTrace(s, x);
      LaunchIsNew(s, x);
      SoundParts(s);
      hide ApprovalsOk, GatesOk, TracesOk, LaunchesOk;
      ApprovalsFrame(s, s');
      TouchGates(s, s', x);
      TouchTraces(s, s', x);
      SoundFrom(s');
    }
  }

  lemma SoundParts(s: Desk)
    requires Sound(s)
    ensures ApprovalsOk(s) && GatesOk(s) && TracesOk(s) && LaunchesOk(s)
  {
  }

  lemma SoundFrom(s: Desk)
    requires ApprovalsOk(s) && GatesOk(s) && TracesOk(s) && LaunchesOk(s)
    ensures Sound(s)
  {
  }

  lemma LaunchIsNew(s: Desk, x: nat)
    requires Sound(s) && At(s, x, Started) && !s.executions[x].launched && s.executions[x].controlled
    ensures LaunchesOk(LaunchNext(s, x))
  {
    hide ApprovalsOk, GatesOk, TracesOk;
    var s' := LaunchNext(s, x);
    assert x !in s.launches;
    forall y
      ensures y in s'.launches <==> 0 <= y < |s'.executions| && s'.executions[y].launched
    {
      assert y in s'.launches <==> y in s.launches || y == x;
    }
  }

  lemma SoundObserve(s: Desk, x: nat, outcome: Outcome)
    requires Sound(s)
    ensures Sound(ObserveNext(s, x, outcome))
  {
    hide Sound;
    if At(s, x, Started) && (outcome.Opened? && s.executions[x].controlled ==> s.executions[x].launched) {
      GateAndTrace(s, x);
      SoundTouch(s, ObserveNext(s, x, outcome), x);
    }
  }

  lemma SoundReport(s: Desk, x: nat)
    requires Sound(s)
    ensures Sound(ReportNext(s, x))
  {
    hide Sound;
    if x < |s.executions| && s.executions[x].phase.Reporting? && s.executions[x].entry.Some? {
      GateAndTrace(s, x);
      SoundTouch(s, ReportNext(s, x), x);
    }
  }

  // ---------------------------------------------------------------- new executions, approvals and entries

  lemma SoundInvoke(s: Desk, r: RunId, controlled: bool)
    requires Sound(s)
    ensures Sound(InvokeNext(s, r, controlled))
  {
    hide Sound;
    SoundParts(s);
    hide ApprovalsOk, GatesOk, TracesOk, LaunchesOk;
    if r in s.runs && (s.runs[r] || r in s.abandoned) {
      var s' := InvokeNext(s, r, controlled);
      ApprovalsFrame(s, s');
      InvokeGates(s, r, controlled);
      InvokeTraces(s, r, controlled);
      InvokeLaunches(s, r, controlled);
      SoundFrom(s');
    }
  }

  lemma InvokeGates(s: Desk, r: RunId, controlled: bool)
    requires GatesOk(s)
    ensures GatesOk(InvokeNext(s, r, controlled))
  {
    var s' := InvokeNext(s, r, controlled);
    forall x | 0 <= x < |s'.executions|
      ensures GateOk(s', x)
    {
      assert x < |s.executions| ==> GateOk(s, x);
    }
  }

  lemma InvokeTraces(s: Desk, r: RunId, controlled: bool)
    requires TracesOk(s)
    ensures TracesOk(InvokeNext(s, r, controlled))
  {
    var s' := InvokeNext(s, r, controlled);
    forall x | 0 <= x < |s'.executions|
      ensures TraceOk(s', x)
    {
      assert x < |s.executions| ==> TraceOk(s, x);
    }
  }

  lemma InvokeLaunches(s: Desk, r: RunId, controlled: bool)
    requires LaunchesOk(s)
    ensures LaunchesOk(InvokeNext(s, r, controlled))
  {
  }

  lemma SoundAsk(s: Desk, x: nat)
    requires Sound(s)
    ensures Sound(AskNext(s, x))
  {
    hide Sound;
    SoundParts(s);
    hide ApprovalsOk, GatesOk, TracesOk, LaunchesOk;
    if At(s, x, Invoked) {
      AskApprovals(s, x);
      AskGates(s, x);
      AskTraces(s, x);
      AskLaunches(s, x);
      SoundFrom(AskNext(s, x));
    }
  }

  lemma AskApprovals(s: Desk, x: nat)
    requires ApprovalsOk(s)
    ensures ApprovalsOk(AskNext(s, x))
  {
  }

  lemma AskGates(s: Desk, x: nat)
    requires GatesOk(s) && At(s, x, Invoked)
    ensures GatesOk(AskNext(s, x))
  {
    var s' := AskNext(s, x);
    forall y | 0 <= y < |s'.executions|
      ensures GateOk(s', y)
    {
      assert GateOk(s, y);
    }
    forall y, z | 0 <= y < z < |s'.executions| && s'.executions[y].approval.Some?
      ensures s'.executions[y].approval != s'.executions[z].approval
    {
      assert GateOk(s, y) && GateOk(s, z);
    }
  }

  lemma AskTraces(s: Desk, x: nat)
    requires TracesOk(s) && At(s, x, Invoked)
    ensures TracesOk(AskNext(s, x))
  {
    var s' := AskNext(s, x);
    forall y | 0 <= y < |s'.executions|
      ensures TraceOk(s', y)
    {
      assert TraceOk(s, y);
    }
  }

  lemma AskLaunches(s: Desk, x: nat)
    requires LaunchesOk(s) && At(s, x, Invoked)
    ensures LaunchesOk(AskNext(s, x))
  {
  }

  lemma SoundIntent(s: Desk, x: nat)
    requires Sound(s)
    ensures Sound(IntentNext(s, x))
  {
    hide Sound;
    SoundParts(s);
    hide ApprovalsOk, GatesOk, TracesOk, LaunchesOk;
    if At(s, x, Cleared) {
      if s.executions[x].run !in s.runs {
        SoundSetPhase(s, x, Dead);
      } else {
        ApprovalsFrame(s, IntentNext(s, x));
        IntentGates(s, x);
        IntentTraces(s, x);
        IntentLaunches(s, x);
        SoundFrom(IntentNext(s, x));
      }
    }
  }

  lemma IntentGates(s: Desk, x: nat)
    requires GatesOk(s) && At(s, x, Cleared)
    ensures GatesOk(IntentNext(s, x))
  {
    var s' := IntentNext(s, x);
    forall y | 0 <= y < |s'.executions|
      ensures GateOk(s', y)
    {
      assert GateOk(s, y);
    }
  }

  lemma IntentTraces(s: Desk, x: nat)
    requires TracesOk(s) && At(s, x, Cleared) && s.executions[x].run in s.runs
    ensures TracesOk(IntentNext(s, x))
  {
    var s' := IntentNext(s, x);
    forall y | 0 <= y < |s'.executions|
      ensures TraceOk(s', y)
    {
      assert TraceOk(s, y);
    }
    forall y, z | 0 <= y < z < |s'.executions| && s'.executions[y].entry.Some?
      ensures s'.executions[y].entry != s'.executions[z].entry
    {
      assert TraceOk(s, y) && TraceOk(s, z);
    }
  }

  lemma IntentLaunches(s: Desk, x: nat)
    requires LaunchesOk(s) && At(s, x, Cleared)
    ensures LaunchesOk(IntentNext(s, x))
  {
  }

  // ---------------------------------------------------------------- runs and crashes

  lemma SoundRuns(s: Desk, e: Event)
    requires Sound(s) && IsRunEvent(e)
    ensures Sound(RunNext(s, e))
  {
    hide Sound;
    SoundParts(s);
    hide ApprovalsOk, GatesOk, TracesOk, LaunchesOk;
    var s' := RunNext(s, e);
    ApprovalsFrame(s, s');
    GatesFrame(s, s');
    LaunchesFrame(s, s');
    if e.DeleteRun? {
      DeleteTraces(s, e.run);
    } else {
      SameRunsTraces(s, e);
    }
    SoundFrom(s');
  }

  lemma SameRunsTraces(s: Desk, e: Event)
    requires TracesOk(s) && IsRunEvent(e) && !e.DeleteRun?
    ensures TracesOk(RunNext(s, e))
  {
    var s' := RunNext(s, e);
    forall x | 0 <= x < |s'.executions|
      ensures TraceOk(s', x)
    {
      assert TraceOk(s, x);
    }
  }

  lemma DeleteTraces(s: Desk, r: RunId)
    requires TracesOk(s)
    ensures TracesOk(RunNext(s, DeleteRun(r)))
  {
    var s' := RunNext(s, DeleteRun(r));
    forall x | 0 <= x < |s'.executions|
      ensures TraceOk(s', x)
    {
      assert TraceOk(s, x);
    }
  }

  lemma SoundCrash(s: Desk)
    requires Sound(s)
    ensures Sound(CrashNext(s))
  {
    hide Sound;
    SoundParts(s);
    hide ApprovalsOk, GatesOk, TracesOk, LaunchesOk;
    CrashGates(s);
    CrashTraces(s);
    CrashRest(s);
    SoundFrom(CrashNext(s));
  }

  lemma CrashGates(s: Desk)
    requires GatesOk(s)
    ensures GatesOk(CrashNext(s))
  {
    var s' := CrashNext(s);
    forall x | 0 <= x < |s'.executions|
      ensures GateOk(s', x)
    {
      assert GateOk(s, x);
    }
  }

  lemma CrashTraces(s: Desk)
    requires TracesOk(s)
    ensures TracesOk(CrashNext(s))
  {
    var s' := CrashNext(s);
    forall x | 0 <= x < |s'.executions|
      ensures TraceOk(s', x)
    {
      assert TraceOk(s, x);
    }
  }

  lemma CrashRest(s: Desk)
    requires ApprovalsOk(s) && LaunchesOk(s)
    ensures ApprovalsOk(CrashNext(s)) && LaunchesOk(CrashNext(s))
  {
  }

  lemma SoundNext(s: Desk, e: Event)
    requires Sound(s)
    ensures Sound(Next(s, e))
  {
    hide Sound, RunNext, InvokeNext, AskNext, AwaitNext, WakeNext, TimeOutNext, CancelWaitNext, IntentNext, StartedNext,
      LaunchNext, ObserveNext, ReportNext, CrashNext, Settle, SetPhase;
    match e
    case BeginRun(_) => SoundRuns(s, e);
    case EndRun(_) => SoundRuns(s, e);
    case GiveUpRun(_) => SoundRuns(s, e);
    case DeleteRun(_) => SoundRuns(s, e);
    case Invoke(r, controlled) => SoundInvoke(s, r, controlled);
    case Ask(x) => SoundAsk(s, x);
    case AwaitDecision(x) => SoundAwait(s, x);
    case Decide(p, approved, overdue) =>
      if Undecided(s, p) {
        SoundSettle(s, p, if overdue then Expired else if approved then Approved else Rejected);
      }
    case CancelApproval(p) =>
      if Undecided(s, p) {
        SoundSettle(s, p, Cancelled);
      }
    case Wake(x) => SoundWake(s, x);
    case WaitTimesOut(x) => SoundWaitEnds(s, x);
    case WaitIsCancelled(x) => SoundWaitEnds(s, x);
    case RecordIntent(x) => SoundIntent(s, x);
    case RecordStarted(x) => SoundStarted(s, x);
    case Launch(x) => SoundLaunch(s, x);
    case Observe(x, outcome) => SoundObserve(s, x, outcome);
    case Report(x) => SoundReport(s, x);
    case Abort(x) =>
      if x < |s.executions| {
        SoundSetPhase(s, x, Dead);
      }
    case Crash => SoundCrash(s);
  }
}
