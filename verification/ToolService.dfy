/** services/remote.py: `ApprovalService`, and services/tools.py: one call of `ToolService.execute`, both changing their
    records in place. */
module ToolServices {
  import opened Prelude
  import opened Tools
  import Recoveries

  /** The machine with these approvals, all of this process. */
  ghost function Desked(approvals: seq<Approval>): Desk {
    INITIAL.(approvals := approvals)
  }

  /** The machine with one execution that waits for approval `p`. */
  ghost function WaitedFor(approvals: seq<Approval>, p: nat): Desk {
    Desked(approvals).(executions := [Execution(0, true, Waiting, Some(p), None, false)])
  }

  datatype DecideResult = Unknown | Conflict | Overdue | Decided(status: ApprovalStatus)

  /** What a waiter gets back. */
  datatype Waited = NotWaiting | Answer(status: ApprovalStatus)

  class ApprovalService {
    var approvals: seq<Approval>

    ghost predicate Valid()
      reads this
    {
      forall p :: 0 <= p < |approvals| ==> ApprovalOk(approvals[p])
    }

    constructor ()
      ensures Valid() && approvals == []
    {
      approvals := [];
    }

    method Create() returns (p: nat)
      requires Valid()
      modifies this
      ensures Valid() && p == |old(approvals)| && approvals == old(approvals) + [Approval(Pending, None)]
    {
      p := |approvals|;
      approvals := approvals + [Approval(Pending, None)];
    }

    /** `decide`: an approval that is no longer pending is a conflict; an overdue one expires, and that is reported as a
        conflict too, without waking the waiter. */
    method Decide(p: nat, approved: bool, overdue: bool) returns (result: DecideResult)
      requires Valid()
      modifies this
      ensures Valid()
      ensures p >= |old(approvals)| ==> result == Unknown && approvals == old(approvals)
      ensures p < |old(approvals)| && !old(approvals)[p].status.Pending? ==>
                result == Conflict && approvals == old(approvals)
      ensures p < |old(approvals)| && old(approvals)[p].status.Pending? ==>
                var status := if overdue then Expired else if approved then Approved else Rejected;
                && approvals == old(approvals)[p := Approval(status, if overdue then None else Some(status))]
                && result == if overdue then Overdue else Decided(status)
      ensures approvals == Next(Desked(old(approvals)), Tools.Decide(p, approved, overdue)).approvals
      ensures result.Decided? ==> p < |approvals| && approvals[p] == Approval(result.status, Some(result.status))
    {
      if p >= |approvals| {
        return Unknown;
      }
      var a := approvals[p];
      assert ApprovalOk(a);
      if !a.status.Pending? {
        return Conflict;
      }
      if overdue {
        approvals := approvals[p := a.(status := Expired)];
        return Overdue;
      }
      var status := if approved then Approved else Rejected;
      approvals := approvals[p := a.(status := status)];
      if a.future.None? {
        approvals := approvals[p := approvals[p].(future := Some(status))];
      }
      result := Decided(status);
    }

    /** `wait_for_decision` once its timeout has passed: it answers "expired" whatever the status is by then. */
    method TimeOut(p: nat) returns (waited: Waited)
      requires Valid()
      modifies this
      ensures Valid()
      ensures waited == if p < |old(approvals)| then Answer(Expired) else Answer(Cancelled)
      ensures p < |old(approvals)| ==>
                var after := Next(WaitedFor(old(approvals), p), WaitTimesOut(0));
                after.approvals == approvals && after.executions[0].phase == Finished
      ensures approvals == if p < |old(approvals)| && old(approvals)[p].status.Pending?
                           then old(approvals)[p := Approval(Expired, None)] else old(approvals)
    {
      if p >= |approvals| {
        return Answer(Cancelled);
      }
      assert ApprovalOk(approvals[p]);
      if approvals[p].status.Pending? {
        approvals := approvals[p := approvals[p].(status := Expired)];
      }
      waited := Answer(Expired);
    }

    /** `wait_for_decision` when the future is set first: the answer is the approval's status. */
    method Wake(p: nat) returns (waited: Waited)
      requires Valid()
      ensures waited == if p >= |approvals| then Answer(Cancelled)
                        else if approvals[p].status.Pending? || approvals[p].status.Expired? then NotWaiting
                        else Answer(approvals[p].status)
      ensures p < |approvals| ==>
                var after := Next(WaitedFor(approvals, p), Tools.Wake(0));
                after.executions[0].phase == match waited
                                             case NotWaiting => Waiting
                                             case Answer(status) => if status.Approved? then Cleared else Finished
    {
      if p >= |approvals| {
        return Answer(Cancelled);
      }
      assert ApprovalOk(approvals[p]);
      match approvals[p].future {
        case None => waited := NotWaiting;
        case Some(status) => waited := Answer(status);
      }
    }

    /** `cancel`. */
    method Cancel(p: nat)
      requires Valid()
      modifies this
      ensures Valid()
      ensures approvals == Next(Desked(old(approvals)), CancelApproval(p)).approvals
      ensures approvals == if p < |old(approvals)| && old(approvals)[p].status.Pending?
                           then old(approvals)[p := Approval(Cancelled, Some(Cancelled))] else old(approvals)
    {
      if p >= |approvals| || !approvals[p].status.Pending? {
        return;
      }
      assert ApprovalOk(approvals[p]);
      approvals := approvals[p := approvals[p].(status := Cancelled)];
      if approvals[p].future.None? {
        approvals := approvals[p := approvals[p].(future := Some(Cancelled))];
      }
    }
  }

  // ---------------------------------------------------------------- one call of execute

  datatype Tool = CurrentTime | OpenApplication

  datatype ToolStatus = PendingApproval | ToolSucceeded | ToolFailed | ToolRejected | ToolExpired | ToolCancelled

  datatype ToolResult = ToolResult(status: ToolStatus, error: string)

  /** The order in which things become durable or reach the outside. */
  datatype Mark =
    | InvocationCreated(initial: ToolStatus)
    | IntentCommitted
    | StartedCommitted
    | LauncherCalled
    | InvocationCompleted(status: ToolStatus)
    | LedgerCommitted(action: Recoveries.ActionStatus)

  /** The request: whether tools are on, which tool if it is registered, whether its arguments validate, and whether the
      application is on the allowlist. */
  datatype Request = Request(enabled: bool, tool: Option<Tool>, valid: bool, allowed: bool)

  function Refusal(q: Request): Option<string> {
    if !q.enabled then Some("tool_disabled")
    else if q.tool.None? then Some("tool_not_found")
    else if !q.valid then Some("tool_invalid_arguments")
    else if q.tool.value.OpenApplication? && !q.allowed then Some("tool_not_allowed")
    else None
  }

  function ResultOf(outcome: Outcome): ToolResult {
    match outcome
    case Opened => ToolResult(ToolSucceeded, "")
    case NotOpened => ToolResult(ToolFailed, "tool_execution_failed")
    case TimedOut => ToolResult(ToolFailed, "tool_timeout")
    case Interrupted => ToolResult(ToolCancelled, "tool_cancelled")
  }

  function Denied(decision: ApprovalStatus): ToolResult {
    match decision
    case Rejected => ToolResult(ToolRejected, "")
    case Expired => ToolResult(ToolExpired, "")
    case _ => ToolResult(ToolCancelled, "")
  }

  /** A launch stands after a committed STARTED, and before it there is no other launch. */
  ghost predicate WriteAhead(journal: seq<Mark>) {
    forall i :: 0 <= i < |journal| && journal[i].LauncherCalled? ==>
      && StartedCommitted in journal[..i]
      && IntentCommitted in journal[..i]
      && LauncherCalled !in journal[..i]
  }

  lemma NoLaunch(journal: seq<Mark>)
    requires LauncherCalled !in journal
    ensures WriteAhead(journal)
  {
  }

  lemma LaunchAfterStarted(created: Mark, rest: seq<Mark>)
    requires !created.LauncherCalled? && LauncherCalled !in rest
    ensures WriteAhead([created, IntentCommitted, StartedCommitted, LauncherCalled] + rest)
  {
    var before := [created, IntentCommitted, StartedCommitted];
    var journal := before + [LauncherCalled] + rest;
    assert journal == [created, IntentCommitted, StartedCommitted, LauncherCalled] + rest;
    assert journal[..3] == before;
    assert before[1] == IntentCommitted && before[2] == StartedCommitted;
    forall i | 3 < i < |journal|
      ensures !journal[i].LauncherCalled?
    {
      assert journal[i] == rest[i - 4];
      assert rest[i - 4] in rest;
    }
  }

  /** What a call that gets past the checks and the decision leaves behind. */
  ghost function FullJournal(controlled: bool, outcome: Outcome): seq<Mark> {
    var status := ResultOf(outcome).status;
    if controlled then
      [InvocationCreated(PendingApproval), IntentCommitted, StartedCommitted, LauncherCalled,
       InvocationCompleted(status), LedgerCommitted(ReportOf(outcome))]
    else
      [InvocationCreated(ToolSucceeded), IntentCommitted, StartedCommitted,
       InvocationCompleted(status), LedgerCommitted(ReportOf(outcome))]
  }

  /** How a call ends whose tool returned so: its result, and the last two commits. */
  ghost predicate EndsSo(outcome: Outcome, result: ToolResult, journal: seq<Mark>) {
    && |journal| >= 2
    && var completed, last := journal[|journal| - 2], journal[|journal| - 1];
       match outcome
       case Opened =>
         && result == ToolResult(ToolSucceeded, "")
         && completed == InvocationCompleted(ToolSucceeded)
         && last == LedgerCommitted(Recoveries.Confirmed)
       case NotOpened =>
         && result == ToolResult(ToolFailed, "tool_execution_failed")
         && completed == InvocationCompleted(ToolFailed)
         && last == LedgerCommitted(Recoveries.Failed)
       case TimedOut =>
         && result == ToolResult(ToolFailed, "tool_timeout")
         && completed == InvocationCompleted(ToolFailed)
         && last == LedgerCommitted(Recoveries.Uncertain)
       case Interrupted =>
         && result == ToolResult(ToolCancelled, "tool_cancelled")
         && completed == InvocationCompleted(ToolCancelled)
         && last == LedgerCommitted(Recoveries.Uncertain)
  }

  /** The result of a call that is not let through, and what it commits. */
  ghost predicate TurnedAway(q: Request, decision: ApprovalStatus, result: ToolResult, journal: seq<Mark>) {
    if !q.enabled then result == ToolResult(ToolFailed, "tool_disabled") && journal == []
    else if q.tool == None then result == ToolResult(ToolFailed, "tool_not_found") && journal == []
    else if !q.valid then result == ToolResult(ToolFailed, "tool_invalid_arguments") && journal == []
    else if q.tool == Some(OpenApplication) && !q.allowed
    then result == ToolResult(ToolFailed, "tool_not_allowed") && journal == []
    else if q.tool == Some(OpenApplication) && !decision.Approved? then
      && result == ToolResult(match decision
                              case Rejected => ToolRejected
                              case Expired => ToolExpired
                              case _ => ToolCancelled, "")
      && journal == [InvocationCreated(PendingApproval), InvocationCompleted(result.status)]
    else false
  }

  /** Everything is in order, and a controlled tool has been approved. */
  predicate LetThrough(q: Request, decision: ApprovalStatus) {
    && q.enabled && q.valid
    && (q.tool == Some(CurrentTime) || (q.tool == Some(OpenApplication) && q.allowed && decision == Approved))
  }

  /** `execute`, from the checks to the last commit. `decision` is what the wait for the approval returned and
      `outcome` how the tool returned; neither is looked at unless the call gets that far. */
  method Execute(q: Request, decision: ApprovalStatus, outcome: Outcome)
    returns (result: ToolResult, journal: seq<Mark>)
    requires !decision.Pending?
    ensures WriteAhead(journal)
    ensures Refusal(q).Some? ==> result == ToolResult(ToolFailed, Refusal(q).value) && journal == []
    ensures Refusal(q).None? && q.tool.value.OpenApplication? && !decision.Approved? ==>
              && result == Denied(decision)
              && journal == [InvocationCreated(PendingApproval), InvocationCompleted(result.status)]
    ensures Refusal(q).None? && (q.tool.value.OpenApplication? ==> decision.Approved?) ==>
              && result == ResultOf(outcome)
              && journal == FullJournal(q.tool.value.OpenApplication?, outcome)
    ensures if LetThrough(q, decision) then
              && EndsSo(outcome, result, journal)
              && journal[..|journal| - 2]
                 == if q.tool == Some(OpenApplication)
                    then [InvocationCreated(PendingApproval), IntentCommitted, StartedCommitted, LauncherCalled]
                    else [InvocationCreated(ToolSucceeded), IntentCommitted, StartedCommitted]
            else TurnedAway(q, decision, result, journal)
  {
    journal := [];
    if !q.enabled {
      return ToolResult(ToolFailed, "tool_disabled"), [];
    }
    if q.tool.None? {
      return ToolResult(ToolFailed, "tool_not_found"), [];
    }
    if !q.valid {
      return ToolResult(ToolFailed, "tool_invalid_arguments"), [];
    }
    var controlled := q.tool.value.OpenApplication?;
    if controlled && !q.allowed {
      return ToolResult(ToolFailed, "tool_not_allowed"), [];
    }
    journal := journal + [InvocationCreated(if controlled then PendingApproval else ToolSucceeded)];
    if controlled {
      if !decision.Approved? {
        result := Denied(decision);
        journal := journal + [InvocationCompleted(result.status)];
        return;
      }
    }
    journal := journal + [IntentCommitted, StartedCommitted];
    if controlled {
      journal := journal + [LauncherCalled];
    }
    var report: Recoveries.ActionStatus;
    match outcome {
      case Interrupted =>
        result := ToolResult(ToolCancelled, "tool_cancelled");
        report := Recoveries.Uncertain;
      case TimedOut =>
        result := ToolResult(ToolFailed, "tool_timeout");
        report := Recoveries.Uncertain;
      case NotOpened =>
        result := ToolResult(ToolFailed, "tool_execution_failed");
        report := Recoveries.Failed;
      case Opened =>
        result := ToolResult(ToolSucceeded, "");
        report := Recoveries.Confirmed;
    }
    var last := [InvocationCompleted(result.status), LedgerCommitted(report)];
    journal := journal + last;
    if controlled {
      LaunchAfterStarted(InvocationCreated(PendingApproval), last);
      assert journal
             == [InvocationCreated(PendingApproval), IntentCommitted, StartedCommitted, LauncherCalled] + last;
    } else {
      NoLaunch(journal);
    }
  }

  // ---------------------------------------------------------------- the journal as steps of the machine

  /** The steps of execution `x` that the marks stand for; the invocation's own row is not part of the machine. */
  ghost function StepsOf(mark: Mark, x: nat, outcome: Outcome): seq<Event> {
    match mark
    case IntentCommitted => [RecordIntent(x)]
    case StartedCommitted => [RecordStarted(x)]
    case LauncherCalled => [Launch(x)]
    case LedgerCommitted(_) => [Observe(x, outcome), Report(x)]
    case _ => []
  }

  ghost function Through(s: Desk, events: seq<Event>): Desk
    decreases |events|
  {
    if events == [] then s else Through(Next(s, events[0]), events[1..])
  }

  /** The machine after these marks of execution `x`. */
  ghost function Marked(s: Desk, journal: seq<Mark>, x: nat, outcome: Outcome): Desk {
    if journal == [] then s
    else Through(Marked(s, journal[..|journal| - 1], x, outcome), StepsOf(journal[|journal| - 1], x, outcome))
  }

  ghost predicate MayGoOn(s: Desk, x: nat) {
    Sound(s) && At(s, x, Cleared) && s.executions[x].run in s.runs
  }

  lemma {:induction false} ThroughSound(s: Desk, events: seq<Event>)
    requires Sound(s)
    ensures Sound(Through(s, events))
    decreases |events|
  {
    hide Sound, Next;
    if events != [] {
      SoundNext(s, events[0]);
      ThroughSound(Next(s, events[0]), events[1..]);
    }
  }

  lemma {:induction false} MarkedSound(s: Desk, journal: seq<Mark>, x: nat, outcome: Outcome)
    requires Sound(s)
    ensures Sound(Marked(s, journal, x, outcome))
  {
    hide Sound, Through, StepsOf;
    if journal != [] {
      MarkedSound(s, journal[..|journal| - 1], x, outcome);
      ThroughSound(Marked(s, journal[..|journal| - 1], x, outcome), StepsOf(journal[|journal| - 1], x, outcome));
    }
  }

  /** Execution `x` has its own new entry and has come this far; nothing else has changed. */
  ghost function Worked(s: Desk, x: nat, phase: Phase, status: Recoveries.ActionStatus, launched: bool): Desk
    requires x < |s.executions|
  {
    s.(executions := s.executions[x := s.executions[x].(phase := phase, entry := Some(s.used), launched := launched)],
       ledger := s.ledger[s.used := Entry(s.executions[x].run, x, status)],
       used := s.used + 1,
       launches := if launched then s.launches + [x] else s.launches)
  }

  lemma NotLaunchedYet(s: Desk, x: nat)
    requires MayGoOn(s, x)
    ensures !s.executions[x].launched && x !in s.launches
  {
    GateAndTrace(s, x);
  }

  lemma TakesRecording(s: Desk, x: nat)
    requires MayGoOn(s, x)
    ensures Next(s, RecordIntent(x)) == Worked(s, x, Intended, Recoveries.IntentRecorded, false)
    ensures Next(Worked(s, x, Intended, Recoveries.IntentRecorded, false), RecordStarted(x))
            == Worked(s, x, Started, Recoveries.Started, false)
  {
    NotLaunchedYet(s, x);
    hide Sound;
  }

  lemma TakesLaunch(s: Desk, x: nat)
    requires MayGoOn(s, x) && s.executions[x].controlled
    ensures Next(Worked(s, x, Started, Recoveries.Started, false), Launch(x))
            == Worked(s, x, Started, Recoveries.Started, true)
  {
    hide Sound;
  }

  lemma TakesReport(s: Desk, x: nat, outcome: Outcome)
    requires MayGoOn(s, x)
    ensures var t := Worked(s, x, Started, Recoveries.Started, s.executions[x].controlled);
            Next(Next(t, Observe(x, outcome)), Report(x))
            == Worked(s, x, Finished, ReportOf(outcome), s.executions[x].controlled)
  {
    hide Sound;
    var t := Worked(s, x, Started, Recoveries.Started, s.executions[x].controlled);
    var observed := Worked(s, x, Reporting(ReportOf(outcome)), Recoveries.Started, s.executions[x].controlled);
    assert Next(t, Observe(x, outcome)) == observed;
  }

  lemma ThroughSteps(s: Desk, e: Event, f: Event)
    ensures Through(s, []) == s
    ensures Through(s, [e]) == Next(s, e)
    ensures Through(s, [e, f]) == Next(Next(s, e), f)
  {
    hide Next;
    assert [e, f][1..] == [f] && [e][1..] == [] && [f][1..] == [];
    assert Through(Next(s, e), [f]) == Through(Next(Next(s, e), f), []);
  }

  lemma OneMark(s: Desk, journal: seq<Mark>, k: nat, x: nat, outcome: Outcome)
    requires k < |journal|
    ensures var before, after := Marked(s, journal[..k], x, outcome), Marked(s, journal[..k + 1], x, outcome);
            match journal[k]
            case IntentCommitted => after == Next(before, RecordIntent(x))
            case StartedCommitted => after == Next(before, RecordStarted(x))
            case LauncherCalled => after == Next(before, Launch(x))
            case LedgerCommitted(_) => after == Next(Next(before, Observe(x, outcome)), Report(x))
            case _ => after == before
  {
    hide Next;
    assert journal[..k + 1][..k] == journal[..k];
    ThroughSteps(Marked(s, journal[..k], x, outcome), Observe(x, outcome), Report(x));
    ThroughSteps(Marked(s, journal[..k], x, outcome), RecordIntent(x), Report(x));
    ThroughSteps(Marked(s, journal[..k], x, outcome), RecordStarted(x), Report(x));
    ThroughSteps(Marked(s, journal[..k], x, outcome), Launch(x), Report(x));
  }

  lemma NothingMarked(s: Desk, journal: seq<Mark>, x: nat, outcome: Outcome)
    ensures Marked(s, journal[..0], x, outcome) == s
  {
  }

  /** How far a controlled execution is after `k` marks. */
  ghost function WorkedUntil(s: Desk, x: nat, outcome: Outcome, k: nat): Desk
    requires x < |s.executions|
  {
    if k < 2 then s
    else if k == 2 then Worked(s, x, Intended, Recoveries.IntentRecorded, false)
    else if k == 3 then Worked(s, x, Started, Recoveries.Started, false)
    else if k < 6 then Worked(s, x, Started, Recoveries.Started, true)
    else Worked(s, x, Finished, ReportOf(outcome), true)
  }

  lemma {:induction false} MarksOfControlled(s: Desk, x: nat, outcome: Outcome, k: nat)
    requires MayGoOn(s, x) && s.executions[x].controlled && k <= 6
    ensures Marked(s, FullJournal(true, outcome)[..k], x, outcome) == WorkedUntil(s, x, outcome, k)
  {
    hide Sound, Next, Marked, ReportOf, Worked;
    var journal := FullJournal(true, outcome);
    if k == 0 {
      NothingMarked(s, journal, x, outcome);
    } else {
      MarksOfControlled(s, x, outcome, k - 1);
      OneMark(s, journal, k - 1, x, outcome);
      TakesRecording(s, x);
      TakesLaunch(s, x);
      TakesReport(s, x, outcome);
    }
  }

  lemma MarksOfFree(s: Desk, x: nat, outcome: Outcome)
    requires MayGoOn(s, x) && !s.executions[x].controlled
    ensures Marked(s, FullJournal(false, outcome), x, outcome) == Worked(s, x, Finished, ReportOf(outcome), false)
  {
    hide Sound, Next, Marked, ReportOf, Worked;
    var journal := FullJournal(false, outcome);
    NothingMarked(s, journal, x, outcome);
    TakesRecording(s, x);
    TakesReport(s, x, outcome);
    OneMark(s, journal, 0, x, outcome);
    OneMark(s, journal, 1, x, outcome);
    OneMark(s, journal, 2, x, outcome);
    OneMark(s, journal, 3, x, outcome);
    OneMark(s, journal, 4, x, outcome);
    assert journal[..5] == journal;
  }

  /** Every mark is a step that the machine takes: the journal of a call is the run of one execution to its end, with
      one ledger entry that ends as reported, and a launch exactly for a controlled tool. */
  lemma JournalIsARun(s: Desk, x: nat, outcome: Outcome)
    requires MayGoOn(s, x)
    ensures var controlled := s.executions[x].controlled;
            var t := Marked(s, FullJournal(controlled, outcome), x, outcome);
            && At(t, x, Finished) && t.executions[x].entry == Some(s.used)
            && t.ledger == s.ledger[s.used := Entry(s.executions[x].run, x, ReportOf(outcome))]
            && t.launches == (if controlled then s.launches + [x] else s.launches)
            && t.approvals == s.approvals && t.runs == s.runs
  {
    hide Sound, Next, Marked, ReportOf;
    if s.executions[x].controlled {
      MarksOfControlled(s, x, outcome, 6);
      assert FullJournal(true, outcome)[..6] == FullJournal(true, outcome);
    } else {
      MarksOfFree(s, x, outcome);
    }
  }

  /** Wherever a cancellation or an error cuts a call off, the machine's execution can end there too: its launch stands
      in the history exactly if the launcher was called, and then its entry is in the ledger, past INTENT_RECORDED. */
  lemma CutOffAnywhere(s: Desk, x: nat, outcome: Outcome, k: nat)
    requires MayGoOn(s, x) && s.executions[x].controlled && k <= 6
    ensures var journal := FullJournal(true, outcome)[..k];
            var t := Next(Marked(s, journal, x, outcome), Abort(x));
            && Sound(t) && At(t, x, Dead)
            && (x in t.launches <==> LauncherCalled in journal)
            && (x in t.launches ==> s.used in t.ledger && Reached(t.ledger[s.used].status))
  {
    hide Sound, Marked;
    var journal := FullJournal(true, outcome)[..k];
    NotLaunchedYet(s, x);
    MarkedSound(s, journal, x, outcome);
    SoundNext(Marked(s, journal, x, outcome), Abort(x));
    MarksOfControlled(s, x, outcome, k);
    LaunchMark(outcome, k);
  }

  predicate Reached(status: Recoveries.ActionStatus) {
    status.Started? || Reported(status)
  }

  lemma LaunchMark(outcome: Outcome, k: nat)
    requires k <= 6
    ensures LauncherCalled in FullJournal(true, outcome)[..k] <==> k >= 4
  {
    assert FullJournal(true, outcome)[3] == LauncherCalled;
  }
}
