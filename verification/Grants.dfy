/** services/security.py and repositories/security.py: approvals, the grants they give, and lockdown. A transaction is
    one step; the permission check that comes before it is not part of it. */
module Grants {
  import opened Prelude

  type UserId = nat

  datatype Decision = AllowOnce | AllowForTask | Reject | Modify

  datatype ApprovalStatus = Pending | Approved | Rejected | Expired

  /** Expiry times are compared with the clock; everything else is only copied. */
  datatype Request = Request(requestedBy: UserId, action: nat, target: Option<nat>, run: Option<nat>, task: Option<nat>,
                             expires: int)

  datatype Approval = Approval(request: Request, status: ApprovalStatus, decision: Option<Decision>,
                               decidedBy: Option<UserId>)

  datatype Grant = Grant(issuer: UserId, subject: UserId, action: nat, target: Option<nat>, run: Option<nat>,
                         task: Option<nat>, expires: int, source: nat, active: bool)

  datatype Vault = Vault(approvals: seq<Approval>, grants: seq<Grant>, lockedDown: bool)

  const INITIAL := Vault([], [], false)

  datatype Event =
    | Create(request: Request)
    | Decide(user: UserId, approval: nat, decision: Decision, now: int)
    | Revoke(user: UserId, grant: nat)
    | Lock
    | Unlock

  datatype DecideResult = Unknown | HasExpired | NotPending | NeedsTask | Done(granted: Option<nat>)

  // ---------------------------------------------------------------- the transactions

  function DecideResultOf(s: Vault, p: nat, decision: Decision, now: int): DecideResult {
    if p >= |s.approvals| then Unknown
    else if s.approvals[p].request.expires <= now then HasExpired
    else if !s.approvals[p].status.Pending? then NotPending
    else if !decision.AllowForTask? then Done(None)
    else if s.approvals[p].request.task.None? then NeedsTask
    else Done(Some(|s.grants|))
  }

  /** The repository's conditional update: only a pending row changes. */
  function UpdatePending(s: Vault, p: nat, user: UserId, decision: Decision, status: ApprovalStatus): Vault
    requires p < |s.approvals|
  {
    if !s.approvals[p].status.Pending? then s
    else
      s.(approvals := s.approvals[p := s.approvals[p].(status := status, decision := Some(decision),
                                                       decidedBy := Some(user))])
  }

  function GrantFor(user: UserId, request: Request, source: nat): Grant {
    Grant(user, request.requestedBy, request.action, request.target, request.run, request.task, request.expires, source,
          true)
  }

  /** `decide_approval`: an overdue approval is closed as expired; a task-scoped decision on an approval without a task
      rolls back. */
  function DecideNext(s: Vault, user: UserId, p: nat, decision: Decision, now: int): Vault {
    match DecideResultOf(s, p, decision, now)
    case Unknown => s
    case HasExpired => UpdatePending(s, p, user, Reject, Expired)
    case NotPending => s
    case NeedsTask => s
    case Done(granted) =>
      var decided := UpdatePending(s, p, user, decision, if decision.Reject? then Rejected else Approved);
      if granted.None? then decided
      else decided.(grants := decided.grants + [GrantFor(user, s.approvals[p].request, p)])
  }

  /** `revoke_grant`: by its issuer, if it is still active. */
  function RevokeNext(s: Vault, user: UserId, g: nat): Vault {
    if g >= |s.grants| || s.grants[g].issuer != user then s
    else s.(grants := s.grants[g := s.grants[g].(active := false)])
  }

  function Deactivated(grants: seq<Grant>): seq<Grant> {
    seq(|grants|, i requires 0 <= i < |grants| => grants[i].(active := false))
  }

  /** `activate_lockdown`: does nothing when lockdown is on already. */
  function LockNext(s: Vault): Vault {
    if s.lockedDown then s else s.(lockedDown := true, grants := Deactivated(s.grants))
  }

  function Next(s: Vault, e: Event): Vault {
    match e
    case Create(request) => s.(approvals := s.approvals + [Approval(request, Pending, None, None)])
    case Decide(user, p, decision, now) => DecideNext(s, user, p, decision, now)
    case Revoke(user, g) => RevokeNext(s, user, g)
    case Lock => LockNext(s)
    case Unlock => s.(lockedDown := false)
  }

  // ---------------------------------------------------------------- a decision, said outright

  /** A task-scoped decision on a pending approval with a task, before it expires. */
  ghost predicate GivesGrant(s: Vault, p: nat, decision: Decision, now: int) {
    && p < |s.approvals| && now < s.approvals[p].request.expires && s.approvals[p].status == Pending
    && decision == AllowForTask && s.approvals[p].request.task != None
  }

  /** The approval is closed like this; no other approval changes. */
  ghost predicate Closes(s: Vault, s': Vault, p: nat, status: ApprovalStatus, decision: Decision, user: UserId)
    requires p < |s.approvals|
  {
    && s'.approvals == s.approvals[p := Approval(s.approvals[p].request, status, Some(decision), Some(user))]
    && s'.lockedDown == s.lockedDown
  }

  /** Each answer, with the condition for it and what it leaves. An overdue approval is never approved and gives no
      grant, whatever the decision; if it was pending, it is closed as expired. */
  ghost predicate DecidedAs(s: Vault, s': Vault, user: UserId, p: nat, decision: Decision, now: int,
                            result: DecideResult)
  {
    match result
    case Unknown => p >= |s.approvals| && s' == s
    case HasExpired =>
      && p < |s.approvals| && s.approvals[p].request.expires <= now
      && s'.grants == s.grants
      && if s.approvals[p].status == Pending then Closes(s, s', p, Expired, Reject, user) else s' == s
    case NotPending =>
      p < |s.approvals| && now < s.approvals[p].request.expires && s.approvals[p].status != Pending && s' == s
    case NeedsTask =>
      && p < |s.approvals| && now < s.approvals[p].request.expires && s.approvals[p].status == Pending
      && decision == AllowForTask && s.approvals[p].request.task == None && s' == s
    case Done(granted) =>
      && p < |s.approvals| && now < s.approvals[p].request.expires && s.approvals[p].status == Pending
      && Closes(s, s', p, if decision == Reject then Rejected else Approved, decision, user)
      && (granted.Some? <==> GivesGrant(s, p, decision, now))
      && (decision == AllowForTask ==> s.approvals[p].request.task != None)
      && match granted
         case None => s'.grants == s.grants
         case Some(g) =>
           var r := s.approvals[p].request;
           && g == |s.grants|
           && s'.grants
              == s.grants + [Grant(user, r.requestedBy, r.action, r.target, r.run, r.task, r.expires, p, true)]
  }

  /** The transaction does what is said of its answer, and the answers exclude one another. */
  lemma DecideSays(s: Vault, user: UserId, p: nat, decision: Decision, now: int, result: DecideResult)
    ensures DecidedAs(s, DecideNext(s, user, p, decision, now), user, p, decision, now, result)
            <==> result == DecideResultOf(s, p, decision, now)
  {
  }

  /** A decision that comes when the approval has expired. */
  lemma OverdueGivesNothing(s: Vault, user: UserId, p: nat, decision: Decision, now: int)
    requires p < |s.approvals| && s.approvals[p].request.expires <= now
    ensures var s' := Next(s, Decide(user, p, decision, now));
            && s'.grants == s.grants
            && s'.approvals
               == if s.approvals[p].status == Pending
                  then s.approvals[p := s.approvals[p].(status := Expired, decision := Some(Reject),
                                                        decidedBy := Some(user))]
                  else s.approvals
  {
  }

  // ---------------------------------------------------------------- what stays true

  /** A grant comes from a task-scoped approval and copies what was asked for. */
  ghost predicate GrantOk(s: Vault, g: Grant) {
    && g.source < |s.approvals|
    && var a := s.approvals[g.source];
       && a.status.Approved?
       && a.decision == Some(AllowForTask)
       && a.decidedBy == Some(g.issuer)
       && a.request.task.Some?
       && g.(active := true) == GrantFor(g.issuer, a.request, g.source)
  }

  ghost predicate ApprovalOk(a: Approval) {
    && (a.status.Pending? <==> a.decision.None?)
    && (a.status.Approved? ==> a.decision.Some? && !a.decision.value.Reject?)
    && (a.status.Rejected? || a.status.Expired? ==> a.decision == Some(Reject))
  }

  /** An approval that was decided for a task has its grant. */
  ghost predicate HasGrant(s: Vault, p: nat) {
    exists i :: 0 <= i < |s.grants| && s.grants[i].source == p
  }

  ghost predicate ApprovalsOk(s: Vault) {
    forall p :: 0 <= p < |s.approvals| ==> ApprovalOk(s.approvals[p])
  }

  ghost predicate GrantsOk(s: Vault) {
    && (forall i :: 0 <= i < |s.grants| ==> GrantOk(s, s.grants[i]))
    && (forall i, j :: 0 <= i < j < |s.grants| ==> s.grants[i].source != s.grants[j].source)
  }

  ghost predicate AllGranted(s: Vault) {
    forall p :: 0 <= p < |s.approvals| && s.approvals[p].decision == Some(AllowForTask) ==> HasGrant(s, p)
  }

  ghost predicate Sound(s: Vault) {
    ApprovalsOk(s) && GrantsOk(s) && AllGranted(s)
  }

  ghost predicate NoneActive(s: Vault) {
    forall i :: 0 <= i < |s.grants| ==> !s.grants[i].active
  }

  /** Lockdown leaves no active grant. */
  ghost predicate LockHolds(s: Vault) {
    s.lockedDown ==> NoneActive(s)
  }

  lemma SoundDecide(s: Vault, user: UserId, p: nat, decision: Decision, now: int)
    requires Sound(s)
    ensures Sound(DecideNext(s, user, p, decision, now))
  {
    hide ApprovalsOk, GrantsOk, AllGranted, DecideNext;
    DecideApprovals(s, user, p, decision, now);
    DecideGrants(s, user, p, decision, now);
    DecideGranted(s, user, p, decision, now);
  }

  lemma DecideApprovals(s: Vault, user: UserId, p: nat, decision: Decision, now: int)
    requires ApprovalsOk(s)
    ensures ApprovalsOk(DecideNext(s, user, p, decision, now))
  {
  }

  lemma DecideGrants(s: Vault, user: UserId, p: nat, decision: Decision, now: int)
    requires GrantsOk(s)
    ensures GrantsOk(DecideNext(s, user, p, decision, now))
  {
    var s' := DecideNext(s, user, p, decision, now);
    if p < |s.approvals| && s.approvals[p].status.Pending? {
      NoGrantYet(s, p);
      forall i | 0 <= i < |s'.grants|
        ensures GrantOk(s', s'.grants[i])
      {
        assert i < |s.grants| ==> GrantOk(s, s.grants[i]);
      }
    }
  }

  lemma NoGrantYet(s: Vault, p: nat)
    requires GrantsOk(s) && p < |s.approvals| && s.approvals[p].status.Pending?
    ensures forall i :: 0 <= i < |s.grants| ==> s.grants[i].source != p
  {
    forall i | 0 <= i < |s.grants|
      ensures s.grants[i].source != p
    {
      assert GrantOk(s, s.grants[i]);
    }
  }

  lemma DecideGranted(s: Vault, user: UserId, p: nat, decision: Decision, now: int)
    requires AllGranted(s)
    ensures AllGranted(DecideNext(s, user, p, decision, now))
  {
    var s' := DecideNext(s, user, p, decision, now);
    forall q | 0 <= q < |s'.approvals| && s'.approvals[q].decision == Some(AllowForTask)
      ensures HasGrant(s', q)
    {
      if s.approvals[q].decision == Some(AllowForTask) {
        var i :| 0 <= i < |s.grants| && s.grants[i].source == q;
        assert s'.grants[i].source == q;
      } else {
        assert s'.grants[|s.grants|].source == q;
      }
    }
  }

  /** Only the activity of grants changes. */
  ghost predicate OnlyActivity(s: Vault, s': Vault) {
    && s'.approvals == s.approvals
    && |s'.grants| == |s.grants|
    && (forall i :: 0 <= i < |s.grants| ==> s'.grants[i] == s.grants[i].(active := s'.grants[i].active))
  }

  lemma SoundActivity(s: Vault, s': Vault)
    requires Sound(s) && OnlyActivity(s, s')
    ensures Sound(s')
  {
    forall i | 0 <= i < |s'.grants|
      ensures GrantOk(s', s'.grants[i])
    {
      assert GrantOk(s, s.grants[i]);
    }
    forall p | 0 <= p < |s'.approvals| && s'.approvals[p].decision == Some(AllowForTask)
      ensures HasGrant(s', p)
    {
      var i :| 0 <= i < |s.grants| && s.grants[i].source == p;
      assert s'.grants[i].source == p;
    }
  }

  lemma SoundCreate(s: Vault, request: Request)
    requires Sound(s)
    ensures Sound(Next(s, Create(request)))
  {
    var s' := Next(s, Create(request));
    forall i | 0 <= i < |s'.grants|
      ensures GrantOk(s', s'.grants[i])
    {
      assert GrantOk(s, s.grants[i]);
    }
    forall p | 0 <= p < |s'.approvals| && s'.approvals[p].decision == Some(AllowForTask)
      ensures HasGrant(s', p)
    {
      var i :| 0 <= i < |s.grants| && s.grants[i].source == p;
      assert s'.grants[i].source == p;
    }
  }

  lemma SoundNext(s: Vault, e: Event)
    requires Sound(s)
    ensures Sound(Next(s, e))
  {
    hide Sound, DecideNext;
    match e
    case Create(request) => SoundCreate(s, request);
    case Decide(user, p, decision, now) => SoundDecide(s, user, p, decision, now);
    case Revoke(user, g) => SoundActivity(s, RevokeNext(s, user, g));
    case Lock => SoundActivity(s, LockNext(s));
    case Unlock => SoundActivity(s, Next(s, e));
  }

  // ---------------------------------------------------------------- over whole histories

  ghost function Run(events: seq<Event>): Vault {
    if events == [] then INITIAL else Next(Run(events[..|events| - 1]), events[|events| - 1])
  }

  /** The invariant holds after every history. */
  lemma {:induction false} AlwaysSound(events: seq<Event>)
    ensures Sound(Run(events))
    decreases |events|
  {
    hide Next;
    if events != [] {
      AlwaysSound(events[..|events| - 1]);
      SoundNext(Run(events[..|events| - 1]), events[|events| - 1]);
    }
  }

  /** Decided approvals stay; grants stay but for losing their activity; requests are never edited. */
  ghost predicate Keeps(s: Vault, s': Vault) {
    && |s.approvals| <= |s'.approvals|
    && (forall p :: 0 <= p < |s.approvals| ==> KeepsApproval(s.approvals[p], s'.approvals[p]))
    && |s.grants| <= |s'.grants|
    && (forall i :: 0 <= i < |s.grants| ==> KeepsGrant(s.grants[i], s'.grants[i]))
  }

  ghost predicate KeepsApproval(a: Approval, a': Approval) {
    a'.request == a.request && (!a.status.Pending? ==> a' == a)
  }

  ghost predicate KeepsGrant(g: Grant, g': Grant) {
    g' == g.(active := g'.active) && (g'.active ==> g.active)
  }

  lemma KeepsNext(s: Vault, e: Event)
    ensures Keeps(s, Next(s, e))
  {
  }

  lemma KeepsThrough(s: Vault, t: Vault, u: Vault)
    requires Keeps(s, t) && Keeps(t, u)
    ensures Keeps(s, u)
  {
    forall p | 0 <= p < |s.approvals|
      ensures KeepsApproval(s.approvals[p], u.approvals[p])
    {
      assert KeepsApproval(s.approvals[p], t.approvals[p]) && KeepsApproval(t.approvals[p], u.approvals[p]);
    }
    forall i | 0 <= i < |s.grants|
      ensures KeepsGrant(s.grants[i], u.grants[i])
    {
      assert KeepsGrant(s.grants[i], t.grants[i]) && KeepsGrant(t.grants[i], u.grants[i]);
    }
  }

  lemma {:induction false} HistoryKeeps(events: seq<Event>, k: nat, m: nat)
    requires k <= m <= |events|
    ensures Keeps(Run(events[..k]), Run(events[..m]))
    decreases m - k
  {
    hide Next, Sound, KeepsApproval;
    if k == m {
      Itself(Run(events[..k]));
    } else {
      hide Keeps;
      HistoryKeeps(events, k, m - 1);
      assert events[..m][..m - 1] == events[..m - 1];
      KeepsNext(Run(events[..m - 1]), events[m - 1]);
      KeepsThrough(Run(events[..k]), Run(events[..m - 1]), Run(events[..m]));
    }
  }

  lemma Itself(s: Vault)
    ensures Keeps(s, s)
  {
  }

  /** At most one decision ever commits for an approval: once it is not pending, its row stays as it is, and every later
      decision on it changes nothing at all. */
  lemma DecidedOnce(events: seq<Event>, k: nat, m: nat, p: nat)
    requires k <= m <= |events| && p < |Run(events[..k]).approvals| && !Run(events[..k]).approvals[p].status.Pending?
    ensures p < |Run(events[..m]).approvals| && Run(events[..m]).approvals[p] == Run(events[..k]).approvals[p]
    ensures m < |events| && events[m].Decide? && events[m].approval == p ==>
              Run(events[..m + 1]) == Run(events[..m])
  {
    hide Sound;
    HistoryKeeps(events, k, m);
    if m < |events| {
      assert events[..m + 1][..m] == events[..m];
    }
  }

  /** Every grant comes from an approval of its own that its issuer decided for a task, and copies its action, target,
      run, task and expiry; and every approval decided for a task has its grant. */
  lemma GrantsAreSourced(events: seq<Event>, i: nat, p: nat)
    requires i < |Run(events).grants|
    ensures GrantOk(Run(events), Run(events).grants[i])
    ensures forall j :: 0 <= j < |Run(events).grants|
                        && Run(events).grants[j].source == Run(events).grants[i].source ==>
              j == i
    ensures p < |Run(events).approvals| ==>
              (HasGrant(Run(events), p) <==> Run(events).approvals[p].decision == Some(AllowForTask))
  {
    hide Run;
    AlwaysSound(events);
    var s := Run(events);
    if p < |s.approvals| && HasGrant(s, p) {
      var j :| 0 <= j < |s.grants| && s.grants[j].source == p;
      assert GrantOk(s, s.grants[j]);
    }
  }

  /** In this step the approval was taken out of PENDING: as expired when it was overdue, and otherwise by the decision
      it still shows. */
  ghost predicate ClosedBy(events: seq<Event>, k: nat, p: nat, row: Approval) {
    && k < |events| && events[k].Decide? && events[k].approval == p
    && p < |Run(events[..k]).approvals| && Run(events[..k]).approvals[p].status == Pending
    && row.decidedBy == Some(events[k].user)
    && if row.request.expires <= events[k].now then row.status == Expired && row.decision == Some(Reject)
       else row.status == (if events[k].decision == Reject then Rejected else Approved)
            && row.decision == Some(events[k].decision)
  }

  lemma CloseStep(s: Vault, e: Event, p: nat)
    requires p < |Next(s, e).approvals| && Next(s, e).approvals[p].status != Pending
    ensures p < |s.approvals|
    ensures var row := Next(s, e).approvals[p];
            if s.approvals[p].status != Pending then row == s.approvals[p]
            else e.Decide? && e.approval == p && row.decidedBy == Some(e.user)
                 && if row.request.expires <= e.now then row.status == Expired && row.decision == Some(Reject)
                    else row.status == (if e.decision == Reject then Rejected else Approved)
                         && row.decision == Some(e.decision)
  {
  }

  /** After every history: an approval that is not pending was closed by one decision. It is approved only if that
      decision came before the approval's expiry, and was no rejection. */
  lemma {:induction false} ClosedByADecision(events: seq<Event>, p: nat) returns (k: nat)
    requires p < |Run(events).approvals| && Run(events).approvals[p].status != Pending
    ensures ClosedBy(events, k, p, Run(events).approvals[p])
    ensures Run(events).approvals[p].status == Approved ==>
              events[k].now < Run(events).approvals[p].request.expires && events[k].decision != Reject
    decreases |events|
  {
    hide Next;
    var front := events[..|events| - 1];
    CloseStep(Run(front), events[|events| - 1], p);
    if Run(front).approvals[p].status != Pending {
      k := ClosedByADecision(front, p);
      assert front[..k] == events[..k];
    } else {
      k := |front|;
    }
  }

  /** In this step the grant was given: by its issuer, for a task, on a pending approval that had not expired. */
  ghost predicate GivenBy(events: seq<Event>, k: nat, i: nat, g: Grant) {
    && k < |events| && events[k].Decide? && events[k].approval == g.source
    && events[k].decision == AllowForTask && events[k].user == g.issuer && events[k].now < g.expires
    && g.source < |Run(events[..k]).approvals| && Run(events[..k]).approvals[g.source].status == Pending
    && Run(events[..k]).approvals[g.source].request.expires == g.expires
    && |Run(events[..k]).grants| == i
  }

  lemma GiveStep(s: Vault, e: Event, i: nat)
    requires i < |Next(s, e).grants|
    ensures var g := Next(s, e).grants[i];
            if i < |s.grants| then g == s.grants[i].(active := g.active)
            else e.Decide? && e.approval == g.source && e.decision == AllowForTask && e.user == g.issuer
                 && e.now < g.expires && g.source < |s.approvals| && s.approvals[g.source].status == Pending
                 && s.approvals[g.source].request.expires == g.expires && |s.grants| == i
  {
  }

  /** After every history: every grant was given by a decision that came before the expiry. */
  lemma {:induction false} GivenInTime(events: seq<Event>, i: nat) returns (k: nat)
    requires i < |Run(events).grants|
    ensures GivenBy(events, k, i, Run(events).grants[i])
    decreases |events|
  {
    hide Next;
    var front := events[..|events| - 1];
    GiveStep(Run(front), events[|events| - 1], i);
    if i < |Run(front).grants| {
      k := GivenInTime(front, i);
      assert front[..k] == events[..k];
    } else {
      k := |front|;
    }
  }

  /** A grant never becomes active again. */
  lemma NeverActiveAgain(events: seq<Event>, k: nat, m: nat, i: nat)
    requires k <= m <= |events| && i < |Run(events[..k]).grants| && !Run(events[..k]).grants[i].active
    ensures i < |Run(events[..m]).grants| && Run(events[..m]).grants[i] == Run(events[..k]).grants[i]
  {
    hide Run, Sound;
    HistoryKeeps(events, k, m);
    assert KeepsGrant(Run(events[..k]).grants[i], Run(events[..m]).grants[i]);
  }

  // ---------------------------------------------------------------- lockdown

  /** Some lockdown was activated, and none was lifted since. */
  ghost predicate LockedSince(events: seq<Event>, k: nat) {
    k < |events| && events[k] == Lock && forall j :: k < j < |events| ==> events[j] != Unlock
  }

  lemma {:induction false} LockedExactly(events: seq<Event>)
    ensures Run(events).lockedDown <==> exists k :: LockedSince(events, k)
    decreases |events|
  {
    if events != [] {
      var front, last := events[..|events| - 1], events[|events| - 1];
      LockedExactly(front);
      LockStep(Run(front), last);
      hide Next, Run;
      if k: nat :| LockedSince(front, k) {
        assert last != Unlock ==> LockedSince(events, k);
      }
      if last == Lock {
        assert LockedSince(events, |front|);
      }
      if k: nat :| LockedSince(events, k) {
        assert k < |front| ==> LockedSince(front, k);
      }
    }
  }

  lemma LockStep(s: Vault, e: Event)
    ensures Next(s, e).lockedDown == if e == Lock then true else if e == Unlock then false else s.lockedDown
  {
  }

  /** Each call is one step: its check, which refuses under lockdown, sees the state its transaction sees. */
  ghost predicate CallsAreAtomic(events: seq<Event>) {
    forall k :: 0 <= k < |events| && events[k].Decide? ==> !Run(events[..k]).lockedDown
  }

  /** A step keeps lockdown effective unless it is a task-scoped decision that commits while lockdown is on. */
  lemma LockHoldsExactly(s: Vault, e: Event)
    requires LockHolds(s)
    ensures LockHolds(Next(s, e)) <==>
              !(s.lockedDown && e.Decide? && GivesGrant(s, e.approval, e.decision, e.now))
  {
    var s' := Next(s, e);
    if s.lockedDown && e.Decide? && GivesGrant(s, e.approval, e.decision, e.now) {
      assert s'.grants[|s.grants|].active;
    }
  }

  /** With each call as one step, no grant is active under lockdown. */
  lemma {:induction false} LockdownLeavesNoGrant(events: seq<Event>)
    requires CallsAreAtomic(events)
    ensures LockHolds(Run(events))
    decreases |events|
  {
    hide Next, Sound, NoneActive;
    if events == [] {
      StartsUnlocked();
    } else {
      var before := events[..|events| - 1];
      forall k | 0 <= k < |before| && before[k].Decide?
        ensures !Run(before[..k]).lockedDown
      {
        assert before[..k] == events[..k];
      }
      LockdownLeavesNoGrant(before);
      LockHoldsExactly(Run(before), events[|events| - 1]);
    }
  }

  lemma StartsUnlocked()
    ensures LockHolds(INITIAL)
  {
  }

  /** The check and the transaction are two sessions. A decision that was checked before lockdown and commits after it
      leaves an active grant. */
  lemma LateDecisionGrants(user: UserId, request: Request, now: int)
    requires request.task.Some? && now < request.expires
    ensures !LockHolds(Run([Create(request), Lock, Decide(user, 0, AllowForTask, now)]))
  {
    var events := [Create(request), Lock, Decide(user, 0, AllowForTask, now)];
    assert events[..2] == [Create(request), Lock] && [Create(request), Lock][..1] == [Create(request)];
    assert [Create(request)][..0] == [];
    var locked := Run([Create(request), Lock]);
    assert Run([Create(request)]) == Next(INITIAL, Create(request));
    assert locked == Next(Run([Create(request)]), Lock);
    LockHoldsExactly(locked, events[2]);
  }

  // ---------------------------------------------------------------- the service

  datatype Principal = Principal(user: UserId, mayApprove: bool, isAdmin: bool, steppedUp: bool)

  class SecurityService {
    var approvals: seq<Approval>
    var grants: seq<Grant>
    var lockedDown: bool

    ghost function State(): Vault
      reads this
    {
      Vault(approvals, grants, lockedDown)
    }

    constructor ()
      ensures State() == INITIAL
    {
      approvals, grants, lockedDown := [], [], false;
    }

    /** The transaction of `decide_approval`. */
    method DecideApproval(user: UserId, p: nat, decision: Decision, now: int) returns (result: DecideResult)
      modifies this
      ensures State() == DecideNext(old(State()), user, p, decision, now)
      ensures result == DecideResultOf(old(State()), p, decision, now)
      ensures DecidedAs(old(State()), State(), user, p, decision, now, result)
    {
      hide DecidedAs;
      DecideSays(State(), user, p, decision, now, DecideResultOf(State(), p, decision, now));
      if p >= |approvals| {
        return Unknown;
      }
      var row := approvals[p];
      if row.request.expires <= now {
        if row.status.Pending? {
          approvals := approvals[p := row.(status := Expired, decision := Some(Reject), decidedBy := Some(user))];
        }
        return HasExpired;
      }
      if !row.status.Pending? {
        return NotPending;
      }
      if decision.AllowForTask? && row.request.task.None? {
        return NeedsTask;
      }
      approvals := approvals[p := row.(status := if decision.Reject? then Rejected else Approved,
                                       decision := Some(decision), decidedBy := Some(user))];
      var granted := None;
      if decision.AllowForTask? {
        granted := Some(|grants|);
        grants := grants + [GrantFor(user, row.request, p)];
      }
      result := Done(granted);
    }

    /** The transaction of `revoke_grant`; a grant of another issuer is reported as unknown. */
    method RevokeGrant(user: UserId, g: nat) returns (known: bool)
      modifies this`grants
      ensures State() == RevokeNext(old(State()), user, g)
      ensures known <==> g < |old(grants)| && old(grants)[g].issuer == user
      ensures grants == if known then old(grants)[g := old(grants)[g].(active := false)] else old(grants)
    {
      if g >= |grants| || grants[g].issuer != user {
        return false;
      }
      if grants[g].active {
        grants := grants[g := grants[g].(active := false)];
      }
      known := true;
    }

    /** `activate_lockdown`: needs an administrator with a stepped-up session; revokes one active grant after
        another. */
    method ActivateLockdown(who: Principal) returns (allowed: bool)
      modifies this
      ensures allowed <==> who.isAdmin && who.steppedUp
      ensures State() == if allowed then LockNext(old(State())) else old(State())
      ensures approvals == old(approvals) && |grants| == |old(grants)|
      ensures lockedDown == (allowed || old(lockedDown))
      ensures forall i :: 0 <= i < |grants| ==>
                grants[i] == if allowed && !old(lockedDown) then old(grants)[i].(active := false) else old(grants)[i]
    {
      if !who.isAdmin || !who.steppedUp {
        return false;
      }
      if !lockedDown {
        lockedDown := true;
        var i := 0;
        while i < |grants|
          invariant i <= |grants| == |old(grants)| && lockedDown && approvals == old(approvals)
          invariant forall j :: 0 <= j < |grants| ==>
                      grants[j] == if j < i then old(grants)[j].(active := false) else old(grants)[j]
        {
          if grants[i].active {
            grants := grants[i := grants[i].(active := false)];
          }
          i := i + 1;
        }
        assert grants == Deactivated(old(grants));
      }
      allowed := true;
    }

    /** One whole call of `decide_approval`, if nothing comes between its check and its transaction. */
    method CheckAndDecide(who: Principal, p: nat, decision: Decision, now: int) returns (result: Option<DecideResult>)
      requires LockHolds(State())
      modifies this
      ensures LockHolds(State())
      ensures result.Some? <==> (who.mayApprove || who.isAdmin) && !old(lockedDown)
      ensures State() == if result.Some? then DecideNext(old(State()), who.user, p, decision, now) else old(State())
      ensures result.Some? ==> DecidedAs(old(State()), State(), who.user, p, decision, now, result.value)
    {
      if (!who.mayApprove && !who.isAdmin) || lockedDown {
        return None;
      }
      LockHoldsExactly(State(), Decide(who.user, p, decision, now));
      var decided := DecideApproval(who.user, p, decision, now);
      result := Some(decided);
    }

    /** `revoke_grant` with its check: in lockdown a revocation is refused too, when no grant is active anyway. */
    method CheckAndRevoke(who: Principal, g: nat) returns (result: Option<bool>)
      requires LockHolds(State())
      modifies this
      ensures LockHolds(State())
      ensures result.Some? <==> (who.mayApprove || who.isAdmin) && !old(lockedDown)
      ensures State() == if result.Some? then RevokeNext(old(State()), who.user, g) else old(State())
      ensures result.None? && old(lockedDown) ==> forall i :: 0 <= i < |grants| ==> !grants[i].active
      ensures result == Some(true) ==> g < |grants| && !grants[g].active
      ensures grants == if result == Some(true) then old(grants)[g := old(grants)[g].(active := false)] else old(grants)
      ensures result.Some? ==> (result.value <==> g < |old(grants)| && old(grants)[g].issuer == who.user)
    {
      if (!who.mayApprove && !who.isAdmin) || lockedDown {
        return None;
      }
      var known := RevokeGrant(who.user, g);
      result := Some(known);
    }
  }
}
