/** services/nodes.py over whole runs: any interleaving of connects, replacements, disconnects, probes, results,
    timeouts and abandoned waits. */
module SessionRuns {
  import opened Prelude
  import opened NodeSessions

  /** The state after a run. A section is defined on a sound state, which by `AlwaysSound` every state is. */
  ghost function Run(lim: Limits, events: seq<Event>): Core {
    if events == [] then INITIAL
    else
      var s := Run(lim, events[..|events| - 1]);
      if Sound(s, lim) then Next(s, lim, events[|events| - 1]) else s
  }

  /** Every state is sound, whatever ids the callers choose. */
  lemma {:induction false} AlwaysSound(lim: Limits, events: seq<Event>)
    requires lim.Positive()
    ensures Sound(Run(lim, events), lim)
    decreases |events|
  {
    hide Sound, Next;
    if events == [] {
      StartsSound(lim);
    } else {
      AlwaysSound(lim, events[..|events| - 1]);
      SoundNext(Run(lim, events[..|events| - 1]), lim, events[|events| - 1]);
    }
  }

  lemma StartsSound(lim: Limits)
    ensures Sound(INITIAL, lim)
  {
    assert Bounded(INITIAL, lim);
    assert SessionsOk(INITIAL) && ProbesOk(INITIAL) && ConnectionsOk(INITIAL);
    hide SessionsOk, ProbesOk, ConnectionsOk, Bounded;
    assert Remembers([], [], lim.Window());
  }

  lemma LastStep(lim: Limits, events: seq<Event>, k: nat)
    requires lim.Positive() && k < |events|
    ensures Sound(Run(lim, events[..k]), lim)
    ensures Run(lim, events[..k + 1]) == Next(Run(lim, events[..k]), lim, events[k])
  {
    hide Sound, Next;
    AlwaysSound(lim, events[..k]);
    assert events[..k + 1][..k] == events[..k];
  }

  lemma RunStarts(lim: Limits, events: seq<Event>)
    ensures Run(lim, events[..0]) == INITIAL
  {
    hide Sound, Next;
  }

  /** Connections, pending probes, queued messages and remembered ids stay within their limits, and any
      tasks * connections + 1 consecutive dispatched ids differ from one another. */
  lemma WithinLimits(lim: Limits, events: seq<Event>)
    requires lim.Positive()
    ensures var s := Run(lim, events);
            && |s.connections| <= lim.connections
            && |s.recent| <= lim.tasks * lim.connections
            && (forall sid :: 0 <= sid < |s.sessions| ==>
                  |s.sessions[sid].pending| <= lim.tasks && |s.sessions[sid].queue| <= lim.messages)
            && (forall from, upto :: 0 <= from <= upto <= |s.dispatched|
                                     && upto - from <= lim.tasks * lim.connections + 1 ==>
                  Distinct(s.dispatched[from..upto]))
  {
    AlwaysSound(lim, events);
    var s := Run(lim, events);
    hide SessionsOk, ProbesOk, ConnectionsOk, Run, Distinct;
    forall from, upto | 0 <= from <= upto <= |s.dispatched| && upto - from <= lim.tasks * lim.connections + 1
      ensures Distinct(s.dispatched[from..upto])
    {
      WindowIsDistinct(s.recent, s.dispatched, lim.Window(), from, upto);
    }
  }

  lemma WindowIsDistinct(recent: seq<TaskId>, dispatched: seq<TaskId>, window: nat, from: nat, upto: nat)
    requires Remembers(recent, dispatched, window)
    requires from <= upto <= |dispatched| && upto - from <= window + 1
    ensures Distinct(dispatched[from..upto])
  {
    var part := dispatched[from..upto];
    forall i, j | 0 <= i < j < |part|
      ensures part[i] != part[j]
    {
      assert part[i] == dispatched[from + i] && part[j] == dispatched[from + j];
    }
  }

  // ---------------------------------------------------------------- settled once

  ghost predicate Final(f: Future) {
    !f.Open? && !f.TimedOut?
  }

  /** A probe that has an outcome keeps it for the rest of the run: it is settled at most once. */
  lemma {:induction false} SettledOnce(lim: Limits, events: seq<Event>, k: nat, m: nat, p: nat)
    requires lim.Positive() && k <= m <= |events|
    requires p < |Run(lim, events[..k]).probes| && Final(Run(lim, events[..k]).probes[p].future)
    ensures p < |Run(lim, events[..m]).probes|
    ensures Run(lim, events[..m]).probes[p] == Run(lim, events[..k]).probes[p]
    decreases m - k
  {
    hide Run, Sound, Next;
    if k < m {
      LastStep(lim, events, k);
      AdvancesNext(Run(lim, events[..k]), lim, events[k]);
      assert Advanced(Run(lim, events[..k]).probes[p], Run(lim, events[..k + 1]).probes[p]);
      SettledOnce(lim, events, k + 1, m, p);
    }
  }

  // ---------------------------------------------------------------- where an answer comes from

  /** The k-th event is the probe's own node answering the probe's id while the probe was still open. */
  ghost predicate AnsweredAt(lim: Limits, events: seq<Event>, k: nat, q: Probe, p: nat, reply: Reply)
  {
    && k < |events|
    && events[k] == Receive(q.node, q.task, reply)
    && p < |Run(lim, events[..k]).probes|
    && Run(lim, events[..k]).probes[p] == q.(future := Open)
  }

  ghost predicate IsAnswer(f: Future) {
    f.Settled? && f.verdict.Answered?
  }

  lemma DispatchAnswersNothing(s: Core, lim: Limits, n: NodeId, t: TaskId, p: nat)
    requires n in s.connections ==> s.connections[n] < |s.sessions|
    requires p < |DispatchNext(s, lim, n, t).probes| && IsAnswer(DispatchNext(s, lim, n, t).probes[p].future)
    ensures p < |s.probes| && s.probes[p] == DispatchNext(s, lim, n, t).probes[p]
  {
    hide Trim, Unlist;
  }

  lemma DropAnswersNothing(s: Core, n: NodeId, verdict: Verdict, p: nat)
    requires n in s.connections ==> s.connections[n] < |s.sessions|
    requires !verdict.Answered?
    requires p < |DropConnection(s, n, verdict).probes| && IsAnswer(DropConnection(s, n, verdict).probes[p].future)
    ensures p < |s.probes| && s.probes[p] == DropConnection(s, n, verdict).probes[p]
  {
  }

  lemma AnswersAreReceived(s: Core, lim: Limits, e: Event, p: nat)
    requires Sound(s, lim) && p < |Next(s, lim, e).probes| && IsAnswer(Next(s, lim, e).probes[p].future)
    requires p < |s.probes| ==> s.probes[p].future != Next(s, lim, e).probes[p].future
    ensures p < |s.probes| && s.probes[p].future.Open?
    ensures e == Receive(s.probes[p].node, s.probes[p].task, Next(s, lim, e).probes[p].future.verdict.reply)
  {
    hide Sound, DispatchNext, DropConnection, Unlist, Told;
    match e
    case Connect(n) =>
      if n in s.connections {
        ConnectionIndex(s, lim, n);
      }
      DropAnswersNothing(s, n, Replaced, p);
    case Disconnect(n) =>
      if n in s.connections {
        ConnectionIndex(s, lim, n);
      }
      DropAnswersNothing(s, n, Disconnected, p);
    case Dispatch(n, t) =>
      if n in s.connections {
        ConnectionIndex(s, lim, n);
      }
      DispatchAnswersNothing(s, lim, n, t, p);
    case Receive(n, t, reply) =>
      if n in s.connections {
        ConnectionIndex(s, lim, n);
        if t in s.sessions[s.connections[n]].pending {
          ListedProbe(s, lim, s.connections[n], t);
        }
      }
    case _ =>
  }

  /** An answer a waiter gets is one that its own node sent for its own id while it waited. */
  lemma {:induction false} AnswersComeFromTheNode(lim: Limits, events: seq<Event>, p: nat) returns (k: nat)
    requires lim.Positive() && p < |Run(lim, events).probes| && IsAnswer(Run(lim, events).probes[p].future)
    ensures AnsweredAt(lim, events, k, Run(lim, events).probes[p], p, Run(lim, events).probes[p].future.verdict.reply)
    decreases |events|
  {
    hide Sound, Next;
    var before, e := events[..|events| - 1], events[|events| - 1];
    var s := Run(lim, before);
    AlwaysSound(lim, before);
    AdvancesNext(s, lim, e);
    assert Run(lim, events) == Next(s, lim, e);
    hide Run;
    if p < |s.probes| {
      assert Advanced(s.probes[p], Next(s, lim, e).probes[p]);
    }
    if p < |s.probes| && s.probes[p].future == Next(s, lim, e).probes[p].future {
      k := AnswersComeFromTheNode(lim, before, p);
      assert before[..k] == events[..k];
    } else {
      AnswersAreReceived(s, lim, e, p);
      k := |before|;
    }
  }

  // ---------------------------------------------------------------- what the queues hold

  /** A request is for a probe of this session; a cancellation, for one whose waiter has an outcome already. */
  ghost predicate IsFor(s: Core, sid: nat, m: Message, p: nat) {
    && p < |s.probes| && s.probes[p].session == sid && s.probes[p].task == m.task
    && (m.Cancel? ==> Final(s.probes[p].future))
  }

  ghost predicate MessageOk(s: Core, sid: nat, m: Message) {
    exists p: nat :: IsFor(s, sid, m, p)
  }

  ghost predicate MessagesOk(s: Core) {
    forall sid, i :: 0 <= sid < |s.sessions| && 0 <= i < |s.sessions[sid].queue| ==>
                       MessageOk(s, sid, s.sessions[sid].queue[i])
  }

  /** The message was there before, or this section has put it there. */
  ghost predicate Queued(s: Core, s': Core, e: Event, sid: nat, m: Message) {
    || (sid < |s.sessions| && m in s.sessions[sid].queue)
    || (e.Dispatch? && m == Request(e.task) && IsFor(s', sid, m, |s.probes|))
    || (e.CleanUp? && e.probe < |s.probes| && m == Cancel(s.probes[e.probe].task) && IsFor(s', sid, m, e.probe))
  }

  lemma QueueStep(s: Core, lim: Limits, e: Event, sid: nat, i: nat)
    requires Sound(s, lim) && sid < |Next(s, lim, e).sessions| && i < |Next(s, lim, e).sessions[sid].queue|
    ensures Queued(s, Next(s, lim, e), e, sid, Next(s, lim, e).sessions[sid].queue[i])
  {
    hide Sound, ConnectNext, FailPending, DispatchNext, ReceiveNext, CleanUpNext, ProbesOk;
    match e
    case Connect(n) => ConnectSays(s, lim, n);
    case Disconnect(n) =>
      if n in s.connections {
        DropLoses(s, lim, n, Disconnected);
      }
    case Dispatch(n, t) => DispatchSays(s, lim, n, t);
    case Receive(n, t, reply) => ReceiveSays(s, lim, n, t, reply);
    case CleanUp(p) =>
      if p < |s.probes| {
        ProbeSession(s, lim, p);
      }
      NoCleanUp(s, lim, p);
      if p < |s.probes| && MayCleanUp(s.probes[p].future) {
        CleanUpSays(s, lim, p);
      }
    case TimerFires(p) => OtherSectionsSay(s, lim, p);
    case Abandon(p) => OtherSectionsSay(s, lim, p);
    case Take(k) => OtherSectionsSay(s, lim, k);
  }

  lemma NoCleanUp(s: Core, lim: Limits, p: nat)
    requires p < |s.probes| ==> s.probes[p].session < |s.sessions|
    ensures p >= |s.probes| || !MayCleanUp(s.probes[p].future) ==> CleanUpNext(s, lim, p) == s
  {
  }

  lemma StaysFor(s: Core, s': Core, sid: nat, m: Message)
    requires Advances(s, s') && MessageOk(s, sid, m)
    ensures MessageOk(s', sid, m)
  {
    var p: nat :| IsFor(s, sid, m, p);
    assert Advanced(s.probes[p], s'.probes[p]);
    assert IsFor(s', sid, m, p);
  }

  lemma MessagesNext(s: Core, lim: Limits, e: Event)
    requires Sound(s, lim) && MessagesOk(s)
    ensures MessagesOk(Next(s, lim, e))
  {
    hide Sound, Next, IsFor;
    var s' := Next(s, lim, e);
    AdvancesNext(s, lim, e);
    forall sid, i | 0 <= sid < |s'.sessions| && 0 <= i < |s'.sessions[sid].queue|
      ensures MessageOk(s', sid, s'.sessions[sid].queue[i])
    {
      var m := s'.sessions[sid].queue[i];
      QueueStep(s, lim, e, sid, i);
      if sid < |s.sessions| && m in s.sessions[sid].queue {
        assert MessageOk(s, sid, m);
        StaysFor(s, s', sid, m);
      }
    }
  }

  /** Over every run: a worker is asked, or told to cancel, only what was dispatched through its own session, and told
      to cancel only what nobody waits for any more. */
  lemma {:induction false} MessagesAreForOwnProbes(lim: Limits, events: seq<Event>)
    requires lim.Positive()
    ensures MessagesOk(Run(lim, events))
    decreases |events|
  {
    hide Sound, Next, MessageOk;
    if events != [] {
      var before := events[..|events| - 1];
      MessagesAreForOwnProbes(lim, before);
      AlwaysSound(lim, before);
      MessagesNext(Run(lim, before), lim, events[|events| - 1]);
    }
  }

  // ---------------------------------------------------------------- nothing is stranded

  /** Every dispatched id is new, as the ids the service generates are. */
  ghost predicate GeneratedIds(lim: Limits, events: seq<Event>) {
    forall k :: 0 <= k < |events| ==> FreshId(Run(lim, events[..k]), events[k])
  }

  lemma StartsUnstranded()
    ensures NothingStranded(INITIAL) && UniqueTasks(INITIAL)
  {
  }

  /** With generated ids an open probe is always listed by the session registered for its node, so the node's next
      answer, a replacement or a disconnect settles it. */
  lemma {:induction false} NeverStranded(lim: Limits, events: seq<Event>)
    requires lim.Positive() && GeneratedIds(lim, events)
    ensures NothingStranded(Run(lim, events)) && UniqueTasks(Run(lim, events))
    decreases |events|
  {
    hide Sound, Next, FreshId, NothingStranded, UniqueTasks;
    if events == [] {
      StartsUnstranded();
    } else {
      var before, e := events[..|events| - 1], events[|events| - 1];
      AlwaysSound(lim, before);
      assert Run(lim, events) == Next(Run(lim, before), lim, e);
      hide Run;
      forall k | 0 <= k < |before|
        ensures FreshId(Run(lim, before[..k]), before[k])
      {
        assert before[..k] == events[..k];
        assert FreshId(Run(lim, events[..k]), events[k]);
      }
      assert FreshId(Run(lim, before), e);
      NeverStranded(lim, before);
      StrandsNothingNext(Run(lim, before), lim, e);
      UniqueNext(Run(lim, before), lim, e);
    }
  }

  const SMALL := Limits(1, 2, 8)

  /** Two of three ids are answered, so the window of two forgets the first, which is still waiting; asking again
      under that id takes the first probe's entry. */
  const REUSE := [Connect(0), Dispatch(0, 1), Dispatch(0, 2), Receive(0, 2, Failure), Dispatch(0, 3),
                  Receive(0, 3, Failure), Dispatch(0, 1)]

  const ANSWERED := Settled(Answered(Failure))
  const AFTER_1 := Core(map[0 := 0], [Session(0, [], map[])], [], [], [])
  const AFTER_2 := Core(map[0 := 0], [Session(0, [Request(1)], map[1 := 0])], [Probe(0, 1, 0, Open)], [1], [1])
  const AFTER_3 := Core(map[0 := 0], [Session(0, [Request(1), Request(2)], map[1 := 0, 2 := 1])],
                        [Probe(0, 1, 0, Open), Probe(0, 2, 0, Open)], [1, 2], [1, 2])
  const AFTER_4 := Core(map[0 := 0], [Session(0, [Request(1), Request(2)], map[1 := 0])],
                        [Probe(0, 1, 0, Open), Probe(0, 2, 0, ANSWERED)], [1, 2], [1, 2])
  const AFTER_5 := Core(map[0 := 0], [Session(0, [Request(1), Request(2), Request(3)], map[1 := 0, 3 := 2])],
                        [Probe(0, 1, 0, Open), Probe(0, 2, 0, ANSWERED), Probe(0, 3, 0, Open)], [2, 3], [1, 2, 3])
  const AFTER_6 := Core(map[0 := 0], [Session(0, [Request(1), Request(2), Request(3)], map[1 := 0])],
                        [Probe(0, 1, 0, Open), Probe(0, 2, 0, ANSWERED), Probe(0, 3, 0, ANSWERED)],
                        [2, 3], [1, 2, 3])

  /** Equal part by part. */
  lemma SameCore(s: Core, c: Core)
    requires s.connections == c.connections && s.probes == c.probes
    requires s.recent == c.recent && s.dispatched == c.dispatched
    requires |s.sessions| == |c.sessions| == 1
    requires s.sessions[0].node == c.sessions[0].node
    requires s.sessions[0].queue == c.sessions[0].queue
    requires s.sessions[0].pending == c.sessions[0].pending
    ensures s == c
  {
    assert s.sessions == c.sessions;
  }

  lemma ReuseAsks()
    ensures ConnectNext(INITIAL, SMALL, 0) == AFTER_1
    ensures DispatchNext(AFTER_1, SMALL, 0, 1) == AFTER_2
  {
    SameCore(ConnectNext(INITIAL, SMALL, 0), AFTER_1);
    SameCore(DispatchNext(AFTER_1, SMALL, 0, 1), AFTER_2);
  }

  lemma ReuseAsksAgain()
    ensures DispatchNext(AFTER_2, SMALL, 0, 2) == AFTER_3
  {
    SameCore(DispatchNext(AFTER_2, SMALL, 0, 2), AFTER_3);
  }

  lemma ReuseHears()
    ensures ReceiveNext(AFTER_3, 0, 2, Failure) == AFTER_4
    ensures ReceiveNext(AFTER_5, 0, 3, Failure) == AFTER_6
  {
    SameCore(ReceiveNext(AFTER_3, 0, 2, Failure), AFTER_4);
    SameCore(ReceiveNext(AFTER_5, 0, 3, Failure), AFTER_6);
  }

  lemma ReuseForgets()
    ensures DispatchNext(AFTER_4, SMALL, 0, 3) == AFTER_5
  {
    SameCore(DispatchNext(AFTER_4, SMALL, 0, 3), AFTER_5);
  }

  lemma ReuseStep(k: nat, s: Core)
    requires k < |REUSE| && Run(SMALL, REUSE[..k]) == s
    ensures Sound(s, SMALL) && Run(SMALL, REUSE[..k + 1]) == Next(s, SMALL, REUSE[k])
  {
    hide Sound, Next, Run;
    LastStep(SMALL, REUSE, k);
  }

  lemma ReuseReachesThree()
    ensures Run(SMALL, REUSE[..3]) == AFTER_3
  {
    hide Run, Sound, ConnectNext, DispatchNext;
    RunStarts(SMALL, REUSE);
    ReuseAsks();
    ReuseAsksAgain();
    ReuseStep(0, INITIAL);
    ReuseStep(1, AFTER_1);
    ReuseStep(2, AFTER_2);
  }

  lemma ReuseReaches()
    ensures Run(SMALL, REUSE[..6]) == AFTER_6
  {
    hide Run, Sound, DispatchNext, ReceiveNext;
    ReuseReachesThree();
    ReuseHears();
    ReuseForgets();
    ReuseStep(3, AFTER_3);
    ReuseStep(4, AFTER_4);
    ReuseStep(5, AFTER_5);
  }

  /** The run ends with the first probe open and in no pending map. */
  lemma ReusedIdIsStranded()
    ensures !NothingStranded(Run(SMALL, REUSE))
  {
    hide Run, Sound, Next, NothingStranded;
    ReuseReaches();
    ReuseStep(6, AFTER_6);
    assert REUSE[..7] == REUSE;
    ReuseDisplaces();
    DisplacedIsStranded(AFTER_6, SMALL, 0, 1);
    NextDispatches(AFTER_6);
  }

  lemma ReuseDisplaces()
    ensures Displaces(AFTER_6, SMALL, 0, 1)
  {
  }

  lemma NextDispatches(s: Core)
    requires Sound(s, SMALL)
    ensures 0 in s.connections ==> s.connections[0] < |s.sessions|
    ensures Next(s, SMALL, REUSE[6]) == DispatchNext(s, SMALL, 0, 1)
  {
    hide DispatchNext, SessionsOk, ProbesOk;
  }

  // ---------------------------------------------------------------- how long a session lasts

  /** Sessions are only ever added, and keep their node. */
  ghost predicate KeepsNodes(s: Core, s': Core) {
    && |s.sessions| <= |s'.sessions|
    && (forall sid :: 0 <= sid < |s.sessions| ==> s'.sessions[sid].node == s.sessions[sid].node)
  }

  lemma DropKeepsNodes(s: Core, n: NodeId, verdict: Verdict)
    requires n in s.connections ==> s.connections[n] < |s.sessions|
    ensures KeepsNodes(s, DropConnection(s, n, verdict))
    ensures |DropConnection(s, n, verdict).sessions| == |s.sessions|
    ensures DropConnection(s, n, verdict).connections == s.connections - {n}
  {
  }

  lemma ConnectKeepsNodes(s: Core, lim: Limits, n: NodeId)
    requires n in s.connections ==> s.connections[n] < |s.sessions|
    ensures KeepsNodes(s, ConnectNext(s, lim, n))
    ensures ConnectNext(s, lim, n).connections ==
              if Refused(s, lim, n) then s.connections else (s.connections - {n})[n := |s.sessions|]
  {
    hide DropConnection;
    DropKeepsNodes(s, n, Replaced);
  }

  lemma DispatchKeepsNodes(s: Core, lim: Limits, n: NodeId, t: TaskId)
    requires n in s.connections ==> s.connections[n] < |s.sessions|
    ensures KeepsNodes(s, DispatchNext(s, lim, n, t)) && DispatchNext(s, lim, n, t).connections == s.connections
  {
    hide Trim;
  }

  lemma ConnectionsNext(s: Core, lim: Limits, e: Event)
    requires Sound(s, lim)
    ensures KeepsNodes(s, Next(s, lim, e))
    ensures Next(s, lim, e).connections ==
              match e
              case Connect(n) =>
                if Refused(s, lim, n) then s.connections else (s.connections - {n})[n := |s.sessions|]
              case Disconnect(n) => s.connections - {n}
              case _ => s.connections
  {
    hide Sound, DropConnection, DispatchNext, ConnectNext;
    match e
    case Connect(n) =>
      if n in s.connections {
        ConnectionIndex(s, lim, n);
      }
      ConnectKeepsNodes(s, lim, n);
    case Disconnect(n) =>
      if n in s.connections {
        ConnectionIndex(s, lim, n);
      }
      DropKeepsNodes(s, n, Disconnected);
    case Dispatch(n, t) =>
      if n in s.connections {
        ConnectionIndex(s, lim, n);
      }
      DispatchKeepsNodes(s, lim, n, t);
    case Receive(n, t, reply) =>
      if n in s.connections {
        ConnectionIndex(s, lim, n);
        if t in s.sessions[s.connections[n]].pending {
          ListedProbe(s, lim, s.connections[n], t);
        }
      }
    case CleanUp(p) =>
      if p < |s.probes| {
        ProbeSession(s, lim, p);
      }
    case _ =>
  }

  /** A registered session loses its place exactly when its node disconnects or connects again. */
  lemma SessionSurvives(s: Core, lim: Limits, e: Event, sid: nat)
    requires Sound(s, lim) && sid < |s.sessions| && Current(s, sid)
    ensures sid < |Next(s, lim, e).sessions|
    ensures Current(Next(s, lim, e), sid) <==>
              e != Connect(s.sessions[sid].node) && e != Disconnect(s.sessions[sid].node)
  {
    hide Sound, Next;
    ConnectionsNext(s, lim, e);
  }

  /** A socket's end names only its node. When a node has connected again, the end of the replaced socket removes
      the newer session, although that session's own socket is still there. */
  lemma ReplacedSocketEndsTheNewerSession(lim: Limits, n: NodeId)
    requires lim.Positive()
    ensures var replaced := Run(lim, [Connect(n), Connect(n)]);
            n in replaced.connections && replaced.connections[n] == 1
    ensures n !in Run(lim, [Connect(n), Connect(n), Disconnect(n)]).connections
  {
    var events := [Connect(n), Connect(n), Disconnect(n)];
    assert events[..0] == [] && events[..1] == [Connect(n)] && events[..2] == [Connect(n), Connect(n)];
    assert events[..3] == events;
    hide Run, Sound, Next;
    RunStarts(lim, events);
    LastStep(lim, events, 0);
    LastStep(lim, events, 1);
    LastStep(lim, events, 2);
    var connected := Run(lim, [Connect(n)]);
    FirstConnect(lim, n);
    ConnectionsNext(connected, lim, Connect(n));
    ConnectionsNext(Run(lim, events[..2]), lim, Disconnect(n));
  }

  lemma FirstConnect(lim: Limits, n: NodeId)
    requires lim.Positive()
    ensures Sound(INITIAL, lim)
    ensures n in Next(INITIAL, lim, Connect(n)).connections && |Next(INITIAL, lim, Connect(n)).sessions| == 1
  {
    hide Sound;
    StartsSound(lim);
  }
}
