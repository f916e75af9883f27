/** services/nodes.py: Core's worker sessions and dispatched probes, as a state machine over the atomic
    sections of the service. Sessions and probes are numbered in the order they were made. */
module NodeSessions {
  import opened Prelude

  type NodeId = nat
  type TaskId = nat
  type Payload = nat

  datatype Limits = Limits(connections: nat, tasks: nat, messages: nat) {
    ghost predicate Positive() {
      connections > 0 && tasks > 0 && messages > 0
    }

    /** How many dispatched ids are remembered. */
    function Window(): nat {
      tasks * connections
    }
  }

  datatype Reply = Success(payload: Payload) | Failure

  datatype Verdict = Answered(reply: Reply) | Disconnected | Replaced

  /** A probe's future: still open, settled once, or given up by its own waiter, which on a timeout still has
      to clean up. */
  datatype Future = Open | Settled(verdict: Verdict) | TimedOut | TimeoutReported | Abandoned

  datatype Message = Request(task: TaskId) | Cancel(task: TaskId)

  datatype Session = Session(node: NodeId, queue: seq<Message>, pending: map<TaskId, nat>)

  datatype Probe = Probe(node: NodeId, task: TaskId, session: nat, future: Future)

  /** The service's maps, with a history of every id dispatched. */
  datatype Core = Core(
    connections: map<NodeId, nat>,
    sessions: seq<Session>,
    probes: seq<Probe>,
    recent: seq<TaskId>,
    dispatched: seq<TaskId>)

  const INITIAL := Core(map[], [], [], [], [])

  /** One atomic section. A socket's end, disabling a node and a missed heartbeat are all `Disconnect`. */
  datatype Event =
    | Connect(node: NodeId)
    | Disconnect(node: NodeId)
    | Dispatch(node: NodeId, task: TaskId)
    | Receive(node: NodeId, task: TaskId, reply: Reply)
    | TimerFires(probe: nat)
    | CleanUp(probe: nat)
    | Abandon(probe: nat)
    | Take(session: nat)

  // ---------------------------------------------------------------- what stays true

  /** The pending map of the probe's session names the probe. */
  ghost predicate Listed(s: Core, p: nat)
    requires p < |s.probes|
  {
    var q := s.probes[p];
    q.session < |s.sessions| && q.task in s.sessions[q.session].pending && s.sessions[q.session].pending[q.task] == p
  }

  ghost predicate Current(s: Core, sid: nat)
    requires sid < |s.sessions|
  {
    s.sessions[sid].node in s.connections && s.connections[s.sessions[sid].node] == sid
  }

  ghost predicate SessionOk(s: Core, sid: nat)
    requires sid < |s.sessions|
  {
    && (forall t :: t in s.sessions[sid].pending ==>
          var p := s.sessions[sid].pending[t];
          p < |s.probes| && s.probes[p].task == t && s.probes[p].session == sid)
    && (!Current(s, sid) ==> s.sessions[sid].pending == map[])
  }

  ghost predicate ProbeOk(s: Core, p: nat)
    requires p < |s.probes|
  {
    var q := s.probes[p];
    && q.session < |s.sessions|
    && s.sessions[q.session].node == q.node
  }

  ghost predicate Bounded(s: Core, lim: Limits) {
    && |s.connections| <= lim.connections
    && (forall sid :: 0 <= sid < |s.sessions| ==>
          |s.sessions[sid].pending| <= lim.tasks && |s.sessions[sid].queue| <= lim.messages)
  }

  /** The remembered ids are the last ones dispatched, and nothing is dispatched twice within a window. */
  ghost predicate Remembers(recent: seq<TaskId>, dispatched: seq<TaskId>, window: nat) {
    && |recent| == (if |dispatched| < window then |dispatched| else window)
    && recent == dispatched[|dispatched| - |recent|..]
    && (forall i, j :: 0 <= i < j < |dispatched| && j - i <= window ==> dispatched[i] != dispatched[j])
  }

  ghost predicate ConnectionsOk(s: Core) {
    forall n :: n in s.connections ==> s.connections[n] < |s.sessions| && s.sessions[s.connections[n]].node == n
  }

  ghost predicate SessionsOk(s: Core) {
    forall sid :: 0 <= sid < |s.sessions| ==> SessionOk(s, sid)
  }

  ghost predicate ProbesOk(s: Core) {
    forall p :: 0 <= p < |s.probes| ==> ProbeOk(s, p)
  }

  /** Holds for every id the callers may choose. */
  ghost predicate Sound(s: Core, lim: Limits) {
    && ConnectionsOk(s)
    && SessionsOk(s)
    && ProbesOk(s)
    && Bounded(s, lim)
    && Remembers(s.recent, s.dispatched, lim.Window())
  }

  /** An open probe is in the pending map of the session registered for its node. */
  ghost predicate Reachable(s: Core, p: nat)
    requires p < |s.probes|
  {
    var q := s.probes[p];
    q.node in s.connections && s.connections[q.node] == q.session && Listed(s, p)
  }

  ghost predicate NothingStranded(s: Core) {
    forall p :: 0 <= p < |s.probes| && s.probes[p].future.Open? ==> Reachable(s, p)
  }

  // ---------------------------------------------------------------- the atomic sections

  function SetSession(s: Core, sid: nat, session: Session): Core
    requires sid < |s.sessions|
  {
    s.(sessions := s.sessions[sid := session])
  }

  function SetFuture(s: Core, p: nat, future: Future): Core
    requires p < |s.probes|
  {
    s.(probes := s.probes[p := s.probes[p].(future := future)])
  }

  function Unlist(session: Session, t: TaskId): Session {
    session.(pending := session.pending - {t})
  }

  function Settle(q: Probe, p: nat, listed: map<TaskId, nat>, verdict: Verdict): Probe {
    if q.task in listed && listed[q.task] == p && q.future.Open? then q.(future := Settled(verdict)) else q
  }

  function SettleListed(s: Core, listed: map<TaskId, nat>, verdict: Verdict): Core {
    s.(probes := seq(|s.probes|, p requires 0 <= p < |s.probes| => Settle(s.probes[p], p, listed, verdict)))
  }

  /** `_fail_pending`: settles what the session lists and is still open, and lists nothing any more. */
  function FailPending(s: Core, sid: nat, verdict: Verdict): Core
    requires sid < |s.sessions|
  {
    SetSession(SettleListed(s, s.sessions[sid].pending, verdict), sid, s.sessions[sid].(pending := map[]))
  }

  function Forget(s: Core, n: NodeId): Core {
    s.(connections := s.connections - {n})
  }

  function DropConnection(s: Core, n: NodeId, verdict: Verdict): Core
    requires n in s.connections ==> s.connections[n] < |s.sessions|
  {
    if n !in s.connections then s else Forget(FailPending(s, s.connections[n], verdict), n)
  }

  predicate Refused(s: Core, lim: Limits, n: NodeId) {
    n !in s.connections && |s.connections| >= lim.connections
  }

  function Register(s: Core, n: NodeId): Core {
    s.(connections := s.connections[n := |s.sessions|], sessions := s.sessions + [Session(n, [], map[])])
  }

  function ConnectNext(s: Core, lim: Limits, n: NodeId): Core
    requires n in s.connections ==> s.connections[n] < |s.sessions|
  {
    if Refused(s, lim, n) then s
    else Register(DropConnection(s, n, Replaced), n)
  }

  datatype Dispatched = Sent(probe: nat) | Duplicate | NoConnection | TooManyTasks | QueueFull

  function DispatchResult(s: Core, lim: Limits, n: NodeId, t: TaskId): Dispatched
    requires n in s.connections ==> s.connections[n] < |s.sessions|
  {
    if t in s.recent then Duplicate
    else if n !in s.connections then NoConnection
    else
      var session := s.sessions[s.connections[n]];
      if |session.pending| >= lim.tasks then TooManyTasks
      else if |session.queue| >= lim.messages then QueueFull
      else Sent(|s.probes|)
  }

  /** The newest ids, as many as are remembered. */
  function Trim(ids: seq<TaskId>, window: nat): seq<TaskId> {
    if |ids| > window then ids[|ids| - window..] else ids
  }

  function Remember(s: Core, lim: Limits, t: TaskId): Core {
    s.(recent := Trim(s.recent + [t], lim.Window()), dispatched := s.dispatched + [t])
  }

  /** A new open probe, and the session that lists it. */
  function List(s: Core, sid: nat, session: Session, t: TaskId): Core
    requires sid < |s.sessions|
  {
    SetSession(s, sid, session).(probes := s.probes + [Probe(session.node, t, sid, Open)])
  }

  /** A full queue takes the entry out of the pending map again, whatever was there before. */
  function DispatchNext(s: Core, lim: Limits, n: NodeId, t: TaskId): Core
    requires n in s.connections ==> s.connections[n] < |s.sessions|
  {
    match DispatchResult(s, lim, n, t)
    case Sent(p) =>
      var sid := s.connections[n];
      var session := s.sessions[sid];
      Remember(List(s, sid, session.(pending := session.pending[t := p], queue := session.queue + [Request(t)]), t),
               lim, t)
    case QueueFull => SetSession(s, s.connections[n], Unlist(s.sessions[s.connections[n]], t))
    case _ => s
  }

  function ReceivedFuture(s: Core, p: nat, reply: Reply): Core
    requires p < |s.probes|
  {
    if s.probes[p].future.Open? then SetFuture(s, p, Settled(Answered(reply))) else s
  }

  function ReceiveNext(s: Core, n: NodeId, t: TaskId, reply: Reply): Core
    requires n in s.connections ==> s.connections[n] < |s.sessions|
    requires n in s.connections && t in s.sessions[s.connections[n]].pending ==>
               s.sessions[s.connections[n]].pending[t] < |s.probes|
  {
    if n !in s.connections || t !in s.sessions[s.connections[n]].pending then s
    else
      var sid := s.connections[n];
      var p := s.sessions[sid].pending[t];
      SetSession(ReceivedFuture(s, p, reply), sid, Unlist(s.sessions[sid], t))
  }

  function TimerNext(s: Core, p: nat): Core {
    if p < |s.probes| && s.probes[p].future.Open? then SetFuture(s, p, TimedOut) else s
  }

  function AbandonNext(s: Core, p: nat): Core {
    if p < |s.probes| && s.probes[p].future.Open? then SetFuture(s, p, Abandoned) else s
  }

  /** A timed-out waiter withdraws its entry and, if there is room, tells the worker. */
  function Told(session: Session, lim: Limits, t: TaskId): Session {
    var unlisted := Unlist(session, t);
    if |session.queue| < lim.messages then unlisted.(queue := session.queue + [Cancel(t)]) else unlisted
  }

  /** A waiter whose timer fires while its future is open, or just as it has been settled, reports a timeout. */
  predicate MayCleanUp(f: Future) {
    f.TimedOut? || f.Settled?
  }

  /** What was settled stays so, even if its waiter misses it. */
  function Reported(f: Future): Future {
    if f.TimedOut? then TimeoutReported else f
  }

  function CleanUpNext(s: Core, lim: Limits, p: nat): Core
    requires p < |s.probes| ==> s.probes[p].session < |s.sessions|
  {
    if p >= |s.probes| || !MayCleanUp(s.probes[p].future) then s
    else
      var q := s.probes[p];
      SetSession(SetFuture(s, p, Reported(q.future)), q.session, Told(s.sessions[q.session], lim, q.task))
  }

  function Taken(session: Session): Session
    requires session.queue != []
  {
    session.(queue := session.queue[1..])
  }

  function TakeNext(s: Core, sid: nat): Core {
    if sid < |s.sessions| && s.sessions[sid].queue != [] then SetSession(s, sid, Taken(s.sessions[sid])) else s
  }

  ghost function Next(s: Core, lim: Limits, e: Event): Core
    requires Sound(s, lim)
  {
    match e
    case Connect(n) => ConnectNext(s, lim, n)
    case Disconnect(n) => DropConnection(s, n, Disconnected)
    case Dispatch(n, t) => DispatchNext(s, lim, n, t)
    case Receive(n, t, reply) =>
      assert n in s.connections ==> SessionOk(s, s.connections[n]);
      ReceiveNext(s, n, t, reply)
    case TimerFires(p) => TimerNext(s, p)
    case CleanUp(p) =>
      assert p < |s.probes| ==> ProbeOk(s, p);
      CleanUpNext(s, lim, p)
    case Abandon(p) => AbandonNext(s, p)
    case Take(sid) => TakeNext(s, sid)
  }

  // ---------------------------------------------------------------- what each edit keeps

  ghost predicate Lessens(session: Session, session': Session) {
    && session'.node == session.node
    && session'.pending.Keys <= session.pending.Keys
    && (forall t :: t in session'.pending ==> session'.pending[t] == session.pending[t])
  }

  lemma UnlistLessens(session: Session, lim: Limits, t: TaskId)
    requires |session.queue| <= lim.messages
    ensures Lessens(session, Unlist(session, t)) && |Unlist(session, t).queue| <= lim.messages
    ensures Lessens(session, Told(session, lim, t)) && |Told(session, lim, t).queue| <= lim.messages
  {
  }

  lemma TakeLessens(session: Session)
    requires session.queue != []
    ensures Lessens(session, Taken(session)) && |Taken(session).queue| <= |session.queue|
  {
  }

  lemma BoundedSetSession(s: Core, lim: Limits, sid: nat, session: Session)
    requires Bounded(s, lim) && sid < |s.sessions| && |session.queue| <= lim.messages
    requires |session.pending| <= lim.tasks || |session.pending| <= |s.sessions[sid].pending|
    ensures Bounded(SetSession(s, sid, session), lim)
  {
  }

  lemma BoundedForget(s: Core, lim: Limits, n: NodeId)
    requires Bounded(s, lim)
    ensures Bounded(Forget(s, n), lim)
  {
    SubsetSize(Forget(s, n).connections.Keys, s.connections.Keys);
  }

  lemma BoundedRegister(s: Core, lim: Limits, n: NodeId)
    requires Bounded(s, lim) && n !in s.connections && |s.connections| < lim.connections
    ensures Bounded(Register(s, n), lim)
  {
    assert Register(s, n).connections.Keys == s.connections.Keys + {n};
  }

  lemma BoundedFrame(s: Core, s': Core, lim: Limits)
    requires Bounded(s, lim) && s'.sessions == s.sessions && s'.connections == s.connections
    ensures Bounded(s', lim)
  {
  }

  lemma SoundSetSession(s: Core, lim: Limits, sid: nat, session: Session)
    requires Sound(s, lim) && sid < |s.sessions| && Lessens(s.sessions[sid], session)
    requires |session.queue| <= lim.messages
    ensures Sound(SetSession(s, sid, session), lim)
  {
    hide Remembers, Bounded;
    var s' := SetSession(s, sid, session);
    SubsetSize(session.pending.Keys, s.sessions[sid].pending.Keys);
    BoundedSetSession(s, lim, sid, session);
    forall k | 0 <= k < |s'.sessions|
      ensures SessionOk(s', k)
    {
      hide ProbesOk;
      assert SessionOk(s, k);
    }
    forall p | 0 <= p < |s'.probes|
      ensures ProbeOk(s', p)
    {
      hide SessionsOk;
      assert ProbeOk(s, p);
    }
  }

  /** A future leaves Open once; a timed-out waiter then only reports. */
  ghost predicate Forward(f: Future, f': Future) {
    f' == f || f.Open? || (f.TimedOut? && f'.TimeoutReported?)
  }

  ghost predicate Advanced(q: Probe, q': Probe) {
    q'.node == q.node && q'.task == q.task && q'.session == q.session && Forward(q.future, q'.future)
  }

  /** Only futures change, and only forward. */
  ghost predicate OnlyFutures(s: Core, s': Core) {
    && s' == s.(probes := s'.probes)
    && |s'.probes| == |s.probes|
    && (forall p :: 0 <= p < |s.probes| ==> Advanced(s.probes[p], s'.probes[p]))
  }

  lemma SoundFutures(s: Core, lim: Limits, s': Core)
    requires Sound(s, lim) && OnlyFutures(s, s')
    ensures Sound(s', lim)
  {
    hide Remembers, Bounded;
    forall k | 0 <= k < |s'.sessions|
      ensures SessionOk(s', k)
    {
      hide ProbesOk;
      assert SessionOk(s, k);
    }
    forall p | 0 <= p < |s'.probes|
      ensures ProbeOk(s', p)
    {
      hide SessionsOk;
      assert ProbeOk(s, p);
    }
    assert Bounded(s', lim) by {
      BoundedFrame(s, s', lim);
    }
  }

  lemma SoundForget(s: Core, lim: Limits, n: NodeId)
    requires Sound(s, lim) && n in s.connections
    requires s.connections[n] < |s.sessions| && s.sessions[s.connections[n]].pending == map[]
    ensures Sound(Forget(s, n), lim)
  {
    hide Remembers, Bounded;
    var s' := Forget(s, n);
    BoundedForget(s, lim, n);
    forall k | 0 <= k < |s'.sessions|
      ensures SessionOk(s', k)
    {
      hide ProbesOk;
      assert SessionOk(s, k);
    }
    forall p | 0 <= p < |s'.probes|
      ensures ProbeOk(s', p)
    {
      hide SessionsOk;
      assert ProbeOk(s, p);
    }
  }

  lemma SoundRegister(s: Core, lim: Limits, n: NodeId)
    requires Sound(s, lim) && n !in s.connections && |s.connections| < lim.connections
    ensures Sound(Register(s, n), lim)
  {
    hide Remembers, Bounded;
    var s' := Register(s, n);
    BoundedRegister(s, lim, n);
    forall k | 0 <= k < |s'.sessions|
      ensures SessionOk(s', k)
    {
      hide ProbesOk;
      if k < |s.sessions| {
        assert SessionOk(s, k);
      }
    }
    forall p | 0 <= p < |s'.probes|
      ensures ProbeOk(s', p)
    {
      hide SessionsOk;
      assert ProbeOk(s, p);
    }
  }

  lemma RememberNext(recent: seq<TaskId>, dispatched: seq<TaskId>, window: nat, t: TaskId)
    requires Remembers(recent, dispatched, window) && t !in recent && window > 0
    ensures Remembers(Trim(recent + [t], window), dispatched + [t], window)
  {
    var recent', dispatched' := Trim(recent + [t], window), dispatched + [t];
    assert recent' == dispatched'[|dispatched'| - |recent'|..];
    forall i, j | 0 <= i < j < |dispatched'| && j - i <= window
      ensures dispatched'[i] != dispatched'[j]
    {
      if j == |dispatched| {
        assert dispatched[i] == recent[i - (|dispatched| - |recent|)];
      }
    }
  }

  lemma WindowIsPositive(lim: Limits)
    requires lim.Positive()
    ensures lim.Window() > 0
  {
  }

  lemma SoundRemember(s: Core, lim: Limits, t: TaskId)
    requires Sound(s, lim) && lim.Positive() && t !in s.recent
    ensures Sound(Remember(s, lim, t), lim)
  {
    var s' := Remember(s, lim, t);
    WindowIsPositive(lim);
    RememberNext(s.recent, s.dispatched, lim.Window(), t);
    hide Remembers, Trim;
    BoundedFrame(s, s', lim);
    hide Bounded;
    forall k | 0 <= k < |s'.sessions|
      ensures SessionOk(s', k)
    {
      assert SessionOk(s, k);
    }
    forall p | 0 <= p < |s'.probes|
      ensures ProbeOk(s', p)
    {
      assert ProbeOk(s, p);
    }
  }

  lemma SoundList(s: Core, lim: Limits, sid: nat, session: Session, t: TaskId)
    requires Sound(s, lim) && sid < |s.sessions| && Current(s, sid)
    requires session.node == s.sessions[sid].node && session.pending == s.sessions[sid].pending[t := |s.probes|]
    requires |s.sessions[sid].pending| < lim.tasks && |session.queue| <= lim.messages
    ensures Sound(List(s, sid, session, t), lim)
  {
    hide Remembers, Bounded;
    var s' := List(s, sid, session, t);
    BoundedSetSession(s, lim, sid, session);
    BoundedFrame(SetSession(s, sid, session), s', lim);
    forall k | 0 <= k < |s'.sessions|
      ensures SessionOk(s', k)
    {
      hide ProbesOk;
      assert SessionOk(s, k);
    }
    forall p | 0 <= p < |s'.probes|
      ensures ProbeOk(s', p)
    {
      hide SessionsOk;
      if p < |s.probes| {
        assert ProbeOk(s, p);
      }
    }
  }

  // ---------------------------------------------------------------- what soundness says about one entry

  lemma ConnectionIndex(s: Core, lim: Limits, n: NodeId)
    requires Sound(s, lim) && n in s.connections
    ensures s.connections[n] < |s.sessions| && s.sessions[s.connections[n]].node == n
    ensures Current(s, s.connections[n])
  {
  }

  lemma ListedProbe(s: Core, lim: Limits, sid: nat, t: TaskId)
    requires Sound(s, lim) && sid < |s.sessions| && t in s.sessions[sid].pending
    ensures var p := s.sessions[sid].pending[t];
            p < |s.probes| && s.probes[p].task == t && s.probes[p].session == sid
            && s.probes[p].node == s.sessions[sid].node
  {
    assert SessionOk(s, sid);
    assert ProbeOk(s, s.sessions[sid].pending[t]);
  }

  lemma SessionBounds(s: Core, lim: Limits, sid: nat)
    requires Sound(s, lim) && sid < |s.sessions|
    ensures |s.sessions[sid].pending| <= lim.tasks && |s.sessions[sid].queue| <= lim.messages
  {
  }

  lemma ProbeSession(s: Core, lim: Limits, p: nat)
    requires Sound(s, lim) && p < |s.probes|
    ensures s.probes[p].session < |s.sessions| && s.sessions[s.probes[p].session].node == s.probes[p].node
  {
    assert ProbeOk(s, p);
  }

  // ---------------------------------------------------------------- every section keeps it sound

  lemma SoundDrop(s: Core, lim: Limits, n: NodeId, verdict: Verdict)
    requires Sound(s, lim)
    ensures n in s.connections ==> s.connections[n] < |s.sessions|
    ensures Sound(DropConnection(s, n, verdict), lim)
  {
    hide Sound;
    if n in s.connections {
      ConnectionIndex(s, lim, n);
      SessionBounds(s, lim, s.connections[n]);
      var sid := s.connections[n];
      var settled := SettleListed(s, s.sessions[sid].pending, verdict);
      SoundFutures(s, lim, settled);
      SoundSetSession(settled, lim, sid, s.sessions[sid].(pending := map[]));
      SoundForget(FailPending(s, sid, verdict), lim, n);
    }
  }

  lemma RoomAfterDrop(s: Core, lim: Limits, n: NodeId)
    requires Sound(s, lim) && !Refused(s, lim, n)
    requires n in s.connections ==> s.connections[n] < |s.sessions|
    ensures |DropConnection(s, n, Replaced).connections| < lim.connections
    ensures n !in DropConnection(s, n, Replaced).connections
  {
    hide SessionsOk, ProbesOk, Remembers, ConnectionsOk;
    var d := DropConnection(s, n, Replaced);
    if n in s.connections {
      assert d.connections.Keys == s.connections.Keys - {n};
    }
  }

  lemma SoundConnect(s: Core, lim: Limits, n: NodeId)
    requires Sound(s, lim)
    ensures Sound(Next(s, lim, Connect(n)), lim)
  {
    SoundDrop(s, lim, n, Replaced);
    if !Refused(s, lim, n) {
      RoomAfterDrop(s, lim, n);
      hide Sound, DropConnection;
      SoundRegister(DropConnection(s, n, Replaced), lim, n);
    }
  }

  lemma SoundDispatch(s: Core, lim: Limits, n: NodeId, t: TaskId)
    requires Sound(s, lim) && lim.Positive()
    ensures Sound(Next(s, lim, Dispatch(n, t)), lim)
  {
    hide Sound, Remember, List, SetSession;
    if n in s.connections {
      ConnectionIndex(s, lim, n);
      SessionBounds(s, lim, s.connections[n]);
      var sid := s.connections[n];
      var session := s.sessions[sid];
      match DispatchResult(s, lim, n, t)
      case Sent(p) =>
        var listing := session.(pending := session.pending[t := p], queue := session.queue + [Request(t)]);
        SoundList(s, lim, sid, listing, t);
        ListRemembers(s, sid, listing, t);
        SoundRemember(List(s, sid, listing, t), lim, t);
      case QueueFull =>
        UnlistLessens(session, lim, t);
        SoundSetSession(s, lim, sid, Unlist(session, t));
      case _ =>
    }
  }

  lemma ListRemembers(s: Core, sid: nat, session: Session, t: TaskId)
    requires sid < |s.sessions|
    ensures List(s, sid, session, t).recent == s.recent && List(s, sid, session, t).dispatched == s.dispatched
  {
  }

  lemma SoundReceive(s: Core, lim: Limits, n: NodeId, t: TaskId, reply: Reply)
    requires Sound(s, lim)
    ensures Sound(Next(s, lim, Receive(n, t, reply)), lim)
  {
    hide Sound, Unlist, Lessens;
    if n in s.connections {
      ConnectionIndex(s, lim, n);
      var sid := s.connections[n];
      if t in s.sessions[sid].pending {
        ListedProbe(s, lim, sid, t);
        SessionBounds(s, lim, sid);
        UnlistLessens(s.sessions[sid], lim, t);
        var settled := ReceivedFuture(s, s.sessions[sid].pending[t], reply);
        SoundFutures(s, lim, settled);
        SoundSetSession(settled, lim, sid, Unlist(s.sessions[sid], t));
      }
    }
  }

  lemma SoundTimer(s: Core, lim: Limits, p: nat)
    requires Sound(s, lim)
    ensures Sound(Next(s, lim, TimerFires(p)), lim)
    ensures Sound(Next(s, lim, Abandon(p)), lim)
  {
    hide Sound;
    if p < |s.probes| && s.probes[p].future.Open? {
      SoundFutures(s, lim, TimerNext(s, p));
      SoundFutures(s, lim, AbandonNext(s, p));
    }
  }

  lemma SoundCleanUp(s: Core, lim: Limits, p: nat)
    requires Sound(s, lim)
    ensures Sound(Next(s, lim, CleanUp(p)), lim)
  {
    hide Sound, Told, Lessens;
    if p < |s.probes| && MayCleanUp(s.probes[p].future) {
      ProbeSession(s, lim, p);
      var sid := s.probes[p].session;
      SessionBounds(s, lim, sid);
      UnlistLessens(s.sessions[sid], lim, s.probes[p].task);
      var reported := SetFuture(s, p, Reported(s.probes[p].future));
      SoundFutures(s, lim, reported);
      SoundSetSession(reported, lim, sid, Told(s.sessions[sid], lim, s.probes[p].task));
    }
  }

  lemma SoundTake(s: Core, lim: Limits, sid: nat)
    requires Sound(s, lim)
    ensures Sound(Next(s, lim, Take(sid)), lim)
  {
    hide Sound, SetSession, Taken, Lessens;
    if sid < |s.sessions| && s.sessions[sid].queue != [] {
      SessionBounds(s, lim, sid);
      TakeLessens(s.sessions[sid]);
      SoundSetSession(s, lim, sid, Taken(s.sessions[sid]));
    }
  }

  /** Every atomic section keeps the service sound, whatever ids the callers choose. */
  lemma SoundNext(s: Core, lim: Limits, e: Event)
    requires Sound(s, lim) && lim.Positive()
    ensures Sound(Next(s, lim, e), lim)
  {
    match e
    case Connect(n) => SoundConnect(s, lim, n);
    case Disconnect(n) => SoundDrop(s, lim, n, Disconnected);
    case Dispatch(n, t) => SoundDispatch(s, lim, n, t);
    case Receive(n, t, reply) => SoundReceive(s, lim, n, t, reply);
    case TimerFires(p) => SoundTimer(s, lim, p);
    case CleanUp(p) => SoundCleanUp(s, lim, p);
    case Abandon(p) => SoundTimer(s, lim, p);
    case Take(sid) => SoundTake(s, lim, sid);
  }

  // ---------------------------------------------------------------- the sections, said outright

  /** The session lists nothing any more; the open probes it listed, and no others, are settled like this. */
  ghost predicate LostAs(s: Core, s': Core, sid: nat, verdict: Verdict)
    requires sid < |s.sessions|
  {
    && |s'.sessions| >= |s.sessions|
    && (forall k :: 0 <= k < |s.sessions| ==>
          s'.sessions[k] == if k == sid then Session(s.sessions[k].node, s.sessions[k].queue, map[]) else s.sessions[k])
    && |s'.probes| == |s.probes|
    && (forall p :: 0 <= p < |s.probes| ==>
          s'.probes[p] == if s.probes[p].future == Open && exists t :: t in s.sessions[sid].pending
                                                                       && s.sessions[sid].pending[t] == p
                          then s.probes[p].(future := Settled(verdict)) else s.probes[p])
    && s'.recent == s.recent && s'.dispatched == s.dispatched
  }

  lemma DropLoses(s: Core, lim: Limits, n: NodeId, verdict: Verdict)
    requires Sound(s, lim) && n in s.connections
    ensures s.connections[n] < |s.sessions|
    ensures LostAs(s, DropConnection(s, n, verdict), s.connections[n], verdict)
    ensures DropConnection(s, n, verdict).connections == s.connections - {n}
    ensures |DropConnection(s, n, verdict).sessions| == |s.sessions|
  {
    ConnectionIndex(s, lim, n);
    var sid := s.connections[n];
    forall t | t in s.sessions[sid].pending
      ensures s.sessions[sid].pending[t] < |s.probes| && s.probes[s.sessions[sid].pending[t]].task == t
    {
      ListedProbe(s, lim, sid, t);
    }
    hide Sound;
  }

  /** A node that is not connected is refused when all places are taken. Any other gets a new, empty session, and the
      probes of the one it had are told that it was replaced. */
  ghost predicate ConnectedAs(s: Core, s': Core, lim: Limits, n: NodeId, session: Option<nat>) {
    match session
    case None => n !in s.connections && |s.connections| >= lim.connections && s' == s
    case Some(sid) =>
      && (n in s.connections || |s.connections| < lim.connections)
      && sid == |s.sessions|
      && s'.connections == s.connections[n := sid]
      && |s'.sessions| == sid + 1 && s'.sessions[sid] == Session(n, [], map[])
      && if n in s.connections then s.connections[n] < |s.sessions| && LostAs(s, s', s.connections[n], Replaced)
         else s' == s.(connections := s'.connections, sessions := s.sessions + [s'.sessions[sid]])
  }

  lemma ConnectSays(s: Core, lim: Limits, n: NodeId)
    requires Sound(s, lim)
    ensures n in s.connections ==> s.connections[n] < |s.sessions|
    ensures ConnectedAs(s, ConnectNext(s, lim, n), lim, n, if Refused(s, lim, n) then None else Some(|s.sessions|))
  {
    if n in s.connections {
      DropLoses(s, lim, n, Replaced);
      hide Sound, DropConnection;
      assert (s.connections - {n})[n := |s.sessions|] == s.connections[n := |s.sessions|];
    }
  }

  /** Each answer to a dispatch, with its condition and what it leaves. A request that is sent is queued, listed and
      remembered; a full queue costs the session its entry for this id. */
  ghost predicate DispatchedAs(s: Core, s': Core, lim: Limits, n: NodeId, t: TaskId, result: Dispatched) {
    match result
    case Duplicate => t in s.recent && s' == s
    case NoConnection => t !in s.recent && n !in s.connections && s' == s
    case TooManyTasks =>
      && t !in s.recent && n in s.connections && s.connections[n] < |s.sessions|
      && |s.sessions[s.connections[n]].pending| >= lim.tasks && s' == s
    case QueueFull =>
      && t !in s.recent && n in s.connections && s.connections[n] < |s.sessions|
      && var sid := s.connections[n];
      && |s.sessions[sid].pending| < lim.tasks && |s.sessions[sid].queue| >= lim.messages
      && s' == s.(sessions := s.sessions[sid := s.sessions[sid].(pending := s.sessions[sid].pending - {t})])
    case Sent(p) =>
      && t !in s.recent && n in s.connections && s.connections[n] < |s.sessions|
      && var sid := s.connections[n];
      && var at := s.sessions[sid];
      && |at.pending| < lim.tasks && |at.queue| < lim.messages && p == |s.probes|
      && s'.connections == s.connections
      && s'.sessions == s.sessions[sid := Session(n, at.queue + [Request(t)], at.pending[t := p])]
      && s'.probes == s.probes + [Probe(n, t, sid, Open)]
      && s'.dispatched == s.dispatched + [t]
  }

  lemma DispatchSays(s: Core, lim: Limits, n: NodeId, t: TaskId)
    requires Sound(s, lim)
    ensures n in s.connections ==> s.connections[n] < |s.sessions|
    ensures DispatchedAs(s, DispatchNext(s, lim, n, t), lim, n, t, DispatchResult(s, lim, n, t))
  {
    hide Sound, Trim;
    if n in s.connections {
      ConnectionIndex(s, lim, n);
    }
  }

  /** A result for an id that the node's session lists takes the entry out, and settles the probe if it is open; any
      other result changes nothing. */
  ghost predicate ReceivedAs(s: Core, s': Core, n: NodeId, t: TaskId, reply: Reply) {
    if n in s.connections && s.connections[n] < |s.sessions| && t in s.sessions[s.connections[n]].pending
       && s.sessions[s.connections[n]].pending[t] < |s.probes|
    then
      var sid := s.connections[n];
      var p := s.sessions[sid].pending[t];
      && s' == s.(sessions := s'.sessions, probes := s'.probes)
      && s'.sessions == s.sessions[sid := s.sessions[sid].(pending := s.sessions[sid].pending - {t})]
      && s'.probes == if s.probes[p].future == Open
                      then s.probes[p := s.probes[p].(future := Settled(Answered(reply)))] else s.probes
    else s' == s
  }

  lemma ReceiveSays(s: Core, lim: Limits, n: NodeId, t: TaskId, reply: Reply)
    requires Sound(s, lim)
    ensures ReceivedAs(s, Next(s, lim, Receive(n, t, reply)), n, t, reply)
  {
    hide Sound;
    if n in s.connections {
      ConnectionIndex(s, lim, n);
      if t in s.sessions[s.connections[n]].pending {
        ListedProbe(s, lim, s.connections[n], t);
      }
    }
  }

  /** A waiter that reports a timeout takes its id out of its session's list and, if the queue has room, tells the
      worker to cancel it; a future that was settled meanwhile stays so. */
  ghost predicate CleanedUpAs(s: Core, s': Core, lim: Limits, p: nat)
    requires p < |s.probes| && s.probes[p].session < |s.sessions|
  {
    var q := s.probes[p];
    var at := s.sessions[q.session];
    && s' == s.(sessions := s'.sessions, probes := s'.probes)
    && s'.sessions
       == s.sessions[q.session := Session(at.node,
                                          if |at.queue| < lim.messages then at.queue + [Cancel(q.task)] else at.queue,
                                          at.pending - {q.task})]
    && s'.probes == if q.future == TimedOut then s.probes[p := q.(future := TimeoutReported)] else s.probes
  }

  lemma CleanUpSays(s: Core, lim: Limits, p: nat)
    requires Sound(s, lim) && p < |s.probes| && MayCleanUp(s.probes[p].future)
    ensures s.probes[p].session < |s.sessions|
    ensures CleanedUpAs(s, Next(s, lim, CleanUp(p)), lim, p)
  {
    hide Sound;
    ProbeSession(s, lim, p);
  }

  /** The timer and the waiter's own cancellation reach open futures only; the sender takes the oldest message. */
  lemma OtherSectionsSay(s: Core, lim: Limits, k: nat)
    requires Sound(s, lim)
    ensures Next(s, lim, TimerFires(k)) == if k < |s.probes| && s.probes[k].future == Open
                                           then s.(probes := s.probes[k := s.probes[k].(future := TimedOut)]) else s
    ensures Next(s, lim, Abandon(k)) == if k < |s.probes| && s.probes[k].future == Open
                                        then s.(probes := s.probes[k := s.probes[k].(future := Abandoned)]) else s
    ensures Next(s, lim, Take(k))
            == if k < |s.sessions| && s.sessions[k].queue != []
               then s.(sessions := s.sessions[k := s.sessions[k].(queue := s.sessions[k].queue[1..])]) else s
  {
    hide Sound;
  }

  // ---------------------------------------------------------------- probes settle once

  ghost predicate Advances(s: Core, s': Core) {
    && |s.probes| <= |s'.probes|
    && (forall p :: 0 <= p < |s.probes| ==> Advanced(s.probes[p], s'.probes[p]))
  }

  lemma AdvancesDispatch(s: Core, lim: Limits, n: NodeId, t: TaskId)
    requires n in s.connections ==> s.connections[n] < |s.sessions|
    ensures Advances(s, DispatchNext(s, lim, n, t))
    ensures var s' := DispatchNext(s, lim, n, t);
            if DispatchResult(s, lim, n, t).Sent?
            then s'.dispatched == s.dispatched + [t]
                 && |s'.probes| == |s.probes| + 1 && s'.probes[|s.probes|].task == t
            else s'.dispatched == s.dispatched && |s'.probes| == |s.probes|
  {
    hide Trim, Unlist;
  }

  lemma AdvancesDrop(s: Core, n: NodeId, verdict: Verdict)
    requires n in s.connections ==> s.connections[n] < |s.sessions|
    ensures OnlyFuturesOf(s, DropConnection(s, n, verdict))
  {
  }

  /** The probes' futures move forward; nothing is dispatched. */
  ghost predicate OnlyFuturesOf(s: Core, s': Core) {
    && s'.dispatched == s.dispatched
    && |s'.probes| == |s.probes|
    && (forall p :: 0 <= p < |s.probes| ==> Advanced(s.probes[p], s'.probes[p]))
  }

  lemma AdvancesOther(s: Core, lim: Limits, e: Event)
    requires Sound(s, lim) && !e.Dispatch?
    ensures OnlyFuturesOf(s, Next(s, lim, e))
  {
    hide Sound, DropConnection, Unlist, Told, Taken;
    match e
    case Connect(n) =>
      if n in s.connections {
        ConnectionIndex(s, lim, n);
      }
      AdvancesDrop(s, n, Replaced);
    case Disconnect(n) =>
      if n in s.connections {
        ConnectionIndex(s, lim, n);
      }
      AdvancesDrop(s, n, Disconnected);
    case Receive(n, t, reply) =>
      if n in s.connections {
        ConnectionIndex(s, lim, n);
        if t in s.sessions[s.connections[n]].pending {
          ListedProbe(s, lim, s.connections[n], t);
        }
      }
    case CleanUp(p) =>
      if p < |s.probes| {
        ProbeSession(s, lim, p);
      }
    case _ =>
  }

  lemma AdvancesNext(s: Core, lim: Limits, e: Event)
    requires Sound(s, lim)
    ensures Advances(s, Next(s, lim, e))
  {
    hide Sound;
    match e
    case Dispatch(n, t) =>
      if n in s.connections {
        ConnectionIndex(s, lim, n);
      }
      AdvancesDispatch(s, lim, n, t);
    case _ => AdvancesOther(s, lim, e);
  }

  // ---------------------------------------------------------------- nothing is stranded

  /** The session still lists every open probe that belongs to it. */
  ghost predicate KeepsOpen(s: Core, sid: nat, session: Session) {
    forall p :: 0 <= p < |s.probes| && s.probes[p].future.Open? && s.probes[p].session == sid ==>
                  s.probes[p].task in session.pending && session.pending[s.probes[p].task] == p
  }

  lemma FuturesStrandNothing(s: Core, s': Core)
    requires NothingStranded(s) && OnlyFutures(s, s')
    ensures NothingStranded(s')
  {
    forall p | 0 <= p < |s'.probes| && s'.probes[p].future.Open?
      ensures Reachable(s', p)
    {
      assert Advanced(s.probes[p], s'.probes[p]);
      assert Reachable(s, p);
    }
  }

  lemma SetSessionStrandsNothing(s: Core, sid: nat, session: Session)
    requires NothingStranded(s) && sid < |s.sessions| && KeepsOpen(s, sid, session)
    ensures NothingStranded(SetSession(s, sid, session))
  {
    var s' := SetSession(s, sid, session);
    forall p | 0 <= p < |s'.probes| && s'.probes[p].future.Open?
      ensures Reachable(s', p)
    {
      assert Reachable(s, p);
    }
  }

  lemma ForgetStrandsNothing(s: Core, n: NodeId)
    requires NothingStranded(s) && n in s.connections
    requires s.connections[n] < |s.sessions| && s.sessions[s.connections[n]].pending == map[]
    ensures NothingStranded(Forget(s, n))
  {
    forall p | 0 <= p < |s.probes| && s.probes[p].future.Open?
      ensures Reachable(Forget(s, n), p)
    {
      assert Reachable(s, p);
    }
  }

  lemma RegisterStrandsNothing(s: Core, n: NodeId)
    requires NothingStranded(s) && n !in s.connections
    ensures NothingStranded(Register(s, n))
  {
    forall p | 0 <= p < |s.probes| && s.probes[p].future.Open?
      ensures Reachable(Register(s, n), p)
    {
      assert Reachable(s, p);
    }
  }

  lemma ListStrandsNothing(s: Core, sid: nat, session: Session, t: TaskId)
    requires NothingStranded(s) && sid < |s.sessions| && KeepsOpen(s, sid, session)
    requires session.node in s.connections && s.connections[session.node] == sid
    requires t in session.pending && session.pending[t] == |s.probes|
    ensures NothingStranded(List(s, sid, session, t))
  {
    var s' := List(s, sid, session, t);
    forall p | 0 <= p < |s'.probes| && s'.probes[p].future.Open?
      ensures Reachable(s', p)
    {
      if p < |s.probes| {
        assert Reachable(s, p);
      }
    }
  }

  lemma SettledAll(s: Core, sid: nat, verdict: Verdict, session: Session)
    requires NothingStranded(s) && sid < |s.sessions|
    ensures KeepsOpen(SettleListed(s, s.sessions[sid].pending, verdict), sid, session)
  {
    var s' := SettleListed(s, s.sessions[sid].pending, verdict);
    forall p | 0 <= p < |s'.probes| && s'.probes[p].session == sid
      ensures !s'.probes[p].future.Open?
    {
      if s.probes[p].future.Open? {
        assert Reachable(s, p);
      }
    }
  }

  lemma DropStrandsNothing(s: Core, lim: Limits, n: NodeId, verdict: Verdict)
    requires Sound(s, lim) && NothingStranded(s)
    ensures n in s.connections ==> s.connections[n] < |s.sessions|
    ensures NothingStranded(DropConnection(s, n, verdict))
  {
    hide Sound, NothingStranded, KeepsOpen;
    if n in s.connections {
      ConnectionIndex(s, lim, n);
      var sid := s.connections[n];
      var settled, cleared := SettleListed(s, s.sessions[sid].pending, verdict), s.sessions[sid].(pending := map[]);
      FuturesStrandNothing(s, settled);
      SettledAll(s, sid, verdict, cleared);
      SetSessionStrandsNothing(settled, sid, cleared);
      ForgetStrandsNothing(FailPending(s, sid, verdict), n);
    }
  }

  lemma ConnectStrandsNothing(s: Core, lim: Limits, n: NodeId)
    requires Sound(s, lim) && NothingStranded(s)
    ensures NothingStranded(Next(s, lim, Connect(n)))
  {
    hide Sound, NothingStranded, DropConnection;
    DropStrandsNothing(s, lim, n, Replaced);
    if !Refused(s, lim, n) {
      RoomAfterDrop(s, lim, n);
      RegisterStrandsNothing(DropConnection(s, n, Replaced), n);
    }
  }

  lemma ReceiveKeepsOpen(s: Core, sid: nat, t: TaskId, reply: Reply)
    requires NothingStranded(s) && sid < |s.sessions| && t in s.sessions[sid].pending
    requires s.sessions[sid].pending[t] < |s.probes|
    ensures KeepsOpen(ReceivedFuture(s, s.sessions[sid].pending[t], reply), sid, Unlist(s.sessions[sid], t))
  {
    var s' := ReceivedFuture(s, s.sessions[sid].pending[t], reply);
    forall p | 0 <= p < |s'.probes| && s'.probes[p].future.Open? && s'.probes[p].session == sid
      ensures s'.probes[p].task in Unlist(s.sessions[sid], t).pending
      ensures s.sessions[sid].pending[s'.probes[p].task] == p
    {
      assert Reachable(s, p);
    }
  }

  lemma ReceiveStrandsNothing(s: Core, lim: Limits, n: NodeId, t: TaskId, reply: Reply)
    requires Sound(s, lim) && NothingStranded(s)
    ensures NothingStranded(Next(s, lim, Receive(n, t, reply)))
  {
    hide Sound, NothingStranded, KeepsOpen, Unlist;
    if n in s.connections {
      ConnectionIndex(s, lim, n);
      var sid := s.connections[n];
      if t in s.sessions[sid].pending {
        ListedProbe(s, lim, sid, t);
        var settled := ReceivedFuture(s, s.sessions[sid].pending[t], reply);
        FuturesStrandNothing(s, settled);
        ReceiveKeepsOpen(s, sid, t, reply);
        SetSessionStrandsNothing(settled, sid, Unlist(s.sessions[sid], t));
      }
    }
  }

  lemma TimerStrandsNothing(s: Core, lim: Limits, p: nat)
    requires Sound(s, lim) && NothingStranded(s)
    ensures NothingStranded(Next(s, lim, TimerFires(p)))
    ensures NothingStranded(Next(s, lim, Abandon(p)))
  {
    hide Sound, NothingStranded;
    if p < |s.probes| && s.probes[p].future.Open? {
      FuturesStrandNothing(s, TimerNext(s, p));
      FuturesStrandNothing(s, AbandonNext(s, p));
    }
  }

  lemma SamePendingKeepsOpen(s: Core, sid: nat, session: Session)
    requires NothingStranded(s) && sid < |s.sessions| && session.pending == s.sessions[sid].pending
    ensures KeepsOpen(s, sid, session)
  {
    forall p | 0 <= p < |s.probes| && s.probes[p].future.Open? && s.probes[p].session == sid
      ensures s.probes[p].task in session.pending && session.pending[s.probes[p].task] == p
    {
      assert Reachable(s, p);
    }
  }

  lemma TakeStrandsNothing(s: Core, lim: Limits, sid: nat)
    requires Sound(s, lim) && NothingStranded(s)
    ensures NothingStranded(Next(s, lim, Take(sid)))
  {
    hide Sound, NothingStranded, KeepsOpen;
    if sid < |s.sessions| && s.sessions[sid].queue != [] {
      SamePendingKeepsOpen(s, sid, Taken(s.sessions[sid]));
      SetSessionStrandsNothing(s, sid, Taken(s.sessions[sid]));
    }
  }

  // ---------------------------------------------------------------- when an id is used again

  /** The pending map of the session lists another probe, still open, under this id. */
  ghost predicate ListsOpen(s: Core, sid: nat, t: TaskId) {
    && sid < |s.sessions|
    && t in s.sessions[sid].pending
    && s.sessions[sid].pending[t] < |s.probes|
    && s.probes[s.sessions[sid].pending[t]].future.Open?
  }

  /** Dispatching `t` gets as far as writing the pending map while it lists another open probe under `t`. */
  ghost predicate Displaces(s: Core, lim: Limits, n: NodeId, t: TaskId)
    requires n in s.connections ==> s.connections[n] < |s.sessions|
  {
    var result := DispatchResult(s, lim, n, t);
    (result.Sent? || result.QueueFull?) && ListsOpen(s, s.connections[n], t)
  }

  lemma OthersKeepOpen(s: Core, sid: nat, t: TaskId, session: Session)
    requires NothingStranded(s) && sid < |s.sessions| && !ListsOpen(s, sid, t)
    requires forall u :: u in s.sessions[sid].pending && u != t ==>
                           u in session.pending && session.pending[u] == s.sessions[sid].pending[u]
    ensures KeepsOpen(s, sid, session)
  {
    forall p | 0 <= p < |s.probes| && s.probes[p].future.Open? && s.probes[p].session == sid
      ensures s.probes[p].task in session.pending && session.pending[s.probes[p].task] == p
    {
      assert Reachable(s, p);
    }
  }

  lemma DispatchStrandsNothing(s: Core, lim: Limits, n: NodeId, t: TaskId)
    requires Sound(s, lim) && NothingStranded(s)
    requires n in s.connections ==> s.connections[n] < |s.sessions|
    requires !Displaces(s, lim, n, t)
    ensures NothingStranded(DispatchNext(s, lim, n, t))
  {
    hide Sound, NothingStranded, KeepsOpen, ListsOpen;
    if n in s.connections {
      ConnectionIndex(s, lim, n);
      var sid := s.connections[n];
      var session := s.sessions[sid];
      match DispatchResult(s, lim, n, t)
      case Sent(p) =>
        var listing := session.(pending := session.pending[t := p], queue := session.queue + [Request(t)]);
        OthersKeepOpen(s, sid, t, listing);
        ListStrandsNothing(s, sid, listing, t);
        RememberStrandsNothing(List(s, sid, listing, t), lim, t);
      case QueueFull =>
        OthersKeepOpen(s, sid, t, Unlist(session, t));
        SetSessionStrandsNothing(s, sid, Unlist(session, t));
      case _ =>
    }
  }

  lemma RememberStrandsNothing(s: Core, lim: Limits, t: TaskId)
    requires NothingStranded(s)
    ensures NothingStranded(Remember(s, lim, t))
  {
    hide Trim;
    forall p | 0 <= p < |s.probes| && s.probes[p].future.Open?
      ensures Reachable(Remember(s, lim, t), p)
    {
      assert Reachable(s, p);
    }
  }

  lemma DisplacedIsStranded(s: Core, lim: Limits, n: NodeId, t: TaskId)
    requires n in s.connections ==> s.connections[n] < |s.sessions|
    requires Sound(s, lim) && Displaces(s, lim, n, t)
    ensures !NothingStranded(DispatchNext(s, lim, n, t))
  {
    hide Sound, Trim;
    ListedProbe(s, lim, s.connections[n], t);
    var p := s.sessions[s.connections[n]].pending[t];
    var s' := DispatchNext(s, lim, n, t);
    assert s'.probes[p].future.Open? && !Listed(s', p);
  }

  /** Dispatching leaves a probe stranded exactly when its id is still listed for another open probe of that
      session: an id the window has already forgotten. A full queue does the same damage. */
  lemma DispatchStrands(s: Core, lim: Limits, n: NodeId, t: TaskId)
    requires Sound(s, lim) && NothingStranded(s)
    ensures n in s.connections ==> s.connections[n] < |s.sessions|
    ensures NothingStranded(Next(s, lim, Dispatch(n, t))) <==> !Displaces(s, lim, n, t)
  {
    hide Sound, NothingStranded, Displaces, DispatchNext;
    if n in s.connections {
      ConnectionIndex(s, lim, n);
    }
    if Displaces(s, lim, n, t) {
      DisplacedIsStranded(s, lim, n, t);
    } else {
      DispatchStrandsNothing(s, lim, n, t);
    }
  }

  /** A timed-out waiter withdraws an entry that lists another open probe. */
  ghost predicate WithdrawsAnother(s: Core, p: nat) {
    p < |s.probes| && MayCleanUp(s.probes[p].future) && ListsOpen(s, s.probes[p].session, s.probes[p].task)
  }

  lemma CleanUpStrandsNothing(s: Core, lim: Limits, p: nat)
    requires Sound(s, lim) && NothingStranded(s) && !WithdrawsAnother(s, p)
    ensures NothingStranded(Next(s, lim, CleanUp(p)))
  {
    hide Sound, NothingStranded, KeepsOpen, ListsOpen;
    if p < |s.probes| && MayCleanUp(s.probes[p].future) {
      ProbeSession(s, lim, p);
      var sid, t := s.probes[p].session, s.probes[p].task;
      var reported := SetFuture(s, p, Reported(s.probes[p].future));
      FuturesStrandNothing(s, reported);
      ReportingListsNothing(s, p, sid, t);
      OthersKeepOpen(reported, sid, t, Told(s.sessions[sid], lim, t));
      SetSessionStrandsNothing(reported, sid, Told(s.sessions[sid], lim, t));
    }
  }

  lemma ReportingListsNothing(s: Core, p: nat, sid: nat, t: TaskId)
    requires p < |s.probes| && !ListsOpen(s, sid, t)
    ensures !ListsOpen(SetFuture(s, p, Reported(s.probes[p].future)), sid, t)
  {
  }

  lemma WithdrawnIsStranded(s: Core, lim: Limits, p: nat)
    requires Sound(s, lim) && WithdrawsAnother(s, p)
    ensures !NothingStranded(Next(s, lim, CleanUp(p)))
  {
    hide Sound;
    ListedProbe(s, lim, s.probes[p].session, s.probes[p].task);
    var q := s.sessions[s.probes[p].session].pending[s.probes[p].task];
    var s' := Next(s, lim, CleanUp(p));
    assert s'.probes[q].future.Open? && !Listed(s', q);
  }

  /** A timed-out waiter's clean-up leaves a probe stranded exactly when the entry it withdraws is not its own. */
  lemma CleanUpStrands(s: Core, lim: Limits, p: nat)
    requires Sound(s, lim) && NothingStranded(s)
    ensures NothingStranded(Next(s, lim, CleanUp(p))) <==> !WithdrawsAnother(s, p)
  {
    hide *;
    if WithdrawsAnother(s, p) {
      WithdrawnIsStranded(s, lim, p);
    } else {
      CleanUpStrandsNothing(s, lim, p);
    }
  }

  // ---------------------------------------------------------------- generated ids

  /** With generated ids no two probes share one. */
  ghost predicate UniqueTasks(s: Core) {
    && (forall p :: 0 <= p < |s.probes| ==> s.probes[p].task in s.dispatched)
    && (forall p, q :: 0 <= p < q < |s.probes| ==> s.probes[p].task != s.probes[q].task)
  }

  ghost predicate FreshId(s: Core, e: Event) {
    e.Dispatch? ==> e.task !in s.dispatched
  }

  lemma UniqueNext(s: Core, lim: Limits, e: Event)
    requires Sound(s, lim) && UniqueTasks(s) && FreshId(s, e)
    ensures UniqueTasks(Next(s, lim, e))
  {
    hide Sound, DispatchNext;
    match e
    case Dispatch(n, t) =>
      if n in s.connections {
        ConnectionIndex(s, lim, n);
      }
      AdvancesDispatch(s, lim, n, t);
    case _ =>
      AdvancesOther(s, lim, e);
      var s' := Next(s, lim, e);
      hide Next;
      assert forall p :: 0 <= p < |s.probes| ==> Advanced(s.probes[p], s'.probes[p]);
  }

  lemma GeneratedIdsAreNotListed(s: Core, lim: Limits, sid: nat, t: TaskId)
    requires Sound(s, lim) && UniqueTasks(s) && t !in s.dispatched
    ensures !ListsOpen(s, sid, t)
  {
    hide Sound;
    if ListsOpen(s, sid, t) {
      ListedProbe(s, lim, sid, t);
    }
  }

  lemma GeneratedIdsWithdrawTheirOwn(s: Core, lim: Limits, p: nat)
    requires Sound(s, lim) && UniqueTasks(s)
    ensures !WithdrawsAnother(s, p)
  {
    hide Sound;
    if p < |s.probes| && ListsOpen(s, s.probes[p].session, s.probes[p].task) {
      ListedProbe(s, lim, s.probes[p].session, s.probes[p].task);
    }
  }

  /** With generated ids no section strands a probe. */
  lemma StrandsNothingNext(s: Core, lim: Limits, e: Event)
    requires Sound(s, lim) && NothingStranded(s) && UniqueTasks(s) && FreshId(s, e)
    ensures NothingStranded(Next(s, lim, e))
  {
    hide Sound, NothingStranded, UniqueTasks, ListsOpen;
    match e
    case Connect(n) => ConnectStrandsNothing(s, lim, n);
    case Disconnect(n) => DropStrandsNothing(s, lim, n, Disconnected);
    case Dispatch(n, t) =>
      if n in s.connections {
        ConnectionIndex(s, lim, n);
        GeneratedIdsAreNotListed(s, lim, s.connections[n], t);
      }
      DispatchStrandsNothing(s, lim, n, t);
    case Receive(n, t, reply) => ReceiveStrandsNothing(s, lim, n, t, reply);
    case TimerFires(p) => TimerStrandsNothing(s, lim, p);
    case Abandon(p) => TimerStrandsNothing(s, lim, p);
    case CleanUp(p) =>
      GeneratedIdsWithdrawTheirOwn(s, lim, p);
      CleanUpStrandsNothing(s, lim, p);
    case Take(sid) => TakeStrandsNothing(s, lim, sid);
  }
}
