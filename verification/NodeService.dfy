/** services/nodes.py: `NodeService` changing its maps in place. */
module NodeServices {
  import opened Prelude
  import opened NodeSessions

  datatype Standing = Disabled | NotOnline | Online

  datatype Asked = NodeDisabled | NodeOffline | Tried(outcome: Dispatched)

  class NodeService {
    const limits: Limits
    var connections: map<NodeId, nat>
    var sessions: seq<Session>
    var probes: seq<Probe>
    var recent: seq<TaskId>
    ghost var dispatched: seq<TaskId>

    ghost function State(): Core
      reads this
    {
      Core(connections, sessions, probes, recent, dispatched)
    }

    ghost predicate Valid()
      reads this
    {
      limits.Positive() && Sound(State(), limits)
    }

    constructor (limits: Limits)
      requires limits.Positive()
      ensures Valid() && this.limits == limits && State() == INITIAL
    {
      this.limits := limits;
      connections, sessions, probes, recent, dispatched := map[], [], [], [], [];
      new;
      SoundAtStart();
    }

    lemma SoundAtStart()
      requires State() == INITIAL
      ensures Sound(State(), limits)
    {
      assert Bounded(INITIAL, limits);
      assert SessionsOk(INITIAL) && ProbesOk(INITIAL) && ConnectionsOk(INITIAL);
      hide SessionsOk, ProbesOk, ConnectionsOk, Bounded;
      assert Remembers([], [], limits.Window());
    }

    /** `_fail_pending`: one listed future after the other, then an empty pending map. */
    method FailListed(sid: nat, verdict: Verdict)
      requires sid < |sessions|
      requires forall t :: t in sessions[sid].pending ==>
                             sessions[sid].pending[t] < |probes| && probes[sessions[sid].pending[t]].task == t
      modifies this`probes, this`sessions
      ensures State() == FailPending(old(State()), sid, verdict)
    {
      var listed := sessions[sid].pending;
      var left := listed.Keys;
      ghost var before := probes;
      while left != {}
        invariant left <= listed.Keys && |probes| == |before| && sessions == old(sessions)
        invariant forall p :: 0 <= p < |probes| ==>
                    probes[p] == if before[p].task in left then before[p] else Settle(before[p], p, listed, verdict)
      {
        var t :| t in left;
        var p := listed[t];
        if probes[p].future.Open? {
          probes := probes[p := probes[p].(future := Settled(verdict))];
        }
        left := left - {t};
      }
      sessions := sessions[sid := sessions[sid].(pending := map[])];
      assert probes == SettleListed(old(State()), listed, verdict).probes;
    }

    lemma ListsItsProbes(sid: nat)
      requires Valid() && sid < |sessions|
      ensures forall t :: t in sessions[sid].pending ==>
                sessions[sid].pending[t] < |probes| && probes[sessions[sid].pending[t]].task == t
    {
      assert SessionOk(State(), sid);
    }

    /** `connect`: takes the place of the node's earlier session, whose probes fail. */
    method Connect(n: NodeId) returns (session: Option<nat>)
      requires Valid()
      modifies this
      ensures Valid() && State() == ConnectNext(old(State()), limits, n)
      ensures session == if Refused(old(State()), limits, n) then None else Some(|old(sessions)|)
      ensures ConnectedAs(old(State()), State(), limits, n, session)
    {
      hide Sound, ConnectedAs;
      ConnectSays(State(), limits, n);
      SoundConnect(State(), limits, n);
      if n !in connections && |connections| >= limits.connections {
        return None;
      }
      if n in connections {
        var previous := connections[n];
        ConnectionIndex(State(), limits, n);
        ListsItsProbes(previous);
        FailListed(previous, Replaced);
        connections := connections - {n};
      }
      assert State() == DropConnection(old(State()), n, Replaced);
      session := Some(|sessions|);
      connections := connections[n := |sessions|];
      sessions := sessions + [Session(n, [], map[])];
    }

    /** `disconnect`: whichever session is registered for the node. */
    method Disconnect(n: NodeId)
      requires Valid()
      modifies this
      ensures Valid() && State() == Next(old(State()), limits, NodeSessions.Disconnect(n))
      ensures connections == old(connections) - {n}
      ensures if n in old(connections)
              then old(connections)[n] < |old(sessions)|
                   && LostAs(old(State()), State(), old(connections)[n], Disconnected)
                   && |sessions| == |old(sessions)|
              else State() == old(State())
    {
      hide Sound, LostAs;
      if n in connections {
        DropLoses(State(), limits, n, Disconnected);
      }
      SoundDrop(State(), limits, n, Disconnected);
      if n in connections {
        var previous := connections[n];
        ConnectionIndex(State(), limits, n);
        ListsItsProbes(previous);
        FailListed(previous, Disconnected);
        connections := connections - {n};
      }
    }

    /** The part of `probe` that runs under the lock, once the node's record has been looked at. */
    method Ask(n: NodeId, t: TaskId, standing: Standing) returns (asked: Asked)
      requires Valid()
      modifies this
      ensures Valid()
      ensures standing.Disabled? ==> asked == NodeDisabled && State() == old(State())
      ensures standing.NotOnline? ==> asked == NodeOffline && State() == old(State())
      ensures standing.Online? ==>
                && (n in old(connections) ==> old(connections)[n] < |old(sessions)|)
                && asked == Tried(DispatchResult(old(State()), limits, n, t))
                && DispatchedAs(old(State()), State(), limits, n, t, asked.outcome)
                && State() == Next(old(State()), limits, NodeSessions.Dispatch(n, t))
    {
      hide Sound, DispatchedAs;
      DispatchSays(State(), limits, n, t);
      if standing.Disabled? {
        return NodeDisabled;
      }
      if standing.NotOnline? {
        return NodeOffline;
      }
      SoundDispatch(State(), limits, n, t);
      if t in recent {
        if n in connections {
          ConnectionIndex(State(), limits, n);
        }
        return Tried(Duplicate);
      }
      if n !in connections {
        return Tried(NoConnection);
      }
      ConnectionIndex(State(), limits, n);
      var outcome := Enqueue(connections[n], t);
      asked := Tried(outcome);
    }

    /** Writes the pending map first, and takes the entry out again when the queue is full. */
    method Enqueue(sid: nat, t: TaskId) returns (outcome: Dispatched)
      requires sid < |sessions| && t !in recent
      requires sessions[sid].node in connections && connections[sessions[sid].node] == sid
      modifies this
      ensures outcome == DispatchResult(old(State()), limits, old(sessions)[sid].node, t)
      ensures State() == DispatchNext(old(State()), limits, old(sessions)[sid].node, t)
    {
      var session := sessions[sid];
      if |session.pending| >= limits.tasks {
        return TooManyTasks;
      }
      if |session.queue| >= limits.messages {
        sessions := sessions[sid := Unlist(session, t)];
        return QueueFull;
      }
      outcome := Sent(|probes|);
      sessions := sessions[sid := session.(pending := session.pending[t := |probes|],
                                           queue := session.queue + [Request(t)])];
      probes := probes + [Probe(session.node, t, sid, Open)];
      recent := recent + [t];
      dispatched := dispatched + [t];
      Evict();
    }

    /** The eviction loop over the remembered ids, oldest first. */
    method Evict()
      modifies this`recent
      ensures recent == Trim(old(recent), limits.Window())
    {
      while |recent| > limits.tasks * limits.connections
        invariant |recent| <= |old(recent)| && recent == old(recent)[|old(recent)| - |recent|..]
        invariant |recent| >= limits.Window() || recent == old(recent)
      {
        recent := recent[1..];
      }
    }

    /** `receive_result`: takes the entry out, and settles the future unless it is done already. */
    method ReceiveResult(n: NodeId, t: TaskId, reply: Reply)
      requires Valid()
      modifies this
      ensures Valid() && State() == Next(old(State()), limits, NodeSessions.Receive(n, t, reply))
      ensures ReceivedAs(old(State()), State(), n, t, reply)
    {
      hide Sound, ReceivedAs;
      ReceiveSays(State(), limits, n, t, reply);
      SoundReceive(State(), limits, n, t, reply);
      if n in connections {
        var sid := connections[n];
        ConnectionIndex(State(), limits, n);
        if t in sessions[sid].pending {
          ListedProbe(State(), limits, sid, t);
          var p := sessions[sid].pending[t];
          sessions := sessions[sid := Unlist(sessions[sid], t)];
          if probes[p].future.Open? {
            probes := probes[p := probes[p].(future := Settled(Answered(reply)))];
          }
        }
      }
    }

    /** What a waiter does after its timeout; the session is the one it was sent to. */
    method CleanUp(p: nat)
      requires Valid() && p < |probes| && MayCleanUp(probes[p].future)
      modifies this
      ensures Valid() && State() == Next(old(State()), limits, NodeSessions.CleanUp(p))
      ensures old(probes)[p].session < |old(sessions)| && CleanedUpAs(old(State()), State(), limits, p)
    {
      hide Sound, CleanedUpAs;
      CleanUpSays(State(), limits, p);
      SoundCleanUp(State(), limits, p);
      ProbeSession(State(), limits, p);
      var sid, t := probes[p].session, probes[p].task;
      sessions := sessions[sid := Unlist(sessions[sid], t)];
      if |sessions[sid].queue| < limits.messages {
        sessions := sessions[sid := sessions[sid].(queue := sessions[sid].queue + [Cancel(t)])];
      }
      probes := probes[p := probes[p].(future := Reported(probes[p].future))];
      assert State() == Next(old(State()), limits, NodeSessions.CleanUp(p));
    }
  }
}
