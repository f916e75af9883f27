/** services/manager.py: what stopping a run reaches. The runs below a run form branches, one for each of its
    children. */
module Stopping {
  import opened Prelude
  import opened Lifecycles

  type Table = map<RunId, Delegation>

  /** A child is deeper than its parent, and no deeper than the settings allow. */
  ghost predicate Falls(d: Table, maxDepth: nat) {
    forall c :: c in d ==> d[c].depth <= maxDepth && DepthOf(d, d[c].parent) < d[c].depth
  }

  function DepthOf(d: Table, r: RunId): nat {
    if r in d then d[r].depth else 0
  }

  lemma DelegationsFall(s: Store, maxDepth: nat)
    requires Sound(s, maxDepth)
    ensures Falls(s.delegations, maxDepth)
    ensures forall c :: c in s.delegations ==> c in s.runs
  {
    hide OneActive, BusyIfActive, RunsOk, TasksOk;
    forall c | c in s.delegations
      ensures s.delegations[c].depth <= maxDepth
      ensures DepthOf(s.delegations, s.delegations[c].parent) < s.delegations[c].depth
      ensures c in s.runs
    {
      assert DelegationOk(s, maxDepth, c);
      if s.delegations[c].parent in s.delegations {
        assert DelegationOk(s, maxDepth, s.delegations[c].parent);
      }
    }
  }

  /** The run was delegated by `r`, or by a run below it. */
  ghost predicate Under(d: Table, maxDepth: nat, r: RunId, q: RunId)
    requires Falls(d, maxDepth)
    decreases DepthOf(d, q)
  {
    q in d && (d[q].parent == r || Under(d, maxDepth, r, d[q].parent))
  }

  /** The child of `r` at or above the run. */
  ghost function Branch(d: Table, maxDepth: nat, r: RunId, q: RunId): RunId
    requires Falls(d, maxDepth) && Under(d, maxDepth, r, q)
    decreases DepthOf(d, q)
  {
    if d[q].parent == r then q else Branch(d, maxDepth, r, d[q].parent)
  }

  lemma {:induction false} UnderIsDeeper(d: Table, maxDepth: nat, r: RunId, q: RunId)
    requires Falls(d, maxDepth) && Under(d, maxDepth, r, q)
    ensures DepthOf(d, r) < DepthOf(d, q)
    decreases DepthOf(d, q)
  {
    if d[q].parent != r {
      UnderIsDeeper(d, maxDepth, r, d[q].parent);
    }
  }

  /** What is at or below a child of `r` is in that child's branch. */
  lemma {:induction false} BranchOfChild(d: Table, maxDepth: nat, r: RunId, c: RunId, q: RunId)
    requires Falls(d, maxDepth) && c in d && d[c].parent == r && (q == c || Under(d, maxDepth, c, q))
    ensures Under(d, maxDepth, r, q) && Branch(d, maxDepth, r, q) == c
    decreases DepthOf(d, q)
  {
    if q != c {
      if d[q].parent == r {
        UnderIsDeeper(d, maxDepth, c, q);
        if d[q].parent != c {
          UnderIsDeeper(d, maxDepth, c, d[q].parent);
        }
      } else {
        BranchOfChild(d, maxDepth, r, c, d[q].parent);
      }
    }
  }

  // ---------------------------------------------------------------- what a stop changes

  /** Rows, delegations and origins are those of before; runs only end; only tasks that end in time are gone. */
  ghost predicate OnlyEnds(s: Store, s': Store, quick: set<RunId>) {
    && s'.delegations == s.delegations
    && s'.origins == s.origins
    && s'.serving == s.serving
    && s'.runs.Keys == s.runs.Keys
    && s'.tasks.Keys - quick == s.tasks.Keys - quick
    && (forall q :: q in s.runs ==> s'.runs[q] == s.runs[q] || (Active(s, q) && Terminal(s'.runs[q].status)))
  }

  lemma OnlyEndsThrough(s: Store, t: Store, u: Store, quick: set<RunId>)
    requires OnlyEnds(s, t, quick) && OnlyEnds(t, u, quick)
    ensures OnlyEnds(s, u, quick)
  {
    forall q | q in s.runs
      ensures u.runs[q] == s.runs[q] || (Active(s, q) && Terminal(u.runs[q].status))
    {
      assert q in t.runs;
    }
  }

  lemma FinishOnlyEnds(s: Store, r: RunId, ending: Ending, quick: set<RunId>)
    ensures OnlyEnds(s, FinishNext(s, r, ending), quick)
    ensures forall q :: q in s.runs && q != r ==> FinishNext(s, r, ending).runs[q] == s.runs[q]
    ensures !ending.Success? ==> !Active(FinishNext(s, r, ending), r)
  {
    hide Append, LogOf;
  }

  lemma EndTaskOnlyEnds(s: Store, r: RunId, quick: set<RunId>)
    requires r in quick
    ensures OnlyEnds(s, EndTask(s, r), quick) && EndTask(s, r).runs == s.runs
  {
    assert (s.tasks.Keys - {r}) - quick == s.tasks.Keys - quick;
  }

  /** The run has ended, unless its task would not end in time, and the same holds for every child that was active. */
  ghost predicate Settles(s: Store, s': Store, maxDepth: nat, quick: set<RunId>, c: RunId)
    requires Falls(s.delegations, maxDepth)
    decreases maxDepth - (if DepthOf(s.delegations, c) <= maxDepth then DepthOf(s.delegations, c) else maxDepth)
  {
    && (!Active(s', c) || (c in s.tasks && c !in quick))
    && (forall b :: b in s.delegations && s.delegations[b].parent == c && Active(s, b) ==>
          Settles(s, s', maxDepth, quick, b))
  }

  /** What was settled stays so while runs only end. */
  lemma {:induction false} SettlesOn(s: Store, t: Store, u: Store, maxDepth: nat, quick: set<RunId>, c: RunId)
    requires Falls(s.delegations, maxDepth) && Settles(s, t, maxDepth, quick, c) && OnlyEnds(t, u, quick)
    ensures Settles(s, u, maxDepth, quick, c)
    decreases maxDepth - (if DepthOf(s.delegations, c) <= maxDepth then DepthOf(s.delegations, c) else maxDepth)
  {
    forall b | b in s.delegations && s.delegations[b].parent == c && Active(s, b)
      ensures Settles(s, u, maxDepth, quick, b)
    {
      SettlesOn(s, t, u, maxDepth, quick, b);
    }
  }

  /** Seen from an earlier store in which this branch was the same, nothing differs. */
  lemma {:induction false} SettlesFrom(s: Store, t: Store, u: Store, maxDepth: nat, quick: set<RunId>, c: RunId)
    requires Falls(s.delegations, maxDepth) && OnlyEnds(s, t, quick) && Settles(t, u, maxDepth, quick, c)
    requires forall q :: q in s.runs && Under(s.delegations, maxDepth, c, q) ==> t.runs[q] == s.runs[q]
    ensures Settles(s, u, maxDepth, quick, c)
    decreases maxDepth - (if DepthOf(s.delegations, c) <= maxDepth then DepthOf(s.delegations, c) else maxDepth)
  {
    assert c in t.tasks && c !in quick ==> c in t.tasks.Keys - quick;
    forall b | b in s.delegations && s.delegations[b].parent == c && Active(s, b)
      ensures Settles(s, u, maxDepth, quick, b)
    {
      forall q | q in s.runs && Under(s.delegations, maxDepth, b, q)
        ensures t.runs[q] == s.runs[q]
      {
        BranchOfChild(s.delegations, maxDepth, c, b, q);
      }
      assert Under(s.delegations, maxDepth, c, b);
      SettlesFrom(s, t, u, maxDepth, quick, b);
    }
  }

  /** Along a path of runs that were all active, the last one has ended unless its own task would not end in time. */
  lemma {:induction false} ActivePathsEnd(s: Store, s': Store, maxDepth: nat, quick: set<RunId>, path: seq<RunId>)
    requires Falls(s.delegations, maxDepth) && path != [] && Settles(s, s', maxDepth, quick, path[0])
    requires forall j {:trigger IsLink(s, path, j)} :: 0 < j < |path| ==> IsLink(s, path, j)
    ensures !Active(s', path[|path| - 1]) || (path[|path| - 1] in s.tasks && path[|path| - 1] !in quick)
    decreases |path|
  {
    if |path| > 1 {
      var rest := path[1..];
      assert IsLink(s, path, 1);
      forall j {:trigger IsLink(s, rest, j)} | 0 < j < |rest|
        ensures IsLink(s, rest, j)
      {
        assert IsLink(s, path, j + 1);
      }
      ActivePathsEnd(s, s', maxDepth, quick, rest);
    }
  }

  ghost predicate IsLink(s: Store, path: seq<RunId>, j: nat)
    requires 0 < j < |path|
  {
    path[j] in s.delegations && s.delegations[path[j]].parent == path[j - 1] && Active(s, path[j])
  }

  // ---------------------------------------------------------------- how a stopped run ends

  const NO_HANDLE: Text := "Live execution handle unavailable"
  const SHUTDOWN: Text := "Run cancellation timed out during shutdown"

  datatype StopResult = NoRun | AlreadyEnded | NoHandle | CancellationTimedOut | Stopped

  /** Cancelled, without an error; its agent is idle. */
  ghost predicate WasCancelled(s: Store, t: Store, q: RunId)
    requires q in s.runs
  {
    && q in t.runs && t.runs[q] == s.runs[q].(status := Cancelled)
    && Shown(s, t, s.runs[q].agent, Idle)
  }

  /** Failed with this error; its agent shows it. */
  ghost predicate WasFailed(s: Store, t: Store, q: RunId, error: Text)
    requires q in s.runs
  {
    && q in t.runs && t.runs[q] == s.runs[q].(status := Failed, error := Some(error))
    && Shown(s, t, s.runs[q].agent, Erred)
  }

  ghost predicate Shown(s: Store, t: Store, a: AgentId, status: AgentStatus) {
    a in s.agents && a in t.agents && t.agents[a] == s.agents[a].(status := status)
  }

  /** The run, its agent and its task are as before. */
  ghost predicate Untouched(s: Store, t: Store, q: RunId)
    requires q in s.runs
  {
    && q in t.runs && t.runs[q] == s.runs[q]
    && s.runs[q].agent in s.agents && s.runs[q].agent in t.agents
    && t.agents[s.runs[q].agent] == s.agents[s.runs[q].agent]
    && (q in t.tasks <==> q in s.tasks)
  }

  /** Only the agents of active runs change. */
  ghost predicate OthersShown(s: Store, t: Store) {
    forall a :: a in s.agents && !HasActive(s, a) ==> a in t.agents && t.agents[a] == s.agents[a]
  }

  /** How stopping an active run leaves it: failed if it has no task, cancelled if its task ends in time, and otherwise
      as it was. */
  ghost predicate StopLeaves(s: Store, t: Store, quick: set<RunId>, q: RunId)
    requires q in s.runs
  {
    if q !in s.tasks then WasFailed(s, t, q, NO_HANDLE)
    else if q in quick then WasCancelled(s, t, q)
    else Untouched(s, t, q)
  }

  /** An active run was not stopped, or left as a stop leaves it. */
  ghost predicate StopsAs(s: Store, t: Store, quick: set<RunId>) {
    && OthersShown(s, t)
    && (forall q :: Active(s, q) ==> Untouched(s, t, q) || StopLeaves(s, t, quick, q))
  }

  lemma AgentOf(s: Store, maxDepth: nat, q: RunId)
    requires Sound(s, maxDepth) && q in s.runs
    ensures s.runs[q].agent in s.agents
  {
    hide OneActive, BusyIfActive, TasksOk, DelegationsOk, LogOk;
    assert RunOk(s, q);
  }

  lemma OneRunEach(s: Store, maxDepth: nat)
    requires Sound(s, maxDepth)
    ensures OneActive(s)
  {
  }

  lemma EveryoneUntouched(s: Store, maxDepth: nat)
    requires Sound(s, maxDepth)
    ensures forall q :: Active(s, q) ==> Untouched(s, s, q)
  {
    hide Sound;
    forall q | Active(s, q)
      ensures Untouched(s, s, q)
    {
      AgentOf(s, maxDepth, q);
    }
  }

  lemma NothingStopped(s: Store, maxDepth: nat, quick: set<RunId>)
    requires Sound(s, maxDepth)
    ensures StopsAs(s, s, quick)
  {
    hide Sound, HasActive;
    EveryoneUntouched(s, maxDepth);
  }

  /** An agent without an active run stays without one. */
  lemma StaysFree(s: Store, t: Store, quick: set<RunId>, a: AgentId)
    requires OnlyEnds(s, t, quick) && !HasActive(s, a)
    ensures !HasActive(t, a)
  {
    if HasActive(t, a) {
      var q :| ActiveFor(t, q, a);
      assert ActiveFor(s, q, a);
    }
  }

  /** The agent of a run that has ended since is free. */
  lemma FreedAgent(s: Store, t: Store, quick: set<RunId>, q: RunId)
    requires OneActive(s) && OnlyEnds(s, t, quick) && Active(s, q) && !Active(t, q)
    ensures !HasActive(t, s.runs[q].agent)
  {
    if HasActive(t, s.runs[q].agent) {
      var p :| ActiveFor(t, p, s.runs[q].agent);
      assert Active(s, p);
    }
  }

  /** Once a run has ended, its row and its agent stay as they are while other runs are stopped. */
  lemma EndedStays(s: Store, t: Store, u: Store, quick: set<RunId>, q: RunId)
    requires OneActive(s) && OnlyEnds(s, t, quick) && OnlyEnds(t, u, quick) && OthersShown(t, u)
    requires Active(s, q) && !Active(t, q)
    ensures q in t.runs && q in u.runs && u.runs[q] == t.runs[q]
    ensures s.runs[q].agent in t.agents ==>
              s.runs[q].agent in u.agents && u.agents[s.runs[q].agent] == t.agents[s.runs[q].agent]
  {
    FreedAgent(s, t, quick, q);
    hide HasActive, OneActive;
  }

  lemma OthersThroughout(s: Store, t: Store, u: Store, quick: set<RunId>)
    requires OnlyEnds(s, t, quick) && OthersShown(s, t) && OthersShown(t, u)
    ensures OthersShown(s, u)
  {
    hide HasActive, OnlyEnds;
    forall a | a in s.agents && !HasActive(s, a)
      ensures a in u.agents && u.agents[a] == s.agents[a]
    {
      StaysFree(s, t, quick, a);
    }
  }

  lemma StopsAsThrough(s: Store, t: Store, u: Store, quick: set<RunId>)
    requires OneActive(s) && OnlyEnds(s, t, quick) && OnlyEnds(t, u, quick)
    requires StopsAs(s, t, quick) && StopsAs(t, u, quick)
    ensures StopsAs(s, u, quick)
  {
    hide OnlyEnds, OneActive, OthersShown;
    OthersThroughout(s, t, u, quick);
    forall q | Active(s, q)
      ensures Untouched(s, u, q) || StopLeaves(s, u, quick, q)
    {
      if !Active(t, q) {
        EndedStays(s, t, u, quick, q);
      }
    }
  }

  /** A stop ends one run, or none. */
  lemma FinishStopsAs(s: Store, maxDepth: nat, r: RunId, ending: Ending, quick: set<RunId>)
    requires Sound(s, maxDepth)
    requires Active(s, r) ==> if r in s.tasks then ending.Cancellation? && r in quick else ending == Failure(NO_HANDLE)
    ensures StopsAs(s, FinishNext(s, r, ending), quick)
    ensures Active(s, r) ==> StopLeaves(s, FinishNext(s, r, ending), quick, r)
  {
    hide Sound, OthersShown;
    if Active(s, r) {
      FinishLeaves(s, maxDepth, r, ending);
      hide FinishNext;
      LeavesOthers(s, FinishNext(s, r, ending), maxDepth, r, ending);
    } else {
      NothingStopped(s, maxDepth, quick);
    }
  }

  lemma LeavesOthers(s: Store, t: Store, maxDepth: nat, r: RunId, ending: Ending)
    requires Sound(s, maxDepth) && Active(s, r) && FinishedAs(s, t, r, ending)
    ensures OthersShown(s, t)
    ensures forall q :: Active(s, q) && q != r ==> Untouched(s, t, q)
  {
    hide BusyIfActive, RunsOk, TasksOk, DelegationsOk;
    assert ActiveFor(s, r, s.runs[r].agent);
    OthersHaveAgents(s, maxDepth, r);
    hide Sound, HasActive, ActiveFor;
  }

  lemma OthersHaveAgents(s: Store, maxDepth: nat, r: RunId)
    requires Sound(s, maxDepth) && Active(s, r)
    ensures forall q :: Active(s, q) && q != r ==> s.runs[q].agent in s.agents && s.runs[q].agent != s.runs[r].agent
  {
    assert OneActive(s);
    hide Sound;
    forall q | Active(s, q) && q != r
      ensures s.runs[q].agent in s.agents
    {
      AgentOf(s, maxDepth, q);
    }
  }

  /** A task that is over takes nothing with it, once its run has ended. */
  lemma EndTaskStopsAs(s: Store, maxDepth: nat, r: RunId, quick: set<RunId>)
    requires Sound(s, maxDepth) && !Active(s, r)
    ensures StopsAs(s, EndTask(s, r), quick)
  {
    hide Sound, HasActive;
    forall q | Active(s, q)
      ensures Untouched(s, EndTask(s, r), q)
    {
      AgentOf(s, maxDepth, q);
    }
  }

  /** A cancelled task ends its run and is over. */
  lemma CancelledTask(s: Store, maxDepth: nat, r: RunId, quick: set<RunId>)
    requires Sound(s, maxDepth) && r in s.tasks && r in quick
    ensures var t := EndTask(FinishNext(s, r, Cancellation), r);
            && Sound(t, maxDepth) && OnlyEnds(s, t, quick) && StopsAs(s, t, quick)
            && (forall q :: q != r ==> SameAt(s, t, q))
            && !Active(t, r) && (Active(s, r) ==> WasCancelled(s, t, r))
  {
    hide Sound, OnlyEnds, FinishNext, StopsAs, WasCancelled, WasFailed, Untouched;
    var t := FinishNext(s, r, Cancellation);
    SoundFinish(s, maxDepth, r, Cancellation);
    SoundEndTask(t, maxDepth, r);
    FinishOnlyEnds(s, r, Cancellation, quick);
    FinishLeavesTasks(s, r, Cancellation);
    FinishStopsAs(s, maxDepth, r, Cancellation, quick);
    TaskIsOver(s, t, maxDepth, r, quick);
    OthersThrough(s, t, EndTask(t, r), r);
  }

  lemma SameRow(s: Store, t: Store, u: Store, q: RunId)
    requires u.runs == t.runs && u.agents == t.agents
    ensures q in s.runs ==> (WasCancelled(s, t, q) <==> WasCancelled(s, u, q))
  {
  }

  lemma TaskIsOver(s: Store, t: Store, maxDepth: nat, r: RunId, quick: set<RunId>)
    requires Sound(s, maxDepth) && Sound(t, maxDepth) && r in s.tasks && r in quick
    requires OnlyEnds(s, t, quick) && StopsAs(s, t, quick) && !Active(t, r)
    ensures var u := EndTask(t, r);
            && OnlyEnds(s, u, quick) && StopsAs(s, u, quick) && !Active(u, r)
            && (forall q :: q != r ==> SameAt(t, u, q))
            && (r in s.runs ==> (WasCancelled(s, t, r) <==> WasCancelled(s, u, r)))
  {
    hide Sound, OneActive, OnlyEnds, StopsAs, WasCancelled;
    OneRunEach(s, maxDepth);
    SameRow(s, t, EndTask(t, r), r);
    EndTaskOnlyEnds(t, r, quick);
    OnlyEndsThrough(s, t, EndTask(t, r), quick);
    EndTaskStopsAs(t, maxDepth, r, quick);
    StopsAsThrough(s, t, EndTask(t, r), quick);
  }

  /** What was settled and active is left as a stop leaves it. */
  lemma SettledAs(s: Store, t: Store, maxDepth: nat, quick: set<RunId>, q: RunId)
    requires Falls(s.delegations, maxDepth) && StopsAs(s, t, quick) && Settles(s, t, maxDepth, quick, q)
    requires Active(s, q)
    ensures StopLeaves(s, t, quick, q)
    ensures if q !in s.tasks then WasFailed(s, t, q, NO_HANDLE)
            else if q in quick then WasCancelled(s, t, q) else Untouched(s, t, q)
  {
    hide OthersShown, Falls;
  }

  /** The last run of a path of active runs, whose first was settled, is left as a stop leaves it. */
  lemma PathsEndAs(s: Store, t: Store, maxDepth: nat, quick: set<RunId>, path: seq<RunId>)
    requires Falls(s.delegations, maxDepth) && path != [] && Settles(s, t, maxDepth, quick, path[0])
    requires forall j {:trigger IsLink(s, path, j)} :: 0 < j < |path| ==> IsLink(s, path, j)
    requires StopsAs(s, t, quick) && Active(s, path[0])
    ensures Active(s, path[|path| - 1]) && StopLeaves(s, t, quick, path[|path| - 1])
  {
    hide OthersShown, Falls, Settles;
    ActivePathsEnd(s, t, maxDepth, quick, path);
    if |path| > 1 {
      assert IsLink(s, path, |path| - 1);
    }
  }

  // ---------------------------------------------------------------- one branch after the other

  ghost predicate SameAt(s: Store, t: Store, q: RunId) {
    && (q in t.runs <==> q in s.runs)
    && (q in s.runs ==> t.runs[q] == s.runs[q])
    && (q in t.tasks <==> q in s.tasks)
  }

  /** Nothing changed but below `r`, and at `r` itself if it is included. */
  ghost predicate OnlyBelow(s: Store, t: Store, maxDepth: nat, r: RunId, included: bool)
    requires Falls(s.delegations, maxDepth)
  {
    forall q :: SameAt(s, t, q) || Under(s.delegations, maxDepth, r, q) || (included && q == r)
  }

  ghost predicate ChildOf(s: Store, r: RunId, c: RunId) {
    c in s.delegations && s.delegations[c].parent == r
  }

  /** Between two children: the branches of those that are left are as before, the others are settled. */
  ghost predicate BranchesDone(s: Store, t: Store, maxDepth: nat, quick: set<RunId>, r: RunId, left: set<RunId>)
    requires Falls(s.delegations, maxDepth)
  {
    && OnlyEnds(s, t, quick)
    && StopsAs(s, t, quick)
    && (forall q :: SameAt(s, t, q)
          || (Under(s.delegations, maxDepth, r, q) && Branch(s.delegations, maxDepth, r, q) !in left))
    && (forall c :: ChildOf(s, r, c) && c !in left && Active(s, c) ==> Settles(s, t, maxDepth, quick, c))
  }

  lemma NoBranchDone(s: Store, maxDepth: nat, quick: set<RunId>, r: RunId, left: set<RunId>)
    requires Falls(s.delegations, maxDepth) && Sound(s, maxDepth) && forall c :: ChildOf(s, r, c) ==> c in left
    ensures BranchesDone(s, s, maxDepth, quick, r, left)
  {
    NothingStopped(s, maxDepth, quick);
    hide Sound, Settles, Under, Branch, StopsAs;
  }

  lemma AllBranchesDone(s: Store, t: Store, maxDepth: nat, quick: set<RunId>, r: RunId)
    requires Falls(s.delegations, maxDepth) && BranchesDone(s, t, maxDepth, quick, r, {})
    ensures OnlyEnds(s, t, quick) && StopsAs(s, t, quick) && OnlyBelow(s, t, maxDepth, r, false)
    ensures forall c :: ChildOf(s, r, c) && Active(s, c) ==>
              Settles(s, t, maxDepth, quick, c) && StopLeaves(s, t, quick, c)
  {
    hide Settles, Under, Branch, StopsAs, StopLeaves, OnlyEnds;
    forall c | ChildOf(s, r, c) && Active(s, c)
      ensures StopLeaves(s, t, quick, c)
    {
      SettledAs(s, t, maxDepth, quick, c);
    }
  }

  lemma BranchUnchanged(s: Store, t: Store, maxDepth: nat, quick: set<RunId>, r: RunId, left: set<RunId>, c: RunId)
    requires Falls(s.delegations, maxDepth) && BranchesDone(s, t, maxDepth, quick, r, left)
    requires ChildOf(s, r, c) && c in left
    ensures SameAt(s, t, c)
    ensures forall q :: Under(s.delegations, maxDepth, c, q) ==> SameAt(s, t, q)
  {
    hide Settles, Under, Branch, OnlyEnds;
    BranchOfChild(s.delegations, maxDepth, r, c, c);
    forall q | Under(s.delegations, maxDepth, c, q)
      ensures SameAt(s, t, q)
    {
      BranchOfChild(s.delegations, maxDepth, r, c, q);
    }
  }

  /** A child that has ended already is passed over, with everything below it. */
  lemma PassOver(s: Store, t: Store, maxDepth: nat, quick: set<RunId>, r: RunId, left: set<RunId>, c: RunId)
    requires Falls(s.delegations, maxDepth) && BranchesDone(s, t, maxDepth, quick, r, left)
    requires ChildOf(s, r, c) && c in left && !Active(t, c)
    ensures BranchesDone(s, t, maxDepth, quick, r, left - {c})
  {
    hide Settles, Under, Branch, OnlyEnds, StopsAs;
    BranchUnchanged(s, t, maxDepth, quick, r, left, c);
  }

  /** The child's descendants are stopped, and then the child. */
  lemma StopBranch(s: Store, t: Store, u: Store, v: Store, maxDepth: nat, quick: set<RunId>, r: RunId, left: set<RunId>,
                   c: RunId)
    requires Falls(s.delegations, maxDepth) && BranchesDone(s, t, maxDepth, quick, r, left)
    requires ChildOf(s, r, c) && c in left
    requires t.delegations == s.delegations && u.delegations == s.delegations
    requires Sound(s, maxDepth) && Sound(t, maxDepth)
    requires OnlyEnds(t, u, quick) && OnlyEnds(u, v, quick) && StopsAs(t, u, quick) && StopsAs(u, v, quick)
    requires OnlyBelow(t, u, maxDepth, c, false) && OnlyBelow(u, v, maxDepth, c, true)
    requires forall b :: ChildOf(t, c, b) && Active(t, b) ==> Settles(t, u, maxDepth, quick, b)
    requires !Active(v, c) || (c in t.tasks && c !in quick)
    ensures BranchesDone(s, v, maxDepth, quick, r, left - {c})
  {
    hide Sound, Settles, Under, Branch, OnlyEnds, StopsAs, OneActive;
    OneRunEach(s, maxDepth);
    OneRunEach(t, maxDepth);
    StopBranchSettles(s, t, u, v, maxDepth, quick, r, left, c);
    StopsAsThrough(t, u, v, quick);
    OnlyEndsThrough(t, u, v, quick);
    StopsAsThrough(s, t, v, quick);
    OnlyEndsThrough(s, t, v, quick);
    forall q
      ensures SameAt(s, v, q) || (Under(s.delegations, maxDepth, r, q)
                                  && Branch(s.delegations, maxDepth, r, q) !in left - {c})
    {
      if q == c || Under(s.delegations, maxDepth, c, q) {
        BranchOfChild(s.delegations, maxDepth, r, c, q);
      } else {
        assert SameAt(t, u, q) && SameAt(u, v, q);
      }
    }
    forall b | ChildOf(s, r, b) && b !in left - {c} && Active(s, b)
      ensures Settles(s, v, maxDepth, quick, b)
    {
      if b != c {
        SettlesOn(s, t, v, maxDepth, quick, b);
      }
    }
  }

  lemma StopBranchSettles(s: Store, t: Store, u: Store, v: Store, maxDepth: nat, quick: set<RunId>, r: RunId,
                          left: set<RunId>, c: RunId)
    requires Falls(s.delegations, maxDepth) && BranchesDone(s, t, maxDepth, quick, r, left)
    requires ChildOf(s, r, c) && c in left
    requires t.delegations == s.delegations && OnlyEnds(t, u, quick) && OnlyEnds(u, v, quick)
    requires forall b :: ChildOf(t, c, b) && Active(t, b) ==> Settles(t, u, maxDepth, quick, b)
    requires !Active(v, c) || (c in t.tasks && c !in quick)
    ensures Settles(s, v, maxDepth, quick, c)
  {
    BranchUnchanged(s, t, maxDepth, quick, r, left, c);
    assert OnlyEnds(s, t, quick);
    hide OnlyEnds, BranchesDone, Under;
    forall b | b in t.delegations && t.delegations[b].parent == c && Active(t, b)
      ensures Settles(t, v, maxDepth, quick, b)
    {
      assert ChildOf(t, c, b);
      SettlesOn(t, u, v, maxDepth, quick, b);
    }
    assert Settles(t, v, maxDepth, quick, c);
    SettlesFrom(s, t, v, maxDepth, quick, c);
  }

  // ---------------------------------------------------------------- steps of a stop

  lemma Unchanged(s: Store, quick: set<RunId>)
    ensures OnlyEnds(s, s, quick) && forall q :: SameAt(s, s, q)
  {
  }

  lemma FinishLeavesTasks(s: Store, r: RunId, ending: Ending)
    ensures FinishNext(s, r, ending).tasks == s.tasks && FinishNext(s, r, ending).runs.Keys == s.runs.Keys
    ensures forall q :: q != r ==> SameAt(s, FinishNext(s, r, ending), q)
  {
    hide Append, LogOf, Final;
  }

  lemma OthersThrough(s: Store, t: Store, u: Store, r: RunId)
    requires forall q :: q != r ==> SameAt(s, t, q)
    requires forall q :: q != r ==> SameAt(t, u, q)
    ensures forall q :: q != r ==> SameAt(s, u, q)
  {
    forall q | q != r
      ensures SameAt(s, u, q)
    {
      assert SameAt(s, t, q) && SameAt(t, u, q);
    }
  }

  lemma KeepsTables(s: Store, t: Store, quick: set<RunId>)
    requires OnlyEnds(s, t, quick)
    ensures t.delegations == s.delegations && t.runs.Keys == s.runs.Keys
    ensures forall q :: q in s.runs && Active(t, q) ==> Active(s, q)
  {
  }

  lemma NotUnderItself(d: Table, maxDepth: nat, r: RunId)
    requires Falls(d, maxDepth)
    ensures !Under(d, maxDepth, r, r)
  {
    if Under(d, maxDepth, r, r) {
      UnderIsDeeper(d, maxDepth, r, r);
    }
  }

  lemma StillThere(s: Store, t: Store, maxDepth: nat, c: RunId)
    requires Falls(s.delegations, maxDepth) && OnlyBelow(s, t, maxDepth, c, false)
    requires !Under(s.delegations, maxDepth, c, c)
    ensures SameAt(s, t, c)
  {
  }

  lemma RunItself(s: Store, t: Store, maxDepth: nat, quick: set<RunId>, c: RunId)
    requires Falls(s.delegations, maxDepth) && Settles(s, t, maxDepth, quick, c)
    ensures !Active(t, c) || (c in s.tasks && c !in quick)
  {
  }

  /** A run without a task fails, and nothing else happens. */
  lemma FailsWithoutTask(s: Store, maxDepth: nat, r: RunId, quick: set<RunId>)
    requires Sound(s, maxDepth) && r !in s.tasks
    ensures var t := FinishNext(s, r, Failure(NO_HANDLE));
            && OnlyEnds(s, t, quick) && StopsAs(s, t, quick)
            && (forall q :: q != r ==> SameAt(s, t, q))
            && !Active(t, r)
  {
    hide FinishNext, OnlyEnds, StopsAs;
    FinishStopsAs(s, maxDepth, r, Failure(NO_HANDLE), quick);
    FinishOnlyEnds(s, r, Failure(NO_HANDLE), quick);
    FinishLeavesTasks(s, r, Failure(NO_HANDLE));
  }

  /** Everything below the run has been settled, and then the run itself. */
  lemma StoppedRun(s: Store, t: Store, u: Store, maxDepth: nat, quick: set<RunId>, r: RunId)
    requires Sound(s, maxDepth) && Falls(s.delegations, maxDepth) && SameAt(s, t, r) && Active(s, r)
    requires OnlyEnds(s, t, quick) && OnlyEnds(t, u, quick) && StopsAs(s, t, quick) && StopsAs(t, u, quick)
    requires OnlyBelow(s, t, maxDepth, r, false) && forall q :: q != r ==> SameAt(t, u, q)
    requires forall c :: ChildOf(s, r, c) && Active(s, c) ==> Settles(s, t, maxDepth, quick, c)
    requires !Active(u, r) || (r in s.tasks && r !in quick)
    ensures Settles(s, u, maxDepth, quick, r) && OnlyBelow(s, u, maxDepth, r, true)
    ensures OnlyEnds(s, u, quick) && StopsAs(s, u, quick)
    ensures if r !in s.tasks then WasFailed(s, u, r, NO_HANDLE)
            else if r in quick then WasCancelled(s, u, r) else Untouched(s, u, r)
  {
    hide Sound, Under, OnlyEnds, StopsAs, OnlyBelow, OneActive, SameAt, WasFailed, WasCancelled, Untouched;
    OneRunEach(s, maxDepth);
    OnlyEndsThrough(s, t, u, quick);
    StopsAsThrough(s, t, u, quick);
    RunSettles(s, t, u, maxDepth, quick, r);
    hide Settles;
    BelowThrough(s, t, u, maxDepth, r);
    SettledAs(s, u, maxDepth, quick, r);
  }

  lemma RunSettles(s: Store, t: Store, u: Store, maxDepth: nat, quick: set<RunId>, r: RunId)
    requires Falls(s.delegations, maxDepth) && OnlyEnds(t, u, quick)
    requires forall c :: ChildOf(s, r, c) && Active(s, c) ==> Settles(s, t, maxDepth, quick, c)
    requires !Active(u, r) || (r in s.tasks && r !in quick)
    ensures Settles(s, u, maxDepth, quick, r)
  {
    hide OnlyEnds;
    forall b | b in s.delegations && s.delegations[b].parent == r && Active(s, b)
      ensures Settles(s, u, maxDepth, quick, b)
    {
      assert ChildOf(s, r, b);
      SettlesOn(s, t, u, maxDepth, quick, b);
    }
  }

  lemma BelowThrough(s: Store, t: Store, u: Store, maxDepth: nat, r: RunId)
    requires Falls(s.delegations, maxDepth) && OnlyBelow(s, t, maxDepth, r, false)
    requires forall q :: q != r ==> SameAt(t, u, q)
    ensures OnlyBelow(s, u, maxDepth, r, true)
  {
    hide Under;
    forall q
      ensures SameAt(s, u, q) || Under(s.delegations, maxDepth, r, q) || q == r
    {
      if q != r && !Under(s.delegations, maxDepth, r, q) {
        assert SameAt(s, t, q) && SameAt(t, u, q);
      }
    }
  }

  // ---------------------------------------------------------------- shutdown

  /** Every run with a task has ended, but for those that are left; runs without a task are as before. */
  ghost predicate ShutDownBut(s: Store, t: Store, quick: set<RunId>, left: set<RunId>) {
    && OnlyEnds(s, t, quick)
    && (forall r :: r in s.tasks && r !in left ==> !Active(t, r))
    && (forall r :: r in s.runs && r !in s.tasks ==> t.runs[r] == s.runs[r])
    && ShutDownAs(s, t, quick, SHUTDOWN, s.tasks.Keys - left)
  }

  lemma NothingShutDown(s: Store, maxDepth: nat, quick: set<RunId>)
    requires Sound(s, maxDepth)
    ensures ShutDownBut(s, s, quick, s.tasks.Keys)
  {
    hide Sound;
    EveryoneUntouched(s, maxDepth);
    NothingShutDownAs(s, maxDepth, quick, SHUTDOWN);
    assert s.tasks.Keys - s.tasks.Keys == {};
    hide ShutDownAs;
  }

  lemma ShutDownOne(s: Store, t: Store, u: Store, quick: set<RunId>, left: set<RunId>, r: RunId)
    requires OneActive(s) && ShutDownBut(s, t, quick, left) && left <= s.tasks.Keys && r in left
    requires OnlyEnds(t, u, quick) && !Active(u, r) && ShutsOne(t, u, quick, SHUTDOWN, r)
    requires forall q :: q != r ==> SameAt(t, u, q)
    ensures ShutDownBut(s, u, quick, left - {r})
  {
    hide ShutDownAs, ShutsOne, OneActive;
    OnlyEndsThrough(s, t, u, quick);
    ShutDownOneAs(s, t, u, quick, SHUTDOWN, s.tasks.Keys - left, r);
    assert s.tasks.Keys - (left - {r}) == (s.tasks.Keys - left) + {r};
    hide OnlyEnds;
    forall q | q in s.runs && q !in s.tasks
      ensures q in u.runs && u.runs[q] == s.runs[q]
    {
      assert SameAt(t, u, q);
    }
    forall q | q in s.tasks && q !in left - {r}
      ensures !Active(u, q)
    {
      assert q != r ==> SameAt(t, u, q);
    }
  }

  lemma AllShutDown(s: Store, t: Store, quick: set<RunId>)
    requires ShutDownBut(s, t, quick, {})
    ensures OnlyEnds(s, t, quick) && t.runs.Keys == s.runs.Keys
    ensures forall r :: r in s.tasks ==> !Active(t, r)
    ensures forall r :: r in s.runs && r !in s.tasks ==> t.runs[r] == s.runs[r]
    ensures forall r :: Active(s, r) ==>
              if r !in s.tasks then Untouched(s, t, r)
              else if r in quick then WasCancelled(s, t, r) else WasFailed(s, t, r, SHUTDOWN)
  {
    hide OthersShown, Untouched, WasCancelled, WasFailed;
    assert s.tasks.Keys - {} == s.tasks.Keys;
  }

  /** A run whose task ended in time is cancelled; any other is failed. */
  ghost predicate ShutAt(s: Store, t: Store, quick: set<RunId>, error: Text, q: RunId)
    requires q in s.runs
  {
    if q in quick then WasCancelled(s, t, q) else WasFailed(s, t, q, error)
  }

  /** Of the active runs, these were shut down. */
  ghost predicate ShutDownAs(s: Store, t: Store, quick: set<RunId>, error: Text, done: set<RunId>) {
    && OthersShown(s, t)
    && (forall q :: Active(s, q) ==> if q in done then ShutAt(s, t, quick, error, q) else Untouched(s, t, q))
  }

  lemma NothingShutDownAs(s: Store, maxDepth: nat, quick: set<RunId>, error: Text)
    requires Sound(s, maxDepth)
    ensures ShutDownAs(s, s, quick, error, {})
  {
    hide Sound, HasActive;
    EveryoneUntouched(s, maxDepth);
  }

  /** One more run is shut down. */
  ghost predicate ShutsOne(t: Store, u: Store, quick: set<RunId>, error: Text, r: RunId) {
    && OthersShown(t, u)
    && (forall q :: Active(t, q) && q != r ==> Untouched(t, u, q))
    && (Active(t, r) ==> ShutAt(t, u, quick, error, r))
  }

  lemma FinishShutsOne(s: Store, maxDepth: nat, r: RunId, quick: set<RunId>, error: Text)
    requires Sound(s, maxDepth) && r !in quick
    ensures ShutsOne(s, FinishNext(s, r, Failure(error)), quick, error, r)
  {
    hide Sound, OthersShown;
    if Active(s, r) {
      FinishLeaves(s, maxDepth, r, Failure(error));
      hide FinishNext;
      LeavesOthers(s, FinishNext(s, r, Failure(error)), maxDepth, r, Failure(error));
    } else {
      NothingShutDownAs(s, maxDepth, quick, error);
      EveryoneUntouched(s, maxDepth);
    }
  }

  lemma FailsAtShutdown(s: Store, maxDepth: nat, r: RunId, quick: set<RunId>)
    requires Sound(s, maxDepth) && r !in quick
    ensures var t := FinishNext(s, r, Failure(SHUTDOWN));
            && ShutsOne(s, t, quick, SHUTDOWN, r) && OnlyEnds(s, t, quick) && !Active(t, r)
            && (forall q :: q != r ==> SameAt(s, t, q))
  {
    hide FinishNext, ShutsOne, OnlyEnds, Sound;
    FinishShutsOne(s, maxDepth, r, quick, SHUTDOWN);
    FinishOnlyEnds(s, r, Failure(SHUTDOWN), quick);
    FinishLeavesTasks(s, r, Failure(SHUTDOWN));
  }

  /** Cancelling one task shuts its run down. */
  lemma CancelShutsOne(t: Store, u: Store, quick: set<RunId>, error: Text, r: RunId)
    requires StopsAs(t, u, quick) && r in quick && r in t.tasks && !Active(u, r)
    requires forall q :: q != r ==> SameAt(t, u, q)
    ensures ShutsOne(t, u, quick, error, r)
  {
    hide OthersShown;
    forall q | Active(t, q) && q != r
      ensures Untouched(t, u, q)
    {
      assert SameAt(t, u, q);
    }
  }

  lemma ShutDownOneAs(s: Store, t: Store, u: Store, quick: set<RunId>, error: Text, done: set<RunId>, r: RunId)
    requires OneActive(s) && OnlyEnds(s, t, quick) && OnlyEnds(t, u, quick)
    requires ShutDownAs(s, t, quick, error, done) && ShutsOne(t, u, quick, error, r) && r !in done
    ensures ShutDownAs(s, u, quick, error, done + {r})
  {
    hide OnlyEnds, OneActive, OthersShown;
    OthersThroughout(s, t, u, quick);
    forall q | Active(s, q)
      ensures if q in done + {r} then ShutAt(s, u, quick, error, q) else Untouched(s, u, q)
    {
      if !Active(t, q) {
        EndedStays(s, t, u, quick, q);
      }
    }
  }

  /** A restart fails the runs it finds active, and shows it on their agents. */
  lemma {:induction false} FailAllLeaves(s: Store, maxDepth: nat, stale: seq<RunId>)
    requires Sound(s, maxDepth) && Distinct(stale)
    ensures OnlyEnds(s, FailAll(s, stale), {})
    ensures ShutDownAs(s, FailAll(s, stale), {}, INTERRUPTED, Elements(stale))
  {
    hide Sound, FinishNext, OnlyEnds, ShutDownAs, OneActive;
    OneRunEach(s, maxDepth);
    if stale == [] {
      Unchanged(s, {});
      NothingShutDownAs(s, maxDepth, {}, INTERRUPTED);
      assert Elements(stale) == {};
    } else {
      var rest, last := stale[..|stale| - 1], stale[|stale| - 1];
      var t := FailAll(s, rest);
      FailAllLeaves(s, maxDepth, rest);
      SoundFailAll(s, maxDepth, rest);
      FinishOnlyEnds(t, last, Failure(INTERRUPTED), {});
      FinishShutsOne(t, maxDepth, last, {}, INTERRUPTED);
      OnlyEndsThrough(s, t, FinishNext(t, last, Failure(INTERRUPTED)), {});
      ShutDownOneAs(s, t, FinishNext(t, last, Failure(INTERRUPTED)), {}, INTERRUPTED, Elements(rest), last);
      assert stale == rest + [last];
      assert Elements(stale) == Elements(rest) + {last};
    }
  }

  lemma RestartLeaves(s: Store, maxDepth: nat, stale: seq<RunId>)
    requires Sound(s, maxDepth) && ListsActive(s, stale)
    ensures RecoverNext(s, stale).runs.Keys == s.runs.Keys
    ensures forall q :: q in s.runs ==> if Active(s, q) then WasFailed(s, RecoverNext(s, stale), q, INTERRUPTED)
                                        else RecoverNext(s, stale).runs[q] == s.runs[q]
  {
    hide Sound, FailAll, OthersShown;
    FailAllLeaves(s, maxDepth, stale);
  }

  lemma OtherTasks(s: Store, t: Store, r: RunId)
    requires forall q :: q != r ==> SameAt(s, t, q)
    ensures s.tasks.Keys - {r} <= t.tasks.Keys
  {
    forall q | q in s.tasks.Keys - {r}
      ensures q in t.tasks.Keys
    {
      assert SameAt(s, t, q);
    }
  }
}
