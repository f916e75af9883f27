/** worker.py: the protocol peer's bounded cache of finished tasks. */
module Workers {
  import opened Prelude

  datatype Finished = Finished(task: nat, answer: nat)

  /** What is asked for, and what it would be computed to. */
  datatype Request = Request(task: nat, isProbe: bool, answer: nat)

  datatype Executed = Result(answer: nat) | Unsupported

  /** The position of the task's entry, or the length when there is none. */
  function Find(completed: seq<Finished>, t: nat): (i: nat)
    ensures i <= |completed|
    ensures i < |completed| ==> completed[i].task == t
    ensures forall j :: 0 <= j < i ==> completed[j].task != t
  {
    if completed == [] || completed[0].task == t then 0 else 1 + Find(completed[1..], t)
  }

  predicate Remembered(completed: seq<Finished>, t: nat) {
    Find(completed, t) < |completed|
  }

  predicate TasksDiffer(completed: seq<Finished>) {
    forall i, j :: 0 <= i < j < |completed| ==> completed[i].task != completed[j].task
  }

  /** The newest entries, as many as are kept. */
  function Newest(completed: seq<Finished>, limit: nat): (kept: seq<Finished>) {
    if |completed| > limit then completed[|completed| - limit..] else completed
  }

  predicate Computes(completed: seq<Finished>, q: Request) {
    q.isProbe && !Remembered(completed, q.task)
  }

  function Serve(completed: seq<Finished>, q: Request, limit: nat): seq<Finished> {
    if Computes(completed, q) then Newest(completed + [Finished(q.task, q.answer)], limit) else completed
  }

  function Reply(completed: seq<Finished>, q: Request): Executed {
    if Remembered(completed, q.task) then Result(completed[Find(completed, q.task)].answer)
    else if q.isProbe then Result(q.answer)
    else Unsupported
  }

  /** `WorkerClient`'s finished tasks, oldest first. */
  class WorkerCache {
    const limit: nat
    var completed: seq<Finished>

    ghost predicate Valid()
      reads this
    {
      limit > 0 && |completed| <= limit && TasksDiffer(completed)
    }

    constructor (limit: nat)
      requires limit > 0
      ensures Valid() && completed == [] && this.limit == limit
    {
      this.limit := limit;
      completed := [];
    }

    /** `_execute`: a remembered task gets the answer it got before, whatever it asks for; an operation that is not
        allowed gets an error, which is not remembered; anything else runs, and is remembered. */
    method Execute(q: Request) returns (reply: Executed)
      requires Valid()
      modifies this
      ensures Valid()
      ensures reply == Reply(old(completed), q) && completed == Serve(old(completed), q, limit)
    {
      var i := Find(completed, q.task);
      if i < |completed| {
        return Result(completed[i].answer);
      }
      if !q.isProbe {
        return Unsupported;
      }
      completed := completed + [Finished(q.task, q.answer)];
      Evict();
      reply := Result(q.answer);
    }

    /** The oldest answers go first. */
    method Evict()
      requires limit > 0 && TasksDiffer(completed)
      modifies this`completed
      ensures completed == Newest(old(completed), limit) && TasksDiffer(completed)
    {
      while |completed| > limit
        invariant |completed| <= |old(completed)| && completed == old(completed)[|old(completed)| - |completed|..]
        invariant |completed| >= limit || completed == old(completed)
      {
        completed := completed[1..];
      }
    }
  }

  // ---------------------------------------------------------------- what is remembered

  /** The cache after a run of requests. */
  function CacheAfter(requests: seq<Request>, limit: nat): seq<Finished> {
    if requests == [] then []
    else Serve(CacheAfter(requests[..|requests| - 1], limit), requests[|requests| - 1], limit)
  }

  /** Everything that was computed in a run of requests, in order. */
  function Computed(requests: seq<Request>, limit: nat): seq<Finished> {
    if requests == [] then []
    else
      var front, q := requests[..|requests| - 1], requests[|requests| - 1];
      Computed(front, limit) + if Computes(CacheAfter(front, limit), q) then [Finished(q.task, q.answer)] else []
  }

  lemma RequestStep(requests: seq<Request>, limit: nat, k: nat)
    requires k < |requests|
    ensures CacheAfter(requests[..k + 1], limit) == Serve(CacheAfter(requests[..k], limit), requests[k], limit)
    ensures Computed(requests[..k + 1], limit)
            == Computed(requests[..k], limit)
               + if Computes(CacheAfter(requests[..k], limit), requests[k])
                 then [Finished(requests[k].task, requests[k].answer)] else []
  {
    assert requests[..k + 1][..k] == requests[..k];
  }

  lemma {:induction false} FindIn(completed: seq<Finished>, i: nat)
    requires i < |completed| && TasksDiffer(completed)
    ensures Find(completed, completed[i].task) == i
  {
    if i > 0 {
      assert completed[1..][i - 1] == completed[i];
      FindIn(completed[1..], i - 1);
    }
  }

  lemma {:induction false} CacheTasksDiffer(requests: seq<Request>, limit: nat)
    ensures TasksDiffer(CacheAfter(requests, limit))
  {
    if requests != [] {
      CacheTasksDiffer(requests[..|requests| - 1], limit);
      ServeTasksDiffer(CacheAfter(requests[..|requests| - 1], limit), requests[|requests| - 1], limit);
    }
  }

  lemma ServeTasksDiffer(completed: seq<Finished>, q: Request, limit: nat)
    requires TasksDiffer(completed)
    ensures TasksDiffer(Serve(completed, q, limit))
  {
  }

  lemma NewestOfNewest(completed: seq<Finished>, f: Finished, limit: nat)
    requires limit > 0
    ensures Newest(Newest(completed, limit) + [f], limit) == Newest(completed + [f], limit)
  {
  }

  /** The cache holds the newest computed answers, whatever was asked for again or refused in between. */
  lemma {:induction false} CacheIsNewest(requests: seq<Request>, limit: nat)
    requires limit > 0
    ensures CacheAfter(requests, limit) == Newest(Computed(requests, limit), limit)
  {
    hide Newest, Remembered;
    if requests == [] {
      NothingIsNewest(limit);
    } else {
      var front, q := requests[..|requests| - 1], requests[|requests| - 1];
      CacheIsNewest(front, limit);
      assert Computed(front, limit) + [] == Computed(front, limit);
      NewestOfNewest(Computed(front, limit), Finished(q.task, q.answer), limit);
    }
  }

  lemma NothingIsNewest(limit: nat)
    ensures Newest([], limit) == []
  {
  }

  /** Computed answer `i` is among the last `limit` ones and belongs to this task. */
  predicate Recent(computed: seq<Finished>, limit: nat, t: nat, i: nat) {
    |computed| <= i + limit && i < |computed| && computed[i].task == t
  }

  lemma NewestRemembers(computed: seq<Finished>, cache: seq<Finished>, limit: nat, t: nat)
    requires cache == Newest(computed, limit) && Remembered(cache, t)
    ensures |cache| <= |computed| && Recent(computed, limit, t, |computed| - |cache| + Find(cache, t))
  {
    var j := Find(cache, t);
    assert cache[j] == computed[|computed| - |cache| + j];
  }

  lemma RecentIsKept(computed: seq<Finished>, cache: seq<Finished>, limit: nat, t: nat, i: nat)
    requires cache == Newest(computed, limit) && TasksDiffer(cache) && Recent(computed, limit, t, i)
    ensures Remembered(cache, t) && cache[Find(cache, t)] == computed[i]
  {
    var j := i - (|computed| - |cache|);
    assert cache[j] == computed[i];
    FindIn(cache, j);
  }

  /** A task is answered from memory exactly when it is among the last `limit` computed ones, and then with the answer
      computed there. */
  lemma RememberedExactly(requests: seq<Request>, limit: nat, t: nat)
    requires limit > 0
    ensures var cache, computed := CacheAfter(requests, limit), Computed(requests, limit);
            && (Remembered(cache, t) <==> exists i: nat :: Recent(computed, limit, t, i))
            && (forall i: nat :: Recent(computed, limit, t, i) ==>
                  Remembered(cache, t) && cache[Find(cache, t)] == computed[i])
  {
    hide CacheAfter, Computed, Newest, TasksDiffer;
    CacheIsNewest(requests, limit);
    CacheTasksDiffer(requests, limit);
    var cache, computed := CacheAfter(requests, limit), Computed(requests, limit);
    if Remembered(cache, t) {
      NewestRemembers(computed, cache, limit, t);
    }
    forall i: nat | Recent(computed, limit, t, i)
      ensures Remembered(cache, t) && cache[Find(cache, t)] == computed[i]
    {
      RecentIsKept(computed, cache, limit, t, i);
    }
  }

  lemma {:induction false} ComputedGrows(requests: seq<Request>, limit: nat, k: nat, m: nat)
    requires k <= m <= |requests|
    ensures Computed(requests[..k], limit) <= Computed(requests[..m], limit)
    ensures |Computed(requests[..m], limit)| - |Computed(requests[..k], limit)| <= m - k
    decreases m
  {
    hide Computed, Computes, CacheAfter;
    if k < m {
      ComputedGrows(requests, limit, k, m - 1);
      RequestStep(requests, limit, m - 1);
    }
  }

  /** How many answers were computed from request `k` on and before request `m`. */
  function ComputedBetween(requests: seq<Request>, limit: nat, k: nat, m: nat): int
    requires k <= m <= |requests|
  {
    |Computed(requests[..m], limit)| - |Computed(requests[..k], limit)|
  }

  /** The answer computed for request `k` is the one that request `m` for the same task gets from memory as long as at
      most `limit` answers were computed since, its own included. */
  lemma SameAnswer(requests: seq<Request>, limit: nat, k: nat, m: nat)
    requires k < m < |requests| && requests[m].task == requests[k].task && limit > 0
    requires Computes(CacheAfter(requests[..k], limit), requests[k])
    requires ComputedBetween(requests, limit, k, m) <= limit
    ensures Remembered(CacheAfter(requests[..m], limit), requests[m].task)
    ensures Reply(CacheAfter(requests[..m], limit), requests[m]) == Reply(CacheAfter(requests[..k], limit), requests[k])
  {
    hide CacheAfter, Computed;
    var i := |Computed(requests[..k], limit)|;
    RequestStep(requests, limit, k);
    ComputedGrows(requests, limit, k + 1, m);
    RememberedExactly(requests[..m], limit, requests[m].task);
    assert Recent(Computed(requests[..m], limit), limit, requests[m].task, i);
  }

  /** No request between the two computed this task. */
  ghost predicate NotComputedAgain(requests: seq<Request>, limit: nat, k: nat, m: nat)
    requires k < m <= |requests|
  {
    forall j :: k < j < m && requests[j].task == requests[k].task ==>
      !Computes(CacheAfter(requests[..j], limit), requests[j])
  }

  lemma {:induction false} NothingNewOf(requests: seq<Request>, limit: nat, k: nat, m: nat, i: nat)
    requires k < m <= |requests| && NotComputedAgain(requests, limit, k, m)
    requires |Computed(requests[..k + 1], limit)| <= i < |Computed(requests[..m], limit)|
    ensures Computed(requests[..m], limit)[i].task != requests[k].task
    decreases m
  {
    hide Computed, CacheAfter, Computes;
    if m > k + 1 {
      RequestStep(requests, limit, m - 1);
      if i < |Computed(requests[..m - 1], limit)| {
        NothingNewOf(requests, limit, k, m - 1, i);
      }
    }
  }

  /** A task is forgotten by what was computed since, not by how often it was asked for: after its last computation it
      is remembered exactly as long as at most `limit` answers were computed, its own included. */
  lemma ForgottenExactly(requests: seq<Request>, limit: nat, k: nat, m: nat)
    requires k < m <= |requests| && limit > 0
    requires Computes(CacheAfter(requests[..k], limit), requests[k]) && NotComputedAgain(requests, limit, k, m)
    ensures Remembered(CacheAfter(requests[..m], limit), requests[k].task)
            <==> ComputedBetween(requests, limit, k, m) <= limit
  {
    hide CacheAfter, Computed, Computes, Remembered, NotComputedAgain;
    var computed, first := Computed(requests[..m], limit), |Computed(requests[..k], limit)|;
    RequestStep(requests, limit, k);
    ComputedGrows(requests, limit, k + 1, m);
    RememberedExactly(requests[..m], limit, requests[k].task);
    assert computed[first].task == requests[k].task;
    if i: nat :| Recent(computed, limit, requests[k].task, i) {
      if i > first {
        NothingNewOf(requests, limit, k, m, i);
      }
    } else {
      assert !Recent(computed, limit, requests[k].task, first);
    }
  }

  /** A request that is answered from memory, or refused, leaves what was computed, and so what is remembered, as it
      was. */
  lemma AskingAgainDoesNotRefresh(requests: seq<Request>, limit: nat, k: nat)
    requires k < |requests| && !Computes(CacheAfter(requests[..k], limit), requests[k])
    ensures Computed(requests[..k + 1], limit) == Computed(requests[..k], limit)
    ensures CacheAfter(requests[..k + 1], limit) == CacheAfter(requests[..k], limit)
  {
    hide CacheAfter, Computed;
    RequestStep(requests, limit, k);
  }

  lemma NothingAsked(limit: nat)
    ensures CacheAfter([], limit) == [] && Computed([], limit) == []
  {
  }

  /** With room for two, a task that is asked for again just before a new one comes is computed anew. */
  lemma AskedAgainAndForgotten(a: nat, b: nat)
    ensures var requests := [Request(1, true, a), Request(2, true, a), Request(1, true, b), Request(3, true, a),
                             Request(1, true, b)];
            && Reply(CacheAfter(requests[..2], 2), requests[2]) == Result(a)
            && Reply(CacheAfter(requests[..4], 2), requests[4]) == Result(b)
  {
    hide CacheAfter, Computed;
    var requests := [Request(1, true, a), Request(2, true, a), Request(1, true, b), Request(3, true, a),
                     Request(1, true, b)];
    assert requests[..0] == [];
    NothingAsked(2);
    RequestStep(requests, 2, 0);
    RequestStep(requests, 2, 1);
    SameAnswer(requests, 2, 0, 2);
    AskingAgainDoesNotRefresh(requests, 2, 2);
    RequestStep(requests, 2, 3);
    ForgottenExactly(requests, 2, 0, 4);
  }
}
