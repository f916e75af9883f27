/** runtime/team.py: the tasks of one wave and the coroutine that waits for them, as a state machine over the moments at
    which asyncio lets one of them run. */
module Waves {
  import opened Prelude
  import opened Evaluation

  /** A node task: waiting for the semaphore, inside `run_child`, or over. */
  datatype Task = Waiting | Inside | Returned(text: string) | Raised(code: string) | Cancelled

  /** How a wave ends: with every text, with the task that brought it down, or by the caller's own cancellation. */
  datatype WaveEnd = Finished(texts: seq<string>) | Broken(cause: Task) | Interrupted

  /** `asyncio.wait`; then, if something failed or the caller cancels, waiting for every cancelled task; then left. */
  datatype Phase = Awaiting | Draining(cause: Option<nat>, cancelled: bool) | Left(end: WaveEnd)

  /** `entered` is the history of the tasks that got into `run_child`. */
  datatype Wave = Wave(tasks: seq<Task>, phase: Phase, entered: set<nat>)

  /** A task passes the semaphore; a task ends as its child does; a cancelled task ends cancelled; the wait is over and
      a failed task, if there is any, is picked; the caller cancels; everything is over and the coroutine leaves. */
  datatype Event =
    | Enter(task: nat)
    | End(task: nat)
    | Stop(task: nat)
    | Wake(failure: Option<nat>)
    | CancelCaller
    | Leave

  predicate Over(t: Task) {
    !t.Waiting? && !t.Inside?
  }

  /** How `_run_node` ends once its child has ended. */
  function TaskEnd(end: ChildEnd): Task {
    match end
    case Succeeded(text) => Returned(text)
    case RunCancelled => Raised("CHILD_CANCELLED")
    case SucceededWithoutText => Raised("CHILD_FAILED")
    case RunFailed => Raised("CHILD_FAILED")
    case OrchestrationFailure(code) => Raised(code)
    case OtherFailure => Raised("CHILD_FAILED")
    case TaskCancelled => Cancelled
  }

  function InsideCount(tasks: seq<Task>): nat {
    if tasks == [] then 0 else (if tasks[0].Inside? then 1 else 0) + InsideCount(tasks[1..])
  }

  predicate AllOver(tasks: seq<Task>) {
    forall i :: 0 <= i < |tasks| ==> Over(tasks[i])
  }

  predicate AllReturned(tasks: seq<Task>) {
    forall i :: 0 <= i < |tasks| ==> tasks[i].Returned?
  }

  /** FIRST_EXCEPTION: a task that was cancelled does not end the wait by itself. */
  predicate WaitIsOver(tasks: seq<Task>) {
    AllOver(tasks) || exists i :: 0 <= i < |tasks| && tasks[i].Raised?
  }

  predicate HasFailed(t: Task) {
    t.Raised? || t.Cancelled?
  }

  function Texts(tasks: seq<Task>): seq<string>
    requires AllReturned(tasks)
  {
    seq(|tasks|, i requires 0 <= i < |tasks| => tasks[i].text)
  }

  function NewWave(n: nat): Wave {
    Wave(seq(n, _ => Waiting), Awaiting, {})
  }

  // ---------------------------------------------------------------- the steps

  function SetTask(v: Wave, i: nat, t: Task): Wave
    requires i < |v.tasks|
  {
    v.(tasks := v.tasks[i := t])
  }

  predicate MayEnter(v: Wave, i: nat, maxParallel: nat) {
    v.phase.Awaiting? && i < |v.tasks| && v.tasks[i].Waiting? && InsideCount(v.tasks) < maxParallel
  }

  predicate MayEnd(v: Wave, i: nat, ends: seq<ChildEnd>) {
    !v.phase.Left? && i < |v.tasks| && v.tasks[i].Inside? && i < |ends|
  }

  predicate MayStop(v: Wave, i: nat) {
    v.phase.Draining? && i < |v.tasks| && !Over(v.tasks[i])
  }

  function WakeStep(v: Wave, failure: Option<nat>): Wave {
    if !v.phase.Awaiting? || !WaitIsOver(v.tasks) then v
    else
      match failure
      case Some(i) => if i < |v.tasks| && HasFailed(v.tasks[i]) then v.(phase := Draining(Some(i), false)) else v
      case None => if AllReturned(v.tasks) then v.(phase := Left(Finished(Texts(v.tasks)))) else v
  }

  function CancelStep(v: Wave): Wave {
    match v.phase
    case Awaiting => v.(phase := Draining(None, true))
    case Draining(cause, _) => v.(phase := Draining(cause, true))
    case Left(_) => v
  }

  /** Whatever cannot happen at this moment changes nothing. */
  function Step(v: Wave, ends: seq<ChildEnd>, maxParallel: nat, e: Event): Wave {
    match e
    case Enter(i) =>
      if MayEnter(v, i, maxParallel) then SetTask(v, i, Inside).(entered := v.entered + {i}) else v
    case End(i) =>
      if MayEnd(v, i, ends) then SetTask(v, i, TaskEnd(ends[i])) else v
    case Stop(i) =>
      if MayStop(v, i) then SetTask(v, i, Cancelled) else v
    case Wake(failure) => WakeStep(v, failure)
    case CancelCaller => CancelStep(v)
    case Leave =>
      if !v.phase.Draining? || !AllOver(v.tasks) then v
      else if v.phase.cancelled then v.(phase := Left(Interrupted))
      else if v.phase.cause.Some? && v.phase.cause.value < |v.tasks|
      then v.(phase := Left(Broken(v.tasks[v.phase.cause.value])))
      else v
  }

  function After(ends: seq<ChildEnd>, maxParallel: nat, events: seq<Event>): Wave {
    if events == [] then NewWave(|ends|)
    else Step(After(ends, maxParallel, events[..|events| - 1]), ends, maxParallel, events[|events| - 1])
  }

  // ---------------------------------------------------------------- what stays true

  /** A task that is over entered and ended as its child did, or was cancelled once the wait was over. */
  predicate TaskOk(v: Wave, ends: seq<ChildEnd>, i: nat)
    requires i < |v.tasks| == |ends|
  {
    match v.tasks[i]
    case Waiting => i !in v.entered
    case Inside => i in v.entered
    case _ => (i in v.entered && v.tasks[i] == TaskEnd(ends[i])) || (v.tasks[i].Cancelled? && !v.phase.Awaiting?)
  }

  /** The task entered and ended, as its child did, without a text. */
  predicate Failed(v: Wave, ends: seq<ChildEnd>, i: nat) {
    i < |v.tasks| && i < |ends| && i in v.entered && v.tasks[i] == TaskEnd(ends[i]) && HasFailed(v.tasks[i])
  }

  ghost predicate EndOk(v: Wave, ends: seq<ChildEnd>, end: WaveEnd) {
    match end
    case Finished(texts) =>
      |texts| == |ends| && forall i :: 0 <= i < |ends| ==> ends[i] == Succeeded(texts[i]) && i in v.entered
    case Broken(cause) =>
      exists i: nat :: Failed(v, ends, i) && v.tasks[i] == cause
    case Interrupted => true
  }

  ghost predicate PhaseOk(v: Wave, ends: seq<ChildEnd>) {
    match v.phase
    case Awaiting => true
    case Draining(Some(i), _) => Failed(v, ends, i)
    case Draining(None, cancelled) => cancelled
    case Left(end) => AllOver(v.tasks) && EndOk(v, ends, end)
  }

  ghost predicate WaveOk(v: Wave, ends: seq<ChildEnd>, maxParallel: nat) {
    && |v.tasks| == |ends|
    && InsideCount(v.tasks) <= maxParallel
    && (forall i :: i in v.entered ==> i < |ends|)
    && (forall i :: 0 <= i < |ends| ==> TaskOk(v, ends, i))
    && PhaseOk(v, ends)
  }

  /** Steps left: two for a task before the semaphore, one for a task inside, and the phases. */
  function Work(tasks: seq<Task>): nat {
    if tasks == [] then 0
    else (if tasks[0].Waiting? then 2 else if tasks[0].Inside? then 1 else 0) + Work(tasks[1..])
  }

  function Rank(v: Wave): nat {
    Work(v.tasks) + match v.phase
                    case Awaiting => 3
                    case Draining(_, cancelled) => if cancelled then 1 else 2
                    case Left(_) => 0
  }

  lemma {:induction false} TaskCounts(tasks: seq<Task>, i: nat, t: Task)
    requires i < |tasks|
    ensures InsideCount(tasks[i := t])
            == InsideCount(tasks) - (if tasks[i].Inside? then 1 else 0) + (if t.Inside? then 1 else 0)
    ensures tasks[i].Waiting? && t.Inside? ==> Work(tasks[i := t]) == Work(tasks) - 1
    ensures tasks[i].Inside? && Over(t) ==> Work(tasks[i := t]) == Work(tasks) - 1
    ensures tasks[i].Waiting? && Over(t) ==> Work(tasks[i := t]) == Work(tasks) - 2
  {
    var changed := tasks[i := t];
    if i == 0 {
      assert changed[1..] == tasks[1..];
    } else {
      assert changed[1..] == tasks[1..][i - 1 := t];
      TaskCounts(tasks[1..], i - 1, t);
    }
  }

  lemma {:induction false} NoneInside(tasks: seq<Task>)
    requires forall i :: 0 <= i < |tasks| ==> !tasks[i].Inside?
    ensures InsideCount(tasks) == 0
  {
    if tasks != [] {
      NoneInside(tasks[1..]);
    }
  }

  lemma StartsOk(ends: seq<ChildEnd>, maxParallel: nat)
    ensures WaveOk(NewWave(|ends|), ends, maxParallel)
  {
    NoneInside(NewWave(|ends|).tasks);
  }

  lemma TaskStepOk(v: Wave, ends: seq<ChildEnd>, maxParallel: nat, i: nat, v': Wave)
    requires WaveOk(v, ends, maxParallel) && i < |v.tasks| && !Over(v.tasks[i]) && !v.phase.Left?
    requires v' == v.(tasks := v'.tasks, entered := v'.entered)
    requires |v'.tasks| == |v.tasks| && v'.tasks == v.tasks[i := v'.tasks[i]]
    requires v.entered <= v'.entered <= v.entered + {i} && TaskOk(v', ends, i)
    requires InsideCount(v'.tasks) <= maxParallel
    ensures WaveOk(v', ends, maxParallel)
  {
    hide InsideCount, TaskEnd;
    forall k | 0 <= k < |ends|
      ensures TaskOk(v', ends, k)
    {
      assert TaskOk(v, ends, k);
    }
    if v.phase.Draining? && v.phase.cause.Some? {
      assert Failed(v, ends, v.phase.cause.value);
      assert Failed(v', ends, v.phase.cause.value);
    }
  }

  lemma PhaseStepOk(v: Wave, ends: seq<ChildEnd>, maxParallel: nat, v': Wave)
    requires WaveOk(v, ends, maxParallel) && v' == v.(phase := v'.phase)
    requires !v.phase.Awaiting? ==> !v'.phase.Awaiting?
    requires PhaseOk(v', ends)
    ensures WaveOk(v', ends, maxParallel)
  {
    hide InsideCount, TaskEnd, PhaseOk;
    forall k | 0 <= k < |ends|
      ensures TaskOk(v', ends, k)
    {
      assert TaskOk(v, ends, k);
    }
  }

  lemma FinishedOk(v: Wave, ends: seq<ChildEnd>, maxParallel: nat)
    requires WaveOk(v, ends, maxParallel) && v.phase.Awaiting? && AllReturned(v.tasks)
    ensures EndOk(v, ends, Finished(Texts(v.tasks)))
  {
    hide InsideCount;
    forall i | 0 <= i < |ends|
      ensures ends[i] == Succeeded(Texts(v.tasks)[i]) && i in v.entered
    {
      assert TaskOk(v, ends, i);
    }
  }

  lemma WakeOk(v: Wave, ends: seq<ChildEnd>, maxParallel: nat, failure: Option<nat>)
    requires WaveOk(v, ends, maxParallel)
    ensures WaveOk(Step(v, ends, maxParallel, Wake(failure)), ends, maxParallel)
  {
    hide InsideCount, TaskEnd;
    var v' := Step(v, ends, maxParallel, Wake(failure));
    if v' != v {
      match failure {
        case Some(i) => assert TaskOk(v, ends, i);
        case None => FinishedOk(v, ends, maxParallel);
      }
      PhaseStepOk(v, ends, maxParallel, v');
    }
  }

  lemma LeaveOk(v: Wave, ends: seq<ChildEnd>, maxParallel: nat)
    requires WaveOk(v, ends, maxParallel)
    ensures WaveOk(Step(v, ends, maxParallel, Leave), ends, maxParallel)
  {
    hide InsideCount, TaskEnd;
    var v' := Step(v, ends, maxParallel, Leave);
    if v' != v {
      if v.phase.Draining? && !v.phase.cancelled {
        assert Failed(v', ends, v.phase.cause.value);
      }
      PhaseStepOk(v, ends, maxParallel, v');
    }
  }

  lemma CancelOk(v: Wave, ends: seq<ChildEnd>, maxParallel: nat)
    requires WaveOk(v, ends, maxParallel)
    ensures WaveOk(Step(v, ends, maxParallel, CancelCaller), ends, maxParallel)
  {
    hide InsideCount, TaskEnd;
    var v' := CancelStep(v);
    if v.phase.Draining? && v.phase.cause.Some? {
      assert Failed(v', ends, v.phase.cause.value);
    }
    PhaseStepOk(v, ends, maxParallel, v');
  }

  lemma StepOk(v: Wave, ends: seq<ChildEnd>, maxParallel: nat, e: Event)
    requires WaveOk(v, ends, maxParallel)
    ensures WaveOk(Step(v, ends, maxParallel, e), ends, maxParallel)
  {
    hide WaveOk, InsideCount, TaskEnd, PhaseOk;
    var v' := Step(v, ends, maxParallel, e);
    InsideAtMost(v, ends, maxParallel);
    match e
    case Enter(i) =>
      if v' != v {
        TaskCounts(v.tasks, i, Inside);
        TaskStepOk(v, ends, maxParallel, i, v');
      }
    case End(i) =>
      if v' != v {
        TaskCounts(v.tasks, i, TaskEnd(ends[i]));
        EndedIsOver(ends[i]);
        OneTask(v, ends, maxParallel, i);
        TaskStepOk(v, ends, maxParallel, i, v');
      }
    case Stop(i) =>
      if v' != v {
        TaskCounts(v.tasks, i, Cancelled);
        TaskStepOk(v, ends, maxParallel, i, v');
      }
    case Wake(failure) => WakeOk(v, ends, maxParallel, failure);
    case CancelCaller => CancelOk(v, ends, maxParallel);
    case Leave => LeaveOk(v, ends, maxParallel);
  }

  lemma InsideAtMost(v: Wave, ends: seq<ChildEnd>, maxParallel: nat)
    requires WaveOk(v, ends, maxParallel)
    ensures |v.tasks| == |ends| && InsideCount(v.tasks) <= maxParallel
  {
  }

  lemma EndedIsOver(end: ChildEnd)
    ensures Over(TaskEnd(end))
  {
  }

  lemma OneTask(v: Wave, ends: seq<ChildEnd>, maxParallel: nat, i: nat)
    requires WaveOk(v, ends, maxParallel) && i < |ends|
    ensures |v.tasks| == |ends| && TaskOk(v, ends, i)
  {
  }

  /** In every interleaving at most `maxParallel` tasks are inside `run_child`, a task is over only as its child ended
      or because it was cancelled, and when the coroutine leaves, however it leaves, every task is over. */
  lemma {:induction false} AlwaysOk(ends: seq<ChildEnd>, maxParallel: nat, events: seq<Event>)
    ensures WaveOk(After(ends, maxParallel, events), ends, maxParallel)
    decreases |events|
  {
    hide WaveOk, Step;
    if events == [] {
      StartsOk(ends, maxParallel);
    } else {
      AlwaysOk(ends, maxParallel, events[..|events| - 1]);
      StepOk(After(ends, maxParallel, events[..|events| - 1]), ends, maxParallel, events[|events| - 1]);
    }
  }

  /** Only the caller's cancellation makes a wave cancelled. */
  predicate WasCancelled(v: Wave) {
    (v.phase.Draining? && v.phase.cancelled) || (v.phase.Left? && v.phase.end.Interrupted?)
  }

  lemma {:induction false} InterruptedByCaller(ends: seq<ChildEnd>, maxParallel: nat, events: seq<Event>)
    requires WasCancelled(After(ends, maxParallel, events))
    ensures CancelCaller in events
    decreases |events|
  {
    var before := After(ends, maxParallel, events[..|events| - 1]);
    if WasCancelled(before) {
      InterruptedByCaller(ends, maxParallel, events[..|events| - 1]);
    } else {
      assert events[|events| - 1] == CancelCaller;
    }
  }

  /** Unless the caller cancels, a wave that is left has every text exactly when every child succeeds. */
  lemma FinishedExactly(ends: seq<ChildEnd>, maxParallel: nat, events: seq<Event>)
    requires After(ends, maxParallel, events).phase.Left? && CancelCaller !in events
    ensures After(ends, maxParallel, events).phase.end.Finished? <==> forall i :: 0 <= i < |ends| ==> ends[i].Succeeded?
  {
    hide After;
    AlwaysOk(ends, maxParallel, events);
    var v := After(ends, maxParallel, events);
    if v.phase.end.Interrupted? {
      InterruptedByCaller(ends, maxParallel, events);
    }
  }

  // ---------------------------------------------------------------- every wave comes to an end

  /** Whatever happens takes the wave nearer to its end. */
  lemma StepShrinks(v: Wave, ends: seq<ChildEnd>, maxParallel: nat, e: Event)
    ensures Step(v, ends, maxParallel, e) == v || Rank(Step(v, ends, maxParallel, e)) < Rank(v)
  {
    hide InsideCount, Work, TaskEnd;
    var v' := Step(v, ends, maxParallel, e);
    if v' != v {
      match e
      case Enter(i) => TaskCounts(v.tasks, i, Inside);
      case End(i) =>
        EndedIsOver(ends[i]);
        TaskCounts(v.tasks, i, TaskEnd(ends[i]));
      case Stop(i) => TaskCounts(v.tasks, i, Cancelled);
      case _ =>
    }
  }

  lemma SomeTaskCanStep(tasks: seq<Task>, maxParallel: nat)
    requires maxParallel > 0 && !AllOver(tasks)
    ensures exists i :: 0 <= i < |tasks|
                        && (tasks[i].Inside? || (tasks[i].Waiting? && InsideCount(tasks) < maxParallel))
  {
    hide InsideCount;
    if forall i :: 0 <= i < |tasks| ==> !tasks[i].Inside? {
      NoneInside(tasks);
      var i :| 0 <= i < |tasks| && !Over(tasks[i]);
    }
  }

  /** Until the coroutine has left something can happen, whether or not the caller cancels. */
  lemma SomethingCanHappen(v: Wave, ends: seq<ChildEnd>, maxParallel: nat) returns (e: Event)
    requires WaveOk(v, ends, maxParallel) && maxParallel > 0 && !v.phase.Left?
    ensures !e.CancelCaller? && Step(v, ends, maxParallel, e) != v
  {
    hide InsideCount;
    if AllOver(v.tasks) {
      if v.phase.Draining? {
        e := Leave;
      } else if AllReturned(v.tasks) {
        e := Wake(None);
      } else {
        var i :| 0 <= i < |v.tasks| && !v.tasks[i].Returned?;
        assert Over(v.tasks[i]);
        e := Wake(Some(i));
      }
    } else if v.phase.Draining? {
      var i :| 0 <= i < |v.tasks| && !Over(v.tasks[i]);
      e := Stop(i);
      assert Step(v, ends, maxParallel, e).tasks[i] == Cancelled;
    } else {
      SomeTaskCanStep(v.tasks, maxParallel);
      var i :| 0 <= i < |v.tasks|
               && (v.tasks[i].Inside? || (v.tasks[i].Waiting? && InsideCount(v.tasks) < maxParallel));
      e := if v.tasks[i].Inside? then End(i) else Enter(i);
      EndedIsOver(ends[i]);
      assert Step(v, ends, maxParallel, e).tasks[i] != v.tasks[i];
    }
  }
}
