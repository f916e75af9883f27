# AgentGraph OS, verified model

A Dafny model of the backend of AgentGraph OS, and proofs about it. It covers how a team of agents is validated,
scheduled and answered; how runs, delegations and checkpoints live through stops, crashes and restarts; how tools are
approved and launched; how Core and its workers talk; and four smaller parts: memory retrieval, redaction, grants and
stored team references.

`dafny verify dfyconfig.toml` checks everything.

## How the model is laid out

| files | what they model |
|---|---|
| Prelude | optional values, and JSON values with Python's equality on numbers |
| TeamGraph, TeamParser | the untrusted team graph, its validator and the cycle check |
| BoundedContext | the text that hands worker results on within a character limit |
| Evaluation | the recursive meaning of a team graph |
| Waves, Scheduler, Solution, TeamRuntime | the tasks of a wave and the wave scheduler as state machines, what it means to solve a graph, and the coroutines that do it |
| Lifecycle, LifecycleRuns, DelegationChain | agents, runs, delegations and checkpoints as a state machine, its histories, and one history in full |
| Stopping, Manager, InterleavedStop | what a stop reaches, the manager that changes its tables in place, and a stop with other steps in between |
| RunTree | `get_run_tree` over the delegation table |
| Recovery, RestartEvidence, JointHistory | how a restart judges an interrupted run, what it finds after any history, and the histories of runs and tools as one |
| Tools, ToolRuns, ToolService | approvals, tool executions and the action ledger as a state machine, its histories, and the services themselves |
| NodeSessions, SessionRuns, NodeService, WorkerCache | the session protocol of Core as a state machine, its runs, the service, and the worker's cache |
| Memory, Redaction, Grants, AgentStore | the smaller parts |

A machine has a store, events, and a function for each event; `Sound` is its invariant. Classes and methods with loops
are proved against those functions. A `Run`, or a `Play`, is the state after any sequence of events.

## What the model takes as given

- A database session is one atomic, isolated transaction; a service call with several commits is several steps. SQLite's
  unique indexes and cascading deletes are part of the step that meets them.
- UUIDs are numbers that have not been used before. Rows, sessions, probes, approvals and ledger entries are numbered in
  the order they are made; objects that the process shares are entries of a table.
- Children of a team, model completions, checksums, case folding, stripping and texts of non-JSON values are arbitrary
  functions given as parameters. Clocks are numbers that callers pass in.
- asyncio is an arbitrary order of steps. A section that does not await is one step. A timer may fire at any time, also
  just as the future it guards has been settled; how often a waiter that missed its future cleans up is not bounded.
- A run may be ended, in any of the three ways, at any step and by anyone, except that only its own executing task
  reports success. Stops, child timeouts, late results and shutdown are all such steps. In the machine of the tools, which
  looks inside that task, a run ends once its calls are over, unless a shutdown gives up on it.

## Where the code differs from a simple reading of it

- The limit of the bounded context is not a limit on its length: after a cut four characters stay unused, and one more
  empty section is written (`BoundedContexts.MaximumIsNoBound`).
- A socket's end is keyed by node id, so a replaced socket's end removes the newer session
  (`SessionRuns.ReplacedSocketEndsTheNewerSession`).
- A caller who chooses ids can use one again that the window has forgotten while its probe still waits
  (`SessionRuns.ReusedIdIsStranded`).
- Stored depths stop being distances once the agent of a root with grandchildren is deleted
  (`DelegationChains.DepthOutlivesTheRoot`, `RunTrees.ShowsDistanceExactly`).
- A stored status that is a list or a dictionary makes the whole recovery fail (`Recoveries.AbortsExactly`), and the
  format version passes as `true` or `1.0` (`Recoveries.VersionMayBeTrueOrFloat`).
- A shutdown marks a run whose task would not end as failed. If its agent is then deleted while the tool is about to
  start, the ledger entry goes with it, and the launch is not recorded (`ToolRuns.UnrecordedLaunchHappens`,
  `ToolRuns.RecordedUnlessGivenUp`). For a task to get that far, something it awaited before, such as its model
  provider, must have swallowed the shutdown's cancellation.
- Cancelling a tool call between asking for approval and waiting for it leaves a pending approval behind
  (`ToolRuns.LeftAloneExactly`, `ToolRuns.PendingIsAttended`).
- Stopping a run that succeeds in the meantime answers that it has no live handle
  (`InterleavedStops.NoHandleExactly`, `InterleavedStops.SuccessMayAnswerNoHandle`).
- A decision that was checked before lockdown can commit after it (`Grants.LateDecisionGrants`).
- With a lowered worker limit, a delete no longer sees the teams it cannot parse
  (`AgentStores.DeletingUnderAnotherLimit`, `AgentStores.LoweringTheLimitLosesAWorker`).
- The worker's cache forgets by computation, not by last use (`Workers.RememberedExactly`, `Workers.ForgottenExactly`).
- The two redactors differ on what is not JSON: a time becomes text in an event and stays a time in the ledger
  (`Redaction.RedactorsAgreeExactly`).

## Model

| member | source | states |
|---|---|---|
| TeamGraphs.DagCheck.Visit | backend/agentgraph/domain/orchestration.py:105-113 | one call of the nested `visit`: on failure a real cycle exists; on success the visited set stays in successors-first order and only grows by finished nodes |
| TeamGraphs.EnsureDag | backend/agentgraph/domain/orchestration.py:101-117 | terminates; returns normally exactly when the edge relation has no cycle |
| TeamGraphs.OrderExcludesCycles | backend/agentgraph/domain/orchestration.py:101-117 | a successors-first list of all nodes is a proof that there is no cycle |
| TeamGraphs.SourceExists | backend/agentgraph/runtime/team.py:58-67 | in an acyclic graph every nonempty set of names has a member without a predecessor in the set |
| TeamGraphs.SourcesAppend | backend/agentgraph/domain/orchestration.py:31-35 | the predecessors of a node are the sources of the edges into it, one for each edge, in the order of the edges |
| TeamParser.ParseNodes | backend/agentgraph/domain/orchestration.py:54-77 | accepts the node entries exactly when each is a well-formed node and no id occurs twice; field by field, node i holds what entry i says; a rejection names the first check that the first faulty entry fails |
| TeamParser.ParseEdges | backend/agentgraph/domain/orchestration.py:78-97 | accepts the edge entries exactly when each is well-formed, joins two different known nodes and has an id of its own; edge i has the texts under id, source and target of entry i; a rejection names the first check that the first faulty entry fails |
| TeamParser.ParseTeamGraph | backend/agentgraph/domain/orchestration.py:38-98 | accepts exactly the well-formed acyclic graphs, blames the worker limit exactly when it is exceeded, and returns the graph entry by entry: there is an edge from s to t exactly when some entry reads source s and target t; the reason of a rejection is the first check that fails, object before nodes before edges before the cycle |
| TeamParser.AcceptsExactly | backend/agentgraph/domain/orchestration.py:38-98 | an independent definition of a well-formed acyclic team graph, in literal keys, types and sizes, describes exactly what is accepted |
| BoundedContexts.BoundedContext | backend/agentgraph/runtime/team.py:147-164 | the loop writes exactly the specified text |
| BoundedContexts.SectionsFollowResults | backend/agentgraph/runtime/team.py:152-163 | the sections written are a prefix of the results, in order, each an excerpt of its own output |
| BoundedContexts.ShownIsExcerpt | backend/agentgraph/runtime/team.py:155-161 | what is shown of an output is a prefix of it, or a proper prefix followed by the marker |
| BoundedContexts.RenderLength | backend/agentgraph/runtime/team.py:147-164 | the length stays within max(maximum, frame) exactly when no section is begun with less room than its own wrapper, and never exceeds it by more than one wrapper |
| BoundedContexts.MaximumHoldsExactly | backend/agentgraph/runtime/team.py:147-164 | in lengths alone: the text exceeds the maximum, or the longer frame, exactly when the first result that does not fit whole either lacks room for its wrapper or is cut with the marker and followed by another |
| BoundedContexts.MaximumIsNoBound | backend/agentgraph/runtime/team.py:147-164 | a family of inputs whose text is longer than the maximum |
| BoundedContexts.FittingTextIsExact | backend/agentgraph/runtime/team.py:147-164 | if everything fits, the text is the whole untruncated rendering |
| BoundedContexts.TextReads | backend/agentgraph/runtime/team.py:147-164 | the text that is written: header, one section for each result shown with its literal frame, and footer |
| BoundedContexts.WorkerInputReads | backend/agentgraph/runtime/team.py:140-144 | a worker is asked with the request, then the node's instructions if it has any, then the results of its predecessors |
| Evaluation.DepthIsLongestWalk | backend/agentgraph/runtime/team.py:57-70 | a node's depth is the number of edges of a longest walk into it: one exists and none is longer |
| Evaluation.DepthsAreLevels | backend/agentgraph/runtime/team.py:57-70 | every edge goes down in depth, and a node below the top has a predecessor exactly one level above it |
| Evaluation.GatherIsEvalAll | backend/agentgraph/runtime/team.py:114-119 | the collected outputs of a node's predecessors are their recursive values, in edge order and with repetitions |
| Waves.AlwaysOk | backend/agentgraph/runtime/team.py:72-103 | in every interleaving of a wave's tasks with its waiter: at most `maxParallel` are inside `run_child`, a task is over only as its child ended or once cancelled, and when the coroutine leaves, however it leaves, all are over |
| Waves.FinishedExactly | backend/agentgraph/runtime/team.py:81-99 | unless the caller cancels, a wave is left with its texts exactly when every child succeeds |
| Waves.InterruptedByCaller | backend/agentgraph/runtime/team.py:100-103 | a wave ends as cancelled only if the caller cancelled it |
| Waves.StepShrinks | backend/agentgraph/runtime/team.py:72-103 | every step that changes a wave brings it nearer to its end |
| Waves.SomethingCanHappen | backend/agentgraph/runtime/team.py:72-103 | until the coroutine has left, some step other than a cancellation is possible |
| TeamRuntime.RunReady | backend/agentgraph/runtime/team.py:72-103 | the two waits, with the caller's cancellations as an input: the history returned is one of the wave, holds exactly those cancellations, and leaves it with the end returned, not earlier |
| Schedulers.ReadyIsDepth | backend/agentgraph/runtime/team.py:58-62 | the nodes that can run after k waves are the pending ones exactly k deep |
| Schedulers.ReadyInOrder | backend/agentgraph/runtime/team.py:58-62 | the children of a wave are started in the order of the nodes, and what waits keeps that order |
| Schedulers.SomeNodeIsReady | backend/agentgraph/runtime/team.py:63-64 | the error for no schedulable worker is unreachable on an accepted graph |
| Schedulers.AlwaysOnCourse | backend/agentgraph/runtime/team.py:51-70 | the scheduler's invariant holds after every history: collected outputs agree with the recursive meaning, level by level |
| Schedulers.EndsForAReason | backend/agentgraph/runtime/team.py:51-70 | every end of every history: done means one output per node equal to its recursive value, each child started in the wave of its depth; an error is that of a started child; a cancellation is the caller's or a started child's |
| Schedulers.FinishesExactly | backend/agentgraph/runtime/team.py:51-70 | unless the caller cancels, the scheduler finishes exactly when every node has a value |
| Schedulers.CancellationStops | backend/agentgraph/runtime/team.py:72-103 | once the caller has cancelled a run that has not ended, it ends in no other way than cancelled |
| Schedulers.NeverBeyondAFailure | backend/agentgraph/runtime/team.py:51-99 | at every moment at most `maxParallel` children are inside, all earlier levels have values, and nothing that depends on a failed node, however indirectly, has been started |
| Schedulers.NobodyIsLeftBehind | backend/agentgraph/runtime/team.py:84-103 | when an error or a cancellation leaves the scheduler, every task of the wave is over |
| Schedulers.SchedulerCanMove | backend/agentgraph/runtime/team.py:51-70 | until it has ended, some step other than a cancellation changes its state |
| Schedulers.GraphStepShrinks | backend/agentgraph/runtime/team.py:51-70 | every step that changes the wave leaves fewer nodes pending, or as many and the wave nearer to its end |
| Solutions.SolvedExactly | backend/agentgraph/runtime/team.py:51-70 | every node evaluates exactly when there is a table of outputs in which each node's child, asked with the outputs of its predecessors, returned what the table says; and there is only one such table |
| Solutions.TaskEndsSo | backend/agentgraph/runtime/team.py:134-137 | how a task ends, with the codes of its errors: a child that failed, was cancelled, or left no output |
| Solutions.TerminalsExactly | backend/agentgraph/runtime/team.py:29-34 | an id is listed for the synthesis exactly when a node of the graph has it and no edge of the graph leaves it |
| Solutions.TerminalsInOrder | backend/agentgraph/runtime/team.py:29-34 | each such id is listed once, in the order of the nodes |
| TeamRuntime.RunGraph | backend/agentgraph/runtime/team.py:51-70 | terminates with a history of the scheduler that ends in just this way and holds exactly the caller's cancellations; with one among its steps it is cancelled, without it is done exactly when every node evaluates, and then its outputs are the one table that solves the graph; an error or an uncancelled stop is a child's |
| TeamRuntime.SomeTerminal | backend/agentgraph/runtime/team.py:29-34 | an accepted graph has a node without successors, so the synthesis always sees a worker result |
| TeamRuntime.Invoke | backend/agentgraph/runtime/team.py:20-49 | parse, depth check, waves and synthesis together, with the steps taken: cancelled if the caller cancels within them; otherwise, whenever every node evaluates, the synthesis asked with the results of exactly the nodes no edge leaves, in the order of the nodes; an answer only then, and else the error or cancellation of a child |
| Lifecycles.SoundNext | backend/agentgraph/services/manager.py:118-234 | every step of the lifecycle keeps the mutual invariant of agents, runs, tasks, checkpoints and delegations |
| Lifecycles.SoundAdmit | backend/agentgraph/services/manager.py:184-234 | starting a run, its delegation and its task keeps the invariant |
| Lifecycles.SoundMark | backend/agentgraph/services/manager.py:388-412 | marking a run as running keeps the invariant |
| Lifecycles.SoundFinish | backend/agentgraph/services/manager.py:414-504 | ending a run, in any of the three ways and at any moment, keeps the invariant |
| Lifecycles.SoundRemove | backend/agentgraph/services/manager.py:118-136 | deleting an agent with its cascade keeps the invariant |
| Lifecycles.SoundRecover | backend/agentgraph/services/recovery.py:104-132 | restart recovery keeps the invariant, for the stale runs in any order |
| Lifecycles.Numbered | backend/agentgraph/repositories/recovery.py:14-31 | numbering after the maximum gives 1..n without gaps |
| Lifecycles.LogEnds | backend/agentgraph/services/manager.py:414-504 | an ending adds exactly one last entry, with the run's new status, to the log of an active run |
| Lifecycles.FinishLeaves | backend/agentgraph/services/manager.py:414-504 | a success stores the output and leaves the agent idle, a failure stores the error and shows it on the agent, a cancellation stores neither; nothing else changes |
| Lifecycles.AdmissibleExactly | backend/agentgraph/services/manager.py:184-205 | when a run may start, said of rows alone: all runs of the agent have ended, and of a delegation that the parent executes, has room below it, is of no agent on the path, and has not delegated this node |
| LifecycleRuns.AlwaysSound | backend/agentgraph/services/manager.py:118-504 | the invariant holds after every history of steps |
| LifecycleRuns.OneRunAtATime | backend/agentgraph/services/manager.py:184-234 | at every moment an agent has at most one active run and is shown as running exactly when it has one |
| LifecycleRuns.AgentShowsItsRuns | backend/agentgraph/services/manager.py:414-504 | over every history an agent that never failed a run is not shown with an error, and one that is not running and failed every run it had is |
| LifecycleRuns.EndedForGood | backend/agentgraph/services/manager.py:414-504 | once a run has ended, its status, output and error never change, and a deleted run does not come back |
| LifecycleRuns.LogMatchesRun | backend/agentgraph/services/recovery.py:37-62 | a run's log is numbered 1..n, reads created, perhaps running, then one end exactly when the run has ended, and its last entry has the run's status |
| LifecycleRuns.LogKeepsStartingSpec | backend/agentgraph/services/recovery.py:37-62 | every log entry carries the spec the agent had when the run started, despite later edits |
| LifecycleRuns.DelegationIsBounded | backend/agentgraph/services/manager.py:143-182 | agents on a path of delegations are pairwise distinct and a path has at most the maximum depth of steps, even if team graphs refer to each other |
| LifecycleRuns.DepthIsOneMore | backend/agentgraph/runtime/team.py:120-133 | a child's stored depth is between one and the maximum and one more than its parent's stored depth |
| LifecycleRuns.DepthIsDistance | backend/agentgraph/services/manager.py:143-182 | as long as no agent is deleted, stored depth is distance from the root |
| LifecycleRuns.DeletingTheRootLeavesDepths | backend/agentgraph/services/manager.py:118-136 | deleting the agent at the top of a chain leaves a new root whose child is stored deeper than one |
| DelegationChains.DepthOutlivesTheRoot | backend/agentgraph/services/manager.py:118-136 | from an empty store: three runs that delegate in a row end, the first one's agent is deleted, and the last keeps its depth of two one step below its new root |
| LifecycleRuns.DownUntilRecovery | backend/agentgraph/services/recovery.py:104-132 | a crash takes the tasks of the process and nothing else, and until a recovery no step changes anything |
| LifecycleRuns.RestartFailsTheActive | backend/agentgraph/services/recovery.py:104-132 | a restart fails exactly the runs it finds active and leaves ended runs as they were |
| LifecycleRuns.DelegationsAreAForest | backend/agentgraph/persistence/models.py:82-95 | after any history the delegation table is a forest as `get_run_tree` needs it |
| Managers.AgentManager.StartRun | backend/agentgraph/services/manager.py:184-234 | starts exactly when the agent exists, all its runs have ended and, for a child, the parent may delegate; then there is one queued run, one checkpoint, one task, and the delegation one deeper than its parent's task |
| Managers.AgentManager.MarkRunning | backend/agentgraph/services/manager.py:388-412 | marks an active run as running, its task as executing, and changes nothing otherwise |
| Managers.AgentManager.Finish | backend/agentgraph/services/manager.py:414-504 | ends exactly an active run: succeeded with its output, failed with its error, or cancelled, the agent idle or shown with the error |
| Managers.AgentManager.DeleteAgent | backend/agentgraph/services/manager.py:118-136 | deletes exactly an existing agent whose runs have all ended: it, its runs, every delegation with one of them, and nothing else |
| Managers.AgentManager.RecoverStaleRuns | backend/agentgraph/services/recovery.py:104-122 | the loop over stale runs reaches the state of the recovery step: every active run failed with the restart's error, its agent shown with an error, every other run as it was |
| Managers.AgentManager.CancelTask | backend/agentgraph/runtime/registry.py:20-29 | cancels exactly a registered task that ends in time; its run, if it was active, is then cancelled, without an error, its agent idle, and no other run changes |
| Managers.AgentManager.StopRun | backend/agentgraph/services/manager.py:284-298 | which of the five answers a stop gives, and how it leaves the run: cancelled with its agent idle when stopped, failed for want of a handle with the agent shown so, untouched when its task would not end; it ends runs only at and below the run, and settles everything below it that was reached through active runs |
| Managers.AgentManager.StopDescendants | backend/agentgraph/services/manager.py:300-312 | leaves every child that was active cancelled, failed for want of a handle, or untouched if its task would not end, after everything active below it, and changes nothing outside the run's descendants |
| Managers.AgentManager.CancelAll | backend/agentgraph/runtime/registry.py:31-41 | cancels every task that ends in time, its run cancelled and its agent idle, and returns the tasks that would not |
| Managers.AgentManager.Shutdown | backend/agentgraph/services/manager.py:348-354 | an active run whose task ended in time is cancelled and its agent idle; that of any other task is failed with the shutdown's error and its agent shown so; runs without a task are as before; it is clean exactly when every task ended in time |
| InterleavedStops.OnlyOutOfReachGoesOn | backend/agentgraph/services/manager.py:284-312 | with any other steps in between the sections of a stop: a run below the stopped one that is still active at the end lies at or below a run whose task did not end in time, that was deleted, or that had ended before the stop came to it |
| InterleavedStops.VisitedHaveEnded | backend/agentgraph/services/manager.py:284-312 | every run the stop visited has ended unless its cancellation timed out, and so has, or was visited, every run it had delegated to |
| InterleavedStops.AnswersAreTrue | backend/agentgraph/services/manager.py:284-298 | in every interleaving, whatever a stop answers for a run, that run has ended, unless the answer is a timed-out cancellation |
| InterleavedStops.OnlyOutOfReachOrLateGoesOn | backend/agentgraph/services/manager.py:284-312 | the same for the delegations at the end, those made during the stop included: or at or below a run that was delegated after the stop had last listed its parent's children |
| InterleavedStops.ListedHaveEnded | backend/agentgraph/services/manager.py:300-312 | every run that stood in a list of children was visited or has ended, whenever it was delegated |
| InterleavedStops.NoHandleExactly | backend/agentgraph/services/manager.py:290-293 | in every interleaving the answer is the missing handle exactly when the task was gone once everything below had been stopped |
| InterleavedStops.NoHandleKeepsTheEnded | backend/agentgraph/services/manager.py:290-293 | a run that had ended by then stays just as it is, one that had not is failed with the missing handle's error |
| InterleavedStops.CancelledUnlessEnded | backend/agentgraph/services/manager.py:295-298 | once a cancelled task is over, its run is cancelled, unless it had ended in some other way first |
| InterleavedStops.SuccessMayAnswerNoHandle | backend/agentgraph/services/manager.py:290-293 | so a run that succeeds while it is being stopped keeps its output, and the answer is the conflict of a missing handle |
| Stopping.ActivePathsEnd | backend/agentgraph/services/manager.py:300-312 | along a path of delegations whose runs were all active, the last run has ended unless its own task would not end in time |
| Stopping.PathsEndAs | backend/agentgraph/services/manager.py:300-312 | along such a path the last run is left cancelled, failed for want of a handle, or untouched, as its task says |
| Stopping.StopBranch | backend/agentgraph/services/manager.py:303-312 | stopping one child's branch settles it and leaves the other branches as they were |
| RunTrees.Climb | backend/agentgraph/services/manager.py:251-256 | the climbing loop ends at the topmost ancestor |
| RunTrees.Collect | backend/agentgraph/services/manager.py:260-268 | the frontier loop terminates with exactly the rows and records of everything below the root |
| RunTrees.ByParent | backend/agentgraph/services/manager.py:270-274 | the grouping holds each parent's rows in order |
| RunTrees.GetRunTree | backend/agentgraph/services/manager.py:249-282 | from any member run: the tree of its root, holding exactly the runs with that root, each once, every node with its own record and its children in order; None exactly for an unknown run |
| RunTrees.BuildHolds | backend/agentgraph/services/manager.py:276-282 | the built tree holds exactly a run and its descendants |
| RunTrees.BuildDistinct | backend/agentgraph/services/manager.py:276-282 | no run occurs twice in the built tree |
| RunTrees.ShowsDistanceExactly | backend/agentgraph/services/manager.py:276-282 | every depth shown equals the distance from the root exactly when the root's own children were stored with depth one |
| Recoveries.StoppedExactly | backend/agentgraph/services/recovery.py:213-237 | a run counts as stopped without replay exactly when its latest checkpoint is valid and every ledger entry is confirmed or failed |
| Recoveries.JudgedExactly | backend/agentgraph/services/recovery.py:134-253 | all five judgements, each exactly under its condition on the rows: no checkpoint, one that cannot be read or is not intact, one whose status cannot be looked up, an action that may have happened, and none |
| Recoveries.UncertainInOrder | backend/agentgraph/services/recovery.py:224-233 | the reported uncertain actions are those that may have happened, in ledger order |
| Recoveries.AbortsExactly | backend/agentgraph/services/recovery.py:240-253 | judging a run raises exactly when all earlier checks pass and the status is a list or a dictionary |
| Recoveries.RecoverStaleRuns | backend/agentgraph/services/recovery.py:104-122 | one run that cannot be judged rolls back the recovery of all; otherwise each gets its own decision, in order |
| Recoveries.WrittenIsValid | backend/agentgraph/services/recovery.py:195-199 | a row the service wrote, field by field, is valid for its own run and for no other |
| Recoveries.UntouchedRowsDecideByLedger | backend/agentgraph/services/recovery.py:213-237 | with such a row the ledger alone decides the outcome |
| Recoveries.TamperingIsNoticed | backend/agentgraph/services/recovery.py:253 | a changed state is rejected whenever the checksum tells it apart |
| Recoveries.VersionMayBeTrueOrFloat | backend/agentgraph/services/recovery.py:244-248 | with the checksum of its state, a row whose state holds another version passes exactly for 1, `true` and 1.0 |
| RestartEvidence.OnlyTheLedgerDecides | backend/agentgraph/services/recovery.py:134-145 | after any history on an untouched store, no run is judged corrupt or without a checkpoint |
| RestartEvidence.LatestShowsTheStatus | backend/agentgraph/repositories/recovery.py:33-42 | the entry with the largest sequence number has the run's status |
| RestartEvidence.JointRestart | backend/agentgraph/services/recovery.py:104-145 | checkpoints and ledger together, wherever a crash cuts in: an active run fails, it is said to have stopped exactly when each of its ledger entries is confirmed or failed, so that each of its launches is, and it is blocked by its unsettled actions otherwise |
| JointHistories.AlwaysAgree | backend/agentgraph/services/manager.py:184-234 | over every joint history of runs and tools, in which tools run inside the tasks of runs, both machines show the same table of runs |
| JointHistories.RestartAfterJointHistory | backend/agentgraph/services/recovery.py:104-145 | the same judgement for every joint history that a crash ends |
| Tools.SoundNext | backend/agentgraph/services/tools.py:108-169 | every commit, decision, timeout, cancellation or error at any await, deletion and crash keeps the invariant of approvals, executions and ledger |
| Tools.RunsSay | backend/agentgraph/services/manager.py:348-354 | a run is ended once its executions have finished or died, or by a shutdown that gives up on it, after which its task may still begin others; only an ended run is deleted, with its ledger entries |
| Tools.SoundIntent | backend/agentgraph/services/tools.py:135-141 | recording an intent keeps the invariant |
| Tools.SoundStarted | backend/agentgraph/services/tools.py:142 | committing STARTED keeps the invariant, also when the entry is gone |
| Tools.SoundLaunch | backend/agentgraph/services/tools.py:152-155 | launching keeps the invariant |
| Tools.SoundSettle | backend/agentgraph/services/remote.py:138-182 | taking an approval out of PENDING keeps the invariant |
| ToolRuns.AlwaysSound | backend/agentgraph/services/tools.py:108-169 | the invariant holds after every history |
| ToolRuns.DecidedOnce | backend/agentgraph/services/remote.py:138-182 | in every interleaving an approval leaves PENDING at most once |
| ToolRuns.LaunchGate | backend/agentgraph/services/tools.py:108-155 | at every launch the approval is approved and stays so, and the execution's own ledger entry reads STARTED exactly as long as the run's row exists |
| ToolRuns.LaunchesArePaidFor | backend/agentgraph/services/tools.py:108-155 | at most one launch per execution and per approval, and none for an approval that ends rejected, expired or cancelled |
| ToolRuns.RecordedUnlessGivenUp | backend/agentgraph/services/recovery.py:71-102 | over every history in which no shutdown gave up on the run, whatever is deleted meanwhile, a launch finds its own entry in the ledger as STARTED |
| ToolRuns.DeletedRunLaunchesUnrecorded | backend/agentgraph/services/manager.py:348-354 | a shutdown that gives up on a run between intent and start, and then the deletion of its agent, lead to a launch without a ledger entry |
| ToolRuns.UnrecordedLaunchHappens | backend/agentgraph/services/manager.py:348-354 | a whole history from the start of the process in which that happens |
| ToolRuns.LeftAloneExactly | backend/agentgraph/services/tools.py:108-121 | a pending approval with an execution that waits or is about to loses it, and stays pending, exactly when that execution is cut off between asking and waiting |
| ToolRuns.PendingIsAttended | backend/agentgraph/services/tools.py:108-121 | over every history: a pending approval has such an execution exactly unless that one was cut off between asking and waiting |
| ToolRuns.CutOffHappens | backend/agentgraph/services/tools.py:118-121 | a whole history in which that happens |
| ToolRuns.LaunchedMeansUncertain | backend/agentgraph/services/recovery.py:104-145 | wherever a crash cuts in, something launched and neither confirmed nor failed keeps the restart from deciding that the run stopped |
| ToolRuns.StoppedMeansAllSettled | backend/agentgraph/services/recovery.py:213-237 | with a valid checkpoint the restart decides that the run stopped exactly when every ledger entry of the run is confirmed or failed |
| ToolRuns.EntryIsObserved | backend/agentgraph/services/tools.py:152-169 | over every history an entry reads CONFIRMED only if the launcher returned to its execution with the application opened, FAILED only if with it not opened, and UNCERTAIN only if it timed out or was interrupted |
| ToolRuns.SettledAsObserved | backend/agentgraph/services/tools.py:152-169 | an entry that is settled had its outcome observed: confirmed means opened, failed means not opened |
| ToolRuns.TimedOutMeansUncertain | backend/agentgraph/services/recovery.py:213-237 | a launch that timed out or was interrupted never lets the restart decide that the run stopped |
| ToolServices.ApprovalService.Create | backend/agentgraph/services/remote.py:112-136 | adds one pending approval with an unset future |
| ToolServices.ApprovalService.Decide | backend/agentgraph/services/remote.py:138-156 | the decision step of the machine: decides a pending approval, expires an overdue one without waking the waiter, and is a conflict otherwise |
| ToolServices.ApprovalService.TimeOut | backend/agentgraph/services/remote.py:164-170 | the machine's wait that runs out: answers expired whatever the status is by then, and expires only a pending approval |
| ToolServices.ApprovalService.Wake | backend/agentgraph/services/remote.py:158-173 | the machine's waking wait: answers the approval's own status |
| ToolServices.ApprovalService.Cancel | backend/agentgraph/services/remote.py:175-182 | cancels only a pending approval |
| ToolServices.Execute | backend/agentgraph/services/tools.py:81-169 | one call: every refusal, every denied approval and every outcome with its literal result and last ledger status, confirmed, failed, and twice uncertain, in the exact order of commits; a launch stands after intent and STARTED, and is the only one |
| ToolServices.JournalIsARun | backend/agentgraph/services/tools.py:135-169 | the order of commits is a run of the machine: one execution to its end, one ledger entry that ends as reported, and a launch exactly for a controlled tool |
| ToolServices.CutOffAnywhere | backend/agentgraph/services/tools.py:135-169 | cut off after any of its commits, a call is an execution the machine aborts there, and a launch has its entry past the intent |
| NodeSessions.SoundNext | backend/agentgraph/services/nodes.py:131-285 | every section keeps limits, windows and the pending maps consistent, whatever ids the callers choose |
| NodeSessions.SoundConnect | backend/agentgraph/services/nodes.py:131-140 | connecting, also in place of an earlier session, keeps them |
| NodeSessions.SoundDispatch | backend/agentgraph/services/nodes.py:229-251 | dispatching keeps them, also when the full queue takes the entry back |
| NodeSessions.SoundReceive | backend/agentgraph/services/nodes.py:271-285 | receiving a result keeps them |
| NodeSessions.AdvancesNext | backend/agentgraph/services/nodes.py:131-285 | futures only move forward: out of open once |
| NodeSessions.DispatchStrands | backend/agentgraph/services/nodes.py:229-251 | dispatching an id strands a probe exactly when the session still lists another open probe under that id |
| NodeSessions.CleanUpStrands | backend/agentgraph/services/nodes.py:258-265 | a timed-out waiter strands a probe exactly when the entry it removes is another's |
| NodeSessions.StrandsNothingNext | backend/agentgraph/services/nodes.py:131-285 | with fresh ids no section strands a probe |
| NodeSessions.OtherSectionsSay | backend/agentgraph/services/nodes.py:252-270 | the timer and the waiter's cancellation reach open futures only; the sender takes the oldest message |
| SessionRuns.AlwaysSound | backend/agentgraph/services/nodes.py:131-285 | every state of every run is consistent, whatever ids the callers choose |
| SessionRuns.WithinLimits | backend/agentgraph/services/nodes.py:131-251 | over every run, connections, pending probes, queued messages and remembered ids respect their limits, and any tasks*connections+1 consecutive dispatched ids are pairwise distinct |
| SessionRuns.SettledOnce | backend/agentgraph/services/nodes.py:271-320 | a probe with an outcome keeps it for the rest of the run |
| SessionRuns.AnswersComeFromTheNode | backend/agentgraph/services/nodes.py:271-285 | an answer is one its own node sent for its own id while the probe was open |
| SessionRuns.MessagesAreForOwnProbes | backend/agentgraph/services/nodes.py:245-265 | over every run a queued request is for a probe of that session, and a queued cancellation for one whose waiter has its outcome |
| SessionRuns.NeverStranded | backend/agentgraph/services/nodes.py:220-285 | with generated ids an open probe is always in the pending map of its node's registered session |
| SessionRuns.ReusedIdIsStranded | backend/agentgraph/services/nodes.py:248-251 | a run in which an evicted id is used again and its first probe is left open in no pending map |
| SessionRuns.SessionSurvives | backend/agentgraph/services/nodes.py:131-172 | a registered session loses its place exactly when its node connects again or disconnects |
| SessionRuns.ReplacedSocketEndsTheNewerSession | backend/agentgraph/api/workers.py:69-73 | the end of a replaced socket removes the newer session of the same node |
| NodeServices.NodeService.Connect | backend/agentgraph/services/nodes.py:131-140 | refused exactly when the node is not connected and all places are taken; else a new empty session, and every open probe of the one it replaces, and no other, is settled as replaced |
| NodeServices.NodeService.Disconnect | backend/agentgraph/services/nodes.py:166-172 | the node's session is forgotten, and every open probe it listed, and no other, is settled as disconnected |
| NodeServices.NodeService.FailListed | backend/agentgraph/services/nodes.py:315-320 | the loop settles exactly the listed open futures and empties the pending map |
| NodeServices.NodeService.Ask | backend/agentgraph/services/nodes.py:223-251 | each outcome exactly under its condition, in the order of the checks: a request that is sent is queued and listed, a full queue costs the session its entry for the id, any other outcome changes nothing |
| NodeServices.NodeService.Evict | backend/agentgraph/services/nodes.py:250-251 | the eviction loop keeps the newest ids of the window |
| NodeServices.NodeService.ReceiveResult | backend/agentgraph/services/nodes.py:271-285 | a listed id is taken out and its probe, if open, settled with this answer; anything else changes nothing |
| NodeServices.NodeService.CleanUp | backend/agentgraph/services/nodes.py:258-265 | the id is taken out of the list, a message to cancel it is queued last if there is room, and a timed-out future is reported while a settled one stays |
| Workers.WorkerCache.Execute | backend/agentgraph/worker.py:133-153 | a remembered task gets its old answer, an operation that is not allowed an error that is not remembered, anything else is computed and remembered |
| Workers.CacheIsNewest | backend/agentgraph/worker.py:149-153 | over every run of requests the cache holds exactly the last `limit` computed answers |
| Workers.RememberedExactly | backend/agentgraph/worker.py:133-153 | a task is answered from memory exactly when it is among the last `limit` computed ones, and with the answer computed there |
| Workers.SameAnswer | backend/agentgraph/worker.py:133-153 | a computed answer is repeated as long as at most `limit` answers were computed since, its own included |
| Workers.ForgottenExactly | backend/agentgraph/worker.py:134-153 | after its last computation a task is remembered exactly as long as at most `limit` answers were computed, however often it was asked for |
| Workers.AskingAgainDoesNotRefresh | backend/agentgraph/worker.py:134-136 | a request that is answered from memory, or refused, changes neither what was computed nor what is remembered |
| Workers.AskedAgainAndForgotten | backend/agentgraph/worker.py:134-136 | a run of five requests in which a task is asked for again and still computed anew |
| Memories.Search | backend/agentgraph/services/memory.py:69-86 | scoring, filter, sort and the packing loop return exactly the specified matches |
| Memories.SearchIsGreedy | backend/agentgraph/services/memory.py:73-86 | candidates in strict order of score, recency and id; each is returned exactly if a result was free, characters were left and its content was no longer than those, with its rank; within both limits |
| Memories.RelevantExactly | backend/agentgraph/services/memory.py:70-72 | a record is ranked exactly if there are no terms or one of them occurs in its folded content and tags |
| Memories.ScoreCounts | backend/agentgraph/services/memory.py:151-153 | a score is the number of terms that occur in the folded content and space-joined tags, a repeated term counting again |
| Memories.NothingFitsLater | backend/agentgraph/services/memory.py:77-81 | stopping at a reached limit loses nothing |
| Memories.AnyOrderOfCandidates | backend/agentgraph/services/memory.py:73 | the answer does not depend on the order of the candidates |
| Memories.NormalizeTags | backend/agentgraph/services/memory.py:138-148 | rejects too many or unusable tags, and otherwise returns each stripped tag once, in order of first appearance |
| Redaction.EventIsRedacted | backend/agentgraph/runtime/events.py:70-89 | whatever is published, every marked key is redacted at every depth of the resulting JSON tree |
| Redaction.SecretExactly | backend/agentgraph/runtime/events.py:74-77 | a key is redacted exactly when its lower-case text has one of the six markers in it |
| Redaction.FixedExactly | backend/agentgraph/runtime/events.py:70-89 | redaction changes nothing exactly when everything is redacted already |
| Redaction.RedactIsIdempotent | backend/agentgraph/runtime/events.py:70-89 | redacting twice is redacting once |
| Redaction.EventIsIdempotent | backend/agentgraph/runtime/events.py:70-89 | publishing a published payload again gives the same payload |
| Redaction.MarkerFreeIsUnchanged | backend/agentgraph/runtime/events.py:70-89 | JSON without a marked key is left as it is |
| Redaction.LedgerRedactsJson | backend/agentgraph/services/recovery.py:256-269 | on string-keyed JSON the ledger's redactor gives exactly the redacted tree |
| Redaction.RedactorsAgree | backend/agentgraph/services/recovery.py:256-269 | on string-keyed JSON the two redactors agree |
| Redaction.RedactorsAgreeExactly | backend/agentgraph/services/recovery.py:256-269 | on any payload they agree exactly when redaction leaves no time or foreign object: each is under a marked key or overwritten by a later key that reads the same |
| Redaction.TimesDiffer | backend/agentgraph/runtime/events.py:85-86 | outside JSON they differ: a time becomes text only in an event |
| Grants.SoundNext | backend/agentgraph/services/security.py:157-281 | every transaction keeps approvals and grants consistent |
| Grants.AlwaysSound | backend/agentgraph/services/security.py:157-281 | approvals and grants are consistent after every history |
| Grants.DecidedOnce | backend/agentgraph/repositories/security.py:308-329 | at most one decision ever commits for an approval, and every later one changes nothing |
| Grants.ClosedByADecision | backend/agentgraph/services/security.py:162-183 | over every history an approval that is not pending was closed by one decision: as expired if that came after the expiry, and otherwise as it shows; so an approved one was approved in time |
| Grants.GivenInTime | backend/agentgraph/services/security.py:162-198 | over every history every grant was given by a task-scoped decision of its issuer on a pending approval before the expiry |
| Grants.OverdueGivesNothing | backend/agentgraph/services/security.py:165-175 | a decision on an overdue approval adds no grant and approves nothing; a pending one ends expired and rejected |
| Grants.GrantsAreSourced | backend/agentgraph/services/security.py:184-198 | each grant has a task-scoped approval of its own, decided by its issuer, whose action, target, run, task and expiry it copies; and each such approval has its grant |
| Grants.NeverActiveAgain | backend/agentgraph/services/security.py:219-237 | a grant never becomes active again |
| Grants.LockedExactly | backend/agentgraph/services/security.py:244-281 | lockdown is on exactly when it was activated and not lifted since |
| Grants.LockHoldsExactly | backend/agentgraph/services/security.py:244-263 | a step keeps lockdown free of active grants exactly unless it is a task-scoped decision that commits under lockdown |
| Grants.LockdownLeavesNoGrant | backend/agentgraph/services/security.py:244-263 | with each call as one step, no grant is active under lockdown, over every history |
| Grants.LateDecisionGrants | backend/agentgraph/services/security.py:160-161 | a decision checked before lockdown and committed after it leaves an active grant |
| Grants.SecurityService.DecideApproval | backend/agentgraph/services/security.py:162-212 | each answer under its condition and with what it leaves: unknown, overdue, no longer pending, without a task, and decided, with the approval's new row and the grant field by field |
| Grants.SecurityService.RevokeGrant | backend/agentgraph/services/security.py:219-237 | only its issuer deactivates a grant, and no other changes |
| Grants.SecurityService.ActivateLockdown | backend/agentgraph/services/security.py:244-263 | the revocation loop leaves every grant inactive; only a stepped-up administrator may |
| Grants.SecurityService.CheckAndDecide | backend/agentgraph/services/security.py:157-212 | check and transaction in one step keep lockdown free of active grants |
| Grants.SecurityService.CheckAndRevoke | backend/agentgraph/services/security.py:219-237 | check and transaction in one step: refused without permission and under lockdown, when no grant is active anyway; after a revocation of one's own grant it is inactive |
| AgentStores.RefsOkNext | backend/agentgraph/services/manager.py:72-136 | every create, update or delete keeps every stored team graph's references whole |
| AgentStores.StoredTeamsResolve | backend/agentgraph/services/manager.py:72-136 | over every history of calls under fixed settings, stored team graphs name existing agents other than their owner |
| AgentStores.DeletingUnderAnotherLimit | backend/agentgraph/services/manager.py:126-133 | under a changed worker limit a delete goes through and leaves a team with a missing worker exactly when some other team names the agent and every such team has more workers than the limit |
| AgentStores.LoweringTheLimitLosesAWorker | backend/agentgraph/services/manager.py:126-133 | two created agents, a team of two workers and a limit lowered to one with which that happens |
| AgentStores.AgentStore.Validate | backend/agentgraph/services/manager.py:314-328 | finds no problem exactly when the graph is not a team, or parses and names existing agents other than the owner; else the problem of the parser, or of the first wrong worker |
| AgentStores.AgentStore.CreateAgent | backend/agentgraph/services/manager.py:72-92 | creates exactly when the graph is valid |
| AgentStores.AgentStore.UpdateAgentGraph | backend/agentgraph/services/manager.py:106-116 | updates exactly an existing agent with a valid graph |
| AgentStores.AgentStore.DeleteAgent | backend/agentgraph/services/manager.py:118-136 | the loop over the other agents deletes exactly an agent that is idle and not referred to; each refusal under its condition, in order |

## Left out

- The HTTP routes, schemas, cookies, the user interface and the vision service.
- Model providers and the router: a completion is a text or a failure.
- WebAuthn, TOTP, encryption and hashing; the enrollment proof and the checksum are parameters or absent.
- Other steps while a shutdown is under way. The manager's `StopRun` and `StopDescendants` are sequential, and a task
  either ends in time as a cancelled one or not at all; InterleavedStop has them with any other steps in between.
- The manager without a recovery service: the model always writes checkpoints.
- The event bus's history, subscribers and dropped events; only its redactor is modelled.
- Node records, enrollment and heartbeats: a probe is given what the record says.
- The event stream published after each commit, and audit rows.
- Progress: nothing is said about how long a wait lasts, and no scheduling is assumed to be fair.
- Managers.AgentManager.StartRun: does not model the graph check at the start of a run, which AgentStore covers on its own; a refused start is a call that does not happen.
- Managers.AgentManager.DeleteAgent: does not model the check for teams that refer to the agent, which AgentStore covers on its own.
- Managers.AgentManager.RecoverStaleRuns: does not model the decision taken for each run, which Recovery covers on its own.
- Managers.AgentManager.CancelTask: does not model other tasks that react while the cancellation waits, which InterleavedStop covers.
- Managers.AgentManager.CancelAll: does not model that the tasks are cancelled at once and waited for together; it takes one after the other.
- Managers.AgentManager.StopRun: does not model other steps during the stop, which InterleavedStop covers; in exchange it says which answer is given and what has ended.
- Managers.AgentManager.StopDescendants: does not model other steps during the stop, which InterleavedStop covers.
- Grants.SecurityService.RevokeGrant: does not model the check before its transaction, which CheckAndRevoke adds.
- Memories.Search: does not model the repository's choice of candidates, which is an input, nor storing and deleting records.
- Redaction.LedgerRedactsJson: does not model that the ledger's redactor fails on a top-level key that is not a string, which its callers never pass.
- ToolServices.Execute: does not model the output text and its cut, nor durations.
- NodeServices.NodeService: sessions are rows of a table, so that two references to one session cannot be told apart; the source shares a session object between a waiter and the service, which the row number stands for.
