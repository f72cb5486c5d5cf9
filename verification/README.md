# zenflow: a verified model of the run engine

zenflow runs a workflow as a graph of steps in parallel, passes messages to running agents through
mailboxes, and resumes finished steps. This project models the parts of it where many things happen at
once, and proves what they promise in every interleaving. `dafny verify dfyconfig.toml` checks everything.

## How the project is laid out

**The DAG engine.** `Graph` has steps, dependency lists, paths and occurrence counts. `Scheduler` is
`TopoSort`; `Validation` is the structural part of workflow validation; `Schedule` is failure marking and the
launch orders. `RunCore` states the effect of each critical section of `Executor.Run` on the maps its mutex
guards. `RunSystem` interleaves them: the main loop and one goroutine per started step, with the dispatch, the
semaphore, the completion channel, abort and the final snapshot as separate steps, and the invariant that every
step keeps. `RunTheorems` draws safety, deadlock freedom and termination from it; `RunOutcomes` says where every
reported result, every failure mark and every abort comes from. `Evaluator` is a recursive
evaluator that knows nothing of schedules; `Determinism` proves that every schedule computes it, `Divergence`
that the condition on resumed results used there is exact. `Conditions` says exactly when a step that a failure
has marked is started all the same, state by state, and `BrokenConditions` says it of whole workflows.
`Executor` is the imperative run state: its methods update the maps in place, and its `Dispatch` is proved to be
a run of the transition system. A step's outcome is an arbitrary function of the step and of its dependency
results; a condition is an arbitrary verdict on the settled results.

**The agent wake loop.** `Mailbox` is one step's queue in the in-memory store. `WakeLoop` names what becomes of a
message and what the conversation looks like after any number of wakes. `AgentRunner` is one `Run`: drains,
model calls, drops, transcript flushes, the retry and the outcome, method by method. The outside world (what
arrives during a call, what the model answers, what the transcript store answers, when the context is
cancelled) is a script about which nothing is assumed.

**Resume.** `ResumeMailbox` is the capped mailbox, as an object and under concurrent callers. `Resume` is the
single-flight protocol of `ResumeStep` and its goroutine.

**Smaller parts.** `Options` (absent values), `ForEach` (parallel iterations and their aggregate),
`BufferedSink` (the batching sink), `FactoryCache` (the per-session cache), `SubmitResult` (the result
validator), `Prompt` (UTF-8-safe truncation).

Go's integers stay far from their bounds in all of this and are modelled as unbounded.

## What the proofs found

- *Resumed runs can depend on the schedule.* With resumed results a failure above a resumed step may or may
  not reach a step below it first. `Divergence.DeterministicIffSafe` gives the exact condition; a resume set
  closed under dependencies meets it, and so does a fresh run.
- *A step below a broken condition is started.* The collection of ready steps says that it leaves out marked
  steps (executor.go:948) but does not look at the marks (executor.go:950-958). `Conditions.MarkedStartIff` says
  exactly which marked steps slip through: those whose last open dependency was the settled step, and those
  that were ready already and lie below it through resumed steps. In every run of a workflow with such a step
  the step is started (`Conditions.BrokenConditionNeverCascades`). For a step that depends directly on a lone
  broken condition, `BrokenConditions.StartedIffSlips` reads off the dependency graph and the resumed steps whether
  any run starts it. Without a settled condition it cannot happen (`Conditions.NoMarkedStart`).
- *Responses repeat in the transcript.* Each wake appends all responses so far again:
  `WakeLoop.ResponsesRepeat` counts the copies. Snapshots still only grow.
- *A drain event is not always a delivery.* emitInboxDrain is documented as proof that a message reached the
  model (agent_runner.go:1422-1425). `AgentRunner.Session.Run` says exactly which drained messages did not: those
  of the latest drain, if it met a cancel marker or if the loop's context check came before the next call, and
  no others. A message in front of a cancel marker that was waiting at the start is the simplest case
  (`AgentRunner.AnnouncedButUnsent`).
- *A queued resume message can be abandoned.* `Resume.QueuedIsHeardIff` says exactly when.
- *The capped mailbox's Close is not atomic.* Between calls the count is wrong iff the mailbox is closed and a
  message stored after the first half of the last Close has not been read since
  (`ResumeMailbox.QuietCountIsWrongIff`, and `ResumeMailbox.CloseRaceLeaks` for how that comes about). No caller in
  the repository closes this mailbox: ResumeStep appends, the runner reads and marks. So today its count is
  always exact between calls (`ResumeMailbox.CapHolds`).
- *What the iterations of a forEach record can depend on the schedule*, exactly when one item's failure can cancel
  another item with a different outcome: `ForEach.FailureRaces`. Whether the step fails never does.
- *A flush reorders the two kinds.* Events go out before outputs: `BufferedSink.FlushKeepsOrderIff`.
- *Array schemas with "required" or "properties" skip their items*: `SubmitResult.ShapedArraySkipsItems`. For which
  schemas the validator nevertheless accepts exactly the right values is decided by reading the schema:
  `SubmitResult.FaithfulIff`, and `SubmitResult.RootFaithfulIff` for the whole call.
- *Truncation exceeds the limit when the limit is shorter than the marker*: `Prompt.TruncateForContext`.

Where the code and its comments disagree the model follows the code.

## Model

| member | source | states |
|---|---|---|
| Graph.StuckSetHasCycle | internal/exec/scheduler.go:41-57 | If every member of a set of steps depends on another member, a dependency cycle runs through the set |
| Graph.OrderedIsAcyclic | internal/exec/scheduler.go:3-5 | A graph that has a topological order has no cycle |
| Scheduler.TopoSort | internal/exec/scheduler.go:5-59 | Returns an order iff the dependencies are closed and acyclic; the order has every step once and dependencies first, begins with the steps without dependencies as declared, and goes level by level; otherwise the steps on a cycle, below one, or below a step with an undeclared dependency are reported, in declaration order, and for closed dependencies a real cycle runs through them |
| Scheduler.BuildIndex | internal/exec/scheduler.go:6-17 | In-degrees count dependency occurrences, the adjacency lists invert the dependency lists with multiplicity |
| Validation.ValidateWorkflow | internal/exec/parse.go:234-243 | The structural checks accept exactly the non-empty workflows with well-formed unique ids and closed, acyclic dependencies, and otherwise name the first fault |
| Validation.ValidateInnerSteps | internal/exec/parse.go:636-697 | The same for a loop's inner steps, of which there may be none and of whose missing references only the first is reported |
| Validation.CheckIds | internal/exec/parse.go:277-290 | Stops at the first step whose id is empty, malformed or a duplicate, with that fault |
| Validation.PatternMeans | internal/exec/parse.go:19 | A well-formed id is a letter followed by letters, digits, underscores and hyphens, in ASCII |
| Validation.FindMissing | internal/exec/parse.go:474-485 | Lists every dangling dependency, in order |
| Validation.NothingMissingIffClosed | internal/exec/parse.go:474-485 | That list is empty iff every dependency is declared |
| Executor.ValidatedPlan | internal/exec/executor.go:374-378 | Unique ids, closed dependencies and a topological order, which validation establishes, are what the run engine relies on, whatever the options |
| Schedule.MarkDependents | internal/exec/executor_schedule.go:10-18 | Terminates on every graph, and from a set closed under dependents marks exactly the old members and all transitive dependents, although it stops at marked steps |
| Schedule.TraversalIsExact | internal/exec/executor_schedule.go:11-18 | Why stopping there is enough: covering the newly marked steps covers every descendant |
| Schedule.ScheduleRoundRobin | internal/exec/executor_schedule.go:38-67 | A permutation that keeps each agent's order, in which agent counts of every prefix differ by at most one unless an agent is exhausted, round by round in the order of first appearance |
| Schedule.GroupByAgent | internal/exec/executor_schedule.go:45-53 | Buckets are the agents' steps in order, agents are listed by first appearance |
| Schedule.ScheduleLeastBusy | internal/exec/executor_schedule.go:69-91 | A permutation sorted by the number of running steps of the agent, stable within equal loads |
| Schedule.BusyCounts | internal/exec/executor_schedule.go:75-83 | Where that number counts the declared steps of that agent that are running |
| Schedule.CountLoad | internal/exec/executor_schedule.go:75-83 | The load of an agent is the number of its running steps |
| Schedule.InsertIsStable | internal/exec/executor_schedule.go:84-89 | Inserting behind everything not busier keeps the order of equally loaded steps |
| Schedule.ScheduleOrder | internal/exec/executor_schedule.go:20-36 | The order is that of the configured strategy: declaration order, rounds over the agents, or by the agents' load; always a permutation of the ready steps |
| RunCore.SettleDegrees | internal/exec/executor.go:1140-1143 | Settling a step keeps each in-degree equal to the number of unsettled dependency occurrences |
| RunCore.MarksGrow | internal/exec/executor.go:1128-1138 | Marking the descendants of a failed step keeps the marks closed under dependents |
| RunCore.PropagatedInv | internal/exec/executor.go:902-941 | Propagating a failure to a marked, ready step keeps in-degrees, marks and token total right |
| RunCore.FinishedInv | internal/exec/executor.go:1123-1143 | So does finishing a step, whatever its result and the failure strategy |
| RunCore.CancelledInv | internal/exec/executor.go:1063-1073 | Giving up a slot after an abort keeps the in-degree inequality, though it decrements nothing |
| RunCore.InitialInv | internal/exec/executor.go:453-470 | In-degrees are right after results of an earlier run are taken over |
| RunCore.ReadyHasDeps | internal/exec/executor.go:947-958 | A ready step has all its dependencies settled |
| RunCore.FinalIsTotal | internal/exec/executor.go:1371-1393 | The final snapshot has a settled result for every step and keeps every settled one; its results' tokens add up to the total |
| RunSystem.InitialHolds | internal/exec/executor.go:446-470 | The engine's invariant holds at the start |
| RunSystem.StepKeeps | internal/exec/executor.go:898-1323 | Every step of every goroutine keeps the invariant, drops no entry and changes no settled result |
| RunSystem.SignalNeverLost | internal/exec/executor.go:1180-1186 | The completion channel has room whenever a step signals, so the non-blocking send never drops one |
| RunTheorems.StartsAfterDependencies | internal/exec/executor.go:1040-1056 | In every reachable state a started step has all its dependencies settled and was handed exactly their results; in-degrees count open occurrences (at least, after an abort); running steps hold one of the slots |
| RunTheorems.StartsAtMostOnce | internal/exec/executor.go:954-957 | No run starts a step twice |
| RunTheorems.TotalStableOutcome | internal/exec/executor.go:1368-1402 | Once Run has returned, every step has a result, the token total is the sum over the reported results, and orphaned goroutines cannot change the answer |
| RunTheorems.SnapshotFaithful | internal/exec/executor.go:1371-1392 | The answer reports every settled result as it is and every other step as cancelled |
| RunTheorems.GoroutineMoves | internal/exec/executor.go:1057-1227 | A live goroutine means that some goroutine can take a step |
| RunTheorems.NeverStuckWaiting | internal/exec/executor.go:1299-1323 | While the main loop waits with steps remaining and no abort, a step is in flight or a completion signal is pending |
| RunTheorems.Progress | internal/exec/executor.go:1299-1344 | Until Run has returned, some step other than an outside cancellation is possible |
| RunTheorems.MeasureDrops | internal/exec/executor.go:898-1323 | Every step decreases a measure |
| RunTheorems.EveryRunReturns | internal/exec/executor.go:1247-1344 | A run of n steps makes at most 9n + 7 moves and can only end by returning |
| RunOutcomes.EachResultHasItsCause | internal/exec/executor.go:902-1143 | In every run, aborted ones included: a resumed step keeps its result; any other step is settled iff exactly one action settled it, and has that action's result: its own, failed or skipped by its condition, cancelled while it waited for a slot, or cancelled or skipped (by the strategy) below a failure |
| RunOutcomes.AnswerTells | internal/exec/executor.go:1368-1402 | The answer is what the actions up to the snapshot say, and cancelled for a step that nothing had settled |
| RunOutcomes.StatusesAreEarned | internal/exec/executor.go:1057-1143 | A step reported completed finished with that very result; one reported failed finished so or has a broken condition; one with neither is cancelled or skipped, and cancelled if it gave up waiting |
| RunOutcomes.MarkedIffFailedAbove | internal/exec/executor.go:902-1138 | Unless failures abort, in every run a step is marked iff it lies below a step that failed or whose condition did |
| RunOutcomes.AbortedIff | internal/exec/executor.go:1123-1138 | A run is aborted iff it was cancelled from outside or a failure came under the abort strategy |
| RunOutcomes.AbortStartsNothing | internal/exec/executor.go:1299-1344 | After an abort, outside a dispatch, no step is ever started |
| RunOutcomes.WaiterGivesUp | internal/exec/executor.go:1060-1073 | After an abort a step that waits for a slot can give up at once |
| RunOutcomes.GraceEnds | internal/exec/executor.go:1258-1286 | An abort drain, or a success drain whose context is done, can be cut short whatever the goroutines do |
| RunOutcomes.CutShortNeedsReason | internal/exec/executor.go:1258-1344 | In every run the drain is cut short only after a cancellation or a failure under the abort strategy; otherwise the answer waits for all goroutines |
| Evaluator.BlockedIffFailureAbove | internal/exec/executor.go:902-941 | In the evaluator a step is blocked iff some transitive dependency, along steps that are not resumed, failed |
| Evaluator.EvalIsIntrinsic | internal/exec/executor.go:434-444 | The evaluator's answer, its conditions included, depends on the dependencies, the strategy and the passed-down results only, not on order or slots |
| Determinism.ScheduleIndependence | internal/exec/executor.go:898-1143 | Every uncancelled run returns the evaluator's result for every step, under every interleaving, launch order and number of slots, if the resumed set is safe and the conditions that are asked read dependency results, are not broken, and skip no step that a blocked step depends on |
| Determinism.ConditionFreeIsTame | internal/exec/executor.go:968-970 | Workflows without conditions meet that |
| Determinism.FailureFreeIsTame | internal/exec/executor.go:968-1036 | So do workflows in which no step fails and the conditions read dependency results and are not broken |
| Determinism.SameAnswer | internal/exec/executor.go:898-1143 | Two such runs of one workflow, with different slot counts or declaration orders, return the same results |
| Determinism.ClosedResumeIsSafe | internal/exec/executor.go:459-470 | Resuming a set of steps closed under dependencies meets the condition of schedule independence |
| Divergence.DeterministicIffSafe | internal/exec/executor.go:459-470 | The condition on resumed results is exact: without an abort strategy all runs agree for every step outcome and all such conditions iff the resumed set is safe |
| Divergence.UnsafeResumeDiverges | internal/exec/executor.go:459-470 | From every unsafe resume set there are two complete runs of one condition-free world with different answers |
| Conditions.NoMarkedStart | internal/exec/executor.go:943-958 | A run in which no condition settles a step never starts a marked one |
| Conditions.MarkedStartIff | internal/exec/executor.go:970-1036 | After a condition settles d, a step is startable although marked iff every dependency it still waited for was d, and it was marked before or the condition was broken above it |
| Conditions.ReadyMarkedIff | internal/exec/executor.go:998-1020 | A step that was ready before, in a launch that began clean, slips through iff it lies below d without depending on d itself, the condition is broken and failures do not abort |
| Conditions.BrokenConditionNeverCascades | internal/exec/executor.go:943-1036 | In every run, fresh or resumed: if d is ready from the start with a broken condition and t below it waits for nothing but d, then t has been started once d is settled and that launch is over, although d failed and t is marked |
| Conditions.BrokenConditionDoesNotCascade | internal/exec/executor.go:998-1020 | Every workflow with such steps has a run in which t is running although it is marked and d has failed |
| BrokenConditions.StartedIffSlips | internal/exec/executor.go:943-1041 | When d alone has a condition, it is broken and nothing else fails, some run starts its direct dependent t, marked as it is, iff some dependency of d can be held back until everything else that t waits for is settled, or both wait for resumed steps only (and t for d) |
| BrokenConditions.RunThatStarts | internal/exec/executor.go:943-1041 | That run, for every such workflow and resume set: d has failed, t is marked and running |
| BrokenConditions.NoRunStarts | internal/exec/executor.go:943-1041 | In every other workflow no run ever starts t |
| Executor.MaxConcurrency | internal/exec/executor.go:434-441 | Workflow option before executor option before the default of five; always at least one slot |
| Executor.RunState.constructor | internal/exec/executor.go:424-470 | Indexing and taking over earlier results gives the initial state of the transition system; results of undeclared steps stay as stray entries and only add their tokens |
| Executor.TakeOver | internal/exec/executor.go:459-470 | For any earlier results and in any iteration order, the in-degrees end as the number of occurrences outside the resumed set, and the tokens as the sum |
| Executor.RunState.FinishStep | internal/exec/executor.go:1123-1143 | The critical section of a finished step is the transition, and keeps the invariant |
| Executor.RunState.CancelWaitingStep | internal/exec/executor.go:1063-1067 | So is the one of a step that gives up waiting; what it reports is in RunOutcomes.StatusesAreEarned |
| Executor.RunState.PropagateFailures | internal/exec/executor.go:902-941 | The propagation loop is a run of propagation steps, terminates, and leaves no marked step ready |
| Executor.RunState.CaptureInputs | internal/exec/executor.go:1043-1056 | The inputs are the settled dependency results, or the passed-down results for a step without dependencies |
| Executor.RunState.LaunchOne | internal/exec/executor.go:968-1056 | A ready step is skipped, failed or started as its condition says |
| Executor.RunState.Dispatch | internal/exec/executor.go:898-1233 | The whole dispatch is a run of the transition system: it propagates failures, then launches in rounds, each handling everything that is ready in the order of the scheduling strategy, and leaves nothing ready; it launches exactly the steps that run starts, with their inputs; after an abort it does nothing |
| Executor.OthersStayReady | internal/exec/executor.go:967-1041 | Handling one step of a launch round leaves the rest of the round ready |
| Executor.RunState.CountRemaining | internal/exec/executor.go:1235-1245 | Zero iff every step is settled |
| Executor.RunState.Snapshot | internal/exec/executor.go:1371-1395 | The returned results are total and their tokens are the returned total |
| Executor.DeriveStatus | internal/exec/executor.go:1404-1426 | Completed iff nothing failed or was cancelled, partial iff something did and something completed |
| Mailbox.Store.Append | internal/router/mailbox.go:132-143 | Fresh increasing ids at the tail; a closed mailbox drops silently |
| Mailbox.Store.MarkRead | internal/router/mailbox.go:164-225 | Removes exactly the given ids that were not marked before, keeps the order of the rest, remembers them, and reports those marked before, whether or not the ids have been issued; while only issued ids are marked, everything given is removed |
| Mailbox.Store.Close | internal/router/mailbox.go:234-245 | Drops what is pending for good |
| Mailbox.RemainingSuffix | internal/router/mailbox.go:164-225 | Reading the ids of a prefix leaves the rest of the queue |
| WakeLoop.WarnAt | internal/exec/agent_runner.go:1000-1003 | The warning comes from 80 percent of the cap, rounded down, but not before the first cycle and not after the last |
| WakeLoop.DrainProjections | internal/exec/agent_runner.go:1537-1565 | A drain books a prefix of the queue: the messages before the first cancel marker as turns, then the marker |
| WakeLoop.DrainShows | internal/exec/agent_runner.go:1206-1210 | After a drain without a marker the conversation shows every message taken so far, in order |
| WakeLoop.SentIff | internal/exec/agent_runner.go:1422-1440 | A drained message is in the latest call's messages iff it comes before the unsent ones, and all are iff there is none |
| WakeLoop.AccountedMove | internal/exec/agent_runner.go:1360-1384 | Giving the next queued messages a fate keeps every arrival accounted for exactly once, in order, with its event |
| AgentRunner.AnnouncedButUnsent | internal/exec/agent_runner.go:646-653 | Whatever was waiting: if it holds a cancel message, each message in front of it is announced as drained and Run ends without a model call |
| WakeLoop.ResponsesRepeat | internal/exec/agent_runner.go:1206-1209 | In the conversation a response occurs once and once more for every later wake; exactly once iff there was none |
| WakeLoop.ConversationGrows | internal/exec/agent_runner.go:1146-1153 | A wake and a further response only append to the conversation |
| AgentRunner.Session.DrainMailboxIntoMessages | internal/exec/agent_runner.go:1537-1565 | Everything before the first cancel message becomes a turn with an event, the marker is consumed, the rest stays; nothing happens without a step id |
| AgentRunner.Session.EmitResidualDrops | internal/exec/agent_runner.go:1360-1384 | With a sink every unread message is dropped with an event and the given reason; without one nothing happens |
| AgentRunner.Session.FlushTranscript | internal/exec/agent_runner.go:680-767 | After any mix of successes, transient failures and a size seal the store holds exactly the first persistedCount messages of the latest snapshot, all of them unless the latest append failed, and is sealed iff that was too large; nothing is written after a seal; a transient failure is reported once and retried |
| AgentRunner.Session.CallModel | internal/exec/agent_runner.go:1041-1105 | A call appends its arrivals to the mailbox and nothing else reaches it |
| AgentRunner.Session.Absorb | internal/exec/agent_runner.go:1140-1153 | A result is folded in with its tokens, and the snapshot is messages plus all responses |
| AgentRunner.Session.ReEnter | internal/exec/agent_runner.go:1206-1250 | The next call's messages are the whole conversation and the drained mailbox; a cancel marker or an empty drain ends the loop |
| AgentRunner.Session.WakeLoop | internal/exec/agent_runner.go:1013-1251 | However the loop is left, at most the capped number of calls was made, every message is accounted for, and the way out has its reason |
| AgentRunner.Session.DropAfterLoop | internal/exec/agent_runner.go:1253-1281 | With a sink the mailbox is empty afterwards; every drop gives the reason of the way out |
| AgentRunner.Session.Conclude | internal/exec/agent_runner.go:1283-1342 | The retry is made iff a result is wanted, was not submitted and the context lives, wherever the cancellation falls; the outcome reports every token spent |
| AgentRunner.Session.Run | internal/exec/agent_runner.go:614-1342 | The conversation opens with the given history, the prompt, the waiting messages and the first context snapshot, is in every call's messages, and goes on with exactly the calls' responses, the drained messages and the snapshots. Zero silent drops: each message that reached the mailbox has exactly one fate, in arrival order, announced to the sink; the mailbox ends empty but for what came with the retry; each drop gives the one reason that the way out has (cap, cancellation, finished); the drained messages that no call showed are exactly those of the latest drain if it met a cancel marker or the context check stopped the loop behind it, and none otherwise; calls stay within the cap; the transcript holds the conversation unless sealed or the last append failed |
| ResumeMailbox.CapMailbox.Append | internal/exec/executor_resume.go:103-115 | Full iff the unread count has reached a positive cap; a rejected or dropped message changes nothing; else the message goes to the tail |
| ResumeMailbox.CapMailbox.MarkRead | internal/exec/executor_resume.go:126-136 | Takes the ids out of the count and the store; the count stays exactly the unread ids iff none of the queued ones among them was marked before it arrived, as when only issued ids are marked |
| ResumeMailbox.CapHolds | internal/exec/executor_resume.go:103-136 | In every interleaving without Close the count is exact between calls, and the store exceeds the cap by at most the removals under way |
| ResumeMailbox.CapNeverExceeded | internal/exec/executor_resume.go:103-144 | In every interleaving the count stays within a positive cap |
| ResumeMailbox.QuietCountIsWrongIff | internal/exec/executor_resume.go:103-144 | In every interleaving, between calls: the count differs from the store iff the mailbox is closed and a message stored after the first half of the last Close has not been read since |
| ResumeMailbox.CloseRaceLeaks | internal/exec/executor_resume.go:139-144 | The shortest run to a wrong count, under every cap and from every counted state between calls: a push between the two halves of Close leaves a count of one for an empty, closed store |
| Resume.ResumeState.TryClaim | internal/exec/executor_resume.go:328-437 | Claims a free step with all four fields, or reads a complete publication and changes nothing |
| Resume.ResumeState.Release | internal/exec/executor_resume.go:508-516 | Clears all four fields together |
| Resume.ResumeStates.Get | internal/exec/executor_resume.go:199-208 | One state per step for all callers |
| Resume.SingleFlight | internal/exec/executor_resume.go:328-437 | In every interleaving at most one caller owns the step; running, mailbox, wake channel and id are set together, exactly while there is an owner; at most one goroutine; mailboxes stay within the cap |
| Resume.QueuedCallersSeeAnId | internal/exec/executor_resume.go:329-336 | Every queued caller sees the non-empty id, the mailbox and the wake channel of one owner |
| Resume.OwnerReleases | internal/exec/executor_resume.go:508-607 | From every reachable state an owner can free the step in at most five of its own moves |
| Resume.FollowOwner | internal/exec/executor_resume.go:508-718 | So it can after each of its next moves: load error, the three model mismatches, giving up, returning, panicking |
| Resume.EnterClaimsIff | internal/exec/executor_resume.go:328-437 | In every reachable state a call claims the step iff nobody owns it, and else queues |
| Resume.DecidedIff | internal/exec/executor_resume.go:439-607 | In every run: a resume is rejected for a load error, a missing resolver, a resolver error or a nil model iff its load or model check went that way; its runner never drained, finished or panicked iff it did so |
| Resume.ResumeGoesOn | internal/exec/executor_resume.go:441-674 | From every state in which the owner is loading, its own moves lead to its runner, with the model it had or a resolved one, and change nothing else |
| Resume.AppendDecides | internal/exec/executor_resume.go:345-392 | A queueing call's message goes to the tail of an owner's mailbox, or is rejected iff that is at its cap |
| Resume.QueuedIsHeardIff | internal/exec/executor_resume.go:707-733 | In every run a queued message is heard iff the runner it was queued on drains its mailbox after the append, or returns after it with a sink; otherwise it stays in that mailbox. With a sink, once that runner is done and unless it panicked: iff it returned after getting as far as its first drain, and the message was appended before |
| Resume.AbandonedMessage | internal/exec/executor_resume.go:508-516 | A caller is told that its message is queued although the resume has already failed |
| ForEach.Limit | internal/exec/executor_loop.go:405-422 | All at once by default, never more than 100, never zero with items, otherwise as requested |
| ForEach.NeverTooMany | internal/exec/executor_loop.go:429-466 | In every interleaving at most that many iterations run at once |
| ForEach.ScheduleIndependence | internal/exec/executor_loop.go:433-506 | Without outside cancellation the step fails iff some item's own outcome is failed or cancelled, and otherwise every iteration has its own outcome |
| ForEach.FailureRaces | internal/exec/executor_loop.go:468-475 | Two complete uncancelled runs can record different results iff some item fails and some other item's own outcome is not a cancellation, for all outcomes and limits |
| ForEach.NothingStartsAfterFailure | internal/exec/executor_loop.go:462-469 | In every interleaving, once an error is collected, an iteration that has not started can only end cancelled |
| ForEach.OneErrorEach | internal/exec/executor_loop.go:433-506 | In every interleaving one error is collected for each iteration that ended failed, panics included |
| ForEach.CancelledWaiterLeaves | internal/exec/executor_loop.go:454-459 | After a cancellation from outside every waiting iteration can leave at once, without a slot |
| ForEach.EveryRunEnds | internal/exec/executor_loop.go:433-507 | At most 4n + 1 steps, and until all iterations have ended one can move |
| ForEach.Aggregate | internal/exec/executor_loop.go:509-549 | Each result at its own index, the last completed content, the token sum, and failure iff any iteration failed or was cancelled |
| ForEach.AggregateOfOutcomes | internal/exec/executor_loop.go:429-549 | Over every complete uncancelled run: the aggregate fails iff some item's own outcome is bad, and otherwise its content is that of the last completed item and its tokens are the sum over the outcomes |
| BufferedSink.Dispatcher.Flush | sink/buffered.go:157-167 | Delivers what was taken since the last flush, events before outputs, and stops the timer |
| BufferedSink.Dispatcher.Receive | sink/buffered.go:202-215 | A lifecycle event comes out at once behind everything before it; anything else waits, with a timer running |
| BufferedSink.Dispatcher.Loop | sink/buffered.go:134-220 | After every signal exactly this has come out: a lifecycle event or the timer sends whatever was taken since the last flush, its events before its outputs, and then the lifecycle event; any other item waits. So events and outputs each come out complete and in order, no item crosses a lifecycle event, and nothing is left |
| BufferedSink.FlushKeepsOrderIff | sink/buffered.go:157-167 | A flush keeps the order of arrival iff no output came before an event |
| FactoryCache.Cache.For | internal/exec/factory_cache.go:80-131 | Returns the cached orchestrator while it is open; else drops a stale entry and builds one that is then cached, whatever other callers did during the build; a loser of that race is closed |
| FactoryCache.Cache.CloseAll | internal/exec/factory_cache.go:232-255 | Empties the cache and closes everything that was in it |
| FactoryCache.Cache.CloseSession | internal/exec/factory_cache.go:198-219 | Removes and closes one session's orchestrator only |
| FactoryCache.PeekSeesReturned | internal/exec/factory_cache.go:181-192 | In every interleaving, what Peek finds is open, was handed out by For for that session, and is no race loser |
| FactoryCache.OpenIsCachedOrClosing | internal/exec/factory_cache.go:80-255 | In every interleaving an open orchestrator that For returned is the cached one of its session or about to be closed |
| FactoryCache.OneOpenPerSession | internal/exec/factory_cache.go:80-131 | So no two are open for one session while no Close is in progress |
| FactoryCache.LosersAreClosed | internal/exec/factory_cache.go:122-128 | A race loser is closed and never returned, then or later |
| FactoryCache.HandsOutOpen | internal/exec/factory_cache.go:80-131 | In every interleaving For hands out an orchestrator of its session that is open at that moment |
| FactoryCache.ForFinishes | internal/exec/factory_cache.go:80-131 | From every reachable state a For can finish by at most four steps of its own; what it returns is open, and the cached one unless it was found at once |
| FactoryCache.CacheHit | internal/exec/factory_cache.go:88-93 | While a session's orchestrator is cached and open, a call returns it and builds nothing |
| FactoryCache.CacheMiss | internal/exec/factory_cache.go:104-131 | Without an entry a call builds an orchestrator, returns it and caches it |
| FactoryCache.StaleIsDropped | internal/exec/factory_cache.go:94-103 | A closed entry is dropped before the build, and replaced by what is built |
| FactoryCache.CloseTakes | internal/exec/factory_cache.go:198-255 | Close takes exactly its session out of the cache at once, CloseAll everything |
| FactoryCache.CloseFinishes | internal/exec/factory_cache.go:211-255 | And then closes exactly what it took, one by one |
| SubmitResult.NodeAcceptedIff | internal/exec/submit_result.go:77-203 | A value is accepted iff every part reachable through the schema meets its own type and required checks |
| SubmitResult.RejectedSpot | internal/exec/submit_result.go:77-203 | A rejected value has a reachable part that fails its own checks |
| SubmitResult.HandleAcceptsIff | internal/exec/submit_result.go:54-68 | The tool call terminates with the value iff the root has its required names and everything below is in order; the root's own type is not looked at |
| SubmitResult.TypesMean | internal/exec/submit_result.go:236-277 | What each type name admits; integers are whole floats up to two to the power 53; other names admit everything |
| SubmitResult.LocalOkMeans | internal/exec/submit_result.go:77-110 | The local checks in terms of the schema's JSON: the type, and the required names |
| SubmitResult.FollowMeans | internal/exec/submit_result.go:93-147 | Which parts are checked against which schemas, in terms of the JSON |
| SubmitResult.HandleParses | internal/exec/submit_result.go:54-68 | Arguments that are no object are rejected, null counts as the empty object, and without a schema any object is the result |
| SubmitResult.MeansTheSchema | internal/exec/submit_result.go:168-203 | Values in order are never rejected, and where no array schema with items has an object shape no others are accepted |
| SubmitResult.AcceptsAllIff | internal/exec/submit_result.go:77-203 | Whether a schema excludes nothing can be read off it |
| SubmitResult.FaithfulIff | internal/exec/submit_result.go:77-203 | The validator accepts exactly the values in order iff the schema is faithful, which can be read off it: every array in a place that a value can reach has no object shape or items that exclude nothing |
| SubmitResult.RootFaithfulIff | internal/exec/submit_result.go:54-68 | The same for the whole tool call, where the root's own type is not looked at |
| SubmitResult.ShapedArraySkipsItems | internal/exec/submit_result.go:112-147 | An array schema with an object shape and items accepts exactly the values in order iff its items schema excludes nothing |
| Prompt.TruncateForContext | internal/exec/prompt.go:52-68 | Unchanged within the limit; else the longest valid UTF-8 prefix that fits in front of the marker, and the marker: within the limit and at most three bytes short of it, or the bare marker when the limit is shorter |
| Prompt.CutIsValidIff | internal/exec/prompt.go:61-66 | Cutting valid UTF-8 leaves valid UTF-8 iff the next byte is no continuation byte |
| Prompt.TailsAreShort | internal/exec/prompt.go:61-66 | Valid UTF-8 has at most three continuation bytes in a row |
| Prompt.MarkerSpells | internal/exec/prompt.go:40-43 | The marker's text |

## Left out

- Determinism.ScheduleIndependence: uncancelled runs without an abort only. A condition reads every settled result (executor.go:971); one that looks beyond its step's dependencies can see different results under different schedules, and a broken one lets steps slip. Runs of such workflows are covered by all theorems but this one.
- BrokenConditions.StartedIffSlips: one broken condition and a direct dependent; further conditions and failures give marks more ways to come late.
- Schedule.ScheduleLeastBusy: the library's stable sort is modelled as insertion; only that it sorts stably is used.
- RunTheorems.TotalStableOutcome: like every result about runs, for resumed results of declared steps; stray entries of other steps are taken over by the constructor (they count in no in-degree) but not followed further.
- Validation.ValidateWorkflow: agent, loop, include, tool, option and range checks are not modelled; they can only reject more.
- Validation.ValidateInnerSteps: nested loops, agents and includes of inner steps are not modelled; a fault of theirs can be reported in place of a later one.
- ResumeMailbox.CapHolds: like the other results about concurrent callers, for reads of issued ids, which is all the runner marks.
- AgentRunner.Session.Run: messages arrive only during model calls; one that arrives between the last check and the drain can be drained without a further call. Prompts, tools, streaming, permissions, reasoning output, the validation of tool names and the test-only gate before the first drain are not modelled, and the result text is part of the responses.
- Resume.QueuedIsHeardIff: each drain is one step, and so are a runner's last drops and its return; a panic comes before or after such a step.
- FactoryCache.Cache.For: the build timeout is not modelled; an orchestrator that is built too late is discarded unclosed.
- BufferedSink.Dispatcher.Loop: what is enqueued past Close and the drain behind it can be lost, and blocking on a full channel is not modelled.
- SubmitResult.Handle: which of several errors is reported is random in the source; only the verdict is modelled. Numbers are real, infinite or not a number.
- ForEach.ScheduleIndependence: cancellation from outside is a step of the system, but the theorem is about runs without it; inner workflows are their outcome.
- Goroutine timing, timeouts and timers are nondeterministic steps; the two-second grace of an abort is a drain that may time out at any point.
- Token totals across retries of a loop step: each attempt overwrites the last result, so only the run-level sum is proved.
- Condition evaluation, model calls, tool execution, transcript and run storage, file access, tracing and the coordinator's own messages: foreign code or input and output, present as arbitrary outcomes if at all.
- The router, step termination, the command line, other sinks, the progress pump, permission policy, redaction, environment expansion and skills.
