# Seshat: a verified model of the agent runtime

This project models the path of Seshat, an agent runtime, from a model response to tool execution and back into the
transcript, and proves what that path keeps. The parts, from the inside out:

- **Streaming tool executor.** A worker pool with a queue, a running set, a wait group and an abort flag.
  `StreamingExecutor` has one method per critical section; `ExecutorRuns` is the transition system of all threads
  over those sections, `ExecutorEndings` says which outcome every tool use gets and in which order they start, and
  `ExecutorTheorems` what else holds after every interleaving.
- **Orchestrator.** Tool uses are prepared, partitioned into concurrent and serial batches, run, and put back in
  index order (`Orchestration`). Tools work on an external state (files, processes, the session), and a schedule
  gives the order of the goroutines of every batch. `OrchestrationAnswers` tells an execution from the registered
  tools alone, `OrchestrationTheorems` relates it to one-at-a-time execution; `Walks` holds the argument about steps
  that can change places.
- **Streaming merge.** Tools may start while the response is still streaming (`StreamingCoordinator`); their results
  are merged with those of the remaining tool uses (`StreamingMerge`, `StreamingTheorems`). `StreamedAnswers`
  follows a stream of chunks through any interleaving of the pool into the transcript of any response, and says
  exactly when that is answered; `StreamingRefinement` says when streaming changes nothing.
- **Query loop.** `Transcript` defines pairing of tool uses and tool results, `TokenBudget` the budget arithmetic,
  `QueryLoop` the state machine with its recovery counters. `QueryLoopHistory` tells every run from its transitions
  alone, `QueryLoopTheorems` holds the other whole-run theorems, and `QueryLoopTightness` shows when the iteration
  bound is reached. `FallbackChain` is the chain of fallback models and providers behind one model call.
- **Permission pipeline.** `Permissions` decides whether and with which input a tool is called; `PermissionAnswers`
  says what a refusal says, and `PermissionTheorems` what the denial counters, which the pipeline and auto mode's
  classifier share, do.
- **Grid search** (`Grids`, `BreadthFirst`, `AStar`, `AStarOptimality`, `AStarDetour`), the **async agent manager**
  (`AsyncAgents`, `AsyncStories`) and the **hook registry** (`HookRegistry`, over `StableSort`).
- `Collections` and `Messages` hold the shared vocabulary.

Code that updates fields is a class here, with one method per operation, proved against a function of the old state;
the theorems are about that function. Concurrency is a transition system whose steps are the critical sections.
Whatever comes from outside (model replies, tool and hook outcomes, clocks, cancellation, JSON decoding,
credentials) is a parameter, so every theorem is for all of its values. To check the whole project, run `dafny
verify dfyconfig.toml`.

Where the code and its own documentation or tests disagree, the model follows the code:

- `internal/execution/streaming_executor.go:238-242` promises one outcome per submitted tool after `Discard`; a
  submission between its two critical sections gets none (`ExecutorTheorems.LateSubmissionIsLost`, with the exact
  condition in `DiscardAnswersAllIff`).
- With `maxWorkers <= 0`, `Wait` returns while work is queued (`ExecutorTheorems.NoWorkersStall`, with the exact
  condition in `WaitIsSafeIffSomeWorker`).
- The coordinator and the response accumulator disagree on a tool block that starts with a non-empty input and
  receives a blank JSON fragment (`StreamingCoordinator.EmptyFragmentErasesInput`, with the exact condition for each
  stream in `SubmitsTheResponseIff`).
- A response is meant to be answered by one tool result per tool use. The OpenAI, Gemini and Ollama clients announce
  every tool call of a stream, close the message once, and list all of them in the response; the coordinator throws
  away a tool block when the next one starts, so that the last call is submitted under ordinal 0 and, in a response
  with several calls, the first one is never answered and the last one twice
  (`StreamedAnswers.OverlapAnswersSecondTwice`, with the exact conditions in `StreamedAnswers.PoolAnswersListIff`,
  `StreamingCoordinator.ClosedAtOnceIff` and `QueryLoopTheorems.TranscriptsStayPairedIff`).
- Tools that are started while the response streams run ahead of the tool uses in front of them: a streamed read
  misses the write before it (`StreamingRefinement.StreamedReadMissesWrite`; `UndisturbedRefines` has the condition
  on a response, `StreamingRefinesIffUndisturbed` the exact one on a set of tools).
- `internal/types/denial.go:72-74` describes a reset of the consecutive denials after a time without one; the
  pipeline records a denial before it consults the limit, so a quiet period never resets them
  (`PermissionTheorems.QuietPeriodDoesNotReset`, with the exact condition in `KeepsPromiseIffNoGap`).
- `internal/types/denial.go:15-19` describes the counters as refusals in a row and in all; a denial by auto mode's
  classifier is counted by the classifier and by the pipeline (`PermissionTheorems.OneRefusalCountsTwice`, with the
  exact condition in `TotalCountsRefusalsIff`), and at the classifier's total limit the row starts anew, so that the
  pipeline's own limit may never be reached (`PermissionTheorems.SixBlocksStayPlain`, with the exact condition in
  `AlwaysEscalatesIff`).
- `examples/pathfinding_demo/test_pathfinding.py:200-207` calls the A* result optimal; it is not in general
  (`AStarDetour.AStarTakesADetour`), but it is on every grid that `AStarOptimality.Downhill` describes.

## Model

| member | source | states |
|---|---|---|
| `StreamingExecutor.StreamingExecutor.Enqueue` | internal/execution/streaming_executor.go:59-66 | SubmitToolUse's first critical section appends the chunk to the queue and changes nothing else |
| `StreamingExecutor.StreamingExecutor.Dispatch` | internal/execution/streaming_executor.go:89-109 | one run of dispatchLocked: nothing when aborted; otherwise the queue is drained in order while a worker is free, a chunk whose ID is running is dropped, and the wait group grows by the launched chunks, which are returned |
| `StreamingExecutor.DrainConserves` | internal/execution/streaming_executor.go:96-109 | draining loses and invents nothing: launched, dropped and remaining chunks are the old queue |
| `StreamingExecutor.DrainStartsFreshIds` | internal/execution/streaming_executor.go:96-109 | draining adds exactly the IDs of the launched chunks, which were not running and are distinct, and a dropped chunk's ID was running |
| `StreamingExecutor.DrainStopsFullOrEmpty` | internal/execution/streaming_executor.go:96-109 | draining keeps within the worker cap, and after it the queue is empty or the pool is full |
| `StreamingExecutor.StreamingExecutor.Record` | internal/execution/streaming_executor.go:111-171 | a worker appends its outcome, canceled or executed |
| `StreamingExecutor.StreamingExecutor.Delete` | internal/execution/streaming_executor.go:111-171 | a worker takes its ID out of running |
| `StreamingExecutor.StreamingExecutor.GetCompletedResults` | internal/execution/streaming_executor.go:173-182 | hands out the completed outcomes and empties the list |
| `StreamingExecutor.StreamingExecutor.BeginDiscard` | internal/execution/streaming_executor.go:243-252 | Discard raises the abort flag and takes the whole queue |
| `StreamingExecutor.StreamingExecutor.RecordHeld` | internal/execution/streaming_executor.go:253-270 | Discard records one canceled outcome per chunk it took |
| `ExecutorRuns.StepConserves` | internal/execution/streaming_executor.go:59-270 | every critical section of every thread keeps the submissions the disjoint union of queue, unanswered workers, outcomes, chunks held by Discard and dropped duplicates |
| `ExecutorRuns.StepKeepsRunningSet` | internal/execution/streaming_executor.go:96-171 | running stays exactly the set of IDs of the workers between launch and removal, which have distinct IDs |
| `ExecutorRuns.StepKeepsWakeups` | internal/execution/streaming_executor.go:89-120 | no lost wake-up: while not aborted, a waiting chunk means a full pool or a thread that still owes a dispatch |
| `ExecutorRuns.ReachableInv` | internal/execution/streaming_executor.go:59-270 | all invariants hold after every interleaving |
| `ExecutorEndings.EndingsAreWritten` | internal/execution/streaming_executor.go:111-171 | after every interleaving the outcomes, handed out or not, are in order exactly what the run's actions append: what a worker's own tool returned, or canceled exactly when that worker made its abort test after a Discard call had begun, and one cancellation per chunk that a Discard call held |
| `ExecutorEndings.UnabortedOutcomesAreReturned` | internal/execution/streaming_executor.go:122-171 | while no Discard call has begun, every outcome is what the tool of its own worker returned |
| `ExecutorEndings.StartsFollowSubmissions` | internal/execution/streaming_executor.go:59-109 | with distinct IDs tool uses are started in the order of their submission, none is passed over, and until a Discard call whatever was submitted was started or is queued, in this order |
| `ExecutorTheorems.SubmissionsAreConserved` | internal/execution/streaming_executor.go:59-171 | in every interleaving each submission is in exactly one place, running never exceeds the worker cap, and with distinct IDs nothing is dropped |
| `ExecutorTheorems.WaitLosesNothing` | internal/execution/streaming_executor.go:223-231 | with at least one worker, when wg.Wait returns after all submitters, without an abort, queue and running are empty, every submission has its outcome, and every outcome is what the tool of its own worker returned |
| `ExecutorTheorems.WaitIsSafeIffSomeWorker` | internal/execution/streaming_executor.go:220-231 | Wait keeps that promise in every interleaving exactly when maxWorkers >= 1 |
| `ExecutorTheorems.DiscardAnswersAllButLate` | internal/execution/streaming_executor.go:238-270 | after Discard returns, the only unanswered submissions are queued ones that were appended after the abort flag was raised |
| `ExecutorTheorems.DiscardAnswersEachOnce` | internal/execution/streaming_executor.go:238-270 | when no submission came after the abort, each one has exactly one outcome |
| `ExecutorTheorems.LateSubmissionIsLost` | internal/execution/streaming_executor.go:238-270 | the doc comment's promise of one entry per submitted tool fails: a run in which a submission between Discard's two critical sections never gets an outcome |
| `ExecutorTheorems.DiscardAnswersAllIff` | internal/execution/streaming_executor.go:238-270 | with distinct IDs, Discard keeps its promise of one outcome per submission exactly in the runs in which no submission comes after the last Discard call's first critical section |
| `ExecutorTheorems.NothingStartsAfterAbort` | internal/execution/streaming_executor.go:89-94 | whatever the threads do after the first Discard call has begun, no further worker is started, and the queue is exactly what was submitted since the last Discard call took it |
| `ExecutorTheorems.InternalRunsAreShort` | internal/execution/streaming_executor.go:111-171 | the threads already started take at most a bounded number of further steps |
| `ExecutorTheorems.StuckMeansFinished` | internal/execution/streaming_executor.go:59-270 | no deadlock: when no started thread can move, every submitter, worker and Discard call has finished and, without an abort, everything is answered |
| `Orchestration.Orchestrator.PartitionPreparedToolUses` | internal/execution/prepare.go:75-108 | the buffering loop computes the specified batches |
| `Orchestration.PartitionCharacterized` | internal/execution/prepare.go:75-108 | the result is the partition if and only if its members are the prepared list and it is greedy: concurrent batches non-empty, safe, without failures and within max(1, cap), serial batches singletons, and of two adjacent concurrent batches the first is full |
| `Orchestration.GreedyBatchingIsUnique` | internal/execution/prepare.go:75-108 | there is only one greedy batching of a list |
| `Orchestration.Orchestrator.ExecuteConcurrentBatch` | internal/execution/batch.go:11-46 | goroutines that run in any given order, each on the external state the ones before it left, leave outcome i in slot i, a panic becoming an error outcome |
| `Orchestration.Orchestrator.ExecuteSequentialBatch` | internal/execution/batch.go:48-64 | the serial batch threads context and external state through its tools |
| `Orchestration.Orchestrator.Execute` | internal/execution/orchestrator.go:99-182 | the batch loop, with its writes by index into results and messages, returns what the specification says, also when canceled between batches or when a serial tool's pipeline panics |
| `OrchestrationTheorems.BatchesKeepOrder` | internal/execution/orchestrator.go:115-182 | for every schedule the outcomes are those of the batches' tools in order, and the context is the left fold of the modifiers |
| `OrchestrationTheorems.ExecutionIsIndexOrdered` | internal/execution/orchestrator.go:119-182 | for every schedule, cap and tools: result i belongs to tool use i, the messages are the concatenation in index order, the final context is the fold of applyContextModifier over the results |
| `OrchestrationAnswers.EveryToolUseIsAnswered` | internal/execution/orchestrator.go:99-182 | for every schedule, cap and tools: each tool use has one turn, the turns follow one another on the external state, and each meets a context shaped by the modifiers of some of the results in front of its own; a registered, enabled tool that accepts the input is answered with what it returned there (a panic only where it may share a batch), any other tool use with an error of the stage disabled or execution that leaves the external state alone; errors, messages and final context follow from the answers |
| `OrchestrationAnswers.UncallableIsRefused` | internal/execution/prepare.go:34-62 | a tool use that is unknown, disabled or does not validate gets an error result without a modifier, and its stage is reported |
| `OrchestrationAnswers.ExecutionsEnd` | internal/execution/orchestrator.go:115-182 | an execution that ends was canceled after none of its batches, a canceled one after one of them, and only the panic of a callable tool that is not safe for concurrency takes the process down |
| `OrchestrationTheorems.ScheduleIsUnseen` | internal/execution/batch.go:11-46 | batchable tools that do not interfere give the same answers and the same external state under every permutation of their goroutines |
| `OrchestrationTheorems.BatchingRefinesIffIndependent` | internal/execution/orchestrator.go:115-182 | batched execution equals one-at-a-time execution (outcomes, context and external state), for every list, setting, cap and schedule, exactly when no batchable tool use sees another one's context modifier or external effects |
| `OrchestrationTheorems.AllIsOneByOne` | internal/execution/orchestrator.go:99-182 | enough for one list, whatever other tools there are: when no batchable tool use of the list sees the context modifier or the external effects of another one of the list, its uncanceled batched execution is the one-at-a-time execution, for every cap and schedule |
| `OrchestrationTheorems.UntouchingMeansIndependent` | internal/execution/context.go:59-64 | in particular when batchable tools neither change the context nor the external state |
| `StreamingMerge.SplitToolMessageBatches` | internal/engine/streaming_tools.go:283-301 | the splitting loop computes the specified batches |
| `StreamingMerge.SplitInvertsFlattenIff` | internal/engine/streaming_tools.go:283-310 | splitting inverts concatenation exactly on lists of non-empty batches in which a tool_result message comes first or not at all, and first in all but the first batch |
| `StreamingMerge.FlattenOfSplit` | internal/engine/streaming_tools.go:283-301 | concatenation inverts splitting on every message list |
| `StreamingMerge.MergeToolExecutionResults` | internal/engine/streaming_tools.go:216-281 | for every set of streamed indexes: an index beyond the tool uses panics; otherwise slot i holds the streamed result or batch of i, or the remaining one at i's rank, in index order; the errors are the remaining ones and those of the streamed results in some order; the context is the remaining one, or the last streamed one when nothing remained |
| `StreamingTheorems.ExecuteToolsForResponse` | internal/engine/streaming_tools.go:177-214 | the three ways to answer a response, and the split into remaining tool uses and indexes, for streamed results under any indexes |
| `StreamingTheorems.RecordRebuildsBatch` | internal/execution/streaming_executor.go:111-171 | trimming the canonical messages off a one-tool execution and rebuilding them when merging gives the same message batch |
| `StreamingTheorems.MergeTells` | internal/engine/streaming_tools.go:216-281 | a merge takes every streamed slot from its streamed result, the other slots in order from the rest, reports the errors of both and no others, and has the context of the rest or, when everything was streamed, that of the last tool use |
| `StreamingTheorems.StreamedStepTells` | internal/engine/streaming_tools.go:177-281 | a tool step that ends, with tools that add only plain messages and something streamed, executes exactly the tool uses that were not streamed, in their order, and puts the streamed results and messages in between; each streamed result's tool_result says whether it is an error |
| `StreamingTheorems.ResponseBatches` | internal/engine/streaming_tools.go:177-281 | for tools and streamed results that add only plain messages: the messages of a tool step that ends are one answer batch per slot, in order, a streamed slot's for the tool use that was streamed, the others' for the tool uses of the response |
| `StreamingTheorems.ResponseAnswersIff` | internal/engine/streaming_tools.go:177-281 | so the tool step answers every tool use of the response once, in order, if and only if every streamed result is under the index of a tool use with its id |
| `StreamingRefinement.UndisturbedRefines` | internal/engine/streaming_tools.go:177-281 | for one response of tools that add only plain messages, when its batchable tool uses do not see each other's modifiers or effects: streaming some of its tool uses, in any order, gives the results, messages, final context and external state (or the crash) of executing everything after the response, if each streamed one keeps the context and changes places unnoticed with the ones in front of it |
| `StreamingRefinement.StreamingRefinesIffUndisturbed` | internal/engine/streaming_tools.go:177-281 | in a world of such tools that also do not interfere within batches, streaming any part of any response in any order changes nothing exactly when every tool use that may be streamed keeps the context and changes places with every other tool use unnoticed |
| `StreamingRefinement.StreamedReadMissesWrite` | internal/engine/streaming_tools.go:91-112 | why the condition is needed: on a response that writes a file and then reads it, the read is streamed ahead of the write and fails, where executing the response in order succeeds |
| `StreamingRefinement.StreamedReadBeforeWrite` | internal/engine/streaming_tools.go:91-112 | with the same two tools, a response that reads first and then writes is not changed by streaming the read |
| `StreamedAnswers.Complete` | internal/engine/streaming_tools.go:133-141 | the loop of complete() keeps the specified records |
| `StreamedAnswers.PoolKeepsSubmitted` | internal/engine/streaming_tools.go:123-141 | for every stream and after any interleaving of the worker pool (at least one worker, no abort, distinct submitted ids, nothing read before): complete() keeps exactly one record per submitted ordinal, and that is the record of an execution of the tool use submitted under it |
| `StreamedAnswers.PoolAnswersIff` | internal/engine/streaming_tools.go:123-281 | from any stream of chunks, through any interleaving of the pool (at least one worker, no abort, distinct submitted ids, nothing read before), to the transcript of any response, for tools that add only plain messages: a tool step that ends answers every tool use of the response once, in order, if and only if every submitted tool use has the id of the response's tool use at its ordinal |
| `StreamedAnswers.PoolAnswersEveryUse` | internal/providers/client.go:343-361 | under the hypotheses of PoolAnswersIff, a response that the accumulator built from the stream is always answered once per tool use, in order, whatever the stream |
| `StreamedAnswers.PoolAnswersListIff` | internal/providers/client_openai.go:381-504 | under the hypotheses of PoolAnswersIff, a response that lists the tool blocks of the stream in the order of their starts, with distinct ids, is so answered if and only if every streamable tool block that was closed was closed as the i-th when it had been started as the i-th |
| `StreamedAnswers.OverlapAnswersSecondTwice` | internal/providers/client_gemini.go:228-316 | two tool calls announced one after the other and closed together by the end of the message, the second streamable: the step ends if the second one's execution does, and then never answers the first call and answers the second twice |
| `StreamingCoordinator.StreamingToolCoordinator.StartBlock` | internal/engine/streaming_tools.go:56-65 | a new block replaces the current tool and empties the fragment buffer |
| `StreamingCoordinator.StreamingToolCoordinator.ApplyDelta` | internal/engine/streaming_tools.go:67-75 | a JSON fragment is appended and, when the fragments so far decode, becomes the input |
| `StreamingCoordinator.StreamingToolCoordinator.FinishCurrentTool` | internal/engine/streaming_tools.go:77-112 | a closed tool block takes the next ordinal and is submitted under it if it may be streamed |
| `StreamingCoordinator.StreamingToolCoordinator.ObserveAll` | internal/engine/streaming_tools.go:43-54 | a whole stream, chunk by chunk, leaves the specified state |
| `StreamingCoordinator.StreamsInLockstep` | internal/engine/streaming_tools.go:43-112 | over every stream, malformed, overlapping, unclosed or not, the coordinator and the response accumulator hold the same open and closed tool blocks, and differ only in their reading of blank text |
| `StreamingCoordinator.SubmitsTheResponseIff` | internal/engine/streaming_tools.go:77-112 | for every stream: the coordinator submits exactly the streamable tool uses that the accumulator extracts if and only if no closed block that may be streamed started with an input, was left blank by a fragment and never decoded after that |
| `StreamingCoordinator.SubmittedIsExtracted` | internal/engine/streaming_tools.go:77-112 | for every stream: what was submitted under ordinal i has the id of tool use i of the accumulator's response, and its input too unless blank text erased it |
| `StreamingCoordinator.OnlyReadersRunAhead` | internal/engine/streaming_tools.go:102-112 | for every stream: of the closed blocks exactly those are started early that have a name and an ID, name a registered tool, and carry an input that the tool declares safe for concurrency and read-only |
| `StreamingCoordinator.MatchesIffClosedInTurn` | internal/providers/client_gemini.go:228-316 | for every stream and every response that lists its tool blocks with distinct ids: every submission has the id at its ordinal if and only if the streamable blocks were closed in the order of their starts, none in front of them thrown away |
| `StreamingCoordinator.AllClosedInTurn` | internal/engine/streaming_tools.go:43-112 | the streamable blocks are closed in the order of their starts when every tool block of the stream was closed |
| `StreamingCoordinator.ClosedAtOnceIff` | internal/providers/client_gemini.go:228-316 | a stream that closes nothing before the end of the message closes its streamable blocks in the order of their starts exactly when it announces at most one tool call, none is open at the end, or the open one may not be streamed |
| `StreamingCoordinator.OverlapShiftsOrdinal` | internal/engine/streaming_tools.go:56-65 | why: of two tool blocks that start one after the other the first is thrown away, and the second is submitted under ordinal 0 |
| `StreamingCoordinator.FaithfulIffStartsEmpty` | internal/engine/streaming_tools.go:365-374 | the coordinator submits exactly the streamable tool uses that the accumulator extracts, for every stream over given start inputs, if and only if all start inputs are empty |
| `StreamingCoordinator.EmptyFragmentErasesInput` | internal/types/api.go:405-414 | why: a non-empty start input and one empty fragment give two different inputs, as the two JSON helpers treat blank text differently |
| `StreamingCoordinator.ClosedBlockInput` | internal/engine/streaming_tools.go:67-100 | a closed block whose fragments concatenate to a JSON object is submitted, if at all, with that object, however the fragments were cut |
| `StreamingCoordinator.ClosedTextBlock` | internal/types/api.go:309-340 | a closed text or thinking block enters the response with its start and the text of its own deltas, in order, whatever other deltas come in between |
| `Transcript.PairedIffNothingOwed` | internal/engine/loop.go:288-421 | one pass over a transcript decides pairing: after every assistant message and before the next, the answered ids are the asked ids, in order |
| `Transcript.TrimArtifacts` | internal/engine/loop.go:622-631 | the trimming loop |
| `Transcript.TrimmingOwesTheSame` | internal/engine/loop.go:615-651 | trimming cuts a maximal suffix of blank user messages, keeps one message, and leaves what is owed unchanged |
| `QueryLoop.Loop.TryRecovery` | internal/engine/loop.go:1290-1315 | recovery is granted exactly below both limits and without an interrupted wait, and counts one |
| `QueryLoop.Loop.MaybeContinueForBudget` | internal/engine/token_budget.go:46-78 | the early returns grant a continuation exactly under the specified condition and then record the delta and the total |
| `QueryLoop.Loop.HandleTerminalStop` | internal/engine/loop.go:1392-1418 | output-token recovery, then budget, then stop hooks |
| `QueryLoop.Loop.HandleNoToolUses` | internal/engine/loop.go:1420-1444 | nudge, then budget, then stop hooks |
| `QueryLoop.Loop.HandleToolUses` | internal/engine/loop.go:330-383 | the tool step: hook stop, tool error, or results appended and both counters reset |
| `QueryLoop.Loop.Iteration` | internal/engine/loop.go:252-444 | one iteration after the cancellation check |
| `QueryLoop.Loop.Run` | internal/engine/loop.go:223-469 | the whole loop, with the ways it can end |
| `QueryLoopHistory.RunIsItsHistory` | internal/engine/loop.go:223-469 | every run is told by its transitions: each one is the one due after those before it, by a table that reads counters off the history instead of the state; the transcript and the lists given to callModel are what the transitions say, and the last one says how the run ends and with which stop reason |
| `QueryLoopHistory.OnlyOneIsDue` | internal/engine/loop.go:252-444 | the table leaves no choice: after any history at most one transition is due |
| `QueryLoopHistory.FailedCalls` | internal/engine/loop.go:306-325 | in every run, an iteration whose model call failed goes on exactly when the failure is recoverable, the row of failures and cut-off replies is below both limits and the wait was not interrupted; it then adds one to the row; it adds nothing to the transcript, and the run ends there otherwise |
| `QueryLoopHistory.RunCollects` | internal/engine/loop.go:327-360 | a run ends with the tool uses that its replies asked for, but for those a hook stopped, and with the results of the tool steps that ended, both in order |
| `QueryLoopTheorems.TranscriptsStayPairedIff` | internal/engine/loop.go:245-421 | in every run from a paired transcript, with tools and stop hooks that add only plain messages: every message list given to callModel is paired, and the final one but for what its last message asks, if and only if in every tool step that ends each streamed result is under the index of a tool use of the reply with its id; then answers are missing at the end only after a hook stopped the tool step, the tool step failed, or a tool took the process down |
| `QueryLoopTheorems.PooledTranscriptsStayPaired` | internal/engine/loop.go:245-421 | from the streams, through the worker pools, to the transcripts of a whole run: when every reply has, at the ordinal of each submission from its stream, a tool use with the submission's id, every message list given to callModel is paired |
| `QueryLoopTheorems.IterationsAreBounded` | internal/engine/loop.go:312-421 | a run with t tool steps and h stop-hook continuations has at most t + h + (t+1)*R + t*N + (B if t > 0) + 1 iterations, R, N, B being the normalized limits, and never more than MaxIterations |
| `QueryLoopTightness.BoundIsReached` | internal/engine/loop.go:1392-1444 | the bound is exact: for all t and h, and any configuration with room in its budget if t > 0, some run reaches it, whose nudged and granted replies have text |
| `QueryLoopTightness.BoundIsReachedIffRoomy` | internal/engine/loop.go:1392-1444 | a run with t tool steps and h stop-hook continuations reaches the bound exactly when t = 0 or the budget leaves room for floor((B-1)/2)*T tokens below the completion threshold |
| `QueryLoopTheorems.RequestsAreBounded` | internal/engine/loop.go:245-290 | a run calls the model at most once per iteration and so sends at most MaxIterations times the requests that the widest routing configuration allows for one call |
| `QueryLoopTheorems.BudgetContinuationsArePaidFor` | internal/engine/token_budget.go:46-78 | in every run, after k >= 1 grants floor((k-1)/2)*T tokens were used at the last one, which was still below the completion threshold |
| `TokenBudget.GrantKeepsAccount` | internal/engine/token_budget.go:61-73 | the recorded deltas telescope, and from the third grant on no two consecutive ones are below the threshold |
| `TokenBudget.GrantsAreSpent` | internal/engine/token_budget.go:46-78 | floor((k-1)/2)*T <= the total at the last grant < c*budget |
| `FallbackChain.FallbackLoop.CallModel` | internal/engine/loop.go:746-858 | one model call sends the current model, then later fallback models, then providers, up to and including the first answer that is not a recoverable failure, and moves the route by the answer that succeeded |
| `FallbackChain.FallbackLoop.TryFallbackModel` | internal/engine/loop.go:797-858 | the fallback models above the index, then the providers, unless the breaker is unavailable or the error is not recoverable |
| `FallbackChain.FallbackLoop.TryFallbackProvider` | internal/engine/loop.go:959-971 | the fallback providers of the routing in effect, if there are any |
| `FallbackChain.FallbackLoop.TryProviders` | internal/engine/loop.go:971-1000 | the providers with a default model and a client, in order; success switches client and base model and resets the index |
| `FallbackChain.CallIsBounded` | internal/engine/loop.go:746-858 | one call sends between 1 and 1 + |FallbackModels| + |FallbackProviders| requests, only the last of them is decisive, and a recoverable failure is returned only after the whole chain |
| `FallbackChain.CallOnlyAdvances` | internal/engine/loop.go:822-838 | fallback models are tried only above the current index, which never decreases except by a provider switch |
| `FallbackChain.CallTries` | internal/engine/loop.go:797-858 | behind its first request a call tries only the fallback models above the index other than the one just tried, in order, and then the providers with a default model and a client, in order, none behind an open breaker; and all of them when every request fails recoverably |
| `FallbackChain.NextCallStarts` | internal/engine/loop.go:780-795 | from the log alone: after any calls, the next one starts with the model and the client of the last fallback that answered, and without one with the model asked for and the primary client |
| `FallbackChain.NextCallStartsWithLastAnswer` | internal/engine/loop.go:780-795 | when all calls ask for one model, the next one starts with the model and the client of the last request that was answered |
| `FallbackChain.RunIsBounded` | internal/engine/loop.go:746-858 | n calls send at most n times what the widest configuration allows |
| `FallbackChain.RunNeverGoesBack` | internal/engine/loop.go:822-838 | over a whole run, until a provider switch, a fallback model that once answered, or one before it, is never tried as a fallback again |
| `Permissions.PermissionPipeline.ApplyDenialTrackingFallback` | internal/execution/permissions.go:259-289 | a refusal is recorded; at the limit, in auto mode, a deny becomes an ask |
| `Permissions.PermissionPipeline.RunGlobalPermissionCheck` | internal/execution/permissions.go:209-257 | the resolver's answer, and what auto mode does to the shared denial state while giving it |
| `Permissions.PermissionPipeline.DenyByClassifier` | internal/permissions/auto/mode.go:345-370 | a denial by the classifier is recorded; at the classifier's limits the user is asked, and at the total limit the denial is recorded a second time in a row that starts anew; without a state of the session nothing is kept |
| `Permissions.PermissionPipeline.ResolveToolPermissions` | internal/execution/permissions.go:11-163 | the early returns give the specified decision and record a denial exactly for a refusal, on top of what the global check recorded |
| `Permissions.PermissionPipeline.ExecutePre` | internal/runtime/hooks/executor.go:16-55 | the pre-hooks run in order on the input their predecessors left, until one stops or the context is canceled |
| `Permissions.PermissionPipeline.ExecutePreparedToolPipeline` | internal/execution/pipeline.go:47-150 | the stages before the call, in order |
| `Permissions.CalledIff` | internal/execution/pipeline.go:75-150 | case split of the stages (1 of 4): the tool is called exactly when no pre-hook stopped, the safety check passed, the deny probe did not deny, the ask probe neither denied nor asked, the local check neither denied nor gave a binding ask, and the mode is bypass, the allow probe allowed, or the global check neither denied nor asked |
| `Permissions.BypassOverridesExactlyTheRest` | internal/types/permissions.go:519-542 | case split of the stages (2 of 4): bypass mode is stopped exactly by the whole-tool rules, the local results that the type declares immune to it, and the asks of a tool that needs its user |
| `Permissions.ImmuneAlwaysRefuses` | internal/types/permissions.go:519-542 | case split of the stages (3 of 4): a result declared immune refuses in every mode, whatever the rules say |
| `Permissions.CalledInput` | internal/execution/pipeline.go:80-142 | case split of the stages (4 of 4): which input the tool is called with, over all combinations of updates by hooks, local check, allow probe and global check |
| `Permissions.UntouchedInputIsTheValidatedOne` | internal/execution/pipeline.go:125-133 | when nothing updates the input, the tool gets its validated, not its backfilled, input |
| `PermissionAnswers.HooksRunInOrder` | internal/runtime/hooks/executor.go:16-55 | the pre-hooks run in order, each on the input that the ones before it left, exactly up to the first that stops or to the cancellation of the context; a hook that stops leaves the input it was given |
| `PermissionAnswers.RefusalSays` | internal/execution/permissions.go:11-163 | a refusal has the behavior, reason and input of the first raw answer that refuses; it becomes an ask that falls back to prompting exactly when, in auto mode, the pipeline's own limit is reached by it |
| `PermissionAnswers.ClassifierDenialAnswers` | internal/permissions/auto/fallback.go:103-163 | a denial by the classifier is a deny, unless its limit is reached and a user can be prompted, who then allows, denies, or is left to be asked |
| `PermissionAnswers.OnlyAutoModeCounts` | internal/execution/permissions.go:259-289 | outside auto mode neither classifier, prompts, limits nor denial state change how a tool use ends |
| `PermissionAnswers.GrantsCarry` | internal/execution/permissions.go:11-163 | a granted tool use carries a local and a global permission that do not refuse, with their reasons |
| `PermissionTheorems.OwnLimitNeverDecides` | internal/execution/permissions.go:259-289 | the pipeline's own denial limit never turns a refusal into a call or a call into a refusal, whatever its limits and clocks, and a refusal stays a deny or an ask |
| `PermissionTheorems.DenialsNeverDecideIff` | internal/permissions/auto/mode.go:345-370 | the denial state decides over a call exactly when the classifier denies the tool use and a user who is asked would approve it |
| `PermissionTheorems.AtTheLimitTheUserDecides` | internal/permissions/auto/fallback.go:103-163 | such a tool use: called after two denials in a row, refused with fresh counters |
| `PermissionTheorems.TotalCounts` | internal/types/denial.go:28-46 | over any run, the total grows by one per refusal, one per denial by the classifier, and one more for each of those recorded again at the total limit; the consecutive count never exceeds the total |
| `PermissionTheorems.ConsecutiveIsRow` | internal/types/denial.go:28-47 | over any run of tool uses, the consecutive count is the number of refusals since the last call that bypass mode, the want of a resolver, the allow probe or the resolver allowed outright; a denial by the classifier counts two, one at its total limit starts the row with two, and a limit consulted too late finds the row lapsed |
| `PermissionTheorems.UnblockedRow` | internal/execution/pipeline.go:142-144 | without the classifier's denials: an outright allowed call ends the row, a call that was merely not refused leaves it alone, and a refusal adds one |
| `PermissionTheorems.TotalCountsRefusalsIff` | internal/types/denial.go:28-46 | over any run, the total denial count is the number of refusals exactly when the classifier denied nothing |
| `PermissionTheorems.OneRefusalCountsTwice` | internal/permissions/auto/fallback.go:153-160 | one tool use that the classifier denies adds two to the total, and three at the total limit |
| `PermissionTheorems.AlwaysEscalatesIff` | internal/execution/permissions.go:259-289 | in a session, as many refusals in a row as the consecutive limit says always end in an ask that falls back to prompting, exactly when there is no classifier, nobody to prompt, a consecutive limit of at most two, or a total limit T with 0 < T <= max(12, consecutive limit + 2) |
| `PermissionTheorems.SixBlocksStayPlain` | internal/permissions/auto/fallback.go:153-160 | with the default limits, the sixth denial by the classifier in a row stays a plain deny, in a row of two |
| `PermissionTheorems.KeepsPromiseIffNoGap` | internal/types/denial.go:72-101 | the counters are those of a reset after a quiet period, after every prefix of a run, exactly when no quiet period comes in front of a denial while a row is open |
| `PermissionTheorems.QuietPeriodDoesNotReset` | internal/types/denial.go:72-101 | two refusals further apart than the reset time end as a row of two, where the reset would leave a row of one |
| `Grids.NeighborsAreMoves` | examples/pathfinding_demo/algorithms.py:63-84 | the neighbours are exactly the valid cells one step away |
| `Grids.ReconstructPath` | examples/pathfinding_demo/algorithms.py:86-103 | following the predecessors terminates when a rank decreases along them, and gives the trail from the root |
| `Grids.TrailIsPath` | examples/pathfinding_demo/algorithms.py:86-103 | the trail of a search tree is a path from the start |
| `BreadthFirst.BFS.FindPath` | examples/pathfinding_demo/algorithms.py:111-152 | for every grid, start and goal: a returned path is a shortest one, and none is returned exactly when the goal cannot be reached |
| `BreadthFirst.ShortPathsAreVisited` | examples/pathfinding_demo/algorithms.py:134-148 | every path no longer than the distance of the queue's cells ends at a visited cell that is no further than the path is long |
| `AStar.AStar.FindPath` | examples/pathfinding_demo/algorithms.py:160-215 | A* returns a path of at most as many moves as the goal's cost, and none exactly when the goal cannot be reached |
| `AStar.ExpandKeeps` | examples/pathfinding_demo/algorithms.py:186-211 | every turn keeps the search tree, at most one heap entry per cell, and relaxed neighbours for every known cell that is not queued |
| `AStar.ExpandDrops` | examples/pathfinding_demo/algorithms.py:186-211 | every turn decreases twice the sum of the costs plus the number of heap entries |
| `AStar.LeastComesFirst` | examples/pathfinding_demo/algorithms.py:186-188 | the entry taken from the heap has the least priority, and among equals the least row and then the least column |
| `AStar.AStarIsSoundAndComplete` | examples/pathfinding_demo/algorithms.py:160-215 | soundness and completeness of the search function that the loop computes |
| `AStarOptimality.DownhillIsOptimal` | examples/pathfinding_demo/algorithms.py:160-228 | when no straight way from the start ends before the goal, the path is a shortest one, of exactly the Manhattan distance |
| `AStarOptimality.ClearRectanglesAreDownhill` | examples/pathfinding_demo/grid.py:72-86 | in particular when no obstacle lies in the rectangle between the start and the goal |
| `AStarOptimality.OpenGridsAreDownhill` | examples/pathfinding_demo/grid.py:72-86 | and on every grid without obstacles |
| `AStarDetour.AStarTakesADetour` | examples/pathfinding_demo/algorithms.py:200-211 | A* is not optimal in general: a grid of three rows and five columns on which it returns seven moves where five are enough, because a queued cell keeps its old priority |
| `AsyncAgents.AsyncAgent.Finish` | internal/agent/async.go:504-520 | an error or an unsuccessful result is Failed, anything else Completed, whatever the status was |
| `AsyncAgents.AsyncAgent.CancelRunning` | internal/agent/async.go:544-554 | only a Running agent is cancelled |
| `AsyncAgents.AsyncAgent.Close` | internal/agent/async.go:672-681 | a Running or Pending agent is cancelled |
| `AsyncAgents.StepKeepsBreadth` | internal/agent/async.go:345-411 | every critical section keeps the breadth limit and the fact that a counting StartAgent has counted at least the active agents it has passed |
| `AsyncAgents.BreadthLimitHolds` | internal/agent/async.go:395-411 | in every interleaving the registered Pending or Running agents never exceed the limit, but for those a CloseAgent call has marked and not yet removed |
| `AsyncAgents.DoneIsFinal` | internal/agent/async.go:427-532 | a closed done channel means Completed or Failed |
| `AsyncAgents.DoneStays` | internal/agent/async.go:535-687 | in every interleaving, once the done channel is closed no later step of any thread changes the status or the channel again |
| `AsyncStories.AgentsHaveTheirStories` | internal/agent/async.go:427-687 | in every interleaving, an agent's status, channel and registration are what its own deeds say: Completed or Failed by what its goroutine reported last, Cancelled by a cancel while at work or a close before, and out of the registry only after a cleanup found it over or a CloseAgent call marked it |
| `AsyncStories.StartsAreRefusedForActiveAgents` | internal/agent/async.go:345-411 | a start is refused only if as many distinct agents as the limit allows were registered when its scan began and active at some moment of it, and without a limit never |
| `AsyncStories.CleanupIsThorough` | internal/agent/async.go:587-603 | when a cleanup is through, every agent that was past its start and completed, failed or cancelled when it began is out of the registry |
| `AsyncStories.SweepIsThorough` | internal/agent/async.go:605-640 | when a shutdown has swept the registry, no agent that was registered and past its start when the sweep began is running |
| `AsyncStories.TheLockIsReleased` | internal/agent/async.go:345-640 | in every interleaving, whoever holds the registry lock can take its next step, each of which brings it nearer to releasing the lock, and no other thread changes what it has still to do |
| `AsyncStories.CallsAreConserved` | internal/agent/async.go:535-687 | in every interleaving, each CancelAgent and CloseAgent call that found its agent is still on its way or has acted on that agent |
| `HookRegistry.Registry.Add` | internal/hooks/registry.go:73-99 | the registration is appended to the survivors, with its defaults, and every list stays the stable sort of its survivors |
| `HookRegistry.Registry.Remove` | internal/hooks/registry.go:102-119 | exactly the registrations with the ID disappear, and every list stays the stable sort of its survivors |
| `HookRegistry.Registry.Clear` | internal/hooks/registry.go:154-169 | the registrations of one event, or all of them, disappear |
| `HookRegistry.Registry.SetHookState` | internal/hooks/registry.go:210-228 | exactly one registration with the ID changes its state, the first of its event's list; found exactly when there is one |
| `HookRegistry.Registry.RecordHookExecution` | internal/hooks/registry.go:280-308 | the same for the execution counters |
| `HookRegistry.Registry.CleanupExpiredHooks` | internal/hooks/registry.go:311-345 | exactly the expired registrations that are not permanent disappear |
| `HookRegistry.Registry.CleanupDeadHooks` | internal/hooks/registry.go:348-371 | exactly the dead registrations that are not permanent disappear |
| `HookRegistry.Registry.GetActiveHooks` | internal/hooks/registry.go:263-277 | the active survivors of the event, in list order |
| `HookRegistry.ListIsOrdered` | internal/hooks/registry.go:73-99 | an event's list is the stable sort of its survivors by descending priority, so higher priorities and then older registrations come first |
| `HookRegistry.ListsAreOrderedAfter` | internal/hooks/registry.go:73-371 | so it is after any sequence of operations |
| `HookRegistry.RegistrationsLiveApart` | internal/hooks/registry.go:73-371 | after any operations, whether a registration is there and in which state follows from its own life alone: its defaults at birth, the changes by its serial number, and the removals and cleanups that apply to it |
| `HookRegistry.PermanentStays` | internal/hooks/registry.go:311-371 | a permanent registration is there until it is removed by its ID or its event is cleared |
| `HookRegistry.Executor.ExecuteFirst` | internal/hooks/executor.go:133-171 | the answer is that of the active hook with an actionable result that has the highest priority and, among equals, is the oldest; without one it is continue, or nothing when there is no active hook |
| `HookRegistry.Executor.Execute` | internal/hooks/executor.go:49-101 | the active hooks run in order up to and including the first that stops or denies, a failing hook counting as continue |
| `HookRegistry.OnlyTheLastEnds` | internal/hooks/executor.go:49-101 | a stop or a deny is the last of the results, and there is one exactly when the last hook that ran stops or denies; a failing hook gives a continue |
| `StableSort.StableSortIsUnique` | internal/hooks/registry.go:93-98 | sorted and stable determine the result of the sort |

## Left out

- Message text, progress updates, traces, metadata, timestamps and telemetry: only roles, ids and block kinds matter
  to the properties; continuation messages have placeholder texts.
- `SubmitToolUseChunk` with partial chunks, and the wait that is interrupted by its context (`Wait` then calls
  `Discard`, which is modelled): distinct tool-use IDs are a hypothesis where a theorem needs them, and the
  conservation theorems also count the chunks that a duplicate ID drops.
- A tool call that never returns: every tool is assumed to give a result, an error or a panic.
- Each tool run is one step on the external state: tools of one batch, or in the worker pool, that overlap in time
  are taken in some order, one after the other. A canceled run's external state is not followed.
- `StreamingRefinement.StreamingRefinesIffUndisturbed`: errors are not compared, since the merge takes those of the
  streamed tools out of a map and keeps one per tool use.
- `StreamedAnswers`: how each provider's client builds its response is an input; what its stream and its response
  must have in common is a hypothesis, named in the rows above.
- `StreamingRefinement.UndisturbedRefines`: its condition is sufficient for one response, not necessary: two tools
  that disturb each other may still leave the same results.
- `StreamingCoordinator`: the accumulator of `internal/types/api.go` is a function on values, not a class.
- Compaction is switched off in the query loop, and the setting after a tool step (context and external state) is an
  input of the next iteration instead of being folded from its final one.
- The text rules of `shouldNudgeContinuation` and `toolLoopRecoveryMessage`: their verdicts are inputs. Stop hooks
  are one input per iteration, without their priorities and modes.
- Rounding: the budget's completion test uses exact real division in place of binary floating point.
- Integer widths: token counts, priorities and counters are unbounded.
- `FallbackChain.FallbackLoop.CallModel`: the circuit breaker is an input that is consulted once per call, as the
  code does; how it counts failures is not modelled.
- `Permissions`: how rules match, what the classifier thinks and how a user answers are inputs; hooks of the
  permission engine around its answers are not modelled.
- `Permissions`: tool inputs are maps from names to printed values, which is what the source's `mapsEqual` compares;
  two values with the same printed form are one value here. Nil and empty maps are one value.
- `AStar.AStar.FindPath`: the binary heap is a list from which the least entry is taken; the entries are distinct,
  so the heap's inner order cannot be observed.
- `AStarOptimality.DownhillIsOptimal`: its condition is sufficient, not necessary: whether A* gets around a dead end
  on the way depends on the order of its queue.
- `AsyncAgents`: the shutdown flag, the event channel, listeners, messages and results are not modelled, nor is a
  second panic inside the recovery of the first.
- `HookRegistry`: the counts returned by the cleanups, hook metadata and timeouts, and the failure of a write into a
  missing data map.
- Provider clients, transports, user interfaces, configuration, the job scheduler, background session names, stores
  and migrations: input and output, or external systems.
