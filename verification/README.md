# Sulla Desktop: the stateful engines, modelled and proved

This project models five parts of Sulla Desktop that keep state over many calls, and proves what
they promise over whole runs.

- **Agent turn** (`ToolIds`, `ToolCalls`, `ToolSpellings`, `TurnMachine`, `TurnIds`, `TurnSafety`,
  `TurnTranscript`, `TurnReplies`, `TurnAccount`, `TurnAccountRuns`, `TurnNotRun`, `TurnText`, `TurnResume`,
  `TurnBudget`, `RunTurn`, `TurnCheckpoints`). One turn calls a model, gives its tool calls unique ids, asks
  for approval, saves a checkpoint, invokes tools and repeats. `TurnMachine` is a step system with volatile
  memory, the last stored checkpoint and a trace of effects; a crash drops the memory and a new process takes
  over from the store. The outside world is arbitrary: every answer may depend on the moment it is asked. `RunTurn` is the loop as it is written, over
  fields it updates, proved to perform exactly the effects of the step system; `TurnCheckpoints`
  joins the two where a turn takes up what a crashed one stored. `TurnAccount` says what a transcript
  claims (which reply, which call, which answer) and `TurnAccountRuns` proves the claims true of every run.
- **Workflow playbook** (`Graphs`, `Texts`, `Routes`, `Playbook`, `PlaybookRuns`, `PlaybookOrder`,
  `PlaybookLoops`, `PlaybookParallel`, `PlaybookDecisions`, `PlaybookSteps`, `PlaybookPaths`,
  `PlaybookFrontier`, `PlaybookAnswers`, `PlaybookSearch`, `LoopRecord`, `PlaybookInPlace`). A graph
  walker over a frontier, a completed list, outputs, pending decisions and loop state. A walker call is a
  decision (`Change`) and its effect (`Apply`). A run is any sequence of moves of a driver that completes only
  nodes it was handed and none while a decision is pending. `PlaybookSteps` and `PlaybookAnswers` tell what each step and each answer does to the state, over
  the definition's edges and the state alone, `PlaybookPaths` which nodes can run, lie in a loop or in a
  parallel branch. `PlaybookSearch` holds the graph searches with their queues, `LoopRecord` the loop object
  that is changed in place, `PlaybookInPlace` the walker's steps and answers over all loop objects of a state.
- **Files mount** (`FilesErrors`, `FilesIndex`, `FilesSnapshot`, `FilesSteps`, `FilesShown`, `FilesListing`,
  `FilesView`). Three indexes over the same paths, updated by snapshots of a service and by single operations.
  `FilesSnapshot` says path by path what a snapshot's entries do; the loops of `FilesView` are proved
  against it. `FilesShown` says what the mount shows after a snapshot in terms of its collections,
  folders and files.
- **Open files** (`HandleBuffer`, `FilesHandles`). Bytes are spooled per handle and committed later; the
  handle is proved to be a growable byte array. `FilesHandles` joins a handle and the mount's indexes.
- **Dependency downloads** (`Downloads`) and **exec frames** (`ExecFrames`).

Where the code and its comments differ, the model follows the code:

- `packages/agent-core/src/runTurn.ts:11-14` promises a result for every tool call even when a guard
  stops the turn. The abort at line 227 returns before pending calls are answered;
  `TurnTranscript.ReturnsClosedUnlessAbortedAtHead` proves that this is the only exception, and
  `TurnTranscript.AbortLeavesCallOpen` gives a turn in which it occurs.
- The checkpoint saved after the final reply (lines 312-315) does not say that the turn is over.
  `TurnResume.CrashIsTransparentExactly` proves that resuming gives the uninterrupted outcome exactly
  when the stored checkpoint does not end in a reply of the model with no call pending;
  `TurnResume.CompletedTurnAsksAgain` gives a crash after it.
- The answer to a call whose turn was stopped says that it was not run (line 239).
  `TurnNotRun.NotRunIsTrueUnlessInFlight` proves that this is true of every call but the one a crashed process
  left in flight; `TurnNotRun.NotRunMayHaveRun` gives a turn in which that call has run.
- A stop because of the token budget (lines 236 and 271) is kept in memory only.
  `TurnBudget.BudgetStatusDiffersExactly` says from which checkpoints a resumed turn reports the
  iteration limit instead, and `TurnBudget.BudgetStopIsForgotten` gives one.
- `packages/workflow-engine/src/WorkflowPlaybook.ts:19` says that all functions are pure. The loop
  state is changed in place (lines 1310-1324); `PlaybookInPlace.StepTwice` proves that a step asked for
  twice on one state answers the same exactly when it does not come to an active loop, and
  `PlaybookInPlace.LoopComesUpAgain` gives a run that comes to one.
- `services/sulla-files-fuse/sulla_files_fuse.py:453-454` says that a real file wins over a manifest
  of the same name. `FilesSnapshot.RealFileWinsExactly` proves when it does not;
  `FilesSnapshot.ManifestHidesFile` and `FilesSnapshot.DirectoryHidesFile` give two snapshots each after
  which it does not.
- `scripts/postinstall.ts` starts a dependency-free item once per list entry. Downloads start once
  and in order exactly when no such item shares its key (`Downloads.RootsOrderlyExactly`).

Assumptions about the outside are parameters with stated properties: a model reply has one tool_use
block per tool call in the same order (`TurnMachine.ValidEnv`); for crash transparency, the model,
the user and the tools answer the same question the same way, a resumed invocation yields what the
invocation yields, saves work and nothing is aborted (`TurnResume.World`); lower-casing and JSON
parsing are arbitrary functions; the order in which downloads end, the order in which writers get
the frame lock and the service's answers are arbitrary.

## Model

| member | source | states |
|---|---|---|
| `ToolIds.PickId` | packages/agent-core/src/runTurn.ts:117-125 | an id is non-empty, safe and not taken; a raw id that is already all that is kept; the renaming loop ends because taken ids are finite and its names differ |
| `ToolIds.PickExactly` | packages/agent-core/src/runTurn.ts:117-125 | a call gets its own id with unsafe characters replaced if that can be used, else its counted name if that is free, else the first free of the names that count on from it |
| `ToolIds.CandidatesDiffer` | packages/agent-core/src/runTurn.ts:121 | the names the renaming loop tries are pairwise different |
| `ToolIds.Rename` | packages/agent-core/src/runTurn.ts:118-122 | the loop as written finds exactly the specified id |
| `ToolIds.AssignUniqueIds` | packages/agent-core/src/runTurn.ts:115-126 | the ids of one reply are fresh, and the seen set grows by exactly them |
| `ToolIds.UniqueIdsAreFresh` | packages/agent-core/src/runTurn.ts:115-132 | ids differ from each other and from every id of the transcript, are safe and non-empty |
| `ToolIds.GoodIdsAreKept` | packages/agent-core/src/runTurn.ts:117-125 | ids that are already fresh are not changed |
| `TurnIds.ReplyMessageIds` | packages/agent-core/src/runTurn.ts:126-132 | the stored message's tool_use ids and the pending calls' ids are the assigned ones, position by position |
| `TurnIds.KnownIdsExactly` | packages/agent-core/src/runTurn.ts:134-145 | the known ids are exactly those some message carries, in a tool_use or tool_result block or as the answered call |
| `ToolCalls.WireName` | packages/agent-core/src/toolCalls.ts:30-32 | a wire name uses safe characters only, has at most 64, and a name that fits already is kept |
| `ToolSpellings.WireNamePieces` | packages/agent-core/src/toolCalls.ts:30-32 | a wire name is put together character by character, `/` as two underscores and other unsafe ones as one, and cut after 64 |
| `ToolCalls.BuildToolIndex` | packages/agent-core/src/toolCalls.ts:76-88 | building fails exactly when two different tools share a name or wire name, and names one they share; else each tool is found under its keys and nothing else is |
| `ToolCalls.OnlyAllowedToolsRun` | packages/agent-core/src/toolCalls.ts:98-197 | whatever spelling, prefix or exec wrapper is used, only an allowed tool is dispatched |
| `ToolCalls.WireNameResolvesBack` | packages/agent-core/src/toolCalls.ts:98-111 | the wire name of an allowed tool resolves to that tool |
| `ToolCalls.ExecWrapperIsTransparent` | packages/agent-core/src/toolCalls.ts:159-186 | a call wrapped in the exec meta tool dispatches the same tool, or none, as the call itself, and its arguments as they are, so it is the same call exactly when these do not look like a `params` wrapper the tool's schema does not ask for; a blank id and one that means exec itself are the exceptions, and what they lead to is stated |
| `ToolSpellings.SlipsAreForgivenExactly` | packages/agent-core/src/toolCalls.ts:90-96 | white space around a name, a prefix word before it and a counter behind it are forgiven in any mixture, except exactly a counter behind a name that is a prefix word itself |
| `ToolSpellings.SlipReachesTool` | packages/agent-core/src/toolCalls.ts:90-111 | so a slip of an allowed tool's wire name is dispatched to that tool |
| `ToolSpellings.FirstSpellingWins` | packages/agent-core/src/toolCalls.ts:98-111 | a name means the tool of the first of its five spellings that is in the index, and none if no spelling is |
| `ToolSpellings.ArgumentsExactly` | packages/agent-core/src/toolCalls.ts:124-133 | arguments held as an object and as the text of one resolve alike; anything else is refused under the clean name |
| `ToolSpellings.CallExactly` | packages/agent-core/src/toolCalls.ts:159-197 | a call reaches the tool its clean name finds with its arguments as they are, but for a lone `params` the tool does not have, which is taken for the arguments it holds; it is an exec call only while no tool has that name |
| `ToolSpellings.ExecExactly` | packages/agent-core/src/toolCalls.ts:156-186 | an exec call names its tool under the first of six keys with a text, and passes on the object under `params`, `arguments` or `args`, else whatever lies beside the id |
| `TurnMachine.ConfigForIsValid` | packages/agent-core/src/runTurn.ts:155-157 | every tool list whose index can be built gives options the results below hold for |
| `TurnMachine.ValidIsLawful` | packages/agent-core/src/runTurn.ts:156-181 | the source's index and id rules give the two facts safety rests on: only allowed tools, only fresh ids |
| `TurnMachine.StepMakesProgress` | packages/agent-core/src/runTurn.ts:226-322 | every step uses up a model call or work before the next one, so every turn ends |
| `TurnMachine.Run` | packages/agent-core/src/runTurn.ts:226-322 | whatever the world answers, the turn reaches a state in which it returns |
| `TurnSafety.AlwaysInv` | packages/agent-core/src/runTurn.ts:192-322 | after any schedule of steps and crashes, memory, store and history agree about which calls were invoked and permitted |
| `TurnSafety.EveryRunIsJustified` | packages/agent-core/src/runTurn.ts:228-376 | every invocation directly follows a successful save naming its call in flight, comes after no failed save of its process, is of an allowed tool, approved with these very arguments if needed, and of an id never invoked before |
| `TurnSafety.InvokedAtMostOnce` | packages/agent-core/src/runTurn.ts:228-268 | across any number of crashes and resumes no call id reaches invoke twice |
| `TurnSafety.FinishedRunIsScheduled` | packages/agent-core/src/runTurn.ts:226-322 | a turn run to its end is one of these schedules, so the results hold of finished turns |
| `TurnTranscript.TranscriptAlwaysReplayable` | packages/agent-core/src/runTurn.ts:226-268 | in every state and saved checkpoint, calls are answered once and in order, but for those from the next index on, which are exactly the open ones |
| `TurnTranscript.ReturnsClosedUnlessAbortedAtHead` | packages/agent-core/src/runTurn.ts:227-322 | a return leaves calls unanswered exactly when it is the loop-head abort with calls pending |
| `TurnTranscript.AbortLeavesCallOpen` | packages/agent-core/src/runTurn.ts:227 | that case occurs: a turn aborted right after its first reply was saved returns with the call open |
| `TurnReplies.ReplyIsRepeated` | packages/agent-core/src/runTurn.ts:286-311 | a reply is stored with every block in its place, tool_use blocks under the new ids and the wire names of their tools; usage, text, finish reason and pending calls are those of the reply |
| `TurnAccountRuns.EveryMessageIsTrue` | packages/agent-core/src/runTurn.ts:226-376 | after any schedule of steps and crashes every message behind the first ones is the model's reply to those before it or the answer to a call of one, and each answer is true: what it says was refused, failed, ran or stopped the turn did |
| `TurnAccountRuns.EveryRequestIsACall` | packages/agent-core/src/runTurn.ts:327-376 | every approval asked for and every invocation, resumed ones included, is for a call of the transcript, of the tool it resolves to with the parameters validation let through, of a reply that was not cut off and left tokens |
| `TurnAccountRuns.UntouchedCallsAreUnasked` | packages/agent-core/src/runTurn.ts:327-336 | for a call that is answered as unresolved, as invalid or as cut off nobody was asked and nothing was invoked, by any process |
| `TurnAccountRuns.NextCallExactly` | packages/agent-core/src/runTurn.ts:327-376 | a call that nothing stops is answered as unresolved or invalid exactly if it is, else it goes on to be approved, saved and invoked, or taken up, as the very request it becomes |
| `TurnAccountRuns.StoppedCallIsNotRun` | packages/agent-core/src/runTurn.ts:232-247 | a call is answered as not run exactly if the turn is aborted, stopped before or over its tokens when its turn comes, and as cut off if its reply was |
| `TurnAccountRuns.StatusIsTrue` | packages/agent-core/src/runTurn.ts:211-322 | the status of an ended turn is why it ended: a stored final reply, the iteration limit, tokens used up, an abort, a failed model or a failed save |
| `TurnAccountRuns.UsageIsTrue` | packages/agent-core/src/runTurn.ts:226-322 | usage and iterations count the replies of the transcript, over crashes too, and the model is asked only within both limits |
| `TurnNotRun.NotRunIsTrueUnlessInFlight` | packages/agent-core/src/runTurn.ts:228-268 | an unanswered call that has run is the one the process holds as in flight |
| `TurnNotRun.NotRunMayHaveRun` | packages/agent-core/src/runTurn.ts:228-247 | that case occurs: a call that ran before a crash is answered as not run when the next process is aborted |
| `TurnText.FinalTextIsTrue` | packages/agent-core/src/runTurn.ts:188-311 | the text a turn returns is that of the last reply that says something, of those given to the process that returns |
| `TurnResume.CrashesAreTransparent` | packages/agent-core/src/runTurn.ts:179-322 | however often the turn crashed before its final reply was stored, it ends with the messages, iterations and usage of the uninterrupted turn |
| `TurnResume.CrashesAreTransparentWithoutBudget` | packages/agent-core/src/runTurn.ts:179-322 | without a token budget the status is the same too |
| `TurnBudget.BudgetStatusDiffersExactly` | packages/agent-core/src/runTurn.ts:226-271 | after any schedule of steps and crashes that leaves no final reply in the store, one crash more changes the status exactly when the stored checkpoint has every call answered and neither tokens nor a model call left; then it changes from token budget to iteration limit |
| `TurnBudget.BudgetStopIsForgotten` | packages/agent-core/src/runTurn.ts:226-271 | a turn whose only call is refused for its budget reports the iteration limit when it crashes behind that answer's save |
| `TurnResume.CrashIsTransparentExactly` | packages/agent-core/src/runTurn.ts:312-315 | one crash more is transparent exactly when the stored checkpoint is not that of a final reply, that is one with no call pending whose last message is the model's; it is one exactly when the crashed turn had completed |
| `TurnResume.CompletedTurnAsksAgain` | packages/agent-core/src/runTurn.ts:312-315 | resuming a turn that completed with one model call calls the model again, or reports the iteration limit |
| `RunTurn.TurnLoop.Checkpoint` | packages/agent-core/src/runTurn.ts:192-209 | the closure saves what the step system saves, and not at all once a save failed |
| `RunTurn.TurnLoop.RunOneTool` | packages/agent-core/src/runTurn.ts:327-376 | recording what it returns leads to the same end as the specified call, which `TurnAccountRuns.NextCallExactly` describes |
| `RunTurn.TurnLoop.AnswerPending` | packages/agent-core/src/runTurn.ts:228-268 | the inner loop and its closing save follow the step system to the same end |
| `RunTurn.TurnLoop.Ask` | packages/agent-core/src/runTurn.ts:273-320 | one model call and its save follow the step system |
| `RunTurn.TurnLoop.Loop` | packages/agent-core/src/runTurn.ts:226-322 | the endless loop ends in the step system's final state |
| `RunTurn.RunTurn` | packages/agent-core/src/runTurn.ts:153-323 | a checkpoint of another run or without the calls its phase needs is refused before any effect; otherwise effects and result are those of the step system run to the end |
| `TurnCheckpoints.StoredIsAccepted` | packages/agent-core/src/runTurn.ts:172-209 | no checkpoint that a turn ever hands to its store is refused when it is resumed |
| `TurnCheckpoints.ResumedTurnFinishes` | packages/agent-core/src/runTurn.ts:172-322 | after any crashes before the final reply is stored, the state `RunTurn` starts from on what the store holds leads to the outcome of the uninterrupted turn |
| `Routes.JaccardRange` | packages/workflow-engine/src/WorkflowPlaybook.ts:1672-1707 | a score lies in [0,1], is 1 for equal token sets only, 0 for disjoint ones only, and symmetric |
| `Routes.TokensAreWords` | packages/workflow-engine/src/WorkflowPlaybook.ts:1672-1676 | the tokens of a text are exactly the maximal runs of word characters in it |
| `Routes.RankedIsPermutation` | packages/workflow-engine/src/WorkflowPlaybook.ts:1736-1739 | ranking permutes the routes by falling score |
| `Routes.RankFirst` | packages/workflow-engine/src/WorkflowPlaybook.ts:1736-1739 | of routes that tie for the top the first comes out first |
| `Routes.ExactIsFirst` | packages/workflow-engine/src/WorkflowPlaybook.ts:1731-1735 | the first route whose label is the answer, case aside, is matched |
| `Routes.SimilarityMatchExactly` | packages/workflow-engine/src/WorkflowPlaybook.ts:1724-1763 | without an exact label, a route of a list of different ones is matched exactly when it scores at least 0.4 and beats every other by at least 0.15 |
| `Routes.UnmatchedIsRanked` | packages/workflow-engine/src/WorkflowPlaybook.ts:1736-1763 | without a match the routes are reported by falling score, as below the threshold exactly if all score less than 0.4, else as ambiguous |
| `Routes.OrderDoesNotMatter` | packages/workflow-engine/src/WorkflowPlaybook.ts:1724-1763 | permuting routes with distinct labels leaves the match, or the reason for none, unchanged |
| `Routes.FallbackIsBest` | packages/workflow-engine/src/WorkflowPlaybook.ts:1800-1830 | the soft fallback takes a route of top score, and none when nothing overlaps |
| `Routes.FallbackIsFirst` | packages/workflow-engine/src/WorkflowPlaybook.ts:1800-1830 | of the routes of top score the soft fallback takes the first |
| `Routes.FallbackOrderExactly` | packages/workflow-engine/src/WorkflowPlaybook.ts:1800-1830 | the fallback is independent of the order of routes exactly when no two tie for the top |
| `Graphs.StuckSetHasCycle` | scripts/postinstall.ts:113-126 | a finite set in which everyone waits for a member contains a cycle |
| `PlaybookRuns.FreshExactly` | packages/workflow-engine/src/WorkflowPlaybook.ts:110-171 | a fresh run keeps its frontier disjoint from its completions exactly when no trigger feeds a trigger |
| `PlaybookSteps.FreshStateIsStarted` | packages/workflow-engine/src/WorkflowPlaybook.ts:110-171 | a workflow starts exactly if it has a trigger: the triggers are completed with the payload, the frontier is what they lead to |
| `PlaybookRuns.OutcomeOk` | packages/workflow-engine/src/WorkflowPlaybook.ts:635-784 | every decision of the walker is about a node that is ready, was handed out or was asked about |
| `PlaybookRuns.PlayAllKeeps` | packages/workflow-engine/src/WorkflowPlaybook.ts:1609-1664 | every run keeps the books: completions, frontier, handed-out nodes, pending decision and loop records agree |
| `PlaybookRuns.CompletedAreThoseWithOutput` | packages/workflow-engine/src/WorkflowPlaybook.ts:1403-1485 | on every run, loop resets included, completed ids are those with an output, and disjoint from the frontier if no trigger feeds a trigger |
| `PlaybookRuns.EachNodeCompletesOnce` | packages/workflow-engine/src/WorkflowPlaybook.ts:1638-1642 | without loop nodes, cycles in the graph included, each node completes at most once, so completions are bounded by the nodes not completed at the start |
| `PlaybookOrder.PredecessorsCompleteFirst` | packages/workflow-engine/src/WorkflowPlaybook.ts:371-417 | without loop nodes, a completed node has each predecessor completed or reaches it itself |
| `PlaybookOrder.AcyclicPredecessorsCompleteFirst` | packages/workflow-engine/src/WorkflowPlaybook.ts:371-417 | on an acyclic definition nothing completes before its predecessors, routers and conditions included |
| `PlaybookOrder.NeverStuck` | packages/workflow-engine/src/WorkflowPlaybook.ts:635-700 | on an acyclic definition without choices, loops and transfers, whose edges name existing nodes, enter no trigger and reach every node from a trigger, a running state with a frontier has a ready node and a step never just waits |
| `PlaybookOrder.CompletedExactlyWhenAllAre` | packages/workflow-engine/src/WorkflowPlaybook.ts:1649-1659 | such a run is completed exactly when all nodes are, but for a definition of triggers only, which still needs one step |
| `PlaybookLoops.LoopExitIsExact` | packages/workflow-engine/src/WorkflowPlaybook.ts:1297-1345 | a loop's summary counts exactly the passes started and has one result per pass indexed 0, 1, 2, …; unless a stop condition was met these are as many as the items merged upstream at its entry, the count in the orchestrator's answer, or the configured count, and never more; a condition is met only by the answer "true" or "yes" to a question, or by a template that says so where none is asked; only an answered zero ends it without a pass |
| `PlaybookLoops.CurrentItemInStep` | packages/workflow-engine/src/WorkflowPlaybook.ts:1326-1332 | during the nth pass of a for-each loop, that is while nothing is asked about the loop itself, the current item is the nth of the items merged upstream at the loop's entry |
| `PlaybookLoops.MergedUpstream` | packages/workflow-engine/src/WorkflowPlaybook.ts:1256-1261 | these items are those of the first incoming edge whose source put out a merge |
| `PlaybookLoops.NothingMergedUpstream` | packages/workflow-engine/src/WorkflowPlaybook.ts:1256-1261 | there are none when no source did |
| `PlaybookLoops.CountReadsNumber` | packages/workflow-engine/src/WorkflowPlaybook.ts:1910-1912 | a number written out in the answer is read back, whatever words stand around it |
| `PlaybookLoops.OutsideBodyIsKept` | packages/workflow-engine/src/WorkflowPlaybook.ts:1403-1440 | a move removes no completion and no output outside the body of the loop it is about |
| `PlaybookLoops.PassStartsClean` | packages/workflow-engine/src/WorkflowPlaybook.ts:1411-1420 | a pass starts with nothing of its body completed |
| `PlaybookLoops.PassEndsWithItsFeeders` | packages/workflow-engine/src/WorkflowPlaybook.ts:386-395 | when a loop comes up again, what feeds it has completed in this pass and is in the pass's result |
| `PlaybookParallel.ManyIsASet` | packages/workflow-engine/src/WorkflowPlaybook.ts:1958-2012 | completing a list of nodes depends on the set of those that exist only |
| `PlaybookParallel.AnyOrder` | packages/workflow-engine/src/WorkflowPlaybook.ts:1958-2012 | any permutation of completions gives the same frontier set, completed set, outputs and status |
| `PlaybookParallel.BatchOrderDoesNotMatter` | packages/workflow-engine/src/WorkflowPlaybook.ts:707-763 | a batch is of distinct frontier nodes, may report in any order, and the run goes on until the last has reported |
| `PlaybookDecisions.FinishSelects` | packages/workflow-engine/src/WorkflowPlaybook.ts:1633-1645 | the frontier loses exactly the completed node and gains exactly the uncompleted targets of its edges along the selected handle or without one |
| `PlaybookDecisions.RouterSettlesExactly` | packages/workflow-engine/src/WorkflowPlaybook.ts:1787-1869 | whatever the labels, a router is asked again exactly when nothing matched the first time, given up exactly when nothing overlaps the second time, and else follows the matched route or a top scorer |
| `PlaybookDecisions.DecisionRoutesDiffer` | packages/workflow-engine/src/WorkflowPlaybook.ts:1100-1105 | the routes of a decision are different, whatever their labels, since their handles count them |
| `PlaybookDecisions.ConditionSelectsBranch` | packages/workflow-engine/src/WorkflowPlaybook.ts:1871-1883 | a condition follows its true edges exactly on "true" or "yes", and records that |
| `PlaybookSteps.NextStepExactly` | packages/workflow-engine/src/WorkflowPlaybook.ts:635-917 | what a step does in any state of any definition: which of the ready nodes takes its turn or which batch is spawned, and for each kind of node its action, its output, the frontier after it, and for loops which pass begins or why the loop ends |
| `PlaybookSteps.UpstreamIsFed` | packages/workflow-engine/src/WorkflowPlaybook.ts:843-851 | a parallel node puts out one result, a merge node one item, per incoming edge whose source has put something out, in the order of the edges |
| `PlaybookSteps.OutputsAreNamed` | packages/workflow-engine/src/WorkflowPlaybook.ts:1609-1632 | on every run an output carries the id of its node, so an item names the source it came from |
| `PlaybookSteps.CompletionExactly` | packages/workflow-engine/src/WorkflowPlaybook.ts:1958-2012 | completing a node stores its output, takes it from the frontier and follows all its edges to nodes not completed yet |
| `PlaybookFrontier.FrontierOrder` | packages/workflow-engine/src/WorkflowPlaybook.ts:1633-1645 | the frontier keeps its nodes in their order and takes the new ones behind them in the order of the edges, each once |
| `PlaybookAnswers.AnswerExactly` | packages/workflow-engine/src/WorkflowPlaybook.ts:1771-1956 | what an answer does, whatever was asked: which branch is followed, which pass begins, which loop ends and why, which question is asked again |
| `PlaybookAnswers.AnswerOnRun` | packages/workflow-engine/src/WorkflowPlaybook.ts:1771-1956 | every answer on every run does exactly that |
| `PlaybookAnswers.MatchIsChosen` | packages/workflow-engine/src/WorkflowPlaybook.ts:1724-1763 | the matched route is the first with the answer as its label, else the clear winner by common tokens, else none |
| `PlaybookSearch.IsBackEdge` | packages/workflow-engine/src/WorkflowPlaybook.ts:342-362 | the search answers exactly whether the edge's head reaches its tail |
| `PlaybookSearch.AreUpstreamComplete` | packages/workflow-engine/src/WorkflowPlaybook.ts:371-417 | the loops compute readiness as specified |
| `PlaybookSearch.IsInsideParallelBranch` | packages/workflow-engine/src/WorkflowPlaybook.ts:426-453 | the backward search finds exactly whether a parallel node leads here past no merge node |
| `PlaybookSearch.CollectLoopBody` | packages/workflow-engine/src/WorkflowPlaybook.ts:473-496 | the search collects exactly what the start nodes reach without passing the loop node |
| `PlaybookPaths.BackEdgeExactly` | packages/workflow-engine/src/WorkflowPlaybook.ts:342-362 | an edge feeds back exactly if a walk along the edges of existing nodes leads from its head to its tail |
| `PlaybookPaths.BranchExactly` | packages/workflow-engine/src/WorkflowPlaybook.ts:426-453 | a node lies in a parallel branch exactly if a walk backwards past existing nodes, none of them a merge, meets a parallel node |
| `PlaybookPaths.BodyExactly` | packages/workflow-engine/src/WorkflowPlaybook.ts:473-496 | a loop's body is exactly what walks from its loop-start edges reach without passing the loop |
| `PlaybookPaths.ReadyExactly` | packages/workflow-engine/src/WorkflowPlaybook.ts:371-417 | a node's turn can come exactly if every edge that counts has a completed source: for a loop its entry before it started and its other edges after, for a node fed by triggers alone one of them, for any other node each edge whose source it does not lead to |
| `PlaybookPaths.AncestorsExactly` | packages/workflow-engine/src/WorkflowPlaybook.ts:203-214 | a start in the middle takes as completed exactly the other nodes from which a walk leads to the start node |
| `PlaybookSearch.ProcessNextStep` | packages/workflow-engine/src/WorkflowPlaybook.ts:635-784 | action and new state are those the runs above are about, and that `PlaybookSteps.NextStepExactly` describes |
| `PlaybookSearch.FindAncestors` | packages/workflow-engine/src/WorkflowPlaybook.ts:203-214 | the backward search ends and finds each other node with a path to the start node, once |
| `PlaybookSearch.CreateStateFromNode` | packages/workflow-engine/src/WorkflowPlaybook.ts:188-263 | completed are exactly those nodes, each with its seeded or placeholder output; only a missing start node is refused |
| `PlaybookSearch.StartIsReadyExactly` | packages/workflow-engine/src/WorkflowPlaybook.ts:371-417 | the start node is ready at once exactly when it is not blocked: by an edge that counts from itself, or from a missing node it does not lead to |
| `PlaybookSearch.StartKeepsBooks` | packages/workflow-engine/src/WorkflowPlaybook.ts:252-262 | a run from a node keeps the same books as any other |
| `LoopRecord.Record.Reenter` | packages/workflow-engine/src/WorkflowPlaybook.ts:1297-1395 | re-entry decides as specified and has finished the pass in the record, whatever comes of the step |
| `LoopRecord.Record.Resolve` | packages/workflow-engine/src/WorkflowPlaybook.ts:1908-1934 | the answered count is kept in the record, and 0 ends the loop without a pass |
| `LoopRecord.RetriedStep` | packages/workflow-engine/src/WorkflowPlaybook.ts:1310-1324 | a re-entry asked for twice on one state counts a pass that never ran |
| `PlaybookInPlace.StepInPlace` | packages/workflow-engine/src/WorkflowPlaybook.ts:635-784 | a step over the shared loop records decides as specified and changes the record of the loop it comes up to, and no other; all stay as they are exactly when the run is over, a decision is pending, nothing or a batch is ready, or the first ready node is no loop with a record and start nodes |
| `PlaybookInPlace.DecideInPlace` | packages/workflow-engine/src/WorkflowPlaybook.ts:1884-1934 | an answer over the shared loop records is the one `PlaybookAnswers.AnswerExactly` describes and changes no record but that of the loop that asked for its count, and that exactly when the number is above zero and not the one it holds |
| `PlaybookInPlace.StepTwice` | packages/workflow-engine/src/WorkflowPlaybook.ts:1310-1324 | a step asked for twice on one state answers the same exactly when it comes to no active loop; else the second answer counts one pass more |
| `PlaybookInPlace.LoopComesUpAgain` | packages/workflow-engine/src/WorkflowPlaybook.ts:1297-1332 | that case occurs: a loop over one agent comes up again once the agent has completed |
| `FilesIndex.AddNodeKeeps` | services/sulla-files-fuse/sulla_files_fuse.py:474-482 | adding a path keeps the three indexes in agreement and every other path as it was |
| `FilesIndex.DropKeeps` | services/sulla-files-fuse/sulla_files_fuse.py:484-489 | so does dropping one |
| `FilesIndex.ListsWhatLookupResolves` | services/sulla-files-fuse/sulla_files_fuse.py:522-554 | lookup finds exactly the node whose path is the name below a live directory, and a live directory lists a name, with its inode, exactly when lookup resolves the name to that inode |
| `FilesIndex.InodesAreNeverReused` | services/sulla-files-fuse/sulla_files_fuse.py:474-482 | over any history an inode number names one path, and never comes back once that path is gone |
| `FilesSnapshot.KindIsFirstMention` | services/sulla-files-fuse/sulla_files_fuse.py:423-452 | a path keeps its kind and manifest mark; a new one has the kind of its first mention |
| `FilesSnapshot.LastFileShows` | services/sulla-files-fuse/sulla_files_fuse.py:444-452 | the last file row of a path decides which file and size it shows |
| `FilesSnapshot.RealFileWinsExactly` | services/sulla-files-fuse/sulla_files_fuse.py:423-482 | a real file is shown as one exactly when its path was neither a manifest nor a directory before and, if it is new, its first mention is a file; its id is there in any case |
| `FilesSnapshot.ManifestHidesFile` | services/sulla-files-fuse/sulla_files_fuse.py:444-469 | the snapshot of an empty collection makes a manifest, and a real file of that name in the next one is still shown as virtual |
| `FilesSnapshot.DirectoryHidesFile` | services/sulla-files-fuse/sulla_files_fuse.py:474-482 | the snapshot of a folder with the manifest's name makes a directory, and a real file of that name in the next one is shown as a directory, though the path never was a manifest |
| `FilesSnapshot.OrphansExactly` | services/sulla-files-fuse/sulla_files_fuse.py:455-472 | after a snapshot a path's directory is live except exactly for manifests of directories that the snapshot drops |
| `FilesSnapshot.ManifestIsOrphaned` | services/sulla-files-fuse/sulla_files_fuse.py:455-472 | a collection that is gone in the next snapshot leaves the manifest of its directory behind |
| `FilesShown.ReflectsShows` | services/sulla-files-fuse/sulla_files_fuse.py:418-472 | an index that follows the mentions of a snapshot shows the snapshot: live are exactly the root, what collections, folders and files name, and manifests; each path has the kind of its first naming, the collection of its last, the last file row of its place, and the mark of a collection's root |
| `FilesShown.FileRowsAreShown` | services/sulla-files-fuse/sulla_files_fuse.py:444-452 | a file row of a known collection is live at the collection's path and its own, and shows the last row of that place |
| `FilesShown.FoldersAreShown` | services/sulla-files-fuse/sulla_files_fuse.py:436-443 | a folder of a known collection is live below the collection's path, with everything above it |
| `FilesShown.CollectionsAreShown` | services/sulla-files-fuse/sulla_files_fuse.py:425-435 | a collection's path is live, with everything above it, and marked as its root |
| `FilesView.SullaFiles.AddMentioned` | services/sulla-files-fuse/sulla_files_fuse.py:420-452 | the three loops leave every path as the mentions in order say, and collect exactly the mentioned paths; `FilesShown` says what these are |
| `FilesView.SullaFiles.AddManifests` | services/sulla-files-fuse/sulla_files_fuse.py:455-469 | manifests are made exactly in directories of a collection outside repositories where nothing is present |
| `FilesView.SullaFiles.ForgetMissing` | services/sulla-files-fuse/sulla_files_fuse.py:470-472 | exactly the paths that are not present are dropped |
| `FilesView.SullaFiles.Apply` | services/sulla-files-fuse/sulla_files_fuse.py:418-472 | the mount shows the snapshot: live are exactly the root, what its collections, folders and files name below their collections' paths, and the manifests, each with the node it should have; surviving paths keep inode and kind; the indexes agree |
| `FilesView.ShowHiddenFile` | services/sulla-files-fuse/sulla_files_fuse.py:418-472 | a mount that applies those two snapshots shows the file as virtual |
| `FilesView.ShowFileAsDirectory` | services/sulla-files-fuse/sulla_files_fuse.py:418-482 | so does a mount that applies the folder's snapshot and the file's: it shows the file as a directory |
| `FilesView.KeepOrphan` | services/sulla-files-fuse/sulla_files_fuse.py:418-472 | a mount that applies those two snapshots keeps a manifest whose directory is gone |
| `FilesView.SullaFiles.Lookup` | services/sulla-files-fuse/sulla_files_fuse.py:522-534 | the name's inode, ENOENT, or the refresh's error with nothing changed |
| `FilesView.SullaFiles.Readdir` | services/sulla-files-fuse/sulla_files_fuse.py:543-554 | a page of the sorted listing from the given start with the children's inodes; a dropped directory faults |
| `FilesListing.SortedIsUnique` | services/sulla-files-fuse/sulla_files_fuse.py:550-554 | a directory has one sorted listing |
| `FilesListing.LessExactly` | services/sulla-files-fuse/sulla_files_fuse.py:550-554 | names are ordered by their first different character, a prefix before what it begins |
| `FilesListing.PagesListEverything` | services/sulla-files-fuse/sulla_files_fuse.py:543-554 | pages of any sizes read on until an empty one list every name exactly once, in order |
| `FilesView.SullaFiles.Create` | services/sulla-files-fuse/sulla_files_fuse.py:769-779 | each refusal with its errno (400 as EINVAL, 403 as EACCES) and nothing changed; else the file is stored with the service's id and size in its directory's collection, even when opening it then fails |
| `FilesView.SullaFiles.Mkdir` | services/sulla-files-fuse/sulla_files_fuse.py:827-833 | each refusal with its errno and nothing changed; else the directory is in the indexes, in its parent's collection |
| `FilesView.SullaFiles.Unlink` | services/sulla-files-fuse/sulla_files_fuse.py:819-824 | drops exactly the file's path when it succeeds; a file without id faults |
| `FilesView.SullaFiles.Rmdir` | services/sulla-files-fuse/sulla_files_fuse.py:836-841 | drops exactly the path when it succeeds; collection roots are refused; below a directory without a collection it faults and the service is not asked |
| `FilesView.SullaFiles.ServeAll` | services/sulla-files-fuse/sulla_files_fuse.py:418-489 | after any sequence of operations the indexes agree and the states form a history |
| `HandleBuffer.Truncated` | services/sulla-files-fuse/sulla_files_fuse.py:686 | cutting or lengthening keeps the bytes in range and fills with zeros |
| `HandleBuffer.Overwritten` | services/sulla-files-fuse/sulla_files_fuse.py:669 | a positional write changes the bytes of its range only, zeros before it |
| `HandleBuffer.RefinesByteArray` | services/sulla-files-fuse/sulla_files_fuse.py:656-694 | under any writes, appends, resizes, reads and commits the size is the spool's length and each byte is the last one written there, zero in holes and after cuts |
| `HandleBuffer.ReadsLastWritten` | services/sulla-files-fuse/sulla_files_fuse.py:656-658 | a read returns the last bytes written in its range, cut at the end |
| `HandleBuffer.CommitSendsLastWritten` | services/sulla-files-fuse/sulla_files_fuse.py:696-713 | a commit asks the service exactly when there are changes, the size is in the limit and the file's node is still in the indexes, and then sends the whole file as last written |
| `HandleBuffer.StaysBounded` | services/sulla-files-fuse/sulla_files_fuse.py:665-685 | the size never exceeds 64 MiB |
| `HandleBuffer.RejectionIsStickyExactly` | services/sulla-files-fuse/sulla_files_fuse.py:696-726 | a rejected commit is reported by every later one, without asking again, until a change is carried out: exactly when its errno is not zero |
| `HandleBuffer.DirtyExactly` | services/sulla-files-fuse/sulla_files_fuse.py:660-737 | a handle is dirty exactly when a change was carried out, or it was opened truncated, after the last commit the service answered |
| `HandleBuffer.CommitAsksWhenOwed` | services/sulla-files-fuse/sulla_files_fuse.py:696-713 | so a commit asks the service exactly then (within the limit and while the node is there): never twice for one change |
| `HandleBuffer.AnsweredCommit` | services/sulla-files-fuse/sulla_files_fuse.py:713-737 | what an answered commit leaves: stored as it was, merged contents, or rejected with 400 as EINVAL, 403 as EACCES and any other errno as it is |
| `HandleBuffer.TakenCommitIsQuiet` | services/sulla-files-fuse/sulla_files_fuse.py:696-737 | after a commit that was stored or merged every later one without a change in between sends nothing and succeeds |
| `HandleBuffer.RepliesExactly` | services/sulla-files-fuse/sulla_files_fuse.py:660-694 | a write or resize beyond the limit is refused and changes nothing; any other is carried out and marks the handle as changed, even where its reply is an error |
| `HandleBuffer.ChangeRetries` | services/sulla-files-fuse/sulla_files_fuse.py:660-694 | after a change that is carried out the next commit sends the file again, or faults if the file's node is gone |
| `HandleBuffer.Handle.constructor` | services/sulla-files-fuse/sulla_files_fuse.py:573-588 | an opened handle holds the file's bytes and is clean, or is empty and changed when truncated |
| `HandleBuffer.Handle.Write` | services/sulla-files-fuse/sulla_files_fuse.py:660-675 | the write lands at the offset, or at the end of an appending handle, and clears a sticky error; beyond the limit it is refused and changes nothing: state and reply are those the results above are about |
| `HandleBuffer.Handle.Resize` | services/sulla-files-fuse/sulla_files_fuse.py:678-694 | the spool is cut or lengthened and a sticky error cleared, even when the call is then refused for its other attributes or faults because the file's node is gone; beyond the limit nothing changes: state and reply as above |
| `HandleBuffer.Handle.Commit` | services/sulla-files-fuse/sulla_files_fuse.py:696-737 | a clean handle reports its sticky error without asking the service; else a file whose node is gone faults and one that is there is sent whole, and the answer stores it, replaces it by the merged contents, or is rejected with the mapped errno; an answered handle is clean again: state and reply are those the results above are about |
| `FilesHandles.Flush` | services/sulla-files-fuse/sulla_files_fuse.py:696-737 | a commit on an inode's handle: the handle does as above, the node's size follows what is stored, and the indexes agree |
| `FilesHandles.SetSize` | services/sulla-files-fuse/sulla_files_fuse.py:678-694 | a resize on an inode's handle: the handle does as above, the node's size follows, and the indexes agree |
| `FilesHandles.DroppedIsNeverSent` | services/sulla-files-fuse/sulla_files_fuse.py:484-489 | once a file's path is dropped nothing of its handle is sent any more, whatever the indexes go through: its inode does not come back, its changes stay in the handle, and each commit of them fails |
| `Downloads.Installer.Prepare` | scripts/postinstall.ts:60-78 | fails exactly when some dependency is unknown and names the first one; else both tables hold exactly the dependencies |
| `Downloads.Installer.LaunchRoots` | scripts/postinstall.ts:109-111 | starts the items without dependencies; this is in order exactly when no such item shares its key |
| `Downloads.Installer.Complete` | scripts/postinstall.ts:99-106 | the ended download is done whether it failed or not; every start that follows is a first one after its dependencies, and none that could start is left out |
| `Downloads.Installer.DownloadAll` | scripts/postinstall.ts:52-143 | in the end every name that started is done (a second copy of a root that shares its key may still be running), whatever did not start waits for something that did not, starts were once and after dependencies exactly when no root shares its key; downloads ended as the world had them end, and the result names those that failed, in order, or what is left |
| `Downloads.RootsOrderlyExactly` | scripts/postinstall.ts:109-111 | the first starts are in order exactly when no dependency-free item shares its key |
| `Downloads.SharedKeyStartsTwice` | scripts/postinstall.ts:109-111 | two dependency-free items with one key start one download twice |
| `Downloads.LeftOverExactly` | scripts/postinstall.ts:101-126 | left over are exactly the downloads that need, directly or not, one that needs itself |
| `Downloads.AcyclicFinishes` | scripts/postinstall.ts:101-126 | on an acyclic graph everything is done |
| `ExecFrames.Uint32RoundTrip` | src/runtime-agent/exec.go:78 | a length on the wire is read back modulo 2^32 |
| `ExecFrames.HeaderTells` | src/runtime-agent/exec.go:74-84 | whatever is sent carries its type and its length, high byte first, in front |
| `ExecFrames.ExitCodeExactly` | src/runtime-agent/exec.go:101-105 | an exit code survives exactly when it fits in 32 signed bits |
| `ExecFrames.FrameWriter.Send` | src/runtime-agent/exec.go:74-84 | one whole frame is appended, or the part of it that the connection took |
| `ExecFrames.StreamWriter.Write` | src/runtime-agent/exec.go:91-99 | all frames of the bytes are appended and counted, or as much as the connection took; the count is then that of the bytes in complete frames: so many frames are on the wire, and the next is not |
| `ExecFrames.ChunksCarry` | src/runtime-agent/exec.go:91-99 | the frames of a write are non-empty, at most 1 MiB, and carry exactly its bytes |
| `ExecFrames.ParseRoundTrip` | src/runtime-agent/exec.go:74-84 | splitting the stream gives back the frames, whatever follows |
| `ExecFrames.CutParsesToPrefix` | src/runtime-agent/exec.go:74-84 | a stream that breaks off anywhere shows a prefix of the frames |
| `ExecFrames.SessionRoundTrip` | src/runtime-agent/exec.go:74-162 | for any interleaving of stdout and stderr writes each stream is put together exactly, followed by the exit code |
| `ExecFrames.SessionOfTurns` | src/runtime-agent/exec.go:74-162 | the same for two writers that take the frame lock in any turns, frame by frame |
| `ExecFrames.CopyStdinFrames` | src/runtime-agent/exec.go:165-182 | writes, takes and ends exactly as specified, errors included |
| `ExecFrames.ForwardExactly` | src/runtime-agent/exec.go:165-182 | any input at all is forwarded as the whole chunks it begins with, and what comes behind them decides how it ends: the empty frame closes, a wrong type or a length above 1 MiB is an error, a chunk that breaks off is written as far as it goes |
| `ExecFrames.ForwardsEncodedChunks` | src/runtime-agent/exec.go:165-182 | any encoded list of non-empty chunks and the empty frame is forwarded as their concatenation, and nothing behind is taken |
| `ExecFrames.ClosedOnlyByEmptyFrame` | src/runtime-agent/exec.go:165-182 | forwarding ends closed only on such an encoding |

## Left out

- Parameter validation and coercion (`validateParams`), prompt texts, template substitution, times, labels, logging, events and secret redaction: arbitrary functions, opaque values or not modelled.
- A tool list with clashing names or a resume checkpoint of an invalid phase is refused before a turn starts; `BuildToolIndex` states the first, the types exclude the second.
- Streaming, HTTP and provider adapters: the adapter is a function from transcript and moment to a reply or an error.
- Tool names and ids are sequences of Unicode characters, not of UTF-16 units, so a character outside the basic plane counts once.
- Routes.SimilarityMatchExactly: scores and limits are exact ratios, so rounding at the limits is not modelled.
- A fractional `maxIterations` of a loop, and loop conversation records; a stop condition that is a template is an arbitrary answer per step.
- PlaybookParallel.AnyOrder: the order inside the frontier and completed lists may differ; the next step taken may then be another one.
- A pending router decision without routes makes the source throw; `ResolveDecision` requires routes, and every run keeps them.
- Sharing of loop records by several copies of a playbook state is stated for one step or one answer on a held state (`PlaybookInPlace`); the runs are about states whose copies are not used again.
- Aborting a playbook, parallelism limits and sub-workflow contents.
- Rename, extended attributes, collection-relative paths, times, ETags and the metadata cache of the mount; metadata commits of manifest files.
- Mount operations run one after the other; suspension between a service call and the index update is not modelled.
- An attribute change of a file without a size, which changes nothing and is refused or ignored.
- FilesHandles.Flush: of what a commit's answer changes in the file's node only the size is modelled; a handle whose path is dropped while the service is being asked is left out with the suspension above.
- Short or failing writes to the local spool file, the limit on open handles, and handles after release.
- The time limit of the downloads; the state it would interrupt satisfies the same invariants.
- A failing write to the process's stdin; guest boot, signals and sockets around the exec stream.
- Desktop startup, windows, vault cryptography, packaging and provisioning: plumbing or foreign code.
