# Agent harness: run driver, pipeline, context selection, session graph

A Dafny model of the parts of the harness that have state, branching or arithmetic, with proofs about them.
`dafny verify dfyconfig.toml` checks everything.

| module | what it models |
|---|---|
| `Text` | the string operations of the host language that the rest relies on |
| `StateMachine` | the run state machine: its validators, and the default rule list read as a table |
| `Driver` | the state driver, a mutable object that fires events and logs every attempt that a rule decided |
| `DriverRuns` | whole runs of a driver: any sequence of calls, on any machine |
| `DefaultRuns` | whole runs on the default table: termination, accounting, approval |
| `Trace`, `Result` | the run trace with its validators, and how step results become trace, counters and verdict |
| `Inputs`, `Promise` | what a run of the pipeline is given, and what it promises, in terms of that input alone |
| `Pipeline` | the pipeline executor, around an arbitrary tool or model (an oracle with a ghost call log) |
| `Candidates`, `Scoring`, `Sorting`, `Selection` | context selection: gather, score, sort stably, fill under caps |
| `SelectionLaws`, `Ranking` | what a selection guarantees; what each fact adds to a score and the order that results |
| `SessionGraph` | the session graph and the validator of its references |
| `SessionReach` | what acceptance of a graph leaves open: reachable terminal nodes and loops of parents |

The driver and the executor are classes, because the program changes them in place; loops are loops, and each
method is tied to a function or a predicate about which the theorems are proved. `Driver.Step` is what one call of
the driver does, and `DriverRuns.Run` folds it over any sequence of calls, refused ones included. The runs of
`DefaultRuns` are stated for every machine that answers each state and event as the default table does;
`StateMachine.DefaultFollowsTable` shows that the default rule list is one.

## What the proofs bring out

- A new driver starts in `Created` whatever its machine's initial state is. Some machines that pass every
  validator therefore leave their drivers stuck at once; `DriverRuns.ProgressIff` says exactly which.
- A guard blocks only when its name is mapped to false; leaving it out never does. Retries are therefore not bounded
  by the machine: `DefaultRuns.BudgetIff` says exactly which calls keep them within a budget, and a caller that
  reports a spent budget makes only such calls.
- Not every run of the pipeline returns a result. It raises when the run id, the id or the request of its
  contract, or the model name is blank, when the tool executor raises, when a model provider fails with an empty
  message, and when a criterion's target is whitespace; a driver that refuses to start always ends in an
  exception, because a trace without steps is rejected. `Pipeline.PipelineExecutor.Run` states all of this exactly.
- The success flag and the terminal status of a trace agree on every run from `Created` on the default table, but
  not on every result that can be built; `Result.FlagAgreesIff` gives the condition, `Result.FlagCanDisagree` inputs
  on which they disagree.
- Ids are stripped in the trace and not in the result, so they differ exactly when they are padded
  (`Text.StripKeepsIff`).
- On every result from `Created` on the default table, `total_tool_calls` is one more than the number of calls of the
  tool, since the policy step carries the invocation too. The benchmark's verification metric passes for a run that the
  policy blocked.
- An invocation that was approved reaches the tool as pending, never as approved.
- Without boosts, files are ranked by four facts, one after the other: named explicitly, a test, code, a keyword in the
  path (`Ranking.RankingIsLexicographic`). Failing tests of relevant files come before all others.
- Raising the cap on files can push selected failures out (`Selection.FileCapEvicts` does); `Selection.FileCapEvictsIff`
  says exactly when, from the caps and the numbers of candidates. Raising the shared cap never drops anything.
- Explicitly named files come first for all caps exactly when no gathered path outside them outscores one. Only the
  import boost can bring that about, and it can.
- An accepted session graph may have looping parents and a terminal node that no walk reaches
  (`SessionReach.TerminalCanBeOutOfReach`). `SessionReach.TerminalReachableIff` and `SessionReach.ParentsLoopIff` say
  exactly which graphs do.
- Ids of nodes are stripped and references other than the entry are not. A node can therefore be referred to by the id
  it was declared with exactly when that id is unpadded (`SessionGraph.DeclaredIdResolvesIff`), except as the entry,
  which is stripped too (`SessionGraph.EntryResolvesIff`); `SessionGraph.PaddedDeclaration` shows all three cases.

## Model

| member | source | states |
|---|---|---|
| StateMachine.SetSizeIsDistinctness | models/orchestration_state_machine.py:82-86 | comparing the size of the set with that of the list decides whether the terminal states are pairwise distinct |
| StateMachine.HasUniquePairs | models/orchestration_state_machine.py:88-96 | the loop with its set of seen pairs decides whether no two rules share state and event |
| StateMachine.Validate | models/orchestration_state_machine.py:68-106 | accepts exactly the machines (id stripped) whose initial state is not terminal, whose terminals are distinct, whose pairs are unique and whose used states have a way out; otherwise names the first validator that fails |
| StateMachine.DefaultFollowsTable | models/orchestration_state_machine.py:109-147 | looking up the default rule list gives, for every state and event, the entry of an independently written table |
| StateMachine.TableHasNoDeadEnds | models/orchestration_state_machine.py:98-138 | a state of the default table is terminal exactly when no rule leaves it |
| StateMachine.DefaultMachineValid | models/orchestration_state_machine.py:141-147 | the default machine passes every validator, under any id that is not padded or blank |
| DefaultRuns.GuardsByName | models/orchestration_state_machine.py:109-127 | a call that the default table allows is refused exactly when it is a retry or a granted approval whose guard, by its literal name, is mapped to false |
| Driver.FirstRejecting | harness/state_driver.py:49-51 | the guard that blocks is the first one explicitly mapped to false; none blocks when every name is missing or true |
| Driver.AvailableEvents | harness/state_driver.py:28-34 | an event is offered exactly when the state is not terminal and a rule fits |
| Driver.AvailableInRuleOrder | harness/state_driver.py:31-34 | the available events are those at rising positions of the rule list, and no rule that starts in the state is left out |
| Driver.StateDriver.constructor | harness/state_driver.py:19-22 | a new driver is in Created with an empty history, whatever its machine |
| Driver.StateDriver.Available | harness/state_driver.py:28-34 | the loop over the rules offers the event of each rule that starts in the current state, one each and in rule order; nothing in a terminal state |
| Driver.StateDriver.Trigger | harness/state_driver.py:36-73 | outcome, current state and history after a call are those of Step, on every path: terminal, no rule, blocked, allowed |
| DriverRuns.HistoryIsOnlyWritten | harness/state_driver.py:36-73 | what a run appends and where it ends depend on the current state alone, never on the earlier history |
| DriverRuns.RunsAreLegal | harness/state_driver.py:36-73 | every history chains from state to state, holds only records that a rule and its guards justify, and ends in the current state |
| DriverRuns.LegalHistoriesReplay | harness/state_driver.py:36-73 | feeding a legal history's events and guard results to a new driver writes that history again, blocked records included |
| DriverRuns.Replay | harness/state_driver.py:36-73 | after any calls on any machine, replaying the driver's own log reproduces log and state |
| DriverRuns.ReplayDecidesGenuineness | harness/state_driver.py:36-73 | a log was written by some run if and only if it replays to itself, if and only if its records are legal one by one |
| DriverRuns.HistoryFlow | harness/state_driver.py:40-73 | in a legal history, moves into a state plus the start equal moves out of it plus the present |
| DriverRuns.FlowConservation | harness/state_driver.py:40-73 | the same for every run of every machine, refused and blocked calls included |
| DriverRuns.TriggerOutcome | harness/state_driver.py:36-73 | a call moves exactly when its event is available and no guard of its rule is false; the history grows exactly when a rule was found |
| DriverRuns.AvailableMeansFirable | harness/state_driver.py:28-48 | an event is available exactly when firing it without guard results succeeds; a validated machine offers none twice |
| DriverRuns.TerminalIsFinal | harness/state_driver.py:24-38 | no sequence of calls changes the state or history of a terminal driver |
| DriverRuns.LastMove | harness/state_driver.py:50-72 | the last allowed record is what led to the current state, and only blocked ones follow it |
| DriverRuns.RunsStayInUse | models/orchestration_state_machine.py:98-106 | a run that starts in a used state visits only used states |
| DriverRuns.ProgressIff | models/orchestration_state_machine.py:88-106 | on a validated machine no run gets stuck if and only if Created is terminal or used by the machine |
| DriverRuns.StartsWhereItSays | models/orchestration_state_machine.py:76-106 | a validated machine that starts in Created offers a new driver an event and never leaves it stuck |
| DriverRuns.ValidMachineCanStrand | harness/state_driver.py:19-22 | a machine that passes every validator and on which no call ever does anything |
| DefaultRuns.RankPaysForMoves | models/orchestration_state_machine.py:109-138 | a rank that every move but an allowed retry lowers bounds moves so far plus moves still possible |
| DefaultRuns.MovesBounded | models/orchestration_state_machine.py:109-138 | every run makes at most 9 + 8 N moves, N being its allowed retries |
| DefaultRuns.BoundIsTight | models/orchestration_state_machine.py:109-138 | for every N some run makes exactly 9 + 8 N moves with N retries |
| DefaultRuns.RetryAdds | harness/state_driver.py:36-73 | a call adds an allowed retry exactly when it asks for one where one is pending and does not map the budget guard to false |
| DefaultRuns.BudgetIff | harness/state_driver.py:50-61 | a run takes at most max retries if and only if none of its calls asks for a retry where one is pending and max were allowed without reporting the budget as spent |
| DefaultRuns.BudgetHolds | harness/state_driver.py:50-61 | a caller that reports a spent budget makes no call that goes over it, and without such calls there are at most max retries and 9 + 8 max moves |
| DefaultRuns.MovesByEvent | models/orchestration_state_machine.py:113-137 | the moves into and out of a state are the moves by the events that lead there and away |
| DefaultRuns.Ledger | models/orchestration_state_machine.py:113-137 | double entry for every state: what came in by its events went out by its events or a cancellation, or is there still |
| DefaultRuns.Accounting | models/orchestration_state_machine.py:113-127 | tool entries, tool calls, responses, prompts, retries, approvals and failures bound each other on every run, and balance exactly on a run that succeeded |
| DefaultRuns.ToolEntriesAreAuthorised | models/orchestration_state_machine.py:116-120 | before each entry to ToolRunning the last move was the tool's request or the request for approval, and a granted approval had no false gate |
| Trace.StatusesPartition | models/observability_trace.py:194-198 | successes, failures, blocks and skips add up to the number of steps |
| Result.WellNumberedIff | models/observability_trace.py:139-160 | the conditions a caller can check on its steps are exactly what the step validators and the index check accept |
| Result.TraceSteps | harness/pipeline.py:356-372 | the loop translates every step, or stops if and only if some step's trace is rejected |
| Result.TracesTell | harness/pipeline.py:357-372 | the trace of a step says of each field what the step says: a tool exactly with an invocation and a result, Success exactly for a result that succeeded, its name, latency and error |
| Result.SummaryCounts | harness/pipeline.py:374-400 | the counters, taken over the step results, are right about the trace's own steps; sub-counts never exceed their totals and the latencies add up |
| Result.MadeTraceIsValid | models/observability_trace.py:194-252 | the trace built from buildable steps passes every validator of run, steps, tools and summary |
| Result.FlagAgreesIff | harness/pipeline.py:352-384 | success flag and terminal status agree if and only if there is an error, the state is Failed, or being Succeeded goes with having no blocked step |
| Result.FlagCanDisagree | harness/pipeline.py:352-384 | buildable inputs on which they disagree, one in each direction, with the steps and states that runs on other machines pass |
| Result.BuildResult | harness/pipeline.py:352-418 | returns if and only if ids are not blank, steps exist and are well numbered; the result then is valid, every step's trace tells the step field by field, verdicts and number of violations follow from state, error and steps, and success and trace status agree exactly under the stated condition |
| Pipeline.MakeSafetyDecision | harness/pipeline.py:96-114 | the first rule for the tool decides; without one it is allowed at low risk |
| Pipeline.AppendsLegalRun | harness/state_driver.py:36-73 | whatever a run fires, the driver's earlier history stays and what is appended is a legal run of its machine |
| Pipeline.Fire | harness/pipeline.py:164-167 | one event through the driver; if the default table allows it, it moves there |
| Pipeline.TablePathWrites | harness/state_driver.py:63-73 | events that the default table allows one after the other are all written, one allowed record for each |
| Pipeline.EventsLead | harness/pipeline.py:164-304 | the events of every ending lead from Created through the default table to its final state, so none of them is refused |
| Pipeline.Advance | harness/pipeline.py:178-184 | on any driver the three events are fired up to the first that is refused; from AssemblingPrompt on the default table they lead to ToolPending |
| Pipeline.PipelineExecutor.Prepare | harness/pipeline.py:164-184 | on any driver: a refused start, a blank id or a blank request raises; a refused advance ends the run with one step and an error; otherwise the run goes on, from Created on the default table in ToolPending |
| Pipeline.PipelineExecutor.Reject | harness/pipeline.py:200-210 | a blocked action ends in Failed with two steps and no call of the oracle |
| Pipeline.PipelineExecutor.Authorise | harness/pipeline.py:186-237 | fires exactly the events of the rule's action; goes on only with an approval granted or waived as the last record |
| Pipeline.PipelineExecutor.Execute | harness/pipeline.py:239-285 | one logged call, with the driver as it was; success goes on, failure ends the run with the tool's message or "execution failed", in RetryPending on the default table; an exception leaves the driver where it was |
| Pipeline.PipelineExecutor.CheckCriteria | harness/pipeline.py:293-297 | the verdict is whether all criteria pass; there is none exactly when some criterion cannot be named |
| Pipeline.PipelineExecutor.Verify | harness/pipeline.py:287-315 | passing ends in Succeeded, not passing in Failed, each with its verification step |
| Pipeline.PipelineExecutor.RunTool | harness/pipeline.py:239-315 | from ToolRunning on the default table the run ends as ToolEnding says: events, state, steps, error, and cause of an exception |
| Pipeline.OutcomeAgreement | harness/pipeline.py:352-418 | success, final state, trace status, verdict and counters of a returned result all say the same, for every oracle |
| Promise.SomethingOrNothing | harness/pipeline.py:241-265 | the oracle gives nothing exactly when there is no result it gives, so the promise covers every run |
| Promise.SuccessIff | harness/pipeline.py:157-315 | a run that keeps the promise succeeds if and only if nothing is missing, no rule stops it, the oracle's result is a success and every criterion can be named and passes on its text |
| Pipeline.ActionByName | harness/pipeline.py:96-114 | the action taken is Block, or approval, exactly when the first rule named mock_tool, or model_generate for a model, says so |
| Pipeline.PromiseKept | harness/pipeline.py:157-315 | every ending keeps the promise: the invocation by its literal names, the output map of a model, the tool's own error message, which state follows from which result |
| Pipeline.Reports | harness/pipeline.py:374-400 | counters, total latency in seconds, policy outcomes, decisions and tool traces of a returned result, as numbers and names |
| Pipeline.PipelineExecutor.Run | harness/pipeline.py:157-315 | on any driver: the driver ends where the fired events lead it, at most one oracle call, with the rightly named invocation and right after the approval that is needed was granted or else waived, none when the first rule named mock_tool (model_generate for a model) blocks, a faithful result, and an exception without any call when the start is refused; from Created on the default table: no event is refused and each is written once as allowed, and the promise is kept: outcome, state, steps, error, cause of an exception, counters and times follow from the input and the oracle's answer, success if and only if Succeeding |
| Pipeline.PipelineExecutor.RunOnNewDriver | harness/pipeline.py:162-315 | all of this without preconditions for a run that brings no driver |
| Text.StripKeepsIff | models/observability_trace.py:212-218 | stripping changes a string exactly when it is padded |
| Text.StripSplits | models/observability_trace.py:212-218 | stripping takes whitespace off both ends and nothing else |
| Text.SplitConcat | context_selection/candidates.py:25 | splitting distributes over joining two paths with a separator |
| Candidates.ExclusionOfJoined | context_selection/candidates.py:24-32 | p/q is excluded if and only if p has an excluded component or q is excluded |
| Candidates.ExclusionIgnoresSlashes | context_selection/candidates.py:24-32 | turning backslashes into slashes never changes whether a path is excluded |
| Candidates.KnownExclusions | context_selection/candidates.py:5-32 | by name: directories and lock files anywhere in a path and extensions at its end exclude it |
| Candidates.CollectsFirstOccurrences | context_selection/candidates.py:55-84 | what the loops collect is the distinct paths that are not excluded, by first occurrence |
| Candidates.CollectIff | context_selection/candidates.py:55-84 | that description fits one list only |
| Candidates.GatherFiles | context_selection/candidates.py:55-84 | the two loops with their shared set gather exactly those paths of relevant files then top paths, as explicitly referenced exactly when relevant |
| Candidates.FileOf | context_selection/candidates.py:93-95 | the file of a test is what precedes its first "::" and nothing precedes that one; there is one exactly when "::" occurs |
| Candidates.GatherFailures | context_selection/candidates.py:87-114 | one candidate for each failing test in order, with its file, then one runtime error for each distinct log that contains Traceback, Error or Exception |
| Scoring.FirstHit | context_selection/scoring.py:23-31 | in whatever order the keywords are tried, stopping at the first hit decides whether any keyword occurs |
| Scoring.ScoreFile | context_selection/scoring.py:5-33 | the loops compute a function of the set of keywords, FileScore, which the laws of Ranking describe fact by fact |
| Scoring.ScoreFailure | context_selection/scoring.py:36-53 | likewise for FailureScore |
| Scoring.ScoreDoc | context_selection/scoring.py:56-74 | likewise for DocScore |
| Ranking.PlainFileScore | context_selection/scoring.py:14-21 | what a path is worth by itself: 40 for a test, 15 for code |
| Ranking.RelevantFileAdds | context_selection/scoring.py:14-15 | being relevant adds 100 to any score |
| Ranking.FileKeywordAdds | context_selection/scoring.py:23-31 | one more keyword adds 10 for the path and 5 for the title, each only if no keyword occurred there before |
| Ranking.PlainFailureScore | context_selection/scoring.py:36-53 | a failure without a file, or without relevant files and keywords, is worth nothing |
| Ranking.RelevantFailureAdds | context_selection/scoring.py:43-44 | a relevant file adds 90 |
| Ranking.FailureKeywordAdds | context_selection/scoring.py:46-51 | one more keyword adds 20, only if none occurred before |
| Ranking.DocKeywordAdds | context_selection/scoring.py:56-74 | one more keyword adds 30 for the title and 15 for the source, likewise |
| Ranking.DirOfJoined | context_selection/scoring.py:90 | a file under d has d as its directory, whichever way its slashes lean, and a bare name has none |
| Ranking.DirOfIff | context_selection/scoring.py:90-91 | a directory matches exactly when it is what precedes the path's last slash |
| Ranking.DirectoryAdds | context_selection/policy.py:74-75 | a selected directory adds 20 exactly to the files directly in it, and an empty one nothing |
| Ranking.ImportAdds | context_selection/policy.py:72-73 | being imported adds 40 |
| Ranking.KeywordAdds | context_selection/policy.py:62 | a keyword counts in lower case, and a blank one not at all |
| Ranking.RankingIsLexicographic | context_selection/scoring.py:5-33 | without boosts one path scores above another if and only if it comes first by relevance, then test, then code, then keyword |
| Ranking.FailuresRankByFile | context_selection/scoring.py:36-53 | a failure in a relevant file scores above one that is not, and keywords decide only between equals |
| Sorting.SortSorts | context_selection/policy.py:88-90 | the sort is descending, a permutation, and keeps equal scores in order |
| Sorting.StableSortUnique | context_selection/policy.py:88-90 | only one list is all of that, so any stable sort gives it |
| Sorting.SortConcat | context_selection/policy.py:88-90 | if nothing in the second list scores above the first, the two sort side by side |
| Selection.Fill | context_selection/policy.py:99-116 | one loop takes exactly the first min(n, cap, rest of the shared cap) items, at least none, and drops the others |
| Selection.FillAll | context_selection/policy.py:92-162 | the three loops with their shared counter, on any scored files, failures and documents |
| Selection.NothingWasted | context_selection/policy.py:97-154 | the number taken is the smaller of the shared cap and what the caps of the kinds let through |
| Selection.SharedCapIsMonotone | context_selection/policy.py:99-154 | raising the shared cap only extends the three selections |
| Selection.FileCapEvictsIff | context_selection/policy.py:99-135 | raising the cap on files pushes failures out if and only if it lets more files through and the shared cap, which had room beyond the old files, has not for the new files and all the failures their cap lets through |
| Selection.FileCapEvicts | context_selection/policy.py:99-135 | an input on which it does: two files, one failure, room for two |
| Selection.ScoreFiles | context_selection/policy.py:69-76 | every candidate with its score and boosts, each boost only if its input is given and not empty |
| Selection.ScoreFailures | context_selection/policy.py:78-81 | every failure with its score |
| Selection.Select | context_selection/policy.py:50-162 | the whole pipeline computes a function of its input lists and of the keywords as a set, the same for every enumeration of that set |
| SelectionLaws.FillConserves | context_selection/policy.py:92-154 | selected plus dropped is what was gathered, and the decisions list it in sorted order, kind by kind |
| SelectionLaws.Conservation | context_selection/policy.py:65-162 | every gathered candidate is selected or dropped once and decided once |
| SelectionLaws.Dominance | context_selection/policy.py:99-154 | within a kind nothing dropped scores above anything selected, for any sorted lists, documents included |
| SelectionLaws.SelectionDominates | context_selection/policy.py:50-162 | the same for what select returns |
| SelectionLaws.TestsSortFirst | context_selection/policy.py:78-89 | sorted failures are a block of failing tests followed by a block of runtime errors |
| SelectionLaws.FailingTestsFirst | context_selection/policy.py:78-135 | a runtime error is selected only if no failing test is dropped |
| Ranking.RelevantTestsComeFirst | context_selection/policy.py:78-135 | under all caps a failing test whose file is not relevant is selected only if no failing test of a relevant file is dropped |
| Ranking.DecisionsTell | context_selection/policy.py:99-135 | every decision names a gathered path or failing test with its score, kind and reason, or the runtime error with 0 |
| Ranking.GatheredIds | context_selection/policy.py:100-119 | the ids of all that is gathered, by name and in order |
| Ranking.ListsAreDecisions | context_selection/policy.py:92-162 | the selected lists and the dropped list are the decisions read in order |
| Ranking.DefaultCaps | context_selection/policy.py:31-34 | with the default caps the shared cap never matters: five files, three failures, two documents |
| SelectionLaws.CollectSplit | context_selection/candidates.py:62-82 | the gathered paths are those gathered from the relevant files, then only paths that are not relevant |
| SelectionLaws.OutscoredIsDropped | context_selection/policy.py:99-116 | for a gathered path there are caps that select it and drop everything that scores lower |
| SelectionLaws.ExplicitFirstIff | context_selection/policy.py:69-116 | explicitly named files come first under all caps if and only if none of them is outscored by a gathered path outside |
| SelectionLaws.ExplicitFirstWithoutImports | context_selection/scoring.py:5-33 | so it is whenever no gathered path outside is imported, the same-directory boost notwithstanding |
| SelectionLaws.ImportsCanOutrankExplicit | context_selection/scoring.py:77-83 | an input on which the import boost breaks it |
| SessionGraph.CheckNodes | models/multi_agent_session_graph_contract.py:237-245 | the node loop passes exactly distinct ids with resolved parents, and otherwise reports the first offence |
| SessionGraph.CheckEdges | models/multi_agent_session_graph_contract.py:247-254 | likewise for edge ids and ends |
| SessionGraph.CheckBranches | models/multi_agent_session_graph_contract.py:256-261 | likewise for branch entries and members |
| SessionGraph.CheckJoins | models/multi_agent_session_graph_contract.py:263-268 | likewise for join nodes and incoming nodes |
| SessionGraph.ValidateIds | models/multi_agent_session_graph_contract.py:230-285 | accepts if and only if the graph is well formed, and otherwise reports the first offence in the validator's order |
| SessionGraph.FirstOffenceIsUnique | models/multi_agent_session_graph_contract.py:230-285 | only one offence can come first, and none does in a well-formed graph, so the report is determined |
| SessionGraph.EmptyParentIsNone | models/multi_agent_session_graph_contract.py:241 | an empty parent changes nothing about acceptance |
| SessionGraph.AcceptedRecords | models/multi_agent_session_graph_contract.py:128-285 | in an accepted graph stripped ids are distinct, joins ask for no more than they have, checkpoints belong to the graph, and there is a terminal node |
| SessionGraph.WalksStayInsideIff | models/multi_agent_session_graph_contract.py:237-254 | walks of every length along edges and parents stay among the nodes if and only if the links resolve, as they do in every accepted graph |
| SessionGraph.WalksReachOneNode | models/multi_agent_session_graph_contract.py:237-254 | in an accepted graph every step of a walk names exactly one node |
| SessionReach.ReachedIff | models/multi_agent_session_graph_contract.py:237-254 | following the links from the entry until they lead nowhere new finds exactly the ids that walks of any length reach |
| SessionReach.TerminalReachableIff | models/multi_agent_session_graph_contract.py:230-285 | in an accepted graph a terminal node is in reach of the entry if and only if following the links finds one, if and only if every closed set of ids around the entry holds one |
| SessionReach.ParentsLoopIff | models/multi_agent_session_graph_contract.py:237-245 | in an accepted graph the parents loop if and only if some node has as many ancestors as there are nodes, if and only if no ranking drops from each node to its parent |
| SessionReach.TerminalCanBeOutOfReach | models/multi_agent_session_graph_contract.py:230-285 | an accepted graph whose entry is its own parent and from which no walk reaches the terminal node |
| SessionGraph.ReferencesAreUnpadded | models/multi_agent_session_graph_contract.py:84-109 | in an accepted graph every reference other than the entry is unpadded and equals some node's stripped id |
| SessionGraph.DeclaredIdResolvesIff | models/multi_agent_session_graph_contract.py:84-109 | the id a node was declared with resolves, as written, if and only if it is unpadded |
| SessionGraph.EntryResolvesIff | models/multi_agent_session_graph_contract.py:210-216 | the entry resolves if and only if it equals some node's id after both are stripped |
| SessionGraph.PaddedDeclaration | models/multi_agent_session_graph_contract.py:230-285 | a padded entry that is accepted, and a padded parent and padded edge ends that make the same graph rejected |

## Left out

- Timestamps, uuids, durations of real calls, and human-readable reasons, summaries and notes; the error text of a refused event is a fixed placeholder.
- The HTTP client of the model provider: a provider is any function from a prompt to an answer or a failure with a message.
- The substring heuristics of `_check_criterion`: whether a criterion passes a text is an arbitrary predicate, and so is the rendering of a tool's output as text.
- Case folding: `lower` is an arbitrary function on strings wherever scores are computed.
- The limits in `ExecutorConfig`: `run` never reads them, so no bound is claimed from them.
- Floating-point rounding: latencies are real numbers.
- Result.BuildResult: does not build the graders and the fixed retry metric of the benchmark run, or the durable state, which is never set.
- Tool invocations are values: that two steps of a run share one mutable invocation object is not modelled; nothing changes it once a step holds it.
- StateMachine.Validate: takes guard names as given; that they are stripped and not blank is checked when a guard is constructed.
- Driver.StateDriver.constructor: always starts a driver with an empty history in Created; drivers restored in other states are covered by the theorems that take any start state or any driver state.
- Pipeline.PipelineExecutor.Run: on a driver elsewhere than in Created, or on another table, states what it keeps and not which ending it reaches.
- Validators of policy, verification and retry traces: they hold when such a trace is constructed, before a result is built from it; only the check name of a verification can fail, and that is modelled.
- Selection.Select: gathers no documents, because `gather_doc_candidates` always returns an empty list; the third loop is covered by Selection.FillAll and SelectionLaws.Dominance for any documents.
- `context_selection/exclusions.py`: a second copy of the exclusion rules.
- Node and edge statuses, branch and join progress, and the envelope of a session graph: `validate_ids` does not look at them.
- The other contract schemas, the budget, approval and prompt schemas and the integration example: validators of static records.
