# A verified model of the GB2 desktop agent core

GB2 is a desktop automation agent. A goal such as "draw a house in Paint" is turned into a plan. A
(here scripted) LLM proposes one action at a time. An executor turns each action into mouse and
keyboard commands, translated into the foreground window's coordinates. Verifiers check windows,
processes, pixels and the screen against what was expected. A knowledge store keeps append-only
records of successes, failures, state transitions and learned patterns.

This project models that core in Dafny, one module per source file:

| module | source file | form |
|---|---|---|
| `GoalVerifier` | `goal_verifier.py` | confidence loop as a method, checks as functions |
| `ActionVerifier` | `action_verifier.py` | checks as functions, `verify_state` as a loop method, a log class |
| `GoalPlanner` | `goal_planner.py` | a planner class with an append-only breakdown list, loop methods |
| `SchemaValidator` | `schema_validator.py` | pure "first missing field" functions |
| `KnowledgeManager` | `knowledge_manager.py` | a class over append-only stores, filter and map functions |
| `ContextManager` | `context_manager.py` | a class over the context map, ranking by a stable sort |
| `LlmInterface` | `llm_interface.py` | a class with the scripted-sequence cursor |
| `AgentCore` | `agent_core.py` | the agent class, its `run` loop given by a reference function `Loop` |
| `ActionChain` | `action_chain.py` | a class whose chain loop matches the function `Chain` |
| `Agent` | `agent.py` | `is_program_open` and `execute_next_action` |
| `StateManager` | `state_manager.py` | the previous/current snapshot shift |
| `ActionExecutor` | `action_executor.py` | dispatch as a function over an abstract backend |
| `InputManager` | `input_manager.py` | the input class with its bounded retry loops and histories |
| `CoordinateSystem` | `coordinate_system.py` | coordinate translation |
| `AppCore` | `app_core.py` | the system self tests and the model-name parse |

Three shared modules support the others:

- `Values` models Python's JSON-shaped values. A dict is an ordered list of pairs. It gives
  truthiness, `get`, `d[k] = v`, `==`, `in`, iteration, `repr`/`str` and `json.dumps`.
- `Text` models the `str` operations the agent uses.
- `StableSort` models `sorted(..., reverse=True)`.

Python semantics worth knowing when reading the model:

- Bools compare and add as 0/1.
- Iterating a dict yields its keys, and iterating a string yields its characters.
- An exception that the source does not catch is a `None`/`Raised` result.

Calls into the operating system, the screen, the keyboard, the network and the file system are
parameters. So are helpers that the source calls but never defines (see "Left out").

The source has several mismatches between its files:

- `agent_core.py:79` passes an action's arguments under `function_params`, but
  `action_executor.py:21` reads `parameters`. Scripted actions therefore always run with the
  handlers' defaults. The model keeps the two keys distinct and proves this
  (`AgentCore.ParametersNeverReachHandler`).
- The scripted actions `launch_program`, `get_window_info`, `drag_mouse` and `type_text` have no
  handler. They fail with "Unknown action" (`AgentCore.DrawHouseExecution` shows this for the
  house-drawing script).
- `action_chain.py:23` and `agent.py:29` call `execute_action` with two arguments, but the executor
  takes one. The model takes those executors as parameters.

## Model

| member | source | states |
|---|---|---|
| GoalVerifier.LoadedPatternsNonEmpty | goal_verifier.py:154-168 | at least one pattern result is collected iff some template loads |
| GoalVerifier.VisualPassedIff | goal_verifier.py:144-174 | the visual check passes iff no exception occurs and at least one template loads, whatever the match flags say |
| GoalVerifier.CountBelowIndices | goal_verifier.py:82-83 | the recursive count of grey levels below the limit equals the number of positions holding one |
| GoalVerifier.DrawingPresentIff | goal_verifier.py:72-88 | a drawing is reported iff the check does not raise, a canvas is detected and more than 1000 of its pixels are below 250 |
| GoalVerifier.GoalSpecificDispatch | goal_verifier.py:62-70 | the lower-cased goal picks the check: "draw" selects the drawing check over "open", which selects the program window; any other goal passes |
| GoalVerifier.CalculateConfidence | goal_verifier.py:90-103 | the accumulated score equals the weighted sum (4, 3 and 3 tenths) over the truthy checks |
| GoalVerifier.ScoreValues | goal_verifier.py:90-103 | the confidence lies between 0 and 10 tenths and is one of 0, 3, 4, 6, 7 or 10 |
| GoalVerifier.PassIffAllChecks | goal_verifier.py:56 | confidence above 0.8 iff all three checks are truthy |
| GoalVerifier.RecheckIffAtMostOne | goal_verifier.py:43-51 | a re-check (confidence below 0.5) happens iff at most one weight is earned |
| GoalVerifier.VerifyGoalCompletion | goal_verifier.py:14-60 | an exception gives (False, None); otherwise the state check is kept from the first round, a single re-check recomputes the other two, and passed iff confidence > 0.8 iff all checks pass |
| ActionVerifier.VerifyProgramRunning | action_verifier.py:19-23 | true iff a process name equals the program name ignoring case; a non-string name raises |
| ActionVerifier.SubstringIsNotRunning | action_verifier.py:19-23 | "paint" is not running when only "mspaint.exe" is (equality, not substring) |
| ActionVerifier.VerifyWindowExists | action_verifier.py:25-38 | true iff some visible window's title contains the wanted title ignoring case |
| ActionVerifier.WindowActive | action_verifier.py:40-46 | true iff the foreground title contains the wanted title ignoring case; a non-string title raises |
| ActionVerifier.UiElement | action_verifier.py:48-56 | success iff the info is a dict with an image path and the element is located; an error fails |
| ActionVerifier.FileCheck | action_verifier.py:58-60 | a string path: true iff the file exists; an int or bool: true iff that file descriptor is open; any other value raises; the message follows the verdict |
| ActionVerifier.ColorMatches | action_verifier.py:62-69 | every channel (up to the shorter colour) differs from the expected one by strictly less than the tolerance |
| ActionVerifier.ToleranceIsStrict | action_verifier.py:66-67 | a channel exactly tolerance away fails; one less passes |
| ActionVerifier.ZipCheckOnInts | action_verifier.py:66-67 | the comprehension on integer colours is exactly the channel check |
| ActionVerifier.PixelColorDefaultTolerance | action_verifier.py:62-69 | without a tolerance parameter, 5 is used |
| ActionVerifier.PixelColorScalarColorRaises | action_verifier.py:63-67 | a colour that cannot be iterated raises in `zip`, whatever the pixel |
| ActionVerifier.TextEntered | action_verifier.py:118-130 | true iff the focused window matches and the control's text equals the expected text; an unfocused window gives its own message |
| ActionVerifier.VerifyState | action_verifier.py:90-116 | the loop's verdict equals the reference first-failure function over the requirements |
| ActionVerifier.RequirementsFirstStop | action_verifier.py:90-116 | all requirements met gives success; otherwise the first requirement that stops decides the outcome |
| ActionVerifier.RequirementsEnforced | action_verifier.py:95-114 | unknown keys and falsy flags are skipped; a window requirement holds iff the foreground title matches |
| ActionVerifier.VerifyAction | action_verifier.py:13-17 | dispatch to `verify_<type>` for each known type; an unknown type gives "Unknown verification method", and so does the type "action" whose parameter does not name a check |
| ActionVerifier.Verifier.LogVerification | action_verifier.py:71-88 | appends exactly one log entry with time, type, result and message |
| GoalPlanner.Planner.StoreGoalBreakdown | goal_planner.py:95-113 | appends one breakdown record and changes nothing else |
| GoalPlanner.Planner.BreakDownGoal | goal_planner.py:27-84 | a plan is accepted iff there is no error and the parsed reply is a non-empty dict with a `steps` key; it then gets `current_step_index` 0 and is recorded; otherwise nothing is recorded |
| GoalPlanner.AcceptedPlanStartsAtZero | goal_planner.py:71-80 | an accepted plan's index is 0 and its steps are untouched |
| GoalPlanner.CreateFallbackSteps | goal_planner.py:86-93 | exactly one step `analyze_goal` with the goal in its description |
| GoalPlanner.AdaptStep | goal_planner.py:161-170 | only the description changes: each `{goal}` becomes the goal |
| GoalPlanner.AdaptPatternToGoal | goal_planner.py:161-170 | every step is adapted, in order; a step that is not a dict with a string description raises |
| GoalPlanner.AdaptWithoutPlaceholder | goal_planner.py:161-170 | a description without a placeholder is unchanged |
| GoalPlanner.LoadGoalContext | goal_planner.py:178-190 | every entry is a keyword with an existing file and that file's content; with no read error the context holds exactly the keywords whose file exists; when a read raises, the error is caught and it holds exactly those keywords before the first unreadable one |
| SchemaValidator.FirstMissing | schema_validator.py:17-56 | reports the first field, in declared order, that the value lacks |
| SchemaValidator.FirstBadEntry | schema_validator.py:17-56 | reports the first entry that lacks a required field |
| SchemaValidator.ValidateResponse | schema_validator.py:16-56 | unknown schema, invalid JSON text and the schema check on the parsed value |
| SchemaValidator.CheckSchemaValidIff | schema_validator.py:26-51 | a schema whose one required field holds its entries accepts a dict (with dict entries) iff that field is a list whose entries all have every entry field |
| SchemaValidator.GoalBreakdownValidIff | schema_validator.py:26-39 | a goal breakdown is valid iff it has a list of steps each with name, description and verification |
| SchemaValidator.StateCheckValidIff | schema_validator.py:41-49 | a state check is valid iff it has a list of required states each with its fields |
| SchemaValidator.StepReportsFirstMissingField | schema_validator.py:36-39 | a step with a name but no description reports the description |
| SchemaValidator.EmptyStepsValid | schema_validator.py:17-56 | an empty step list is valid |
| KnowledgeManager.LoadJson | knowledge_manager.py:246-253 | the file's content, else the default, else `{}` |
| KnowledgeManager.SimilarStates | knowledge_manager.py:150-153 | defined exactly for two dicts (`.get` raises otherwise) |
| KnowledgeManager.SimilarStatesIff | knowledge_manager.py:150-153 | similar iff the three key attributes are equal, a missing one read as None |
| KnowledgeManager.SimilarStatesIgnoresOtherKeys | knowledge_manager.py:150-153 | other keys never affect similarity |
| KnowledgeManager.SimilarStatesMissingIsNone | knowledge_manager.py:150-153 | a missing key equals an explicit None |
| KnowledgeManager.CollectAppend | knowledge_manager.py:59-80 | collecting over one more entry appends that entry's contribution |
| KnowledgeManager.CollectMembers | knowledge_manager.py:59-80 | a value is collected iff some entry contributes it |
| KnowledgeManager.AlternativesAppend | knowledge_manager.py:59-80 | a stored success adds its action at the end iff its pre-state is similar |
| KnowledgeManager.AlternativesMembers | knowledge_manager.py:59-80 | an action is an alternative iff some success with a similar pre-state has it |
| KnowledgeManager.ActionEntryWellFormed | knowledge_manager.py:11-33 | a stored action entry can be read back by the alternatives filter |
| KnowledgeManager.CategorizeGoal | knowledge_manager.py:204-214 | every goal is categorised as "general_task" |
| KnowledgeManager.GeneralStepShape | knowledge_manager.py:216-239 | four entries; type is the step's verification (default 'action'); the description is kept |
| KnowledgeManager.GeneralStepDefaults | knowledge_manager.py:216-227 | required states are read from the step's `required_state` key and the success pattern from `success_pattern`, each defaulting to {} |
| KnowledgeManager.GeneralizeSteps | knowledge_manager.py:216-227 | every step is generalised in order; a step without a description or not a dict raises |
| KnowledgeManager.Knowledge.StoreSuccessfulAction | knowledge_manager.py:11-33 | appends one entry to the successes and nothing else changes |
| KnowledgeManager.Knowledge.StoreFailedAction | knowledge_manager.py:35-57 | appends one entry to the failures and nothing else changes |
| KnowledgeManager.Knowledge.StoreStateTransition | knowledge_manager.py:82-102 | appends one transition and nothing else changes |
| KnowledgeManager.Knowledge.StoreVerificationFailure | knowledge_manager.py:104-125 | appends one verification failure and nothing else changes |
| KnowledgeManager.Knowledge.StoreFailedAttempt | knowledge_manager.py:127-148 | appends one failed attempt and nothing else changes |
| KnowledgeManager.Knowledge.GetAlternativeActions | knowledge_manager.py:59-80 | the filtered actions of similar successes, or [] on an exception |
| KnowledgeManager.Knowledge.LearnFromSuccess | knowledge_manager.py:180-202 | succeeds iff every step can be generalised, else nothing changes; then only the patterns change: an existing "general_task" counts one more success with the new time and keeps its steps, a new one holds the category, the generalised steps in order, an empty context, the time and count 1; other patterns are kept |
| KnowledgeManager.Knowledge.StoreGoalAttempt | knowledge_manager.py:163-178 | always appends the attempt to the history; a falsy success leaves the patterns alone; a truthy one learns exactly as `LearnFromSuccess` does, stamped with the second clock reading, succeeding iff the steps can be generalised |
| StableSort.InsertNonIncreasing | context_manager.py:87 | insertion keeps a list ordered by descending key |
| StableSort.InsertMembers | context_manager.py:87 | insertion adds only the new element |
| StableSort.SortNonIncreasing | context_manager.py:87 | the sort orders by descending relevance |
| StableSort.SortPermutation | context_manager.py:87 | the sort is a permutation of its input |
| StableSort.InsertWithKey | context_manager.py:87 | insertion keeps the relative order of equal keys |
| StableSort.SortStable | context_manager.py:87 | the sort is stable: equal keys keep their input order |
| ContextManager.KeptTokens | context_manager.py:60-70 | a token is kept iff it is not a stop word and does not occur inside `string.punctuation` (so "--" or "hello!" are kept) |
| ContextManager.Dedup | context_manager.py:60-70 | each kept word once, nothing added |
| ContextManager.TopKeptSpec | context_manager.py:63-70 | at most ten tokens, each kept and present in the input, by non-increasing count |
| ContextManager.TopKeptDistinct | context_manager.py:66-70 | no token is chosen twice, since the frequency table has one entry per token |
| ContextManager.TopKeptLeftOut | context_manager.py:66-70 | a kept token of the input that is not chosen occurs no more often than any chosen one, and then exactly ten are chosen |
| ContextManager.TopKeptMostFrequent | context_manager.py:66-70 | for every kept token: a token left out occurs no more often than any chosen one; fewer than ten are chosen only when all kept tokens are |
| ContextManager.TakeRankedIsTop | context_manager.py:70 | the first ten of a list ranked by descending count leave out only elements counted no more often than any chosen one |
| ContextManager.ExtractKeywords | context_manager.py:60-70 | at most 10 distinct keywords, each a kept token of the lower-cased text, by descending frequency; they are the most frequent kept tokens, and all of them when there are fewer than ten |
| ContextManager.KeptCount | context_manager.py:60-70 | filtering keeps every occurrence of a kept word, so its frequency is unchanged |
| ContextManager.Contribution | context_manager.py:72-89 | a file contributes iff it is a `.json` of a known context sharing a keyword; relevance lies in (0, 1] |
| ContextManager.CandidatesMembers | context_manager.py:72-89 | a candidate is exactly a file's contribution |
| ContextManager.ContextStore.CreateContext | context_manager.py:23-40 | stores the record with its keywords and the two clock readings; an existing creation time is kept |
| ContextManager.ContextStore.UpdateContext | context_manager.py:49-58 | an unknown domain changes nothing; otherwise content and keywords are rebuilt |
| ContextManager.ContextStore.ContributionOf | context_manager.py:77-87 | one listed file adds exactly its contribution: a `.json` file whose stored context shares keywords with the query |
| ContextManager.ContextStore.CollectRelevant | context_manager.py:72-86 | the loop collects exactly the candidates |
| ContextManager.ContextStore.FindRelevantContexts | context_manager.py:72-89 | the candidates ranked by descending relevance, a stable permutation |
| LlmInterface.SequenceForDispatch | llm_interface.py:158-170 | "draw" and "house" select the 9-step house script over the email script; otherwise none |
| LlmInterface.Llm.StartConversation | llm_interface.py:146-172 | history is the system and goal messages, the cursor is 0 and the script is selected |
| LlmInterface.Llm.GenerateResponse | llm_interface.py:174-197 | returns the script entry at the cursor and advances it once; at the end or without a script it returns None |
| LlmInterface.Llm.GetNextAction | llm_interface.py:199-209 | the thought and action of the next entry, else (None, None) |
| LlmInterface.Llm.AddActionResult | llm_interface.py:211-216 | appends one "Action_Response:" message with the dumped result |
| LlmInterface.ReplayAll | llm_interface.py:174-209 | polling replays the selected script exactly, then returns None |
| AgentCore.LoopBounds | agent_core.py:64-98 | the retry counter never exceeds 3 and no more replies are consumed than exist |
| AgentCore.LoopWellFormed | agent_core.py:64-98 | with well-formed actions whose results carry "success", every reply is executed once, in order, and the counter stays 0 |
| AgentCore.ThreeFailuresStop | agent_core.py:76-98 | three iterations in a row that raise (a malformed action or a result without "success") stop the loop with nothing fed back |
| AgentCore.MissingSuccessCountsFailure | agent_core.py:82-97 | a result without "success" raises at its lookup: nothing is fed back and the retry counter goes up |
| AgentCore.ExecutorCompletes | agent_core.py:82-94 | the agent's executor always reports "success", so a well-formed action completes its iteration |
| AgentCore.ParametersNeverReachHandler | agent_core.py:78-82 | the executor never sees the arguments under `function_params` |
| AgentCore.UnknownCall | action_executor.py:35-40 | a name without a handler fails with "Unknown action: name" |
| AgentCore.ScriptWellFormed | llm_interface.py:15-144 | every scripted action is truthy and has both keys |
| AgentCore.ScriptRunsToEnd | agent_core.py:64-98 | with an executor that reports "success", the loop runs each scripted action, in order, to the end |
| AgentCore.DrawHouseExecution | llm_interface.py:15-144 | scripted steps without a handler fail as unknown; the clicks run with default coordinates |
| AgentCore.Agent.SetGoal | agent_core.py:19-53 | succeeds iff a prompt can be built; it then resets the goal, thoughts and queue and starts the conversation; otherwise nothing changes |
| AgentCore.Agent.Poll | agent_core.py:66-97 | one pass of the loop body equals the reference `Turn`, including the failures counted for a malformed action or a result without "success" |
| AgentCore.Agent.Steps | agent_core.py:64-98 | the loop's thoughts, feedback and remaining replies equal the reference `Loop` |
| AgentCore.Agent.Run | agent_core.py:55-111 | before any goal is set the first log line raises (None); otherwise it runs the loop, then reports whether any thought was collected; `running` is cleared at the end |
| ActionChain.ChainShape | action_chain.py:19-29 | the results are the attempts of a prefix of the steps; all but the last succeeded |
| ActionChain.ChainAllSucceed | action_chain.py:19-29 | when every step succeeds, every result is kept in order |
| ActionChain.RetryReplacesFirst | action_chain.py:24-28 | a failed step with a retry strategy is replaced by the retry's result, and the chain stops if that fails too |
| ActionChain.NoRetryWithoutStrategy | action_chain.py:24-28 | a failed step without a strategy ends the chain with its result |
| ActionChain.ActionChain.AddStep | action_chain.py:16-17 | appends the step and keeps the cursor |
| ActionChain.ActionChain.ExecuteChain | action_chain.py:19-29 | the loop's results equal the reference `Chain` |
| Agent.IsProgramOpen | agent.py:41-47 | true iff "window: p" or "title: p" occurs in the vision output, ignoring case |
| Agent.IsProgramOpenIgnoresCase | agent.py:41-47 | case of program and output never matters |
| Agent.NameInsideTitleIsNotOpen | agent.py:41-47 | "paint" is not open when only "window: mspaint" is seen |
| Agent.ScanFirst | agent.py:12-17 | all programs are open iff none is launched; otherwise the first not-open program is launched |
| Agent.FalsyPlanDoesNothing | agent.py:5-7 | a falsy plan returns False and calls nothing |
| Agent.LaunchesFirstMissing | agent.py:12-17 | launches exactly the first program that is not open, once |
| Agent.LaunchAt | agent.py:12-17 | the scan stops at the first missing program |
| Agent.RunsPlannedAction | agent.py:20-35 | with every program open, the planned action is executed and its `success` returned |
| Agent.ExecuteNextAction | agent.py:1-39 | the loop's result and calls equal the reference `NextAction` |
| StateManager.Back | state_manager.py:19-34 | the k-th snapshot from the end exists iff there are more than k |
| StateManager.BackShift | state_manager.py:32-33 | a new capture becomes the latest, and older ones shift back by one |
| StateManager.StateManager.CaptureState | state_manager.py:19-34 | the current snapshot moves to previous and the new one becomes current |
| StateManager.CaptureTwice | state_manager.py:32-33 | after two captures, previous and current are the two snapshots in order |
| StateManager.ValidLastTwo | state_manager.py:15-34 | previous and current are always the last two captures |
| ActionExecutor.Perform | action_executor.py:42-44 | commands run in order up to the first that raises; success iff none raises |
| ActionExecutor.ExecuteAction | action_executor.py:17-44 | a non-dict action fails; unknown names fail; "stop" reports stopping |
| ActionExecutor.ExecuteActionReports | action_executor.py:17-44 | every result has `success`; a handled action runs a prefix of its planned commands |
| ActionExecutor.HandlerDefaults | action_executor.py:46-124 | the default parameters of click, wait, type, press and drag |
| ActionExecutor.DragTranslatesBothEnds | action_executor.py:97-115 | drag translates start and end independently |
| ActionExecutor.FocusWindowNotFound | action_executor.py:126-139 | a missing window fails with "Window not found: title" |
| CoordinateSystem.ToScreenCoords | coordinate_system.py:10-24 | offset by the window's left and top; unchanged without a window or on an error |
| CoordinateSystem.TranslationKeepsOffsets | coordinate_system.py:16-18 | the difference of two converted points equals the input difference |
| InputManager.MapKeyCases | input_manager.py:44-52 | win and windows map to "windows", esc to "escape", every other key to itself |
| InputManager.KeyParts | input_manager.py:55 | one parsed key per '+'-separated part |
| InputManager.KeyPartsShape | input_manager.py:55 | one part per separator plus one, and no part contains '+' |
| InputManager.FirstSuccessSpec | input_manager.py:58-106 | some attempt among the three succeeds iff there is a first one, which is the earliest |
| InputManager.RetryLoop | input_manager.py:58-106 | at most 3 attempts, stopping at the first success; success iff some attempt succeeds |
| InputManager.VerifyKeysReleased | input_manager.py:258-267 | true iff every key reads as not pressed; a probe error gives false |
| InputManager.VerifyWindowTitle | input_manager.py:174-181 | true iff the expected title occurs in the foreground title ignoring case; false on error |
| InputManager.WindowTitleIgnoresCase | input_manager.py:174-181 | the title check never depends on case |
| InputManager.InputManager.ExecuteKeyCombination | input_manager.py:24-117 | empty keys record nothing and return False; "win+r" in any case is recorded in the history only; otherwise the result is whether one of 3 attempts on the parsed keys succeeds, recorded in the history, and also in the failures if none did |
| InputManager.InputManager.TypeText | input_manager.py:195-250 | whether one of 3 attempts succeeds, recorded in the history, and also in the failures if none did |
| InputManager.InputManager.ClearHistory | input_manager.py:277-280 | both lists become empty |
| AppCore.ModelEntries | app_core.py:139-141 | a dict reply gives its `models` entry, or [] when absent; any other reply is used as it is |
| AppCore.EntryName | app_core.py:143-147 | the name up to its first ':', '' when absent; a non-string name raises |
| AppCore.NamesSpec | app_core.py:143-147 | the parse fails iff some dict entry's name raises; a name is listed iff some dict entry has it |
| AppCore.NoDictEntries | app_core.py:143-147 | entries that are not dicts are skipped |
| AppCore.NoModelsListed | app_core.py:139-147 | a dict without `models`, or a string reply, lists no models |
| AppCore.ScalarReplyRaises | app_core.py:143-147 | a reply that cannot be iterated raises, so the test fails |
| AppCore.TaggedVisionModelFound | app_core.py:143-151 | a tagged "llama3.2-vision:tag" entry is found under the bare name |
| AppCore.TestImports | app_core.py:103-111 | true iff all five required modules import |
| AppCore.TestDisplay | app_core.py:113-122 | true iff both screen dimensions are positive; an error gives false |
| AppCore.AppCore.TestVision | app_core.py:132-161 | true, and the vision model is set, iff the parsed names include "llama3.2-vision"; otherwise, or on an error, false and unchanged |
| AppCore.AppCore.RunSystemTests | app_core.py:92-101 | exactly the keys imports, display, coordinates and vision, in that order, with each test's result |

## Left out

- Real mouse, keyboard and screen effects, `time.sleep` delays, `_ensure_delay` and `_emergency_key_release` are left out. So are the win32, psutil, cv2 and PIL calls. Their observable outcomes are inputs: windows, processes, pixels, template loads, probe results and whether each attempt succeeds.
- ActionVerifier.VerifyProgramRunning: process names are strings. psutil reports a name of None when access to the process is denied, and then `.lower()` raises in the source; the model does not capture that exception.
- The HTTP request in `_test_vision` is an input: it is the already-decoded reply, or None when the request, the status check or decoding raises.
- JSON file reading and writing is modelled as in-memory values. File contents and directory listings are inputs, and a listing's order is taken as given.
- Logging and printing are left out.
- GoalVerifier.VerifyGoalCompletion: the returned record keeps the goal, the confidence and the check results. Its timestamp, the saved screenshot path and the echoed current and expected states are left out, and so is storing the record, because they are clock, file and pass-through values.
- nltk tokenisation and stop words are uninterpreted inputs (`Nlp`). Only the filter, the deduplication, the frequency order and the bound of 10 keywords are modelled.
- Floats are left out. Goal-verifier weights are integer tenths. Relevance is a `real` with no rounding. Timestamps are integers or strings supplied by the caller.
- Python's `lower` is modelled for ASCII letters only.
- `Values.Repr` (and `Values.Str`, which uses it for lists and dicts) always puts strings in single quotes and escapes nothing: Python's `repr` escapes backslashes, quotes and control characters, and switches to double quotes for a string that contains `'`. `Values.Dumps` follows `json.dumps` with its default ASCII-only escaping.
- Helpers the source calls but does not define are inputs:
  - `_verify_state_requirements`, `_verify_program_window`, `_detect_canvas_area` and `_load_expected_patterns`;
  - `llm.get_response` and `parse_json_response`;
  - `ActionChain._handle_retry`;
  - `executor.get_action_descriptions` (the prompt is an optional input);
  - `get_focused_control_text`;
  - `get_window_by_title`, modelled as a window lookup;
  - `StateManager._get_window_list`.

  `capture_state` as written always raises, because `GetSystemMetrics` is called with two arguments. The model takes the captured snapshot as input.
- `self.logger` and `self.base_dir` in `KnowledgeManager` are undefined. The logging calls are dropped, and the files are in-memory stores.
- `InputManager._execute_run_dialog` is left out: its outcome is an input of `ExecuteKeyCombination`. The same holds for the two keystroke methods inside each retry attempt.
- InputManager.TypeText: the `verify` and `press_enter` parameters only affect device calls, so they are not parameters of the model.
- `get_action_history` and `get_failed_actions` only return the fields. They are the fields `actionHistory` and `failedActions`.
- The source puts the same dict object in both `action_history` and `failed_actions`. The model stores equal values, which does not capture that aliasing.
- AppCore.AppCore.RunSystemTests: the coordinates test only builds a `CoordinateSystem`, which stores the logger, so it is modelled as always true.
- Concurrency (`debug_manager.py`), the GUI shells, installers and `vision_processor.py` are not part of this model.
- SchemaValidator.ValidateResponse: an exception other than a JSON decode error (such as `in` on a number, or indexing a string by a field name) returns `(False, str(e))`. The model returns `Errored` without that text, because the wording of Python's `TypeError` messages differs between interpreter versions.
- ActionVerifier.Verifier.LogVerification: the entry keeps the result message as a datatype. The f-string formatting of JSON arguments inside messages is not modelled.
