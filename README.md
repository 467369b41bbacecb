# Auto-GPT agent core in Dafny

This project models the core of an autonomous agent framework in Dafny. The core has five parts.

- **Two-tier memory.** Short-term memory is a bounded list that evicts its oldest entry first. Long-term memory is an unbounded list. An evicted entry moves to long-term memory only when its importance is at least 5. Searches match case-insensitive substrings or exact tags.
- **Goals.** A goal has a status, a priority, a result, metadata and a tree of owned sub-goals. The goal manager keeps the flat list of root goals and picks the next PENDING goal with the highest priority.
- **Tools.** The echo and calculator tools, any other tool given by its behaviour, and a registry keyed by name.
- **The agent.** It adds goals and tools, runs a tool by name, executes a goal tree depth-first, runs the loop over the root goals, and reports its status. Adding a goal or a tool stores one short-term memory and no reasoning step. A tool call that finds its tool and returns stores one short-term memory and one reasoning step; a missing or raising tool records nothing. Executing a goal tree records one reasoning step and one long-term memory per goal. Reporting the status records nothing.
- **The improvement proposer.** It turns a repository analysis into a list of suggested improvements.

Files, one module each:

- `common.dfy`: `Common`, with values, string helpers and the option type.
- `memory.dfy`: `MemoryBase`.
- `goal.dfy`: `Goals`.
- `tools.dfy`: `Tools`.
- `agent.dfy`: `CoreAgent`.
- `proposer.dfy`: `Proposer`.

## Modelling choices

The choices that shape the model:

- **Goals are values.** A goal is a `datatype`, and every operation that changes a goal returns the changed goal. The memory, the registry, the goal manager and the agent are classes whose fields change in place.
- **How a run is specified.** `Run` picks the next root goal and executes its tree. It then writes the executed tree back into the manager's list at the goal's position. Its contract relates the final list, history and long-term memory to the original list through the ghost sequence `order` of picked positions.
- **Goal execution always succeeds.** A goal with sub-goals completes only when every sub-goal completed. Every sub-goal execution itself completes. So the failure branch of execute_goal and its `return False` cannot run, and the model marks them as dead code. `ExecuteGoal` proves that the call always succeeds and that the whole tree ends COMPLETED.
- **Python's own semantics, as the code has them:**
  - `max_iterations` caps the run only when it is truthy. So `0` means "no cap", the same as absent. A negative cap gives no iterations.
  - `mark_failed` records its error only when the message is non-empty.
  - `get_next_goal` keeps the first goal among equal priorities, because Python's `max` does.
  - A present but empty `tags` or `metadata` argument is treated like an absent one.

## Model

| member | source | states |
|---|---|---|
| Common.ContainsIffOccurs | autogpt/memory/base.py:121 | The left-to-right substring scan answers true exactly when the query occurs at some position of the text. |
| Common.EmptyIsContained | autogpt/memory/base.py:121 | The empty query is a substring of every text. |
| MemoryBase.Promotable | autogpt/memory/base.py:62-66 | Keeps exactly the entries whose importance reaches the promotion threshold 5. |
| MemoryBase.PushKeepsBound | autogpt/memory/base.py:60-66 | One addition never takes short-term memory over its capacity. |
| MemoryBase.PushEvictsOldest | autogpt/memory/base.py:53-66 | One addition appends the new entry. At most one entry leaves short-term memory: the oldest, and only on overflow. Long-term memory gains that entry exactly when it is important. |
| MemoryBase.PromotableAppend | autogpt/memory/base.py:62-66 | Promotion keeps the order of evictions: it distributes over concatenation. |
| MemoryBase.PushShiftsWindow | autogpt/memory/base.py:38-66 | One addition moves the window of the newest `capacity` entries by one place. |
| MemoryBase.PushAllKeepsNewest | autogpt/memory/base.py:38-66 | After any run of additions, short-term memory holds exactly the newest `capacity` entries. Long-term memory gained exactly the important entries among those pushed out, oldest first. |
| MemoryBase.SelectMembers | autogpt/memory/base.py:117-130 | A scan keeps exactly the entries that match the criterion and never grows the list. |
| MemoryBase.SelectAppend | autogpt/memory/base.py:117-130 | A scan preserves list order. |
| MemoryBase.LookupMembers | autogpt/memory/base.py:107-157 | A search returns exactly the matching entries of short-term memory and, when asked, of long-term memory. |
| MemoryBase.EmptyQuerySelectsAll | autogpt/memory/base.py:117-122 | The empty query returns every entry in order. |
| MemoryBase.Memory.constructor | autogpt/memory/base.py:28-36 | A new store is empty and has the given capacity. |
| MemoryBase.Memory.AddToShortTerm | autogpt/memory/base.py:38-66 | The new state is one addition applied to the old one, and the capacity bound is preserved. |
| MemoryBase.Memory.AddToLongTerm | autogpt/memory/base.py:68-89 | Appends the new entry to long-term memory and leaves short-term memory unchanged. |
| MemoryBase.Memory.Search | autogpt/memory/base.py:107-130 | The loops return exactly the case-insensitive matches: short-term ones first, then long-term ones when asked, each in list order. |
| MemoryBase.Memory.SearchByTag | autogpt/memory/base.py:132-157 | The loops return exactly the entries carrying the tag: short-term ones first, then long-term ones when asked. |
| MemoryBase.Memory.ClearShortTerm | autogpt/memory/base.py:159-161 | Empties short-term memory and keeps long-term memory. |
| MemoryBase.Memory.ClearLongTerm | autogpt/memory/base.py:163-165 | Empties long-term memory and keeps short-term memory. |
| MemoryBase.Memory.ClearAll | autogpt/memory/base.py:167-170 | Empties both lists. |
| Goals.NewGoal | autogpt/core/goal.py:26-46 | A new goal is PENDING, with no sub-goals, no result and empty metadata. |
| Goals.AddSubGoal | autogpt/core/goal.py:48-55 | The sub-goal becomes the last child. The earlier children and every other field are unchanged. |
| Goals.AddSubGoalSize | autogpt/core/goal.py:48-55 | Attaching a sub-goal tree adds exactly that tree's goals to the tree. |
| Goals.MarkCompleted | autogpt/core/goal.py:57-65 | The goal becomes COMPLETED with the given result. Nothing else changes. |
| Goals.MarkFailed | autogpt/core/goal.py:67-75 | The goal becomes FAILED. A given non-empty error is recorded under "error", and otherwise the metadata is unchanged. Nothing else changes. |
| Goals.MarkInProgress | autogpt/core/goal.py:77-79 | The goal becomes IN_PROGRESS. Nothing else changes. |
| Goals.IsCompleted | autogpt/core/goal.py:81-83 | A goal is completed exactly when its status is COMPLETED; MarkCompleted establishes this, and MarkFailed and MarkInProgress clear it. |
| Goals.AllCompletedIn | autogpt/core/goal.py:85-87 | `all(...)` holds exactly when every goal in the list is COMPLETED. |
| Goals.AllSubGoalsCompleted | autogpt/core/goal.py:85-87 | Holds exactly when every sub-goal is COMPLETED. It holds vacuously when there are none. |
| Goals.CountZero | autogpt/core/goal.py:104-113 | The number of goals with a status is zero exactly when no goal has it. |
| Goals.NoPending | autogpt/core/goal.py:104-113 | The pending count is zero exactly when no root goal is PENDING. |
| Goals.NextIsUnique | autogpt/core/goal.py:104-113 | The choice rule (PENDING, highest priority, first among equals) names at most one position. |
| Goals.NextAmong | autogpt/core/goal.py:110-113 | The scan returns None exactly when no goal among the first n is PENDING. Otherwise it returns a PENDING goal of maximal priority with no earlier PENDING goal of equal priority. |
| Goals.NextOf | autogpt/core/goal.py:104-113 | None exactly when no root goal is PENDING; otherwise the position the choice rule names. |
| Goals.CompletedIn | autogpt/core/goal.py:123-129 | Keeps exactly the COMPLETED root goals, as many as there are. |
| Goals.CompletedAppend | autogpt/core/goal.py:123-129 | The filter keeps list order: filtering a concatenation concatenates the filtered parts. |
| Goals.GoalManager.constructor | autogpt/core/goal.py:93-94 | A new manager has no goals. |
| Goals.GoalManager.AddGoal | autogpt/core/goal.py:96-102 | Appends the goal to the root list. |
| Goals.GoalManager.GetAllGoals | autogpt/core/goal.py:115-121 | The root list itself, in the order AddGoal appended the goals. |
| Goals.GoalManager.GetNextGoal | autogpt/core/goal.py:104-113 | None exactly when no root goal is PENDING; otherwise the goal at the position the choice rule names. |
| Goals.GoalManager.GetCompletedGoals | autogpt/core/goal.py:123-129 | Exactly the COMPLETED root goals, as many as there are; CompletedAppend states that they come in list order. |
| Tools.EchoExecute | autogpt/tools/base.py:118-127 | Always succeeds. The output is the message argument, or "" when it is absent. |
| Tools.Calculate | autogpt/tools/base.py:152-166 | Succeeds exactly for add, subtract and multiply, and for divide by a non-zero divisor, with the arithmetic result. Division by zero and an unknown operation fail with their messages. |
| Tools.CalculatorExecute | autogpt/tools/base.py:141-170 | Raises exactly when an argument is missing. A returned result respects the result contract, and with integer operands it is the calculator's result. |
| Tools.Execute | autogpt/tools/base.py:39-48 | The built-in tools keep the result contract, and the echo tool never fails. |
| Tools.ToolRegistry.constructor | autogpt/tools/base.py:65-66 | A new registry is empty. |
| Tools.ToolRegistry.Register | autogpt/tools/base.py:68-74 | The name now maps to the tool, and every other lookup is unchanged. A re-registered name keeps its place in the key order. |
| Tools.ToolRegistry.Get | autogpt/tools/base.py:76-85 | A tool comes back exactly when its name is registered, and it carries that name. |
| Tools.ToolRegistry.ListTools | autogpt/tools/base.py:87-93 | Lists exactly the registered names, each once, in first-registration order, the key order Register maintains. |
| Tools.ToolRegistry.GetAllTools | autogpt/tools/base.py:95-101 | A mapping with exactly the registered names, each to its registered tool. |
| CoreAgent.ExecutedAllCompleted | autogpt/core/agent.py:163-199 | An executed tree is COMPLETED throughout. |
| CoreAgent.ExecutedSize | autogpt/core/agent.py:182-196 | Execution neither adds nor drops goals. |
| CoreAgent.ExecutedIdempotent | autogpt/core/agent.py:163-199 | Executing an executed tree again leaves it unchanged. |
| CoreAgent.TraceSizes | autogpt/core/agent.py:172-196 | Executing a tree records exactly one reasoning step and one long-term memory per goal. |
| CoreAgent.TraceEnds | autogpt/core/agent.py:172-196 | The goal's own step comes first in its trace, before its sub-goals. Its own memory comes last, after them. |
| CoreAgent.ReExecutionTrace | autogpt/core/agent.py:163-199 | Re-executing an executed tree records the same steps and memories as the first execution. |
| CoreAgent.RunStep | autogpt/core/agent.py:213-227 | Each iteration picks a goal that is untouched and was PENDING. Executing it extends the order and both traces, and leaves one PENDING goal fewer. |
| CoreAgent.RunOrderPicks | autogpt/core/agent.py:218-223 | Each iteration ran the goal the choice rule named at that moment. |
| CoreAgent.RunOrderPending | autogpt/core/agent.py:213-227 | A run executes distinct root goals, each PENDING at the start. |
| CoreAgent.RunOrderPriorities | autogpt/core/agent.py:213-227 | Goals run in non-increasing priority, and equal priorities run in list order. |
| CoreAgent.ToolCallResult | autogpt/core/agent.py:137-161 | An unknown tool gives the not-found failure, and a raising tool gives the error failure. Whatever a tool returns, success or failure, comes back unchanged. The built-in tools keep the result contract. |
| CoreAgent.Agent.constructor | autogpt/core/agent.py:50-70 | A new agent has no goals, memories or steps, and knows exactly echo and calculator, in that order. |
| CoreAgent.Agent.AddGoal | autogpt/core/agent.py:72-83 | Appends the goal and stores one short-term memory with the goal's priority as importance. |
| CoreAgent.Agent.AddTool | autogpt/core/agent.py:85-96 | Registers the tool and stores one short-term memory of importance 5. |
| CoreAgent.Agent.ExecuteTool | autogpt/core/agent.py:127-161 | Returns the tool-call result. A traced call stores one memory and one step. A missing or raising tool leaves memory and history unchanged. |
| CoreAgent.Agent.ExecuteGoal | autogpt/core/agent.py:163-199 | Always succeeds and leaves the whole tree COMPLETED with the fixed result. It records one step per goal in pre-order and one long-term memory per goal in post-order. |
| CoreAgent.Agent.Run | autogpt/core/agent.py:201-234 | Runs PENDING goals in choice order. With an active cap it runs min(cap, pending) of them. Without one it runs every pending goal and none is left. The summary counts are the number run, the root total and the history length. The traces are those of the executed goals, in order. |
| CoreAgent.Agent.GetStatus | autogpt/core/agent.py:236-255 | Reports the pending and completed counts, which never exceed the total; the pending count is 0 exactly when no goal is PENDING. It also reports the registered tool names in registration order, and the short-term memory size, which stays within capacity. |
| Proposer.ProposeImprovements | autogpt/proposer.py:15-36 | One record per reported action, in report order. Each is that action's fixed record. |
| Proposer.ProposeActions | autogpt/proposer.py:15-36 | At most seven suggestions, since the two README checks exclude each other; ProposalRules and ProposalOrder state which and in what order. |
| Proposer.CheckDocumentation | autogpt/proposer.py:38-78 | At most three suggestions, all in the documentation category, never both create_readme and expand_readme. |
| Proposer.CheckStructure | autogpt/proposer.py:80-112 | At most two suggestions, all in the structure category. |
| Proposer.CheckBestPractices | autogpt/proposer.py:114-141 | At most two suggestions, all in the best-practices category. |
| Proposer.DocumentationRules | autogpt/proposer.py:38-78 | The documentation checks report exactly the documentation actions whose rule applies. |
| Proposer.StructureRules | autogpt/proposer.py:80-112 | The structure checks report exactly the structure actions whose rule applies. |
| Proposer.BestPracticeRules | autogpt/proposer.py:114-141 | The best-practice checks report exactly the best-practice actions whose rule applies. |
| Proposer.ProposalRules | autogpt/proposer.py:15-141 | An action is proposed exactly when its rule applies. |
| Proposer.CheckOrderGroups | autogpt/proposer.py:25-36 | The check order runs the three groups one after another. |
| Proposer.GroupsInCheckOrder | autogpt/proposer.py:38-141 | Each group reports its actions in check order, and the groups do not overlap. |
| Proposer.ActionsInCheckOrder | autogpt/proposer.py:25-36 | The reported actions follow the check order. |
| Proposer.ProposalOrder | autogpt/proposer.py:25-36 | No action is proposed twice. The categories appear as documentation, then structure, then best practices. |
| Proposer.ReadmeActionsExclusive | autogpt/proposer.py:43-58 | A missing README is never also reported as too short. |
| Proposer.EmptyAnalysis | autogpt/proposer.py:38-141 | An empty analysis draws every suggestion except organize_src and expand_readme. |

## Left out

- Goals are updated in place and may be aliased. The model represents goals as values: `run` writes the executed tree back, so a goal object shared elsewhere is not updated with it.
- Parent back-links, creation and completion timestamps, and memory entry timestamps are not modelled. Clocks and object identity are outside the model.
- The agent's `think` is not modelled. It only builds a text summary from a fixed template (the context, the tool names, the next goal's description and the short-term memory count), and nothing in the core reads that text.
- `ReasoningStep.__str__` and logging are not modelled. They produce text output only.
- A tool call's action text is Python's repr of its keyword arguments. The model records the tool name and arguments as a `Call` value instead.
- Python's `lower()` is modelled for ASCII letters only. Unicode case mapping is not modelled.
- Tools.CalculatorExecute: floating-point arithmetic is not modelled. A division result is kept as an exact quotient. Operands that are not both integers give a failed result, whereas Python may compute a value (string concatenation, repetition) or report its own exception text. The message for a missing argument approximates Python's TypeError text.
- Tools.Execute: a custom tool's behaviour is a function given with the tool. Its `validate_input` is not modelled because the core never calls it.
- `get_short_term`, `get_long_term` and `get_all_goals` return the live lists. The model reads the fields, so aliasing of those lists is not modelled.
- Validation of the configuration object is not modelled. The short-term capacity is a constructor parameter rather than the configured default.
- The analysis dictionary's flags are booleans in the model, where Python tests any value for truthiness. A `readme_length` key holding a non-number is not modelled.
- The improvement proposer's titles and descriptions are fixed strings attached to each action. The lemmas are about the actions, not about those strings.
- The repository analyzer, cloner, implementer, reporter, configuration loading and command-line entry point are not part of this model.
