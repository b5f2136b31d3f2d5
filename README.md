# Compound-task decomposition policies of Fluid HTN Ext, in Dafny

Fluid HTN Ext adds six compound tasks to the Fluid hierarchical-task-network planner. A
compound task is decomposed into a plan, a queue of primitive tasks, while the planner's
world state is changed speculatively. Each decomposition reports one of four statuses:
Succeeded, Failed, Partial or Rejected. A null result tells the caller to cancel the whole
planning attempt. The six policies are:

- **GOAP sequence.** It searches every ordering of its GOAP subtasks for a path to a goal
  state. It applies and then trims plan-time effects as it searches, collects the nodes
  where the goal holds, and builds the plan from the cheapest such node.
- **Utility selector.** It decomposes the valid utility subtask with the strictly highest
  score above 0.
- **Random selector.** It decomposes one subtask chosen by index.
- **Always-succeed selector.** It works like the random selector, but always reports
  Succeeded.
- **Invert-status selector.** It tries subtasks until one does not fail. It swaps Succeeded
  and Failed, and passes Rejected and Partial through unchanged.
- **Repeat sequence.** It visits its subtasks `n` times, where `n` is read from a world-state
  byte. The interleaved type visits `A,B,A,B`; the blockwise type visits `A,A,B,B`.

The model has these parts:

- **World state** (`world_state.dfy`): a sequence of bytes plus a log of plan-time changes.
  It has a `Context` class with the base library's state operations: get, set, change depth
  and trim.
- **Tasks** (`tasks.dfy`): conditions, effects, and the optional GOAP cost and utility score.
- **Shared decomposition contract** (`decomposition.dfy`). The base library's own
  per-subtask step (`OnDecomposeTask`) and compound `Decompose` are outside this model. They
  enter as function parameters, and every policy is specified relative to them.
- **One file per policy.** Each has a specification function for the policy's outcome, a
  class whose `OnDecompose` method follows the source's loops and is proved to compute that
  function, and lemmas for the properties the source promises.
- **GOAP unit tests** (`goap_examples.dfy`): the two GOAP tests on concrete tasks, with their
  exact plans derived from the general lemmas.

## Model

All source paths are under `Fluid-HTN-Ext/` unless they start with `Fluid-HTN-Ext.UnitTests/`.

| member | source | states |
|---|---|---|
| WorldStates.Written | Fluid-HTN-Ext/Tasks/CompoundTasks/GOAPSequence.cs:91 | A write sets exactly one index and leaves the others alone. A plan-time write logs the previous value; a permanent write logs nothing. |
| WorldStates.Trimmed | Fluid-HTN-Ext/Tasks/CompoundTasks/GOAPSequence.cs:113 | Trimming to a depth keeps the size of the state and cuts the change log to exactly that depth. |
| WorldStates.TrimmedTwice | Fluid-HTN-Ext/Tasks/CompoundTasks/GOAPSequence.cs:109-113 | Trimming to an outer depth and then to a smaller one is the same as trimming once to the smaller one. |
| WorldStates.UndoWrite | Fluid-HTN-Ext/Tasks/CompoundTasks/GOAPSequence.cs:89-113 | Trimming back to the depth before a plan-time write restores the state exactly. |
| WorldStates.RoundTrip | Fluid-HTN-Ext/Tasks/CompoundTasks/GOAPSequence.cs:86-113 | Any series of plan-time writes is undone exactly by trimming back to the depth before them. |
| WorldStates.Context.GetState | Fluid-HTN-Ext/Tasks/CompoundTasks/RepeatSequence.cs:57 | Reads the byte at an index that lies in range. |
| WorldStates.Context.GetWorldStateChangeDepth | Fluid-HTN-Ext/Tasks/CompoundTasks/GOAPSequence.cs:89 | The depth is the length of the change log. |
| WorldStates.Context.TrimToStackDepth | Fluid-HTN-Ext/Tasks/CompoundTasks/GOAPSequence.cs:113 | The new state is the old one trimmed to the depth. |
| Tasks.Applied | Fluid-HTN-Ext/Tasks/CompoundTasks/GOAPSequence.cs:91 | Applying effects keeps the size of the state and only adds to the change log. |
| Tasks.AppliedUndone | Fluid-HTN-Ext/Tasks/CompoundTasks/GOAPSequence.cs:89-113 | A task's plan-time effects are undone exactly by trimming to the depth taken before them. |
| Tasks.ApplyEffects | Fluid-HTN-Ext/Tasks/CompoundTasks/GOAPSequence.cs:66 | The loop over a task's effects leaves the context in the state `Applied` describes. |
| Decomposition.ChosenOutcome | Fluid-HTN-Ext/Tasks/CompoundTasks/UtilitySelector.cs:34-64 | Decomposing one chosen subtask never gives Partial, and gives Succeeded exactly when the plan is non-empty. A rejecting child rejects, a failing child fails with an empty plan, and a decomposing child's plan is copied in order. A primitive child has its effects applied and becomes the plan. |
| Decomposition.Range | Fluid-HTN-Ext/Tasks/CompoundTasks/InvertStatusSelector.cs:29 | The loop's indices `lo .. hi-1`, in order, and their count. |
| Decomposition.Run | Fluid-HTN-Ext/Tasks/CompoundTasks/InvertStatusSelector.cs:29-46 | A visit over an order of indices takes at most one step per index. Every step but the last returns the status that lets the loop go on, and an early stop ends on a step that does not. |
| Decomposition.RunIsChained | Fluid-HTN-Ext/Tasks/CompoundTasks/InvertStatusSelector.cs:29-33 | Every step after the first runs on the plan and state the step before it left. |
| Decomposition.RunOverRange | Fluid-HTN-Ext/Tasks/CompoundTasks/InvertStatusSelector.cs:29-41 | A visit over a range is the step at its first index, followed by the rest of the range only when that step returned the status that goes on. |
| RandomSelectors.RandomOutcome | Fluid-HTN-Ext/Tasks/CompoundTasks/RandomSelector.cs:28-72 | An invalid drawn subtask fails with the state untouched. A valid one is decomposed as a chosen subtask. Succeeded holds exactly when the plan is non-empty. |
| RandomSelectors.OnlyTheDrawnTaskIsTried | Fluid-HTN-Ext/Tasks/CompoundTasks/RandomSelector.cs:32-33 | The outcome depends only on the drawn subtask, not on its position or on the other subtasks. |
| RandomSelectors.DrawnValidActionIsThePlan | Fluid-HTN-Ext.UnitTests/RandomSelectorTest.cs:38-51 | Whatever index is drawn, a valid action gives Succeeded with a plan of exactly that action. |
| RandomSelectors.RandomSelector.OnDecompose | Fluid-HTN-Ext/Tasks/CompoundTasks/RandomSelector.cs:28-72 | The method's status, result, plan and world state are those of `RandomOutcome` for the injected index. |
| AlwaysSucceedSelectors.AlwaysSucceedOutcome | Fluid-HTN-Ext/Tasks/CompoundTasks/AlwaysSucceedSelector.cs:25-69 | The status is always Succeeded. The plan and state are the random selector's for the same index, and an invalid subtask gives an empty plan with the state untouched. |
| AlwaysSucceedSelectors.CompoundChildOutcomes | Fluid-HTN-Ext/Tasks/CompoundTasks/AlwaysSucceedSelector.cs:38-59 | A rejecting or failing compound child becomes an empty success. A decomposing child's plan is copied. |
| AlwaysSucceedSelectors.InvalidActionsGiveEmptySuccess | Fluid-HTN-Ext.UnitTests/AlwaysSucceedSelectorTest.cs:18-44 | Two invalid actions give Succeeded with an empty plan and an untouched state, so an enclosing sequence moves on. |
| AlwaysSucceedSelectors.AlwaysSucceedSelector.OnDecompose | Fluid-HTN-Ext/Tasks/CompoundTasks/AlwaysSucceedSelector.cs:25-69 | The method computes `AlwaysSucceedOutcome`, and the result is never null. |
| UtilitySelectors.BestFromIsBest | Fluid-HTN-Ext/Tasks/CompoundTasks/UtilitySelector.cs:81-96 | Loop invariant of the scan: the running best is the first subtask with the strictly highest score above 0 seen so far, or no subtask when none scores above 0. |
| UtilitySelectors.BestIndexIsBest | Fluid-HTN-Ext/Tasks/CompoundTasks/UtilitySelector.cs:76-99 | The result is empty exactly when no valid utility subtask scores above 0. Otherwise it is a valid utility subtask that scores strictly above every earlier one and at least as high as every later one. |
| UtilitySelectors.BestIsUnique | Fluid-HTN-Ext/Tasks/CompoundTasks/UtilitySelector.cs:90 | There is at most one best index, because the strict comparison keeps the first maximum. |
| UtilitySelectors.UtilityOutcome | Fluid-HTN-Ext/Tasks/CompoundTasks/UtilitySelector.cs:23-65 | With no candidate the selector fails with the state untouched. Succeeded holds exactly when the plan is non-empty. |
| UtilitySelectors.OnlyTheWinnerIsTried | Fluid-HTN-Ext/Tasks/CompoundTasks/UtilitySelector.cs:27-64 | The outcome is the best subtask's decomposition and nothing else. |
| UtilitySelectors.HighestScoreIsPlanned | Fluid-HTN-Ext.UnitTests/UtilitySelectorTest.cs:44-47 | Of two valid actions scoring 1 and 10, the plan is exactly the one scoring 10. |
| UtilitySelectors.UtilitySelector.FindBestTask | Fluid-HTN-Ext/Tasks/CompoundTasks/UtilitySelector.cs:76-99 | The loop returns `BestIndex`. It is empty exactly when nothing scores above 0, and otherwise it is the best subtask. |
| UtilitySelectors.UtilitySelector.OnDecompose | Fluid-HTN-Ext/Tasks/CompoundTasks/UtilitySelector.cs:23-65 | The method computes `UtilityOutcome`: status, plan, state and result. |
| InvertStatusSelectors.Inverted | Fluid-HTN-Ext/Tasks/CompoundTasks/InvertStatusSelector.cs:34-45 | Succeeded and Failed are swapped, Rejected and Partial are kept, and the plan and state are unchanged. |
| InvertStatusSelectors.InvertOutcome | Fluid-HTN-Ext/Tasks/CompoundTasks/InvertStatusSelector.cs:25-51 | Succeeded holds exactly when every step tried failed, and then every subtask of the range was tried. Failed holds exactly when the last step tried succeeded. A Rejected or Partial outcome is the last step's own. The plan and state are the ones the last step left. |
| InvertStatusSelectors.SucceedingChildMakesItFail | Fluid-HTN-Ext.UnitTests/InvertStatusSelectorTest.cs:10-15 | Over one action whose step succeeds, the selector fails. |
| InvertStatusSelectors.FailingChildMakesItSucceed | Fluid-HTN-Ext.UnitTests/InvertStatusSelectorTest.cs:43-47 | Over one action whose step fails, the selector succeeds with the plan that step left. |
| InvertStatusSelectors.InvertFromTries | Fluid-HTN-Ext/Tasks/CompoundTasks/InvertStatusSelector.cs:29-50 | Taken position by position, the loop reports the last step it tried, inverted, or success when there was nothing to try. |
| InvertStatusSelectors.InvertOutcomeIsLoop | Fluid-HTN-Ext/Tasks/CompoundTasks/InvertStatusSelector.cs:27-50 | The specification is the loop started at `startIndex` with the cleared plan. |
| InvertStatusSelectors.InvertStatusSelector.OnDecompose | Fluid-HTN-Ext/Tasks/CompoundTasks/InvertStatusSelector.cs:25-51 | The method computes `InvertOutcome`, and the result is null exactly on Rejected. |
| RepeatSequences.Copies | Fluid-HTN-Ext/Tasks/CompoundTasks/RepeatSequence.cs:118 | `n` copies of one index: the inner loop of the blockwise type. |
| RepeatSequences.InterleavedOrder | Fluid-HTN-Ext/Tasks/CompoundTasks/RepeatSequence.cs:78-82 | The interleaved visit order only holds indices of the range `start .. n-1`. |
| RepeatSequences.BlockwiseOrder | Fluid-HTN-Ext/Tasks/CompoundTasks/RepeatSequence.cs:114-118 | The blockwise visit order only holds indices of the range `start .. n-1`. |
| RepeatSequences.InterleavedLength | Fluid-HTN-Ext/Tasks/CompoundTasks/RepeatSequence.cs:78-80 | The interleaved order has `reps × (n − start)` entries. |
| RepeatSequences.InterleavedIsPeriodic | Fluid-HTN-Ext/Tasks/CompoundTasks/RepeatSequence.cs:17-20 | The interleaved order is the range followed by itself again and again: every entry equals the one a round earlier. |
| RepeatSequences.InterleavedCounts | Fluid-HTN-Ext/Tasks/CompoundTasks/RepeatSequence.cs:78-80 | In the interleaved order each index of the range occurs exactly `reps` times, and no other index occurs. |
| RepeatSequences.RangeCount | Fluid-HTN-Ext/Tasks/CompoundTasks/RepeatSequence.cs:80 | One round holds each index of the range exactly once. |
| RepeatSequences.BlockwiseLength | Fluid-HTN-Ext/Tasks/CompoundTasks/RepeatSequence.cs:114-118 | The blockwise order has `reps × (n − start)` entries. |
| RepeatSequences.BlockwiseIsSorted | Fluid-HTN-Ext/Tasks/CompoundTasks/RepeatSequence.cs:21-25 | The blockwise order never goes back to an earlier index. |
| RepeatSequences.BlockwiseCounts | Fluid-HTN-Ext/Tasks/CompoundTasks/RepeatSequence.cs:114-118 | In the blockwise order each index of the range occurs exactly `reps` times, and no other index occurs. |
| RepeatSequences.CopiesCount | Fluid-HTN-Ext/Tasks/CompoundTasks/RepeatSequence.cs:118 | One block holds its index `c` times and nothing else. |
| RepeatSequences.Stopped | Fluid-HTN-Ext/Tasks/CompoundTasks/RepeatSequence.cs:84-98 | A step that does not succeed ends the visit with its own status, except that Partial is reported as Failed. |
| RepeatSequences.Finished | Fluid-HTN-Ext/Tasks/CompoundTasks/RepeatSequence.cs:103-107 | After all its steps the sequence succeeds exactly when the plan is non-empty, and fails otherwise. |
| RepeatSequences.VisitStep | Fluid-HTN-Ext/Tasks/CompoundTasks/RepeatSequence.cs:82-99 | A visit takes its first step and goes on only after a success. |
| RepeatSequences.SequenceOutcome | Fluid-HTN-Ext/Tasks/CompoundTasks/RepeatSequence.cs:74-108 | The outcome of visiting an order: the first step that does not succeed ends it, and otherwise the visit finishes. The plan and state are those of the last step taken. |
| RepeatSequences.InterleavedFromVisits | Fluid-HTN-Ext/Tasks/CompoundTasks/RepeatSequence.cs:78-101 | Midway through a round, the nested loops go on over the rest of the round and then the remaining rounds. |
| RepeatSequences.InterleavedFromIsVisit | Fluid-HTN-Ext/Tasks/CompoundTasks/RepeatSequence.cs:74-108 | Run from the start, the nested interleaved loops are the visit of the interleaved order. |
| RepeatSequences.BlockwiseFromVisits | Fluid-HTN-Ext/Tasks/CompoundTasks/RepeatSequence.cs:114-138 | Midway through a block, the nested loops go on over the rest of that block and then the later blocks. |
| RepeatSequences.BlockwiseFromIsVisit | Fluid-HTN-Ext/Tasks/CompoundTasks/RepeatSequence.cs:110-144 | Run from the start, the nested blockwise loops are the visit of the blockwise order. |
| RepeatSequences.RepeatOutcome | Fluid-HTN-Ext/Tasks/CompoundTasks/RepeatSequence.cs:47-72 | An index outside the world state fails with an empty plan and the state untouched. A repeat sequence never reports Partial. |
| RepeatSequences.SucceededAfterEverySteps | Fluid-HTN-Ext/Tasks/CompoundTasks/RepeatSequence.cs:74-144 | Success means the index was valid, the count was positive, the range was non-empty, and all `reps × (n − start)` steps were taken and each succeeded. |
| RepeatSequences.NothingToVisit | Fluid-HTN-Ext/Tasks/CompoundTasks/RepeatSequence.cs:78-80 | With a zero count, or no subtask from `start` on, nothing is visited, whatever the type. |
| RepeatSequences.ZeroRepetitionsFail | Fluid-HTN-Ext/Tasks/CompoundTasks/RepeatSequence.cs:105-107 | A count of zero fails with an empty plan and an untouched state. |
| RepeatSequences.RepeatsTheActionThreeTimes | Fluid-HTN-Ext.UnitTests/RepeatSequenceTest.cs:28-38 | One action with a count of 3 gives Succeeded and a plan of that action three times. |
| RepeatSequences.RepeatSequence.constructor | Fluid-HTN-Ext/Tasks/CompoundTasks/RepeatSequence.cs:41-45 | The repetition type defaults to Interleaved. |
| RepeatSequences.RepeatSequence.IsValidWorldStateIndex | Fluid-HTN-Ext/Tasks/CompoundTasks/RepeatSequence.cs:146-149 | True exactly when the index lies inside the world state. |
| RepeatSequences.RepeatSequence.OnDecompose | Fluid-HTN-Ext/Tasks/CompoundTasks/RepeatSequence.cs:47-72 | The method computes `RepeatOutcome`, and the result is null exactly on Rejected. Any type other than Blockwise is interleaved. |
| RepeatSequences.RepeatSequence.DecomposeInterleaved | Fluid-HTN-Ext/Tasks/CompoundTasks/RepeatSequence.cs:74-108 | The nested loops compute the visit of the interleaved order. |
| RepeatSequences.RepeatSequence.DecomposeBlockwise | Fluid-HTN-Ext/Tasks/CompoundTasks/RepeatSequence.cs:110-144 | The nested loops compute the visit of the blockwise order. |
| GoapSequences.Replay | Fluid-HTN-Ext/Tasks/CompoundTasks/GOAPSequence.cs:60-68 | Re-applying a plan's effects in order keeps the size of the state. |
| GoapSequences.Without | Fluid-HTN-Ext/Tasks/CompoundTasks/GOAPSequence.cs:133-145 | No task with the removed identity is left, the list never grows, and it shrinks whenever that task was present. |
| GoapSequences.WithoutKeeps | Fluid-HTN-Ext/Tasks/CompoundTasks/GOAPSequence.cs:136-141 | A task is kept exactly when it is a task of the list with another identity, and a list without that task is returned whole. |
| GoapSequences.WithoutAppend | Fluid-HTN-Ext/Tasks/CompoundTasks/GOAPSequence.cs:136-141 | Removal distributes over concatenation, so the kept tasks stay in their original order. |
| GoapSequences.Child | Fluid-HTN-Ext/Tasks/CompoundTasks/GOAPSequence.cs:93 | A node's parent is the node it was reached from, and its task is the task applied. |
| GoapSequences.ExploreFrom | Fluid-HTN-Ext/Tasks/CompoundTasks/GOAPSequence.cs:76-115 | The search over the open list leaves the state's size and change log exactly as on entry. |
| GoapSequences.Expand | Fluid-HTN-Ext/Tasks/CompoundTasks/GOAPSequence.cs:89-107 | Expanding a subtask only adds to the change log below the depth taken before it. |
| GoapSequences.ExploreRestores | Fluid-HTN-Ext/Tasks/CompoundTasks/GOAPSequence.cs:109-113 | With plan-time effects, the search leaves the world state exactly as it found it. |
| GoapSequences.ExpandRestores | Fluid-HTN-Ext/Tasks/CompoundTasks/GOAPSequence.cs:89-113 | With plan-time effects, expanding a subtask leaves the state that subtask's effects give. The caller then trims it back. |
| GoapSequences.ExploreExtends | Fluid-HTN-Ext/Tasks/CompoundTasks/GOAPSequence.cs:93-102 | Every leaf found lies below the start node: its path extends the start node's by GOAP tasks. |
| GoapSequences.ExploreSound | Fluid-HTN-Ext/Tasks/CompoundTasks/GOAPSequence.cs:79-105 | For every leaf, the tasks between the start node and the leaf are each valid in the state they meet, and the goal holds after them. The leaf's cost is the start node's cost plus each task's cost, read after its effects. |
| GoapSequences.ExploreDrawsOnce | Fluid-HTN-Ext/Tasks/CompoundTasks/GOAPSequence.cs:101-102 | Along every path the search finds, each task comes from the open list and no task appears twice. |
| GoapSequences.DrawnOnceTail | Fluid-HTN-Ext/Tasks/CompoundTasks/GOAPSequence.cs:101-102 | After the first task of an ordering that uses each open task at most once, the rest uses each task of the subset at most once. |
| GoapSequences.ExploreComplete | Fluid-HTN-Ext/Tasks/CompoundTasks/GOAPSequence.cs:76-107 | With plan-time effects, the search is complete. Take any ordering of open tasks that uses each at most once, where each task is valid and a GOAP task in the state the ones before it leave, and the goal holds after the last task and after no earlier one. If its first task sits at a position the loop has still to reach, then it is the path from the start node to some leaf found. |
| GoapSequences.ExpandComplete | Fluid-HTN-Ext/Tasks/CompoundTasks/GOAPSequence.cs:89-107 | Expanding the first task of such an ordering finds a leaf whose path below the parent is exactly that ordering: a leaf at once when the goal holds, or else through the search over the subset. |
| GoapSequences.ShortestReachingPrefix | Fluid-HTN-Ext/Tasks/CompoundTasks/GOAPSequence.cs:94-102 | Any non-empty ordering whose tasks are valid in turn and which reaches the goal has a non-empty prefix after which the goal first holds. The search stops going deeper at that point. |
| GoapSequences.CheapestIndex | Fluid-HTN-Ext/Tasks/CompoundTasks/GOAPSequence.cs:34-53 | The position of a leaf that costs no more than any leaf and strictly less than every earlier one, so ties go to the first. |
| GoapSequences.GoapPlan | Fluid-HTN-Ext/Tasks/CompoundTasks/GOAPSequence.cs:19-32 | The plan keeps the state's size, and an empty plan leaves the change log as it was. |
| GoapSequences.GoapPlanSound | Fluid-HTN-Ext/Tasks/CompoundTasks/GOAPSequence.cs:25-31 | The plan is empty exactly when no leaf was found. Otherwise its tasks, applied from the starting state, are each valid in turn and reach the goal, and the final state is the starting state with the plan applied. |
| GoapSequences.GoapPlanDrawsOnce | Fluid-HTN-Ext/Tasks/CompoundTasks/GOAPSequence.cs:101 | The plan uses each subtask at most once. |
| GoapSequences.GoapPlanCheapest | Fluid-HTN-Ext/Tasks/CompoundTasks/GOAPSequence.cs:25-53 | No leaf's path costs less than the plan, and every leaf that costs the same comes no earlier than the leaf the plan came from. |
| GoapSequences.GoapPlanOptimal | Fluid-HTN-Ext/Tasks/CompoundTasks/GOAPSequence.cs:19-53 | With plan-time effects, take any ordering of the subtasks that uses each at most once and that the search can follow down to the goal. The plan is then not empty, and it costs no more than that ordering. |
| GoapSequences.GoapPlanFound | Fluid-HTN-Ext/Tasks/CompoundTasks/GOAPSequence.cs:19-32 | With plan-time effects, whenever some non-empty ordering of the subtasks, each used at most once and valid in turn, reaches the goal, the plan is not empty. |
| GoapSequences.NodeList.Add | Fluid-HTN-Ext/Tasks/CompoundTasks/GOAPSequence.cs:96 | Adding a leaf appends it to the shared list. |
| GoapSequences.GoapSequence.OnDecompose | Fluid-HTN-Ext/Tasks/CompoundTasks/GOAPSequence.cs:19-32 | The method's returned plan, its plan field and the world state are those of `GoapPlan`. |
| GoapSequences.GoapSequence.GetCheapestLeaf | Fluid-HTN-Ext/Tasks/CompoundTasks/GOAPSequence.cs:34-53 | None for no leaves; otherwise the leaf at `CheapestIndex`. |
| GoapSequences.GoapSequence.GeneratePlan | Fluid-HTN-Ext/Tasks/CompoundTasks/GOAPSequence.cs:60-70 | The plan grows by the node's path from the root, in order, and the state is the old one with that path's effects applied. |
| GoapSequences.GoapSequence.TryBuildGraph | Fluid-HTN-Ext/Tasks/CompoundTasks/GOAPSequence.cs:72-118 | The loop appends exactly the leaves of `Explore`, leaves the world state as `Explore` does, and returns true exactly when a leaf was added. |
| GoapSequences.GoapSequence.ExpandTask | Fluid-HTN-Ext/Tasks/CompoundTasks/GOAPSequence.cs:89-113 | One expansion appends the leaves of `Expand`, trims the state back to the depth it had before, and reports whether a leaf was added. |
| GoapSequences.GoapSequence.ValidatesGoal | Fluid-HTN-Ext/Tasks/CompoundTasks/GOAPSequence.cs:120-131 | True exactly when every index the goal names holds the value it requires, so an empty goal holds. |
| GoapSequences.GoapSequence.GetSubset | Fluid-HTN-Ext/Tasks/CompoundTasks/GOAPSequence.cs:133-145 | The loop returns the list without the current task, with the other tasks kept in order. |
| GoapExamples.SetApplied | Fluid-HTN-Ext.UnitTests/GOAPTests.cs:41 | An action's "set flag" effect writes 1 at its index and leaves the other values as they were. |
| GoapExamples.Validity1 | Fluid-HTN-Ext.UnitTests/GOAPTests.cs:24-51 | In the first test, Get C needs B and not C, Get A needs not A, and Get B needs A and not B. |
| GoapExamples.Validity2 | Fluid-HTN-Ext.UnitTests/GOAPTests.cs:80-106 | In the second test, Get C needs A or B and not C, Get B needs not B, and Get A needs not A. |
| GoapExamples.Reaches1 | Fluid-HTN-Ext.UnitTests/GOAPTests.cs:21-54 | In the first test, the search can follow Get A, Get B, Get C from the empty state down to the goal. |
| GoapExamples.OnlyPlan1 | Fluid-HTN-Ext.UnitTests/GOAPTests.cs:21-54 | In the first test, the only ordering of the subtasks that uses each at most once, with each valid in turn, and that reaches the goal is Get A, Get B, Get C. |
| GoapExamples.PreconditionsAffectTaskOrder | Fluid-HTN-Ext.UnitTests/GOAPTests.cs:59-67 | With the subtasks declared as Get C, Get A, Get B, the plan is exactly Get A, Get B, Get C. It is not empty, so the sequence succeeds. |
| GoapExamples.Reaches2 | Fluid-HTN-Ext.UnitTests/GOAPTests.cs:77-109 | In the second test, the search can follow Get A, Get C down to the goal, at cost 2. |
| GoapExamples.CostBounds2 | Fluid-HTN-Ext.UnitTests/GOAPTests.cs:123-137 | An ordering of the second test's subtasks costs at least one per task, and at least 10 when it uses Get B. |
| GoapExamples.OnlyCheapPlan2 | Fluid-HTN-Ext.UnitTests/GOAPTests.cs:77-109 | In the second test, the only ordering that reaches the goal at cost at most 2 is Get A, Get C. |
| GoapExamples.PreferLowCostTasks | Fluid-HTN-Ext.UnitTests/GOAPTests.cs:114-120 | Get B costs 10 and Get A costs 1, so the plan is exactly Get A, Get C. It is not empty, so the sequence succeeds. |
| GoapAsWritten.ExploreAsWritten | Fluid-HTN-Ext/Tasks/CompoundTasks/GOAPSequence.cs:76-78 | The search as written reads the full subtask list at each position of the open list. It also leaves the change log as on entry. |
| GoapAsWritten.SubtaskReadTwice | Fluid-HTN-Ext/Tasks/CompoundTasks/GOAPSequence.cs:76-78 | On subtasks `[Raise, Blocked]`, the search as written finds one leaf whose path is `[Raise, Raise]`, which the intended search rules out. |
| GoapAsWritten.SubtaskReadOnce | Fluid-HTN-Ext/Tasks/CompoundTasks/GOAPSequence.cs:101-102 | On the same input the intended search finds no leaf. |
| GoapAsWritten.GeneratePlanAsWritten | Fluid-HTN-Ext/Tasks/CompoundTasks/GOAPSequence.cs:60-70 | The plan walk as written: when it succeeds it gives the node's path, and a node without a task stops it. |
| GoapAsWritten.ExploreDescends | Fluid-HTN-Ext/Tasks/CompoundTasks/GOAPSequence.cs:93 | Every leaf the search finds descends from the node it started from. |
| GoapAsWritten.EveryPlanWalkFails | Fluid-HTN-Ext/Tasks/CompoundTasks/GOAPSequence.cs:24 | Every leaf descends from the root, which has no task, so the plan walk as written fails on every leaf found. |

## Left out

- The base Fluid HTN library is outside this model: `Sequence` and `Selector`, condition
  checks, effect execution, and `OnDecomposeTask`. The per-subtask step and compound
  `Decompose` are function parameters. The world state is a sequence of bytes and a
  single change log, in place of the library's per-index depth array.
- `DomainBuilderExt`, `Domain` and their JSON save and load are outside this model. So are
  the builder methods the tests call.
- `GOAPNode.cs` is a data class that nothing uses; the GOAP sequence declares its own node
  struct.
- Factory pooling (`CreateList`, `FreeList`, `FreeArray`) only manages memory and is left out.
- Costs and scores are `int` rather than `float`.
- Operators and the execution of plans (`Do`) are left out.
- `System.Random` is left out. The random and always-succeed selectors take the drawn index
  as a parameter that must lie in `startIndex .. count-1`. The source throws when that range
  is empty, and the model requires it to be non-empty.
- Tests that place a selector inside a sequence are stated from the selector's side only.
  The sequence's own step is outside this model. So is the first invert-status test's
  second domain.
- The two GOAP tests (`GOAPTests.cs:21-67` and `77-120`) are stated on the model proper,
  with the goal given and the root skipped as the two findings below intend. Their exact plans
  are derived from `GoapPlanOptimal`, `GoapPlanSound` and `GoapPlanDrawsOnce`. `MyContext`
  and its world-state enum are not part of this model. The flags are taken to be the bytes at
  indices 0, 1 and 2 of a three-byte state that starts at 0. "Succeeded" is read as the plan
  being non-empty, because the base library's sequence reports the status and is outside this
  model.
- GoapSequences.ExploreRestores: restoring the world state is proved only when every effect
  of the subtasks is a plan-time write. A permanent write is not logged, so trimming cannot
  undo it. The same holds for `ExpandRestores`, `ExploreSound`, `ExploreComplete`,
  `ExpandComplete`, `GoapPlanSound`, `GoapPlanCheapest`, `GoapPlanOptimal` and
  `GoapPlanFound`.
- GoapSequences.GoapSequence.OnDecompose: the source's goal dictionary is never assigned, so
  `ValidatesGoal` would walk a null dictionary. The model takes the goal when the sequence is
  built.
- GoapSequences.GoapSequence.OnDecompose returns only the plan, as the source does. The
  start index is accepted and not used.
- GoapAsWritten.ExploreAsWritten: the search as written need not terminate, so it is bounded
  by a fuel count. With no fuel left it finds nothing.
- GoapAsWritten.GeneratePlanAsWritten does not re-apply effects. It only models the walk's
  order and where it fails.

## Findings

| source | as written | input that shows it | evidently intended | confidence | as-written member | corrected member |
|---|---|---|---|---|---|---|
| Fluid-HTN-Ext/Tasks/CompoundTasks/GOAPSequence.cs:76-78 | The loop runs over the open list's positions but reads `Subtasks[taskIndex]` from the full list. Below the first level, a removed subtask is tried again, and one that stays valid can recurse without end. | Subtasks `[Raise, Blocked]`, where `Raise` is always valid and adds 1 to byte 0 and `Blocked` is never valid. Goal: byte 0 holds 2, starting from 0. The search as written plans `[Raise, Raise]`. | Read `openSubtasks[taskIndex]`, so that each subtask is used at most once on a path, as `GetSubset` intends. | high (not executed) | GoapAsWritten.SubtaskReadTwice | GoapSequences.ExploreDrawsOnce |
| Fluid-HTN-Ext/Tasks/CompoundTasks/GOAPSequence.cs:24 | The root node has a null task, and `GeneratePlan` calls `ApplyEffects` on every node's task, the root's included. | Any search that finds a leaf. One example is the second GOAP unit test (`GOAPTests.cs:77-109`) once a goal is assigned: Get B, then Get C, reaches the goal, and the walk from that leaf reaches the root and dereferences null. | Skip the root when generating the plan. | high (not executed) | GoapAsWritten.EveryPlanWalkFails | GoapSequences.GoapSequence.GeneratePlan |
