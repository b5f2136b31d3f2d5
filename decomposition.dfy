/**
  The contract every decomposition policy shares: a four-valued status, the plan built so far
  and the world state afterwards. The base library's own decomposition steps are not part of
  this model; they enter as function parameters and each policy is specified relative to them.
 */
module Decomposition {
  import opened Wrappers
  import opened WorldStates
  import opened Tasks

  datatype Status = Succeeded | Failed | Partial | Rejected

  /** What one decomposition gives back: a status, the plan and the resulting world state. */
  datatype Outcome = Outcome(status: Status, plan: seq<Task>, state: WorldState)

  /** The `result` queue handed to the caller: null exactly when the decomposition rejects,
      which tells every caller to cancel the whole planning attempt. */
  function Handed(o: Outcome): Option<seq<Task>> {
    if o.status == Rejected then None else Some(o.plan)
  }

  /** `compoundTask.Decompose(ctx, 0, out subPlan)` of the base library, left abstract. */
  type CompoundDecompose = (Task, WorldState) -> Outcome

  /** The base `OnDecomposeTask(ctx, task, taskIndex, oldStackDepth, out result)`, left abstract:
      it takes the task, its index, the selector's plan so far, the world state and the depth to
      roll back to on failure, and gives the status, the selector's plan and the state after it. */
  type ChildStep = (Task, nat, seq<Task>, WorldState, Option<nat>) -> Outcome

  /**
    Decomposing the one subtask a selector has settled on, shared by the random, utility and
    always-succeed selectors (before the latter flattens the status): a compound task is
    decomposed and its plan copied over, a primitive task has its effects applied and becomes
    the plan. The status is Succeeded exactly when the plan is not empty, except that a
    rejecting child makes the selector reject.
   */
  function ChosenOutcome(task: Task, ws: WorldState, decompose: CompoundDecompose): (r: Outcome)
    requires EffectsFit(task, |ws.values|)
    ensures r.status != Partial
    ensures r.status == Succeeded <==> |r.plan| > 0
    ensures task.Compound? ==>
      var sub := decompose(task, ws);
      && r.state == sub.state
      && (r.status == Rejected <==> sub.status == Rejected)
      && (sub.status == Failed ==> r.status == Failed)
      && (sub.status == Rejected || sub.status == Failed ==> r.plan == [])
      && (sub.status == Succeeded || sub.status == Partial ==> r.plan == sub.plan)
    ensures task.Primitive? ==> r == Outcome(Succeeded, [task], Applied(ws, task.effects))
  {
    match task
    case Compound(_, _, _, _, _) =>
      var sub := decompose(task, ws);
      if sub.status == Rejected then Outcome(Rejected, [], sub.state)
      else if sub.status == Failed then Outcome(Failed, [], sub.state)
      else Outcome(if |sub.plan| == 0 then Failed else Succeeded, sub.plan, sub.state)
    case Primitive(_, _, _, effects, _, _) =>
      Outcome(Succeeded, [task], Applied(ws, effects))
  }

  /** The indices `lo, lo + 1, ..., hi - 1`, in increasing order. */
  function Range(lo: nat, hi: nat): (r: seq<nat>)
    ensures |r| == if lo <= hi then hi - lo else 0
    ensures forall i :: 0 <= i < |r| ==> r[i] == lo + i
    decreases hi - lo
  {
    if lo >= hi then [] else [lo] + Range(lo + 1, hi)
  }

  /**
    The child steps a policy takes when it visits the subtasks at the positions of `order`,
    one after another, and goes on only while a step returns `go`: each entry is the step of
    the subtask at the next position, from the plan and state the previous step left behind,
    and the visit ends early only at a step whose status is not `go`.
   */
  function Run(step: ChildStep, subtasks: seq<Task>, order: seq<nat>, plan: seq<Task>,
               ws: WorldState, depth: Option<nat>, go: Status): (r: seq<Outcome>)
    requires forall i :: 0 <= i < |order| ==> order[i] < |subtasks|
    ensures |r| <= |order|
    ensures forall i :: 0 <= i < |r| - 1 ==> r[i].status == go
    ensures |r| < |order| ==> |r| > 0 && r[|r| - 1].status != go
    ensures |r| > 0 ==> r[0] == step(subtasks[order[0]], order[0], plan, ws, depth)
    decreases |order|
  {
    if order == [] then []
    else
      var o := step(subtasks[order[0]], order[0], plan, ws, depth);
      if o.status == go then [o] + Run(step, subtasks, order[1..], o.plan, o.state, depth, go)
      else [o]
  }

  /** Each step of `run` after the first starts from the plan and state the previous step left. */
  ghost predicate Chained(step: ChildStep, subtasks: seq<Task>, order: seq<nat>, run: seq<Outcome>, depth: Option<nat>)
    requires |run| <= |order|
    requires forall i :: 0 <= i < |order| ==> order[i] < |subtasks|
  {
    forall i :: 0 < i < |run| ==>
      run[i] == step(subtasks[order[i]], order[i], run[i - 1].plan, run[i - 1].state, depth)
  }

  /** The trace is a chain: every step after the first runs on what the step before it left. */
  lemma {:induction false} RunIsChained(step: ChildStep, subtasks: seq<Task>, order: seq<nat>, plan: seq<Task>,
                                        ws: WorldState, depth: Option<nat>, go: Status)
    requires forall i :: 0 <= i < |order| ==> order[i] < |subtasks|
    ensures Chained(step, subtasks, order, Run(step, subtasks, order, plan, ws, depth, go), depth)
    decreases |order|
  {
    if order != [] {
      var o := step(subtasks[order[0]], order[0], plan, ws, depth);
      if o.status == go {
        RunIsChained(step, subtasks, order[1..], o.plan, o.state, depth, go);
        var rest := Run(step, subtasks, order[1..], o.plan, o.state, depth, go);
        var r := [o] + rest;
        forall i | 0 < i < |r|
          ensures r[i] == step(subtasks[order[i]], order[i], r[i - 1].plan, r[i - 1].state, depth)
        {
          assert order[i] == order[1..][i - 1];
          assert r[i] == rest[i - 1];
          if i > 1 {
            assert r[i - 1] == rest[i - 2];
          }
        }
      }
    }
  }

  /** One step of a run over a range of positions: the step at `lo`, then the rest of the range
      when that step returned `go`. */
  lemma RunOverRange(step: ChildStep, subtasks: seq<Task>, lo: nat, plan: seq<Task>,
                     ws: WorldState, depth: Option<nat>, go: Status)
    requires lo < |subtasks|
    ensures var o := step(subtasks[lo], lo, plan, ws, depth);
      Run(step, subtasks, Range(lo, |subtasks|), plan, ws, depth, go)
      == if o.status == go then [o] + Run(step, subtasks, Range(lo + 1, |subtasks|), o.plan, o.state, depth, go)
         else [o]
  {
    assert Range(lo, |subtasks|)[1..] == Range(lo + 1, |subtasks|);
  }

  /** The plan and state after the steps of a run, or the starting ones when it took none. */
  function PlanAfter(run: seq<Outcome>, plan: seq<Task>): seq<Task> {
    if run == [] then plan else run[|run| - 1].plan
  }

  function StateAfter(run: seq<Outcome>, ws: WorldState): WorldState {
    if run == [] then ws else run[|run| - 1].state
  }
}
