/**
  The invert-status selector: it tries its subtasks in order from `startIndex`, passing over
  those that fail, and swaps Succeeded and Failed in what it reports; Rejected and Partial
  are handed through unchanged. When nothing succeeds it reports Succeeded.
 */
module InvertStatusSelectors {
  import opened Wrappers
  import opened WorldStates
  import opened Tasks
  import opened Decomposition

  /** The child steps the selector takes: subtasks in index order from `startIndex`, going on
      while they fail, starting from the cleared plan; no depth is handed to a selector's step. */
  function Tried(step: ChildStep, subtasks: seq<Task>, startIndex: nat, ws: WorldState): seq<Outcome> {
    Run(step, subtasks, Range(startIndex, |subtasks|), [], ws, None, Failed)
  }

  /** The status swap. */
  function Inverted(o: Outcome): (r: Outcome)
    ensures r.plan == o.plan && r.state == o.state
    ensures o.status == Succeeded <==> r.status == Failed
    ensures o.status == Failed <==> r.status == Succeeded
    ensures o.status == Rejected <==> r.status == Rejected
    ensures o.status == Partial <==> r.status == Partial
  {
    match o.status
    case Succeeded => Outcome(Failed, o.plan, o.state)
    case Failed => Outcome(Succeeded, o.plan, o.state)
    case _ => o
  }

  /**
    The outcome of the selector: the last step tried, inverted. Every earlier step failed; the
    first step that succeeds makes the selector fail, a rejecting or partial step is handed
    back as it is, and when the range is empty or every child fails the selector succeeds.
   */
  function InvertOutcome(step: ChildStep, subtasks: seq<Task>, startIndex: nat, ws: WorldState): (r: Outcome)
    ensures var tried := Tried(step, subtasks, startIndex, ws);
      && (r.status == Succeeded <==> forall i :: 0 <= i < |tried| ==> tried[i].status == Failed)
      && (r.status == Failed <==> |tried| > 0 && tried[|tried| - 1].status == Succeeded)
      && (r.status == Rejected || r.status == Partial ==> |tried| > 0 && r == tried[|tried| - 1])
      && (r.status == Succeeded ==> |tried| == if startIndex <= |subtasks| then |subtasks| - startIndex else 0)
      && r.plan == PlanAfter(tried, []) && r.state == StateAfter(tried, ws)
  {
    var tried := Tried(step, subtasks, startIndex, ws);
    if tried == [] then Outcome(Succeeded, [], ws) else Inverted(tried[|tried| - 1])
  }

  /** The first unit test: over one action whose step succeeds, the selector fails. */
  lemma SucceedingChildMakesItFail(step: ChildStep, action: Task, ws: WorldState)
    requires step(action, 0, [], ws, None).status == Succeeded
    ensures InvertOutcome(step, [action], 0, ws).status == Failed
  {
    assert Range(0, 1) == [0];
  }

  /** The second unit test, from the selector's side: over one action whose step fails, the
      selector succeeds with the plan the step left, so an enclosing sequence goes on to its
      next task. */
  lemma FailingChildMakesItSucceed(step: ChildStep, action: Task, ws: WorldState)
    requires step(action, 0, [], ws, None).status == Failed
    ensures var r := InvertOutcome(step, [action], 0, ws);
      r.status == Succeeded && r.plan == step(action, 0, [], ws, None).plan
  {
    assert Range(0, 1) == [0];
  }

  /** The selector's loop taken position by position, from subtask `taskIndex` on, with the plan
      and state reached so far. */
  function InvertFrom(step: ChildStep, subtasks: seq<Task>, taskIndex: nat, plan: seq<Task>, ws: WorldState): Outcome
    decreases |subtasks| - taskIndex
  {
    if taskIndex >= |subtasks| then Outcome(Succeeded, plan, ws)
    else
      var o := step(subtasks[taskIndex], taskIndex, plan, ws, None);
      if o.status == Failed then InvertFrom(step, subtasks, taskIndex + 1, o.plan, o.state) else Inverted(o)
  }

  /** Taken position by position, the loop reports the last step it tried, inverted, or success
      with the plan and state it started from when there was nothing to try. */
  lemma {:induction false} InvertFromTries(step: ChildStep, subtasks: seq<Task>, taskIndex: nat, plan: seq<Task>,
                                           ws: WorldState)
    ensures var tried := Run(step, subtasks, Range(taskIndex, |subtasks|), plan, ws, None, Failed);
      InvertFrom(step, subtasks, taskIndex, plan, ws)
      == if tried == [] then Outcome(Succeeded, plan, ws) else Inverted(tried[|tried| - 1])
    decreases |subtasks| - taskIndex
  {
    if taskIndex < |subtasks| {
      RunOverRange(step, subtasks, taskIndex, plan, ws, None, Failed);
      var o := step(subtasks[taskIndex], taskIndex, plan, ws, None);
      if o.status == Failed {
        InvertFromTries(step, subtasks, taskIndex + 1, o.plan, o.state);
      }
    }
  }

  /** The selector's outcome is its loop's, taken from the first subtask of the range with the
      cleared plan. */
  lemma InvertOutcomeIsLoop(step: ChildStep, subtasks: seq<Task>, startIndex: nat, ws: WorldState)
    ensures InvertOutcome(step, subtasks, startIndex, ws) == InvertFrom(step, subtasks, startIndex, [], ws)
  {
    InvertFromTries(step, subtasks, startIndex, [], ws);
  }

  class InvertStatusSelector {
    const subtasks: seq<Task>
    var plan: seq<Task>

    constructor (subtasks: seq<Task>)
      ensures this.subtasks == subtasks && plan == []
    {
      this.subtasks := subtasks;
      plan := [];
    }

    method OnDecompose(ctx: Context, startIndex: nat, step: ChildStep)
      returns (status: Status, result: Option<seq<Task>>)
      modifies this, ctx
      ensures var o := InvertOutcome(step, subtasks, startIndex, old(ctx.ws));
        status == o.status && plan == o.plan && ctx.ws == o.state && result == Handed(o)
    {
      plan := [];
      InvertOutcomeIsLoop(step, subtasks, startIndex, ctx.ws);
      ghost var goal := InvertFrom(step, subtasks, startIndex, plan, ctx.ws);
      var taskIndex := startIndex;
      while taskIndex < |subtasks|
        invariant goal == InvertFrom(step, subtasks, taskIndex, plan, ctx.ws)
      {
        var task := subtasks[taskIndex];
        var r := step(task, taskIndex, plan, ctx.ws, None);
        plan, ctx.ws := r.plan, r.state;
        if r.status == Succeeded {
          return Failed, Some(plan);
        }
        if r.status != Failed {
          return r.status, Handed(r);
        }
        taskIndex := taskIndex + 1;
      }
      result := Some(plan);
      status := Succeeded;
    }
  }
}
