/**
  The always-succeed selector: like the random selector it decomposes one drawn subtask, but
  every outcome is reported as Succeeded. A failing or rejecting child contributes an empty
  plan, so the selector works as an optional step inside a sequence.
 */
module AlwaysSucceedSelectors {
  import opened Wrappers
  import opened WorldStates
  import opened Tasks
  import opened Decomposition
  import RandomSelectors

  /** The outcome of the always-succeed selector once the draw has picked `taskIndex`: the
      random selector's plan and state, with the status always Succeeded. */
  function AlwaysSucceedOutcome(subtasks: seq<Task>, taskIndex: nat, ws: WorldState,
                                decompose: CompoundDecompose): (r: Outcome)
    requires taskIndex < |subtasks| && EffectsFit(subtasks[taskIndex], |ws.values|)
    ensures r.status == Succeeded
    ensures var random := RandomSelectors.RandomOutcome(subtasks, taskIndex, ws, decompose);
      r.plan == random.plan && r.state == random.state
    ensures !IsValid(subtasks[taskIndex], ws.values) ==> r == Outcome(Succeeded, [], ws)
  {
    var task := subtasks[taskIndex];
    if !IsValid(task, ws.values) then Outcome(Succeeded, [], ws)
    else match task
      case Compound(_, _, _, _, _) =>
        var sub := decompose(task, ws);
        if sub.status == Rejected || sub.status == Failed then Outcome(Succeeded, [], sub.state)
        else Outcome(Succeeded, sub.plan, sub.state)
      case Primitive(_, _, _, effects, _, _) =>
        Outcome(Succeeded, [task], Applied(ws, effects))
  }

  /** A failing or rejecting compound child is downgraded to an empty success, and a
      decomposing one has its plan copied in order. */
  lemma CompoundChildOutcomes(subtasks: seq<Task>, taskIndex: nat, ws: WorldState,
                              decompose: CompoundDecompose)
    requires taskIndex < |subtasks| && EffectsFit(subtasks[taskIndex], |ws.values|)
    requires subtasks[taskIndex].Compound? && IsValid(subtasks[taskIndex], ws.values)
    ensures var sub := decompose(subtasks[taskIndex], ws);
      var r := AlwaysSucceedOutcome(subtasks, taskIndex, ws, decompose);
      && (sub.status == Rejected || sub.status == Failed ==> r == Outcome(Succeeded, [], sub.state))
      && (sub.status == Succeeded || sub.status == Partial ==> r == Outcome(Succeeded, sub.plan, sub.state))
  {
  }

  /** Two invalid actions, as in the unit test: the selector succeeds with an empty plan and
      leaves the world state alone, so an enclosing sequence goes on to its next task. */
  lemma InvalidActionsGiveEmptySuccess(subtasks: seq<Task>, taskIndex: nat, ws: WorldState,
                                       decompose: CompoundDecompose)
    requires |subtasks| == 2 && taskIndex < 2 && AllFit(subtasks, |ws.values|)
    requires forall i :: 0 <= i < 2 ==> subtasks[i].Primitive? && !IsValid(subtasks[i], ws.values)
    ensures AlwaysSucceedOutcome(subtasks, taskIndex, ws, decompose) == Outcome(Succeeded, [], ws)
  {
  }

  class AlwaysSucceedSelector {
    const subtasks: seq<Task>
    var plan: seq<Task>

    constructor (subtasks: seq<Task>)
      ensures this.subtasks == subtasks && plan == []
    {
      this.subtasks := subtasks;
      plan := [];
    }

    /** `OnDecompose`, with the draw `_random.Next(startIndex, Subtasks.Count)` given as
        `taskIndex`; the source indexes out of range when that interval is empty. */
    method OnDecompose(ctx: Context, startIndex: nat, taskIndex: nat, decompose: CompoundDecompose)
      returns (status: Status, result: Option<seq<Task>>)
      requires startIndex <= taskIndex < |subtasks|
      requires EffectsFit(subtasks[taskIndex], |ctx.ws.values|)
      modifies this, ctx
      ensures var o := AlwaysSucceedOutcome(subtasks, taskIndex, old(ctx.ws), decompose);
        status == o.status && plan == o.plan && ctx.ws == o.state && result == Handed(o)
    {
      plan := [];
      var task := subtasks[taskIndex];
      if !IsValid(task, ctx.ws.values) {
        return Succeeded, Some(plan);
      }
      if task.Compound? {
        var sub := decompose(task, ctx.ws);
        ctx.ws := sub.state;
        if sub.status == Rejected {
          return Succeeded, Some(plan);
        }
        if sub.status == Failed {
          return Succeeded, Some(plan);
        }
        var i := 0;
        while i < |sub.plan|
          invariant 0 <= i <= |sub.plan|
          invariant plan == sub.plan[..i]
          invariant ctx.ws == sub.state
        {
          plan := plan + [sub.plan[i]];
          i := i + 1;
        }
      } else {
        ApplyEffects(task, ctx);
        plan := plan + [task];
      }
      result := Some(plan);
      status := Succeeded;
    }
  }
}
