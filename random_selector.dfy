/**
  The random selector: it decomposes exactly one subtask, drawn from `[startIndex, count)`,
  and never tries another one, whatever that subtask gives back. The random draw is a
  parameter of the model.
 */
module RandomSelectors {
  import opened Wrappers
  import opened WorldStates
  import opened Tasks
  import opened Decomposition

  /** The outcome of the random selector once the draw has picked position `taskIndex`. */
  function RandomOutcome(subtasks: seq<Task>, taskIndex: nat, ws: WorldState,
                         decompose: CompoundDecompose): (r: Outcome)
    requires taskIndex < |subtasks| && EffectsFit(subtasks[taskIndex], |ws.values|)
    ensures !IsValid(subtasks[taskIndex], ws.values) ==> r == Outcome(Failed, [], ws)
    ensures IsValid(subtasks[taskIndex], ws.values) ==> r == ChosenOutcome(subtasks[taskIndex], ws, decompose)
    ensures r.status == Succeeded <==> |r.plan| > 0
  {
    var task := subtasks[taskIndex];
    if !IsValid(task, ws.values) then Outcome(Failed, [], ws)
    else ChosenOutcome(task, ws, decompose)
  }

  /** Only the drawn subtask matters: two selectors whose draws land on the same task decompose
      alike, whatever their other subtasks are. */
  lemma OnlyTheDrawnTaskIsTried(a: seq<Task>, i: nat, b: seq<Task>, j: nat, ws: WorldState,
                                decompose: CompoundDecompose)
    requires i < |a| && j < |b| && a[i] == b[j] && EffectsFit(a[i], |ws.values|)
    ensures RandomOutcome(a, i, ws, decompose) == RandomOutcome(b, j, ws, decompose)
  {
  }

  /** Every draw among valid actions succeeds with a one-task plan naming the drawn action. */
  lemma DrawnValidActionIsThePlan(subtasks: seq<Task>, taskIndex: nat, ws: WorldState,
                                  decompose: CompoundDecompose)
    requires taskIndex < |subtasks| && EffectsFit(subtasks[taskIndex], |ws.values|)
    requires subtasks[taskIndex].Primitive? && IsValid(subtasks[taskIndex], ws.values)
    ensures RandomOutcome(subtasks, taskIndex, ws, decompose).status == Succeeded
    ensures RandomOutcome(subtasks, taskIndex, ws, decompose).plan == [subtasks[taskIndex]]
  {
  }

  class RandomSelector {
    const subtasks: seq<Task>
    var plan: seq<Task>

    constructor (subtasks: seq<Task>)
      ensures this.subtasks == subtasks && plan == []
    {
      this.subtasks := subtasks;
      plan := [];
    }

    /** `OnDecompose`, with the draw `_random.Next(startIndex, Subtasks.Count)` given as
        `taskIndex`; the source indexes out of range when that interval is empty. */
    method OnDecompose(ctx: Context, startIndex: nat, taskIndex: nat, decompose: CompoundDecompose)
      returns (status: Status, result: Option<seq<Task>>)
      requires startIndex <= taskIndex < |subtasks|
      requires EffectsFit(subtasks[taskIndex], |ctx.ws.values|)
      modifies this, ctx
      ensures var o := RandomOutcome(subtasks, taskIndex, old(ctx.ws), decompose);
        status == o.status && plan == o.plan && ctx.ws == o.state && result == Handed(o)
    {
      plan := [];
      var task := subtasks[taskIndex];
      if !IsValid(task, ctx.ws.values) {
        return Failed, Some(plan);
      }
      if task.Compound? {
        var sub := decompose(task, ctx.ws);
        ctx.ws := sub.state;
        if sub.status == Rejected {
          return Rejected, None;
        }
        if sub.status == Failed {
          return Failed, Some(plan);
        }
        var i := 0;
        while i < |sub.plan|
          invariant 0 <= i <= |sub.plan|
          invariant plan == sub.plan[..i]
          invariant ctx.ws == sub.state
        {
          plan := plan + [sub.plan[i]];
          i := i + 1;
        }
      } else {
        ApplyEffects(task, ctx);
        plan := plan + [task];
      }
      result := Some(plan);
      status := if |plan| == 0 then Failed else Succeeded;
    }
  }
}
