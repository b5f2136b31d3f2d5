/**
  The utility selector: among the subtasks from `startIndex` on that offer a score and are
  valid, it picks the one with the strictly highest score above the baseline 0 (the earliest
  one on a tie) and decomposes only that one.
 */
module UtilitySelectors {
  import opened Wrappers
  import opened WorldStates
  import opened Tasks
  import opened Decomposition

  /** A subtask that takes part in the comparison: it offers a score and its conditions hold. */
  predicate IsCandidate(t: Task, values: seq<byte>) {
    IsUtilityTask(t) && IsValid(t, values)
  }

  function Score(t: Task, values: seq<byte>): int
    requires IsUtilityTask(t)
  {
    t.score.value(values)
  }

  /** Position `i` holds the winner: a candidate scoring above 0, at least as high as every
      candidate in range and strictly higher than every earlier one. */
  predicate IsBest(subtasks: seq<Task>, startIndex: nat, values: seq<byte>, i: nat) {
    && startIndex <= i < |subtasks|
    && IsCandidate(subtasks[i], values)
    && 0 < Score(subtasks[i], values)
    && (forall j :: startIndex <= j < |subtasks| && IsCandidate(subtasks[j], values) ==>
          Score(subtasks[j], values) <= Score(subtasks[i], values))
    && (forall j :: startIndex <= j < i && IsCandidate(subtasks[j], values) ==>
          Score(subtasks[j], values) < Score(subtasks[i], values))
  }

  /** No candidate in range scores above the baseline 0. */
  predicate NoneAboveBaseline(subtasks: seq<Task>, startIndex: nat, values: seq<byte>) {
    forall j :: startIndex <= j < |subtasks| && IsCandidate(subtasks[j], values) ==>
      Score(subtasks[j], values) <= 0
  }

  /** The scan of `FindBestTask` from position `k` on, with the best score and position so far. */
  function BestFrom(subtasks: seq<Task>, values: seq<byte>, k: nat, bestScore: int,
                    best: Option<nat>): Option<nat>
    decreases |subtasks| - k
  {
    if k >= |subtasks| then best
    else if IsCandidate(subtasks[k], values) && bestScore < Score(subtasks[k], values) then
      BestFrom(subtasks, values, k + 1, Score(subtasks[k], values), Some(k))
    else BestFrom(subtasks, values, k + 1, bestScore, best)
  }

  function BestIndex(subtasks: seq<Task>, startIndex: nat, values: seq<byte>): Option<nat> {
    BestFrom(subtasks, values, startIndex, 0, None)
  }

  lemma {:induction false} BestFromIsBest(subtasks: seq<Task>, startIndex: nat, values: seq<byte>,
                                          k: nat, bestScore: int, best: Option<nat>)
    requires startIndex <= k
    requires best.None? ==> bestScore == 0
    requires best.None? ==> forall j :: startIndex <= j < k && j < |subtasks| && IsCandidate(subtasks[j], values) ==>
      Score(subtasks[j], values) <= 0
    requires best.Some? ==>
      && startIndex <= best.value < k && best.value < |subtasks|
      && IsCandidate(subtasks[best.value], values)
      && bestScore == Score(subtasks[best.value], values) && 0 < bestScore
      && (forall j :: startIndex <= j < k && j < |subtasks| && IsCandidate(subtasks[j], values) ==>
            Score(subtasks[j], values) <= bestScore)
      && (forall j :: startIndex <= j < best.value && IsCandidate(subtasks[j], values) ==>
            Score(subtasks[j], values) < bestScore)
    ensures var r := BestFrom(subtasks, values, k, bestScore, best);
      && (r.None? <==> NoneAboveBaseline(subtasks, startIndex, values))
      && (r.Some? ==> IsBest(subtasks, startIndex, values, r.value))
    decreases |subtasks| - k
  {
    if k < |subtasks| {
      if IsCandidate(subtasks[k], values) && bestScore < Score(subtasks[k], values) {
        BestFromIsBest(subtasks, startIndex, values, k + 1, Score(subtasks[k], values), Some(k));
      } else {
        BestFromIsBest(subtasks, startIndex, values, k + 1, bestScore, best);
      }
    }
  }

  /** The winner is the earliest highest-scoring valid utility subtask in range; there is
      none exactly when no such subtask scores above 0. */
  lemma BestIndexIsBest(subtasks: seq<Task>, startIndex: nat, values: seq<byte>)
    ensures var r := BestIndex(subtasks, startIndex, values);
      && (r.None? <==> NoneAboveBaseline(subtasks, startIndex, values))
      && (r.Some? ==> IsBest(subtasks, startIndex, values, r.value))
  {
    BestFromIsBest(subtasks, startIndex, values, startIndex, 0, None);
  }

  /** At most one position is the winner, so the winner is fully determined. */
  lemma BestIsUnique(subtasks: seq<Task>, startIndex: nat, values: seq<byte>, i: nat, j: nat)
    requires IsBest(subtasks, startIndex, values, i) && IsBest(subtasks, startIndex, values, j)
    ensures i == j
  {
  }

  /** The outcome of the utility selector: Failed with an empty plan and the state untouched
      when nothing qualifies, otherwise the decomposition of the winner alone. */
  function UtilityOutcome(subtasks: seq<Task>, startIndex: nat, ws: WorldState,
                          decompose: CompoundDecompose): (r: Outcome)
    requires AllFit(subtasks, |ws.values|)
    ensures NoneAboveBaseline(subtasks, startIndex, ws.values) ==> r == Outcome(Failed, [], ws)
    ensures r.status == Succeeded <==> |r.plan| > 0
  {
    BestIndexIsBest(subtasks, startIndex, ws.values);
    match BestIndex(subtasks, startIndex, ws.values)
    case None => Outcome(Failed, [], ws)
    case Some(i) => ChosenOutcome(subtasks[i], ws, decompose)
  }

  /** Only the winner is decomposed; no other subtask is tried, whatever the winner gives back. */
  lemma OnlyTheWinnerIsTried(subtasks: seq<Task>, startIndex: nat, ws: WorldState,
                             decompose: CompoundDecompose, i: nat)
    requires AllFit(subtasks, |ws.values|) && IsBest(subtasks, startIndex, ws.values, i)
    ensures UtilityOutcome(subtasks, startIndex, ws, decompose) == ChosenOutcome(subtasks[i], ws, decompose)
  {
    BestIndexIsBest(subtasks, startIndex, ws.values);
    var b := BestIndex(subtasks, startIndex, ws.values);
    BestIsUnique(subtasks, startIndex, ws.values, i, b.value);
  }

  /** The unit test: two valid utility actions scoring 1 and 10; the one scoring 10 is the plan. */
  lemma HighestScoreIsPlanned(low: Task, high: Task, ws: WorldState, decompose: CompoundDecompose)
    requires low.Primitive? && high.Primitive? && EffectsFit(low, |ws.values|) && EffectsFit(high, |ws.values|)
    requires IsValid(low, ws.values) && IsValid(high, ws.values)
    requires low.score.Some? && high.score.Some?
    requires low.score.value(ws.values) == 1 && high.score.value(ws.values) == 10
    ensures var r := UtilityOutcome([low, high], 0, ws, decompose);
      r.status == Succeeded && r.plan == [high]
  {
    assert IsBest([low, high], 0, ws.values, 1);
    OnlyTheWinnerIsTried([low, high], 0, ws, decompose, 1);
  }

  class UtilitySelector {
    const subtasks: seq<Task>
    var plan: seq<Task>

    constructor (subtasks: seq<Task>)
      ensures this.subtasks == subtasks && plan == []
    {
      this.subtasks := subtasks;
      plan := [];
    }

    /** `FindBestTask`: the position of the winning subtask, or none (the source returns the
        task itself, or null). */
    method FindBestTask(ctx: Context, startIndex: nat) returns (best: Option<nat>)
      ensures best == BestIndex(subtasks, startIndex, ctx.ws.values)
      ensures best.None? <==> NoneAboveBaseline(subtasks, startIndex, ctx.ws.values)
      ensures best.Some? ==> IsBest(subtasks, startIndex, ctx.ws.values, best.value)
    {
      var bestScore := 0;
      best := None;
      var taskIndex := startIndex;
      while taskIndex < |subtasks|
        invariant startIndex <= taskIndex
        invariant BestFrom(subtasks, ctx.ws.values, taskIndex, bestScore, best)
               == BestIndex(subtasks, startIndex, ctx.ws.values)
      {
        var task := subtasks[taskIndex];
        if IsUtilityTask(task) {
          if IsValid(task, ctx.ws.values) {
            var score := task.score.value(ctx.ws.values);
            if bestScore < score {
              bestScore := score;
              best := Some(taskIndex);
            }
          }
        }
        taskIndex := taskIndex + 1;
      }
      BestIndexIsBest(subtasks, startIndex, ctx.ws.values);
    }

    method OnDecompose(ctx: Context, startIndex: nat, decompose: CompoundDecompose)
      returns (status: Status, result: Option<seq<Task>>)
      requires AllFit(subtasks, |ctx.ws.values|)
      modifies this, ctx
      ensures var o := UtilityOutcome(subtasks, startIndex, old(ctx.ws), decompose);
        status == o.status && plan == o.plan && ctx.ws == o.state && result == Handed(o)
    {
      plan := [];
      var best := FindBestTask(ctx, startIndex);
      if best.None? {
        return Failed, Some(plan);
      }
      var task := subtasks[best.value];
      if task.Compound? {
        var sub := decompose(task, ctx.ws);
        ctx.ws := sub.state;
        if sub.status == Rejected {
          return Rejected, None;
        }
        if sub.status == Failed {
          return Failed, Some(plan);
        }
        var i := 0;
        while i < |sub.plan|
          invariant 0 <= i <= |sub.plan|
          invariant plan == sub.plan[..i]
          invariant ctx.ws == sub.state
        {
          plan := plan + [sub.plan[i]];
          i := i + 1;
        }
      } else {
        ApplyEffects(task, ctx);
        plan := plan + [task];
      }
      result := Some(plan);
      status := if |plan| == 0 then Failed else Succeeded;
    }
  }
}
