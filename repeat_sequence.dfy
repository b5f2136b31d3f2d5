/**
  The repeat sequence: a sequence that decomposes its subtasks a number of times, the count
  being the world-state byte at a fixed index, read when the decomposition starts. Interleaved
  repetition runs the whole range of subtasks again and again (A, B, C, A, B, C); blockwise
  repetition repeats each subtask in place before moving on (A, A, B, B, C, C).
 */
module RepeatSequences {
  import opened Wrappers
  import opened WorldStates
  import opened Tasks
  import opened Decomposition

  /** The two repetition types; any other value of the byte-sized type behaves as Interleaved. */
  const Interleaved: byte := 0
  const Blockwise: byte := 1

  /** `n` copies of the index `x`. */
  function Copies(x: nat, n: nat): (r: seq<nat>)
    ensures |r| == n
    ensures forall i :: 0 <= i < |r| ==> r[i] == x
  {
    if n == 0 then [] else [x] + Copies(x, n - 1)
  }

  /** Taking the first index off a round that still has indices left. */
  lemma RangeThen(lo: nat, hi: nat, later: seq<nat>)
    ensures lo < hi ==> (Range(lo, hi) + later)[0] == lo && (Range(lo, hi) + later)[1..] == Range(lo + 1, hi) + later
    ensures lo >= hi ==> Range(lo, hi) + later == later
  {
    if lo < hi {
      assert Range(lo, hi) == [lo] + Range(lo + 1, hi);
      assert (Range(lo, hi) + later)[1..] == Range(lo + 1, hi) + later;
    }
  }

  /** Taking the first copy off a block that still has copies left. */
  lemma CopiesThen(x: nat, c: nat, later: seq<nat>)
    ensures c > 0 ==> (Copies(x, c) + later)[0] == x && (Copies(x, c) + later)[1..] == Copies(x, c - 1) + later
    ensures c == 0 ==> Copies(x, c) + later == later
  {
    if c > 0 {
      assert Copies(x, c) == [x] + Copies(x, c - 1);
      assert (Copies(x, c) + later)[1..] == Copies(x, c - 1) + later;
    }
  }

  /** The interleaved visit order: the range `start .. n - 1`, `reps` times over. */
  function InterleavedOrder(start: nat, n: nat, reps: nat): (r: seq<nat>)
    ensures forall i :: 0 <= i < |r| ==> start <= r[i] < n
  {
    if reps == 0 then [] else Range(start, n) + InterleavedOrder(start, n, reps - 1)
  }

  /** The blockwise visit order: each index of `start .. n - 1` `reps` times in a row. */
  function BlockwiseOrder(start: nat, n: nat, reps: nat): (r: seq<nat>)
    ensures forall i :: 0 <= i < |r| ==> start <= r[i] < n
    decreases n - start
  {
    if start >= n then [] else Copies(start, reps) + BlockwiseOrder(start + 1, n, reps)
  }

  lemma {:induction false} InterleavedLength(start: nat, n: nat, reps: nat)
    requires start <= n
    ensures |InterleavedOrder(start, n, reps)| == reps * (n - start)
  {
    if reps > 0 {
      InterleavedLength(start, n, reps - 1);
      assert reps * (n - start) == (n - start) + (reps - 1) * (n - start);
    }
  }

  /** The interleaved order starts with the whole range and then repeats it: every entry past
      the first round equals the one a round earlier. */
  lemma {:induction false} InterleavedIsPeriodic(start: nat, n: nat, reps: nat)
    requires start <= n && reps > 0
    ensures var r, m := InterleavedOrder(start, n, reps), n - start;
      && m <= |r| && r[..m] == Range(start, n)
      && forall k, l :: 0 <= l && k == l + m && k < |r| ==> r[k] == r[l]
  {
    var r, m := InterleavedOrder(start, n, reps), n - start;
    var rest := InterleavedOrder(start, n, reps - 1);
    assert r == Range(start, n) + rest;
    assert r[..m] == Range(start, n);
    if reps > 1 {
      InterleavedIsPeriodic(start, n, reps - 1);
      forall k, l | 0 <= l && k == l + m && k < |r| ensures r[k] == r[l] {
        assert r[k] == rest[l];
        if l >= m {
          assert r[l] == rest[l - m];
        } else {
          assert rest[l] == rest[..m][l];
        }
      }
    } else {
      InterleavedIsEmpty(start, start, 0);
    }
  }

  /** Each index of the range occurs `reps` times in the interleaved order, and no other does. */
  lemma {:induction false} InterleavedCounts(start: nat, n: nat, reps: nat, x: nat)
    ensures multiset(InterleavedOrder(start, n, reps))[x] == if start <= x < n then reps else 0
  {
    if reps > 0 {
      InterleavedCounts(start, n, reps - 1, x);
      RangeCount(start, n, x);
      assert InterleavedOrder(start, n, reps) == Range(start, n) + InterleavedOrder(start, n, reps - 1);
    }
  }

  lemma {:induction false} RangeCount(lo: nat, hi: nat, x: nat)
    ensures multiset(Range(lo, hi))[x] == if lo <= x < hi then 1 else 0
    decreases hi - lo
  {
    if lo < hi {
      RangeCount(lo + 1, hi, x);
      assert Range(lo, hi) == [lo] + Range(lo + 1, hi);
    }
  }

  lemma {:induction false} BlockwiseLength(start: nat, n: nat, reps: nat)
    requires start <= n
    ensures |BlockwiseOrder(start, n, reps)| == reps * (n - start)
    decreases n - start
  {
    if start < n {
      BlockwiseLength(start + 1, n, reps);
      assert reps * (n - start) == reps + reps * (n - (start + 1));
    }
  }

  /** The blockwise order never goes back to an earlier index... */
  lemma {:induction false} BlockwiseIsSorted(start: nat, n: nat, reps: nat)
    ensures forall i, j :: 0 <= i < j < |BlockwiseOrder(start, n, reps)| ==>
      BlockwiseOrder(start, n, reps)[i] <= BlockwiseOrder(start, n, reps)[j]
    decreases n - start
  {
    if start < n {
      BlockwiseIsSorted(start + 1, n, reps);
      var r, rest := BlockwiseOrder(start, n, reps), BlockwiseOrder(start + 1, n, reps);
      assert r == Copies(start, reps) + rest;
      forall i, j | 0 <= i < j < |r| ensures r[i] <= r[j] {
        if j >= reps {
          assert r[j] == rest[j - reps];
          if i >= reps {
            assert r[i] == rest[i - reps];
          } else {
            assert r[i] == Copies(start, reps)[i];
          }
        } else {
          assert r[i] == Copies(start, reps)[i] && r[j] == Copies(start, reps)[j];
        }
      }
    }
  }

  /** ...and holds each index of the range exactly `reps` times, so the copies of one subtask
      stand together in a block. */
  lemma {:induction false} BlockwiseCounts(start: nat, n: nat, reps: nat, x: nat)
    ensures multiset(BlockwiseOrder(start, n, reps))[x] == if start <= x < n then reps else 0
    decreases n - start
  {
    if start < n {
      BlockwiseCounts(start + 1, n, reps, x);
      CopiesCount(start, reps, x);
      assert BlockwiseOrder(start, n, reps) == Copies(start, reps) + BlockwiseOrder(start + 1, n, reps);
    }
  }

  lemma {:induction false} CopiesCount(y: nat, c: nat, x: nat)
    ensures multiset(Copies(y, c))[x] == if x == y then c else 0
  {
    if c > 0 {
      CopiesCount(y, c - 1, x);
      assert Copies(y, c) == [y] + Copies(y, c - 1);
    }
  }

  /** The order in which a repeat sequence of the given type visits its subtasks. */
  function VisitOrder(repetitionType: byte, start: nat, n: nat, reps: nat): seq<nat> {
    if repetitionType == Blockwise then BlockwiseOrder(start, n, reps) else InterleavedOrder(start, n, reps)
  }

  /** The steps a repeat sequence takes along `order`, going on while they succeed. */
  function Steps(step: ChildStep, subtasks: seq<Task>, order: seq<nat>, ws: WorldState): seq<Outcome>
    requires forall i :: 0 <= i < |order| ==> order[i] < |subtasks|
  {
    Run(step, subtasks, order, [], ws, Some(|ws.changes|), Succeeded)
  }

  /** A step that did not succeed ends the visit; a partial decomposition counts as a failure. */
  function Stopped(o: Outcome): (r: Outcome)
    ensures r.plan == o.plan && r.state == o.state && r.status != Partial
    ensures o.status != Partial ==> r == o
  {
    if o.status == Partial then Outcome(Failed, o.plan, o.state) else o
  }

  /** A visit that took all its steps succeeds exactly when it planned something. */
  function Finished(plan: seq<Task>, ws: WorldState): (r: Outcome)
    ensures r.plan == plan && r.state == ws
    ensures r.status == Succeeded <==> |plan| > 0
    ensures r.status != Succeeded ==> r.status == Failed
  {
    Outcome(if |plan| == 0 then Failed else Succeeded, plan, ws)
  }

  /** The outcome of visiting `order` from a plan and a state already reached. */
  function Visit(step: ChildStep, subtasks: seq<Task>, order: seq<nat>, plan: seq<Task>, ws: WorldState,
                 depth: nat): Outcome
    requires forall i :: 0 <= i < |order| ==> order[i] < |subtasks|
  {
    var steps := Run(step, subtasks, order, plan, ws, Some(depth), Succeeded);
    if |steps| > 0 && steps[|steps| - 1].status != Succeeded then Stopped(steps[|steps| - 1])
    else Finished(PlanAfter(steps, plan), StateAfter(steps, ws))
  }

  /** Visiting a non-empty order takes its first step, and goes on only if that step succeeded. */
  lemma VisitStep(step: ChildStep, subtasks: seq<Task>, order: seq<nat>, plan: seq<Task>, ws: WorldState,
                  depth: nat)
    requires order != []
    requires forall i :: 0 <= i < |order| ==> order[i] < |subtasks|
    ensures var o := step(subtasks[order[0]], order[0], plan, ws, Some(depth));
      Visit(step, subtasks, order, plan, ws, depth)
      == if o.status == Succeeded then Visit(step, subtasks, order[1..], o.plan, o.state, depth) else Stopped(o)
  {
    var o := step(subtasks[order[0]], order[0], plan, ws, Some(depth));
    if o.status == Succeeded {
      var rest := Run(step, subtasks, order[1..], o.plan, o.state, Some(depth), Succeeded);
      assert Run(step, subtasks, order, plan, ws, Some(depth), Succeeded) == [o] + rest;
    }
  }

  /**
    The outcome of visiting `order` from the cleared plan: a step that does not succeed ends
    the visit and its status is reported, a partial decomposition being reported as a failure;
    when every step succeeds the sequence succeeds exactly when its plan is not empty.
   */
  function SequenceOutcome(step: ChildStep, subtasks: seq<Task>, order: seq<nat>, ws: WorldState): (r: Outcome)
    requires forall i :: 0 <= i < |order| ==> order[i] < |subtasks|
    ensures var steps := Steps(step, subtasks, order, ws);
      && r.plan == PlanAfter(steps, []) && r.state == StateAfter(steps, ws)
      && r.status != Partial
      && (r.status == Succeeded <==>
            && |steps| == |order|
            && (forall i :: 0 <= i < |steps| ==> steps[i].status == Succeeded)
            && |r.plan| > 0)
      && (r.status == Rejected <==> |steps| > 0 && steps[|steps| - 1].status == Rejected)
      && (r.status == Failed && |r.plan| > 0 ==> |steps| > 0 && steps[|steps| - 1].status != Succeeded)
  {
    Visit(step, subtasks, order, [], ws, |ws.changes|)
  }

  /** Once a round is over, the next one starts again from `start`. */
  lemma NextRound(start: nat, n: nat, reps: nat)
    requires reps > 0
    ensures InterleavedOrder(start, n, reps) == Range(start, n) + InterleavedOrder(start, n, reps - 1)
  {
  }

  /** The rest of a round followed by indices below `n` stays below `n`. */
  lemma RoundBelow(lo: nat, n: nat, later: seq<nat>)
    requires forall k :: 0 <= k < |later| ==> later[k] < n
    ensures forall k :: 0 <= k < |Range(lo, n) + later| ==> (Range(lo, n) + later)[k] < n
  {
    var todo := Range(lo, n) + later;
    forall k | 0 <= k < |todo| ensures todo[k] < n {
      if k < |Range(lo, n)| {
        assert todo[k] == Range(lo, n)[k];
      } else {
        assert todo[k] == later[k - |Range(lo, n)|];
      }
    }
  }

  /** The rest of a block of an index below `n`, followed by indices below `n`, stays below `n`. */
  lemma BlockBelow(x: nat, c: nat, n: nat, later: seq<nat>)
    requires x < n
    requires forall k :: 0 <= k < |later| ==> later[k] < n
    ensures forall k :: 0 <= k < |Copies(x, c) + later| ==> (Copies(x, c) + later)[k] < n
  {
    var todo := Copies(x, c) + later;
    forall k | 0 <= k < |todo| ensures todo[k] < n {
      if k < c {
        assert todo[k] == Copies(x, c)[k];
      } else {
        assert todo[k] == later[k - c];
      }
    }
  }

  /** The interleaved visit taken position by position: round `round`, from subtask `taskIndex` on. */
  function InterleavedFrom(step: ChildStep, subtasks: seq<Task>, start: nat, reps: nat, round: nat,
                           taskIndex: nat, plan: seq<Task>, ws: WorldState, depth: nat): Outcome
    decreases reps - round, |subtasks| - taskIndex
  {
    if round >= reps then Finished(plan, ws)
    else if taskIndex >= |subtasks| then InterleavedFrom(step, subtasks, start, reps, round + 1, start, plan, ws, depth)
    else
      var o := step(subtasks[taskIndex], taskIndex, plan, ws, Some(depth));
      if o.status == Succeeded then InterleavedFrom(step, subtasks, start, reps, round, taskIndex + 1, o.plan, o.state, depth)
      else Stopped(o)
  }

  /** Midway through round `round`, the interleaved visit goes on over the rest of the round and
      then over the remaining rounds. */
  lemma {:induction false} InterleavedFromVisits(step: ChildStep, subtasks: seq<Task>, start: nat, reps: nat,
                                                 round: nat, taskIndex: nat, plan: seq<Task>, ws: WorldState,
                                                 depth: nat)
    requires round < reps && start <= taskIndex
    ensures var later := InterleavedOrder(start, |subtasks|, reps - round - 1);
      forall k :: 0 <= k < |Range(taskIndex, |subtasks|) + later| ==> (Range(taskIndex, |subtasks|) + later)[k] < |subtasks|
    ensures InterleavedFrom(step, subtasks, start, reps, round, taskIndex, plan, ws, depth)
         == Visit(step, subtasks, Range(taskIndex, |subtasks|) + InterleavedOrder(start, |subtasks|, reps - round - 1),
                  plan, ws, depth)
    decreases reps - round, |subtasks| - taskIndex, 1
  {
    if taskIndex >= |subtasks| {
      InterleavedRoundOver(step, subtasks, start, reps, round, taskIndex, plan, ws, depth);
    } else {
      InterleavedRoundStep(step, subtasks, start, reps, round, taskIndex, plan, ws, depth);
    }
  }

  /** The end of a round: the visit goes on with the next round, if there is one. */
  lemma {:induction false} InterleavedRoundOver(step: ChildStep, subtasks: seq<Task>, start: nat, reps: nat,
                                                 round: nat, taskIndex: nat, plan: seq<Task>, ws: WorldState,
                                                 depth: nat)
    requires round < reps && start <= taskIndex && taskIndex >= |subtasks|
    ensures var later := InterleavedOrder(start, |subtasks|, reps - round - 1);
      forall k :: 0 <= k < |Range(taskIndex, |subtasks|) + later| ==> (Range(taskIndex, |subtasks|) + later)[k] < |subtasks|
    ensures InterleavedFrom(step, subtasks, start, reps, round, taskIndex, plan, ws, depth)
         == Visit(step, subtasks, Range(taskIndex, |subtasks|) + InterleavedOrder(start, |subtasks|, reps - round - 1),
                  plan, ws, depth)
    decreases reps - round, |subtasks| - taskIndex, 0
  {
    var n := |subtasks|;
    var later := InterleavedOrder(start, n, reps - round - 1);
    RangeThen(taskIndex, n, later);
    RoundBelow(taskIndex, n, later);
    if round + 1 < reps {
      var next := Range(start, n) + InterleavedOrder(start, n, reps - (round + 1) - 1);
      NextRound(start, n, reps - round - 1);
      assert Range(taskIndex, n) + later == next;
      InterleavedFromVisits(step, subtasks, start, reps, round + 1, start, plan, ws, depth);
      calc {
        InterleavedFrom(step, subtasks, start, reps, round, taskIndex, plan, ws, depth);
        InterleavedFrom(step, subtasks, start, reps, round + 1, start, plan, ws, depth);
        Visit(step, subtasks, next, plan, ws, depth);
      }
    }
  }

  /** A step within a round: the visit goes on past it only if it succeeded. */
  lemma {:induction false} InterleavedRoundStep(step: ChildStep, subtasks: seq<Task>, start: nat, reps: nat,
                                                 round: nat, taskIndex: nat, plan: seq<Task>, ws: WorldState,
                                                 depth: nat)
    requires round < reps && start <= taskIndex < |subtasks|
    ensures var later := InterleavedOrder(start, |subtasks|, reps - round - 1);
      forall k :: 0 <= k < |Range(taskIndex, |subtasks|) + later| ==> (Range(taskIndex, |subtasks|) + later)[k] < |subtasks|
    ensures InterleavedFrom(step, subtasks, start, reps, round, taskIndex, plan, ws, depth)
         == Visit(step, subtasks, Range(taskIndex, |subtasks|) + InterleavedOrder(start, |subtasks|, reps - round - 1),
                  plan, ws, depth)
    decreases reps - round, |subtasks| - taskIndex, 0
  {
    var n := |subtasks|;
    var later := InterleavedOrder(start, n, reps - round - 1);
    RangeThen(taskIndex, n, later);
    RoundBelow(taskIndex, n, later);
    VisitStep(step, subtasks, Range(taskIndex, n) + later, plan, ws, depth);
    var o := step(subtasks[taskIndex], taskIndex, plan, ws, Some(depth));
    if o.status == Succeeded {
      InterleavedFromVisits(step, subtasks, start, reps, round, taskIndex + 1, o.plan, o.state, depth);
    }
  }

  /** Taken position by position from the start, the interleaved visit is the visit of the
      interleaved order. */
  lemma {:induction false} InterleavedFromIsVisit(step: ChildStep, subtasks: seq<Task>, start: nat, reps: nat, ws: WorldState)
    ensures InterleavedFrom(step, subtasks, start, reps, 0, start, [], ws, |ws.changes|)
         == SequenceOutcome(step, subtasks, InterleavedOrder(start, |subtasks|, reps), ws)
  {
    var order := InterleavedOrder(start, |subtasks|, reps);
    if reps > 0 {
      NextRound(start, |subtasks|, reps);
      InterleavedFromVisits(step, subtasks, start, reps, 0, start, [], ws, |ws.changes|);
      calc {
        InterleavedFrom(step, subtasks, start, reps, 0, start, [], ws, |ws.changes|);
        Visit(step, subtasks, order, [], ws, |ws.changes|);
        SequenceOutcome(step, subtasks, order, ws);
      }
    }
  }

  /** The blockwise visit taken position by position: repetition `count` of subtask `taskIndex`. */
  function BlockwiseFrom(step: ChildStep, subtasks: seq<Task>, reps: nat, taskIndex: nat, count: nat,
                         plan: seq<Task>, ws: WorldState, depth: nat): Outcome
    decreases |subtasks| - taskIndex, reps - count
  {
    if taskIndex >= |subtasks| then Finished(plan, ws)
    else if count >= reps then BlockwiseFrom(step, subtasks, reps, taskIndex + 1, 0, plan, ws, depth)
    else
      var o := step(subtasks[taskIndex], taskIndex, plan, ws, Some(depth));
      if o.status == Succeeded then BlockwiseFrom(step, subtasks, reps, taskIndex, count + 1, o.plan, o.state, depth)
      else Stopped(o)
  }

  /** Midway through the block of subtask `taskIndex`, the blockwise visit goes on over the rest
      of that block and then over the blocks of the later subtasks. */
  lemma {:induction false} BlockwiseFromVisits(step: ChildStep, subtasks: seq<Task>, reps: nat, taskIndex: nat,
                                               count: nat, plan: seq<Task>, ws: WorldState, depth: nat)
    requires taskIndex < |subtasks| && count <= reps
    ensures var todo := Copies(taskIndex, reps - count) + BlockwiseOrder(taskIndex + 1, |subtasks|, reps);
      forall k :: 0 <= k < |todo| ==> todo[k] < |subtasks|
    ensures BlockwiseFrom(step, subtasks, reps, taskIndex, count, plan, ws, depth)
         == Visit(step, subtasks, Copies(taskIndex, reps - count) + BlockwiseOrder(taskIndex + 1, |subtasks|, reps),
                  plan, ws, depth)
    decreases |subtasks| - taskIndex, reps - count, 1
  {
    if count >= reps {
      BlockwiseBlockOver(step, subtasks, reps, taskIndex, count, plan, ws, depth);
    } else {
      BlockwiseBlockStep(step, subtasks, reps, taskIndex, count, plan, ws, depth);
    }
  }

  /** The end of a block: the visit goes on with the block of the next subtask, if there is one. */
  lemma {:induction false} BlockwiseBlockOver(step: ChildStep, subtasks: seq<Task>, reps: nat, taskIndex: nat,
                                               count: nat, plan: seq<Task>, ws: WorldState, depth: nat)
    requires taskIndex < |subtasks| && count == reps
    ensures var todo := Copies(taskIndex, reps - count) + BlockwiseOrder(taskIndex + 1, |subtasks|, reps);
      forall k :: 0 <= k < |todo| ==> todo[k] < |subtasks|
    ensures BlockwiseFrom(step, subtasks, reps, taskIndex, count, plan, ws, depth)
         == Visit(step, subtasks, Copies(taskIndex, reps - count) + BlockwiseOrder(taskIndex + 1, |subtasks|, reps),
                  plan, ws, depth)
    decreases |subtasks| - taskIndex, reps - count, 0
  {
    var n := |subtasks|;
    var later := BlockwiseOrder(taskIndex + 1, n, reps);
    CopiesThen(taskIndex, reps - count, later);
    BlockBelow(taskIndex, reps - count, n, later);
    if taskIndex + 1 < n {
      var next := Copies(taskIndex + 1, reps - 0) + BlockwiseOrder(taskIndex + 1 + 1, n, reps);
      assert Copies(taskIndex, reps - count) + later == next;
      BlockwiseFromVisits(step, subtasks, reps, taskIndex + 1, 0, plan, ws, depth);
      calc {
        BlockwiseFrom(step, subtasks, reps, taskIndex, count, plan, ws, depth);
        BlockwiseFrom(step, subtasks, reps, taskIndex + 1, 0, plan, ws, depth);
        Visit(step, subtasks, next, plan, ws, depth);
      }
    }
  }

  /** A repetition within a block: the visit goes on past it only if it succeeded. */
  lemma {:induction false} BlockwiseBlockStep(step: ChildStep, subtasks: seq<Task>, reps: nat, taskIndex: nat,
                                               count: nat, plan: seq<Task>, ws: WorldState, depth: nat)
    requires taskIndex < |subtasks| && count < reps
    ensures var todo := Copies(taskIndex, reps - count) + BlockwiseOrder(taskIndex + 1, |subtasks|, reps);
      forall k :: 0 <= k < |todo| ==> todo[k] < |subtasks|
    ensures BlockwiseFrom(step, subtasks, reps, taskIndex, count, plan, ws, depth)
         == Visit(step, subtasks, Copies(taskIndex, reps - count) + BlockwiseOrder(taskIndex + 1, |subtasks|, reps),
                  plan, ws, depth)
    decreases |subtasks| - taskIndex, reps - count, 0
  {
    var n := |subtasks|;
    var later := BlockwiseOrder(taskIndex + 1, n, reps);
    CopiesThen(taskIndex, reps - count, later);
    BlockBelow(taskIndex, reps - count, n, later);
    VisitStep(step, subtasks, Copies(taskIndex, reps - count) + later, plan, ws, depth);
    var o := step(subtasks[taskIndex], taskIndex, plan, ws, Some(depth));
    if o.status == Succeeded {
      BlockwiseFromVisits(step, subtasks, reps, taskIndex, count + 1, o.plan, o.state, depth);
    }
  }

  /** Taken position by position from the start, the blockwise visit is the visit of the
      blockwise order. */
  lemma {:induction false} BlockwiseFromIsVisit(step: ChildStep, subtasks: seq<Task>, start: nat, reps: nat, ws: WorldState)
    ensures BlockwiseFrom(step, subtasks, reps, start, 0, [], ws, |ws.changes|)
         == SequenceOutcome(step, subtasks, BlockwiseOrder(start, |subtasks|, reps), ws)
  {
    if start < |subtasks| {
      BlockwiseFromVisits(step, subtasks, reps, start, 0, [], ws, |ws.changes|);
    }
  }

  /** The outcome of a repeat sequence reading its count at `worldStateIndex`. */
  function RepeatOutcome(step: ChildStep, subtasks: seq<Task>, worldStateIndex: nat, repetitionType: byte,
                         startIndex: nat, ws: WorldState): (r: Outcome)
    ensures worldStateIndex >= |ws.values| ==> r == Outcome(Failed, [], ws)
    ensures r.status != Partial
  {
    if worldStateIndex >= |ws.values| then Outcome(Failed, [], ws)
    else
      var order := VisitOrder(repetitionType, startIndex, |subtasks|, ws.values[worldStateIndex]);
      SequenceOutcome(step, subtasks, order, ws)
  }

  /** A successful repeat sequence took `repetitions × (count − startIndex)` child steps, each of
      them successful. */
  lemma SucceededAfterEverySteps(step: ChildStep, subtasks: seq<Task>, worldStateIndex: nat,
                                 repetitionType: byte, startIndex: nat, ws: WorldState)
    requires RepeatOutcome(step, subtasks, worldStateIndex, repetitionType, startIndex, ws).status == Succeeded
    ensures worldStateIndex < |ws.values| && startIndex < |subtasks| && ws.values[worldStateIndex] > 0
    ensures var reps, n := ws.values[worldStateIndex], |subtasks|;
      var steps := Steps(step, subtasks, VisitOrder(repetitionType, startIndex, n, reps), ws);
      && |steps| == reps * (n - startIndex)
      && (forall i :: 0 <= i < |steps| ==> steps[i].status == Succeeded)
  {
    var reps, n := ws.values[worldStateIndex], |subtasks|;
    if startIndex >= n || reps == 0 {
      NothingToVisit(repetitionType, startIndex, n, reps);
    } else if repetitionType == Blockwise {
      BlockwiseLength(startIndex, n, reps);
    } else {
      InterleavedLength(startIndex, n, reps);
    }
  }

  /** With no repetitions, or no subtask from `start` on, nothing is visited. */
  lemma NothingToVisit(repetitionType: byte, start: nat, n: nat, reps: nat)
    requires start >= n || reps == 0
    ensures VisitOrder(repetitionType, start, n, reps) == []
  {
    if reps == 0 {
      BlockwiseIsEmpty(start, n);
    } else {
      InterleavedIsEmpty(start, n, reps);
    }
  }

  lemma {:induction false} InterleavedIsEmpty(start: nat, n: nat, reps: nat)
    requires start >= n
    ensures InterleavedOrder(start, n, reps) == []
  {
    if reps > 0 {
      InterleavedIsEmpty(start, n, reps - 1);
    }
  }

  lemma {:induction false} BlockwiseIsEmpty(start: nat, n: nat)
    ensures BlockwiseOrder(start, n, 0) == []
    decreases n - start
  {
    if start < n {
      BlockwiseIsEmpty(start + 1, n);
    }
  }

  /** A count of zero makes a repeat sequence fail with an empty plan, whatever its type. */
  lemma ZeroRepetitionsFail(step: ChildStep, subtasks: seq<Task>, worldStateIndex: nat,
                            repetitionType: byte, startIndex: nat, ws: WorldState)
    requires worldStateIndex < |ws.values| && ws.values[worldStateIndex] == 0
    ensures RepeatOutcome(step, subtasks, worldStateIndex, repetitionType, startIndex, ws)
         == Outcome(Failed, [], ws)
  {
    NothingToVisit(repetitionType, startIndex, |subtasks|, 0);
  }

  /** The unit test: one action and a count of 3 give a plan of that action three times. */
  lemma RepeatsTheActionThreeTimes(action: Task, ws: WorldState, worldStateIndex: nat)
    requires worldStateIndex < |ws.values| && ws.values[worldStateIndex] == 3
    ensures var appendIt: ChildStep := (t: Task, i: nat, p: seq<Task>, s: WorldState, d: Option<nat>) => Outcome(Succeeded, p + [t], s);
      RepeatOutcome(appendIt, [action], worldStateIndex, Interleaved, 0, ws)
      == Outcome(Succeeded, [action, action, action], ws)
  {
    var appendIt: ChildStep := (t: Task, i: nat, p: seq<Task>, s: WorldState, d: Option<nat>) => Outcome(Succeeded, p + [t], s);
    var order := InterleavedOrder(0, 1, 3);
    assert Range(0, 1) == [0];
    assert order == [0, 0, 0];
    var steps := Steps(appendIt, [action], order, ws);
    assert steps[0].plan == [action];
    assert steps[1].plan == [action, action];
    assert steps[2].plan == [action, action, action];
  }

  class RepeatSequence {
    const subtasks: seq<Task>
    const worldStateIndex: nat
    const repetitionType: byte
    var plan: seq<Task>

    /** A repeat sequence is interleaved unless told otherwise. */
    constructor (subtasks: seq<Task>, worldStateIndex: nat, repetitionType: byte := Interleaved)
      ensures this.subtasks == subtasks && this.worldStateIndex == worldStateIndex
      ensures this.repetitionType == repetitionType && plan == []
    {
      this.subtasks := subtasks;
      this.worldStateIndex := worldStateIndex;
      this.repetitionType := repetitionType;
      plan := [];
    }

    function IsValidWorldStateIndex(ctx: Context): (r: bool)
      reads ctx
      ensures r <==> worldStateIndex < |ctx.ws.values|
    {
      worldStateIndex < |ctx.ws.values|
    }

    method OnDecompose(ctx: Context, startIndex: nat, step: ChildStep)
      returns (status: Status, result: Option<seq<Task>>)
      modifies this, ctx
      ensures var o := RepeatOutcome(step, subtasks, worldStateIndex, repetitionType, startIndex, old(ctx.ws));
        status == o.status && plan == o.plan && ctx.ws == o.state && result == Handed(o)
    {
      plan := [];
      if !IsValidWorldStateIndex(ctx) {
        return Failed, Some(plan);
      }
      var repetitions := ctx.GetState(worldStateIndex);
      if repetitionType == Blockwise {
        status, result := DecomposeBlockwise(ctx, startIndex, repetitions, step);
      } else {
        status, result := DecomposeInterleaved(ctx, startIndex, repetitions, step);
      }
    }

    method DecomposeInterleaved(ctx: Context, startIndex: nat, repetitions: byte, step: ChildStep)
      returns (status: Status, result: Option<seq<Task>>)
      requires plan == []
      modifies this, ctx
      ensures var o := SequenceOutcome(step, subtasks, InterleavedOrder(startIndex, |subtasks|, repetitions), old(ctx.ws));
        status == o.status && plan == o.plan && ctx.ws == o.state && result == Handed(o)
    {
      var oldStackDepth := ctx.GetWorldStateChangeDepth();
      InterleavedFromIsVisit(step, subtasks, startIndex, repetitions, ctx.ws);
      ghost var goal := InterleavedFrom(step, subtasks, startIndex, repetitions, 0, startIndex, plan, ctx.ws, oldStackDepth);
      var i := 0;
      while i < repetitions
        invariant 0 <= i <= repetitions
        invariant goal == InterleavedFrom(step, subtasks, startIndex, repetitions, i, startIndex, plan, ctx.ws, oldStackDepth)
      {
        var taskIndex := startIndex;
        while taskIndex < |subtasks|
          invariant goal == InterleavedFrom(step, subtasks, startIndex, repetitions, i, taskIndex, plan, ctx.ws, oldStackDepth)
        {
          var r := step(subtasks[taskIndex], taskIndex, plan, ctx.ws, Some(oldStackDepth));
          plan, ctx.ws := r.plan, r.state;
          if r.status != Succeeded {
            status := if r.status == Partial then Failed else r.status;
            return status, Handed(r);
          }
          taskIndex := taskIndex + 1;
        }
        i := i + 1;
      }
      result := Some(plan);
      status := if |plan| == 0 then Failed else Succeeded;
    }

    method DecomposeBlockwise(ctx: Context, startIndex: nat, repetitions: byte, step: ChildStep)
      returns (status: Status, result: Option<seq<Task>>)
      requires plan == []
      modifies this, ctx
      ensures var o := SequenceOutcome(step, subtasks, BlockwiseOrder(startIndex, |subtasks|, repetitions), old(ctx.ws));
        status == o.status && plan == o.plan && ctx.ws == o.state && result == Handed(o)
    {
      var oldStackDepth := ctx.GetWorldStateChangeDepth();
      BlockwiseFromIsVisit(step, subtasks, startIndex, repetitions, ctx.ws);
      ghost var goal := BlockwiseFrom(step, subtasks, repetitions, startIndex, 0, plan, ctx.ws, oldStackDepth);
      var taskIndex := startIndex;
      while taskIndex < |subtasks|
        invariant goal == BlockwiseFrom(step, subtasks, repetitions, taskIndex, 0, plan, ctx.ws, oldStackDepth)
      {
        var task := subtasks[taskIndex];
        var i := 0;
        while i < repetitions
          invariant 0 <= i <= repetitions
          invariant goal == BlockwiseFrom(step, subtasks, repetitions, taskIndex, i, plan, ctx.ws, oldStackDepth)
        {
          var r := step(task, taskIndex, plan, ctx.ws, Some(oldStackDepth));
          plan, ctx.ws := r.plan, r.state;
          if r.status != Succeeded {
            status := if r.status == Partial then Failed else r.status;
            return status, Handed(r);
          }
          i := i + 1;
        }
        taskIndex := taskIndex + 1;
      }
      result := Some(plan);
      status := if |plan| == 0 then Failed else Succeeded;
    }
  }
}
