/**
  The GOAP search as the source writes it: the loop runs over the positions of the open
  list it was given, but reads the subtask at the same position of the sequence's full list
  of subtasks. Below the root the two lists differ, so a subtask can be tried again below its
  own node, and the recursion need not end; here it is bounded by `fuel`, and with no fuel
  left a search finds nothing. The model proper (`GoapSequences.ExploreFrom`) reads the open
  list, as the removal of each expanded subtask from it intends.
 */
module GoapAsWritten {
  import opened Wrappers
  import opened WorldStates
  import opened Tasks
  import opened GoapSequences

  function ExploreAsWritten(goal: Goal, subtasks: seq<Task>, parent: Node, open: seq<Task>, i: nat,
                            ws: WorldState, fuel: nat): (r: Search)
    requires GoalFits(goal, |ws.values|) && AllFit(subtasks, |ws.values|)
    requires |open| <= |subtasks| && i <= |open|
    ensures |r.state.values| == |ws.values| && r.state.changes == ws.changes
    decreases fuel, |open| - i
  {
    if i == |open| || fuel == 0 then Search([], ws)
    else if !Expandable(subtasks[i], ws.values) then ExploreAsWritten(goal, subtasks, parent, open, i + 1, ws, fuel)
    else
      var task := subtasks[i];
      var applied := Applied(ws, task.effects);
      var node := Child(parent, task, ws);
      var here :=
        if GoalHolds(goal, applied.values) then Search([node], applied)
        else ExploreAsWritten(goal, subtasks, node, Without(open, task.id), 0, applied, fuel - 1);
      var rest := ExploreAsWritten(goal, subtasks, parent, open, i + 1, Trimmed(here.state, |ws.changes|), fuel);
      Search(here.leaves + rest.leaves, rest.state)
  }

  /** Raises the byte at index 0 by one. */
  function RaiseFirst(v: seq<byte>): byte {
    if |v| > 0 && v[0] < 255 then v[0] + 1 else 0
  }

  /** Always valid; raises index 0 by one, as a plan-time write; costs 1. */
  const Raise: Task := Primitive(0, "Raise", [], [Effect(0, PlanOnly, RaiseFirst)], Some((v: seq<byte>) => 1), None)

  /** Never valid. */
  const Blocked: Task := Primitive(1, "Blocked", [(v: seq<byte>) => false], [], Some((v: seq<byte>) => 1), None)

  /** The goal: index 0 holds 2. */
  const RaisedTwice: Goal := map[0 := 2]

  /** A world state of one byte, 0, with an empty change log. */
  const Zero: WorldState := State([0], [])

  /** `Raise` applied to a one-byte state below 255 raises that byte and logs one change. */
  lemma RaiseApplied(ws: WorldState)
    requires |ws.values| == 1 && ws.values[0] < 255
    ensures Applied(ws, Raise.effects).values == [ws.values[0] + 1]
    ensures |Applied(ws, Raise.effects).changes| == |ws.changes| + 1
  {
    var next := Written(ws, 0, RaiseFirst(ws.values), PlanOnly);
    assert Raise.effects[1..] == [];
    assert Applied(ws, Raise.effects) == Applied(next, []);
  }

  lemma BlockedNeverExpands(v: seq<byte>)
    ensures !Expandable(Blocked, v)
  {
    assert !Blocked.conditions[0](v);
  }

  /** The top node of every path in the example: `Raise` below the root, from 0. */
  function First(): Node {
    Child(Root, Raise, Zero)
  }

  /** Below `First()`, the search as written reads `Raise` again and reaches the goal. */
  lemma AsWrittenBelowFirst()
    ensures ExploreAsWritten(RaisedTwice, [Raise, Blocked], First(), [Blocked], 0, Applied(Zero, Raise.effects), 1).leaves
      == [Child(First(), Raise, Applied(Zero, Raise.effects))]
  {
    RaiseApplied(Zero);
    var one := Applied(Zero, Raise.effects);
    RaiseApplied(one);
    var two := Applied(one, Raise.effects);
    assert GoalHolds(RaisedTwice, two.values);
    assert Expandable([Raise, Blocked][0], one.values);
    var rest := ExploreAsWritten(RaisedTwice, [Raise, Blocked], First(), [Blocked], 1, Trimmed(two, |one.changes|), 1);
    assert rest.leaves == [];
  }

  /** Below `First()`, the model proper finds nothing: only `Blocked` is open. */
  lemma ProperBelowFirst()
    ensures ExploreFrom(RaisedTwice, First(), [Blocked], 0, Applied(Zero, Raise.effects)).leaves == []
  {
    RaiseApplied(Zero);
    var one := Applied(Zero, Raise.effects);
    BlockedNeverExpands(one.values);
    assert ExploreFrom(RaisedTwice, First(), [Blocked], 1, one).leaves == [];
  }

  /** After the first subtask, at the root, both searches meet only `Blocked`. */
  lemma RootRest(ws: WorldState)
    requires |ws.values| == 1
    ensures ExploreAsWritten(RaisedTwice, [Raise, Blocked], Root, [Raise, Blocked], 1, ws, 2).leaves == []
    ensures ExploreFrom(RaisedTwice, Root, [Raise, Blocked], 1, ws).leaves == []
  {
    BlockedNeverExpands(ws.values);
    assert [Raise, Blocked][1] == Blocked;
    assert ExploreAsWritten(RaisedTwice, [Raise, Blocked], Root, [Raise, Blocked], 2, ws, 2).leaves == [];
    assert ExploreFrom(RaisedTwice, Root, [Raise, Blocked], 2, ws).leaves == [];
  }

  /** At the root, the search as written finds only the leaf two `Raise` steps down. */
  lemma AsWrittenAtRoot()
    ensures ExploreAsWritten(RaisedTwice, [Raise, Blocked], Root, [Raise, Blocked], 0, Zero, 2).leaves
      == [Child(First(), Raise, Applied(Zero, Raise.effects))]
  {
    var subtasks := [Raise, Blocked];
    RaiseApplied(Zero);
    var one := Applied(Zero, Raise.effects);
    assert !GoalHolds(RaisedTwice, one.values);
    assert Without(subtasks, Raise.id) == [Blocked];
    assert Expandable(subtasks[0], Zero.values);
    AsWrittenBelowFirst();
    var here := ExploreAsWritten(RaisedTwice, subtasks, First(), [Blocked], 0, one, 1);
    RootRest(Trimmed(here.state, 0));
    var rest := ExploreAsWritten(RaisedTwice, subtasks, Root, subtasks, 1, Trimmed(here.state, 0), 2);
    assert Child(Root, subtasks[0], Zero) == First();
    assert ExploreAsWritten(RaisedTwice, subtasks, Root, subtasks, 0, Zero, 2).leaves == here.leaves + rest.leaves;
  }

  /**
    With subtasks `[Raise, Blocked]` and the goal "index 0 holds 2" from 0, the search as
    written finds exactly one leaf, whose path uses `Raise` twice: below `Raise` the open list is
    `[Blocked]`, but position 0 is read from the full list, which gives `Raise` again.
   */
  lemma SubtaskReadTwice()
    ensures var found := ExploreAsWritten(RaisedTwice, [Raise, Blocked], Root, [Raise, Blocked], 0, Zero, 2).leaves;
      |found| == 1 && PathOf(Some(found[0])) == [Raise, Raise]
    ensures !DrawnOnce([Raise, Raise], [Raise, Blocked])
  {
    AsWrittenAtRoot();
    RaisedTwicePath();
    assert [Raise, Raise][0].id == [Raise, Raise][1].id;
  }

  /** The leaf two `Raise` steps below the root has the path `[Raise, Raise]`. */
  lemma RaisedTwicePath()
    ensures PathOf(Some(Child(First(), Raise, Applied(Zero, Raise.effects)))) == [Raise, Raise]
  {
    assert PathOf(Some(Root)) == [];
    assert PathOf(Some(First())) == [Raise];
  }

  /** On the same subtasks, goal and state, the model proper finds no leaf: below `Raise` only
      `Blocked` is open, and it is never valid. */
  lemma SubtaskReadOnce()
    ensures Explore(RaisedTwice, Root, [Raise, Blocked], Zero).leaves == []
  {
    var subtasks := [Raise, Blocked];
    RaiseApplied(Zero);
    var one := Applied(Zero, Raise.effects);
    assert !GoalHolds(RaisedTwice, one.values);
    assert Without(subtasks, Raise.id) == [Blocked];
    assert Expandable(subtasks[0], Zero.values);
    ProperBelowFirst();
    var here := ExploreFrom(RaisedTwice, First(), [Blocked], 0, one);
    RootRest(Trimmed(here.state, 0));
    var rest := ExploreFrom(RaisedTwice, Root, subtasks, 1, Trimmed(here.state, 0));
    assert Child(Root, subtasks[0], Zero) == First();
    assert Expand(RaisedTwice, Root, subtasks, 0, Zero) == here;
    assert ExploreFrom(RaisedTwice, Root, subtasks, 0, Zero).leaves == here.leaves + rest.leaves;
  }

  /**
    The plan walk as the source writes it: from the root down, each node's task is queued
    (its effects are applied too, which this walk leaves out); a node without a task is a
    null dereference, here `None`.
   */
  function GeneratePlanAsWritten(node: Option<Node>): (r: Option<seq<Task>>)
    ensures r.Some? ==> r.value == PathOf(node)
    decreases node
  {
    match node
    case None => Some([])
    case Some(n) =>
      var above := GeneratePlanAsWritten(n.parent);
      if above.None? || n.task.None? then None else Some(above.value + [n.task.value])
  }

  /** `a` is a proper ancestor of `n`. */
  ghost predicate Descends(n: Node, a: Node)
    decreases n
  {
    n.parent.Some? && (n.parent.value == a || Descends(n.parent.value, a))
  }

  ghost predicate AllDescend(leaves: seq<Node>, a: Node) {
    forall j :: 0 <= j < |leaves| ==> Descends(leaves[j], a)
  }

  lemma AllDescendAppend(a: seq<Node>, b: seq<Node>, top: Node)
    requires AllDescend(a, top) && AllDescend(b, top)
    ensures AllDescend(a + b, top)
  {
    forall j | 0 <= j < |a + b| ensures Descends((a + b)[j], top) {
      if j >= |a| {
        assert (a + b)[j] == b[j - |a|];
      }
    }
  }

  /** Every leaf the search finds descends from the node it started from. */
  lemma {:induction false} ExploreDescends(goal: Goal, parent: Node, open: seq<Task>, i: nat, ws: WorldState)
    requires GoalFits(goal, |ws.values|) && AllFit(open, |ws.values|) && i <= |open|
    ensures AllDescend(ExploreFrom(goal, parent, open, i, ws).leaves, parent)
    decreases |open|, |open| - i, 1
  {
    if i < |open| {
      if Expandable(open[i], ws.values) {
        var here := Expand(goal, parent, open, i, ws);
        var back := Trimmed(here.state, |ws.changes|);
        ExpandDescends(goal, parent, open, i, ws);
        ExploreDescends(goal, parent, open, i + 1, back);
        AllDescendAppend(here.leaves, ExploreFrom(goal, parent, open, i + 1, back).leaves, parent);
      } else {
        ExploreDescends(goal, parent, open, i + 1, ws);
      }
    }
  }

  lemma {:induction false} ExpandDescends(goal: Goal, parent: Node, open: seq<Task>, i: nat, ws: WorldState)
    requires GoalFits(goal, |ws.values|) && AllFit(open, |ws.values|) && i < |open|
    requires IsGoapTask(open[i])
    ensures AllDescend(Expand(goal, parent, open, i, ws).leaves, parent)
    decreases |open|, |open| - i, 0
  {
    var task := open[i];
    var applied := Applied(ws, task.effects);
    var node := Child(parent, task, ws);
    if GoalHolds(goal, applied.values) {
      assert Expand(goal, parent, open, i, ws).leaves == [node];
    } else {
      WithoutFits(open, task.id, |ws.values|);
      ExploreDescends(goal, node, Without(open, task.id), 0, applied);
      var leaves := ExploreFrom(goal, node, Without(open, task.id), 0, applied).leaves;
      forall j | 0 <= j < |leaves| ensures Descends(leaves[j], parent) {
        DescendsThrough(leaves[j], node, parent);
      }
    }
  }

  lemma {:induction false} DescendsThrough(n: Node, mid: Node, top: Node)
    requires Descends(n, mid) && mid.parent == Some(top)
    ensures Descends(n, top)
    decreases n
  {
    if n.parent.value != mid {
      DescendsThrough(n.parent.value, mid, top);
    }
  }

  /** The walk as written fails on every node below a node that has no task. */
  lemma {:induction false} BelowTasklessFails(n: Node, a: Node)
    requires Descends(n, a) && a.task.None?
    ensures GeneratePlanAsWritten(Some(n)) == None
    decreases n
  {
    if n.parent.value != a {
      BelowTasklessFails(n.parent.value, a);
    }
  }

  /**
    Every search of the GOAP sequence starts at the root, which has no task, so the plan walk
    as written fails on every leaf the search can find: no plan is ever generated. The model
    proper (`GoapSequences.GoapSequence.GeneratePlan`) passes over the root.
   */
  lemma EveryPlanWalkFails(goal: Goal, subtasks: seq<Task>, ws: WorldState, j: nat)
    requires GoalFits(goal, |ws.values|) && AllFit(subtasks, |ws.values|)
    requires j < |Explore(goal, Root, subtasks, ws).leaves|
    ensures GeneratePlanAsWritten(Some(Explore(goal, Root, subtasks, ws).leaves[j])) == None
  {
    ExploreDescends(goal, Root, subtasks, 0, ws);
    BelowTasklessFails(Explore(goal, Root, subtasks, ws).leaves[j], Root);
  }
}
