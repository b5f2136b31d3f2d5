/**
  The GOAP sequence: a compound task that searches every ordering of its GOAP subtasks for
  a path to a goal state. Each valid GOAP task is tried in turn: its effects are applied,
  and either the goal holds (the node becomes a leaf) or the search goes on over the
  remaining subtasks; afterwards the world state is trimmed back to the depth it had before
  the task. The cheapest leaf wins, the earlier one on a tie, and the plan is its path from
  the root, with the effects of every task on it applied again in that order.
 */
module GoapSequences {
  import opened Wrappers
  import opened WorldStates
  import opened Tasks

  /** The goal state: a required byte value per world-state index. */
  type Goal = map<byte, byte>

  /** Every index the goal names is an index of a world state of `size` values. */
  predicate GoalFits(goal: Goal, size: nat) {
    forall k :: k in goal ==> k < size
  }

  /** The goal holds when every index it names has the value it requires. */
  predicate GoalHolds(goal: Goal, values: seq<byte>)
    requires GoalFits(goal, |values|)
  {
    forall k :: k in goal ==> values[k] == goal[k]
  }

  /** A search node: the node it was reached from, the cost of the path to it and the task
      applied to reach it. Only the root has no task. */
  datatype Node = Node(parent: Option<Node>, runningCost: int, task: Option<Task>)

  /** The root of every search: no parent, no cost and no task. */
  const Root: Node := Node(None, 0, None)

  /** The tasks on the path from the root to `node`, root first. */
  function PathOf(node: Option<Node>): seq<Task>
    decreases node
  {
    match node
    case None => []
    case Some(n) => PathOf(n.parent) + (if n.task.Some? then [n.task.value] else [])
  }

  /** Every task of `plan` is a GOAP task whose effects write indices of a world state of
      `size` values. */
  predicate Replayable(plan: seq<Task>, size: nat) {
    forall i :: 0 <= i < |plan| ==> IsGoapTask(plan[i]) && EffectsFit(plan[i], size)
  }

  /** The state after applying the effects of every task of `plan`, in order. */
  function Replay(ws: WorldState, plan: seq<Task>): (r: WorldState)
    requires Replayable(plan, |ws.values|)
    ensures |r.values| == |ws.values|
    decreases |plan|
  {
    if plan == [] then ws else Replay(Applied(ws, plan[0].effects), plan[1..])
  }

  /** The cost of `plan` as the search adds it up: each task's cost read after its effects. */
  function PlanCost(ws: WorldState, plan: seq<Task>): int
    requires Replayable(plan, |ws.values|)
    decreases |plan|
  {
    if plan == [] then 0
    else
      var next := Applied(ws, plan[0].effects);
      plan[0].cost.value(next.values) + PlanCost(next, plan[1..])
  }

  /** Applied in order from `ws`, every task of `plan` is valid in the state it meets and the
      goal holds at the end. */
  predicate Achieves(goal: Goal, ws: WorldState, plan: seq<Task>)
    requires Replayable(plan, |ws.values|) && GoalFits(goal, |ws.values|)
    decreases |plan|
  {
    if plan == [] then GoalHolds(goal, ws.values)
    else IsValid(plan[0], ws.values) && Achieves(goal, Applied(ws, plan[0].effects), plan[1..])
  }

  /** `tasks` with every occurrence of the task with identity `id` removed. */
  function Without(tasks: seq<Task>, id: nat): (r: seq<Task>)
    ensures |r| <= |tasks|
    ensures forall i :: 0 <= i < |r| ==> r[i].id != id
    ensures forall j :: 0 <= j < |tasks| && tasks[j].id == id ==> |r| < |tasks|
    decreases |tasks|
  {
    if tasks == [] then []
    else if tasks[0].id == id then Without(tasks[1..], id)
    else [tasks[0]] + Without(tasks[1..], id)
  }

  /** The search result: the leaves found, in the order found, and the state afterwards. */
  datatype Search = Search(leaves: seq<Node>, state: WorldState)

  /** A subtask the search expands: valid in the current state and a GOAP task. */
  predicate Expandable(task: Task, values: seq<byte>) {
    IsValid(task, values) && IsGoapTask(task)
  }

  /** The node for `task` below `parent`: its cost is the parent's plus the task's own cost,
      read after the task's effects. */
  function Child(parent: Node, task: Task, ws: WorldState): (r: Node)
    requires IsGoapTask(task) && EffectsFit(task, |ws.values|)
    ensures r.parent == Some(parent) && r.task == Some(task)
  {
    Node(Some(parent), parent.runningCost + task.cost.value(Applied(ws, task.effects).values), Some(task))
  }

  /**
    The search over `open`, below `parent`, from position `i` on: a subtask that is not
    expandable is passed over; an expandable one is expanded, then the state is trimmed back
    to the depth it had before the subtask, and the search goes on with the next position.
   */
  function ExploreFrom(goal: Goal, parent: Node, open: seq<Task>, i: nat, ws: WorldState): (r: Search)
    requires GoalFits(goal, |ws.values|) && AllFit(open, |ws.values|) && i <= |open|
    ensures |r.state.values| == |ws.values| && r.state.changes == ws.changes
    decreases |open|, |open| - i, 1
  {
    if i == |open| then Search([], ws)
    else if !Expandable(open[i], ws.values) then ExploreFrom(goal, parent, open, i + 1, ws)
    else
      var here := Expand(goal, parent, open, i, ws);
      var rest := ExploreFrom(goal, parent, open, i + 1, Trimmed(here.state, |ws.changes|));
      Search(here.leaves + rest.leaves, rest.state)
  }

  /** Expanding the subtask at position `i`: its effects are applied and its node is a leaf if
      the goal then holds, or else the start of a search over `open` without that subtask. */
  function Expand(goal: Goal, parent: Node, open: seq<Task>, i: nat, ws: WorldState): (r: Search)
    requires GoalFits(goal, |ws.values|) && AllFit(open, |ws.values|) && i < |open|
    requires IsGoapTask(open[i])
    ensures |r.state.values| == |ws.values|
    ensures |ws.changes| <= |r.state.changes| && r.state.changes[..|ws.changes|] == ws.changes
    decreases |open|, |open| - i, 0
  {
    var task := open[i];
    var applied := Applied(ws, task.effects);
    if GoalHolds(goal, applied.values) then Search([Child(parent, task, ws)], applied)
    else
      WithoutFits(open, task.id, |ws.values|);
      ExploreFrom(goal, Child(parent, task, ws), Without(open, task.id), 0, applied)
  }

  /** The search below `parent` over all of `open`. */
  function Explore(goal: Goal, parent: Node, open: seq<Task>, ws: WorldState): Search
    requires GoalFits(goal, |ws.values|) && AllFit(open, |ws.values|)
  {
    ExploreFrom(goal, parent, open, 0, ws)
  }

  /** Removal keeps exactly the tasks of the list with another identity, and a list without
      the task is kept whole. */
  lemma {:induction false} WithoutKeeps(tasks: seq<Task>, id: nat)
    ensures forall t :: t in Without(tasks, id) <==> t in tasks && t.id != id
    ensures (forall j :: 0 <= j < |tasks| ==> tasks[j].id != id) ==> Without(tasks, id) == tasks
    decreases |tasks|
  {
    if tasks != [] {
      WithoutKeeps(tasks[1..], id);
      assert [tasks[0]] + tasks[1..] == tasks;
      if forall j :: 0 <= j < |tasks| ==> tasks[j].id != id {
        forall j | 0 <= j < |tasks[1..]| ensures tasks[1..][j].id != id {
          assert tasks[1..][j] == tasks[j + 1];
        }
      }
    }
  }

  /** Removing a task keeps the effects of the others fitting. */
  lemma WithoutFits(tasks: seq<Task>, id: nat, size: nat)
    requires AllFit(tasks, size)
    ensures AllFit(Without(tasks, id), size)
  {
    WithoutKeeps(tasks, id);
    var r := Without(tasks, id);
    forall i | 0 <= i < |r| ensures EffectsFit(r[i], size) {
      assert r[i] in tasks;
      var j :| 0 <= j < |tasks| && tasks[j] == r[i];
    }
  }

  /** Removing a task keeps the effects of the others plan-only. */
  lemma WithoutPlanOnly(tasks: seq<Task>, id: nat)
    requires AllPlanOnly(tasks)
    ensures AllPlanOnly(Without(tasks, id))
  {
    WithoutKeeps(tasks, id);
    var r := Without(tasks, id);
    forall i | 0 <= i < |r| ensures PlanOnlyEffects(r[i]) {
      assert r[i] in tasks;
      var j :| 0 <= j < |tasks| && tasks[j] == r[i];
    }
  }

  /** Removal distributes over concatenation, so the kept tasks stay in their order. */
  lemma {:induction false} WithoutAppend(a: seq<Task>, b: seq<Task>, id: nat)
    ensures Without(a + b, id) == Without(a, id) + Without(b, id)
    decreases |a|
  {
    if a == [] {
      assert a + b == b;
    } else {
      assert (a + b)[0] == a[0];
      assert (a + b)[1..] == a[1..] + b;
      WithoutAppend(a[1..], b, id);
      if a[0].id != id {
        assert Without(a + b, id) == [a[0]] + (Without(a[1..], id) + Without(b, id));
        assert Without(a, id) == [a[0]] + Without(a[1..], id);
      }
    }
  }

  /** The search undoes itself: when every effect is a plan-time write, each expanded task's
      effects and everything below it are trimmed away again, so the search ends in the state
      it started from. The change log is restored whatever the effects, by the contract of
      `ExploreFrom`. */
  lemma {:induction false} ExploreRestores(goal: Goal, parent: Node, open: seq<Task>, i: nat, ws: WorldState)
    requires GoalFits(goal, |ws.values|) && AllFit(open, |ws.values|) && i <= |open|
    requires AllPlanOnly(open)
    ensures ExploreFrom(goal, parent, open, i, ws).state == ws
    decreases |open|, |open| - i, 1
  {
    if i < |open| {
      if Expandable(open[i], ws.values) {
        ExpandRestores(goal, parent, open, i, ws);
        AppliedUndone(ws, open[i].effects);
      }
      ExploreRestores(goal, parent, open, i + 1, ws);
    }
  }

  /** Expanding a task with plan-time effects ends in the state its effects lead to. */
  lemma {:induction false} ExpandRestores(goal: Goal, parent: Node, open: seq<Task>, i: nat, ws: WorldState)
    requires GoalFits(goal, |ws.values|) && AllFit(open, |ws.values|) && i < |open|
    requires AllPlanOnly(open) && IsGoapTask(open[i])
    ensures Expand(goal, parent, open, i, ws).state == Applied(ws, open[i].effects)
    decreases |open|, |open| - i, 0
  {
    var task := open[i];
    var applied := Applied(ws, task.effects);
    if !GoalHolds(goal, applied.values) {
      WithoutFits(open, task.id, |ws.values|);
      WithoutPlanOnly(open, task.id);
      ExploreRestores(goal, Child(parent, task, ws), Without(open, task.id), 0, applied);
    }
  }

  /** `l` lies below `parent`: the path to `l` is the path to `parent` followed by at least one
      more GOAP task. */
  ghost predicate Extends(parent: Node, l: Node, size: nat) {
    var p, q := PathOf(Some(parent)), PathOf(Some(l));
    |p| < |q| && q[..|p|] == p && Replayable(q[|p|..], size)
  }

  /** The tasks on the path from `parent` down to `l`. */
  ghost function Below(parent: Node, l: Node, size: nat): seq<Task>
    requires Extends(parent, l, size)
  {
    PathOf(Some(l))[|PathOf(Some(parent))|..]
  }

  ghost predicate AllExtend(parent: Node, leaves: seq<Node>, size: nat) {
    forall j :: 0 <= j < |leaves| ==> Extends(parent, leaves[j], size)
  }

  /** `l` is a leaf for `goal` below `parent`: from `ws`, the tasks between them are each valid
      in turn and reach the goal, and `l` costs what they add to the cost of `parent`. */
  ghost predicate Leads(goal: Goal, parent: Node, ws: WorldState, l: Node)
    requires GoalFits(goal, |ws.values|)
  {
    && Extends(parent, l, |ws.values|)
    && Achieves(goal, ws, Below(parent, l, |ws.values|))
    && l.runningCost == parent.runningCost + PlanCost(ws, Below(parent, l, |ws.values|))
  }

  ghost predicate AllLead(goal: Goal, parent: Node, ws: WorldState, leaves: seq<Node>)
    requires GoalFits(goal, |ws.values|)
  {
    forall j :: 0 <= j < |leaves| ==> Leads(goal, parent, ws, leaves[j])
  }

  /** A child node lies below its parent, one task further down. */
  lemma ChildExtends(parent: Node, task: Task, ws: WorldState)
    requires IsGoapTask(task) && EffectsFit(task, |ws.values|)
    ensures Extends(parent, Child(parent, task, ws), |ws.values|)
    ensures Below(parent, Child(parent, task, ws), |ws.values|) == [task]
  {
    assert PathOf(Some(Child(parent, task, ws))) == PathOf(Some(parent)) + [task];
  }

  /** What lies below a child lies below its parent too, one task further down. */
  lemma ExtendsThrough(parent: Node, task: Task, ws: WorldState, l: Node)
    requires IsGoapTask(task) && EffectsFit(task, |ws.values|)
    requires Extends(Child(parent, task, ws), l, |ws.values|)
    ensures Extends(parent, l, |ws.values|)
    ensures Below(parent, l, |ws.values|) == [task] + Below(Child(parent, task, ws), l, |ws.values|)
  {
    var p, pn, q := PathOf(Some(parent)), PathOf(Some(Child(parent, task, ws))), PathOf(Some(l));
    assert pn == p + [task];
    assert q[..|p|] == q[..|pn|][..|p|];
    assert q[|p|..] == [task] + q[|pn|..] by {
      assert q[|p|] == q[..|pn|][|p|];
    }
  }

  /** Leaves that lie below `parent`, found one after another, lie below it together. */
  lemma AllExtendAppend(parent: Node, a: seq<Node>, b: seq<Node>, size: nat)
    requires AllExtend(parent, a, size) && AllExtend(parent, b, size)
    ensures AllExtend(parent, a + b, size)
  {
    forall j | 0 <= j < |a + b| ensures Extends(parent, (a + b)[j], size) {
      if j >= |a| {
        assert (a + b)[j] == b[j - |a|];
      }
    }
  }

  lemma AllLeadAppend(goal: Goal, parent: Node, ws: WorldState, a: seq<Node>, b: seq<Node>)
    requires GoalFits(goal, |ws.values|)
    requires AllLead(goal, parent, ws, a) && AllLead(goal, parent, ws, b)
    ensures AllLead(goal, parent, ws, a + b)
  {
    forall j | 0 <= j < |a + b| ensures Leads(goal, parent, ws, (a + b)[j]) {
      if j >= |a| {
        assert (a + b)[j] == b[j - |a|];
      }
    }
  }

  /** Every leaf the search finds lies below the node it started from. */
  lemma {:induction false} ExploreExtends(goal: Goal, parent: Node, open: seq<Task>, i: nat, ws: WorldState)
    requires GoalFits(goal, |ws.values|) && AllFit(open, |ws.values|) && i <= |open|
    ensures AllExtend(parent, ExploreFrom(goal, parent, open, i, ws).leaves, |ws.values|)
    decreases |open|, |open| - i, 1
  {
    if i < |open| {
      if Expandable(open[i], ws.values) {
        var here := Expand(goal, parent, open, i, ws);
        var back := Trimmed(here.state, |ws.changes|);
        ExpandExtends(goal, parent, open, i, ws);
        ExploreExtends(goal, parent, open, i + 1, back);
        AllExtendAppend(parent, here.leaves, ExploreFrom(goal, parent, open, i + 1, back).leaves, |ws.values|);
      } else {
        ExploreExtends(goal, parent, open, i + 1, ws);
      }
    }
  }

  lemma {:induction false} ExpandExtends(goal: Goal, parent: Node, open: seq<Task>, i: nat, ws: WorldState)
    requires GoalFits(goal, |ws.values|) && AllFit(open, |ws.values|) && i < |open|
    requires IsGoapTask(open[i])
    ensures AllExtend(parent, Expand(goal, parent, open, i, ws).leaves, |ws.values|)
    decreases |open|, |open| - i, 0
  {
    var task := open[i];
    var applied := Applied(ws, task.effects);
    var node := Child(parent, task, ws);
    ChildExtends(parent, task, ws);
    if !GoalHolds(goal, applied.values) {
      WithoutFits(open, task.id, |ws.values|);
      ExploreExtends(goal, node, Without(open, task.id), 0, applied);
      var leaves := ExploreFrom(goal, node, Without(open, task.id), 0, applied).leaves;
      forall j | 0 <= j < |leaves| ensures Extends(parent, leaves[j], |ws.values|) {
        ExtendsThrough(parent, task, ws, leaves[j]);
      }
    }
  }

  /**
    Soundness of the search: when every effect is a plan-time write, every leaf it finds is
    reached from `ws` by the tasks between the start node and the leaf, each valid in the
    state it meets, with the goal holding at the end; and the leaf costs the start node's
    cost plus the cost of those tasks.
   */
  lemma {:induction false} ExploreSound(goal: Goal, parent: Node, open: seq<Task>, i: nat, ws: WorldState)
    requires GoalFits(goal, |ws.values|) && AllFit(open, |ws.values|) && i <= |open|
    requires AllPlanOnly(open)
    ensures AllLead(goal, parent, ws, ExploreFrom(goal, parent, open, i, ws).leaves)
    decreases |open|, |open| - i, 1
  {
    if i < |open| {
      if Expandable(open[i], ws.values) {
        var here := Expand(goal, parent, open, i, ws);
        ExpandRestores(goal, parent, open, i, ws);
        AppliedUndone(ws, open[i].effects);
        ExpandSound(goal, parent, open, i, ws);
        ExploreSound(goal, parent, open, i + 1, ws);
        AllLeadAppend(goal, parent, ws, here.leaves, ExploreFrom(goal, parent, open, i + 1, ws).leaves);
      } else {
        ExploreSound(goal, parent, open, i + 1, ws);
      }
    }
  }

  lemma {:induction false} ExpandSound(goal: Goal, parent: Node, open: seq<Task>, i: nat, ws: WorldState)
    requires GoalFits(goal, |ws.values|) && AllFit(open, |ws.values|) && i < |open|
    requires AllPlanOnly(open) && Expandable(open[i], ws.values)
    ensures AllLead(goal, parent, ws, Expand(goal, parent, open, i, ws).leaves)
    decreases |open|, |open| - i, 0
  {
    var task := open[i];
    var applied := Applied(ws, task.effects);
    var node := Child(parent, task, ws);
    ChildExtends(parent, task, ws);
    if GoalHolds(goal, applied.values) {
      var below := Below(parent, node, |ws.values|);
      assert below[1..] == [];
      assert PlanCost(ws, below) == task.cost.value(applied.values) + PlanCost(applied, []);
      assert Achieves(goal, ws, below) by {
        assert Achieves(goal, applied, below[1..]);
      }
      assert Leads(goal, parent, ws, node);
      assert Expand(goal, parent, open, i, ws).leaves == [node];
    } else {
      WithoutFits(open, task.id, |ws.values|);
      WithoutPlanOnly(open, task.id);
      ExploreSound(goal, node, Without(open, task.id), 0, applied);
      var leaves := ExploreFrom(goal, node, Without(open, task.id), 0, applied).leaves;
      forall j | 0 <= j < |leaves| ensures Leads(goal, parent, ws, leaves[j]) {
        var l := leaves[j];
        assert Leads(goal, node, applied, l);
        ExtendsThrough(parent, task, ws, l);
        var below := Below(parent, l, |ws.values|);
        assert below[0] == task && below[1..] == Below(node, l, |ws.values|);
      }
    }
  }

  /** Every task of `plan` is a task of `open`, and no two of them are the same task. */
  ghost predicate DrawnOnce(plan: seq<Task>, open: seq<Task>) {
    && (forall k :: 0 <= k < |plan| ==> plan[k] in open)
    && (forall k, m :: 0 <= k < m < |plan| ==> plan[k].id != plan[m].id)
  }

  ghost predicate AllDrawnOnce(parent: Node, leaves: seq<Node>, open: seq<Task>, size: nat) {
    forall j :: 0 <= j < |leaves| ==> Extends(parent, leaves[j], size) && DrawnOnce(Below(parent, leaves[j], size), open)
  }

  lemma AllDrawnOnceAppend(parent: Node, a: seq<Node>, b: seq<Node>, open: seq<Task>, size: nat)
    requires AllDrawnOnce(parent, a, open, size) && AllDrawnOnce(parent, b, open, size)
    ensures AllDrawnOnce(parent, a + b, open, size)
  {
    forall j | 0 <= j < |a + b|
      ensures Extends(parent, (a + b)[j], size) && DrawnOnce(Below(parent, (a + b)[j], size), open)
    {
      if j >= |a| {
        assert (a + b)[j] == b[j - |a|];
      }
    }
  }

  /**
    The search over `open` uses each subtask at most once on a path: the tasks between the
    start node and any leaf are tasks of `open`, all different, because every level below a
    subtask searches `open` without it.
   */
  lemma {:induction false} ExploreDrawsOnce(goal: Goal, parent: Node, open: seq<Task>, i: nat, ws: WorldState)
    requires GoalFits(goal, |ws.values|) && AllFit(open, |ws.values|) && i <= |open|
    ensures AllDrawnOnce(parent, ExploreFrom(goal, parent, open, i, ws).leaves, open, |ws.values|)
    decreases |open|, |open| - i, 1
  {
    if i < |open| {
      if Expandable(open[i], ws.values) {
        var here := Expand(goal, parent, open, i, ws);
        var back := Trimmed(here.state, |ws.changes|);
        ExpandDrawsOnce(goal, parent, open, i, ws);
        ExploreDrawsOnce(goal, parent, open, i + 1, back);
        AllDrawnOnceAppend(parent, here.leaves, ExploreFrom(goal, parent, open, i + 1, back).leaves, open, |ws.values|);
      } else {
        ExploreDrawsOnce(goal, parent, open, i + 1, ws);
      }
    }
  }

  lemma {:induction false} ExpandDrawsOnce(goal: Goal, parent: Node, open: seq<Task>, i: nat, ws: WorldState)
    requires GoalFits(goal, |ws.values|) && AllFit(open, |ws.values|) && i < |open|
    requires IsGoapTask(open[i])
    ensures AllDrawnOnce(parent, Expand(goal, parent, open, i, ws).leaves, open, |ws.values|)
    decreases |open|, |open| - i, 0
  {
    var task := open[i];
    var applied := Applied(ws, task.effects);
    var node := Child(parent, task, ws);
    ChildExtends(parent, task, ws);
    if GoalHolds(goal, applied.values) {
      assert Expand(goal, parent, open, i, ws).leaves == [node];
      assert DrawnOnce(Below(parent, node, |ws.values|), open);
    } else {
      var rest := Without(open, task.id);
      WithoutFits(open, task.id, |ws.values|);
      ExploreDrawsOnce(goal, node, rest, 0, applied);
      var leaves := ExploreFrom(goal, node, rest, 0, applied).leaves;
      forall j | 0 <= j < |leaves|
        ensures Extends(parent, leaves[j], |ws.values|) && DrawnOnce(Below(parent, leaves[j], |ws.values|), open)
      {
        var l := leaves[j];
        ExtendsThrough(parent, task, ws, l);
        DrawnOnceCons(task, Below(node, l, |ws.values|), open);
      }
    }
  }

  /** A task of `open` followed by tasks drawn once from `open` without it is drawn once from `open`. */
  lemma DrawnOnceCons(task: Task, deeper: seq<Task>, open: seq<Task>)
    requires task in open && DrawnOnce(deeper, Without(open, task.id))
    ensures DrawnOnce([task] + deeper, open)
  {
    var rest := Without(open, task.id);
    var below := [task] + deeper;
    WithoutKeeps(open, task.id);
    forall k | 0 <= k < |below| ensures below[k] in open {
      if k > 0 {
        assert below[k] == deeper[k - 1];
      }
    }
    forall k, m | 0 <= k < m < |below| ensures below[k].id != below[m].id {
      assert below[m] == deeper[m - 1];
      if k == 0 {
        var x :| 0 <= x < |rest| && rest[x] == deeper[m - 1];
      } else {
        assert below[k] == deeper[k - 1];
      }
    }
  }

  /**
    `p` is an ordering the search follows down to a leaf from `ws`: it is not empty, each of
    its tasks is expandable in the state the tasks before it leave, and the goal holds after
    its last task and after no earlier one.
   */
  ghost predicate FirstReaches(goal: Goal, ws: WorldState, p: seq<Task>)
    requires GoalFits(goal, |ws.values|)
    decreases |p|
  {
    && p != []
    && Expandable(p[0], ws.values)
    && EffectsFit(p[0], |ws.values|)
    && (var next := Applied(ws, p[0].effects);
        if GoalHolds(goal, next.values) then |p| == 1 else FirstReaches(goal, next, p[1..]))
  }

  /** Some leaf of `leaves` lies below `parent`, with exactly the tasks of `p` between them. */
  ghost predicate FoundPath(parent: Node, leaves: seq<Node>, size: nat, p: seq<Task>) {
    exists j :: 0 <= j < |leaves| && Extends(parent, leaves[j], size) && Below(parent, leaves[j], size) == p
  }

  /** Below its first task, the rest of an ordering drawn once is drawn once from what is
      left open. */
  lemma DrawnOnceTail(p: seq<Task>, open: seq<Task>)
    requires p != [] && DrawnOnce(p, open)
    ensures DrawnOnce(p[1..], Without(open, p[0].id))
  {
    WithoutKeeps(open, p[0].id);
    forall k | 0 <= k < |p[1..]| ensures p[1..][k] in Without(open, p[0].id) {
      assert p[1..][k] == p[k + 1];
    }
    forall k, m | 0 <= k < m < |p[1..]| ensures p[1..][k].id != p[1..][m].id {
      assert p[1..][k] == p[k + 1] && p[1..][m] == p[m + 1];
    }
  }

  /**
    Completeness of the search: when every effect is a plan-time write, every ordering of
    tasks of `open`, each used at most once, that the search can follow down to the goal is
    the path from the start node to a leaf it finds, provided its first task sits at a
    position `k` the search has still to reach.
   */
  lemma {:induction false} ExploreComplete(goal: Goal, parent: Node, open: seq<Task>, i: nat, ws: WorldState,
                                           p: seq<Task>, k: nat)
    requires GoalFits(goal, |ws.values|) && AllFit(open, |ws.values|) && i <= |open|
    requires AllPlanOnly(open)
    requires DrawnOnce(p, open) && FirstReaches(goal, ws, p)
    requires i <= k < |open| && open[k] == p[0]
    ensures FoundPath(parent, ExploreFrom(goal, parent, open, i, ws).leaves, |ws.values|, p)
    decreases |open|, |open| - i, 1
  {
    var size := |ws.values|;
    if Expandable(open[i], ws.values) {
      var here := Expand(goal, parent, open, i, ws);
      ExpandRestores(goal, parent, open, i, ws);
      AppliedUndone(ws, open[i].effects);
      var rest := ExploreFrom(goal, parent, open, i + 1, ws);
      if i == k {
        ExpandComplete(goal, parent, open, i, ws, p);
      } else {
        ExploreComplete(goal, parent, open, i + 1, ws, p, k);
      }
      var all := ExploreFrom(goal, parent, open, i, ws).leaves;
      assert all == here.leaves + rest.leaves;
      FoundInAppend(parent, here.leaves, rest.leaves, all, size, p);
    } else {
      assert i != k;
      ExploreComplete(goal, parent, open, i + 1, ws, p, k);
    }
  }

  /** A leaf with path `p` found in either part of a search is found in the whole. */
  lemma FoundInAppend(parent: Node, a: seq<Node>, b: seq<Node>, all: seq<Node>, size: nat, p: seq<Task>)
    requires all == a + b
    requires FoundPath(parent, a, size, p) || FoundPath(parent, b, size, p)
    ensures FoundPath(parent, all, size, p)
  {
    if j :| 0 <= j < |a| && Extends(parent, a[j], size) && Below(parent, a[j], size) == p {
      assert all[j] == a[j];
    } else {
      var j :| 0 <= j < |b| && Extends(parent, b[j], size) && Below(parent, b[j], size) == p;
      assert all[|a| + j] == b[j];
    }
  }

  /** Expanding the first task of such an ordering finds a leaf whose path below `parent` is
      the ordering. */
  lemma {:induction false} ExpandComplete(goal: Goal, parent: Node, open: seq<Task>, i: nat, ws: WorldState,
                                          p: seq<Task>)
    requires GoalFits(goal, |ws.values|) && AllFit(open, |ws.values|) && i < |open|
    requires AllPlanOnly(open)
    requires DrawnOnce(p, open) && FirstReaches(goal, ws, p) && open[i] == p[0]
    ensures FoundPath(parent, Expand(goal, parent, open, i, ws).leaves, |ws.values|, p)
    decreases |open|, |open| - i, 0
  {
    var size := |ws.values|;
    var task := open[i];
    var applied := Applied(ws, task.effects);
    var node := Child(parent, task, ws);
    ChildExtends(parent, task, ws);
    if GoalHolds(goal, applied.values) {
      assert p == [task];
      var leaves := Expand(goal, parent, open, i, ws).leaves;
      assert leaves == [node] && leaves[0] == node;
      assert Extends(parent, leaves[0], size) && Below(parent, leaves[0], size) == p;
      assert Expand(goal, parent, open, i, ws).leaves == leaves;
    } else {
      var rest := Without(open, task.id);
      assert |rest| < |open| by {
        assert open[i].id == task.id;
      }
      WithoutFits(open, task.id, size);
      WithoutPlanOnly(open, task.id);
      DrawnOnceTail(p, open);
      assert p[1..][0] in rest;
      var k :| 0 <= k < |rest| && rest[k] == p[1..][0];
      ExploreComplete(goal, node, rest, 0, applied, p[1..], k);
      var leaves := ExploreFrom(goal, node, rest, 0, applied).leaves;
      FoundBelowChild(parent, task, ws, leaves, p);
      assert Expand(goal, parent, open, i, ws).leaves == leaves;
    }
  }

  /** A leaf whose path below a child is the rest of `p` has path `p` below the child's parent. */
  lemma FoundBelowChild(parent: Node, task: Task, ws: WorldState, leaves: seq<Node>, p: seq<Task>)
    requires IsGoapTask(task) && EffectsFit(task, |ws.values|) && p != [] && p[0] == task
    requires FoundPath(Child(parent, task, ws), leaves, |ws.values|, p[1..])
    ensures FoundPath(parent, leaves, |ws.values|, p)
  {
    var node := Child(parent, task, ws);
    var j :| 0 <= j < |leaves| && Extends(node, leaves[j], |ws.values|) && Below(node, leaves[j], |ws.values|) == p[1..];
    ExtendsThrough(parent, task, ws, leaves[j]);
    assert [task] + p[1..] == p;
  }

  /** Every ordering that reaches the goal with each task valid in turn has a non-empty prefix
      the search follows down to a leaf: the shortest one after which the goal holds. */
  lemma {:induction false} ShortestReachingPrefix(goal: Goal, ws: WorldState, p: seq<Task>)
    requires GoalFits(goal, |ws.values|) && Replayable(p, |ws.values|)
    requires p != [] && Achieves(goal, ws, p)
    ensures exists n :: 1 <= n <= |p| && FirstReaches(goal, ws, p[..n])
    decreases |p|
  {
    var next := Applied(ws, p[0].effects);
    if GoalHolds(goal, next.values) {
      assert p[..1] == [p[0]];
      assert FirstReaches(goal, ws, p[..1]);
    } else {
      assert Replayable(p[1..], |ws.values|) by {
        forall k | 0 <= k < |p[1..]| ensures IsGoapTask(p[1..][k]) && EffectsFit(p[1..][k], |ws.values|) {
          assert p[1..][k] == p[k + 1];
        }
      }
      ShortestReachingPrefix(goal, next, p[1..]);
      var n :| 1 <= n <= |p[1..]| && FirstReaches(goal, next, p[1..][..n]);
      assert p[..n + 1][0] == p[0] && p[..n + 1][1..] == p[1..][..n];
      assert FirstReaches(goal, ws, p[..n + 1]);
    }
  }

  /** The position of the cheapest leaf, the earliest one on a tie. */
  function CheapestIndex(leaves: seq<Node>): (r: nat)
    requires |leaves| > 0
    ensures r < |leaves|
    ensures forall j :: 0 <= j < |leaves| ==> leaves[r].runningCost <= leaves[j].runningCost
    ensures forall j :: 0 <= j < r ==> leaves[r].runningCost < leaves[j].runningCost
    decreases |leaves|
  {
    if |leaves| == 1 then 0
    else
      var best := CheapestIndex(leaves[..|leaves| - 1]);
      if leaves[|leaves| - 1].runningCost < leaves[best].runningCost then |leaves| - 1 else best
  }

  /** Below the root, a leaf's path is its whole path from the root. */
  lemma BelowRoot(l: Node, size: nat)
    requires Extends(Root, l, size)
    ensures Replayable(PathOf(Some(l)), size) && Below(Root, l, size) == PathOf(Some(l))
  {
    assert PathOf(Some(Root)) == [];
    assert PathOf(Some(l))[0..] == PathOf(Some(l));
  }

  /** Replaying a plan in two parts is replaying it at once. */
  lemma {:induction false} ReplayAppend(ws: WorldState, a: seq<Task>, b: seq<Task>)
    requires Replayable(a + b, |ws.values|)
    ensures Replayable(a, |ws.values|) && Replayable(b, |ws.values|)
    ensures Replay(ws, a + b) == Replay(Replay(ws, a), b)
    decreases |a|
  {
    assert forall j :: 0 <= j < |a| ==> a[j] == (a + b)[j];
    assert forall j :: 0 <= j < |b| ==> b[j] == (a + b)[|a| + j];
    if a == [] {
      assert a + b == b;
    } else {
      assert (a + b)[1..] == a[1..] + b;
      ReplayAppend(Applied(ws, a[0].effects), a[1..], b);
    }
  }

  /** The outcome of a decomposition: the plan and the world state afterwards. */
  datatype Planned = Planned(plan: seq<Task>, state: WorldState)

  /**
    The GOAP sequence's decomposition: search below the root over all subtasks; with no leaf
    the plan is empty; otherwise the plan is the path of the cheapest leaf, the earliest on a
    tie, and its effects are applied again in order to the state the search left behind.
   */
  function GoapPlan(goal: Goal, subtasks: seq<Task>, ws: WorldState): (r: Planned)
    requires GoalFits(goal, |ws.values|) && AllFit(subtasks, |ws.values|)
    ensures |r.state.values| == |ws.values|
    ensures r.plan == [] ==> r.state.changes == ws.changes
  {
    var search := Explore(goal, Root, subtasks, ws);
    if search.leaves == [] then Planned([], search.state)
    else
      var leaf := search.leaves[CheapestIndex(search.leaves)];
      ExploreExtends(goal, Root, subtasks, 0, ws);
      BelowRoot(leaf, |ws.values|);
      Planned(PathOf(Some(leaf)), Replay(search.state, PathOf(Some(leaf))))
  }

  /**
    Soundness of the GOAP sequence when every effect is a plan-time write: the plan is empty
    exactly when the search found no leaf; otherwise each of its tasks is a GOAP task valid in
    the state it meets when the plan is applied from the starting state, and the goal holds
    at the end. The world state afterwards is the starting state with the plan applied.
   */
  lemma GoapPlanSound(goal: Goal, subtasks: seq<Task>, ws: WorldState)
    requires GoalFits(goal, |ws.values|) && AllFit(subtasks, |ws.values|) && AllPlanOnly(subtasks)
    ensures (GoapPlan(goal, subtasks, ws).plan == []) == (Explore(goal, Root, subtasks, ws).leaves == [])
    ensures Replayable(GoapPlan(goal, subtasks, ws).plan, |ws.values|)
    ensures GoapPlan(goal, subtasks, ws).state == Replay(ws, GoapPlan(goal, subtasks, ws).plan)
    ensures GoapPlan(goal, subtasks, ws).plan != [] ==> Achieves(goal, ws, GoapPlan(goal, subtasks, ws).plan)
  {
    var search := Explore(goal, Root, subtasks, ws);
    ExploreRestores(goal, Root, subtasks, 0, ws);
    if search.leaves != [] {
      var leaf := search.leaves[CheapestIndex(search.leaves)];
      ExploreExtends(goal, Root, subtasks, 0, ws);
      ExploreSound(goal, Root, subtasks, 0, ws);
      assert Leads(goal, Root, ws, leaf);
      BelowRoot(leaf, |ws.values|);
    }
  }

  /** The plan uses each subtask of the sequence at most once. */
  lemma GoapPlanDrawsOnce(goal: Goal, subtasks: seq<Task>, ws: WorldState)
    requires GoalFits(goal, |ws.values|) && AllFit(subtasks, |ws.values|)
    ensures DrawnOnce(GoapPlan(goal, subtasks, ws).plan, subtasks)
  {
    var search := Explore(goal, Root, subtasks, ws);
    if search.leaves != [] {
      var leaf := search.leaves[CheapestIndex(search.leaves)];
      ExploreDrawsOnce(goal, Root, subtasks, 0, ws);
      BelowRoot(leaf, |ws.values|);
    }
  }

  /**
    The plan is a cheapest one: when every effect is a plan-time write, no leaf of the search
    has a path cheaper than the plan, and every leaf whose path costs as much comes no earlier
    than the leaf the plan was taken from.
   */
  lemma GoapPlanCheapest(goal: Goal, subtasks: seq<Task>, ws: WorldState, j: nat)
    requires GoalFits(goal, |ws.values|) && AllFit(subtasks, |ws.values|) && AllPlanOnly(subtasks)
    requires j < |Explore(goal, Root, subtasks, ws).leaves|
    ensures var leaves := Explore(goal, Root, subtasks, ws).leaves;
      && Replayable(GoapPlan(goal, subtasks, ws).plan, |ws.values|)
      && Replayable(PathOf(Some(leaves[j])), |ws.values|)
      && PlanCost(ws, GoapPlan(goal, subtasks, ws).plan) <= PlanCost(ws, PathOf(Some(leaves[j])))
      && (PlanCost(ws, GoapPlan(goal, subtasks, ws).plan) == PlanCost(ws, PathOf(Some(leaves[j]))) ==>
            exists c :: 0 <= c <= j && PathOf(Some(leaves[c])) == GoapPlan(goal, subtasks, ws).plan)
  {
    var leaves := Explore(goal, Root, subtasks, ws).leaves;
    var c := CheapestIndex(leaves);
    ExploreExtends(goal, Root, subtasks, 0, ws);
    ExploreSound(goal, Root, subtasks, 0, ws);
    assert Leads(goal, Root, ws, leaves[c]) && Leads(goal, Root, ws, leaves[j]);
    BelowRoot(leaves[c], |ws.values|);
    BelowRoot(leaves[j], |ws.values|);
    assert j < c ==> leaves[c].runningCost < leaves[j].runningCost;
  }

  /**
    Completeness and optimality of the GOAP sequence when every effect is a plan-time write:
    for every ordering of its subtasks, each used at most once, that the search can follow
    down to the goal, the plan is not empty and costs no more than that ordering.
   */
  lemma GoapPlanOptimal(goal: Goal, subtasks: seq<Task>, ws: WorldState, p: seq<Task>)
    requires GoalFits(goal, |ws.values|) && AllFit(subtasks, |ws.values|) && AllPlanOnly(subtasks)
    requires DrawnOnce(p, subtasks) && FirstReaches(goal, ws, p)
    ensures var plan := GoapPlan(goal, subtasks, ws).plan;
      && plan != []
      && Replayable(plan, |ws.values|) && Replayable(p, |ws.values|)
      && PlanCost(ws, plan) <= PlanCost(ws, p)
  {
    assert p[0] in subtasks;
    var k :| 0 <= k < |subtasks| && subtasks[k] == p[0];
    ExploreComplete(goal, Root, subtasks, 0, ws, p, k);
    var leaves := Explore(goal, Root, subtasks, ws).leaves;
    var j :| 0 <= j < |leaves| && Extends(Root, leaves[j], |ws.values|) && Below(Root, leaves[j], |ws.values|) == p;
    BelowRoot(leaves[j], |ws.values|);
    GoapPlanCheapest(goal, subtasks, ws, j);
    var c := CheapestIndex(leaves);
    ExploreExtends(goal, Root, subtasks, 0, ws);
    assert Extends(Root, leaves[c], |ws.values|);
    BelowRoot(leaves[c], |ws.values|);
  }

  /** When some non-empty ordering of the subtasks, each used at most once and each valid in
      turn, reaches the goal, the GOAP sequence finds a plan. */
  lemma GoapPlanFound(goal: Goal, subtasks: seq<Task>, ws: WorldState, p: seq<Task>)
    requires GoalFits(goal, |ws.values|) && AllFit(subtasks, |ws.values|) && AllPlanOnly(subtasks)
    requires p != [] && DrawnOnce(p, subtasks) && Replayable(p, |ws.values|) && Achieves(goal, ws, p)
    ensures GoapPlan(goal, subtasks, ws).plan != []
  {
    ShortestReachingPrefix(goal, ws, p);
    var n :| 1 <= n <= |p| && FirstReaches(goal, ws, p[..n]);
    assert DrawnOnce(p[..n], subtasks) by {
      forall k | 0 <= k < n ensures p[..n][k] == p[k] {}
    }
    GoapPlanOptimal(goal, subtasks, ws, p[..n]);
  }

  /** The leaf list the search appends to, shared by every level of it. */
  class NodeList {
    var items: seq<Node>

    constructor ()
      ensures items == []
    {
      items := [];
    }

    method Add(node: Node)
      modifies this
      ensures items == old(items) + [node]
    {
      items := items + [node];
    }
  }

  class GoapSequence {
    const subtasks: seq<Task>
    /** The goal the sequence plans for, given when the task is built. */
    const goal: Goal
    var plan: seq<Task>

    constructor (subtasks: seq<Task>, goal: Goal)
      ensures this.subtasks == subtasks && this.goal == goal && plan == []
    {
      this.subtasks := subtasks;
      this.goal := goal;
      plan := [];
    }

    /** Decomposes the sequence into the plan `GoapPlan` describes; the start index is not used. */
    method OnDecompose(ctx: Context, startIndex: nat) returns (result: seq<Task>)
      requires GoalFits(goal, |ctx.ws.values|) && AllFit(subtasks, |ctx.ws.values|)
      modifies this, ctx
      ensures var r := GoapPlan(goal, subtasks, old(ctx.ws));
        result == r.plan && plan == r.plan && ctx.ws == r.state
    {
      plan := [];
      ghost var ws0 := ctx.ws;
      var leaves := new NodeList();
      var found := TryBuildGraph(ctx, Root, leaves, subtasks);
      ghost var search := Explore(goal, Root, subtasks, ws0);
      assert leaves.items == search.leaves && ctx.ws == search.state;
      if found {
        var cheapest := GetCheapestLeaf(leaves.items);
        ExploreExtends(goal, Root, subtasks, 0, ws0);
        BelowRoot(cheapest.value, |ws0.values|);
        GeneratePlan(ctx, cheapest);
      }
      result := plan;
    }

    /** The leaf with the lowest running cost, the first of several equally cheap ones; none
        for an empty list. */
    method GetCheapestLeaf(leaves: seq<Node>) returns (cheapest: Option<Node>)
      ensures cheapest == if leaves == [] then None else Some(leaves[CheapestIndex(leaves)])
    {
      cheapest := None;
      var i := 0;
      while i < |leaves|
        invariant 0 <= i <= |leaves|
        invariant cheapest == if i == 0 then None else Some(leaves[CheapestIndex(leaves[..i])])
      {
        var leaf := leaves[i];
        assert leaves[..i + 1][..i] == leaves[..i];
        if cheapest.Some? {
          if leaf.runningCost < cheapest.value.runningCost {
            cheapest := Some(leaf);
          }
        } else {
          cheapest := Some(leaf);
        }
        i := i + 1;
      }
      assert leaves[..|leaves|] == leaves;
    }

    /** Walks up to the root and back down, applying each task's effects and appending it to
        the plan, so that the task of `node` comes last. The root carries no task and adds
        nothing. */
    method GeneratePlan(ctx: Context, node: Option<Node>)
      requires Replayable(PathOf(node), |ctx.ws.values|)
      modifies this, ctx
      ensures plan == old(plan) + PathOf(node)
      ensures ctx.ws == Replay(old(ctx.ws), PathOf(node))
      decreases node
    {
      if node.Some? {
        var n := node.value;
        var tail := if n.task.Some? then [n.task.value] else [];
        ghost var ws0 := ctx.ws;
        ReplayAppend(ctx.ws, PathOf(n.parent), tail);
        GeneratePlan(ctx, n.parent);
        if n.task.Some? {
          ApplyEffects(n.task.value, ctx);
          plan := plan + [n.task.value];
        }
      }
    }

    /**
      Searches below `parent` over `openSubtasks`, appending the leaves found to `leaves`, and
      reports whether it found any. The loop reads `openSubtasks`, the list the subset was
      built for; a subtask that is not valid or not a GOAP task is passed over untouched.
     */
    method TryBuildGraph(ctx: Context, parent: Node, leaves: NodeList, openSubtasks: seq<Task>)
      returns (foundLeaf: bool)
      requires GoalFits(goal, |ctx.ws.values|) && AllFit(openSubtasks, |ctx.ws.values|)
      modifies ctx, leaves
      ensures var search := Explore(goal, parent, openSubtasks, old(ctx.ws));
        && leaves.items == old(leaves.items) + search.leaves
        && ctx.ws == search.state
        && (foundLeaf <==> search.leaves != [])
      decreases |openSubtasks|, 1
    {
      foundLeaf := false;
      ghost var items0 := leaves.items;
      ghost var target := ExploreFrom(goal, parent, openSubtasks, 0, ctx.ws);
      var taskIndex := 0;
      while taskIndex < |openSubtasks|
        invariant taskIndex <= |openSubtasks|
        invariant GoalFits(goal, |ctx.ws.values|) && AllFit(openSubtasks, |ctx.ws.values|)
        invariant leaves.items + ExploreFrom(goal, parent, openSubtasks, taskIndex, ctx.ws).leaves
               == items0 + target.leaves
        invariant ExploreFrom(goal, parent, openSubtasks, taskIndex, ctx.ws).state == target.state
        invariant |items0| <= |leaves.items|
        invariant foundLeaf <==> |leaves.items| > |items0|
      {
        var task := openSubtasks[taskIndex];
        if IsValid(task, ctx.ws.values) && IsGoapTask(task) {
          ghost var items1 := leaves.items;
          ghost var here := Expand(goal, parent, openSubtasks, taskIndex, ctx.ws);
          var found := ExpandTask(ctx, parent, leaves, openSubtasks, taskIndex);
          if found {
            foundLeaf := true;
          }
          ghost var rest := ExploreFrom(goal, parent, openSubtasks, taskIndex + 1, ctx.ws);
          assert items1 + (here.leaves + rest.leaves) == (items1 + here.leaves) + rest.leaves;
        }
        taskIndex := taskIndex + 1;
      }
    }

    /**
      The body of the search loop for a valid GOAP task: its effects are applied and its node
      made; the node is a leaf if the goal now holds, or else the start of a search over the
      subset without the task; then the world state is trimmed back to the depth recorded
      before the effects.
     */
    method ExpandTask(ctx: Context, parent: Node, leaves: NodeList, openSubtasks: seq<Task>, taskIndex: nat)
      returns (found: bool)
      requires GoalFits(goal, |ctx.ws.values|) && AllFit(openSubtasks, |ctx.ws.values|)
      requires taskIndex < |openSubtasks| && IsGoapTask(openSubtasks[taskIndex])
      modifies ctx, leaves
      ensures var here := Expand(goal, parent, openSubtasks, taskIndex, old(ctx.ws));
        && leaves.items == old(leaves.items) + here.leaves
        && ctx.ws == Trimmed(here.state, |old(ctx.ws).changes|)
        && (found <==> here.leaves != [])
      decreases |openSubtasks|, 0
    {
      var task := openSubtasks[taskIndex];
      ghost var ws1 := ctx.ws;
      var oldStackDepth := ctx.GetWorldStateChangeDepth();
      ApplyEffects(task, ctx);
      var node := Node(Some(parent), parent.runningCost + task.cost.value(ctx.ws.values), Some(task));
      assert node == Child(parent, task, ws1);
      var reached := ValidatesGoal(ctx);
      if reached {
        leaves.Add(node);
        found := true;
      } else {
        var subset := GetSubset(task, openSubtasks);
        WithoutFits(openSubtasks, task.id, |ws1.values|);
        found := TryBuildGraph(ctx, node, leaves, subset);
      }
      ctx.TrimToStackDepth(oldStackDepth);
    }

    /** Whether every index the goal names holds the value it requires. */
    method ValidatesGoal(ctx: Context) returns (r: bool)
      requires GoalFits(goal, |ctx.ws.values|)
      ensures r <==> GoalHolds(goal, ctx.ws.values)
    {
      var keys := goal.Keys;
      while keys != {}
        invariant keys <= goal.Keys
        invariant forall k :: k in goal && k !in keys ==> ctx.ws.values[k] == goal[k]
        decreases |keys|
      {
        var k :| k in keys;
        var value := ctx.GetState(k);
        if value != goal[k] {
          return false;
        }
        keys := keys - {k};
      }
      return true;
    }

    /** `tasks` without `currentTask`, the others in their order. */
    method GetSubset(currentTask: Task, tasks: seq<Task>) returns (subset: seq<Task>)
      ensures subset == Without(tasks, currentTask.id)
    {
      subset := [];
      var i := 0;
      while i < |tasks|
        invariant 0 <= i <= |tasks|
        invariant subset == Without(tasks[..i], currentTask.id)
      {
        var task := tasks[i];
        assert tasks[..i + 1] == tasks[..i] + [task];
        WithoutAppend(tasks[..i], [task], currentTask.id);
        assert Without([task], currentTask.id) == if task.id == currentTask.id then [] else [task] by {
          assert [task][1..] == [];
        }
        if task.id != currentTask.id {
          subset := subset + [task];
        }
        i := i + 1;
      }
      assert tasks[..|tasks|] == tasks;
    }
  }
}
