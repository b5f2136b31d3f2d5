/**
  The two GOAP unit tests as instances of the model. World-state indices 0, 1 and 2 stand for
  "has A", "has B" and "has C"; a flag holds when its byte is 1, every action sets its own flag
  as a plan-time write, and the goal is "has C". Both tests start from a state with no flag set.
 */
module GoapExamples {
  import opened Wrappers
  import opened WorldStates
  import opened Tasks
  import opened GoapSequences

  const HasA: nat := 0
  const HasB: nat := 1
  const HasC: nat := 2

  /** The flag at index `x` holds. */
  predicate Has(v: seq<byte>, x: nat) {
    x < |v| && v[x] == 1
  }

  /** Sets the flag at index `x`, as a plan-time write. */
  function Set(x: nat): Effect {
    Effect(x, PlanOnly, (v: seq<byte>) => 1)
  }

  /** A constant GOAP cost. */
  function Cost(c: int): Option<seq<byte> -> int> {
    Some((v: seq<byte>) => c)
  }

  /** The goal of both tests: "has C". */
  const HasCGoal: Goal := map[2 := 1]

  /** The state both tests start from: no flag set, nothing logged. */
  const Start: WorldState := State([0, 0, 0], [])

  // The first test: Get C needs B, Get B needs A, declared as Get C, Get A, Get B.
  const GetC1: Task := Primitive(0, "Get C", [(v: seq<byte>) => Has(v, HasB), (v: seq<byte>) => !Has(v, HasC)], [Set(HasC)], Cost(1), None)
  const GetA1: Task := Primitive(1, "Get A", [(v: seq<byte>) => !Has(v, HasA)], [Set(HasA)], Cost(1), None)
  const GetB1: Task := Primitive(2, "Get B", [(v: seq<byte>) => Has(v, HasA), (v: seq<byte>) => !Has(v, HasB)], [Set(HasB)], Cost(1), None)
  const Subtasks1: seq<Task> := [GetC1, GetA1, GetB1]

  // The second test: Get C needs A or B, and Get B costs 10; declared as Get C, Get B, Get A.
  const GetC2: Task := Primitive(0, "Get C", [(v: seq<byte>) => Has(v, HasA) || Has(v, HasB), (v: seq<byte>) => !Has(v, HasC)], [Set(HasC)], Cost(1), None)
  const GetB2: Task := Primitive(1, "Get B", [(v: seq<byte>) => !Has(v, HasB)], [Set(HasB)], Cost(10), None)
  const GetA2: Task := Primitive(2, "Get A", [(v: seq<byte>) => !Has(v, HasA)], [Set(HasA)], Cost(1), None)
  const Subtasks2: seq<Task> := [GetC2, GetB2, GetA2]

  /** Setting a flag writes 1 at its index and leaves the other values alone. */
  lemma SetApplied(ws: WorldState, x: nat)
    requires x < |ws.values|
    ensures Applied(ws, [Set(x)]).values == ws.values[x := 1]
  {
    var next := Written(ws, x, 1, PlanOnly);
    assert [Set(x)][1..] == [];
    assert Applied(ws, [Set(x)]) == Applied(next, []);
  }

  /** The goal holds exactly when "has C" does. */
  lemma GoalMeans(v: seq<byte>)
    requires |v| == 3
    ensures GoalHolds(HasCGoal, v) <==> Has(v, HasC)
  {
    assert 2 in HasCGoal;
  }

  /** What each action of the first test needs. */
  lemma Validity1(v: seq<byte>)
    ensures IsValid(GetC1, v) <==> Has(v, HasB) && !Has(v, HasC)
    ensures IsValid(GetA1, v) <==> !Has(v, HasA)
    ensures IsValid(GetB1, v) <==> Has(v, HasA) && !Has(v, HasB)
  {
    assert GetC1.conditions[0](v) == Has(v, HasB) && GetC1.conditions[1](v) == !Has(v, HasC);
    assert GetA1.conditions[0](v) == !Has(v, HasA);
    assert GetB1.conditions[0](v) == Has(v, HasA) && GetB1.conditions[1](v) == !Has(v, HasB);
  }

  /** What each action of the second test needs. */
  lemma Validity2(v: seq<byte>)
    ensures IsValid(GetC2, v) <==> (Has(v, HasA) || Has(v, HasB)) && !Has(v, HasC)
    ensures IsValid(GetB2, v) <==> !Has(v, HasB)
    ensures IsValid(GetA2, v) <==> !Has(v, HasA)
  {
    assert GetC2.conditions[0](v) == (Has(v, HasA) || Has(v, HasB)) && GetC2.conditions[1](v) == !Has(v, HasC);
    assert GetB2.conditions[0](v) == !Has(v, HasB);
    assert GetA2.conditions[0](v) == !Has(v, HasA);
  }

  lemma Fits1()
    ensures GoalFits(HasCGoal, 3) && AllFit(Subtasks1, 3) && AllPlanOnly(Subtasks1)
  {
    assert forall k :: k in HasCGoal ==> k == 2;
  }

  lemma Fits2()
    ensures GoalFits(HasCGoal, 3) && AllFit(Subtasks2, 3) && AllPlanOnly(Subtasks2)
  {
    assert forall k :: k in HasCGoal ==> k == 2;
  }

  /** In the first test the search can follow Get A, Get B, Get C down to the goal. */
  lemma Reaches1()
    ensures GoalFits(HasCGoal, 3)
    ensures FirstReaches(HasCGoal, Start, [GetA1, GetB1, GetC1])
  {
    Fits1();
    var s1 := Applied(Start, GetA1.effects);
    SetApplied(Start, HasA);
    var s2 := Applied(s1, GetB1.effects);
    SetApplied(s1, HasB);
    var s3 := Applied(s2, GetC1.effects);
    SetApplied(s2, HasC);
    Validity1(Start.values);
    Validity1(s1.values);
    Validity1(s2.values);
    GoalMeans(s1.values);
    GoalMeans(s2.values);
    GoalMeans(s3.values);
    assert FirstReaches(HasCGoal, s2, [GetC1]);
    assert [GetB1, GetC1][1..] == [GetC1];
    assert FirstReaches(HasCGoal, s1, [GetB1, GetC1]);
    assert [GetA1, GetB1, GetC1][1..] == [GetB1, GetC1];
  }

  /** With A set and B and C not, an ordering drawn once from Get C and Get B that reaches the
      goal is Get B, Get C. */
  lemma AfterA1(q: seq<Task>, ws: WorldState)
    requires |ws.values| == 3 && Has(ws.values, HasA) && !Has(ws.values, HasB) && !Has(ws.values, HasC)
    requires DrawnOnce(q, [GetC1, GetB1]) && Replayable(q, 3)
    requires GoalFits(HasCGoal, 3) && Achieves(HasCGoal, ws, q)
    ensures q == [GetB1, GetC1]
  {
    GoalMeans(ws.values);
    Validity1(ws.values);
    assert q[0] == GetB1;
    var next := Applied(ws, GetB1.effects);
    SetApplied(ws, HasB);
    DrawnOnceTail(q, [GetC1, GetB1]);
    assert Without([GetC1, GetB1], GetB1.id) == [GetC1] by {
      assert [GetC1, GetB1][1..] == [GetB1] && [GetB1][1..] == [];
    }
    ReplayableTail(q, 3);
    AfterB1(q[1..], next);
    assert q == [q[0]] + q[1..];
  }

  /** With A and B set and C not, an ordering drawn once from Get C that reaches the goal is
      Get C. */
  lemma AfterB1(q: seq<Task>, ws: WorldState)
    requires |ws.values| == 3 && Has(ws.values, HasA) && Has(ws.values, HasB) && !Has(ws.values, HasC)
    requires DrawnOnce(q, [GetC1]) && Replayable(q, 3)
    requires GoalFits(HasCGoal, 3) && Achieves(HasCGoal, ws, q)
    ensures q == [GetC1]
  {
    GoalMeans(ws.values);
    assert q[0] == GetC1;
    assert |q| == 1;
  }

  /** Below Get A, the first test's search goes on over Get C and Get B. */
  lemma Without1()
    ensures Without(Subtasks1, GetA1.id) == [GetC1, GetB1]
  {
    assert [GetB1][1..] == [];
    assert Without([GetB1], GetA1.id) == [GetB1];
    assert [GetA1, GetB1][1..] == [GetB1];
    assert Without([GetA1, GetB1], GetA1.id) == [GetB1];
    assert Subtasks1[1..] == [GetA1, GetB1];
  }

  /** The tasks after the first of a replayable ordering are replayable. */
  lemma ReplayableTail(p: seq<Task>, size: nat)
    requires p != [] && Replayable(p, size)
    ensures Replayable(p[1..], size)
  {
    forall k | 0 <= k < |p[1..]| ensures IsGoapTask(p[1..][k]) && EffectsFit(p[1..][k], size) {
      assert p[1..][k] == p[k + 1];
    }
  }

  /** In the first test every ordering of its subtasks, each used at most once and valid in
      turn, that reaches the goal is Get A, Get B, Get C. */
  lemma OnlyPlan1(p: seq<Task>)
    requires p != [] && DrawnOnce(p, Subtasks1) && Replayable(p, 3)
    requires GoalFits(HasCGoal, 3) && Achieves(HasCGoal, Start, p)
    ensures p == [GetA1, GetB1, GetC1]
  {
    Validity1(Start.values);
    assert p[0] == GetA1;
    var s1 := Applied(Start, GetA1.effects);
    SetApplied(Start, HasA);
    DrawnOnceTail(p, Subtasks1);
    Without1();
    ReplayableTail(p, 3);
    AfterA1(p[1..], s1);
    assert p == [p[0]] + p[1..];
  }

  /**
    The first test: whatever order the subtasks are declared in, the preconditions force the
    plan Get A, Get B, Get C, which is not empty, so the sequence succeeds.
   */
  lemma PreconditionsAffectTaskOrder()
    ensures GoalFits(HasCGoal, |Start.values|) && AllFit(Subtasks1, |Start.values|)
    ensures GoapPlan(HasCGoal, Subtasks1, Start).plan == [GetA1, GetB1, GetC1]
  {
    Fits1();
    Reaches1();
    var p := [GetA1, GetB1, GetC1];
    assert DrawnOnce(p, Subtasks1);
    GoapPlanOptimal(HasCGoal, Subtasks1, Start, p);
    GoapPlanSound(HasCGoal, Subtasks1, Start);
    GoapPlanDrawsOnce(HasCGoal, Subtasks1, Start);
    OnlyPlan1(GoapPlan(HasCGoal, Subtasks1, Start).plan);
  }

  /** In the second test the search can follow Get A, Get C down to the goal, at cost 2. */
  lemma Reaches2()
    ensures GoalFits(HasCGoal, 3)
    ensures FirstReaches(HasCGoal, Start, [GetA2, GetC2])
    ensures Replayable([GetA2, GetC2], 3) && PlanCost(Start, [GetA2, GetC2]) == 2
  {
    Fits2();
    var s1 := Applied(Start, GetA2.effects);
    SetApplied(Start, HasA);
    var s2 := Applied(s1, GetC2.effects);
    SetApplied(s1, HasC);
    Validity2(Start.values);
    Validity2(s1.values);
    GoalMeans(s1.values);
    GoalMeans(s2.values);
    assert [GetA2, GetC2][1..] == [GetC2];
    assert FirstReaches(HasCGoal, s1, [GetC2]);
    assert PlanCost(s1, [GetC2]) == 1 by {
      assert [GetC2][1..] == [];
    }
  }

  /** Every ordering of the second test's subtasks costs at least one per task, and at least 10
      when it uses Get B. */
  lemma {:induction false} CostBounds2(ws: WorldState, p: seq<Task>)
    requires Replayable(p, |ws.values|)
    requires forall k :: 0 <= k < |p| ==> p[k] in Subtasks2
    ensures PlanCost(ws, p) >= |p|
    ensures GetB2 in p ==> PlanCost(ws, p) >= 10
    decreases |p|
  {
    if p != [] {
      var next := Applied(ws, p[0].effects);
      assert forall k :: 0 <= k < |p[1..]| ==> p[1..][k] == p[k + 1];
      CostBounds2(next, p[1..]);
      assert p == [p[0]] + p[1..];
      assert p[0] in Subtasks2;
    }
  }

  /** In the second test every ordering that reaches the goal and costs at most 2 is Get A,
      Get C. */
  lemma OnlyCheapPlan2(p: seq<Task>)
    requires p != [] && DrawnOnce(p, Subtasks2) && Replayable(p, 3)
    requires GoalFits(HasCGoal, 3) && Achieves(HasCGoal, Start, p)
    requires PlanCost(Start, p) <= 2
    ensures p == [GetA2, GetC2]
  {
    CostBounds2(Start, p);
    assert GetB2 !in p;
    Validity2(Start.values);
    assert p[0] == GetA2;
    var s1 := Applied(Start, GetA2.effects);
    SetApplied(Start, HasA);
    GoalMeans(s1.values);
    assert Achieves(HasCGoal, s1, p[1..]);
    assert |p| == 2;
    assert p[1] in Subtasks2 && p[1].id != p[0].id;
    assert p[1] == GetC2;
  }

  /**
    The second test: Get B costs more than Get A, so the plan is Get A, Get C, which is not
    empty, so the sequence succeeds.
   */
  lemma PreferLowCostTasks()
    ensures GoalFits(HasCGoal, |Start.values|) && AllFit(Subtasks2, |Start.values|)
    ensures GoapPlan(HasCGoal, Subtasks2, Start).plan == [GetA2, GetC2]
  {
    Fits2();
    Reaches2();
    var p := [GetA2, GetC2];
    assert DrawnOnce(p, Subtasks2);
    GoapPlanOptimal(HasCGoal, Subtasks2, Start, p);
    GoapPlanSound(HasCGoal, Subtasks2, Start);
    GoapPlanDrawsOnce(HasCGoal, Subtasks2, Start);
    OnlyCheapPlan2(GoapPlan(HasCGoal, Subtasks2, Start).plan);
  }
}
