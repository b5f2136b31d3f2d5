/**
  Tasks of the hierarchical task network. A primitive task carries effects and may offer a
  cost (the GOAP capability) or a score (the utility capability); a compound task carries
  subtasks and may offer a score. The `id` stands for the identity of the task object.
 */
module Tasks {
  import opened Wrappers
  import opened WorldStates

  /** A condition reads the world-state values. */
  type Condition = seq<byte> -> bool

  /** An effect writes one index, with a value computed from the current values. */
  datatype Effect = Effect(index: nat, kind: EffectKind, value: seq<byte> -> byte)

  datatype Task =
    | Primitive(id: nat, name: string, conditions: seq<Condition>, effects: seq<Effect>,
                cost: Option<seq<byte> -> int>, score: Option<seq<byte> -> int>)
    | Compound(id: nat, name: string, conditions: seq<Condition>, subtasks: seq<Task>,
               score: Option<seq<byte> -> int>)

  /** A task is valid when all of its conditions hold. */
  predicate IsValid(t: Task, values: seq<byte>) {
    forall i :: 0 <= i < |t.conditions| ==> t.conditions[i](values)
  }

  /** The task implements the GOAP interface (which extends the primitive one). */
  predicate IsGoapTask(t: Task) {
    t.Primitive? && t.cost.Some?
  }

  /** The task implements the utility interface. */
  predicate IsUtilityTask(t: Task) {
    t.score.Some?
  }

  /** Every effect of the task writes an index of a world state of `size` values. */
  predicate EffectsFit(t: Task, size: nat) {
    t.Primitive? ==> forall i :: 0 <= i < |t.effects| ==> t.effects[i].index < size
  }

  predicate AllFit(ts: seq<Task>, size: nat) {
    forall i :: 0 <= i < |ts| ==> EffectsFit(ts[i], size)
  }

  /** Every effect of the task is a plan-time write. */
  predicate PlanOnlyEffects(t: Task) {
    t.Primitive? ==> forall i :: 0 <= i < |t.effects| ==> t.effects[i].kind == PlanOnly
  }

  predicate AllPlanOnly(ts: seq<Task>) {
    forall i :: 0 <= i < |ts| ==> PlanOnlyEffects(ts[i])
  }

  /** The state after applying `effects` in declared order. */
  function Applied(s: WorldState, effects: seq<Effect>): (r: WorldState)
    requires forall i :: 0 <= i < |effects| ==> effects[i].index < |s.values|
    ensures |r.values| == |s.values|
    ensures |s.changes| <= |r.changes| && r.changes[..|s.changes|] == s.changes
    decreases |effects|
  {
    if effects == [] then s
    else
      var e := effects[0];
      Applied(Written(s, e.index, e.value(s.values), e.kind), effects[1..])
  }

  /** Plan-time effects are undone exactly by trimming back to the depth before them. */
  lemma {:induction false} AppliedUndone(s: WorldState, effects: seq<Effect>)
    requires forall i :: 0 <= i < |effects| ==> effects[i].index < |s.values|
    requires forall i :: 0 <= i < |effects| ==> effects[i].kind == PlanOnly
    ensures Trimmed(Applied(s, effects), |s.changes|) == s
    decreases |effects|
  {
    if effects != [] {
      var e := effects[0];
      var next := Written(s, e.index, e.value(s.values), PlanOnly);
      AppliedUndone(next, effects[1..]);
      TrimmedTwice(Applied(next, effects[1..]), |next.changes|, |s.changes|);
      UndoWrite(s, e.index, e.value(s.values));
    }
  }

  /** `ApplyEffects` of a primitive task: each effect writes the context in declared order. */
  method ApplyEffects(t: Task, ctx: Context)
    requires t.Primitive? && EffectsFit(t, |ctx.ws.values|)
    modifies ctx
    ensures ctx.ws == Applied(old(ctx.ws), t.effects)
  {
    var i := 0;
    while i < |t.effects|
      invariant 0 <= i <= |t.effects|
      invariant |ctx.ws.values| == |old(ctx.ws.values)|
      invariant Applied(old(ctx.ws), t.effects) == Applied(ctx.ws, t.effects[i..])
    {
      var e := t.effects[i];
      assert t.effects[i..][1..] == t.effects[i + 1..];
      ctx.SetState(e.index, e.value(ctx.ws.values), e.kind);
      i := i + 1;
    }
  }
}
