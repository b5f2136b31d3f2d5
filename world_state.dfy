/**
  The planner's world state: a fixed-size array of byte values and a LIFO change log.
  A plan-time write first pushes the index it changes and the value it replaces, so that
  trimming the log back to an earlier depth restores exactly the values of that moment.
  A permanent write changes the value and leaves no entry, so trimming never undoes it.
 */
module WorldStates {

  type byte = x: int | 0 <= x < 256

  /** How an effect writes the world state. */
  datatype EffectKind = Permanent | PlanOnly

  /** One log entry: the index a plan-time write changed and the value it had before. */
  datatype Change = Change(index: nat, previous: byte)

  datatype State = State(values: seq<byte>, changes: seq<Change>)

  /** Every logged index is an index of the values, so popping an entry can restore it. */
  predicate LogInRange(s: State) {
    forall i :: 0 <= i < |s.changes| ==> s.changes[i].index < |s.values|
  }

  type WorldState = s: State | LogInRange(s) witness State([], [])

  /** The state after writing `value` at `index`; only a plan-time write is logged. */
  function Written(s: WorldState, index: nat, value: byte, kind: EffectKind): (r: WorldState)
    requires index < |s.values|
    ensures |r.values| == |s.values| && r.values[index] == value
    ensures forall i :: 0 <= i < |s.values| && i != index ==> r.values[i] == s.values[i]
    ensures kind == Permanent ==> r.changes == s.changes
    ensures kind == PlanOnly ==> r.changes == s.changes + [Change(index, s.values[index])]
  {
    var values := s.values[index := value];
    match kind
    case Permanent => State(values, s.changes)
    case PlanOnly => State(values, s.changes + [Change(index, s.values[index])])
  }

  /** The state after popping log entries, newest first, until `depth` of them remain. */
  function Trimmed(s: WorldState, depth: nat): (r: WorldState)
    requires depth <= |s.changes|
    ensures |r.values| == |s.values|
    ensures r.changes == s.changes[..depth]
    decreases |s.changes|
  {
    if |s.changes| == depth then s
    else
      var last := s.changes[|s.changes| - 1];
      Trimmed(State(s.values[last.index := last.previous], s.changes[..|s.changes| - 1]), depth)
  }

  /** Trimming in two steps is trimming once to the smaller depth. */
  lemma {:induction false} TrimmedTwice(s: WorldState, outer: nat, depth: nat)
    requires depth <= outer <= |s.changes|
    ensures Trimmed(Trimmed(s, outer), depth) == Trimmed(s, depth)
    decreases |s.changes|
  {
    if |s.changes| != outer {
      var last := s.changes[|s.changes| - 1];
      var popped: WorldState := State(s.values[last.index := last.previous], s.changes[..|s.changes| - 1]);
      TrimmedTwice(popped, outer, depth);
    }
  }

  /** Popping the entry a plan-time write pushed gives back the state before the write. */
  lemma UndoWrite(s: WorldState, index: nat, value: byte)
    requires index < |s.values|
    ensures Trimmed(Written(s, index, value, PlanOnly), |s.changes|) == s
  {
    var w := Written(s, index, value, PlanOnly);
    assert w.changes[..|w.changes| - 1] == s.changes;
    assert w.values[index := s.values[index]] == s.values;
  }

  /** A sequence of plan-time writes, applied in order. */
  function WrittenAll(s: WorldState, writes: seq<(nat, byte)>): (r: WorldState)
    requires forall i :: 0 <= i < |writes| ==> writes[i].0 < |s.values|
    ensures |r.values| == |s.values| && |s.changes| <= |r.changes|
    decreases |writes|
  {
    if writes == [] then s
    else WrittenAll(Written(s, writes[0].0, writes[0].1, PlanOnly), writes[1..])
  }

  /** The round-trip law of the store: plan-time writes followed by a trim back to the depth
      recorded before them leave the values and the log exactly as they were. */
  lemma {:induction false} RoundTrip(s: WorldState, writes: seq<(nat, byte)>)
    requires forall i :: 0 <= i < |writes| ==> writes[i].0 < |s.values|
    ensures Trimmed(WrittenAll(s, writes), |s.changes|) == s
    decreases |writes|
  {
    if writes != [] {
      var next := Written(s, writes[0].0, writes[0].1, PlanOnly);
      RoundTrip(next, writes[1..]);
      TrimmedTwice(WrittenAll(next, writes[1..]), |next.changes|, |s.changes|);
      UndoWrite(s, writes[0].0, writes[0].1);
    }
  }

  /** The mutable context every decomposition policy reads and writes. */
  class Context {
    var ws: WorldState

    constructor (values: seq<byte>)
      ensures ws == State(values, [])
    {
      ws := State(values, []);
    }

    method GetState(index: nat) returns (value: byte)
      requires index < |ws.values|
      ensures value == ws.values[index]
    {
      value := ws.values[index];
    }

    method SetState(index: nat, value: byte, kind: EffectKind)
      requires index < |ws.values|
      modifies this
      ensures ws == Written(old(ws), index, value, kind)
    {
      ws := Written(ws, index, value, kind);
    }

    method GetWorldStateChangeDepth() returns (depth: nat)
      ensures depth == |ws.changes|
    {
      depth := |ws.changes|;
    }

    /** Pops the log, restoring each entry's previous value, until `depth` entries remain.
        A larger depth is a fatal bookkeeping error for the caller, excluded here. */
    method TrimToStackDepth(depth: nat)
      requires depth <= |ws.changes|
      modifies this
      ensures ws == Trimmed(old(ws), depth)
    {
      while |ws.changes| > depth
        invariant depth <= |ws.changes|
        invariant Trimmed(ws, depth) == Trimmed(old(ws), depth)
        decreases |ws.changes|
      {
        var last := ws.changes[|ws.changes| - 1];
        ws := State(ws.values[last.index := last.previous], ws.changes[..|ws.changes| - 1]);
      }
    }
  }
}
