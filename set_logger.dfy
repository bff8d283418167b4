/** The set-logging sheet: a local copy of an exercise's sets (one default
    set when it arrives empty) and the RPE chosen on the sheet. Sets are
    added by copying the last one, edited one field at a time, removed
    with renumbering (never below one set), and saved with the chosen RPE
    on every set. A warm-up request carries the first working weight. */
module SetLogger {
  import opened Common
  import opened Workouts

  /** The set shown when the sheet opens on an empty list. */
  const DefaultSet := WorkoutSet(None, 1, 0.0, 0, Some(7), false, None)

  /** The effect that resets the local copy when the sheet opens. */
  function InitSets(sets: seq<WorkoutSet>): (r: seq<WorkoutSet>)
    ensures sets == [] ==> r == [DefaultSet]
    ensures sets != [] ==> r == sets
    ensures |r| >= 1
  {
    if |sets| > 0 then sets else [DefaultSet]
  }

  /** `addSet`: a set numbered one past the length, with the last set's
      weight and reps (0 without one), RPE 7, not a warm-up. */
  function AddSet(sets: seq<WorkoutSet>): (r: seq<WorkoutSet>)
    ensures |r| == |sets| + 1 && r[..|sets|] == sets
    ensures var s := r[|sets|];
      s.setNumber == |sets| + 1 && s.rpe == Some(7) && !s.isWarmup &&
      s.weight == (if sets == [] then 0.0 else sets[|sets| - 1].weight) &&
      s.reps == (if sets == [] then 0 else sets[|sets| - 1].reps)
  {
    var weight := if sets == [] then 0.0 else sets[|sets| - 1].weight;
    var reps := if sets == [] then 0 else sets[|sets| - 1].reps;
    sets + [WorkoutSet(None, |sets| + 1, weight, reps, Some(7), false, None)]
  }

  /** The field an input row edits: weight or reps. */
  datatype FieldUpdate = Weight(weight: real) | Reps(reps: int)

  function Apply(s: WorkoutSet, u: FieldUpdate): WorkoutSet
  {
    match u
    case Weight(w) => s.(weight := w)
    case Reps(n) => s.(reps := n)
  }

  /** `filter((_, i) => i !== index)`: an index outside the list drops nothing. */
  function Without(sets: seq<WorkoutSet>, index: int): (r: seq<WorkoutSet>)
    ensures 0 <= index < |sets| ==> r == sets[..index] + sets[index + 1..]
    ensures !(0 <= index < |sets|) ==> r == sets
  {
    if 0 <= index < |sets| then sets[..index] + sets[index + 1..] else sets
  }

  /** `map((s, i) => ({ ...s, set_number: i + 1 }))`. */
  function Renumber(sets: seq<WorkoutSet>): (r: seq<WorkoutSet>)
    ensures |r| == |sets|
    ensures forall i :: 0 <= i < |r| ==> r[i] == sets[i].(setNumber := i + 1)
  {
    seq(|sets|, i requires 0 <= i < |sets| => sets[i].(setNumber := i + 1))
  }

  /** `removeSet`: with more than one set, the set goes and the rest are
      renumbered; a single set stays. */
  function RemoveSet(sets: seq<WorkoutSet>, index: int): (r: seq<WorkoutSet>)
    ensures |sets| <= 1 ==> r == sets
    ensures |sets| > 1 ==> r == Renumber(Without(sets, index))
  {
    if |sets| > 1 then Renumber(Without(sets, index)) else sets
  }

  function RpeAll(sets: seq<WorkoutSet>, rpe: int): (r: seq<WorkoutSet>)
    ensures |r| == |sets|
    ensures forall i :: 0 <= i < |r| ==> r[i] == sets[i].(rpe := Some(rpe))
  {
    seq(|sets|, i requires 0 <= i < |sets| => sets[i].(rpe := Some(rpe)))
  }

  /** A list numbered 1..n in order. */
  predicate NumberedInOrder(sets: seq<WorkoutSet>)
  {
    forall i :: 0 <= i < |sets| ==> sets[i].setNumber == i + 1
  }

  /** Removal never empties a non-empty list, leaves the sets numbered
      1..n, drops exactly one set for an index in range, and keeps every
      other field and the order of the survivors. */
  lemma RemoveSetShape(sets: seq<WorkoutSet>, index: int)
    requires |sets| >= 1
    ensures var r := RemoveSet(sets, index);
      |r| >= 1 &&
      (|sets| > 1 ==> NumberedInOrder(r)) &&
      (|sets| > 1 && 0 <= index < |sets| ==> |r| == |sets| - 1) &&
      (|sets| > 1 ==> forall i :: 0 <= i < |r| ==>
        r[i] == (if 0 <= index < |sets| && i >= index then sets[i + 1] else sets[i]).(setNumber := i + 1))
  {
  }

  /** Removing the set just added gives back the list, renumbered; on a list
      already numbered 1..n that is the list itself. */
  lemma RemoveUndoesAdd(sets: seq<WorkoutSet>)
    requires |sets| >= 1
    ensures RemoveSet(AddSet(sets), |sets|) == Renumber(sets)
    ensures NumberedInOrder(sets) ==> RemoveSet(AddSet(sets), |sets|) == sets
  {
    var added := AddSet(sets);
    assert Without(added, |sets|) == sets;
    if NumberedInOrder(sets) {
      assert forall i :: 0 <= i < |sets| ==> sets[i].(setNumber := i + 1) == sets[i];
    }
  }

  /** Adding to a list numbered 1..n keeps it numbered 1..n. */
  lemma AddKeepsNumbering(sets: seq<WorkoutSet>)
    requires NumberedInOrder(sets)
    ensures NumberedInOrder(AddSet(sets))
  {
    var r := AddSet(sets);
    assert forall i :: 0 <= i < |sets| ==> r[i] == sets[i];
  }

  /** Saving twice with the same RPE is saving once; every saved set
      carries the chosen RPE. */
  lemma RpeAllIdempotent(sets: seq<WorkoutSet>, rpe: int)
    ensures RpeAll(RpeAll(sets, rpe), rpe) == RpeAll(sets, rpe)
    ensures forall i :: 0 <= i < |sets| ==> RpeAll(sets, rpe)[i].rpe == Some(rpe)
  {
  }

  /** Set i is the first one that is not a warm-up. */
  predicate FirstWorking(sets: seq<WorkoutSet>, i: int)
  {
    0 <= i < |sets| && !sets[i].isWarmup && forall k :: 0 <= k < i ==> sets[k].isWarmup
  }

  /** `find(s => !s.is_warmup)`. */
  function FirstWorkingIndex(sets: seq<WorkoutSet>): (r: Option<nat>)
    ensures r.None? <==> forall i :: 0 <= i < |sets| ==> sets[i].isWarmup
    ensures r.Some? ==> FirstWorking(sets, r.value)
  {
    if sets == [] then None
    else if !sets[0].isWarmup then Some(0)
    else
      var rest := FirstWorkingIndex(sets[1..]);
      assert forall i :: 1 <= i < |sets| ==> sets[i] == sets[1..][i - 1];
      if rest.Some? then Some(rest.value + 1) else None
  }

  /** `getWarmupSets`: the weight of the first set that is not a warm-up
      (0 when there is none) is sent when it is positive and a callback is
      present; otherwise nothing is sent. */
  function WarmupRequest(sets: seq<WorkoutSet>, hasCallback: bool): (r: Option<real>)
    ensures r.Some? <==> (hasCallback && exists i :: FirstWorking(sets, i) && sets[i].weight > 0.0)
    ensures r.Some? ==> r.value > 0.0 && exists i :: FirstWorking(sets, i) && sets[i].weight == r.value
  {
    var first := FirstWorkingIndex(sets);
    var w := if first.Some? then sets[first.value].weight else 0.0;
    assert forall i, j :: FirstWorking(sets, i) && FirstWorking(sets, j) ==> i == j;
    if w > 0.0 && hasCallback then Some(w) else None
  }

  /** The sheet's component state. */
  class Sheet {
    var localSets: seq<WorkoutSet>
    var rpe: int

    /** Opening the sheet on the incoming sets, with RPE 7. */
    constructor (sets: seq<WorkoutSet>)
      ensures localSets == InitSets(sets) && rpe == 7
    {
      localSets := InitSets(sets);
      rpe := 7;
    }

    /** The effect re-run when the incoming sets or visibility change; the
        chosen RPE is kept. */
    method Reset(sets: seq<WorkoutSet>)
      modifies this
      ensures localSets == InitSets(sets) && rpe == old(rpe)
    {
      localSets := InitSets(sets);
    }

    method AddSetPressed()
      modifies this
      ensures localSets == AddSet(old(localSets)) && rpe == old(rpe)
    {
      localSets := AddSet(localSets);
    }

    /** `updateSet`: the copy gets the one field of the row changed. */
    method UpdateSet(index: nat, u: FieldUpdate)
      requires index < |localSets|
      modifies this
      ensures localSets == old(localSets)[index := Apply(old(localSets)[index], u)] && rpe == old(rpe)
    {
      var updated := localSets;
      updated := updated[index := Apply(updated[index], u)];
      localSets := updated;
    }

    method RemoveSetPressed(index: int)
      modifies this
      ensures localSets == RemoveSet(old(localSets), index) && rpe == old(rpe)
    {
      localSets := RemoveSet(localSets, index);
    }

    /** One of the RPE buttons. */
    method SetRpe(value: int)
      modifies this
      ensures rpe == value && localSets == old(localSets)
    {
      rpe := value;
    }

    /** `handleSave`: the list handed to the caller. */
    method HandleSave() returns (saved: seq<WorkoutSet>)
      ensures saved == RpeAll(localSets, rpe)
    {
      saved := RpeAll(localSets, rpe);
    }

    method GetWarmupSets(hasCallback: bool) returns (request: Option<real>)
      ensures request == WarmupRequest(localSets, hasCallback)
    {
      request := WarmupRequest(localSets, hasCallback);
    }
  }

  /** Editing a row changes that one field of that one set. */
  lemma UpdateChangesOneField(sets: seq<WorkoutSet>, index: nat, u: FieldUpdate)
    requires index < |sets|
    ensures var r := sets[index := Apply(sets[index], u)];
      |r| == |sets| &&
      (forall i :: 0 <= i < |r| && i != index ==> r[i] == sets[i]) &&
      (u.Weight? ==> r[index] == sets[index].(weight := u.weight)) &&
      (u.Reps? ==> r[index] == sets[index].(reps := u.reps))
  {
  }
}
