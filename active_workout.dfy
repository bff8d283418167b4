/** The active-workout screen: a working copy of the current workout's
    exercises, a picker offering catalog exercises not yet in the workout,
    and per-exercise set editing (append a blank set, change one value of
    one set, drop an exercise). The catalog and the clock are inputs. */
module ActiveWorkout {
  import opened Common
  import opened Workouts

  /** `availableExercises`: catalog entries whose id no listed exercise
      carries and whose name or muscle group contains the search text,
      ignoring case. */
  predicate Offered(ex: Exercise, list: seq<WorkoutExercise>, search: string)
  {
    (forall k :: 0 <= k < |list| ==> list[k].exerciseId != ex.id) &&
    (ContainsIgnoringCase(ex.name, search) ||
     (ex.muscleGroup.Some? && ContainsIgnoringCase(ex.muscleGroup.value, search)))
  }

  function Available(catalog: seq<Exercise>, list: seq<WorkoutExercise>, search: string): (r: seq<Exercise>)
    ensures |r| <= |catalog|
    ensures forall ex :: ex in r <==> ex in catalog && Offered(ex, list, search)
  {
    if catalog == [] then []
    else (if Offered(catalog[0], list, search) then [catalog[0]] else []) + Available(catalog[1..], list, search)
  }

  /** The filter keeps the list's order: filtering a concatenation is
      filtering each part. */
  lemma {:induction false} AvailableAppend(a: seq<Exercise>, b: seq<Exercise>, list: seq<WorkoutExercise>, search: string)
    ensures Available(a + b, list, search) == Available(a, list, search) + Available(b, list, search)
  {
    if a == [] {
      assert a + b == b;
    } else {
      assert (a + b)[0] == a[0];
      assert (a + b)[1..] == a[1..] + b;
      AvailableAppend(a[1..], b, list, search);
    }
  }

  /** The entry `handleAddExercise` appends: the catalog id (or the
      exercise id when that is empty), the name, the catalog entry, no sets. */
  function Entry(ex: Exercise): (e: WorkoutExercise)
    ensures e.exerciseId == (if ex.id != "" then ex.id else ex.exerciseId)
    ensures e.exerciseName == ex.name && e.exercise == Some(ex) && e.sets == []
  {
    WorkoutExercise(if ex.id != "" then ex.id else ex.exerciseId, ex.name, Some(ex), [], None)
  }

  /** Once added, an exercise with an id is no longer offered. */
  lemma AddedIsNotOffered(catalog: seq<Exercise>, list: seq<WorkoutExercise>, ex: Exercise, search: string)
    requires ex.id != ""
    ensures ex !in Available(catalog, list + [Entry(ex)], search)
  {
    var after := list + [Entry(ex)];
    assert after[|list|].exerciseId == ex.id;
  }

  /** `exerciseList.find(ex => ex.exercise_id === id)`, as a position. */
  function FindEntry(list: seq<WorkoutExercise>, id: string): (r: Option<nat>)
    ensures r.None? <==> forall k :: 0 <= k < |list| ==> list[k].exerciseId != id
    ensures r.Some? ==> (r.value < |list| && list[r.value].exerciseId == id &&
      forall k :: 0 <= k < r.value ==> list[k].exerciseId != id)
  {
    if list == [] then None
    else if list[0].exerciseId == id then Some(0)
    else
      var rest := FindEntry(list[1..], id);
      assert forall k :: 1 <= k < |list| ==> list[k] == list[1..][k - 1];
      if rest.Some? then Some(rest.value + 1) else None
  }

  /** The blank set `addSet` creates. */
  function NewSet(setNumber: int, nowMs: nat): WorkoutSet
  {
    WorkoutSet(Some("set_" + NatToString(nowMs)), setNumber, 0.0, 0, None, false, Some(false))
  }

  /** Each exercise with the id gets the set appended. */
  function AppendToMatching(list: seq<WorkoutExercise>, id: string, s: WorkoutSet): (r: seq<WorkoutExercise>)
    ensures |r| == |list|
    ensures forall k :: 0 <= k < |r| ==>
      r[k] == if list[k].exerciseId == id then list[k].(sets := list[k].sets + [s]) else list[k]
  {
    seq(|list|, k requires 0 <= k < |list| =>
      if list[k].exerciseId == id then list[k].(sets := list[k].sets + [s]) else list[k])
  }

  /** `addSet`: without an exercise of that id nothing changes; otherwise a
      blank set numbered one past the first such exercise's sets is
      appended to every exercise with the id. */
  function AddSet(list: seq<WorkoutExercise>, id: string, nowMs: nat): (r: seq<WorkoutExercise>)
    ensures |r| == |list|
    ensures FindEntry(list, id).None? ==> r == list
    ensures forall k :: 0 <= k < |list| && list[k].exerciseId != id ==> r[k] == list[k]
    ensures forall k :: 0 <= k < |list| && list[k].exerciseId == id ==>
      |r[k].sets| == |list[k].sets| + 1 && r[k].sets[..|list[k].sets|] == list[k].sets
  {
    match FindEntry(list, id)
    case None => list
    case Some(i) => AppendToMatching(list, id, NewSet(|list[i].sets| + 1, nowMs))
  }

  /** With one exercise of that id, exactly that exercise gains one set:
      number length + 1, weight and reps 0, no RPE, not completed, not a
      warm-up; every other exercise is unchanged. */
  lemma AddSetShape(list: seq<WorkoutExercise>, id: string, nowMs: nat, i: nat)
    requires i < |list| && list[i].exerciseId == id
    requires forall k :: 0 <= k < |list| && k != i ==> list[k].exerciseId != id
    ensures var r := AddSet(list, id, nowMs);
      |r| == |list| &&
      (forall k :: 0 <= k < |list| && k != i ==> r[k] == list[k]) &&
      r[i].sets[..|list[i].sets|] == list[i].sets &&
      r[i] == list[i].(sets := r[i].sets) &&
      var s := r[i].sets[|list[i].sets|];
      |r[i].sets| == |list[i].sets| + 1 &&
      s.setNumber == |list[i].sets| + 1 && s.weight == 0.0 && s.reps == 0 &&
      s.rpe == None && s.completed == Some(false) && !s.isWarmup
  {
    var found := FindEntry(list, id);
    assert found == Some(i);
  }

  /** A value typed into one of a set's three inputs. */
  datatype SetValue = WeightTo(weight: real) | RepsTo(reps: int) | RpeTo(rpe: int)

  function SetField(s: WorkoutSet, v: SetValue): WorkoutSet
  {
    match v
    case WeightTo(w) => s.(weight := w)
    case RepsTo(n) => s.(reps := n)
    case RpeTo(p) => s.(rpe := Some(p))
  }

  /** `sets.map((set, idx) => idx === setIdx ? {...set, [field]: value} : set)`:
      a position outside the list changes nothing. */
  function UpdateAt(sets: seq<WorkoutSet>, index: int, v: SetValue): (r: seq<WorkoutSet>)
    ensures |r| == |sets|
    ensures forall k :: 0 <= k < |r| ==> r[k] == if k == index then SetField(sets[k], v) else sets[k]
  {
    seq(|sets|, k requires 0 <= k < |sets| => if k == index then SetField(sets[k], v) else sets[k])
  }

  /** `updateSet`: the first exercise with the id supplies the sets; the
      edited list is then given to every exercise with the id. */
  function UpdateSet(list: seq<WorkoutExercise>, id: string, index: int, v: SetValue): (r: seq<WorkoutExercise>)
    ensures |r| == |list|
    ensures FindEntry(list, id).None? ==> r == list
    ensures forall k :: 0 <= k < |list| && list[k].exerciseId != id ==> r[k] == list[k]
    ensures forall j, k :: 0 <= j < |list| && 0 <= k < |list| && list[j].exerciseId == id && list[k].exerciseId == id ==>
      r[j].sets == r[k].sets
    ensures forall k :: 0 <= k < |list| && list[k].exerciseId == id ==> r[k] == list[k].(sets := r[k].sets)
  {
    match FindEntry(list, id)
    case None => list
    case Some(i) => ReplaceSets(list, id, UpdateAt(list[i].sets, index, v))
  }

  /** With one exercise of that id, the edit changes one field of one set
      of that exercise and nothing else. */
  lemma UpdateSetChangesOneValue(list: seq<WorkoutExercise>, id: string, index: nat, v: SetValue, i: nat)
    requires i < |list| && list[i].exerciseId == id && index < |list[i].sets|
    requires forall k :: 0 <= k < |list| && k != i ==> list[k].exerciseId != id
    ensures var r := UpdateSet(list, id, index, v);
      |r| == |list| &&
      (forall k :: 0 <= k < |list| && k != i ==> r[k] == list[k]) &&
      r[i] == list[i].(sets := list[i].sets[index := SetField(list[i].sets[index], v)])
  {
    var found := FindEntry(list, id);
    assert found == Some(i);
    var updated := UpdateAt(list[i].sets, index, v);
    assert updated == list[i].sets[index := SetField(list[i].sets[index], v)];
  }

  /** Duplicated ids share the first one's edited sets. */
  lemma UpdateSetCopiesFirst(list: seq<WorkoutExercise>, id: string, index: int, v: SetValue, i: nat, j: nat)
    requires i < j < |list| && list[i].exerciseId == id && list[j].exerciseId == id
    requires forall k :: 0 <= k < i ==> list[k].exerciseId != id
    ensures UpdateSet(list, id, index, v)[j].sets == UpdateAt(list[i].sets, index, v)
  {
    assert FindEntry(list, id) == Some(i);
  }

  /** The screen's state. */
  class Screen {
    var exerciseList: seq<WorkoutExercise>
    var addModalVisible: bool
    var search: string

    /** The copy starts as the current workout's exercises, or empty. */
    constructor (current: Option<Workout>)
      ensures exerciseList == (if current.Some? then current.value.exercises else [])
      ensures !addModalVisible && search == ""
    {
      exerciseList := if current.Some? then current.value.exercises else [];
      addModalVisible := false;
      search := "";
    }

    method HandleAddExercise(ex: Exercise)
      modifies this
      ensures exerciseList == old(exerciseList) + [Entry(ex)]
      ensures !addModalVisible && search == ""
    {
      exerciseList := exerciseList + [Entry(ex)];
      addModalVisible := false;
      search := "";
    }

    method AddSetPressed(exerciseId: string, nowMs: nat)
      modifies this
      ensures exerciseList == AddSet(old(exerciseList), exerciseId, nowMs)
      ensures addModalVisible == old(addModalVisible) && search == old(search)
    {
      var found := FindEntry(exerciseList, exerciseId);
      if found.None? {
        return;
      }
      var exercise := exerciseList[found.value];
      var newSet := NewSet(|exercise.sets| + 1, nowMs);
      exerciseList := AppendToMatching(exerciseList, exerciseId, newSet);
    }

    /** `removeExercise`: the exercises with the id go, the rest keep their order. */
    method RemoveExercise(exerciseId: string)
      modifies this
      ensures exerciseList == RemoveById(old(exerciseList), exerciseId)
      ensures addModalVisible == old(addModalVisible) && search == old(search)
    {
      exerciseList := RemoveById(exerciseList, exerciseId);
    }

    method UpdateSetValue(exerciseId: string, setIdx: int, v: SetValue)
      modifies this
      ensures exerciseList == UpdateSet(old(exerciseList), exerciseId, setIdx, v)
      ensures addModalVisible == old(addModalVisible) && search == old(search)
    {
      var found := FindEntry(exerciseList, exerciseId);
      if found.None? {
        return;
      }
      var sets := UpdateAt(exerciseList[found.value].sets, setIdx, v);
      exerciseList := ReplaceSets(exerciseList, exerciseId, sets);
    }

    function Offers(catalog: seq<Exercise>): (r: seq<Exercise>)
      reads this
      ensures forall ex :: ex in r ==> ex in catalog && Offered(ex, exerciseList, search)
    {
      Available(catalog, exerciseList, search)
    }
  }
}
