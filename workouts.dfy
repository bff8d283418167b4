/** The workout data model shared by the server and the app: a set, an
    exercise inside a workout, a workout, and a catalog exercise, with the
    list transforms several screens and the store have in common. The set
    follows the server's shape (set number, weight, reps, optional RPE,
    warm-up flag); the active-workout screen adds an id and a completed
    flag, which are optional here. */
module Workouts {
  import opened Common

  datatype WorkoutSet = WorkoutSet(
    setId: Option<string>,
    setNumber: int,
    weight: real,
    reps: int,
    rpe: Option<int>,
    isWarmup: bool,
    completed: Option<bool>)

  /** A set as the server stores it: no id and no completed flag. */
  function ServerSet(setNumber: int, weight: real, reps: int, rpe: Option<int>, isWarmup: bool): WorkoutSet
  {
    WorkoutSet(None, setNumber, weight, reps, rpe, isWarmup, None)
  }

  /** A catalog exercise (the app's `Exercise` type and the server's
      exercise documents). */
  datatype Exercise = Exercise(
    id: string,
    exerciseId: string,
    name: string,
    category: string,
    muscleGroup: Option<string>,
    muscleGroups: seq<string>,
    equipmentRequired: seq<string>,
    isCompound: bool)

  /** One exercise inside a workout, with the sets logged for it. */
  datatype WorkoutExercise = WorkoutExercise(
    exerciseId: string,
    exerciseName: string,
    exercise: Option<Exercise>,
    sets: seq<WorkoutSet>,
    notes: Option<string>)

  datatype Workout = Workout(
    workoutId: string,
    name: string,
    date: string,
    exercises: seq<WorkoutExercise>,
    durationMinutes: Option<int>,
    notes: Option<string>,
    createdAt: string)

  // ---------------------------------------------------------------- working sets

  /** The sets that are not warm-ups, in their order. */
  function WorkingSets(sets: seq<WorkoutSet>): (r: seq<WorkoutSet>)
    ensures |r| <= |sets|
    ensures forall k :: 0 <= k < |r| ==> !r[k].isWarmup && r[k] in sets
    ensures forall s :: s in sets && !s.isWarmup ==> s in r
  {
    if sets == [] then []
    else if sets[0].isWarmup then WorkingSets(sets[1..])
    else [sets[0]] + WorkingSets(sets[1..])
  }

  lemma {:induction false} WorkingSetsAppend(a: seq<WorkoutSet>, b: seq<WorkoutSet>)
    ensures WorkingSets(a + b) == WorkingSets(a) + WorkingSets(b)
  {
    if a == [] {
      assert a + b == b;
    } else {
      assert (a + b)[0] == a[0];
      assert (a + b)[1..] == a[1..] + b;
      WorkingSetsAppend(a[1..], b);
    }
  }

  /** weight x reps summed over a list of sets (warm-ups included). */
  function Tonnage(sets: seq<WorkoutSet>): real
  {
    if sets == [] then 0.0 else sets[0].weight * sets[0].reps as real + Tonnage(sets[1..])
  }

  /** What one set contributes to the training volume: nothing for a warm-up. */
  function SetVolume(s: WorkoutSet): real
  {
    if s.isWarmup then 0.0 else s.weight * s.reps as real
  }

  /** The training volume of one exercise: weight x reps over its working sets. */
  function SetsVolume(sets: seq<WorkoutSet>): real
  {
    if sets == [] then 0.0 else SetVolume(sets[0]) + SetsVolume(sets[1..])
  }

  /** The training volume of a list of exercises (both the server's
      volume statistics and the app's `calculateWorkoutVolume` compute it). */
  function Volume(exercises: seq<WorkoutExercise>): real
  {
    if exercises == [] then 0.0 else SetsVolume(exercises[0].sets) + Volume(exercises[1..])
  }

  /** The volume of a set list is the tonnage of its working sets alone:
      a warm-up set adds nothing. */
  lemma {:induction false} SetsVolumeIsWorkingTonnage(sets: seq<WorkoutSet>)
    ensures SetsVolume(sets) == Tonnage(WorkingSets(sets))
  {
    if sets != [] {
      SetsVolumeIsWorkingTonnage(sets[1..]);
      if !sets[0].isWarmup {
        assert ([sets[0]] + WorkingSets(sets[1..]))[1..] == WorkingSets(sets[1..]);
      }
    }
  }

  /** Two set lists with the same working sets have the same volume, however
      many warm-up sets either holds. */
  lemma WarmupsAddNothing(a: seq<WorkoutSet>, b: seq<WorkoutSet>)
    requires WorkingSets(a) == WorkingSets(b)
    ensures SetsVolume(a) == SetsVolume(b)
  {
    SetsVolumeIsWorkingTonnage(a);
    SetsVolumeIsWorkingTonnage(b);
  }

  /** Adding one more set or exercise at the end adds its own volume: the
      shape a left-to-right accumulator needs. */
  lemma {:induction false} SetsVolumeSnoc(sets: seq<WorkoutSet>, s: WorkoutSet)
    ensures SetsVolume(sets + [s]) == SetsVolume(sets) + SetVolume(s)
  {
    if sets == [] {
      assert [s][1..] == [];
    } else {
      assert (sets + [s])[1..] == sets[1..] + [s];
      SetsVolumeSnoc(sets[1..], s);
    }
  }

  lemma {:induction false} VolumeSnoc(exercises: seq<WorkoutExercise>, e: WorkoutExercise)
    ensures Volume(exercises + [e]) == Volume(exercises) + SetsVolume(e.sets)
  {
    if exercises == [] {
      assert [e][1..] == [];
    } else {
      assert (exercises + [e])[1..] == exercises[1..] + [e];
      VolumeSnoc(exercises[1..], e);
    }
  }

  /** The number of working sets over a list of exercises. */
  function WorkingSetCount(exercises: seq<WorkoutExercise>): nat
  {
    if exercises == [] then 0 else |WorkingSets(exercises[0].sets)| + WorkingSetCount(exercises[1..])
  }

  // ---------------------------------------------------------------- list transforms

  /** `exercises.map(ex => ex.exercise_id === id ? { ...ex, sets } : ex)`:
      the sets of every exercise carrying the id are replaced. */
  function ReplaceSets(exercises: seq<WorkoutExercise>, id: string, sets: seq<WorkoutSet>): (r: seq<WorkoutExercise>)
    ensures |r| == |exercises|
    ensures forall i :: 0 <= i < |r| ==>
      r[i] == if exercises[i].exerciseId == id then exercises[i].(sets := sets) else exercises[i]
  {
    if exercises == [] then []
    else
      var head := if exercises[0].exerciseId == id then exercises[0].(sets := sets) else exercises[0];
      [head] + ReplaceSets(exercises[1..], id, sets)
  }

  /** `exercises.filter(ex => ex.exercise_id !== id)`. */
  function RemoveById(exercises: seq<WorkoutExercise>, id: string): (r: seq<WorkoutExercise>)
    ensures |r| <= |exercises|
    ensures forall e :: e in r <==> e in exercises && e.exerciseId != id
  {
    if exercises == [] then []
    else if exercises[0].exerciseId == id then RemoveById(exercises[1..], id)
    else [exercises[0]] + RemoveById(exercises[1..], id)
  }

  /** How many exercises carry an id. */
  function CountId(exercises: seq<WorkoutExercise>, id: string): nat
  {
    if exercises == [] then 0
    else (if exercises[0].exerciseId == id then 1 else 0) + CountId(exercises[1..], id)
  }

  /** Removal keeps the survivors in their order (it distributes over
      concatenation), drops exactly the exercises with the id, and is the
      identity when no exercise carries the id. */
  lemma {:induction false} RemoveByIdAppend(a: seq<WorkoutExercise>, b: seq<WorkoutExercise>, id: string)
    ensures RemoveById(a + b, id) == RemoveById(a, id) + RemoveById(b, id)
  {
    if a == [] {
      assert a + b == b;
    } else {
      assert (a + b)[0] == a[0];
      assert (a + b)[1..] == a[1..] + b;
      RemoveByIdAppend(a[1..], b, id);
    }
  }

  lemma {:induction false} RemoveByIdLength(exercises: seq<WorkoutExercise>, id: string)
    ensures |RemoveById(exercises, id)| == |exercises| - CountId(exercises, id)
  {
    if exercises != [] {
      RemoveByIdLength(exercises[1..], id);
    }
  }

  lemma {:induction false} RemoveAbsentId(exercises: seq<WorkoutExercise>, id: string)
    requires forall e :: e in exercises ==> e.exerciseId != id
    ensures RemoveById(exercises, id) == exercises
  {
    if exercises != [] {
      assert exercises == [exercises[0]] + exercises[1..];
      RemoveAbsentId(exercises[1..], id);
    }
  }
}
