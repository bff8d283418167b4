/** The app's in-memory workout store: the loaded workouts, the workout
    being edited (if any), the exercise catalog and a loading flag. Each
    setter replaces its own field; the three exercise actions rebuild the
    current workout's exercise list and do nothing without one. */
module WorkoutStore {
  import opened Common
  import opened Workouts

  class Store {
    var workouts: seq<Workout>
    var currentWorkout: Option<Workout>
    var exercises: seq<Exercise>
    var isLoading: bool

    /** The store as it is created: empty lists, no current workout, not loading. */
    constructor ()
      ensures workouts == [] && currentWorkout == None && exercises == [] && !isLoading
    {
      workouts := [];
      currentWorkout := None;
      exercises := [];
      isLoading := false;
    }

    method SetWorkouts(ws: seq<Workout>)
      modifies this
      ensures workouts == ws
      ensures currentWorkout == old(currentWorkout) && exercises == old(exercises) && isLoading == old(isLoading)
    {
      workouts := ws;
    }

    method SetCurrentWorkout(w: Option<Workout>)
      modifies this
      ensures currentWorkout == w
      ensures workouts == old(workouts) && exercises == old(exercises) && isLoading == old(isLoading)
    {
      currentWorkout := w;
    }

    method SetExercises(exs: seq<Exercise>)
      modifies this
      ensures exercises == exs
      ensures workouts == old(workouts) && currentWorkout == old(currentWorkout) && isLoading == old(isLoading)
    {
      exercises := exs;
    }

    method SetLoading(loading: bool)
      modifies this
      ensures isLoading == loading
      ensures workouts == old(workouts) && currentWorkout == old(currentWorkout) && exercises == old(exercises)
    {
      isLoading := loading;
    }

    /** `addExerciseToWorkout`: the exercise goes at the end, the earlier
        ones and every other field stay. */
    method AddExerciseToWorkout(exercise: WorkoutExercise)
      modifies this
      ensures old(currentWorkout).None? ==> currentWorkout == None
      ensures old(currentWorkout).Some? ==>
        currentWorkout == Some(old(currentWorkout).value.(exercises := old(currentWorkout).value.exercises + [exercise]))
      ensures workouts == old(workouts) && exercises == old(exercises) && isLoading == old(isLoading)
    {
      if currentWorkout.Some? {
        var current := currentWorkout.value;
        currentWorkout := Some(current.(exercises := current.exercises + [exercise]));
      }
    }

    /** `updateExerciseInWorkout`: the sets of every exercise with the id
        are replaced; the list keeps its length and the other exercises. */
    method UpdateExerciseInWorkout(exerciseId: string, sets: seq<WorkoutSet>)
      modifies this
      ensures old(currentWorkout).None? ==> currentWorkout == None
      ensures old(currentWorkout).Some? ==>
        currentWorkout == Some(old(currentWorkout).value.(exercises := ReplaceSets(old(currentWorkout).value.exercises, exerciseId, sets)))
      ensures workouts == old(workouts) && exercises == old(exercises) && isLoading == old(isLoading)
    {
      if currentWorkout.Some? {
        var current := currentWorkout.value;
        currentWorkout := Some(current.(exercises := ReplaceSets(current.exercises, exerciseId, sets)));
      }
    }

    /** `removeExerciseFromWorkout`: every exercise with the id goes, the
        survivors keep their order. */
    method RemoveExerciseFromWorkout(exerciseId: string)
      modifies this
      ensures old(currentWorkout).None? ==> currentWorkout == None
      ensures old(currentWorkout).Some? ==>
        currentWorkout == Some(old(currentWorkout).value.(exercises := RemoveById(old(currentWorkout).value.exercises, exerciseId)))
      ensures workouts == old(workouts) && exercises == old(exercises) && isLoading == old(isLoading)
    {
      if currentWorkout.Some? {
        var current := currentWorkout.value;
        currentWorkout := Some(current.(exercises := RemoveById(current.exercises, exerciseId)));
      }
    }
  }

  /** Updating the sets of an exercise and then removing it is removing it. */
  lemma {:induction false} UpdateThenRemove(es: seq<WorkoutExercise>, id: string, sets: seq<WorkoutSet>)
    ensures RemoveById(ReplaceSets(es, id, sets), id) == RemoveById(es, id)
  {
    if es != [] {
      UpdateThenRemove(es[1..], id, sets);
      assert ReplaceSets(es, id, sets)[1..] == ReplaceSets(es[1..], id, sets);
    }
  }

  /** Adding an exercise and then removing its id leaves the earlier list
      without that id. */
  lemma AddThenRemove(es: seq<WorkoutExercise>, e: WorkoutExercise)
    ensures RemoveById(es + [e], e.exerciseId) == RemoveById(es, e.exerciseId)
  {
    RemoveByIdAppend(es, [e], e.exerciseId);
    assert RemoveById([e], e.exerciseId) == [];
  }

  /** Updating leaves the exercises with other ids as they were, and the
      exercises with the id carry the new sets. */
  lemma UpdateOnlyTouchesTheId(es: seq<WorkoutExercise>, id: string, sets: seq<WorkoutSet>)
    ensures var r := ReplaceSets(es, id, sets);
      RemoveById(r, id) == RemoveById(es, id) &&
      forall i :: 0 <= i < |r| && r[i].exerciseId == id ==> r[i].sets == sets
  {
    UpdateThenRemove(es, id, sets);
  }
}
