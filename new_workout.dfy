/** The new-workout screen: the exercise picker (category chips and a
    search box), the list of exercises being planned, the set logger for
    the selected exercise, the warm-up merge, and the guard in front of
    saving. The exercise catalog and the warm-up calculation arrive from
    outside. */
module NewWorkout {
  import opened Common
  import opened Workouts
  import SetLogger

  /** `filteredExercises`. */
  function FilterExercises(available: seq<Exercise>, selected: string, search: string): (r: seq<Exercise>)
    ensures |r| <= |available|
    ensures forall ex :: ex in r <==>
      ex in available && MatchesCategoryAndSearch(ex.category, ex.name, selected, search)
  {
    if available == [] then []
    else
      var ex := available[0];
      (if MatchesCategoryAndSearch(ex.category, ex.name, selected, search) then [ex] else [])
        + FilterExercises(available[1..], selected, search)
  }

  /** The filter keeps the list's order: filtering a concatenation is
      filtering each part. */
  lemma {:induction false} FilterExercisesAppend(a: seq<Exercise>, b: seq<Exercise>, selected: string, search: string)
    ensures FilterExercises(a + b, selected, search) == FilterExercises(a, selected, search) + FilterExercises(b, selected, search)
  {
    if a == [] {
      assert a + b == b;
    } else {
      assert (a + b)[0] == a[0];
      assert (a + b)[1..] == a[1..] + b;
      FilterExercisesAppend(a[1..], b, selected, search);
    }
  }

  /** With "all" selected and nothing typed, the picker shows the whole catalog. */
  lemma {:induction false} NoFilterShowsAll(available: seq<Exercise>)
    ensures FilterExercises(available, "all", "") == available
  {
    if available != [] {
      NoFilterShowsAll(available[1..]);
      assert available == [available[0]] + available[1..];
    }
  }

  /** The entry `addExercise` creates: the catalog id and name, no sets. */
  function NewEntry(ex: Exercise): (e: WorkoutExercise)
    ensures e.exerciseId == ex.exerciseId && e.exerciseName == ex.name && e.sets == []
  {
    WorkoutExercise(ex.exerciseId, ex.name, None, [], None)
  }

  /** One warm-up set as the warm-up calculation returns it. */
  datatype WarmupEntry = WarmupEntry(setNumber: int, weight: real, reps: int)

  /** The warm-up entries as sets: marked warm-up, without RPE. */
  function AsWarmupSets(entries: seq<WarmupEntry>): (r: seq<WorkoutSet>)
    ensures |r| == |entries|
    ensures forall i :: 0 <= i < |r| ==>
      r[i] == WorkoutSet(None, entries[i].setNumber, entries[i].weight, entries[i].reps, None, true, None)
  {
    seq(|entries|, i requires 0 <= i < |entries| =>
      WorkoutSet(None, entries[i].setNumber, entries[i].weight, entries[i].reps, None, true, None))
  }

  /** `handleRequestWarmup`'s merge: the new warm-ups, then the old sets
      that are not warm-ups, numbered 1..n. */
  function MergeWarmups(entries: seq<WarmupEntry>, sets: seq<WorkoutSet>): (r: seq<WorkoutSet>)
    ensures |r| == |entries| + |WorkingSets(sets)|
  {
    SetLogger.Renumber(AsWarmupSets(entries) + WorkingSets(sets))
  }

  lemma {:induction false} NoWorkingSets(sets: seq<WorkoutSet>)
    requires forall i :: 0 <= i < |sets| ==> sets[i].isWarmup
    ensures WorkingSets(sets) == []
  {
    if sets != [] {
      assert forall i :: 0 <= i < |sets[1..]| ==> sets[1..][i] == sets[i + 1];
      NoWorkingSets(sets[1..]);
    }
  }

  lemma {:induction false} OnlyWorkingSets(sets: seq<WorkoutSet>)
    requires forall i :: 0 <= i < |sets| ==> !sets[i].isWarmup
    ensures WorkingSets(sets) == sets
  {
    if sets != [] {
      assert forall i :: 0 <= i < |sets[1..]| ==> sets[1..][i] == sets[i + 1];
      OnlyWorkingSets(sets[1..]);
      assert sets == [sets[0]] + sets[1..];
    }
  }

  /** The merge puts the warm-ups first, with the calculated weight and
      reps, then exactly the old working sets in their order; old warm-ups
      are gone and the numbers run 1..n. */
  lemma MergeShape(entries: seq<WarmupEntry>, sets: seq<WorkoutSet>)
    ensures var r := MergeWarmups(entries, sets);
      var working := WorkingSets(sets);
      |r| == |entries| + |working| &&
      SetLogger.NumberedInOrder(r) &&
      (forall i :: 0 <= i < |entries| ==>
        r[i].isWarmup && r[i].weight == entries[i].weight && r[i].reps == entries[i].reps && r[i].rpe == None) &&
      (forall i :: 0 <= i < |working| ==> r[|entries| + i] == working[i].(setNumber := |entries| + i + 1)) &&
      WorkingSets(r) == r[|entries|..]
  {
    MergeEntries(entries, sets);
    MergeKeepsWorking(entries, sets);
  }

  lemma MergeEntries(entries: seq<WarmupEntry>, sets: seq<WorkoutSet>)
    ensures var r := MergeWarmups(entries, sets);
      var working := WorkingSets(sets);
      |r| == |entries| + |working| &&
      SetLogger.NumberedInOrder(r) &&
      (forall i :: 0 <= i < |entries| ==>
        r[i].isWarmup && r[i].weight == entries[i].weight && r[i].reps == entries[i].reps && r[i].rpe == None) &&
      (forall i :: 0 <= i < |working| ==> r[|entries| + i] == working[i].(setNumber := |entries| + i + 1))
  {
    MergeFront(entries, sets);
    MergeBack(entries, sets);
  }

  lemma MergeFront(entries: seq<WarmupEntry>, sets: seq<WorkoutSet>)
    ensures var r := MergeWarmups(entries, sets);
      |r| == |entries| + |WorkingSets(sets)| &&
      SetLogger.NumberedInOrder(r) &&
      (forall i :: 0 <= i < |entries| ==>
        r[i].isWarmup && r[i].weight == entries[i].weight && r[i].reps == entries[i].reps && r[i].rpe == None)
  {
    var joined := AsWarmupSets(entries) + WorkingSets(sets);
    assert forall i :: 0 <= i < |entries| ==> joined[i] == AsWarmupSets(entries)[i];
  }

  lemma MergeBack(entries: seq<WarmupEntry>, sets: seq<WorkoutSet>)
    ensures var r := MergeWarmups(entries, sets);
      var working := WorkingSets(sets);
      |r| == |entries| + |working| &&
      (forall i :: 0 <= i < |working| ==> r[|entries| + i] == working[i].(setNumber := |entries| + i + 1))
  {
    var working := WorkingSets(sets);
    var joined := AsWarmupSets(entries) + working;
    var r := SetLogger.Renumber(joined);
    assert r == MergeWarmups(entries, sets);
    forall i | 0 <= i < |working|
      ensures r[|entries| + i] == working[i].(setNumber := |entries| + i + 1)
    {
      assert joined[|entries| + i] == working[i];
      assert r[|entries| + i] == joined[|entries| + i].(setNumber := |entries| + i + 1);
    }
  }

  /** The first |entries| sets of the merge are warm-ups. */
  lemma MergeFrontWarm(entries: seq<WarmupEntry>, sets: seq<WorkoutSet>)
    ensures var r := MergeWarmups(entries, sets);
      |entries| <= |r| && forall i :: 0 <= i < |entries| ==> r[..|entries|][i].isWarmup
  {
    MergeFront(entries, sets);
    var r := MergeWarmups(entries, sets);
    forall i | 0 <= i < |entries|
      ensures r[..|entries|][i].isWarmup
    {
      assert r[..|entries|][i] == r[i];
    }
  }

  /** The sets after them are not. */
  lemma MergeBackWorking(entries: seq<WarmupEntry>, sets: seq<WorkoutSet>)
    ensures var r := MergeWarmups(entries, sets);
      |entries| <= |r| && forall i :: 0 <= i < |r| - |entries| ==> !r[|entries|..][i].isWarmup
  {
    MergeBack(entries, sets);
    var r := MergeWarmups(entries, sets);
    var working := WorkingSets(sets);
    forall i | 0 <= i < |r| - |entries|
      ensures !r[|entries|..][i].isWarmup
    {
      assert r[|entries|..][i] == r[|entries| + i];
      assert r[|entries| + i] == working[i].(setNumber := |entries| + i + 1);
      assert working[i] in working;
    }
  }

  lemma MergeKeepsWorking(entries: seq<WarmupEntry>, sets: seq<WorkoutSet>)
    ensures var r := MergeWarmups(entries, sets);
      |entries| <= |r| && WorkingSets(r) == r[|entries|..]
  {
    MergeFrontWarm(entries, sets);
    MergeBackWorking(entries, sets);
    var r := MergeWarmups(entries, sets);
    var front := r[..|entries|];
    var back := r[|entries|..];
    assert front + back == r;
    NoWorkingSets(front);
    OnlyWorkingSets(back);
    WorkingSetsAppend(front, back);
  }

  /** Asking for warm-ups twice does not stack them: merging the same
      warm-ups into a merged list gives the same list. */
  lemma MergeIdempotent(entries: seq<WarmupEntry>, sets: seq<WorkoutSet>)
    ensures MergeWarmups(entries, MergeWarmups(entries, sets)) == MergeWarmups(entries, sets)
  {
    var r := MergeWarmups(entries, sets);
    MergeShape(entries, sets);
    MergeShape(entries, r);
    var again := MergeWarmups(entries, r);
    assert |again| == |r|;
    forall i | 0 <= i < |r|
      ensures again[i] == r[i]
    {
      if i >= |entries| {
        var k := i - |entries|;
        assert WorkingSets(r)[k] == r[i];
      }
    }
  }

  /** What `saveWorkout` sends once the guard passes. */
  datatype SaveRequest = SaveRequest(name: string, exercises: seq<WorkoutExercise>, date: string)

  /** The guard and payload of `saveWorkout`: an empty plan is refused with
      the alert's text; otherwise the name, the exercises and the moment of
      saving go out. */
  function SaveWorkout(name: string, exercises: seq<WorkoutExercise>, nowIso: string): (r: Result<SaveRequest, string>)
    ensures r.Failure? <==> exercises == []
    ensures r.Failure? ==> r.error == "Please add at least one exercise"
    ensures r.Success? ==> r.value.exercises == exercises && r.value.name == name && r.value.date == nowIso
  {
    if |exercises| == 0 then Failure("Please add at least one exercise")
    else Success(SaveRequest(name, exercises, nowIso))
  }

  /** The screen's state. */
  class Screen {
    var workoutName: string
    var exercises: seq<WorkoutExercise>
    var available: seq<Exercise>
    var selectedCategory: string
    var showExercisePicker: bool
    var selectedExercise: Option<WorkoutExercise>
    var showSetLogger: bool
    var searchQuery: string

    /** The screen as it opens. */
    constructor ()
      ensures workoutName == "Workout" && exercises == [] && available == []
      ensures selectedCategory == "all" && !showExercisePicker && selectedExercise == None
      ensures !showSetLogger && searchQuery == ""
    {
      workoutName := "Workout";
      exercises := [];
      available := [];
      selectedCategory := "all";
      showExercisePicker := false;
      selectedExercise := None;
      showSetLogger := false;
      searchQuery := "";
    }

    /** The catalog once it has been fetched. */
    method SetAvailable(catalog: seq<Exercise>)
      modifies this
      ensures available == catalog
      ensures exercises == old(exercises) && selectedExercise == old(selectedExercise)
      ensures workoutName == old(workoutName) && selectedCategory == old(selectedCategory) && searchQuery == old(searchQuery)
      ensures showExercisePicker == old(showExercisePicker) && showSetLogger == old(showSetLogger)
    {
      available := catalog;
    }

    function Filtered(): (r: seq<Exercise>)
      reads this
      ensures forall ex :: ex in r ==> ex in available
    {
      FilterExercises(available, selectedCategory, searchQuery)
    }

    /** `addExercise`: one entry at the end; the picker closes and the
        search box clears. */
    method AddExercise(ex: Exercise)
      modifies this
      ensures exercises == old(exercises) + [NewEntry(ex)]
      ensures !showExercisePicker && searchQuery == ""
      ensures selectedExercise == old(selectedExercise) && available == old(available)
      ensures selectedCategory == old(selectedCategory) && workoutName == old(workoutName)
      ensures showSetLogger == old(showSetLogger)
    {
      exercises := exercises + [NewEntry(ex)];
      showExercisePicker := false;
      searchQuery := "";
    }

    /** `removeExercise`. */
    method RemoveExercise(exerciseId: string)
      modifies this
      ensures exercises == RemoveById(old(exercises), exerciseId)
      ensures selectedExercise == old(selectedExercise) && available == old(available)
      ensures workoutName == old(workoutName) && selectedCategory == old(selectedCategory) && searchQuery == old(searchQuery)
      ensures showExercisePicker == old(showExercisePicker) && showSetLogger == old(showSetLogger)
    {
      exercises := RemoveById(exercises, exerciseId);
    }

    /** `handleExercisePress`. */
    method SelectExercise(e: WorkoutExercise)
      modifies this
      ensures selectedExercise == Some(e) && showSetLogger
      ensures exercises == old(exercises) && available == old(available)
      ensures workoutName == old(workoutName) && selectedCategory == old(selectedCategory) && searchQuery == old(searchQuery)
      ensures showExercisePicker == old(showExercisePicker)
    {
      selectedExercise := Some(e);
      showSetLogger := true;
    }

    /** `handleSaveSets`: without a selected exercise nothing happens;
        otherwise the sets go on every entry with its id and on the
        selection. */
    method HandleSaveSets(sets: seq<WorkoutSet>)
      modifies this
      ensures old(selectedExercise).None? ==> exercises == old(exercises) && selectedExercise == None
      ensures old(selectedExercise).Some? ==>
        exercises == ReplaceSets(old(exercises), old(selectedExercise).value.exerciseId, sets) &&
        selectedExercise == Some(old(selectedExercise).value.(sets := sets))
      ensures available == old(available) && workoutName == old(workoutName)
      ensures selectedCategory == old(selectedCategory) && searchQuery == old(searchQuery)
      ensures showExercisePicker == old(showExercisePicker) && showSetLogger == old(showSetLogger)
    {
      if selectedExercise.None? {
        return;
      }
      var selected := selectedExercise.value;
      exercises := ReplaceSets(exercises, selected.exerciseId, sets);
      selectedExercise := Some(selected.(sets := sets));
    }

    /** `handleRequestWarmup` once the calculation has answered (None when
        the request failed, which only logs). */
    method HandleRequestWarmup(result: Option<seq<WarmupEntry>>)
      modifies this
      ensures old(selectedExercise).None? || result.None? ==>
        exercises == old(exercises) && selectedExercise == old(selectedExercise)
      ensures old(selectedExercise).Some? && result.Some? ==>
        var merged := MergeWarmups(result.value, old(selectedExercise).value.sets);
        exercises == ReplaceSets(old(exercises), old(selectedExercise).value.exerciseId, merged) &&
        selectedExercise == Some(old(selectedExercise).value.(sets := merged))
      ensures available == old(available) && workoutName == old(workoutName)
      ensures selectedCategory == old(selectedCategory) && searchQuery == old(searchQuery)
      ensures showExercisePicker == old(showExercisePicker) && showSetLogger == old(showSetLogger)
    {
      if selectedExercise.None? || result.None? {
        return;
      }
      var merged := MergeWarmups(result.value, selectedExercise.value.sets);
      HandleSaveSets(merged);
    }

    method SaveWorkoutPressed(nowIso: string) returns (r: Result<SaveRequest, string>)
      ensures r == SaveWorkout(workoutName, exercises, nowIso)
    {
      if |exercises| == 0 {
        return Failure("Please add at least one exercise");
      }
      r := Success(SaveRequest(workoutName, exercises, nowIso));
    }
  }
}
