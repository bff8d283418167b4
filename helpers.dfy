/** The app's pure helpers: training volume and set count of a workout,
    the volume label, the macro progress percentage, and the label and
    colour lookups with their fallbacks. */
module Helpers {
  import opened Common
  import opened Workouts

  /** `calculateWorkoutVolume`: the nested loops over exercises and sets
      summing weight x reps of every set that is not a warm-up. */
  method CalculateWorkoutVolume(exercises: seq<WorkoutExercise>) returns (total: real)
    ensures total == Volume(exercises)
  {
    total := 0.0;
    for i := 0 to |exercises|
      invariant total == Volume(exercises[..i])
    {
      var exercise := exercises[i];
      ghost var before := total;
      for j := 0 to |exercise.sets|
        invariant total == before + SetsVolume(exercise.sets[..j])
      {
        var s := exercise.sets[j];
        if !s.isWarmup {
          total := total + s.weight * s.reps as real;
        }
        SetsVolumeSnoc(exercise.sets[..j], s);
        assert exercise.sets[..j + 1] == exercise.sets[..j] + [s];
      }
      assert exercise.sets[..|exercise.sets|] == exercise.sets;
      VolumeSnoc(exercises[..i], exercise);
      assert exercises[..i + 1] == exercises[..i] + [exercise];
    }
    assert exercises[..|exercises|] == exercises;
  }

  /** Every set of every exercise, warm-ups included. */
  function SetCount(exercises: seq<WorkoutExercise>): nat
  {
    if exercises == [] then 0 else |exercises[0].sets| + SetCount(exercises[1..])
  }

  predicate HasWarmup(exercises: seq<WorkoutExercise>)
  {
    exists i, j :: 0 <= i < |exercises| && 0 <= j < |exercises[i].sets| && exercises[i].sets[j].isWarmup
  }

  lemma {:induction false} WorkingSetsAll(sets: seq<WorkoutSet>)
    ensures |WorkingSets(sets)| == |sets| <==> forall j :: 0 <= j < |sets| ==> !sets[j].isWarmup
  {
    if sets != [] {
      WorkingSetsAll(sets[1..]);
      assert forall j :: 1 <= j < |sets| ==> sets[j] == sets[1..][j - 1];
    }
  }

  /** `calculateTotalSets` counts at most every set, and every set exactly
      when there is no warm-up set. */
  lemma {:induction false} TotalSetsCountsWorkingSets(exercises: seq<WorkoutExercise>)
    ensures WorkingSetCount(exercises) <= SetCount(exercises)
    ensures WorkingSetCount(exercises) == SetCount(exercises) <==> !HasWarmup(exercises)
  {
    if exercises != [] {
      var e := exercises[0];
      var rest := exercises[1..];
      TotalSetsCountsWorkingSets(rest);
      WorkingSetsAll(e.sets);
      if HasWarmup(exercises) {
        var i, j :| 0 <= i < |exercises| && 0 <= j < |exercises[i].sets| && exercises[i].sets[j].isWarmup;
        if i > 0 {
          assert rest[i - 1] == exercises[i];
        }
      }
      if HasWarmup(rest) {
        var i, j :| 0 <= i < |rest| && 0 <= j < |rest[i].sets| && rest[i].sets[j].isWarmup;
        assert exercises[i + 1] == rest[i];
      }
      if exists j :: 0 <= j < |e.sets| && e.sets[j].isWarmup {
        var j :| 0 <= j < |e.sets| && e.sets[j].isWarmup;
        assert exercises[0].sets[j].isWarmup;
      }
    }
  }

  // ---------------------------------------------------------------- formatting

  /** What `formatVolume` prints: the number itself below 1000, otherwise
      the thousands with one decimal and a "k". */
  datatype VolumeLabel = AsIs(volume: real) | Thousands(tenths: int, text: string)

  /** `(volume / 1000).toFixed(1)`: the nearest tenth, ties upward. */
  function FormatVolume(volume: real): (r: VolumeLabel)
    ensures volume < 1000.0 ==> r == AsIs(volume)
    ensures volume >= 1000.0 ==>
      r.Thousands? && r.tenths >= 10 &&
      volume - 50.0 < r.tenths as real * 100.0 <= volume + 50.0 &&
      r.text == NatToString(r.tenths / 10) + "." + [DigitChar(r.tenths % 10)] + "k"
  {
    if volume >= 1000.0 then
      var t := RoundHalfUp(volume / 100.0);
      Thousands(t, NatToString(t / 10) + "." + [DigitChar(t % 10)] + "k")
    else AsIs(volume)
  }

  /** The thousands label reads back as its tenths: digits, a point, one
      digit, "k". */
  lemma ThousandsLabelReadsBack(volume: real)
    requires volume >= 1000.0
    ensures var r := FormatVolume(volume);
      var whole := r.text[..|r.text| - 3];
      r.text[|r.text| - 1] == 'k' && r.text[|r.text| - 3] == '.' &&
      (forall k :: 0 <= k < |whole| ==> '0' <= whole[k] <= '9') &&
      DigitsValue(whole) * 10 + (r.text[|r.text| - 2] as int - '0' as int) == r.tenths
  {
    var r := FormatVolume(volume);
    var t := r.tenths;
    var whole := NatToString(t / 10);
    assert r.text == whole + "." + [DigitChar(t % 10)] + "k";
    assert r.text[..|r.text| - 3] == whole;
    NatToStringValue(t / 10);
  }

  /** `getMacroPercentage`: 0 for a goal of 0, else the rounded percentage
      capped at 100. */
  function MacroPercentage(current: real, goal: real): (r: int)
    ensures goal == 0.0 ==> r == 0
    ensures r <= 100
    ensures goal != 0.0 && current / goal * 100.0 < 99.5 ==>
      current / goal * 100.0 - 0.5 < r as real <= current / goal * 100.0 + 0.5
    ensures goal != 0.0 && current / goal * 100.0 >= 99.5 ==> r == 100
  {
    if goal == 0.0 then 0
    else
      var p := RoundHalfUp(current / goal * 100.0);
      if p <= 100 then p else 100
  }

  /** For a positive goal more intake never shows a lower percentage. */
  lemma MacroPercentageMonotone(a: real, b: real, goal: real)
    requires a <= b && goal > 0.0
    ensures MacroPercentage(a, goal) <= MacroPercentage(b, goal)
  {
    assert a / goal <= b / goal;
    RoundHalfUpMonotone(a / goal * 100.0, b / goal * 100.0);
  }

  lemma RoundHalfUpMonotone(x: real, y: real)
    requires x <= y
    ensures RoundHalfUp(x) <= RoundHalfUp(y)
  {
  }

  // ---------------------------------------------------------------- lookups

  const EquipmentLabels: map<string, string> := map[
    "dumbbells" := "Dumbbells", "barbell" := "Barbell", "pullup_bar" := "Pull-up Bar",
    "bench" := "Bench", "cables" := "Cables", "machines" := "Machines", "kettlebell" := "Kettlebell"]

  const CategoryColors: map<string, string> := map[
    "chest" := "#EF4444", "back" := "#3B82F6", "shoulders" := "#F59E0B",
    "legs" := "#10B981", "arms" := "#8B5CF6", "core" := "#EC4899"]

  const MacroColors: map<string, string> := map[
    "protein" := "#EF4444", "carbs" := "#3B82F6", "fat" := "#F59E0B", "calories" := "#10B981"]

  const Gray := "#6B7280"

  /** `table[key] || fallback`: a missing key (or an empty entry) falls back. */
  function Lookup(table: map<string, string>, key: string, fallback: string): string
  {
    if key in table && table[key] != "" then table[key] else fallback
  }

  function EquipmentLabel(equipment: string): string
  {
    Lookup(EquipmentLabels, equipment, equipment)
  }

  function CategoryColor(category: string): string
  {
    Lookup(CategoryColors, category, Gray)
  }

  function MacroColor(macro: string): string
  {
    Lookup(MacroColors, macro, Gray)
  }

  /** An equipment key comes back unchanged exactly when it is not one of
      the seven known kinds (every known label differs from its key). */
  lemma EquipmentLabelFallback(equipment: string)
    ensures EquipmentLabel(equipment) == equipment <==> equipment !in EquipmentLabels
  {
    if equipment in EquipmentLabels {
      assert EquipmentLabels[equipment][0] != equipment[0];
    }
  }

  /** Gray shows exactly for a category or macro the tables do not know
      (no table colour is gray). */
  lemma ColorFallbacks(category: string, macro: string)
    ensures CategoryColor(category) == Gray <==> category !in CategoryColors
    ensures MacroColor(macro) == Gray <==> macro !in MacroColors
  {
    if category in CategoryColors {
      assert CategoryColors[category][1] != Gray[1];
    }
    if macro in MacroColors {
      assert MacroColors[macro][1] != Gray[1];
    }
  }
}
