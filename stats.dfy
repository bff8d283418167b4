/** The server's statistics endpoints: the training volume of each workout
    in a window, and the daily nutrition totals against the user's goals
    over the last few days. The workouts and the stored days are given. */
module Stats {
  import opened Common
  import opened Workouts
  import Nutrition

  // ---------------------------------------------------------------- workout volume

  datatype VolumePoint = VolumePoint(date: string, volume: real, workoutName: string)

  /** `get_workout_volume` on the workouts already fetched: one point per
      workout, in their order, whose volume is weight x reps over the
      working sets of all its exercises. */
  method WorkoutVolumes(workouts: seq<Workout>) returns (points: seq<VolumePoint>)
    ensures |points| == |workouts|
    ensures forall k :: 0 <= k < |workouts| ==>
      points[k] == VolumePoint(workouts[k].date, Volume(workouts[k].exercises), workouts[k].name)
  {
    points := [];
    for i := 0 to |workouts|
      invariant |points| == i
      invariant forall k :: 0 <= k < i ==>
        points[k] == VolumePoint(workouts[k].date, Volume(workouts[k].exercises), workouts[k].name)
    {
      var w := workouts[i];
      var total := 0.0;
      for j := 0 to |w.exercises|
        invariant total == Volume(w.exercises[..j])
      {
        var e := w.exercises[j];
        ghost var before := total;
        for k := 0 to |e.sets|
          invariant total == before + SetsVolume(e.sets[..k])
        {
          var s := e.sets[k];
          if !s.isWarmup {
            total := total + s.weight * s.reps as real;
          }
          SetsVolumeSnoc(e.sets[..k], s);
          assert e.sets[..k + 1] == e.sets[..k] + [s];
        }
        assert e.sets[..|e.sets|] == e.sets;
        VolumeSnoc(w.exercises[..j], e);
        assert w.exercises[..j + 1] == w.exercises[..j] + [e];
      }
      assert w.exercises[..|w.exercises|] == w.exercises;
      points := points + [VolumePoint(w.date, total, w.name)];
    }
  }

  // ---------------------------------------------------------------- adherence

  datatype Goals = Goals(dailyCalories: int, proteinGrams: int, carbsGrams: int, fatGrams: int)

  /** The goals used when the user has none. */
  const DefaultGoals := Goals(2000, 150, 200, 65)

  datatype AdherencePoint = AdherencePoint(day: int, totals: Nutrition.Totals, goals: Goals)

  /** The point for one day: its stored totals, or zeros when nothing is
      stored. */
  function PointFor(day: int, stored: map<int, Nutrition.Totals>, goals: Goals): AdherencePoint
  {
    AdherencePoint(day, if day in stored then stored[day] else Nutrition.Zero, goals)
  }

  function Reverse<T>(s: seq<T>): (r: seq<T>)
    ensures |r| == |s| && forall k :: 0 <= k < |s| ==> r[k] == s[|s| - 1 - k]
  {
    if s == [] then [] else Reverse(s[1..]) + [s[0]]
  }

  /** `get_nutrition_adherence`: days are numbered, `today` included; the
      loop walks back from today and the list is reversed, so the result
      runs from the oldest of the `days` days up to today, one point each
      (none for a count of 0 or less). */
  method NutritionAdherence(today: int, days: int, userGoals: Option<Goals>, stored: map<int, Nutrition.Totals>)
    returns (points: seq<AdherencePoint>)
    ensures var n := if days > 0 then days else 0;
      |points| == n &&
      forall k :: 0 <= k < n ==>
        points[k] == PointFor(today - (n - 1 - k), stored, if userGoals.Some? then userGoals.value else DefaultGoals)
    ensures forall k :: 0 <= k < |points| - 1 ==> points[k + 1].day == points[k].day + 1
    ensures |points| > 0 ==> points[|points| - 1].day == today
  {
    var goals := if userGoals.Some? then userGoals.value else DefaultGoals;
    var data: seq<AdherencePoint> := [];
    var i := 0;
    while i < days
      invariant 0 <= i && (days > 0 ==> i <= days) && (days <= 0 ==> i == 0)
      invariant |data| == i
      invariant forall k :: 0 <= k < i ==> data[k] == PointFor(today - k, stored, goals)
    {
      var day := today - i;
      if day in stored {
        data := data + [AdherencePoint(day, stored[day], goals)];
      } else {
        data := data + [AdherencePoint(day, Nutrition.Zero, goals)];
      }
      i := i + 1;
    }
    points := Reverse(data);
  }
}
