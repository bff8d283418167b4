/** The server's per-exercise progression report: one history entry per
    workout entry of the exercise that has working sets, the personal
    records over all of them, and a trend read off the first six. */
module ExerciseHistory {
  import opened Common
  import opened Workouts
  import Progression

  datatype HistoryEntry = HistoryEntry(
    date: string,
    workoutId: string,
    maxWeight: real,
    totalVolume: real,
    sets: nat,
    totalReps: int,
    avgRpe: real)

  datatype Trend = Improving | Stable | Declining | NotEnoughData | NoData

  datatype Report = Report(
    exerciseName: string,
    history: seq<HistoryEntry>,
    maxWeight: real,
    maxVolume: real,
    trend: Trend,
    totalSessions: nat)

  /** A missing RPE counts as 7 here (a stored 0 stays 0). */
  function RpeOrSeven(s: WorkoutSet): int
  {
    match s.rpe
    case None => 7
    case Some(v) => v
  }

  function RpeTotal(sets: seq<WorkoutSet>): int
  {
    if sets == [] then 0 else RpeOrSeven(sets[0]) + RpeTotal(sets[1..])
  }

  /** The entry for one exercise of one workout, or nothing when all its
      sets are warm-ups. */
  function Entry(date: string, workoutId: string, sets: seq<WorkoutSet>): (r: Option<HistoryEntry>)
    ensures r.None? <==> WorkingSets(sets) == []
    ensures r.Some? ==>
      var ws := WorkingSets(sets);
      r.value.date == date && r.value.workoutId == workoutId &&
      r.value.sets == |ws| &&
      (forall k :: 0 <= k < |ws| ==> ws[k].weight <= r.value.maxWeight) &&
      (exists k :: 0 <= k < |ws| && ws[k].weight == r.value.maxWeight) &&
      r.value.totalVolume == SetsVolume(sets) &&
      r.value.totalReps == Progression.TotalReps(ws) &&
      r.value.avgRpe == RoundTenths(RpeTotal(ws) as real / |ws| as real) &&
      RpeTotal(ws) as real / |ws| as real - 1.0 / 20.0 <= r.value.avgRpe <= RpeTotal(ws) as real / |ws| as real + 1.0 / 20.0
  {
    var ws := WorkingSets(sets);
    if ws == [] then None
    else
      SetsVolumeIsWorkingTonnage(sets);
      Some(HistoryEntry(date, workoutId, Progression.MaxWeight(ws), Tonnage(ws), |ws|,
        Progression.TotalReps(ws), RoundTenths(RpeTotal(ws) as real / |ws| as real)))
  }

  function EntriesIn(w: Workout, name: string, exs: seq<WorkoutExercise>): seq<HistoryEntry>
  {
    if exs == [] then []
    else
      var e := exs[|exs| - 1];
      EntriesIn(w, name, exs[..|exs| - 1]) +
        (if e.exerciseName == name then Progression.OptionToSeq(Entry(w.date, w.workoutId, e.sets)) else [])
  }

  lemma EntriesInSnoc(w: Workout, name: string, exs: seq<WorkoutExercise>, e: WorkoutExercise)
    ensures EntriesIn(w, name, exs + [e]) == EntriesIn(w, name, exs) +
      (if e.exerciseName == name then Progression.OptionToSeq(Entry(w.date, w.workoutId, e.sets)) else [])
  {
    assert (exs + [e])[..|exs|] == exs;
  }

  /** The history the loops build, in workout order. */
  function HistoryOf(workouts: seq<Workout>, name: string): seq<HistoryEntry>
  {
    if workouts == [] then []
    else
      var w := workouts[|workouts| - 1];
      HistoryOf(workouts[..|workouts| - 1], name) + EntriesIn(w, name, w.exercises)
  }

  // ---------------------------------------------------------------- records

  function MaxOfWeights(h: seq<HistoryEntry>): (m: real)
    requires h != []
    ensures forall k :: 0 <= k < |h| ==> h[k].maxWeight <= m
    ensures exists k :: 0 <= k < |h| && h[k].maxWeight == m
  {
    if |h| == 1 then h[0].maxWeight
    else
      var rest := MaxOfWeights(h[1..]);
      assert forall k :: 1 <= k < |h| ==> h[k] == h[1..][k - 1];
      if h[0].maxWeight >= rest then h[0].maxWeight else rest
  }

  function MaxOfVolumes(h: seq<HistoryEntry>): (m: real)
    requires h != []
    ensures forall k :: 0 <= k < |h| ==> h[k].totalVolume <= m
    ensures exists k :: 0 <= k < |h| && h[k].totalVolume == m
  {
    if |h| == 1 then h[0].totalVolume
    else
      var rest := MaxOfVolumes(h[1..]);
      assert forall k :: 1 <= k < |h| ==> h[k] == h[1..][k - 1];
      if h[0].totalVolume >= rest then h[0].totalVolume else rest
  }

  // ---------------------------------------------------------------- trend

  function SumWeights(h: seq<HistoryEntry>): real
  {
    if h == [] then 0.0 else h[0].maxWeight + SumWeights(h[1..])
  }

  /** The mean top weight of the three most recent sessions. */
  function RecentAverage(h: seq<HistoryEntry>): real
    requires |h| >= 3
  {
    SumWeights(h[..3]) / 3.0
  }

  /** The mean top weight of sessions 4 to 6, or the recent mean when there
      are only three. */
  function OlderAverage(h: seq<HistoryEntry>): real
    requires |h| >= 3
  {
    if |h| > 3 then SumWeights(h[3..MinInt(6, |h|)]) / MinInt(3, |h[3..MinInt(6, |h|)]|) as real
    else RecentAverage(h)
  }

  /** The trend rule: no data, too little data, or a comparison of the two
      averages with a 5% band either way. */
  function TrendOf(h: seq<HistoryEntry>): (t: Trend)
    ensures h == [] <==> t == NoData
    ensures 1 <= |h| < 3 <==> t == NotEnoughData
    ensures t == Improving <==> |h| >= 3 && RecentAverage(h) > OlderAverage(h) * 1.05
    ensures t == Declining <==>
      (|h| >= 3 && !(RecentAverage(h) > OlderAverage(h) * 1.05) && RecentAverage(h) < OlderAverage(h) * 0.95)
  {
    if h == [] then NoData
    else if |h| < 3 then NotEnoughData
    else
      var recent := RecentAverage(h);
      var older := OlderAverage(h);
      if recent > older * 1.05 then Improving
      else if recent < older * 0.95 then Declining
      else Stable
  }

  /** With exactly three sessions the two averages coincide, so the trend is
      "stable" as long as the weights average to 0 or more. */
  lemma ThreeSessionsAreStable(h: seq<HistoryEntry>)
    requires |h| == 3 && RecentAverage(h) >= 0.0
    ensures TrendOf(h) == Stable
  {
    assert OlderAverage(h) == RecentAverage(h);
  }

  /** A negative average over exactly three sessions compares above itself
      times 1.05, so the rule reports "improving". */
  lemma ThreeNegativeSessionsImprove()
    ensures var e := HistoryEntry("", "", -10.0, 0.0, 1, 0, 7.0);
      TrendOf([e, e, e]) == Improving
  {
    var e := HistoryEntry("", "", -10.0, 0.0, 1, 0, 7.0);
    assert [e, e, e][..3] == [e, e, e];
    assert [e, e, e][1..] == [e, e] && [e, e][1..] == [e];
    assert SumWeights([e]) == -10.0;
    assert SumWeights([e, e, e]) == -30.0;
  }

  // ---------------------------------------------------------------- the endpoint

  function MakeReport(name: string, h: seq<HistoryEntry>): (r: Report)
    ensures r.exerciseName == name
    ensures r.history == h[..MinInt(20, |h|)] && |r.history| <= 20 && r.totalSessions == |h|
    ensures r.trend == TrendOf(h)
    ensures h == [] ==> r.maxWeight == 0.0 && r.maxVolume == 0.0
    ensures h != [] ==>
      (forall k :: 0 <= k < |h| ==> h[k].maxWeight <= r.maxWeight && h[k].totalVolume <= r.maxVolume) &&
      (exists k :: 0 <= k < |h| && h[k].maxWeight == r.maxWeight) &&
      (exists k :: 0 <= k < |h| && h[k].totalVolume == r.maxVolume)
  {
    if h == [] then Report(name, [], 0.0, 0.0, NoData, 0)
    else Report(name, h[..MinInt(20, |h|)], MaxOfWeights(h), MaxOfVolumes(h), TrendOf(h), |h|)
  }

  /** `get_exercise_progression` on the workouts already fetched. */
  method GetExerciseProgression(name: string, workouts: seq<Workout>) returns (r: Report)
    ensures r == MakeReport(name, HistoryOf(workouts, name))
  {
    var history: seq<HistoryEntry> := [];
    for i := 0 to |workouts|
      invariant history == HistoryOf(workouts[..i], name)
    {
      assert workouts[..i + 1][..i] == workouts[..i];
      history := AppendEntries(history, workouts[i], name);
    }
    assert workouts[..|workouts|] == workouts;
    if history == [] {
      return Report(name, [], 0.0, 0.0, NoData, 0);
    }
    var trend := TrendOf(history);
    r := Report(name, history[..MinInt(20, |history|)], MaxOfWeights(history), MaxOfVolumes(history), trend, |history|);
  }

  /** The inner loop over one workout's exercises: the entries of the named
      exercise that have working sets are appended, in their order. */
  method AppendEntries(history: seq<HistoryEntry>, w: Workout, name: string) returns (r: seq<HistoryEntry>)
    ensures r == history + EntriesIn(w, name, w.exercises)
  {
    r := history;
    for j := 0 to |w.exercises|
      invariant r == history + EntriesIn(w, name, w.exercises[..j])
    {
      var e := w.exercises[j];
      EntriesInSnoc(w, name, w.exercises[..j], e);
      assert w.exercises[..j + 1] == w.exercises[..j] + [e];
      if e.exerciseName == name {
        var entry := Entry(w.date, w.workoutId, e.sets);
        if entry.Some? {
          r := r + [entry.value];
        }
      }
    }
    assert w.exercises[..|w.exercises|] == w.exercises;
  }
}
