/** The server's progression suggestions: the workouts of the last month,
    most recent first, are grouped into per-exercise session summaries; each
    exercise with at least two sessions is judged on its last three by a
    four-branch rule cascade; the suggested increase is rounded to 2.5; and
    the suggestions are ordered high, medium, low confidence. */
module Progression {
  import opened Common
  import opened Workouts

  /** What one workout contributes to an exercise's history. */
  datatype Session = Session(date: string, maxWeight: real, setsCompleted: nat, totalReps: int, avgRpe: real)

  // ---------------------------------------------------------------- one session

  function MaxWeight(sets: seq<WorkoutSet>): (m: real)
    requires sets != []
    ensures forall k :: 0 <= k < |sets| ==> sets[k].weight <= m
    ensures exists k :: 0 <= k < |sets| && sets[k].weight == m
  {
    if |sets| == 1 then sets[0].weight
    else
      var rest := MaxWeight(sets[1..]);
      assert forall k :: 1 <= k < |sets| ==> sets[k] == sets[1..][k - 1];
      if sets[0].weight >= rest then sets[0].weight else rest
  }

  function TotalReps(sets: seq<WorkoutSet>): int
  {
    if sets == [] then 0 else sets[0].reps + TotalReps(sets[1..])
  }

  /** A set whose RPE is truthy: present and not 0. */
  predicate Rated(s: WorkoutSet)
  {
    s.rpe.Some? && s.rpe.value != 0
  }

  function RatedCount(sets: seq<WorkoutSet>): nat
  {
    if sets == [] then 0 else (if Rated(sets[0]) then 1 else 0) + RatedCount(sets[1..])
  }

  function RatedSum(sets: seq<WorkoutSet>): int
  {
    if sets == [] then 0 else (if Rated(sets[0]) then sets[0].rpe.value else 0) + RatedSum(sets[1..])
  }

  /** The mean RPE over the rated sets, 7 when no set is rated. */
  function MeanRpe(sets: seq<WorkoutSet>): real
  {
    if RatedCount(sets) > 0 then RatedSum(sets) as real / RatedCount(sets) as real else 7.0
  }

  /** The summary of one exercise entry, or nothing when it has no working
      set (such an entry does not count as a session). */
  function Summarize(date: string, sets: seq<WorkoutSet>): (r: Option<Session>)
    ensures r.None? <==> forall s :: s in sets ==> s.isWarmup
    ensures r.Some? ==>
      r.value.date == date &&
      r.value.setsCompleted == |WorkingSets(sets)| >= 1 &&
      (forall s :: s in sets && !s.isWarmup ==> s.weight <= r.value.maxWeight) &&
      (exists s :: s in sets && !s.isWarmup && s.weight == r.value.maxWeight) &&
      r.value.totalReps == TotalReps(WorkingSets(sets)) &&
      r.value.avgRpe == RoundTenths(MeanRpe(WorkingSets(sets))) &&
      MeanRpe(WorkingSets(sets)) - 1.0 / 20.0 <= r.value.avgRpe <= MeanRpe(WorkingSets(sets)) + 1.0 / 20.0
  {
    var ws := WorkingSets(sets);
    if ws == [] then
      assert forall s :: s in sets ==> s.isWarmup;
      None
    else
      assert ws[0] in sets && !ws[0].isWarmup;
      var m := MaxWeight(ws);
      var k :| 0 <= k < |ws| && ws[k].weight == m;
      assert ws[k] in sets && !ws[k].isWarmup;
      Some(Session(date, m, |ws|, TotalReps(ws), RoundTenths(MeanRpe(ws))))
  }

  function OptionToSeq<T>(o: Option<T>): seq<T>
  {
    match o
    case None => []
    case Some(v) => [v]
  }

  // ---------------------------------------------------------------- grouping

  /** The `exercise_history` dict: its keys in insertion order, and its
      values. */
  datatype History = History(order: seq<string>, sessions: map<string, seq<Session>>)

  ghost predicate WellFormed(h: History)
  {
    (forall n :: n in h.sessions <==> n in h.order) &&
    (forall i, j :: 0 <= i < j < |h.order| ==> h.order[i] != h.order[j]) &&
    "" !in h.order
  }

  function Lookup(h: History, n: string): seq<Session>
  {
    if n in h.sessions then h.sessions[n] else []
  }

  /** One iteration of the inner loop: an entry with an empty name is
      skipped; otherwise the name is registered (even when the entry has no
      working set) and its session, if any, appended. */
  function Record(h: History, date: string, e: WorkoutExercise): History
  {
    var name := e.exerciseName;
    if name == "" then h
    else
      var h' := if name in h.sessions then h else History(h.order + [name], h.sessions[name := []]);
      match Summarize(date, e.sets)
      case None => h'
      case Some(s) => History(h'.order, h'.sessions[name := Lookup(h', name) + [s]])
  }

  function RecordAll(h: History, date: string, exs: seq<WorkoutExercise>): History
  {
    if exs == [] then h else Record(RecordAll(h, date, exs[..|exs| - 1]), date, exs[|exs| - 1])
  }

  function BuildHistory(workouts: seq<Workout>): History
  {
    if workouts == [] then History([], map[])
    else
      var w := workouts[|workouts| - 1];
      RecordAll(BuildHistory(workouts[..|workouts| - 1]), w.date, w.exercises)
  }

  /** Reference definition: the sessions of one exercise, read straight off
      the workouts in their order. */
  function SessionsIn(date: string, exs: seq<WorkoutExercise>, n: string): seq<Session>
  {
    if exs == [] then []
    else
      var e := exs[|exs| - 1];
      SessionsIn(date, exs[..|exs| - 1], n) + (if e.exerciseName == n then OptionToSeq(Summarize(date, e.sets)) else [])
  }

  function SessionsOf(workouts: seq<Workout>, n: string): seq<Session>
  {
    if workouts == [] then []
    else
      var w := workouts[|workouts| - 1];
      SessionsOf(workouts[..|workouts| - 1], n) + SessionsIn(w.date, w.exercises, n)
  }

  ghost predicate NamedIn(exs: seq<WorkoutExercise>, n: string)
  {
    exists j :: 0 <= j < |exs| && exs[j].exerciseName == n
  }

  ghost predicate Seen(workouts: seq<Workout>, n: string)
  {
    exists i :: 0 <= i < |workouts| && NamedIn(workouts[i].exercises, n)
  }

  lemma RecordWellFormed(h: History, date: string, e: WorkoutExercise)
    requires WellFormed(h)
    ensures WellFormed(Record(h, date, e))
  {
  }

  lemma RecordOrder(h: History, date: string, e: WorkoutExercise)
    requires WellFormed(h)
    ensures forall n :: n in Record(h, date, e).order <==> n in h.order || (n != "" && n == e.exerciseName)
  {
  }

  lemma RecordLookup(h: History, date: string, e: WorkoutExercise, n: string)
    requires n != ""
    ensures Lookup(Record(h, date, e), n) == Lookup(h, n) + (if e.exerciseName == n then OptionToSeq(Summarize(date, e.sets)) else [])
  {
  }

  lemma RecordStep(h: History, date: string, e: WorkoutExercise)
    requires WellFormed(h)
    ensures var h' := Record(h, date, e);
      WellFormed(h') &&
      (forall n :: n in h'.order <==> n in h.order || (n != "" && n == e.exerciseName)) &&
      (forall n :: n != "" ==>
        Lookup(h', n) == Lookup(h, n) + (if e.exerciseName == n then OptionToSeq(Summarize(date, e.sets)) else []))
  {
    RecordWellFormed(h, date, e);
    RecordOrder(h, date, e);
    forall n | n != ""
      ensures Lookup(Record(h, date, e), n) == Lookup(h, n) + (if e.exerciseName == n then OptionToSeq(Summarize(date, e.sets)) else [])
    {
      RecordLookup(h, date, e, n);
    }
  }

  lemma {:induction false} RecordAllWellFormed(h: History, date: string, exs: seq<WorkoutExercise>)
    requires WellFormed(h)
    ensures WellFormed(RecordAll(h, date, exs))
  {
    if exs != [] {
      RecordAllWellFormed(h, date, exs[..|exs| - 1]);
      RecordWellFormed(RecordAll(h, date, exs[..|exs| - 1]), date, exs[|exs| - 1]);
    }
  }

  lemma {:induction false} RecordAllOrder(h: History, date: string, exs: seq<WorkoutExercise>)
    requires WellFormed(h)
    ensures forall n :: n in RecordAll(h, date, exs).order <==> n in h.order || (n != "" && NamedIn(exs, n))
  {
    if exs != [] {
      var init := exs[..|exs| - 1];
      var h1 := RecordAll(h, date, init);
      RecordAllWellFormed(h, date, init);
      RecordAllOrder(h, date, init);
      RecordOrder(h1, date, exs[|exs| - 1]);
      NamedInSnoc(exs);
    }
  }

  lemma {:induction false} RecordAllLookup(h: History, date: string, exs: seq<WorkoutExercise>, n: string)
    requires n != ""
    ensures Lookup(RecordAll(h, date, exs), n) == Lookup(h, n) + SessionsIn(date, exs, n)
  {
    if exs != [] {
      var init := exs[..|exs| - 1];
      var last := exs[|exs| - 1];
      RecordAllLookup(h, date, init, n);
      RecordLookup(RecordAll(h, date, init), date, last, n);
    }
  }

  lemma RecordAllStep(h: History, date: string, exs: seq<WorkoutExercise>)
    requires WellFormed(h)
    ensures var h' := RecordAll(h, date, exs);
      WellFormed(h') &&
      (forall n :: n in h'.order <==> n in h.order || (n != "" && NamedIn(exs, n))) &&
      (forall n :: n != "" ==> Lookup(h', n) == Lookup(h, n) + SessionsIn(date, exs, n))
  {
    RecordAllWellFormed(h, date, exs);
    RecordAllOrder(h, date, exs);
    forall n | n != ""
      ensures Lookup(RecordAll(h, date, exs), n) == Lookup(h, n) + SessionsIn(date, exs, n)
    {
      RecordAllLookup(h, date, exs, n);
    }
  }

  lemma NamedInSnoc(exs: seq<WorkoutExercise>)
    requires exs != []
    ensures forall n :: NamedIn(exs, n) <==> NamedIn(exs[..|exs| - 1], n) || exs[|exs| - 1].exerciseName == n
  {
    var init := exs[..|exs| - 1];
    forall n
      ensures NamedIn(exs, n) <==> NamedIn(init, n) || exs[|exs| - 1].exerciseName == n
    {
      if NamedIn(exs, n) {
        var j :| 0 <= j < |exs| && exs[j].exerciseName == n;
        if j < |init| {
          assert init[j] == exs[j];
        }
      }
      if NamedIn(init, n) {
        var j :| 0 <= j < |init| && init[j].exerciseName == n;
        assert exs[j] == init[j];
      }
    }
  }

  /** The grouping loop builds, for every non-empty name, exactly the
      reference sessions in workout order; it registers exactly the
      non-empty names that occur (with or without working sets), each once. */
  lemma {:induction false} BuildHistoryCorrect(workouts: seq<Workout>)
    ensures var h := BuildHistory(workouts);
      WellFormed(h) &&
      (forall n :: n in h.order <==> n != "" && Seen(workouts, n)) &&
      (forall n :: n != "" ==> Lookup(h, n) == SessionsOf(workouts, n))
  {
    if workouts != [] {
      var init := workouts[..|workouts| - 1];
      var w := workouts[|workouts| - 1];
      BuildHistoryCorrect(init);
      RecordAllStep(BuildHistory(init), w.date, w.exercises);
      forall n
        ensures Seen(workouts, n) <==> Seen(init, n) || NamedIn(w.exercises, n)
      {
        if Seen(workouts, n) {
          var i :| 0 <= i < |workouts| && NamedIn(workouts[i].exercises, n);
          if i < |init| {
            assert init[i] == workouts[i];
          }
        }
        if Seen(init, n) {
          var i :| 0 <= i < |init| && NamedIn(init[i].exercises, n);
          assert workouts[i] == init[i];
        }
        if NamedIn(w.exercises, n) {
          assert NamedIn(workouts[|workouts| - 1].exercises, n);
        }
      }
    }
  }

  // ---------------------------------------------------------------- analysis

  datatype Confidence = High | Medium | Low

  /** The reason text, by its template and the numbers it prints. */
  datatype Reason =
    | ReadyToProgress(avgSets: real, avgRpe: real)
    | SmallIncrease(avgSets: real, avgRpe: real)
    | WeightConstant

  datatype Suggestion = Suggestion(
    exerciseName: string,
    currentWeight: real,
    suggestedWeight: real,
    increaseAmount: real,
    increasePercentage: real,
    confidence: Confidence,
    reason: Reason,
    recentPerformance: seq<Session>)

  function SumSets(rs: seq<Session>): nat
  {
    if rs == [] then 0 else rs[0].setsCompleted + SumSets(rs[1..])
  }

  function SumRpe(rs: seq<Session>): real
  {
    if rs == [] then 0.0 else rs[0].avgRpe + SumRpe(rs[1..])
  }

  function AvgSets(rs: seq<Session>): real
    requires rs != []
  {
    SumSets(rs) as real / |rs| as real
  }

  function AvgRpe(rs: seq<Session>): real
    requires rs != []
  {
    SumRpe(rs) / |rs| as real
  }

  /** `len(set(weights)) == 1` on a non-empty list: one weight throughout. */
  predicate SameWeights(rs: seq<Session>)
    requires rs != []
  {
    forall k :: 0 <= k < |rs| ==> rs[k].maxWeight == rs[0].maxWeight
  }

  datatype Decision = Progress(confidence: Confidence, percent: real, reason: Reason) | Hold

  /** The rule cascade on the recent sessions. */
  function Decide(rs: seq<Session>): (r: Decision)
    requires rs != []
    ensures r.Progress? ==> AvgRpe(rs) < 9.0 && r.percent == if r.confidence == High then 5.0 else 2.5
    ensures r.Progress? && r.confidence != Low ==> AvgSets(rs) >= 3.0 && AvgRpe(rs) <= 8.0
    ensures r.Progress? && r.confidence == Low ==> SameWeights(rs) && |rs| >= 3
    ensures AvgSets(rs) >= 3.0 && AvgRpe(rs) <= 8.0 ==> r.Progress? && r.confidence != Low
    ensures AvgRpe(rs) < 9.0 && SameWeights(rs) && |rs| >= 3 ==> r.Progress?
  {
    var s := AvgSets(rs);
    var p := AvgRpe(rs);
    if s >= 3.0 && p <= 7.0 then Progress(High, 5.0, ReadyToProgress(s, p))
    else if s >= 3.0 && p <= 8.0 then Progress(Medium, 2.5, SmallIncrease(s, p))
    else if p >= 9.0 then Hold
    else if SameWeights(rs) && |rs| >= 3 then Progress(Low, 2.5, WeightConstant)
    else Hold
  }

  /** x is a whole number of 2.5 steps. */
  predicate MultipleOfStep(x: real)
  {
    (x / 2.5).Floor as real == x / 2.5
  }

  /** `round(w * pct / 100 / 2.5) * 2.5`, raised to 2.5 when below it. */
  function IncreaseAmount(currentWeight: real, percent: real): (a: real)
    ensures a >= 2.5 && MultipleOfStep(a)
    ensures a > 2.5 ==> a - 1.25 <= currentWeight * (percent / 100.0) <= a + 1.25
  {
    var x := currentWeight * (percent / 100.0);
    var k := RoundHalfEven(x / 2.5);
    var a := k as real * 2.5;
    assert a / 2.5 == k as real;
    assert a - 1.25 <= x <= a + 1.25;
    if a < 2.5 then
      assert 2.5 / 2.5 == 1.0;
      2.5
    else a
  }

  /** The last (most recent) three sessions, or all when fewer. */
  function Recent(history: seq<Session>): seq<Session>
  {
    history[..MinInt(3, |history|)]
  }

  /** The analysis of one exercise. No suggestion for fewer than two
      sessions or a current weight of 0 or less; otherwise the cascade
      decides, and the four branches are characterised exactly. */
  function Analyze(name: string, history: seq<Session>): (r: Option<Suggestion>)
    ensures |history| < 2 || history[0].maxWeight <= 0.0 ==> r.None?
    ensures r.Some? ==>
      var s := r.value;
      var rs := Recent(history);
      s.exerciseName == name &&
      s.currentWeight == history[0].maxWeight > 0.0 &&
      s.increaseAmount >= 2.5 && MultipleOfStep(s.increaseAmount) &&
      s.suggestedWeight == s.currentWeight + s.increaseAmount &&
      s.recentPerformance == rs && 2 <= |rs| <= 3 &&
      s.increasePercentage == RoundTenths(s.increaseAmount / s.currentWeight * 100.0) &&
      s.increaseAmount / s.currentWeight * 100.0 - 1.0 / 20.0 <= s.increasePercentage <=
        s.increaseAmount / s.currentWeight * 100.0 + 1.0 / 20.0
    ensures |history| >= 2 && history[0].maxWeight > 0.0 ==>
      var rs := Recent(history);
      var s := AvgSets(rs);
      var p := AvgRpe(rs);
      (p >= 9.0 ==> r.None?) &&
      ((r.Some? && r.value.confidence == High) <==> s >= 3.0 && p <= 7.0) &&
      ((r.Some? && r.value.confidence == Medium) <==> s >= 3.0 && 7.0 < p <= 8.0) &&
      ((r.Some? && r.value.confidence == Low) <==>
        !(s >= 3.0 && p <= 8.0) && p < 9.0 && |rs| >= 3 && SameWeights(rs)) &&
      (r.Some? ==>
        r.value.increaseAmount == IncreaseAmount(history[0].maxWeight, if r.value.confidence == High then 5.0 else 2.5) &&
        r.value.reason == match r.value.confidence
          case High => ReadyToProgress(s, p)
          case Medium => SmallIncrease(s, p)
          case Low => WeightConstant)
  {
    if |history| < 2 then None
    else
      var recent := Recent(history);
      var current := recent[0].maxWeight;
      if current <= 0.0 then None
      else
        match Decide(recent)
        case Hold => None
        case Progress(c, pct, reason) =>
          var amount := IncreaseAmount(current, pct);
          Some(Suggestion(name, current, current + amount, amount,
            RoundTenths(amount / current * 100.0), c, reason, recent))
  }

  /** The analyses of the names in the dict's order; names without a
      suggestion contribute nothing. */
  function Collect(names: seq<string>, h: History): seq<Suggestion>
  {
    if names == [] then []
    else
      var n := names[|names| - 1];
      Collect(names[..|names| - 1], h) + OptionToSeq(Analyze(n, Lookup(h, n)))
  }

  lemma {:induction false} CollectMembers(names: seq<string>, h: History)
    ensures forall s :: s in Collect(names, h) ==>
      s.exerciseName in names && Analyze(s.exerciseName, Lookup(h, s.exerciseName)) == Some(s)
    ensures forall n :: n in names && Analyze(n, Lookup(h, n)).Some? ==>
      Analyze(n, Lookup(h, n)).value in Collect(names, h)
  {
    if names != [] {
      CollectMembers(names[..|names| - 1], h);
      assert forall n :: n in names ==> n in names[..|names| - 1] || n == names[|names| - 1];
    }
  }

  // ---------------------------------------------------------------- ordering

  function Rank(c: Confidence): nat
  {
    match c
    case High => 0
    case Medium => 1
    case Low => 2
  }

  /** The suggestions of one confidence, in their order. */
  function Tier(ss: seq<Suggestion>, c: Confidence): (r: seq<Suggestion>)
    ensures forall k :: 0 <= k < |r| ==> r[k].confidence == c
  {
    if ss == [] then []
    else (if ss[0].confidence == c then [ss[0]] else []) + Tier(ss[1..], c)
  }

  /** `sort(key=confidence_order)`: Python's sort is stable, and with three
      key values a stable sort is the three tiers one after another. */
  function SortByConfidence(ss: seq<Suggestion>): seq<Suggestion>
  {
    Tier(ss, High) + Tier(ss, Medium) + Tier(ss, Low)
  }

  lemma SortByConfidenceSorted(ss: seq<Suggestion>)
    ensures var r := SortByConfidence(ss);
      forall i, j :: 0 <= i < j < |r| ==> Rank(r[i].confidence) <= Rank(r[j].confidence)
  {
    var a, b, c := Tier(ss, High), Tier(ss, Medium), Tier(ss, Low);
    var r := a + b + c;
    forall i | 0 <= i < |r|
      ensures Rank(r[i].confidence) == if i < |a| then 0 else if i < |a| + |b| then 1 else 2
    {
      if i < |a| {
        assert r[i] == a[i];
      } else if i < |a| + |b| {
        assert r[i] == b[i - |a|];
      } else {
        assert r[i] == c[i - |a| - |b|];
      }
    }
  }

  lemma {:induction false} TierSplit(ss: seq<Suggestion>)
    ensures multiset(Tier(ss, High)) + multiset(Tier(ss, Medium)) + multiset(Tier(ss, Low)) == multiset(ss)
  {
    if ss != [] {
      TierSplit(ss[1..]);
      TierSplitHead(ss);
      MultisetHead(ss);
    }
  }

  lemma MultisetHead<T>(s: seq<T>)
    requires s != []
    ensures multiset(s) == multiset{s[0]} + multiset(s[1..])
  {
    assert s == [s[0]] + s[1..];
  }

  /** The first suggestion lands in exactly one tier. */
  lemma TierSplitHead(ss: seq<Suggestion>)
    requires ss != []
    ensures multiset(Tier(ss, High)) + multiset(Tier(ss, Medium)) + multiset(Tier(ss, Low)) ==
      multiset{ss[0]} + (multiset(Tier(ss[1..], High)) + multiset(Tier(ss[1..], Medium)) + multiset(Tier(ss[1..], Low)))
  {
    var rest := ss[1..];
    TierHead(ss, High);
    TierHead(ss, Medium);
    TierHead(ss, Low);
    PlaceOne(ss[0],
      multiset(Tier(rest, High)), multiset(Tier(rest, Medium)), multiset(Tier(rest, Low)),
      multiset(Tier(ss, High)), multiset(Tier(ss, Medium)), multiset(Tier(ss, Low)));
  }

  /** One step of `Tier`, as multisets. */
  lemma TierHead(ss: seq<Suggestion>, c: Confidence)
    requires ss != []
    ensures multiset(Tier(ss, c)) == (if ss[0].confidence == c then multiset{ss[0]} else multiset{}) + multiset(Tier(ss[1..], c))
  {
  }

  /** Adding one element to exactly one of three parts adds it to their sum. */
  lemma PlaceOne<T>(x: T, h: multiset<T>, m: multiset<T>, l: multiset<T>, h': multiset<T>, m': multiset<T>, l': multiset<T>)
    requires (h' == multiset{x} + h && m' == m && l' == l) ||
             (h' == h && m' == multiset{x} + m && l' == l) ||
             (h' == h && m' == m && l' == multiset{x} + l)
    ensures h' + m' + l' == multiset{x} + (h + m + l)
  {
  }

  /** Sorting loses and adds nothing. */
  lemma SortByConfidencePermutes(ss: seq<Suggestion>)
    ensures multiset(SortByConfidence(ss)) == multiset(ss)
  {
    TierSplit(ss);
  }

  lemma {:induction false} TierOfTier(ss: seq<Suggestion>, c: Confidence, d: Confidence)
    ensures Tier(Tier(ss, c), d) == if c == d then Tier(ss, c) else []
  {
    if ss != [] {
      TierOfTier(ss[1..], c, d);
      var head := if ss[0].confidence == c then [ss[0]] else [];
      TierAppend(head, Tier(ss[1..], c), d);
      if ss[0].confidence == c {
        assert Tier(head, d) == (if c == d then [ss[0]] else []) + Tier([], d);
      }
    }
  }

  lemma {:induction false} TierAppend(a: seq<Suggestion>, b: seq<Suggestion>, c: Confidence)
    ensures Tier(a + b, c) == Tier(a, c) + Tier(b, c)
  {
    if a == [] {
      assert a + b == b;
    } else {
      assert (a + b)[0] == a[0];
      assert (a + b)[1..] == a[1..] + b;
      TierAppend(a[1..], b, c);
    }
  }

  /** Stability: within each confidence the order is the original one. */
  lemma SortByConfidenceStable(ss: seq<Suggestion>, c: Confidence)
    ensures Tier(SortByConfidence(ss), c) == Tier(ss, c)
  {
    TierAppend(Tier(ss, High) + Tier(ss, Medium), Tier(ss, Low), c);
    TierAppend(Tier(ss, High), Tier(ss, Medium), c);
    TierOfTier(ss, High, c);
    TierOfTier(ss, Medium, c);
    TierOfTier(ss, Low, c);
  }

  // ---------------------------------------------------------------- the endpoint

  /** `get_progression_suggestions` on the workouts already fetched (most
      recent first): the grouping loops, the analysis loop over the dict in
      insertion order, then the sort. */
  method GetProgressionSuggestions(workouts: seq<Workout>) returns (suggestions: seq<Suggestion>, totalAnalyzed: nat)
    ensures var h := BuildHistory(workouts);
      suggestions == SortByConfidence(Collect(h.order, h)) && totalAnalyzed == |h.order|
  {
    var order: seq<string> := [];
    var sessions: map<string, seq<Session>> := map[];
    for i := 0 to |workouts|
      invariant History(order, sessions) == BuildHistory(workouts[..i])
    {
      assert workouts[..i + 1][..i] == workouts[..i];
      order, sessions := RecordWorkout(order, sessions, workouts[i]);
    }
    assert workouts[..|workouts|] == workouts;
    var collected := AnalyzeAll(order, sessions);
    suggestions := SortByConfidence(collected);
    totalAnalyzed := |order|;
  }

  /** The analysis loop over the dict in insertion order, keeping the
      analyses that yield a suggestion. */
  method AnalyzeAll(order: seq<string>, sessions: map<string, seq<Session>>) returns (collected: seq<Suggestion>)
    ensures collected == Collect(order, History(order, sessions))
  {
    ghost var h := History(order, sessions);
    collected := [];
    for k := 0 to |order|
      invariant collected == Collect(order[..k], h)
    {
      assert order[..k + 1][..k] == order[..k];
      var history := if order[k] in sessions then sessions[order[k]] else [];
      var s := Analyze(order[k], history);
      if s.Some? {
        collected := collected + [s.value];
      }
    }
    assert order[..|order|] == order;
  }

  /** The inner grouping loop over one workout's exercises. */
  method RecordWorkout(order: seq<string>, sessions: map<string, seq<Session>>, w: Workout)
    returns (order': seq<string>, sessions': map<string, seq<Session>>)
    ensures History(order', sessions') == RecordAll(History(order, sessions), w.date, w.exercises)
  {
    order', sessions' := order, sessions;
    for j := 0 to |w.exercises|
      invariant History(order', sessions') == RecordAll(History(order, sessions), w.date, w.exercises[..j])
    {
      var e := w.exercises[j];
      assert w.exercises[..j + 1][..j] == w.exercises[..j];
      ghost var before := History(order', sessions');
      var name := e.exerciseName;
      if name != "" {
        if name !in sessions' {
          order' := order' + [name];
          sessions' := sessions'[name := []];
        }
        var summary := Summarize(w.date, e.sets);
        if summary.Some? {
          sessions' := sessions'[name := sessions'[name] + [summary.value]];
        }
      }
      assert History(order', sessions') == Record(before, w.date, e);
    }
    assert w.exercises[..|w.exercises|] == w.exercises;
  }

  /** What the endpoint returns, in terms of the workouts: every suggestion
      is the analysis of a non-empty exercise name that occurs, applied to
      that name's own sessions, and every such analysis that yields a
      suggestion is among them; the count covers each occurring name once. */
  lemma SuggestionsAreAnalyses(workouts: seq<Workout>)
    ensures var h := BuildHistory(workouts);
      var r := SortByConfidence(Collect(h.order, h));
      (forall s :: s in r ==>
        s.exerciseName != "" && Seen(workouts, s.exerciseName) &&
        Analyze(s.exerciseName, SessionsOf(workouts, s.exerciseName)) == Some(s)) &&
      (forall n :: n != "" && Seen(workouts, n) && Analyze(n, SessionsOf(workouts, n)).Some? ==>
        Analyze(n, SessionsOf(workouts, n)).value in r) &&
      (forall n :: n in h.order <==> n != "" && Seen(workouts, n)) &&
      (forall i, j :: 0 <= i < j < |h.order| ==> h.order[i] != h.order[j])
  {
    var h := BuildHistory(workouts);
    BuildHistoryCorrect(workouts);
    CollectMembers(h.order, h);
    SortByConfidencePermutes(Collect(h.order, h));
    var c := Collect(h.order, h);
    var r := SortByConfidence(c);
    assert forall s :: s in r <==> s in c by {
      forall s ensures s in r <==> s in c {
        assert s in r <==> s in multiset(r);
        assert s in c <==> s in multiset(c);
      }
    }
  }
}
