/** The server's warm-up calculator: given the working weight of an
    exercise, up to three warm-up sets at 40%, 60% and 80% of it, each
    rounded to the nearest 5 and kept only when it is at least 10. */
module Warmup {
  import opened Common

  datatype WarmupSet = WarmupSet(setNumber: int, weight: int, reps: int, percentage: int, isWarmup: bool)

  /** The response body: the sets, and the working weight echoed back
      (absent when the weight was not positive). */
  datatype WarmupResponse = WarmupResponse(warmupSets: seq<WarmupSet>, workingWeight: Option<real>)

  const Percentages: seq<real> := [0.4, 0.6, 0.8]
  const SlotReps: seq<int> := [10, 6, 3]
  const PercentLabels: seq<int> := [40, 60, 80]

  function Times5(k: int): (r: int)
    ensures r % 5 == 0
  {
    k * 5
  }

  /** `round(working_weight * pct / 5) * 5` for slot i. */
  function SlotWeight(workingWeight: real, i: nat): int
    requires i < 3
  {
    Times5(RoundHalfEven(workingWeight * Percentages[i] / 5.0))
  }

  function SlotWeights(workingWeight: real): (ws: seq<int>)
    ensures |ws| == 3
    ensures forall i :: 0 <= i < 3 ==> ws[i] % 5 == 0
  {
    [SlotWeight(workingWeight, 0), SlotWeight(workingWeight, 1), SlotWeight(workingWeight, 2)]
  }

  function Slot(ws: seq<int>, i: nat): WarmupSet
    requires |ws| == 3 && i < 3
  {
    WarmupSet(i + 1, ws[i], SlotReps[i], PercentLabels[i], true)
  }

  /** The sets the loop has produced after looking at the first n slots. */
  function PlanUpTo(ws: seq<int>, n: nat): seq<WarmupSet>
    requires |ws| == 3 && n <= 3
  {
    if n == 0 then []
    else
      PlanUpTo(ws, n - 1) + (if ws[n - 1] >= 10 then [Slot(ws, n - 1)] else [])
  }

  function Plan(workingWeight: real): seq<WarmupSet>
  {
    PlanUpTo(SlotWeights(workingWeight), 3)
  }

  /** Every planned set is a warm-up of at least 10 whose number is its slot
      (1, 2 or 3) and whose weight, label and reps are that slot's. */
  ghost predicate SetsAreSlots(ws: seq<int>, r: seq<WarmupSet>, n: nat)
    requires |ws| == 3 && n <= 3
  {
    forall k :: 0 <= k < |r| ==>
      r[k].weight >= 10 && 1 <= r[k].setNumber <= n && r[k] == Slot(ws, r[k].setNumber - 1)
  }

  /** Set numbers rise strictly, so a skipped slot leaves a gap. */
  ghost predicate NumbersRise(r: seq<WarmupSet>)
  {
    forall k, l :: 0 <= k < l < |r| ==> r[k].setNumber < r[l].setNumber
  }

  /** A slot appears exactly when its rounded weight reaches 10. */
  ghost predicate SlotKeptIffHeavyEnough(ws: seq<int>, r: seq<WarmupSet>, n: nat)
    requires |ws| == 3 && n <= 3
  {
    forall i :: 0 <= i < n ==> (ws[i] >= 10 <==> Slot(ws, i) in r)
  }

  lemma {:induction false} PlanUpToSlots(ws: seq<int>, n: nat)
    requires |ws| == 3 && n <= 3
    ensures |PlanUpTo(ws, n)| <= n && SetsAreSlots(ws, PlanUpTo(ws, n), n)
  {
    if n > 0 {
      PlanUpToSlots(ws, n - 1);
    }
  }

  lemma {:induction false} PlanUpToRises(ws: seq<int>, n: nat)
    requires |ws| == 3 && n <= 3
    ensures NumbersRise(PlanUpTo(ws, n))
  {
    if n > 0 {
      PlanUpToRises(ws, n - 1);
      PlanUpToSlots(ws, n - 1);
    }
  }

  lemma {:induction false} PlanUpToKeeps(ws: seq<int>, n: nat)
    requires |ws| == 3 && n <= 3
    ensures SlotKeptIffHeavyEnough(ws, PlanUpTo(ws, n), n)
  {
    if n > 0 {
      PlanUpToKeeps(ws, n - 1);
      PlanUpToSlots(ws, n - 1);
      var prev := PlanUpTo(ws, n - 1);
      assert Slot(ws, n - 1) !in prev;
    }
  }

  lemma PlanUpToWellFormed(ws: seq<int>, n: nat)
    requires |ws| == 3 && n <= 3
    ensures var r := PlanUpTo(ws, n);
      |r| <= n && SetsAreSlots(ws, r, n) && NumbersRise(r) && SlotKeptIffHeavyEnough(ws, r, n)
  {
    PlanUpToSlots(ws, n);
    PlanUpToRises(ws, n);
    PlanUpToKeeps(ws, n);
  }

  /** Python's rounding is monotone. */
  lemma RoundHalfEvenMonotone(x: real, y: real)
    requires x <= y
    ensures RoundHalfEven(x) <= RoundHalfEven(y)
  {
  }

  /** Each slot's percentage is higher than the one before, so (rounding
      being monotone) its weight is never lower. */
  lemma SlotWeightsAscend(workingWeight: real)
    requires workingWeight > 0.0
    ensures SlotWeight(workingWeight, 0) <= SlotWeight(workingWeight, 1) <= SlotWeight(workingWeight, 2)
  {
    RoundHalfEvenMonotone(workingWeight * 0.4 / 5.0, workingWeight * 0.6 / 5.0);
    RoundHalfEvenMonotone(workingWeight * 0.6 / 5.0, workingWeight * 0.8 / 5.0);
  }

  lemma {:induction false} PlanUpToAscending(ws: seq<int>, n: nat)
    requires |ws| == 3 && n <= 3 && ws[0] <= ws[1] <= ws[2]
    ensures var r := PlanUpTo(ws, n);
      forall k, l :: 0 <= k < l < |r| ==> r[k].weight <= r[l].weight
  {
    if n > 0 {
      PlanUpToAscending(ws, n - 1);
      PlanUpToSlots(ws, n - 1);
    }
  }

  /** For a positive working weight the warm-up weights never decrease
      from one set to the next. */
  lemma PlanAscending(workingWeight: real)
    requires workingWeight > 0.0
    ensures var r := Plan(workingWeight);
      forall k, l :: 0 <= k < l < |r| ==> r[k].weight <= r[l].weight
  {
    var ws := SlotWeights(workingWeight);
    SlotWeightsAscend(workingWeight);
    assert ws[0] <= ws[1] <= ws[2];
    PlanUpToAscending(ws, 3);
    assert Plan(workingWeight) == PlanUpTo(ws, 3);
  }

  /** `calculate_warmup_sets`: no sets for a working weight of 0 or less;
      otherwise the planned sets and the weight echoed back. */
  method CalculateWarmupSets(workingWeight: real) returns (r: WarmupResponse)
    ensures workingWeight <= 0.0 ==> r == WarmupResponse([], None)
    ensures workingWeight > 0.0 ==> r == WarmupResponse(Plan(workingWeight), Some(workingWeight))
    ensures |r.warmupSets| <= 3
    ensures forall k :: 0 <= k < |r.warmupSets| ==>
      var s := r.warmupSets[k];
      s.isWarmup && s.weight % 5 == 0 && s.weight >= 10 && 1 <= s.setNumber <= 3 &&
      s.percentage == PercentLabels[s.setNumber - 1] && s.reps == SlotReps[s.setNumber - 1]
  {
    if workingWeight <= 0.0 {
      return WarmupResponse([], None);
    }
    ghost var ws := SlotWeights(workingWeight);
    var sets: seq<WarmupSet> := [];
    for i := 0 to 3
      invariant sets == PlanUpTo(ws, i)
    {
      var warmupWeight := Times5(RoundHalfEven(workingWeight * Percentages[i] / 5.0));
      assert warmupWeight == ws[i] by {
        assert ws[i] == SlotWeight(workingWeight, i);
      }
      if warmupWeight >= 10 {
        sets := sets + [WarmupSet(i + 1, warmupWeight, SlotReps[i], PercentLabels[i], true)];
        assert sets == PlanUpTo(ws, i) + [Slot(ws, i)];
      }
    }
    PlanShape(workingWeight);
    r := WarmupResponse(sets, Some(workingWeight));
  }

  /** Every planned set is a warm-up of a multiple of 5, at least 10, whose
      label and reps are those of its slot. */
  lemma PlanShape(workingWeight: real)
    ensures var r := Plan(workingWeight);
      |r| <= 3 &&
      forall k :: 0 <= k < |r| ==>
        var s := r[k];
        s.isWarmup && s.weight % 5 == 0 && s.weight >= 10 && 1 <= s.setNumber <= 3 &&
        s.percentage == PercentLabels[s.setNumber - 1] && s.reps == SlotReps[s.setNumber - 1]
  {
    var ws := SlotWeights(workingWeight);
    var r := PlanUpTo(ws, 3);
    PlanUpToSlots(ws, 3);
    forall k | 0 <= k < |r|
      ensures r[k].isWarmup && r[k].weight % 5 == 0 && r[k].weight >= 10 && 1 <= r[k].setNumber <= 3 &&
        r[k].percentage == PercentLabels[r[k].setNumber - 1] && r[k].reps == SlotReps[r[k].setNumber - 1]
    {
      var i := r[k].setNumber - 1;
      assert r[k] == Slot(ws, i);
      assert ws[i] % 5 == 0;
    }
  }

  /** A working weight of 15 skips the 40% slot (it rounds to 5): the
      first warm-up is numbered 2. */
  lemma SkippedSlotLeavesGap()
    ensures Plan(15.0) == [WarmupSet(2, 10, 6, 60, true), WarmupSet(3, 10, 3, 80, true)]
  {
    assert RoundHalfEven(15.0 * 0.4 / 5.0) == 1;
    assert SlotWeights(15.0) == [5, 10, 10];
  }
}
