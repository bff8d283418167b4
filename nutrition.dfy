/** The server's daily nutrition record: meals by meal type, and the four
    daily totals recomputed from every meal entry after each add or
    remove. A stored day is given (or absent); saving it back is left to
    the caller. */
module Nutrition {
  import opened Common

  datatype MealEntry = MealEntry(
    foodId: string,
    foodName: string,
    servings: real,
    calories: real,
    protein: real,
    carbs: real,
    fat: real)

  datatype Totals = Totals(calories: real, protein: real, carbs: real, fat: real)

  /** A day's `meals` dict, in its key order. */
  type Meals = seq<(string, seq<MealEntry>)>

  /** A stored day; `meals` is absent when the document has no such key. */
  datatype Day = Day(meals: Option<Meals>, totals: Totals)

  datatype NutritionError =
    | DayNotFound        // 404 "No nutrition data for this date"
    | EntryNotFound      // 404 "Meal entry not found"
    | MealTypeMissing    // KeyError on `meals[entry.meal_type]`
    | IndexOutOfRange    // IndexError from `pop` with a too negative index

  const MealTypes: seq<string> := ["breakfast", "lunch", "dinner", "snacks"]

  const Zero := Totals(0.0, 0.0, 0.0, 0.0)

  /** The four empty meal lists a day starts with. */
  function DefaultMeals(): (m: Meals)
    ensures |m| == 4 && forall k :: 0 <= k < 4 ==> m[k] == (MealTypes[k], [])
  {
    [("breakfast", []), ("lunch", []), ("dinner", []), ("snacks", [])]
  }

  function Plus(a: Totals, b: Totals): Totals
  {
    Totals(a.calories + b.calories, a.protein + b.protein, a.carbs + b.carbs, a.fat + b.fat)
  }

  function TotalsOf(e: MealEntry): Totals
  {
    Totals(e.calories, e.protein, e.carbs, e.fat)
  }

  function SumEntries(entries: seq<MealEntry>): Totals
  {
    if entries == [] then Zero
    else Plus(SumEntries(entries[..|entries| - 1]), TotalsOf(entries[|entries| - 1]))
  }

  /** Every macro summed over every entry of every meal. */
  function SumMeals(meals: Meals): Totals
  {
    if meals == [] then Zero
    else Plus(SumMeals(meals[..|meals| - 1]), SumEntries(meals[|meals| - 1].1))
  }

  /** The position of a meal type among the keys. */
  function IndexOf(meals: Meals, key: string): (r: Option<nat>)
    ensures r.None? <==> forall j :: 0 <= j < |meals| ==> meals[j].0 != key
    ensures r.Some? ==>
      (r.value < |meals| && meals[r.value].0 == key && forall j :: 0 <= j < r.value ==> meals[j].0 != key)
  {
    if meals == [] then None
    else if meals[0].0 == key then Some(0)
    else
      var rest := IndexOf(meals[1..], key);
      assert forall j :: 1 <= j < |meals| ==> meals[j] == meals[1..][j - 1];
      match rest
      case None => None
      case Some(i) => Some(i + 1)
  }

  /** A new day's meals: `{meal_type: [entry], "breakfast": [], ...}` keeps
      the meal type's first position when it repeats a default key, so the
      meal type comes first, then the other default types in their order. */
  function NewDayMeals(mealType: string, e: MealEntry): Meals
  {
    [(mealType, [e])] + OtherDefaults(MealTypes, mealType)
  }

  function OtherDefaults(keys: seq<string>, except: string): (m: Meals)
    ensures forall k :: 0 <= k < |m| ==> m[k].1 == [] && m[k].0 != except && m[k].0 in keys
  {
    if keys == [] then []
    else (if keys[0] == except then [] else [(keys[0], [])]) + OtherDefaults(keys[1..], except)
  }

  // ---------------------------------------------------------------- totals

  lemma {:induction false} SumEntriesAppend(a: seq<MealEntry>, b: seq<MealEntry>)
    ensures SumEntries(a + b) == Plus(SumEntries(a), SumEntries(b))
    decreases |b|
  {
    if b == [] {
      assert a + b == a;
    } else {
      var init := b[..|b| - 1];
      assert (a + b)[..|a + b| - 1] == a + init;
      assert (a + b)[|a + b| - 1] == b[|b| - 1];
      SumEntriesAppend(a, init);
    }
  }

  lemma {:induction false} SumMealsAllEmpty(meals: Meals)
    requires forall k :: 0 <= k < |meals| ==> meals[k].1 == []
    ensures SumMeals(meals) == Zero
  {
    if meals != [] {
      SumMealsAllEmpty(meals[..|meals| - 1]);
    }
  }

  lemma {:induction false} SumMealsPrepend(p: (string, seq<MealEntry>), meals: Meals)
    ensures SumMeals([p] + meals) == Plus(SumEntries(p.1), SumMeals(meals))
    decreases |meals|
  {
    if meals == [] {
      assert ([p] + meals)[..0] == [];
    } else {
      assert ([p] + meals)[..|[p] + meals| - 1] == [p] + meals[..|meals| - 1];
      SumMealsPrepend(p, meals[..|meals| - 1]);
    }
  }

  /** Replacing one meal's list changes the totals by exactly that list's
      difference. */
  lemma {:induction false} SumMealsUpdate(meals: Meals, i: nat, entries: seq<MealEntry>)
    requires i < |meals|
    ensures Plus(SumMeals(meals[i := (meals[i].0, entries)]), SumEntries(meals[i].1)) ==
      Plus(SumMeals(meals), SumEntries(entries))
    decreases |meals|
  {
    var m' := meals[i := (meals[i].0, entries)];
    var n := |meals| - 1;
    assert m'[..n] == if i == n then meals[..n] else meals[..n][i := (meals[i].0, entries)];
    if i < n {
      SumMealsUpdate(meals[..n], i, entries);
    }
  }

  /** `for meal_type in meals.values(): for item in meal_type: totals += item`. */
  method RecalculateTotals(meals: Meals) returns (t: Totals)
    ensures t == SumMeals(meals)
  {
    t := Zero;
    for i := 0 to |meals|
      invariant t == SumMeals(meals[..i])
    {
      assert meals[..i + 1][..i] == meals[..i];
      var items := meals[i].1;
      ghost var before := t;
      for j := 0 to |items|
        invariant t == Plus(before, SumEntries(items[..j]))
      {
        assert items[..j + 1][..j] == items[..j];
        t := Plus(t, TotalsOf(items[j]));
      }
      assert items[..|items|] == items;
    }
    assert meals[..|meals|] == meals;
  }

  // ---------------------------------------------------------------- the endpoints

  /** `get_daily_nutrition` for a date with nothing stored. */
  function EmptyDay(): (d: Day)
    ensures d.totals == Zero && d.meals == Some(DefaultMeals())
    ensures SumMeals(d.meals.value) == d.totals
  {
    SumMealsAllEmpty(DefaultMeals());
    Day(Some(DefaultMeals()), Zero)
  }

  /** `add_meal_entry`. A stored day gets the entry appended to its meal type
      (a key error when the type is not among its meals) and every total
      recomputed; a new day holds the entry alone, with its values as the
      totals. */
  method AddMealEntry(existing: Option<Day>, mealType: string, e: MealEntry) returns (r: Result<Day, NutritionError>)
    ensures existing.None? ==> r == Success(Day(Some(NewDayMeals(mealType, e)), TotalsOf(e)))
    ensures existing.Some? ==>
      var meals := if existing.value.meals.Some? then existing.value.meals.value else DefaultMeals();
      match IndexOf(meals, mealType)
      case None => r == Failure(MealTypeMissing)
      case Some(i) =>
        r.Success? &&
        r.value.meals == Some(meals[i := (mealType, meals[i].1 + [e])]) &&
        r.value.totals == SumMeals(r.value.meals.value)
  {
    if existing.Some? {
      var meals := if existing.value.meals.Some? then existing.value.meals.value else DefaultMeals();
      var i := IndexOf(meals, mealType);
      if i.None? {
        return Failure(MealTypeMissing);
      }
      meals := meals[i.value := (mealType, meals[i.value].1 + [e])];
      var t := RecalculateTotals(meals);
      r := Success(Day(Some(meals), t));
    } else {
      r := Success(Day(Some(NewDayMeals(mealType, e)), TotalsOf(e)));
    }
  }

  /** The new day holds the entry under its meal type only, and its totals
      are the sum over its meals. */
  lemma NewDayConsistent(mealType: string, e: MealEntry)
    ensures var m := NewDayMeals(mealType, e);
      SumMeals(m) == TotalsOf(e) &&
      m[0] == (mealType, [e]) &&
      (forall k :: 1 <= k < |m| ==> m[k].1 == [] && m[k].0 != mealType)
  {
    var others := OtherDefaults(MealTypes, mealType);
    SumMealsAllEmpty(others);
    SumMealsPrepend((mealType, [e]), others);
    assert [e][..0] == [];
  }

  /** Adding an entry to a meal raises each total by the entry's value. */
  lemma AddRaisesTotals(meals: Meals, i: nat, e: MealEntry)
    requires i < |meals|
    ensures SumMeals(meals[i := (meals[i].0, meals[i].1 + [e])]) == Plus(SumMeals(meals), TotalsOf(e))
  {
    SumMealsUpdate(meals, i, meals[i].1 + [e]);
    SumEntriesAppend(meals[i].1, [e]);
    assert [e][..0] == [];
  }

  /** The position Python's `list.pop(index)` removes, or none. */
  function PopPosition(len: nat, index: int): Option<nat>
  {
    if index >= len || index + len < 0 then None
    else if index < 0 then Some(len + index)
    else Some(index)
  }

  function RemoveAt(entries: seq<MealEntry>, p: nat): (r: seq<MealEntry>)
    requires p < |entries|
    ensures |r| == |entries| - 1
    ensures forall k :: 0 <= k < p ==> r[k] == entries[k]
    ensures forall k :: p <= k < |r| ==> r[k] == entries[k + 1]
  {
    entries[..p] + entries[p + 1..]
  }

  /** `remove_meal_entry`: not found for a missing day, a missing meal type
      or an index at or past the end; an index error for an index before
      `-len`; otherwise the entry `pop` picks is removed and every total
      recomputed. */
  method RemoveMealEntry(existing: Option<Day>, mealType: string, index: int) returns (r: Result<Day, NutritionError>)
    ensures existing.None? ==> r == Failure(DayNotFound)
    ensures existing.Some? ==>
      var meals := if existing.value.meals.Some? then existing.value.meals.value else [];
      match IndexOf(meals, mealType)
      case None => r == Failure(EntryNotFound)
      case Some(i) =>
        var entries := meals[i].1;
        (index >= |entries| ==> r == Failure(EntryNotFound)) &&
        (index + |entries| < 0 ==> r == Failure(IndexOutOfRange)) &&
        (0 <= index + |entries| && index < |entries| ==>
          var p := PopPosition(|entries|, index).value;
          r.Success? &&
          r.value.meals == Some(meals[i := (mealType, RemoveAt(entries, p))]) &&
          r.value.totals == SumMeals(r.value.meals.value))
  {
    if existing.None? {
      return Failure(DayNotFound);
    }
    var meals := if existing.value.meals.Some? then existing.value.meals.value else [];
    var i := IndexOf(meals, mealType);
    if i.None? || index >= |meals[i.value].1| {
      return Failure(EntryNotFound);
    }
    var entries := meals[i.value].1;
    var p := PopPosition(|entries|, index);
    if p.None? {
      return Failure(IndexOutOfRange);
    }
    meals := meals[i.value := (mealType, RemoveAt(entries, p.value))];
    var t := RecalculateTotals(meals);
    r := Success(Day(Some(meals), t));
  }

  /** Removing an entry lowers each total by the entry's value. */
  lemma RemoveLowersTotals(meals: Meals, i: nat, p: nat)
    requires i < |meals| && p < |meals[i].1|
    ensures var entries := meals[i].1;
      Plus(SumMeals(meals[i := (meals[i].0, RemoveAt(entries, p))]), TotalsOf(entries[p])) == SumMeals(meals)
  {
    var entries := meals[i].1;
    var rest := RemoveAt(entries, p);
    SumMealsUpdate(meals, i, rest);
    SumEntriesRemove(entries, p);
    PlusCancel(SumMeals(meals[i := (meals[i].0, rest)]), SumEntries(entries), SumMeals(meals),
      SumEntries(rest), TotalsOf(entries[p]));
  }

  lemma PlusCancel(a: Totals, b: Totals, c: Totals, d: Totals, x: Totals)
    requires Plus(a, b) == Plus(c, d) && Plus(d, x) == b
    ensures Plus(a, x) == c
  {
  }

  lemma SumEntriesSplit(entries: seq<MealEntry>, p: nat)
    requires p < |entries|
    ensures SumEntries(entries) ==
      Plus(Plus(SumEntries(entries[..p]), TotalsOf(entries[p])), SumEntries(entries[p + 1..]))
  {
    var a, x, b := entries[..p], entries[p], entries[p + 1..];
    assert entries == (a + [x]) + b;
    SumEntriesAppend(a + [x], b);
  }

  lemma SumEntriesRemove(entries: seq<MealEntry>, p: nat)
    requires p < |entries|
    ensures Plus(SumEntries(RemoveAt(entries, p)), TotalsOf(entries[p])) == SumEntries(entries)
  {
    SumEntriesSplit(entries, p);
    SumEntriesAppend(entries[..p], entries[p + 1..]);
  }

  /** A negative index counts from the end, as in Python. */
  lemma PopFromEnd(len: nat, index: int)
    requires 0 <= index + len && index < 0
    ensures PopPosition(len, index) == Some(len + index) && len + index < len
  {
  }
}
