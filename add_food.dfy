/** The add-food screen: the food list filtered by category chip and name
    search, the serving count read from the servings input (1 when it
    reads as 0 or as no number), the step buttons, and the meal entry sent
    for the selected food with every macro scaled by the serving count.
    `parseFloat` is an input: the number the servings text reads as, or
    none for NaN. */
module AddFood {
  import opened Common
  import Nutrition

  datatype Food = Food(
    foodId: string,
    name: string,
    category: string,
    servingSize: string,
    calories: real,
    protein: real,
    carbs: real,
    fat: real)

  const Categories: seq<string> := ["all", "protein", "carbs", "fats", "vegetables", "dairy"]

  /** `filteredFoods`: the category matches (or "all" is chosen) and the
      name contains the search text, ignoring case. */
  function FilteredFoods(foods: seq<Food>, selectedCategory: string, search: string): (r: seq<Food>)
    ensures |r| <= |foods|
    ensures forall f :: f in r <==> f in foods && MatchesCategoryAndSearch(f.category, f.name, selectedCategory, search)
  {
    if foods == [] then []
    else
      var f := foods[0];
      (if MatchesCategoryAndSearch(f.category, f.name, selectedCategory, search) then [f] else []) +
      FilteredFoods(foods[1..], selectedCategory, search)
  }

  /** The filter keeps the list's order: filtering a concatenation is
      filtering each part. */
  lemma {:induction false} FilteredFoodsAppend(a: seq<Food>, b: seq<Food>, selectedCategory: string, search: string)
    ensures FilteredFoods(a + b, selectedCategory, search) == FilteredFoods(a, selectedCategory, search) + FilteredFoods(b, selectedCategory, search)
  {
    if a == [] {
      assert a + b == b;
    } else {
      assert (a + b)[0] == a[0];
      assert (a + b)[1..] == a[1..] + b;
      FilteredFoodsAppend(a[1..], b, selectedCategory, search);
    }
  }

  /** The "all" chip with an empty search shows the whole list. */
  lemma {:induction false} AllChipShowsEverything(foods: seq<Food>)
    ensures FilteredFoods(foods, "all", "") == foods
  {
    if foods != [] {
      AllChipShowsEverything(foods[1..]);
      assert foods == [foods[0]] + foods[1..];
    }
  }

  /** Filtering again with the same chip and search changes nothing. */
  lemma {:induction false} FilterIdempotent(foods: seq<Food>, category: string, search: string)
    ensures FilteredFoods(FilteredFoods(foods, category, search), category, search) == FilteredFoods(foods, category, search)
  {
    if foods != [] {
      FilterIdempotent(foods[1..], category, search);
      var f := foods[0];
      if MatchesCategoryAndSearch(f.category, f.name, category, search) {
        var r := FilteredFoods(foods, category, search);
        assert r == [f] + FilteredFoods(foods[1..], category, search);
        assert r[0] == f && r[1..] == FilteredFoods(foods[1..], category, search);
        assert FilteredFoods(r, category, search) == [f] + FilteredFoods(r[1..], category, search);
      } else {
        assert FilteredFoods(foods, category, search) == FilteredFoods(foods[1..], category, search);
      }
    }
  }

  /** `parseFloat(servings) || 1`. */
  function ServingCount(parsed: Option<real>): (r: real)
    ensures r != 0.0
    ensures parsed.Some? && parsed.value != 0.0 ==> r == parsed.value
    ensures parsed.None? || parsed.value == 0.0 ==> r == 1.0
  {
    if parsed.None? || parsed.value == 0.0 then 1.0 else parsed.value
  }

  /** The minus button: half a serving less, never below half a serving. */
  function Decrement(count: real): (r: real)
    ensures r >= 0.5
    ensures r == count - 0.5 || r == 0.5
    ensures count >= 1.0 ==> r == count - 0.5
  {
    if 0.5 > count - 0.5 then 0.5 else count - 0.5
  }

  /** The plus button. */
  function Increment(count: real): real
  {
    count + 0.5
  }

  /** The count the screen reads after a button writes `String(x)` back,
      taking `parseFloat(String(x))` to be `x`. */
  function Reread(x: real): real
  {
    ServingCount(Some(x))
  }

  /** After the minus button the count is the written value; after the plus
      button too, except from -0.5, where 0 is written and read back as 1. */
  lemma StepButtons(count: real)
    ensures Reread(Decrement(count)) == Decrement(count)
    ensures count != -0.5 ==> Reread(Increment(count)) == count + 0.5
    ensures count == -0.5 ==> Reread(Increment(count)) == 1.0
  {
  }

  /** The minus button undoes the plus button from half a serving up. */
  lemma DecrementUndoesIncrement(count: real)
    requires count >= 0.5
    ensures Decrement(Reread(Increment(count))) == count
  {
  }

  /** The request `handleAddFood` sends. */
  datatype AddRequest = AddRequest(date: string, mealType: string, entry: Nutrition.MealEntry)

  /** The entry for a food at a serving count. */
  function Scaled(food: Food, count: real): Nutrition.MealEntry
  {
    Nutrition.MealEntry(food.foodId, food.name, count,
      food.calories * count, food.protein * count, food.carbs * count, food.fat * count)
  }

  /** `handleAddFood` up to the request: nothing without a selected food, a
      meal type and a date (an empty string counts as missing). */
  function AddFoodRequest(selected: Option<Food>, mealType: Option<string>, date: Option<string>, parsed: Option<real>): (r: Option<AddRequest>)
    ensures r.Some? <==> selected.Some? && mealType.Some? && mealType.value != "" && date.Some? && date.value != ""
    ensures r.Some? ==> (r.value.date == date.value && r.value.mealType == mealType.value &&
      r.value.entry.foodId == selected.value.foodId && r.value.entry.foodName == selected.value.name &&
      r.value.entry.servings == ServingCount(parsed))
  {
    if selected.None? || mealType.None? || mealType.value == "" || date.None? || date.value == "" then None
    else Some(AddRequest(date.value, mealType.value, Scaled(selected.value, ServingCount(parsed))))
  }

  /** Every macro of the entry is the food's per-serving value times the
      servings the entry records, and dividing by those servings gives the
      per-serving values back. */
  lemma EntryScalesEveryMacro(selected: Option<Food>, mealType: Option<string>, date: Option<string>, parsed: Option<real>)
    ensures var r := AddFoodRequest(selected, mealType, date, parsed);
      r.Some? ==>
        var e := r.value.entry;
        var f := selected.value;
        e.calories == f.calories * e.servings && e.protein == f.protein * e.servings &&
        e.carbs == f.carbs * e.servings && e.fat == f.fat * e.servings &&
        e.calories / e.servings == f.calories && e.protein / e.servings == f.protein &&
        e.carbs / e.servings == f.carbs && e.fat / e.servings == f.fat
  {
  }

  /** The totals the entry adds to the day are the food's totals at one
      serving, scaled. */
  lemma TotalsScale(food: Food, count: real)
    ensures Nutrition.TotalsOf(Scaled(food, count)) ==
      Nutrition.Totals(food.calories * count, food.protein * count, food.carbs * count, food.fat * count)
    ensures Nutrition.TotalsOf(Scaled(food, 2.0 * count)) ==
      Nutrition.Plus(Nutrition.TotalsOf(Scaled(food, count)), Nutrition.TotalsOf(Scaled(food, count)))
  {
  }

  /** `getMealTitle`: the four meal types by name, anything else "Meal". */
  function MealTitle(mealType: Option<string>): (r: string)
    ensures mealType == Some("breakfast") ==> r == "Breakfast"
    ensures mealType == Some("lunch") ==> r == "Lunch"
    ensures mealType == Some("dinner") ==> r == "Dinner"
    ensures mealType == Some("snacks") ==> r == "Snacks"
    ensures mealType.None? || mealType.value !in Nutrition.MealTypes ==> r == "Meal"
  {
    var key := if mealType.Some? then mealType.value else "";
    if key == "breakfast" then "Breakfast"
    else if key == "lunch" then "Lunch"
    else if key == "dinner" then "Dinner"
    else if key == "snacks" then "Snacks"
    else "Meal"
  }
}
