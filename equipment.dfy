/** The server's two exercise filters: by category (when one is given) and
    by equipment. The public list keeps an exercise needing no equipment or
    needing ANY of the comma-separated items asked for; the per-user list
    keeps one needing no equipment or whose every item the user owns. */
module Equipment {
  import opened Common
  import opened Workouts

  /** `if category: query["category"] = category`. */
  predicate InCategory(ex: Exercise, category: string)
  {
    category == "" || ex.category == category
  }

  predicate NeedsAnyOf(ex: Exercise, items: seq<string>)
  {
    ex.equipmentRequired == [] || exists eq :: eq in ex.equipmentRequired && eq in items
  }

  predicate NeedsOnly(ex: Exercise, owned: seq<string>)
  {
    ex.equipmentRequired == [] || forall eq :: eq in ex.equipmentRequired ==> eq in owned
  }

  /** `get_exercises`: the category filter, then (for a non-empty equipment
      text) the any-item filter over its comma-separated pieces. The order
      is the catalog's. */
  function Filter(exs: seq<Exercise>, category: string, equipment: string): (r: seq<Exercise>)
    ensures forall ex :: ex in r <==>
      ex in exs && InCategory(ex, category) && (equipment == "" || NeedsAnyOf(ex, Split(equipment, ',')))
    ensures |r| <= |exs|
  {
    if exs == [] then []
    else
      var ex := exs[0];
      var keep := InCategory(ex, category) && (equipment == "" || NeedsAnyOf(ex, Split(equipment, ',')));
      (if keep then [ex] else []) + Filter(exs[1..], category, equipment)
  }

  /** The filter keeps the list's order: filtering a concatenation is
      filtering each part. */
  lemma {:induction false} FilterAppend(a: seq<Exercise>, b: seq<Exercise>, category: string, equipment: string)
    ensures Filter(a + b, category, equipment) == Filter(a, category, equipment) + Filter(b, category, equipment)
  {
    if a == [] {
      assert a + b == b;
    } else {
      assert (a + b)[0] == a[0];
      assert (a + b)[1..] == a[1..] + b;
      FilterAppend(a[1..], b, category, equipment);
    }
  }

  /** `get_exercises_for_user`: the category filter, then the all-items
      filter against the user's equipment (none when the user has set
      none). */
  function FilterForUser(exs: seq<Exercise>, category: string, owned: Option<seq<string>>): (r: seq<Exercise>)
    ensures forall ex :: ex in r <==>
      ex in exs && InCategory(ex, category) && NeedsOnly(ex, if owned.Some? then owned.value else [])
    ensures |r| <= |exs|
  {
    if exs == [] then []
    else
      var ex := exs[0];
      var keep := InCategory(ex, category) && NeedsOnly(ex, if owned.Some? then owned.value else []);
      (if keep then [ex] else []) + FilterForUser(exs[1..], category, owned)
  }

  /** The filter keeps the list's order: filtering a concatenation is
      filtering each part. */
  lemma {:induction false} FilterForUserAppend(a: seq<Exercise>, b: seq<Exercise>, category: string, owned: Option<seq<string>>)
    ensures FilterForUser(a + b, category, owned) == FilterForUser(a, category, owned) + FilterForUser(b, category, owned)
  {
    if a == [] {
      assert a + b == b;
    } else {
      assert (a + b)[0] == a[0];
      assert (a + b)[1..] == a[1..] + b;
      FilterForUserAppend(a[1..], b, category, owned);
    }
  }

  /** With no equipment the user is offered exactly the exercises needing
      none. */
  lemma NoEquipmentMeansBodyweight(exs: seq<Exercise>, category: string)
    ensures forall ex :: ex in FilterForUser(exs, category, None) <==>
      ex in exs && InCategory(ex, category) && ex.equipmentRequired == []
  {
    forall ex | ex in exs && ex.equipmentRequired != []
      ensures !NeedsOnly(ex, [])
    {
      assert ex.equipmentRequired[0] in ex.equipmentRequired;
    }
  }

  /** The per-user list is part of the public list asked for with the
      user's own equipment joined by commas: needing only owned items
      implies needing some listed item. */
  lemma UserListWithinPublicList(exs: seq<Exercise>, category: string, owned: seq<string>)
    requires owned != [] && forall k :: 0 <= k < |owned| ==> ',' !in owned[k]
    ensures forall ex :: ex in FilterForUser(exs, category, Some(owned)) ==>
      ex in Filter(exs, category, Join(owned, ','))
  {
    SplitJoin(owned, ',');
    forall ex | ex in FilterForUser(exs, category, Some(owned))
      ensures NeedsAnyOf(ex, owned)
    {
      if ex.equipmentRequired != [] {
        assert ex.equipmentRequired[0] in ex.equipmentRequired;
      }
    }
  }
}
