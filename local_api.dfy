/** The app's on-device data layer: every collection is a JSON list kept
    under its own storage key, read back (or taken as empty) on each call,
    changed in memory and written back whole. Records are untyped JSON
    objects, so field access, truthiness and `===` follow JavaScript. */
module LocalApi {
  import opened Common

  // ---------------------------------------------------------------- JSON values

  datatype Value =
    | Null
    | Bool(b: bool)
    | Num(n: real)
    | Str(s: string)
    | List(items: seq<Value>)
    | Obj(fields: map<string, Value>)

  /** A stored object. */
  type Record = map<string, Value>

  /** `record.key`: the value, or nothing (`undefined`). */
  function Field(r: Record, key: string): Option<Value>
  {
    if key in r then Some(r[key]) else None
  }

  /** JavaScript truthiness of a possibly missing value. */
  predicate Truthy(v: Option<Value>)
  {
    match v
    case None => false
    case Some(Null) => false
    case Some(Bool(b)) => b
    case Some(Num(n)) => n != 0.0
    case Some(Str(s)) => s != ""
    case Some(List(_)) => true
    case Some(Obj(_)) => true
  }

  /** `a === b` between values read from two separately parsed objects: two
      missing values are equal, primitives compare by value, and arrays or
      objects (always distinct instances) never compare equal. */
  predicate StrictEq(a: Option<Value>, b: Option<Value>)
  {
    match (a, b)
    case (None, None) => true
    case (Some(Null), Some(Null)) => true
    case (Some(Bool(x)), Some(Bool(y))) => x == y
    case (Some(Num(x)), Some(Num(y))) => x == y
    case (Some(Str(x)), Some(Str(y))) => x == y
    case _ => false
  }

  /** Strict equality implies the values themselves are equal. */
  lemma StrictEqIsEquality(a: Option<Value>, b: Option<Value>)
    requires StrictEq(a, b)
    ensures a == b
  {
  }

  datatype ApiError =
    | TypeError              // a field used as a string or an array is not one
    | NotFound(message: string)

  /** A storage slot: a list that parses, or something unreadable (bad
      JSON, an empty string, a failing read). */
  datatype Entry = Stored(records: seq<Record>) | Unreadable

  const WorkoutsKey := "gaintrack_workouts"
  const ExercisesKey := "gaintrack_exercises"
  const FoodsKey := "gaintrack_foods"
  const NutritionKey := "gaintrack_nutrition"
  const MeasurementsKey := "gaintrack_measurements"

  // ---------------------------------------------------------------- queries

  /** `records.filter(r => r[key] === value)` for a given string. */
  function FilterEq(rs: seq<Record>, key: string, value: string): (r: seq<Record>)
    ensures |r| <= |rs|
    ensures forall x :: x in r <==> x in rs && Field(x, key) == Some(Str(value))
  {
    if rs == [] then []
    else (if Field(rs[0], key) == Some(Str(value)) then [rs[0]] else []) + FilterEq(rs[1..], key, value)
  }

  /** `!ex.equipment_required.length || ex.equipment_required.some(eq =>
      wanted.includes(eq))`: a missing or null field, a non-empty string,
      or an object with a truthy `length` throws; an empty list or string,
      a number, a boolean or an object without a length keeps the record;
      a non-empty list keeps it when one of its strings is wanted. */
  function EquipmentTest(v: Option<Value>, wanted: seq<string>): Result<bool, ApiError>
  {
    match v
    case None => Failure(TypeError)
    case Some(Null) => Failure(TypeError)
    case Some(List(items)) => Success(items == [] || exists i :: 0 <= i < |items| && items[i].Str? && items[i].s in wanted)
    case Some(Str(s)) => if s == "" then Success(true) else Failure(TypeError)
    case Some(Obj(f)) => if "length" in f && Truthy(Some(f["length"])) then Failure(TypeError) else Success(true)
    case Some(_) => Success(true)
  }

  /** The equipment filter: it throws as soon as one record's test throws. */
  function FilterEquipment(rs: seq<Record>, wanted: seq<string>): (r: Result<seq<Record>, ApiError>)
    ensures r.Failure? <==> exists x :: x in rs && EquipmentTest(Field(x, "equipment_required"), wanted).Failure?
    ensures r.Success? ==> forall x :: x in r.value <==>
      x in rs && EquipmentTest(Field(x, "equipment_required"), wanted) == Success(true)
  {
    if rs == [] then Success([])
    else
      var t := EquipmentTest(Field(rs[0], "equipment_required"), wanted);
      var rest := FilterEquipment(rs[1..], wanted);
      assert forall x :: x in rs <==> x == rs[0] || x in rs[1..];
      if t.Failure? then Failure(TypeError)
      else if rest.Failure? then Failure(TypeError)
      else Success((if t.value then [rs[0]] else []) + rest.value)
  }

  /** The category test both screens' queries apply: no category given, or
      the record's category is exactly it. */
  predicate InCategory(x: Record, category: string)
  {
    category == "" || Field(x, "category") == Some(Str(category))
  }

  /** `exerciseApi.getExercises`: the category filter when a category is
      given, then the equipment filter over the comma-separated pieces when
      an equipment text is given. */
  function FilterExercises(rs: seq<Record>, category: string, equipment: string): (r: Result<seq<Record>, ApiError>)
    ensures r.Failure? <==> (equipment != "" &&
      exists x :: x in rs && InCategory(x, category) && EquipmentTest(Field(x, "equipment_required"), Split(equipment, ',')).Failure?)
    ensures r.Success? ==> forall x :: x in r.value <==>
      x in rs && InCategory(x, category) &&
      (equipment != "" ==> EquipmentTest(Field(x, "equipment_required"), Split(equipment, ',')) == Success(true))
  {
    var byCategory := if category != "" then FilterEq(rs, "category", category) else rs;
    if equipment != "" then FilterEquipment(byCategory, Split(equipment, ',')) else Success(byCategory)
  }

  /** With an empty list of required equipment an exercise always passes
      the equipment filter; with a list, exactly when it shares an item. */
  lemma EquipmentTestOnLists(items: seq<Value>, wanted: seq<string>)
    ensures EquipmentTest(Some(List(items)), wanted) == Success(true) <==>
      items == [] || exists i :: 0 <= i < |items| && items[i] in seq(|wanted|, k requires 0 <= k < |wanted| => Str(wanted[k]))
  {
    var strs := seq(|wanted|, k requires 0 <= k < |wanted| => Str(wanted[k]));
    if exists i :: 0 <= i < |items| && items[i].Str? && items[i].s in wanted {
      var i :| 0 <= i < |items| && items[i].Str? && items[i].s in wanted;
      var k :| 0 <= k < |wanted| && wanted[k] == items[i].s;
      assert strs[k] == items[i];
    }
  }

  /** `f.name.toLowerCase().includes(search.toLowerCase())`; a name that is
      not a string throws. */
  function NameTest(v: Option<Value>, search: string): Result<bool, ApiError>
  {
    match v
    case Some(Str(s)) => Success(ContainsIgnoringCase(s, search))
    case _ => Failure(TypeError)
  }

  function FilterByName(rs: seq<Record>, search: string): (r: Result<seq<Record>, ApiError>)
    ensures r.Failure? <==> exists x :: x in rs && NameTest(Field(x, "name"), search).Failure?
    ensures r.Success? ==> forall x :: x in r.value <==> x in rs && NameTest(Field(x, "name"), search) == Success(true)
  {
    if rs == [] then Success([])
    else
      var t := NameTest(Field(rs[0], "name"), search);
      var rest := FilterByName(rs[1..], search);
      assert forall x :: x in rs <==> x == rs[0] || x in rs[1..];
      if t.Failure? then Failure(TypeError)
      else if rest.Failure? then Failure(TypeError)
      else Success((if t.value then [rs[0]] else []) + rest.value)
  }

  /** `nutritionApi.getFoods`. */
  function FilterFoods(rs: seq<Record>, category: string, search: string): (r: Result<seq<Record>, ApiError>)
    ensures r.Failure? <==> (search != "" &&
      exists x :: x in rs && InCategory(x, category) && NameTest(Field(x, "name"), search).Failure?)
    ensures r.Success? ==> forall x :: x in r.value <==>
      x in rs && InCategory(x, category) &&
      (search != "" ==> exists s :: Field(x, "name") == Some(Str(s)) && ContainsIgnoringCase(s, search))
  {
    var byCategory := if category != "" then FilterEq(rs, "category", category) else rs;
    if search != "" then FilterByName(byCategory, search) else Success(byCategory)
  }

  // ---------------------------------------------------------------- sorting and slicing

  /** Insert before the first record whose key is not greater, so equal
      keys keep their order. */
  function InsertDesc(x: Record, sorted: seq<Record>, key: Record -> int): (r: seq<Record>)
    ensures multiset(r) == multiset(sorted) + multiset{x}
  {
    if sorted == [] then [x]
    else if key(x) >= key(sorted[0]) then [x] + sorted
    else
      assert sorted == [sorted[0]] + sorted[1..];
      [sorted[0]] + InsertDesc(x, sorted[1..], key)
  }

  /** A stable sort by descending key (the comparator `key(b) - key(a)`). */
  function SortDesc(rs: seq<Record>, key: Record -> int): (r: seq<Record>)
    ensures multiset(r) == multiset(rs)
  {
    if rs == [] then []
    else
      assert rs == [rs[0]] + rs[1..];
      InsertDesc(rs[0], SortDesc(rs[1..], key), key)
  }

  /** The records whose key is k, in their order. */
  function WithKey(rs: seq<Record>, key: Record -> int, k: int): (r: seq<Record>)
    ensures forall x :: x in r ==> x in rs && key(x) == k
  {
    if rs == [] then []
    else (if key(rs[0]) == k then [rs[0]] else []) + WithKey(rs[1..], key, k)
  }

  lemma WithKeyCons(h: Record, rest: seq<Record>, key: Record -> int, k: int)
    ensures WithKey([h] + rest, key, k) == (if key(h) == k then [h] else []) + WithKey(rest, key, k)
  {
    assert ([h] + rest)[0] == h;
    assert ([h] + rest)[1..] == rest;
  }

  /** Two prefixes commute when one of them is empty. */
  lemma SwapEmpty<T>(a: seq<T>, b: seq<T>, c: seq<T>)
    requires a == [] || b == []
    ensures a + (b + c) == b + (a + c)
  {
    if a == [] {
      assert a + (b + c) == b + c && a + c == c;
    } else {
      assert b + (a + c) == a + c && b + c == c;
    }
  }

  /** An inserted record passes only records with a greater key, so among
      records of its own key it comes first. */
  lemma {:induction false} InsertDescWithKey(x: Record, sorted: seq<Record>, key: Record -> int, k: int)
    ensures WithKey(InsertDesc(x, sorted, key), key, k) == (if key(x) == k then [x] else []) + WithKey(sorted, key, k)
  {
    if sorted == [] {
      WithKeyCons(x, [], key, k);
      assert [x] + [] == [x];
    } else if key(x) >= key(sorted[0]) {
      WithKeyCons(x, sorted, key, k);
    } else {
      var h := sorted[0];
      var rest := InsertDesc(x, sorted[1..], key);
      var hk := if key(h) == k then [h] else [];
      var xk := if key(x) == k then [x] else [];
      InsertDescWithKey(x, sorted[1..], key, k);
      WithKeyCons(h, rest, key, k);
      WithKeyCons(h, sorted[1..], key, k);
      assert sorted == [h] + sorted[1..];
      calc {
        WithKey(InsertDesc(x, sorted, key), key, k);
        WithKey([h] + rest, key, k);
        hk + WithKey(rest, key, k);
        hk + (xk + WithKey(sorted[1..], key, k));
        { SwapEmpty(hk, xk, WithKey(sorted[1..], key, k)); }
        xk + (hk + WithKey(sorted[1..], key, k));
        xk + WithKey(sorted, key, k);
      }
    }
  }

  /** The sort is stable: the records of any one key keep their input
      order, as `Array.prototype.sort` promises for equal dates. */
  lemma {:induction false} SortDescStable(rs: seq<Record>, key: Record -> int, k: int)
    ensures WithKey(SortDesc(rs, key), key, k) == WithKey(rs, key, k)
  {
    if rs != [] {
      SortDescStable(rs[1..], key, k);
      InsertDescWithKey(rs[0], SortDesc(rs[1..], key), key, k);
    }
  }

  predicate Descending(rs: seq<Record>, key: Record -> int)
  {
    forall i, j :: 0 <= i < j < |rs| ==> key(rs[i]) >= key(rs[j])
  }

  lemma {:induction false} InsertDescKeepsOrder(x: Record, sorted: seq<Record>, key: Record -> int)
    requires Descending(sorted, key)
    ensures Descending(InsertDesc(x, sorted, key), key)
  {
    if sorted != [] && key(x) < key(sorted[0]) {
      InsertDescKeepsOrder(x, sorted[1..], key);
      HeadStaysFirst(x, sorted, key);
      DescendingCons(sorted[0], InsertDesc(x, sorted[1..], key), key);
    }
  }

  /** A key at least every key of a descending list can go in front of it. */
  lemma DescendingCons(h: Record, rest: seq<Record>, key: Record -> int)
    requires Descending(rest, key)
    requires forall k :: 0 <= k < |rest| ==> key(h) >= key(rest[k])
    ensures Descending([h] + rest, key)
  {
    var r := [h] + rest;
    forall i, j | 0 <= i < j < |r|
      ensures key(r[i]) >= key(r[j])
    {
      assert r[j] == rest[j - 1];
      if i > 0 {
        assert r[i] == rest[i - 1];
      }
    }
  }

  /** Inserting behind the head of a descending list leaves every key at
      most the head's. */
  lemma HeadStaysFirst(x: Record, sorted: seq<Record>, key: Record -> int)
    requires Descending(sorted, key) && sorted != [] && key(x) < key(sorted[0])
    ensures forall k :: 0 <= k < |InsertDesc(x, sorted[1..], key)| ==>
      key(sorted[0]) >= key(InsertDesc(x, sorted[1..], key)[k])
  {
    var rest := InsertDesc(x, sorted[1..], key);
    forall k | 0 <= k < |rest|
      ensures key(sorted[0]) >= key(rest[k])
    {
      assert rest[k] in multiset(rest);
      if rest[k] != x {
        assert rest[k] in multiset(sorted[1..]);
        var j :| 0 <= j < |sorted[1..]| && sorted[1..][j] == rest[k];
        assert sorted[j + 1] == rest[k];
      }
    }
  }

  /** The sort orders by descending key and loses or adds nothing. */
  lemma {:induction false} SortDescSorted(rs: seq<Record>, key: Record -> int)
    ensures Descending(SortDesc(rs, key), key)
  {
    if rs != [] {
      SortDescSorted(rs[1..], key);
      InsertDescKeepsOrder(rs[0], SortDesc(rs[1..], key), key);
    }
  }

  /** `s.slice(0, end)`: a negative end counts from the back. */
  function Slice(s: seq<Record>, end: int): (r: seq<Record>)
    ensures r <= s
    ensures end >= 0 ==> |r| == MinInt(end, |s|)
    ensures end < 0 ==> |r| == (if |s| + end > 0 then |s| + end else 0)
  {
    if end >= 0 then s[..MinInt(end, |s|)]
    else if |s| + end > 0 then s[..|s| + end]
    else []
  }

  /** A sorted list stays sorted when sliced. */
  lemma SliceKeepsOrder(s: seq<Record>, end: int, key: Record -> int)
    requires Descending(s, key)
    ensures Descending(Slice(s, end), key)
  {
    var r := Slice(s, end);
    assert forall i :: 0 <= i < |r| ==> r[i] == s[i];
  }

  /** The limit a caller passes, or the default when it passes none. */
  /** A record whose `date` is a string, so `date.localeCompare` exists. */
  predicate DateIsString(x: Record)
  {
    Field(x, "date").Some? && Field(x, "date").value.Str?
  }

  function LimitOr(limit: Option<int>, default: int): int
  {
    if limit.Some? then limit.value else default
  }

  /** The most recent records first, at most `limit` of them for a limit of
      0 or more, each one a stored record. */
  lemma LatestFirst(rs: seq<Record>, limit: int, key: Record -> int)
    ensures var r := Slice(SortDesc(rs, key), limit);
      Descending(r, key) &&
      (limit >= 0 ==> |r| <= limit) && |r| <= |rs| &&
      (forall x :: x in r ==> x in rs)
  {
    SortDescSorted(rs, key);
    SliceKeepsOrder(SortDesc(rs, key), limit, key);
    var sorted := SortDesc(rs, key);
    forall x | x in Slice(sorted, limit)
      ensures x in rs
    {
      assert x in sorted;
      assert x in multiset(sorted);
    }
  }

  // ---------------------------------------------------------------- record updates

  /** `findIndex(w => w[key] === value)`. */
  function FindIndex(rs: seq<Record>, key: string, value: Option<Value>): (r: Option<nat>)
    ensures r.None? <==> forall k :: 0 <= k < |rs| ==> !StrictEq(Field(rs[k], key), value)
    ensures r.Some? ==>
      (r.value < |rs| && StrictEq(Field(rs[r.value], key), value) &&
       forall k :: 0 <= k < r.value ==> !StrictEq(Field(rs[k], key), value))
  {
    if rs == [] then None
    else if StrictEq(Field(rs[0], key), value) then Some(0)
    else
      var rest := FindIndex(rs[1..], key, value);
      assert forall k :: 1 <= k < |rs| ==> rs[k] == rs[1..][k - 1];
      match rest
      case None => None
      case Some(i) => Some(i + 1)
  }

  /** `filter(w => w.workout_id !== id)`. */
  function RemoveWithId(rs: seq<Record>, id: string): (r: seq<Record>)
    ensures |r| <= |rs|
    ensures forall x :: x in r <==> x in rs && Field(x, "workout_id") != Some(Str(id))
  {
    if rs == [] then []
    else (if Field(rs[0], "workout_id") != Some(Str(id)) then [rs[0]] else []) + RemoveWithId(rs[1..], id)
  }

  /** Deleting distributes over concatenation, so the records that stay
      keep their order. */
  lemma {:induction false} RemoveWithIdAppend(a: seq<Record>, b: seq<Record>, id: string)
    ensures RemoveWithId(a + b, id) == RemoveWithId(a, id) + RemoveWithId(b, id)
  {
    if a == [] {
      assert a + b == b;
    } else {
      var head := if Field(a[0], "workout_id") != Some(Str(id)) then [a[0]] else [];
      assert (a + b)[0] == a[0];
      assert (a + b)[1..] == a[1..] + b;
      RemoveWithIdAppend(a[1..], b, id);
      calc {
        RemoveWithId(a + b, id);
        head + RemoveWithId(a[1..] + b, id);
        head + (RemoveWithId(a[1..], id) + RemoveWithId(b, id));
        (head + RemoveWithId(a[1..], id)) + RemoveWithId(b, id);
      }
    }
  }

  /** Deleting an id that no record carries keeps the list as it is. */
  lemma {:induction false} RemoveAbsentId(rs: seq<Record>, id: string)
    requires forall x :: x in rs ==> Field(x, "workout_id") != Some(Str(id))
    ensures RemoveWithId(rs, id) == rs
  {
    if rs != [] {
      assert rs[0] in rs;
      assert forall x :: x in rs[1..] ==> x in rs;
      RemoveAbsentId(rs[1..], id);
      assert rs == [rs[0]] + rs[1..];
    }
  }

  /** Deleting twice is deleting once. */
  lemma {:induction false} RemoveWithIdIdempotent(rs: seq<Record>, id: string)
    ensures RemoveWithId(RemoveWithId(rs, id), id) == RemoveWithId(rs, id)
  {
    RemoveAbsentId(RemoveWithId(rs, id), id);
  }

  /** The record `createWorkout` stores: the given fields, then a fresh id,
      the creation time and the date (the given one when truthy, else now),
      which override any the caller supplied. */
  function NewWorkout(workout: Record, nowMs: nat, createdIso: string, nowIso: string): (r: Record)
    ensures r.Keys == workout.Keys + {"workout_id", "created_at", "date"}
    ensures forall k :: k in workout && k !in {"workout_id", "created_at", "date"} ==> r[k] == workout[k]
    ensures r["workout_id"] == Str("wk_" + NatToString(nowMs))
    ensures r["created_at"] == Str(createdIso)
    ensures r["date"] == if Truthy(Field(workout, "date")) then workout["date"] else Str(nowIso)
  {
    var date := if Truthy(Field(workout, "date")) then workout["date"] else Str(nowIso);
    workout + map["workout_id" := Str("wk_" + NatToString(nowMs)), "created_at" := Str(createdIso), "date" := date]
  }

  /** The new id's digits read back as the timestamp. */
  lemma WorkoutIdCarriesTimestamp(workout: Record, nowMs: nat, createdIso: string, nowIso: string)
    ensures var id := NewWorkout(workout, nowMs, createdIso, nowIso)["workout_id"].s;
      id[..3] == "wk_" &&
      (forall k :: 3 <= k < |id| ==> '0' <= id[k] <= '9') &&
      DigitsValue(id[3..]) == nowMs
  {
    var id := "wk_" + NatToString(nowMs);
    assert id[3..] == NatToString(nowMs);
    NatToStringValue(nowMs);
  }

  /** How many records match a field value. */
  function CountMatching(rs: seq<Record>, key: string, value: Option<Value>): nat
  {
    if rs == [] then 0
    else (if StrictEq(Field(rs[0], key), value) then 1 else 0) + CountMatching(rs[1..], key, value)
  }

  lemma {:induction false} CountMatchingUpdate(rs: seq<Record>, i: nat, x: Record, key: string, value: Option<Value>)
    requires i < |rs|
    requires StrictEq(Field(rs[i], key), value) == StrictEq(Field(x, key), value)
    ensures CountMatching(rs[i := x], key, value) == CountMatching(rs, key, value)
  {
    if i > 0 {
      assert rs[i := x][1..] == rs[1..][i - 1 := x];
      CountMatchingUpdate(rs[1..], i - 1, x, key, value);
    }
  }

  lemma {:induction false} CountMatchingSnoc(rs: seq<Record>, x: Record, key: string, value: Option<Value>)
    ensures CountMatching(rs + [x], key, value) == CountMatching(rs, key, value) + (if StrictEq(Field(x, key), value) then 1 else 0)
  {
    if rs == [] {
      assert [x][1..] == [];
    } else {
      assert (rs + [x])[1..] == rs[1..] + [x];
      CountMatchingSnoc(rs[1..], x, key, value);
    }
  }

  /** The list after `createMeasurement`, and the position of the record it
      returns: a record with the same date is merged in place, otherwise
      the measurement is appended with a fresh id and creation time. */
  function Upsert(rs: seq<Record>, m: Record, nowMs: nat, createdIso: string): (r: (seq<Record>, nat))
    ensures r.1 < |r.0|
    ensures match FindIndex(rs, "date", Field(m, "date"))
      case Some(i) =>
        r.0 == rs[i := rs[i] + m] && r.1 == i
      case None =>
        r.0 == rs + [m + map["measurement_id" := Str("bm_" + NatToString(nowMs)), "created_at" := Str(createdIso)]] &&
        r.1 == |rs|
  {
    match FindIndex(rs, "date", Field(m, "date"))
    case Some(i) => (rs[i := rs[i] + m], i)
    case None =>
      (rs + [m + map["measurement_id" := Str("bm_" + NatToString(nowMs)), "created_at" := Str(createdIso)]], |rs|)
  }

  /** A value `===` compares equal to itself: anything but an array or an
      object. */
  predicate Primitive(v: Option<Value>)
  {
    v.None? || !(v.value.List? || v.value.Obj?)
  }

  lemma PrimitiveEqualsItself(v: Option<Value>)
    ensures StrictEq(v, v) <==> Primitive(v)
  {
  }

  /** An upsert never duplicates a date: for a date already present the
      number of records on it stays the same (and the length too); for a
      new date the list grows by one, and (for a date that is not an array
      or object) one more record carries it. */
  lemma UpsertKeepsDatesUnique(rs: seq<Record>, m: Record, nowMs: nat, createdIso: string)
    ensures var r := Upsert(rs, m, nowMs, createdIso).0;
      var date := Field(m, "date");
      var found := FindIndex(rs, "date", date).Some?;
      (found ==> |r| == |rs| && CountMatching(r, "date", date) == CountMatching(rs, "date", date)) &&
      (!found ==> |r| == |rs| + 1) &&
      (!found && Primitive(date) ==> CountMatching(r, "date", date) == CountMatching(rs, "date", date) + 1)
  {
    var date := Field(m, "date");
    match FindIndex(rs, "date", date)
    case Some(i) =>
      StrictEqIsEquality(Field(rs[i], "date"), date);
      assert Field(rs[i] + m, "date") == Field(rs[i], "date");
      CountMatchingUpdate(rs, i, rs[i] + m, "date", date);
    case None =>
      var added := m + map["measurement_id" := Str("bm_" + NatToString(nowMs)), "created_at" := Str(createdIso)];
      assert Field(added, "date") == date;
      CountMatchingSnoc(rs, added, "date", date);
      PrimitiveEqualsItself(date);
  }

  /** The record `getDailyNutrition` returns for a date with nothing stored. */
  function EmptyNutrition(date: string): (r: Record)
    ensures r.Keys == {"date", "meals", "total_calories", "total_protein", "total_carbs", "total_fat"}
    ensures r["date"] == Str(date)
    ensures r["meals"] == Obj(map["breakfast" := List([]), "lunch" := List([]), "dinner" := List([]), "snacks" := List([])])
    ensures forall k :: k in {"total_calories", "total_protein", "total_carbs", "total_fat"} ==> r[k] == Num(0.0)
  {
    map[
      "date" := Str(date),
      "meals" := Obj(map["breakfast" := List([]), "lunch" := List([]), "dinner" := List([]), "snacks" := List([])]),
      "total_calories" := Num(0.0),
      "total_protein" := Num(0.0),
      "total_carbs" := Num(0.0),
      "total_fat" := Num(0.0)]
  }

  // ---------------------------------------------------------------- the store

  class LocalStore {
    /** What device storage holds, by key. */
    var data: map<string, Entry>

    constructor (initial: map<string, Entry>)
      ensures data == initial
    {
      data := initial;
    }

    /** `getStoredData`: the stored list, or an empty one when the key is
        absent or its contents unreadable. */
    function Records(key: string): (r: seq<Record>)
      reads this
      ensures key !in data || data[key].Unreadable? ==> r == []
      ensures key in data && data[key].Stored? ==> r == data[key].records
    {
      if key in data && data[key].Stored? then data[key].records else []
    }

    method GetStoredData(key: string) returns (r: seq<Record>)
      ensures r == Records(key)
    {
      r := Records(key);
    }

    /** `storeData`: the list replaces whatever the key held. */
    method StoreData(key: string, records: seq<Record>)
      modifies this
      ensures data == old(data)[key := Stored(records)]
    {
      data := data[key := Stored(records)];
    }

    method GetExercises(category: string, equipment: string) returns (r: Result<seq<Record>, ApiError>)
      ensures r == FilterExercises(Records(ExercisesKey), category, equipment)
    {
      var exercises := GetStoredData(ExercisesKey);
      if category != "" {
        exercises := FilterEq(exercises, "category", category);
      }
      if equipment != "" {
        r := FilterEquipment(exercises, Split(equipment, ','));
      } else {
        r := Success(exercises);
      }
    }

    /** `workoutApi.getWorkouts`: newest first by the date key, at most
        `limit` (20 when none is passed). */
    method GetWorkouts(limit: Option<int>, key: Record -> int) returns (r: seq<Record>)
      ensures r == Slice(SortDesc(Records(WorkoutsKey), key), LimitOr(limit, 20))
    {
      var workouts := GetStoredData(WorkoutsKey);
      r := Slice(SortDesc(workouts, key), LimitOr(limit, 20));
    }

    /** `workoutApi.createWorkout`: exactly one record is appended and the
        earlier ones are kept. */
    method CreateWorkout(workout: Record, nowMs: nat, createdIso: string, nowIso: string) returns (r: Record)
      modifies this
      ensures r == NewWorkout(workout, nowMs, createdIso, nowIso)
      ensures data == old(data)[WorkoutsKey := Stored(old(Records(WorkoutsKey)) + [r])]
    {
      var workouts := GetStoredData(WorkoutsKey);
      r := NewWorkout(workout, nowMs, createdIso, nowIso);
      workouts := workouts + [r];
      StoreData(WorkoutsKey, workouts);
    }

    /** `workoutApi.updateWorkout`: the first record with the id gets the
        updates merged over it and nothing else changes; without such a
        record nothing is stored and the call fails. */
    method UpdateWorkout(workoutId: string, updates: Record) returns (r: Result<Record, ApiError>)
      modifies this
      ensures var ws := old(Records(WorkoutsKey));
        match FindIndex(ws, "workout_id", Some(Str(workoutId)))
        case None =>
          r == Failure(NotFound("Workout not found")) && data == old(data)
        case Some(i) =>
          r == Success(ws[i] + updates) &&
          data == old(data)[WorkoutsKey := Stored(ws[i := ws[i] + updates])]
    {
      var workouts := GetStoredData(WorkoutsKey);
      var index := FindIndex(workouts, "workout_id", Some(Str(workoutId)));
      if index.Some? {
        workouts := workouts[index.value := workouts[index.value] + updates];
        StoreData(WorkoutsKey, workouts);
        return Success(workouts[index.value]);
      }
      r := Failure(NotFound("Workout not found"));
    }

    /** `workoutApi.deleteWorkout`: every record with the id goes, the rest
        keep their order, and the list is stored back even when nothing was
        removed. */
    method DeleteWorkout(workoutId: string) returns (message: string)
      modifies this
      ensures data == old(data)[WorkoutsKey := Stored(RemoveWithId(old(Records(WorkoutsKey)), workoutId))]
      ensures message == "Workout deleted"
    {
      var workouts := GetStoredData(WorkoutsKey);
      var filtered := RemoveWithId(workouts, workoutId);
      StoreData(WorkoutsKey, filtered);
      message := "Workout deleted";
    }

    method GetFoods(category: string, search: string) returns (r: Result<seq<Record>, ApiError>)
      ensures r == FilterFoods(Records(FoodsKey), category, search)
    {
      var foods := GetStoredData(FoodsKey);
      if category != "" {
        foods := FilterEq(foods, "category", category);
      }
      if search != "" {
        r := FilterByName(foods, search);
      } else {
        r := Success(foods);
      }
    }

    /** `nutritionApi.getDailyNutrition`: the first record for the date, or
        the empty day. */
    method GetDailyNutrition(date: string) returns (r: Record)
      ensures var ns := Records(NutritionKey);
        match FindIndex(ns, "date", Some(Str(date)))
        case Some(i) => r == ns[i]
        case None => r == EmptyNutrition(date)
    {
      var nutrition := GetStoredData(NutritionKey);
      var found := FindIndex(nutrition, "date", Some(Str(date)));
      if found.Some? {
        r := nutrition[found.value];
      } else {
        r := EmptyNutrition(date);
      }
    }

    /** `measurementApi.getMeasurements`: by the date key, newest first, at
        most `limit` (30 when none is passed). The comparator calls
        `localeCompare` on the date of its second argument, which throws
        when that date is not a string. A sort of fewer than two records
        never calls the comparator; with two or more and a date that is not
        a string, whether that record is ever passed second depends on the
        engine's sort, so `reachesBadDate` says whether it is. */
    method GetMeasurements(limit: Option<int>, key: Record -> int, reachesBadDate: bool) returns (r: Result<seq<Record>, ApiError>)
      ensures var ms := Records(MeasurementsKey);
        r.Failure? <==> (|ms| >= 2 && reachesBadDate && exists i :: 0 <= i < |ms| && !DateIsString(ms[i]))
      ensures r.Failure? ==> r.error == TypeError
      ensures r.Success? ==> r.value == Slice(SortDesc(Records(MeasurementsKey), key), LimitOr(limit, 30))
    {
      var measurements := GetStoredData(MeasurementsKey);
      if |measurements| >= 2 && reachesBadDate && exists i :: 0 <= i < |measurements| && !DateIsString(measurements[i]) {
        return Failure(TypeError);
      }
      r := Success(Slice(SortDesc(measurements, key), LimitOr(limit, 30)));
    }

    /** `measurementApi.createMeasurement`: the upsert, stored back, and the
        merged or appended record returned. */
    method CreateMeasurement(m: Record, nowMs: nat, createdIso: string) returns (r: Record)
      modifies this
      ensures var u := Upsert(old(Records(MeasurementsKey)), m, nowMs, createdIso);
        data == old(data)[MeasurementsKey := Stored(u.0)] && r == u.0[u.1]
    {
      var measurements := GetStoredData(MeasurementsKey);
      var existing := FindIndex(measurements, "date", Field(m, "date"));
      var at: nat;
      if existing.Some? {
        measurements := measurements[existing.value := measurements[existing.value] + m];
        at := existing.value;
      } else {
        measurements := measurements + [m + map["measurement_id" := Str("bm_" + NatToString(nowMs)), "created_at" := Str(createdIso)]];
        at := |measurements| - 1;
      }
      StoreData(MeasurementsKey, measurements);
      r := measurements[at];
    }
  }
}
