/** The server's month calendar: one cell per day of the month, built by
    stepping a date from the first of the month up to the first of the
    next (December rolls over into January of the next year); workouts
    are listed on their day and a day's nutrition is the last record
    stored for it. */
module Calendar {
  import opened Common
  import Workouts

  datatype Date = Date(year: int, month: int, day: int)

  predicate IsLeapYear(y: int)
  {
    y % 4 == 0 && (y % 100 != 0 || y % 400 == 0)
  }

  function DaysInMonth(year: int, month: int): (n: int)
    requires 1 <= month <= 12
    ensures 28 <= n <= 31
  {
    if month == 2 then (if IsLeapYear(year) then 29 else 28)
    else if month == 4 || month == 6 || month == 9 || month == 11 then 30
    else 31
  }

  /** `current + timedelta(days=1)`. */
  function NextDay(d: Date): Date
    requires 1 <= d.month <= 12
  {
    if d.day < DaysInMonth(d.year, d.month) then Date(d.year, d.month, d.day + 1)
    else if d.month < 12 then Date(d.year, d.month + 1, 1)
    else Date(d.year + 1, 1, 1)
  }

  /** Dates compare by year, then month, then day. */
  predicate Before(a: Date, b: Date)
  {
    a.year < b.year || (a.year == b.year && (a.month < b.month || (a.month == b.month && a.day < b.day)))
  }

  datatype CalendarError = InvalidDate   // `datetime` refuses the month or year

  /** The first day after the month: the first of the next month, or of
      January of the next year for December. */
  function MonthEnd(year: int, month: int): Date
  {
    if month == 12 then Date(year + 1, 1, 1) else Date(year, month + 1, 1)
  }

  /** The same rule as `NextDay`, at the end of a year. */
  lemma DecemberRollsOver(year: int)
    ensures NextDay(Date(year, 12, 31)) == MonthEnd(year, 12) == Date(year + 1, 1, 1)
  {
  }

  /** The dates `datetime` accepts for both bounds. */
  predicate ValidMonth(year: int, month: int)
  {
    1 <= year <= 9999 && 1 <= month <= 12 && (month == 12 ==> year + 1 <= 9999)
  }

  /** The days of the month, first to last. */
  function MonthDays(year: int, month: int, n: nat): (r: seq<Date>)
    ensures |r| == n && forall k :: 0 <= k < n ==> r[k] == Date(year, month, k + 1)
  {
    if n == 0 then [] else MonthDays(year, month, n - 1) + [Date(year, month, n)]
  }

  /** The `while current < last_day` loop: the dates it visits, in order,
      are exactly the days of the month; an invalid month or year fails. */
  method MonthGrid(year: int, month: int) returns (r: Result<seq<Date>, CalendarError>)
    ensures !ValidMonth(year, month) ==> r == Failure(InvalidDate)
    ensures ValidMonth(year, month) ==> r == Success(MonthDays(year, month, DaysInMonth(year, month)))
  {
    if !ValidMonth(year, month) {
      return Failure(InvalidDate);
    }
    var last := MonthEnd(year, month);
    var current := Date(year, month, 1);
    var days: seq<Date> := [];
    ghost var n := DaysInMonth(year, month);
    while Before(current, last)
      invariant |days| <= n
      invariant days == MonthDays(year, month, |days|)
      invariant |days| < n ==> current == Date(year, month, |days| + 1)
      invariant |days| == n ==> current == last
      decreases n - |days|
    {
      days := days + [current];
      current := NextDay(current);
    }
    r := Success(days);
  }

  // ---------------------------------------------------------------- filling the cells

  datatype WorkoutSummary = WorkoutSummary(workoutId: string, name: string, exerciseCount: nat)

  /** Calories and protein of the stored day. */
  datatype NutritionSummary = NutritionSummary(calories: real, protein: real)

  datatype Cell = Cell(workouts: seq<WorkoutSummary>, nutrition: Option<NutritionSummary>)

  function Summary(w: Workouts.Workout): WorkoutSummary
  {
    WorkoutSummary(w.workoutId, w.name, |w.exercises|)
  }

  /** Reference definition: the summaries of the workouts dated d, in order. */
  function WorkoutsOn(workouts: seq<(Date, Workouts.Workout)>, d: Date): seq<WorkoutSummary>
  {
    if workouts == [] then []
    else
      var last := workouts[|workouts| - 1];
      WorkoutsOn(workouts[..|workouts| - 1], d) + (if last.0 == d then [Summary(last.1)] else [])
  }

  /** Reference definition: the last nutrition record dated d. */
  function LastNutritionOn(records: seq<(Date, NutritionSummary)>, d: Date): Option<NutritionSummary>
  {
    if records == [] then None
    else if records[|records| - 1].0 == d then Some(records[|records| - 1].1)
    else LastNutritionOn(records[..|records| - 1], d)
  }

  /** `get_calendar_data` once the grid exists: each workout (with its day
      already read off its date) is appended on its day when that day is in
      the month, then each nutrition record overwrites its day's cell.
      Every day of the month has a cell, and no other key is added. */
  method FillCalendar(grid: seq<Date>, workouts: seq<(Date, Workouts.Workout)>, records: seq<(Date, NutritionSummary)>)
    returns (cells: map<Date, Cell>)
    ensures cells.Keys == set d | d in grid
    ensures forall d :: d in cells ==>
      cells[d] == Cell(WorkoutsOn(workouts, d), LastNutritionOn(records, d))
  {
    cells := map[];
    for i := 0 to |grid|
      invariant cells.Keys == set d | d in grid[..i]
      invariant forall d :: d in cells ==> cells[d] == Cell([], None)
    {
      cells := cells[grid[i] := Cell([], None)];
    }
    assert grid[..|grid|] == grid;
    for i := 0 to |workouts|
      invariant cells.Keys == set d | d in grid
      invariant forall d :: d in cells ==> cells[d] == Cell(WorkoutsOn(workouts[..i], d), None)
    {
      assert workouts[..i + 1][..i] == workouts[..i];
      var (d, w) := workouts[i];
      if d in cells {
        cells := cells[d := cells[d].(workouts := cells[d].workouts + [Summary(w)])];
      }
    }
    assert workouts[..|workouts|] == workouts;
    for i := 0 to |records|
      invariant cells.Keys == set d | d in grid
      invariant forall d :: d in cells ==>
        cells[d] == Cell(WorkoutsOn(workouts, d), LastNutritionOn(records[..i], d))
    {
      assert records[..i + 1][..i] == records[..i];
      var (d, n) := records[i];
      if d in cells {
        cells := cells[d := cells[d].(nutrition := Some(n))];
      }
    }
    assert records[..|records|] == records;
  }
}
