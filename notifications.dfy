/** The reminder settings screen: reminder times step through a fixed list
    of whole hours from 06:00 to 22:00 (wrapping at both ends), a weekly
    progress reminder picks one of the seven days, and times are shown on a
    12-hour clock. */
module Notifications {
  import opened Common

  /** "HH:00" for an hour of the day. */
  function HourText(h: nat): (r: string)
    requires h < 100
    ensures |r| == 5 && r[2] == ':' && r[3] == '0' && r[4] == '0'
  {
    [DigitChar(h / 10), DigitChar(h % 10), ':', '0', '0']
  }

  /** `TIME_OPTIONS`: the seventeen hours 06:00 .. 22:00. */
  const TimeOptions: seq<string> := [
    "06:00", "07:00", "08:00", "09:00", "10:00", "11:00",
    "12:00", "13:00", "14:00", "15:00", "16:00", "17:00",
    "18:00", "19:00", "20:00", "21:00", "22:00"]

  lemma TimeOptionsLength()
    ensures |TimeOptions| == 17
  {
  }

  /** Entry i is the hour i + 6. */
  lemma TimeOptionsAreHours()
    ensures |TimeOptions| == 17
    ensures forall i :: 0 <= i < 17 ==> TimeOptions[i] == HourText(i + 6)
  {
  }

  /** No hour is listed twice. */
  lemma TimeOptionsDistinct()
    ensures Distinct(TimeOptions)
  {
    TimeOptionsAreHours();
    forall i, j | 0 <= i < |TimeOptions| && 0 <= j < |TimeOptions| && TimeOptions[i] == TimeOptions[j]
      ensures i == j
    {
      assert TimeOptions[i][0] == TimeOptions[j][0] && TimeOptions[i][1] == TimeOptions[j][1];
      assert (i + 6) / 10 == (j + 6) / 10 && (i + 6) % 10 == (j + 6) % 10;
    }
  }

  /** `indexOf`: the first position of the text, or -1. */
  function IndexOf(s: seq<string>, x: string): (r: int)
    ensures -1 <= r < |s|
    ensures r == -1 <==> x !in s
    ensures r >= 0 ==> s[r] == x && forall k :: 0 <= k < r ==> s[k] != x
  {
    if s == [] then -1
    else if s[0] == x then 0
    else
      var rest := IndexOf(s[1..], x);
      assert forall k :: 1 <= k < |s| ==> s[k] == s[1..][k - 1];
      if rest == -1 then -1 else rest + 1
  }

  datatype Direction = Next | Prev

  /** `cycleTime`: one step along the list, wrapping around; an unlisted
      time counts as position -1. */
  function CycleTime(current: string, direction: Direction): (r: string)
    ensures r in TimeOptions
  {
    CycleIn(TimeOptions, current, direction)
  }

  /** The step on any non-empty list of options. */
  function CycleIn(options: seq<string>, current: string, direction: Direction): (r: string)
    requires |options| > 0
    ensures r in options
  {
    if direction == Next then options[(IndexOf(options, current) + 1) % |options|]
    else options[(IndexOf(options, current) - 1 + |options|) % |options|]
  }

  predicate Distinct(options: seq<string>)
  {
    forall i, j :: 0 <= i < |options| && 0 <= j < |options| && options[i] == options[j] ==> i == j
  }

  /** On a list without repeats a step each way undoes the other. */
  lemma CycleInInverse(options: seq<string>, t: string)
    requires |options| > 1 && Distinct(options) && t in options
    ensures CycleIn(options, CycleIn(options, t, Next), Prev) == t
    ensures CycleIn(options, CycleIn(options, t, Prev), Next) == t
  {
    var len := |options|;
    var i := IndexOf(options, t);
    Steps(i, len);
    var n := (i + 1) % len;
    var p := (i - 1 + len) % len;
    assert IndexOf(options, options[n]) == n;
    assert IndexOf(options, options[p]) == p;
    Steps(n, len);
    Steps(p, len);
  }

  /** The first entry follows the last and the last precedes the first. */
  lemma CycleInWraps(options: seq<string>)
    requires |options| > 1 && Distinct(options)
    ensures CycleIn(options, options[|options| - 1], Next) == options[0]
    ensures CycleIn(options, options[0], Prev) == options[|options| - 1]
  {
    var len := |options|;
    assert IndexOf(options, options[len - 1]) == len - 1;
    assert IndexOf(options, options[0]) == 0;
    Steps(len - 1, len);
    Steps(0, len);
  }

  /** An unlisted text counts as position -1. */
  lemma CycleInUnlisted(options: seq<string>, t: string)
    requires |options| > 1 && t !in options
    ensures CycleIn(options, t, Next) == options[0]
    ensures CycleIn(options, t, Prev) == options[|options| - 2]
  {
    Steps(-1, |options|);
  }

  /** The two index steps of `cycleTime` on a list of n for a position
      from -1 up. */
  lemma Steps(i: int, n: int)
    requires n > 1 && -1 <= i < n
    ensures (i + 1) % n == if i + 1 == n then 0 else i + 1
    ensures (i - 1 + n) % n == if i == 0 then n - 1 else if i == -1 then n - 2 else i - 1
  {
  }

  /** Both ends wrap: after 22:00 comes 06:00 and before 06:00 comes 22:00. */
  lemma CycleWraps()
    ensures CycleTime("22:00", Next) == "06:00"
    ensures CycleTime("06:00", Prev) == "22:00"
  {
    TimeOptionsLength();
    TimeOptionsDistinct();
    CycleInWraps(TimeOptions);
    assert TimeOptions[16] == "22:00" && TimeOptions[0] == "06:00";
  }

  /** A time that is not on the list steps to 06:00 forward and to 21:00
      backward. */
  lemma CycleFromUnlisted(current: string)
    requires current !in TimeOptions
    ensures CycleTime(current, Next) == "06:00"
    ensures CycleTime(current, Prev) == "21:00"
  {
    TimeOptionsLength();
    CycleInUnlisted(TimeOptions, current);
    assert TimeOptions[0] == "06:00" && TimeOptions[15] == "21:00";
  }

  /** On a listed time a step forward and a step back undo each other. */
  lemma CycleInverse(t: string)
    requires t in TimeOptions
    ensures CycleTime(CycleTime(t, Next), Prev) == t
    ensures CycleTime(CycleTime(t, Prev), Next) == t
  {
    TimeOptionsLength();
    TimeOptionsDistinct();
    CycleInInverse(TimeOptions, t);
  }

  // ---------------------------------------------------------------- the 12-hour clock

  /** `hours % 12 || 12`. */
  function DisplayHour(hours: nat): (d: nat)
    ensures 1 <= d <= 12
    ensures d == 12 <==> hours % 12 == 0
    ensures d % 12 == hours % 12
  {
    if hours % 12 == 0 then 12 else hours % 12
  }

  function Period(hours: nat): (r: string)
    ensures r == "PM" <==> hours >= 12
    ensures r == "AM" <==> hours < 12
  {
    if hours >= 12 then "PM" else "AM"
  }

  /** `padStart(2, '0')`. */
  function Pad2(s: string): (r: string)
    ensures |r| == if |s| < 2 then 2 else |s|
    ensures |s| < 2 ==> r[|r| - |s|..] == s && forall k :: 0 <= k < |r| - |s| ==> r[k] == '0'
    ensures |s| >= 2 ==> r == s
  {
    if |s| == 0 then "00" else if |s| == 1 then "0" + s else s
  }

  /** The text `formatTime` shows for hours and minutes already read. */
  function Clock(hours: nat, minutes: nat): string
  {
    NatToString(DisplayHour(hours)) + ":" + Pad2(NatToString(minutes)) + " " + Period(hours)
  }

  /** Display hour and period together recover the hour of the day: the
      12-hour display loses nothing. */
  lemma TwelveHourReadsBack(hours: nat)
    requires hours < 24
    ensures var d := DisplayHour(hours);
      hours == if Period(hours) == "PM" then (if d == 12 then 12 else d + 12) else (if d == 12 then 0 else d)
  {
  }

  /** A text of digits only, at least one. */
  predicate AllDigits(s: string)
  {
    s != [] && forall k :: 0 <= k < |s| ==> '0' <= s[k] <= '9'
  }

  /** `formatTime`: the text is split at ':' and both pieces read as
      numbers. Only pieces of digits are read here; anything else is
      outside the model. */
  function FormatTime(time: string): (r: Option<string>)
    ensures r.Some? <==> Readable(Split(time, ':'))
    ensures r.Some? ==> r.value == Clock(DigitsValue(Split(time, ':')[0]), DigitsValue(Split(time, ':')[1]))
  {
    var parts := Split(time, ':');
    if Readable(parts) then Some(Clock(DigitsValue(parts[0]), DigitsValue(parts[1]))) else None
  }

  /** The pieces before and after the first ':' are both digits. */
  predicate Readable(parts: seq<string>)
  {
    |parts| >= 2 && AllDigits(parts[0]) && AllDigits(parts[1])
  }

  /** Every listed time shows as its 12-hour clock with ":00". */
  lemma FormatListedTime(i: nat)
    requires i < |TimeOptions|
    ensures FormatTime(TimeOptions[i]) == Some(Clock(i + 6, 0))
  {
    var t := TimeOptions[i];
    var h := i + 6;
    TimeOptionsAreHours();
    assert t == HourText(h);
    assert t == [DigitChar(h / 10), DigitChar(h % 10)] + [':'] + "00";
    JoinSplitTwo([DigitChar(h / 10), DigitChar(h % 10)], "00");
    assert DigitsValue([DigitChar(h / 10), DigitChar(h % 10)]) == h by {
      DigitsOfTwo(h);
    }
    assert DigitsValue("00") == 0 by {
      DigitsOfTwo(0);
      assert [DigitChar(0), DigitChar(0)] == "00";
    }
  }

  /** Noon and midnight read as 12. */
  lemma ClockNoonMidnight()
    ensures Clock(0, 0) == "12:00 AM"
    ensures Clock(12, 0) == "12:00 PM"
  {
    assert NatToString(0) == "0";
    assert NatToString(12) == NatToString(1) + [DigitChar(2)] == "12";
    assert Pad2("0") == "00";
  }

  /** The morning and evening defaults. */
  lemma ClockMorningEvening()
    ensures Clock(9, 5) == "9:05 AM"
    ensures Clock(19, 0) == "7:00 PM"
  {
    assert NatToString(0) == "0" && NatToString(5) == "5" && NatToString(7) == "7" && NatToString(9) == "9";
    assert Pad2("0") == "00" && Pad2("5") == "05";
  }

  lemma DigitsOfTwo(h: nat)
    requires h < 100
    ensures DigitsValue([DigitChar(h / 10), DigitChar(h % 10)]) == h
  {
    var s := [DigitChar(h / 10), DigitChar(h % 10)];
    assert s[..1] == [DigitChar(h / 10)];
    assert s[..1][..0] == [];
    assert DigitsValue(s[..1]) == h / 10;
  }

  /** Two digit pieces joined by ':' split back into those pieces. */
  lemma JoinSplitTwo(a: string, b: string)
    requires ':' !in a && ':' !in b
    ensures Split(a + [':'] + b, ':') == [a, b]
  {
    SplitJoin([a, b], ':');
    assert Join([a, b], ':') == a + [':'] + b by {
      assert Join([b], ':') == b;
    }
  }

  // ---------------------------------------------------------------- settings

  const Days: seq<string> := ["Sunday", "Monday", "Tuesday", "Wednesday", "Thursday", "Friday", "Saturday"]

  datatype Settings = Settings(
    workoutReminder: bool,
    workoutReminderTime: string,
    nutritionReminder: bool,
    nutritionReminderTime: string,
    progressReminder: bool,
    progressReminderDay: int)

  /** The screen's state before the stored settings arrive. */
  const DefaultSettings := Settings(true, "09:00", true, "19:00", true, 0)

  datatype Reminder = WorkoutTime | NutritionTime

  /** A time arrow on one reminder: that reminder's time steps, nothing
      else changes. */
  function StepReminder(s: Settings, which: Reminder, direction: Direction): (r: Settings)
    ensures which == WorkoutTime ==> r == s.(workoutReminderTime := CycleTime(s.workoutReminderTime, direction))
    ensures which == NutritionTime ==> r == s.(nutritionReminderTime := CycleTime(s.nutritionReminderTime, direction))
  {
    match which
    case WorkoutTime => s.(workoutReminderTime := CycleTime(s.workoutReminderTime, direction))
    case NutritionTime => s.(nutritionReminderTime := CycleTime(s.nutritionReminderTime, direction))
  }

  /** Stepping forward and back restores settings whose times are on the
      list; any step leaves a listed time. */
  lemma StepReminderUndo(s: Settings, which: Reminder)
    requires s.workoutReminderTime in TimeOptions && s.nutritionReminderTime in TimeOptions
    ensures StepReminder(StepReminder(s, which, Next), which, Prev) == s
    ensures StepReminder(StepReminder(s, which, Prev), which, Next) == s
  {
    CycleInverse(s.workoutReminderTime);
    CycleInverse(s.nutritionReminderTime);
  }

  /** A day chip: the day's position in the week. */
  function PickDay(s: Settings, index: nat): (r: Settings)
    requires index < |Days|
    ensures r.progressReminderDay == index && 0 <= r.progressReminderDay < 7
    ensures r.(progressReminderDay := s.progressReminderDay) == s
  {
    s.(progressReminderDay := index)
  }

  /** The default times are on the list. */
  lemma DefaultsListed()
    ensures DefaultSettings.workoutReminderTime in TimeOptions
    ensures DefaultSettings.nutritionReminderTime in TimeOptions
  {
    assert TimeOptions[3] == "09:00" && TimeOptions[13] == "19:00";
  }
}
