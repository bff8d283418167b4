# GainTrack core, modelled in Dafny

GainTrack is a workout and nutrition tracker: a FastAPI backend over
MongoDB and a React Native client with a local AsyncStorage data layer.
This project models the deterministic logic at the centre of both halves
and proves what it promises:

- **Backend analytics** (`backend/server.py`):
  - the warm-up set calculator;
  - the progression-suggestion engine: per-exercise session history, the
    four-branch rule cascade, rounding to 2.5, and the stable sort by
    confidence;
  - per-exercise history with personal records and trend;
  - meal-entry add and remove with recomputed daily totals;
  - workout volume, the nutrition-adherence window and the month calendar
    grid;
  - the two equipment filters.
- **Client local data layer** (`frontend/src/services/api.ts`): a store from
  storage key to a list of JSON records, with JavaScript's own semantics
  where they matter (truthiness, `===`, `split`, `slice` with a negative
  end, TypeErrors on unexpected values).
- **Client state and helpers**:
  - the current-workout store (`workoutStore.ts`);
  - the set-logging sheet (`SetLoggerSheet.tsx`);
  - the new-workout and active-workout screens, including the warm-up
    merge;
  - reminder-time cycling and 12-hour formatting;
  - the add-food screen's serving arithmetic;
  - the measurement form's validation, payload and change colours;
  - the volume, set-count, percentage and lookup helpers (`helpers.ts`).

Files follow the source:

| file | models |
|---|---|
| `common.dfy` | `Option`/`Result`, Python and JavaScript rounding, ASCII lower-casing, `split`/`join`, digit strings |
| `workouts.dfy` | set, exercise and workout records; working sets, volume, replace-sets-by-id, remove-by-id |
| `warmup.dfy`, `progression.dfy`, `exercise_history.dfy`, `nutrition.dfy`, `stats.dfy`, `calendar.dfy`, `equipment.dfy` | `backend/server.py` |
| `local_api.dfy` | `frontend/src/services/api.ts` |
| `helpers.dfy` | `frontend/src/utils/helpers.ts` |
| `workout_store.dfy` | `frontend/src/store/workoutStore.ts` |
| `set_logger.dfy` | `frontend/src/components/SetLoggerSheet.tsx` |
| `notifications.dfy` | `frontend/app/notifications.tsx` |
| `new_workout.dfy`, `active_workout.dfy` | `frontend/app/workout/new.tsx`, `frontend/app/workout/active.tsx` |
| `measurements.dfy`, `add_food.dfy` | `frontend/app/measurements.tsx`, `frontend/app/add-food.tsx` |

The source's own form is kept. Code that changes state in place becomes a
class whose methods state the whole new state: the local store, the
Zustand store, and the sheet and screen components. Loops in the source
become `while`/`for` loops with invariants, proved against a specification
function. Expression code becomes functions with lemmas.

Sources of time, randomness and storage are parameters:
- clocks (`Date.now()`, `datetime.now`);
- database query results;
- the stored AsyncStorage entries;
- the answers of API objects the client calls but `api.ts` does not
  define (`measurementsApi`, `foodApi.addMealEntry`,
  `workoutApi.getWarmupSets`, `exerciseApi.getForUser`).

## Model

| member | source | states |
|---|---|---|
| Common.RoundHalfEven | backend/server.py:466 | Python `round`: within one half of x, and an exact half goes to the even neighbour |
| Common.RoundHalfUp | frontend/src/utils/helpers.ts:44 | `Math.round`: the integer in (x − ½, x + ½] |
| Common.RoundTenths | backend/server.py:530 | `round(x, 1)` on exact reals: a whole number of tenths, within 0.05 of x, and at a tie the even tenth |
| Common.LowerChar | frontend/app/workout/new.tsx:74 | upper-case ASCII letters move by 32, every other character is kept |
| Common.Lower | frontend/app/workout/new.tsx:74 | `toLowerCase` keeps the length and lowers each character |
| Common.Split | backend/server.py:359 | `split(",")` gives at least one piece and no piece contains the separator |
| Common.JoinSplit | backend/server.py:359 | joining the pieces of a split gives the string back |
| Common.SplitJoin | backend/server.py:359 | splitting a join of separator-free pieces gives the pieces back |
| Common.DigitChar | frontend/src/services/api.ts:102 | a digit below 10 becomes a character '0'..'9' |
| Common.NatToString | frontend/src/services/api.ts:102 | the decimal text of a number is non-empty and all digits |
| Common.NatToStringValue | frontend/src/services/api.ts:102 | reading the decimal text back gives the number |
| Workouts.WorkingSets | backend/server.py:517 | the non-warm-up sets: each result is a non-warm-up member, and every non-warm-up set is kept |
| Workouts.WorkingSetsAppend | backend/server.py:517 | working sets distribute over concatenation |
| Workouts.SetsVolumeIsWorkingTonnage | backend/server.py:870-873 | a set list's volume is the weight·reps total of its working sets |
| Workouts.WarmupsAddNothing | backend/server.py:872 | two set lists with the same working sets have the same volume |
| Workouts.SetsVolumeSnoc | backend/server.py:871-873 | appending a set adds that set's volume |
| Workouts.VolumeSnoc | backend/server.py:870-873 | appending an exercise adds its sets' volume |
| Workouts.Volume | backend/server.py:870-873 | no contract of its own: Workouts.VolumeSnoc and SetsVolumeIsWorkingTonnage make it the weight·reps total of every working set |
| Workouts.ReplaceSets | frontend/src/store/workoutStore.ts:46-50 | same length; exercises with the id get the new sets, every other exercise is unchanged |
| Workouts.RemoveById | frontend/src/store/workoutStore.ts:60-62 | an exercise survives exactly when it was present and carries another id |
| Workouts.RemoveByIdAppend | frontend/src/store/workoutStore.ts:60-62 | removal distributes over concatenation, so the survivors keep their order |
| Workouts.RemoveByIdLength | frontend/src/store/workoutStore.ts:60-62 | the length drops by exactly the number of exercises with the id |
| Workouts.RemoveAbsentId | frontend/src/store/workoutStore.ts:60-62 | removing an id nobody carries changes nothing |
| Warmup.Times5 | backend/server.py:466 | `round(...) * 5` is a multiple of 5 |
| Warmup.SlotWeights | backend/server.py:462-466 | the three slot weights (40%, 60%, 80%) are multiples of 5 |
| Warmup.PlanUpToSlots | backend/server.py:465-474 | the loop's output after n slots has at most n sets, each the set of its slot |
| Warmup.PlanUpToRises | backend/server.py:469 | set numbers strictly increase |
| Warmup.PlanUpToKeeps | backend/server.py:467 | a slot appears exactly when its weight is at least 10 |
| Warmup.PlanUpToWellFormed | backend/server.py:465-474 | the four facts above together |
| Warmup.PlanShape | backend/server.py:465-474 | every planned set is a warm-up of a multiple of 5, at least 10, labelled and repeated as its percentage slot |
| Warmup.SlotWeightsAscend | backend/server.py:462-466 | for a positive working weight the slot weights do not decrease |
| Warmup.PlanAscending | backend/server.py:465-474 | the warm-up weights do not decrease along the list |
| Warmup.CalculateWarmupSets | backend/server.py:454-476 | weight ≤ 0 gives no sets and no working weight; otherwise at most 3 sets, each a warm-up, a multiple of 5, ≥ 10, numbered by its percentage slot with that slot's reps and label |
| Warmup.SkippedSlotLeavesGap | backend/server.py:467-469 | at 15 the 40% slot is dropped, so the sets are numbered 2 and 3 |
| Progression.MaxWeight | backend/server.py:520 | the maximum weight: no set is heavier and some set has it |
| Progression.Summarize | backend/server.py:517-531 | no session iff every set is a warm-up; otherwise the date, the working-set count, their max weight (attained and not exceeded), their reps, and the mean RPE of rated sets (7 when none) as Common.RoundTenths rounds it |
| Progression.RecordWellFormed | backend/server.py:508-514 | recording one exercise keeps the names distinct, non-empty and in step with the dict |
| Progression.RecordOrder | backend/server.py:509-514 | recording one exercise registers its name exactly when it is not empty |
| Progression.RecordLookup | backend/server.py:516-531 | recording one exercise appends its session only to that name's history |
| Progression.RecordStep | backend/server.py:508-531 | recording one exercise adds its name (when non-empty) and appends its session only to that name's history |
| Progression.RecordAllWellFormed | backend/server.py:508-514 | recording a workout's exercises keeps the names distinct, non-empty and in step with the dict |
| Progression.RecordAllOrder | backend/server.py:508-514 | recording a workout's exercises registers exactly the non-empty names among them |
| Progression.RecordAllLookup | backend/server.py:508-531 | each name's history grows by that name's sessions in the workout, in order |
| Progression.RecordAllStep | backend/server.py:508-531 | recording a workout's exercises appends each named exercise's sessions in order |
| Progression.BuildHistoryCorrect | backend/server.py:504-531 | the history lists every non-empty name seen, each once, with all its sessions in the order of the (most-recent-first) workouts |
| Progression.BuildHistory | backend/server.py:504-531 | no contract of its own: Progression.BuildHistoryCorrect characterises it against the reference definition |
| Progression.IncreaseAmount | backend/server.py:587-589 | the increase is at least 2.5, a multiple of 2.5, and above 2.5 it is within 1.25 of the percentage of the weight |
| Progression.Analyze | backend/server.py:536-602 | no suggestion with fewer than 2 sessions or a weight ≤ 0; a suggestion adds its increase to the current weight, gives the increase as a percentage of the current weight rounded by Common.RoundTenths, and carries the ≤ 3 recent sessions; high iff avg sets ≥ 3 and RPE ≤ 7, medium iff sets ≥ 3 and 7 < RPE ≤ 8, low iff neither, RPE < 9, 3 sessions and one weight; RPE ≥ 9 never suggests; the increase is the current weight's 5 % (high) or 2.5 % (otherwise) rounded to a 2.5 step, and the reason is the tier's template with the averages |
| Progression.Decide | backend/server.py:564-586 | a progression never comes with avg RPE ≥ 9, takes 5 % when high and 2.5 % otherwise; high or medium needs avg sets ≥ 3 and RPE ≤ 8 and always follows from them; low needs one weight over 3 sessions and, below RPE 9, always follows from it |
| Progression.CollectMembers | backend/server.py:535-602 | the collected suggestions are exactly the analyses of the names that yield one |
| Progression.Tier | backend/server.py:605-606 | one confidence tier, in order |
| Progression.SortByConfidenceSorted | backend/server.py:605-606 | high before medium before low |
| Progression.SortByConfidence | backend/server.py:605-606 | no contract of its own: Progression.SortByConfidenceSorted, SortByConfidencePermutes and SortByConfidenceStable make it a stable sort by confidence |
| Progression.TierSplit | backend/server.py:605-606 | the three tiers partition the list |
| Progression.TierSplitHead | backend/server.py:605-606 | the first suggestion lands in exactly one tier |
| Progression.SortByConfidencePermutes | backend/server.py:606 | the sort is a permutation |
| Progression.TierOfTier | backend/server.py:606 | taking a tier of a tier keeps it or empties it |
| Progression.TierAppend | backend/server.py:606 | tiers distribute over concatenation |
| Progression.SortByConfidenceStable | backend/server.py:606 | the sort is stable: each tier keeps its original order |
| Progression.RecordWorkout | backend/server.py:508-531 | the inner loop over one workout records each of its exercises in order |
| Progression.AnalyzeAll | backend/server.py:535-602 | the analysis loop keeps, in insertion order, the analyses that yield a suggestion |
| Progression.GetProgressionSuggestions | backend/server.py:504-612 | the loop returns the sorted suggestions of the built history and counts every name seen |
| Progression.SuggestionsAreAnalyses | backend/server.py:504-610 | every suggestion is the analysis of a seen name's sessions and every positive analysis is suggested; the analysed count includes names with no working sets |
| ExerciseHistory.Entry | backend/server.py:628-638 | no entry without working sets; otherwise date, workout id, working-set count, a max weight that some working set lifts and none exceeds, volume and reps of the working sets, and the average RPE (missing RPE read as 7) as Common.RoundTenths rounds it |
| ExerciseHistory.MaxOfWeights | backend/server.py:642 | the heaviest session weight over the whole history |
| ExerciseHistory.MaxOfVolumes | backend/server.py:643 | the largest session volume over the whole history |
| ExerciseHistory.TrendOf | backend/server.py:646-661 | no_data iff empty, not_enough_data iff 1–2 sessions, improving iff the recent mean is above 1.05× the older mean, declining iff not improving and below 0.95× |
| ExerciseHistory.ThreeSessionsAreStable | backend/server.py:646-655 | exactly 3 sessions with a non-negative mean are stable |
| ExerciseHistory.ThreeNegativeSessionsImprove | backend/server.py:648-651 | with negative weights three identical sessions read as improving |
| ExerciseHistory.MakeReport | backend/server.py:641-672 | at most 20 sessions of history while every session is counted; records 0 for an empty history, otherwise the maxima over all sessions |
| ExerciseHistory.AppendEntries | backend/server.py:626-638 | the inner loop appends the entries of the named exercise that have working sets, in order |
| ExerciseHistory.GetExerciseProgression | backend/server.py:623-672 | the loop's report is the report of the history of that name |
| Nutrition.DefaultMeals | backend/server.py:778 | the four empty meal lists in order |
| Nutrition.IndexOf | backend/server.py:779 | the position of the meal type, absent iff no meal has it |
| Nutrition.OtherDefaults | backend/server.py:805 | the remaining default meals are empty and never the given type |
| Nutrition.SumEntriesAppend | backend/server.py:782-788 | the totals of a concatenation add |
| Nutrition.SumMealsAllEmpty | backend/server.py:782-788 | empty meals total zero |
| Nutrition.SumMealsPrepend | backend/server.py:783 | a meal in front adds its entries' totals |
| Nutrition.SumMealsUpdate | backend/server.py:779-788 | replacing one meal's entries changes the totals by the difference |
| Nutrition.SumMeals | backend/server.py:782-788 | no contract of its own: Nutrition.SumMealsAllEmpty, SumMealsPrepend and SumMealsUpdate characterise the totals |
| Nutrition.RecalculateTotals | backend/server.py:782-788 | the nested loop's totals equal the sum over all meals |
| Nutrition.EmptyDay | backend/server.py:778 | zero totals with the default meals, and the totals agree with the meals |
| Nutrition.AddMealEntry | backend/server.py:760-815 | a new day holds the entry with the entry's totals; an existing day appends it to its meal type (failing when that type is missing) and the totals equal the sum over all meals |
| Nutrition.NewDayConsistent | backend/server.py:802-812 | a new day's totals are the entry's, its meal type holds exactly the entry and the other meals are empty |
| Nutrition.AddRaisesTotals | backend/server.py:779-788 | adding an entry raises the totals by exactly that entry |
| Nutrition.RemoveAt | backend/server.py:831 | one element fewer, the rest in order |
| Nutrition.RemoveMealEntry | backend/server.py:818-853 | fails for a missing day, a missing meal type, an index ≥ the length, or a too negative index; otherwise pops the entry (negative indices from the end) and the totals equal the sum over all meals |
| Nutrition.RemoveLowersTotals | backend/server.py:831-840 | the remaining totals plus the removed entry give the old totals |
| Nutrition.SumEntriesRemove | backend/server.py:831-840 | the same for one meal list |
| Nutrition.PopFromEnd | backend/server.py:831 | a negative index pops the element that many from the end |
| Stats.WorkoutVolumes | backend/server.py:867-881 | one point per workout, in order, with its date, name and working-set volume |
| Stats.Reverse | backend/server.py:930 | `reversed`: same length, mirrored positions |
| Stats.NutritionAdherence | backend/server.py:886-930 | one point per day of the window, oldest first, ending today, with the stored totals or zeros and the user's or default goals |
| Calendar.DaysInMonth | backend/server.py:936-940 | every month has 28 to 31 days |
| Calendar.DecemberRollsOver | backend/server.py:937-938 | the day after 31 December and the end of December are 1 January of the next year |
| Calendar.MonthDays | backend/server.py:951-958 | one date per day of the month, in order |
| Calendar.MonthGrid | backend/server.py:936-958 | an invalid year or month fails; otherwise the days of the month |
| Calendar.FillCalendar | backend/server.py:949-989 | a cell for exactly the days of the grid, with that day's workouts and the last nutrition record for it |
| Equipment.Filter | backend/server.py:357-364 | kept iff in the category and, when equipment is given, needing none or any listed item |
| Equipment.FilterAppend | backend/server.py:357-364 | the filter keeps the catalog's order: it distributes over concatenation |
| Equipment.FilterForUser | backend/server.py:371-387 | kept iff in the category and needing only owned items |
| Equipment.FilterForUserAppend | backend/server.py:371-387 | the filter keeps the catalog's order |
| Equipment.NoEquipmentMeansBodyweight | backend/server.py:371-387 | with no equipment stored only exercises needing nothing are kept |
| Equipment.UserListWithinPublicList | backend/server.py:357-388 | whatever the per-user filter keeps, the public filter keeps for the same list |
| Helpers.CalculateWorkoutVolume | frontend/src/utils/helpers.ts:19-29 | the nested loops' total is the volume of the working sets |
| Helpers.WorkingSetsAll | frontend/src/utils/helpers.ts:31-33 | no set is dropped iff none is a warm-up |
| Helpers.TotalSetsCountsWorkingSets | frontend/src/utils/helpers.ts:31-33 | the count never exceeds all sets, and equals it iff there is no warm-up |
| Workouts.WorkingSetCount | frontend/src/utils/helpers.ts:31-33 | no contract of its own: the number of working sets, summed over the exercises; Helpers.TotalSetsCountsWorkingSets relates it to the count of all sets |
| Helpers.FormatVolume | frontend/src/utils/helpers.ts:35-40 | below 1000 the number as is; otherwise tenths of thousands (within rounding) printed as digits, a point, one digit and "k" |
| Helpers.ThousandsLabelReadsBack | frontend/src/utils/helpers.ts:37 | the printed thousands label reads back as the tenths it came from |
| Helpers.MacroPercentage | frontend/src/utils/helpers.ts:42-45 | 0 for a zero goal, never above 100, otherwise the rounded percentage clipped at 100 |
| Helpers.MacroPercentageMonotone | frontend/src/utils/helpers.ts:42-45 | more intake never shows a lower percentage |
| Helpers.EquipmentLabelFallback | frontend/src/utils/helpers.ts:47-58 | an unknown key is its own label |
| Helpers.ColorFallbacks | frontend/src/utils/helpers.ts:60-80 | unknown categories and macros are gray |
| Helpers.EquipmentLabel | frontend/src/utils/helpers.ts:47-58 | no contract of its own: Helpers.EquipmentLabelFallback states when a key is its own label |
| Helpers.CategoryColor | frontend/src/utils/helpers.ts:60-70 | no contract of its own: Helpers.ColorFallbacks states when it is gray |
| Helpers.MacroColor | frontend/src/utils/helpers.ts:72-80 | no contract of its own: Helpers.ColorFallbacks states when it is gray |
| LocalApi.StrictEqIsEquality | frontend/src/services/api.ts:113 | `===` between parsed values implies equal values |
| LocalApi.FilterEq | frontend/src/services/api.ts:79 | kept iff the field is exactly that string |
| LocalApi.FilterEquipment | frontend/src/services/api.ts:81-86 | a TypeError iff some record fails LocalApi.EquipmentTest (a missing or null value, a non-empty string, an object with a truthy length); otherwise kept iff the test holds |
| LocalApi.FilterExercises | frontend/src/services/api.ts:76-88 | throws iff equipment is given and some stored record in the category fails the equipment test; otherwise kept iff stored, in the category and, with equipment, passing the test |
| LocalApi.EquipmentTest | frontend/src/services/api.ts:81-86 | no contract of its own: LocalApi.EquipmentTestOnLists states it on lists, and LocalApi.FilterExercises uses it for the throw and the keep |
| LocalApi.EquipmentTestOnLists | frontend/src/services/api.ts:84 | for a list, kept iff it is empty or shares an item with the split list |
| LocalApi.FilterByName | frontend/src/services/api.ts:138 | a TypeError iff some name is not a string; otherwise kept iff the name contains the search text ignoring case |
| LocalApi.FilterFoods | frontend/src/services/api.ts:132-141 | throws iff a search is given and some record in the category has a name the search cannot read; otherwise kept iff stored, in the category and, with a search, its name contains the search ignoring case |
| LocalApi.InsertDesc | frontend/src/services/api.ts:95 | insertion adds exactly that record |
| LocalApi.SortDesc | frontend/src/services/api.ts:95 | the sort is a permutation |
| LocalApi.InsertDescKeepsOrder | frontend/src/services/api.ts:95 | inserting into a descending list keeps it descending |
| LocalApi.SortDescSorted | frontend/src/services/api.ts:95 | the sort is descending by its key |
| LocalApi.InsertDescWithKey | frontend/src/services/api.ts:95 | an inserted record comes before every record of its own key |
| LocalApi.SortDescStable | frontend/src/services/api.ts:95 | the sort is stable: the records of any one key keep their input order |
| LocalApi.Slice | frontend/src/services/api.ts:95 | `slice(0, end)` is a prefix of length min(end, n), or n + end for a negative end |
| LocalApi.SliceKeepsOrder | frontend/src/services/api.ts:95 | a prefix of a descending list is descending |
| LocalApi.LatestFirst | frontend/src/services/api.ts:93-96 | at most `limit` stored records, latest first |
| LocalApi.FindIndex | frontend/src/services/api.ts:113 | the first record whose field is `===` the value, absent iff none is |
| LocalApi.RemoveWithId | frontend/src/services/api.ts:124 | kept iff the id differs |
| LocalApi.RemoveWithIdAppend | frontend/src/services/api.ts:124 | deleting distributes over concatenation, so the kept records stay in their order |
| LocalApi.RemoveAbsentId | frontend/src/services/api.ts:122-127 | deleting an absent id changes nothing |
| LocalApi.RemoveWithIdIdempotent | frontend/src/services/api.ts:124 | deleting twice is deleting once |
| LocalApi.NewWorkout | frontend/src/services/api.ts:100-105 | the input's fields plus id, creation time and date; a "wk_" id from the clock; created_at is the clock's time; the given date when truthy, else now |
| LocalApi.WorkoutIdCarriesTimestamp | frontend/src/services/api.ts:102 | the id is "wk_" followed by digits that read back as the clock value |
| LocalApi.CountMatchingUpdate | frontend/src/services/api.ts:168 | a merge that keeps the date keeps the count of records with that date |
| LocalApi.CountMatchingSnoc | frontend/src/services/api.ts:170 | appending adds one matching record when it matches |
| LocalApi.Upsert | frontend/src/services/api.ts:164-178 | a known date is merged in place; a new date appends one record with a "bm_" id and creation time; the returned position holds the record |
| LocalApi.PrimitiveEqualsItself | frontend/src/services/api.ts:166 | a value is `===` itself iff it is not an array or object |
| LocalApi.UpsertKeepsDatesUnique | frontend/src/services/api.ts:164-178 | a known date keeps the length and the count of that date; a new date adds one record, and one more record with a primitive date |
| LocalApi.EmptyNutrition | frontend/src/services/api.ts:146-153 | the date, four empty meals and zero totals, nothing else |
| LocalApi.LocalStore.constructor | frontend/src/services/api.ts:14-22 | the store starts with the given entries |
| LocalApi.LocalStore.Records | frontend/src/services/api.ts:14-22 | an absent or unreadable key reads as the empty list |
| LocalApi.LocalStore.GetStoredData | frontend/src/services/api.ts:14-22 | the stored list, or empty |
| LocalApi.LocalStore.StoreData | frontend/src/services/api.ts:24-30 | only that key is replaced |
| LocalApi.LocalStore.GetExercises | frontend/src/services/api.ts:76-88 | the filtered stored exercises |
| LocalApi.LocalStore.GetWorkouts | frontend/src/services/api.ts:93-96 | the stored workouts sorted latest first and cut at the limit (20 by default) |
| LocalApi.LocalStore.CreateWorkout | frontend/src/services/api.ts:98-109 | exactly the new workout is appended and the other keys are unchanged |
| LocalApi.LocalStore.UpdateWorkout | frontend/src/services/api.ts:111-120 | "Workout not found" and nothing changes when absent; else only the first match is merged |
| LocalApi.LocalStore.DeleteWorkout | frontend/src/services/api.ts:122-127 | the workouts become RemoveWithId of the old ones, nothing else is stored differently, and the answer is "Workout deleted"; with LocalApi.RemoveWithIdAppend every workout with the id goes and the rest stay in order |
| LocalApi.LocalStore.GetFoods | frontend/src/services/api.ts:132-141 | the filtered stored foods |
| LocalApi.LocalStore.GetDailyNutrition | frontend/src/services/api.ts:143-154 | the first stored record of the date, else the empty record |
| LocalApi.LocalStore.GetMeasurements | frontend/src/services/api.ts:159-162 | a TypeError iff there are two or more measurements, one has a date that is not a string, and the sort passes it to the comparator second; otherwise the stored measurements latest first, cut at the limit (30 by default) |
| LocalApi.LocalStore.CreateMeasurement | frontend/src/services/api.ts:164-178 | the stored list becomes the upsert, and the returned record is the one written |
| WorkoutStore.Store.constructor | frontend/src/store/workoutStore.ts:20-24 | empty lists, no current workout, not loading |
| WorkoutStore.Store.SetWorkouts | frontend/src/store/workoutStore.ts:26 | replaces only `workouts` |
| WorkoutStore.Store.SetCurrentWorkout | frontend/src/store/workoutStore.ts:27 | replaces only `currentWorkout` |
| WorkoutStore.Store.SetExercises | frontend/src/store/workoutStore.ts:28 | replaces only `exercises` |
| WorkoutStore.Store.SetLoading | frontend/src/store/workoutStore.ts:29 | replaces only `isLoading` |
| WorkoutStore.Store.AddExerciseToWorkout | frontend/src/store/workoutStore.ts:31-41 | no current workout: nothing changes; otherwise the exercise is appended at the end |
| WorkoutStore.Store.UpdateExerciseInWorkout | frontend/src/store/workoutStore.ts:43-55 | no current workout: nothing changes; otherwise sets are replaced on the exercises with the id |
| WorkoutStore.Store.RemoveExerciseFromWorkout | frontend/src/store/workoutStore.ts:57-67 | no current workout: nothing changes; otherwise the exercises with the id are removed |
| WorkoutStore.UpdateThenRemove | frontend/src/store/workoutStore.ts:43-67 | updating an exercise and then removing it is removing it |
| WorkoutStore.AddThenRemove | frontend/src/store/workoutStore.ts:31-67 | removing the id of an exercise just added gives what removing it before the add gives |
| WorkoutStore.UpdateOnlyTouchesTheId | frontend/src/store/workoutStore.ts:43-55 | outside the id nothing changes, and every exercise with the id carries the new sets |
| SetLogger.InitSets | frontend/src/components/SetLoggerSheet.tsx:34-36 | an empty list becomes the one default set; any other list is kept |
| SetLogger.AddSet | frontend/src/components/SetLoggerSheet.tsx:38-50 | one set appended, numbered length + 1, with the last set's weight and reps (0 without one), RPE 7, not a warm-up |
| SetLogger.Without | frontend/src/components/SetLoggerSheet.tsx:59 | an index in range drops that set; any other index drops nothing |
| SetLogger.Renumber | frontend/src/components/SetLoggerSheet.tsx:60 | same sets numbered 1..n |
| SetLogger.RemoveSet | frontend/src/components/SetLoggerSheet.tsx:58-63 | a single set stays; otherwise drop and renumber |
| SetLogger.RpeAll | frontend/src/components/SetLoggerSheet.tsx:66 | every set gets the chosen RPE, nothing else changes |
| SetLogger.RemoveSetShape | frontend/src/components/SetLoggerSheet.tsx:58-63 | never below one set, numbered 1..n, exactly one fewer for an index in range, the survivors in order |
| SetLogger.RemoveUndoesAdd | frontend/src/components/SetLoggerSheet.tsx:38-63 | removing the set just added restores a numbered list |
| SetLogger.AddKeepsNumbering | frontend/src/components/SetLoggerSheet.tsx:38-50 | adding keeps the list numbered 1..n |
| SetLogger.RpeAllIdempotent | frontend/src/components/SetLoggerSheet.tsx:65-68 | saving twice is saving once, every set carries the RPE |
| SetLogger.FirstWorkingIndex | frontend/src/components/SetLoggerSheet.tsx:71 | the first non-warm-up set, absent iff all are warm-ups |
| SetLogger.WarmupRequest | frontend/src/components/SetLoggerSheet.tsx:70-75 | a request iff there is a callback and the first working weight is positive; it carries that weight |
| SetLogger.UpdateChangesOneField | frontend/src/components/SetLoggerSheet.tsx:52-56 | only the named field of the indexed set changes |
| SetLogger.Sheet.constructor | frontend/src/components/SetLoggerSheet.tsx:31-36 | opening gives the initialised sets and RPE 7 |
| SetLogger.Sheet.Reset | frontend/src/components/SetLoggerSheet.tsx:34-36 | the effect re-initialises the sets and keeps the RPE |
| SetLogger.Sheet.AddSetPressed | frontend/src/components/SetLoggerSheet.tsx:38-50 | the sets become `AddSet` of the old ones |
| SetLogger.Sheet.UpdateSet | frontend/src/components/SetLoggerSheet.tsx:52-56 | the copy is assigned at the index |
| SetLogger.Sheet.RemoveSetPressed | frontend/src/components/SetLoggerSheet.tsx:58-63 | the sets become `RemoveSet` of the old ones |
| SetLogger.Sheet.SetRpe | frontend/src/components/SetLoggerSheet.tsx:145 | only the RPE changes |
| SetLogger.Sheet.HandleSave | frontend/src/components/SetLoggerSheet.tsx:65-68 | the saved list is the sets with the chosen RPE |
| SetLogger.Sheet.GetWarmupSets | frontend/src/components/SetLoggerSheet.tsx:70-75 | the request for the current sets |
| Notifications.HourText | frontend/app/notifications.tsx:25-29 | an hour label is five characters ending in ":00" |
| Notifications.TimeOptionsLength | frontend/app/notifications.tsx:25-29 | 17 options |
| Notifications.TimeOptionsAreHours | frontend/app/notifications.tsx:25-29 | option i is hour i + 6, "06:00" to "22:00" |
| Notifications.TimeOptionsDistinct | frontend/app/notifications.tsx:25-29 | no option repeats |
| Notifications.IndexOf | frontend/app/notifications.tsx:94 | `indexOf`: −1 iff absent, else the first position |
| Notifications.CycleTime | frontend/app/notifications.tsx:93-100 | the result is always a listed time |
| Notifications.CycleIn | frontend/app/notifications.tsx:93-100 | cycling over any non-empty list stays in the list |
| Notifications.CycleInInverse | frontend/app/notifications.tsx:93-100 | over a list without repeats, prev undoes next and next undoes prev |
| Notifications.CycleInWraps | frontend/app/notifications.tsx:96-98 | next from the last wraps to the first, prev from the first to the last |
| Notifications.CycleInUnlisted | frontend/app/notifications.tsx:94-98 | an unlisted time goes to the first (next) or one before the last (prev) |
| Notifications.CycleWraps | frontend/app/notifications.tsx:96-98 | "22:00" next is "06:00", "06:00" prev is "22:00" |
| Notifications.CycleFromUnlisted | frontend/app/notifications.tsx:94-98 | an unlisted time goes to "06:00" (next) or "21:00" (prev) |
| Notifications.CycleInverse | frontend/app/notifications.tsx:93-100 | for every listed time, prev(next(t)) = t and next(prev(t)) = t |
| Notifications.DisplayHour | frontend/app/notifications.tsx:89 | `hours % 12 \|\| 12` is 1..12, 12 exactly for hours 0 and 12, congruent mod 12 |
| Notifications.Pad2 | frontend/app/notifications.tsx:90 | `padStart(2, '0')`: two characters ending in the text, or the text itself |
| Notifications.TwelveHourReadsBack | frontend/app/notifications.tsx:88-89 | the displayed hour and AM/PM determine the 24-hour hour |
| Notifications.Period | frontend/app/notifications.tsx:88 | "PM" iff the hour is 12 or later, "AM" iff earlier |
| Notifications.Clock | frontend/app/notifications.tsx:86-91 | no contract of its own: Notifications.ClockNoonMidnight and ClockMorningEvening pin the text at both ends of the day |
| Notifications.FormatTime | frontend/app/notifications.tsx:86-91 | a digit pair "h:m" is shown as the 12-hour clock of h and m |
| Notifications.FormatListedTime | frontend/app/notifications.tsx:86-91 | every listed option is shown as its hour on the 12-hour clock |
| Notifications.ClockNoonMidnight | frontend/app/notifications.tsx:86-91 | 0:00 is "12:00 AM" and 12:00 is "12:00 PM" |
| Notifications.ClockMorningEvening | frontend/app/notifications.tsx:86-91 | 9:05 is "9:05 AM" and 19:00 is "7:00 PM" |
| Notifications.StepReminder | frontend/app/notifications.tsx:148-162 | a time button changes only that reminder's time |
| Notifications.StepReminderUndo | frontend/app/notifications.tsx:148-162 | the opposite button undoes a press |
| Notifications.PickDay | frontend/app/notifications.tsx:250-257 | a day chip sets only the reminder day, to 0..6 |
| Notifications.DefaultsListed | frontend/app/notifications.tsx:33-40 | both default times are listed options |
| NewWorkout.FilterExercises | frontend/app/workout/new.tsx:72-76 | kept iff the category matches (or "all") and the name contains the search text ignoring case (or it is empty) |
| NewWorkout.FilterExercisesAppend | frontend/app/workout/new.tsx:72-76 | the picker keeps the catalog's order |
| NewWorkout.NoFilterShowsAll | frontend/app/workout/new.tsx:72-76 | "all" with no search shows every exercise |
| NewWorkout.NewEntry | frontend/app/workout/new.tsx:78-88 | an added exercise carries its id and name and no sets |
| NewWorkout.AsWarmupSets | frontend/app/workout/new.tsx:113-119 | each returned warm-up becomes a warm-up set with its number, weight and reps and no RPE |
| NewWorkout.NoWorkingSets | frontend/app/workout/new.tsx:121 | an all-warm-up list has no working sets |
| NewWorkout.OnlyWorkingSets | frontend/app/workout/new.tsx:121 | a list without warm-ups is its own working sets |
| NewWorkout.MergeShape | frontend/app/workout/new.tsx:113-125 | new warm-ups first, then the old working sets in order, old warm-ups dropped, numbered 1..n |
| NewWorkout.MergeWarmups | frontend/app/workout/new.tsx:113-125 | as many sets as new warm-ups plus old working sets; NewWorkout.MergeShape gives each one |
| NewWorkout.MergeEntries | frontend/app/workout/new.tsx:113-125 | the merge's positions: warm-ups first, then the working sets |
| NewWorkout.MergeFront | frontend/app/workout/new.tsx:113-122 | the front holds the new warm-ups and the list is numbered 1..n |
| NewWorkout.MergeBack | frontend/app/workout/new.tsx:121-122 | the back holds the old working sets, renumbered |
| NewWorkout.MergeKeepsWorking | frontend/app/workout/new.tsx:121-122 | the working sets of the merge are exactly its back part |
| NewWorkout.MergeIdempotent | frontend/app/workout/new.tsx:113-125 | merging the same warm-ups again changes nothing |
| NewWorkout.SaveWorkout | frontend/app/workout/new.tsx:133-145 | "Please add at least one exercise" iff no exercises; otherwise the name, the exercises and now |
| NewWorkout.Screen.constructor | frontend/app/workout/new.tsx:26-35 | the initial state |
| NewWorkout.Screen.SetAvailable | frontend/app/workout/new.tsx:41-55 | the catalog answer replaces the available list; every other field stays |
| NewWorkout.Screen.Filtered | frontend/app/workout/new.tsx:72-76 | the shown exercises are available ones |
| NewWorkout.Screen.AddExercise | frontend/app/workout/new.tsx:78-88 | one entry appended, picker closed, search cleared; every other field stays |
| NewWorkout.Screen.RemoveExercise | frontend/app/workout/new.tsx:90-92 | every exercise with the id goes; every other field stays |
| NewWorkout.Screen.SelectExercise | frontend/app/workout/new.tsx:94-97 | the exercise is selected and the sheet opens; every other field stays |
| NewWorkout.Screen.HandleSaveSets | frontend/app/workout/new.tsx:99-107 | without a selection nothing changes; otherwise the sets replace those of every exercise with the selected id and of the selection; every other field stays |
| NewWorkout.Screen.HandleRequestWarmup | frontend/app/workout/new.tsx:109-131 | with a selection and an answer, the merged sets go to it and to every exercise with its id; otherwise nothing changes; every other field stays |
| NewWorkout.Screen.SaveWorkoutPressed | frontend/app/workout/new.tsx:133-145 | the save request or the refusal for the current state |
| ActiveWorkout.Available | frontend/app/workout/active.tsx:31-34 | offered iff no listed exercise has its id and the search is in its name or muscle group |
| ActiveWorkout.AvailableAppend | frontend/app/workout/active.tsx:31-34 | the offered list keeps the catalog's order |
| ActiveWorkout.Entry | frontend/app/workout/active.tsx:37-49 | the added entry: the id (or exercise id), the name, the catalog entry, no sets |
| ActiveWorkout.AddedIsNotOffered | frontend/app/workout/active.tsx:31-49 | once added, an exercise with a non-empty id is no longer offered |
| ActiveWorkout.FindEntry | frontend/app/workout/active.tsx:80 | `find` by id: the first match, absent iff none |
| ActiveWorkout.AppendToMatching | frontend/app/workout/active.tsx:83-92 | the set is appended to exactly the exercises with the id |
| ActiveWorkout.AddSetShape | frontend/app/workout/active.tsx:78-94 | only the targeted exercise gains a set numbered length + 1, weight and reps 0, not completed, no warm-up |
| ActiveWorkout.NewSet | frontend/app/workout/active.tsx:81-89 | no contract of its own: ActiveWorkout.AddSetShape gives the new set's number, weight, reps, RPE and flags |
| ActiveWorkout.AddSet | frontend/app/workout/active.tsx:78-94 | same length; nothing changes without the id; exercises without the id are untouched and each one with it gains one set after its old ones |
| ActiveWorkout.UpdateAt | frontend/app/workout/active.tsx:106-108 | only the set at the index changes |
| ActiveWorkout.UpdateSetChangesOneValue | frontend/app/workout/active.tsx:103-113 | exactly one field of one set of one exercise changes |
| ActiveWorkout.SetField | frontend/app/workout/active.tsx:107 | no contract of its own: ActiveWorkout.UpdateSetChangesOneValue shows exactly the named field of the set changes |
| ActiveWorkout.UpdateSetCopiesFirst | frontend/app/workout/active.tsx:103-113 | duplicated ids all receive the first one's edited sets |
| ActiveWorkout.UpdateSet | frontend/app/workout/active.tsx:103-113 | same length; nothing changes without the id; exercises without it are untouched; the ones with it change only their sets and all end with the same sets |
| ActiveWorkout.Screen.constructor | frontend/app/workout/active.tsx:27-29 | the current workout's exercises, or empty |
| ActiveWorkout.Screen.HandleAddExercise | frontend/app/workout/active.tsx:37-49 | one entry appended, the modal closed, search cleared |
| ActiveWorkout.Screen.AddSetPressed | frontend/app/workout/active.tsx:78-94 | the list becomes `AddSet` of the old one |
| ActiveWorkout.Screen.RemoveExercise | frontend/app/workout/active.tsx:97-100 | the exercises with the id go, the rest stay in order |
| ActiveWorkout.Screen.UpdateSetValue | frontend/app/workout/active.tsx:103-113 | the list becomes `UpdateSet` of the old one |
| ActiveWorkout.Screen.Offers | frontend/app/workout/active.tsx:31-34 | offered exercises come from the catalog |
| Measurements.BuildPayload | frontend/app/measurements.tsx:97-118 | refused with "Please enter at least one measurement" iff every entry, notes included, is blank; otherwise exactly the filled fields as numbers plus non-empty notes |
| Measurements.NotesAlone | frontend/app/measurements.tsx:99-118 | notes alone can be saved and the payload is just them; whitespace notes are refused |
| Measurements.ColorsMirror | frontend/app/measurements.tsx:156-164 | the gain rule is the change rule of the negated change |
| Measurements.DecreaseGoodFields | frontend/app/measurements.tsx:166-168 | of the eleven fields, exactly weight, body_fat, waist and hips are decrease-good |
| Measurements.FieldColorMeaning | frontend/app/measurements.tsx:156-168 | green iff the change goes the good way, red iff the other way, gray iff zero |
| Measurements.FieldColor | frontend/app/measurements.tsx:283-285 | no contract of its own: Measurements.FieldColorMeaning gives green, red and gray by the direction of change |
| Measurements.ChangeColor | frontend/app/measurements.tsx:156-159 | green iff the change is negative, red iff positive, gray iff zero |
| Measurements.GainColor | frontend/app/measurements.tsx:161-164 | green iff the change is positive, red iff negative, gray iff zero |
| Measurements.IsDecreaseGood | frontend/app/measurements.tsx:166-168 | no contract of its own: Measurements.DecreaseGoodFields names the four fields it accepts |
| Measurements.Form.constructor | frontend/app/measurements.tsx:66-68 | an empty, closed form |
| Measurements.Form.Type | frontend/app/measurements.tsx:346 | typing replaces only that entry |
| Measurements.Form.Save | frontend/app/measurements.tsx:97-131 | refused with "Please enter at least one measurement" iff every entry is blank; otherwise the filled fields as numbers and the notes as typed; after a successful request the form is emptied and closed, otherwise unchanged |
| AddFood.FilteredFoods | frontend/app/add-food.tsx:52-56 | kept iff the category matches (or "all") and the name contains the search text ignoring case |
| AddFood.FilteredFoodsAppend | frontend/app/add-food.tsx:52-56 | the list keeps the foods' order |
| AddFood.AllChipShowsEverything | frontend/app/add-food.tsx:52-56 | "all" with no search shows every food |
| AddFood.FilterIdempotent | frontend/app/add-food.tsx:52-56 | filtering again changes nothing |
| AddFood.ServingCount | frontend/app/add-food.tsx:66 | the parsed count, or 1 for 0 or NaN; never 0 |
| AddFood.Decrement | frontend/app/add-food.tsx:204 | never below 0.5; half a serving less from 1 upwards |
| AddFood.StepButtons | frontend/app/add-food.tsx:204-216 | the minus button's value reads back unchanged; plus adds 0.5 except from −0.5, where 0 reads back as 1 |
| AddFood.DecrementUndoesIncrement | frontend/app/add-food.tsx:204-216 | minus undoes plus from half a serving up |
| AddFood.Increment | frontend/app/add-food.tsx:216 | no contract of its own: AddFood.StepButtons and DecrementUndoesIncrement give what the plus button writes and that minus undoes it |
| AddFood.AddFoodRequest | frontend/app/add-food.tsx:63-80 | a request iff a food, a meal type and a date are present; it carries them and the serving count |
| AddFood.EntryScalesEveryMacro | frontend/app/add-food.tsx:66-79 | each macro is the per-serving value times the same count, and dividing gives it back |
| AddFood.Scaled | frontend/app/add-food.tsx:70-80 | no contract of its own: AddFood.EntryScalesEveryMacro and TotalsScale make each macro the per-serving value times the count |
| AddFood.TotalsScale | frontend/app/add-food.tsx:76-79 | the entry's totals scale linearly with the count |
| AddFood.MealTitle | frontend/app/add-food.tsx:92-100 | the four meal types by name, anything else "Meal" |

## Left out

- Storage, the database and the network: MongoDB queries, FastAPI routing, OAuth, AsyncStorage I/O and the seed-on-empty inserts. Query results and stored entries are inputs.
- The clock: `Date.now()`, `new Date().toISOString()` and `datetime.now` are parameters; the 30-day window and `to_list` caps are taken as already applied to the input list.
- Floating point: weights, macros and volumes are exact reals; rounding is exact on the real value, and the binary representation at decimal ties (where `toFixed(1)` of 1.15 gives "1.1") is not modelled; NaN appears only as the "no number" case of parsing.
- `parseFloat`, `Number`, `toFixed`, `toString` and date formatting are not modelled as text functions. Parsed values are inputs; `toFixed(1)` is modelled on tenths with its digits; ISO and `strftime` dates are given values.
- Date comparison in `getWorkouts`/`getMeasurements`: the sort key is a parameter, and so is whether the engine's sort passes a record with a non-string date to `getMeasurements`' comparator as its second argument (the call that throws). The sort is a stable insertion sort on values, not an in-place array sort.
- Calendar: the extraction of a workout's day from its stored date is given with the input.
- Day metadata of `DailyNutrition` (user id, created time) is not modelled.
- Suggestion reason texts are not modelled as text: the reason records its template and the averages it prints.
- ExerciseHistory.Entry: a stored `rpe` of null is read as 7, as a missing one is through `s.get("rpe", 7)`, rather than modelled as the TypeError that adding None raises at backend/server.py:637.
- Lower-casing is ASCII only; JavaScript's full Unicode case mapping is not modelled.
- Object prototype keys (`titles["constructor"]` and the like in the lookup tables) are not modelled.
- Storage write failures, which `storeData` logs and swallows, are not modelled: every write succeeds.
- `initializeExercises` seeding and `userApi` in api.ts are not part of this model.
- API objects the client uses but api.ts does not define (`measurementsApi`, `foodApi.addMealEntry`, `workoutApi.getWarmupSets`, `exerciseApi.getForUser`/`getAll`) are inputs: their answer, or whether they succeeded.
- The fixed seed catalog that active.tsx imports (`seedExercises` from `src/data/seedData`) is generalised to a parameter: the model holds for any catalog.
- The rest timer and `finishWorkout` in active.tsx are not modelled.
- The stale-closure window in new.tsx between a warm-up request and its answer is not modelled: the answer applies to the selection at that time.
- Measurement deletion (`handleDelete`) and the list refresh after saving are oracle calls and are not modelled.
- SetLogger.Sheet.UpdateSet: requires an index in range, since rows are rendered only for existing sets (the JavaScript would extend the array for any other index).
- SetLogger.Sheet.constructor: states the sheet after the mount effect, that is with the initialised sets, not the raw first render.
- Notifications.FormatTime: modelled only for two digit-only pieces. Other text gives no result in the model, though the source treats it in several ways: `Number` reads an empty piece as 0, a padded one such as " 9" as a number, and anything else as NaN (shown as "12:NaN AM"), and a time without ':' leaves the minutes undefined, so `minutes.toString()` throws.
- Storage slots are taken to hold JSON arrays of objects: a slot that other code left holding `null`, an object or an array of non-objects, which every `getStoredData` caller would then trip over, is not modelled.
- ActiveWorkout.UpdateAt: values typed into the inputs are taken as already converted by `Number`.
- Concurrency and re-rendering order of React state updates are not modelled; each handler's updates apply together.
