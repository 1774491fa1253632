# Workout planner core in Dafny

This project models the logic of a small Android workout planner. The app is
written in Kotlin and all of that logic sits in `MainActivity.kt`:

- **Monthly plan.** `generatePlan` walks the days of a month. A day listed as
  a work day becomes a REST entry "Work/Rest" with no exercises. Every other
  day takes the next type of the rotation STRENGTH_A, CARDIO, STRENGTH_B,
  YOGA, and only training days advance the rotation.
- **August 2025 plan.** `generateAugRange` builds a fixed day-to-type
  schedule for that month. Unscheduled days are REST "—".
- **Lookup tables.** `defaultWorkDays` gives the built-in work days of
  September 2025. `toLabel` and `toExercises` give each type its label and
  its exercise template.
- **Progression advice.** `recommendNextLoad` computes the load to try next
  from the best weight and the average RPE (rate of perceived exertion).
- **Daily reminder.** `todaySummary` gives the reminder text for a date.
- **CSV export.** `exportToCsv` builds a text with one line per (day,
  exercise, set). Each line's measurements are looked up under the
  logged-set key `date|name|setN`.

Modules:

- `Text` (text.dfy): decimal text of naturals, zero padding, and splitting
  and joining on a separator.
- `Calendar` (calendar.dfy): `YearMonth`, `Date` (a `LocalDate`), Gregorian month
  lengths and the ISO `yyyy-MM-dd` text of a date.
- `Workout` (workout.dfy): the data classes and the lookup tables.
- `PlanGenerator` (plan_generator.dfy): `generatePlan` and
  `generateAugRange`.
  - `GeneratePlan` is a method. It keeps the source's running counter in a
    loop and is proved to build `PlanDays`, a closed-form description.
  - Day d of `PlanDays` takes the rotation slot numbered by the training
    days before d.
- `Progression` (progression.dfy): `recommendNextLoad`.
- `Reminder` (reminder.dfy): `todaySummary`.
- `CsvExport` (csv_export.dfy): the text `exportToCsv` builds.
  - `CsvText` specifies that text.
  - The three nested `forEach` loops are the methods `ExportCsvText`,
    `AppendDayLines` and `AppendSetLines`, one per loop level. The body of
    the innermost loop is the method `SetLine`.
  - Each method is proved to produce its part of `CsvText`.

Two behaviours of the code deserve a note:

- **No RPE logged.** With a positive best weight, the two screens that ask
  `recommendNextLoad` for advice treat a missing RPE differently.
  - The day card replaces a NaN average by 0 (line 291), which gives
    best + 2.5 kg and the text "Try ~… kg next time".
  - The summary screen keeps only RPEs above 0, so with none logged
    `average()` of the empty list is NaN. It passes that NaN on to
    `recommendNextLoad` (lines 213-214). Every comparison with NaN is
    false, so the result is the best weight itself, and the screen shows
    "Next: <best> kg" (line 227).
  - `Progression.Rpe` keeps NaN as a value of its own.
    `Progression.DayCardLine` and `Progression.SummaryLine` give what each
    screen shows, and `Progression.NoRpeAdvice` states both outcomes.
  - With no weight logged the best weight is 0, `recommendNextLoad`
    returns 0 (line 237), and both screens say to repeat: "Repeat best
    0.0 kg" (line 292) and "Next: repeat" (line 227). This is
    `Progression.NoWeightAdvice`.
- **Commas and newlines in the CSV.** The template names hold no comma, but
  the export quotes or escapes no field. That includes the free-text weight
  and RPE values. The read-back lemmas therefore carry two preconditions:
  - exercise names have no `|`, `,` or newline (`SafeName`);
  - stored values have no `,` or newline (`PlainValues`).

## Model

| member | source | states |
|---|---|---|
| Workout.Label | app/src/main/java/com/example/workoutplanner/MainActivity.kt:410-416 | every type has a non-empty label |
| Workout.LabelInjective | app/src/main/java/com/example/workoutplanner/MainActivity.kt:410-416 | different types have different labels, so a reminder text names its type |
| Workout.Exercises | app/src/main/java/com/example/workoutplanner/MainActivity.kt:418-445 | every template item has at least one set; names are pairwise distinct within a list and hold no `\|`, `,` or newline; the list is empty exactly for REST |
| Workout.ExerciseTable | app/src/main/java/com/example/workoutplanner/MainActivity.kt:418-445 | STRENGTH_A/STRENGTH_B/CARDIO/YOGA/REST have 7/7/2/1/0 exercises and 19/19/2/1/0 sets |
| Workout.DefaultWorkDays | app/src/main/java/com/example/workoutplanner/MainActivity.kt:405-408 | no work days outside September 2025; every listed work day is a day of its month |
| Calendar.LengthOfMonth | app/src/main/java/com/example/workoutplanner/MainActivity.kt:374 | `lengthOfMonth` is between 28 and 31; it is 29 exactly for February of a leap year, under 30 exactly for February, and 31 exactly for months 1, 3, 5, 7, 8, 10 and 12 |
| Calendar.YearLength | app/src/main/java/com/example/workoutplanner/MainActivity.kt:374 | the twelve month lengths add up to 366 in a leap year and 365 otherwise |
| Calendar.DateText | app/src/main/java/com/example/workoutplanner/MainActivity.kt:459 | the text of a date (`${day.date}`) uses only digits, `-` and `+`, so it holds no key or CSV separator |
| Calendar.DateTextInjectiveInMonth | app/src/main/java/com/example/workoutplanner/MainActivity.kt:459 | within one month, different days have different date texts |
| Text.NatText | app/src/main/java/com/example/workoutplanner/MainActivity.kt:459 | the text of `$setIdx` is a non-empty string of digits with no leading zero |
| Text.ParseNatText | app/src/main/java/com/example/workoutplanner/MainActivity.kt:463 | reading the set column back gives the set number |
| PlanGenerator.GeneratePlan | app/src/main/java/com/example/workoutplanner/MainActivity.kt:371-381 | the loop with the counter `idx` builds exactly `PlanDays`: the given month and work days, and day d scheduled as the rotation slot numbered by the training days before d |
| PlanGenerator.PlanCoversMonth | app/src/main/java/com/example/workoutplanner/MainActivity.kt:374-375 | the plan has `lengthOfMonth` entries and entry i is dated (year, month, i + 1) |
| PlanGenerator.CoveredDatesAscend | app/src/main/java/com/example/workoutplanner/MainActivity.kt:374-375 | the dates of such a plan are strictly ascending, hence without duplicates |
| PlanGenerator.WorkDaysAreRest | app/src/main/java/com/example/workoutplanner/MainActivity.kt:376 | a work day is REST with summary "Work/Rest" and no exercises |
| PlanGenerator.TrainingDaysFollowCycle | app/src/main/java/com/example/workoutplanner/MainActivity.kt:377 | any other day has type `cycle[k % 4]`, where k counts the training days before it; it is never REST and has its type's label and non-empty exercise list |
| PlanGenerator.EntriesMatchTheirType | app/src/main/java/com/example/workoutplanner/MainActivity.kt:376-377 | every entry's summary and items are its type's label and exercise template |
| PlanGenerator.SlotsSkipWorkDays | app/src/main/java/com/example/workoutplanner/MainActivity.kt:376-377 | work days between two training days do not advance the counter |
| PlanGenerator.NoSlotsBeforeFirstTraining | app/src/main/java/com/example/workoutplanner/MainActivity.kt:373-377 | the counter is still 0 on the first training day |
| PlanGenerator.KindsRotate | app/src/main/java/com/example/workoutplanner/MainActivity.kt:377 | consecutive training days take consecutive rotation types |
| PlanGenerator.RotationSkipsRestDays | app/src/main/java/com/example/workoutplanner/MainActivity.kt:376-377 | in the plan, the next training day after a training day has the next type of the rotation, whatever work days lie between them |
| PlanGenerator.FirstTrainingDayIsStrengthA | app/src/main/java/com/example/workoutplanner/MainActivity.kt:372-377 | the first training day of every month is STRENGTH_A |
| PlanGenerator.PlanDayKind | app/src/main/java/com/example/workoutplanner/MainActivity.kt:374-377 | entry i has the type that day i + 1 is scheduled for |
| PlanGenerator.DaysSplit | app/src/main/java/com/example/workoutplanner/MainActivity.kt:374-377 | each of the first n days is either a listed work day or a training day |
| PlanGenerator.RestDayCount | app/src/main/java/com/example/workoutplanner/MainActivity.kt:374-377 | the first n entries hold one REST entry per work day among days 1..n, and the others are training entries |
| PlanGenerator.RestDayTotal | app/src/main/java/com/example/workoutplanner/MainActivity.kt:374-377 | the plan holds one REST entry per work day inside the month |
| PlanGenerator.SlotsIgnoreOutOfRange | app/src/main/java/com/example/workoutplanner/MainActivity.kt:374-376 | work-day numbers outside the month do not change the counter |
| PlanGenerator.OutOfRangeWorkDaysIgnored | app/src/main/java/com/example/workoutplanner/MainActivity.kt:374-376 | a plan is unchanged when work-day numbers outside 1..lengthOfMonth are dropped |
| PlanGenerator.SeptemberWorkDays | app/src/main/java/com/example/workoutplanner/MainActivity.kt:405-406 | all nine built-in work days of September 2025 lie inside the month |
| PlanGenerator.SeptemberCounts | app/src/main/java/com/example/workoutplanner/MainActivity.kt:371-381 | September 2025 with its built-in work days has 30 entries: 9 REST and 21 training days |
| PlanGenerator.SeptemberFirstKinds | app/src/main/java/com/example/workoutplanner/MainActivity.kt:372-377 | in September 2025, days 1-4 are scheduled STRENGTH_A, CARDIO, STRENGTH_B, YOGA |
| PlanGenerator.SeptemberOpening | app/src/main/java/com/example/workoutplanner/MainActivity.kt:371-381 | the plan's first four entries have exactly those types |
| PlanGenerator.GenerateAugRange | app/src/main/java/com/example/workoutplanner/MainActivity.kt:383-403 | the August 2025 plan has no work days and one entry per day of August, 31 in all, in date order |
| PlanGenerator.AugScheduleShape | app/src/main/java/com/example/workoutplanner/MainActivity.kt:385-396 | the schedule names exactly days 22-31, and none of them as REST |
| PlanGenerator.AugRangeShape | app/src/main/java/com/example/workoutplanner/MainActivity.kt:397-401 | days 1-21 are REST "—" with no exercises; days 22-31 have their scheduled type, its label and its exercises |
| PlanGenerator.AugDayIsRest | app/src/main/java/com/example/workoutplanner/MainActivity.kt:399-400 | an August entry is REST exactly when it lies before day 22 |
| PlanGenerator.AugRangeCounts | app/src/main/java/com/example/workoutplanner/MainActivity.kt:397-402 | 21 of the 31 August entries are REST |
| Progression.RecommendNextLoad | app/src/main/java/com/example/workoutplanner/MainActivity.kt:235-242 | 0 without a positive best weight. Otherwise the result is between the best weight and best + 2.5. It exceeds the best weight exactly when the RPE is at most 8.5, and it is best + 2.5 exactly when the RPE is at most 7.0 (never for NaN) |
| Progression.NonDecreasingInBest | app/src/main/java/com/example/workoutplanner/MainActivity.kt:235-242 | a heavier best weight never lowers the advice |
| Progression.NonIncreasingInRpe | app/src/main/java/com/example/workoutplanner/MainActivity.kt:235-242 | a higher RPE never raises the advice |
| Progression.Increments | app/src/main/java/com/example/workoutplanner/MainActivity.kt:238-240 | with a positive best weight the step is +2.5, +1.0 or 0 according to the RPE band |
| Progression.Examples | app/src/main/java/com/example/workoutplanner/MainActivity.kt:235-242 | 100 kg at RPE 6, 8 and 9 gives 102.5, 101 and 100; a best of 0 always gives 0 |
| Progression.DayCardRpe | app/src/main/java/com/example/workoutplanner/MainActivity.kt:291 | the day card always passes a number, and passes a non-NaN average unchanged |
| Progression.DayCardLine | app/src/main/java/com/example/workoutplanner/MainActivity.kt:290-292 | the day card shows "Try ~next kg next time" exactly when the best weight is positive and the RPE (NaN read as 0) is at most 8.5, with next above the best and at most best + 2.5. Otherwise it shows "Repeat best" with the best weight |
| Progression.SummaryLine | app/src/main/java/com/example/workoutplanner/MainActivity.kt:213-227 | the summary shows "repeat" exactly when the best weight is not positive. Otherwise it shows a load between best and best + 2.5, equal to the best exactly when the RPE is not at most 8.5 (NaN included) |
| Progression.ScreensAgree | app/src/main/java/com/example/workoutplanner/MainActivity.kt:290-292 | with an RPE logged, the day card suggests a new load exactly when the summary shows a load above the best weight, and it is the same load |
| Progression.NoRpeAdvice | app/src/main/java/com/example/workoutplanner/MainActivity.kt:213-214 | with no RPE logged and a positive best weight, the summary screen shows the best weight itself as the next load, while the day card shows "Try ~best + 2.5 kg" |
| Progression.NoWeightAdvice | app/src/main/java/com/example/workoutplanner/MainActivity.kt:235-237 | with no weight logged (best 0), both screens say to repeat, whatever the RPE: the day card "Repeat best 0.0 kg" and the summary "Next: repeat" |
| Reminder.FindByDate | app/src/main/java/com/example/workoutplanner/MainActivity.kt:449 | `find` returns nothing exactly when no entry is dated today; otherwise it returns the first entry dated today |
| Reminder.TodaySummary | app/src/main/java/com/example/workoutplanner/MainActivity.kt:447-451 | the reminder is "Your plan awaits!" when no entry is dated today, and otherwise the summary of the first entry dated today |
| Reminder.TodayInGeneratedPlan | app/src/main/java/com/example/workoutplanner/MainActivity.kt:447-451 | for a generated plan, a date in the month gives the label of that day's type ("Work/Rest" on a work day); any other date gives the fallback text |
| Reminder.FirstOfSeptemberReminder | app/src/main/java/com/example/workoutplanner/MainActivity.kt:447-451 | on 1 September 2025 the reminder reads "Strength A (Deadlift + Pull)" |
| Reminder.EighthOfSeptemberReminder | app/src/main/java/com/example/workoutplanner/MainActivity.kt:447-451 | on 8 September 2025, a work day, it reads "Work/Rest" |
| CsvExport.SetLine | app/src/main/java/com/example/workoutplanner/MainActivity.kt:459-463 | the key lookups and the appended text of one set give exactly that set's CSV line |
| CsvExport.AppendSetLines | app/src/main/java/com/example/workoutplanner/MainActivity.kt:458-464 | the innermost loop appends the lines of sets 1..sets of one exercise, in order, and none when sets < 1 |
| CsvExport.AppendDayLines | app/src/main/java/com/example/workoutplanner/MainActivity.kt:457-465 | the middle loop appends the lines of a day's exercises in list order |
| CsvExport.ExportCsvText | app/src/main/java/com/example/workoutplanner/MainActivity.kt:453-466 | the builder ends holding exactly `CsvText`: the header, then the lines of all days in plan order |
| CsvExport.RowCount | app/src/main/java/com/example/workoutplanner/MainActivity.kt:456-466 | the export has one row per set of the plan: the row count is the sum of the sets |
| CsvExport.HeaderOnly | app/src/main/java/com/example/workoutplanner/MainActivity.kt:454-466 | a plan without any set exports the header alone |
| CsvExport.RowLineFields | app/src/main/java/com/example/workoutplanner/MainActivity.kt:463 | a line is its six columns joined by commas, followed by a newline |
| CsvExport.RowRoundTrip | app/src/main/java/com/example/workoutplanner/MainActivity.kt:459-463 | when the exercise name has no `\|`, comma or newline and the stored values have no comma or newline: splitting a line at its commas gives back the date text, the exercise name, the set number, the weight and RPE (empty when missing), and "yes" exactly when the set is ticked |
| CsvExport.SplitLines | app/src/main/java/com/example/workoutplanner/MainActivity.kt:456-466 | under the same conditions, the appended text splits at newlines into one line per row, in row order |
| CsvExport.CsvLines | app/src/main/java/com/example/workoutplanner/MainActivity.kt:454-466 | the whole export splits into the header line, one line per set in plan order, and the empty piece after the last newline: 1 + sum-of-sets lines |
| CsvExport.ItemRowsNoRepeats | app/src/main/java/com/example/workoutplanner/MainActivity.kt:457-458 | a day with distinct exercise names yields no repeated (date, name, set) triple |
| CsvExport.RowsNoRepeats | app/src/main/java/com/example/workoutplanner/MainActivity.kt:456-458 | days on distinct dates, each with distinct names, yield no repeated triple |
| CsvExport.KeyTextInjective | app/src/main/java/com/example/workoutplanner/MainActivity.kt:459 | for two rows in the same month, with names without `\|`, comma or newline, equal keys `date\|name\|setN` mean equal date, name and set |
| CsvExport.MonthRowFacts | app/src/main/java/com/example/workoutplanner/MainActivity.kt:456-459 | in any plan covering one month whose entries carry their type's template list, every row is dated inside the month and names an exercise without `\|`, comma or newline |
| CsvExport.MonthKeysDistinct | app/src/main/java/com/example/workoutplanner/MainActivity.kt:456-459 | in such a plan no two sets share a logged-set key |
| CsvExport.PlanRowFacts | app/src/main/java/com/example/workoutplanner/MainActivity.kt:456-459 | every row of a generated plan is dated inside the month and names a template exercise |
| CsvExport.PlanKeysDistinct | app/src/main/java/com/example/workoutplanner/MainActivity.kt:459 | in a generated plan no two sets share a logged-set key, so every stored weight, RPE and tick belongs to one row |
| CsvExport.AugKeysDistinct | app/src/main/java/com/example/workoutplanner/MainActivity.kt:383-403 | no two sets of the August 2025 plan share a logged-set key, and all its names are separator-free |

## Left out

- The Compose UI (`App`, `PlanScreen`, `DayCard`, `ExerciseItemRow`,
  `TimePickerRow`, `RestTimer`): rendering and UI state. The rest timer's
  coroutine countdown is concurrency.
- DataStore loading and saving, and writing the CSV text to the chosen
  document (`openOutputStream`, line 467): persistence and file I/O.
  `ExportCsvText` returns the text that would be written.
- Reminder scheduling and `ReminderWorker.kt`: WorkManager, notifications
  and the wall clock.
- The clock of `todaySummary`: `LocalDate.now()` is the parameter `today`.
- The summary screen's aggregation (lines 196-216) and the day card's
  averaging: parsing with `toDoubleOrNull`, maxima and `average()` over
  doubles. Only the NaN they can pass on is modelled, as `Progression.Rpe`.
- Progression.RecommendNextLoad: the weights are exact reals. Floating-point
  rounding of `bestKg + 2.5`, a NaN or infinite best weight and the `"%.1f"`
  display format are not modelled.
- The StringBuilder is modelled as a string value that each method returns,
  not as a shared mutable buffer.
- Calendar.DateText: covers any integer year. `LocalDate` limits years to
  ±999,999,999, and `LocalDate.of` rejects invalid days. The planner only
  builds valid dates.
- `ExerciseItem`'s default of 3 sets: every template gives its sets
  explicitly, so the model has no default.
- Kotlin `Int` overflow of the rotation counter and of set numbers: the
  counter never exceeds 31, and set numbers are at most `sets`.
- CsvExport.RowRoundTrip, CsvExport.SplitLines and CsvExport.CsvLines: these
  hold only when names and stored values contain no comma or newline, since
  the export neither quotes nor escapes fields.
