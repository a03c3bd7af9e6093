# FitTrack logic in Dafny

FitTrack (`myFitness`) is a React Native fitness tracker that keeps everything on
the device. The user fills in a profile and logs the workouts they complete from a
catalogue. They record their water intake against a 2000 ml daily goal and save
BMI results. The home screen shows statistics derived from the history: calories
burned, today's workouts, and the current and longest streak of consecutive active
days.

This project models the app's non-visual logic and proves properties of it:

- **The calculation functions** of `utils/calculations.js`: BMI and its category,
  calorie totals, "same day", today's count, the streak, and the date, time and
  greeting strings. These are pure functions, except `calculateStreak`. Its walk is
  the imperative `Streaks.CalculateStreak`, proved equal to the specification
  function `Streaks.StreakOf`. Lemmas about that function give the streak's
  meaning: the longest run, the bounds, and the scenarios.
- **The four storage-backed hooks**: water ledger, workout history, BMI history
  and profile. Each is a class whose snapshot fields its methods update. Each holds
  the shared `Storage.Store`, a class around a `map` standing in for the device's
  key-value store.
- **The logic embedded in four screens**:
  - the onboarding validator and the profile it saves;
  - the exercise stepper of the workout details screen;
  - the input guard and colour of the BMI calculator;
  - the category filter of the workouts list.

Time is abstract. A `Calendar.Timestamp` is a local day ordinal (day 0 is
1970-01-01) plus an hour and a minute. "Now" and the clock reading used for ids
are parameters. The local calendar date of an ordinal, which `isSameDay` and the
streak's date keys compare, is computed by `Calendar.CivilFromDays`. It is proved
injective, so "same year, month and date" is "same ordinal". The only source of
failure is the platform rejecting a write. Whether each platform call fails is an
input (`fails`); a rejected write leaves the store unchanged.

The modules follow the source files:

| module | file |
|---|---|
| JsValues, Text, Calendar, Seqs, Records | JavaScript numbers, strings and dates, `Array.filter`, the record shapes |
| Storage | `utils/storage.js` |
| Calculations, Streaks, Formatting | `utils/calculations.js` |
| WaterTracking, WorkoutLog, BmiLog, Profiles | the four hooks |
| Onboarding, WorkoutDetails, BmiCalculator, WorkoutsScreen | the four screens |

Three behaviours of the code are easy to miss:

- The hooks update their snapshot and report success even when the store rejected
  the write; they do not roll back.
- The water ledger is reset for a new day only on load, not on `addWater`.
- The current streak is the last run of two or more days found by the walk, not
  the run at the most recent day (see `Streaks.OverwrittenCurrent`).

## Model

| member | source | states |
|---|---|---|
| Text.NatToStringValue | hooks/useWorkoutHistory.js:34 | `String(n)` is a string of digits whose decimal value is `n`, so an id made from the clock reads back as the clock |
| Text.NatToStringInjective | hooks/useWorkoutHistory.js:34 | different clock readings give different ids |
| Text.IntToStringInjective | utils/calculations.js:134 | the year rendered by `formatDate` determines the year, negative years included |
| Text.TrimEmptyIffBlank | screens/OnboardingScreen.js:31 | a name trims to "" exactly when it is all whitespace |
| Text.ParseIntOfNatToString | screens/OnboardingScreen.js:62 | `parseInt` reads back every decimal rendering of a natural number |
| Text.ParseFloatOfNatToString | screens/OnboardingScreen.js:63-64 | `parseFloat` reads back every decimal rendering of a natural number |
| Text.ParseOfWord | screens/OnboardingScreen.js:35-49 | text starting with a letter parses to NaN under both `parseInt` and `parseFloat` |
| Calendar.CivilFromDays | utils/calculations.js:173-175 | the local date of a day ordinal has a month in 1..12 and a date in 1..31 |
| Calendar.DaysFromCivilFromDays | utils/calculations.js:173-175 | the day ordinal is recovered from its local date |
| Calendar.SameDateIffSameDay | utils/calculations.js:170-176 | two ordinals have the same year, month and date exactly when they are equal |
| Calendar.EpochAnchor | utils/calculations.js:128-129 | ordinal 0 is Thursday 1970-01-01 |
| Calendar.LeapDayAnchor | utils/calculations.js:173-175 | ordinal 11016 is 2000-02-29, a leap day of a century year divisible by 400 |
| Calendar.WeekdayNext | utils/calculations.js:128-129 | the weekday advances by one, modulo 7, from one day to the next |
| Calendar.DaysBefore | utils/calculations.js:125-126 | `setDate(getDate() - n)` moves n days back and keeps the time of day |
| Calendar.NotAfterTransitive | hooks/useWorkoutHistory.js:33 | "completed no later than" is transitive |
| Storage.JsonRoundTrip | utils/storage.js:18-42 | a stored value reads back unchanged exactly when it holds no NaN; storing twice changes nothing more |
| Storage.Lookup | utils/storage.js:34-42 | an absent key and a text that does not parse read as null; a parsed text reads as its value |
| Storage.WriteThenLookup | utils/storage.js:18-42 | an accepted write reads back as the value's JSON image; a rejected write leaves the key as it was; other keys are untouched |
| Storage.Store.Put | utils/storage.js:18-27 | `storeData` returns true exactly when the platform accepts, and the store changes only then |
| Storage.Store.Clear | utils/storage.js:63-71 | `clearAll` empties the store unless the platform rejects the call |
| Calculations.RoundToTenth | utils/calculations.js:13 | `Math.round(x*10)/10` is a whole number of tenths within 0.05 of `x` |
| Calculations.RawBmiPositive | utils/calculations.js:11-12 | the BMI of a positive weight and height is positive |
| Calculations.InputsRejectedIff | utils/calculations.js:8 | the guard rejects exactly the inputs that are not both positive numbers (missing, NaN, zero, negative) |
| Calculations.CalculateBmi | utils/calculations.js:7-14 | 0 for any rejected input; otherwise a non-negative whole number of tenths within 0.05 of weight/(height/100)^2 |
| Calculations.CalculateBmiExamples | utils/calculations.js:7-14 | 70 kg at 175 cm gives 22.9; a zero or NaN input gives 0 |
| Calculations.ThresholdsReachedBands | utils/calculations.js:21-30 | the number of thresholds 18.5, 25, 30 at or below a BMI is 0, 1, 2 or 3 by band |
| Calculations.GetBmiCategory | utils/calculations.js:21-31 | the category is the one indexed by the number of thresholds reached |
| Calculations.CategoryBands | utils/calculations.js:21-30 | Underweight below 18.5, Normal in [18.5, 25), Overweight in [25, 30), Obese from 30, each in both directions |
| Calculations.ThresholdsReachedMonotone | utils/calculations.js:21-30 | a larger BMI reaches at least as many thresholds |
| Calculations.CategoryMonotone | utils/calculations.js:21-30 | a larger BMI never gets an earlier category |
| Calculations.SumCalories | utils/calculations.js:40 | with no negative calories the sum is non-negative |
| Calculations.CalculateTotalCalories | utils/calculations.js:38-41 | 0 for a missing history; non-negative when no record has negative calories |
| Calculations.SumCaloriesAppend | utils/calculations.js:40 | the total is additive over concatenation |
| Calculations.TotalCaloriesExample | utils/calculations.js:38-41 | 300, missing and 200 calories total 500; the empty history totals 0 |
| Calculations.IsSameDay | utils/calculations.js:170-176 | same year, month and date exactly when the day ordinals are equal |
| Calculations.SameDayIsEquivalence | utils/calculations.js:170-176 | `isSameDay` is reflexive, symmetric and transitive |
| Calculations.GetTodayWorkouts | utils/calculations.js:183-187 | 0 for a missing history; never more than the history's length |
| Calculations.TodayWorkoutsStep | utils/calculations.js:186 | appending a record adds 1 to today's count exactly when it was completed on today's date |
| Calculations.TodayWorkoutsAllToday | utils/calculations.js:186 | a history completed entirely today counts all its records |
| Streaks.InsertDay | utils/calculations.js:53-60 | inserting a day into a strictly decreasing list keeps it strictly decreasing and adds exactly that day |
| Streaks.ActiveDays | utils/calculations.js:53-60 | the unique dates, newest first: strictly decreasing, holding exactly the active days, empty only for an empty history |
| Streaks.DistinctCount | utils/calculations.js:57-60 | a strictly decreasing list has as many elements as its set |
| Streaks.ActiveDaysCount | utils/calculations.js:57-60 | the number of unique dates is the number of distinct active days |
| Streaks.RunEnd | utils/calculations.js:89-95 | the run ending at index i has length between 1 and i+1 |
| Streaks.LongestRun | utils/calculations.js:93-98 | the longest run among the first n dates is at least every run ending there and equals one of them |
| Streaks.LastRun | utils/calculations.js:89-91 | the overwritten `current` is the length of some run the walk saw |
| Streaks.StreakOf | utils/calculations.js:48-101 | `calculateStreak` as a function: the current streak never exceeds the longest, which never exceeds the number of workouts |
| Streaks.CalculateStreak | utils/calculations.js:48-101 | the walk returns `StreakOf(history, today)`; the loop keeps `tempStreak`, `longestStreak` and `currentStreak` equal to the run functions of the prefix walked |
| Streaks.MostRecentDay | utils/calculations.js:70 | the most recent active day is active, and no workout is later |
| Streaks.StreakZeroIff | utils/calculations.js:49-77 | the streak is {0, 0} exactly for a missing or empty history, or when the most recent active day is neither today nor yesterday |
| Streaks.RunEndIsRun | utils/calculations.js:86-91 | the run counted at index i is made of consecutive days |
| Streaks.RunEndIsMaximal | utils/calculations.js:86-95 | no consecutive stretch ending at index b is longer than the run counted there |
| Streaks.LongestRunIsLongest | utils/calculations.js:93-98 | `longest` is the length of the longest stretch of consecutive active days, and some stretch attains it |
| Streaks.StreakBounds | utils/calculations.js:57-100 | an active streak has 1 <= current <= longest <= number of distinct active days |
| Streaks.OverwrittenCurrent | utils/calculations.js:89-91 | workouts today and 3, 4 and 5 days ago give {current: 3, longest: 3} |
| Streaks.TwoDayStreak | utils/calculations.js:48-101 | two workouts today and one yesterday give {2, 2} |
| Streaks.BrokenStreak | utils/calculations.js:75-77 | a history whose latest workout was two days ago gives {0, 0} |
| Formatting.CalendarForm | utils/calculations.js:133-134 | "Mon D, YYYY" has a three-letter month followed by a space |
| Formatting.FormatDate | utils/calculations.js:108-135 | "Today" exactly for today's date and "Yesterday" exactly for yesterday's |
| Formatting.WeekdayNamesDistinct | utils/calculations.js:128 | no weekday name is "Today" or "Yesterday" or looks like a calendar form |
| Formatting.FormatDateCases | utils/calculations.js:108-135 | "Today" exactly for today's date, "Yesterday" exactly for yesterday's, the weekday name exactly for an earlier date after the same time a week ago, the calendar form otherwise |
| Formatting.SplitAtComma | utils/calculations.js:134 | "D, YYYY" splits back into its date and year |
| Formatting.CalendarFormInjective | utils/calculations.js:133-134 | different dates get different calendar forms |
| Formatting.FormatDateCalendarInjective | utils/calculations.js:133-134 | two instants shown in calendar form with the same text are on the same day |
| Formatting.TwelveHour | utils/calculations.js:146-148 | the 12-hour clock reads 1..12 and agrees with the hour modulo 12 |
| Formatting.MinutesText | utils/calculations.js:149 | minutes are two digits whose value is the minute |
| Formatting.FormatTime | utils/calculations.js:142-151 | the hour and minute are recovered from the "h:mm AM/PM" text |
| Formatting.FormatTimeInjective | utils/calculations.js:142-151 | different times of day format differently |
| Formatting.FormatTimeExamples | utils/calculations.js:142-151 | midnight is "12:00 AM", noon is "12:00 PM", 14:05 is "2:05 PM" |
| Formatting.GetGreeting | utils/calculations.js:157-162 | morning before 12, afternoon in [12, 18), evening from 18, each in both directions |
| WaterTracking.SavedDate | hooks/useWaterTracker.js:28 | a missing stored date counts as now; a stored date counts as itself |
| WaterTracking.ValidIntake | hooks/useWaterTracker.js:38 | a stored intake that is a number other than NaN is kept; anything else becomes 0 |
| WaterTracking.ProgressOf | hooks/useWaterTracker.js:90-92 | progress is NaN only for NaN; never above 100; exactly 100 at or above 2000 ml; otherwise intake/2000*100 |
| WaterTracking.GlassesOf | hooks/useWaterTracker.js:94-96 | glasses is the whole number g with 250g <= intake < 250(g+1) |
| WaterTracking.ProgressExamples | hooks/useWaterTracker.js:90-96 | 250 ml is 12.5 %, 2000 ml is 100 % and 8 glasses, 1999 ml is 7 glasses |
| WaterTracking.WaterTracker.GetProgress | hooks/useWaterTracker.js:90-92 | NaN only for a NaN intake; never above 100; 100 from the 2000 ml goal on |
| WaterTracking.WaterTracker.GetGlasses | hooks/useWaterTracker.js:94-96 | NaN only for a NaN intake; otherwise the whole number of 250 ml glasses the intake covers |
| WaterTracking.WaterTracker.constructor | hooks/useWaterTracker.js:10-12 | intake 0, dated now, loading |
| WaterTracking.WaterTracker.LoadWaterData | hooks/useWaterTracker.js:22-52 | a stale or invalid stored date resets intake to 0 at now in state and store; otherwise the repaired intake and the stored date are kept, and the intake is written back only when repairing changed it |
| WaterTracking.WaterTracker.AddWater | hooks/useWaterTracker.js:54-75 | the new intake is the repaired current intake plus the amount (250 when none is given), stamped now, with no day-boundary check; returns true even when a write fails |
| WaterTracking.WaterTracker.ResetWater | hooks/useWaterTracker.js:77-88 | intake 0 stamped now in state and, when accepted, in the store; returns true |
| WaterTracking.ResetTwice | hooks/useWaterTracker.js:77-88 | resetting twice leaves the same state and store as resetting once |
| WaterTracking.AddAfterMidnight | hooks/useWaterTracker.js:54-70 | adding on a later day than the ledger's date keeps the old total: 1000 ml becomes 1250 ml |
| WaterTracking.EightGlasses | hooks/useWaterTracker.js:54-96 | a reset followed by eight default adds gives 8 glasses and 100 % |
| WorkoutLog.HistoryFrom | hooks/useWorkoutHistory.js:21 | the stored list, or the empty list for a missing value |
| WorkoutLog.NewWorkoutRecord | hooks/useWorkoutHistory.js:31-35 | the caller's fields are kept; `completedAt` is now; the id is the digits of the clock |
| WorkoutLog.PrependKeepsNewestFirst | hooks/useWorkoutHistory.js:33-36 | prepending a record no earlier than the head keeps the list newest first |
| WorkoutLog.WorkoutHistory.LoadHistory | hooks/useWorkoutHistory.js:18-27 | the snapshot is the stored list, or empty when none is stored |
| WorkoutLog.WorkoutHistory.AddWorkout | hooks/useWorkoutHistory.js:29-44 | exactly one record is prepended and the rest is unchanged; the store holds the new list when the write is accepted; the list stays newest first under a non-decreasing clock; returns true |
| WorkoutLog.WorkoutHistory.ClearHistory | hooks/useWorkoutHistory.js:46-55 | the snapshot, and the store when accepted, hold the empty list |
| WorkoutLog.WorkoutHistory.GetStats | hooks/useWorkoutHistory.js:57-64 | every figure comes from the same snapshot; today's count and the longest streak never exceed the number of workouts |
| WorkoutLog.ClearTwice | hooks/useWorkoutHistory.js:46-50 | clearing twice leaves what clearing once leaves |
| BmiLog.ResultsFrom | hooks/useBMI.js:21 | the stored list, or the empty list for a missing value |
| BmiLog.NewBmiRecord | hooks/useBMI.js:31-43 | the record holds `calculateBMI` of the inputs, that value's category name, colour and emoji, the inputs, now, and the clock's digits |
| BmiLog.ZeroWeightSaved | hooks/useBMI.js:31-32 | a zero weight is not rejected: it is saved as BMI 0, Underweight |
| BmiLog.SavedCategoryBand | hooks/useBMI.js:31-36 | a saved record's category is the band of its BMI |
| BmiLog.BmiHistory.LoadBmiHistory | hooks/useBMI.js:18-27 | the snapshot is the stored list, or empty when none is stored |
| BmiLog.BmiHistory.GetLatestBmi | hooks/useBMI.js:56-58 | null exactly for an empty history; otherwise the first record |
| BmiLog.BmiHistory.SaveBmi | hooks/useBMI.js:29-54 | the new record is prepended, stored when accepted, and returned; `getLatestBMI` then returns it |
| BmiLog.BmiHistory.ClearBmiHistory | hooks/useBMI.js:60-69 | the snapshot, and the store when accepted, hold the empty list; the latest result is then null |
| BmiLog.ClearTwice | hooks/useBMI.js:60-64 | clearing twice leaves what clearing once leaves |
| Profiles.Merge | hooks/useProfile.js:39 | the merged keys are both key sets; the updates win; every other key keeps its value |
| Profiles.MergeIntoNull | hooks/useProfile.js:39 | merging into a null profile gives exactly the updates |
| Profiles.HasCompleteProfile | hooks/useProfile.js:49-57 | complete exactly when the profile is an object whose name, age, weight and height are present and none is null, false, 0, NaN or "" |
| Profiles.IncompleteProfiles | hooks/useProfile.js:49-57 | a null profile, an age of 0 or NaN, or an empty name is not a complete profile |
| Profiles.ProfileProvider.LoadProfile | hooks/useProfile.js:15-24 | the profile is the stored value, null when the key is absent |
| Profiles.ProfileProvider.SaveProfile | hooks/useProfile.js:26-35 | the profile is replaced wholesale and written to the store; returns true |
| Profiles.ProfileProvider.UpdateProfile | hooks/useProfile.js:37-47 | the profile becomes the merge of the old profile and the updates, and is written to the store; returns true |
| Profiles.ProfileProvider.HasProfile | hooks/useProfile.js:49-57 | a user with a profile has an object holding name, age, weight and height |
| Profiles.ProfileProvider.Logout | hooks/useProfile.js:59-68 | the store is emptied when accepted; the profile is null, so `hasProfile` is false |
| Onboarding.NewProfile | screens/OnboardingScreen.js:60-66 | the saved profile has exactly name, age, weight, height and createdAt: the trimmed name, an integer age, the parsed weight and height, and now |
| Onboarding.OnboardingScreen.ValidateForm | screens/OnboardingScreen.js:28-53 | each field has its message exactly when it is rejected; no other key; the form is valid exactly when there are no errors |
| Onboarding.OnboardingScreen.HandleSubmit | screens/OnboardingScreen.js:55-68 | an invalid form saves nothing; a valid one saves the new profile |
| Onboarding.AgeNaNGap | screens/OnboardingScreen.js:35-41 | an age of "abc" parses to NaN and is not rejected |
| Onboarding.NaNAgeProfileIncomplete | screens/OnboardingScreen.js:62 | a profile built from an unparsable age is not complete for `hasProfile` |
| Onboarding.AcceptedFormIsComplete | screens/OnboardingScreen.js:28-66 | a valid form whose numbers parse yields a profile `hasProfile` accepts |
| Onboarding.NewProfileExample | screens/OnboardingScreen.js:60-64 | " Sam ", "30", "70", "175" give "Sam", 30, 70 and 175 |
| WorkoutDetails.Payload | screens/WorkoutDetailsScreen.js:33-38 | the recorded fields are the workout's name, category, duration and calories |
| WorkoutDetails.WorkoutDetailsScreen.constructor | screens/WorkoutDetailsScreen.js:21-24 | the timer starts hidden, at exercise 0, not resting |
| WorkoutDetails.WorkoutDetailsScreen.StartWorkout | screens/WorkoutDetailsScreen.js:26-30 | the timer opens at exercise 0, not resting |
| WorkoutDetails.WorkoutDetailsScreen.NextExercise | screens/WorkoutDetailsScreen.js:191-196 | offered only before the last exercise; adds 1; the index stays within the exercises |
| WorkoutDetails.WorkoutDetailsScreen.FinishWorkout | screens/WorkoutDetailsScreen.js:197-205 | offered at the last index or with no exercises; hides the timer, then records the workout's payload |
| WorkoutDetails.WorkoutDetailsScreen.CompleteWorkout | screens/WorkoutDetailsScreen.js:32-56 | prepends the payload's record to the history; the alert is shown exactly when `addWorkout` succeeded, which is always |
| WorkoutDetails.WorkoutDetailsScreen.CloseTimer | screens/WorkoutDetailsScreen.js:58-71 | confirming hides the timer, cancelling does not; nothing is recorded |
| WorkoutDetails.StepThrough | screens/WorkoutDetailsScreen.js:26-30 | pressing "Next Exercise" for as long as it is offered reaches the last exercise, and finishing adds exactly one record |
| BmiCalculator.ParseInput | screens/BMICalculatorScreen.js:35-36 | `parseFloat` of a number's rendering is that number |
| BmiCalculator.ProfileInput | screens/BMICalculatorScreen.js:23-24 | a missing profile or field gives ""; a number field reads back as itself |
| BmiCalculator.GetBmiColor | screens/BMICalculatorScreen.js:48-53 | the screen's colour is the category's colour for every BMI |
| BmiCalculator.BmiCalculatorScreen.constructor | screens/BMICalculatorScreen.js:23-25 | the inputs start from the profile's weight and height; no result |
| BmiCalculator.BmiCalculatorScreen.SyncProfile | screens/BMICalculatorScreen.js:27-32 | a present profile overwrites both inputs; a null one changes nothing |
| BmiCalculator.BmiCalculatorScreen.CalculateBmi | screens/BMICalculatorScreen.js:34-46 | rejected inputs change nothing; accepted ones are saved through `saveBMI` and the saved record becomes the result |
| BmiCalculator.ProfileToResult | screens/BMICalculatorScreen.js:27-46 | a profile of 70 kg at 175 cm, synchronised and calculated, gives the result 22.9, Normal |
| WorkoutsScreen.InitialCategory | screens/WorkoutsScreen.js:16 | the screen opens showing the whole catalogue, whatever it holds |
| WorkoutsScreen.FilteredWorkouts | screens/WorkoutsScreen.js:18-21 | "All" gives the whole list; any other category gives only workouts of that category, and every such workout |
| WorkoutsScreen.FilterKeepsOrder | screens/WorkoutsScreen.js:21 | the filter keeps the catalogue's order |
| WorkoutsScreen.SingleCategoryShownWhole | screens/WorkoutsScreen.js:21 | a list of one category is shown whole under that category |

## Left out

- Rendering, styling, navigation, `Alert` and `Modal` are not modelled. Only the state they gate is.
- Asynchrony is not modelled. Each hook operation is one atomic step. `console.error` logging is dropped.
- The real clock and time zone are parameters: a day ordinal plus hour and minute. Daylight-saving time, seconds and milliseconds are not modelled. Ids are the clock's digits, and the model makes no claim that they are unique.
- IEEE-754 arithmetic is replaced by exact rationals. Infinities are not modelled; NaN is.
- `parseInt`/`parseFloat` read decimal text only. Hexadecimal, exponents and "Infinity" are not modelled.
- `removeData` and `getMultiple` of `utils/storage.js` are not modelled, because no modelled code calls them.
- A stored JSON text is modelled by the value it parses to, or as corrupt.
- A stored value of the wrong kind is not modelled. A truthy non-list under a history key is read as the empty list (`WorkoutLog.HistoryFrom`, `BmiLog.ResultsFrom`). A number under the water-date key counts as an invalid date (`WaterTracking.SavedDate`), where JavaScript would read it as an epoch instant.
- Spreading a profile that is not an object is modelled as spreading `{}` (`Profiles.FieldsOf`).
- The workout catalogue (`data/workouts.json`) is not part of this model. It is a parameter. Of each exercise only the name is kept.
- The countdown `timeRemaining` is never started by the details screen, so it is not modelled.
- `useWorkoutHistory`, `useWaterTracker` and `useBMI` are plain hooks: each screen that calls one holds its own snapshot, read once when it mounts. The model has one snapshot per hook, so it does not capture a screen whose snapshot has gone stale after another screen wrote (for example the home screen's statistics after "Complete Workout"). `useProfile` is a context and really is one instance.
- Streaks.CalculateStreak: `diffDays` is the distance between the two day ordinals. The source rebuilds both dates by passing the numbers of a "year-month-date" key to `new Date` as an array, which is read as the text "year,month,date"; whether that parses depends on the engine. On an engine that rejects it every `diffDays` is NaN, no two days join, and a live streak is always {current: 1, longest: 1}.
- BmiLog.BmiHistory.SaveBmi: takes finite weight and height, because the only caller passes inputs its guard has already accepted.
- BmiCalculator.ProfileInput: a date-valued weight or height is read as text that does not parse, where the app would read the year at the head of its ISO text. The app never stores a date there: both screens that write a profile store `parseFloat` results.
- Formatting.FormatDate: compares day ordinals where the source compares `toDateString()` texts. `Calendar.SameDateIffSameDay` proves the two agree.
