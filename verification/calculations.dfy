/**
 * The derived statistics of `utils/calculations.js`: BMI and its category,
 * calorie totals, "same day" and "today" counts, the workout streak, and the
 * date, time and greeting strings. "Now" is always a parameter.
 */
module Calculations {
  import opened JsValues
  import opened Calendar
  import opened Text
  import opened Seqs
  import opened Records

  // ---------------------------------------------------------------- BMI

  /** Weight over the square of the height in metres, before rounding. */
  function RawBmi(weight: real, height: real): real
    requires height != 0.0
  {
    weight / ((height / 100.0) * (height / 100.0))
  }

  /** `r` is a whole number of tenths. */
  predicate IsTenth(r: real)
  {
    (r * 10.0).Floor as real == r * 10.0
  }

  /** `Math.round(x * 10) / 10`: the nearest tenth, halves rounded up. */
  function RoundToTenth(x: real): (r: real)
    ensures IsTenth(r)
    ensures x - 0.05 < r <= x + 0.05
  {
    (x * 10.0 + 0.5).Floor as real / 10.0
  }

  lemma RawBmiPositive(weight: real, height: real)
    requires weight > 0.0 && height > 0.0
    ensures RawBmi(weight, height) > 0.0
  {
    var m := height / 100.0;
    var q := weight / (m * m);
    assert m * m > 0.0;
    assert q * (m * m) == weight;
  }

  /**
   * `!weight || !height || weight <= 0 || height <= 0`, the guard shared by
   * `calculateBMI` and the BMI screen.
   */
  predicate InputsRejected(weight: JsNumber, height: JsNumber)
  {
    !NumberTruthy(weight) || !NumberTruthy(height) || AtMost(weight, 0.0) || AtMost(height, 0.0)
  }

  /** The guard lets through exactly the pairs of positive numbers. */
  lemma InputsRejectedIff(weight: JsNumber, height: JsNumber)
    ensures InputsRejected(weight, height) <==> !(weight.Num? && weight.r > 0.0 && height.Num? && height.r > 0.0)
  {
  }

  /**
   * `calculateBMI(weight, height)`: 0 when either input is missing, zero,
   * NaN or negative; otherwise the BMI rounded to one decimal.
   */
  function CalculateBmi(weight: JsNumber, height: JsNumber): (bmi: real)
    ensures !(weight.Num? && weight.r > 0.0 && height.Num? && height.r > 0.0) ==> bmi == 0.0
    ensures weight.Num? && weight.r > 0.0 && height.Num? && height.r > 0.0 ==>
      && bmi >= 0.0 && IsTenth(bmi)
      && RawBmi(weight.r, height.r) - 0.05 < bmi <= RawBmi(weight.r, height.r) + 0.05
  {
    if InputsRejected(weight, height) then 0.0
    else
      RawBmiPositive(weight.r, height.r);
      RoundToTenth(RawBmi(weight.r, height.r))
  }

  /** 70 kg at 175 cm is 22.9; a zero weight or height gives the sentinel 0. */
  lemma CalculateBmiExamples()
    ensures CalculateBmi(Num(70.0), Num(175.0)) == 22.9
    ensures CalculateBmi(Num(0.0), Num(175.0)) == 0.0
    ensures CalculateBmi(Num(70.0), Num(0.0)) == 0.0
    ensures CalculateBmi(NaN, Num(175.0)) == 0.0
  {
    var raw := RawBmi(70.0, 175.0);
    assert raw * 3.0625 == 70.0;
    assert 229.0 <= raw * 10.0 + 0.5 < 230.0;
    assert (raw * 10.0 + 0.5).Floor == 229;
  }

  // ------------------------------------------------------- BMI category

  datatype BmiCategory = BmiCategory(name: string, color: string, emoji: string)

  const Underweight := BmiCategory("Underweight", "#3b82f6", "\U{26A0}\U{FE0F}")
  const Normal := BmiCategory("Normal", "#10b981", "\U{2705}")
  const Overweight := BmiCategory("Overweight", "#f59e0b", "\U{26A0}\U{FE0F}")
  const Obese := BmiCategory("Obese", "#ef4444", "\U{1F6A8}")

  /** The categories in increasing order of BMI. */
  const Categories: seq<BmiCategory> := [Underweight, Normal, Overweight, Obese]

  /** The lower bounds of the second, third and fourth category. */
  const Thresholds: seq<real> := [18.5, 25.0, 30.0]

  /** How many of the thresholds `ts` lie at or below `bmi`. */
  function ThresholdsReached(bmi: real, ts: seq<real>): (k: nat)
    ensures k <= |ts|
  {
    if ts == [] then 0 else (if ts[0] <= bmi then 1 else 0) + ThresholdsReached(bmi, ts[1..])
  }

  lemma ThresholdsReachedBands(bmi: real)
    ensures ThresholdsReached(bmi, Thresholds)
         == if bmi < 18.5 then 0 else if bmi < 25.0 then 1 else if bmi < 30.0 then 2 else 3
  {
    var t3: seq<real> := [30.0];
    var t2: seq<real> := [25.0, 30.0];
    assert t3[1..] == [] && t2[1..] == t3 && Thresholds[1..] == t2;
    assert ThresholdsReached(bmi, t3) == if 30.0 <= bmi then 1 else 0;
    assert ThresholdsReached(bmi, t2) == (if 25.0 <= bmi then 1 else 0) + ThresholdsReached(bmi, t3);
    assert ThresholdsReached(bmi, Thresholds) == (if 18.5 <= bmi then 1 else 0) + ThresholdsReached(bmi, t2);
  }

  /**
   * `getBMICategory(bmi)`: the category whose half-open band
   * [threshold, next threshold) holds `bmi`.
   */
  function GetBmiCategory(bmi: real): (c: BmiCategory)
    ensures c == Categories[ThresholdsReached(bmi, Thresholds)]
  {
    ThresholdsReachedBands(bmi);
    if bmi < 18.5 then Underweight
    else if bmi >= 18.5 && bmi < 25.0 then Normal
    else if bmi >= 25.0 && bmi < 30.0 then Overweight
    else Obese
  }

  /** A higher BMI never reaches fewer thresholds, whatever the thresholds. */
  lemma {:induction false} ThresholdsReachedMonotone(a: real, b: real, ts: seq<real>)
    requires a <= b
    ensures ThresholdsReached(a, ts) <= ThresholdsReached(b, ts)
  {
    if ts != [] {
      ThresholdsReachedMonotone(a, b, ts[1..]);
    }
  }

  /** The category is monotone in the BMI: a higher BMI is never in an earlier category. */
  lemma CategoryMonotone(a: real, b: real, i: nat, j: nat)
    requires a <= b && i < |Categories| && j < |Categories|
    requires GetBmiCategory(a) == Categories[i] && GetBmiCategory(b) == Categories[j]
    ensures i <= j
  {
    ThresholdsReachedMonotone(a, b, Thresholds);
  }

  /** Each BMI has exactly one category name, and the bands are half-open at their lower bound. */
  lemma CategoryBands(bmi: real)
    ensures GetBmiCategory(bmi).name == "Underweight" <==> bmi < 18.5
    ensures GetBmiCategory(bmi).name == "Normal" <==> 18.5 <= bmi < 25.0
    ensures GetBmiCategory(bmi).name == "Overweight" <==> 25.0 <= bmi < 30.0
    ensures GetBmiCategory(bmi).name == "Obese" <==> 30.0 <= bmi
  {
  }

  // ----------------------------------------------------------- Calories

  /** `workout.calories || 0`. */
  function CaloriesOf(w: WorkoutRecord): int
  {
    match w.workout.calories
    case None => 0
    case Some(c) => c
  }

  /** The `reduce` of `calculateTotalCalories`, folding from the left. */
  function SumCalories(h: seq<WorkoutRecord>): (total: int)
    ensures (forall i :: 0 <= i < |h| ==> CaloriesOf(h[i]) >= 0) ==> total >= 0
  {
    if h == [] then 0 else SumCalories(h[..|h| - 1]) + CaloriesOf(h[|h| - 1])
  }

  /** `calculateTotalCalories(history)`: 0 for a missing or non-array history. */
  function CalculateTotalCalories(history: Option<seq<WorkoutRecord>>): (total: int)
    ensures history.None? ==> total == 0
    ensures history.Some? && (forall i :: 0 <= i < |history.value| ==> CaloriesOf(history.value[i]) >= 0) ==> total >= 0
  {
    match history
    case None => 0
    case Some(h) => SumCalories(h)
  }

  /** The calorie total is additive over concatenation of histories. */
  lemma {:induction false} SumCaloriesAppend(a: seq<WorkoutRecord>, b: seq<WorkoutRecord>)
    ensures SumCalories(a + b) == SumCalories(a) + SumCalories(b)
  {
    if b == [] {
      assert a + b == a;
    } else {
      assert (a + b)[..|a + b| - 1] == a + b[..|b| - 1];
      SumCaloriesAppend(a, b[..|b| - 1]);
    }
  }

  /** A record without calories adds nothing; the empty history totals 0. */
  lemma TotalCaloriesExample(a: Workout, b: Workout, c: Workout, t: Timestamp)
    requires a.calories == Some(300) && b.calories == None && c.calories == Some(200)
    ensures CalculateTotalCalories(Some([])) == 0
    ensures CalculateTotalCalories(Some([WorkoutRecord(a, t, "1"), WorkoutRecord(b, t, "2"), WorkoutRecord(c, t, "3")])) == 500
  {
    var h := [WorkoutRecord(a, t, "1"), WorkoutRecord(b, t, "2"), WorkoutRecord(c, t, "3")];
    assert h[..2] == [h[0], h[1]];
    assert h[..2][..1] == [h[0]];
    assert h[..2][..1][..0] == [];
    assert SumCalories([h[0]]) == 300;
    assert SumCalories(h[..2]) == 300;
    assert SumCalories(h) == 500;
  }

  // ----------------------------------------------------- Same day, today

  /**
   * `isSameDay(a, b)`: the local year, month and day of the month all
   * agree, which is exactly when the two day ordinals are equal.
   */
  predicate IsSameDay(a: Timestamp, b: Timestamp)
    ensures IsSameDay(a, b) <==> a.day == b.day
  {
    SameDateIffSameDay(a.day, b.day);
    CivilFromDays(a.day) == CivilFromDays(b.day)
  }

  /** "Same day" is an equivalence relation. */
  lemma SameDayIsEquivalence(a: Timestamp, b: Timestamp, c: Timestamp)
    ensures IsSameDay(a, a)
    ensures IsSameDay(a, b) ==> IsSameDay(b, a)
    ensures IsSameDay(a, b) && IsSameDay(b, c) ==> IsSameDay(a, c)
  {
  }

  function CompletedOn(now: Timestamp): WorkoutRecord -> bool
  {
    (w: WorkoutRecord) => IsSameDay(w.completedAt, now)
  }

  /** `getTodayWorkouts(history)`: how many records were completed on the local day of `now`. */
  function GetTodayWorkouts(history: Option<seq<WorkoutRecord>>, now: Timestamp): (n: nat)
    ensures history.None? ==> n == 0
    ensures history.Some? ==> n <= |history.value|
  {
    match history
    case None => 0
    case Some(h) => |Filter(h, CompletedOn(now))|
  }

  /** Appending a record raises the count by one exactly when it was completed today. */
  lemma TodayWorkoutsStep(h: seq<WorkoutRecord>, w: WorkoutRecord, now: Timestamp)
    ensures GetTodayWorkouts(Some(h + [w]), now)
         == GetTodayWorkouts(Some(h), now) + (if w.completedAt.day == now.day then 1 else 0)
  {
    FilterCountStep(h, w, CompletedOn(now));
  }

  /** When every record is from today, all of them count. */
  lemma TodayWorkoutsAllToday(h: seq<WorkoutRecord>, now: Timestamp)
    requires forall i :: 0 <= i < |h| ==> h[i].completedAt.day == now.day
    ensures GetTodayWorkouts(Some(h), now) == |h|
  {
    FilterKeepsAll(h, CompletedOn(now));
  }
}
