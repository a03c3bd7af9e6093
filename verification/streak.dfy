/**
 * `calculateStreak` of `utils/calculations.js`: the current and the longest
 * run of consecutive active days.
 *
 * The source sorts the history by completion time, newest first, and keeps
 * the first occurrence of each local date: the result is the strictly
 * decreasing sequence of distinct active day ordinals, which `ActiveDays`
 * builds by insertion. The walk over that sequence is the imperative
 * `CalculateStreak`, proved equal to the specification function `StreakOf`.
 *
 * The day difference of two neighbours is the distance of their ordinals.
 * The source rebuilds both dates by handing the numbers of a
 * "year-month-date" key to `new Date` as an array, which the engine reads as
 * the text "year,month,date"; whether and how that text parses depends on
 * the engine. The model takes the distance the construction is evidently
 * meant to produce. On an engine that rejects the text every `diffDays` is
 * NaN, no two days join, and a live streak is always {1, 1}.
 */
module Streaks {
  import opened JsValues
  import opened Calendar
  import opened Records

  datatype Streak = Streak(current: nat, longest: nat)

  // ------------------------------------------------------ Active days

  predicate StrictlyDecreasing(s: seq<int>)
  {
    forall i, j :: 0 <= i < j < |s| ==> s[i] > s[j]
  }

  /** Put `d` into its place in a strictly decreasing sequence, unless it is there already. */
  function InsertDay(d: int, days: seq<int>): (r: seq<int>)
    requires StrictlyDecreasing(days)
    ensures StrictlyDecreasing(r)
    ensures forall x :: x in r <==> x == d || x in days
    ensures |r| == if d in days then |days| else |days| + 1
  {
    if days == [] then [d]
    else if d > days[0] then [d] + days
    else if d == days[0] then days
    else
      var rest := InsertDay(d, days[1..]);
      assert forall x :: x in days <==> x == days[0] || x in days[1..];
      assert forall k :: 0 <= k < |rest| ==> rest[k] < days[0] by {
        forall k | 0 <= k < |rest| ensures rest[k] < days[0] {
          assert rest[k] in rest;
        }
      }
      [days[0]] + rest
  }

  /** Some record of `h` was completed on day `x`. */
  predicate ActiveOn(h: seq<WorkoutRecord>, x: int)
  {
    exists i :: 0 <= i < |h| && h[i].completedAt.day == x
  }

  /**
   * The `uniqueDates` of the source, as day ordinals: every day with a
   * workout, once, most recent first.
   */
  function ActiveDays(h: seq<WorkoutRecord>): (days: seq<int>)
    ensures StrictlyDecreasing(days)
    ensures forall x :: x in days <==> ActiveOn(h, x)
    ensures |days| <= |h|
    ensures |days| == 0 <==> |h| == 0
  {
    if h == [] then []
    else
      var init := h[..|h| - 1];
      var days := InsertDay(h[|h| - 1].completedAt.day, ActiveDays(init));
      assert forall x :: ActiveOn(h, x) <==> ActiveOn(init, x) || x == h[|h| - 1].completedAt.day by {
        forall x ensures ActiveOn(h, x) <==> ActiveOn(init, x) || x == h[|h| - 1].completedAt.day {
          if ActiveOn(h, x) {
            var i :| 0 <= i < |h| && h[i].completedAt.day == x;
            if i < |h| - 1 {
              assert init[i] == h[i];
            }
          }
          if ActiveOn(init, x) {
            var i :| 0 <= i < |init| && init[i].completedAt.day == x;
            assert h[i] == init[i];
          }
        }
      }
      days
  }

  /** The set of days on which some workout was completed. */
  function DaySet(h: seq<WorkoutRecord>): set<int>
  {
    set i | 0 <= i < |h| :: h[i].completedAt.day
  }

  /** A strictly decreasing sequence holds as many elements as its set of elements. */
  lemma {:induction false} DistinctCount(s: seq<int>)
    requires StrictlyDecreasing(s)
    ensures |(set x | x in s)| == |s|
  {
    if s != [] {
      DistinctCount(s[1..]);
      assert (set x | x in s) == {s[0]} + (set x | x in s[1..]);
      assert s[0] !in s[1..];
    }
  }

  /** The active days are exactly the distinct completion days. */
  lemma ActiveDaysCount(h: seq<WorkoutRecord>)
    ensures |ActiveDays(h)| == |DaySet(h)|
  {
    var days := ActiveDays(h);
    DistinctCount(days);
    assert (set x | x in days) == DaySet(h) by {
      forall x ensures x in days <==> x in DaySet(h) {
        if x in DaySet(h) {
          var i :| 0 <= i < |h| && h[i].completedAt.day == x;
          assert ActiveOn(h, x);
        }
      }
    }
  }

  // ---------------------------------------------------- Specification

  /** The `diffDays` of two active days: the distance of their ordinals. */
  function Gap(a: int, b: int): nat
  {
    if a >= b then a - b else b - a
  }

  /** The days at `i - 1` and `i` are neighbours in the calendar. */
  predicate Step(days: seq<int>, i: int)
    requires 0 < i < |days|
  {
    Gap(days[i - 1], days[i]) == 1
  }

  /** The days from index `a` to index `b` form one unbroken run. */
  predicate Consecutive(days: seq<int>, a: int, b: int)
  {
    0 <= a <= b < |days| && forall k :: a < k <= b ==> Step(days, k)
  }

  /** The length of the run of consecutive days that ends at index `i`. */
  function RunEnd(days: seq<int>, i: nat): (k: nat)
    requires i < |days|
    ensures 1 <= k <= i + 1
  {
    if i == 0 then 1 else if Step(days, i) then RunEnd(days, i - 1) + 1 else 1
  }

  /** The longest `RunEnd` among the first `n` indices. */
  function LongestRun(days: seq<int>, n: nat): (m: nat)
    requires 1 <= n <= |days|
    ensures 1 <= m <= n
    ensures forall j :: 0 <= j < n ==> RunEnd(days, j) <= m
    ensures exists j :: 0 <= j < n && RunEnd(days, j) == m
  {
    if n == 1 then RunEnd(days, 0)
    else
      var before := LongestRun(days, n - 1);
      if before >= RunEnd(days, n - 1) then before else RunEnd(days, n - 1)
  }

  /**
   * The source's `currentStreak` after the first `n` indices: the length of
   * the run at the last step that continued a run, or 1 if none did.
   */
  function LastRun(days: seq<int>, n: nat): (c: nat)
    requires 1 <= n <= |days|
    ensures exists j :: 0 <= j < n && RunEnd(days, j) == c
  {
    if n == 1 then RunEnd(days, 0)
    else if Step(days, n - 1) then RunEnd(days, n - 1)
    else LastRun(days, n - 1)
  }

  /** The streak of a strictly decreasing list of active days, seen from day `today`. */
  function StreakOfDays(days: seq<int>, today: int): Streak
  {
    if days == [] || (days[0] != today && days[0] != today - 1) then Streak(0, 0)
    else Streak(LastRun(days, |days|), LongestRun(days, |days|))
  }

  /** `calculateStreak(history)` as a function of the history and today's ordinal. */
  function StreakOf(history: Option<seq<WorkoutRecord>>, today: int): (r: Streak)
    ensures r.current <= r.longest
    ensures r.longest <= if history.Some? then |history.value| else 0
  {
    match history
    case None => Streak(0, 0)
    case Some(h) => if h == [] then Streak(0, 0) else StreakOfDays(ActiveDays(h), today)
  }

  // ------------------------------------------------------ The walk

  /**
   * `calculateStreak(history)` with "now" as a parameter. Today and
   * yesterday are recognised by their local date, as the source compares
   * date keys.
   */
  method CalculateStreak(history: Option<seq<WorkoutRecord>>, now: Timestamp) returns (streak: Streak)
    ensures streak == StreakOf(history, now.day)
  {
    if history.None? || |history.value| == 0 {
      return Streak(0, 0);
    }
    var uniqueDates := ActiveDays(history.value);
    var currentStreak: nat := 0;
    var longestStreak: nat := 0;
    var tempStreak: nat := 1;

    var todayKey := CivilFromDays(now.day);
    var yesterdayKey := CivilFromDays(now.day - 1);
    var mostRecentKey := CivilFromDays(uniqueDates[0]);
    SameDateIffSameDay(uniqueDates[0], now.day);
    SameDateIffSameDay(uniqueDates[0], now.day - 1);
    if mostRecentKey != todayKey && mostRecentKey != yesterdayKey {
      return Streak(0, 0);
    }

    currentStreak := 1;
    for i := 1 to |uniqueDates|
      invariant tempStreak == RunEnd(uniqueDates, i - 1)
      invariant Max(longestStreak, tempStreak) == LongestRun(uniqueDates, i)
      invariant currentStreak == LastRun(uniqueDates, i)
    {
      var diffDays := Gap(uniqueDates[i - 1], uniqueDates[i]);
      if diffDays == 1 {
        tempStreak := tempStreak + 1;
        currentStreak := tempStreak;
      } else {
        longestStreak := Max(longestStreak, tempStreak);
        tempStreak := 1;
      }
    }
    longestStreak := Max(longestStreak, tempStreak);
    return Streak(currentStreak, longestStreak);
  }

  // ------------------------------------------------------ Properties

  /** The most recent active day: the first of the active days. */
  function MostRecentDay(h: seq<WorkoutRecord>): (d: int)
    requires h != []
    ensures ActiveOn(h, d)
    ensures forall i :: 0 <= i < |h| ==> h[i].completedAt.day <= d
  {
    var days := ActiveDays(h);
    assert forall i :: 0 <= i < |h| ==> h[i].completedAt.day in days by {
      forall i | 0 <= i < |h| ensures h[i].completedAt.day in days {
        assert ActiveOn(h, h[i].completedAt.day);
      }
    }
    days[0]
  }

  /**
   * The streak is {0, 0} exactly when there is no history, or when the most
   * recent workout was neither today nor yesterday.
   */
  lemma StreakZeroIff(history: Option<seq<WorkoutRecord>>, today: int)
    ensures StreakOf(history, today) == Streak(0, 0) <==>
      history.None? || history.value == [] ||
      (MostRecentDay(history.value) != today && MostRecentDay(history.value) != today - 1)
  {
  }

  /** A run ending at index `i` is unbroken. */
  lemma {:induction false} RunEndIsRun(days: seq<int>, i: nat)
    requires i < |days|
    ensures Consecutive(days, i + 1 - RunEnd(days, i), i)
  {
    if i > 0 && Step(days, i) {
      RunEndIsRun(days, i - 1);
    }
  }

  /** No unbroken run ending at index `b` is longer than `RunEnd(days, b)`. */
  lemma {:induction false} RunEndIsMaximal(days: seq<int>, a: int, b: nat)
    requires Consecutive(days, a, b)
    ensures b - a + 1 <= RunEnd(days, b)
  {
    if a < b {
      RunEndIsMaximal(days, a, b - 1);
    }
  }

  /** `LongestRun` is the length of the longest unbroken run of active days. */
  lemma LongestRunIsLongest(days: seq<int>)
    requires days != []
    ensures forall a, b :: Consecutive(days, a, b) ==> b - a + 1 <= LongestRun(days, |days|)
    ensures exists a, b :: Consecutive(days, a, b) && b - a + 1 == LongestRun(days, |days|)
  {
    forall a, b | Consecutive(days, a, b) ensures b - a + 1 <= LongestRun(days, |days|) {
      RunEndIsMaximal(days, a, b);
    }
    var j :| 0 <= j < |days| && RunEnd(days, j) == LongestRun(days, |days|);
    RunEndIsRun(days, j);
  }

  /** When the streak is live, 1 <= current <= longest <= the number of distinct active days. */
  lemma StreakBounds(h: seq<WorkoutRecord>, today: int)
    requires h != []
    requires MostRecentDay(h) == today || MostRecentDay(h) == today - 1
    ensures 1 <= StreakOf(Some(h), today).current
    ensures StreakOf(Some(h), today).current <= StreakOf(Some(h), today).longest
    ensures StreakOf(Some(h), today).longest <= |DaySet(h)|
  {
    ActiveDaysCount(h);
  }

  // ------------------------------------------------------ Scenarios

  function At(w: Workout, day: int): WorkoutRecord
  {
    WorkoutRecord(w, Timestamp(day, 12, 0), "")
  }

  /**
   * Workouts today and 3, 4 and 5 days ago: the older run of three
   * overwrites `current`, which becomes 3 although the live run is 1.
   */
  lemma OverwrittenCurrent(w: Workout, t: int)
    ensures StreakOf(Some([At(w, t), At(w, t - 3), At(w, t - 4), At(w, t - 5)]), t) == Streak(3, 3)
  {
    var h := [At(w, t), At(w, t - 3), At(w, t - 4), At(w, t - 5)];
    var days := [t, t - 3, t - 4, t - 5];
    assert h[..3] == [At(w, t), At(w, t - 3), At(w, t - 4)];
    assert h[..3][..2] == [At(w, t), At(w, t - 3)];
    assert h[..3][..2][..1] == [At(w, t)];
    assert ActiveDays(h[..3][..2][..1]) == [t];
    assert ActiveDays(h[..3][..2]) == [t, t - 3];
    assert ActiveDays(h[..3]) == [t, t - 3, t - 4];
    assert ActiveDays(h) == days;
    assert RunEnd(days, 1) == 1;
    assert RunEnd(days, 2) == 2;
    assert RunEnd(days, 3) == 3;
    assert LongestRun(days, 2) == 1;
    assert LongestRun(days, 3) == 2;
    assert LastRun(days, 4) == 3;
  }

  /** Today and yesterday, two workouts today: {2, 2}. */
  lemma TwoDayStreak(w: Workout, t: int)
    ensures StreakOf(Some([At(w, t), At(w, t), At(w, t - 1)]), t) == Streak(2, 2)
  {
    var h := [At(w, t), At(w, t), At(w, t - 1)];
    assert h[..2] == [At(w, t), At(w, t)];
    assert h[..2][..1] == [At(w, t)];
    assert ActiveDays(h[..2][..1]) == [t];
    assert ActiveDays(h[..2]) == [t];
    assert ActiveDays(h) == [t, t - 1];
    assert RunEnd([t, t - 1], 1) == 2;
  }

  /** A most recent workout two days ago breaks the streak: {0, 0}. */
  lemma BrokenStreak(w: Workout, t: int)
    ensures StreakOf(Some([At(w, t - 2), At(w, t - 3)]), t) == Streak(0, 0)
  {
    var h := [At(w, t - 2), At(w, t - 3)];
    assert h[..1] == [At(w, t - 2)];
    assert ActiveDays(h[..1]) == [t - 2];
    assert ActiveDays(h) == [t - 2, t - 3];
  }
}
