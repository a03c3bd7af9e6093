/**
 * `hooks/useWorkoutHistory.js`: the list of completed workouts, newest
 * first, mirrored in the store, and the statistics derived from it.
 */
module WorkoutLog {
  import opened JsValues
  import opened Calendar
  import opened Text
  import opened Records
  import opened Storage
  import opened Calculations
  import opened Streaks

  /** `data || []`: a stored list, or the empty list for anything falsy. */
  function HistoryFrom(v: Value): (h: seq<WorkoutRecord>)
    ensures v.Workouts? ==> h == v.workouts
    ensures !Truthy(v) ==> h == []
  {
    if v.Workouts? then v.workouts else []
  }

  /** `{ ...workout, completedAt: now, id: String(clock) }`. */
  function NewWorkoutRecord(w: Workout, now: Timestamp, clock: nat): (r: WorkoutRecord)
    ensures r.workout == w && r.completedAt == now
    ensures AllDigits(r.id) && DigitsValue(r.id) == clock
  {
    NatToStringValue(clock);
    WorkoutRecord(w, now, NatToString(clock))
  }

  /** Every record is no later than the ones before it. */
  predicate NewestFirst(h: seq<WorkoutRecord>)
  {
    forall i, j :: 0 <= i < j < |h| ==> NotAfter(h[j].completedAt, h[i].completedAt)
  }

  /** Prepending a record no earlier than the current head keeps the list newest first. */
  lemma PrependKeepsNewestFirst(r: WorkoutRecord, h: seq<WorkoutRecord>)
    requires NewestFirst(h)
    requires h != [] ==> NotAfter(h[0].completedAt, r.completedAt)
    ensures NewestFirst([r] + h)
  {
    var h' := [r] + h;
    forall i, j | 0 <= i < j < |h'| ensures NotAfter(h'[j].completedAt, h'[i].completedAt) {
      if i == 0 && j > 1 {
        NotAfterTransitive(h[j - 1].completedAt, h[0].completedAt, r.completedAt);
      }
    }
  }

  /** The four statistics of `getStats`. */
  datatype Stats = Stats(totalWorkouts: nat, totalCalories: int, streak: Streak, todayWorkouts: nat)

  class WorkoutHistory {
    const store: Store
    var history: seq<WorkoutRecord>
    var loading: bool

    /** The stored list is the snapshot. */
    predicate Synced()
      reads this, store
    {
      store.Get(WorkoutHistoryKey) == Workouts(history)
    }

    constructor(store: Store)
      ensures this.store == store && history == [] && loading
    {
      this.store := store;
      history := [];
      loading := true;
    }

    /** `loadHistory`: the stored list, or the empty list when nothing is stored. */
    method LoadHistory()
      modifies this
      ensures history == HistoryFrom(store.Get(WorkoutHistoryKey))
      ensures !loading
      ensures store.Get(WorkoutHistoryKey).Workouts? ==> Synced()
    {
      var data := store.Get(WorkoutHistoryKey);
      history := HistoryFrom(data);
      loading := false;
    }

    /**
     * `addWorkout(workout)`: the new record goes in front and the rest
     * follows unchanged. The result is `true` whether or not the store
     * accepted the write.
     */
    method AddWorkout(w: Workout, now: Timestamp, clock: nat, fails: bool) returns (ok: bool)
      modifies this, store
      ensures ok
      ensures history == [NewWorkoutRecord(w, now, clock)] + old(history)
      ensures |history| == |old(history)| + 1 && history[1..] == old(history)
      ensures store.data == Write(old(store.data), WorkoutHistoryKey, Workouts(history), fails)
      ensures !fails ==> Synced()
      ensures NewestFirst(old(history)) && (old(history) != [] ==> NotAfter(old(history)[0].completedAt, now))
              ==> NewestFirst(history)
    {
      var newWorkout := NewWorkoutRecord(w, now, clock);
      var updatedHistory := [newWorkout] + history;
      if NewestFirst(history) && (history != [] ==> NotAfter(history[0].completedAt, now)) {
        PrependKeepsNewestFirst(newWorkout, history);
      }
      var _ := store.Put(WorkoutHistoryKey, Workouts(updatedHistory), fails);
      history := updatedHistory;
      return true;
    }

    /** `clearHistory`: the empty list in the snapshot and, when accepted, in the store; always `true`. */
    method ClearHistory(fails: bool) returns (ok: bool)
      modifies this, store
      ensures ok && history == []
      ensures store.data == Write(old(store.data), WorkoutHistoryKey, Workouts([]), fails)
      ensures !fails ==> Synced()
    {
      var _ := store.Put(WorkoutHistoryKey, Workouts([]), fails);
      history := [];
      return true;
    }

    /** `getStats()`: every figure is computed from the one snapshot. */
    method GetStats(now: Timestamp) returns (stats: Stats)
      ensures stats.totalWorkouts == |history|
      ensures stats.totalCalories == CalculateTotalCalories(Some(history))
      ensures stats.streak == StreakOf(Some(history), now.day)
      ensures stats.todayWorkouts == GetTodayWorkouts(Some(history), now)
      ensures stats.todayWorkouts <= stats.totalWorkouts
      ensures stats.streak.longest <= stats.totalWorkouts
    {
      var streak := CalculateStreak(Some(history), now);
      if history != [] && streak != Streak(0, 0) {
        ActiveDaysCount(history);
      }
      stats := Stats(|history|, CalculateTotalCalories(Some(history)), streak, GetTodayWorkouts(Some(history), now));
    }
  }

  /** Clearing twice leaves what clearing once leaves. */
  method ClearTwice(log: WorkoutHistory)
    modifies log, log.store
    ensures log.history == []
    ensures log.store.data == old(log.store.data)[WorkoutHistoryKey := Parsed(Workouts([]))]
  {
    var _ := log.ClearHistory(false);
    var _ := log.ClearHistory(false);
  }
}
