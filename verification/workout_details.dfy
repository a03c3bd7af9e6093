/**
 * `screens/WorkoutDetailsScreen.js`: the exercise stepper behind the timer
 * and the record a finished workout adds to the history. The countdown is
 * never started by the screen, so it is not part of the model; neither is
 * rendering or navigation.
 */
module WorkoutDetails {
  import opened JsValues
  import opened Calendar
  import opened Records
  import opened Storage
  import opened WorkoutLog

  /** The fields `completeWorkout` hands to `addWorkout`: name, category, duration and calories. */
  function Payload(w: CatalogueWorkout): (p: Workout)
    ensures p.name == w.name && p.category == w.category
    ensures p.duration == w.duration && p.calories == w.calories
  {
    Workout(w.name, w.category, w.duration, w.calories)
  }

  /** Two catalogue entries that differ only in their exercises record the same payload. */
  lemma PayloadIgnoresExercises(w: CatalogueWorkout, exercises: seq<string>)
    ensures Payload(w.(exercises := exercises)) == Payload(w)
  {
  }

  /** The highest index the stepper reaches: the last exercise, or 0 when there is none. */
  function LastIndex(w: CatalogueWorkout): (k: nat)
    ensures |w.exercises| > 0 ==> k == |w.exercises| - 1
    ensures |w.exercises| == 0 ==> k == 0
  {
    if |w.exercises| > 0 then |w.exercises| - 1 else 0
  }

  class WorkoutDetailsScreen {
    const workout: CatalogueWorkout
    const history: WorkoutHistory
    var timerVisible: bool
    var currentExercise: int
    var isResting: bool

    /** The stepper's index stays between 0 and the last exercise. */
    predicate Valid()
      reads this
    {
      0 <= currentExercise <= LastIndex(workout)
    }

    /** The timer is closed, at the first exercise, not resting. */
    constructor(workout: CatalogueWorkout, history: WorkoutHistory)
      ensures this.workout == workout && this.history == history
      ensures !timerVisible && currentExercise == 0 && !isResting
      ensures Valid()
    {
      this.workout := workout;
      this.history := history;
      timerVisible := false;
      currentExercise := 0;
      isResting := false;
    }

    /** The timer offers "Next Exercise" while there is an exercise after the current one. */
    predicate CanAdvance()
      reads this
    {
      currentExercise < |workout.exercises| - 1
    }

    /** `startWorkout()`: the timer opens at the first exercise, not resting. */
    method StartWorkout()
      modifies this
      ensures timerVisible && currentExercise == 0 && !isResting
      ensures Valid()
    {
      timerVisible := true;
      currentExercise := 0;
      isResting := false;
    }

    /** "Next Exercise": one step forward, which keeps the index in range. */
    method NextExercise()
      requires Valid() && timerVisible && CanAdvance()
      modifies this
      ensures currentExercise == old(currentExercise) + 1
      ensures timerVisible && isResting == old(isResting)
      ensures Valid()
    {
      currentExercise := currentExercise + 1;
    }

    /**
     * "Finish Workout", offered at the last index (or with no exercises):
     * the timer closes and the workout is completed.
     */
    method FinishWorkout(now: Timestamp, clock: nat, fails: bool) returns (alertShown: bool)
      requires Valid() && timerVisible && !CanAdvance()
      modifies this, history, history.store
      ensures !timerVisible
      ensures currentExercise == old(currentExercise) && isResting == old(isResting)
      ensures Valid()
      ensures currentExercise == LastIndex(workout)
      ensures history.history == [NewWorkoutRecord(Payload(workout), now, clock)] + old(history.history)
      ensures history.store.data == Write(old(history.store.data), WorkoutHistoryKey, Workouts(history.history), fails)
      ensures alertShown
    {
      timerVisible := false;
      alertShown := CompleteWorkout(now, clock, fails);
    }

    /**
     * `completeWorkout()`: the payload is added to the history; the alert
     * is shown exactly when `addWorkout` reports success, which it always
     * does.
     */
    method CompleteWorkout(now: Timestamp, clock: nat, fails: bool) returns (alertShown: bool)
      modifies history, history.store
      ensures history.history == [NewWorkoutRecord(Payload(workout), now, clock)] + old(history.history)
      ensures history.store.data == Write(old(history.store.data), WorkoutHistoryKey, Workouts(history.history), fails)
      ensures alertShown
    {
      var success := history.AddWorkout(Payload(workout), now, clock, fails);
      alertShown := success;
    }

    /**
     * `closeTimer()`: the confirmation alert; choosing "Exit" hides the
     * timer, "Cancel" leaves it open. Nothing is recorded either way.
     */
    method CloseTimer(confirmExit: bool)
      modifies this
      ensures timerVisible == (old(timerVisible) && !confirmExit)
      ensures currentExercise == old(currentExercise) && isResting == old(isResting)
    {
      if confirmExit {
        timerVisible := false;
      }
    }
  }

  /**
   * Starting and pressing "Next Exercise" for as long as it is offered
   * walks through every exercise; "Finish Workout" then adds exactly one
   * record, for this workout.
   */
  method StepThrough(screen: WorkoutDetailsScreen, now: Timestamp, clock: nat)
    modifies screen, screen.history, screen.history.store
    ensures !screen.timerVisible && screen.currentExercise == LastIndex(screen.workout)
    ensures screen.history.history == [NewWorkoutRecord(Payload(screen.workout), now, clock)] + old(screen.history.history)
  {
    screen.StartWorkout();
    var presses := 0;
    while screen.CanAdvance()
      invariant screen.Valid() && screen.timerVisible
      invariant screen.currentExercise == presses
      invariant screen.history.history == old(screen.history.history)
      decreases |screen.workout.exercises| - screen.currentExercise
    {
      screen.NextExercise();
      presses := presses + 1;
    }
    var _ := screen.FinishWorkout(now, clock, false);
  }
}
