/** The records the app persists and computes over. */
module Records {
  import opened JsValues
  import opened Calendar

  /** The fields a caller hands to `addWorkout`; `calories` may be absent. */
  datatype Workout = Workout(name: string, category: string, duration: int, calories: Option<int>)

  /**
   * A completed session: the caller's fields, the completion time and an id
   * made from the clock reading.
   */
  datatype WorkoutRecord = WorkoutRecord(workout: Workout, completedAt: Timestamp, id: string)

  /** A saved BMI result. */
  datatype BmiRecord = BmiRecord(
    bmi: real, category: string, color: string, emoji: string,
    weight: real, height: real, date: Timestamp, id: string)

  /**
   * A workout of the catalogue the screens show. Of each exercise only the
   * name is kept; its repetitions and sets are only displayed.
   */
  datatype CatalogueWorkout = CatalogueWorkout(
    name: string, category: string, duration: int, calories: Option<int>, exercises: seq<string>)
}
