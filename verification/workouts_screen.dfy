/**
 * `screens/WorkoutsScreen.js`: the category filter over the workout
 * catalogue. The catalogue itself is a parameter.
 */
module WorkoutsScreen {
  import opened Seqs
  import opened Records

  /** The category every list starts on, and the one that shows everything. */
  const AllCategories := "All"

  /** `useState('All')`: the screen opens on the whole catalogue, whatever it holds. */
  function InitialCategory(): (c: string)
    ensures forall ws :: FilteredWorkouts(ws, c) == ws
  {
    "All"
  }

  /** `workout.category === selected`. */
  function InCategory(selected: string): CatalogueWorkout -> bool
  {
    (w: CatalogueWorkout) => w.category == selected
  }

  /** `filteredWorkouts`: the whole list for "All", otherwise the workouts of the selected category. */
  function FilteredWorkouts(workouts: seq<CatalogueWorkout>, selected: string): (r: seq<CatalogueWorkout>)
    ensures selected == AllCategories ==> r == workouts
    ensures selected != AllCategories ==> forall i :: 0 <= i < |r| ==> r[i].category == selected
    ensures selected != AllCategories ==>
      forall i :: 0 <= i < |workouts| && workouts[i].category == selected ==> workouts[i] in r
    ensures forall i :: 0 <= i < |r| ==> r[i] in workouts
  {
    if selected == AllCategories then workouts else Filter(workouts, InCategory(selected))
  }

  /**
   * The filter keeps the catalogue's order: filtering a list split in two is
   * filtering each part and joining the results.
   */
  lemma FilterKeepsOrder(a: seq<CatalogueWorkout>, b: seq<CatalogueWorkout>, selected: string)
    ensures FilteredWorkouts(a + b, selected) == FilteredWorkouts(a, selected) + FilteredWorkouts(b, selected)
  {
    if selected != AllCategories {
      FilterAppend(a, b, InCategory(selected));
    }
  }

  /** A catalogue whose workouts are all of the selected category is shown whole. */
  lemma SingleCategoryShownWhole(workouts: seq<CatalogueWorkout>, selected: string)
    requires forall i :: 0 <= i < |workouts| ==> workouts[i].category == selected
    ensures FilteredWorkouts(workouts, selected) == workouts
  {
    if selected != AllCategories {
      FilterKeepsAll(workouts, InCategory(selected));
    }
  }
}
