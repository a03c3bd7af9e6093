/**
 * `hooks/useBMI.js`: the saved BMI results, newest first, mirrored in the
 * store.
 */
module BmiLog {
  import opened JsValues
  import opened Calendar
  import opened Text
  import opened Records
  import opened Storage
  import opened Calculations

  /** `data || []`: a stored list, or the empty list for anything falsy. */
  function ResultsFrom(v: Value): (h: seq<BmiRecord>)
    ensures v.BmiResults? ==> h == v.results
    ensures !Truthy(v) ==> h == []
  {
    if v.BmiResults? then v.results else []
  }

  /**
   * The result `saveBMI(weight, height)` builds: the BMI of the inputs, that
   * BMI's category, the inputs themselves, now, and the clock as the id.
   */
  function NewBmiRecord(weight: real, height: real, now: Timestamp, clock: nat): (r: BmiRecord)
    ensures r.bmi == CalculateBmi(Num(weight), Num(height))
    ensures r.category == GetBmiCategory(r.bmi).name
    ensures r.color == GetBmiCategory(r.bmi).color && r.emoji == GetBmiCategory(r.bmi).emoji
    ensures r.weight == weight && r.height == height && r.date == now
    ensures AllDigits(r.id) && DigitsValue(r.id) == clock
  {
    var bmi := CalculateBmi(Num(weight), Num(height));
    var category := GetBmiCategory(bmi);
    NatToStringValue(clock);
    BmiRecord(bmi, category.name, category.color, category.emoji, weight, height, now, NatToString(clock))
  }

  /** Nothing is rejected: a zero weight is saved as BMI 0, "Underweight". */
  lemma ZeroWeightSaved(height: real, now: Timestamp, clock: nat)
    ensures NewBmiRecord(0.0, height, now, clock).bmi == 0.0
    ensures NewBmiRecord(0.0, height, now, clock).category == "Underweight"
  {
  }

  /** A saved result's category is the band its BMI falls in. */
  lemma SavedCategoryBand(weight: real, height: real, now: Timestamp, clock: nat)
    ensures var r := NewBmiRecord(weight, height, now, clock);
      && (r.category == "Underweight" <==> r.bmi < 18.5)
      && (r.category == "Normal" <==> 18.5 <= r.bmi < 25.0)
      && (r.category == "Overweight" <==> 25.0 <= r.bmi < 30.0)
      && (r.category == "Obese" <==> 30.0 <= r.bmi)
  {
    CategoryBands(NewBmiRecord(weight, height, now, clock).bmi);
  }

  class BmiHistory {
    const store: Store
    var bmiHistory: seq<BmiRecord>
    var loading: bool

    /** The stored list is the snapshot. */
    predicate Synced()
      reads this, store
    {
      store.Get(BmiResultsKey) == BmiResults(bmiHistory)
    }

    constructor(store: Store)
      ensures this.store == store && bmiHistory == [] && loading
    {
      this.store := store;
      bmiHistory := [];
      loading := true;
    }

    /** `loadBMIHistory`: the stored list, or the empty list when nothing is stored. */
    method LoadBmiHistory()
      modifies this
      ensures bmiHistory == ResultsFrom(store.Get(BmiResultsKey))
      ensures !loading
      ensures store.Get(BmiResultsKey).BmiResults? ==> Synced()
    {
      var data := store.Get(BmiResultsKey);
      bmiHistory := ResultsFrom(data);
      loading := false;
    }

    /** `getLatestBMI()`: the first result, or null for an empty history. */
    function GetLatestBmi(): (r: Option<BmiRecord>)
      reads this
      ensures r.None? <==> bmiHistory == []
      ensures r.Some? ==> r.value == bmiHistory[0] && r.value in bmiHistory
    {
      if |bmiHistory| > 0 then Some(bmiHistory[0]) else None
    }

    /**
     * `saveBMI(weight, height)`: the new result goes in front and is
     * returned, whether or not the store accepted the write.
     */
    method SaveBmi(weight: real, height: real, now: Timestamp, clock: nat, fails: bool)
      returns (result: Option<BmiRecord>)
      modifies this, store
      ensures result == Some(NewBmiRecord(weight, height, now, clock))
      ensures bmiHistory == [result.value] + old(bmiHistory)
      ensures |bmiHistory| == |old(bmiHistory)| + 1 && bmiHistory[1..] == old(bmiHistory)
      ensures GetLatestBmi() == result
      ensures store.data == Write(old(store.data), BmiResultsKey, BmiResults(bmiHistory), fails)
      ensures !fails ==> Synced()
    {
      var newResult := NewBmiRecord(weight, height, now, clock);
      var updatedHistory := [newResult] + bmiHistory;
      var _ := store.Put(BmiResultsKey, BmiResults(updatedHistory), fails);
      bmiHistory := updatedHistory;
      return Some(newResult);
    }

    /** `clearBMIHistory`: the empty list in the snapshot and, when accepted, in the store; always `true`. */
    method ClearBmiHistory(fails: bool) returns (ok: bool)
      modifies this, store
      ensures ok && bmiHistory == [] && GetLatestBmi() == None
      ensures store.data == Write(old(store.data), BmiResultsKey, BmiResults([]), fails)
      ensures !fails ==> Synced()
    {
      var _ := store.Put(BmiResultsKey, BmiResults([]), fails);
      bmiHistory := [];
      return true;
    }
  }

  /** Clearing twice leaves what clearing once leaves. */
  method ClearTwice(log: BmiHistory)
    modifies log, log.store
    ensures log.bmiHistory == []
    ensures log.store.data == old(log.store.data)[BmiResultsKey := Parsed(BmiResults([]))]
  {
    var _ := log.ClearBmiHistory(false);
    var _ := log.ClearBmiHistory(false);
  }
}
