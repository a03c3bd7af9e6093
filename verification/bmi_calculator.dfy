/**
 * `screens/BMICalculatorScreen.js`: the two input fields, their
 * synchronisation with the profile, the guard in front of `saveBMI`, and the
 * colour of a result. Rendering is not part of the model.
 */
module BmiCalculator {
  import opened JsValues
  import opened Calendar
  import opened Text
  import opened Records
  import opened Storage
  import opened Calculations
  import opened Profiles
  import opened BmiLog

  /**
   * The text of an input field: what the user typed, or the decimal
   * rendering `toString()` gives a finite profile number.
   */
  datatype InputText = Typed(s: string) | NumberText(r: real)

  /** `parseFloat` of the field's text. */
  function ParseInput(t: InputText): (n: JsNumber)
    ensures t.NumberText? ==> n == Num(t.r)
    ensures t.Typed? ==> n == ParseFloat(t.s)
  {
    match t
    case Typed(s) => ParseFloat(s)
    case NumberText(r) => Num(r)
  }

  /**
   * `profile?.[key]?.toString() || ''`: the empty text when the profile or
   * the field is missing or null, the number's rendering for a number, the
   * text itself for a string, and "true"/"false" for a boolean. A date is
   * read as text that does not parse; the app would read the year at the
   * head of its ISO text, but it never stores a date as a weight or height.
   */
  function ProfileInput(profile: Value, key: string): (t: InputText)
    ensures !(profile.Obj? && key in profile.fields) ==> t == Typed("")
    ensures profile.Obj? && key in profile.fields && profile.fields[key].Number? ==>
      ParseInput(t) == profile.fields[key].n
  {
    if profile.Obj? && key in profile.fields then
      match profile.fields[key]
      case Null => Typed("")
      case Bool(b) => Typed(if b then "true" else "false")
      case Number(n) =>
        (match n
         case Num(r) => NumberText(r)
         case NaN =>
           ParseOfWord("NaN");
           Typed("NaN"))
      case Text(s) => Typed(s)
      case Date(_) => Typed("Date")
    else Typed("")
  }

  /**
   * `getBMIColor(bmi)`: blue below 18.5, green below 25, amber below 30,
   * red from 30 on; always the colour of the BMI's category.
   */
  function GetBmiColor(bmi: real): (c: string)
    ensures c == GetBmiCategory(bmi).color
  {
    CategoryBands(bmi);
    if bmi < 18.5 then "#3b82f6"
    else if bmi < 25.0 then "#10b981"
    else if bmi < 30.0 then "#f59e0b"
    else "#ef4444"
  }

  class BmiCalculatorScreen {
    const profiles: ProfileProvider
    const bmiLog: BmiHistory
    var weight: InputText
    var height: InputText
    var result: Option<BmiRecord>

    /** The fields start from the profile's weight and height; no result yet. */
    constructor(profiles: ProfileProvider, bmiLog: BmiHistory)
      ensures this.profiles == profiles && this.bmiLog == bmiLog
      ensures weight == ProfileInput(profiles.profile, "weight")
      ensures height == ProfileInput(profiles.profile, "height")
      ensures result == None
    {
      this.profiles := profiles;
      this.bmiLog := bmiLog;
      weight := ProfileInput(profiles.profile, "weight");
      height := ProfileInput(profiles.profile, "height");
      result := None;
    }

    /** The effect on `profile`: a truthy profile overwrites both fields; otherwise nothing changes. */
    method SyncProfile()
      modifies this
      ensures Truthy(profiles.profile) ==>
        weight == ProfileInput(profiles.profile, "weight") && height == ProfileInput(profiles.profile, "height")
      ensures !Truthy(profiles.profile) ==> weight == old(weight) && height == old(height)
      ensures result == old(result)
    {
      if Truthy(profiles.profile) {
        weight := ProfileInput(profiles.profile, "weight");
        height := ProfileInput(profiles.profile, "height");
      }
    }

    /**
     * `calculateBMI()`: rejected inputs change nothing; accepted ones are
     * saved and the saved record becomes the result.
     */
    method CalculateBmi(now: Timestamp, clock: nat, fails: bool)
      modifies this, bmiLog, bmiLog.store
      ensures weight == old(weight) && height == old(height)
      ensures InputsRejected(ParseInput(weight), ParseInput(height)) ==>
        && result == old(result)
        && bmiLog.bmiHistory == old(bmiLog.bmiHistory)
        && bmiLog.store.data == old(bmiLog.store.data)
      ensures !InputsRejected(ParseInput(weight), ParseInput(height)) ==>
        && ParseInput(weight).Num? && ParseInput(height).Num?
        && result == Some(NewBmiRecord(ParseInput(weight).r, ParseInput(height).r, now, clock))
        && bmiLog.bmiHistory == [result.value] + old(bmiLog.bmiHistory)
        && bmiLog.store.data == Write(old(bmiLog.store.data), BmiResultsKey, BmiResults(bmiLog.bmiHistory), fails)
    {
      var weightNum := ParseInput(weight);
      var heightNum := ParseInput(height);
      if InputsRejected(weightNum, heightNum) {
        return;
      }
      var bmiResult := bmiLog.SaveBmi(weightNum.r, heightNum.r, now, clock, fails);
      if bmiResult.Some? {
        result := bmiResult;
      }
    }
  }

  /** A profile of 70 kg at 175 cm, synchronised into the fields, is saved as 22.9. */
  method ProfileToResult(screen: BmiCalculatorScreen, now: Timestamp, clock: nat)
    requires screen.profiles.profile == Obj(map["weight" := Number(Num(70.0)), "height" := Number(Num(175.0))])
    modifies screen, screen.bmiLog, screen.bmiLog.store
    ensures screen.result.Some? && screen.result.value.bmi == 22.9
    ensures screen.result.value.category == "Normal"
  {
    screen.SyncProfile();
    screen.CalculateBmi(now, clock, false);
    CalculateBmiExamples();
  }
}
