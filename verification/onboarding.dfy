/**
 * `screens/OnboardingScreen.js`: the form validator and the profile the
 * screen saves. Rendering and navigation are not part of the model.
 */
module Onboarding {
  import opened JsValues
  import opened Calendar
  import opened Text
  import opened Storage
  import opened Profiles

  /** The four text inputs, as typed. */
  datatype FormData = FormData(name: string, age: string, weight: string, height: string)

  const NameError := "Name is required"
  const AgeError := "Please enter a valid age"
  const WeightError := "Please enter a valid weight"
  const HeightError := "Please enter a valid height"

  /** `!formData.name.trim()`. */
  predicate NameRejected(f: FormData)
  {
    Trim(f.name) == ""
  }

  /** `!age || parseInt(age) < 1 || parseInt(age) > 120`: NaN passes both comparisons. */
  predicate AgeRejected(f: FormData)
  {
    f.age == "" || LessThan(ParseInt(f.age), 1.0) || GreaterThan(ParseInt(f.age), 120.0)
  }

  /** `!weight || parseFloat(weight) < 1`. */
  predicate WeightRejected(f: FormData)
  {
    f.weight == "" || LessThan(ParseFloat(f.weight), 1.0)
  }

  /** `!height || parseFloat(height) < 1`. */
  predicate HeightRejected(f: FormData)
  {
    f.height == "" || LessThan(ParseFloat(f.height), 1.0)
  }

  /** The profile object with its five fields. */
  function ProfileFields(name: string, age: JsNumber, weight: JsNumber, height: JsNumber, now: Timestamp)
    : (p: map<string, Scalar>)
    ensures p.Keys == {"name", "age", "weight", "height", "createdAt"}
    ensures p["name"] == Text(name) && p["createdAt"] == Date(now)
    ensures p["age"] == Number(age) && p["weight"] == Number(weight) && p["height"] == Number(height)
  {
    map["name" := Text(name), "age" := Number(age), "weight" := Number(weight), "height" := Number(height),
        "createdAt" := Date(now)]
  }

  /**
   * The profile `handleSubmit` builds from the form: the trimmed name, the
   * age read as an integer, the weight and height read as decimals, and the
   * submission time.
   */
  function NewProfile(f: FormData, now: Timestamp): (p: map<string, Scalar>)
    ensures p.Keys == {"name", "age", "weight", "height", "createdAt"}
    ensures p["name"] == Text(Trim(f.name)) && p["createdAt"] == Date(now)
    ensures p["age"] == Number(ParseInt(f.age))
    ensures p["age"].n.Num? ==> p["age"].n.r == p["age"].n.r.Floor as real
    ensures p["weight"] == Number(ParseFloat(f.weight)) && p["height"] == Number(ParseFloat(f.height))
  {
    ProfileFields(Trim(f.name), ParseInt(f.age), ParseFloat(f.weight), ParseFloat(f.height), now)
  }

  class OnboardingScreen {
    const profiles: ProfileProvider
    var formData: FormData
    var errors: map<string, string>

    /** An empty form and no errors. */
    constructor(profiles: ProfileProvider)
      ensures this.profiles == profiles
      ensures formData == FormData("", "", "", "") && errors == map[]
    {
      this.profiles := profiles;
      formData := FormData("", "", "", "");
      errors := map[];
    }

    /**
     * `validateForm()`: one message per rejected field, and `true` exactly
     * when there is none.
     */
    method ValidateForm() returns (valid: bool)
      modifies this
      ensures formData == old(formData)
      ensures "name" in errors <==> NameRejected(formData)
      ensures "age" in errors <==> AgeRejected(formData)
      ensures "weight" in errors <==> WeightRejected(formData)
      ensures "height" in errors <==> HeightRejected(formData)
      ensures errors.Keys <= {"name", "age", "weight", "height"}
      ensures "name" in errors ==> errors["name"] == NameError
      ensures "age" in errors ==> errors["age"] == AgeError
      ensures "weight" in errors ==> errors["weight"] == WeightError
      ensures "height" in errors ==> errors["height"] == HeightError
      ensures valid <==> errors == map[]
      ensures valid <==>
        !NameRejected(formData) && !AgeRejected(formData) && !WeightRejected(formData) && !HeightRejected(formData)
    {
      var newErrors: map<string, string> := map[];
      if NameRejected(formData) {
        newErrors := newErrors["name" := NameError];
      }
      if AgeRejected(formData) {
        newErrors := newErrors["age" := AgeError];
      }
      if WeightRejected(formData) {
        newErrors := newErrors["weight" := WeightError];
      }
      if HeightRejected(formData) {
        newErrors := newErrors["height" := HeightError];
      }
      errors := newErrors;
      valid := |newErrors.Keys| == 0;
    }

    /** `handleSubmit()`: nothing is saved unless the form is valid. */
    method HandleSubmit(now: Timestamp, fails: bool) returns (valid: bool)
      modifies this, profiles, profiles.store
      ensures formData == old(formData)
      ensures valid <==> errors == map[]
      ensures valid <==>
        !NameRejected(formData) && !AgeRejected(formData) && !WeightRejected(formData) && !HeightRejected(formData)
      ensures !valid ==> profiles.profile == old(profiles.profile) && profiles.store.data == old(profiles.store.data)
      ensures valid ==> profiles.profile == Obj(NewProfile(formData, now))
      ensures valid ==>
        profiles.store.data == Write(old(profiles.store.data), UserProfileKey, Obj(NewProfile(formData, now)), fails)
    {
      valid := ValidateForm();
      if valid {
        var form := formData;
        var profile := Obj(NewProfile(form, now));
        var _ := profiles.SaveProfile(profile, fails);
        assert formData == form;
      }
    }
  }

  /** Text that does not parse is not rejected: "abc" passes the age check. */
  lemma AgeNaNGap()
    ensures !AgeRejected(FormData("A", "abc", "70", "175"))
    ensures ParseInt("abc") == NaN
  {
    ParseOfWord("abc");
  }

  /** A profile built from an unparsable age has a NaN age, which `hasProfile` rejects. */
  lemma NaNAgeProfileIncomplete(f: FormData, now: Timestamp)
    requires ParseInt(f.age) == NaN
    ensures !HasCompleteProfile(Obj(NewProfile(f, now)))
  {
  }

  /**
   * A valid form whose numbers all parse gives a profile `hasProfile`
   * accepts.
   */
  lemma AcceptedFormIsComplete(f: FormData, now: Timestamp)
    requires !NameRejected(f) && !AgeRejected(f) && !WeightRejected(f) && !HeightRejected(f)
    requires ParseInt(f.age).Num? && ParseFloat(f.weight).Num? && ParseFloat(f.height).Num?
    ensures HasCompleteProfile(Obj(NewProfile(f, now)))
  {
  }

  /** The three numbers of the example form parse as written. */
  lemma ExampleNumbersParse()
    ensures ParseInt("30") == Num(30.0)
    ensures ParseFloat("70") == Num(70.0)
    ensures ParseFloat("175") == Num(175.0)
  {
    assert NatToString(3) == "3" && NatToString(7) == "7";
    assert NatToString(30) == "3" + [DigitChar(0)] == "30";
    assert NatToString(70) == "7" + [DigitChar(0)] == "70";
    assert NatToString(17) == "1" + [DigitChar(7)] == "17";
    assert NatToString(175) == "17" + [DigitChar(5)] == "175";
    ParseIntOfNatToString(30);
    ParseFloatOfNatToString(70);
    ParseFloatOfNatToString(175);
  }

  /** The surrounding blanks of the example name are dropped. */
  lemma ExampleNameTrims()
    ensures Trim(" Sam ") == "Sam"
  {
    assert TrimStart(" Sam ") == "Sam ";
    assert TrimEnd("Sam ") == "Sam";
  }

  /** " Sam ", "30", "70" and "175" give the name "Sam" and the numbers 30, 70 and 175. */
  lemma NewProfileExample(now: Timestamp)
    ensures var p := NewProfile(FormData(" Sam ", "30", "70", "175"), now);
      && p["name"] == Text("Sam")
      && p["age"] == Number(Num(30.0))
      && p["weight"] == Number(Num(70.0))
      && p["height"] == Number(Num(175.0))
  {
    ExampleNameTrims();
    ExampleNumbersParse();
  }
}
