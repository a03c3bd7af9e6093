/**
 * `hooks/useProfile.js`: the user's profile object, mirrored in the store.
 * The snapshot keeps the value exactly as the app built it; the store keeps
 * its JSON image.
 */
module Profiles {
  import opened JsValues
  import opened Storage

  /** `{ ...v }` for the profile: the fields of an object, and no fields for null or any other value. */
  function FieldsOf(v: Value): map<string, Scalar>
  {
    if v.Obj? then v.fields else map[]
  }

  /** `{ ...profile, ...updates }`: later keys win. */
  function Merge(profile: Value, updates: map<string, Scalar>): (m: map<string, Scalar>)
    ensures m.Keys == FieldsOf(profile).Keys + updates.Keys
    ensures forall k :: k in updates ==> m[k] == updates[k]
    ensures forall k :: k in FieldsOf(profile) && k !in updates ==> m[k] == FieldsOf(profile)[k]
  {
    FieldsOf(profile) + updates
  }

  /** Merging into a null profile yields exactly the updates. */
  lemma MergeIntoNull(updates: map<string, Scalar>)
    ensures Merge(Prim(Null), updates) == updates
  {
  }

  /** `fields[key]` is present and truthy. */
  predicate FieldTruthy(fields: map<string, Scalar>, key: string)
  {
    key in fields && ScalarTruthy(fields[key])
  }

  /** None of JavaScript's falsy values: null, false, 0, NaN and "". */
  predicate NotFalsy(s: Scalar)
  {
    s != Null && s != Bool(false) && s != Number(Num(0.0)) && s != Number(NaN) && s != Text("")
  }

  /**
   * `hasProfile()`: a non-null profile whose name, age, weight and height are
   * all truthy, that is, present and none of the falsy values.
   */
  predicate HasCompleteProfile(profile: Value)
    ensures HasCompleteProfile(profile) <==>
      && profile.Obj?
      && "name" in profile.fields && NotFalsy(profile.fields["name"])
      && "age" in profile.fields && NotFalsy(profile.fields["age"])
      && "weight" in profile.fields && NotFalsy(profile.fields["weight"])
      && "height" in profile.fields && NotFalsy(profile.fields["height"])
  {
    profile.Obj?
    && FieldTruthy(profile.fields, "name") && FieldTruthy(profile.fields, "age")
    && FieldTruthy(profile.fields, "weight") && FieldTruthy(profile.fields, "height")
  }

  /** An age of 0, a NaN age or an empty name is not a complete profile; null never is. */
  lemma IncompleteProfiles(fields: map<string, Scalar>)
    ensures !HasCompleteProfile(Prim(Null))
    ensures !HasCompleteProfile(Obj(fields["age" := Number(Num(0.0))]))
    ensures !HasCompleteProfile(Obj(fields["age" := Number(NaN)]))
    ensures !HasCompleteProfile(Obj(fields["name" := Text("")]))
  {
    assert !FieldTruthy(fields["age" := Number(Num(0.0))], "age");
    assert !FieldTruthy(fields["age" := Number(NaN)], "age");
    assert !FieldTruthy(fields["name" := Text("")], "name");
  }

  class ProfileProvider {
    const store: Store
    var profile: Value
    var loading: bool

    constructor(store: Store)
      ensures this.store == store && profile == Prim(Null) && loading
    {
      this.store := store;
      profile := Prim(Null);
      loading := true;
    }

    /** `loadProfile`: whatever is stored, null when nothing is. */
    method LoadProfile()
      modifies this
      ensures profile == store.Get(UserProfileKey) && !loading
      ensures UserProfileKey !in store.data ==> profile == Prim(Null)
    {
      profile := store.Get(UserProfileKey);
      loading := false;
    }

    /** `saveProfile(data)`: replaces the profile wholesale; always `true`. */
    method SaveProfile(profileData: Value, fails: bool) returns (ok: bool)
      modifies this, store
      ensures ok && profile == profileData
      ensures store.data == Write(old(store.data), UserProfileKey, profileData, fails)
      ensures !fails ==> store.Get(UserProfileKey) == Json(profile)
    {
      var _ := store.Put(UserProfileKey, profileData, fails);
      profile := profileData;
      return true;
    }

    /** `updateProfile(updates)`: the merge of the current profile and the updates; always `true`. */
    method UpdateProfile(updates: map<string, Scalar>, fails: bool) returns (ok: bool)
      modifies this, store
      ensures ok && profile == Obj(Merge(old(profile), updates))
      ensures store.data == Write(old(store.data), UserProfileKey, profile, fails)
      ensures !fails ==> store.Get(UserProfileKey) == Json(profile)
    {
      var updatedProfile := Obj(FieldsOf(profile) + updates);
      var _ := store.Put(UserProfileKey, updatedProfile, fails);
      profile := updatedProfile;
      return true;
    }

    /** `hasProfile()`. */
    predicate HasProfile()
      reads this
      ensures HasProfile() ==> profile.Obj? && {"name", "age", "weight", "height"} <= profile.fields.Keys
    {
      HasCompleteProfile(profile)
    }

    /** `logout()`: the whole store cleared (when accepted) and the profile null; always `true`. */
    method Logout(fails: bool) returns (ok: bool)
      modifies this, store
      ensures ok && profile == Prim(Null) && !HasProfile()
      ensures store.data == if fails then old(store.data) else map[]
    {
      var _ := store.Clear(fails);
      profile := Prim(Null);
      return true;
    }
  }
}
