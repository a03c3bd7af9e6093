/**
 * `utils/storage.js` as an in-memory key-value store. A value is written as
 * its JSON text and read back parsed: NaN becomes null on the way, a key
 * that is absent or whose text does not parse reads as null, and a write or
 * a clear that the platform rejects leaves the store as it was and reports
 * `false`. Whether a platform call fails is an input to each operation.
 */
module Storage {
  import opened JsValues
  import opened Calendar
  import opened Records

  /** A JSON scalar, or an ISO date string the app wrote. */
  datatype Scalar = Null | Bool(b: bool) | Number(n: JsNumber) | Text(s: string) | Date(t: Timestamp)

  /** The values the app keeps under its keys. */
  datatype Value =
    | Prim(p: Scalar)
    | Obj(fields: map<string, Scalar>)
    | Workouts(workouts: seq<WorkoutRecord>)
    | BmiResults(results: seq<BmiRecord>)

  /** What a key holds: the text of a JSON value, or text that does not parse. */
  datatype Stored = Parsed(v: Value) | Corrupt

  const UserProfileKey := "@fittrack_user_profile"
  const WorkoutHistoryKey := "@fittrack_workout_history"
  const WaterIntakeKey := "@fittrack_water_intake"
  const BmiResultsKey := "@fittrack_bmi_results"
  const LastWaterDateKey := "@fittrack_last_water_date"

  /** JSON turns NaN into null. */
  function JsonScalar(s: Scalar): (r: Scalar)
    ensures r == s <==> !(s.Number? && s.n.NaN?)
  {
    if s.Number? && s.n.NaN? then Null else s
  }

  /** `JSON.parse(JSON.stringify(v))`. */
  function Json(v: Value): (r: Value)
    ensures v.Prim? ==> r == Prim(JsonScalar(v.p))
    ensures v.Obj? ==>
      && r.Obj? && r.fields.Keys == v.fields.Keys
      && forall k :: k in v.fields ==> r.fields[k] == JsonScalar(v.fields[k])
    ensures !v.Prim? && !v.Obj? ==> r == v
  {
    match v
    case Prim(p) => Prim(JsonScalar(p))
    case Obj(fields) => Obj(map k | k in fields :: JsonScalar(fields[k]))
    case _ => v
  }

  /** A value without NaN survives the JSON round trip unchanged. */
  predicate NaNFree(v: Value)
  {
    match v
    case Prim(p) => !(p.Number? && p.n.NaN?)
    case Obj(fields) => forall k :: k in fields ==> !(fields[k].Number? && fields[k].n.NaN?)
    case _ => true
  }

  lemma JsonRoundTrip(v: Value)
    ensures Json(v) == v <==> NaNFree(v)
    ensures Json(Json(v)) == Json(v)
  {
    if v.Obj? && NaNFree(v) {
      assert Json(v).fields == v.fields;
    }
  }

  /** `getData(key)`: null for an absent key and for text that does not parse. */
  function Lookup(data: map<string, Stored>, key: string): (v: Value)
    ensures key !in data ==> v == Prim(Null)
    ensures key in data && data[key].Corrupt? ==> v == Prim(Null)
    ensures key in data && data[key].Parsed? ==> v == data[key].v
  {
    if key in data && data[key].Parsed? then data[key].v else Prim(Null)
  }

  /** The store after `storeData(key, v)`: unchanged when the platform rejects the write. */
  function Write(data: map<string, Stored>, key: string, v: Value, fails: bool): map<string, Stored>
  {
    if fails then data else data[key := Parsed(Json(v))]
  }

  /** A successful write is read back as the JSON image of the value; other keys are untouched. */
  lemma WriteThenLookup(data: map<string, Stored>, key: string, v: Value, fails: bool, other: string)
    requires other != key
    ensures !fails ==> Lookup(Write(data, key, v, fails), key) == Json(v)
    ensures !fails && NaNFree(v) ==> Lookup(Write(data, key, v, fails), key) == v
    ensures fails ==> Lookup(Write(data, key, v, fails), key) == Lookup(data, key)
    ensures Lookup(Write(data, key, v, fails), other) == Lookup(data, other)
  {
    JsonRoundTrip(v);
  }

  /** Writing the same value twice leaves what writing it once leaves. */
  lemma WriteIdempotent(data: map<string, Stored>, key: string, v: Value, fails: bool)
    ensures Write(Write(data, key, v, fails), key, v, fails) == Write(data, key, v, fails)
  {
  }

  /** `!!s`: null, false, 0, NaN and "" are falsy. */
  predicate ScalarTruthy(s: Scalar)
  {
    match s
    case Null => false
    case Bool(b) => b
    case Number(n) => NumberTruthy(n)
    case Text(t) => t != ""
    case Date(_) => true
  }

  /** `!!v`: objects and arrays are truthy, even empty ones. */
  predicate Truthy(v: Value)
  {
    match v
    case Prim(p) => ScalarTruthy(p)
    case _ => true
  }

  /** The device's key-value store, shared by every repository. */
  class Store {
    var data: map<string, Stored>

    /** The store as it is found at launch. */
    constructor(initial: map<string, Stored>)
      ensures data == initial
    {
      data := initial;
    }

    /** `getData(key)`. */
    function Get(key: string): Value
      reads this
    {
      Lookup(data, key)
    }

    /** `storeData(key, value)`: `true` exactly when the platform accepted the write. */
    method Put(key: string, v: Value, fails: bool) returns (ok: bool)
      modifies this
      ensures ok == !fails
      ensures data == Write(old(data), key, v, fails)
    {
      if fails {
        return false;
      }
      data := data[key := Parsed(Json(v))];
      return true;
    }

    /** `clearAll()`: every key gone, unless the platform rejects the call. */
    method Clear(fails: bool) returns (ok: bool)
      modifies this
      ensures ok == !fails
      ensures data == if fails then old(data) else map[]
    {
      if fails {
        return false;
      }
      data := map[];
      return true;
    }
  }
}
