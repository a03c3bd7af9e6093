/**
 * `hooks/useWaterTracker.js`: the day's water ledger. Its state is the
 * intake in millilitres and the date of the last change; both are mirrored
 * in the store under two keys. Only loading resets a stale ledger.
 */
module WaterTracking {
  import opened JsValues
  import opened Calendar
  import opened Storage
  import Calculations

  const DailyGoal: real := 2000.0
  const Increment: real := 250.0

  // ------------------------------------------------------ Pure parts

  /**
   * `date ? new Date(date) : new Date()`: now when nothing truthy is stored,
   * the stored instant for a date string, and an invalid date (`None`) for
   * any other value.
   */
  function SavedDate(date: Value, now: Timestamp): (r: Option<Timestamp>)
    ensures !Truthy(date) ==> r == Some(now)
    ensures date.Prim? && date.p.Date? ==> r == Some(date.p.t)
  {
    if !Truthy(date) then Some(now)
    else if date.Prim? && date.p.Date? then Some(date.p.t)
    else None
  }

  /** The stored date is invalid or on another local date than now: the ledger is reset. */
  predicate IsStale(date: Value, now: Timestamp)
  {
    var saved := SavedDate(date, now);
    saved.None? || saved.value.day != now.day
  }

  /** `typeof intake === 'number' && !isNaN(intake) ? intake : 0` on a stored value. */
  function ValidIntake(intake: Value): (r: real)
    ensures intake.Prim? && intake.p.Number? && intake.p.n.Num? ==> r == intake.p.n.r
    ensures !(intake.Prim? && intake.p.Number? && intake.p.n.Num?) ==> r == 0.0
  {
    if intake.Prim? && intake.p.Number? && intake.p.n.Num? then intake.p.n.r else 0.0
  }

  /** The same test on the in-memory intake, which is always a number. */
  function CurrentIntake(n: JsNumber): real
  {
    if n.Num? then n.r else 0.0
  }

  /** `typeof amount === 'number' ? amount : INCREMENT`; `None` stands for a non-number or a missing argument. */
  function AddAmount(amount: Option<JsNumber>): JsNumber
  {
    if amount.Some? then amount.value else Num(Increment)
  }

  /** `getProgress`: `Math.min(intake / 2000 * 100, 100)`; NaN stays NaN. */
  function ProgressOf(intake: JsNumber): (p: JsNumber)
    ensures p.Num? <==> intake.Num?
    ensures p.Num? ==> p.r <= 100.0
    ensures p.Num? && intake.r >= DailyGoal ==> p.r == 100.0
    ensures p.Num? && intake.r < DailyGoal ==> p.r * DailyGoal == intake.r * 100.0
  {
    match intake
    case NaN => NaN
    case Num(r) => Num(Min(r / DailyGoal * 100.0, 100.0))
  }

  /** `getGlasses`: `Math.floor(intake / 250)`; NaN stays NaN. */
  function GlassesOf(intake: JsNumber): (g: JsNumber)
    ensures g.Num? <==> intake.Num?
    ensures g.Num? ==> g.r == g.r.Floor as real
    ensures g.Num? ==> g.r * Increment <= intake.r < g.r * Increment + Increment
  {
    match intake
    case NaN => NaN
    case Num(r) => Num((r / Increment).Floor as real)
  }

  /** One glass from empty is 12.5 % of the goal; eight glasses reach it. */
  lemma ProgressExamples()
    ensures ProgressOf(Num(250.0)) == Num(12.5)
    ensures ProgressOf(Num(2000.0)) == Num(100.0)
    ensures GlassesOf(Num(2000.0)) == Num(8.0)
    ensures GlassesOf(Num(1999.0)) == Num(7.0)
  {
    assert (2000.0 / Increment).Floor == 8;
    assert (1999.0 / Increment).Floor == 7;
  }

  // ------------------------------------------------------ The hook

  class WaterTracker {
    const store: Store
    var waterIntake: JsNumber
    var lastDate: Timestamp
    var loading: bool

    /** The intake and the date as the store holds them after a successful write of both. */
    predicate Synced()
      reads this, store
    {
      store.Get(WaterIntakeKey) == Json(Prim(Number(waterIntake)))
      && store.Get(LastWaterDateKey) == Prim(Date(lastDate))
    }

    /** The hook's initial state: no intake, the date of mounting, still loading. */
    constructor(store: Store, now: Timestamp)
      ensures this.store == store
      ensures waterIntake == Num(0.0) && lastDate == now && loading
    {
      this.store := store;
      waterIntake := Num(0.0);
      lastDate := now;
      loading := true;
    }

    /**
     * `loadWaterData`: a stale ledger is reset to 0 at now, in state and in
     * the store; otherwise the stored intake is repaired to a number and
     * written back only when repairing changed it.
     */
    method LoadWaterData(now: Timestamp, intakeWriteFails: bool, dateWriteFails: bool)
      modifies this, store
      ensures !loading
      ensures IsStale(old(store.Get(LastWaterDateKey)), now) ==>
        && waterIntake == Num(0.0) && lastDate == now
        && store.data == Write(Write(old(store.data), WaterIntakeKey, Prim(Number(Num(0.0))), intakeWriteFails),
                               LastWaterDateKey, Prim(Date(now)), dateWriteFails)
      ensures !IsStale(old(store.Get(LastWaterDateKey)), now) ==>
        && waterIntake == Num(ValidIntake(old(store.Get(WaterIntakeKey))))
        && lastDate == SavedDate(old(store.Get(LastWaterDateKey)), now).value
        && store.data ==
             if old(store.Get(WaterIntakeKey)) == Prim(Number(waterIntake)) then old(store.data)
             else Write(old(store.data), WaterIntakeKey, Prim(Number(waterIntake)), intakeWriteFails)
      ensures IsStale(old(store.Get(LastWaterDateKey)), now) && !intakeWriteFails && !dateWriteFails ==> Synced()
    {
      var intake := store.Get(WaterIntakeKey);
      var date := store.Get(LastWaterDateKey);
      var savedDate := SavedDate(date, now);
      var sameDay := savedDate.Some? && Calculations.IsSameDay(now, savedDate.value);
      if !sameDay {
        waterIntake := Num(0.0);
        lastDate := now;
        var _ := store.Put(WaterIntakeKey, Prim(Number(Num(0.0))), intakeWriteFails);
        var _ := store.Put(LastWaterDateKey, Prim(Date(now)), dateWriteFails);
        WriteThenLookup(old(store.data), WaterIntakeKey, Prim(Number(Num(0.0))), false, LastWaterDateKey);
      } else {
        var validIntake := Num(ValidIntake(intake));
        waterIntake := validIntake;
        lastDate := savedDate.value;
        if intake != Prim(Number(validIntake)) {
          var _ := store.Put(WaterIntakeKey, Prim(Number(validIntake)), intakeWriteFails);
        }
      }
      loading := false;
    }

    /**
     * `addWater(amount)`: the repaired current intake plus the amount,
     * stamped now. There is no day-boundary check, and the result is `true`
     * whether or not the store accepted the writes.
     */
    method AddWater(amount: Option<JsNumber>, now: Timestamp, intakeWriteFails: bool, dateWriteFails: bool)
      returns (ok: bool)
      modifies this, store
      ensures ok
      ensures waterIntake == Plus(Num(CurrentIntake(old(waterIntake))), AddAmount(amount))
      ensures lastDate == now
      ensures store.data == Write(Write(old(store.data), WaterIntakeKey, Prim(Number(waterIntake)), intakeWriteFails),
                                  LastWaterDateKey, Prim(Date(now)), dateWriteFails)
      ensures !intakeWriteFails && !dateWriteFails ==> Synced()
    {
      var addAmount := AddAmount(amount);
      var currentIntake := CurrentIntake(waterIntake);
      var newIntake := Plus(Num(currentIntake), addAmount);
      var _ := store.Put(WaterIntakeKey, Prim(Number(newIntake)), intakeWriteFails);
      var _ := store.Put(LastWaterDateKey, Prim(Date(now)), dateWriteFails);
      WriteThenLookup(old(store.data), WaterIntakeKey, Prim(Number(newIntake)), false, LastWaterDateKey);
      waterIntake := newIntake;
      lastDate := now;
      return true;
    }

    /** `resetWater`: intake 0 stamped now, in state and (when accepted) in the store; always `true`. */
    method ResetWater(now: Timestamp, intakeWriteFails: bool, dateWriteFails: bool) returns (ok: bool)
      modifies this, store
      ensures ok
      ensures waterIntake == Num(0.0) && lastDate == now
      ensures store.data == Write(Write(old(store.data), WaterIntakeKey, Prim(Number(Num(0.0))), intakeWriteFails),
                                  LastWaterDateKey, Prim(Date(now)), dateWriteFails)
      ensures !intakeWriteFails && !dateWriteFails ==> Synced()
    {
      var _ := store.Put(WaterIntakeKey, Prim(Number(Num(0.0))), intakeWriteFails);
      var _ := store.Put(LastWaterDateKey, Prim(Date(now)), dateWriteFails);
      WriteThenLookup(old(store.data), WaterIntakeKey, Prim(Number(Num(0.0))), false, LastWaterDateKey);
      waterIntake := Num(0.0);
      lastDate := now;
      return true;
    }

    /** `getProgress()`. */
    function GetProgress(): (p: JsNumber)
      reads this
      ensures p.Num? <==> waterIntake.Num?
      ensures p.Num? ==> p.r <= 100.0
      ensures p.Num? && waterIntake.r >= DailyGoal ==> p == Num(100.0)
    {
      ProgressOf(waterIntake)
    }

    /** `getGlasses()`. */
    function GetGlasses(): (g: JsNumber)
      reads this
      ensures g.Num? <==> waterIntake.Num?
      ensures g.Num? ==> g.r == g.r.Floor as real && g.r * Increment <= waterIntake.r < (g.r + 1.0) * Increment
    {
      GlassesOf(waterIntake)
    }
  }

  // ------------------------------------------------------ Scenarios

  /** Resetting twice leaves the same state and the same store as resetting once. */
  method ResetTwice(w: WaterTracker, now: Timestamp)
    modifies w, w.store
    ensures w.waterIntake == Num(0.0) && w.lastDate == now
    ensures w.store.data == old(w.store.data)[WaterIntakeKey := Parsed(Prim(Number(Num(0.0))))]
                                             [LastWaterDateKey := Parsed(Prim(Date(now)))]
  {
    var _ := w.ResetWater(now, false, false);
    var _ := w.ResetWater(now, false, false);
  }

  /**
   * A ledger last touched yesterday keeps counting: adding after midnight
   * gives yesterday's total plus the glass, not a fresh day's 250 ml.
   */
  method AddAfterMidnight(w: WaterTracker, now: Timestamp)
    requires w.lastDate.day < now.day && w.waterIntake == Num(1000.0)
    modifies w, w.store
    ensures w.waterIntake == Num(1250.0)
  {
    var _ := w.AddWater(None, now, false, false);
  }

  /** From a reset, eight default adds give eight glasses and full progress. */
  method EightGlasses(w: WaterTracker, now: Timestamp)
    modifies w, w.store
    ensures w.GetGlasses() == Num(8.0) && w.GetProgress() == Num(100.0)
  {
    var _ := w.ResetWater(now, false, false);
    var _ := w.AddWater(None, now, false, false);
    var _ := w.AddWater(None, now, false, false);
    var _ := w.AddWater(None, now, false, false);
    var _ := w.AddWater(None, now, false, false);
    var _ := w.AddWater(None, now, false, false);
    var _ := w.AddWater(None, now, false, false);
    var _ := w.AddWater(None, now, false, false);
    var _ := w.AddWater(None, now, false, false);
    assert w.waterIntake == Num(2000.0);
    ProgressExamples();
  }
}
