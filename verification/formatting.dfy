/**
 * The display strings of `utils/calculations.js`: `formatDate`,
 * `formatTime` and `getGreeting`, with "now" as a parameter.
 */
module Formatting {
  import opened JsValues
  import opened Calendar
  import opened Text

  // -------------------------------------------------------- formatDate

  /** Indexed by `getDay()`. */
  const WeekdayNames: seq<string> :=
    ["Sunday", "Monday", "Tuesday", "Wednesday", "Thursday", "Friday", "Saturday"]

  /** Indexed by `getMonth()`, which counts months from 0. */
  const MonthNames: seq<string> :=
    ["Jan", "Feb", "Mar", "Apr", "May", "Jun", "Jul", "Aug", "Sep", "Oct", "Nov", "Dec"]

  predicate ValidDate(c: CivilDate)
  {
    1 <= c.month <= 12 && c.date >= 1
  }

  /** "Mon D, YYYY". */
  function CalendarForm(c: CivilDate): (s: string)
    requires ValidDate(c)
    ensures |s| >= 8 && s[3] == ' '
  {
    MonthNames[c.month - 1] + " " + NatToString(c.date) + ", " + IntToString(c.year)
  }

  /**
   * `formatDate(d)`: "Today" or "Yesterday" by local date, the weekday name
   * when `d` is later than the same time seven days before now, and the
   * calendar form otherwise. The source compares `toDateString()` texts,
   * which agree exactly when the local dates do, that is, by
   * `Calendar.SameDateIffSameDay`, when the day ordinals do. Seconds are not
   * modelled, so a `d` in the same minute as that instant counts as not
   * later.
   */
  function FormatDate(d: Timestamp, now: Timestamp): (s: string)
    ensures s == "Today" <==> d.day == now.day
    ensures s == "Yesterday" <==> d.day == now.day - 1
  {
    if d.day == now.day then "Today"
    else if d.day == now.day - 1 then "Yesterday"
    else if !NotAfter(d, DaysBefore(now, 7)) then
      WeekdayNamesDistinct(Weekday(d.day));
      WeekdayNames[Weekday(d.day)]
    else
      var form := CalendarForm(CivilFromDays(d.day));
      assert form[3] == ' ' && "Today"[3] == 'a' && "Yesterday"[3] == 't';
      form
  }

  /** No weekday name is "Today" or "Yesterday", and none has a space at index 3. */
  lemma WeekdayNamesDistinct(w: int)
    requires 0 <= w < 7
    ensures WeekdayNames[w] != "Today" && WeekdayNames[w] != "Yesterday"
    ensures |WeekdayNames[w]| > 3 && WeekdayNames[w][3] != ' '
  {
  }

  /** The four outcomes of `FormatDate` are distinct, each with exactly the condition that selects it. */
  lemma FormatDateCases(d: Timestamp, now: Timestamp)
    ensures FormatDate(d, now) == "Today" <==> d.day == now.day
    ensures FormatDate(d, now) == "Yesterday" <==> d.day == now.day - 1
    ensures FormatDate(d, now) == WeekdayNames[Weekday(d.day)] <==>
      d.day != now.day && d.day != now.day - 1 && !NotAfter(d, DaysBefore(now, 7))
    ensures FormatDate(d, now) == CalendarForm(CivilFromDays(d.day)) <==>
      d.day != now.day && d.day != now.day - 1 && NotAfter(d, DaysBefore(now, 7))
  {
    var name := WeekdayNames[Weekday(d.day)];
    WeekdayNamesDistinct(Weekday(d.day));
    var form := CalendarForm(CivilFromDays(d.day));
    assert form[3] == ' ' && "Today"[3] == 'a' && "Yesterday"[3] == 't';
    assert form != "Today" && form != "Yesterday" && form != name;
  }

  /** After a digit string, the first comma is the one that follows it. */
  lemma FirstComma(x: string, y: string)
    requires AllDigits(x)
    ensures (x + ", " + y)[|x|] == ','
    ensures forall i :: 0 <= i < |x| ==> (x + ", " + y)[i] != ','
  {
  }

  /** A digit string, a comma and a space, then anything: the digits are recovered. */
  lemma SplitAtComma(x: string, y: string, x': string, y': string)
    requires AllDigits(x) && AllDigits(x')
    requires x + ", " + y == x' + ", " + y'
    ensures x == x' && y == y'
  {
    var s := x + ", " + y;
    FirstComma(x, y);
    FirstComma(x', y');
    assert |x| == |x'|;
    assert x == s[..|x|] == x';
    assert y == s[|x| + 2..] == y';
  }

  /** Distinct dates have distinct calendar forms. */
  lemma CalendarFormInjective(a: CivilDate, b: CivilDate)
    requires ValidDate(a) && ValidDate(b)
    requires CalendarForm(a) == CalendarForm(b)
    ensures a == b
  {
    var s := CalendarForm(a);
    var ma, mb := MonthNames[a.month - 1], MonthNames[b.month - 1];
    assert |ma| == 3 && |mb| == 3;
    assert s[..3] == ma && s[..3] == mb;
    assert forall i, j :: 0 <= i < j < 12 ==> MonthNames[i] != MonthNames[j];
    var ra := NatToString(a.date) + ", " + IntToString(a.year);
    var rb := NatToString(b.date) + ", " + IntToString(b.year);
    assert s[4..] == ra && s[4..] == rb;
    SplitAtComma(NatToString(a.date), IntToString(a.year), NatToString(b.date), IntToString(b.year));
    NatToStringInjective(a.date, b.date);
    IntToStringInjective(a.year, b.year);
  }

  /** Two dates shown in calendar form with the same text fall on the same day. */
  lemma FormatDateCalendarInjective(a: Timestamp, b: Timestamp, now: Timestamp)
    requires FormatDate(a, now) == CalendarForm(CivilFromDays(a.day))
    requires FormatDate(b, now) == CalendarForm(CivilFromDays(b.day))
    requires FormatDate(a, now) == FormatDate(b, now)
    ensures a.day == b.day
  {
    CalendarFormInjective(CivilFromDays(a.day), CivilFromDays(b.day));
    CivilFromDaysInjective(a.day, b.day);
  }

  // -------------------------------------------------------- formatTime

  /** `hours % 12 || 12`. */
  function TwelveHour(h: Hour): (k: nat)
    ensures 1 <= k <= 12
    ensures (h < 12 ==> k % 12 == h) && (h >= 12 ==> k % 12 == h - 12)
  {
    if h % 12 == 0 then 12 else h % 12
  }

  /** The minutes, zero-padded to two digits. */
  function MinutesText(m: Minute): (s: string)
    ensures |s| == 2 && AllDigits(s) && DigitsValue(s) == m
  {
    if m < 10 then
      assert DigitsValue("0") == 0;
      "0" + NatToString(m)
    else
      NatToStringValue(m);
      NatToString(m)
  }

  /**
   * `formatTime(t)`: "h:mm AM" or "h:mm PM" on a 12-hour clock. The text
   * loses nothing: the hour and minute are read back from it.
   */
  function FormatTime(t: Timestamp): (s: string)
    ensures ParseClock(s) == Some((t.hour as int, t.minute as int))
  {
    var hs := NatToString(TwelveHour(t.hour));
    var ms := MinutesText(t.minute);
    var ap := if t.hour >= 12 then "PM" else "AM";
    var text := hs + ":" + ms + " " + ap;
    assert |text| == |hs| + 6;
    assert text[..|text| - 6] == hs;
    assert text[|text| - 5..|text| - 3] == ms;
    assert text[|text| - 2..] == ap;
    NatToStringValue(TwelveHour(t.hour));
    text
  }

  /** Reads a "h:mm AM" string back as a 24-hour hour and a minute. */
  function ParseClock(s: string): Option<(int, int)>
  {
    if |s| < 7 then None
    else
      var h, mm, ap := s[..|s| - 6], s[|s| - 5..|s| - 3], s[|s| - 2..];
      if s[|s| - 6] != ':' || s[|s| - 3] != ' ' || !AllDigits(h) || !AllDigits(mm) || (ap != "AM" && ap != "PM") then None
      else
        var k := DigitsValue(h);
        Some(((if k == 12 then 0 else k) + (if ap == "PM" then 12 else 0), DigitsValue(mm)))
  }

  /** Two times of day with the same text have the same hour and minute. */
  lemma FormatTimeInjective(a: Timestamp, b: Timestamp)
    requires FormatTime(a) == FormatTime(b)
    ensures a.hour == b.hour && a.minute == b.minute
  {
  }

  /** Midnight is 12 AM, noon 12 PM, and 14:05 is 2:05 PM. */
  lemma FormatTimeExamples(d: int)
    ensures FormatTime(Timestamp(d, 0, 0)) == "12:00 AM"
    ensures FormatTime(Timestamp(d, 12, 0)) == "12:00 PM"
    ensures FormatTime(Timestamp(d, 14, 5)) == "2:05 PM"
  {
    assert NatToString(12) == "12";
    assert MinutesText(0) == "00";
    assert MinutesText(5) == "05";
  }

  // ------------------------------------------------------- getGreeting

  /**
   * `getGreeting()` at the local hour of `now`: each greeting holds on
   * exactly one band of hours, [0, 12), [12, 18) and [18, 24).
   */
  function GetGreeting(now: Timestamp): (g: string)
    ensures g == "Good Morning" <==> now.hour < 12
    ensures g == "Good Afternoon" <==> 12 <= now.hour < 18
    ensures g == "Good Evening" <==> 18 <= now.hour
  {
    if now.hour < 12 then "Good Morning"
    else if now.hour < 18 then "Good Afternoon"
    else "Good Evening"
  }
}
