/**
 * `PharmacyHelper.isPharmacyOpen`: whether a pharmacy is open at a moment,
 * by its working hours for that weekday. The clock reading is a parameter.
 */
module PharmacyHelper {
  import opened Wrappers
  import opened Text
  import opened PharmacyEntity

  /** `getDay()`, `getHours()` and `getMinutes()` of the current time. */
  datatype Moment = Moment(day: nat, hours: nat, minutes: nat)

  type Clock = m: Moment | m.day < 7 && m.hours < 24 && m.minutes < 60 witness Moment(0, 0, 0)

  function DayName(day: nat): string
    requires day < 7
  {
    DayNames[day]
  }

  function MinutesOf(now: Clock): nat {
    now.hours * 60 + now.minutes
  }

  /**
   * `const [h, m] = s.split(':').map(Number)` followed by `h * 60 + m`:
   * None where that is NaN (a part that is no number, or no minutes part).
   */
  function TimeOfDay(s: string): Option<int> {
    var parts := Split(s, ':');
    if |parts| < 2 then None
    else match (JsNumber(parts[0]), JsNumber(parts[1]))
      case (Some(h), Some(m)) => Some(h * 60 + m)
      case _ => None
  }

  /** Open when the day has both times and the current minute lies between them, both ends included. */
  predicate IsPharmacyOpen(p: Pharmacy, now: Clock) {
    var day := DayName(now.day);
    if day !in p.workingHours then false
    else
      var hours := p.workingHours[day];
      if hours.open == "" || hours.close == "" then false
      else match (TimeOfDay(hours.open), TimeOfDay(hours.close))
        case (Some(opening), Some(closing)) => opening <= MinutesOf(now) <= closing
        case _ => false
  }

  /** Two-digit zero-padded text of a number below 100. */
  function TwoDigits(n: nat): (s: string)
    requires n < 100
    ensures |s| == 2 && AllDigits(s)
  {
    [DigitChar(n / 10), DigitChar(n % 10)]
  }

  /** The day numbers name the days from Sunday to Saturday. */
  lemma DayNamesInOrder()
    ensures DayName(0) == "sunday" && DayName(1) == "monday" && DayName(2) == "tuesday"
    ensures DayName(3) == "wednesday" && DayName(4) == "thursday" && DayName(5) == "friday"
    ensures DayName(6) == "saturday"
  {
  }

  lemma TwoDigitsValue(n: nat)
    requires n < 100
    ensures JsNumber(TwoDigits(n)) == Some(n)
  {
    var s := TwoDigits(n);
    assert s[..1] == [s[0]];
    assert [s[0]][..0] == [];
    assert DigitsValue([s[0]]) == n / 10;
    assert DigitsValue(s) == (n / 10) * 10 + n % 10;
  }

  /** "HH:MM" is H * 60 + M minutes after midnight. */
  lemma ClockTextMinutes(h: nat, m: nat)
    requires h < 100 && m < 100
    ensures TimeOfDay(TwoDigits(h) + ":" + TwoDigits(m)) == Some(h * 60 + m)
  {
    var hh := TwoDigits(h);
    var mm := TwoDigits(m);
    assert hh + ":" + mm == hh + [':'] + mm;
    assert ':' !in hh && ':' !in mm;
    SplitWithoutSeparator(hh, ':');
    SplitWithoutSeparator(mm, ':');
    SplitConcat(hh, mm, ':');
    TwoDigitsValue(h);
    TwoDigitsValue(m);
  }

  /** For hours written "HH:MM", the pharmacy is open from the opening minute to the closing minute inclusive. */
  lemma OpenWithinWindow(p: Pharmacy, now: Clock, oh: nat, om: nat, ch: nat, cm: nat)
    requires oh < 100 && om < 100 && ch < 100 && cm < 100
    requires DayName(now.day) in p.workingHours
    requires p.workingHours[DayName(now.day)] ==
      DailyHours(TwoDigits(oh) + ":" + TwoDigits(om), TwoDigits(ch) + ":" + TwoDigits(cm))
    ensures IsPharmacyOpen(p, now) <==> oh * 60 + om <= MinutesOf(now) <= ch * 60 + cm
  {
    ClockTextMinutes(oh, om);
    ClockTextMinutes(ch, cm);
  }

  /** A missing day, or a day without an opening or closing time, is closed. */
  lemma MissingHoursClosed(p: Pharmacy, now: Clock)
    requires DayName(now.day) !in p.workingHours
      || p.workingHours[DayName(now.day)].open == "" || p.workingHours[DayName(now.day)].close == ""
    ensures !IsPharmacyOpen(p, now)
  {
  }

  /** A time without a minutes part does not parse, so such a day is closed. */
  lemma HourWithoutMinutesUnparsed(s: string)
    requires ':' !in s
    ensures TimeOfDay(s).None?
  {
    SplitWithoutSeparator(s, ':');
  }

  /** A window that closes before it opens (one running past midnight) is never open. */
  lemma OvernightNeverOpen(p: Pharmacy, now: Clock)
    requires DayName(now.day) in p.workingHours
    requires var h := p.workingHours[DayName(now.day)];
      TimeOfDay(h.open).Some? && TimeOfDay(h.close).Some? && TimeOfDay(h.close).value < TimeOfDay(h.open).value
    ensures !IsPharmacyOpen(p, now)
  {
  }

  /** With the default hours a pharmacy is open exactly from minute 540 to minute 1080, every day. */
  lemma DefaultHoursOpen(p: Pharmacy, now: Clock)
    requires p.workingHours == DefaultWorkingHours
    ensures IsPharmacyOpen(p, now) <==> 540 <= MinutesOf(now) <= 1080
  {
    assert TwoDigits(9) + ":" + TwoDigits(0) == "09:00";
    assert TwoDigits(18) + ":" + TwoDigits(0) == "18:00";
    assert DayName(now.day) in DefaultWorkingHours;
    OpenWithinWindow(p, now, 9, 0, 18, 0);
  }
}
