/** Calendar dates and local date-times, and the two `strftime` layouts the
    generators use: `'%Y-%m-%d'` for dates and `'%Y-%m-%d %H:%M:%S'` for the
    update stamps. */
module Calendar {
  import opened Numerals

  datatype Date = Date(year: int, month: int, day: int)

  datatype DateTime = DateTime(date: Date, hour: int, minute: int, second: int)

  predicate IsLeapYear(y: int)
  {
    y % 4 == 0 && (y % 100 != 0 || y % 400 == 0)
  }

  function DaysInMonth(y: int, m: int): (n: int)
    requires 1 <= m <= 12
    ensures 28 <= n <= 31
  {
    if m == 2 then (if IsLeapYear(y) then 29 else 28)
    else if m == 4 || m == 6 || m == 9 || m == 11 then 30
    else 31
  }

  /** A Gregorian date with a four-digit year (the years `%Y` prints in four
      characters). */
  predicate ValidDate(d: Date)
  {
    1000 <= d.year <= 9999 && 1 <= d.month <= 12 && 1 <= d.day <= DaysInMonth(d.year, d.month)
  }

  /** A local time as `time.localtime` gives it; seconds run to 61 as in
      Python's `struct_time`. */
  predicate ValidDateTime(t: DateTime)
  {
    ValidDate(t.date) && 0 <= t.hour <= 23 && 0 <= t.minute <= 59 && 0 <= t.second <= 61
  }

  /** The shape `YYYY-MM-DD`: ten characters, dashes at 4 and 7, digits elsewhere. */
  predicate IsDateText(s: string)
  {
    |s| == 10 && s[4] == '-' && s[7] == '-' &&
    AllDigits(s[0..4]) && AllDigits(s[5..7]) && AllDigits(s[8..10])
  }

  /** The shape `YYYY-MM-DD HH:MM:SS`: a date, a space, then three two-digit
      fields separated by colons. */
  predicate IsDateTimeText(s: string)
  {
    |s| == 19 && IsDateText(s[..10]) && s[10] == ' ' && s[13] == ':' && s[16] == ':' &&
    AllDigits(s[11..13]) && AllDigits(s[14..16]) && AllDigits(s[17..19])
  }

  /** `d.strftime('%Y-%m-%d')`. */
  function FormatDate(d: Date): (s: string)
    requires ValidDate(d)
    ensures IsDateText(s)
  {
    Padded(d.year, 4) + "-" + Padded(d.month, 2) + "-" + Padded(d.day, 2)
  }

  /** `time.strftime('%Y-%m-%d %H:%M:%S')` at the local time `t`. */
  function FormatDateTime(t: DateTime): (s: string)
    requires ValidDateTime(t)
    ensures IsDateTimeText(s)
  {
    var s := FormatDate(t.date) + " " + Padded(t.hour, 2) + ":" + Padded(t.minute, 2) + ":" + Padded(t.second, 2);
    assert s[..10] == FormatDate(t.date);
    s
  }

  function ParseDate(s: string): Date
    requires IsDateText(s)
  {
    Date(ValueOf(s[0..4]), ValueOf(s[5..7]), ValueOf(s[8..10]))
  }

  function ParseDateTime(s: string): DateTime
    requires IsDateTimeText(s)
  {
    DateTime(ParseDate(s[..10]), ValueOf(s[11..13]), ValueOf(s[14..16]), ValueOf(s[17..19]))
  }

  lemma DateRoundTrip(d: Date)
    requires ValidDate(d)
    ensures ParseDate(FormatDate(d)) == d
  {
    var s := FormatDate(d);
    assert s[0..4] == Padded(d.year, 4);
    assert s[5..7] == Padded(d.month, 2);
    assert s[8..10] == Padded(d.day, 2);
    PaddedRoundTrip(d.year, 4);
    PaddedRoundTrip(d.month, 2);
    PaddedRoundTrip(d.day, 2);
  }

  lemma DateTimeRoundTrip(t: DateTime)
    requires ValidDateTime(t)
    ensures ParseDateTime(FormatDateTime(t)) == t
  {
    var s := FormatDateTime(t);
    assert s[..10] == FormatDate(t.date);
    DateRoundTrip(t.date);
    assert s[11..13] == Padded(t.hour, 2);
    assert s[14..16] == Padded(t.minute, 2);
    assert s[17..19] == Padded(t.second, 2);
    PaddedRoundTrip(t.hour, 2);
    PaddedRoundTrip(t.minute, 2);
    PaddedRoundTrip(t.second, 2);
  }

  /** Distinct dates are written differently. */
  lemma FormatDateInjective(d: Date, e: Date)
    requires ValidDate(d) && ValidDate(e) && FormatDate(d) == FormatDate(e)
    ensures d == e
  {
    DateRoundTrip(d);
    DateRoundTrip(e);
  }

  /** Distinct local times are written differently. */
  lemma FormatDateTimeInjective(t: DateTime, u: DateTime)
    requires ValidDateTime(t) && ValidDateTime(u) && FormatDateTime(t) == FormatDateTime(u)
    ensures t == u
  {
    DateTimeRoundTrip(t);
    DateTimeRoundTrip(u);
  }

  /** Text that `'%Y-%m-%d'` writes for a valid date: the right shape, and
      it reads back as a real day that is written the same way. */
  predicate IsCalendarDate(s: string)
  {
    IsDateText(s) && ValidDate(ParseDate(s)) && FormatDate(ParseDate(s)) == s
  }

  /** Text that `'%Y-%m-%d %H:%M:%S'` writes for a valid local time. */
  predicate IsCalendarDateTime(s: string)
  {
    IsDateTimeText(s) && ValidDateTime(ParseDateTime(s)) && FormatDateTime(ParseDateTime(s)) == s
  }

  lemma FormatIsCalendarDate(d: Date)
    requires ValidDate(d)
    ensures IsCalendarDate(FormatDate(d))
  {
    DateRoundTrip(d);
  }

  lemma FormatIsCalendarDateTime(t: DateTime)
    requires ValidDateTime(t)
    ensures IsCalendarDateTime(FormatDateTime(t))
  {
    DateTimeRoundTrip(t);
  }

  /** A calendar date is exactly what `'%Y-%m-%d'` writes for some valid date,
      and it names only one. */
  lemma CalendarDateMeaning(s: string)
    ensures IsCalendarDate(s) <==> exists d :: ValidDate(d) && FormatDate(d) == s
    ensures forall d, e :: ValidDate(d) && ValidDate(e) && FormatDate(d) == s && FormatDate(e) == s ==> d == e
  {
    if d :| ValidDate(d) && FormatDate(d) == s {
      DateRoundTrip(d);
    }
    forall d, e | ValidDate(d) && ValidDate(e) && FormatDate(d) == s && FormatDate(e) == s
      ensures d == e
    {
      FormatDateInjective(d, e);
    }
  }

  /** A calendar stamp is exactly what `'%Y-%m-%d %H:%M:%S'` writes for some
      valid local time, and it names only one. */
  lemma CalendarDateTimeMeaning(s: string)
    ensures IsCalendarDateTime(s) <==> exists t :: ValidDateTime(t) && FormatDateTime(t) == s
    ensures forall t, u :: ValidDateTime(t) && ValidDateTime(u) && FormatDateTime(t) == s && FormatDateTime(u) == s ==> t == u
  {
    if t :| ValidDateTime(t) && FormatDateTime(t) == s {
      DateTimeRoundTrip(t);
    }
    forall t, u | ValidDateTime(t) && ValidDateTime(u) && FormatDateTime(t) == s && FormatDateTime(u) == s
      ensures t == u
    {
      FormatDateTimeInjective(t, u);
    }
  }
}
