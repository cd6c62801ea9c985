/**
 * The proleptic Gregorian calendar as `Date.prototype.toISOString` uses it,
 * counted from 1970-01-01T00:00:00Z, for instants from 1970 up to the end of
 * year 9999 (the range in which the year has four digits).
 */
module Calendar {
  import opened Wrappers
  import opened Numerals

  const EpochYear: int := 1970
  /** The first year whose ISO string no longer has a four-digit year. */
  const EndYear: int := 10000
  const SecondsPerDay: nat := 86400

  predicate IsLeapYear(y: int) {
    y % 4 == 0 && (y % 100 != 0 || y % 400 == 0)
  }

  function DaysInYear(y: int): (r: nat)
    ensures r == 365 || r == 366
  {
    if IsLeapYear(y) then 366 else 365
  }

  function DaysInMonth(y: int, m: int): (r: nat)
    requires 1 <= m <= 12
    ensures 28 <= r <= 31
  {
    if m == 2 then (if IsLeapYear(y) then 29 else 28)
    else if m == 4 || m == 6 || m == 9 || m == 11 then 30
    else 31
  }

  /** Days of year `y` that come before the first of month `m`
      (`m == 13` counts the whole year). */
  function DaysBeforeMonth(y: int, m: int): (days: nat)
    requires 1 <= m <= 13
  {
    if m == 1 then 0 else DaysBeforeMonth(y, m - 1) + DaysInMonth(y, m - 1)
  }

  /** The twelve months make up the year. */
  lemma MonthsFillYear(y: int)
    ensures DaysBeforeMonth(y, 13) == DaysInYear(y)
  {
    var leap := if IsLeapYear(y) then 1 else 0;
    assert DaysBeforeMonth(y, 2) == 31;
    assert DaysBeforeMonth(y, 3) == 59 + leap;
    assert DaysBeforeMonth(y, 4) == 90 + leap;
    assert DaysBeforeMonth(y, 5) == 120 + leap;
    assert DaysBeforeMonth(y, 6) == 151 + leap;
    assert DaysBeforeMonth(y, 7) == 181 + leap;
    assert DaysBeforeMonth(y, 8) == 212 + leap;
    assert DaysBeforeMonth(y, 9) == 243 + leap;
    assert DaysBeforeMonth(y, 10) == 273 + leap;
    assert DaysBeforeMonth(y, 11) == 304 + leap;
    assert DaysBeforeMonth(y, 12) == 334 + leap;
  }

  /** Days in the years `lo` up to but not including `hi`. */
  function DaysInYears(lo: int, hi: int): (days: nat)
    requires lo <= hi
    decreases hi - lo
  {
    if lo == hi then 0 else DaysInYear(lo) + DaysInYears(lo + 1, hi)
  }

  /** The year that day number `days` (counted from 1 January of year `y`)
      falls in, and the day's zero-based position in that year. */
  function YearOf(days: nat, y: int): (r: (int, nat))
    ensures y <= r.0 && r.1 < DaysInYear(r.0)
    ensures DaysInYears(y, r.0) + r.1 == days
    decreases days
  {
    if days < DaysInYear(y) then (y, days)
    else YearOf(days - DaysInYear(y), y + 1)
  }

  /** A day that comes before year `limit` is assigned a year before `limit`. */
  lemma {:induction false} YearOfBelow(days: nat, y: int, limit: int)
    requires y <= limit && days < DaysInYears(y, limit)
    ensures YearOf(days, y).0 < limit
    decreases days
  {
    if days >= DaysInYear(y) {
      YearOfBelow(days - DaysInYear(y), y + 1, limit);
    }
  }

  /** The month (from `m` on) holding zero-based day `doy` of year `y`. */
  function MonthOf(y: int, doy: nat, m: int): (r: int)
    requires 1 <= m <= 12 && DaysBeforeMonth(y, m) <= doy < DaysInYear(y)
    ensures m <= r <= 12
    ensures DaysBeforeMonth(y, r) <= doy < DaysBeforeMonth(y, r) + DaysInMonth(y, r)
    decreases 12 - m
  {
    MonthsFillYear(y);
    if m == 12 || doy < DaysBeforeMonth(y, m + 1) then m
    else MonthOf(y, doy, m + 1)
  }

  /** A calendar date and wall-clock time, to the second. */
  datatype DateTime = DateTime(year: int, month: int, day: int, hour: int, minute: int, second: int)

  predicate ValidDateTime(t: DateTime) {
    && EpochYear <= t.year < EndYear
    && 1 <= t.month <= 12
    && 1 <= t.day <= DaysInMonth(t.year, t.month)
    && 0 <= t.hour < 24 && 0 <= t.minute < 60 && 0 <= t.second < 60
  }

  /** Seconds from 1970-01-01 00:00:00 to `t`. */
  function EpochSeconds(t: DateTime): (r: nat)
    requires ValidDateTime(t)
  {
    (DaysInYears(EpochYear, t.year) + DaysBeforeMonth(t.year, t.month) + t.day - 1) * SecondsPerDay
      + t.hour * 3600 + t.minute * 60 + t.second
  }

  /** Second counts whose date still has a four-digit year. */
  predicate InFourDigitYears(secs: nat) {
    secs / SecondsPerDay < DaysInYears(EpochYear, EndYear)
  }

  /** A second of the day splits into hours, minutes and seconds. */
  lemma ClockSplit(clock: nat)
    requires clock < SecondsPerDay
    ensures clock / 3600 < 24 && clock % 3600 / 60 < 60
    ensures clock == clock / 3600 * 3600 + clock % 3600 / 60 * 60 + clock % 60
  {
    var rest := clock % 3600;
    assert clock == clock / 3600 * 3600 + rest;
    assert rest == rest / 60 * 60 + rest % 60;
    assert rest % 60 == clock % 60;
  }

  /** The date and time `secs` seconds after the epoch. */
  function ToDateTime(secs: nat): (t: DateTime)
    requires InFourDigitYears(secs)
    ensures ValidDateTime(t) && EpochSeconds(t) == secs
  {
    var days := secs / SecondsPerDay;
    var clock := secs % SecondsPerDay;
    var (year, doy) := YearOf(days, EpochYear);
    YearOfBelow(days, EpochYear, EndYear);
    MonthsFillYear(year);
    var month := MonthOf(year, doy, 1);
    ClockSplit(clock);
    assert secs == days * SecondsPerDay + clock;
    DateTime(year, month, doy - DaysBeforeMonth(year, month) + 1,
             clock / 3600, clock % 3600 / 60, clock % 60)
  }

  /** `Date.prototype.toISOString` for a date in years 1970 to 9999:
      `YYYY-MM-DDTHH:MM:SS.sssZ`, 24 characters. */
  function IsoString(t: DateTime, millis: nat): (s: string)
    requires ValidDateTime(t) && millis < 1000
    ensures |s| == 24
    ensures s[4] == '-' && s[7] == '-' && s[10] == 'T' && s[13] == ':' && s[16] == ':'
    ensures s[19] == '.' && s[23] == 'Z'
  {
    DecimalDigits(t.year, 4) + "-" + DecimalDigits(t.month, 2) + "-" + DecimalDigits(t.day, 2)
      + "T" + DecimalDigits(t.hour, 2) + ":" + DecimalDigits(t.minute, 2) + ":" + DecimalDigits(t.second, 2)
      + "." + DecimalDigits(millis, 3) + "Z"
  }

  /** `s.replace(a, b)` with a one-character pattern: only the first
      occurrence is replaced. */
  function ReplaceFirst(s: string, a: char, b: char): (r: string)
    ensures |r| == |s|
    ensures a in s ==> exists k :: 0 <= k < |s| && s[k] == a && a !in s[..k] && r == s[k := b]
    ensures a !in s ==> r == s
  {
    if s == [] then []
    else if s[0] == a then [b] + s[1..]
    else
      var rest := ReplaceFirst(s[1..], a, b);
      assert a in s ==> a in s[1..];
      if a in s[1..] then
        var k :| 0 <= k < |s[1..]| && s[1..][k] == a && a !in s[1..][..k] && rest == s[1..][k := b];
        assert s[..k + 1] == [s[0]] + s[1..][..k];
        assert [s[0]] + rest == s[k + 1 := b];
        [s[0]] + rest
      else
        [s[0]] + rest
  }

  /** The layout `YYYY-MM-DD HH:MM:SS` that the record store keeps. */
  predicate IsStoredLayout(s: string) {
    && |s| == 19
    && s[4] == '-' && s[7] == '-' && s[10] == ' ' && s[13] == ':' && s[16] == ':'
    && AllDecimalDigits(s[0..4]) && AllDecimalDigits(s[5..7]) && AllDecimalDigits(s[8..10])
    && AllDecimalDigits(s[11..13]) && AllDecimalDigits(s[14..16]) && AllDecimalDigits(s[17..19])
  }

  /** Reads a `YYYY-MM-DD HH:MM:SS` string back into its fields. */
  function ParseStored(s: string): (r: Option<DateTime>)
    ensures r.Some? <==> IsStoredLayout(s)
  {
    if IsStoredLayout(s) then
      Some(DateTime(DecimalValue(s[0..4]), DecimalValue(s[5..7]), DecimalValue(s[8..10]),
                    DecimalValue(s[11..13]), DecimalValue(s[14..16]), DecimalValue(s[17..19])))
    else None
  }

  /** `t` in the layout `YYYY-MM-DD HH:MM:SS`. */
  function StoredString(t: DateTime): (s: string)
    requires ValidDateTime(t)
    ensures IsStoredLayout(s)
  {
    var date := DecimalDigits(t.year, 4) + "-" + DecimalDigits(t.month, 2) + "-" + DecimalDigits(t.day, 2);
    var time := DecimalDigits(t.hour, 2) + ":" + DecimalDigits(t.minute, 2) + ":" + DecimalDigits(t.second, 2);
    var s := date + " " + time;
    assert s[..10] == date && s[11..] == time;
    assert s[0..4] == date[0..4] == DecimalDigits(t.year, 4);
    assert s[5..7] == date[5..7] == DecimalDigits(t.month, 2);
    assert s[8..10] == date[8..10] == DecimalDigits(t.day, 2);
    assert s[11..13] == time[0..2] == DecimalDigits(t.hour, 2);
    assert s[14..16] == time[3..5] == DecimalDigits(t.minute, 2);
    assert s[17..19] == time[6..8] == DecimalDigits(t.second, 2);
    s
  }

  /** The stored layout reads back as the date and time it was written from. */
  lemma StoredStringRoundTrip(t: DateTime)
    requires ValidDateTime(t)
    ensures ParseStored(StoredString(t)) == Some(t)
  {
    var s := StoredString(t);
    assert s[0..4] == DecimalDigits(t.year, 4);
    assert s[5..7] == DecimalDigits(t.month, 2);
    assert s[8..10] == DecimalDigits(t.day, 2);
    assert s[11..13] == DecimalDigits(t.hour, 2);
    assert s[14..16] == DecimalDigits(t.minute, 2);
    assert s[17..19] == DecimalDigits(t.second, 2);
    assert Pow10(2) == 100 && Pow10(4) == 10000;
    DecimalValueOfDigits(t.year, 4);
    DecimalValueOfDigits(t.month, 2);
    DecimalValueOfDigits(t.day, 2);
    DecimalValueOfDigits(t.hour, 2);
    DecimalValueOfDigits(t.minute, 2);
    DecimalValueOfDigits(t.second, 2);
  }

  /** Cutting the ISO string to 19 characters and replacing its `T` by a space
      gives the stored layout of the same date and time. */
  lemma IsoHeadIsStored(t: DateTime, millis: nat)
    requires ValidDateTime(t) && millis < 1000
    ensures ReplaceFirst(IsoString(t, millis)[..19], 'T', ' ') == StoredString(t)
  {
    var head := IsoString(t, millis)[..19];
    assert head[10] == 'T';
    assert 'T' !in head[..10] by {
      forall i | 0 <= i < 10 ensures head[i] != 'T' {
        assert i == 4 || i == 7 || IsDecimalDigit(head[i]);
      }
    }
    var s := ReplaceFirst(head, 'T', ' ');
    var k :| 0 <= k < |head| && head[k] == 'T' && 'T' !in head[..k] && s == head[k := ' '];
    assert k == 10;
    assert s == head[10 := ' '];
    var st := StoredString(t);
    forall i | 0 <= i < 19 ensures s[i] == st[i] { }
  }
}
