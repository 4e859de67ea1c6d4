/**
 * Civil calendar arithmetic standing in for JavaScript's `Date`: the calendar day
 * (year, month 0..11 as `getMonth()` returns it, day of month), its day number,
 * weekday (`getDay()`), stepping by days (`setDate(getDate() + n)`), the
 * `YYYY-MM-DD` and `HH:MM` renderings the services build with `padStart`, the
 * parse of those strings, and age in whole years.
 */
module Calendar {
  import opened Wrappers
  import opened Text

  /** A calendar day. `month` is 0-based, as in `Date.getMonth()`. */
  datatype Date = Date(year: int, month: int, day: int)

  predicate IsLeapYear(y: int) {
    (y % 4 == 0 && y % 100 != 0) || y % 400 == 0
  }

  function DaysInMonth(y: int, m: int): (n: int)
    requires 0 <= m < 12
    ensures 28 <= n <= 31
    ensures n == 29 <==> m == 1 && IsLeapYear(y)
  {
    if m == 1 then (if IsLeapYear(y) then 29 else 28)
    else if m == 3 || m == 5 || m == 8 || m == 10 then 30
    else 31
  }

  predicate ValidDate(d: Date) {
    0 <= d.month < 12 && 1 <= d.day <= DaysInMonth(d.year, d.month)
  }

  function DaysInYear(y: int): int {
    if IsLeapYear(y) then 366 else 365
  }

  /** Days from the 1st of January of year y to the 1st of month m. */
  function DaysBeforeMonth(y: int, m: int): int
    requires 0 <= m <= 12
  {
    [0, 31, 59, 90, 120, 151, 181, 212, 243, 273, 304, 334, 365][m]
      + (if m >= 2 && IsLeapYear(y) then 1 else 0)
  }

  lemma DaysBeforeMonthStep(y: int, m: int)
    requires 0 <= m < 12
    ensures DaysBeforeMonth(y, m + 1) == DaysBeforeMonth(y, m) + DaysInMonth(y, m)
    ensures DaysBeforeMonth(y, 12) == DaysInYear(y)
  {
  }

  lemma {:induction false} DaysBeforeMonthMonotone(y: int, m1: int, m2: int)
    requires 0 <= m1 < m2 <= 12
    ensures DaysBeforeMonth(y, m1) + DaysInMonth(y, m1) <= DaysBeforeMonth(y, m2)
    decreases m2 - m1
  {
    DaysBeforeMonthStep(y, m1);
    if m1 + 1 < m2 {
      DaysBeforeMonthMonotone(y, m1 + 1, m2);
    }
  }

  /** Days from 1970-01-01 to the 1st of January of year y (negative before 1970). */
  function DaysBeforeYear(y: int): int
    decreases if y >= 1970 then y - 1970 else 1970 - y
  {
    if y == 1970 then 0
    else if y > 1970 then DaysBeforeYear(y - 1) + DaysInYear(y - 1)
    else DaysBeforeYear(y + 1) - DaysInYear(y)
  }

  lemma DaysBeforeYearStep(y: int)
    ensures DaysBeforeYear(y + 1) == DaysBeforeYear(y) + DaysInYear(y)
  {
  }

  lemma {:induction false} DaysBeforeYearMonotone(y1: int, y2: int)
    requires y1 < y2
    ensures DaysBeforeYear(y1) + DaysInYear(y1) <= DaysBeforeYear(y2)
    decreases y2 - y1
  {
    DaysBeforeYearStep(y1);
    if y1 + 1 < y2 {
      DaysBeforeYearMonotone(y1 + 1, y2);
    }
  }

  /** The day number: days since 1970-01-01, which is day 0. */
  function DayNumber(d: Date): int
    requires ValidDate(d)
  {
    DaysBeforeYear(d.year) + DaysBeforeMonth(d.year, d.month) + d.day - 1
  }

  /** a is an earlier calendar day than b, compared field by field. */
  predicate Precedes(a: Date, b: Date) {
    a.year < b.year
    || (a.year == b.year && (a.month < b.month || (a.month == b.month && a.day < b.day)))
  }

  lemma {:induction false} DayNumberMonotone(a: Date, b: Date)
    requires ValidDate(a) && ValidDate(b)
    ensures Precedes(a, b) <==> DayNumber(a) < DayNumber(b)
  {
    if a.year < b.year {
      DaysBeforeMonthMonotone(a.year, a.month, 12);
      DaysBeforeMonthStep(a.year, 0);
      DaysBeforeYearMonotone(a.year, b.year);
    } else if b.year < a.year {
      DaysBeforeMonthMonotone(b.year, b.month, 12);
      DaysBeforeMonthStep(b.year, 0);
      DaysBeforeYearMonotone(b.year, a.year);
    } else if a.month < b.month {
      DaysBeforeMonthMonotone(a.year, a.month, b.month);
    } else if b.month < a.month {
      DaysBeforeMonthMonotone(a.year, b.month, a.month);
    }
  }

  /** Two valid calendar days with the same day number are the same day. */
  lemma DayNumberInjective(a: Date, b: Date)
    requires ValidDate(a) && ValidDate(b) && DayNumber(a) == DayNumber(b)
    ensures a == b
  {
    DayNumberMonotone(a, b);
    DayNumberMonotone(b, a);
  }

  /** `getDay()`: 0 is Sunday, 6 is Saturday; 1970-01-01 was a Thursday. */
  function Weekday(d: Date): (w: int)
    requires ValidDate(d)
    ensures 0 <= w < 7
  {
    (DayNumber(d) + 4) % 7
  }

  /** The following calendar day. */
  function NextDay(d: Date): (r: Date)
    requires ValidDate(d)
    ensures ValidDate(r) && DayNumber(r) == DayNumber(d) + 1
  {
    DaysBeforeMonthStep(d.year, d.month);
    DaysBeforeYearStep(d.year);
    if d.day < DaysInMonth(d.year, d.month) then Date(d.year, d.month, d.day + 1)
    else if d.month < 11 then Date(d.year, d.month + 1, 1)
    else Date(d.year + 1, 0, 1)
  }

  /** The preceding calendar day. */
  function PrevDay(d: Date): (r: Date)
    requires ValidDate(d)
    ensures ValidDate(r) && DayNumber(r) == DayNumber(d) - 1
  {
    DaysBeforeYearStep(d.year - 1);
    if d.day > 1 then Date(d.year, d.month, d.day - 1)
    else if d.month > 0 then
      DaysBeforeMonthStep(d.year, d.month - 1);
      Date(d.year, d.month - 1, DaysInMonth(d.year, d.month - 1))
    else
      DaysBeforeMonthStep(d.year - 1, 11);
      Date(d.year - 1, 11, 31)
  }

  /** `setDate(getDate() + n)`: the day n days later (earlier when n < 0). */
  function AddDays(d: Date, n: int): (r: Date)
    requires ValidDate(d)
    ensures ValidDate(r) && DayNumber(r) == DayNumber(d) + n
    decreases if n >= 0 then n else -n
  {
    if n == 0 then d
    else if n > 0 then AddDays(NextDay(d), n - 1)
    else AddDays(PrevDay(d), n + 1)
  }

  lemma AddDaysCompose(d: Date, a: int, b: int)
    requires ValidDate(d)
    ensures AddDays(AddDays(d, a), b) == AddDays(d, a + b)
  {
    DayNumberInjective(AddDays(AddDays(d, a), b), AddDays(d, a + b));
  }

  lemma WeekdayAddDays(d: Date, n: int)
    requires ValidDate(d)
    ensures Weekday(AddDays(d, n)) == (Weekday(d) + n) % 7
  {
    WeekdayShift(d, AddDays(d, n), n);
  }

  /** A day n day numbers after d falls n weekdays later, modulo 7. */
  lemma WeekdayShift(d: Date, r: Date, n: int)
    requires ValidDate(d) && ValidDate(r) && DayNumber(r) == DayNumber(d) + n
    ensures Weekday(r) == (Weekday(d) + n) % 7
  {
    var a, b := DayNumber(d), DayNumber(r);
    ShiftedWeekday(a, b, n);
    assert Weekday(d) == (a + 4) % 7 && Weekday(r) == (b + 4) % 7;
  }

  lemma ShiftedWeekday(a: int, b: int, n: int)
    requires b == a + n
    ensures (b + 4) % 7 == ((a + 4) % 7 + n) % 7
  {
    ModShift(a + 4, n);
  }

  /** Shifting by n days moves the remainder modulo 7 by n. */
  lemma ModShift(a: int, n: int)
    ensures (a + n) % 7 == (a % 7 + n) % 7
  {
    var q := a / 7;
    assert a + n == 7 * q + (a % 7 + n);
    ModOfMultiple(q, a % 7 + n);
  }

  lemma ModOfMultiple(q: int, x: int)
    ensures (7 * q + x) % 7 == x % 7
  {
  }

  // ---------------------------------------------------------------------------
  // Decimal rendering: String(n).padStart(width, '0')

  function Digit(k: int): char
    requires 0 <= k < 10
  {
    ('0' as int + k) as char
  }

  function DigitValue(c: char): int {
    c as int - '0' as int
  }

  /** `String(n)` for a natural number. */
  function DecimalString(n: nat): (r: string)
    ensures 1 <= |r| && AllDigits(r)
    decreases n
  {
    if n < 10 then [Digit(n)] else DecimalString(n / 10) + [Digit(n % 10)]
  }

  /** The value of a string of decimal digits (`parseInt` without sign). */
  function DigitsValue(s: string): (v: nat)
    requires AllDigits(s)
  {
    if s == [] then 0 else DigitsValue(s[..|s| - 1]) * 10 + DigitValue(s[|s| - 1])
  }

  function Zeros(k: nat): (r: string)
    ensures |r| == k && AllDigits(r)
  {
    seq(k, i => '0')
  }

  /** `String(n).padStart(width, '0')`. */
  function PadNum(n: nat, width: nat): (r: string)
    ensures AllDigits(r)
  {
    var s := DecimalString(n);
    if |s| >= width then s else Zeros(width - |s|) + s
  }

  lemma {:induction false} DecimalStringValue(n: nat)
    ensures DigitsValue(DecimalString(n)) == n
    decreases n
  {
    if n >= 10 {
      DecimalStringValue(n / 10);
      var s := DecimalString(n);
      assert s[..|s| - 1] == DecimalString(n / 10);
    }
  }

  lemma {:induction false} DecimalStringShort(n: nat, w: nat)
    requires 1 <= w && n < Pow10(w)
    ensures |DecimalString(n)| <= w
    decreases n
  {
    if n >= 10 {
      assert w >= 2;
      DecimalStringShort(n / 10, w - 1);
    }
  }

  function Pow10(w: nat): (p: nat)
    ensures p >= 1
  {
    if w == 0 then 1 else 10 * Pow10(w - 1)
  }

  lemma {:induction false} ZerosValue(k: nat, s: string)
    requires AllDigits(s)
    ensures DigitsValue(Zeros(k) + s) == DigitsValue(s)
    decreases |s|
  {
    var z := Zeros(k) + s;
    if s == [] {
      ZerosValueAlone(k);
      assert z == Zeros(k);
    } else {
      assert z[..|z| - 1] == Zeros(k) + s[..|s| - 1];
      ZerosValue(k, s[..|s| - 1]);
    }
  }

  lemma {:induction false} ZerosValueAlone(k: nat)
    ensures DigitsValue(Zeros(k)) == 0
  {
    if k > 0 {
      assert Zeros(k)[..k - 1] == Zeros(k - 1);
      ZerosValueAlone(k - 1);
    }
  }

  /** A number below 10^width renders as exactly `width` digits that read back as the number. */
  lemma PadNumExact(n: nat, width: nat)
    requires 1 <= width && n < Pow10(width)
    ensures |PadNum(n, width)| == width
    ensures DigitsValue(PadNum(n, width)) == n
  {
    DecimalStringShort(n, width);
    DecimalStringValue(n);
    ZerosValue(width - |DecimalString(n)|, DecimalString(n));
  }

  // ---------------------------------------------------------------------------
  // Date strings

  /** The year part of `toISOString()`: four digits, or a sign and six digits outside 0..9999. */
  function YearString(y: int): string {
    if 0 <= y <= 9999 then PadNum(y, 4)
    else if y < 0 then "-" + PadNum(-y, 6)
    else "+" + PadNum(y, 6)
  }

  /** `toISOString().split('T')[0]` of a local calendar day: `YYYY-MM-DD`. */
  function DateString(d: Date): string
    requires ValidDate(d)
  {
    YearString(d.year) + "-" + PadNum(d.month + 1, 2) + "-" + PadNum(d.day, 2)
  }

  /** `HH:MM` built as `String(h).padStart(2, '0') + ':' + String(m).padStart(2, '0')`. */
  function TimeString(hour: nat, minute: nat): string {
    PadNum(hour, 2) + ":" + PadNum(minute, 2)
  }

  /** A derived time is two zero-padded digits of hours, a colon, and two of minutes. */
  lemma TimeStringShape(hour: nat, minute: nat)
    requires hour < 24 && minute < 60
    ensures var t := TimeString(hour, minute);
      |t| == 5 && t[2] == ':' && AllDigits(t[..2]) && AllDigits(t[3..])
      && DigitsValue(t[..2]) == hour && DigitsValue(t[3..]) == minute
  {
    PadNumExact(hour, 2);
    PadNumExact(minute, 2);
    var t := TimeString(hour, minute);
    assert t[..2] == PadNum(hour, 2);
    assert t[3..] == PadNum(minute, 2);
  }

  /** The parse of a `YYYY-MM-DD` string into a valid calendar day; None for anything else. */
  function ParseDate(s: string): (r: Option<Date>)
    ensures r.Some? ==> ValidDate(r.value)
  {
    if |s| == 10 && s[4] == '-' && s[7] == '-'
       && AllDigits(s[..4]) && AllDigits(s[5..7]) && AllDigits(s[8..])
    then
      var y, m, d := DigitsValue(s[..4]), DigitsValue(s[5..7]), DigitsValue(s[8..]);
      if 1 <= m <= 12 && 1 <= d <= DaysInMonth(y, m - 1) then Some(Date(y, m - 1, d)) else None
    else None
  }

  /** Rendering a day of years 0..9999 as `YYYY-MM-DD` and parsing it back gives the day. */
  lemma ParseDateString(d: Date)
    requires ValidDate(d) && 0 <= d.year <= 9999
    ensures ParseDate(DateString(d)) == Some(d)
  {
    var a, b, c := PadNum(d.year, 4), PadNum(d.month + 1, 2), PadNum(d.day, 2);
    DatePartsExact(d);
    assert DateString(d) == a + "-" + b + "-" + c;
    ParseDateOfParts(a, b, c);
  }

  /** The year, month and day fields of a day of years 0..9999 render exactly and read back. */
  lemma DatePartsExact(d: Date)
    requires ValidDate(d) && 0 <= d.year <= 9999
    ensures |PadNum(d.year, 4)| == 4 && DigitsValue(PadNum(d.year, 4)) == d.year
    ensures |PadNum(d.month + 1, 2)| == 2 && DigitsValue(PadNum(d.month + 1, 2)) == d.month + 1
    ensures |PadNum(d.day, 2)| == 2 && DigitsValue(PadNum(d.day, 2)) == d.day
  {
    assert Pow10(4) == 10000 && Pow10(2) == 100;
    PadNumExact(d.year, 4);
    PadNumExact(d.month + 1, 2);
    PadNumExact(d.day, 2);
  }

  /** How `YYYY-MM-DD` assembled from digit strings parses. */
  lemma ParseDateOfParts(a: string, b: string, c: string)
    requires |a| == 4 && |b| == 2 && |c| == 2 && AllDigits(a) && AllDigits(b) && AllDigits(c)
    ensures var y, m, day := DigitsValue(a), DigitsValue(b), DigitsValue(c);
      ParseDate(a + "-" + b + "-" + c)
        == if 1 <= m <= 12 && 1 <= day <= DaysInMonth(y, m - 1) then Some(Date(y, m - 1, day)) else None
  {
    DateLayout(a, b, c);
  }

  /** The pieces of `YYYY-MM-DD` sit where the parser looks for them. */
  lemma DateLayout(a: string, b: string, c: string)
    requires |a| == 4 && |b| == 2 && |c| == 2
    ensures var s := a + "-" + b + "-" + c;
      && |s| == 10 && s[4] == '-' && s[7] == '-'
      && s[..4] == a && s[5..7] == b && s[8..] == c
  {
  }

  // ---------------------------------------------------------------------------
  // Instants within a day

  /** A local date and time, as `Timestamp.toDate()` gives it. */
  datatype DateTime = DateTime(date: Date, hour: int, minute: int, second: int, millis: int)

  predicate ValidDateTime(t: DateTime) {
    ValidDate(t.date) && 0 <= t.hour < 24 && 0 <= t.minute < 60 && 0 <= t.second < 60
    && 0 <= t.millis < 1000
  }

  /** Milliseconds since 1970-01-01T00:00:00.000 local time (no time-zone offsets). */
  function Instant(t: DateTime): int
    requires ValidDateTime(t)
  {
    DayNumber(t.date) * 86400000 + t.hour * 3600000 + t.minute * 60000 + t.second * 1000 + t.millis
  }

  function StartOfDay(d: Date): DateTime {
    DateTime(d, 0, 0, 0, 0)
  }

  function EndOfDay(d: Date): DateTime {
    DateTime(d, 23, 59, 59, 999)
  }

  /** An instant lies between `T00:00:00` and `T23:59:59.999` of day d exactly when it is on day d. */
  lemma WithinDay(t: DateTime, d: Date)
    requires ValidDateTime(t) && ValidDate(d)
    ensures Instant(StartOfDay(d)) <= Instant(t) <= Instant(EndOfDay(d)) <==> t.date == d
  {
    var k := t.hour * 3600000 + t.minute * 60000 + t.second * 1000 + t.millis;
    assert 0 <= k < 86400000;
    if Instant(StartOfDay(d)) <= Instant(t) <= Instant(EndOfDay(d)) {
      assert DayNumber(t.date) == DayNumber(d);
      DayNumberInjective(t.date, d);
    }
  }

  /** `HH:MM` of an instant, as the services derive it from `fecha`. */
  function TimeOfDay(t: DateTime): string
    requires ValidDateTime(t)
  {
    TimeString(t.hour, t.minute)
  }

  /** The parse of a local `YYYY-MM-DDTHH:MM:SS` string; None for anything else. */
  function ParseDateTime(s: string): (r: Option<DateTime>)
    ensures r.Some? ==> ValidDateTime(r.value)
  {
    if |s| == 19 && s[10] == 'T' && s[13] == ':' && s[16] == ':'
       && AllDigits(s[11..13]) && AllDigits(s[14..16]) && AllDigits(s[17..])
    then
      var h, mi, se := DigitsValue(s[11..13]), DigitsValue(s[14..16]), DigitsValue(s[17..]);
      match ParseDate(s[..10])
      case Some(d) =>
        if h < 24 && mi < 60 && se < 60 then Some(DateTime(d, h, mi, se, 0)) else None
      case None => None
    else None
  }

  /** `"00"` reads as zero. */
  lemma DoubleZeroValue()
    ensures AllDigits("00") && DigitsValue("00") == 0
  {
    assert "00"[..1] == "0";
    assert "0"[..0] == "";
  }

  /** The pieces of `<date>T<time>:00` sit where the parser looks for them. */
  lemma DateTimeLayout(ds: string, tm: string)
    requires |ds| == 10 && |tm| == 5
    ensures var s := ds + "T" + tm + ":00";
      && |s| == 19 && s[10] == 'T' && s[13] == tm[2] && s[16] == ':'
      && s[..10] == ds && s[11..13] == tm[..2] && s[14..16] == tm[3..] && s[17..] == "00"
  {
  }

  /** A well-formed date and `HH:MM` time, joined as `<date>T<time>:00`, parse to that moment. */
  lemma ParseDateTimeOfStrings(d: Date, hour: nat, minute: nat)
    requires ValidDate(d) && 0 <= d.year <= 9999 && hour < 24 && minute < 60
    ensures ParseDateTime(DateString(d) + "T" + TimeString(hour, minute) + ":00")
      == Some(DateTime(d, hour, minute, 0, 0))
  {
    TimeStringShape(hour, minute);
    ParseDateString(d);
    PadNumExact(d.year, 4);
    PadNumExact(d.month + 1, 2);
    PadNumExact(d.day, 2);
    DateTimeLayout(DateString(d), TimeString(hour, minute));
    DoubleZeroValue();
  }

  // ---------------------------------------------------------------------------
  // Age

  /**
   * Whole years from birth to today: the year difference, less one when today's
   * (month, day) comes before the birthday's.
   */
  function AgeOn(birth: Date, today: Date): (age: int)
    ensures age == today.year - birth.year || age == today.year - birth.year - 1
    ensures age == today.year - birth.year <==>
            !(today.month < birth.month || (today.month == birth.month && today.day < birth.day))
  {
    var age := today.year - birth.year;
    var monthDiff := today.month - birth.month;
    if monthDiff < 0 || (monthDiff == 0 && today.day < birth.day) then age - 1 else age
  }

  /** Someone born on or before today has a non-negative age. */
  lemma AgeNonNegative(birth: Date, today: Date)
    requires ValidDate(birth) && ValidDate(today) && DayNumber(birth) <= DayNumber(today)
    ensures AgeOn(birth, today) >= 0
  {
    DayNumberMonotone(today, birth);
  }

  /** Age never decreases as today moves forward. */
  lemma AgeMonotone(birth: Date, t1: Date, t2: Date)
    requires ValidDate(t1) && ValidDate(t2) && DayNumber(t1) <= DayNumber(t2)
    ensures AgeOn(birth, t1) <= AgeOn(birth, t2)
  {
    DayNumberMonotone(t2, t1);
  }

  /** The Sunday on or before d. */
  function WeekStart(d: Date): (r: Date)
    requires ValidDate(d)
    ensures ValidDate(r) && Weekday(r) == 0
    ensures DayNumber(r) == DayNumber(d) - Weekday(d)
  {
    var w := Weekday(d);
    var r := AddDays(d, -w);
    WeekdayAddDays(d, -w);
    var sum := w + -w;
    assert sum == 0;
    assert Weekday(r) == sum % 7;
    r
  }
}
