/**
 * The three "current date in Western Indonesian Time" helpers of
 * dateUtils.tsx, with the current instant as a parameter.
 *
 * Each shifts the instant by seven hours and formats it with `toISOString`,
 * which writes the UTC calendar date and time of an instant in the extended
 * format of sections 4.1.2.2 (calendar date) and 4.2.2.2 (time of day) of
 * ISO 8601:2004: `YYYY-MM-DDTHH:mm:ss.sssZ`. The conversion from days to a
 * Gregorian date works in 400-year eras of 146097 days, each counted from
 * 1 March so that the leap day falls at the end of its year.
 */
module DateUtils {
  import opened Domain

  const MsPerDay: int := 86400000

  /** `7 * 60 * 60 * 1000`: the UTC offset of Western Indonesian Time. */
  const WibOffsetMs: int := 7 * 60 * 60 * 1000

  datatype CivilDate = CivilDate(year: int, month: int, day: int)

  // ---------------------------------------------------------------------
  // Days <-> Gregorian dates
  // ---------------------------------------------------------------------

  /** The year of era (0..399) of a day of era, with the day of that year (0..365) counted from 1 March. */
  function YearOfEra(doe: int): (r: (int, int))
    requires 0 <= doe < 146097
    ensures 0 <= r.0 < 400 && 0 <= r.1 <= 365
  {
    EraDayInRange(doe);
    var yoe := (doe - doe / 1460 + doe / 36524 - doe / 146096) / 365;
    (yoe, doe - (365 * yoe + yoe / 4 - yoe / 100))
  }

  /** The first day of year of era `yoe`, counted in days from the start of the era. */
  function DayOfEra(yoe: int, doy: int): int {
    yoe * 365 + yoe / 4 - yoe / 100 + doy
  }

  /** The month (1..12) and day of month of a day of a March-based year. */
  function MonthDay(doy: int): (r: (int, int))
    requires 0 <= doy <= 365
    ensures 1 <= r.0 <= 12 && 1 <= r.1 <= 31
  {
    var mp := (5 * doy + 2) / 153;
    var d := doy - (153 * mp + 2) / 5 + 1;
    (if mp < 10 then mp + 3 else mp - 9, d)
  }

  /** The day of a March-based year on which a month and day fall. */
  function DayOfYear(month: int, day: int): int {
    var mp := if month > 2 then month - 3 else month + 9;
    (153 * mp + 2) / 5 + day - 1
  }

  /** The proleptic Gregorian date `days` days after 1970-01-01 (negative: before). */
  function CivilFromDays(days: int): (c: CivilDate)
    ensures 1 <= c.month <= 12 && 1 <= c.day <= 31
  {
    var z := days + 719468;
    var era := z / 146097;
    var (yoe, doy) := YearOfEra(z % 146097);
    var (m, d) := MonthDay(doy);
    CivilDate(yoe + era * 400 + (if m <= 2 then 1 else 0), m, d)
  }

  /** The number of days from 1970-01-01 to a Gregorian date. */
  function DaysFromCivil(c: CivilDate): int {
    var y := if c.month <= 2 then c.year - 1 else c.year;
    y / 400 * 146097 + DayOfEra(y % 400, DayOfYear(c.month, c.day)) - 719468
  }

  /** The year of an era and the day within that year, as `YearOfEra` derives them. */
  predicate YearOfEraInRange(doe: int) {
    var yoe := (doe - doe / 1460 + doe / 36524 - doe / 146096) / 365;
    0 <= yoe < 400 && 0 <= doe - (365 * yoe + yoe / 4 - yoe / 100) <= 365
  }

  /** Inside one four-year cycle `k` of century `c` the divisions take known values. */
  lemma FourYearCycle(doe: int, c: int, k: int)
    requires 0 <= c < 4 && 0 <= k < 25
    requires 36524 * c + 1461 * k <= doe < 36524 * c + 1461 * k + 1461 && doe < 36524 * c + 36524
    ensures YearOfEraInRange(doe)
  {
    var j := doe - 36524 * c - 1461 * k;
    var delta := if j >= 1460 - 24 * c - k then 1 else 0;
    assert doe / 146096 == 0;
    assert doe / 36524 == c;
    assert doe / 1460 == 25 * c + k + delta;
    var t := (j - delta) / 365;
    assert 0 <= t < 4;
    var yoe := (doe - doe / 1460 + doe / 36524 - doe / 146096) / 365;
    assert doe - doe / 1460 + doe / 36524 - doe / 146096 == 365 * (100 * c + 4 * k) + (j - delta);
    assert yoe == 100 * c + 4 * k + t;
    assert yoe / 4 == 25 * c + k;
    assert yoe / 100 == c;
  }

  /** Every day of an era falls in one of its 400 years, at day 0 to 365 of that year. */
  lemma EraDayInRange(doe: int)
    requires 0 <= doe < 146097
    ensures YearOfEraInRange(doe)
  {
    if doe < 146096 {
      var c := doe / 36524;
      var k := (doe - 36524 * c) / 1461;
      FourYearCycle(doe, c, k);
    }
  }

  lemma MonthDayRoundTrip(doy: int)
    requires 0 <= doy <= 365
    ensures DayOfYear(MonthDay(doy).0, MonthDay(doy).1) == doy
  {
  }

  lemma YearOfEraRoundTrip(doe: int)
    requires 0 <= doe < 146097
    ensures DayOfEra(YearOfEra(doe).0, YearOfEra(doe).1) == doe
  {
  }

  lemma EraYear(yoe: int, era: int)
    requires 0 <= yoe < 400
    ensures (yoe + era * 400) / 400 == era && (yoe + era * 400) % 400 == yoe
  {
  }

  /** Converting a day count to a date and back gives the day count again. */
  lemma CivilRoundTrip(days: int)
    ensures DaysFromCivil(CivilFromDays(days)) == days
  {
    var z := days + 719468;
    var era := z / 146097;
    var doe := z % 146097;
    var (yoe, doy) := YearOfEra(doe);
    var (m, d) := MonthDay(doy);
    var c := CivilFromDays(days);
    assert c == CivilDate(yoe + era * 400 + (if m <= 2 then 1 else 0), m, d);
    var y := if c.month <= 2 then c.year - 1 else c.year;
    assert y == yoe + era * 400;
    EraYear(yoe, era);
    MonthDayRoundTrip(doy);
    YearOfEraRoundTrip(doe);
    assert DaysFromCivil(c) == era * 146097 + DayOfEra(yoe, doy) - 719468;
  }

  // ---------------------------------------------------------------------
  // Decimal fields
  // ---------------------------------------------------------------------

  /** `n.toString().padStart(3, '0')` for 0 <= n < 1000. */
  function Pad3(n: int): (s: string)
    requires 0 <= n < 1000
    ensures |s| == 3 && forall i :: 0 <= i < 3 ==> IsDigit(s[i])
  {
    [DigitChar(n / 100)] + Pad2(n % 100)
  }

  /** A four-digit year, zero-padded. */
  function Pad4(n: int): (s: string)
    requires 0 <= n < 10000
    ensures |s| == 4 && forall i :: 0 <= i < 4 ==> IsDigit(s[i])
  {
    Pad2(n / 100) + Pad2(n % 100)
  }

  /** The value of a string of decimal digits. */
  function DigitsValue(s: string): int {
    if s == [] then 0 else DigitsValue(s[..|s| - 1]) * 10 + (s[|s| - 1] as int - '0' as int)
  }

  lemma {:induction false} DigitsValueAppend(a: string, b: string)
    ensures DigitsValue(a + b) == DigitsValue(a) * Pow10(|b|) + DigitsValue(b)
  {
    if b != [] {
      var b' := b[..|b| - 1];
      var last := b[|b| - 1] as int - '0' as int;
      assert (a + b)[..|a + b| - 1] == a + b';
      DigitsValueAppend(a, b');
      calc {
        DigitsValue(a + b);
        DigitsValue(a + b') * 10 + last;
        (DigitsValue(a) * Pow10(|b'|) + DigitsValue(b')) * 10 + last;
        DigitsValue(a) * (Pow10(|b'|) * 10) + (DigitsValue(b') * 10 + last);
        DigitsValue(a) * Pow10(|b|) + DigitsValue(b);
      }
    } else {
      assert a + b == a;
    }
  }

  function Pow10(n: nat): int {
    if n == 0 then 1 else 10 * Pow10(n - 1)
  }

  lemma DigitValue(c: char)
    ensures DigitsValue([c]) == c as int - '0' as int
  {
    assert [c][..0] == [];
  }

  lemma Pad2Value(n: int)
    requires 0 <= n < 100
    ensures DigitsValue(Pad2(n)) == n
  {
    var s := Pad2(n);
    assert s == [s[0]] + [s[1]];
    DigitsValueAppend([s[0]], [s[1]]);
    DigitValue(s[0]);
    DigitValue(s[1]);
  }

  lemma Pad3Value(n: int)
    requires 0 <= n < 1000
    ensures DigitsValue(Pad3(n)) == n
  {
    var s := Pad3(n);
    DigitsValueAppend([s[0]], Pad2(n % 100));
    DigitValue(s[0]);
    Pad2Value(n % 100);
  }

  lemma Pad4Value(n: int)
    requires 0 <= n < 10000
    ensures DigitsValue(Pad4(n)) == n
  {
    DigitsValueAppend(Pad2(n / 100), Pad2(n % 100));
    Pad2Value(n / 100);
    Pad2Value(n % 100);
  }

  // ---------------------------------------------------------------------
  // toISOString
  // ---------------------------------------------------------------------

  /** The UTC calendar date of an instant given in milliseconds since 1970-01-01T00:00:00Z. */
  function DateOfInstant(ms: int): CivilDate {
    CivilFromDays(ms / MsPerDay)
  }

  /** `toISOString` writes the year with exactly four digits for the years 0 to 9999. */
  predicate FourDigitYear(ms: int) {
    0 <= DateOfInstant(ms).year <= 9999
  }

  /** `YYYY-MM-DD`: the calendar date part of an ISO string. */
  function DateText(c: CivilDate): (s: string)
    requires 0 <= c.year <= 9999 && 1 <= c.month <= 12 && 1 <= c.day <= 31
    ensures |s| == 10 && s[4] == '-' && s[7] == '-'
    ensures forall i :: 0 <= i < 10 && i != 4 && i != 7 ==> IsDigit(s[i])
  {
    Pad4(c.year) + "-" + Pad2(c.month) + "-" + Pad2(c.day)
  }

  /** `HH:mm:ss.sssZ`: the time part of an ISO string, for a time of day in milliseconds. */
  function TimeText(t: int): (s: string)
    requires 0 <= t < MsPerDay
    ensures |s| == 13 && s[2] == ':' && s[5] == ':' && s[8] == '.' && s[12] == 'Z'
    ensures forall i :: 0 <= i < 12 && i != 2 && i != 5 && i != 8 ==> IsDigit(s[i])
  {
    Pad2(t / 3600000) + ":" + Pad2(t / 60000 % 60) + ":" + Pad2(t / 1000 % 60) + "." + Pad3(t % 1000) + "Z"
  }

  /** The calendar date written in a `YYYY-MM-DD` text. */
  function ReadDate(s: string): CivilDate
    requires |s| >= 10
  {
    CivilDate(DigitsValue(s[0..4]), DigitsValue(s[5..7]), DigitsValue(s[8..10]))
  }

  /** The time of day, in milliseconds, written in an `HH:mm:ss.sss` text. */
  function ReadTime(s: string): int
    requires |s| >= 12
  {
    DigitsValue(s[0..2]) * 3600000 + DigitsValue(s[3..5]) * 60000 + DigitsValue(s[6..8]) * 1000 + DigitsValue(s[9..12])
  }

  lemma DateTextReadsBack(c: CivilDate)
    requires 0 <= c.year <= 9999 && 1 <= c.month <= 12 && 1 <= c.day <= 31
    ensures ReadDate(DateText(c)) == c
  {
    var s := DateText(c);
    assert s[0..4] == Pad4(c.year);
    assert s[5..7] == Pad2(c.month);
    assert s[8..10] == Pad2(c.day);
    Pad4Value(c.year);
    Pad2Value(c.month);
    Pad2Value(c.day);
  }

  lemma TimeTextReadsBack(t: int)
    requires 0 <= t < MsPerDay
    ensures ReadTime(TimeText(t)) == t
  {
    var s := TimeText(t);
    assert s[0..2] == Pad2(t / 3600000);
    assert s[3..5] == Pad2(t / 60000 % 60);
    assert s[6..8] == Pad2(t / 1000 % 60);
    assert s[9..12] == Pad3(t % 1000);
    Pad2Value(t / 3600000);
    Pad2Value(t / 60000 % 60);
    Pad2Value(t / 1000 % 60);
    Pad3Value(t % 1000);
    var h, mi, se, ms := t / 3600000, t / 60000 % 60, t / 1000 % 60, t % 1000;
    assert t / 60000 == h * 60 + mi;
    assert t / 1000 == (t / 60000) * 60 + se;
    assert t == (t / 1000) * 1000 + ms;
  }

  /** `new Date(ms).toISOString()`. */
  function IsoString(ms: int): (s: string)
    requires FourDigitYear(ms)
    ensures |s| == 24
    ensures s[4] == '-' && s[7] == '-' && s[10] == 'T' && s[13] == ':' && s[16] == ':' && s[19] == '.' && s[23] == 'Z'
    ensures forall i :: 0 <= i < 23 && i !in {4, 7, 10, 13, 16, 19} ==> IsDigit(s[i])
  {
    var s := DateText(DateOfInstant(ms)) + "T" + TimeText(ms % MsPerDay);
    assert forall i :: 11 <= i < 24 ==> s[i] == TimeText(ms % MsPerDay)[i - 11];
    s
  }

  /** The ISO string of an instant reads back as its UTC date and time of day. */
  lemma IsoStringReadsBack(ms: int)
    requires FourDigitYear(ms)
    ensures ReadDate(IsoString(ms)) == DateOfInstant(ms)
    ensures ReadTime(IsoString(ms)[11..]) == ms % MsPerDay
  {
    var s := IsoString(ms);
    var date := DateText(DateOfInstant(ms));
    var time := TimeText(ms % MsPerDay);
    assert s[..10] == date;
    assert s[11..] == time;
    assert s[0..4] == date[0..4] && s[5..7] == date[5..7] && s[8..10] == date[8..10];
    DateTextReadsBack(DateOfInstant(ms));
    TimeTextReadsBack(ms % MsPerDay);
  }

  /** The instant can be recovered from its ISO string. */
  lemma IsoStringDeterminesInstant(ms: int)
    requires FourDigitYear(ms)
    ensures DaysFromCivil(ReadDate(IsoString(ms))) * MsPerDay + ReadTime(IsoString(ms)[11..]) == ms
  {
    IsoStringReadsBack(ms);
    CivilRoundTrip(ms / MsPerDay);
  }

  // ---------------------------------------------------------------------
  // String helpers and the three WIB helpers (dateUtils.tsx:8-33)
  // ---------------------------------------------------------------------

  /** `s.split(sep)[0]`: everything before the first `sep`, or all of `s`. */
  function SplitFirst(s: string, sep: char): (r: string)
    ensures StartsWith(s, r)
    ensures sep !in r
    ensures |r| < |s| ==> s[|r|] == sep
  {
    if s == [] || s[0] == sep then ""
    else
      var rest := SplitFirst(s[1..], sep);
      assert s == [s[0]] + s[1..];
      [s[0]] + rest
  }

  /** `s.replace(/<c>/g, '')`. */
  function RemoveAll(s: string, c: char): (r: string)
    ensures c !in r
    ensures |r| <= |s|
  {
    if s == [] then ""
    else (if s[0] == c then "" else [s[0]]) + RemoveAll(s[1..], c)
  }

  lemma {:induction false} RemoveAllAppend(a: string, b: string, c: char)
    ensures RemoveAll(a + b, c) == RemoveAll(a, c) + RemoveAll(b, c)
  {
    if a == [] {
      assert a + b == b;
    } else {
      var head := if a[0] == c then "" else [a[0]];
      assert (a + b)[0] == a[0] && (a + b)[1..] == a[1..] + b;
      assert RemoveAll(a + b, c) == head + RemoveAll(a[1..] + b, c);
      RemoveAllAppend(a[1..], b, c);
    }
  }

  /** Removing a character that does not occur changes nothing. */
  lemma {:induction false} RemoveAllAbsent(s: string, c: char)
    requires c !in s
    ensures RemoveAll(s, c) == s
  {
    if s != [] {
      RemoveAllAbsent(s[1..], c);
    }
  }

  /** The instant as Western Indonesian Time sees it, still formatted as UTC. */
  function ShiftToWib(now: int): int {
    now + WibOffsetMs
  }

  /** `new Date(ms).toISOString().split('T')[0]`: the `YYYY-MM-DD` UTC date of an instant. */
  function IsoDate(ms: int): (date: string)
    requires FourDigitYear(ms)
    ensures |date| == 10 && date == IsoString(ms)[..10]
    ensures ReadDate(date) == DateOfInstant(ms)
  {
    var iso := IsoString(ms);
    var date := SplitFirst(iso, 'T');
    assert iso[..10] == date by {
      forall i | 0 <= i < 10 ensures iso[i] != 'T' {}
      FirstSeparator(iso, 'T', 10);
    }
    IsoStringReadsBack(ms);
    assert ReadDate(date) == ReadDate(iso) by {
      assert date[0..4] == iso[0..4] && date[5..7] == iso[5..7] && date[8..10] == iso[8..10];
    }
    date
  }

  /** `getCurrentDateWIB()` at instant `now`: `wibTime.toISOString().split('T')[0]`. */
  function CurrentDateWib(now: int): (date: string)
    requires FourDigitYear(ShiftToWib(now))
    ensures |date| == 10 && date == IsoString(ShiftToWib(now))[..10]
  {
    IsoDate(ShiftToWib(now))
  }

  /** The first occurrence of `sep` in `s` is at index `n`. */
  lemma {:induction false} FirstSeparator(s: string, sep: char, n: nat)
    requires n < |s| && s[n] == sep
    requires forall i :: 0 <= i < n ==> s[i] != sep
    ensures SplitFirst(s, sep) == s[..n]
  {
    if n > 0 {
      FirstSeparator(s[1..], sep, n - 1);
      assert s[..n] == [s[0]] + s[1..][..n - 1];
    }
  }

  /** `getCurrentMonthWIB()` at instant `now`: `wibTime.toISOString().slice(0, 7)`. */
  function CurrentMonthWib(now: int): (month: string)
    requires FourDigitYear(ShiftToWib(now))
    ensures |month| == 7 && month[4] == '-'
  {
    IsoString(ShiftToWib(now))[..7]
  }

  /** `getCurrentDateTimeWIB()` at instant `now`: `wibTime.toISOString().slice(0, 16)`, a `datetime-local` value. */
  function CurrentDateTimeWib(now: int): (dateTime: string)
    requires FourDigitYear(ShiftToWib(now))
    ensures |dateTime| == 16 && dateTime[10] == 'T' && dateTime[13] == ':'
  {
    IsoString(ShiftToWib(now))[..16]
  }

  /** For one instant, the month is a prefix of the date and the date a prefix of the date-time. */
  lemma WibPrefixChain(now: int)
    requires FourDigitYear(ShiftToWib(now))
    ensures StartsWith(CurrentDateWib(now), CurrentMonthWib(now))
    ensures StartsWith(CurrentDateTimeWib(now), CurrentDateWib(now))
  {
  }

  /** The WIB date string is the calendar date of the shifted instant, written `YYYY-MM-DD`. */
  lemma CurrentDateIsDateText(now: int)
    requires FourDigitYear(ShiftToWib(now))
    ensures CurrentDateWib(now) == DateText(DateOfInstant(now + 7 * 60 * 60 * 1000))
  {
    var iso := IsoString(ShiftToWib(now));
    assert iso == DateText(DateOfInstant(ShiftToWib(now))) + "T" + TimeText(ShiftToWib(now) % MsPerDay);
    assert iso[..10] == DateText(DateOfInstant(ShiftToWib(now)));
  }

  /** The WIB date string carries the calendar date of the instant shifted by seven hours. */
  lemma WibDateReadsBack(now: int)
    requires FourDigitYear(ShiftToWib(now))
    ensures ReadDate(CurrentDateWib(now)) == DateOfInstant(now + 7 * 60 * 60 * 1000)
  {
    CurrentDateIsDateText(now);
    DateTextReadsBack(DateOfInstant(ShiftToWib(now)));
  }

  /** The WIB month string carries the year and month of the shifted instant. */
  lemma WibMonthReadsBack(now: int)
    requires FourDigitYear(ShiftToWib(now))
    ensures DigitsValue(CurrentMonthWib(now)[0..4]) == DateOfInstant(now + 7 * 60 * 60 * 1000).year
    ensures DigitsValue(CurrentMonthWib(now)[5..7]) == DateOfInstant(now + 7 * 60 * 60 * 1000).month
  {
    WibDateReadsBack(now);
    var date, month := CurrentDateWib(now), CurrentMonthWib(now);
    assert month[0..4] == date[0..4] && month[5..7] == date[5..7];
  }

  /** The WIB date-time string carries the hour and minute of the shifted instant. */
  lemma WibTimeReadsBack(now: int)
    requires FourDigitYear(ShiftToWib(now))
    ensures DigitsValue(CurrentDateTimeWib(now)[11..13]) * 60 + DigitsValue(CurrentDateTimeWib(now)[14..16])
            == ((now + 7 * 60 * 60 * 1000) % MsPerDay) / 60000
  {
    var t := ShiftToWib(now) % MsPerDay;
    var iso := IsoString(ShiftToWib(now));
    assert iso == DateText(DateOfInstant(ShiftToWib(now))) + "T" + TimeText(t);
    assert iso[11..13] == Pad2(t / 3600000);
    assert iso[14..16] == Pad2(t / 60000 % 60);
    assert CurrentDateTimeWib(now)[11..13] == iso[11..13];
    assert CurrentDateTimeWib(now)[14..16] == iso[14..16];
    Pad2Value(t / 3600000);
    Pad2Value(t / 60000 % 60);
    HoursAndMinutes(t);
  }

  lemma HoursAndMinutes(t: int)
    requires 0 <= t
    ensures t / 3600000 * 60 + t / 60000 % 60 == t / 60000
  {
    var u := t / 60000;
    assert t / 3600000 == u / 60;
  }

  /** The WIB date is the UTC date until 17:00 UTC, and the next UTC date from then on. */
  lemma WibDateRollsOverAt17Utc(now: int)
    ensures DateOfInstant(ShiftToWib(now))
            == CivilFromDays(now / MsPerDay + (if now % MsPerDay >= 17 * 3600000 then 1 else 0))
  {
    var q, r := now / MsPerDay, now % MsPerDay;
    assert now == q * MsPerDay + r;
    assert ShiftToWib(now) / MsPerDay == q + (if r >= 17 * 3600000 then 1 else 0);
  }

  lemma EpochDays()
    ensures CivilFromDays(0) == CivilDate(1970, 1, 1)
    ensures CivilFromDays(1) == CivilDate(1970, 1, 2)
  {
  }

  /** The Unix epoch is 1 January 1970 in WIB too, and 17:00 UTC that day is already 2 January in WIB. */
  lemma WibDateExamples()
    ensures FourDigitYear(ShiftToWib(0)) && CurrentDateWib(0) == "1970-01-01"
    ensures FourDigitYear(ShiftToWib(61200000)) && CurrentDateWib(61200000) == "1970-01-02"
  {
    EpochDays();
    assert ShiftToWib(0) / MsPerDay == 0 && ShiftToWib(61200000) / MsPerDay == 1;
    CurrentDateIsDateText(0);
    CurrentDateIsDateText(61200000);
    EpochDateTexts();
  }

  lemma EpochDateTexts()
    ensures DateText(CivilDate(1970, 1, 1)) == "1970-01-01"
    ensures DateText(CivilDate(1970, 1, 2)) == "1970-01-02"
  {
    assert Pad2(19) == "19" && Pad2(70) == "70";
    assert Pad4(1970) == "1970";
    assert Pad2(1) == "01" && Pad2(2) == "02";
  }
}
