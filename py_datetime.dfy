/**
 * The part of Python's `datetime` that the calendar endpoint relies on:
 * `datetime.strptime(text, "%Y-%m-%d %H:%M")`, adding a number of minutes,
 * and `strftime("%H:%M")`. Parsing follows the regular expressions the
 * standard library builds for these directives; the calendar checks follow
 * the proleptic Gregorian rules of the `datetime` type (years 1 to 9999).
 */
module PyDateTime {
  import opened Results
  import opened Text
  import opened ClockText

  /** A parsed `datetime` at minute resolution. */
  datatype DateTime = DateTime(year: int, month: int, day: int, hour: int, minute: int)

  predicate IsLeap(y: int) {
    y % 4 == 0 && (y % 100 != 0 || y % 400 == 0)
  }

  function DaysInMonth(y: int, m: int): (n: int)
    requires 1 <= m <= 12
    ensures 28 <= n <= 31
    ensures n == 29 <==> m == 2 && IsLeap(y)
  {
    if m == 2 then (if IsLeap(y) then 29 else 28)
    else if m == 4 || m == 6 || m == 9 || m == 11 then 30
    else 31
  }

  /** A day the `datetime` type accepts. */
  predicate ValidDate(y: int, m: int, d: int) {
    1 <= y <= 9999 && 1 <= m <= 12 && 1 <= d <= DaysInMonth(y, m)
  }

  // ---------------------------------------------------------------------------
  // Parsing "%Y-%m-%d %H:%M"
  // ---------------------------------------------------------------------------

  /** `%Y`: four decimal digits, then the literal '-'. */
  function YearField(s: string): (r: Option<(int, string)>)
    ensures r.Some? ==> 0 <= r.value.0 <= 9999 && |r.value.1| == |s| - 5
  {
    if |s| >= 5 && IsDigit(s[0]) && IsDigit(s[1]) && IsDigit(s[2]) && IsDigit(s[3]) && s[4] == '-' then
      Some((((DigitValue(s[0]) * 10 + DigitValue(s[1])) * 10 + DigitValue(s[2])) * 10 + DigitValue(s[3]), s[5..]))
    else None
  }

  /** `%m` (`1[0-2]|0[1-9]|[1-9]`), then the literal '-'. */
  function MonthField(s: string): (r: Option<(int, string)>)
    ensures r.Some? ==> 1 <= r.value.0 <= 12 && |r.value.1| < |s|
  {
    if |s| >= 3 && s[2] == '-' && ((s[0] == '1' && '0' <= s[1] <= '2') || (s[0] == '0' && '1' <= s[1] <= '9')) then
      Some((DigitValue(s[0]) * 10 + DigitValue(s[1]), s[3..]))
    else if |s| >= 2 && s[1] == '-' && '1' <= s[0] <= '9' then
      Some((DigitValue(s[0]), s[2..]))
    else None
  }

  /** Two characters that `%d` reads as one day number. */
  predicate TwoCharDay(a: char, b: char) {
    || (a == '3' && (b == '0' || b == '1'))
    || ((a == '1' || a == '2') && IsDigit(b))
    || (a == '0' && '1' <= b <= '9')
    || (a == ' ' && '1' <= b <= '9')
  }

  /**
   * `%d` (`3[01]|[12]\d|0[1-9]|[1-9]| [1-9]`), which must be followed by the
   * whitespace the format's space stands for; the whitespace is not consumed.
   */
  function DayField(s: string): (r: Option<(int, string)>)
    ensures r.Some? ==> 1 <= r.value.0 <= 31 && |r.value.1| < |s|
  {
    if |s| >= 3 && IsWhitespace(PyWhitespace, s[2]) && TwoCharDay(s[0], s[1]) then
      Some(((if s[0] == ' ' then 0 else DigitValue(s[0])) * 10 + DigitValue(s[1]), s[2..]))
    else if |s| >= 2 && IsWhitespace(PyWhitespace, s[1]) && '1' <= s[0] <= '9' then
      Some((DigitValue(s[0]), s[1..]))
    else None
  }

  /** The format's single space matches one or more whitespace characters. */
  function SkipSpace(s: string): (r: Option<string>)
    ensures r.Some? ==> |r.value| < |s|
  {
    var rest := StripStart(s, PyWhitespace);
    if |rest| < |s| then Some(rest) else None
  }

  /** `%H` (`2[0-3]|[0-1]\d|\d`), then the literal ':'. */
  function HourField(s: string): (r: Option<(int, string)>)
    ensures r.Some? ==> 0 <= r.value.0 <= 23
  {
    if |s| >= 3 && s[2] == ':' && ((s[0] == '2' && '0' <= s[1] <= '3') || ((s[0] == '0' || s[0] == '1') && IsDigit(s[1]))) then
      Some((DigitValue(s[0]) * 10 + DigitValue(s[1]), s[3..]))
    else if |s| >= 2 && s[1] == ':' && IsDigit(s[0]) then
      Some((DigitValue(s[0]), s[2..]))
    else None
  }

  /**
   * `%M` (`[0-5]\d|\d`) at the end of the text: anything left over after the
   * match is "unconverted data" and an error.
   */
  function MinuteField(s: string): (r: Option<int>)
    ensures r.Some? ==> 0 <= r.value <= 59
  {
    if |s| == 2 && '0' <= s[0] <= '5' && IsDigit(s[1]) then Some(DigitValue(s[0]) * 10 + DigitValue(s[1]))
    else if |s| == 1 && IsDigit(s[0]) then Some(DigitValue(s[0]))
    else None
  }

  /**
   * `datetime.strptime(s, "%Y-%m-%d %H:%M")`: `None` stands for the
   * `ValueError` raised when the text does not match or names a day the
   * calendar does not have (including year 0).
   */
  function ParseDateTime(s: string): (r: Option<DateTime>)
    ensures r.Some? ==> ValidDateTime(r.value)
  {
    match YearField(s)
    case None => None
    case Some((y, s1)) =>
      match MonthField(s1)
      case None => None
      case Some((m, s2)) =>
        match DayField(s2)
        case None => None
        case Some((d, s3)) =>
          match SkipSpace(s3)
          case None => None
          case Some(s4) =>
            match HourField(s4)
            case None => None
            case Some((h, s5)) =>
              match MinuteField(s5)
              case None => None
              case Some(mi) =>
                if 1 <= y && d <= DaysInMonth(y, m) then Some(DateTime(y, m, d, h, mi)) else None
  }

  // ---------------------------------------------------------------------------
  // Canonical texts and their parse
  // ---------------------------------------------------------------------------

  /** A year below 10000 as four digits. */
  function YearChars(y: nat): (s: string)
    requires y < 10000
    ensures |s| == 4
  {
    [DigitChar(y / 1000), DigitChar(y / 100 % 10), DigitChar(y / 10 % 10), DigitChar(y % 10)]
  }

  /** `YYYY-MM-DD` with every field zero-padded, as ISO 8601 writes a day. */
  function IsoDate(y: nat, m: nat, d: nat): (s: string)
    requires y < 10000 && m < 100 && d < 100
    ensures |s| == 10
  {
    YearChars(y) + ['-', DigitChar(m / 10), DigitChar(m % 10), '-', DigitChar(d / 10), DigitChar(d % 10)]
  }

  lemma DigitRoundTrip(n: nat)
    requires n < 10
    ensures DigitValue(DigitChar(n)) == n && IsDigit(DigitChar(n))
  {
  }

  lemma YearFieldReads(y: nat, rest: string)
    requires y < 10000
    ensures YearField(YearChars(y) + "-" + rest) == Some((y, rest))
  {
    DigitRoundTrip(y / 1000);
    DigitRoundTrip(y / 100 % 10);
    DigitRoundTrip(y / 10 % 10);
    DigitRoundTrip(y % 10);
    FourDigitValue(y);
    var s := YearChars(y) + "-" + rest;
    assert s[5..] == rest;
  }

  /** The four digits of a year below 10000 put back together give the year. */
  lemma FourDigitValue(y: nat)
    requires y < 10000
    ensures ((y / 1000 * 10 + y / 100 % 10) * 10 + y / 10 % 10) * 10 + y % 10 == y
  {
    var q := y / 10;
    var p := q / 10;
    var o := p / 10;
    assert y == 10 * q + y % 10;
    assert q == 10 * p + q % 10;
    assert p == 10 * o + p % 10;
    assert y / 100 == p;
    assert y / 1000 == o;
  }

  /** Two digits from 01 to 12, then '-', read as that month. */
  lemma MonthFieldReads(m: nat, rest: string)
    requires 1 <= m <= 12
    ensures MonthField([DigitChar(m / 10), DigitChar(m % 10), '-'] + rest) == Some((m, rest))
  {
    DigitRoundTrip(m / 10);
    DigitRoundTrip(m % 10);
    var s := [DigitChar(m / 10), DigitChar(m % 10), '-'] + rest;
    assert s[3..] == rest;
  }

  /** Two digits below 32, then whitespace, read as that day. */
  lemma DayFieldReads(d: nat, rest: string)
    requires 1 <= d <= 31 && rest != [] && IsWhitespace(PyWhitespace, rest[0])
    ensures DayField([DigitChar(d / 10), DigitChar(d % 10)] + rest) == Some((d, rest))
  {
    DigitRoundTrip(d / 10);
    DigitRoundTrip(d % 10);
    var s := [DigitChar(d / 10), DigitChar(d % 10)] + rest;
    assert s[2..] == rest;
    assert TwoCharDay(s[0], s[1]) by {
      if d / 10 == 0 {
        assert s[0] == '0' && '1' <= s[1] <= '9';
      } else if d / 10 == 3 {
        assert s[0] == '3' && (s[1] == '0' || s[1] == '1');
      } else {
        assert (s[0] == '1' || s[0] == '2') && IsDigit(s[1]);
      }
    }
  }

  lemma SkipOneSpace(rest: string)
    requires rest != [] && !IsWhitespace(PyWhitespace, rest[0])
    ensures SkipSpace(" " + rest) == Some(rest)
  {
    assert (" " + rest)[1..] == rest;
  }

  /** Two digits from 00 to 23, then ':', read as that hour. */
  lemma HourFieldReads(h: nat, rest: string)
    requires h < 24
    ensures HourField([DigitChar(h / 10), DigitChar(h % 10), ':'] + rest) == Some((h, rest))
  {
    DigitRoundTrip(h / 10);
    DigitRoundTrip(h % 10);
    var s := [DigitChar(h / 10), DigitChar(h % 10), ':'] + rest;
    assert s[3..] == rest;
  }

  /** Two digits from 00 to 59 that end the text, read as that minute. */
  lemma MinuteFieldReads(mi: nat)
    requires mi < 60
    ensures MinuteField([DigitChar(mi / 10), DigitChar(mi % 10)]) == Some(mi)
  {
    DigitRoundTrip(mi / 10);
    DigitRoundTrip(mi % 10);
  }

  /** The parse succeeds once every field has been read and the day exists. */
  lemma ParseFromFields(s: string, y: int, s1: string, m: int, s2: string, d: int, s3: string,
                        s4: string, h: int, s5: string, mi: int)
    requires YearField(s) == Some((y, s1)) && MonthField(s1) == Some((m, s2))
    requires DayField(s2) == Some((d, s3)) && SkipSpace(s3) == Some(s4)
    requires HourField(s4) == Some((h, s5)) && MinuteField(s5) == Some(mi)
    requires 1 <= y && 1 <= m <= 12 && d <= DaysInMonth(y, m)
    ensures ParseDateTime(s) == Some(DateTime(y, m, d, h, mi))
  {
  }

  /** The canonical text, character by character. */
  function IsoChars(y: nat, m: nat, d: nat, h: nat, mi: nat): string
    requires y < 10000 && m < 100 && d < 100 && h < 100 && mi < 100
  {
    YearChars(y) + "-" + ([DigitChar(m / 10), DigitChar(m % 10), '-'] + ([DigitChar(d / 10), DigitChar(d % 10)]
      + (" " + ([DigitChar(h / 10), DigitChar(h % 10), ':'] + [DigitChar(mi / 10), DigitChar(mi % 10)]))))
  }

  lemma ParseIsoChars(y: nat, m: nat, d: nat, h: nat, mi: nat)
    requires ValidDate(y, m, d) && h < 24 && mi < 60
    ensures ParseDateTime(IsoChars(y, m, d, h, mi)) == Some(DateTime(y, m, d, h, mi))
  {
    var minutes := [DigitChar(mi / 10), DigitChar(mi % 10)];
    var s4 := [DigitChar(h / 10), DigitChar(h % 10), ':'] + minutes;
    var s3 := " " + s4;
    var s2 := [DigitChar(d / 10), DigitChar(d % 10)] + s3;
    var s1 := [DigitChar(m / 10), DigitChar(m % 10), '-'] + s2;
    YearFieldReads(y, s1);
    MonthFieldReads(m, s2);
    DayFieldReads(d, s3);
    SkipOneSpace(s4);
    HourFieldReads(h, minutes);
    MinuteFieldReads(mi);
    ParseFromFields(IsoChars(y, m, d, h, mi), y, s1, m, s2, d, s3, s4, h, minutes, mi);
  }

  /**
   * Every valid day written as `YYYY-MM-DD` together with a time written as
   * zero-padded `HH:MM` is read back as exactly that day and time.
   */
  lemma ParseIsoRoundTrip(y: nat, m: nat, d: nat, h: nat, mi: nat)
    requires ValidDate(y, m, d) && h < 24 && mi < 60
    ensures ParseDateTime(IsoDate(y, m, d) + " " + Clock(h, mi)) == Some(DateTime(y, m, d, h, mi))
  {
    IsoTextChars(y, m, d, h, mi);
    ParseIsoChars(y, m, d, h, mi);
  }

  lemma IsoTextChars(y: nat, m: nat, d: nat, h: nat, mi: nat)
    requires y < 10000 && m < 100 && d < 100 && h < 100 && mi < 60
    ensures IsoDate(y, m, d) + " " + Clock(h, mi) == IsoChars(y, m, d, h, mi)
  {
    DateParts(y, m, d);
    ClockParts(h, mi);
    Regroup(YearChars(y), [DigitChar(m / 10), DigitChar(m % 10), '-'], [DigitChar(d / 10), DigitChar(d % 10)],
      [DigitChar(h / 10), DigitChar(h % 10), ':'] + [DigitChar(mi / 10), DigitChar(mi % 10)]);
  }

  lemma DateParts(y: nat, m: nat, d: nat)
    requires y < 10000 && m < 100 && d < 100
    ensures IsoDate(y, m, d)
      == YearChars(y) + (['-'] + [DigitChar(m / 10), DigitChar(m % 10), '-'] + [DigitChar(d / 10), DigitChar(d % 10)])
  {
  }

  lemma ClockParts(h: nat, mi: nat)
    requires h < 100 && mi < 60
    ensures Clock(h, mi) == [DigitChar(h / 10), DigitChar(h % 10), ':'] + [DigitChar(mi / 10), DigitChar(mi % 10)]
  {
    ClockChars(h, mi);
    SplitAfterColon(Clock(h, mi), DigitChar(h / 10), DigitChar(h % 10), DigitChar(mi / 10), DigitChar(mi % 10));
  }

  lemma SplitAfterColon(s: string, p: char, q: char, u: char, v: char)
    requires s == [p, q, ':', u, v]
    ensures s == [p, q, ':'] + [u, v]
  {
  }

  /** The canonical text regrouped field by field. */
  lemma Regroup(year: string, months: string, days: string, clock: string)
    ensures year + (['-'] + months + days) + " " + clock == year + "-" + (months + (days + (" " + clock)))
  {
  }


  // ---------------------------------------------------------------------------
  // Minute arithmetic
  // ---------------------------------------------------------------------------

  /** Days before 1 January of year `y`, counted from 1 January of year 1. */
  function DaysBeforeYear(y: int): int
    requires y >= 1
  {
    var p := y - 1;
    p * 365 + p / 4 - p / 100 + p / 400
  }

  function DaysBeforeMonth(y: int, m: int): (n: int)
    requires 1 <= m <= 12
    ensures 0 <= n <= 31 * (m - 1)
    decreases m
  {
    if m == 1 then 0 else DaysBeforeMonth(y, m - 1) + DaysInMonth(y, m - 1)
  }

  /** `date.toordinal()`: 1 January of year 1 is day 1. */
  function Ordinal(y: int, m: int, d: int): int
    requires ValidDate(y, m, d)
  {
    DaysBeforeYear(y) + DaysBeforeMonth(y, m) + d
  }

  /** `date(9999, 12, 31).toordinal()`: the last day `datetime` can represent. */
  const MaxOrdinal: int := 3652059

  /** A `datetime` value: a day the calendar has and a time of day. */
  predicate ValidDateTime(t: DateTime) {
    ValidDate(t.year, t.month, t.day) && 0 <= t.hour <= 23 && 0 <= t.minute <= 59
  }

  /** Minutes from `datetime.min` (0001-01-01 00:00) to `t`. */
  function MinutesSinceMin(t: DateTime): (n: int)
    requires ValidDateTime(t)
    ensures 0 <= n
  {
    (Ordinal(t.year, t.month, t.day) - 1) * 1440 + t.hour * 60 + t.minute
  }

  // ---------------------------------------------------------------------------
  // Walking the calendar one day at a time
  // ---------------------------------------------------------------------------

  /** A year is 365 days long, or 366 in a leap year. */
  lemma YearLength(y: int)
    requires y >= 1
    ensures DaysBeforeYear(y + 1) == DaysBeforeYear(y) + (if IsLeap(y) then 366 else 365)
  {
    StepOver4(y);
    StepOver100(y);
    StepOver400(y);
  }

  /** Counting multiples of 4, 100 and 400: one more exactly at a multiple. */
  lemma StepOver4(y: int)
    ensures y / 4 - (y - 1) / 4 == (if y % 4 == 0 then 1 else 0)
  {
    var q := y / 4;
    if y % 4 == 0 {
      assert y - 1 == 4 * (q - 1) + 3;
    } else {
      assert y - 1 == 4 * q + (y % 4 - 1);
    }
  }

  lemma StepOver100(y: int)
    ensures y / 100 - (y - 1) / 100 == (if y % 100 == 0 then 1 else 0)
  {
    var q := y / 100;
    if y % 100 == 0 {
      assert y - 1 == 100 * (q - 1) + 99;
    } else {
      assert y - 1 == 100 * q + (y % 100 - 1);
    }
  }

  lemma StepOver400(y: int)
    ensures y / 400 - (y - 1) / 400 == (if y % 400 == 0 then 1 else 0)
  {
    var q := y / 400;
    if y % 400 == 0 {
      assert y - 1 == 400 * (q - 1) + 399;
    } else {
      assert y - 1 == 400 * q + (y % 400 - 1);
    }
  }

  /** The eleven months before December hold 334 days, 335 in a leap year. */
  lemma BeforeDecember(y: int)
    ensures DaysBeforeMonth(y, 12) == (if IsLeap(y) then 335 else 334)
  {
    assert DaysBeforeMonth(y, 2) == 31;
    assert DaysBeforeMonth(y, 3) == DaysBeforeMonth(y, 2) + DaysInMonth(y, 2);
    assert DaysBeforeMonth(y, 4) == DaysBeforeMonth(y, 3) + 31;
    assert DaysBeforeMonth(y, 5) == DaysBeforeMonth(y, 4) + 30;
    assert DaysBeforeMonth(y, 6) == DaysBeforeMonth(y, 5) + 31;
    assert DaysBeforeMonth(y, 7) == DaysBeforeMonth(y, 6) + 30;
    assert DaysBeforeMonth(y, 8) == DaysBeforeMonth(y, 7) + 31;
    assert DaysBeforeMonth(y, 9) == DaysBeforeMonth(y, 8) + 31;
    assert DaysBeforeMonth(y, 10) == DaysBeforeMonth(y, 9) + 30;
    assert DaysBeforeMonth(y, 11) == DaysBeforeMonth(y, 10) + 31;
    assert DaysBeforeMonth(y, 12) == DaysBeforeMonth(y, 11) + 30;
  }

  /** At 1 January of year 1 no whole day has passed yet. */
  lemma FirstDayMinutes(t: DateTime)
    requires t.year == 1 && t.month == 1 && t.day == 1 && 0 <= t.hour < 24 && 0 <= t.minute < 60
    ensures ValidDateTime(t) && MinutesSinceMin(t) == t.hour * 60 + t.minute
  {
    assert DaysBeforeYear(t.year) == 0;
    assert DaysBeforeMonth(t.year, t.month) == 0;
  }

  /** The day after `t`, at the same time of day; the last representable day has none. */
  function NextDay(t: DateTime): (r: DateTime)
    requires ValidDateTime(t) && Ordinal(t.year, t.month, t.day) < MaxOrdinal
    ensures ValidDateTime(r) && r.hour == t.hour && r.minute == t.minute
    ensures Ordinal(r.year, r.month, r.day) == Ordinal(t.year, t.month, t.day) + 1
  {
    if t.day < DaysInMonth(t.year, t.month) then t.(day := t.day + 1)
    else if t.month < 12 then t.(month := t.month + 1, day := 1)
    else
      BeforeDecember(t.year);
      YearLength(t.year);
      assert t.year < 9999;
      t.(year := t.year + 1, month := 1, day := 1)
  }

  /** `n` days after `t`, at the same time of day. */
  function AddDays(t: DateTime, n: nat): (r: DateTime)
    requires ValidDateTime(t) && Ordinal(t.year, t.month, t.day) + n <= MaxOrdinal
    ensures ValidDateTime(r) && r.hour == t.hour && r.minute == t.minute
    ensures Ordinal(r.year, r.month, r.day) == Ordinal(t.year, t.month, t.day) + n
    decreases n
  {
    if n == 0 then t else AddDays(NextDay(t), n - 1)
  }

  /**
   * The `datetime` that lies `total` minutes after `datetime.min`, for every
   * count that stays within the representable years.
   */
  function FromMinutes(total: int): (r: DateTime)
    requires 0 <= total < MaxOrdinal * 1440
    ensures ValidDateTime(r) && MinutesSinceMin(r) == total
  {
    SplitMinutes(total);
    AtDayAndTime(total / 1440, total % 1440 / 60, total % 1440 % 60)
  }

  lemma SplitMinutes(total: int)
    requires 0 <= total < MaxOrdinal * 1440
    ensures 0 <= total / 1440 < MaxOrdinal && 0 <= total % 1440 / 60 < 24 && 0 <= total % 1440 % 60 < 60
    ensures total == total / 1440 * 1440 + total % 1440 / 60 * 60 + total % 1440 % 60
  {
  }

  /** The time `hh:mm` on the day `days` days after 1 January of year 1. */
  function AtDayAndTime(days: nat, hh: int, mm: int): (r: DateTime)
    requires days < MaxOrdinal && 0 <= hh < 24 && 0 <= mm < 60
    ensures ValidDateTime(r) && MinutesSinceMin(r) == days * 1440 + hh * 60 + mm
  {
    var first := DateTime(1, 1, 1, hh, mm);
    FirstDayMinutes(first);
    MinutesAfterDays(first, days);
    AddDays(first, days)
  }

  /** Adding `n` days adds `n * 1440` minutes. */
  lemma MinutesAfterDays(t: DateTime, n: nat)
    requires ValidDateTime(t) && Ordinal(t.year, t.month, t.day) + n <= MaxOrdinal
    ensures MinutesSinceMin(AddDays(t, n)) == MinutesSinceMin(t) + n * 1440
  {
    var r := AddDays(t, n);
    MinutesAtOrdinal(r, Ordinal(t.year, t.month, t.day) + n);
  }

  /**
   * `t + timedelta(minutes=k)`: `None` is the `OverflowError` raised when the
   * sum leaves the years 1 to 9999; otherwise the sum lies exactly `k`
   * minutes after `t`.
   */
  function AddMinutes(t: DateTime, k: int): (r: Option<DateTime>)
    requires ValidDateTime(t)
    ensures r.Some? <==> 0 <= MinutesSinceMin(t) + k < MaxOrdinal * 1440
    ensures r.Some? ==> ValidDateTime(r.value) && MinutesSinceMin(r.value) == MinutesSinceMin(t) + k
  {
    var total := MinutesSinceMin(t) + k;
    if 0 <= total < MaxOrdinal * 1440 then Some(FromMinutes(total)) else None
  }

  /**
   * The time of day of the sum, which is what `strftime("%H:%M")` prints,
   * depends only on the time of day of `t` and on `k`.
   */
  lemma {:induction false} SumTimeOfDay(t: DateTime, k: int)
    requires ValidDateTime(t) && AddMinutes(t, k).Some?
    ensures var e := AddMinutes(t, k).value;
      e.hour * 60 + e.minute == (t.hour * 60 + t.minute + k) % 1440
  {
    var e := AddMinutes(t, k).value;
    var local := t.hour * 60 + t.minute + k;
    TimeOfDayShift(Ordinal(t.year, t.month, t.day) - 1, local);
    TimeOfDayShift(Ordinal(e.year, e.month, e.day) - 1, e.hour * 60 + e.minute);
  }

  lemma MinutesAtOrdinal(t: DateTime, ordinal: int)
    requires ValidDateTime(t) && Ordinal(t.year, t.month, t.day) == ordinal
    ensures MinutesSinceMin(t) == (ordinal - 1) * 1440 + t.hour * 60 + t.minute
  {
  }

  /** Between one and two days' worth of minutes, the remainder is the excess over one day. */
  lemma PastMidnight(x: int)
    requires 1440 <= x < 2880
    ensures x % 1440 == x - 1440
  {
    assert x / 1440 == 1;
  }

  /** Whole days do not change the time of day. */
  lemma TimeOfDayShift(days: int, minutes: int)
    ensures (days * 1440 + minutes) % 1440 == minutes % 1440
  {
  }
}
