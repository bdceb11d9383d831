/** The date and time rendering the job obtains from moment, with the local
    zone taken to be UTC: instants are integer milliseconds since
    1970-01-01T00:00:00Z, days are proleptic Gregorian. */
module Calendar {
  import opened Wrappers
  import opened JsValues

  const MsPerSecond: int := 1000
  const MsPerMinute: int := 60_000
  const MsPerDay: int := 86_400_000
  const SecondsPerDay: int := 86_400

  /** The fixed +7 hour offset the formatter adds to dates and times. */
  const SevenHours: int := 7 * 3_600_000

  /** Day count since 0000-01-01 of 1970-01-01. */
  const UnixEpochDays: int := 719_528

  /** Days since 1970-01-01 of the day holding instant t. */
  function DayNumber(t: int): int {
    t / MsPerDay
  }

  /** Whole seconds elapsed in the day holding instant t. */
  function SecondOfDay(t: int): int {
    (t % MsPerDay) / MsPerSecond
  }

  predicate IsLeap(y: int) {
    y % 4 == 0 && (y % 100 != 0 || y % 400 == 0)
  }

  function YearLength(y: int): int {
    if IsLeap(y) then 366 else 365
  }

  /** Days from 0000-01-01 to the first day of year y (negative before year 0). */
  function DaysBeforeYear(y: int): int {
    365 * y + (y + 3) / 4 - (y + 99) / 100 + (y + 399) / 400
  }

  /** The closed form counts each year with its own length. */
  lemma YearStep(y: int)
    ensures DaysBeforeYear(y + 1) == DaysBeforeYear(y) + YearLength(y)
  {
    LeapCount4(y);
    LeapCount100(y);
    LeapCount400(y);
  }

  lemma LeapCount4(y: int)
    ensures (y + 4) / 4 == (y + 3) / 4 + (if y % 4 == 0 then 1 else 0)
  {
  }

  lemma LeapCount100(y: int)
    ensures (y + 100) / 100 == (y + 99) / 100 + (if y % 100 == 0 then 1 else 0)
  {
  }

  lemma LeapCount400(y: int)
    ensures (y + 400) / 400 == (y + 399) / 400 + (if y % 400 == 0 then 1 else 0)
  {
  }

  /** Days of a non-leap year before the first of month m; m == 13 gives the year. */
  function CumulativeDays(m: int): int
    requires 1 <= m <= 13
  {
    [0, 31, 59, 90, 120, 151, 181, 212, 243, 273, 304, 334, 365][m - 1]
  }

  function DaysBeforeMonth(y: int, m: int): int
    requires 1 <= m <= 13
  {
    CumulativeDays(m) + (if IsLeap(y) && m > 2 then 1 else 0)
  }

  function DaysInMonth(y: int, m: int): int
    requires 1 <= m <= 12
  {
    DaysBeforeMonth(y, m + 1) - DaysBeforeMonth(y, m)
  }

  /** A calendar day. */
  datatype Civil = Civil(year: int, month: int, day: int)

  predicate ValidCivil(c: Civil) {
    1 <= c.month <= 12 && 1 <= c.day <= DaysInMonth(c.year, c.month)
  }

  /** Days since 1970-01-01 of a calendar day: the closed form. */
  function DaysFromCivil(c: Civil): int
    requires ValidCivil(c)
  {
    DaysBeforeYear(c.year) + DaysBeforeMonth(c.year, c.month) + c.day - 1 - UnixEpochDays
  }

  /** Walks whole years from y-01-01 until d days later falls inside the year;
      returns that year and the day of the year (0-based). */
  function SplitYears(y: int, d: int): (int, int)
    decreases (if d < 0 then 1 else 0), (if d < 0 then -d else d)
  {
    if d < 0 then SplitYears(y - 1, d + YearLength(y - 1))
    else if d >= YearLength(y) then SplitYears(y + 1, d - YearLength(y))
    else (y, d)
  }

  /** The walk lands inside a year, and the days it walked over add up. */
  lemma {:induction false} SplitYearsSound(y: int, d: int)
    ensures var r := SplitYears(y, d);
            0 <= r.1 < YearLength(r.0) && DaysBeforeYear(r.0) + r.1 == DaysBeforeYear(y) + d
    decreases (if d < 0 then 1 else 0), (if d < 0 then -d else d)
  {
    if d < 0 {
      YearStep(y - 1);
      SplitYearsSound(y - 1, d + YearLength(y - 1));
    } else if d >= YearLength(y) {
      YearStep(y);
      SplitYearsSound(y + 1, d - YearLength(y));
    }
  }

  /** The month of year y holding day-of-year doy, searching from month m. */
  function MonthOf(y: int, doy: int, m: int): (r: int)
    requires 1 <= m <= 12
    ensures m <= r <= 12
    decreases 12 - m
  {
    if m == 12 || doy < DaysBeforeMonth(y, m + 1) then m else MonthOf(y, doy, m + 1)
  }

  lemma {:induction false} MonthOfSound(y: int, doy: int, m: int)
    requires 1 <= m <= 12
    requires DaysBeforeMonth(y, m) <= doy < YearLength(y)
    ensures DaysBeforeMonth(y, MonthOf(y, doy, m)) <= doy < DaysBeforeMonth(y, MonthOf(y, doy, m) + 1)
    decreases 12 - m
  {
    if !(m == 12 || doy < DaysBeforeMonth(y, m + 1)) {
      MonthOfSound(y, doy, m + 1);
    }
  }

  /** The calendar day of days-since-epoch z. */
  function CivilFromDays(z: int): Civil {
    var (y, doy) := SplitYears(1970, z);
    var m := MonthOf(y, doy, 1);
    Civil(y, m, doy - DaysBeforeMonth(y, m) + 1)
  }

  /** The decomposition names a real calendar day, and the closed form maps it back. */
  lemma CivilRoundTrip(z: int)
    ensures ValidCivil(CivilFromDays(z))
    ensures DaysFromCivil(CivilFromDays(z)) == z
  {
    SplitYearsSound(1970, z);
    var (y, doy) := SplitYears(1970, z);
    MonthOfSound(y, doy, 1);
  }

  /** moment's `zeroFill(n, width)`: a minus sign for negatives, then the
      absolute value left-padded with zeros to `width` digits. */
  function ZeroFill(n: int, width: nat): string {
    var a: nat := if n < 0 then -n else n;
    var digits := Decimal(a);
    (if n < 0 then "-" else "") + seq(if |digits| < width then width - |digits| else 0, _ => '0') + digits
  }

  /** A calendar day as `YYYY-MM-DD`. */
  function CivilText(c: Civil): string {
    ZeroFill(c.year, 4) + "-" + ZeroFill(c.month, 2) + "-" + ZeroFill(c.day, 2)
  }

  /** `format("YYYY-MM-DD")` of instant t. */
  function DateText(t: int): string {
    CivilText(CivilFromDays(DayNumber(t)))
  }

  /** `format("HH:mm:ss")` of instant t. */
  function TimeText(t: int): string {
    ClockText(SecondOfDay(t))
  }

  /** The text moment gives a formatted invalid instant. */
  const InvalidDate: string := "Invalid date"

  predicate AllDigits(s: string) {
    forall i :: 0 <= i < |s| ==> IsDigit(s[i])
  }

  /** Reads `YYYY-MM-DD` as days since 1970-01-01; None when the text is not a
      four-digit-year date or names no calendar day. */
  function ParseDate(s: string): Option<int> {
    if |s| == 10 && s[4] == '-' && s[7] == '-'
       && AllDigits(s[..4]) && AllDigits(s[5..7]) && AllDigits(s[8..])
    then
      var c := Civil(ParseDecimal(s[..4]), ParseDecimal(s[5..7]), ParseDecimal(s[8..]));
      if ValidCivil(c) then Some(DaysFromCivil(c)) else None
    else None
  }

  /** Seconds since midnight of an hour, minute and second. */
  function ClockSeconds(h: int, m: int, sec: int): int {
    h * 3600 + m * 60 + sec
  }

  /** Reads `HH:mm:ss` as seconds since midnight; None when malformed or out of range. */
  function ParseTime(s: string): Option<int> {
    if |s| == 8 && s[2] == ':' && s[5] == ':'
       && AllDigits(s[..2]) && AllDigits(s[3..5]) && AllDigits(s[6..])
    then
      var h, m, sec := ParseDecimal(s[..2]), ParseDecimal(s[3..5]), ParseDecimal(s[6..]);
      if h < 24 && m < 60 && sec < 60 then Some(ClockSeconds(h, m, sec)) else None
    else None
  }

  /** Milliseconds since the epoch of a day number and a second of that day. */
  function InstantMs(day: int, sec: int): int {
    day * MsPerDay + sec * MsPerSecond
  }

  /** Reads `YYYY-MM-DDTHH:mm:ss.000Z` as an instant; None when moment would
      produce an invalid date. */
  function ParseInstant(s: string): Option<int> {
    if |s| == 24 && s[10] == 'T' && s[19..] == ".000Z" then
      match (ParseDate(s[..10]), ParseTime(s[11..19]))
      case (Some(d), Some(sec)) => Some(InstantMs(d, sec))
      case _ => None
    else None
  }

  /** A ten-character date and an eight-character time joined as
      `…T….000Z` are read part by part. */
  lemma ParseInstantParts(d: string, t: string)
    requires |d| == 10 && |t| == 8
    ensures ParseInstant(d + "T" + t + ".000Z") ==
              match (ParseDate(d), ParseTime(t))
              case (Some(day), Some(sec)) => Some(InstantMs(day, sec))
              case _ => None
  {
    var s := d + "T" + t + ".000Z";
    assert s[..10] == d;
    assert s[11..19] == t;
    assert s[19..] == ".000Z";
  }

  function Pow10(w: nat): nat {
    if w == 0 then 1 else 10 * Pow10(w - 1)
  }

  /** The last w decimal digits of n, most significant first. */
  function Digits(n: nat, w: nat): (r: string)
    ensures |r| == w && AllDigits(r)
  {
    if w == 0 then [] else Digits(n / 10, w - 1) + [DigitChar(n % 10)]
  }

  /** w digits read back as the number they were taken from, when it has at most w digits. */
  lemma {:induction false} DigitsRoundTrip(n: nat, w: nat)
    requires n < Pow10(w)
    ensures ParseDecimal(Digits(n, w)) == n
  {
    if w > 0 {
      var r := Digits(n, w);
      assert r[..w - 1] == Digits(n / 10, w - 1);
      DigitsRoundTrip(n / 10, w - 1);
    }
  }

  /** Zero-filling a number of at most `width` digits gives its last `width` digits. */
  lemma {:induction false} ZeroFillIsDigits(n: nat, width: nat)
    requires 0 < width && n < Pow10(width)
    ensures ZeroFill(n, width) == Digits(n, width)
    decreases width
  {
    var d := Decimal(n);
    if n < 10 {
      ZerosAreDigits(width - 1);
      assert ZeroFill(n, width) == seq(width - 1, _ => '0') + [DigitChar(n)];
    } else {
      ZeroFillIsDigits(n / 10, width - 1);
      var d' := Decimal(n / 10);
      assert d == d' + [DigitChar(n % 10)];
      assert seq(width - |d|, _ => '0') == seq(width - 1 - |d'|, _ => '0');
      assert ZeroFill(n, width) == ZeroFill(n / 10, width - 1) + [DigitChar(n % 10)];
    }
  }

  lemma {:induction false} ZerosAreDigits(w: nat)
    ensures Digits(0, w) == seq(w, _ => '0')
  {
    if w > 0 {
      ZerosAreDigits(w - 1);
    }
  }

  /** A number below 10^width zero-filled to width is exactly width digits
      that read back as the number. */
  lemma ZeroFillRoundTrip(n: int, width: nat)
    requires 0 < width && 0 <= n < Pow10(width)
    ensures ZeroFill(n, width) == Digits(n, width)
    ensures |ZeroFill(n, width)| == width
    ensures AllDigits(ZeroFill(n, width)) && ParseDecimal(ZeroFill(n, width)) == n
  {
    ZeroFillIsDigits(n, width);
    DigitsRoundTrip(n, width);
  }

  /** Fixed-width digits of a valid calendar day read back as that day. */
  lemma ParseCivilDigits(c: Civil)
    requires ValidCivil(c) && 0 <= c.year <= 9999
    ensures ParseDate(Digits(c.year, 4) + "-" + Digits(c.month, 2) + "-" + Digits(c.day, 2)) == Some(DaysFromCivil(c))
  {
    var s := Digits(c.year, 4) + "-" + Digits(c.month, 2) + "-" + Digits(c.day, 2);
    assert s[..4] == Digits(c.year, 4);
    assert s[5..7] == Digits(c.month, 2);
    assert s[8..] == Digits(c.day, 2);
    DigitsRoundTrip(c.year, 4);
    DigitsRoundTrip(c.month, 2);
    DigitsRoundTrip(c.day, 2);
  }

  /** A calendar day of a year in 0..9999, written out, reads back as itself. */
  lemma CivilTextRoundTrip(c: Civil)
    requires ValidCivil(c) && 0 <= c.year <= 9999
    ensures |CivilText(c)| == 10
    ensures ParseDate(CivilText(c)) == Some(DaysFromCivil(c))
  {
    ZeroFillRoundTrip(c.year, 4);
    ZeroFillRoundTrip(c.month, 2);
    ZeroFillRoundTrip(c.day, 2);
    ParseCivilDigits(c);
  }

  /** Whatever the year, `YYYY-MM-DD` is at least ten characters long. */
  lemma DateTextLen(t: int)
    ensures |DateText(t)| >= 10
  {
  }

  /** A rendered date of a year in 0..9999 reads back as the day it was rendered from. */
  lemma DateTextRoundTrip(t: int)
    requires 0 <= CivilFromDays(DayNumber(t)).year <= 9999
    ensures |DateText(t)| == 10
    ensures ParseDate(DateText(t)) == Some(DayNumber(t))
  {
    CivilRoundTrip(DayNumber(t));
    CivilTextRoundTrip(CivilFromDays(DayNumber(t)));
  }

  /** A time of day as `HH:mm:ss`. */
  function ClockText(sec: int): string {
    ZeroFill(sec / 3600, 2) + ":" + ZeroFill(sec / 60 % 60, 2) + ":" + ZeroFill(sec % 60, 2)
  }

  /** Fixed-width hours, minutes and seconds read back as the second of the day. */
  lemma ParseClockDigits(h: nat, m: nat, sec: nat)
    requires h < 24 && m < 60 && sec < 60
    ensures ParseTime(Digits(h, 2) + ":" + Digits(m, 2) + ":" + Digits(sec, 2)) == Some(ClockSeconds(h, m, sec))
  {
    var s := Digits(h, 2) + ":" + Digits(m, 2) + ":" + Digits(sec, 2);
    assert s[..2] == Digits(h, 2);
    assert s[3..5] == Digits(m, 2);
    assert s[6..] == Digits(sec, 2);
    DigitsRoundTrip(h, 2);
    DigitsRoundTrip(m, 2);
    DigitsRoundTrip(sec, 2);
    assert ParseDecimal(s[..2]) == h && ParseDecimal(s[3..5]) == m && ParseDecimal(s[6..]) == sec;
  }

  /** Hours, minutes and seconds recombine into the second of the day they came from. */
  lemma ClockSecondsSplit(sec: int)
    requires 0 <= sec < SecondsPerDay
    ensures sec / 3600 < 24 && sec / 60 % 60 < 60 && sec % 60 < 60
    ensures ClockSeconds(sec / 3600, sec / 60 % 60, sec % 60) == sec
  {
  }

  lemma ClockTextRoundTrip(sec: int)
    requires 0 <= sec < SecondsPerDay
    ensures |ClockText(sec)| == 8
    ensures ParseTime(ClockText(sec)) == Some(sec)
  {
    var h, m, s := sec / 3600, sec / 60 % 60, sec % 60;
    ZeroFillRoundTrip(h, 2);
    ZeroFillRoundTrip(m, 2);
    ZeroFillRoundTrip(s, 2);
    ParseClockDigits(h, m, s);
    ClockSecondsSplit(sec);
  }

  /** A rendered time is eight characters and reads back as the second of the
      day it was rendered from. */
  lemma TimeTextRoundTrip(t: int)
    ensures |TimeText(t)| == 8
    ensures ParseTime(TimeText(t)) == Some(SecondOfDay(t))
  {
    ClockTextRoundTrip(SecondOfDay(t));
  }

  /** Shifting by +7 hours moves the time of day forward by 25 200 seconds, modulo a day. */
  lemma ShiftedSecondOfDay(t: int)
    ensures SecondOfDay(t + SevenHours) == (SecondOfDay(t) + 25_200) % SecondsPerDay
  {
  }

  /** Shifting by +7 hours moves to the next day exactly when the time of day is 17:00 or later. */
  lemma ShiftedDayNumber(t: int)
    ensures DayNumber(t + SevenHours) == DayNumber(t) + (if SecondOfDay(t) >= 61_200 then 1 else 0)
  {
  }
}
