/**
 * Calendar values as the indicators use them: a `DateTime` is a calendar
 * date plus the ticks (100 ns units) elapsed since midnight, exactly the
 * pair that .NET exposes as `Date` and `TimeOfDay`. Comparisons are
 * lexicographic, which on well-formed values is the order of .NET ticks.
 * Time-zone conversion is not interpreted: it is a function value handed
 * in by the host.
 */
module Time {

  const TicksPerSecond: int := 10_000_000
  const TicksPerMinute: int := 600_000_000
  const TicksPerHour: int := 36_000_000_000
  const TicksPerDay: int := 864_000_000_000

  /** A duration in ticks (`TimeSpan`), e.g. a session time since midnight. */
  type TimeSpan = int

  datatype Date = Date(year: int, month: int, day: int)

  datatype DateTime = DateTime(date: Date, ticks: int)

  /** `DateTime.MinValue`: 0001-01-01 00:00:00. */
  const MinValue: DateTime := DateTime(Date(1, 1, 1), 0)

  /** Strict chronological order on dates. */
  predicate DateBefore(a: Date, b: Date) {
    a.year < b.year
    || (a.year == b.year && (a.month < b.month || (a.month == b.month && a.day < b.day)))
  }

  /** Strict chronological order on date-times (`a < b`). */
  predicate Before(a: DateTime, b: DateTime) {
    DateBefore(a.date, b.date) || (a.date == b.date && a.ticks < b.ticks)
  }

  /** `a <= b`. */
  predicate NotAfter(a: DateTime, b: DateTime) {
    !Before(b, a)
  }

  /** `DateTime.Date`: the same day at midnight. */
  function Midnight(t: DateTime): DateTime {
    DateTime(t.date, 0)
  }

  /**
   * Two instants have the same `.Date` exactly when they fall on the same
   * calendar day, and an instant of a day is never before that day's
   * midnight.
   */
  lemma SameBarDate(a: DateTime, b: DateTime)
    requires ValidDateTime(a)
    ensures Midnight(a) == Midnight(b) <==> a.date == b.date
    ensures NotAfter(Midnight(a), a)
  {
  }

  lemma DateOrderTotal(a: Date, b: Date)
    ensures DateBefore(a, b) || a == b || DateBefore(b, a)
    ensures !(DateBefore(a, b) && DateBefore(b, a))
    ensures !DateBefore(a, a)
  {
  }

  lemma DateBeforeTransitive(a: Date, b: Date, c: Date)
    requires DateBefore(a, b) && DateBefore(b, c)
    ensures DateBefore(a, c)
  {
  }

  lemma DateNotBeforeTransitive(a: Date, b: Date, c: Date)
    requires !DateBefore(a, b) && !DateBefore(b, c)
    ensures !DateBefore(a, c)
  {
  }

  lemma NotAfterTransitive(a: DateTime, b: DateTime, c: DateTime)
    requires NotAfter(a, b) && NotAfter(b, c)
    ensures NotAfter(a, c)
  {
  }

  // ---------------------------------------------------------------------
  // The proleptic Gregorian calendar of .NET

  predicate IsLeapYear(y: int) {
    y % 4 == 0 && (y % 100 != 0 || y % 400 == 0)
  }

  function DaysInMonth(y: int, m: int): int
    requires 1 <= m <= 12
  {
    if m == 2 then (if IsLeapYear(y) then 29 else 28)
    else if m == 4 || m == 6 || m == 9 || m == 11 then 30
    else 31
  }

  /** A date `DateTime` can hold: years 1 to 9999, real months and days. */
  predicate ValidDate(d: Date) {
    1 <= d.year <= 9999 && 1 <= d.month <= 12 && 1 <= d.day <= DaysInMonth(d.year, d.month)
  }

  predicate ValidDateTime(t: DateTime) {
    ValidDate(t.date) && 0 <= t.ticks < TicksPerDay
  }

  function DaysBeforeMonth(y: int, m: int): int
    requires 1 <= m <= 12
    decreases m
  {
    if m == 1 then 0 else DaysBeforeMonth(y, m - 1) + DaysInMonth(y, m - 1)
  }

  /** Days from 0001-01-01 to `d`. */
  function DayNumber(d: Date): int
    requires 1 <= d.month <= 12
  {
    var y := d.year - 1;
    y * 365 + y / 4 - y / 100 + y / 400 + DaysBeforeMonth(d.year, d.month) + d.day - 1
  }

  /** The `Ticks` of a date-time, used to measure elapsed time. */
  function TicksOf(t: DateTime): int
    requires 1 <= t.date.month <= 12
  {
    DayNumber(t.date) * TicksPerDay + t.ticks
  }

  /** `(now - since).TotalHours >= 1`. */
  predicate HourElapsed(now: DateTime, since: DateTime)
    requires 1 <= now.date.month <= 12 && 1 <= since.date.month <= 12
  {
    TicksOf(now) - TicksOf(since) >= TicksPerHour
  }

  /** The day count agrees with .NET's: 1970-01-01 is day 719162, and 2024 is a leap year. */
  lemma DayNumberExamples()
    ensures DayNumber(Date(1, 1, 1)) == 0
    ensures DayNumber(Date(1970, 1, 1)) == 719162
    ensures DayNumber(Date(2024, 3, 1)) - DayNumber(Date(2024, 2, 28)) == 2
  {
  }

  // ---------------------------------------------------------------------
  // Fixed-width decimal fields, as in the format strings "yyyyMMdd" and "HH"

  function Pow10(w: nat): (p: nat)
    ensures p >= 1
  {
    if w == 0 then 1 else 10 * Pow10(w - 1)
  }

  function DigitChar(n: int): char
    requires 0 <= n < 10
  {
    ('0' as int + n) as char
  }

  predicate IsDigit(c: char) {
    '0' <= c <= '9'
  }

  function DigitValue(c: char): int
    requires IsDigit(c)
  {
    c as int - '0' as int
  }

  /** The last `w` decimal digits of `n`, zero-padded. */
  function Pad(n: int, w: nat): (s: string)
    ensures |s| == w
    ensures forall i :: 0 <= i < |s| ==> IsDigit(s[i])
    decreases w
  {
    if w == 0 then [] else Pad(n / 10, w - 1) + [DigitChar(n % 10)]
  }

  /** The number a string of decimal digits denotes. */
  function DigitsValue(s: string): nat
    requires forall i :: 0 <= i < |s| ==> IsDigit(s[i])
  {
    if s == [] then 0 else DigitsValue(s[..|s| - 1]) * 10 + DigitValue(s[|s| - 1])
  }

  /** Reading back a padded field gives the number, when it fits. */
  lemma {:induction false} PadRoundTrip(n: int, w: nat)
    requires 0 <= n < Pow10(w)
    ensures DigitsValue(Pad(n, w)) == n
  {
    if w > 0 {
      var s := Pad(n, w);
      PadRoundTrip(n / 10, w - 1);
      assert s[..|s| - 1] == Pad(n / 10, w - 1);
    }
  }

  lemma PadInjective(a: int, b: int, w: nat)
    requires 0 <= a < Pow10(w) && 0 <= b < Pow10(w)
    requires Pad(a, w) == Pad(b, w)
    ensures a == b
  {
    PadRoundTrip(a, w);
    PadRoundTrip(b, w);
  }

  /** The format "yyyyMMdd". */
  function DateStamp(d: Date): (s: string)
    ensures |s| == 8 && forall i :: 0 <= i < 8 ==> IsDigit(s[i])
  {
    Pad(d.year, 4) + Pad(d.month, 2) + Pad(d.day, 2)
  }

  /** Distinct valid dates have distinct stamps. */
  lemma DateStampInjective(a: Date, b: Date)
    requires ValidDate(a) && ValidDate(b)
    requires DateStamp(a) == DateStamp(b)
    ensures a == b
  {
    var sa, sb := DateStamp(a), DateStamp(b);
    assert sa[..4] == Pad(a.year, 4) && sb[..4] == Pad(b.year, 4);
    assert sa[4..6] == Pad(a.month, 2) && sb[4..6] == Pad(b.month, 2);
    assert sa[6..] == Pad(a.day, 2) && sb[6..] == Pad(b.day, 2);
    assert Pow10(4) == 10000 && Pow10(2) == 100;
    PadInjective(a.year, b.year, 4);
    PadInjective(a.month, b.month, 2);
    PadInjective(a.day, b.day, 2);
  }

  // ---------------------------------------------------------------------
  // Time zones

  type ZoneId = string

  /**
   * `ConvertTimeFromUtc(ConvertTimeToUtc(date.Add(time), from), to)`: the
   * wall-clock moment `time` after midnight of `date` in zone `from`, as a
   * date-time in zone `to`. Left uninterpreted, including its daylight
   * saving rules.
   */
  type Converter = (Date, TimeSpan, ZoneId, ZoneId) -> DateTime

  /**
   * The `FindSystemTimeZoneById` calls of a `Configure` step: every
   * requested zone is used when all are known, otherwise the fixed default
   * list replaces them all (the catch block). `Configure` in
   * `CashSession` and in `SessionOpenLines` resolves its zones with it.
   */
  function ResolveZones(requested: seq<ZoneId>, known: set<ZoneId>, defaults: seq<ZoneId>): (r: seq<ZoneId>)
    requires |defaults| == |requested|
    ensures |r| == |requested|
    ensures r == requested <==> (requested == defaults || forall i :: 0 <= i < |requested| ==> requested[i] in known)
    ensures r != requested ==> r == defaults
  {
    if forall i :: 0 <= i < |requested| ==> requested[i] in known then requested else defaults
  }
}
