/** Timestamps as calendar dates: the closed-form date-from-days computation against day
 *  counting by the Gregorian leap rule (Appendix C of RFC 3339) and month lengths
 *  (section 5.7 of RFC 3339).
 */
module CivilDate {
  import opened Prelude

  datatype Date = Date(year: int, month: int, day: int)

  /** What is shown: a date and a time of day to the minute, in UTC. */
  datatype Shown = Shown(date: Date, hour: int, minute: int)

  // ---------------------------------------------------------------- counting days

  predicate IsLeap(year: int) {
    year % 4 == 0 && (year % 100 != 0 || year % 400 == 0)
  }

  function YearLength(year: int): int {
    if IsLeap(year) then 366 else 365
  }

  function MonthLength(year: int, month: int): int {
    if month == 2 then (if IsLeap(year) then 29 else 28)
    else if month == 4 || month == 6 || month == 9 || month == 11 then 30
    else 31
  }

  predicate ValidDate(d: Date) {
    d.year >= 1970 && 1 <= d.month <= 12 && 1 <= d.day <= MonthLength(d.year, d.month)
  }

  predicate ValidShown(s: Shown) {
    ValidDate(s.date) && 0 <= s.hour < 24 && 0 <= s.minute < 60
  }

  /** The days from 1 January 1970 to 1 January of `year`. */
  function DaysBeforeYear(year: int): int
    decreases year
  {
    if year <= 1970 then 0 else DaysBeforeYear(year - 1) + YearLength(year - 1)
  }

  function DaysBeforeMonth(year: int, month: int): int
    decreases month
  {
    if month <= 1 then 0 else DaysBeforeMonth(year, month - 1) + MonthLength(year, month - 1)
  }

  /** The forward day count: days since the Unix epoch. */
  function DayCount(d: Date): int {
    DaysBeforeYear(d.year) + DaysBeforeMonth(d.year, d.month) + d.day - 1
  }

  function MinuteCount(s: Shown): int {
    (DayCount(s.date) * 24 + s.hour) * 60 + s.minute
  }

  // ---------------------------------------------------------------- the computation

  /** The year of the 400-year era that day `doe` of it falls in, counted from March. */
  function YearOfEra(doe: int): int {
    (doe - doe / 1460 + doe / 36524 - doe / 146096) / 365
  }

  /** The days of an era before its year `yoe`. */
  function DaysBeforeYearOfEra(yoe: int): int {
    365 * yoe + yoe / 4 - yoe / 100
  }

  /** Day `doy` of the year that starts on 1 March of `year`. */
  function FromMarch(year: int, doy: int): Date {
    var mp := (5 * doy + 2) / 153;
    var day := doy - (153 * mp + 2) / 5 + 1;
    var month := if mp < 10 then mp + 3 else mp - 9;
    Date(if month <= 2 then year + 1 else year, month, day)
  }

  function CivilFromDays(days: int): Date {
    var z := days + 719468;
    var era := (if z >= 0 then z else z - 146096) / 146097;
    var doe := z - era * 146097;
    var yoe := YearOfEra(doe);
    FromMarch(yoe + era * 400, doe - DaysBeforeYearOfEra(yoe))
  }

  /** A timestamp in seconds, or in milliseconds when it is too large to be seconds. */
  function Seconds(epoch: int): int {
    if epoch > 1_000_000_000_000 then epoch / 1000 else epoch
  }

  /** What is shown for a timestamp; nothing for one at or before the epoch. */
  function FormatTimestamp(epoch: int): Option<Shown> {
    if epoch <= 0 then None
    else
      var secs := Seconds(epoch);
      var rem := secs % 86400;
      Some(Shown(CivilFromDays(secs / 86400), rem / 3600, rem % 3600 / 60))
  }

  // ---------------------------------------------------------------- years

  /** Leap years up to and including `year`. */
  function LeapsThrough(year: int): int {
    year / 4 - year / 100 + year / 400
  }

  lemma TimesAtMost(a: int, b: int, d: int)
    requires a <= b && d > 0
    ensures a * d <= b * d
  {
  }

  /** The quotient is the multiple that fits. */
  lemma QuotientIs(n: int, d: int, k: int)
    requires d > 0 && k * d <= n < k * d + d
    ensures n / d == k && n % d == n - k * d
  {
    var q := n / d;
    assert n == q * d + n % d;
    if q < k {
      TimesAtMost(q + 1, k, d);
    } else if q > k {
      TimesAtMost(k + 1, q, d);
    }
  }

  lemma LeapCounted(year: int)
    ensures LeapsThrough(year) - LeapsThrough(year - 1) == if IsLeap(year) then 1 else 0
  {
    QuotientSteps(year, 4);
    QuotientSteps(year, 100);
    QuotientSteps(year, 400);
    Cycles(year);
  }

  lemma QuotientSteps(n: int, d: int)
    requires d > 0
    ensures n / d - (n - 1) / d == if n % d == 0 then 1 else 0
  {
    var q := n / d;
    assert n == q * d + n % d;
    QuotientIs(n - 1, d, if n % d == 0 then q - 1 else q);
  }

  lemma Cycles(year: int)
    ensures year % 400 == 0 ==> year % 100 == 0
    ensures year % 100 == 0 ==> year % 4 == 0
  {
  }

  lemma {:induction false} DaysBeforeYearClosed(year: int)
    requires year >= 1970
    ensures DaysBeforeYear(year) == 365 * (year - 1970) + LeapsThrough(year - 1) - LeapsThrough(1969)
    decreases year
  {
    if year > 1970 {
      DaysBeforeYearClosed(year - 1);
      LeapCounted(year - 1);
    }
  }

  /** Day `doe` of an era by century, four-year cycle, year of the cycle and day of the year. */
  lemma YearOfEraOf(c: int, q: int, y: int, doy: int, doe: int)
    requires 0 <= c < 4 && 0 <= q < 25 && 0 <= y < 4
    requires 0 <= doy < 365 || (doy == 365 && y == 3 && (q < 24 || c == 3))
    requires doe == 36524 * c + 1461 * q + 365 * y + doy
    ensures YearOfEra(doe) == 100 * c + 4 * q + y
  {
    var s := 365 * y + doy;
    var e := if 24 * c + q + s < 1460 then 0 else 1;
    QuotientIs(doe, 1460, 25 * c + q + e);
    if doe == 146096 {
      assert doe / 36524 == 4 && doe / 146096 == 1;
    } else {
      QuotientIs(doe, 36524, c);
      QuotientIs(doe, 146096, 0);
    }
    QuotientIs(36500 * c + 1460 * q + s - e, 365, 100 * c + 4 * q + y);
  }

  lemma DaysBeforeYearOfEraOf(c: int, q: int, y: int)
    requires 0 <= c < 4 && 0 <= q < 25 && 0 <= y < 4
    ensures DaysBeforeYearOfEra(100 * c + 4 * q + y) == 36524 * c + 1461 * q + 365 * y
  {
    QuotientIs(100 * c + 4 * q + y, 4, 25 * c + q);
    QuotientIs(100 * c + 4 * q + y, 100, c);
  }

  /** A day of an era by century, four-year cycle, year of the cycle and day of the year. */
  datatype EraDay = EraDay(century: int, cycle: int, year: int, doy: int)

  predicate ValidEraDay(e: EraDay) {
    && 0 <= e.century < 4 && 0 <= e.cycle < 25 && 0 <= e.year < 4
    && (0 <= e.doy < 365 || (e.doy == 365 && e.year == 3 && (e.cycle < 24 || e.century == 3)))
  }

  function Split(doe: int): EraDay {
    var c := if doe == 146096 then 3 else doe / 36524;
    var r := doe - 36524 * c;
    var s := r - 1461 * (r / 1461);
    var y := if s == 1460 then 3 else s / 365;
    EraDay(c, r / 1461, y, s - 365 * y)
  }

  lemma SplitIsExact(doe: int)
    requires 0 <= doe < 146097
    ensures
      var e := Split(doe);
      ValidEraDay(e) && doe == 36524 * e.century + 1461 * e.cycle + 365 * e.year + e.doy
  {
  }

  /** The year and day of the year that the computation finds for day `doe` of an era. */
  lemma EraYear(doe: int)
    requires 0 <= doe < 146097
    ensures
      var e, yoe := Split(doe), YearOfEra(doe);
      && ValidEraDay(e)
      && yoe == 100 * e.century + 4 * e.cycle + e.year
      && doe - DaysBeforeYearOfEra(yoe) == e.doy
  {
    SplitIsExact(doe);
    var e := Split(doe);
    hide Split;
    YearOfEraOf(e.century, e.cycle, e.year, e.doy, doe);
    DaysBeforeYearOfEraOf(e.century, e.cycle, e.year);
  }

  // ---------------------------------------------------------------- months

  /** Days from 1 March to the month `mp` months later. */
  function DaysFromMarch(mp: int): int {
    (153 * mp + 2) / 5
  }

  lemma MonthsFromMarch(year: int, mp: int)
    requires 0 <= mp < 10
    ensures DaysBeforeMonth(year, mp + 3) == DaysBeforeMonth(year, 3) + DaysFromMarch(mp)
    ensures DaysFromMarch(mp + 1) - DaysFromMarch(mp) == MonthLength(year, mp + 3)
  {
    assert DaysBeforeMonth(year, mp + 3) ==
      if mp == 0 then DaysBeforeMonth(year, 3)
      else DaysBeforeMonth(year, mp + 2) + MonthLength(year, mp + 2);
    if mp > 0 {
      MonthsFromMarch(year, mp - 1);
    }
  }

  /** The month index is the one whose days contain `doy`. */
  lemma MonthIndex(doy: int)
    requires 0 <= doy <= 365
    ensures
      var mp := (5 * doy + 2) / 153;
      0 <= mp < 12 && DaysFromMarch(mp) <= doy && (mp < 11 ==> doy < DaysFromMarch(mp + 1))
  {
  }

  /** 1 March, counted from the epoch, of year `yoe` of an era. */
  lemma MarchFirst(era: int, yoe: int)
    requires 0 <= yoe < 400 && 400 * era + yoe >= 1969
    ensures
      var year, march := 400 * era + yoe, 146097 * era + DaysBeforeYearOfEra(yoe) - 719468;
      && (year >= 1970 ==> DaysBeforeYear(year) + DaysBeforeMonth(year, 3) == march)
      && DaysBeforeYear(year + 1) == march + 306
  {
    var year := 400 * era + yoe;
    DaysBeforeYearClosed(year + 1);
    QuotientIs(year, 400, era);
    assert year / 4 == 100 * era + yoe / 4 && year / 100 == 4 * era + yoe / 100;
    if year >= 1970 {
      assert DaysBeforeMonth(year, 3) == DaysBeforeMonth(year, 2) + MonthLength(year, 2);
    }
  }

  // ---------------------------------------------------------------- the inverse

  /** The last day of February is reached only in a leap year. */
  lemma LeapFebruary(era: int, e: EraDay)
    requires ValidEraDay(e) && e.doy == 365
    ensures IsLeap(400 * era + 100 * e.century + 4 * e.cycle + e.year + 1)
  {
    var year := 400 * era + 100 * e.century + 4 * e.cycle + 4;
    QuotientIs(year, 4, 100 * era + 25 * e.century + e.cycle + 1);
    if e.cycle < 24 {
      QuotientIs(year, 100, 4 * era + e.century);
    } else {
      QuotientIs(year, 400, era + 1);
    }
  }

  /** A day on or after the epoch falls in March-based year 1969 or later, and in 1969 only from January on. */
  lemma EpochOrLater(days: int)
    requires days >= 0
    ensures
      var era, doe := (days + 719468) / 146097, (days + 719468) % 146097;
      && 400 * era + YearOfEra(doe) >= 1969
      && (400 * era + YearOfEra(doe) == 1969 ==> doe - DaysBeforeYearOfEra(YearOfEra(doe)) >= 306)
  {
    var era, doe := (days + 719468) / 146097, (days + 719468) % 146097;
    assert era >= 4 && (era == 4 ==> doe >= 135080);
    EraYear(doe);
  }

  lemma FromMarchIsExact(year: int, doy: int, march: int)
    requires 0 <= doy <= 365 && (doy == 365 ==> IsLeap(year + 1))
    requires year >= 1969 && (year == 1969 ==> doy >= 306)
    requires year >= 1970 ==> DaysBeforeYear(year) + DaysBeforeMonth(year, 3) == march
    requires DaysBeforeYear(year + 1) == march + 306
    ensures ValidDate(FromMarch(year, doy)) && DayCount(FromMarch(year, doy)) == march + doy
  {
    MonthIndex(doy);
    hide IsLeap, DaysBeforeYear;
    var mp := (5 * doy + 2) / 153;
    if mp < 10 {
      MonthsFromMarch(year, mp);
    } else {
      assert DaysFromMarch(10) == 306 && DaysFromMarch(11) == 337;
      assert DaysBeforeMonth(year + 1, 2) == DaysBeforeMonth(year + 1, 1) + 31 && DaysBeforeMonth(year + 1, 1) == 0;
    }
  }

  /** The computed date is a real one, and counting forward from the epoch gives the day back. */
  lemma CivilFromDaysIsInverse(days: int)
    requires days >= 0
    ensures ValidDate(CivilFromDays(days)) && DayCount(CivilFromDays(days)) == days
  {
    hide YearOfEra, DaysBeforeYearOfEra, Split, FromMarch, DayCount, ValidDate, IsLeap, DaysBeforeYear, DaysBeforeMonth;
    var z := days + 719468;
    var era, doe := z / 146097, z % 146097;
    var e, yoe := Split(doe), YearOfEra(doe);
    EraYear(doe);
    EpochOrLater(days);
    MarchFirst(era, yoe);
    if e.doy == 365 {
      LeapFebruary(era, e);
    }
    FromMarchIsExact(400 * era + yoe, e.doy, 146097 * era + DaysBeforeYearOfEra(yoe) - 719468);
  }

  // ---------------------------------------------------------------- order and uniqueness

  predicate Earlier(a: Date, b: Date) {
    a.year < b.year || (a.year == b.year && (a.month < b.month || (a.month == b.month && a.day < b.day)))
  }

  predicate ShownEarlier(a: Shown, b: Shown) {
    Earlier(a.date, b.date) || (a.date == b.date && (a.hour < b.hour || (a.hour == b.hour && a.minute < b.minute)))
  }

  lemma {:induction false} LaterYear(a: int, b: int)
    requires 1970 <= a < b
    ensures DaysBeforeYear(a) + YearLength(a) <= DaysBeforeYear(b)
    decreases b
  {
    if a < b - 1 {
      LaterYear(a, b - 1);
    }
  }

  lemma {:induction false} LaterMonth(year: int, a: int, b: int)
    requires 1 <= a < b
    ensures DaysBeforeMonth(year, a) + MonthLength(year, a) <= DaysBeforeMonth(year, b)
    decreases b
  {
    if a < b - 1 {
      LaterMonth(year, a, b - 1);
    }
  }

  lemma DayWithinYear(d: Date)
    requires ValidDate(d)
    ensures 0 <= DaysBeforeMonth(d.year, d.month) + d.day - 1 < YearLength(d.year)
  {
    if d.month > 1 {
      LaterMonth(d.year, 1, d.month);
    }
    if d.month < 12 {
      LaterMonth(d.year, d.month, 12);
    }
    MonthsFromMarch(d.year, 9);
    assert DaysBeforeMonth(d.year, 3) == DaysBeforeMonth(d.year, 2) + MonthLength(d.year, 2);
  }

  /** Day counting keeps the order of real dates, so it tells them apart. */
  lemma CountKeepsOrder(a: Date, b: Date)
    requires ValidDate(a) && ValidDate(b)
    ensures DayCount(a) < DayCount(b) <==> Earlier(a, b)
    ensures DayCount(a) == DayCount(b) <==> a == b
  {
    hide IsLeap, MonthLength, YearLength;
    EarlierCountsLess(a, b);
    EarlierCountsLess(b, a);
  }

  lemma EarlierCountsLess(a: Date, b: Date)
    requires ValidDate(a) && ValidDate(b)
    ensures Earlier(a, b) ==> DayCount(a) < DayCount(b)
  {
    hide YearLength, IsLeap;
    DayWithinYear(a);
    DayWithinYear(b);
    if a.year < b.year {
      LaterYear(a.year, b.year);
    } else if a.year == b.year && a.month < b.month {
      LaterMonth(a.year, a.month, b.month);
    }
  }

  /** For every timestamp after the epoch, what is shown is the one real date and time whose
   *  forward count is that minute. */
  lemma ShownIsTheMinute(epoch: int, other: Shown)
    requires epoch > 0
    ensures
      var shown := FormatTimestamp(epoch).value;
      && ValidShown(shown) && MinuteCount(shown) == Seconds(epoch) / 60
      && (ValidShown(other) && MinuteCount(other) == Seconds(epoch) / 60 ==> other == shown)
  {
    var secs := Seconds(epoch);
    var days := secs / 86400;
    CivilFromDaysIsInverse(days);
    var shown := FormatTimestamp(epoch).value;
    hide CivilFromDays, DayCount, ValidDate;
    QuotientIs(secs, 60, (days * 24 + shown.hour) * 60 + shown.minute);
    if ValidShown(other) && MinuteCount(other) == Seconds(epoch) / 60 {
      assert DayCount(other.date) == days;
      CountKeepsOrder(other.date, shown.date);
    }
  }

  /** Which minute that is: up to the limit the number counts seconds, and above it milliseconds. */
  lemma ShownMinute(epoch: int)
    requires epoch > 0
    ensures MinuteCount(FormatTimestamp(epoch).value)
         == if epoch <= 1_000_000_000_000 then epoch / 60 else epoch / 60_000
  {
    ShownIsTheMinute(epoch, FormatTimestamp(epoch).value);
    hide FormatTimestamp, MinuteCount;
    if epoch > 1_000_000_000_000 {
      var secs := epoch / 1000;
      var minute := secs / 60;
      assert epoch == 1000 * secs + epoch % 1000 && secs == 60 * minute + secs % 60;
      QuotientIs(epoch, 60_000, minute);
    }
  }

  /** A timestamp shows earlier than another exactly when it is in an earlier minute, as seconds. */
  lemma ShownInOrder(a: int, b: int)
    requires a > 0 && b > 0
    ensures ShownEarlier(FormatTimestamp(a).value, FormatTimestamp(b).value) <==> Seconds(a) / 60 < Seconds(b) / 60
  {
    hide CivilFromDays, DayCount, Seconds;
    var x, y := FormatTimestamp(a).value, FormatTimestamp(b).value;
    ShownIsTheMinute(a, x);
    ShownIsTheMinute(b, y);
    CountKeepsOrder(x.date, y.date);
  }

  /** Larger numbers do not always show later: past the limit they are read as milliseconds. */
  lemma MillisecondsBreakOrder()
    ensures 1_000_000_000_000 < 1_000_000_000_001
    ensures ShownEarlier(FormatTimestamp(1_000_000_000_001).value, FormatTimestamp(1_000_000_000_000).value)
  {
    ShownInOrder(1_000_000_000_001, 1_000_000_000_000);
  }

  /** As numbers, two timestamps show in order whenever both are on the same side of the limit. */
  lemma SameUnitInOrder(a: int, b: int)
    requires 0 < a <= b && (a > 1_000_000_000_000 <==> b > 1_000_000_000_000)
    ensures !ShownEarlier(FormatTimestamp(b).value, FormatTimestamp(a).value)
  {
    ShownInOrder(b, a);
  }
}
