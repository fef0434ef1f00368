/** The calendar arithmetic of `_period_bucket` in app/services/quota_service.py. */
module QuotaPeriods {
  import opened Prelude
  import opened Text

  datatype Period = Daily | Monthly | FixedWindow

  const SECOND := 1_000_000
  const DAY := 86_400 * SECOND
  const GRACE := 60
  const MAX_YEAR := 9999

  /** An aware UTC datetime, with the dates that do not exist; `micros` counts from midnight. */
  datatype CivilTime = CivilTime(year: int, month: int, day: int, micros: int) {
    predicate Valid() {
      && 1 <= year <= MAX_YEAR
      && 1 <= month <= 12
      && 1 <= day <= DaysInMonth(year, month)
      && 0 <= micros < DAY
    }

    /** Microseconds since the (fictitious) day 0 of the proleptic Gregorian calendar. */
    function Instant(): int
      requires 1 <= month <= 12
    {
      Ordinal(year, month, day) * DAY + micros
    }
  }

  /** Python only ever builds valid ones. */
  type DateTime = t: CivilTime | t.Valid() witness CivilTime(1970, 1, 1, 0)

  predicate IsLeap(y: int) {
    y % 4 == 0 && (y % 100 != 0 || y % 400 == 0)
  }

  function DaysInMonth(y: int, m: int): (d: int)
    requires 1 <= m <= 12
    ensures 28 <= d <= 31
  {
    if m == 2 then (if IsLeap(y) then 29 else 28)
    else if m == 4 || m == 6 || m == 9 || m == 11 then 30 else 31
  }

  function DaysInYear(y: int): int {
    if IsLeap(y) then 366 else 365
  }

  function DaysBeforeYear(y: int): int
    decreases y
  {
    if y <= 1 then 0 else DaysBeforeYear(y - 1) + DaysInYear(y - 1)
  }

  function DaysBeforeMonth(y: int, m: int): int
    requires 1 <= m <= 12
    decreases m
  {
    if m == 1 then 0 else DaysBeforeMonth(y, m - 1) + DaysInMonth(y, m - 1)
  }

  function Ordinal(y: int, m: int, d: int): int
    requires 1 <= m <= 12
  {
    DaysBeforeYear(y) + DaysBeforeMonth(y, m) + d
  }

  /** now + timedelta(days=1), then midnight; None is datetime's OverflowError. */
  function EndOfDay(now: DateTime): (r: Option<DateTime>)
  {
    if now.day < DaysInMonth(now.year, now.month) then Some(CivilTime(now.year, now.month, now.day + 1, 0))
    else if now.month < 12 then Some(CivilTime(now.year, now.month + 1, 1, 0))
    else if now.year < MAX_YEAR then Some(CivilTime(now.year + 1, 1, 1, 0))
    else None
  }

  /** The `replace` calls of the monthly branch; None is datetime's ValueError for year 10000. */
  function NextMonth(now: DateTime): (r: Option<DateTime>)
  {
    if now.month == 12 then
      (if now.year < MAX_YEAR then Some(CivilTime(now.year + 1, 1, 1, 0)) else None)
    else Some(CivilTime(now.year, now.month + 1, 1, 0))
  }

  /** int(seconds) of a non-negative difference, plus the grace, floored at the grace. */
  function TtlUntil(end: DateTime, now: DateTime): int
  {
    var ttl := (end.Instant() - now.Instant()) / SECOND + GRACE;
    if ttl < GRACE then GRACE else ttl
  }

  const EPOCH := Ordinal(1970, 1, 1) * DAY

  /** `window_seconds or 3600`. */
  function WindowSeconds(window: Option<nat>): (w: nat)
    ensures w > 0
    ensures window == None || window == Some(0) ==> w == 3600
    ensures w == 3600 || window == Some(w)
  {
    if window.Some? && window.value != 0 then window.value else 3600
  }

  function WindowIndex(window: Option<nat>, now: DateTime): int
  {
    (now.Instant() - EPOCH) / (WindowSeconds(window) * SECOND)
  }

  datatype Bucket = Bucket(lbl: string, ttl: int)

  /** `_period_bucket`; None where the code raises at the end of the year 9999. */
  function PeriodBucket(period: Period, window: Option<nat>, now: DateTime): Option<Bucket>
  {
    match period
    case Daily =>
      var end := EndOfDay(now);
      if end.None? then None
      else Some(Bucket(MonthLabel(now) + "-" + TwoDigits(now.day), TtlUntil(end.value, now)))
    case Monthly =>
      var next := NextMonth(now);
      if next.None? then None else Some(Bucket(MonthLabel(now), TtlUntil(next.value, now)))
    case FixedWindow =>
      Some(Bucket(IntText(WindowIndex(window, now)), WindowSeconds(window) + GRACE))
  }

  function MonthLabel(now: DateTime): string
  {
    Decimal(now.year) + "-" + TwoDigits(now.month)
  }

  // ---------------------------------------------------------------------------------------------
  // What a bucket is, independently of its label
  // ---------------------------------------------------------------------------------------------

  /** First instant of the day, month or window that `now` lies in. */
  function PeriodStart(period: Period, window: Option<nat>, now: DateTime): int
  {
    match period
    case Daily => Ordinal(now.year, now.month, now.day) * DAY
    case Monthly => Ordinal(now.year, now.month, 1) * DAY
    case FixedWindow => EPOCH + WindowIndex(window, now) * (WindowSeconds(window) * SECOND)
  }

  /** Microseconds in that day, month or window. */
  function PeriodLength(period: Period, window: Option<nat>, now: DateTime): int
  {
    match period
    case Daily => DAY
    case Monthly => DaysInMonth(now.year, now.month) * DAY
    case FixedWindow => WindowSeconds(window) * SECOND
  }

  function PeriodEnd(period: Period, window: Option<nat>, now: DateTime): int
  {
    PeriodStart(period, window, now) + PeriodLength(period, window, now)
  }

  /** The years before y, leap years and all. */
  lemma {:induction false} YearsInClosedForm(y: int)
    requires y >= 1
    ensures DaysBeforeYear(y) == 365 * (y - 1) + (y - 1) / 4 - (y - 1) / 100 + (y - 1) / 400
    decreases y
  {
    if y > 1 {
      YearsInClosedForm(y - 1);
      LeapDay(y - 1);
    }
  }

  /** A leap day is what the three quotients grow by. */
  lemma LeapDay(y: int)
    requires y >= 1
    ensures y / 4 - y / 100 + y / 400
         == (y - 1) / 4 - (y - 1) / 100 + (y - 1) / 400 + if IsLeap(y) then 1 else 0
  {
    QuotientStep(y, 4);
    QuotientStep(y, 100);
    QuotientStep(y, 400);
    Divisors(y);
  }

  lemma Divisors(y: int)
    ensures y % 400 == 0 ==> y % 100 == 0
    ensures y % 100 == 0 ==> y % 4 == 0
  {
    assert y == 400 * (y / 400) + y % 400;
    assert y == 100 * (y / 100) + y % 100;
    MultipleOf(y, 4 * (y / 400), 100);
    MultipleOf(y, 25 * (y / 100), 4);
  }

  lemma MultipleOf(y: int, q: int, k: int)
    requires k > 0
    ensures y == k * q ==> y % k == 0
  {
    if y == k * q {
      FloorUnique(y, k, q);
    }
  }

  lemma QuotientStep(y: int, k: int)
    requires y >= 1 && k in {4, 100, 400}
    ensures y / k == (y - 1) / k + if y % k == 0 then 1 else 0
  {
  }

  /** The months before each month, in a common and in a leap year. */
  lemma MonthTable(y: int)
    ensures var leap := if IsLeap(y) then 1 else 0;
      && DaysBeforeMonth(y, 2) == 31 && DaysBeforeMonth(y, 3) == 59 + leap && DaysBeforeMonth(y, 4) == 90 + leap
      && DaysBeforeMonth(y, 5) == 120 + leap && DaysBeforeMonth(y, 6) == 151 + leap
      && DaysBeforeMonth(y, 7) == 181 + leap && DaysBeforeMonth(y, 8) == 212 + leap
      && DaysBeforeMonth(y, 9) == 243 + leap && DaysBeforeMonth(y, 10) == 273 + leap
      && DaysBeforeMonth(y, 11) == 304 + leap && DaysBeforeMonth(y, 12) == 334 + leap
  {
    assert DaysBeforeMonth(y, 3) == 31 + DaysInMonth(y, 2);
    assert DaysBeforeMonth(y, 5) == DaysBeforeMonth(y, 3) + 61;
    assert DaysBeforeMonth(y, 7) == DaysBeforeMonth(y, 5) + 61;
    assert DaysBeforeMonth(y, 9) == DaysBeforeMonth(y, 7) + 62;
    assert DaysBeforeMonth(y, 11) == DaysBeforeMonth(y, 9) + 61;
  }

  /** Windows are counted from 1970, which is day 719163 of the calendar. */
  lemma WindowsCountFromTheEpoch(window: Option<nat>, now: DateTime)
    ensures EPOCH == 719_163 * 86_400 * 1_000_000
    ensures var w := WindowSeconds(window) * 1_000_000;
      && WindowIndex(window, now) == (now.Instant() - 719_163 * 86_400 * 1_000_000) / w
      && PeriodStart(FixedWindow, window, now) == EPOCH + WindowIndex(window, now) * w
      && PeriodEnd(FixedWindow, window, now) == EPOCH + WindowIndex(window, now) * w + w
  {
    YearsInClosedForm(1970);
  }

  /** The days before December and December itself make the year. */
  lemma MonthsMakeTheYear(y: int)
    ensures DaysBeforeMonth(y, 12) + 31 == DaysInYear(y)
  {
    assert DaysBeforeMonth(y, 3) == 31 + DaysInMonth(y, 2);
    assert DaysBeforeMonth(y, 6) == DaysBeforeMonth(y, 3) + 92;
    assert DaysBeforeMonth(y, 9) == DaysBeforeMonth(y, 6) + 92;
    assert DaysBeforeMonth(y, 12) == DaysBeforeMonth(y, 9) + 91;
  }

  lemma {:induction false} LaterMonth(y: int, m: int, n: int)
    requires 1 <= m < n <= 12
    ensures DaysBeforeMonth(y, m) + DaysInMonth(y, m) <= DaysBeforeMonth(y, n)
    decreases n
  {
    if m < n - 1 {
      LaterMonth(y, m, n - 1);
    }
  }

  lemma {:induction false} LaterYear(y: int, z: int)
    requires 1 <= y < z
    ensures DaysBeforeYear(y) + DaysInYear(y) <= DaysBeforeYear(z)
    decreases z
  {
    if y + 1 < z {
      LaterYear(y, z - 1);
    }
  }

  /** A later month of the calendar starts after an earlier one has ended. */
  lemma MonthsDoNotOverlap(a: DateTime, b: DateTime)
    requires a.year < b.year || (a.year == b.year && a.month < b.month)
    ensures Ordinal(a.year, a.month, 1) + DaysInMonth(a.year, a.month) <= Ordinal(b.year, b.month, 1)
  {
    if a.year == b.year {
      LaterMonth(a.year, a.month, b.month);
    } else {
      LaterYear(a.year, b.year);
      MonthsMakeTheYear(a.year);
      if a.month < 12 {
        LaterMonth(a.year, a.month, 12);
      }
      if b.month > 1 {
        LaterMonth(b.year, 1, b.month);
      }
    }
  }

  /** The calendar numbers its days: distinct dates are distinct days. */
  lemma OrdinalsAreDistinct(a: DateTime, b: DateTime)
    ensures Ordinal(a.year, a.month, a.day) == Ordinal(b.year, b.month, b.day)
       <==> a.year == b.year && a.month == b.month && a.day == b.day
  {
    if a.year < b.year || (a.year == b.year && a.month < b.month) {
      MonthsDoNotOverlap(a, b);
    } else if a.year != b.year || a.month != b.month {
      MonthsDoNotOverlap(b, a);
    }
  }

  /** An instant lies in exactly one run of whole days among those that do not overlap. */
  lemma InstantInDays(first: int, days: int, other: int, micros: int)
    requires 0 <= micros < DAY
    ensures first <= other < first + days <==> first * DAY <= other * DAY + micros < first * DAY + days * DAY
  {
  }

  /** `replace` and timedelta land on the first day after the period. */
  lemma ComputedEndOrdinals(now: DateTime)
    ensures EndOfDay(now).Some? ==>
              var e := EndOfDay(now).value;
              Ordinal(e.year, e.month, e.day) == Ordinal(now.year, now.month, now.day) + 1 && e.micros == 0
    ensures NextMonth(now).Some? ==>
              var e := NextMonth(now).value;
              Ordinal(e.year, e.month, e.day) == Ordinal(now.year, now.month, 1) + DaysInMonth(now.year, now.month)
                  && e.micros == 0
  {
    if now.month == 12 {
      MonthsMakeTheYear(now.year);
    }
  }

  /** The end the code computes is the end of the period, and `replace` never builds an invalid date. */
  lemma ComputedEnds(now: DateTime)
    ensures EndOfDay(now).Some? ==> EndOfDay(now).value.Instant() == PeriodEnd(Daily, None, now)
    ensures NextMonth(now).Some? ==> NextMonth(now).value.Instant() == PeriodEnd(Monthly, None, now)
  {
    ComputedEndOrdinals(now);
    DayProduct(Ordinal(now.year, now.month, now.day), 1);
    DayProduct(Ordinal(now.year, now.month, 1), DaysInMonth(now.year, now.month));
  }

  lemma DayProduct(o: int, n: int)
    ensures (o + n) * DAY == o * DAY + n * DAY
  {
  }

  /** Every instant lies in its own period. */
  lemma InsideOwnPeriod(period: Period, window: Option<nat>, now: DateTime)
    ensures PeriodStart(period, window, now) <= now.Instant() < PeriodEnd(period, window, now)
  {
    if period == FixedWindow {
      FloorDivision(now.Instant() - EPOCH, WindowSeconds(window) * SECOND);
    }
  }

  lemma FloorDivision(a: int, b: int)
    requires b > 0
    ensures a / b * b <= a < a / b * b + b
  {
  }

  lemma FloorUnique(a: int, b: int, q: int)
    requires b > 0 && q * b <= a < q * b + b
    ensures a / b == q
  {
    var r := a / b;
    FloorDivision(a, b);
    if r < q {
      ProductMonotone(r + 1, q, b);
    } else if r > q {
      ProductMonotone(q + 1, r, b);
    }
  }

  lemma ProductMonotone(x: int, y: int, b: int)
    requires b > 0
    ensures x <= y ==> x * b <= y * b
  {
  }

  /** Counter keys change exactly when the period does. */
  lemma SameLabelIffSamePeriod(period: Period, window: Option<nat>, a: DateTime, b: DateTime)
    requires PeriodBucket(period, window, a).Some? && PeriodBucket(period, window, b).Some?
    ensures PeriodBucket(period, window, a).value.lbl == PeriodBucket(period, window, b).value.lbl
       <==> PeriodStart(period, window, a) <= b.Instant() < PeriodEnd(period, window, a)
  {
    match period {
      case Daily => SameDay(a, b);
      case Monthly => SameMonth(a, b);
      case FixedWindow => SameWindow(window, a, b);
    }
  }

  lemma SameDay(a: DateTime, b: DateTime)
    ensures MonthLabel(a) + "-" + TwoDigits(a.day) == MonthLabel(b) + "-" + TwoDigits(b.day)
       <==> PeriodStart(Daily, None, a) <= b.Instant() < PeriodEnd(Daily, None, a)
  {
    InstantInDays(Ordinal(a.year, a.month, a.day), 1, Ordinal(b.year, b.month, b.day), b.micros);
    OrdinalsAreDistinct(a, b);
    if MonthLabel(a) + "-" + TwoDigits(a.day) == MonthLabel(b) + "-" + TwoDigits(b.day) {
      DayLabelInjective(a, b);
    }
  }

  lemma SameMonth(a: DateTime, b: DateTime)
    ensures MonthLabel(a) == MonthLabel(b)
       <==> PeriodStart(Monthly, None, a) <= b.Instant() < PeriodEnd(Monthly, None, a)
  {
    InstantInDays(Ordinal(a.year, a.month, 1), DaysInMonth(a.year, a.month), Ordinal(b.year, b.month, b.day), b.micros);
    if MonthLabel(a) == MonthLabel(b) {
      MonthLabelInjective(a, b);
    } else if a.year < b.year || (a.year == b.year && a.month < b.month) {
      MonthsDoNotOverlap(a, b);
    } else {
      MonthsDoNotOverlap(b, a);
    }
  }

  lemma SameWindow(window: Option<nat>, a: DateTime, b: DateTime)
    ensures IntText(WindowIndex(window, a)) == IntText(WindowIndex(window, b))
       <==> PeriodStart(FixedWindow, window, a) <= b.Instant() < PeriodEnd(FixedWindow, window, a)
  {
    InsideOwnPeriod(FixedWindow, window, b);
    if IntText(WindowIndex(window, a)) == IntText(WindowIndex(window, b)) {
      IntTextInjective(WindowIndex(window, a), WindowIndex(window, b));
    } else if PeriodStart(FixedWindow, window, a) <= b.Instant() < PeriodEnd(FixedWindow, window, a) {
      FloorUnique(b.Instant() - EPOCH, WindowSeconds(window) * SECOND, WindowIndex(window, a));
    }
  }

  lemma MonthLabelInjective(a: DateTime, b: DateTime)
    requires MonthLabel(a) == MonthLabel(b)
    ensures a.year == b.year && a.month == b.month
  {
    var s, t := MonthLabel(a), MonthLabel(b);
    assert s[..|s| - 3] == Decimal(a.year) && t[..|t| - 3] == Decimal(b.year);
    DecimalInjective(a.year, b.year);
    assert s[|s| - 2..] == TwoDigits(a.month) && t[|t| - 2..] == TwoDigits(b.month);
    TwoDigitsInjective(a.month, b.month);
  }

  lemma DayLabelInjective(a: DateTime, b: DateTime)
    requires MonthLabel(a) + "-" + TwoDigits(a.day) == MonthLabel(b) + "-" + TwoDigits(b.day)
    ensures a.year == b.year && a.month == b.month && a.day == b.day
  {
    var s, t := MonthLabel(a) + "-" + TwoDigits(a.day), MonthLabel(b) + "-" + TwoDigits(b.day);
    assert s[..|s| - 3] == MonthLabel(a) && t[..|t| - 3] == MonthLabel(b);
    MonthLabelInjective(a, b);
    assert s[|s| - 2..] == TwoDigits(a.day) && t[|t| - 2..] == TwoDigits(b.day);
    TwoDigitsInjective(a.day, b.day);
  }

  lemma TwoDigitsInjective(m: nat, n: nat)
    requires m < 100 && n < 100 && TwoDigits(m) == TwoDigits(n)
    ensures m == n
  {
    assert TwoDigits(m)[0] == TwoDigits(n)[0] && TwoDigits(m)[1] == TwoDigits(n)[1];
  }

  /**
   A counter written now outlives its day or month by at most a minute, to the second; one of a fixed window lives for
   a window and a minute from now, and so outlives that window.
   */
  lemma TtlOutlivesPeriod(period: Period, window: Option<nat>, now: DateTime)
    requires PeriodBucket(period, window, now).Some?
    ensures var expiry := now.Instant() + PeriodBucket(period, window, now).value.ttl * SECOND;
            var end := PeriodEnd(period, window, now);
            && (period != FixedWindow ==> end + 59 * 1_000_000 < expiry <= end + 60 * 1_000_000)
            && (period == FixedWindow ==>
                  expiry == now.Instant() + (WindowSeconds(window) + 60) * 1_000_000 && expiry > end + 59 * 1_000_000)
  {
    InsideOwnPeriod(period, window, now);
    ComputedEnds(now);
    if period != FixedWindow {
      FloorDivision(PeriodEnd(period, window, now) - now.Instant(), SECOND);
    }
  }

  /** The code raises only in the last day, or month, that datetime can represent. */
  lemma BucketRaisesIff(period: Period, window: Option<nat>, now: DateTime)
    ensures PeriodBucket(period, window, now).None? <==>
              && now.year == MAX_YEAR && now.month == 12
              && (period == Monthly || (period == Daily && now.day == 31))
  {
    ComputedEnds(now);
  }
}
