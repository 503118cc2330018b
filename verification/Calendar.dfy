/** Day and nanosecond counts follow the calendar: order preserved, no two instants alike. */
module Calendar {
  import opened Text
  import opened Timestamps

  /** Days before the March-based year y, counted from year zero. */
  function YearDays(y: int): int {
    365 * y + y / 4 - y / 100 + y / 400
  }

  function MarchYear(year: int, month: int): int {
    if month <= 2 then year - 1 else year
  }

  /** Months counted from March. */
  function MarchMonth(month: int): int {
    if month > 2 then month - 3 else month + 9
  }

  /** Days before a month of the March-based year. */
  function MonthDays(m: int): int {
    (153 * m + 2) / 5
  }

  /** The era arithmetic is the usual day count of the March-based year. */
  lemma {:induction false} DaysByYear(year: int, month: int, day: int)
    ensures DaysFromCivil(year, month, day)
         == YearDays(MarchYear(year, month)) + MonthDays(MarchMonth(month)) + day - 1 - 719468
  {
    EraSplits(MarchYear(year, month));
  }

  lemma {:induction false} EraSplits(y: int)
    ensures var era := y / 400; var n := y - era * 400;
            YearDays(y) == era * 146097 + n * 365 + n / 4 - n / 100
  {
    var era := y / 400;
    var n := y - era * 400;
    assert y == 400 * era + n && 0 <= n < 400;
    assert y / 4 == 100 * era + n / 4;
    assert y / 100 == 4 * era + n / 100;
  }

  /** The civil epoch is day zero. */
  lemma {:induction false} Epoch()
    ensures DaysFromCivil(1970, 1, 1) == 0
  {
  }

  predicate DateLt(y: int, m: int, d: int, y': int, m': int, d': int) {
    y < y' || (y == y' && (m < m' || (m == m' && d < d')))
  }

  /** A March-based year is as long as the civil year its February falls in. */
  lemma {:induction false} YearLength(y: int)
    ensures YearDays(y + 1) - YearDays(y) == if LeapYear(y + 1) then 366 else 365
  {
    QuotientSteps(y, 4);
    QuotientSteps(y, 100);
    QuotientSteps(y, 400);
    LeapSteps(y + 1);
  }

  lemma {:induction false} QuotientSteps(y: int, k: int)
    requires k == 4 || k == 100 || k == 400
    ensures (y + 1) / k - y / k == if (y + 1) % k == 0 then 1 else 0
  {
  }

  lemma {:induction false} LeapSteps(z: int)
    ensures z % 400 == 0 ==> z % 100 == 0
    ensures z % 100 == 0 ==> z % 4 == 0
  {
  }

  lemma {:induction false} YearsGrow(y: int, z: int)
    requires y <= z
    ensures YearDays(z) - YearDays(y) >= 365 * (z - y)
    decreases z - y
  {
    if y < z {
      YearsGrow(y, z - 1);
      YearLength(z - 1);
    }
  }

  lemma {:induction false} MonthsGrow(m: int, n: int)
    requires 0 <= m < n <= 11
    ensures MonthDays(m) + 28 <= MonthDays(n)
  {
  }

  /** A valid day stays inside its month and its March-based year. */
  lemma {:induction false} DayWithin(year: int, month: int, day: int)
    requires CalendarDateValid(year, month, day)
    ensures 1 <= month <= 12 && 0 <= MarchMonth(month) <= 11
    ensures MarchMonth(month) < 11 ==> MonthDays(MarchMonth(month)) + day - 1 < MonthDays(MarchMonth(month) + 1)
    ensures 0 <= MonthDays(MarchMonth(month)) + day - 1 < YearDays(MarchYear(year, month) + 1) - YearDays(MarchYear(year, month))
  {
    YearLength(MarchYear(year, month));
    hide YearDays, LeapYear;
  }

  lemma {:induction false} MarchOrder(y: int, m: int, d: int, y': int, m': int, d': int)
    requires CalendarDateValid(y, m, d) && CalendarDateValid(y', m', d') && DateLt(y, m, d, y', m', d')
    ensures MarchYear(y, m) < MarchYear(y', m')
            || (MarchYear(y, m) == MarchYear(y', m') && (MarchMonth(m) < MarchMonth(m') || (MarchMonth(m) == MarchMonth(m') && d < d')))
  {
    DayWithin(y, m, d);
    DayWithin(y', m', d');
    hide CalendarDateValid, YearDays, MonthDays;
  }

  lemma {:induction false} MonthsWithin(m: int, n: int, d: int)
    requires 0 <= m < n <= 11 && MonthDays(m) + d - 1 < MonthDays(m + 1)
    ensures MonthDays(m) + d - 1 < MonthDays(n)
  {
    if m + 1 < n {
      MonthsGrow(m + 1, n);
    }
    hide MonthDays;
  }

  /** The day count follows calendar order. */
  lemma {:induction false} DaysFollow(y: int, m: int, d: int, y': int, m': int, d': int)
    requires CalendarDateValid(y, m, d) && CalendarDateValid(y', m', d') && DateLt(y, m, d, y', m', d')
    ensures DaysFromCivil(y, m, d) < DaysFromCivil(y', m', d')
  {
    DaysByYear(y, m, d);
    DaysByYear(y', m', d');
    MarchOrder(y, m, d, y', m', d');
    DayWithin(y, m, d);
    DayWithin(y', m', d');
    hide DaysFromCivil, CalendarDateValid, YearDays, MonthDays, MarchMonth, MarchYear;
    if MarchYear(y, m) < MarchYear(y', m') {
      YearsGrow(MarchYear(y, m) + 1, MarchYear(y', m'));
    } else if MarchMonth(m) < MarchMonth(m') {
      MonthsWithin(MarchMonth(m), MarchMonth(m'), d);
    }
  }

  lemma {:induction false} NextMonth(m: int)
    requires 0 <= m < 11
    ensures MonthDays(m + 1) - MonthDays(m) == if m in {1, 3, 6, 8} then 30 else 31
  {
  }

  /** A month is as long as the gap to the next one, January after December and March after February included. */
  lemma {:induction false} MonthLength(y: int, m: int)
    requires 1 <= m <= 12
    ensures var z, n := if m == 12 then y + 1 else y, if m == 12 then 1 else m + 1;
            DaysFromCivil(z, n, 1) == DaysFromCivil(y, m, 1) + DaysInMonth(y, m)
  {
    var z, n := if m == 12 then y + 1 else y, if m == 12 then 1 else m + 1;
    DaysByYear(y, m, 1);
    DaysByYear(z, n, 1);
    if m == 2 {
      YearLength(y - 1);
      assert MonthDays(11) == 337 && MonthDays(0) == 0;
      hide DaysFromCivil, YearDays, LeapYear;
    } else {
      NextMonth(MarchMonth(m));
      hide DaysFromCivil, YearDays, LeapYear, MonthDays;
    }
  }

  lemma {:induction false} WithinMonth(y: int, m: int, d: int)
    ensures DaysFromCivil(y, m, d) == DaysFromCivil(y, m, 1) + d - 1
  {
    DaysByYear(y, m, d);
    DaysByYear(y, m, 1);
    hide DaysFromCivil, YearDays, MonthDays;
  }

  /** The calendar date after a date. */
  function Tomorrow(y: int, m: int, d: int): (int, int, int) {
    if d < DaysInMonth(y, m) then (y, m, d + 1) else if m < 12 then (y, m + 1, 1) else (y + 1, 1, 1)
  }

  /** The next calendar date is the next day number, across months, years and leap years. */
  lemma {:induction false} NextDay(y: int, m: int, d: int)
    requires CalendarDateValid(y, m, d)
    ensures var (z, n, e) := Tomorrow(y, m, d); DaysFromCivil(z, n, e) == DaysFromCivil(y, m, d) + 1
  {
    WithinMonth(y, m, d);
    WithinMonth(y, m, d + 1);
    MonthLength(y, m);
    hide DaysFromCivil;
  }

  // Instants.

  predicate ValidStamp(s: Stamp) {
    CalendarDateValid(s.year, s.month, s.day) && 0 <= s.hour <= 23 && 0 <= s.minute <= 59 && 0 <= s.second <= 59
    && 0 <= s.nanosecond < 1_000_000_000
  }

  /** The derived order of the struct: field by field. */
  predicate StampLt(a: Stamp, b: Stamp) {
    DateLt(a.year, a.month, a.day, b.year, b.month, b.day)
    || ((a.year, a.month, a.day) == (b.year, b.month, b.day)
        && (a.hour < b.hour
            || (a.hour == b.hour
                && (a.minute < b.minute
                    || (a.minute == b.minute && (a.second < b.second || (a.second == b.second && a.nanosecond < b.nanosecond)))))))
  }

  function SecondOfDay(s: Stamp): int {
    s.hour * 3600 + s.minute * 60 + s.second
  }

  lemma {:induction false} DaysSpan(x: int, y: int, s: int, t: int, n: int, k: int)
    requires x < y && 0 <= s < 86400 && 0 <= t < 86400 && 0 <= n < 1_000_000_000 && 0 <= k < 1_000_000_000
    ensures (x * 86400 + s) * 1_000_000_000 + n < (y * 86400 + t) * 1_000_000_000 + k
  {
  }

  lemma {:induction false} InstantsFollow(a: Stamp, b: Stamp)
    requires ValidStamp(a) && ValidStamp(b) && StampLt(a, b)
    ensures Instant(a) < Instant(b)
  {
    var x, y := DaysFromCivil(a.year, a.month, a.day), DaysFromCivil(b.year, b.month, b.day);
    assert Instant(a) == (x * 86400 + SecondOfDay(a)) * 1_000_000_000 + a.nanosecond;
    assert Instant(b) == (y * 86400 + SecondOfDay(b)) * 1_000_000_000 + b.nanosecond;
    if DateLt(a.year, a.month, a.day, b.year, b.month, b.day) {
      DaysFollow(a.year, a.month, a.day, b.year, b.month, b.day);
      hide DaysFromCivil, Instant, CalendarDateValid;
      DaysSpan(x, y, SecondOfDay(a), SecondOfDay(b), a.nanosecond, b.nanosecond);
    }
  }

  lemma {:induction false} StampsCompare(a: Stamp, b: Stamp)
    ensures StampLt(a, b) || a == b || StampLt(b, a)
  {
  }

  /** Instants compare as the structs do, so different structs are different instants. */
  lemma {:induction false} InstantsCompare(a: Stamp, b: Stamp)
    requires ValidStamp(a) && ValidStamp(b)
    ensures Instant(a) < Instant(b) <==> StampLt(a, b)
    ensures Instant(a) == Instant(b) <==> a == b
  {
    StampsCompare(a, b);
    if StampLt(a, b) {
      InstantsFollow(a, b);
    }
    if StampLt(b, a) {
      InstantsFollow(b, a);
    }
    hide Instant, StampLt, ValidStamp;
  }

  /** Two timestamps that both readers accept are ordered alike by both. */
  lemma {:induction false} ReadersOrderAlike(v: string, w: string)
    requires CanonicalTimestamp(v).Some? && CanonicalTimestamp(v).value.second <= 59
    requires CanonicalTimestamp(w).Some? && CanonicalTimestamp(w).value.second <= 59
    ensures ParseUtc(v).Some? && ParseUtc(w).Some?
    ensures ParseUtc(v).value < ParseUtc(w).value <==> StampLt(CanonicalTimestamp(v).value, CanonicalTimestamp(w).value)
    ensures ParseUtc(v).value == ParseUtc(w).value <==> CanonicalTimestamp(v) == CanonicalTimestamp(w)
  {
    hide ParseUtc, Instant, StampLt, CanonicalTimestamp, ValidStamp;
    ReadersAgree(v);
    ReadersAgree(w);
    ReadValid(v);
    ReadValid(w);
    InstantsCompare(CanonicalTimestamp(v).value, CanonicalTimestamp(w).value);
  }

  lemma {:induction false} ReadValid(v: string)
    requires CanonicalTimestamp(v).Some? && CanonicalTimestamp(v).value.second <= 59
    ensures ValidStamp(CanonicalTimestamp(v).value)
  {
    assert Shape(v) && Numbered(v);
    FractionRead(v);
    NanosBound(Fraction(v));
    hide Shape, Numbered, Decimal, Nanos, CalendarDateValid;
  }

  lemma {:induction false} FractionRead(v: string)
    requires Shape(v) && Numbered(v)
    ensures AllDigits(Fraction(v)) && |Fraction(v)| <= 9
  {
  }
}
