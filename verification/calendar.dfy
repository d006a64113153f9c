/**
 The proleptic Gregorian calendar of Python's `datetime.date`: years 1 to 9999,
 the leap-year rule, and the one-day step that `date + timedelta(days=1)` and
 `date - timedelta(days=1)` perform.

 CPython implements that step through ordinals (`toordinal`, then
 `fromordinal` of the shifted number, raising `OverflowError` outside
 1..MaxOrdinal). `Succ` and `Pred` below are written with calendar rules
 instead, and the lemmas at the end of the module connect the two.
 */
module Calendar {

  datatype Date = Date(year: int, month: int, day: int)

  /** `date.min` and `date.max`. */
  const MinDate := Date(1, 1, 1)
  const MaxDate := Date(9999, 12, 31)

  /** `date.max.toordinal()`. */
  const MaxOrdinal := 3652059

  predicate IsLeap(y: int) {
    y % 4 == 0 && (y % 100 != 0 || y % 400 == 0)
  }

  function DaysInYear(y: int): int {
    if IsLeap(y) then 366 else 365
  }

  function DaysInMonth(y: int, m: int): int
    requires 1 <= m <= 12
  {
    if m == 2 then (if IsLeap(y) then 29 else 28)
    else if m == 4 || m == 6 || m == 9 || m == 11 then 30
    else 31
  }

  /** The dates `datetime.date(year, month, day)` accepts without `ValueError`. */
  predicate Valid(d: Date) {
    && 1 <= d.year <= 9999
    && 1 <= d.month <= 12
    && 1 <= d.day <= DaysInMonth(d.year, d.month)
  }

  /** Chronological order: lexicographic on (year, month, day). */
  predicate Before(a: Date, b: Date) {
    || a.year < b.year
    || (a.year == b.year && a.month < b.month)
    || (a.year == b.year && a.month == b.month && a.day < b.day)
  }

  /** The next calendar day. The source's `d + timedelta(days=1)` raises
      `OverflowError` on `date.max`; callers check for that case. */
  function Succ(d: Date): (r: Date)
    requires Valid(d) && d != MaxDate
    ensures Valid(r) && Before(d, r)
    ensures forall x :: Valid(x) && Before(d, x) ==> x == r || Before(r, x)
  {
    if d.day < DaysInMonth(d.year, d.month) then Date(d.year, d.month, d.day + 1)
    else if d.month < 12 then Date(d.year, d.month + 1, 1)
    else Date(d.year + 1, 1, 1)
  }

  /** The previous calendar day. The source's `d - timedelta(days=1)` raises
      `OverflowError` on `date.min`; callers check for that case. */
  function Pred(d: Date): (r: Date)
    requires Valid(d) && d != MinDate
    ensures Valid(r) && Before(r, d)
    ensures forall x :: Valid(x) && Before(x, d) ==> x == r || Before(x, r)
  {
    if d.day > 1 then Date(d.year, d.month, d.day - 1)
    else if d.month > 1 then Date(d.year, d.month - 1, DaysInMonth(d.year, d.month - 1))
    else Date(d.year - 1, 12, 31)
  }

  // ---------------------------------------------------------------------
  // Ordinals, as CPython's `_days_before_year`, `_days_before_month` and
  // `date.toordinal` compute them (1 January of year 1 is ordinal 1).
  // ---------------------------------------------------------------------

  function DaysBeforeYear(y: int): int
    requires y >= 1
  {
    var n := y - 1;
    n * 365 + n / 4 - n / 100 + n / 400
  }

  function DaysBeforeMonth(y: int, m: int): int
    requires 1 <= m <= 12
  {
    var table := [0, 31, 59, 90, 120, 151, 181, 212, 243, 273, 304, 334];
    table[m - 1] + (if m > 2 && IsLeap(y) then 1 else 0)
  }

  function Ordinal(d: Date): int
    requires Valid(d)
  {
    DaysBeforeYear(d.year) + DaysBeforeMonth(d.year, d.month) + d.day
  }
  /** Floor division by a positive divisor steps up by one exactly at multiples. */
  lemma DivStep(n: int, k: int)
    requires n >= 0 && k > 0
    ensures (n + 1) / k == n / k + (if (n + 1) % k == 0 then 1 else 0)
  {
    var q, r := n / k, n % k;
    if r == k - 1 {
      DivUnique(n + 1, k, q + 1, 0);
    } else {
      DivUnique(n + 1, k, q, r + 1);
    }
  }

  lemma DivUnique(a: int, k: int, q: int, r: int)
    requires k > 0 && 0 <= r < k && a == q * k + r
    ensures a / k == q && a % k == r
  {
    var q', r' := a / k, a % k;
    assert (q - q') * k == r' - r;
    if q' < q {
      MulAtLeast(q - q', k);
    } else if q' > q {
      MulAtLeast(q' - q, k);
    }
  }

  lemma {:induction false} MulAtLeast(x: int, k: int)
    requires x >= 1 && k > 0
    ensures x * k >= k
    decreases x
  {
    if x > 1 {
      MulAtLeast(x - 1, k);
      assert x * k == (x - 1) * k + k;
    }
  }

  /** A year adds exactly its own length to the day count. */
  lemma DaysBeforeNextYear(y: int)
    requires y >= 1
    ensures DaysBeforeYear(y + 1) == DaysBeforeYear(y) + DaysInYear(y)
  {
    var n := y - 1;
    DivStep(n, 4);
    DivStep(n, 100);
    DivStep(n, 400);
    var by4 := if y % 4 == 0 then 1 else 0;
    var by100 := if y % 100 == 0 then 1 else 0;
    var by400 := if y % 400 == 0 then 1 else 0;
    assert DaysBeforeYear(y + 1) == DaysBeforeYear(y) + 365 + by4 - by100 + by400;
    DivisorsOfCenturies(y);
  }

  lemma DivisorsOfCenturies(y: int)
    ensures y % 400 == 0 ==> y % 100 == 0
    ensures y % 100 == 0 ==> y % 4 == 0
  {
    if y % 400 == 0 {
      DivUnique(y, 100, 4 * (y / 400), 0);
    }
    if y % 100 == 0 {
      DivUnique(y, 4, 25 * (y / 100), 0);
    }
  }

  /** A month adds exactly its own length to the day count of its year. */
  lemma DaysBeforeNextMonth(y: int, m: int)
    requires 1 <= m <= 12
    ensures m < 12 ==> DaysBeforeMonth(y, m + 1) == DaysBeforeMonth(y, m) + DaysInMonth(y, m)
    ensures m == 12 ==> DaysBeforeMonth(y, m) + DaysInMonth(y, m) == DaysInYear(y)
  {
  }

  /** `Succ` is CPython's `fromordinal(toordinal() + 1)`: it moves the ordinal up by one. */
  lemma {:induction false} SuccOrdinal(d: Date)
    requires Valid(d) && d != MaxDate
    ensures Ordinal(Succ(d)) == Ordinal(d) + 1
  {
    DaysBeforeNextMonth(d.year, d.month);
    if d.day == DaysInMonth(d.year, d.month) && d.month == 12 {
      DaysBeforeNextYear(d.year);
    }
  }

  /** `Pred` is CPython's `fromordinal(toordinal() - 1)`. */
  lemma PredOrdinal(d: Date)
    requires Valid(d) && d != MinDate
    ensures Ordinal(Pred(d)) + 1 == Ordinal(d)
  {
    var p := Pred(d);
    DaysBeforeNextMonth(p.year, p.month);
    if d.day == 1 && d.month == 1 {
      DaysBeforeNextYear(p.year);
    }
  }

  lemma SuccPred(d: Date)
    requires Valid(d) && d != MinDate
    ensures Pred(d) != MaxDate && Succ(Pred(d)) == d
  {
  }

  lemma PredSucc(d: Date)
    requires Valid(d) && d != MaxDate
    ensures Succ(d) != MinDate && Pred(Succ(d)) == d
  {
  }

  /** The ordinal of a date lies inside its year's ordinals. */
  lemma OrdinalWithinYear(d: Date)
    requires Valid(d)
    ensures DaysBeforeYear(d.year) < Ordinal(d) <= DaysBeforeYear(d.year) + DaysInYear(d.year)
  {
  }

  lemma {:induction false} DaysBeforeYearMonotone(a: int, b: int)
    requires 1 <= a <= b
    ensures DaysBeforeYear(a) + (if a < b then DaysInYear(a) else 0) <= DaysBeforeYear(b)
    decreases b - a
  {
    if a < b {
      DaysBeforeNextYear(a);
      if a + 1 < b {
        DaysBeforeYearMonotone(a + 1, b);
      }
    }
  }

  /** Chronological order and ordinal order agree, so the ordinal is injective. */
  lemma OrdinalOrder(a: Date, b: Date)
    requires Valid(a) && Valid(b)
    ensures Before(a, b) <==> Ordinal(a) < Ordinal(b)
    ensures a == b <==> Ordinal(a) == Ordinal(b)
  {
    if Before(a, b) {
      OrdinalBefore(a, b);
    } else if Before(b, a) {
      OrdinalBefore(b, a);
    }
  }

  lemma OrdinalBefore(a: Date, b: Date)
    requires Valid(a) && Valid(b) && Before(a, b)
    ensures Ordinal(a) < Ordinal(b)
  {
    if a.year < b.year {
      OrdinalWithinYear(a);
      OrdinalWithinYear(b);
      DaysBeforeYearMonotone(a.year, b.year);
    } else if a.month < b.month {
      assert DaysBeforeMonth(a.year, a.month) + DaysInMonth(a.year, a.month) <= DaysBeforeMonth(a.year, b.month);
    }
  }

  /** The valid dates are exactly the ordinals 1..MaxOrdinal, from `MinDate` to `MaxDate`. */
  lemma OrdinalRange(d: Date)
    requires Valid(d)
    ensures 1 <= Ordinal(d) <= MaxOrdinal
    ensures Ordinal(d) == 1 <==> d == MinDate
    ensures Ordinal(d) == MaxOrdinal <==> d == MaxDate
  {
    OrdinalLow(d);
    OrdinalHigh(d);
  }

  lemma OrdinalLow(d: Date)
    requires Valid(d)
    ensures 1 <= Ordinal(d)
    ensures Ordinal(d) == 1 <==> d == MinDate
  {
    FirstYearStartsAtZero(d.year);
  }

  lemma FirstYearStartsAtZero(y: int)
    requires y >= 1
    ensures DaysBeforeYear(y) >= 0
    ensures DaysBeforeYear(y) == 0 <==> y == 1
  {
    assert DaysBeforeYear(1) == 0;
    DaysBeforeYearMonotone(1, y);
  }

  lemma OrdinalHigh(d: Date)
    requires Valid(d)
    ensures Ordinal(d) <= MaxOrdinal
    ensures Ordinal(d) == MaxOrdinal <==> d == MaxDate
  {
    EndsValid();
    MaxDateOrdinal();
    if d != MaxDate {
      assert Before(d, MaxDate);
      OrdinalBefore(d, MaxDate);
    }
  }

  lemma EndsValid()
    ensures Valid(MinDate) && Valid(MaxDate)
  {
  }

  lemma MaxDateOrdinal()
    ensures Ordinal(MaxDate) == MaxOrdinal
  {
    assert DaysBeforeYear(9999) == 3651694;
  }

  /** Where the source raises `OverflowError`: `d + 1 day` leaves the ordinal range
      exactly when `d` is `date.max`, `d - 1 day` exactly when `d` is `date.min`. */
  lemma StepOverflow(d: Date)
    requires Valid(d)
    ensures Ordinal(d) + 1 <= MaxOrdinal <==> d != MaxDate
    ensures 1 <= Ordinal(d) - 1 <==> d != MinDate
  {
    OrdinalRange(d);
  }

  /** Calendar facts the source relies on: month-end and year-end rollover, and
      29 February only in Gregorian leap years. */
  lemma SuccRollover(y: int, m: int)
    requires 1 <= y <= 9999 && 1 <= m <= 12
    ensures m < 12 ==> Succ(Date(y, m, DaysInMonth(y, m))) == Date(y, m + 1, 1)
    ensures y < 9999 ==> Succ(Date(y, 12, 31)) == Date(y + 1, 1, 1)
    ensures Succ(Date(y, 2, 28)) == (if IsLeap(y) then Date(y, 2, 29) else Date(y, 3, 1))
    ensures Valid(Date(y, 2, 29)) <==> IsLeap(y)
  {
  }

  lemma LeapExamples()
    ensures IsLeap(2024) && !IsLeap(2023) && !IsLeap(1900) && IsLeap(2000)
    ensures Succ(Date(2024, 2, 28)) == Date(2024, 2, 29)
    ensures Succ(Date(1900, 2, 28)) == Date(1900, 3, 1)
    ensures Pred(Date(2000, 3, 1)) == Date(2000, 2, 29)
    ensures Pred(Date(2025, 1, 1)) == Date(2024, 12, 31)
  {
  }
}
