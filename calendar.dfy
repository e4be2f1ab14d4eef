/** Proleptic Gregorian dates as Python's `datetime.date` has them: years
    1..9999, the ordinal of `date.toordinal()` (0001-01-01 is day 1), and
    the month addition of `dateutil.relativedelta(months=k)`, which clamps
    the day to the last day of the target month. */
module Calendar {
  import opened Results

  const MinYear := 1
  const MaxYear := 9999

  datatype Date = Date(year: int, month: int, day: int)

  predicate IsLeap(y: int) {
    y % 4 == 0 && (y % 100 != 0 || y % 400 == 0)
  }

  function DaysInMonth(y: int, m: int): (n: int)
    requires 1 <= m <= 12
    ensures 28 <= n <= 31
    ensures m == 2 ==> (n == 29 <==> IsLeap(y))
  {
    if m == 2 then (if IsLeap(y) then 29 else 28)
    else if m == 4 || m == 6 || m == 9 || m == 11 then 30
    else 31
  }

  /** A month and a day that exist, in a year with at least one day before it. */
  predicate WellFormed(d: Date) {
    MinYear <= d.year && 1 <= d.month <= 12 && 1 <= d.day <= DaysInMonth(d.year, d.month)
  }

  /** A date `datetime.date` accepts. */
  predicate ValidDate(d: Date) {
    WellFormed(d) && d.year <= MaxYear
  }

  function YearLength(y: int): int {
    if IsLeap(y) then 366 else 365
  }

  /** The dates a `datetime.date` can hold. */
  type CivilDate = d: Date | ValidDate(d) witness Date(1, 1, 1)

  /** Days in the years before y, one year at a time. */
  function DaysBeforeYear(y: int): int
    decreases y
  {
    if y <= 1 then 0 else DaysBeforeYear(y - 1) + YearLength(y - 1)
  }

  /** Days in the months of year y before month m. */
  function DaysBeforeMonth(y: int, m: int): int
    decreases m
  {
    if m <= 1 || m > 13 then 0 else DaysBeforeMonth(y, m - 1) + DaysInMonth(y, m - 1)
  }

  /** `date.toordinal()`; `(a - b).days` is `Ordinal(a) - Ordinal(b)`. */
  function Ordinal(d: Date): int {
    DaysBeforeYear(d.year) + DaysBeforeMonth(d.year, d.month) + d.day
  }

  /** The month offsets agree with `datetime`'s cumulative table, plus one
      after February in a leap year. */
  lemma DaysBeforeMonthTable(y: int, m: int)
    requires 1 <= m <= 12
    ensures DaysBeforeMonth(y, m)
         == [0, 31, 59, 90, 120, 151, 181, 212, 243, 273, 304, 334][m - 1]
            + (if m > 2 && IsLeap(y) then 1 else 0)
  {
  }

  /** Dividing by 4, 100 or 400: n + 1 adds one to the quotient exactly
      when it is a multiple. */
  lemma DivisionStep(n: int)
    requires n >= 0
    ensures (n + 1) / 4 == n / 4 + (if (n + 1) % 4 == 0 then 1 else 0)
    ensures (n + 1) / 100 == n / 100 + (if (n + 1) % 100 == 0 then 1 else 0)
    ensures (n + 1) / 400 == n / 400 + (if (n + 1) % 400 == 0 then 1 else 0)
  {
  }

  lemma MultipleOf400(y: int)
    ensures y % 400 == 0 ==> y % 100 == 0
  {
    if y % 400 == 0 {
      var q := y / 400;
      assert y == 100 * (4 * q);
    }
  }

  lemma MultipleOf100(y: int)
    ensures y % 100 == 0 ==> y % 4 == 0
  {
    if y % 100 == 0 {
      var q := y / 100;
      assert y == 4 * (25 * q);
    }
  }

  /** The year count agrees with `toordinal`'s closed formula. */
  lemma {:induction false} DaysBeforeYearClosedForm(y: int)
    requires y >= 1
    ensures var n := y - 1; DaysBeforeYear(y) == n * 365 + n / 4 - n / 100 + n / 400
  {
    if y > 1 {
      DaysBeforeYearClosedForm(y - 1);
      DivisionStep(y - 2);
      MultipleOf400(y - 1);
      MultipleOf100(y - 1);
    }
  }

  /** `buy_date + relativedelta(months=k)`, before the year range check. */
  function ShiftMonths(d: Date, k: nat): (r: Date)
    requires WellFormed(d)
    ensures WellFormed(r)
    ensures r.year >= d.year
    ensures r.day <= d.day
    ensures r.day == d.day || r.day == DaysInMonth(r.year, r.month)
    ensures (r.year - d.year) * 12 + (r.month - d.month) == k
  {
    var t := d.month - 1 + k;
    var y := d.year + t / 12;
    var m := t % 12 + 1;
    var last := DaysInMonth(y, m);
    Date(y, m, if d.day <= last then d.day else last)
  }

  /** The addition itself: datetime refuses a year past 9999. */
  function AddMonths(d: CivilDate, k: nat): (r: Result<CivilDate>)
    ensures r.Ok? <==> ShiftMonths(d, k).year <= MaxYear
    ensures r.Ok? ==> r.value == ShiftMonths(d, k)
    ensures r.Err? ==> r.error == DateOutOfRange
  {
    var s := ShiftMonths(d, k);
    if s.year > MaxYear then Err(DateOutOfRange) else Ok(s)
  }

  lemma ShiftZero(d: Date)
    requires WellFormed(d)
    ensures ShiftMonths(d, 0) == d
  {
  }

  /** The last day of a month comes before every day of the next month. */
  lemma {:induction false} NextMonthLater(a: Date, b: Date)
    requires WellFormed(a) && WellFormed(b)
    requires (b.year - a.year) * 12 + (b.month - a.month) == 1
    ensures Ordinal(a) < Ordinal(b)
  {
    if a.month < 12 {
      assert b.year == a.year && b.month == a.month + 1;
    } else {
      assert b.year == a.year + 1 && b.month == 1;
    }
  }

  /** One more month always gives a later date. */
  lemma {:induction false} ShiftMonthsStep(d: Date, k: nat)
    requires WellFormed(d)
    ensures Ordinal(ShiftMonths(d, k)) < Ordinal(ShiftMonths(d, k + 1))
  {
    NextMonthLater(ShiftMonths(d, k), ShiftMonths(d, k + 1));
  }

  /** Month addition is strictly increasing in the number of months. */
  lemma {:induction false} ShiftMonthsIncreasing(d: Date, j: nat, k: nat)
    requires WellFormed(d)
    requires j < k
    ensures Ordinal(ShiftMonths(d, j)) < Ordinal(ShiftMonths(d, k))
    decreases k - j
  {
    ShiftMonthsStep(d, j);
    if j + 1 < k {
      ShiftMonthsIncreasing(d, j + 1, k);
    }
  }

  /** Every date k >= 1 months after d is strictly after d. */
  lemma ShiftMonthsAfter(d: Date, k: nat)
    requires WellFormed(d)
    requires k >= 1
    ensures Ordinal(ShiftMonths(d, k)) > Ordinal(d)
  {
    ShiftZero(d);
    ShiftMonthsIncreasing(d, 0, k);
  }

  lemma ShiftMonthsYearMonotone(d: Date, j: nat, k: nat)
    requires WellFormed(d)
    requires j <= k
    ensures ShiftMonths(d, j).year <= ShiftMonths(d, k).year
  {
  }

  /** Acquiring on 2020-03-31: the next three month ends, 30, 61 and 91 days later. */
  lemma EndOfMonthExample()
    ensures ShiftMonths(Date(2020, 3, 31), 1) == Date(2020, 4, 30)
    ensures ShiftMonths(Date(2020, 3, 31), 2) == Date(2020, 5, 31)
    ensures ShiftMonths(Date(2020, 3, 31), 3) == Date(2020, 6, 30)
    ensures Ordinal(Date(2020, 4, 30)) - Ordinal(Date(2020, 3, 31)) == 30
    ensures Ordinal(Date(2020, 5, 31)) - Ordinal(Date(2020, 3, 31)) == 61
    ensures Ordinal(Date(2020, 6, 30)) - Ordinal(Date(2020, 3, 31)) == 91
  {
  }
}
