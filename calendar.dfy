/**
 * Calendar days as proleptic Gregorian day numbers, the way Python's
 * `datetime.date.toordinal()` numbers them (0001-01-01 is day 1). The
 * purchase plan dates an order `lead_time` days before the first day of
 * its month; a date outside years 1..9999 raises in Python, so the range
 * is part of the model.
 */
module Calendar {
  import opened Common

  const MinYear := 1
  const MaxYear := 9999

  predicate IsLeap(y: int)
  {
    y % 4 == 0 && (y % 100 != 0 || y % 400 == 0)
  }

  function DaysInYear(y: int): int
  {
    if IsLeap(y) then 366 else 365
  }

  function DaysInMonth(y: int, m: Month): (d: int)
    ensures 28 <= d <= 31
  {
    if m == 2 then (if IsLeap(y) then 29 else 28)
    else if m == 4 || m == 6 || m == 9 || m == 11 then 30
    else 31
  }

  /** Days of a common year before the first of each month. */
  const CommonDaysBefore: seq<int> := [0, 31, 59, 90, 120, 151, 181, 212, 243, 273, 304, 334]

  /** Days of year y before the first of month m. */
  function DaysBeforeMonth(y: int, m: Month): (d: int)
    ensures 0 <= d <= 335
  {
    CommonDaysBefore[m - 1] + (if m > 2 && IsLeap(y) then 1 else 0)
  }

  /** Days before January 1st of year y, counted from 0001-01-01. */
  function DaysBeforeYear(y: int): (d: int)
    requires y >= MinYear
  {
    var x := y - 1;
    x * 365 + x / 4 - x / 100 + x / 400
  }

  /** The day number of the first day of a period. */
  function FirstDay(p: Period): int
    requires p.year >= MinYear
  {
    DaysBeforeYear(p.year) + DaysBeforeMonth(p.year, p.month) + 1
  }

  /** The day number of 9999-12-31, the last day Python's dates can hold. */
  const MaxDay := 3652059

  /** The first day of a month at the start of the next month's count. */
  lemma NextMonthFirstDay(y: int, m: Month)
    requires y >= MinYear && m < 12
    ensures FirstDay(Period(y, m + 1)) == FirstDay(Period(y, m)) + DaysInMonth(y, m)
  {
  }

  /** The months add up to the year: December ends where next January begins. */
  lemma NextYearFirstDay(y: int)
    requires y >= MinYear
    ensures DaysBeforeMonth(y, 12) + DaysInMonth(y, 12) == DaysInYear(y)
    ensures FirstDay(Period(y + 1, 1)) == FirstDay(Period(y, 12)) + DaysInMonth(y, 12)
  {
    LeapCount(y);
    assert DaysBeforeYear(y + 1) == DaysBeforeYear(y) + DaysInYear(y);
  }

  /** One more year adds its own length to the day count. */
  lemma LeapCount(y: int)
    requires y >= MinYear
    ensures DaysBeforeYear(y + 1) == DaysBeforeYear(y) + DaysInYear(y)
  {
    var x := y - 1;
    DivStep(x, 4);
    DivStep(x, 100);
    DivStep(x, 400);
    DivisorChain(y);
    assert (x + 1) * 365 == x * 365 + 365;
  }

  /** A multiple of 400 is a multiple of 100, and a multiple of 100 is a multiple of 4. */
  lemma DivisorChain(z: int)
    ensures z % 400 == 0 ==> z % 100 == 0
    ensures z % 100 == 0 ==> z % 4 == 0
  {
    if z % 400 == 0 {
      MultipleOf400(z);
    }
    if z % 100 == 0 {
      MultipleOf100(z);
    }
  }

  lemma MultipleOf400(z: int)
    requires z % 400 == 0
    ensures z % 100 == 0
  {
    var k := z / 400;
    assert z == 400 * k;
    assert z == 100 * (4 * k);
  }

  lemma MultipleOf100(z: int)
    requires z % 100 == 0
    ensures z % 4 == 0
  {
    var k := z / 100;
    assert z == 100 * k;
    assert z == 4 * (25 * k);
  }

  /** Counting one more number adds one multiple of d exactly when it is a multiple. */
  lemma DivStep(x: int, d: int)
    requires x >= 0 && (d == 4 || d == 100 || d == 400)
    ensures (x + 1) / d == x / d + (if (x + 1) % d == 0 then 1 else 0)
  {
    if d == 4 {
      assert (x + 1) / 4 == x / 4 + (if (x + 1) % 4 == 0 then 1 else 0);
    } else if d == 100 {
      assert (x + 1) / 100 == x / 100 + (if (x + 1) % 100 == 0 then 1 else 0);
    } else {
      assert (x + 1) / 400 == x / 400 + (if (x + 1) % 400 == 0 then 1 else 0);
    }
  }

  /** Later periods start on later days, one month's length apart. */
  lemma {:induction false} FirstDayIncreasing(p: Period, q: Period)
    requires p.year >= MinYear && Key(p) < Key(q)
    ensures FirstDay(p) < FirstDay(q)
    decreases Key(q) - Key(p)
  {
    var next := if p.month < 12 then Period(p.year, p.month + 1) else Period(p.year + 1, 1);
    if p.month < 12 {
      NextMonthFirstDay(p.year, p.month);
    } else {
      NextYearFirstDay(p.year);
    }
    assert Key(next) == Key(p) + 1;
    if Key(next) < Key(q) {
      FirstDayIncreasing(next, q);
    } else {
      KeyInjective(next, q);
    }
  }

  /** Day numbers agree with Python's: 0001-01-01 is day 1 ... */
  lemma FirstDayOfEpoch()
    ensures FirstDay(Period(MinYear, 1)) == 1
  {
    assert DaysBeforeYear(1) == 0;
  }

  /** ... and 2024-03-01, in a leap year, is day 738946. */
  lemma FirstDayExample()
    ensures FirstDay(Period(2024, 3)) == 738946
  {
    assert DaysBeforeYear(2024) == 738885;
    assert IsLeap(2024);
  }

  /** MaxDay is 9999-12-31. */
  lemma MaxDayIsLastDay()
    ensures FirstDay(Period(MaxYear, 12)) + DaysInMonth(MaxYear, 12) - 1 == MaxDay
  {
    assert DaysBeforeYear(9999) == 3651694;
    assert DaysBeforeMonth(9999, 12) == 334;
  }

  /** datetime(year, month, 1) succeeds exactly for years 1..9999. */
  predicate DateOk(p: Period)
  {
    MinYear <= p.year <= MaxYear
  }

  /** datetime(year, month, 1) - timedelta(days=lead) stays within the representable days. */
  predicate OrderDateOk(p: Period, lead: int)
  {
    DateOk(p) && 1 <= FirstDay(p) - lead <= MaxDay
  }
}
