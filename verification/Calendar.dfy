/** Days since 1970-01-01 as calendar dates, for the timestamps on output. */
module Calendar {

  datatype Date = Date(year: int, month: int, day: int)

  /** Eras of 400 years, then years and months that start in March. */
  function DaysToYmd(days: nat): Date
  {
    var z := days + 719468;
    DateOfEra(z / 146097, z % 146097)
  }

  function DateOfEra(era: int, doe: int): Date
  {
    var yoe := YearOfEra(doe);
    DateIn(yoe + era * 400, doe - YearStart(yoe))
  }

  function YearOfEra(doe: int): int
  {
    (doe - doe / 1460 + doe / 36524 - doe / 146096) / 365
  }

  function YearStart(yoe: int): int
  {
    365 * yoe + yoe / 4 - yoe / 100
  }

  function DateIn(year: int, doy: int): Date
  {
    var mp := (5 * doy + 2) / 153;
    var d := doy - (153 * mp + 2) / 5 + 1;
    var m := if mp < 10 then mp + 3 else mp - 9;
    Date(if m <= 2 then year + 1 else year, m, d)
  }

  // ----- The reference: the Gregorian calendar, one day at a time -----

  predicate Leap(y: int)
  {
    y % 4 == 0 && (y % 100 != 0 || y % 400 == 0)
  }

  function DaysIn(y: int, m: int): int
  {
    if m == 2 then (if Leap(y) then 29 else 28)
    else if m == 4 || m == 6 || m == 9 || m == 11 then 30
    else 31
  }

  predicate Valid(d: Date)
  {
    1 <= d.month <= 12 && 1 <= d.day <= DaysIn(d.year, d.month)
  }

  function Next(d: Date): Date
  {
    if d.day < DaysIn(d.year, d.month) then d.(day := d.day + 1)
    else if d.month < 12 then Date(d.year, d.month + 1, 1)
    else Date(d.year + 1, 1, 1)
  }

  // ----- Years that start in March, within an era of 400 -----

  function YearLength(yoe: int): int
  {
    if Leap(yoe + 1) then 366 else 365
  }

  /** Day `t` of year `r` of the 4-year group `q` of century `c` of an era. */
  predicate Parts(c: int, q: int, r: int, t: int)
  {
    0 <= c < 4 && 0 <= q < 25 && 0 <= r < 4 && 0 <= t <= 365 &&
    (t == 365 ==> r == 3 && (q < 24 || c == 3))
  }

  function DayOf(c: int, q: int, r: int, t: int): int
  {
    36524 * c + 1461 * q + 365 * r + t
  }

  lemma SplitDay(doe: nat) returns (c: int, q: int, r: int, t: int)
    requires doe < 146097
    ensures Parts(c, q, r, t) && doe == DayOf(c, q, r, t)
  {
    c := if doe < 146096 then doe / 36524 else 3;
    var inCentury := doe - 36524 * c;
    q := inCentury / 1461;
    var inGroup := inCentury - 1461 * q;
    r := if inGroup < 1460 then inGroup / 365 else 3;
    t := inGroup - 365 * r;
  }

  /** The corrections of the formula leave 365 days to every year: the leap day
      of a group is taken off by the first, and the last day of the era, which
      the second would carry over, by the third. */
  lemma YearOfParts(c: int, q: int, r: int, t: int)
    requires Parts(c, q, r, t)
    ensures YearOfEra(DayOf(c, q, r, t)) == 100 * c + 4 * q + r
  {
    var doe := DayOf(c, q, r, t);
    var carry := if 24 * c + q + 365 * r + t >= 1460 then 1 else 0;
    assert doe == 1460 * (25 * c + q + carry) + (24 * c + q + 365 * r + t - 1460 * carry);
    assert doe / 1460 == 25 * c + q + carry;
    assert doe - doe / 1460 + doe / 36524 - doe / 146096 == 365 * (100 * c + 4 * q + r) + (t - carry);
  }

  lemma StartOfParts(c: int, q: int, r: int)
    requires 0 <= c < 4 && 0 <= q < 25 && 0 <= r < 4
    ensures YearStart(100 * c + 4 * q + r) == 36524 * c + 1461 * q + 365 * r
    ensures YearLength(100 * c + 4 * q + r) == if r == 3 && (q < 24 || c == 3) then 366 else 365
  {
    var y := 100 * c + 4 * q + r;
    assert y / 4 == 25 * c + q && y / 100 == c;
  }

  /** The formula finds the year the day is in. */
  lemma YearOfEraSpec(doe: nat)
    requires doe < 146097
    ensures var y := YearOfEra(doe);
            0 <= y < 400 && 0 <= doe - YearStart(y) < YearLength(y)
  {
    var c, q, r, t := SplitDay(doe);
    YearOfParts(c, q, r, t);
    StartOfParts(c, q, r);
  }

  /** A day of a year determines the year. */
  lemma YearUnique(doe: nat, y: int)
    requires doe < 146097 && 0 <= y < 400 && 0 <= doe - YearStart(y) < YearLength(y)
    ensures YearOfEra(doe) == y
  {
    YearOfEraSpec(doe);
    var x := YearOfEra(doe);
    if x < y {
      LaterYearStartsLater(x, y);
    } else if y < x {
      LaterYearStartsLater(y, x);
    }
  }

  lemma YearsFollow(y: int)
    requires 0 <= y < 399
    ensures YearStart(y) + YearLength(y) == YearStart(y + 1)
  {
  }

  lemma {:induction false} LaterYearStartsLater(x: int, y: int)
    requires 0 <= x < y < 400
    ensures YearStart(x) + YearLength(x) <= YearStart(y)
    decreases y
  {
    YearsFollow(y - 1);
    if x + 1 < y { LaterYearStartsLater(x, y - 1); }
  }

  // ----- From the day of a March year to a date -----

  /** A March year's days are the dates from March 1 to the end of February. */
  lemma DateInNext(year: nat, doy: nat)
    requires doy < YearLength(year)
    ensures Valid(DateIn(year, doy))
    ensures doy + 1 < YearLength(year) ==> DateIn(year, doy + 1) == Next(DateIn(year, doy))
    ensures doy + 1 == YearLength(year) ==> DateIn(year + 1, 0) == Next(DateIn(year, doy))
  {
  }

  lemma LeapPeriod(x: int)
    ensures Leap(x + 400) == Leap(x)
  {
    assert (x + 400) % 400 == x % 400;
    assert (x + 400) % 100 == x % 100;
    assert (x + 400) % 4 == x % 4;
  }

  lemma {:induction false} EraKeepsLeap(y: int, era: nat)
    ensures Leap(y + era * 400) == Leap(y)
  {
    if era > 0 {
      EraKeepsLeap(y, era - 1);
      LeapPeriod(y + (era - 1) * 400);
      assert y + era * 400 == y + (era - 1) * 400 + 400;
    }
  }

  /** Day `doy` of the March year `yoe` of era `era`. */
  predicate InYear(era: int, yoe: int, doy: int)
  {
    0 <= era && 0 <= yoe < 400 && 0 <= doy < YearLength(yoe)
  }

  function DayNumber(era: int, yoe: int, doy: int): int
  {
    146097 * era + YearStart(yoe) + doy
  }

  lemma YearEnds(yoe: int, doy: int)
    requires 0 <= yoe < 400 && 0 <= doy < YearLength(yoe)
    ensures 0 <= YearStart(yoe) + doy < 146097
    ensures doy + 1 == YearLength(yoe) ==>
              YearStart(yoe) + doy + 1 == if yoe == 399 then 146097 else YearStart(yoe + 1)
  {
    if yoe < 399 { LaterYearStartsLater(yoe, 399); }
  }

  /** Every day count lies in one March year of one era. */
  lemma Decompose(z: nat) returns (era: int, yoe: int, doy: int)
    ensures InYear(era, yoe, doy) && z == DayNumber(era, yoe, doy)
  {
    era := z / 146097;
    var doe := z % 146097;
    YearOfEraSpec(doe);
    yoe := YearOfEra(doe);
    doy := doe - YearStart(yoe);
  }

  lemma EraOf(z: int, era: int, doe: int)
    requires 0 <= doe < 146097 && z == 146097 * era + doe
    ensures z / 146097 == era && z % 146097 == doe
  {
  }

  /** The formula gives that day's date. */
  lemma FormulaFinds(days: nat, era: int, yoe: int, doy: int)
    requires InYear(era, yoe, doy) && days + 719468 == DayNumber(era, yoe, doy)
    ensures DaysToYmd(days) == DateIn(yoe + era * 400, doy)
  {
    var doe := YearStart(yoe) + doy;
    YearEnds(yoe, doy);
    YearUnique(doe, yoe);
    EraOf(days + 719468, era, doe);
  }

  /** The day after, across months, years, centuries and eras. */
  lemma NextInYear(era: int, yoe: int, doy: int) returns (era': int, yoe': int, doy': int)
    requires InYear(era, yoe, doy)
    ensures InYear(era', yoe', doy') && DayNumber(era', yoe', doy') == DayNumber(era, yoe, doy) + 1
    ensures DateIn(yoe' + era' * 400, doy') == Next(DateIn(yoe + era * 400, doy))
    ensures Valid(DateIn(yoe + era * 400, doy))
  {
    EraKeepsLeap(yoe + 1, era);
    assert YearLength(yoe + era * 400) == YearLength(yoe);
    DateInNext(yoe + era * 400, doy);
    YearEnds(yoe, doy);
    if doy + 1 < YearLength(yoe) {
      era', yoe', doy' := era, yoe, doy + 1;
    } else if yoe < 399 {
      era', yoe', doy' := era, yoe + 1, 0;
    } else {
      era', yoe', doy' := era + 1, 0, 0;
    }
  }

  lemma FirstDay()
    ensures DaysToYmd(0) == Date(1970, 1, 1)
  {
    assert YearStart(369) == 134774;
    FormulaFinds(0, 4, 369, 306);
  }

  /** Every day count is a date of the calendar, and the day after is the
      calendar's next day. */
  lemma NextDayIsNextDate(days: nat)
    ensures Valid(DaysToYmd(days))
    ensures DaysToYmd(days + 1) == Next(DaysToYmd(days))
  {
    var era, yoe, doy := Decompose(days + 719468);
    var era', yoe', doy' := NextInYear(era, yoe, doy);
    FormulaFinds(days, era, yoe, doy);
    FormulaFinds(days + 1, era', yoe', doy');
  }

  predicate Earlier(a: Date, b: Date)
  {
    a.year < b.year || (a.year == b.year && (a.month < b.month || (a.month == b.month && a.day < b.day)))
  }

  /** `f` counts days in the calendar. */
  ghost predicate Counts(f: nat -> Date, days: nat)
  {
    Valid(f(days)) && f(days + 1) == Next(f(days))
  }

  lemma {:induction false} CountIncreases(f: nat -> Date, a: nat, b: nat)
    requires a < b && forall days: nat :: Counts(f, days)
    ensures Earlier(f(a), f(b))
    decreases b
  {
    assert Counts(f, b - 1);
    assert f(b) == f(b - 1 + 1);
    if a < b - 1 { CountIncreases(f, a, b - 1); }
  }

  lemma {:induction false} CountUnique(f: nat -> Date, days: nat)
    requires f(0) == Date(1970, 1, 1) && forall days: nat :: Counts(f, days)
    ensures f(days) == CountedFrom(days)
  {
    if days > 0 {
      CountUnique(f, days - 1);
      assert Counts(f, days - 1);
      assert f(days) == f(days - 1 + 1);
    }
  }

  /** Counting days one by one in the calendar from 1970-01-01. */
  function CountedFrom(days: nat): Date
  {
    if days == 0 then Date(1970, 1, 1) else Next(CountedFrom(days - 1))
  }

  lemma FormulaCounts()
    ensures forall days: nat :: Counts(DaysToYmd, days)
  {
    forall days: nat ensures Counts(DaysToYmd, days) { NextDayIsNextDate(days); }
  }

  /** Later days have later dates, so no two days share one. */
  lemma StrictlyIncreasing(a: nat, b: nat)
    requires a < b
    ensures Earlier(DaysToYmd(a), DaysToYmd(b))
  {
    FormulaCounts();
    CountIncreases(DaysToYmd, a, b);
  }

  /** The formula is the day-by-day count, in constant time. */
  lemma FormulaIsTheCount(days: nat)
    ensures DaysToYmd(days) == CountedFrom(days)
  {
    FirstDay();
    FormulaCounts();
    CountUnique(DaysToYmd, days);
  }
}
