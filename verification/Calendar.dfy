/** UTC months. The relay derives year and month from a Unix time with a
    branch-light formula; here it is proved equal to counting days with the
    Gregorian leap-year rule, for every time, negative ones included. */
module Calendar {

  const DAY_MS := 86_400_000

  /** `year_month` of `usage.rs`. Dafny's `/` is `div_euclid` for a positive
      divisor; the inner divisions only see non-negative numbers. */
  function YearMonth(ms: int): (int, int) {
    OfDay(ms / DAY_MS)
  }

  function OfDay(day: int): (int, int) {
    var z := day + 719_468;
    var era := z / 146_097;
    var doe := z - era * 146_097;
    var yoe := YearOfEra(doe);
    OfMarchYear(yoe + era * 400, doe - (365 * yoe + yoe / 4 - yoe / 100))
  }

  /** Year and month of day `doy` of the year that starts in March of `y`. */
  function OfMarchYear(y: int, doy: int): (int, int) {
    var mp := (5 * doy + 2) / 153;
    var month := if mp < 10 then mp + 3 else mp - 9;
    (y + (if month <= 2 then 1 else 0), month)
  }

  function YearOfEra(doe: int): int {
    (doe - doe / 1_460 + doe / 36_524 - doe / 146_096) / 365
  }

  // ---- the plain calendar ----

  predicate Leap(y: int) {
    y % 4 == 0 && (y % 100 != 0 || y % 400 == 0)
  }

  function MonthLength(y: int, m: int): int {
    if m == 2 then (if Leap(y) then 29 else 28)
    else if m == 4 || m == 6 || m == 9 || m == 11 then 30
    else 31
  }

  function YearLength(y: int): int {
    if Leap(y) then 366 else 365
  }

  /** The day number of 1 January, counted year by year from 1970. */
  function YearStart(y: int): int
    decreases if y >= 1970 then y - 1970 else 1970 - y
  {
    if y == 1970 then 0
    else if y > 1970 then YearStart(y - 1) + YearLength(y - 1)
    else YearStart(y + 1) - YearLength(y)
  }

  /** The day number of the first of a month, counted month by month. */
  function MonthStart(y: int, m: int): int
    requires 1 <= m <= 13
    decreases m
  {
    if m == 1 then YearStart(y) else MonthStart(y, m - 1) + MonthLength(y, m - 1)
  }

  predicate InMonth(day: int, y: int, m: int) {
    1 <= m <= 12 && MonthStart(y, m) <= day < MonthStart(y, m) + MonthLength(y, m)
  }

  // ---- closed forms of the counts ----

  /** Leap days before 1 January of `y`, counted from year 1. */
  function LeapsBefore(y: int): int {
    (y - 1) / 4 - (y - 1) / 100 + (y - 1) / 400
  }

  lemma Multiples(y: int)
    ensures y / 4 - (y - 1) / 4 == (if y % 4 == 0 then 1 else 0)
    ensures y % 100 == 0 ==> y % 4 == 0
  {
  }

  lemma Multiples100(y: int)
    ensures y / 100 - (y - 1) / 100 == (if y % 100 == 0 then 1 else 0)
    ensures y % 400 == 0 ==> y % 100 == 0
  {
  }

  lemma Multiples400(y: int)
    ensures y / 400 - (y - 1) / 400 == (if y % 400 == 0 then 1 else 0)
  {
  }

  lemma LeapStep(y: int)
    ensures LeapsBefore(y + 1) == LeapsBefore(y) + (if Leap(y) then 1 else 0)
  {
    Multiples(y);
    Multiples100(y);
    Multiples400(y);
  }

  lemma {:induction false} YearStartClosed(y: int)
    ensures YearStart(y) == 365 * (y - 1970) + LeapsBefore(y) - 477
    decreases if y >= 1970 then y - 1970 else 1970 - y
  {
    if y > 1970 {
      YearStartClosed(y - 1);
      LeapStep(y - 1);
    } else if y < 1970 {
      YearStartClosed(y + 1);
      LeapStep(y);
    }
  }

  /** Day number of 1 March of `y`. */
  function MarchStart(y: int): int {
    365 * y + y / 4 - y / 100 + y / 400 - 719_468
  }

  lemma MarchIsMarch(y: int)
    ensures MonthStart(y, 3) == MarchStart(y)
  {
    YearStartClosed(y);
    LeapStep(y);
    assert MonthStart(y, 3) == YearStart(y) + 31 + MonthLength(y, 2);
  }

  lemma MarchStep(y: int)
    ensures MarchStart(y + 1) == MarchStart(y) + 365 + (if Leap(y + 1) then 1 else 0)
  {
    LeapStep(y + 1);
  }

  // ---- the year of an era ----

  function EraYearStart(k: int): int {
    365 * k + k / 4 - k / 100 + k / 400
  }

  /** Start of a year given as century, four-year block and year in it. */
  lemma EraYearStartSplit(c: int, q: int, y: int)
    requires 0 <= c <= 3 && 0 <= q <= 24 && 0 <= y <= 3
    ensures EraYearStart(100 * c + 4 * q + y) == 36_524 * c + 1_461 * q + 365 * y
  {
    var k := 100 * c + 4 * q + y;
    assert k / 4 == 25 * c + q;
    assert k / 100 == c;
    assert k / 400 == 0;
  }

  lemma NextEraYearStart(c: int, q: int, y: int)
    requires 0 <= c <= 3 && 0 <= q <= 24 && 0 <= y <= 3
    ensures var next := EraYearStart(100 * c + 4 * q + y + 1);
            if y < 3 then next == 36_524 * c + 1_461 * q + 365 * (y + 1)
            else if q < 24 then next == 36_524 * c + 1_461 * (q + 1)
            else next == 36_524 * (c + 1) + (if c == 3 then 1 else 0)
  {
    if y < 3 {
      EraYearStartSplit(c, q, y + 1);
    } else if q < 24 {
      EraYearStartSplit(c, q + 1, 0);
    } else if c < 3 {
      EraYearStartSplit(c + 1, 0, 0);
    }
  }

  lemma BlocksOfSplit(c: int, q: int, rest: int, doe: int)
    requires 0 <= c <= 3 && 0 <= q <= 24 && 0 <= rest <= 1_460 && (q == 24 && c < 3 ==> rest < 1_460)
    requires doe == 36_524 * c + 1_461 * q + rest
    ensures doe / 1_460 == 25 * c + q + (if 24 * c + q + rest >= 1_460 then 1 else 0)
  {
  }

  lemma CenturyOfSplit(c: int, q: int, rest: int, doe: int)
    requires 0 <= c <= 3 && 0 <= q <= 24 && 0 <= rest <= 1_460 && (q == 24 && c < 3 ==> rest < 1_460)
    requires doe == 36_524 * c + 1_461 * q + rest
    ensures doe / 36_524 - doe / 146_096 == c
  {
  }

  lemma YearsOfBlocks(c: int, q: int, left: int)
    requires 0 <= c <= 3 && 0 <= q <= 24 && 0 <= left <= 1_460
    ensures (36_500 * c + 1_460 * q + left) / 365 == 100 * c + 4 * q + left / 365
  {
  }

  /** The formula undoes the split: `rest` is the day within the block. */
  lemma FormulaOfSplit(c: int, q: int, rest: int, doe: int)
    requires 0 <= c <= 3 && 0 <= q <= 24 && 0 <= rest <= 1_460 && (q == 24 && c < 3 ==> rest < 1_460)
    requires doe == 36_524 * c + 1_461 * q + rest
    ensures YearOfEra(doe) == 100 * c + 4 * q + (if rest < 1_460 then rest / 365 else 3)
  {
    var t := if 24 * c + q + rest >= 1_460 then 1 else 0;
    BlocksOfSplit(c, q, rest, doe);
    CenturyOfSplit(c, q, rest, doe);
    YearsOfBlocks(c, q, rest - t);
    assert t == 1 && rest < 1_460 ==> (rest - t) / 365 == rest / 365;
  }

  lemma YearOfEraRight(doe: int)
    requires 0 <= doe < 146_097
    ensures 0 <= YearOfEra(doe) < 400
    ensures EraYearStart(YearOfEra(doe)) <= doe < EraYearStart(YearOfEra(doe) + 1)
  {
    var c := if doe / 36_524 < 3 then doe / 36_524 else 3;
    var inCentury := doe - 36_524 * c;
    var q := if inCentury / 1_461 < 24 then inCentury / 1_461 else 24;
    var rest := inCentury - 1_461 * q;
    FormulaOfSplit(c, q, rest, doe);
    var y := if rest < 1_460 then rest / 365 else 3;
    EraYearStartSplit(c, q, y);
    NextEraYearStart(c, q, y);
  }

  // ---- the month of a March year ----

  lemma FromMarch(y: int, k: int)
    requires 0 <= k <= 9
    ensures MonthStart(y, k + 3) == MonthStart(y, 3) + (153 * k + 2) / 5
    decreases k
  {
    if k > 0 { FromMarch(y, k - 1); }
  }

  lemma JanuaryAndFebruary(y: int)
    ensures MonthStart(y + 1, 1) == MarchStart(y) + 306 && MonthStart(y + 1, 2) == MarchStart(y) + 337
  {
    MarchIsMarch(y + 1);
    MarchStep(y);
    assert MonthStart(y + 1, 3) == MonthStart(y + 1, 2) + MonthLength(y + 1, 2);
  }

  lemma MonthOfMarchYear(y: int, doy: int)
    requires 0 <= doy && MarchStart(y) + doy < MarchStart(y + 1)
    ensures var (year, m) := OfMarchYear(y, doy); InMonth(MarchStart(y) + doy, year, m)
  {
    MarchIsMarch(y);
    MarchStep(y);
    var mp := (5 * doy + 2) / 153;
    if mp < 10 {
      FromMarch(y, mp);
      if mp < 9 { FromMarch(y, mp + 1); }
    } else {
      JanuaryAndFebruary(y);
    }
  }

  // ---- the theorem ----

  lemma DayInMarchYear(era: int, doe: int)
    requires 0 <= doe < 146_097
    ensures var yoe := YearOfEra(doe);
            var y := yoe + era * 400;
            var doy := doe - (365 * yoe + yoe / 4 - yoe / 100);
            && 0 <= doy && MarchStart(y) + doy < MarchStart(y + 1)
            && MarchStart(y) + doy == era * 146_097 + doe - 719_468
  {
    var yoe := YearOfEra(doe);
    YearOfEraRight(doe);
    EraShift(era, yoe);
    EraShift(era, yoe + 1);
    assert yoe / 400 == 0;
    assert yoe + 1 + era * 400 == yoe + era * 400 + 1;
  }

  lemma DayOfEra(day: int)
    ensures var era := (day + 719_468) / 146_097;
            var doe := day + 719_468 - era * 146_097;
            0 <= doe < 146_097 && day == era * 146_097 + doe - 719_468
  {
  }

  lemma OfDaySplit(day: int) returns (y: int, doy: int)
    ensures OfDay(day) == OfMarchYear(y, doy) && day == MarchStart(y) + doy
    ensures 0 <= doy && day < MarchStart(y + 1)
  {
    DayOfEra(day);
    var era := (day + 719_468) / 146_097;
    var doe := day + 719_468 - era * 146_097;
    DayInMarchYear(era, doe);
    var yoe := YearOfEra(doe);
    y := yoe + era * 400;
    doy := doe - (365 * yoe + yoe / 4 - yoe / 100);
  }

  lemma OfDayRight(day: int)
    ensures InMonth(day, OfDay(day).0, OfDay(day).1)
  {
    var y, doy := OfDaySplit(day);
    MonthOfMarchYear(y, doy);
  }

  lemma EraShift(era: int, k: int)
    ensures MarchStart(k + era * 400) == EraYearStart(k) + era * 146_097 - 719_468
  {
    var y := k + era * 400;
    assert y / 4 == k / 4 + era * 100;
    assert y / 100 == k / 100 + era * 4;
    assert y / 400 == k / 400 + era;
  }

  /** A day lies in one month only. */
  lemma MonthIsUnique(day: int, y: int, m: int, y': int, m': int)
    requires InMonth(day, y, m) && InMonth(day, y', m')
    ensures y == y' && m == m'
  {
    InYear(day, y, m);
    InYear(day, y', m');
    if y < y' { YearsGrow(y, y'); }
    if y' < y { YearsGrow(y', y); }
    if m < m' { MonthsGrow(y, m, m'); }
    if m' < m { MonthsGrow(y, m', m); }
  }

  lemma {:induction false} MonthsGrow(y: int, m: int, n: int)
    requires 1 <= m < n <= 13
    ensures MonthStart(y, m) + MonthLength(y, m) <= MonthStart(y, n)
    decreases n - m
  {
    if m + 1 < n { MonthsGrow(y, m, n - 1); }
  }

  lemma InYear(day: int, y: int, m: int)
    requires InMonth(day, y, m)
    ensures YearStart(y) <= day < YearStart(y + 1)
  {
    if m > 1 { MonthsGrow(y, 1, m); }
    MonthsGrow(y, m, 13);
    YearEnd(y);
  }

  lemma YearEnd(y: int)
    ensures MonthStart(y, 13) == YearStart(y + 1)
  {
    YearStartClosed(y);
    YearStartClosed(y + 1);
    LeapStep(y);
    assert MonthStart(y, 3) == YearStart(y) + 31 + MonthLength(y, 2);
    FromMarch(y, 9);
    assert MonthStart(y, 13) == MonthStart(y, 12) + 31;
  }

  lemma YearsGrow(y: int, y': int)
    requires y < y'
    ensures YearStart(y + 1) <= YearStart(y')
  {
    YearStartClosed(y + 1);
    YearStartClosed(y');
    LeapsGrow(y + 1, y');
  }

  lemma LeapsGrow(y: int, y': int)
    requires y <= y'
    ensures LeapsBefore(y) <= LeapsBefore(y')
    decreases y' - y
  {
    if y < y' {
      LeapsGrow(y, y' - 1);
      LeapStep(y' - 1);
    }
  }

  /** `year_month` names the calendar month of every Unix time, and no other
      month contains that time. */
  lemma YearMonthIsTheCalendarMonth(ms: int, y: int, m: int)
    ensures YearMonth(ms) == (y, m) <==> InMonth(ms / DAY_MS, y, m)
  {
    OfDayRight(ms / DAY_MS);
    var (y0, m0) := YearMonth(ms);
    if InMonth(ms / DAY_MS, y, m) { MonthIsUnique(ms / DAY_MS, y, m, y0, m0); }
  }

  /** A month is at most 31 days long. */
  lemma MonthSpan(ms: int, ms': int)
    requires YearMonth(ms) == YearMonth(ms') && ms <= ms'
    ensures ms' - ms < 31 * DAY_MS
  {
    OfDayRight(ms / DAY_MS);
    OfDayRight(ms' / DAY_MS);
  }
}
