/** Rule-based exchange holidays: `sigmaloop/data/calendar.py`. Dates are day numbers of the proleptic Gregorian
    calendar, 1 January of year 1 being day 1. */
module Calendar {
  import opened Division

  // ---- dates -----------------------------------------------------------------------------------------------------

  predicate IsLeap(year: int) {
    year % 4 == 0 && (year % 100 != 0 || year % 400 == 0)
  }

  function MonthLength(year: int, month: int): int
    requires 1 <= month <= 12
  {
    if month == 2 then (if IsLeap(year) then 29 else 28)
    else if month == 4 || month == 6 || month == 9 || month == 11 then 30
    else 31
  }

  function DaysBeforeYear(year: int): int {
    365 * (year - 1) + (year - 1) / 4 - (year - 1) / 100 + (year - 1) / 400
  }

  function DaysBeforeMonth(year: int, month: int): int
    requires 1 <= month <= 12
    decreases month
  {
    if month == 1 then 0 else DaysBeforeMonth(year, month - 1) + MonthLength(year, month - 1)
  }

  function DateOf(year: int, month: int, day: int): int
    requires 1 <= month <= 12
  {
    DaysBeforeYear(year) + DaysBeforeMonth(year, month) + day
  }

  /** Monday is 0, Sunday 6. */
  function Weekday(date: int): int {
    (date + 6) % 7
  }

  const MONDAY := 0
  const THURSDAY := 3
  const FRIDAY := 4
  const SATURDAY := 5
  const SUNDAY := 6

  // ---- Easter ----------------------------------------------------------------------------------------------------

  /** The quantities of the anonymous Gregorian algorithm. */
  datatype Computus = Computus(a: int, b: int, c: int, d: int, e: int, g: int, h: int, i: int, k: int, lam: int, m: int)

  /** The lunar correction of a century. */
  function LunarCorrection(century: int): int {
    (century - (century + 8) / 25 + 1) / 3
  }

  /** Days from 21 March to the full moon, before the exceptions. */
  function MoonAge(a: int, b: int, d: int, g: int): int {
    (19 * a + b - d - g + 15) % 30
  }

  /** Days from the full moon to the Sunday. */
  function DaysToSunday(e: int, i: int, h: int, k: int): int {
    (32 + 2 * e + 2 * i - h - k) % 7
  }

  /** One when the exceptions pull Easter back a week. */
  function WeekBack(a: int, h: int, lam: int): int {
    (a + 11 * h + 22 * lam) / 451
  }

  function Compute(year: int): Computus {
    var a := year % 19;
    var b, c := year / 100, year % 100;
    var d, e := b / 4, b % 4;
    var g := LunarCorrection(b);
    var h := MoonAge(a, b, d, g);
    var i, k := c / 4, c % 4;
    var lam := DaysToSunday(e, i, h, k);
    Computus(a, b, c, d, e, g, h, i, k, lam, WeekBack(a, h, lam))
  }

  /** Gregorian Easter as a month and a day. */
  function EasterMonthDay(year: int): (int, int) {
    var q := Compute(year);
    var n := q.h + q.lam - 7 * q.m + 114;
    (n / 31, n % 31 + 1)
  }

  /** Days from 22 March to Easter. */
  function EasterOffset(year: int): int {
    var q := Compute(year);
    q.h + q.lam - 7 * q.m
  }

  /** The offset never leaves the five weeks from 22 March to 25 April. */
  lemma OffsetRange(year: int)
    requires year >= 1
    ensures 0 <= EasterOffset(year) <= 34
    ensures Compute(year).m == 0 || Compute(year).m == 1
  {
    hide MoonAge, DaysToSunday, WeekBack, LunarCorrection;
    var q := Compute(year);
    MoonAgeRange(q.a, q.b, q.d, q.g);
    SundayRange(q.e, q.i, q.h, q.k);
    OffsetBounds(q.a, q.h, q.lam);
  }

  lemma MoonAgeRange(a: int, b: int, d: int, g: int)
    ensures 0 <= MoonAge(a, b, d, g) <= 29
  {
  }

  lemma SundayRange(e: int, i: int, h: int, k: int)
    ensures 0 <= DaysToSunday(e, i, h, k) <= 6
    ensures 32 + 2 * e + 2 * i - h - k == 7 * ((32 + 2 * e + 2 * i - h - k) / 7) + DaysToSunday(e, i, h, k)
  {
  }

  lemma OffsetBounds(a: int, h: int, lam: int)
    requires 0 <= a <= 18 && 0 <= h <= 29 && 0 <= lam <= 6
    ensures WeekBack(a, h, lam) == (if a + 11 * h + 22 * lam >= 451 then 1 else 0)
    ensures 0 <= h + lam - 7 * WeekBack(a, h, lam) <= 34
  {
  }

  lemma MarchStarts(year: int)
    requires year >= 1
    ensures DateOf(year, 3, 0) == 365 * year + year / 4 - year / 100 + year / 400 - 306
  {
    assert DaysBeforeMonth(year, 3) == 31 + MonthLength(year, 2) by {
      assert DaysBeforeMonth(year, 2) == 31;
    }
    LeapSteps(year);
  }

  /** A leap year is where the count of leap days steps. */
  lemma LeapSteps(year: int)
    requires year >= 1
    ensures year / 4 - year / 100 + year / 400
              == (year - 1) / 4 - (year - 1) / 100 + (year - 1) / 400 + if IsLeap(year) then 1 else 0
  {
    QuotientSteps(year, 4);
    QuotientSteps(year, 100);
    QuotientSteps(year, 400);
    Remainder(25 * (year / 100), 0, 4);
    Remainder(4 * (year / 400), 0, 100);
    assert year % 100 == 0 ==> year == 25 * (year / 100) * 4;
    assert year % 400 == 0 ==> year == 4 * (year / 400) * 100;
  }

  /** Easter lies in March or April, on the offset's day. */
  lemma EasterDate(year: int)
    requires year >= 1
    ensures var (month, day) := EasterMonthDay(year);
            && (month == 3 || month == 4) && 1 <= day <= MonthLength(year, month)
            && DateOf(year, month, day) == DateOf(year, 3, 22) + EasterOffset(year)
            && (month == 3 ==> day >= 22) && (month == 4 ==> day <= 25)
  {
    OffsetRange(year);
    assert DaysBeforeMonth(year, 4) == DaysBeforeMonth(year, 3) + 31;
  }

  function Easter(year: int): int
    requires year >= 1
  {
    EasterDate(year);
    var (month, day) := EasterMonthDay(year);
    DateOf(year, month, day)
  }

  /** Easter is a Sunday, in every year. */
  lemma EasterIsSunday(year: int)
    requires year >= 1
    ensures Weekday(Easter(year)) == SUNDAY
    ensures DateOf(year, 3, 22) <= Easter(year) <= DateOf(year, 4, 25)
  {
    hide MoonAge, DaysToSunday, WeekBack, LunarCorrection;
    var q := Compute(year);
    EasterDate(year);
    OffsetRange(year);
    MarchStarts(year);
    assert DaysBeforeMonth(year, 4) == DaysBeforeMonth(year, 3) + 31;
    CenturySplit(year);
    SundayRange(q.e, q.i, q.h, q.k);
    hide Compute;
    var j := (32 + 2 * q.e + 2 * q.i - q.h - q.k) / 7;
    var weeks := 5217 * q.b + 3 * q.d + 208 * q.i + 52 * q.k + q.e + q.i - 36 - j - q.m;
    Remainder(weeks, 6, 7);
  }

  /** A year's quarters within its century, and its century's within four. */
  lemma CenturySplit(year: int)
    requires year >= 1
    ensures var q := Compute(year);
            && year == 100 * q.b + 4 * q.i + q.k && q.b == 4 * q.d + q.e
            && year / 4 == 25 * q.b + q.i && year / 100 == q.b && year / 400 == q.d
  {
    hide MoonAge, DaysToSunday, WeekBack, LunarCorrection;
    var q := Compute(year);
    Remainder(25 * q.b + q.i, q.k, 4);
    Remainder(q.d, 100 * q.e + q.c, 400);
  }

  // ---- the paschal full moon ---------------------------------------------------------------------------------------

  /** The epact by the corrections of Lilius and Clavius: the moon's age on 1 January by the golden number, the solar
      correction and the lunar one, with the two adjustments that keep the lunations apart. */
  function Epact(year: int): int {
    var golden, century := year % 19 + 1, year / 100 + 1;
    var solar, lunar := 3 * century / 4 - 12, (8 * century + 5) / 25 - 5;
    var epact := (11 * golden + 20 + lunar - solar) % 30;
    if (epact == 25 && golden > 11) || epact == 24 then epact + 1 else epact
  }

  /** The paschal full moon, in days of March: the first on or after the 21st by the epact. */
  function FullMoon(year: int): int {
    var n := 44 - Epact(year);
    if n < 21 then n + 30 else n
  }

  /** The algorithm's full moon, with its exceptions. */
  function ComputedMoon(year: int): int {
    var q := Compute(year);
    21 + q.h - (if q.h == 29 || (q.h == 28 && q.a > 10) then 1 else 0)
  }

  lemma LunarCorrectionIs(century: int)
    requires century >= 0
    ensures LunarCorrection(century) == (8 * (century + 1) + 5) / 25
  {
    var q, r := century / 25, century % 25;
    assert century == 25 * q + r;
    assert (century + 8) / 25 == q + (r + 8) / 25;
    assert (8 * (century + 1) + 5) / 25 == 8 * q + (8 * r + 13) / 25;
    assert century - (century + 8) / 25 + 1 == 3 * (8 * q) + (r + 1 - (r + 8) / 25);
    assert LunarCorrection(century) == 8 * q + (r + 1 - (r + 8) / 25) / 3;
    LunarTable(r);
  }

  lemma LunarTable(r: int)
    requires 0 <= r < 25
    ensures (r + 1 - (r + 8) / 25) / 3 == (8 * r + 13) / 25
  {
  }

  lemma SolarCorrectionIs(century: int)
    ensures 3 * (century + 1) / 4 == century - century / 4
  {
  }

  /** The moon's age counts down as the epact counts up. */
  lemma MoonMirrorsEpact(a: int, b: int, d: int, g: int, epact: int)
    requires epact == (11 * (a + 1) + 20 + (g - 5) - (b - d - 12)) % 30
    ensures MoonAge(a, b, d, g) == if epact <= 23 then 23 - epact else 53 - epact
  {
    var x, y := 19 * a + b - d - g + 15, 11 * (a + 1) + 20 + (g - 5) - (b - d - 12);
    assert x + y == 30 * (a + 1) + 23;
    var p := y / 30;
    assert y == 30 * p + epact;
    if epact <= 23 {
      assert x == (a + 1 - p) * 30 + (23 - epact);
      Remainder(a + 1 - p, 23 - epact, 30);
    } else {
      assert x == (a - p) * 30 + (53 - epact);
      Remainder(a - p, 53 - epact, 30);
    }
  }

  /** The algorithm finds the full moon the epact does. */
  lemma MoonIsByEpact(year: int)
    requires year >= 1
    ensures ComputedMoon(year) == FullMoon(year)
  {
    var q := Compute(year);
    hide LunarCorrection, MoonAge, DaysToSunday, WeekBack;
    LunarCorrectionIs(q.b);
    SolarCorrectionIs(q.b);
    var epact := (11 * (q.a + 1) + 20 + (q.g - 5) - (q.b - q.d - 12)) % 30;
    MoonMirrorsEpact(q.a, q.b, q.d, q.g, epact);
  }

  /** Easter is the first Sunday after the paschal full moon, and the only one in the week. */
  lemma EasterFollowsTheMoon(year: int)
    requires year >= 1
    ensures var moon := DateOf(year, 3, FullMoon(year));
            && moon < Easter(year) <= moon + 7 && Weekday(Easter(year)) == SUNDAY
            && forall date | moon < date <= moon + 7 && Weekday(date) == SUNDAY :: date == Easter(year)
  {
    hide MoonAge, DaysToSunday, WeekBack, LunarCorrection, FullMoon, EasterMonthDay, Weekday, DateOf;
    EasterIsSunday(year);
    EasterInMarch(year);
    OneSunday(DateOf(year, 3, FullMoon(year)), Easter(year));
  }

  lemma EasterInMarch(year: int)
    requires year >= 1
    ensures DateOf(year, 3, FullMoon(year)) < Easter(year) <= DateOf(year, 3, FullMoon(year)) + 7
  {
    EasterDate(year);
    MoonIsByEpact(year);
    hide MoonAge, DaysToSunday, WeekBack, LunarCorrection, FullMoon, EasterMonthDay;
    var q := Compute(year);
    MoonAgeRange(q.a, q.b, q.d, q.g);
    SundayRange(q.e, q.i, q.h, q.k);
    WeekAfter(q.a, q.h, q.lam);
  }

  lemma OneSunday(moon: int, easter: int)
    requires moon < easter <= moon + 7 && Weekday(easter) == SUNDAY
    ensures forall date | moon < date <= moon + 7 && Weekday(date) == SUNDAY :: date == easter
  {
  }

  lemma WeekAfter(a: int, h: int, lam: int)
    requires 0 <= a <= 18 && 0 <= h <= 29 && 0 <= lam <= 6
    ensures var moon := 21 + h - (if h == 29 || (h == 28 && a > 10) then 1 else 0);
            moon < 22 + h + lam - 7 * WeekBack(a, h, lam) <= moon + 7
  {
    OffsetBounds(a, h, lam);
  }

  // ---- weekdays of a month ----------------------------------------------------------------------------------------

  /** The n-th of a weekday in a month, counting from one. */
  function NthWeekday(year: int, month: int, weekday: int, n: int): int
    requires 1 <= month <= 12
  {
    var first := DateOf(year, month, 1);
    first + (weekday - Weekday(first)) % 7 + 7 * (n - 1)
  }

  function LastWeekday(year: int, month: int, weekday: int): int
    requires 1 <= month <= 12
  {
    var last := DateOf(year + month / 12, month % 12 + 1, 1) - 1;
    last - (Weekday(last) - weekday) % 7
  }

  /** The month after a month starts where it ends, across the year's end too. */
  lemma NextMonth(year: int, month: int)
    requires year >= 1 && 1 <= month <= 12
    ensures DateOf(year + month / 12, month % 12 + 1, 1) == DateOf(year, month, MonthLength(year, month)) + 1
  {
    hide DaysBeforeYear, IsLeap;
    if month == 12 {
      NextYear(year);
      DecemberStarts(year);
    } else {
      assert month / 12 == 0 && month % 12 == month;
    }
  }

  lemma NextYear(year: int)
    requires year >= 1
    ensures DaysBeforeYear(year + 1) == DaysBeforeYear(year) + if IsLeap(year) then 366 else 365
  {
    LeapSteps(year);
    hide IsLeap;
  }

  lemma DecemberStarts(year: int)
    ensures DaysBeforeMonth(year, 12) == (if IsLeap(year) then 335 else 334) && MonthLength(year, 12) == 31
  {
    hide IsLeap;
    assert DaysBeforeMonth(year, 3) == 31 + MonthLength(year, 2) by {
      assert DaysBeforeMonth(year, 2) == 31;
    }
    assert DaysBeforeMonth(year, 6) == DaysBeforeMonth(year, 3) + 92 by {
      assert DaysBeforeMonth(year, 5) == DaysBeforeMonth(year, 3) + 61;
    }
    assert DaysBeforeMonth(year, 9) == DaysBeforeMonth(year, 6) + 92 by {
      assert DaysBeforeMonth(year, 8) == DaysBeforeMonth(year, 6) + 61;
    }
    assert DaysBeforeMonth(year, 12) == DaysBeforeMonth(year, 9) + 91 by {
      assert DaysBeforeMonth(year, 11) == DaysBeforeMonth(year, 9) + 61;
    }
  }

  /** It is that weekday, in the n-th seven days from the start of the month, and so n - 1 of its kind come before it
      in the month. Up to the fourth it is in the month itself, from the sixth on past its end. */
  lemma NthWeekdayIs(year: int, month: int, weekday: int, n: int)
    requires year >= 1 && 1 <= month <= 12 && 0 <= weekday <= 6 && n >= 1
    ensures var date := NthWeekday(year, month, weekday, n);
            && Weekday(date) == weekday
            && (n <= 4 ==> date <= DateOf(year, month, MonthLength(year, month)))
            && (n >= 6 ==> date > DateOf(year, month, MonthLength(year, month)))
            && DateOf(year, month, 7 * (n - 1) + 1) <= date <= DateOf(year, month, 7 * n)
            && forall k | 1 <= k < n :: NthWeekday(year, month, weekday, k) == date - 7 * (n - k)
  {
    var first := DateOf(year, month, 1);
    hide DateOf;
    ShiftedWeekday(first, weekday, n - 1);
    MonthDays(year, month, 7 * (n - 1) + 1);
    MonthDays(year, month, 7 * n);
    MonthDays(year, month, MonthLength(year, month));
  }

  lemma MonthDays(year: int, month: int, day: int)
    requires 1 <= month <= 12
    ensures DateOf(year, month, day) == DateOf(year, month, 1) + day - 1
  {
  }

  lemma ShiftedWeekday(first: int, weekday: int, weeks: int)
    requires 0 <= weekday <= 6
    ensures Weekday(first + (weekday - Weekday(first)) % 7 + 7 * weeks) == weekday
  {
    var w, p := Weekday(first), (first + 6) / 7;
    assert first + 6 == 7 * p + w;
    var o, u := (weekday - w) % 7, (weekday - w) / 7;
    assert weekday - w == 7 * u + o;
    assert first + o + 7 * weeks + 6 == (p - u + weeks) * 7 + weekday;
    Remainder(p - u + weeks, weekday, 7);
  }

  lemma LastWeekdayIs(year: int, month: int, weekday: int)
    requires year >= 1 && 1 <= month <= 12 && 0 <= weekday <= 6
    ensures var date, last := LastWeekday(year, month, weekday), DateOf(year, month, MonthLength(year, month));
            && Weekday(date) == weekday && last - 6 <= date <= last
            && forall later | date < later <= last :: Weekday(later) != weekday
  {
    NextMonth(year, month);
    hide DateOf, Weekday;
    BackToWeekday(DateOf(year, month, MonthLength(year, month)), weekday);
  }

  lemma BackToWeekday(last: int, weekday: int)
    requires 0 <= weekday <= 6
    ensures var date := last - (Weekday(last) - weekday) % 7;
            && Weekday(date) == weekday && last - 6 <= date <= last
            && forall later | date < later <= last :: Weekday(later) != weekday
  {
    var w, p := Weekday(last), (last + 6) / 7;
    assert last + 6 == 7 * p + w;
    var o, u := (w - weekday) % 7, (w - weekday) / 7;
    assert w - weekday == 7 * u + o;
    assert last - o + 6 == (p + u) * 7 + weekday;
    Remainder(p + u, weekday, 7);
    hide Weekday;
    forall later | last - o < later <= last
      ensures Weekday(later) != weekday
    {
      WithinWeek(last - o, weekday, later - (last - o));
    }
  }

  lemma WithinWeek(date: int, weekday: int, s: int)
    requires Weekday(date) == weekday && 1 <= s <= 6
    ensures Weekday(date + s) != weekday
  {
  }

  // ---- the holiday table -------------------------------------------------------------------------------------------

  /** The weekday a fixed-date holiday is observed on. */
  function Observed(date: int): int {
    if Weekday(date) == SATURDAY then date - 1
    else if Weekday(date) == SUNDAY then date + 1
    else date
  }

  /** The closures that follow a rule. */
  function RuleHolidays(year: int): set<int>
    requires year >= 1
  {
    (if Weekday(DateOf(year, 1, 1)) != SATURDAY then {Observed(DateOf(year, 1, 1))} else {})
    + (if year >= 1998 then {NthWeekday(year, 1, MONDAY, 3)} else {})
    + (if year >= 2022 then {Observed(DateOf(year, 6, 19))} else {})
    + {NthWeekday(year, 2, MONDAY, 3), Easter(year) - 2, LastWeekday(year, 5, MONDAY)}
    + {Observed(DateOf(year, 7, 4)), NthWeekday(year, 9, MONDAY, 1), NthWeekday(year, 11, THURSDAY, 4),
       Observed(DateOf(year, 12, 25))}
  }

  /** Full-day closures; `unscheduled` are the listed ones with no rule behind them. */
  function NyseHolidays(year: int, unscheduled: set<int>): set<int>
    requires year >= 1
  {
    set d | d in RuleHolidays(year) + unscheduled
            && (d in RuleHolidays(year) || DateOf(year, 1, 1) <= d <= DateOf(year, 12, 31)) && Weekday(d) < SATURDAY
  }

  lemma ObservedIsWeekday(date: int)
    ensures Weekday(Observed(date)) < SATURDAY && date - 1 <= Observed(date) <= date + 1
  {
  }

  lemma GoodFridayIsFriday(year: int)
    requires year >= 1
    ensures Weekday(Easter(year) - 2) == FRIDAY
  {
    hide Easter, DateOf, Weekday;
    EasterIsSunday(year);
    TwoDaysBefore(Easter(year));
  }

  lemma TwoDaysBefore(date: int)
    requires Weekday(date) == SUNDAY
    ensures Weekday(date - 2) == FRIDAY
  {
  }

  /** Every rule yields a weekday, Good Friday a Friday, so filtering out weekends drops none of them. */
  lemma RuleHolidaysAreWeekdays(year: int, unscheduled: set<int>)
    requires year >= 1
    ensures Weekday(Easter(year) - 2) == FRIDAY
    ensures forall d | d in RuleHolidays(year) :: Weekday(d) < SATURDAY
    ensures RuleHolidays(year) <= NyseHolidays(year, unscheduled)
  {
    hide DateOf, NthWeekday, LastWeekday, Observed, Weekday, Easter;
    GoodFridayIsFriday(year);
    ObservedIsWeekday(DateOf(year, 1, 1));
    ObservedIsWeekday(DateOf(year, 6, 19));
    ObservedIsWeekday(DateOf(year, 7, 4));
    ObservedIsWeekday(DateOf(year, 12, 25));
    NthWeekdayIs(year, 1, MONDAY, 3);
    NthWeekdayIs(year, 2, MONDAY, 3);
    NthWeekdayIs(year, 9, MONDAY, 1);
    NthWeekdayIs(year, 11, THURSDAY, 4);
    LastWeekdayIs(year, 5, MONDAY);
  }

  // ---- each closure by its month, weekday and place --------------------------------------------------------------

  /** The `n`-th such weekday of the month: that weekday, on its (7n-6)th to 7n-th day. */
  predicate IsNth(year: int, month: int, weekday: int, n: int, d: int)
    requires 1 <= month <= 12
  {
    Weekday(d) == weekday && DateOf(year, month, 7 * n - 6) <= d <= DateOf(year, month, 7 * n)
  }

  /** The last such weekday of the month: that weekday, in its last seven days. */
  predicate IsLast(year: int, month: int, weekday: int, d: int)
    requires 1 <= month <= 12
  {
    && Weekday(d) == weekday
    && DateOf(year, month, MonthLength(year, month)) - 6 <= d <= DateOf(year, month, MonthLength(year, month))
  }

  /** The day a date is kept on: itself, or if that is a weekend the working day beside it. */
  predicate IsKeptOn(date: int, d: int) {
    && Weekday(d) < SATURDAY && date - 1 <= d <= date + 1
    && (Weekday(date) < SATURDAY ==> d == date)
  }

  /** The rules, one by one: New Year's Day, unless a Saturday; Martin Luther King's on January's third Monday since
      1998; Washington's on February's third Monday; the Friday before Easter; Memorial Day on May's last Monday;
      Juneteenth since 2022; Independence Day; Labor Day on September's first Monday; Thanksgiving on November's fourth
      Thursday; and Christmas Day. */
  predicate IsRuleHoliday(year: int, d: int)
    requires year >= 1
  {
    || (Weekday(DateOf(year, 1, 1)) != SATURDAY && IsKeptOn(DateOf(year, 1, 1), d))
    || (year >= 1998 && IsNth(year, 1, MONDAY, 3, d))
    || IsNth(year, 2, MONDAY, 3, d)
    || (Weekday(d) == FRIDAY && d + 2 == Easter(year))
    || IsLast(year, 5, MONDAY, d)
    || (year >= 2022 && IsKeptOn(DateOf(year, 6, 19), d))
    || IsKeptOn(DateOf(year, 7, 4), d)
    || IsNth(year, 9, MONDAY, 1, d)
    || IsNth(year, 11, THURSDAY, 4, d)
    || IsKeptOn(DateOf(year, 12, 25), d)
  }

  lemma WeekdaysApart(a: int, b: int)
    requires Weekday(a) == Weekday(b) && a - 7 < b < a + 7
    ensures a == b
  {
    if a < b {
      WithinWeek(a, Weekday(a), b - a);
    } else if b < a {
      WithinWeek(b, Weekday(b), a - b);
    }
  }

  lemma NthIs(year: int, month: int, weekday: int, n: int, d: int)
    requires year >= 1 && 1 <= month <= 12 && 0 <= weekday <= 6 && n >= 1
    ensures IsNth(year, month, weekday, n, d) <==> d == NthWeekday(year, month, weekday, n)
  {
    NthWeekdayIs(year, month, weekday, n);
    MonthDays(year, month, 7 * n - 6);
    MonthDays(year, month, 7 * n);
    hide Weekday, DateOf, NthWeekday;
    if IsNth(year, month, weekday, n, d) {
      WeekdaysApart(d, NthWeekday(year, month, weekday, n));
    }
  }

  lemma LastIs(year: int, month: int, weekday: int, d: int)
    requires year >= 1 && 1 <= month <= 12 && 0 <= weekday <= 6
    ensures IsLast(year, month, weekday, d) <==> d == LastWeekday(year, month, weekday)
  {
    LastWeekdayIs(year, month, weekday);
    hide Weekday, DateOf, LastWeekday;
    if IsLast(year, month, weekday, d) {
      WeekdaysApart(d, LastWeekday(year, month, weekday));
    }
  }

  lemma KeptOnIs(date: int, d: int)
    ensures IsKeptOn(date, d) <==> d == Observed(date)
  {
  }

  /** The table closes on exactly those days. */
  lemma RuleHolidaysIff(year: int, d: int)
    requires year >= 1
    ensures d in RuleHolidays(year) <==> IsRuleHoliday(year, d)
  {
    hide DateOf, NthWeekday, LastWeekday, Observed, Weekday, Easter, IsNth, IsLast, IsKeptOn;
    KeptOnIs(DateOf(year, 1, 1), d);
    KeptOnIs(DateOf(year, 6, 19), d);
    KeptOnIs(DateOf(year, 7, 4), d);
    KeptOnIs(DateOf(year, 12, 25), d);
    NthIs(year, 1, MONDAY, 3, d);
    NthIs(year, 2, MONDAY, 3, d);
    NthIs(year, 9, MONDAY, 1, d);
    NthIs(year, 11, THURSDAY, 4, d);
    LastIs(year, 5, MONDAY, d);
    GoodFridayIsFriday(year);
  }

  /** The year's closures are those, and the listed ones of the year that are no weekend. */
  lemma NyseHolidaysIff(year: int, unscheduled: set<int>, d: int)
    requires year >= 1
    ensures d in NyseHolidays(year, unscheduled) <==>
            || IsRuleHoliday(year, d)
            || (d in unscheduled && Weekday(d) < SATURDAY && DateOf(year, 1, 1) <= d < DateOf(year + 1, 1, 1))
  {
    hide IsRuleHoliday, RuleHolidays, Weekday, DateOf;
    RuleHolidaysIff(year, d);
    RuleHolidaysAreWeekdays(year, unscheduled);
    NextMonth(year, 12);
  }
}
