/** Days and dates: the era formula against the calendar it stands for. */
module Calendar {
  import opened Wrappers

  // ---- The Gregorian calendar ----

  datatype Date = Date(year: int, month: int, day: int)

  predicate IsLeap(year: int) { year % 4 == 0 && (year % 100 != 0 || year % 400 == 0) }

  /** Zero for a month that does not exist. */
  function DaysInMonth(year: int, month: int): int {
    if month == 2 then (if IsLeap(year) then 29 else 28)
    else if month in {4, 6, 9, 11} then 30
    else if month in {1, 3, 5, 7, 8, 10, 12} then 31
    else 0
  }

  predicate ValidDate(d: Date) {
    1 <= d.month <= 12 && 1 <= d.day <= DaysInMonth(d.year, d.month)
  }

  function NextDay(d: Date): Date {
    if d.day < DaysInMonth(d.year, d.month) then d.(day := d.day + 1)
    else if d.month < 12 then Date(d.year, d.month + 1, 1)
    else Date(d.year + 1, 1, 1)
  }

  /** Days from 0000-01-01 to the first day of a year. */
  function DaysBeforeYear(year: int): int {
    365 * year + (year + 3) / 4 - (year + 99) / 100 + (year + 399) / 400
  }

  function DaysBeforeMonth(year: int, month: int): int
    decreases month
  {
    if month <= 1 then 0 else DaysBeforeMonth(year, month - 1) + DaysInMonth(year, month - 1)
  }

  const EpochFromYearZero := 719_528

  /** Days since 1970-01-01. */
  function DayNumber(d: Date): int {
    DaysBeforeYear(d.year) + DaysBeforeMonth(d.year, d.month) + d.day - 1 - EpochFromYearZero
  }

  function LengthOf(year: int): int { if IsLeap(year) then 366 else 365 }

  lemma QuotientStep(y: int, k: int)
    requires k > 0
    ensures (y + k) / k == (y + k - 1) / k + if y % k == 0 then 1 else 0
  {
    var q, r := y / k, y % k;
    assert y == k * q + r;
    DivisionIs(y + k, k, q + 1, r);
    if r == 0 { DivisionIs(y + k - 1, k, q, k - 1); } else { DivisionIs(y + k - 1, k, q + 1, r - 1); }
  }

  lemma DivisionIs(a: int, k: int, q: int, r: int)
    requires 0 <= r < k && a == k * q + r
    ensures a / k == q
  {
    SameQuotient(k, q, r, a / k, a % k);
  }

  lemma SameQuotient(k: int, q: int, r: int, p: int, t: int)
    requires 0 <= r < k && 0 <= t < k && k * q + r == k * p + t
    ensures q == p
  {
    if q > p { Grows(k, p + 1, q); } else if q < p { Grows(k, q + 1, p); }
  }

  lemma Grows(k: int, a: int, b: int)
    requires 0 <= k && a <= b
    ensures k * a <= k * b
  {}

  lemma LeapCount(year: int)
    ensures (if year % 4 == 0 then 1 else 0) - (if year % 100 == 0 then 1 else 0) + (if year % 400 == 0 then 1 else 0)
         == LengthOf(year) - 365
  {}

  lemma YearStep(year: int)
    ensures DaysBeforeYear(year + 1) == DaysBeforeYear(year) + LengthOf(year)
  {
    QuotientStep(year, 4);
    QuotientStep(year, 100);
    QuotientStep(year, 400);
    LeapCount(year);
    hide LengthOf;
  }

  lemma MonthTable(year: int, month: int)
    requires 1 <= month <= 12
    ensures var leap := if IsLeap(year) then 1 else 0;
      DaysBeforeMonth(year, month) == if month == 1 then 0 else if month == 2 then 31
        else [59, 90, 120, 151, 181, 212, 243, 273, 304, 334][month - 3] + leap
  {
    hide IsLeap;
    if month > 1 { MonthTable(year, month - 1); }
  }

  lemma MonthsFillYear(year: int)
    ensures DaysBeforeMonth(year, 12) + DaysInMonth(year, 12) == LengthOf(year)
  {
    hide IsLeap;
    MonthTable(year, 12);
  }

  /** The day number is the calendar's own count: the epoch is 0, and each next day adds one. */
  lemma NextDayCounts(d: Date)
    requires ValidDate(d)
    ensures ValidDate(NextDay(d)) && DayNumber(NextDay(d)) == DayNumber(d) + 1
    ensures DayNumber(Date(1970, 1, 1)) == 0
  {
    hide IsLeap;
    if d.day == DaysInMonth(d.year, d.month) && d.month == 12 {
      YearStep(d.year);
      MonthsFillYear(d.year);
      hide DaysBeforeYear;
    }
  }

  // ---- Order ----

  predicate Earlier(a: Date, b: Date) {
    a.year < b.year || (a.year == b.year && (a.month < b.month || (a.month == b.month && a.day < b.day)))
  }

  lemma {:induction false} LaterMonth(year: int, month: int, later: int)
    requires 1 <= month < later <= 12
    ensures DaysBeforeMonth(year, month) + DaysInMonth(year, month) <= DaysBeforeMonth(year, later)
    decreases later
  {
    hide IsLeap;
    if month < later - 1 { LaterMonth(year, month, later - 1); }
  }

  lemma LaterYear(year: int, later: int)
    requires year < later
    ensures DaysBeforeYear(year) + LengthOf(year) <= DaysBeforeYear(later)
  {
    YearStep(year);
    hide IsLeap;
  }

  lemma WithinYear(d: Date)
    requires ValidDate(d)
    ensures 0 <= DaysBeforeMonth(d.year, d.month) + d.day - 1 < LengthOf(d.year)
  {
    hide IsLeap;
    MonthsFillYear(d.year);
    if d.month < 12 { LaterMonth(d.year, d.month, 12); }
    if d.month > 1 { LaterMonth(d.year, 1, d.month); }
  }

  lemma EarlierCounts(a: Date, b: Date)
    requires ValidDate(a) && ValidDate(b) && Earlier(a, b)
    ensures DayNumber(a) < DayNumber(b)
  {
    WithinYear(a);
    WithinYear(b);
    hide IsLeap, DaysBeforeYear;
    if a.year < b.year { LaterYear(a.year, b.year); }
    else if a.month < b.month { LaterMonth(a.year, a.month, b.month); }
  }

  /** Day numbers order dates as years, months and days do, and so tell dates apart. */
  lemma DayNumberOrders(a: Date, b: Date)
    requires ValidDate(a) && ValidDate(b)
    ensures DayNumber(a) < DayNumber(b) <==> Earlier(a, b)
    ensures DayNumber(a) == DayNumber(b) <==> a == b
  {
    hide DayNumber, ValidDate;
    if Earlier(a, b) { EarlierCounts(a, b); } else if Earlier(b, a) { EarlierCounts(b, a); }
  }

  // ---- The era formula ----

  const I64Max: int := 0x7fff_ffff_ffff_ffff
  const I64Min: int := -0x8000_0000_0000_0000

  /** Rust's `/`: towards zero. */
  function Quotient(a: int, b: int): int
    requires b > 0
  {
    if a >= 0 then a / b else -(-a / b)
  }

  function YearOfEra(dayOfEra: int): int {
    Quotient(dayOfEra - Quotient(dayOfEra, 1460) + Quotient(dayOfEra, 36524) - Quotient(dayOfEra, 146096), 365)
  }

  function EraOf(days: int): int { Quotient(if days >= 0 then days else days - 146096, 146097) }

  /** The month counts from March; January and February close the year before. */
  function CivilOf(era: int, yearOfEra: int, dayOfYear: int): Date {
    var monthPrime := Quotient(5 * dayOfYear + 2, 153);
    var day := dayOfYear - Quotient(153 * monthPrime + 2, 5) + 1;
    var month := monthPrime + if monthPrime < 10 then 3 else -9;
    Date(yearOfEra + era * 400 + (if month <= 2 then 1 else 0), month, day)
  }

  function CivilFromDays(daysSinceEpoch: int): Option<Date> {
    var days := daysSinceEpoch + 719_468;
    if days > I64Max then None
    else
      var era := EraOf(days);
      var dayOfEra := days - era * 146097;
      var yearOfEra := YearOfEra(dayOfEra);
      var dayOfYear := dayOfEra - (365 * yearOfEra + Quotient(yearOfEra, 4) - Quotient(yearOfEra, 100));
      Some(CivilOf(era, yearOfEra, dayOfYear))
  }

  /** Days from 1 March of year 0 to 1 March of year `y`. */
  function MarchYear(y: int): int { 365 * y + y / 4 - y / 100 + y / 400 }

  lemma EraFloors(days: int)
    ensures 0 <= days - EraOf(days) * 146097 <= 146096
  {}

  /** Century, four-year cycle, year and day within it, as the formula's corrections see them. */
  lemma CenturyShape(century: int, cycle: int, rest: int)
    requires 0 <= century <= 3 && 0 <= cycle <= 24 && 0 <= rest <= 1460
    requires century < 3 ==> 1461 * cycle + rest < 36524
    requires 1461 * cycle + rest <= 36524
    ensures YearOfEra(36524 * century + 1461 * cycle + rest) == 100 * century + 4 * cycle + if rest / 365 == 4 then 3 else rest / 365
  {
    var d := 36524 * century + 1461 * cycle + rest;
    var early := if 24 * century + cycle + rest >= 1460 then 1 else 0;
    assert d / 1460 == 25 * century + cycle + early by {
      DivisionIs(d, 1460, 25 * century + cycle + early, 24 * century + cycle + rest - 1460 * early);
    }
    var last := if 1461 * cycle + rest == 36524 then 1 else 0;
    assert d / 36524 == century + last && d / 146096 == last;
    var year := if rest / 365 == 4 then 3 else rest / 365;
    assert 0 <= rest - early - 365 * year < 365;
    DivisionIs(d - d / 1460 + d / 36524 - d / 146096, 365, 100 * century + 4 * cycle + year, rest - early - 365 * year);
  }

  lemma YearOfEraFits(dayOfEra: int)
    requires 0 <= dayOfEra <= 146096
    ensures var y := YearOfEra(dayOfEra);
      0 <= y <= 399 && MarchYear(y) <= dayOfEra < MarchYear(y + 1)
  {
    var century := if dayOfEra / 36524 == 4 then 3 else dayOfEra / 36524;
    var day := dayOfEra - 36524 * century;
    CenturyShape(century, day / 1461, day % 1461);
    hide YearOfEra;
    CycleFits(century, day / 1461, day % 1461);
  }

  lemma CycleFits(century: int, cycle: int, rest: int)
    requires 0 <= century <= 3 && 0 <= cycle <= 24 && 0 <= rest <= 1460 && 1461 * cycle + rest <= 36524
    requires century < 3 ==> 1461 * cycle + rest < 36524
    ensures var y := 100 * century + 4 * cycle + if rest / 365 == 4 then 3 else rest / 365;
      MarchYear(y) <= 36524 * century + 1461 * cycle + rest < MarchYear(y + 1)
  {
    var k := if rest / 365 == 4 then 3 else rest / 365;
    MarchYearIs(century, cycle, k);
    if k < 3 { MarchYearIs(century, cycle, k + 1); }
    else if cycle < 24 { MarchYearIs(century, cycle + 1, 0); }
    else { MarchYearIs(century + 1, 0, 0); }
    hide MarchYear;
  }

  lemma MarchYearIs(century: int, cycle: int, k: int)
    requires 0 <= century <= 4 && 0 <= cycle <= 24 && 0 <= k <= 3
    ensures MarchYear(100 * century + 4 * cycle + k) == 36524 * century + 1461 * cycle + 365 * k + if century == 4 then 1 else 0
  {
    var y := 100 * century + 4 * cycle + k;
    assert y / 4 == 25 * century + cycle;
    assert y / 100 == century;
    assert y / 400 == if century == 4 then 1 else 0;
  }

  /** A month counted from March, as a day of the year that began that March. */
  lemma MarchForm(y: int, monthPrime: int, day: int)
    requires 0 <= monthPrime <= 11
    ensures DayNumber(Date(y + (if monthPrime < 10 then 0 else 1), monthPrime + (if monthPrime < 10 then 3 else -9), day))
         == MarchYear(y) + (153 * monthPrime + 2) / 5 + day - 1 - 719_468
  {
    var year := y + if monthPrime < 10 then 0 else 1;
    MonthTable(year, monthPrime + if monthPrime < 10 then 3 else -9);
    YearFromMarch(y);
    hide IsLeap, DaysBeforeYear, MarchYear;
  }

  lemma YearFromMarch(y: int)
    ensures DaysBeforeYear(y) + (if IsLeap(y) then 1 else 0) == MarchYear(y) + 1
    ensures DaysBeforeYear(y + 1) == MarchYear(y) + 366
  {
    QuotientStep(y, 4);
    QuotientStep(y, 100);
    QuotientStep(y, 400);
    LeapCount(y);
    YearStep(y);
  }

  lemma LongYear(y: int)
    ensures MarchYear(y + 1) == MarchYear(y) + LengthOf(y + 1)
  {
    YearFromMarch(y);
    YearFromMarch(y + 1);
    hide IsLeap, MarchYear, DaysBeforeYear;
  }

  lemma EraShift(era: int, y: int)
    ensures MarchYear(y + 400 * era) == MarchYear(y) + 146097 * era
  {
    DivisionIs(y + 400 * era, 4, y / 4 + 100 * era, y % 4);
    DivisionIs(y + 400 * era, 100, y / 100 + 4 * era, y % 100);
    DivisionIs(y + 400 * era, 400, y / 400 + era, y % 400);
  }

  /** `dayOfYear` counts from 1 March of the given year. */
  lemma CivilFits(era: int, yearOfEra: int, dayOfYear: int)
    requires var y := yearOfEra + era * 400; 0 <= dayOfYear < MarchYear(y + 1) - MarchYear(y)
    ensures ValidDate(CivilOf(era, yearOfEra, dayOfYear))
    ensures DayNumber(CivilOf(era, yearOfEra, dayOfYear)) == MarchYear(yearOfEra + era * 400) + dayOfYear - 719_468
  {
    var y := yearOfEra + era * 400;
    LongYear(y);
    var monthPrime := (5 * dayOfYear + 2) / 153;
    var day := dayOfYear - (153 * monthPrime + 2) / 5 + 1;
    hide MarchYear, DayNumber, IsLeap, LengthOf, DaysInMonth;
    MonthFits(y, dayOfYear);
    MarchForm(y, monthPrime, day);
    assert CivilOf(era, yearOfEra, dayOfYear)
        == Date(y + (if monthPrime < 10 then 0 else 1), monthPrime + (if monthPrime < 10 then 3 else -9), day);
  }

  lemma MonthFits(y: int, dayOfYear: int)
    requires 0 <= dayOfYear < LengthOf(y + 1)
    ensures var monthPrime := (5 * dayOfYear + 2) / 153;
      && 0 <= monthPrime <= 11
      && 1 <= dayOfYear - (153 * monthPrime + 2) / 5 + 1
         <= DaysInMonth(y + (if monthPrime < 10 then 0 else 1), monthPrime + if monthPrime < 10 then 3 else -9)
  {
    hide IsLeap;
  }

  /** Every day becomes the valid date with that day number. */
  lemma CivilIsGregorian(n: int)
    requires n <= I64Max - 719_468
    ensures CivilFromDays(n).Some? && ValidDate(CivilFromDays(n).value) && DayNumber(CivilFromDays(n).value) == n
  {
    hide CivilOf, YearOfEra, EraOf, MarchYear, ValidDate, DayNumber;
    var days := n + 719_468;
    EraFloors(days);
    var era := EraOf(days);
    EraDay(era, days - era * 146097);
    var y := YearOfEra(days - era * 146097);
    CivilFits(era, y, days - era * 146097 - MarchYear(y));
    assert Quotient(y, 4) == y / 4 && Quotient(y, 100) == y / 100;
  }

  lemma EraDay(era: int, dayOfEra: int)
    requires 0 <= dayOfEra <= 146096
    ensures var y := YearOfEra(dayOfEra);
      && 0 <= y <= 399 && MarchYear(y) == 365 * y + y / 4 - y / 100
      && MarchYear(y + era * 400) == MarchYear(y) + 146097 * era
      && 0 <= dayOfEra - MarchYear(y) < MarchYear(y + era * 400 + 1) - MarchYear(y + era * 400)
  {
    YearOfEraFits(dayOfEra);
    var y := YearOfEra(dayOfEra);
    assert MarchYear(y) == 365 * y + y / 4 - y / 100;
    hide YearOfEra, MarchYear;
    EraShift(era, y);
    EraShift(era, y + 1);
    assert y + 400 * era + 1 == y + 1 + 400 * era;
  }

  /** One day later is the next date, from the epoch on and before it. */
  lemma CivilSteps(n: int)
    requires n < I64Max - 719_468
    ensures CivilFromDays(n).Some? && CivilFromDays(n + 1) == Some(NextDay(CivilFromDays(n).value))
    ensures CivilFromDays(0) == Some(Date(1970, 1, 1))
  {
    hide CivilFromDays, ValidDate, NextDay, DayNumber;
    CivilIsGregorian(n);
    CivilIsGregorian(n + 1);
    CivilIsGregorian(0);
    var d := CivilFromDays(n).value;
    NextDayCounts(d);
    DayNumberOrders(NextDay(d), CivilFromDays(n + 1).value);
    EpochDate();
    DayNumberOrders(Date(1970, 1, 1), CivilFromDays(0).value);
  }

  lemma EpochDate()
    ensures ValidDate(Date(1970, 1, 1)) && DayNumber(Date(1970, 1, 1)) == 0
  {}

  /** Days and valid dates are in one-to-one correspondence. */
  lemma CivilOfDayNumber(d: Date)
    requires ValidDate(d) && DayNumber(d) <= I64Max - 719_468
    ensures CivilFromDays(DayNumber(d)) == Some(d)
  {
    hide CivilFromDays, ValidDate, DayNumber;
    CivilIsGregorian(DayNumber(d));
    DayNumberOrders(d, CivilFromDays(DayNumber(d)).value);
  }
}
