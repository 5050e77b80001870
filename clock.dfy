/** The part of JavaScript's `Date` that the screens rely on, over integer
    instants: an instant is a count of milliseconds of local wall-clock time
    since 1970-01-01 00:00 (the time zone is folded into the count; see
    README). */
module Clock {

  const MsPerMinute: int := 60_000
  const MsPerDay: int := 86_400_000

  /** The day number of an instant (days since 1970-01-01, floor division). */
  function DayOf(t: int): int {
    t / MsPerDay
  }

  /** The time of day of an instant, in milliseconds after midnight. */
  function TimeOfDay(t: int): (r: int)
    ensures 0 <= r < MsPerDay
    ensures t == DayOf(t) * MsPerDay + r
  {
    t % MsPerDay
  }

  /** `d.getDay()`: 0 for Sunday up to 6 for Saturday; 1970-01-01 was a Thursday. */
  function Weekday(t: int): (r: int)
    ensures 0 <= r < 7
  {
    (DayOf(t) + 4) % 7
  }

  /** `d.setDate(d.getDate() + n)`: the same wall-clock time `n` days later. */
  function AddDays(t: int, n: int): (r: int)
    ensures DayOf(r) == DayOf(t) + n
    ensures TimeOfDay(r) == TimeOfDay(t)
  {
    ShiftByDays(t, n);
    t + n * MsPerDay
  }

  lemma ShiftByDays(t: int, n: int)
    ensures (t + n * MsPerDay) / MsPerDay == t / MsPerDay + n
    ensures (t + n * MsPerDay) % MsPerDay == t % MsPerDay
  {
    var q, r := t / MsPerDay, t % MsPerDay;
    assert t + n * MsPerDay == (q + n) * MsPerDay + r;
  }

  /** Midnight opening day number `day`. */
  function StartOfDay(day: int): (t: int)
    ensures DayOf(t) == day && TimeOfDay(t) == 0
  {
    ShiftByDays(0, day);
    day * MsPerDay
  }

  /** A proleptic Gregorian calendar date; `month` runs 1..12. */
  datatype Civil = Civil(year: int, month: int, day: int)

  /** The Gregorian leap-year rule. */
  predicate IsLeap(year: int) {
    year % 4 == 0 && (year % 100 != 0 || year % 400 == 0)
  }

  function DaysInMonth(year: int, month: int): int {
    if month == 2 then (if IsLeap(year) then 29 else 28)
    else if month == 4 || month == 6 || month == 9 || month == 11 then 30
    else 31
  }

  /** A date that exists on the calendar. */
  predicate ValidDate(c: Civil) {
    1 <= c.month <= 12 && 1 <= c.day <= DaysInMonth(c.year, c.month)
  }

  /** The day number of a date (days since 1970-01-01): whole 400-year eras
      of 146097 days, then 365 days a year plus one for every fourth year
      but not every hundredth, counted from 0000-03-01, then the days of the
      months of the year before the date, March first. */
  function DaysFromCivil(c: Civil): int {
    var y := if c.month <= 2 then c.year - 1 else c.year;
    var era := y / 400;
    var yoe := y - era * 400;
    var mp := if c.month > 2 then c.month - 3 else c.month + 9;
    var doy := (153 * mp + 2) / 5 + c.day - 1;
    var doe := yoe * 365 + yoe / 4 - yoe / 100 + doy;
    era * 146097 + doe - 719468
  }

  /** The calendar date of a day number. The count is shifted to start on
      0000-03-01, so that a leap day falls at the end of its year, and split
      into 400-year eras, centuries, 4-year cycles and years. The result is
      a real date, and it is the one whose day number is `days`. */
  function CivilFromDays(days: int): (c: Civil)
    ensures ValidDate(c)
    ensures DaysFromCivil(c) == days
  {
    var z := days + 719468;
    var era := z / 146097;
    var doe := z % 146097;
    var cent := if doe / 36524 < 3 then doe / 36524 else 3;
    var doc := doe - cent * 36524;
    var quad := doc / 1461;
    var doq := doc % 1461;
    var y := if doq / 365 < 3 then doq / 365 else 3;
    var doy := doq - y * 365;
    DayOfEraSplits(doe, cent, doc, quad, doq, y, doy);
    DateOfYear(era, cent, quad, y, doy)
  }

  /** The date on day `doy` of the year (from 1 March) that is year `y` of
      4-year cycle `quad` of century `cent` of era `era`: the month is found
      from the day by the 153-days-per-5-months rule, and January and
      February belong to the next calendar year. */
  function DateOfYear(era: int, cent: int, quad: int, y: int, doy: int): (c: Civil)
    requires 0 <= cent <= 3 && 0 <= quad <= 24 && 0 <= y <= 3 && 0 <= doy <= 365
    requires doy == 365 ==> y == 3 && (quad == 24 ==> cent == 3)
    ensures ValidDate(c)
    ensures DaysFromCivil(c) == era * 146097 + cent * 36524 + quad * 1461 + y * 365 + doy - 719468
  {
    var mp := (5 * doy + 2) / 153;
    var d := doy - (153 * mp + 2) / 5 + 1;
    var m := if mp < 10 then mp + 3 else mp - 9;
    MonthOfYear(doy, mp, d, m);
    DateOfEraCounts(era, cent, quad, y, doy, mp, d, m);
    Civil(era * 400 + cent * 100 + quad * 4 + y + (if m <= 2 then 1 else 0), m, d)
  }

  /** A day of the era splits into centuries of 36524 days (the last one a
      day longer), 4-year cycles of 1461 days and years of 365 days (the last
      one a day longer); only a year that closes a full cycle has day 365. */
  lemma DayOfEraSplits(doe: int, cent: int, doc: int, quad: int, doq: int, y: int, doy: int)
    requires 0 <= doe < 146097
    requires cent == if doe / 36524 < 3 then doe / 36524 else 3
    requires doc == doe - cent * 36524
    requires quad == doc / 1461 && doq == doc % 1461
    requires y == if doq / 365 < 3 then doq / 365 else 3
    requires doy == doq - y * 365
    ensures 0 <= cent <= 3 && 0 <= quad <= 24 && 0 <= y <= 3 && 0 <= doy <= 365
    ensures doe == cent * 36524 + quad * 1461 + y * 365 + doy
    ensures doy == 365 ==> y == 3 && (quad == 24 ==> cent == 3)
  {
  }

  /** Counting the date back gives the day it was made from, and the date
      exists: February 29 only comes from day 365 of a year, which is a
      leap year. */
  lemma DateOfEraCounts(era: int, cent: int, quad: int, y: int, doy: int, mp: int, d: int, m: int)
    requires 0 <= cent <= 3 && 0 <= quad <= 24 && 0 <= y <= 3 && 0 <= doy <= 365
    requires doy == 365 ==> y == 3 && (quad == 24 ==> cent == 3)
    requires 0 <= mp <= 11 && 1 <= m <= 12 && (if m > 2 then m - 3 else m + 9) == mp
    requires doy == (153 * mp + 2) / 5 + d - 1
    requires 1 <= d
    requires m != 2 ==> d <= DaysInMonth(0, m)
    requires m == 2 ==> d <= 28 || (d == 29 && doy == 365)
    ensures var c := Civil(era * 400 + cent * 100 + quad * 4 + y + (if m <= 2 then 1 else 0), m, d);
      ValidDate(c) && DaysFromCivil(c) == era * 146097 + cent * 36524 + quad * 1461 + y * 365 + doy - 719468
  {
    var yoe := cent * 100 + quad * 4 + y;
    var year := era * 400 + yoe + (if m <= 2 then 1 else 0);
    var c := Civil(year, m, d);
    YearOfEraSplits(cent, quad, y);
    assert (if m <= 2 then year - 1 else year) == era * 400 + yoe;
    assert (era * 400 + yoe) / 400 == era;
    if m == 2 && d == 29 {
      LeapYearOfCycle(era, cent, quad);
    }
  }

  /** The year of the era splits back into its century, cycle and year. */
  lemma YearOfEraSplits(cent: int, quad: int, y: int)
    requires 0 <= cent <= 3 && 0 <= quad <= 24 && 0 <= y <= 3
    ensures var yoe := cent * 100 + quad * 4 + y;
      yoe / 4 == cent * 25 + quad && yoe / 100 == cent
  {
  }

  /** The month and day within a year that starts on 1 March. */
  lemma MonthOfYear(doy: int, mp: int, d: int, m: int)
    requires 0 <= doy <= 365
    requires mp == (5 * doy + 2) / 153
    requires d == doy - (153 * mp + 2) / 5 + 1
    requires m == if mp < 10 then mp + 3 else mp - 9
    ensures 0 <= mp <= 11 && 1 <= m <= 12
    ensures (if m > 2 then m - 3 else m + 9) == mp
    ensures 1 <= d
    ensures m != 2 ==> d <= DaysInMonth(0, m)
    ensures m == 2 ==> d <= 28 || (d == 29 && doy == 365)
  {
    assert 153 * mp <= 5 * doy + 2 < 153 * mp + 153;
  }

  /** The year holding the leap day of a full 4-year cycle is a leap year. */
  lemma LeapYearOfCycle(era: int, cent: int, quad: int)
    requires 0 <= cent <= 3 && 0 <= quad <= 24
    requires quad == 24 ==> cent == 3
    ensures IsLeap(era * 400 + cent * 100 + quad * 4 + 4)
  {
    var year := era * 400 + cent * 100 + quad * 4 + 4;
    assert year == 4 * (era * 100 + cent * 25 + quad + 1);
    if quad == 24 {
      assert year == 400 * (era + 1);
    } else {
      assert year == 100 * (era * 4 + cent) + (quad * 4 + 4);
    }
  }

  /** The other direction: the day number of a real date leads back to
      that date, so no two dates share a day number. */
  lemma CivilOfDayNumber(c: Civil)
    requires ValidDate(c)
    ensures CivilFromDays(DaysFromCivil(c)) == c
  {
    var c' := CivilFromDays(DaysFromCivil(c));
    var era, cent, quad, y, doy := DateParts(c);
    var era', cent', quad', y', doy' := DateParts(c');
    PartsAgree(era, cent, quad, y, doy, era', cent', quad', y', doy');
  }

  /** Two splits that count the same day are the same split. */
  lemma PartsAgree(era: int, cent: int, quad: int, y: int, doy: int,
                   era': int, cent': int, quad': int, y': int, doy': int)
    requires 0 <= cent <= 3 && 0 <= quad <= 24 && 0 <= y <= 3 && 0 <= doy <= 365
    requires doy == 365 ==> y == 3 && (quad == 24 ==> cent == 3)
    requires 0 <= cent' <= 3 && 0 <= quad' <= 24 && 0 <= y' <= 3 && 0 <= doy' <= 365
    requires doy' == 365 ==> y' == 3 && (quad' == 24 ==> cent' == 3)
    requires era * 146097 + cent * 36524 + quad * 1461 + y * 365 + doy
          == era' * 146097 + cent' * 36524 + quad' * 1461 + y' * 365 + doy'
    ensures era == era' && cent == cent' && quad == quad' && y == y' && doy == doy'
  {
    var doe := cent * 36524 + quad * 1461 + y * 365 + doy;
    var doe' := cent' * 36524 + quad' * 1461 + y' * 365 + doy';
    DayOfEraJoins(doe, cent, quad, y, doy);
    DayOfEraJoins(doe', cent', quad', y', doy');
    assert era == era';
  }

  /** A real date is `DateOfYear` of its era, century, 4-year cycle, year
      of the cycle and day of the year. */
  lemma DateParts(c: Civil) returns (era: int, cent: int, quad: int, y: int, doy: int)
    requires ValidDate(c)
    ensures 0 <= cent <= 3 && 0 <= quad <= 24 && 0 <= y <= 3 && 0 <= doy <= 365
    ensures doy == 365 ==> y == 3 && (quad == 24 ==> cent == 3)
    ensures DaysFromCivil(c) == era * 146097 + cent * 36524 + quad * 1461 + y * 365 + doy - 719468
    ensures c == DateOfYear(era, cent, quad, y, doy)
  {
    var y0 := if c.month <= 2 then c.year - 1 else c.year;
    era := y0 / 400;
    var yoe := y0 - era * 400;
    var mp := if c.month > 2 then c.month - 3 else c.month + 9;
    doy := (153 * mp + 2) / 5 + c.day - 1;
    cent, quad, y := yoe / 100, (yoe % 100) / 4, yoe % 4;
    YearOfEraParts(yoe);
    YearOfEraSplits(cent, quad, y);
    DayOfMonthStart(mp, c.day, c.month, c.year);
    if doy == 365 {
      assert c.year == era * 400 + cent * 100 + quad * 4 + y + 1;
      LeapYearInEra(era, cent, quad, y);
    }
    assert DateOfYear(era, cent, quad, y, doy) == c by {
      assert (5 * doy + 2) / 153 == mp;
      assert doy - (153 * mp + 2) / 5 + 1 == c.day;
      assert (if mp < 10 then mp + 3 else mp - 9) == c.month;
    }
  }

  lemma YearOfEraParts(yoe: int)
    requires 0 <= yoe < 400
    ensures 0 <= yoe / 100 <= 3 && 0 <= (yoe % 100) / 4 <= 24 && 0 <= yoe % 4 <= 3
    ensures yoe == yoe / 100 * 100 + (yoe % 100) / 4 * 4 + yoe % 4
  {
  }

  /** Where the day of a valid date falls in the year that starts on 1 March. */
  lemma DayOfMonthStart(mp: int, d: int, m: int, year: int)
    requires 1 <= m <= 12 && 1 <= d <= DaysInMonth(year, m)
    requires mp == if m > 2 then m - 3 else m + 9
    ensures var doy := (153 * mp + 2) / 5 + d - 1;
      0 <= doy <= 365 && (5 * doy + 2) / 153 == mp
      && (doy == 365 ==> m == 2 && IsLeap(year))
  {
  }

  /** Only a year after the third of a 4-year cycle, and not the year after
      the last cycle of a century unless the century closes the era, leaps. */
  lemma LeapYearInEra(era: int, cent: int, quad: int, y: int)
    requires 0 <= cent <= 3 && 0 <= quad <= 24 && 0 <= y <= 3
    requires IsLeap(era * 400 + cent * 100 + quad * 4 + y + 1)
    ensures y == 3 && (quad == 24 ==> cent == 3)
  {
    var year := era * 400 + cent * 100 + quad * 4 + y + 1;
    assert year == 4 * (era * 100 + cent * 25 + quad) + y + 1;
  }

  /** The reverse of `DayOfEraSplits`: the split of a day of the era is the
      one it was built from. */
  lemma DayOfEraJoins(doe: int, cent: int, quad: int, y: int, doy: int)
    requires 0 <= cent <= 3 && 0 <= quad <= 24 && 0 <= y <= 3 && 0 <= doy <= 365
    requires doy == 365 ==> y == 3 && (quad == 24 ==> cent == 3)
    requires doe == cent * 36524 + quad * 1461 + y * 365 + doy
    ensures 0 <= doe < 146097
    ensures (if doe / 36524 < 3 then doe / 36524 else 3) == cent
    ensures var doc := doe - cent * 36524;
      doc / 1461 == quad && doc % 1461 == y * 365 + doy
    ensures (if (y * 365 + doy) / 365 < 3 then (y * 365 + doy) / 365 else 3) == y
  {
  }

  /** A few day numbers and their dates: the epoch, the day before it, a
      leap day of a year divisible by 400 and the first day of 2024. */
  lemma CalendarSamples()
    ensures CivilFromDays(0) == Civil(1970, 1, 1)
    ensures CivilFromDays(-1) == Civil(1969, 12, 31)
    ensures CivilFromDays(11016) == Civil(2000, 2, 29)
    ensures CivilFromDays(19723) == Civil(2024, 1, 1)
  {
    assert 1969 / 400 == 4 && 2023 / 400 == 5 && 1999 / 400 == 4;
    assert DaysFromCivil(Civil(1970, 1, 1)) == 0;
    assert DaysFromCivil(Civil(1969, 12, 31)) == -1;
    assert DaysFromCivil(Civil(2000, 2, 29)) == 11016;
    assert DaysFromCivil(Civil(2024, 1, 1)) == 19723;
    CivilOfDayNumber(Civil(1970, 1, 1));
    CivilOfDayNumber(Civil(1969, 12, 31));
    CivilOfDayNumber(Civil(2000, 2, 29));
    CivilOfDayNumber(Civil(2024, 1, 1));
  }

  /** `d.getMonth()`: 0 for January up to 11 for December. */
  function MonthIndexOf(t: int): (r: int)
    ensures 0 <= r < 12
  {
    CivilFromDays(DayOf(t)).month - 1
  }

  /** `d.getFullYear()`. */
  function FullYearOf(t: int): int {
    CivilFromDays(DayOf(t)).year
  }

  /** The month and the year read off an instant are those of the one real
      date whose day number is the instant's day. */
  lemma MonthAndYearOf(t: int, c: Civil)
    requires ValidDate(c) && DaysFromCivil(c) == DayOf(t)
    ensures MonthIndexOf(t) == c.month - 1 && FullYearOf(t) == c.year
  {
    CivilOfDayNumber(c);
  }

}
