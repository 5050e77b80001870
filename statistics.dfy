/** The statistics dashboard (screens/StatisticalData/StatisticalData.js):
    the week and month windows, the filter over `created_date`, the four
    totals, the latest BMI, the bar-chart scale and the navigation arrows. */
module Statistics {
  import opened Common
  import opened Clock

  /** The two filter tabs, "TUẦN" (week) and "THÁNG" (month). */
  datatype Mode = Week | Month

  /** A daily metric as the dashboard receives it; a field the response
      leaves out (or sends as a falsy value) is `None`. */
  datatype MetricItem = MetricItem(
    createdDate: int,
    steps: Option<int>,
    waterIntake: Option<int>,
    caloriesBurned: Option<int>)

  /** An exercise plan as the dashboard receives it. */
  datatype PlanItem = PlanItem(createdDate: int, duration: Option<int>)

  /** A health profile as the dashboard receives it (`bmi` is nullable). */
  datatype ProfileItem = ProfileItem(bmi: Option<int>)

  /** The value of `month`: 0 for January up to 11 for December. */
  type MonthIndex = m: int | 0 <= m < 12

  /** An inclusive interval of instants. */
  datatype Window = Window(start: int, end: int)

  predicate InWindow(d: int, w: Window) {
    w.start <= d <= w.end
  }

  /* ================= DATE ================= */

  /** `getWeekRange` as written: the start is today's date moved back to
      `today - weekday + 1` and `7 * weekOffset` days further; the end is six
      days after the start. Both keep the current time of day. */
  function WeekRangeAsWritten(now: int, weekOffset: int): (w: Window)
    ensures DayOf(w.start) == DayOf(now) - Weekday(now) + 1 + 7 * weekOffset
    ensures DayOf(w.end) == DayOf(w.start) + 6
    ensures TimeOfDay(w.start) == TimeOfDay(now) && TimeOfDay(w.end) == TimeOfDay(now)
    ensures w.end - w.start == 6 * MsPerDay
  {
    var start := AddDays(now, 1 - Weekday(now) + 7 * weekOffset);
    Window(start, AddDays(start, 6))
  }

  /** As written, on a Sunday (weekday 0) the current window starts the next
      day, so the current instant, and the whole week up to it, is outside it. */
  lemma SundayMissedAsWritten(now: int)
    requires Weekday(now) == 0
    ensures DayOf(WeekRangeAsWritten(now, 0).start) == DayOf(now) + 1
    ensures !InWindow(now, WeekRangeAsWritten(now, 0))
  {
  }

  /** As written, the window opens at the current time of day on its Monday,
      so an item created at midnight that Monday is outside it. */
  lemma MondayMidnightMissedAsWritten(now: int, weekOffset: int)
    requires TimeOfDay(now) > 0
    ensures var w := WeekRangeAsWritten(now, weekOffset);
            Weekday(w.start) == 1 && !InWindow(StartOfDay(DayOf(w.start)), w)
  {
    var day := DayOf(now);
    var q := (day + 4) / 7;
    assert day + 4 == 7 * q + Weekday(now);
    assert DayOf(WeekRangeAsWritten(now, weekOffset).start) + 4 == 7 * (q + weekOffset) + 1;
  }

  /** How many days ago the week's Monday was: 0 on a Monday, 6 on a Sunday. */
  function DaysSinceMonday(t: int): (n: int)
    ensures 0 <= n < 7
    ensures Weekday(t) == (n + 1) % 7
  {
    (Weekday(t) + 6) % 7
  }

  /** `getWeekRange` as evidently intended: from midnight opening the Monday
      of the week `weekOffset` weeks after the current one, to the last
      millisecond of its Sunday. */
  function WeekRange(now: int, weekOffset: int): (w: Window)
    ensures TimeOfDay(w.start) == 0
    ensures DayOf(w.start) == DayOf(now) - DaysSinceMonday(now) + 7 * weekOffset
    ensures w.end == w.start + 7 * MsPerDay - 1
  {
    var start := StartOfDay(DayOf(now) - DaysSinceMonday(now) + 7 * weekOffset);
    Window(start, start + 7 * MsPerDay - 1)
  }

  /** Every window starts on a Monday, and the current window holds the
      current instant, on a Sunday too. */
  lemma WeekStartsOnMonday(now: int, weekOffset: int)
    ensures Weekday(WeekRange(now, weekOffset).start) == 1
    ensures InWindow(now, WeekRange(now, 0))
  {
    var day := DayOf(now);
    var q := (day + 4) / 7;
    assert day + 4 == 7 * q + Weekday(now);
    var s := DayOf(WeekRange(now, weekOffset).start);
    if Weekday(now) == 0 {
      assert s + 4 == 7 * (q - 1 + weekOffset) + 1;
    } else {
      assert s + 4 == 7 * (q + weekOffset) + 1;
    }
  }

  /** A window holds whole days: an instant is in it exactly when its day is
      one of the seven days from the window's Monday on. */
  lemma WeekHoldsWholeDays(now: int, weekOffset: int, d: int)
    ensures var w := WeekRange(now, weekOffset);
            InWindow(d, w) <==> DayOf(w.start) <= DayOf(d) <= DayOf(w.start) + 6
  {
    var w := WeekRange(now, weekOffset);
    var s, e := DayOf(w.start), DayOf(d);
    assert w.start == s * MsPerDay;
    assert d == e * MsPerDay + TimeOfDay(d);
    if e < s {
      assert e * MsPerDay <= (s - 1) * MsPerDay;
    } else if e > s + 6 {
      assert (s + 7) * MsPerDay <= e * MsPerDay;
    }
  }

  /** The arrows move the window by exactly one week. */
  lemma WeekShift(now: int, weekOffset: int)
    ensures WeekRange(now, weekOffset + 1).start == WeekRange(now, weekOffset).start + 7 * MsPerDay
    ensures WeekRange(now, weekOffset - 1).start == WeekRange(now, weekOffset).start - 7 * MsPerDay
  {
  }

  /** Windows of different offsets never overlap, so no item is counted in two weeks. */
  lemma WeeksAreDisjoint(now: int, j: int, k: int, d: int)
    requires InWindow(d, WeekRange(now, j)) && InWindow(d, WeekRange(now, k))
    ensures j == k
  {
    WeekHoldsWholeDays(now, j, d);
    WeekHoldsWholeDays(now, k, d);
  }

  /* ================= FILTER ================= */

  /** The test `filterByTime` applies to one item's creation instant `d`:
      inclusive membership of the week window, or equal month and year. */
  predicate Selected(mode: Mode, now: int, weekOffset: int, month: MonthIndex, year: int, d: int) {
    if mode == Week then InWindow(d, WeekRange(now, weekOffset))
    else MonthIndexOf(d) == month && FullYearOf(d) == year
  }

  function KeepIf<T>(mode: Mode, now: int, weekOffset: int, month: MonthIndex, year: int,
                     dateOf: T -> int): T -> bool
  {
    x => Selected(mode, now, weekOffset, month, year, dateOf(x))
  }

  /** `filterByTime(data)` with the screen's filter, offset, month and year:
      a subsequence of its input in the original order, holding exactly the
      selected items. */
  function FilterByTime<T>(items: seq<T>, dateOf: T -> int,
                           mode: Mode, now: int, weekOffset: int, month: MonthIndex, year: int): (r: seq<T>)
    ensures IsSubsequence(r, items)
    ensures forall i :: 0 <= i < |r| ==> r[i] in items && Selected(mode, now, weekOffset, month, year, dateOf(r[i]))
    ensures forall i :: 0 <= i < |items| && Selected(mode, now, weekOffset, month, year, dateOf(items[i])) ==> items[i] in r
    ensures |r| == CountIf(items, KeepIf(mode, now, weekOffset, month, year, dateOf))
  {
    var keep := KeepIf(mode, now, weekOffset, month, year, dateOf);
    FilterIsSubsequence(items, keep);
    FilterLength(items, keep);
    Filter(items, keep)
  }

  /** In month mode an item is kept exactly when its month and year are the
      screen's; the week offset plays no part. */
  lemma MonthModeIgnoresWeek<T>(items: seq<T>, dateOf: T -> int, now: int, j: int, k: int,
                                month: MonthIndex, year: int)
    ensures FilterByTime(items, dateOf, Month, now, j, month, year)
         == FilterByTime(items, dateOf, Month, now, k, month, year)
  {
    FilterCongruent(items, KeepIf(Month, now, j, month, year, dateOf), KeepIf(Month, now, k, month, year, dateOf));
  }

  /* ================= CALCULATE ================= */

  /** `item.field || 0`. */
  function OrZero(v: Option<int>): int {
    match v
    case Some(n) => n
    case None => 0
  }

  /** `xs.reduce((sum, item) => sum + (field(item) || 0), acc)`: a left fold,
      which comes to the accumulator plus the sum of the field. */
  function Reduce<T>(acc: int, xs: seq<T>, field: T -> Option<int>): (r: int)
    ensures r == acc + Sum(xs, field)
    decreases |xs|
  {
    if xs == [] then acc else Reduce(acc + OrZero(field(xs[0])), xs[1..], field)
  }

  /** The reference total: the sum of the field over the items, missing as
      0, added up from the last item back. */
  function Sum<T>(xs: seq<T>, field: T -> Option<int>): int {
    if xs == [] then 0 else OrZero(field(xs[0])) + Sum(xs[1..], field)
  }

  /** The total over two lists is the sum of their totals. */
  lemma {:induction false} SumAppend<T>(xs: seq<T>, ys: seq<T>, field: T -> Option<int>)
    ensures Sum(xs + ys, field) == Sum(xs, field) + Sum(ys, field)
  {
    if xs != [] {
      assert (xs + ys)[0] == xs[0] && (xs + ys)[1..] == xs[1..] + ys;
      SumAppend(xs[1..], ys, field);
    } else {
      assert xs + ys == ys;
    }
  }

  /** A field that every item leaves out totals 0. */
  lemma {:induction false} SumOfMissing<T>(xs: seq<T>, field: T -> Option<int>)
    requires forall i :: 0 <= i < |xs| ==> field(xs[i]) == None
    ensures Sum(xs, field) == 0
  {
    if xs != [] {
      SumOfMissing(xs[1..], field);
    }
  }

  /** Non-negative values give a non-negative total, bounded below by each value. */
  lemma {:induction false} SumBounds<T>(xs: seq<T>, field: T -> Option<int>)
    requires forall i :: 0 <= i < |xs| ==> OrZero(field(xs[i])) >= 0
    ensures Sum(xs, field) >= 0
    ensures forall i :: 0 <= i < |xs| ==> OrZero(field(xs[i])) <= Sum(xs, field)
  {
    if xs != [] {
      SumBounds(xs[1..], field);
      forall i | 1 <= i < |xs|
        ensures OrZero(field(xs[i])) <= Sum(xs, field)
      {
        assert xs[i] == xs[1..][i - 1];
      }
    }
  }

  function StepsOf(m: MetricItem): Option<int> { m.steps }
  function WaterOf(m: MetricItem): Option<int> { m.waterIntake }
  function CaloriesOf(m: MetricItem): Option<int> { m.caloriesBurned }
  function DurationOf(p: PlanItem): Option<int> { p.duration }
  function MetricDate(m: MetricItem): int { m.createdDate }
  function PlanDate(p: PlanItem): int { p.createdDate }

  /** What the BMI card shows: "--" without profiles, else the last one's bmi. */
  datatype BmiText = Dashes | Shown(bmi: Option<int>)

  /** `healthProfiles.length ? healthProfiles[healthProfiles.length - 1].bmi : "--"`. */
  function LatestBmi(profiles: seq<ProfileItem>): (r: BmiText)
    ensures r == Dashes <==> profiles == []
  {
    if |profiles| > 0 then Shown(profiles[|profiles| - 1].bmi) else Dashes
  }

  /** The card follows the most recently listed profile: whatever came
      before it does not matter. */
  lemma LatestBmiIsLast(earlier: seq<ProfileItem>, last: ProfileItem)
    ensures LatestBmi(earlier + [last]) == Shown(last.bmi)
  {
  }

  /** `BarChart`'s `Math.max(...values, 1)`: the scale the bar heights are divided by. */
  function ChartMax(values: seq<int>): (r: int)
    ensures r >= 1
    ensures forall i :: 0 <= i < |values| ==> values[i] <= r
    ensures r == 1 || r in values
  {
    if values == [] then 1
    else
      var rest := ChartMax(values[1..]);
      if values[0] > rest then values[0] else rest
  }

  /* ================= NAVIGATION ================= */

  /** The month the left arrow moves to, `(month + 11) % 12`. */
  function PrevMonth(m: MonthIndex): (r: MonthIndex)
    ensures r == if m == 0 then 11 else m - 1
  {
    (m + 11) % 12
  }

  /** The month the right arrow moves to, `(month + 1) % 12`. */
  function NextMonth(m: MonthIndex): (r: MonthIndex)
    ensures r == if m == 11 then 0 else m + 1
  {
    (m + 1) % 12
  }

  /** The two arrows undo each other. */
  lemma ArrowsAreInverse(m: MonthIndex)
    ensures PrevMonth(NextMonth(m)) == m
    ensures NextMonth(PrevMonth(m)) == m
  {
  }

  /** `n` presses of the right arrow. */
  function NextMonths(m: MonthIndex, n: nat): MonthIndex {
    if n == 0 then m else NextMonth(NextMonths(m, n - 1))
  }

  /** `n` presses of the right arrow land on `(m + n) mod 12`; twelve presses
      come back to the same month (and the year label never moves). */
  lemma {:induction false} NextMonthsWrap(m: MonthIndex, n: nat)
    ensures NextMonths(m, n) == (m + n) % 12
  {
    if n == 0 {
      assert m % 12 == m;
    } else {
      NextMonthsWrap(m, n - 1);
      ModTwelveStep(m + n - 1);
    }
  }

  lemma ModTwelveStep(a: nat)
    ensures (a + 1) % 12 == if a % 12 == 11 then 0 else a % 12 + 1
  {
    var q, r := a / 12, a % 12;
    assert a == 12 * q + r;
    if r == 11 {
      assert a + 1 == 12 * (q + 1) + 0;
    } else {
      assert a + 1 == 12 * q + (r + 1);
    }
  }

  /* ================= SCREEN ================= */

  /** Everything the screen renders from its state and the three fetched lists. */
  datatype Dashboard = Dashboard(
    bmi: BmiText,
    totalWater: int,
    totalSteps: int,
    totalCalories: int,
    totalMinutes: int,
    sessions: nat,
    chartMax: int,
    window: Window)

  /** The body of `StatisticalData` after the data has loaded. */
  function Summarize(mode: Mode, now: int, weekOffset: int, month: MonthIndex, year: int,
                     profiles: seq<ProfileItem>, metrics: seq<MetricItem>, plans: seq<PlanItem>): (d: Dashboard)
    ensures var ms := FilterByTime(metrics, MetricDate, mode, now, weekOffset, month, year);
            var ps := FilterByTime(plans, PlanDate, mode, now, weekOffset, month, year);
            && d.totalWater == Sum(ms, WaterOf)
            && d.totalSteps == Sum(ms, StepsOf)
            && d.totalCalories == Sum(ms, CaloriesOf)
            && d.totalMinutes == Sum(ps, DurationOf)
            && d.sessions == |ps|
    ensures d.chartMax >= 1 && d.chartMax >= d.totalWater && d.chartMax >= d.totalSteps
            && d.chartMax >= d.totalCalories
    ensures d.chartMax == 1 || d.chartMax == d.totalWater || d.chartMax == d.totalSteps
            || d.chartMax == d.totalCalories
    ensures d.bmi == LatestBmi(profiles)
    ensures d.window == WeekRange(now, weekOffset)
  {
    var ms := FilterByTime(metrics, MetricDate, mode, now, weekOffset, month, year);
    var ps := FilterByTime(plans, PlanDate, mode, now, weekOffset, month, year);
    var water := Reduce(0, ms, WaterOf);
    var steps := Reduce(0, ms, StepsOf);
    var calories := Reduce(0, ms, CaloriesOf);
    var chart := [water, steps, calories];
    assert chart[0] == water && chart[1] == steps && chart[2] == calories;
    Dashboard(LatestBmi(profiles), water, steps, calories, Reduce(0, ps, DurationOf), |ps|,
              ChartMax(chart), WeekRange(now, weekOffset))
  }

  /** The screen's state cells: the filter tab, the week offset, the month and
      the year (which has no setter). */
  class StatisticsScreen {
    var filter: Mode
    var weekOffset: int
    var month: MonthIndex
    const year: int

    /** The initial state on a given instant: week tab, this week, this month and year. */
    constructor (now: int)
      ensures filter == Week && weekOffset == 0
      ensures month == MonthIndexOf(now) && year == FullYearOf(now)
    {
      filter := Week;
      weekOffset := 0;
      month := MonthIndexOf(now);
      year := FullYearOf(now);
    }

    /** Pressing a filter tab. */
    method SelectFilter(mode: Mode)
      modifies this`filter
      ensures filter == mode
    {
      filter := mode;
    }

    /** The left arrow: one week back in week mode, one month back in month mode. */
    method Previous()
      modifies this`weekOffset, this`month
      ensures filter == Week ==> weekOffset == old(weekOffset) - 1 && month == old(month)
      ensures filter == Month ==> month == PrevMonth(old(month)) && weekOffset == old(weekOffset)
    {
      if filter == Week {
        weekOffset := weekOffset - 1;
      } else {
        month := (month + 11) % 12;
      }
    }

    /** The right arrow: one week forward in week mode, one month forward in month mode. */
    method Next()
      modifies this`weekOffset, this`month
      ensures filter == Week ==> weekOffset == old(weekOffset) + 1 && month == old(month)
      ensures filter == Month ==> month == NextMonth(old(month)) && weekOffset == old(weekOffset)
    {
      if filter == Week {
        weekOffset := weekOffset + 1;
      } else {
        month := (month + 1) % 12;
      }
    }

    /** What the screen shows for the current state: the totals of the items
        the current tab, week and month select. */
    function View(now: int, profiles: seq<ProfileItem>, metrics: seq<MetricItem>,
                  plans: seq<PlanItem>): (d: Dashboard)
      reads this
      ensures var ms := FilterByTime(metrics, MetricDate, filter, now, weekOffset, month, year);
              var ps := FilterByTime(plans, PlanDate, filter, now, weekOffset, month, year);
              && d.totalSteps == Sum(ms, StepsOf) && d.totalWater == Sum(ms, WaterOf)
              && d.totalCalories == Sum(ms, CaloriesOf) && d.totalMinutes == Sum(ps, DurationOf)
              && d.sessions == |ps| <= |plans|
      ensures d.bmi == LatestBmi(profiles) && d.window == WeekRange(now, weekOffset)
    {
      Summarize(filter, now, weekOffset, month, year, profiles, metrics, plans)
    }
  }
}
