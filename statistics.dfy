/**
 * The statistics page's computations over the list of daily totals: the
 * month calendar grid, the intensity of a day, `formatTimeShort`, the week
 * and month totals and averages, and the weekly bar chart.
 *
 * Dates are whole days (`DayId`); an instant is seconds since midnight of
 * day 0, so `Midnight(d)` is what `new Date(d.toDateString())` gives and
 * `Midnight(today) + timeOfDay` is `new Date()`. Weekdays are JavaScript's
 * `getDay()`: Sunday is 0, Monday 1, ..., Saturday 6.
 */
module Statistics {
  import opened Wrappers
  import opened Text
  import opened Storage

  datatype DailyStats = DailyStats(date: DayId, total: int)

  /** The entry at `i` is the first one for `date`. */
  predicate FirstFor(data: seq<DailyStats>, date: DayId, i: int) {
    0 <= i < |data| && data[i].date == date && forall j :: 0 <= j < i ==> data[j].date != date
  }

  /** `dailyData.find(d => d.date === date)`: the first entry for the date. */
  function FindDay(data: seq<DailyStats>, date: DayId): (r: Option<DailyStats>)
    ensures r.None? <==> forall d :: d in data ==> d.date != date
    ensures r.Some? ==> exists i :: FirstFor(data, date, i) && r.value == data[i]
  {
    if data == [] then None
    else if data[0].date == date then
      assert FirstFor(data, date, 0);
      Some(data[0])
    else
      var r := FindDay(data[1..], date);
      if r.Some? then
        ghost var i :| FirstFor(data[1..], date, i) && r.value == data[1..][i];
        assert FirstFor(data, date, i + 1);
        r
      else r
  }

  /**
   * `dayData?.total || 0` (`getTodayTotal`, `getDayTotal`): the total of the
   * first entry for the date, 0 when there is none.
   */
  function TotalOn(data: seq<DailyStats>, date: DayId): (t: int)
    ensures (forall d :: d in data ==> d.date != date) ==> t == 0
    ensures forall i {:trigger FirstFor(data, date, i)} :: FirstFor(data, date, i) ==> t == data[i].total
  {
    if data == [] then 0
    else if data[0].date == date then data[0].total
    else
      var t := TotalOn(data[1..], date);
      forall i | FirstFor(data, date, i) ensures t == data[i].total {
        assert FirstFor(data[1..], date, i - 1);
      }
      t
  }

  /** The total is read from the entry `find` returns. */
  lemma TotalOfFoundDay(data: seq<DailyStats>, date: DayId)
    ensures FindDay(data, date).Some? ==> TotalOn(data, date) == FindDay(data, date).value.total
    ensures FindDay(data, date).None? ==> TotalOn(data, date) == 0
  {
    if FindDay(data, date).Some? {
      var i :| FirstFor(data, date, i) && FindDay(data, date).value == data[i];
    }
  }

  // ----- the month grid -----

  /** `(getDay() + 6) % 7`: the column of a weekday in a Monday-first week. */
  function MondayFirstOffset(weekday: int): (k: int)
    requires 0 <= weekday < 7
    ensures 0 <= k < 7
    ensures (k + 1) % 7 == weekday
    ensures weekday == 1 ==> k == 0
    ensures weekday == 0 ==> k == 6
  {
    (weekday + 6) % 7
  }

  /**
   * `getDaysInMonth`: as many blanks as the first day's Monday-first column,
   * then the day numbers 1 to `daysInMonth` in order.
   */
  method DaysInMonth(firstWeekday: int, daysInMonth: nat) returns (days: seq<Option<int>>)
    requires 0 <= firstWeekday < 7
    ensures |days| == MondayFirstOffset(firstWeekday) + daysInMonth
    ensures forall i :: 0 <= i < MondayFirstOffset(firstWeekday) ==> days[i] == None
    ensures forall i :: MondayFirstOffset(firstWeekday) <= i < |days| ==>
      days[i] == Some(i - MondayFirstOffset(firstWeekday) + 1)
  {
    var startingDayOfWeek := (firstWeekday + 6) % 7;
    days := [];
    var i := 0;
    while i < startingDayOfWeek
      invariant 0 <= i <= startingDayOfWeek
      invariant |days| == i
      invariant forall j :: 0 <= j < i ==> days[j] == None
    {
      days := days + [None];
      i := i + 1;
    }
    i := 1;
    while i <= daysInMonth
      invariant 1 <= i <= daysInMonth + 1
      invariant |days| == startingDayOfWeek + i - 1
      invariant forall j :: 0 <= j < startingDayOfWeek ==> days[j] == None
      invariant forall j :: startingDayOfWeek <= j < |days| ==> days[j] == Some(j - startingDayOfWeek + 1)
    {
      days := days + [Some(i)];
      i := i + 1;
    }
  }

  /** Padding with blanks up to 42 cells (six weeks); a longer list is left as it is. */
  method PadToGrid(raw: seq<Option<int>>) returns (days: seq<Option<int>>)
    ensures |days| == if |raw| < 42 then 42 else |raw|
    ensures days[..|raw|] == raw
    ensures forall i :: |raw| <= i < |days| ==> days[i] == None
  {
    days := raw;
    while |days| < 42
      invariant |raw| <= |days| <= if |raw| < 42 then 42 else |raw|
      invariant days[..|raw|] == raw
      invariant forall i :: |raw| <= i < |days| ==> days[i] == None
      decreases 42 - |days|
    {
      days := days + [None];
    }
  }

  /**
   * The grid the page renders: a month of at most 31 days always fills
   * exactly 42 cells, with every day in its Monday-first column.
   */
  method CalendarGrid(firstWeekday: int, daysInMonth: nat) returns (grid: seq<Option<int>>)
    requires 0 <= firstWeekday < 7 && daysInMonth <= 31
    ensures |grid| == 42
    ensures forall day :: 1 <= day <= daysInMonth ==>
      grid[MondayFirstOffset(firstWeekday) + day - 1] == Some(day)
    ensures forall i :: 0 <= i < 42 && grid[i].Some? ==>
      1 <= grid[i].value <= daysInMonth && i == MondayFirstOffset(firstWeekday) + grid[i].value - 1
  {
    var rawDays := DaysInMonth(firstWeekday, daysInMonth);
    grid := PadToGrid(rawDays);
    forall i | 0 <= i < |rawDays| ensures grid[i] == rawDays[i] {
      assert grid[..|rawDays|][i] == grid[i];
    }
  }

  // ----- a day's cell -----

  /** `getDayTotal`: a blank cell counts 0, a day of the shown month its total. */
  function DayTotal(data: seq<DailyStats>, firstOfMonth: DayId, day: Option<int>): (t: int)
    ensures day.None? ==> t == 0
    ensures day.Some? ==> t == TotalOn(data, firstOfMonth + day.value - 1)
  {
    match day
    case None => 0
    case Some(d) => TotalOn(data, firstOfMonth + d - 1)
  }

  datatype Intensity = Transparent | NoFocus | Low | Mid | High

  /** The shade of a day by its total: none at 0, then below 30 minutes, below an hour, an hour or more. */
  function IntensityOfTotal(total: int): (i: Intensity)
    ensures i == NoFocus <==> total == 0
    ensures i == Low <==> total != 0 && total < 1800
    ensures i == Mid <==> 1800 <= total < 3600
    ensures i == High <==> total >= 3600
  {
    if total == 0 then NoFocus
    else if total < 1800 then Low
    else if total < 3600 then Mid
    else High
  }

  /** `getIntensityClass`. */
  function IntensityClass(data: seq<DailyStats>, firstOfMonth: DayId, day: Option<int>): (i: Intensity)
    ensures day.None? <==> i == Transparent
    ensures day.Some? ==> i == IntensityOfTotal(TotalOn(data, firstOfMonth + day.value - 1))
  {
    match day
    case None => Transparent
    case Some(_) => IntensityOfTotal(DayTotal(data, firstOfMonth, day))
  }

  function Level(i: Intensity): nat {
    match i
    case Transparent => 0
    case NoFocus => 0
    case Low => 1
    case Mid => 2
    case High => 3
  }

  /** More focused time never gives a lighter shade. */
  lemma IntensityMonotone(u: int, v: int)
    requires 0 <= u <= v
    ensures Level(IntensityOfTotal(u)) <= Level(IntensityOfTotal(v))
  {
  }

  // ----- formatTimeShort -----

  /** The hours and minutes `formatTimeShort` prints, with JavaScript's flooring and `%`. */
  function ShortParts(seconds: int): (int, int) {
    (seconds / 3600, JsRem(seconds, 3600) / 60)
  }

  /** `formatTimeShort`: `"Hh Mm"` when there is at least one hour, else `"Mm"`. */
  function FormatTimeShort(seconds: int): (text: string)
    ensures seconds >= 3600 ==>
      text == IntToString(seconds / 3600) + "h " + IntToString((seconds % 3600) / 60) + "m"
    ensures 0 <= seconds < 3600 ==> text == IntToString(seconds / 60) + "m"
  {
    var (hours, minutes) := ShortParts(seconds);
    if hours > 0 then IntToString(hours) + "h " + IntToString(minutes) + "m"
    else IntToString(minutes) + "m"
  }

  /**
   * For a non-negative number of seconds the label shows whole hours and the
   * whole minutes below 60 that remain, and shows hours exactly from one hour on.
   */
  lemma FormatTimeShortParts(seconds: int)
    requires seconds >= 0
    ensures var (h, m) := ShortParts(seconds);
      && 0 <= m < 60 && 0 <= h
      && h * 3600 + m * 60 <= seconds < h * 3600 + m * 60 + 60
      && (h > 0 <==> seconds >= 3600)
      && FormatTimeShort(seconds) == (if seconds >= 3600 then IntToString(h) + "h " + IntToString(m) + "m"
                                      else IntToString(m) + "m")
  {
    var h := seconds / 3600;
    var r := seconds % 3600;
    assert seconds == h * 3600 + r;
    var m := r / 60;
    assert r == m * 60 + r % 60;
  }

  // ----- totals and averages -----

  function Midnight(d: DayId): int {
    d * 86400
  }

  predicate NonNegative(data: seq<DailyStats>) {
    forall d :: d in data ==> d.total >= 0
  }

  /** The sum of the totals of the entries whose date (at midnight) lies in `[from, to]`. */
  function SumInWindow(data: seq<DailyStats>, from: int, to: int): (sum: int)
    ensures NonNegative(data) ==> sum >= 0
  {
    if data == [] then 0
    else
      var last := data[|data| - 1];
      SumInWindow(data[..|data| - 1], from, to)
      + (if from <= Midnight(last.date) <= to then last.total else 0)
  }

  /** `weekStart` as written: `today.getDate() - today.getDay() + 1`. */
  function WeekStartDay(today: DayId, weekday: int): DayId {
    today - weekday + 1
  }

  /**
   * `getWeekTotal` as written: the entries from `weekStart` up to now, where
   * `weekStart` carries the current time of day.
   */
  function WeekTotal(data: seq<DailyStats>, today: DayId, weekday: int, timeOfDay: int): (total: int)
    ensures NonNegative(data) ==> total >= 0
  {
    SumInWindow(data, Midnight(WeekStartDay(today, weekday)) + timeOfDay, Midnight(today) + timeOfDay)
  }

  /** `getMonthTotal`: the entries from the first of the month (at midnight) up to now. */
  function MonthTotal(data: seq<DailyStats>, today: DayId, dayOfMonth: int, timeOfDay: int): (total: int)
    ensures NonNegative(data) ==> total >= 0
  {
    SumInWindow(data, Midnight(today - dayOfMonth + 1), Midnight(today) + timeOfDay)
  }

  /** `(getDay() + 6) % 7 + 1`: the number of days from Monday to today. */
  function DaysFromMonday(weekday: int): (n: int)
    requires 0 <= weekday < 7
    ensures 1 <= n <= 7
  {
    MondayFirstOffset(weekday) + 1
  }

  /** `getWeekAverage`: `Math.floor(weekTotal / daysFromMonday)`. */
  function WeekAverage(data: seq<DailyStats>, today: DayId, weekday: int, timeOfDay: int): (avg: int)
    requires 0 <= weekday < 7
    ensures var total := WeekTotal(data, today, weekday, timeOfDay);
      avg * DaysFromMonday(weekday) <= total < (avg + 1) * DaysFromMonday(weekday)
    ensures NonNegative(data) ==> 0 <= avg <= WeekTotal(data, today, weekday, timeOfDay)
  {
    FlooredAverage(WeekTotal(data, today, weekday, timeOfDay), DaysFromMonday(weekday));
    WeekTotal(data, today, weekday, timeOfDay) / DaysFromMonday(weekday)
  }

  /** `getMonthAverage`: `Math.floor(monthTotal / today.getDate())`. */
  function MonthAverage(data: seq<DailyStats>, today: DayId, dayOfMonth: int, timeOfDay: int): (avg: int)
    requires dayOfMonth >= 1
    ensures var total := MonthTotal(data, today, dayOfMonth, timeOfDay);
      avg * dayOfMonth <= total < (avg + 1) * dayOfMonth
    ensures NonNegative(data) ==> 0 <= avg <= MonthTotal(data, today, dayOfMonth, timeOfDay)
  {
    FlooredAverage(MonthTotal(data, today, dayOfMonth, timeOfDay), dayOfMonth);
    MonthTotal(data, today, dayOfMonth, timeOfDay) / dayOfMonth
  }

  /** Flooring a total by a positive number of days: below or at the total, never negative for a non-negative total. */
  lemma FlooredAverage(total: int, days: int)
    requires days >= 1
    ensures (total / days) * days <= total < (total / days + 1) * days
    ensures total >= 0 ==> 0 <= total / days <= total
  {
    var q := total / days;
    assert total == q * days + total % days;
    if total >= 0 {
      assert q >= 0;
      MulAtLeastSelf(q, days);
    }
  }

  // ----- the weekly chart -----

  datatype ChartPoint = ChartPoint(name: string, time: int)

  /** "월" to "일": Monday to Sunday. */
  const WeekdayNames: seq<string> := ["\U{C6D4}", "\U{D654}", "\U{C218}", "\U{BAA9}", "\U{AE08}", "\U{D1A0}", "\U{C77C}"]

  /** A bar's height: a day's total in whole minutes, rounded down; 0 for a day with no entry. */
  function MinutesOn(data: seq<DailyStats>, date: DayId): (m: int)
    ensures m * 60 <= TotalOn(data, date) < m * 60 + 60
    ensures (forall d :: d in data ==> d.date != date) ==> m == 0
  {
    FloorMinutes(TotalOn(data, date));
    TotalOn(data, date) / 60
  }

  lemma FloorMinutes(t: int)
    ensures (t / 60) * 60 <= t < (t / 60) * 60 + 60
  {
  }

  /** One bar per name, for consecutive days from `start`. */
  function Bars(data: seq<DailyStats>, start: DayId, names: seq<string>): (r: seq<ChartPoint>)
    ensures |r| == |names|
    ensures forall i :: 0 <= i < |names| ==> r[i] == ChartPoint(names[i], MinutesOn(data, start + i))
    decreases |names|
  {
    if names == [] then []
    else [ChartPoint(names[0], MinutesOn(data, start))] + Bars(data, start + 1, names[1..])
  }

  /** The seven bars from a given Monday: whole minutes of each day's total. */
  function ChartFrom(data: seq<DailyStats>, monday: DayId): (r: seq<ChartPoint>)
    ensures |r| == 7
    ensures forall i :: 0 <= i < 7 ==> r[i] == ChartPoint(WeekdayNames[i], MinutesOn(data, monday + i))
  {
    Bars(data, monday, WeekdayNames)
  }

  /** `getWeeklyChartData` as written. */
  function WeeklyChart(data: seq<DailyStats>, today: DayId, weekday: int): (r: seq<ChartPoint>)
    ensures |r| == 7
    ensures forall i :: 0 <= i < 7 ==> r[i] == ChartPoint(WeekdayNames[i], MinutesOn(data, WeekStartDay(today, weekday) + i))
  {
    ChartFrom(data, WeekStartDay(today, weekday))
  }

  // ----- findings: the start of the week -----

  lemma {:induction false} SumOfEmptyWindow(data: seq<DailyStats>, from: int, to: int)
    requires from > to
    ensures SumInWindow(data, from, to) == 0
    decreases |data|
  {
    if data != [] {
      SumOfEmptyWindow(data[..|data| - 1], from, to);
    }
  }

  /**
   * As written, on a Sunday (`getDay() == 0`) the week starts tomorrow, so
   * the week total is 0 whatever was recorded, while the average still
   * divides by 7.
   */
  lemma WeekTotalOnSundayIsZero(data: seq<DailyStats>, today: DayId, timeOfDay: int)
    ensures WeekTotal(data, today, 0, timeOfDay) == 0
    ensures WeekAverage(data, today, 0, timeOfDay) == 0
    ensures DaysFromMonday(0) == 7
  {
    SumOfEmptyWindow(data, Midnight(today + 1) + timeOfDay, Midnight(today) + timeOfDay);
  }

  /**
   * As written, `weekStart` keeps the current time of day, so after midnight
   * Monday's own entry is left out of the week total: on a Monday at 10:00
   * with 3600 seconds recorded today, the week total is 0.
   */
  lemma WeekTotalDropsMonday(today: DayId, weekday: int, timeOfDay: int, total: int)
    requires 1 <= weekday < 7 && timeOfDay > 0
    ensures WeekTotal([DailyStats(WeekStartDay(today, weekday), total)], today, weekday, timeOfDay) == 0
  {
    var monday := WeekStartDay(today, weekday);
    var data := [DailyStats(monday, total)];
    var from := Midnight(monday) + timeOfDay;
    assert data[..0] == [];
    assert !(from <= Midnight(monday));
    assert SumInWindow(data, from, Midnight(today) + timeOfDay) == SumInWindow([], from, Midnight(today) + timeOfDay);
  }

  /**
   * As written, on a Sunday the chart shows the seven days after today, so
   * time recorded today never shows: every bar is 0.
   */
  lemma ChartOnSundayMissesToday(today: DayId, total: int)
    ensures WeeklyChart([DailyStats(today, total)], today, 0) == ChartFrom([DailyStats(today, total)], today + 1)
    ensures forall i :: 0 <= i < 7 ==> WeeklyChart([DailyStats(today, total)], today, 0)[i].time == 0
  {
  }

  /** The Monday of the week that contains `today`. */
  function WeekStartIntended(today: DayId, weekday: int): (monday: DayId)
    requires 0 <= weekday < 7
    ensures today - monday + 1 == DaysFromMonday(weekday)
    ensures monday <= today < monday + 7
  {
    today - MondayFirstOffset(weekday)
  }

  /** The week total with the week starting at midnight of this week's Monday. */
  function WeekTotalIntended(data: seq<DailyStats>, today: DayId, weekday: int, timeOfDay: int): (total: int)
    requires 0 <= weekday < 7
    ensures NonNegative(data) ==> total >= 0
  {
    SumInWindow(data, Midnight(WeekStartIntended(today, weekday)), Midnight(today) + timeOfDay)
  }

  /** The week average over the days from this week's Monday to today. */
  function WeekAverageIntended(data: seq<DailyStats>, today: DayId, weekday: int, timeOfDay: int): (avg: int)
    requires 0 <= weekday < 7
    ensures var total := WeekTotalIntended(data, today, weekday, timeOfDay);
      avg * (today - WeekStartIntended(today, weekday) + 1) <= total
      < (avg + 1) * (today - WeekStartIntended(today, weekday) + 1)
    ensures NonNegative(data) ==> 0 <= avg <= WeekTotalIntended(data, today, weekday, timeOfDay)
  {
    FlooredAverage(WeekTotalIntended(data, today, weekday, timeOfDay), DaysFromMonday(weekday));
    WeekTotalIntended(data, today, weekday, timeOfDay) / DaysFromMonday(weekday)
  }

  /** The chart of the week that contains `today`. */
  function WeeklyChartIntended(data: seq<DailyStats>, today: DayId, weekday: int): seq<ChartPoint>
    requires 0 <= weekday < 7
  {
    ChartFrom(data, WeekStartIntended(today, weekday))
  }

  /**
   * With the intended week start, an entry counts in the week total exactly
   * when its day lies between this week's Monday and today, on every weekday
   * and at every time of day; the average divides by the number of those days.
   */
  lemma {:induction false} IntendedWeekCountsItsDays(data: seq<DailyStats>, today: DayId, weekday: int,
                                                     timeOfDay: int, entry: DailyStats)
    requires 0 <= weekday < 7 && 0 <= timeOfDay < 86400
    ensures WeekTotalIntended(data + [entry], today, weekday, timeOfDay)
      == WeekTotalIntended(data, today, weekday, timeOfDay)
         + (if WeekStartIntended(today, weekday) <= entry.date <= today then entry.total else 0)
  {
    var d := entry.date;
    var from := Midnight(WeekStartIntended(today, weekday));
    var to := Midnight(today) + timeOfDay;
    assert (data + [entry])[..|data|] == data;
    assert from <= Midnight(d) <= to <==> WeekStartIntended(today, weekday) <= d <= today by {
      DayOrder(d, WeekStartIntended(today, weekday), today, timeOfDay);
    }
  }

  /**
   * An entry counts in the month total exactly when its day lies between the
   * first of the month and today.
   */
  lemma {:induction false} MonthCountsItsDays(data: seq<DailyStats>, today: DayId, dayOfMonth: int,
                                              timeOfDay: int, entry: DailyStats)
    requires 0 <= timeOfDay < 86400
    ensures MonthTotal(data + [entry], today, dayOfMonth, timeOfDay)
      == MonthTotal(data, today, dayOfMonth, timeOfDay)
         + (if today - dayOfMonth + 1 <= entry.date <= today then entry.total else 0)
  {
    assert (data + [entry])[..|data|] == data;
    DayOrder(entry.date, today - dayOfMonth + 1, today, timeOfDay);
  }

  /**
   * As written, an entry counts in the week total exactly when its day lies
   * from `weekStart` to today, where a `weekStart` carrying a time of day
   * after midnight leaves `weekStart`'s own day out.
   */
  lemma {:induction false} WeekCountsItsDays(data: seq<DailyStats>, today: DayId, weekday: int,
                                             timeOfDay: int, entry: DailyStats)
    requires 0 <= timeOfDay < 86400
    ensures WeekTotal(data + [entry], today, weekday, timeOfDay)
      == WeekTotal(data, today, weekday, timeOfDay)
         + (if WeekStartDay(today, weekday) + (if timeOfDay > 0 then 1 else 0) <= entry.date <= today
            then entry.total else 0)
  {
    var d := entry.date;
    var start := WeekStartDay(today, weekday);
    assert (data + [entry])[..|data|] == data;
    DayOrder(d, start, today, timeOfDay);
    LateStartOrder(d, start, timeOfDay);
  }

  /** A start at `timeOfDay` past midnight of `first` admits `first` itself only when `timeOfDay` is 0. */
  lemma LateStartOrder(d: DayId, first: DayId, timeOfDay: int)
    requires 0 <= timeOfDay < 86400
    ensures Midnight(first) + timeOfDay <= Midnight(d) <==> first + (if timeOfDay > 0 then 1 else 0) <= d
  {
    if d > first {
      assert Midnight(d) - Midnight(first) == (d - first) * 86400;
      MulAtLeast(d - first, 86400);
    }
    if d < first {
      assert Midnight(first) - Midnight(d) == (first - d) * 86400;
      MulAtLeast(first - d, 86400);
    }
  }

  lemma DayOrder(d: DayId, first: DayId, last: DayId, timeOfDay: int)
    requires 0 <= timeOfDay < 86400
    ensures Midnight(first) <= Midnight(d) <==> first <= d
    ensures Midnight(d) <= Midnight(last) + timeOfDay <==> d <= last
  {
    if d > last {
      assert Midnight(d) - Midnight(last) == (d - last) * 86400;
      MulAtLeast(d - last, 86400);
    }
    if d < first {
      assert Midnight(first) - Midnight(d) == (first - d) * 86400;
      MulAtLeast(first - d, 86400);
    }
  }

  lemma MulAtLeastSelf(q: int, days: int)
    requires q >= 0 && days >= 1
    ensures q * days >= q
  {
  }

  lemma MulAtLeast(k: int, b: int)
    requires k >= 1 && b >= 0
    ensures k * b >= b
  {
  }

  /** With the intended week start, the chart shows today in its weekday's column. */
  lemma IntendedChartShowsToday(data: seq<DailyStats>, today: DayId, weekday: int)
    requires 0 <= weekday < 7
    ensures var r := WeeklyChartIntended(data, today, weekday);
      var k := MondayFirstOffset(weekday);
      r[k].name == WeekdayNames[k] && r[k].time == TotalOn(data, today) / 60
  {
    var monday := WeekStartIntended(today, weekday);
    BarOfDay(data, monday, MondayFirstOffset(weekday), today);
  }

  /** The bar in column `k` of the week from `monday` is the bar of day `monday + k`. */
  lemma BarOfDay(data: seq<DailyStats>, monday: DayId, k: int, day: DayId)
    requires 0 <= k < 7 && monday + k == day
    ensures ChartFrom(data, monday)[k] == ChartPoint(WeekdayNames[k], MinutesOn(data, day))
  {
  }
}
