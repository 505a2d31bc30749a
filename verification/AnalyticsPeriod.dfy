/** The reporting window of a dashboard and the window it is compared with. */
module AnalyticsPeriod {
  import opened Wrappers
  import opened LocalCalendar

  datatype Preset = Today | SevenDays | Month | Year | Custom

  datatype Trunc = ByHour | ByDay | ByMonth

  /** All instants from `from` to `to`, both included. */
  datatype Window = Window(from: int, to: int)

  datatype Period = Period(preset: Preset, window: Window, trunc: Trunc)

  function NormalizePreset(raw: Option<string>): Preset {
    if raw.None? then Month
    else if raw.value == "today" then Today
    else if raw.value == "7d" || raw.value == "week" || raw.value == "7day" then SevenDays
    else if raw.value == "year" then Year
    else if raw.value == "custom" then Custom
    else Month
  }

  // ---- the window of a preset ----

  function CustomWindow(from: Option<int>, to: Option<int>, first: int): Window {
    Window(StartOfDay(if from.Some? then from.value else EndOfDay(first) - 7 * DAY),
           EndOfDay(if to.Some? then to.value else first))
  }

  function MonthsBack(start: Calendar, t: int, months: int): int {
    start(MonthOf(start, DayOf(t)) - months) * DAY
  }

  /** `first` and `second` are the two readings of the clock: midnight may pass between them. */
  function ResolvedWindow(start: Calendar, preset: Preset, from: Option<int>, to: Option<int>, first: int, second: int): Window {
    match preset
    case Custom => CustomWindow(from, to, first)
    case Today => Window(StartOfDay(second), EndOfDay(first))
    case SevenDays => Window(StartOfDay(second) - 6 * DAY, EndOfDay(first))
    case Month => Window(MonthsBack(start, second, 0), EndOfDay(first))
    case Year => Window(MonthsBack(start, second, 11), EndOfDay(first))
  }

  function DaysIn(w: Window): int {
    (w.to - w.from + 1) / DAY
  }

  /** Hours for today, months for a year or for more than 62 chosen days, days otherwise. */
  function TruncOf(preset: Preset, w: Window): Trunc {
    match preset
    case Today => ByHour
    case Year => ByMonth
    case Custom => if DaysIn(w) > 62 then ByMonth else ByDay
    case _ => ByDay
  }

  method EndOfToday(start: Calendar, now: int) returns (end: LocalDate)
    ensures fresh(end) && end.time == EndOfDay(now)
  {
    end := new LocalDate.At(start, now);
    end.SetHours(23, 59, 59, 999);
  }

  method FirstOfMonth(start: Calendar, year: int, month: int) returns (d: LocalDate)
    ensures fresh(d) && d.start == start && d.time == start(12 * year + month) * DAY
  {
    d := new LocalDate.OnDay(start, year, month, 1);
    DayOfIs(d.time, start(12 * year + month));
    d.SetHours(0, 0, 0, 0);
  }

  /** `Math.ceil(n / d)`. */
  function Ceil(n: int, d: int): (r: int)
    requires d > 0
    ensures d * (r - 1) < n <= d * r
  {
    -(-n / d)
  }

  /** The `custom` branch: without a given end the window ends with `to`, the same object. */
  method ResolveCustom(start: Calendar, inputFrom: Option<int>, inputTo: Option<int>, to: LocalDate, ghost first: int)
    returns (r: Period)
    requires to.time == EndOfDay(first)
    modifies to
    ensures r.preset == Custom && r.window == CustomWindow(inputFrom, inputTo, first)
    ensures r.trunc == TruncOf(Custom, r.window)
  {
    var from := new LocalDate.At(start, if inputFrom.Some? then inputFrom.value else to.time - 7 * DAY);
    from.SetHours(0, 0, 0, 0);
    var customTo := to;
    DayOfIs(to.time, DayOf(first));
    if inputTo.Some? {
      customTo := new LocalDate.At(start, inputTo.value);
    }
    customTo.SetHours(23, 59, 59, 999);
    var days := Ceil(customTo.time - from.time, DAY);
    return Period(Custom, Window(from.time, customTo.time), if days > 62 then ByMonth else ByDay);
  }

  method ResolveSevenDays(start: Calendar, now: int) returns (from: LocalDate)
    ensures from.time == StartOfDay(now) - 6 * DAY
  {
    from := new LocalDate.At(start, now);
    from.SetDate(from.Date() - 6);
    from.SetHours(0, 0, 0, 0);
  }

  method ResolveMonths(start: Calendar, now: int, back: int) returns (from: LocalDate)
    ensures from.time == MonthsBack(start, now, back)
  {
    var date := new LocalDate.At(start, now);
    from := FirstOfMonth(start, date.Year(), date.Month() - back);
  }

  method ResolveAnalyticsPeriod(start: Calendar, period: Option<string>,
                                inputFrom: Option<int>, inputTo: Option<int>, first: int, second: int)
    returns (r: Period)
    ensures r.preset == NormalizePreset(period)
    ensures r.window == ResolvedWindow(start, r.preset, inputFrom, inputTo, first, second)
    ensures r.trunc == TruncOf(r.preset, r.window)
  {
    var preset := NormalizePreset(period);
    var to := EndOfToday(start, first);
    if preset == Custom {
      r := ResolveCustom(start, inputFrom, inputTo, to, first);
      return;
    }
    if preset == Today {
      var midnight := new LocalDate.At(start, second);
      midnight.SetHours(0, 0, 0, 0);
      return Period(preset, Window(midnight.time, to.time), ByHour);
    }
    if preset == SevenDays {
      var weekAgo := ResolveSevenDays(start, second);
      return Period(preset, Window(weekAgo.time, to.time), ByDay);
    }
    if preset == Month {
      var firstDay := ResolveMonths(start, second, 0);
      return Period(preset, Window(firstDay.time, to.time), ByDay);
    }
    var firstDay := ResolveMonths(start, second, 11);
    return Period(preset, Window(firstDay.time, to.time), ByMonth);
  }

  // ---- the last months ----

  /** The day on which `setMonth` lands: today's date, counted from the beginning of the target month. */
  function LandingDay(start: Calendar, now: int, back: int): int {
    var k := MonthOf(start, DayOf(now));
    start(k - back) + (DayOf(now) - start(k))
  }

  function MonthsRange(start: Calendar, months: int, first: int, second: int): Window {
    Window(start(MonthOf(start, LandingDay(start, second, months - 1))) * DAY, EndOfDay(first))
  }

  method RewindToFirst(d: LocalDate)
    modifies d
    ensures d.time == old(d.start(MonthOf(d.start, DayOf(d.time)))) * DAY
  {
    d.SetDate(1);
    d.SetHours(0, 0, 0, 0);
  }

  method ResolveMonthsRange(start: Calendar, months: int, first: int, second: int) returns (w: Window)
    ensures w == MonthsRange(start, months, first, second)
  {
    var to := EndOfToday(start, first);
    var from := BackToMonth(start, second, months - 1);
    RewindToFirst(from);
    return Window(from.time, to.time);
  }

  lemma Landing(d: LocalDate, back: int)
    ensures d.start(12 * d.Year() + (d.Month() - back)) + d.Date() - 1 == LandingDay(d.start, d.time, back)
  {
    var k := MonthOf(d.start, DayOf(d.time));
    assert 12 * d.Year() + (d.Month() - back) == k - back;
    assert d.Date() == DayOf(d.time) - d.start(k) + 1;
  }

  method BackToMonth(start: Calendar, now: int, back: int) returns (d: LocalDate)
    ensures fresh(d) && d.start == start && DayOf(d.time) == LandingDay(start, now, back)
  {
    d := new LocalDate.At(start, now);
    var month := d.Month() - back;
    assert d.start(12 * d.Year() + month) + d.Date() - 1 == LandingDay(start, now, back) by {
      Landing(d, back);
    }
    d.SetMonth(month);
  }

  // ---- the window before ----

  function PreviousEnd(preset: Preset, w: Window): int {
    if preset == Month || preset == Year then w.from / 1000 * 1000 - 1 else w.from - 1
  }

  function PreviousStart(start: Calendar, preset: Preset, w: Window, end: int): int {
    match preset
    case Month => start(MonthOf(start, DayOf(end))) * DAY
    case Year => start(MonthOf(start, DayOf(end)) / 12 * 12) * DAY
    case _ => StartOfDay(end - (w.to - w.from)) + (w.from - StartOfDay(w.from))
  }

  function Previous(start: Calendar, preset: Preset, w: Window): Window {
    var end := PreviousEnd(preset, w);
    Window(PreviousStart(start, preset, w, end), end)
  }

  method JustBefore(from: LocalDate) returns (end: LocalDate)
    ensures fresh(end) && end.start == from.start && end.time == from.time / 1000 * 1000 - 1
  {
    end := new LocalDate.At(from.start, from.time);
    end.SetMilliseconds(-1);
  }

  method SpanBefore(from: LocalDate, to: LocalDate) returns (prevFrom: LocalDate, prevTo: LocalDate)
    ensures prevTo.time == from.time - 1
    ensures prevFrom.time == StartOfDay(prevTo.time - (to.time - from.time)) + (from.time - StartOfDay(from.time))
    ensures fresh(prevFrom) && fresh(prevTo)
  {
    var durationMs := to.time - from.time;
    prevTo := new LocalDate.At(from.start, from.time - 1);
    prevFrom := new LocalDate.At(from.start, prevTo.time - durationMs);
    ClockRecombines(from);
    prevFrom.SetHours(from.Hours(), from.Minutes(), from.Seconds(), from.Milliseconds());
  }

  method FirstDay(date: LocalDate, ofYear: bool) returns (d: LocalDate)
    ensures fresh(d)
    ensures d.time == PreviousStart(date.start, if ofYear then Year else Month, Window(0, 0), date.time)
  {
    d := FirstOfMonth(date.start, date.Year(), if ofYear then 0 else date.Month());
  }

  method ResolvePreviousAnalyticsPeriod(preset: Preset, from: LocalDate, to: LocalDate)
    returns (prevFrom: LocalDate, prevTo: LocalDate)
    ensures prevTo.time == PreviousEnd(preset, Window(from.time, to.time))
    ensures prevFrom.time == PreviousStart(from.start, preset, Window(from.time, to.time), prevTo.time)
    ensures fresh(prevFrom) && fresh(prevTo)
  {
    if preset == Month {
      prevTo := JustBefore(from);
      prevFrom := FirstDay(prevTo, false);
    } else if preset == Year {
      prevTo := JustBefore(from);
      prevFrom := FirstDay(prevTo, true);
    } else {
      prevFrom, prevTo := SpanBefore(from, to);
    }
  }
}
