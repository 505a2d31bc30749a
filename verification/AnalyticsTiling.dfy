/** How the windows before one another cover the past. */
module AnalyticsTiling {
  import opened Wrappers
  import opened LocalCalendar
  import opened AnalyticsPeriod

  predicate In(t: int, w: Window) {
    w.from <= t <= w.to
  }

  function Span(w: Window): int {
    w.to - w.from + 1
  }

  /** Whole days, in either order: `to` may lie before `from`. */
  predicate Aligned(w: Window) {
    w.from % DAY == 0 && (w.to + 1) % DAY == 0
  }

  function Back(start: Calendar, preset: Preset): Window -> Window {
    w => Previous(start, preset, w)
  }

  /** `n` steps back. */
  function Iterate(back: Window -> Window, w: Window, n: nat): Window {
    if n == 0 then w else back(Iterate(back, w, n - 1))
  }

  // ---- contiguity ----

  /** The window before ends one millisecond before this one, unless a month or year is asked of a
      start that is not on a whole second. */
  lemma ContiguousIff(start: Calendar, preset: Preset, w: Window)
    ensures PreviousEnd(preset, w) == w.from - 1 <==> (preset == Month || preset == Year ==> w.from % 1000 == 0)
  {
  }

  lemma WholeDays(d: int)
    ensures d * DAY % DAY == 0 && d * DAY % 1000 == 0 && (d * DAY + DAY - 1 + 1) % DAY == 0
  {
    assert d * DAY == 1000 * (d * 86400);
  }

  /** Every resolved window is made of whole days, and the one before it is contiguous. */
  lemma ResolvedIsContiguous(start: Calendar, preset: Preset, from: Option<int>, to: Option<int>, first: int, second: int)
    ensures var w := ResolvedWindow(start, preset, from, to, first, second);
            Aligned(w) && PreviousEnd(preset, w) == w.from - 1
  {
    var w := ResolvedWindow(start, preset, from, to, first, second);
    WholeDays(DayOf(first));
    WholeDays(DayOf(second));
    WholeDays(DayOf(second) - 6);
    WholeDays(DayOf(if from.Some? then from.value else EndOfDay(first) - 7 * DAY));
    WholeDays(DayOf(if to.Some? then to.value else first));
    WholeDays(start(MonthOf(start, DayOf(second)) - (if preset == Year then 11 else 0)));
    ContiguousIff(start, preset, w);
  }

  /** Today is one day exactly when no midnight passes between the two readings of the clock; after
      one midnight the window is empty. */
  lemma TodayIsOneDayIff(start: Calendar, first: int, second: int)
    requires first <= second
    ensures var w := ResolvedWindow(start, Today, None, None, first, second);
            (DaysIn(w) == 1 <==> DayOf(first) == DayOf(second)) &&
            (DaysIn(w) <= 0 <==> DayOf(first) < DayOf(second))
  {
    var w := ResolvedWindow(start, Today, None, None, first, second);
    assert w.to - w.from + 1 == (DayOf(first) - DayOf(second) + 1) * DAY;
  }

  // ---- today, seven days, custom ----

  lemma PreviousSpan(start: Calendar, preset: Preset, w: Window)
    requires preset != Month && preset != Year && Aligned(w)
    ensures Previous(start, preset, w) == Window(w.from - Span(w), w.to - Span(w))
    ensures Aligned(Previous(start, preset, w))
  {
    var d, e := w.from / DAY, (w.to + 1) / DAY;
    assert w.from == d * DAY && w.to + 1 == e * DAY;
    DayOfIs(w.from, d);
    DayOfIs(w.from - 1 - (w.to - w.from), 2 * d - e);
    WholeDays(2 * d - e);
    WholeDays(d);
  }

  lemma Multiply(n: int, d: int)
    ensures n * d == (n - 1) * d + d
  {
  }

  lemma {:induction false} IteratedSpan(start: Calendar, preset: Preset, w: Window, n: nat)
    requires preset != Month && preset != Year && Aligned(w)
    ensures var v := Iterate(Back(start, preset), w, n);
            v == Window(w.from - n * Span(w), w.to - n * Span(w)) && Aligned(v)
  {
    if n > 0 {
      IteratedSpan(start, preset, w, n - 1);
      var last := Iterate(Back(start, preset), w, n - 1);
      PreviousSpan(start, preset, last);
      Multiply(n, Span(w));
      assert Span(last) == Span(w);
    }
  }

  lemma Quotient(x: int, n: int, d: int)
    requires d > 0
    ensures n * d <= x <= n * d + d - 1 <==> x / d == n
  {
    assert x == d * (x / d) + x % d;
    if n < x / d {
      assert d * (n + 1) <= d * (x / d);
    } else if x / d < n {
      assert d * (x / d + 1) <= d * n;
    }
  }

  /** The windows tile the past: every earlier instant lies in exactly the one numbered by its
      distance, and all have the length of the first. */
  lemma SpansTile(start: Calendar, preset: Preset, w: Window, n: nat, t: int)
    requires preset != Month && preset != Year && Aligned(w) && w.from <= w.to
    ensures In(t, Iterate(Back(start, preset), w, n)) <==> (w.to - t) / Span(w) == n
    ensures Span(Iterate(Back(start, preset), w, n)) == Span(w) && Aligned(Iterate(Back(start, preset), w, n))
  {
    IteratedSpan(start, preset, w, n);
    Quotient(w.to - t, n, Span(w));
  }

  // ---- months ----

  lemma DayBeforeMonth(start: Calendar, preset: Preset, w: Window, k: int)
    requires w.from == start(k) * DAY && (preset == Month || preset == Year)
    ensures PreviousEnd(preset, w) == start(k) * DAY - 1
    ensures MonthOf(start, DayOf(start(k) * DAY - 1)) == k - 1
  {
    WholeDays(start(k));
    DayOfIs(start(k) * DAY - 1, start(k) - 1);
    Ordered(start, k - 1, k);
    MonthOfIs(start, start(k) - 1, k - 1);
  }

  predicate Begins(start: Calendar, w: Window, k: int) {
    w.from == start(k) * DAY
  }

  /** From the beginning of month `k` a step leads to the beginning of month `to(k)`. */
  ghost predicate StepsBack(start: Calendar, back: Window -> Window, to: int -> int) {
    forall w: Window, k :: Begins(start, w, k) ==> back(w) == Window(start(to(k)) * DAY, w.from - 1)
  }

  lemma MonthStepsBack(start: Calendar)
    ensures StepsBack(start, Back(start, Month), k => k - 1)
  {
    forall w: Window, k | Begins(start, w, k)
      ensures Previous(start, Month, w) == Window(start(k - 1) * DAY, w.from - 1)
    {
      DayBeforeMonth(start, Month, w, k);
    }
  }

  lemma YearStep(start: Calendar, w: Window, k: int)
    requires Begins(start, w, k)
    ensures Previous(start, Year, w) == Window(start((k - 1) / 12 * 12) * DAY, w.from - 1)
  {
    DayBeforeMonth(start, Year, w, k);
    var end := PreviousEnd(Year, w);
    assert MonthOf(start, DayOf(end)) == k - 1;
  }

  lemma YearStepsBack(start: Calendar)
    ensures StepsBack(start, Back(start, Year), k => (k - 1) / 12 * 12)
  {
    forall w: Window, k | Begins(start, w, k)
      ensures Previous(start, Year, w) == Window(start((k - 1) / 12 * 12) * DAY, w.from - 1)
    {
      YearStep(start, w, k);
    }
  }

  lemma InMonths(start: Calendar, j: int, k: int, t: int)
    ensures In(t, Window(start(j) * DAY, start(k) * DAY - 1)) <==> j <= MonthOf(start, DayOf(t)) < k
  {
    var m := MonthOf(start, DayOf(t));
    assert start(j) * DAY <= t <==> start(j) <= DayOf(t);
    assert t < start(k) * DAY <==> DayOf(t) < start(k);
    Ordered(start, m + 1, j);
    Ordered(start, m + 1, k);
    Ordered(start, j, m);
    Ordered(start, k, m);
  }

  lemma {:induction false} IteratedMonths(start: Calendar, back: Window -> Window, w: Window, k: int, n: nat)
    requires StepsBack(start, back, j => j - 1) && Begins(start, w, k)
    ensures var v := Iterate(back, w, n);
            Begins(start, v, k - n) && (n > 0 ==> v.to == start(k - n + 1) * DAY - 1)
  {
    if n > 0 {
      IteratedMonths(start, back, w, k, n - 1);
    }
  }

  lemma InMonth(start: Calendar, v: Window, j: int, t: int)
    requires v == Window(start(j) * DAY, start(j + 1) * DAY - 1)
    ensures In(t, v) <==> MonthOf(start, DayOf(t)) == j
  {
    InMonths(start, j, j + 1, t);
  }

  lemma MonthStepsTile(start: Calendar, back: Window -> Window, w: Window, k: int, n: nat, t: int)
    requires StepsBack(start, back, j => j - 1) && Begins(start, w, k) && n > 0
    ensures In(t, Iterate(back, w, n)) <==> MonthOf(start, DayOf(t)) == k - n
  {
    IteratedMonths(start, back, w, k, n);
    InMonth(start, Iterate(back, w, n), k - n, t);
  }

  /** Going back from the month `k`, the n-th window is exactly the month `k - n`. */
  lemma MonthsTile(start: Calendar, w: Window, k: int, n: nat, t: int)
    requires w.from == start(k) * DAY && n > 0
    ensures In(t, Iterate(Back(start, Month), w, n)) <==> MonthOf(start, DayOf(t)) == k - n
  {
    MonthStepsBack(start);
    MonthStepsTile(start, Back(start, Month), w, k, n, t);
  }

  // ---- years ----

  /** The n-th window back from month `k` lies in this year. */
  function YearBack(k: int, n: nat): int {
    (k - 1) / 12 - n + 1
  }

  /** And ends before this month begins. */
  function EndBack(k: int, n: nat): int {
    if n <= 1 then k else 12 * YearBack(k, n) + 12
  }

  lemma YearsBack(k: int, n: nat)
    ensures n > 0 ==> 12 * YearBack(k, n) < EndBack(k, n) <= 12 * YearBack(k, n) + 12
    ensures n > 0 ==> EndBack(k, n) <= k && EndBack(k, n + 1) == 12 * YearBack(k, n)
    ensures n > 0 ==> (12 * YearBack(k, n) - 1) / 12 * 12 == 12 * YearBack(k, n + 1)
  {
  }

  lemma {:induction false} IteratedYears(start: Calendar, back: Window -> Window, w: Window, k: int, n: nat)
    requires StepsBack(start, back, j => (j - 1) / 12 * 12) && Begins(start, w, k) && n > 0
    ensures var v := Iterate(back, w, n);
            Begins(start, v, 12 * YearBack(k, n)) && v.to == start(EndBack(k, n)) * DAY - 1
  {
    if n == 1 {
      assert Iterate(back, w, 0) == w;
    } else {
      IteratedYears(start, back, w, k, n - 1);
      YearsBack(k, n - 1);
      assert Begins(start, Iterate(back, w, n - 1), 12 * YearBack(k, n - 1));
    }
  }

  lemma InYear(start: Calendar, v: Window, year: int, end: int, k: int, t: int)
    requires v == Window(start(12 * year) * DAY, start(end) * DAY - 1)
    requires 12 * year < end <= 12 * year + 12 && end <= k && (end == k || end == 12 * year + 12)
    ensures In(t, v) <==> var m := MonthOf(start, DayOf(t)); m / 12 == year && m < k
  {
    InMonths(start, 12 * year, end, t);
  }

  lemma YearStepsTile(start: Calendar, back: Window -> Window, w: Window, k: int, n: nat, t: int)
    requires StepsBack(start, back, j => (j - 1) / 12 * 12) && Begins(start, w, k) && n > 0
    ensures In(t, Iterate(back, w, n)) <==>
            var m := MonthOf(start, DayOf(t)); m / 12 == YearBack(k, n) && m < k
  {
    IteratedYears(start, back, w, k, n);
    YearsBack(k, n);
    InYear(start, Iterate(back, w, n), YearBack(k, n), EndBack(k, n), k, t);
  }

  /** Going back from the month `k`, the first window reaches to January of the year of the month
      before `k`; each later one is the calendar year before. */
  lemma YearsTile(start: Calendar, w: Window, k: int, n: nat, t: int)
    requires w.from == start(k) * DAY && n > 0
    ensures In(t, Iterate(Back(start, Year), w, n)) <==>
            var m := MonthOf(start, DayOf(t)); m / 12 == YearBack(k, n) && m < k
  {
    YearStepsBack(start);
    YearStepsTile(start, Back(start, Year), w, k, n, t);
  }

  // ---- equal lengths ----

  lemma MonthLengths(start: Calendar, now: int, k: int, w: Window)
    requires w == ResolvedWindow(start, Month, None, None, now, now) && k == MonthOf(start, DayOf(now))
    ensures Span(Previous(start, Month, w)) == (start(k) - start(k - 1)) * DAY
    ensures Span(w) == (DayOf(now) + 1 - start(k)) * DAY
  {
    MonthStepsBack(start);
    assert Begins(start, w, k) && Back(start, Month)(w) == Window(start(k - 1) * DAY, w.from - 1);
  }

  /** This month is as long as the window before it exactly when today's date is the length of last month. */
  lemma MonthEqualLengthIff(start: Calendar, now: int)
    ensures var w, k := ResolvedWindow(start, Month, None, None, now, now), MonthOf(start, DayOf(now));
            Span(Previous(start, Month, w)) == Span(w) <==>
            DayOf(now) - start(k) + 1 == start(k) - start(k - 1)
  {
    MonthLengths(start, now, MonthOf(start, DayOf(now)), ResolvedWindow(start, Month, None, None, now, now));
  }

  lemma YearStart(k: int)
    ensures (k - 12) / 12 * 12 == k - 12 - k % 12
  {
  }

  /** Of a window that began eleven months before the month `k`, the one before holds as many months
      as the year of `k` has begun: twelve only in December. */
  lemma YearComparesMonths(start: Calendar, w: Window, k: int, t: int)
    requires w.from == start(k - 11) * DAY
    ensures In(t, Previous(start, Year, w)) <==> k - 12 - k % 12 <= MonthOf(start, DayOf(t)) < k - 11
  {
    YearStepsBack(start);
    assert Begins(start, w, k - 11) && Back(start, Year)(w) == Window(start((k - 12) / 12 * 12) * DAY, w.from - 1);
    YearStart(k);
    InMonths(start, k - 12 - k % 12, k - 11, t);
  }

  lemma YearLengths(start: Calendar, now: int, k: int, w: Window)
    requires w == ResolvedWindow(start, Year, None, None, now, now) && k == MonthOf(start, DayOf(now))
    ensures Span(Previous(start, Year, w)) == (start(k - 11) - start(k - 12 - k % 12)) * DAY
    ensures Span(w) == (DayOf(now) + 1 - start(k - 11)) * DAY
  {
    YearStep(start, w, k - 11);
    YearStart(k);
  }

  /** In the Gregorian calendar a year window is as long as the one before it only in December, on
      the day whose number in the year is the length of last year. */
  lemma YearEqualLengthIff(start: Calendar, now: int, k: int)
    requires forall j :: start(j) == MonthStart(j)
    requires k == MonthOf(start, DayOf(now))
    ensures var w := ResolvedWindow(start, Year, None, None, now, now);
            Span(Previous(start, Year, w)) == Span(w) <==>
            k % 12 == 11 && DayOf(now) - start(k - 11) + 1 == YearDays(IsLeap(k / 12 - 1))
  {
    YearLengths(start, now, k, ResolvedWindow(start, Year, None, None, now, now));
    assert MonthStart(k) == start(k);
    YearDaysCompare(k, DayOf(now));
  }

  /** The first months of 1969 and 1970, and February and March of 1970. */
  lemma AroundTheEpoch()
    ensures MonthStart(23628) == -365 && MonthStart(23629) == -334 && MonthStart(23639) == -31
    ensures MonthStart(23640) == 0 && MonthStart(23641) == 31 && MonthStart(23642) == 59 && MonthStart(23643) == 90
  {
  }

  /** On 1 January 1970 one day is compared with the 31 of December, and 335 days of a year with the 31
      of the January before. */
  lemma FirstOfJanuary(start: Calendar, now: int)
    requires (forall j :: start(j) == MonthStart(j)) && DayOf(now) == 0
    ensures var month := ResolvedWindow(start, Month, None, None, now, now);
            Span(month) == DAY && Span(Previous(start, Month, month)) == 31 * DAY
    ensures var year := ResolvedWindow(start, Year, None, None, now, now);
            Span(year) == 335 * DAY && Span(Previous(start, Year, year)) == 31 * DAY
  {
    JanuaryStarts(start);
    JanuaryLengths(start, now, 23640);
  }

  lemma JanuaryLengths(start: Calendar, now: int, k: int)
    requires k % 12 == 0 && DayOf(now) == start(k) == 0 && start(k + 1) == 31
    requires start(k - 1) == -31 && start(k - 11) == -334 && start(k - 12) == -365
    ensures var month := ResolvedWindow(start, Month, None, None, now, now);
            Span(month) == DAY && Span(Previous(start, Month, month)) == 31 * DAY
    ensures var year := ResolvedWindow(start, Year, None, None, now, now);
            Span(year) == 335 * DAY && Span(Previous(start, Year, year)) == 31 * DAY
  {
    MonthOfIs(start, DayOf(now), k);
    MonthLengths(start, now, k, ResolvedWindow(start, Month, None, None, now, now));
    YearLengths(start, now, k, ResolvedWindow(start, Year, None, None, now, now));
  }

  lemma JanuaryStarts(start: Calendar)
    requires forall j :: start(j) == MonthStart(j)
    ensures start(23628) == -365 && start(23629) == -334 && start(23639) == -31 && start(23640) == 0 && start(23641) == 31
  {
    AroundTheEpoch();
  }

  // ---- the last months ----

  lemma LandingIff(start: Calendar, now: int, back: int)
    ensures var k := MonthOf(start, DayOf(now));
            var from := MonthOf(start, LandingDay(start, now, back));
            (from == k - back <==> DayOf(now) - start(k) + 1 <= start(k - back + 1) - start(k - back)) &&
            from >= k - back
  {
    var k, day := MonthOf(start, DayOf(now)), LandingDay(start, now, back);
    var from := MonthOf(start, day);
    if day < start(k - back + 1) {
      MonthOfIs(start, day, k - back);
    } else {
      Ordered(start, from + 1, k - back + 1);
    }
  }

  /** The range of the last months ends with today and begins with a month: with the first of them
      exactly when that month is long enough to have today's date, and otherwise with a later one. */
  lemma MonthsRangeIff(start: Calendar, months: int, first: int, second: int)
    ensures var w, k := MonthsRange(start, months, first, second), MonthOf(start, DayOf(second));
            var from, wanted := MonthOf(start, DayOf(w.from)), k - months + 1;
            && w.to == EndOfDay(first) && w.from == start(from) * DAY && from >= wanted
            && (from == wanted <==> DayOf(second) - start(k) + 1 <= start(wanted + 1) - start(wanted))
  {
    LandingIff(start, second, months - 1);
    var from := MonthOf(start, LandingDay(start, second, months - 1));
    Ordered(start, from, from + 1);
    MonthOfIs(start, start(from), from);
    DayOfIs(start(from) * DAY, start(from));
  }

  lemma MarchStarts(start: Calendar)
    requires forall j :: start(j) == MonthStart(j)
    ensures start(23641) == 31 && start(23642) == 59 && start(23643) == 90
  {
    AroundTheEpoch();
  }

  lemma MarchRange(start: Calendar, first: int, second: int)
    requires start(23641) == 31 && start(23642) == 59 && start(23643) == 90 && DayOf(second) == 89
    ensures MonthOf(start, DayOf(second)) == 23642 == MonthOf(start, DayOf(MonthsRange(start, 2, first, second).from))
  {
    MonthOfIs(start, 89, 23642);
    assert LandingDay(start, second, 1) == 61;
    MonthOfIs(start, 61, 23642);
    assert MonthsRange(start, 2, first, second).from == 59 * DAY;
    DayOfIs(59 * DAY, 59);
    MonthOfIs(start, 59, 23642);
  }

  /** On 31 March 1970 the last two months begin in March: February has no day 31. */
  lemma LastOfMarch(start: Calendar, first: int, second: int)
    requires (forall j :: start(j) == MonthStart(j)) && DayOf(second) == 89
    ensures MonthOf(start, DayOf(second)) == 23642 == MonthOf(start, DayOf(MonthsRange(start, 2, first, second).from))
  {
    MarchStarts(start);
    MarchRange(start, first, second);
  }

  // ---- which days a window holds ----

  /** A window from the beginning of one day to the end of another holds the instants of these days. */
  lemma HoldsDays(first: int, last: int, t: int)
    ensures In(t, Window(first * DAY, last * DAY + (DAY - 1))) <==> first <= DayOf(t) <= last
  {
  }

  lemma MonthsFrom(start: Calendar, k: int, t: int)
    ensures start(k) <= DayOf(t) <==> k <= MonthOf(start, DayOf(t))
  {
    var m := MonthOf(start, DayOf(t));
    Ordered(start, m + 1, k);
    Ordered(start, k, m);
  }

  /** Each preset in terms of the calendar: `second` is the reading of the clock that the beginning comes
      from, `first` the one that the end comes from. Seven days are today and the six before it, a month
      begins with the current one, a year with the eleventh before it; chosen days are whole, and without a
      beginning the seven before today belong to them. */
  lemma ResolvedDays(start: Calendar, preset: Preset, from: Option<int>, to: Option<int>, first: int, second: int, t: int)
    ensures var today, day := DayOf(second), DayOf(t);
            In(t, ResolvedWindow(start, preset, from, to, first, second)) <==>
            match preset
            case Today => today <= day <= DayOf(first)
            case SevenDays => today - 6 <= day <= DayOf(first)
            case Month => MonthOf(start, today) <= MonthOf(start, day) && day <= DayOf(first)
            case Year => MonthOf(start, today) - 11 <= MonthOf(start, day) && day <= DayOf(first)
            case Custom =>
              && (if from.Some? then DayOf(from.value) else DayOf(first) - 7) <= day
              && day <= (if to.Some? then DayOf(to.value) else DayOf(first))
  {
    var k := MonthOf(start, DayOf(second));
    MonthsFrom(start, k, t);
    MonthsFrom(start, k - 11, t);
    match preset
    case Today => HoldsDays(DayOf(second), DayOf(first), t);
    case SevenDays => HoldsDays(DayOf(second) - 6, DayOf(first), t);
    case Month => HoldsDays(start(k), DayOf(first), t);
    case Year => HoldsDays(start(k - 11), DayOf(first), t);
    case Custom =>
      WeekBefore(first);
      HoldsDays(if from.Some? then DayOf(from.value) else DayOf(first) - 7,
                if to.Some? then DayOf(to.value) else DayOf(first), t);
  }

  lemma WeekBefore(first: int)
    ensures DayOf(EndOfDay(first) - 7 * DAY) == DayOf(first) - 7
  {
    DayOfIs(EndOfDay(first) - 7 * DAY, DayOf(first) - 7);
  }

  /** The chart's unit: hours for today, months for a year and for more than 62 chosen days, else days. */
  lemma UnitIff(start: Calendar, preset: Preset, from: Option<int>, to: Option<int>, first: int, second: int)
    ensures var unit := TruncOf(preset, ResolvedWindow(start, preset, from, to, first, second));
            var last := if to.Some? then DayOf(to.value) else DayOf(first);
            var begin := if from.Some? then DayOf(from.value) else DayOf(first) - 7;
            && (unit == ByHour <==> preset == Today)
            && (unit == ByMonth <==> preset == Year || (preset == Custom && last - begin + 1 > 62))
            && (unit == ByDay <==> preset == SevenDays || preset == Month || (preset == Custom && last - begin + 1 <= 62))
  {
    if preset == Custom {
      WeekBefore(first);
      var w := ResolvedWindow(start, preset, from, to, first, second);
      var last := if to.Some? then DayOf(to.value) else DayOf(first);
      var begin := if from.Some? then DayOf(from.value) else DayOf(first) - 7;
      assert w.from == begin * DAY && w.to + 1 == (last + 1) * DAY;
      assert w.to - w.from + 1 == (last - begin + 1) * DAY;
    }
  }

  /** The names a preset goes by; any other name, and none, is a month. */
  lemma PresetNames(name: string)
    ensures NormalizePreset(None) == Month
    ensures NormalizePreset(Some(name)) == Today <==> name == "today"
    ensures NormalizePreset(Some(name)) == SevenDays <==> name in {"7d", "week", "7day"}
    ensures NormalizePreset(Some(name)) == Year <==> name == "year"
    ensures NormalizePreset(Some(name)) == Custom <==> name == "custom"
    ensures NormalizePreset(Some(name)) == Month <==> name !in {"today", "7d", "week", "7day", "year", "custom"}
  {
    assert |"today"| == 5 && |"7d"| == 2 && |"week"| == 4 && |"7day"| == 4 && |"year"| == 4 && |"custom"| == 6;
    assert "week"[0] == 'w' && "7day"[0] == '7' && "year"[0] == 'y';
  }

  /** Of any two dates, whole days or not: the window before ends with the millisecond before, and begins at
      the same time of day, on the day that lies as far back. */
  lemma PreviousKeepsClock(start: Calendar, preset: Preset, w: Window)
    requires preset != Month && preset != Year
    ensures var p := Previous(start, preset, w);
            && p.to == w.from - 1
            && DayOf(p.from) == DayOf(w.from - 1 - (w.to - w.from)) && p.from % DAY == w.from % DAY
  {
    var day := DayOf(w.from - 1 - (w.to - w.from));
    assert w.from - StartOfDay(w.from) == w.from % DAY;
    DayOfIs(day * DAY + w.from % DAY, day);
  }
}
