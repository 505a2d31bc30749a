/** Local time in a zone with a fixed offset: instants are milliseconds since the local midnight that
    begins 1 January 1970, months are counted as `12 * year + month`. A calendar says on which day
    each month begins; the Gregorian one is `MonthStart`. */
module LocalCalendar {

  const DAY := 86400000

  function DayOf(t: int): int {
    t / DAY
  }

  function StartOfDay(t: int): int {
    DayOf(t) * DAY
  }

  function EndOfDay(t: int): int {
    StartOfDay(t) + DAY - 1
  }

  lemma DayOfIs(t: int, day: int)
    requires day * DAY <= t < day * DAY + DAY
    ensures DayOf(t) == day && StartOfDay(t) == day * DAY
  {
  }

  predicate IsLeap(year: int) {
    year % 4 == 0 && (year % 100 != 0 || year % 400 == 0)
  }

  function DaysBeforeYear(year: int): int {
    365 * year + (year + 3) / 4 - (year + 99) / 100 + (year + 399) / 400 - 719528
  }

  function DaysBeforeMonth(month: int, leap: bool): int {
    var extra := if leap then 1 else 0;
    if month <= 0 then 0
    else if month == 1 then 31
    else extra +
         (if month == 2 then 59 else if month == 3 then 90 else if month == 4 then 120
          else if month == 5 then 151 else if month == 6 then 181 else if month == 7 then 212
          else if month == 8 then 243 else if month == 9 then 273 else if month == 10 then 304
          else 334)
  }

  /** The day on which a month of the Gregorian calendar begins. */
  function MonthStart(month: int): int {
    DaysBeforeYear(month / 12) + DaysBeforeMonth(month % 12, IsLeap(month / 12))
  }

  function YearDays(leap: bool): int {
    if leap then 366 else 365
  }

  lemma Ceiling(year: int, d: int)
    requires d == 4 || d == 100 || d == 400
    ensures (year + d) / d == (year + (d - 1)) / d + (if year % d == 0 then 1 else 0)
  {
  }

  lemma OfHundred(k: int)
    ensures 100 * k % 100 == 0
  {
  }

  lemma OfFour(k: int)
    ensures 4 * k % 4 == 0
  {
  }

  lemma Multiples(year: int)
    ensures year % 400 == 0 ==> year % 100 == 0
    ensures year % 100 == 0 ==> year % 4 == 0
  {
    if year % 400 == 0 {
      OfHundred(4 * (year / 400));
    }
    if year % 100 == 0 {
      OfFour(25 * (year / 100));
    }
  }

  lemma YearLength(year: int)
    ensures DaysBeforeYear(year + 1) == DaysBeforeYear(year) + YearDays(IsLeap(year))
  {
    Multiples(year);
    Ceiling(year, 4);
    Ceiling(year, 100);
    Ceiling(year, 400);
    assert year + 1 + 3 == year + 4 && year + 1 + 99 == year + 100 && year + 1 + 399 == year + 400;
  }

  function DaysInMonth(month: int, leap: bool): int {
    if month == 11 then YearDays(leap) - DaysBeforeMonth(11, leap)
    else DaysBeforeMonth(month + 1, leap) - DaysBeforeMonth(month, leap)
  }

  lemma MonthLength(month: int)
    ensures MonthStart(month + 1) - MonthStart(month) == DaysInMonth(month % 12, IsLeap(month / 12))
    ensures 28 <= MonthStart(month + 1) - MonthStart(month) <= 31
  {
    var year, m := month / 12, month % 12;
    if m == 11 {
      YearLength(year);
      assert (month + 1) / 12 == year + 1 && (month + 1) % 12 == 0;
    } else {
      assert (month + 1) / 12 == year && (month + 1) % 12 == m + 1;
    }
  }

  lemma {:induction false} MonthsAdvance(j: int, k: int)
    requires j <= k
    ensures MonthStart(j) + (k - j) <= MonthStart(k)
    decreases k - j
  {
    if j < k {
      MonthsAdvance(j, k - 1);
      MonthLength(k - 1);
    }
  }

  predicate Before(j: int, k: int) {
    j < k
  }

  ghost predicate Increasing(start: int -> int) {
    forall j, k {:trigger Before(j, k)} :: Before(j, k) ==> start(j) < start(k)
  }

  lemma Gregorian()
    ensures Increasing(MonthStart)
  {
    forall j, k | Before(j, k) ensures MonthStart(j) < MonthStart(k) {
      MonthsAdvance(j, k);
    }
  }

  type Calendar = start: int -> int | Increasing(start) witness (Gregorian(); MonthStart)

  lemma Ordered(start: Calendar, j: int, k: int)
    ensures j < k ==> start(j) < start(k)
    ensures j <= k ==> start(j) <= start(k)
  {
    assert Before(j, k) <==> j < k;
  }

  /** The last month that starts no later than `day`. */
  function MonthFrom(start: Calendar, day: int, guess: int): (month: int)
    ensures start(month) <= day < start(month + 1)
    decreases if day < start(guess) then start(guess) - day
              else if start(guess + 1) <= day then day - start(guess + 1) + 1 else 0
  {
    Ordered(start, guess - 1, guess);
    Ordered(start, guess + 1, guess + 2);
    if day < start(guess) then MonthFrom(start, day, guess - 1)
    else if start(guess + 1) <= day then MonthFrom(start, day, guess + 1)
    else guess
  }

  /** The month a day falls in. */
  function MonthOf(start: Calendar, day: int): (month: int)
    ensures start(month) <= day < start(month + 1)
  {
    MonthFrom(start, day, 12 * 1970 + day / 31)
  }

  lemma MonthOfIs(start: Calendar, day: int, month: int)
    requires start(month) <= day < start(month + 1)
    ensures MonthOf(start, day) == month
  {
    var m := MonthOf(start, day);
    Ordered(start, m + 1, month);
    Ordered(start, month + 1, m);
  }

  lemma InYear(year: int, m: int)
    requires 0 <= m < 12
    ensures MonthStart(12 * year + m) == DaysBeforeYear(year) + DaysBeforeMonth(m, IsLeap(year))
  {
    assert (12 * year + m) / 12 == year && (12 * year + m) % 12 == m;
  }

  function DaysUpTo(month: int, leap: bool): int {
    if month == 11 then YearDays(leap) else DaysBeforeMonth(month + 1, leap)
  }

  lemma NextJanuary(year: int)
    ensures MonthStart(12 * year + 12) == DaysBeforeYear(year) + YearDays(IsLeap(year))
  {
    InYear(year + 1, 0);
    YearLength(year);
  }

  lemma NextMonth(year: int, m: int)
    requires 0 <= m < 12
    ensures MonthStart(12 * year + m + 1) == DaysBeforeYear(year) + DaysUpTo(m, IsLeap(year))
  {
    if m < 11 {
      InYear(year, m + 1);
    } else {
      NextJanuary(year);
    }
  }

  lemma MonthInYear(k: int)
    ensures k - 12 - k % 12 == 12 * (k / 12 - 1)
    ensures k - 11 == 12 * (k / 12 - 1) + k % 12 + 1
  {
  }

  /** Eleven months before `k` is the month after it, a year ago. */
  lemma ElevenMonthsBefore(k: int)
    ensures var year, m := k / 12, k % 12;
            MonthStart(k - 12 - m) == DaysBeforeYear(year - 1) &&
            MonthStart(k) == DaysBeforeYear(year - 1) + YearDays(IsLeap(year - 1)) + DaysBeforeMonth(m, IsLeap(year)) &&
            MonthStart(k - 11) == DaysBeforeYear(year - 1) + DaysUpTo(m, IsLeap(year - 1))
  {
    MonthInYear(k);
    YearLength(k / 12 - 1);
    InYear(k / 12 - 1, 0);
    NextMonth(k / 12 - 1, k % 12);
  }

  lemma HalfWay(m: int, before: bool, current: bool)
    requires 0 <= m < 12
    ensures m < 11 ==> 2 * DaysUpTo(m, before) <= YearDays(before) + DaysBeforeMonth(m, current)
  {
  }

  /** January to this month's namesake, a year ago, lasted as long as the twelve months up to `day`
      only when those twelve months are a calendar year. */
  lemma YearDaysCompare(k: int, day: int)
    requires MonthStart(k) <= day
    ensures MonthStart(k - 11) - MonthStart(k - 12 - k % 12) == day + 1 - MonthStart(k - 11) <==>
            k % 12 == 11 && day - MonthStart(k - 11) + 1 == YearDays(IsLeap(k / 12 - 1))
  {
    ElevenMonthsBefore(k);
    HalfWay(k % 12, IsLeap(k / 12 - 1), IsLeap(k / 12));
  }

  /** A Date, changed in place by its setters. */
  class LocalDate {
    const start: Calendar
    var time: int

    constructor At(start: Calendar, t: int)
      ensures this.start == start && time == t
    {
      this.start := start;
      time := t;
    }

    /** `new Date(year, month, date)`: a month outside 0..11 runs into the neighbouring years. */
    constructor OnDay(start: Calendar, year: int, month: int, date: int)
      ensures this.start == start && time == (start(12 * year + month) + date - 1) * DAY
    {
      this.start := start;
      time := (start(12 * year + month) + date - 1) * DAY;
    }

    function Year(): (year: int)
      reads this
    {
      MonthOf(start, DayOf(time)) / 12
    }

    function Month(): (month: int)
      reads this
      ensures 12 * Year() + month == MonthOf(start, DayOf(time)) && 0 <= month < 12
    {
      MonthOf(start, DayOf(time)) % 12
    }

    function Date(): (date: int)
      reads this
      ensures 1 <= date && start(12 * Year() + Month()) + date - 1 == DayOf(time)
    {
      DayOf(time) - start(MonthOf(start, DayOf(time))) + 1
    }

    function Hours(): (h: int)
      reads this
    {
      (time - StartOfDay(time)) / 3600000
    }

    function Minutes(): (m: int)
      reads this
    {
      (time - StartOfDay(time)) / 60000 % 60
    }

    function Seconds(): (s: int)
      reads this
    {
      (time - StartOfDay(time)) / 1000 % 60
    }

    function Milliseconds(): (ms: int)
      reads this
    {
      time % 1000
    }

    /** Keeps the day of the month, and so runs into the next month when the new one is too short;
        the time of day stays. */
    method SetMonth(month: int)
      modifies this
      ensures DayOf(time) == old(start(12 * Year() + month) + Date() - 1)
      ensures time - StartOfDay(time) == old(time - StartOfDay(time))
    {
      ghost var day := start(12 * Year() + month) + Date() - 1;
      time := (start(12 * Year() + month) + Date() - 1) * DAY + time - StartOfDay(time);
      DayOfIs(time, day);
    }

    method SetDate(date: int)
      modifies this
      ensures DayOf(time) == old(start(12 * Year() + Month()) + date - 1)
      ensures time - StartOfDay(time) == old(time - StartOfDay(time))
    {
      ghost var day := start(12 * Year() + Month()) + date - 1;
      time := (start(12 * Year() + Month()) + date - 1) * DAY + time - StartOfDay(time);
      DayOfIs(time, day);
    }

    method SetHours(h: int, m: int, s: int, ms: int)
      modifies this
      ensures time == old(StartOfDay(time)) + 3600000 * h + 60000 * m + 1000 * s + ms
    {
      time := StartOfDay(time) + 3600000 * h + 60000 * m + 1000 * s + ms;
    }

    method SetMilliseconds(ms: int)
      modifies this
      ensures time == old(time / 1000 * 1000) + ms
    {
      time := time / 1000 * 1000 + ms;
    }
  }

  /** Copying the clock of one date onto another is adding its distance from midnight. */
  lemma ClockRecombines(d: LocalDate)
    ensures 3600000 * d.Hours() + 60000 * d.Minutes() + 1000 * d.Seconds() + d.Milliseconds()
         == d.time - StartOfDay(d.time)
  {
    var c := d.time - StartOfDay(d.time);
    Clock(c);
    Millis(DayOf(d.time), c);
  }

  lemma Millis(day: int, c: int)
    ensures (day * DAY + c) % 1000 == c % 1000
  {
    assert day * DAY + c == 1000 * (day * 86400 + c / 1000) + c % 1000;
  }

  lemma Clock(c: int)
    ensures c / 60000 == c / 3600000 * 60 + c / 60000 % 60
    ensures c / 1000 == c / 60000 * 60 + c / 1000 % 60
  {
  }
}
