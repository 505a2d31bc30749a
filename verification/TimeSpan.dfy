/** A span of milliseconds: its components, its totals, and its text form. */
module TimeSpans {
  import opened Wrappers

  const SECOND := 1000
  const MINUTE := 60
  const HOUR := 60
  const DAY := 24
  const MS_MINUTE := 60000
  const MS_HOUR := 3600000
  const MS_DAY := 86400000

  /** JavaScript's `Math.round`: halves go up. */
  function Round(x: real): int {
    (x + 0.5).Floor
  }

  /** `Math.round(n / unit + FLOAT_FIX)`, with FLOAT_FIX = 0.000001. */
  function RoundQuotient(n: int, unit: int): int
    requires unit > 0
  {
    Round(n as real / unit as real + 0.000001)
  }

  /** JavaScript's `%`: the remainder has the sign of the dividend. */
  function Rem(a: int, b: int): int
    requires b > 0
  {
    if a >= 0 then a % b else -((-a) % b)
  }

  function Milliseconds(stamp: int): int {
    Rem(stamp, SECOND)
  }

  function Seconds(stamp: int): int {
    Rem(RoundQuotient(stamp - Milliseconds(stamp), SECOND), MINUTE)
  }

  function Minutes(stamp: int): int {
    Rem(RoundQuotient(stamp - Seconds(stamp) * SECOND, MS_MINUTE), HOUR)
  }

  function Hours(stamp: int): int {
    Rem(RoundQuotient(stamp - Minutes(stamp) * MS_MINUTE, MS_HOUR), DAY)
  }

  function Days(stamp: int): int {
    RoundQuotient(stamp - Hours(stamp) * MS_HOUR, MS_DAY)
  }

  /** Truncating division. */
  function Quot(a: int, b: int): int
    requires b > 0
  {
    if a >= 0 then a / b else -((-a) / b)
  }

  lemma QuotRem(a: int, b: int)
    requires b > 0
    ensures a == Quot(a, b) * b + Rem(a, b)
    ensures -b < Rem(a, b) < b && (a >= 0 ==> Rem(a, b) >= 0 && Quot(a, b) >= 0) && (a <= 0 ==> Rem(a, b) <= 0 && Quot(a, b) <= 0)
  {
  }

  lemma NearInteger(q: int, e: real)
    requires -0.25 < e < 0.25
    ensures Round(q as real + e + 0.000001) == q
  {
  }

  lemma RoundSeconds(q: int, r: int)
    requires -SECOND < 4 * r < SECOND
    ensures RoundQuotient(q * SECOND + r, SECOND) == q
  {
    NearInteger(q, r as real / 1000.0);
  }

  lemma RoundMinutes(q: int, r: int)
    requires -MS_MINUTE < 4 * r < MS_MINUTE
    ensures RoundQuotient(q * MS_MINUTE + r, MS_MINUTE) == q
  {
    NearInteger(q, r as real / 60000.0);
  }

  lemma RoundHours(q: int, r: int)
    requires -MS_HOUR < 4 * r < MS_HOUR
    ensures RoundQuotient(q * MS_HOUR + r, MS_HOUR) == q
  {
    NearInteger(q, r as real / 3600000.0);
  }

  lemma RoundDays(q: int, r: int)
    requires -MS_DAY < 4 * r < MS_DAY
    ensures RoundQuotient(q * MS_DAY + r, MS_DAY) == q
  {
    NearInteger(q, r as real / 86400000.0);
  }

  /** Rounding with FLOAT_FIX recovers the quotient when the rest is well below half a unit. */
  lemma RoundExact(q: int, r: int, unit: int)
    requires unit in {SECOND, MS_MINUTE, MS_HOUR, MS_DAY} && -unit < 4 * r < unit
    ensures RoundQuotient(q * unit + r, unit) == q
  {
    if unit == SECOND {
      RoundSeconds(q, r);
    } else if unit == MS_MINUTE {
      RoundMinutes(q, r);
    } else if unit == MS_HOUR {
      RoundHours(q, r);
    } else {
      RoundDays(q, r);
    }
  }

  /** The stamp's truncated quotients, each from the one before. */
  function TruncSeconds(stamp: int): int { Quot(stamp, SECOND) }
  function TruncMinutes(stamp: int): int { Quot(TruncSeconds(stamp), MINUTE) }
  function TruncHours(stamp: int): int { Quot(TruncMinutes(stamp), HOUR) }
  function TruncDays(stamp: int): int { Quot(TruncHours(stamp), DAY) }

  lemma SecondsExact(stamp: int)
    ensures Seconds(stamp) == Rem(TruncSeconds(stamp), MINUTE)
  {
    QuotRem(stamp, SECOND);
    RoundExact(TruncSeconds(stamp), 0, SECOND);
  }

  lemma MinutesExact(stamp: int)
    ensures Minutes(stamp) == Rem(TruncMinutes(stamp), HOUR)
  {
    SecondsExact(stamp);
    QuotRem(stamp, SECOND);
    QuotRem(TruncSeconds(stamp), MINUTE);
    assert stamp - Seconds(stamp) * SECOND == TruncMinutes(stamp) * MS_MINUTE + Milliseconds(stamp);
    RoundExact(TruncMinutes(stamp), Milliseconds(stamp), MS_MINUTE);
  }

  lemma HoursExact(stamp: int)
    ensures Hours(stamp) == Rem(TruncHours(stamp), DAY)
  {
    SecondsExact(stamp);
    MinutesExact(stamp);
    QuotRem(stamp, SECOND);
    QuotRem(TruncSeconds(stamp), MINUTE);
    QuotRem(TruncMinutes(stamp), HOUR);
    var rest := Seconds(stamp) * SECOND + Milliseconds(stamp);
    assert stamp - Minutes(stamp) * MS_MINUTE == TruncHours(stamp) * MS_HOUR + rest;
    RoundExact(TruncHours(stamp), rest, MS_HOUR);
  }

  lemma DaysExact(stamp: int)
    ensures Days(stamp) == TruncDays(stamp)
  {
    SecondsExact(stamp);
    MinutesExact(stamp);
    HoursExact(stamp);
    QuotRem(stamp, SECOND);
    QuotRem(TruncSeconds(stamp), MINUTE);
    QuotRem(TruncMinutes(stamp), HOUR);
    QuotRem(TruncHours(stamp), DAY);
    var rest := Minutes(stamp) * MS_MINUTE + Seconds(stamp) * SECOND + Milliseconds(stamp);
    assert stamp - Hours(stamp) * MS_HOUR == TruncDays(stamp) * MS_DAY + rest;
    RoundExact(TruncDays(stamp), rest, MS_DAY);
  }

  /** Despite rounding, the components of every stamp recombine to it exactly, each with the sign of
      the stamp and within its range. */
  lemma ComponentsRecombine(stamp: int)
    ensures Days(stamp) * MS_DAY + Hours(stamp) * MS_HOUR + Minutes(stamp) * MS_MINUTE
            + Seconds(stamp) * SECOND + Milliseconds(stamp) == stamp
    ensures -24 < Hours(stamp) < 24 && -60 < Minutes(stamp) < 60 && -60 < Seconds(stamp) < 60
            && -1000 < Milliseconds(stamp) < 1000
    ensures stamp >= 0 ==> Days(stamp) >= 0 && Hours(stamp) >= 0 && Minutes(stamp) >= 0 && Seconds(stamp) >= 0
                           && Milliseconds(stamp) >= 0
    ensures stamp <= 0 ==> Days(stamp) <= 0 && Hours(stamp) <= 0 && Minutes(stamp) <= 0 && Seconds(stamp) <= 0
                           && Milliseconds(stamp) <= 0
  {
    SecondsExact(stamp);
    MinutesExact(stamp);
    HoursExact(stamp);
    DaysExact(stamp);
    QuotRem(stamp, SECOND);
    QuotRem(TruncSeconds(stamp), MINUTE);
    QuotRem(TruncMinutes(stamp), HOUR);
    QuotRem(TruncHours(stamp), DAY);
  }

  /** The totals round to the nearest unit, halves up, except that FLOAT_FIX already lifts a rest
      that is short of the half by no more than a millionth of the unit: for hours and days there
      are such stamps, for seconds and minutes there are none. */
  lemma TotalsRound(stamp: int, unit: int)
    requires unit in {SECOND, MS_MINUTE, MS_HOUR, MS_DAY}
    ensures var rest := stamp % unit;
            && RoundQuotient(stamp, unit) == stamp / unit + (if 1000000 * rest >= 499999 * unit then 1 else 0)
            && (unit in {SECOND, MS_MINUTE} ==> (1000000 * rest >= 499999 * unit <==> 2 * rest >= unit))
  {
    var q, rest, u := stamp / unit, stamp % unit, unit as real;
    assert stamp as real / u == q as real + rest as real / u;
    assert 1000000 * rest >= 499999 * unit <==> rest as real / u + 0.000001 >= 0.5;
  }

  // ---- the text form ----

  function Zeros(n: nat): string {
    if n == 0 then "" else "0" + Zeros(n - 1)
  }

  /** `timeWithZeros`: asks for an array of negative length, and so throws, when the text is too long. */
  function TimeWithZeros(val: int, width: nat): Result<string> {
    if |Decimal(val)| > width then Failure(BadRequest) else Success(Zeros(width - |Decimal(val)|) + Decimal(val))
  }

  function ToString(stamp: int): Result<string> {
    var hours :- TimeWithZeros(Hours(stamp), 2);
    var minutes :- TimeWithZeros(Minutes(stamp), 2);
    var seconds :- TimeWithZeros(Seconds(stamp), 2);
    var milliseconds :- TimeWithZeros(Milliseconds(stamp), 3);
    Success((if Days(stamp) > 0 then Decimal(Days(stamp)) + " days " else "")
            + (hours + ":" + minutes + ":" + seconds + "." + milliseconds))
  }

  lemma {:induction false} DigitsLength(n: nat, width: nat)
    requires width > 0
    ensures |Digits(n)| > 0
    ensures |Digits(n)| <= width <==> n < Pow10(width)
    decreases width
  {
    if width == 1 {
      if n >= 10 { DigitsLengthPositive(n / 10); }
    } else if n >= 10 {
      DigitsLength(n / 10, width - 1);
      assert n < 10 * Pow10(width - 1) <==> n / 10 < Pow10(width - 1);
    } else {
      Pow10AtLeast(width);
    }
  }

  lemma {:induction false} DigitsLengthPositive(n: nat)
    ensures |Digits(n)| > 0
  {
    if n >= 10 { DigitsLengthPositive(n / 10); }
  }

  function Pow10(n: nat): nat {
    if n == 0 then 1 else 10 * Pow10(n - 1)
  }

  lemma {:induction false} Pow10AtLeast(n: nat)
    requires n > 0
    ensures Pow10(n) >= 10
  {
    if n > 1 { Pow10AtLeast(n - 1); }
  }

  lemma FitsIff(val: int, width: nat)
    requires 2 <= width <= 3
    ensures TimeWithZeros(val, width).Success? <==> -(Pow10(width - 1) as int) < val < Pow10(width)
  {
    if val >= 0 {
      DigitsLength(val, width);
      Pow10AtLeast(width);
    } else {
      DigitsLength(-val, width - 1);
    }
  }

  /** `toString` throws exactly when an hour, minute or second is below -9 or the milliseconds are
      below -99; in particular it never throws for a stamp of at least 0. */
  lemma ToStringSucceedsIff(stamp: int)
    ensures ToString(stamp).Success?
       <==> Hours(stamp) > -10 && Minutes(stamp) > -10 && Seconds(stamp) > -10 && Milliseconds(stamp) > -100
    ensures stamp >= 0 ==> ToString(stamp).Success?
  {
    ComponentsRecombine(stamp);
    assert Pow10(1) == 10 && Pow10(2) == 100 && Pow10(3) == 1000;
    FitsIff(Hours(stamp), 2);
    FitsIff(Minutes(stamp), 2);
    FitsIff(Seconds(stamp), 2);
    FitsIff(Milliseconds(stamp), 3);
  }

  /** Ten seconds before zero, for one. */
  lemma NegativeSpanThrows()
    ensures ToString(-10000) == Failure(BadRequest)
  {
    SecondsExact(-10000);
    MinutesExact(-10000);
    HoursExact(-10000);
    ToStringSucceedsIff(-10000);
  }

  // ---- injectivity ----

  lemma {:induction false} DigitsInjective(a: nat, b: nat)
    requires Digits(a) == Digits(b)
    ensures a == b
  {
    var s := Digits(a);
    if a < 10 || b < 10 {
      if a >= 10 { DigitsLengthPositive(a / 10); }
      if b >= 10 { DigitsLengthPositive(b / 10); }
    } else {
      assert s[..|s| - 1] == Digits(a / 10) == Digits(b / 10);
      assert s[|s| - 1] == DigitChar(a % 10) == DigitChar(b % 10);
      DigitsInjective(a / 10, b / 10);
    }
  }

  /** The value a digit string stands for. */
  function Value(s: string): int {
    if s == "" then 0 else 10 * Value(s[..|s| - 1]) + (s[|s| - 1] as int - '0' as int)
  }

  lemma {:induction false} ValueOfDigits(n: nat)
    ensures Value(Digits(n)) == n
  {
    if n >= 10 {
      assert Digits(n)[..|Digits(n)| - 1] == Digits(n / 10);
      ValueOfDigits(n / 10);
    } else {
      assert Digits(n)[..0] == "";
    }
  }

  lemma {:induction false} ValueIgnoresZeros(k: nat, s: string)
    ensures Value(Zeros(k) + s) == Value(s)
    decreases k + |s|
  {
    if s != "" {
      assert (Zeros(k) + s)[..|Zeros(k) + s| - 1] == Zeros(k) + s[..|s| - 1];
      ValueIgnoresZeros(k, s[..|s| - 1]);
    } else if k > 0 {
      ZerosSnoc(k);
      assert Zeros(k) + s == Zeros(k) && Zeros(k)[..k - 1] == Zeros(k - 1);
      ValueIgnoresZeros(k - 1, "");
      assert Zeros(k - 1) + "" == Zeros(k - 1);
    }
  }

  lemma {:induction false} ZerosSnoc(k: nat)
    ensures |Zeros(k)| == k && (k > 0 ==> Zeros(k) == Zeros(k - 1) + "0")
  {
    if k > 0 { ZerosSnoc(k - 1); }
  }

  lemma Padded(val: nat, width: nat)
    requires TimeWithZeros(val, width).Success?
    ensures |TimeWithZeros(val, width).value| == width && Value(TimeWithZeros(val, width).value) == val
  {
    ZerosSnoc(width - |Decimal(val)|);
    ValueIgnoresZeros(width - |Decimal(val)|, Decimal(val));
    ValueOfDigits(val);
  }

  /** The clock part: twelve characters, from which the components can be read back. */
  function Clock(stamp: int): string
    requires ToString(stamp).Success?
  {
    TimeWithZeros(Hours(stamp), 2).value + ":" + TimeWithZeros(Minutes(stamp), 2).value + ":"
    + TimeWithZeros(Seconds(stamp), 2).value + "." + TimeWithZeros(Milliseconds(stamp), 3).value
  }

  function DayPart(stamp: int): string {
    if Days(stamp) > 0 then Decimal(Days(stamp)) + " days " else ""
  }

  lemma ClockReads(stamp: int)
    requires stamp >= 0 && ToString(stamp).Success?
    ensures var c := Clock(stamp);
            && |c| == 12
            && Value(c[0..2]) == Hours(stamp) && Value(c[3..5]) == Minutes(stamp)
            && Value(c[6..8]) == Seconds(stamp) && Value(c[9..12]) == Milliseconds(stamp)
  {
    ComponentsRecombine(stamp);
    Padded(Hours(stamp), 2);
    Padded(Minutes(stamp), 2);
    Padded(Seconds(stamp), 2);
    Padded(Milliseconds(stamp), 3);
    Slices(TimeWithZeros(Hours(stamp), 2).value, TimeWithZeros(Minutes(stamp), 2).value,
           TimeWithZeros(Seconds(stamp), 2).value, TimeWithZeros(Milliseconds(stamp), 3).value);
  }

  lemma Slices(h: string, m: string, s: string, ms: string)
    requires |h| == |m| == |s| == 2 && |ms| == 3
    ensures var c := h + ":" + m + ":" + s + "." + ms;
            |c| == 12 && c[0..2] == h && c[3..5] == m && c[6..8] == s && c[9..12] == ms
  {
  }

  lemma DayPartReads(a: int, b: int)
    requires a >= 0 && b >= 0 && DayPart(a) == DayPart(b)
    ensures Days(a) == Days(b)
  {
    ComponentsRecombine(a);
    ComponentsRecombine(b);
    if Days(a) > 0 && Days(b) > 0 {
      var s := DayPart(a);
      assert s[..|s| - 6] == Decimal(Days(a)) == Decimal(Days(b));
      DigitsInjective(Days(a), Days(b));
    }
  }

  /** Different non-negative spans have different texts. */
  lemma ToStringInjective(a: int, b: int)
    requires a >= 0 && b >= 0 && ToString(a) == ToString(b)
    ensures a == b
  {
    ToStringSucceedsIff(a);
    ToStringSucceedsIff(b);
    ClockReads(a);
    ClockReads(b);
    var s := ToString(a).value;
    assert s == DayPart(a) + Clock(a) == DayPart(b) + Clock(b);
    assert s[|s| - 12..] == Clock(a) == Clock(b);
    assert s[..|s| - 12] == DayPart(a) == DayPart(b);
    DayPartReads(a, b);
    ComponentsRecombine(a);
    ComponentsRecombine(b);
  }

  // ---- what the text says ----

  /** Decimal digits that stand for a number. */
  ghost predicate Reads(s: string, n: int) {
    s != "" && (forall c <- s :: '0' <= c <= '9') && Value(s) == n
  }

  lemma {:induction false} DigitsAreDigits(n: nat)
    ensures forall c <- Digits(n) :: '0' <= c <= '9'
  {
    if n >= 10 { DigitsAreDigits(n / 10); }
  }

  lemma {:induction false} ZerosAreDigits(k: nat)
    ensures forall c <- Zeros(k) :: '0' <= c <= '9'
  {
    if k > 0 { ZerosAreDigits(k - 1); }
  }

  lemma PaddedReads(val: nat, width: nat)
    requires width > 0 && TimeWithZeros(val, width).Success?
    ensures |TimeWithZeros(val, width).value| == width && Reads(TimeWithZeros(val, width).value, val)
  {
    Padded(val, width);
    DigitsAreDigits(val);
    ZerosAreDigits(width - |Decimal(val)|);
  }

  /** Twelve characters: hours, minutes, seconds and milliseconds in their places. */
  ghost predicate IsClock(c: string, hours: int, minutes: int, seconds: int, milliseconds: int) {
    && |c| == 12 && c[2] == ':' && c[5] == ':' && c[8] == '.'
    && Reads(c[0..2], hours) && Reads(c[3..5], minutes) && Reads(c[6..8], seconds) && Reads(c[9..12], milliseconds)
  }

  lemma Assembled(h: string, m: string, s: string, ms: string, hours: int, minutes: int, seconds: int, milliseconds: int)
    requires |h| == |m| == |s| == 2 && |ms| == 3
    requires Reads(h, hours) && Reads(m, minutes) && Reads(s, seconds) && Reads(ms, milliseconds)
    ensures IsClock(h + ":" + m + ":" + s + "." + ms, hours, minutes, seconds, milliseconds)
  {
    Slices(h, m, s, ms);
  }

  lemma ClockForm(stamp: int)
    requires stamp >= 0 && ToString(stamp).Success?
    ensures IsClock(Clock(stamp), Hours(stamp), Minutes(stamp), Seconds(stamp), Milliseconds(stamp))
  {
    ComponentsRecombine(stamp);
    PaddedReads(Hours(stamp), 2);
    PaddedReads(Minutes(stamp), 2);
    PaddedReads(Seconds(stamp), 2);
    PaddedReads(Milliseconds(stamp), 3);
    Assembled(TimeWithZeros(Hours(stamp), 2).value, TimeWithZeros(Minutes(stamp), 2).value,
              TimeWithZeros(Seconds(stamp), 2).value, TimeWithZeros(Milliseconds(stamp), 3).value,
              Hours(stamp), Minutes(stamp), Seconds(stamp), Milliseconds(stamp));
  }

  lemma Below(x: int, y: int, b: nat)
    requires x < y
    ensures x * b + b <= y * b
  {
    assert (y - x - 1) * b >= 0;
  }

  lemma DivisionIs(a: nat, b: nat, q: int, r: int)
    requires a == q * b + r && 0 <= r < b
    ensures a / b == q && a % b == r
  {
    if a / b > q {
      Below(q, a / b, b);
    } else if a / b < q {
      Below(a / b, q, b);
    }
  }

  lemma ByDivision(stamp: nat)
    ensures Days(stamp) == stamp / MS_DAY && Hours(stamp) == stamp % MS_DAY / MS_HOUR
    ensures Minutes(stamp) == stamp % MS_HOUR / MS_MINUTE && Seconds(stamp) == stamp % MS_MINUTE / SECOND
    ensures Milliseconds(stamp) == stamp % SECOND
  {
    ComponentsRecombine(stamp);
    var d, h, m, s, ms := Days(stamp), Hours(stamp), Minutes(stamp), Seconds(stamp), Milliseconds(stamp);
    DivisionIs(stamp, MS_DAY, d, h * MS_HOUR + m * MS_MINUTE + s * SECOND + ms);
    DivisionIs(stamp, MS_HOUR, d * 24 + h, m * MS_MINUTE + s * SECOND + ms);
    DivisionIs(stamp, MS_MINUTE, (d * 24 + h) * 60 + m, s * SECOND + ms);
    DivisionIs(stamp, SECOND, ((d * 24 + h) * 60 + m) * 60 + s, ms);
    DivisionIs(h * MS_HOUR + m * MS_MINUTE + s * SECOND + ms, MS_HOUR, h, m * MS_MINUTE + s * SECOND + ms);
    DivisionIs(m * MS_MINUTE + s * SECOND + ms, MS_MINUTE, m, s * SECOND + ms);
    DivisionIs(s * SECOND + ms, SECOND, s, ms);
  }

  /** The text of a span that is not negative: its whole days, where there are any, and the clock of
      the rest. */
  lemma TextForm(stamp: nat)
    ensures ToString(stamp).Success? && |ToString(stamp).value| >= 12
    ensures var s := ToString(stamp).value;
            var days, clock := s[..|s| - 12], s[|s| - 12..];
            && IsClock(clock, stamp % MS_DAY / MS_HOUR, stamp % MS_HOUR / MS_MINUTE, stamp % MS_MINUTE / SECOND, stamp % SECOND)
            && (if stamp < MS_DAY then days == ""
                else |days| > 6 && days[|days| - 6..] == " days " && Reads(days[..|days| - 6], stamp / MS_DAY))
  {
    ToStringSucceedsIff(stamp);
    ByDivision(stamp);
    ClockForm(stamp);
    var s := ToString(stamp).value;
    assert s == DayPart(stamp) + Clock(stamp);
    assert s[..|s| - 12] == DayPart(stamp) && s[|s| - 12..] == Clock(stamp);
    if stamp >= MS_DAY {
      var days, n := DayPart(stamp), Days(stamp);
      assert days[..|days| - 6] == Digits(n) && days[|days| - 6..] == " days ";
      DigitsAreDigits(n);
      ValueOfDigits(n);
      DigitsLengthPositive(n);
    }
  }

  // ---- the class ----

  class TimeSpan {
    var stamp: int

    constructor (date1: int, date2: int)
      ensures stamp == date1 - date2
    {
      stamp := date1 - date2;
    }

    method AddMilliseconds(ms: int)
      modifies this
      ensures stamp == old(stamp) + ms
    {
      stamp := stamp + ms;
    }

    method AddSeconds(sec: int)
      modifies this
      ensures stamp == old(stamp) + sec * SECOND
    {
      stamp := stamp + sec * SECOND;
    }

    method AddMinutes(min: int)
      modifies this
      ensures stamp == old(stamp) + min * MS_MINUTE
    {
      stamp := stamp + min * MINUTE * SECOND;
    }

    method AddHours(hours: int)
      modifies this
      ensures stamp == old(stamp) + hours * MS_HOUR
    {
      stamp := stamp + hours * HOUR * MINUTE * SECOND;
    }

    method AddDays(days: int)
      modifies this
      ensures stamp == old(stamp) + days * MS_DAY
    {
      stamp := stamp + days * DAY * HOUR * MINUTE * SECOND;
    }
  }
}
