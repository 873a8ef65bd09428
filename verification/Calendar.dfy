/**
 * UTC days, months and years in milliseconds since 1970, with the year and month of a time as section
 * 21.4.1 of ECMA-262 defines them.
 */
module Calendar {
  /** The day a time falls on, and the time a day begins. */
  function Day(t: int): int { t / 86_400_000 }

  function Ms(day: int): int { day * 86_400_000 }

  /** DayFromYear: the number of the first day of a year. */
  function DayFromYear(y: int): int {
    365 * (y - 1970) + (y - 1969) / 4 - (y - 1901) / 100 + (y - 1601) / 400
  }

  predicate Leap(y: int) {
    y % 4 == 0 && (y % 100 != 0 || y % 400 == 0)
  }

  function YearFromDay(day: int, y: int): (r: int)
    requires DayFromYear(y) <= day
    ensures r >= y && DayFromYear(r) <= day < DayFromYear(r + 1)
    decreases day - DayFromYear(y)
  {
    YearLength(y);
    if day < DayFromYear(y + 1) then y else YearFromDay(day, y + 1)
  }

  /** YearFromTime: the largest year that begins at or before `t`. */
  function YearFromTime(t: nat): (y: int)
    ensures y >= 1970 && DayFromYear(y) <= Day(t) < DayFromYear(y + 1)
  {
    YearFromDay(Day(t), 1970)
  }

  lemma YearLength(y: int)
    ensures DayFromYear(y + 1) - DayFromYear(y) == if Leap(y) then 366 else 365
  {
    FourYears(y);
    HundredYears(y);
    FourHundredYears(y);
  }

  lemma FourYears(y: int)
    ensures (y + 1 - 1969) / 4 == (y - 1969) / 4 + if y % 4 == 0 then 1 else 0
  {
  }

  lemma HundredYears(y: int)
    ensures (y + 1 - 1901) / 100 == (y - 1901) / 100 + if y % 100 == 0 then 1 else 0
    ensures y % 100 == 0 ==> y % 4 == 0
  {
  }

  lemma FourHundredYears(y: int)
    ensures (y + 1 - 1601) / 400 == (y - 1601) / 400 + if y % 400 == 0 then 1 else 0
    ensures y % 400 == 0 ==> y % 100 == 0
  {
  }

  lemma {:induction false} YearsAscend(y: int, z: int)
    requires y < z
    ensures DayFromYear(y) + 365 <= DayFromYear(z)
    decreases z - y
  {
    YearLength(y);
    if y + 1 < z { YearsAscend(y + 1, z); }
  }

  /** Days of the year before month `m`. */
  function DaysBefore(m: int, leap: bool): int
    requires 0 <= m <= 12
  {
    var l := if leap then 1 else 0;
    if m == 0 then 0 else if m == 1 then 31 else if m == 2 then 59 + l else if m == 3 then 90 + l
    else if m == 4 then 120 + l else if m == 5 then 151 + l else if m == 6 then 181 + l else if m == 7 then 212 + l
    else if m == 8 then 243 + l else if m == 9 then 273 + l else if m == 10 then 304 + l
    else if m == 11 then 334 + l else 365 + l
  }

  function MonthOfDay(d: int, leap: bool, m: int): (r: int)
    requires 0 <= m <= 11 && DaysBefore(m, leap) <= d < DaysBefore(12, leap)
    ensures m <= r <= 11 && DaysBefore(r, leap) <= d < DaysBefore(r + 1, leap)
    decreases 12 - m
  {
    if d < DaysBefore(m + 1, leap) then m else MonthOfDay(d, leap, m + 1)
  }

  /** MonthFromTime, zero-indexed. */
  function MonthFromTime(t: nat): (m: int)
    ensures 0 <= m <= 11
    ensures var y := YearFromTime(t);
      DayFromYear(y) + DaysBefore(m, Leap(y)) <= Day(t) < DayFromYear(y) + DaysBefore(m + 1, Leap(y))
  {
    var y := YearFromTime(t);
    YearLength(y);
    MonthOfDay(Day(t) - DayFromYear(y), Leap(y), 0)
  }

  /** Date.UTC(y, m, 1); a month past December carries into the years after. */
  function MonthStart(y: int, m: int): int {
    Ms(DayFromYear(y + m / 12) + DaysBefore(m % 12, Leap(y + m / 12)))
  }

  function NextMonthStartMs(ms: nat): int {
    MonthStart(YearFromTime(ms), MonthFromTime(ms) + 1)
  }

  function NextYearStartMs(ms: nat): int {
    MonthStart(YearFromTime(ms) + 1, 0)
  }

  predicate Month(y: int, m: int) {
    y >= 1970 && 0 <= m < 12
  }

  /** The day a month starts on, counted in its own year; December's successor is the next January. */
  function StartDay(y: int, m: int): int
    requires 0 <= m <= 12
  {
    DayFromYear(y) + DaysBefore(m, Leap(y))
  }

  lemma MonthStartIs(y: int, m: int)
    requires 0 <= m <= 12
    ensures MonthStart(y, m) == Ms(StartDay(y, m))
  {
    YearLength(y);
  }

  lemma DaysAscend(m: int, n: int, leap: bool)
    requires 0 <= m < n <= 12
    ensures DaysBefore(m, leap) + 28 <= DaysBefore(n, leap)
  {
  }

  predicate Before(y: int, m: int, z: int, n: int) {
    y < z || (y == z && m < n)
  }

  lemma MonthsAscend(y: int, m: int, z: int, n: int)
    requires 0 <= m <= 11 && 0 <= n <= 11 && Before(y, m, z, n)
    ensures StartDay(y, m + 1) <= StartDay(z, n)
  {
    YearLength(y);
    if y < z {
      if y + 1 < z { YearsAscend(y + 1, z); }
      if m < 11 { DaysAscend(m + 1, 12, Leap(y)); }
      if n > 0 { DaysAscend(0, n, Leap(z)); }
    } else if m + 1 < n {
      DaysAscend(m + 1, n, Leap(y));
    }
  }

  lemma DayBetween(t: int, a: int, b: int)
    requires Ms(a) <= t < Ms(b)
    ensures a <= Day(t) < b
  {
  }

  lemma ItsMonth(t: nat)
    ensures var y, m := YearFromTime(t), MonthFromTime(t); StartDay(y, m) <= Day(t) < StartDay(y, m + 1)
  {
  }

  /** A month's start, and any time before the next one, has that year and month. */
  lemma MonthIs(t: nat, y: int, m: int)
    requires Month(y, m) && Ms(StartDay(y, m)) <= t < Ms(StartDay(y, m + 1))
    ensures YearFromTime(t) == y && MonthFromTime(t) == m
  {
    DayBetween(t, StartDay(y, m), StartDay(y, m + 1));
    ItsMonth(t);
    SameMonth(Day(t), y, m, YearFromTime(t), MonthFromTime(t));
  }

  lemma SameMonth(day: int, y: int, m: int, z: int, n: int)
    requires 0 <= m <= 11 && 0 <= n <= 11
    requires StartDay(y, m) <= day < StartDay(y, m + 1) && StartDay(z, n) <= day < StartDay(z, n + 1)
    ensures y == z && m == n
  {
    if Before(y, m, z, n) { MonthsAscend(y, m, z, n); }
    if Before(z, n, y, m) { MonthsAscend(z, n, y, m); }
  }

  /** The span of the month a time lies in. */
  lemma InItsMonth(ms: nat)
    ensures var y, m := YearFromTime(ms), MonthFromTime(ms);
      NextMonthStartMs(ms) == Ms(StartDay(y, m + 1)) && Ms(StartDay(y, m)) <= ms < Ms(StartDay(y, m + 1))
  {
    MonthStartIs(YearFromTime(ms), MonthFromTime(ms) + 1);
  }

  /** The next month's start is the first month start after `ms`, so a month chunk's span ends where the next begins. */
  lemma NextMonthIsNext(ms: nat, y: int, m: int)
    requires Month(y, m)
    ensures MonthStart(y, m) > ms <==> MonthStart(y, m) >= NextMonthStartMs(ms)
    ensures NextMonthStartMs(ms) > ms
  {
    var z, n := YearFromTime(ms), MonthFromTime(ms);
    InItsMonth(ms);
    MonthStartIs(y, m);
    NoneBetween(y, m, z, n);
  }

  lemma NoneBetween(y: int, m: int, z: int, n: int)
    requires 0 <= m <= 11 && 0 <= n <= 11
    ensures StartDay(y, m) <= StartDay(z, n) || StartDay(z, n + 1) <= StartDay(y, m)
  {
    if Before(z, n, y, m) {
      MonthsAscend(z, n, y, m);
    } else if Before(y, m, z, n) {
      DaysAscend(m, m + 1, Leap(y));
      MonthsAscend(y, m, z, n);
    }
  }

  lemma YearStartIs(y: int)
    ensures MonthStart(y, 0) == Ms(DayFromYear(y))
  {
  }

  /** Likewise for years. */
  lemma NextYearIsNext(ms: nat, y: int)
    ensures MonthStart(y, 0) > ms <==> MonthStart(y, 0) >= NextYearStartMs(ms)
    ensures NextYearStartMs(ms) > ms
  {
    var z := YearFromTime(ms);
    YearStartIs(y);
    YearStartIs(z + 1);
    YearsBetween(y, z);
  }

  lemma YearsBetween(y: int, z: int)
    ensures DayFromYear(y) <= DayFromYear(z) || DayFromYear(z + 1) <= DayFromYear(y)
  {
    if y < z { YearsAscend(y, z); }
    if z + 1 < y { YearsAscend(z + 1, y); }
  }

  lemma StartNonNegative(y: int, m: int)
    requires y >= 1970 && 0 <= m <= 12
    ensures StartDay(y, m) >= 0
  {
    if y > 1970 { YearsAscend(1970, y); }
    if m > 0 { DaysAscend(0, m, Leap(y)); }
  }

  lemma MonthNotEmpty(y: int, m: int)
    requires 0 <= m <= 11
    ensures StartDay(y, m) < StartDay(y, m + 1)
  {
    DaysAscend(m, m + 1, Leap(y));
  }

  lemma StartIs(y: int, m: int)
    requires Month(y, m)
    ensures Ms(StartDay(y, m)) >= 0
    ensures YearFromTime(Ms(StartDay(y, m))) == y && MonthFromTime(Ms(StartDay(y, m))) == m
  {
    StartNonNegative(y, m);
    MonthNotEmpty(y, m);
    MonthIs(Ms(StartDay(y, m)), y, m);
  }

  lemma NextMonthGiven(t: nat, y: int, m: int)
    requires Month(y, m) && YearFromTime(t) == y && MonthFromTime(t) == m
    ensures NextMonthStartMs(t) == Ms(StartDay(y, m + 1))
  {
    MonthStartIs(y, m + 1);
  }

  lemma NextYearGiven(t: nat, y: int)
    requires YearFromTime(t) == y
    ensures NextYearStartMs(t) == Ms(DayFromYear(y + 1))
  {
    YearStartIs(y + 1);
  }

  /** Stepping from month start to month start, in days. */
  lemma MonthSpan(y: int, m: int)
    requires Month(y, m)
    ensures Ms(StartDay(y, m)) >= 0
    ensures NextMonthStartMs(Ms(StartDay(y, m))) == Ms(StartDay(y, m + 1))
    ensures NextYearStartMs(Ms(StartDay(y, m))) == Ms(DayFromYear(y + 1))
  {
    StartIs(y, m);
    NextMonthGiven(Ms(StartDay(y, m)), y, m);
    NextYearGiven(Ms(StartDay(y, m)), y);
  }

  lemma YearSpan(y: int)
    requires y >= 1970
    ensures Ms(DayFromYear(y)) >= 0 && NextYearStartMs(Ms(DayFromYear(y))) == Ms(DayFromYear(y + 1))
  {
    MonthSpan(y, 0);
  }

  // ---- the days of a span ----

  function DaysFrom(d: int, to: int): seq<int>
    decreases to - d
  {
    if d >= to then [] else [d] + DaysFrom(d + 86_400_000, to)
  }

  /** The UTC-day starts covering [from, to). */
  function DayStarts(from: int, to: int): seq<int> {
    DaysFrom(Ms(Day(from)), to)
  }

  method DayStartsIn(fromMs: int, toMs: int) returns (out: seq<int>)
    ensures out == DayStarts(fromMs, toMs)
  {
    out := [];
    var d := fromMs / 86_400_000 * 86_400_000;
    while d < toMs
      invariant out + DaysFrom(d, toMs) == DayStarts(fromMs, toMs)
      decreases toMs - d
    {
      assert out + ([d] + DaysFrom(d + 86_400_000, toMs)) == out + [d] + DaysFrom(d + 86_400_000, toMs);
      out := out + [d];
      d := d + 86_400_000;
    }
  }

  /** The first day a span does not reach. */
  function DaysEnd(to: int): int {
    Day(to + 86_399_999)
  }

  /** The day starts of any span are consecutive: the day of `from`, then every next one that begins before `to`. */
  lemma {:induction false} DayStartsAre(a: int, to: int)
    ensures |DaysFrom(Ms(a), to)| == if a < DaysEnd(to) then DaysEnd(to) - a else 0
    ensures forall i :: 0 <= i < |DaysFrom(Ms(a), to)| ==> DaysFrom(Ms(a), to)[i] == Ms(a + i)
    decreases DaysEnd(to) - a
  {
    if Ms(a) < to {
      assert Ms(a + 1) == Ms(a) + 86_400_000;
      DayStartsAre(a + 1, to);
      var more := DaysFrom(Ms(a + 1), to);
      assert DaysFrom(Ms(a), to) == [Ms(a)] + more;
      assert forall i :: 1 <= i <= |more| ==> ([Ms(a)] + more)[i] == more[i - 1];
    }
  }

  /** A time lies in a span of whole days exactly when the start of its day is listed. */
  lemma DaysTile(a: int, b: int, t: int)
    ensures Ms(a) <= t < Ms(b) <==> Ms(Day(t)) in DayStarts(Ms(a), Ms(b))
  {
    var ds := DayStarts(Ms(a), Ms(b));
    DayStartsAre(a, Ms(b));
    assert Day(Ms(a)) == a && DaysEnd(Ms(b)) == b;
    if Ms(a) <= t < Ms(b) {
      assert ds[Day(t) - a] == Ms(Day(t));
    }
  }

  lemma DaysConcat(a: int, b: int, c: int)
    requires a <= b <= c
    ensures DayStarts(Ms(a), Ms(c)) == DayStarts(Ms(a), Ms(b)) + DayStarts(Ms(b), Ms(c))
  {
    DayStartsAre(a, Ms(b));
    DayStartsAre(b, Ms(c));
    DayStartsAre(a, Ms(c));
    assert Day(Ms(a)) == a && Day(Ms(b)) == b && DaysEnd(Ms(b)) == b && DaysEnd(Ms(c)) == c;
  }

  /** The days of the months from `m` on, as the month jobs of the year see them. */
  function MonthDays(y: int, m: int): seq<int>
    requires y >= 1970 && 0 <= m <= 12
    decreases 12 - m
  {
    if m == 12 then [] else
      MonthSpan(y, m);
      DayStarts(Ms(StartDay(y, m)), NextMonthStartMs(Ms(StartDay(y, m)))) + MonthDays(y, m + 1)
  }

  lemma {:induction false} MonthsTile(y: int, m: int)
    requires y >= 1970 && 0 <= m <= 12
    ensures MonthDays(y, m) == DayStarts(Ms(StartDay(y, m)), Ms(StartDay(y, 12)))
    decreases 12 - m
  {
    if m < 12 {
      MonthsTile(y, m + 1);
      OneMonth(y, m);
      MonthsOrdered(y, m);
      DaysConcat(StartDay(y, m), StartDay(y, m + 1), StartDay(y, 12));
    } else {
      NoDays(StartDay(y, 12));
    }
  }

  lemma MonthsOrdered(y: int, m: int)
    requires 0 <= m <= 11
    ensures StartDay(y, m) <= StartDay(y, m + 1) <= StartDay(y, 12)
  {
    MonthNotEmpty(y, m);
    if m < 11 { DaysAscend(m + 1, 12, Leap(y)); }
  }

  lemma NoDays(a: int)
    ensures DayStarts(Ms(a), Ms(a)) == []
  {
    DayStartsAre(a, Ms(a));
  }

  lemma OneMonth(y: int, m: int)
    requires Month(y, m)
    ensures MonthDays(y, m) == DayStarts(Ms(StartDay(y, m)), Ms(StartDay(y, m + 1))) + MonthDays(y, m + 1)
  {
    MonthSpan(y, m);
  }

  /** Twelve month spans concatenate to the year span, of 365 or 366 days. */
  lemma TwelveMonthsMakeAYear(y: int)
    requires y >= 1970
    ensures Ms(DayFromYear(y)) >= 0
    ensures MonthDays(y, 0) == DayStarts(Ms(DayFromYear(y)), NextYearStartMs(Ms(DayFromYear(y))))
    ensures |MonthDays(y, 0)| == if Leap(y) then 366 else 365
  {
    YearSpan(y);
    MonthsTile(y, 0);
    YearEnds(y);
    YearDays(y);
  }

  lemma YearDays(y: int)
    ensures |DayStarts(Ms(DayFromYear(y)), Ms(DayFromYear(y + 1)))| == if Leap(y) then 366 else 365
  {
    YearEnds(y);
    DaySpanLength(DayFromYear(y), DayFromYear(y + 1));
  }

  lemma DaySpanLength(a: int, b: int)
    requires a <= b
    ensures |DayStarts(Ms(a), Ms(b))| == b - a
  {
    DayStartsAre(a, Ms(b));
    assert Day(Ms(a)) == a && DaysEnd(Ms(b)) == b;
  }

  lemma YearEnds(y: int)
    ensures StartDay(y, 12) == DayFromYear(y + 1) && StartDay(y, 0) == DayFromYear(y)
    ensures DayFromYear(y + 1) - DayFromYear(y) == if Leap(y) then 366 else 365
  {
    YearLength(y);
  }
}
