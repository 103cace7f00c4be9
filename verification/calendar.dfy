/**
 * Proleptic Gregorian calendar arithmetic on integer seconds since
 * 1970-01-01T00:00:00, for the one place the engine turns a month and a day
 * into a point in time: the annual reminders of the running flow, dated
 * 23:59:59 on a given day of the current year.
 */
module Calendar {

  const SECONDS_PER_DAY := 86400

  predicate IsLeapYear(y: int) {
    y % 4 == 0 && (y % 100 != 0 || y % 400 == 0)
  }

  function DaysInMonth(y: int, m: int): int
    requires 1 <= m <= 12
  {
    if m == 2 then (if IsLeapYear(y) then 29 else 28)
    else if m == 4 || m == 6 || m == 9 || m == 11 then 30
    else 31
  }

  /** The dates `datetime.replace(month = m, day = d)` accepts in year `y`. */
  predicate ValidDate(y: int, m: int, d: int) {
    1 <= m <= 12 && 1 <= d <= DaysInMonth(y, m)
  }

  /**
   * Days from 0000-03-01 to March 1 of year `y`: whole 400-year eras of
   * 146097 days, then 365 days a year plus the leap days of the era so far.
   */
  function MarchYearStart(y: int): int {
    var era := y / 400;
    var yoe := y - era * 400;
    era * 146097 + EraYearStart(yoe)
  }

  /** Days from the start of an era to March 1 of its year `yoe`. */
  function EraYearStart(yoe: int): int {
    yoe * 365 + yoe / 4 - yoe / 100
  }

  /** The year of an era that day `doe` of the era falls in, counting years from March. */
  function EraYear(doe: int): int {
    (doe - doe / 1460 + doe / 36524 - doe / 146096) / 365
  }

  /** The month, counted from March, that day `doy` of a March-based year falls in. */
  function MarchMonth(doy: int): int {
    (5 * doy + 2) / 153
  }

  /** Days from March 1 to the first of the `mp`-th month after March; `(153 * mp + 2) / 5` in closed form. */
  function MonthStart(mp: int): int
    requires 0 <= mp < 12
  {
    [0, 31, 61, 92, 122, 153, 184, 214, 245, 275, 306, 337][mp]
  }

  /** Days from 1970-01-01 to the given date (negative before it); January and February count with the previous year. */
  function DaysFromCivil(y: int, m: int, d: int): int
    requires 1 <= m <= 12
  {
    var y' := if m <= 2 then y - 1 else y;
    var mp := if m > 2 then m - 3 else m + 9;
    MarchYearStart(y') + MonthStart(mp) + d - 1 - 719468
  }

  /** The year of the civil date that is `z` days after 1970-01-01. */
  function YearOfDay(z: int): int {
    var z' := z + 719468;
    var era := z' / 146097;
    var doe := z' - era * 146097;
    var yoe := EraYear(doe);
    var mp := MarchMonth(doe - EraYearStart(yoe));
    var y := yoe + era * 400;
    if mp < 10 then y else y + 1
  }

  /** The current year at time `t` (seconds since the epoch). */
  function YearOf(t: int): int {
    YearOfDay(t / SECONDS_PER_DAY)
  }

  /** The time `hh:mm:ss` on the given date, in seconds since the epoch. */
  function TimeOn(y: int, m: int, d: int, hh: int, mm: int, ss: int): int
    requires 1 <= m <= 12
  {
    DaysFromCivil(y, m, d) * SECONDS_PER_DAY + hh * 3600 + mm * 60 + ss
  }

  /** The date after a valid date. */
  function NextDate(y: int, m: int, d: int): (r: (int, int, int))
    requires ValidDate(y, m, d)
    ensures ValidDate(r.0, r.1, r.2)
  {
    if d < DaysInMonth(y, m) then (y, m, d + 1)
    else if m < 12 then (y, m + 1, 1)
    else (y + 1, 1, 1)
  }

  /** The day count starts at the epoch. */
  lemma EpochIsDayZero()
    ensures DaysFromCivil(1970, 1, 1) == 0
    ensures YearOfDay(0) == 1970
  {
    assert 1969 / 400 == 4;
    assert 369 / 4 == 92 && 369 / 100 == 3;
    assert 719468 / 146097 == 4;
    assert 135080 / 1460 == 92 && 135080 / 36524 == 3 && 135080 / 146096 == 0;
    assert 134991 / 365 == 369;
    assert (5 * 306 + 2) / 153 == 10;
  }

  /** Division by 4 is determined by quotient and remainder. */
  lemma DivMod4(z: int, q: int, r: int)
    requires 0 <= r < 4 && z == 4 * q + r
    ensures z / 4 == q && z % 4 == r
  {
  }

  /** Division by 100 is determined by quotient and remainder. */
  lemma DivMod100(z: int, q: int, r: int)
    requires 0 <= r < 100 && z == 100 * q + r
    ensures z / 100 == q && z % 100 == r
  {
  }

  /** Division by 400 is determined by quotient and remainder. */
  lemma DivMod400(z: int, q: int, r: int)
    requires 0 <= r < 400 && z == 400 * q + r
    ensures z / 400 == q && z % 400 == r
  {
  }

  /** Adding one to `x` raises `x / 4` by one exactly when it reaches a multiple of 4. */
  lemma QuarterStep(x: int)
    ensures (x + 1) / 4 - x / 4 == if (x + 1) % 4 == 0 then 1 else 0
  {
    if x % 4 == 3 {
      DivMod4(x + 1, x / 4 + 1, 0);
    } else {
      DivMod4(x + 1, x / 4, x % 4 + 1);
    }
  }

  /** Adding one to `x` raises `x / 100` by one exactly when it reaches a multiple of 100. */
  lemma CenturyStep(x: int)
    ensures (x + 1) / 100 - x / 100 == if (x + 1) % 100 == 0 then 1 else 0
  {
    if x % 100 == 99 {
      DivMod100(x + 1, x / 100 + 1, 0);
    } else {
      DivMod100(x + 1, x / 100, x % 100 + 1);
    }
  }

  /** Shifting by whole eras of 400 years keeps the remainder by 4 and by 100. */
  lemma EraShift(y: int, e: int)
    ensures (y - e * 400) % 4 == y % 4
    ensures (y - e * 400) % 100 == y % 100
  {
    DivMod4(y - e * 400, y / 4 - 100 * e, y % 4);
    DivMod100(y - e * 400, y / 100 - 4 * e, y % 100);
  }

  /** The year from March 1 of `y` to March 1 of `y + 1` has 366 days exactly when its February is a leap February. */
  lemma MarchYearLength(y: int)
    ensures MarchYearStart(y + 1) == MarchYearStart(y) + 365 + (if IsLeapYear(y + 1) then 1 else 0)
  {
    var e := y / 400;
    var yoe := y - e * 400;
    assert 0 <= yoe < 400;
    assert MarchYearStart(y) == e * 146097 + yoe * 365 + yoe / 4 - yoe / 100;
    if yoe == 399 {
      LastYearOfEra(y, e);
    } else {
      InsideEra(y, e, yoe);
    }
  }

  /** `MarchYearLength` when `y + 1` starts a new era. */
  lemma LastYearOfEra(y: int, e: int)
    requires e == y / 400 && y - e * 400 == 399
    ensures MarchYearStart(y + 1) == MarchYearStart(y) + 366
    ensures IsLeapYear(y + 1)
  {
    DivMod400(y + 1, e + 1, 0);
    assert MarchYearStart(y + 1) == (e + 1) * 146097;
    assert MarchYearStart(y) == e * 146097 + 399 * 365 + 99 - 3;
  }

  /** `MarchYearLength` when `y` and `y + 1` lie in the same era. */
  lemma InsideEra(y: int, e: int, yoe: int)
    requires e == y / 400 && yoe == y - e * 400 && 0 <= yoe < 399
    ensures MarchYearStart(y + 1) == MarchYearStart(y) + 365 + (if IsLeapYear(y + 1) then 1 else 0)
  {
    DivMod400(y + 1, e, yoe + 1);
    assert MarchYearStart(y + 1) == e * 146097 + (yoe + 1) * 365 + (yoe + 1) / 4 - (yoe + 1) / 100;
    QuarterStep(yoe);
    CenturyStep(yoe);
    EraShift(y + 1, e);
  }

  /** The last of February is one day before the first of March, in leap and common years alike. */
  lemma EndOfFebruary(y: int)
    ensures DaysFromCivil(y, 3, 1) == DaysFromCivil(y, 2, DaysInMonth(y, 2)) + 1
  {
    MarchYearLength(y - 1);
  }

  /** The last day of a month other than February or December is one day before the first of the next. */
  lemma EndOfMonth(y: int, m: int)
    requires 1 <= m < 12 && m != 2
    ensures DaysFromCivil(y, m + 1, 1) == DaysFromCivil(y, m, DaysInMonth(y, m)) + 1
  {
  }

  /**
   * Consecutive dates are consecutive day numbers; with `EpochIsDayZero`
   * this makes `DaysFromCivil` the number of days since 1970-01-01.
   */
  lemma NextDateIsNextDay(y: int, m: int, d: int)
    requires ValidDate(y, m, d)
    ensures var n := NextDate(y, m, d); DaysFromCivil(n.0, n.1, n.2) == DaysFromCivil(y, m, d) + 1
  {
    if d == DaysInMonth(y, m) && m == 2 {
      EndOfFebruary(y);
    } else if d == DaysInMonth(y, m) && m < 12 {
      EndOfMonth(y, m);
    }
  }

  /** Division by a positive constant is determined by quotient and remainder. */
  lemma DivModBy(z: int, k: int, q: int, r: int)
    requires 0 < k && 0 <= r < k && z == k * q + r
    ensures z / k == q && z % k == r
  {
    var a := q - z / k;
    assert k * a == z % k - r by {
      assert z == k * (z / k) + z % k;
      assert k * q - k * (z / k) == k * a;
    }
    if a > 0 {
      MulAtLeast(k, a);
    } else if a < 0 {
      MulAtLeast(k, -a);
    }
  }

  /** A positive multiple of `k` is at least `k`. */
  lemma MulAtLeast(k: int, a: int)
    requires 0 < k && 0 < a
    ensures k * a >= k
  {
    assert k * a == k * (a - 1) + k;
  }

  /** The time `hh:mm:ss` on a date lies on that date's day number, `hh:mm:ss` into it. */
  lemma TimeOnDay(y: int, m: int, d: int, hh: int, mm: int, ss: int)
    requires 1 <= m <= 12 && 0 <= hh < 24 && 0 <= mm < 60 && 0 <= ss < 60
    ensures TimeOn(y, m, d, hh, mm, ss) / SECONDS_PER_DAY == DaysFromCivil(y, m, d)
    ensures TimeOn(y, m, d, hh, mm, ss) % SECONDS_PER_DAY == hh * 3600 + mm * 60 + ss
  {
    DivModBy(TimeOn(y, m, d, hh, mm, ss), SECONDS_PER_DAY, DaysFromCivil(y, m, d), hh * 3600 + mm * 60 + ss);
  }

  /** The length of the `mp`-th month counted from March, February last. */
  function MarchMonthLength(mp: int, leap: bool): int
    requires 0 <= mp < 12
  {
    if mp == 11 then (if leap then 29 else 28)
    else if mp == 1 || mp == 3 || mp == 6 || mp == 8 then 30
    else 31
  }

  /** The month formula of `YearOfDay` recovers the month from a day of the March-based year. */
  lemma MonthOfDay(mp: int, d: int, leap: bool)
    requires 0 <= mp < 12 && 1 <= d <= MarchMonthLength(mp, leap)
    ensures MarchMonth(MonthStart(mp) + d - 1) == mp
  {
    var x := 5 * (MonthStart(mp) + d - 1) + 2;
    DivModBy(x, 153, mp, x - 153 * mp);
  }

  /**
   * The year formula of `YearOfDay` inside one 400-year era: the day `doy` of
   * year `100 * c + 4 * q + r` of the era (a day 365 only in a leap February)
   * lies on day `doe` of the era, and the formula gives the year back.
   */
  lemma EraYearOfDay(c: int, q: int, r: int, doy: int)
    requires 0 <= c < 4 && 0 <= q < 25 && 0 <= r < 4 && 0 <= doy
    requires doy < 365 || (doy == 365 && r == 3 && (q != 24 || c == 3))
    ensures var doe := 36524 * c + 1461 * q + 365 * r + doy;
      && 0 <= doe < 146097
      && EraYear(doe) == 100 * c + 4 * q + r
      && doe - EraYearStart(100 * c + 4 * q + r) == doy
  {
    var doe := 36524 * c + 1461 * q + 365 * r + doy;
    var w := 24 * c + q + 365 * r + doy;
    var f := if w < 1460 then 0 else 1;
    DivModBy(doe, 1460, 25 * c + q + f, w - 1460 * f);
    var v := 1461 * q + 365 * r + doy;
    if v < 36524 {
      DivModBy(doe, 36524, c, v);
      DivModBy(doe, 146096, 0, doe);
    } else {
      DivModBy(doe, 36524, 4, 0);
      DivModBy(doe, 146096, 1, 0);
    }
    var e := doe - doe / 1460 + doe / 36524 - doe / 146096;
    assert e == 365 * (100 * c + 4 * q + r) + doy - f;
    DivModBy(e, 365, 100 * c + 4 * q + r, doy - f);
    EraYearStartOf(c, q, r);
  }

  /** Year `100 * c + 4 * q + r` of an era starts after `c` centuries, `q` four-year cycles and `r` common years. */
  lemma EraYearStartOf(c: int, q: int, r: int)
    requires 0 <= c < 4 && 0 <= q < 25 && 0 <= r < 4
    ensures EraYearStart(100 * c + 4 * q + r) == 36524 * c + 1461 * q + 365 * r
  {
    var yoe := 100 * c + 4 * q + r;
    DivMod4(yoe, 25 * c + q, r);
    DivMod100(yoe, c, 4 * q + r);
  }

  /** The leap years, seen from the year of an era before them. */
  lemma LeapInEra(era: int, c: int, q: int, r: int)
    requires 0 <= c < 4 && 0 <= q < 25 && 0 <= r < 4
    ensures IsLeapYear(era * 400 + 100 * c + 4 * q + r + 1) <==> r == 3 && (q != 24 || c == 3)
  {
    var y := era * 400 + 100 * c + 4 * q + r + 1;
    if r == 3 {
      DivMod4(y, era * 100 + 25 * c + q + 1, 0);
      if q == 24 {
        DivMod100(y, era * 4 + c + 1, 0);
        if c == 3 {
          DivMod400(y, era + 1, 0);
        } else {
          DivMod400(y, era, 100 * (c + 1));
        }
      } else {
        DivMod100(y, era * 4 + c, 4 * q + 4);
      }
    } else {
      DivMod4(y, era * 100 + 25 * c + q, r + 1);
    }
  }

  /**
   * `YearOfDay` inverts `DaysFromCivil`: the day number of a valid date lies
   * in that date's year.
   */
  lemma YearOfDayOfCivil(y: int, m: int, d: int)
    requires ValidDate(y, m, d)
    ensures YearOfDay(DaysFromCivil(y, m, d)) == y
  {
    var y' := if m <= 2 then y - 1 else y;
    var mp := if m > 2 then m - 3 else m + 9;
    var era := y' / 400;
    var yoe := y' - era * 400;
    var c := yoe / 100;
    var q := (yoe - 100 * c) / 4;
    var r := yoe - 100 * c - 4 * q;
    DivMod4(yoe, 25 * c + q, r);
    DivMod100(yoe, c, 4 * q + r);
    var doy := MonthStart(mp) + d - 1;
    LeapInEra(era, c, q, r);
    assert y' + 1 == era * 400 + 100 * c + 4 * q + r + 1;
    assert d <= MarchMonthLength(mp, IsLeapYear(y' + 1));
    MonthOfDay(mp, d, IsLeapYear(y' + 1));
    EraYearOfDay(c, q, r, doy);
    var doe := 36524 * c + 1461 * q + 365 * r + doy;
    assert DaysFromCivil(y, m, d) + 719468 == era * 146097 + doe;
    YearOfDayParts(DaysFromCivil(y, m, d), era, doe, yoe, doy, mp);
  }

  /** `YearOfDay` from the era, the day of the era, its year and day in the year, and the month. */
  lemma YearOfDayParts(z: int, era: int, doe: int, yoe: int, doy: int, mp: int)
    requires z + 719468 == era * 146097 + doe && 0 <= doe < 146097
    requires EraYear(doe) == yoe && doe - EraYearStart(yoe) == doy && MarchMonth(doy) == mp
    ensures YearOfDay(z) == if mp < 10 then yoe + era * 400 else yoe + era * 400 + 1
  {
    DivModBy(z + 719468, 146097, era, doe);
  }

  /** The current year at a time of day on a valid date is that date's year. */
  lemma YearOfTimeOn(y: int, m: int, d: int, hh: int, mm: int, ss: int)
    requires ValidDate(y, m, d) && 0 <= hh < 24 && 0 <= mm < 60 && 0 <= ss < 60
    ensures YearOf(TimeOn(y, m, d, hh, mm, ss)) == y
  {
    TimeOnDay(y, m, d, hh, mm, ss);
    YearOfDayOfCivil(y, m, d);
  }
}
