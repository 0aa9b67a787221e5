/** The RTC server's date-to-seconds encoder and the C library's
    seconds-to-date decoder, against one calendar. */
module Calendar {
  import opened Basics

  const EPOCH := 1970
  const MONTH_DAYS: seq<nat> := [31, 28, 31, 30, 31, 30, 31, 31, 30, 31, 30, 31]

  predicate IsLeap(year: nat) {
    (year % 4 == 0 && year % 100 != 0) || year % 400 == 0
  }

  function YearLength(year: nat): nat {
    if IsLeap(year) then 366 else 365
  }

  function MonthLength(year: nat, month: nat): nat
    requires month < 12
  {
    MONTH_DAYS[month] + if month == 1 && IsLeap(year) then 1 else 0
  }

  /** Days from the epoch to the first of January. */
  function DaysBeforeYear(year: nat): nat {
    if year <= EPOCH then 0 else DaysBeforeYear(year - 1) + YearLength(year - 1)
  }

  function DaysBeforeMonth(year: nat, month: nat): nat
    requires month <= 12
  {
    if month == 0 then 0 else DaysBeforeMonth(year, month - 1) + MonthLength(year, month - 1)
  }

  /** A civil date and time; `month` and `day` count from 0. */
  datatype Date = Date(year: nat, month: nat, day: nat, hour: nat, minute: nat, second: nat) {
    predicate Valid() {
      && year >= EPOCH && month < 12 && day < MonthLength(year, month)
      && hour < 24 && minute < 60 && second < 60
    }

    function YearDay(): nat
      requires month < 12
    {
      DaysBeforeMonth(year, month) + day
    }

    /** Seconds from the epoch. */
    function Seconds(): nat
      requires month < 12
    {
      second + 60 * (minute + 60 * (hour + 24 * (DaysBeforeYear(year) + YearDay())))
    }

    /** Calendar order. */
    predicate Before(e: Date) {
      if year != e.year then year < e.year
      else if month != e.month then month < e.month
      else if day != e.day then day < e.day
      else if hour != e.hour then hour < e.hour
      else if minute != e.minute then minute < e.minute
      else second < e.second
    }
  }

  const MONTH_STARTS: seq<nat> := [0, 31, 59, 90, 120, 151, 181, 212, 243, 273, 304, 334, 365]

  lemma {:induction false} MonthTable(year: nat, month: nat)
    requires month <= 12
    ensures DaysBeforeMonth(year, month) == MONTH_STARTS[month] + LeapDay(year, month)
  {
    if month > 0 { MonthTable(year, month - 1); }
  }

  /** Thirty days have September, April, June and November. */
  lemma MonthLengths(year: nat, month: nat)
    requires month < 12
    ensures MonthLength(year, month) ==
            if month == 1 then (if IsLeap(year) then 29 else 28)
            else if month == 8 || month == 3 || month == 5 || month == 10 then 30 else 31
  {
  }

  lemma {:induction false} MonthsGrow(year: nat, m: nat, n: nat)
    requires m < n <= 12
    ensures DaysBeforeMonth(year, m) + MonthLength(year, m) <= DaysBeforeMonth(year, n)
  {
    if m + 1 < n { MonthsGrow(year, m, n - 1); }
  }

  lemma {:induction false} YearsGrow(y: nat, z: nat)
    requires EPOCH <= y < z
    ensures DaysBeforeYear(y) + YearLength(y) <= DaysBeforeYear(z)
  {
    if y + 1 < z { YearsGrow(y, z - 1); }
  }

  lemma YearDayInYear(d: Date)
    requires d.Valid()
    ensures d.YearDay() < YearLength(d.year)
  {
    MonthTable(d.year, 12);
    MonthsGrow(d.year, d.month, 12);
  }

  /** The day number decides calendar order of days. */
  lemma DaysIncrease(d: Date, e: Date)
    requires d.Valid() && e.Valid()
    requires d.year < e.year || (d.year == e.year && (d.month < e.month || (d.month == e.month && d.day < e.day)))
    ensures DaysBeforeYear(d.year) + d.YearDay() < DaysBeforeYear(e.year) + e.YearDay()
  {
    YearDayInYear(d);
    if d.year < e.year {
      YearsGrow(d.year, e.year);
    } else if d.month < e.month {
      MonthsGrow(d.year, d.month, e.month);
    }
  }

  /** Encoding is strictly increasing in calendar order. */
  lemma SecondsIncrease(d: Date, e: Date)
    requires d.Valid() && e.Valid() && d.Before(e)
    ensures d.Seconds() < e.Seconds()
  {
    if d.year != e.year || d.month != e.month || d.day != e.day {
      DaysIncrease(d, e);
    }
  }

  /** So no two dates have the same encoding. */
  lemma SecondsInjective(d: Date, e: Date)
    requires d.Valid() && e.Valid() && d.Seconds() == e.Seconds()
    ensures d == e
  {
    if d.Before(e) {
      SecondsIncrease(d, e);
    } else if e.Before(d) {
      SecondsIncrease(e, d);
    }
  }

  // ---------- encoding (servers/rtc_server/main.c) ----------

  /** Weekday arithmetic. */
  function Mod7(x: nat): nat {
    x % 7
  }

  lemma Mod7Add(x: nat, y: nat)
    ensures Mod7(Mod7(x) + y) == Mod7(x + y)
  {
  }

  /** Leap days in the years from the epoch on. */
  function LeapDays(year: nat): nat {
    if year <= EPOCH then 0 else LeapDays(year - 1) + if IsLeap(year - 1) then 1 else 0
  }

  lemma {:induction false} DaysAreLeapDays(year: nat)
    requires year >= EPOCH
    ensures DaysBeforeYear(year) == 365 * (year - EPOCH) + LeapDays(year)
  {
    if year > EPOCH { DaysAreLeapDays(year - 1); }
  }

  // How the three quotients of the Gregorian rule grow in a year.

  lemma FourthYear(y: nat)
    requires y >= EPOCH
    ensures (y - 1968) / 4 == (y - 1969) / 4 + if y % 4 == 0 then 1 else 0
  {
  }

  lemma HundredthYear(y: nat)
    requires y >= EPOCH
    ensures (y - 1900) / 100 == (y - 1901) / 100 + if y % 100 == 0 then 1 else 0
  {
  }

  lemma FourHundredthYear(y: nat)
    requires y >= EPOCH
    ensures (y - 1600) / 400 == (y - 1601) / 400 + if y % 400 == 0 then 1 else 0
    ensures y % 400 == 0 ==> y % 100 == 0 && y % 4 == 0
    ensures y % 100 == 0 ==> y % 4 == 0
  {
  }

  function Gregorian(y: nat): int {
    (y - 1969) / 4 - (y - 1901) / 100 + (y - 1601) / 400
  }

  lemma GregorianStep(y: nat)
    requires y >= EPOCH
    ensures Gregorian(y + 1) == Gregorian(y) + if IsLeap(y) then 1 else 0
  {
    FourthYear(y);
    HundredthYear(y);
    FourHundredthYear(y);
  }

  /** The Gregorian calendar: a leap day every 4 years, but not every 100, but
      every 400. */
  lemma {:induction false} GregorianDays(year: nat)
    requires year >= EPOCH
    ensures DaysBeforeYear(year) ==
            365 * (year - 1970) + (year - 1969) / 4 - (year - 1901) / 100 + (year - 1601) / 400
  {
    assert Gregorian(EPOCH) == 0;
    assert Gregorian(year) == (year - 1969) / 4 - (year - 1901) / 100 + (year - 1601) / 400;
    hide Gregorian, IsLeap;
    GregorianIs(year);
  }

  lemma {:induction false} GregorianIs(year: nat)
    requires year >= EPOCH && Gregorian(EPOCH) == 0
    ensures DaysBeforeYear(year) == 365 * (year - EPOCH) + Gregorian(year)
  {
    hide Gregorian, IsLeap;
    if year > EPOCH {
      GregorianIs(year - 1);
      GregorianStep(year - 1);
    }
  }

  /** 29 February 2000 is a date, 951782400 seconds after the epoch. */
  lemma LeapDayOf2000()
    ensures var d := Date(2000, 1, 28, 0, 0, 0); d.Valid() && d.Seconds() == 951_782_400
  {
    GregorianDays(2000);
    MonthTable(2000, 1);
    hide DaysBeforeYear, DaysBeforeMonth;
  }

  /** Seconds before the date is a date of a common year's month table plus leap days. */
  lemma SecondsSplit(d: Date)
    requires d.month < 12 && d.year >= EPOCH
    ensures d.Seconds() == d.second + 60 * (d.minute + 60 * (d.hour + 24 * (d.day + 365 * (d.year - EPOCH))))
                           + 86400 * MONTH_STARTS[d.month] + 86400 * LeapDay(d.year, d.month) + 86400 * LeapDays(d.year)
  {
    MonthTable(d.year, d.month);
    DaysAreLeapDays(d.year);
  }

  /** The month loop of `getTimeInSecs`. */
  method AddMonths(month: nat, start: nat) returns (elapsed: nat)
    requires month < 12
    ensures elapsed == Wrap(start + 86400 * MONTH_STARTS[month])
  {
    hide Wrap;
    elapsed := Wrap(start);
    for i := 0 to month
      invariant elapsed == Wrap(start + 86400 * MONTH_STARTS[i])
    {
      WrapAdd(start + 86400 * MONTH_STARTS[i], MONTH_DAYS[i] * 24 * 60 * 60);
      assert MONTH_STARTS[i + 1] == MONTH_STARTS[i] + MONTH_DAYS[i];
      elapsed := Wrap(elapsed + MONTH_DAYS[i] * 24 * 60 * 60);
    }
  }

  /** The leap year loop of `getTimeInSecs`. */
  method AddLeapDays(year: nat, so: nat, ghost total: nat) returns (elapsed: nat)
    requires year >= EPOCH && so == Wrap(total)
    ensures elapsed == Wrap(total + 86400 * LeapDays(year))
  {
    hide Wrap, IsLeap;
    elapsed := so;
    for i := EPOCH to year
      invariant elapsed == Wrap(total + 86400 * LeapDays(i))
    {
      WrapAdd(total + 86400 * LeapDays(i), 86400);
      if IsLeap(i) { elapsed := Wrap(elapsed + 60 * 60 * 24); }
    }
  }

  lemma LeapDayIs(year: nat, month: nat)
    ensures LeapDay(year, month) == if IsLeap(year) && month > 1 then 1 else 0
  {
  }

  /** `getTimeInSecs`, in 32-bit arithmetic; the year counts from 2000. */
  method GetTimeInSecs(yearOfCentury: nat, month: nat, day: nat, hour: nat, minute: nat,
                       second: nat) returns (elapsed: nat)
    requires month < 12
    ensures elapsed == Wrap(Date(2000 + yearOfCentury, month, day, hour, minute, second).Seconds())
  {
    hide Wrap, IsLeap, LeapDays, LeapDay;
    var year := yearOfCentury + 2000;
    SecondsSplit(Date(year, month, day, hour, minute, second));
    var t0 := second + 60 * (minute + 60 * (hour + 24 * (day + 365 * (year - EPOCH))));
    elapsed := AddMonths(month, t0);
    ghost var total := t0 + 86400 * MONTH_STARTS[month];
    if IsLeap(year) && month > 1 {
      WrapAdd(total, 86400);
      elapsed := Wrap(elapsed + 24 * 60 * 60);
    }
    ghost var leap := 86400 * LeapDay(year, month);
    assert elapsed == Wrap(total + leap) by { LeapDayIs(year, month); }
    elapsed := AddLeapDays(year, elapsed, total + leap);
  }

  // ---------- decoding (lib/libc/time/gmtime.c) ----------

  /** What `gmtime` stores; `mday` counts from 1 and `year` from 1900. */
  datatype Tm = Tm(sec: nat, min: nat, hour: nat, mday: nat, mon: nat, year: nat, wday: nat, yday: nat)

  /** The weekday the date falls on; the epoch was a Thursday. */
  function Weekday(d: Date): nat
    requires d.month < 12
  {
    Mod7(4 + DaysBeforeYear(d.year) + d.YearDay())
  }

  /** The year loop of `gmtime`. */
  method SplitYear(days: nat) returns (year: nat, rest: nat, wday: nat)
    ensures year >= 70 && rest < YearLength(1900 + year) && DaysBeforeYear(1900 + year) + rest == days
    ensures wday == Mod7(4 + DaysBeforeYear(1900 + year))
  {
    year, rest, wday := 70, days, 4;
    while rest >= YearLength(1900 + year)
      invariant year >= 70 && DaysBeforeYear(1900 + year) + rest == days
      invariant wday == Mod7(4 + DaysBeforeYear(1900 + year))
      decreases rest
    {
      Mod7Add(4 + DaysBeforeYear(1900 + year), YearLength(1900 + year));
      rest := rest - YearLength(1900 + year);
      wday := Mod7(wday + YearLength(1900 + year));
      year := year + 1;
    }
  }

  function LeapDay(year: nat, month: nat): nat {
    if month >= 2 && IsLeap(year) then 1 else 0
  }

  /** The month loop of `gmtime`, with the weekday counted from `base`. */
  method SplitMonth(year: nat, yday: nat, ghost base: nat, start: nat) returns (mon: nat, mday: nat, wday: nat)
    requires yday < YearLength(year) && start == Mod7(base)
    ensures mon < 12 && 0 < mday <= MonthLength(year, mon) && DaysBeforeMonth(year, mon) + mday - 1 == yday
    ensures wday == Mod7(base + LeapDay(year, mon) + mday - 1)
  {
    MonthTable(year, 12);
    hide Mod7, IsLeap;
    var t := yday;
    mon, mday, wday := 0, 1, start;
    while true
      invariant mon < 12 && t >= 0 && DaysBeforeMonth(year, mon) + t == yday
      invariant wday == Mod7(base + LeapDay(year, mon))
      decreases 12 - mon
    {
      if t < MonthLength(year, mon) {
        Mod7Add(base + LeapDay(year, mon), t);
        wday := Mod7(wday + t);
        mday := 1 + t;
        return;
      }
      var extra := if mon == 1 && IsLeap(year) then 1 else 0;
      Mod7Add(base + LeapDay(year, mon), extra);
      wday := Mod7(wday + extra);
      mday := 1 + extra;
      t := t - (MONTH_DAYS[mon] + extra);
      mon := mon + 1;
    }
  }

  /** `tm` shows a valid date that is `timer` seconds after the epoch. */
  ghost predicate Shows(tm: Tm, timer: nat, d: Date) {
    && d.Valid() && d.Seconds() == timer
    && tm == Tm(d.second, d.minute, d.hour, d.day + 1, d.month, d.year - 1900, WrittenWeekday(d), d.YearDay())
  }

  /** `gmtime`: the one valid date with this many seconds. */
  method GmTime(timer: nat) returns (tm: Tm)
    ensures exists d: Date :: Shows(tm, timer, d)
  {
    var sec, minutes := timer % 60, timer / 60;
    var min, hours := minutes % 60, minutes / 60;
    var hour, days := hours % 24, hours / 24;
    assert timer == sec + 60 * (min + 60 * (hour + 24 * days));
    hide IsLeap, Mod7;
    var year, yday, start := SplitYear(days);
    var mon, mday, wday := SplitMonth(1900 + year, yday, 4 + DaysBeforeYear(1900 + year), start);
    tm := Tm(sec, min, hour, mday, mon, year, wday, yday);
    assert Shows(tm, timer, Date(1900 + year, mon, mday - 1, hour, min, sec));
  }

  /** The weekday `gmtime` stores: whole months before the date are not counted. */
  function WrittenWeekday(d: Date): nat {
    Mod7(4 + DaysBeforeYear(d.year) + LeapDay(d.year, d.month) + d.day)
  }

  /** It is the weekday exactly in January and October. */
  lemma WeekdayRightIff(d: Date)
    requires d.Valid()
    ensures WrittenWeekday(d) == Weekday(d) <==> d.month == 0 || d.month == 9
  {
    MonthTable(d.year, d.month);
  }

  /** 1 February 1970 was a Sunday; `gmtime` says Thursday. */
  lemma WeekdayWrong()
    ensures var d := Date(1970, 1, 0, 0, 0, 0); d.Valid() && Weekday(d) == 0 && WrittenWeekday(d) == 4
  {
    MonthTable(1970, 1);
  }

  /** `gmtime` inverts `getTimeInSecs` on every date whose count fits in 32 bits. */
  method RoundTrip(d: Date) returns (tm: Tm)
    requires d.Valid() && d.year >= 2000 && d.Seconds() < 0x1_0000_0000
    ensures tm == Tm(d.second, d.minute, d.hour, d.day + 1, d.month, d.year - 1900, WrittenWeekday(d), d.YearDay())
  {
    hide DaysBeforeYear, DaysBeforeMonth, IsLeap, Mod7, Date.Seconds, MonthLength;
    var t := GetTimeInSecs(d.year - 2000, d.month, d.day, d.hour, d.minute, d.second);
    assert t == d.Seconds();
    tm := GmTime(t);
    ghost var e :| Shows(tm, t, e);
    SecondsInjective(d, e);
  }
}
