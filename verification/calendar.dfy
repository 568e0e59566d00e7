// Local time in whole milliseconds at a fixed offset, with the day, year, month
// and date arithmetic of section 21.4.1 of ECMA-262, and its mutable Date.
module Calendar {
  const MINUTE := 60000
  const HOUR := 3600000
  const DAY := 86400000

  function DayOf(t: int): int { t / DAY }

  function ClockOf(t: int): int { t % DAY }

  // 0 is Sunday; day 0 was a Thursday.
  function WeekDay(day: int): int { (day + 4) % 7 }

  // The remainder of JavaScript, which takes the sign of the dividend.
  function Rem(a: int, n: int): int
    requires n > 0
  {
    if a >= 0 then a % n else -((-a) % n)
  }

  predicate Leap(y: int) { y % 4 == 0 && (y % 100 != 0 || y % 400 == 0) }

  function DayFromYear(y: int): int {
    365 * (y - 1970) + (y - 1969) / 4 - (y - 1901) / 100 + (y - 1601) / 400
  }

  lemma Fourth(y: int)
    ensures (y - 1968) / 4 - (y - 1969) / 4 == if y % 4 == 0 then 1 else 0
  {
  }

  lemma Hundredth(y: int)
    ensures (y - 1900) / 100 - (y - 1901) / 100 == if y % 100 == 0 then 1 else 0
  {
  }

  lemma FourHundredth(y: int)
    ensures (y - 1600) / 400 - (y - 1601) / 400 == if y % 400 == 0 then 1 else 0
  {
  }

  lemma LeapCases(y: int)
    ensures y % 400 == 0 ==> y % 100 == 0
    ensures y % 100 == 0 ==> y % 4 == 0
  {
  }

  lemma YearLength(y: int)
    ensures DayFromYear(y + 1) - DayFromYear(y) == if Leap(y) then 366 else 365
  {
    Fourth(y);
    Hundredth(y);
    FourHundredth(y);
    LeapCases(y);
  }

  // The year a day lies in, searched from y.
  function YearFrom(day: int, y: int): (r: int)
    ensures DayFromYear(r) <= day < DayFromYear(r + 1)
    decreases if day < DayFromYear(y) then DayFromYear(y) - day
              else if day >= DayFromYear(y + 1) then day - DayFromYear(y) else 0
  {
    YearLength(y);
    YearLength(y - 1);
    if day < DayFromYear(y) then YearFrom(day, y - 1)
    else if day >= DayFromYear(y + 1) then YearFrom(day, y + 1)
    else y
  }

  function YearOf(day: int): int { YearFrom(day, 1970) }

  // Days before a month, counted from 0 for January.
  function MonthStart(month: int, leap: bool): int {
    var extra := if leap then 1 else 0;
    if month <= 0 then 0
    else if month == 1 then 31
    else if month == 2 then 59 + extra
    else if month == 3 then 90 + extra
    else if month == 4 then 120 + extra
    else if month == 5 then 151 + extra
    else if month == 6 then 181 + extra
    else if month == 7 then 212 + extra
    else if month == 8 then 243 + extra
    else if month == 9 then 273 + extra
    else if month == 10 then 304 + extra
    else 334 + extra
  }

  // The last month that starts at or before the day of the year.
  function MonthFrom(dayInYear: int, leap: bool, month: int): int
    requires 0 <= month <= 11
    decreases 11 - month
  {
    if month < 11 && MonthStart(month + 1, leap) <= dayInYear then MonthFrom(dayInYear, leap, month + 1) else month
  }

  function MonthOf(day: int): int {
    MonthFrom(day - DayFromYear(YearOf(day)), Leap(YearOf(day)), 0)
  }

  function DateOf(day: int): int {
    day - DayFromYear(YearOf(day)) - MonthStart(MonthOf(day), Leap(YearOf(day))) + 1
  }

  function MakeDay(y: int, month: int, date: int): int {
    DayFromYear(y) + MonthStart(month, Leap(y)) + date - 1
  }

  lemma {:induction false} MonthFromResult(dayInYear: int, leap: bool, month: int)
    requires 0 <= month <= 11 && MonthStart(month, leap) <= dayInYear < (if leap then 366 else 365)
    ensures month <= MonthFrom(dayInYear, leap, month) <= 11
    ensures 0 <= dayInYear - MonthStart(MonthFrom(dayInYear, leap, month), leap) < 31
    decreases 11 - month
  {
    if month < 11 && MonthStart(month + 1, leap) <= dayInYear {
      MonthFromResult(dayInYear, leap, month + 1);
    }
  }

  // getDate() is a day of a month, and setDate() counts days from it.
  lemma CivilDate(day: int, k: int)
    ensures 0 <= MonthOf(day) <= 11 && 1 <= DateOf(day) <= 31
    ensures MakeDay(YearOf(day), MonthOf(day), DateOf(day) + k) == day + k
  {
    YearLength(YearOf(day));
    MonthFromResult(day - DayFromYear(YearOf(day)), Leap(YearOf(day)), 0);
  }

  lemma {:induction false} YearsGrow(y: int, z: int)
    requires y < z
    ensures DayFromYear(y) < DayFromYear(z)
    decreases z - y
  {
    YearLength(z - 1);
    if y < z - 1 {
      YearsGrow(y, z - 1);
    }
  }

  function DaysInMonth(month: int, leap: bool): int {
    (if month >= 11 then (if leap then 366 else 365) else MonthStart(month + 1, leap)) - MonthStart(month, leap)
  }

  lemma {:induction false} MonthFromFinds(dayInYear: int, leap: bool, month: int, m: int)
    requires 0 <= m <= month <= 11
    requires MonthStart(month, leap) <= dayInYear < MonthStart(month, leap) + DaysInMonth(month, leap)
    ensures MonthFrom(dayInYear, leap, m) == month
    decreases month - m
  {
    if m < month {
      MonthFromFinds(dayInYear, leap, month, m + 1);
    }
  }

  lemma YearIsUnique(day: int, y: int)
    requires DayFromYear(y) <= day < DayFromYear(y + 1)
    ensures YearOf(day) == y
  {
    var r := YearOf(day);
    if r + 1 < y { YearsGrow(r + 1, y); }
    if y + 1 < r { YearsGrow(y + 1, r); }
  }

  // The fields of the day made from a valid year, month and date are those given.
  lemma CivilFields(y: int, month: int, date: int)
    requires 0 <= month <= 11 && 1 <= date <= DaysInMonth(month, Leap(y))
    ensures var day := MakeDay(y, month, date); YearOf(day) == y && MonthOf(day) == month && DateOf(day) == date
  {
    var leap := Leap(y);
    var inYear := MonthStart(month, leap) + date - 1;
    YearLength(y);
    assert 0 <= inYear < if leap then 366 else 365;
    YearIsUnique(MakeDay(y, month, date), y);
    MonthFromFinds(inYear, leap, month, 0);
  }

  // January, March, May, July, August, October and December have 31 days,
  // February 28 or 29, the others 30.
  lemma MonthLengths(month: int, leap: bool)
    requires 0 <= month <= 11
    ensures DaysInMonth(month, leap) ==
            if month == 1 then (if leap then 29 else 28) else if month in {3, 5, 8, 10} then 30 else 31
  {
  }

  // Day 0 is the first of January 1970, a Thursday, and the days of the week follow
  // each other.
  lemma WeekDays(day: int)
    ensures MakeDay(1970, 0, 1) == 0 && WeekDay(0) == 4
    ensures WeekDay(day + 1) == if WeekDay(day) == 6 then 0 else WeekDay(day) + 1
  {
  }

  // ------------------------------------------------------------------ printing

  function Digit(n: int): (c: char)
    requires 0 <= n < 10
    ensures '0' <= c <= '9' && (c as int) - ('0' as int) == n
  {
    (('0' as int) + n) as char
  }

  predicate IsDigit(c: char) { '0' <= c <= '9' }

  function DigitValue(c: char): int { (c as int) - ('0' as int) }

  // String(n)
  function Decimal(n: nat): (s: string)
    ensures s != "" && forall i :: 0 <= i < |s| ==> IsDigit(s[i])
  {
    if n < 10 then [Digit(n)] else Decimal(n / 10) + [Digit(n % 10)]
  }

  // The number some digits stand for.
  function Numeral(s: string): int {
    if s == "" then 0 else 10 * Numeral(s[..|s| - 1]) + DigitValue(s[|s| - 1])
  }

  lemma {:induction false} DecimalStandsFor(n: nat)
    ensures Numeral(Decimal(n)) == n && (n > 0 ==> Decimal(n)[0] != '0')
    decreases n
  {
    var s := Decimal(n);
    if n >= 10 {
      DecimalStandsFor(n / 10);
      assert s[..|s| - 1] == Decimal(n / 10) && s[0] == Decimal(n / 10)[0];
    } else {
      assert s[..0] == "" && Numeral(s[..0]) == 0;
    }
  }

  function Signed(n: int): string { if n < 0 then "-" + Decimal(-n) else Decimal(n) }

  // String(n).padStart(2, "0")
  function Pad2(n: nat): string { if n < 10 then "0" + Decimal(n) else Decimal(n) }

  lemma {:induction false} DecimalInjective(a: nat, b: nat)
    requires Decimal(a) == Decimal(b)
    ensures a == b
    decreases a
  {
    var s := Decimal(a);
    if a < 10 || b < 10 {
      assert |s| == 1;
    } else {
      assert s[..|s| - 1] == Decimal(a / 10) && s[|s| - 1] == Digit(a % 10);
      assert s[..|s| - 1] == Decimal(b / 10) && s[|s| - 1] == Digit(b % 10);
      DecimalInjective(a / 10, b / 10);
    }
  }

  lemma SignedInjective(a: int, b: int)
    requires Signed(a) == Signed(b)
    ensures a == b
  {
    if a < 0 {
      assert Signed(a)[0] == '-';
      assert b < 0;
      assert Signed(a)[1..] == Decimal(-a) && Signed(b)[1..] == Decimal(-b);
      DecimalInjective(-a, -b);
    } else {
      assert IsDigit(Signed(a)[0]);
      assert b >= 0;
      DecimalInjective(a, b);
    }
  }

  lemma Pad2Injective(a: nat, b: nat)
    requires a < 100 && b < 100
    ensures |Pad2(a)| == 2 && (Pad2(a) == Pad2(b) ==> a == b)
  {
    Pad2Digits(a);
    Pad2Digits(b);
  }

  lemma Pad2Digits(a: nat)
    requires a < 100
    ensures Pad2(a) == [Digit(a / 10), Digit(a % 10)]
  {
    if a >= 10 {
      assert Decimal(a / 10) == [Digit(a / 10)];
    }
  }

  // `${getFullYear()}-${pad2(getMonth() + 1)}-${pad2(getDate())}`
  function DateKey(day: int): string {
    CivilDate(day, 0);
    Signed(YearOf(day)) + "-" + Pad2(MonthOf(day) + 1) + "-" + Pad2(DateOf(day))
  }

  // The key of a date is its year, month and day of the month, the latter two in
  // two digits.
  lemma DateKeyText(y: int, month: int, date: int)
    requires 0 <= month <= 11 && 1 <= date <= DaysInMonth(month, Leap(y))
    ensures date <= 31
    ensures DateKey(MakeDay(y, month, date)) ==
            (if y < 0 then "-" + Decimal(-y) else Decimal(y))
            + ['-', Digit((month + 1) / 10), Digit((month + 1) % 10), '-', Digit(date / 10), Digit(date % 10)]
  {
    MonthLengths(month, Leap(y));
    CivilFields(y, month, date);
    Pad2Digits(month + 1);
    Pad2Digits(date);
  }

  // Two days never share a key.
  lemma DateKeyInjective(a: int, b: int)
    requires DateKey(a) == DateKey(b)
    ensures a == b
  {
    CivilDate(a, 0);
    CivilDate(b, 0);
    Pad2Injective(MonthOf(a) + 1, MonthOf(b) + 1);
    Pad2Injective(MonthOf(b) + 1, MonthOf(a) + 1);
    Pad2Injective(DateOf(a), DateOf(b));
    Pad2Injective(DateOf(b), DateOf(a));
    SplitKey(Signed(YearOf(a)), Pad2(MonthOf(a) + 1), Pad2(DateOf(a)));
    SplitKey(Signed(YearOf(b)), Pad2(MonthOf(b) + 1), Pad2(DateOf(b)));
    SignedInjective(YearOf(a), YearOf(b));
  }

  lemma SplitKey(y: string, m: string, d: string)
    requires |m| == 2 && |d| == 2
    ensures var s := y + "-" + m + "-" + d;
            |s| >= 6 && s[..|s| - 6] == y && s[|s| - 5..|s| - 3] == m && s[|s| - 2..] == d
  {
  }

  // ---------------------------------------------------------------- the object

  lemma HourAndRest(t: int)
    ensures DayOf(t) * DAY + (ClockOf(t) / HOUR) * HOUR + t % HOUR == t
  {
    var hour, rest := ClockOf(t) / HOUR, ClockOf(t) % HOUR;
    assert t == (24 * DayOf(t) + hour) * HOUR + rest;
    HourIsUnique(t, 24 * DayOf(t) + hour, rest);
  }

  lemma HourIsUnique(t: int, q: int, r: int)
    requires t == q * HOUR + r && 0 <= r < HOUR
    ensures t % HOUR == r
  {
  }

  // A Date read and stepped in local time.
  class LocalDate {
    var time: int

    // new Date(t)
    constructor (t: int)
      ensures time == t
    {
      time := t;
    }

    // getDay()
    function Weekday(): int
      reads this
    {
      WeekDay(DayOf(time))
    }

    // setHours(hour, minute, 0, 0)
    method SetClock(hour: int, minute: int)
      modifies this
      ensures time == DayOf(old(time)) * DAY + hour * HOUR + minute * MINUTE
    {
      time := DayOf(time) * DAY + hour * HOUR + minute * MINUTE;
    }

    // setHours(getHours() - hours): minutes, seconds and milliseconds stay.
    method TurnBack(hours: int)
      modifies this
      ensures time == old(time) - hours * HOUR
    {
      var hour := ClockOf(time) / HOUR;
      HourAndRest(time);
      time := DayOf(time) * DAY + (hour - hours) * HOUR + time % HOUR;
    }

    // setDate(getDate() + days)
    method ShiftDate(days: int)
      modifies this
      ensures time == old(time) + days * DAY
    {
      var day := DayOf(time);
      CivilDate(day, days);
      time := MakeDay(YearOf(day), MonthOf(day), DateOf(day) + days) * DAY + ClockOf(time);
    }
  }
}
