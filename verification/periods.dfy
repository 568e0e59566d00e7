// Reset windows: the period keys and next reset times, written once for the
// desktop, once for its renderer and once for the web modules.
module Periods {
  import opened Wrappers
  import opened Calendar
  import Text

  // A time of day.
  datatype Clock = Clock(hour: int, minute: int)

  predicate ValidClock(c: Clock) { 0 <= c.hour <= 23 && 0 <= c.minute <= 59 }

  function Millis(c: Clock): int { c.hour * HOUR + c.minute * MINUTE }

  // /^(\d{1,2}):(\d{2})$/ on the trimmed text, with both numbers in range.
  function ScanHhmm(s: string): Option<Clock> {
    var n := |s|;
    if (n != 4 && n != 5) || s[n - 3] != ':' then None
    else if !IsDigit(s[0]) || !IsDigit(s[n - 4]) || !IsDigit(s[n - 2]) || !IsDigit(s[n - 1]) then None
    else
      var hour := if n == 4 then DigitValue(s[0]) else 10 * DigitValue(s[0]) + DigitValue(s[1]);
      var minute := 10 * DigitValue(s[n - 2]) + DigitValue(s[n - 1]);
      if hour > 23 || minute > 59 then None else Some(Clock(hour, minute))
  }

  function ParseHhmm(hhmm: string): (c: Clock)
    ensures ValidClock(c)
  {
    ScanHhmm(Text.Trim(hhmm)).GetOr(Clock(9, 0))
  }

  // Math.max(0, Math.min(6, day))
  function ClampDay(day: int): int {
    if day < 0 then 0 else if day > 6 then 6 else day
  }

  function Distance(a: int, b: int): nat { if a < b then b - a else a - b }

  // The day of the week nearest to the number stored.
  lemma NearestDay(day: int, x: int)
    requires 0 <= x <= 6
    ensures 0 <= ClampDay(day) <= 6 && Distance(day, ClampDay(day)) <= Distance(day, x)
  {
  }

  // ------------------------------------------------- what a reset window is

  predicate IsDailyReset(r: int, c: Clock) { ClockOf(r) == Millis(c) }

  predicate IsWeeklyReset(r: int, c: Clock, day: int) { IsDailyReset(r, c) && WeekDay(DayOf(r)) == day }

  // The daily reset at or before t.
  function DailyStart(t: int, c: Clock): int {
    var today := DayOf(t) * DAY + Millis(c);
    if t < today then today - DAY else today
  }

  // The weekly reset at or before t, for a day from 0 to 6.
  function WeeklyStart(t: int, c: Clock, day: int): int {
    var start := (DayOf(t) - Rem(WeekDay(DayOf(t)) - day + 7, 7)) * DAY + Millis(c);
    if t < start then start - 7 * DAY else start
  }

  lemma DailyStartResult(t: int, c: Clock)
    requires ValidClock(c)
    ensures IsDailyReset(DailyStart(t, c), c) && DailyStart(t, c) <= t < DailyStart(t, c) + DAY
  {
  }

  lemma WeeklyStartResult(t: int, c: Clock, day: int)
    requires ValidClock(c) && 0 <= day <= 6
    ensures IsWeeklyReset(WeeklyStart(t, c, day), c, day)
    ensures WeeklyStart(t, c, day) <= t < WeeklyStart(t, c, day) + 7 * DAY
  {
    var today := DayOf(t);
    var back := Rem(WeekDay(today) - day + 7, 7);
    WeekBack(today, day);
    DayOfStart(today - back, c);
    DayOfStart(today - back - 7, c);
    assert today * DAY <= t < today * DAY + DAY;
  }

  lemma DayOfStart(day: int, c: Clock)
    requires ValidClock(c)
    ensures DayOf(day * DAY + Millis(c)) == day && IsDailyReset(day * DAY + Millis(c), c)
  {
  }

  // Going back to a day of the week, or a week further.
  lemma WeekBack(today: int, day: int)
    requires 0 <= day <= 6
    ensures var back := Rem(WeekDay(today) - day + 7, 7);
            0 <= back <= 6 && WeekDay(today - back) == day && WeekDay(today - back - 7) == day
  {
  }

  lemma DailySpacing(r: int, s: int, c: Clock)
    requires IsDailyReset(r, c) && IsDailyReset(s, c) && r < s
    ensures r + DAY <= s
  {
  }

  lemma WeeklySpacing(r: int, s: int, c: Clock, day: int)
    requires IsWeeklyReset(r, c, day) && IsWeeklyReset(s, c, day) && r < s
    ensures r + 7 * DAY <= s
  {
    var n := DayOf(s) - DayOf(r);
    assert n * DAY == s - r && n > 0;
    assert n % 7 == 0;
  }

  // --------------------------------------------------------------- the methods

  function DailyKey(t: int, hhmm: string): string {
    "D:" + DateKey(DayOf(DailyStart(t, ParseHhmm(hhmm))))
  }

  function WeeklyKey(t: int, hhmm: string, day: int): string {
    "W:" + DateKey(DayOf(WeeklyStart(t, ParseHhmm(hhmm), ClampDay(day))))
  }

  method DailyPeriodKey(now: LocalDate, hhmm: string) returns (key: string)
    ensures key == DailyKey(now.time, hhmm)
  {
    var c := ParseHhmm(hhmm);
    var start := new LocalDate(now.time);
    start.SetClock(c.hour, c.minute);
    if now.time < start.time {
      start.ShiftDate(-1);
    }
    var day := DayOf(start.time);
    assert day == DayOf(DailyStart(now.time, c));
    key := "D:" + DateKey(day);
  }

  method WeeklyResetStartAt(now: LocalDate, hhmm: string, weeklyResetDay: int) returns (start: LocalDate)
    ensures fresh(start) && start.time == WeeklyStart(now.time, ParseHhmm(hhmm), ClampDay(weeklyResetDay))
  {
    var c := ParseHhmm(hhmm);
    var resetDay := ClampDay(weeklyResetDay);
    start := new LocalDate(now.time);
    var daysSinceReset := Rem(start.Weekday() - resetDay + 7, 7);
    start.ShiftDate(-daysSinceReset);
    start.SetClock(c.hour, c.minute);
    if now.time < start.time {
      start.ShiftDate(-7);
    }
  }

  method WeeklyPeriodKey(now: LocalDate, hhmm: string, weeklyResetDay: int) returns (key: string)
    ensures key == WeeklyKey(now.time, hhmm, weeklyResetDay)
  {
    var start := WeeklyResetStartAt(now, hhmm, weeklyResetDay);
    key := "W:" + DateKey(DayOf(start.time));
  }

  // r is the first instant after t with the property.
  ghost predicate Least(r: int, t: int, property: int -> bool) {
    r > t && property(r) && forall s: int :: t < s < r ==> !property(s)
  }

  method NextDailyResetAt(now: LocalDate, hhmm: string) returns (reset: LocalDate)
    ensures fresh(reset) && Least(reset.time, now.time, r => IsDailyReset(r, ParseHhmm(hhmm)))
  {
    var c := ParseHhmm(hhmm);
    reset := new LocalDate(now.time);
    reset.SetClock(c.hour, c.minute);
    if now.time >= reset.time {
      reset.ShiftDate(1);
    }
    NextDaily(now.time, reset.time, c);
  }

  method NextWeeklyResetAt(now: LocalDate, hhmm: string, weeklyResetDay: int) returns (next: LocalDate)
    ensures fresh(next) && Least(next.time, now.time, r => IsWeeklyReset(r, ParseHhmm(hhmm), ClampDay(weeklyResetDay)))
  {
    var c, day := ParseHhmm(hhmm), ClampDay(weeklyResetDay);
    var start := WeeklyResetStartAt(now, hhmm, weeklyResetDay);
    next := new LocalDate(start.time);
    next.ShiftDate(7);
    NextWeekly(now.time, next.time, c, day);
  }

  lemma NextDaily(t: int, r: int, c: Clock)
    requires ValidClock(c) && r == DailyStart(t, c) + DAY
    ensures Least(r, t, x => IsDailyReset(x, c))
  {
    DailyStartResult(t, c);
    forall s | t < s < r ensures !IsDailyReset(s, c) {
      if IsDailyReset(s, c) { DailySpacing(DailyStart(t, c), s, c); }
    }
  }

  lemma NextWeekly(t: int, r: int, c: Clock, day: int)
    requires ValidClock(c) && 0 <= day <= 6 && r == WeeklyStart(t, c, day) + 7 * DAY
    ensures Least(r, t, x => IsWeeklyReset(x, c, day))
  {
    var start := WeeklyStart(t, c, day);
    WeeklyStartResult(t, c, day);
    WeekLater(start, c, day);
    forall s | t < s < r ensures !IsWeeklyReset(s, c, day) {
      if IsWeeklyReset(s, c, day) { WeeklySpacing(start, s, c, day); }
    }
  }

  lemma WeekLater(start: int, c: Clock, day: int)
    requires ValidClock(c) && IsWeeklyReset(start, c, day)
    ensures IsWeeklyReset(start + 7 * DAY, c, day)
  {
    DayOfStart(DayOf(start) + 7, c);
    SameWeekday(DayOf(start));
  }

  lemma SameWeekday(day: int)
    ensures WeekDay(day + 7) == WeekDay(day)
  {
  }

  // -------------------------------------------------------- the web functions

  method GetDailyPeriodKey(now: LocalDate, resetHour: int) returns (key: string)
    ensures key == DateKey(DayOf(now.time - resetHour * HOUR))
  {
    var shifted := new LocalDate(now.time);
    shifted.TurnBack(resetHour);
    key := DateKey(DayOf(shifted.time));
  }

  method GetWeeklyPeriodKey(now: LocalDate, resetDay: int, resetHour: int) returns (key: string)
    ensures key == DateKey(ShiftedWeek(now.time, resetDay, resetHour))
  {
    var shifted := new LocalDate(now.time);
    shifted.TurnBack(resetHour);
    var diff := Rem(shifted.Weekday() - resetDay + 7, 7);
    shifted.ShiftDate(-diff);
    shifted.SetClock(0, 0);
    var day := DayOf(shifted.time);
    assert day == ShiftedWeek(now.time, resetDay, resetHour);
    key := DateKey(day);
  }

  // The reset day of the week the shifted time lies in.
  function ShiftedWeek(t: int, resetDay: int, resetHour: int): int {
    var day := DayOf(t - resetHour * HOUR);
    day - Rem(WeekDay(day) - resetDay + 7, 7)
  }

  method GetNextDailyResetAt(now: LocalDate, resetHour: int) returns (next: LocalDate)
    ensures fresh(next)
    ensures 0 <= resetHour <= 23 ==> Least(next.time, now.time, r => IsDailyReset(r, Clock(resetHour, 0)))
  {
    next := new LocalDate(now.time);
    next.SetClock(resetHour, 0);
    if next.time <= now.time {
      next.ShiftDate(1);
    }
    if 0 <= resetHour <= 23 {
      NextDaily(now.time, next.time, Clock(resetHour, 0));
    }
  }

  method GetNextWeeklyResetAt(now: LocalDate, resetDay: int, resetHour: int) returns (next: LocalDate)
    ensures fresh(next)
    ensures 0 <= resetHour <= 23 && 0 <= resetDay <= 6 ==>
              Least(next.time, now.time, r => IsWeeklyReset(r, Clock(resetHour, 0), resetDay))
  {
    next := new LocalDate(now.time);
    next.SetClock(resetHour, 0);
    var diff := Rem(resetDay - next.Weekday() + 7, 7);
    if diff == 0 && next.time <= now.time {
      diff := 7;
    }
    next.ShiftDate(diff);
    if 0 <= resetHour <= 23 && 0 <= resetDay <= 6 {
      WebWeekly(now.time, diff, resetDay, Clock(resetHour, 0));
      NextWeekly(now.time, next.time, Clock(resetHour, 0), resetDay);
    }
  }

  lemma WebWeekly(t: int, diff: int, day: int, c: Clock)
    requires ValidClock(c) && 0 <= day <= 6
    requires var today := DayOf(t) * DAY + Millis(c);
             var d := Rem(day - WeekDay(DayOf(t)) + 7, 7);
             diff == if d == 0 && today <= t then 7 else d
    ensures DayOf(t) * DAY + Millis(c) + diff * DAY == WeeklyStart(t, c, day) + 7 * DAY
  {
    var back := Rem(WeekDay(DayOf(t)) - day + 7, 7);
    var ahead := Rem(day - WeekDay(DayOf(t)) + 7, 7);
    assert ahead == if back == 0 then 0 else 7 - back;
  }

  // ------------------------------------------------------------- main results

  // Two instants share a daily key exactly when no daily reset parts them.
  lemma DailyKeysPartition(t: int, u: int, hhmm: string)
    requires t <= u
    ensures DailyKey(t, hhmm) == DailyKey(u, hhmm) <==>
            forall r: int :: t < r <= u ==> !IsDailyReset(r, ParseHhmm(hhmm))
  {
    var c := ParseHhmm(hhmm);
    var a, b := DailyStart(t, c), DailyStart(u, c);
    DailyStartResult(t, c);
    DailyStartResult(u, c);
    if a == b {
      forall r | t < r <= u ensures !IsDailyReset(r, c) {
        if IsDailyReset(r, c) { DailySpacing(a, r, c); }
      }
    } else {
      if b < a { DailySpacing(b, a, c); }
      if b <= t { DailySpacing(a, b, c); }
      assert t < b <= u && IsDailyReset(b, c);
      KeysDiffer("D:", a, b, c);
    }
  }

  lemma WeeklyKeysPartition(t: int, u: int, hhmm: string, weeklyResetDay: int)
    requires t <= u
    ensures WeeklyKey(t, hhmm, weeklyResetDay) == WeeklyKey(u, hhmm, weeklyResetDay) <==>
            forall r: int :: t < r <= u ==> !IsWeeklyReset(r, ParseHhmm(hhmm), ClampDay(weeklyResetDay))
  {
    var c, day := ParseHhmm(hhmm), ClampDay(weeklyResetDay);
    var a, b := WeeklyStart(t, c, day), WeeklyStart(u, c, day);
    WeeklyStartResult(t, c, day);
    WeeklyStartResult(u, c, day);
    if a == b {
      forall r | t < r <= u ensures !IsWeeklyReset(r, c, day) {
        if IsWeeklyReset(r, c, day) { WeeklySpacing(a, r, c, day); }
      }
    } else {
      if b < a { WeeklySpacing(b, a, c, day); }
      if b <= t { WeeklySpacing(a, b, c, day); }
      assert t < b <= u && IsWeeklyReset(b, c, day);
      KeysDiffer("W:", a, b, c);
    }
  }

  lemma KeysDiffer(prefix: string, a: int, b: int, c: Clock)
    requires IsDailyReset(a, c) && IsDailyReset(b, c) && a != b
    ensures prefix + DateKey(DayOf(a)) != prefix + DateKey(DayOf(b))
  {
    if prefix + DateKey(DayOf(a)) == prefix + DateKey(DayOf(b)) {
      assert (prefix + DateKey(DayOf(a)))[|prefix|..] == DateKey(DayOf(a));
      assert (prefix + DateKey(DayOf(b)))[|prefix|..] == DateKey(DayOf(b));
      DateKeyInjective(DayOf(a), DayOf(b));
    }
  }

  // A daily key is never a weekly one.
  lemma KindsDiffer(t: int, u: int, hhmm: string, weeklyResetDay: int)
    ensures DailyKey(t, hhmm) != WeeklyKey(u, hhmm, weeklyResetDay)
  {
    assert DailyKey(t, hhmm)[0] == 'D' && WeeklyKey(u, hhmm, weeklyResetDay)[0] == 'W';
  }

  // How a time of day is written: an hour of one digit or two, and two digits of minutes.
  ghost predicate Writes(s: string, c: Clock) {
    ValidClock(c) && (s == Decimal(c.hour) + ":" + Pad2(c.minute) || s == Pad2(c.hour) + ":" + Pad2(c.minute))
  }

  lemma ScannedTime(s: string, c: Clock)
    ensures ScanHhmm(s) == Some(c) <==> Writes(s, c)
  {
    if ValidClock(c) {
      Pad2Digits(c.hour);
      Pad2Digits(c.minute);
      if c.hour >= 10 { assert Pad2(c.hour) == Decimal(c.hour); }
    }
    if ScanHhmm(s) == Some(c) {
      assert s[|s| - 2..] == Pad2(c.minute);
      assert s == s[..|s| - 3] + ":" + s[|s| - 2..];
    }
  }

  // A time of day is read off every text that writes one, white space around it
  // aside, and nine o'clock off any other text.
  lemma TimeRead(hhmm: string, c: Clock)
    ensures Writes(Text.Trim(hhmm), c) ==> ParseHhmm(hhmm) == c
    ensures (forall x :: !Writes(Text.Trim(hhmm), x)) ==> ParseHhmm(hhmm) == Clock(9, 0)
  {
    hide ScanHhmm, Writes;
    forall x ensures ScanHhmm(Text.Trim(hhmm)) == Some(x) <==> Writes(Text.Trim(hhmm), x) {
      ScannedTime(Text.Trim(hhmm), x);
    }
  }

  // "9:30" and "09:30" both read as half past nine.
  lemma TimeText(c: Clock)
    requires ValidClock(c)
    ensures ParseHhmm(Decimal(c.hour) + ":" + Pad2(c.minute)) == c
    ensures ParseHhmm(Pad2(c.hour) + ":" + Pad2(c.minute)) == c
  {
    Untouched(Decimal(c.hour) + ":" + Pad2(c.minute), c);
    Untouched(Pad2(c.hour) + ":" + Pad2(c.minute), c);
    TimeRead(Decimal(c.hour) + ":" + Pad2(c.minute), c);
    TimeRead(Pad2(c.hour) + ":" + Pad2(c.minute), c);
  }

  // Nothing is trimmed off a time of day.
  lemma Untouched(s: string, c: Clock)
    requires Writes(s, c)
    ensures Text.Trim(s) == s
  {
    Pad2Digits(c.hour);
    Pad2Digits(c.minute);
    assert IsDigit(s[0]) && IsDigit(s[|s| - 1]);
    Text.TrimIsProjection(s);
  }

  lemma HourText(hour: int)
    requires 0 <= hour <= 23
    ensures ParseHhmm(Decimal(hour) + ":00") == Clock(hour, 0) && ParseHhmm(Pad2(hour) + ":00") == Clock(hour, 0)
  {
    TimeText(Clock(hour, 0));
    Pad2Digits(0);
    assert Pad2(0) == "00" && Decimal(hour) + ":" + "00" == Decimal(hour) + ":00";
    assert Pad2(hour) + ":" + "00" == Pad2(hour) + ":00";
  }

  lemma ShiftedDay(t: int, ms: int)
    requires 0 <= ms < DAY
    ensures var today := DayOf(t - ms); today * DAY + ms <= t < today * DAY + ms + DAY
  {
  }

  lemma SameDay(t: int, c: Clock)
    requires ValidClock(c)
    ensures DailyStart(t, c) == DayOf(t - Millis(c)) * DAY + Millis(c)
  {
    var r := DayOf(t - Millis(c)) * DAY + Millis(c);
    ShiftedDay(t, Millis(c));
    DayOfStart(DayOf(t - Millis(c)), c);
    DailyStartResult(t, c);
    if r < DailyStart(t, c) { DailySpacing(r, DailyStart(t, c), c); }
    if DailyStart(t, c) < r { DailySpacing(DailyStart(t, c), r, c); }
  }

  lemma SameWeek(t: int, day: int, c: Clock)
    requires ValidClock(c) && c.minute == 0 && 0 <= day <= 6
    ensures WeeklyStart(t, c, day) == ShiftedWeek(t, day, c.hour) * DAY + Millis(c)
  {
    var today, first := DayOf(t - c.hour * HOUR), ShiftedWeek(t, day, c.hour);
    var r := first * DAY + Millis(c);
    ShiftedDay(t, Millis(c));
    WeekBack(today, day);
    DayOfStart(first, c);
    WeeklyStartResult(t, c, day);
    if r < WeeklyStart(t, c, day) { WeeklySpacing(r, WeeklyStart(t, c, day), c, day); }
    if WeeklyStart(t, c, day) < r { WeeklySpacing(WeeklyStart(t, c, day), r, c, day); }
  }

  lemma KeyOfDay(t: int, hhmm: string, c: Clock, day: int)
    requires ParseHhmm(hhmm) == c && DailyStart(t, c) == day * DAY + Millis(c)
    ensures DailyKey(t, hhmm) == "D:" + DateKey(day)
  {
    DayOfStart(day, c);
  }

  lemma KeyOfWeek(t: int, hhmm: string, resetDay: int, c: Clock, day: int)
    requires ParseHhmm(hhmm) == c && WeeklyStart(t, c, ClampDay(resetDay)) == day * DAY + Millis(c)
    ensures WeeklyKey(t, hhmm, resetDay) == "W:" + DateKey(day)
  {
    DayOfStart(day, c);
  }

  // The web keys, computed by shifting the clock back, are the dates of the
  // desktop keys, computed by stepping back to the last reset.
  lemma KeysAgree(t: int, resetDay: int, resetHour: int, hhmm: string)
    requires 0 <= resetHour <= 23 && 0 <= resetDay <= 6
    requires (hhmm == Pad2(resetHour) + ":00" || hhmm == Decimal(resetHour) + ":00")
    ensures DailyKey(t, hhmm) == "D:" + DateKey(DayOf(t - resetHour * HOUR))
    ensures WeeklyKey(t, hhmm, resetDay) == "W:" + DateKey(ShiftedWeek(t, resetDay, resetHour))
  {
    var c := Clock(resetHour, 0);
    HourText(resetHour);
    SameDay(t, c);
    SameWeek(t, resetDay, c);
    KeyOfDay(t, hhmm, c, DayOf(t - resetHour * HOUR));
    KeyOfWeek(t, hhmm, resetDay, c, ShiftedWeek(t, resetDay, resetHour));
  }

  lemma LeastIsUnique(r: int, s: int, t: int, property: int -> bool)
    requires Least(r, t, property) && Least(s, t, property)
    ensures r == s
  {
  }

  // Both pairs of next-reset functions name the same instants.
  lemma NextResetsAgree(t: int, resetDay: int, resetHour: int, hhmm: string, daily: int, webDaily: int, weekly: int,
                        webWeekly: int)
    requires 0 <= resetHour <= 23 && 0 <= resetDay <= 6
    requires (hhmm == Pad2(resetHour) + ":00" || hhmm == Decimal(resetHour) + ":00")
    requires Least(daily, t, r => IsDailyReset(r, ParseHhmm(hhmm)))
    requires Least(webDaily, t, r => IsDailyReset(r, Clock(resetHour, 0)))
    requires Least(weekly, t, r => IsWeeklyReset(r, ParseHhmm(hhmm), ClampDay(resetDay)))
    requires Least(webWeekly, t, r => IsWeeklyReset(r, Clock(resetHour, 0), resetDay))
    ensures daily == webDaily && weekly == webWeekly
  {
    HourText(resetHour);
    LeastIsUnique(daily, webDaily, t, r => IsDailyReset(r, Clock(resetHour, 0)));
    LeastIsUnique(weekly, webWeekly, t, r => IsWeeklyReset(r, Clock(resetHour, 0), resetDay));
  }
}
