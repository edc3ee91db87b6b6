/**
 The next run of a daily or weekly job in Japan Standard Time (src/lib/scheduler.ts).
 Instants are milliseconds since the epoch; ISO strings are read as the instants they name.
 */
module Schedule {
  import opened Calendar

  const JST_OFFSET_MS := 9 * MS_PER_HOUR

  datatype Weekday = Mon | Tue | Wed | Thu | Fri | Sat | Sun

  function WeekdayIndex(w: Weekday): int {
    match w
    case Mon => 1 case Tue => 2 case Wed => 3 case Thu => 4 case Fri => 5 case Sat => 6 case Sun => 0
  }

  function Digit(c: char): int { c as int - '0' as int }

  predicate IsDigit(c: char) { '0' <= c <= '9' }

  /** A time of day that names one: two digits, a colon, two digits, 00:00 to 23:59. */
  predicate IsTimeOfDay(time: string) {
    && |time| == 5 && time[2] == ':'
    && IsDigit(time[0]) && IsDigit(time[1]) && IsDigit(time[3]) && IsDigit(time[4])
    && 10 * Digit(time[0]) + Digit(time[1]) < 24 && 10 * Digit(time[3]) + Digit(time[4]) < 60
  }

  type TimeOfDay = time: string | IsTimeOfDay(time) witness "00:00"

  datatype Time = Time(hours: int, minutes: int)

  function ParseTime(time: string): Time
    requires IsTimeOfDay(time)
  {
    Time(10 * Digit(time[0]) + Digit(time[1]), 10 * Digit(time[3]) + Digit(time[4]))
  }

  /** Date.UTC takes a year from 0 to 99 for a year of the twentieth century. */
  function UtcYear(year: int): int {
    if 0 <= year <= 99 then 1900 + year else year
  }

  function DateUtc(year: int, month: int, day: int, hours: int, minutes: int): int {
    MakeDay(UtcYear(year), month, day) * MS_PER_DAY
    + hours * MS_PER_HOUR + minutes * MS_PER_MINUTE
  }

  function JstDay(t: int): int { Day(t + JST_OFFSET_MS) }

  /** toJstDateParts, with the month counted from 1, and the weekday. */
  datatype JstParts = JstParts(year: int, month: int, day: int, weekday: int)

  function ToJstDateParts(now: int): JstParts {
    var c := CivilOf(JstDay(now));
    JstParts(c.year, c.month + 1, c.day, WeekDay(JstDay(now)))
  }

  function BuildUtcFromJstParts(year: int, month: int, day: int, hours: int, minutes: int): int {
    DateUtc(year, month - 1, day, hours - 9, minutes)
  }

  function NextDailyRunAt(time: string, now: int): int
    requires IsTimeOfDay(time)
  {
    var p := ToJstDateParts(now);
    var t := ParseTime(time);
    var target := BuildUtcFromJstParts(p.year, p.month, p.day, t.hours, t.minutes);
    if target <= now then target + MS_PER_DAY else target
  }

  function NextWeeklyRunAt(weekday: Weekday, time: string, now: int): int
    requires IsTimeOfDay(time)
  {
    var p := ToJstDateParts(now);
    var t := ParseTime(time);
    var dayOffset := (WeekdayIndex(weekday) - p.weekday + 7) % 7;
    var target := BuildUtcFromJstParts(p.year, p.month, p.day + dayOffset, t.hours, t.minutes);
    if target <= now
    then BuildUtcFromJstParts(p.year, p.month, p.day + (if dayOffset == 0 then 7 else dayOffset), t.hours, t.minutes)
    else target
  }

  /** Milliseconds after JST midnight. */
  function TimeOfDayMs(time: string): int
    requires IsTimeOfDay(time)
  {
    ParseTime(time).hours * MS_PER_HOUR + ParseTime(time).minutes * MS_PER_MINUTE
  }

  /** The JST clock shows `time`, to the millisecond, at instant t. */
  predicate IsDailySlot(time: string, t: int)
    requires IsTimeOfDay(time)
  {
    TimeWithinDay(t + JST_OFFSET_MS) == TimeOfDayMs(time)
  }

  predicate IsWeeklySlot(weekday: Weekday, time: string, t: int)
    requires IsTimeOfDay(time)
  {
    IsDailySlot(time, t) && WeekDay(JstDay(t)) == WeekdayIndex(weekday)
  }

  /** The first of the slots strictly after now. */
  ghost predicate IsFirstAfter(isSlot: int -> bool, now: int, t: int) {
    t > now && isSlot(t) && forall u :: u > now && isSlot(u) ==> t <= u
  }

  /** The instant on JST day d at which the clock shows `time`. */
  function SlotOnDay(time: string, d: int): int
    requires IsTimeOfDay(time)
  {
    d * MS_PER_DAY + TimeOfDayMs(time) - JST_OFFSET_MS
  }

  /** Every slot is the slot of its own day. */
  lemma {:induction false} SlotsByDay(time: string, t: int)
    requires IsTimeOfDay(time)
    ensures IsDailySlot(time, t) <==> t == SlotOnDay(time, JstDay(t))
  {
  }

  lemma {:induction false} SlotOnItsDay(time: string, d: int)
    requires IsTimeOfDay(time)
    ensures JstDay(SlotOnDay(time, d)) == d && IsDailySlot(time, SlotOnDay(time, d))
  {
    var ms := TimeOfDayMs(time);
    assert 0 <= ms < MS_PER_DAY;
    assert SlotOnDay(time, d) + JST_OFFSET_MS == d * MS_PER_DAY + ms;
  }

  /** The years that Date.UTC takes for years of the twentieth century. */
  predicate InTwoDigitYear(now: int) {
    0 <= ToJstDateParts(now).year <= 99
  }

  /** Where now lies in its JST day, and the slot of that day. */
  lemma {:induction false} SlotsAround(time: string, now: int)
    requires IsTimeOfDay(time)
    ensures var s := SlotOnDay(time, JstDay(now)); now - MS_PER_DAY < s < now + MS_PER_DAY
  {
    assert 0 <= TimeOfDayMs(time) < MS_PER_DAY;
    var t := now + JST_OFFSET_MS;
    assert t == Day(t) * MS_PER_DAY + TimeWithinDay(t);
  }

  lemma {:induction false} DaysAreMonotone(now: int, u: int)
    requires now <= u
    ensures JstDay(now) <= JstDay(u)
  {
  }

  lemma {:induction false} LaterDay(d: int, k: int)
    ensures var c := CivilOf(d); MakeDay(c.year, c.month, c.day + k) == d + k
  {
    hide CivilOf, MakeDay;
    var c := CivilOf(d);
    DayRoundTrip(d);
    DayOverflow(c.year, c.month, c.day, k);
  }

  lemma {:induction false} TwentiethCenturyDay(d: int, k: int)
    requires k >= 0 && 0 <= CivilOf(d).year <= 99
    ensures var c := CivilOf(d); MakeDay(1900 + c.year, c.month, c.day + k) > d + 100
  {
    var c := CivilOf(d);
    var leap := IsLeap(1900 + c.year);
    assert c.year == YearOf(d);
    hide CivilOf, YearOf, MakeDay, DayFromYear, DaysBeforeMonth, IsLeap;
    YearsAdvance(c.year + 1, 1900 + c.year);
    MakeDayInYear(1900 + c.year, c.month, c.day + k);
    MonthOrder(0, c.month, leap);
    YearEnds(leap);
  }

  /** What the source builds from the JST parts of now, k days later. */
  function Built(time: string, now: int, k: int): int
    requires IsTimeOfDay(time)
  {
    var p := ToJstDateParts(now);
    BuildUtcFromJstParts(p.year, p.month, p.day + k, ParseTime(time).hours, ParseTime(time).minutes)
  }

  /** It is the slot of the day that those parts name once Date.UTC has read the year. */
  lemma {:induction false} BuiltOnDay(time: string, now: int, k: int)
    requires IsTimeOfDay(time)
    ensures var c := CivilOf(JstDay(now));
            Built(time, now, k) == SlotOnDay(time, MakeDay(UtcYear(c.year), c.month, c.day + k))
  {
    hide CivilOf, MakeDay, JstDay, IsTimeOfDay, ParseTime;
  }

  lemma {:induction false} BuiltIsSlot(time: string, now: int, k: int)
    requires IsTimeOfDay(time) && !InTwoDigitYear(now)
    ensures Built(time, now, k) == SlotOnDay(time, JstDay(now) + k)
  {
    hide CivilOf, MakeDay, JstDay, Built, SlotOnDay, IsTimeOfDay;
    BuiltOnDay(time, now, k);
    LaterDay(JstDay(now), k);
  }

  lemma {:induction false} BuiltIsFarOff(time: string, now: int, k: int)
    requires IsTimeOfDay(time) && InTwoDigitYear(now) && k >= 0
    ensures Built(time, now, k) > now + 8 * MS_PER_DAY
  {
    hide CivilOf, MakeDay, JstDay, Built, SlotOnDay, IsTimeOfDay;
    var d := JstDay(now);
    var c := CivilOf(d);
    var built := MakeDay(1900 + c.year, c.month, c.day + k);
    BuiltOnDay(time, now, k);
    TwentiethCenturyDay(d, k);
    SlotsAround(time, now);
    SlotOrder(time, d, built);
  }

  /** The first daily slot after now is that of today or tomorrow. */
  function FirstSlot(time: string, now: int): int
    requires IsTimeOfDay(time)
  {
    var today := SlotOnDay(time, JstDay(now));
    if today <= now then today + MS_PER_DAY else today
  }

  lemma {:induction false} FirstSlotIsFirst(time: string, now: int)
    requires IsTimeOfDay(time)
    ensures IsFirstAfter(t => IsDailySlot(time, t), now, FirstSlot(time, now))
    ensures FirstSlot(time, now) <= now + MS_PER_DAY
  {
    var d := JstDay(now);
    SlotsAround(time, now);
    SlotOnItsDay(time, d);
    SlotOnItsDay(time, d + 1);
    assert SlotOnDay(time, d + 1) == SlotOnDay(time, d) + MS_PER_DAY;
    forall u | u > now && IsDailySlot(time, u) ensures FirstSlot(time, now) <= u {
      SlotsByDay(time, u);
      DaysAreMonotone(now, u);
      SlotOrder(time, d, JstDay(u));
    }
  }

  lemma {:induction false} SlotOrder(time: string, d: int, e: int)
    requires IsTimeOfDay(time)
    ensures SlotOnDay(time, e) == SlotOnDay(time, d) + (e - d) * MS_PER_DAY
  {
  }

  lemma {:induction false} DailyValue(time: string, now: int)
    requires IsTimeOfDay(time)
    ensures if InTwoDigitYear(now) then NextDailyRunAt(time, now) > now + 8 * MS_PER_DAY
            else NextDailyRunAt(time, now) == FirstSlot(time, now)
  {
    DailyFromBuilt(time, now);
    if InTwoDigitYear(now) {
      BuiltIsFarOff(time, now, 0);
    } else {
      BuiltIsSlot(time, now, 0);
    }
  }

  /** nextDailyRunAt gives the first instant after now at which the JST clock shows the time, at most a
      day away, if and only if the JST year of now is not one that Date.UTC maps to 1900 to 1999. */
  lemma {:induction false} DailyIsFirstSlot(time: string, now: int)
    requires IsTimeOfDay(time)
    ensures IsFirstAfter(t => IsDailySlot(time, t), now, NextDailyRunAt(time, now)) <==> !InTwoDigitYear(now)
    ensures !InTwoDigitYear(now) ==> NextDailyRunAt(time, now) <= now + MS_PER_DAY
    ensures NextDailyRunAt(time, now) > now
  {
    DailyValue(time, now);
    FirstSlotIsFirst(time, now);
    OnlyTheFirst(t => IsDailySlot(time, t), now, NextDailyRunAt(time, now), FirstSlot(time, now));
  }

  lemma {:induction false} DailyFromBuilt(time: string, now: int)
    requires IsTimeOfDay(time)
    ensures NextDailyRunAt(time, now) == if Built(time, now, 0) <= now then Built(time, now, 0) + MS_PER_DAY
                                         else Built(time, now, 0)
  {
  }

  /** Days from now's JST day to the next such weekday, from 0 to 6. */
  function DaysUntil(weekday: Weekday, now: int): int {
    (WeekdayIndex(weekday) - WeekDay(JstDay(now)) + 7) % 7
  }

  function FirstWeeklySlot(weekday: Weekday, time: string, now: int): int
    requires IsTimeOfDay(time)
  {
    var s := SlotOnDay(time, JstDay(now) + DaysUntil(weekday, now));
    if s <= now then s + 7 * MS_PER_DAY else s
  }

  lemma {:induction false} SameWeekday(d: int, e: int)
    requires WeekDay(d) == WeekDay(e) && e - d > -7
    ensures e >= d
  {
    assert (e - d) % 7 == 0;
  }

  lemma {:induction false} WeekdayAhead(index: int, d: int)
    requires 0 <= index <= 6
    ensures var k := (index - WeekDay(d) + 7) % 7;
            0 <= k <= 6 && WeekDay(d + k) == index && WeekDay(d + k + 7) == index
  {
  }

  lemma {:induction false} FirstWeeklySlotIsSlot(weekday: Weekday, time: string, now: int)
    requires IsTimeOfDay(time)
    ensures IsWeeklySlot(weekday, time, FirstWeeklySlot(weekday, time, now))
    ensures now < FirstWeeklySlot(weekday, time, now) <= now + 7 * MS_PER_DAY
  {
    hide IsTimeOfDay, SlotOnDay, IsDailySlot, JstDay, WeekDay;
    var d, k := JstDay(now), DaysUntil(weekday, now);
    WeekdayAhead(WeekdayIndex(weekday), d);
    SlotsAround(time, now);
    SlotOrder(time, d, d + k);
    SlotOrder(time, d + k, d + k + 7);
    SlotOnItsDay(time, d + k);
    SlotOnItsDay(time, d + k + 7);
    hide WeekdayIndex;
  }

  lemma {:induction false} FirstWeeklySlotIsFirst(weekday: Weekday, time: string, now: int)
    requires IsTimeOfDay(time)
    ensures IsFirstAfter(t => IsWeeklySlot(weekday, time, t), now, FirstWeeklySlot(weekday, time, now))
    ensures FirstWeeklySlot(weekday, time, now) <= now + 7 * MS_PER_DAY
  {
    FirstWeeklySlotIsSlot(weekday, time, now);
    hide IsTimeOfDay, IsWeeklySlot, FirstWeeklySlot;
    forall u | u > now && IsWeeklySlot(weekday, time, u) ensures FirstWeeklySlot(weekday, time, now) <= u {
      NoEarlierWeeklySlot(weekday, time, now, u);
    }
  }

  lemma {:induction false} NoEarlierWeeklySlot(weekday: Weekday, time: string, now: int, u: int)
    requires IsTimeOfDay(time) && u > now && IsWeeklySlot(weekday, time, u)
    ensures FirstWeeklySlot(weekday, time, now) <= u
  {
    hide IsTimeOfDay, SlotOnDay, IsDailySlot, JstDay, WeekDay;
    var d, k := JstDay(now), DaysUntil(weekday, now);
    SlotsByDay(time, u);
    DaysAreMonotone(now, u);
    WeekdayAhead(WeekdayIndex(weekday), d);
    SlotOrder(time, d + k, JstDay(u));
    SameWeekday(d + k, JstDay(u));
    if JstDay(u) == d + k {
    } else {
      SevenLater(d + k, JstDay(u));
    }
    hide WeekdayIndex;
  }

  lemma {:induction false} SevenLater(d: int, e: int)
    requires WeekDay(d) == WeekDay(e) && d < e
    ensures d + 7 <= e
  {
    assert (e - d) % 7 == 0;
  }

  lemma {:induction false} WeeklyFromBuilt(weekday: Weekday, time: string, now: int)
    requires IsTimeOfDay(time)
    ensures var k := DaysUntil(weekday, now);
            NextWeeklyRunAt(weekday, time, now)
            == if Built(time, now, k) <= now then Built(time, now, if k == 0 then 7 else k) else Built(time, now, k)
  {
    var p, t, k := ToJstDateParts(now), ParseTime(time), DaysUntil(weekday, now);
    assert (WeekdayIndex(weekday) - p.weekday + 7) % 7 == k;
    hide CivilOf, MakeDay, WeekDay, WeekdayIndex, ParseTime, IsTimeOfDay, BuildUtcFromJstParts, ToJstDateParts;
  }

  lemma {:induction false} WeeklyValue(weekday: Weekday, time: string, now: int)
    requires IsTimeOfDay(time)
    ensures if InTwoDigitYear(now) then NextWeeklyRunAt(weekday, time, now) > now + 8 * MS_PER_DAY
            else NextWeeklyRunAt(weekday, time, now) == FirstWeeklySlot(weekday, time, now)
  {
    hide IsTimeOfDay, SlotOnDay, JstDay, WeekDay, WeekdayIndex, Built, NextWeeklyRunAt, InTwoDigitYear;
    var d, k := JstDay(now), DaysUntil(weekday, now);
    WeeklyFromBuilt(weekday, time, now);
    if InTwoDigitYear(now) {
      BuiltIsFarOff(time, now, k);
    } else {
      BuiltIsSlot(time, now, k);
      BuiltIsSlot(time, now, 7);
      SlotsAround(time, now);
      SlotOrder(time, d, d + k);
      SlotOrder(time, d, d + 7);
    }
  }

  /** nextWeeklyRunAt gives the first instant after now on that weekday and time, at most a week
      away, under exactly the same condition. */
  lemma {:induction false} WeeklyIsFirstSlot(weekday: Weekday, time: string, now: int)
    requires IsTimeOfDay(time)
    ensures IsFirstAfter(t => IsWeeklySlot(weekday, time, t), now, NextWeeklyRunAt(weekday, time, now))
            <==> !InTwoDigitYear(now)
    ensures !InTwoDigitYear(now) ==> NextWeeklyRunAt(weekday, time, now) <= now + 7 * MS_PER_DAY
    ensures NextWeeklyRunAt(weekday, time, now) > now
  {
    WeeklyValue(weekday, time, now);
    FirstWeeklySlotIsFirst(weekday, time, now);
    OnlyTheFirst(t => IsWeeklySlot(weekday, time, t), now, NextWeeklyRunAt(weekday, time, now),
                 FirstWeeklySlot(weekday, time, now));
  }

  lemma {:induction false} OnlyTheFirst(isSlot: int -> bool, now: int, t: int, first: int)
    requires IsFirstAfter(isSlot, now, first)
    ensures IsFirstAfter(isSlot, now, t) <==> t == first
  {
    if IsFirstAfter(isSlot, now, t) {
      assert t <= first && first <= t;
    }
  }

  /** JST midnight on the first of January of year y. */
  function NewYear(y: int): int {
    DayFromYear(y) * MS_PER_DAY - JST_OFFSET_MS
  }

  /** Such years exist: in the year 50 the next daily run is not the first slot. */
  lemma {:induction false} YearFiftyIsLate(time: string)
    requires IsTimeOfDay(time)
    ensures InTwoDigitYear(NewYear(50))
    ensures !IsFirstAfter(t => IsDailySlot(time, t), NewYear(50), NextDailyRunAt(time, NewYear(50)))
  {
    var d := DayFromYear(50);
    assert JstDay(NewYear(50)) == d;
    YearLength(50);
    YearIsUnique(d, 50);
    assert CivilOf(d).year == 50;
    hide DayFromYear, CivilOf, JstDay;
    DailyIsFirstSlot(time, NewYear(50));
  }

  // --- what the clock and the calendar of a slot show ---

  function DigitChar(n: int): char
    requires 0 <= n <= 9
  {
    ('0' as int + n) as char
  }

  function TwoDigits(n: int): string
    requires 0 <= n < 100
  {
    [DigitChar(n / 10), DigitChar(n % 10)]
  }

  /** The hours and minutes that a clock nine hours ahead of UTC shows. */
  function ClockText(t: int): string {
    var minutes := (t + 32400000) % 86400000 / 60000;
    TwoDigits(minutes / 60) + ":" + TwoDigits(minutes % 60)
  }

  lemma {:induction false} DigitsRead(a: char, b: char, n: int)
    requires IsDigit(a) && IsDigit(b) && 0 <= n < 100
    ensures [a, b] == TwoDigits(n) <==> 10 * Digit(a) + Digit(b) == n
  {
    var text := TwoDigits(n);
    assert Digit(text[0]) == n / 10 && Digit(text[1]) == n % 10;
    assert text == [a, b] <==> text[0] == a && text[1] == b;
    assert a == text[0] <==> Digit(a) == n / 10;
    assert b == text[1] <==> Digit(b) == n % 10;
  }

  lemma {:induction false} TimeText(time: string, h: int, m: int)
    requires IsTimeOfDay(time) && 0 <= h < 24 && 0 <= m < 60
    ensures time == TwoDigits(h) + ":" + TwoDigits(m) <==> ParseTime(time) == Time(h, m)
  {
    DigitsRead(time[0], time[1], h);
    DigitsRead(time[3], time[4], m);
    var text := TwoDigits(h) + ":" + TwoDigits(m);
    assert time == [time[0], time[1]] + ":" + [time[3], time[4]];
    assert text[0] == TwoDigits(h)[0] && text[1] == TwoDigits(h)[1] && text[2] == ':';
    assert text[3] == TwoDigits(m)[0] && text[4] == TwoDigits(m)[1];
    hide TwoDigits, Digit, IsDigit;
    if time == text {
      assert [time[0], time[1]] == TwoDigits(h) && [time[3], time[4]] == TwoDigits(m);
    }
  }

  lemma {:induction false} MinutesOf(ms: int, h: int, m: int)
    requires 0 <= ms < 86400000 && 0 <= h < 24 && 0 <= m < 60
    ensures ms == h * 3600000 + m * 60000 <==> ms / 60000 == 60 * h + m && ms % 60000 == 0
  {
  }

  lemma {:induction false} ClockReads(time: string, t: int, minutes: int)
    requires IsTimeOfDay(time) && minutes == (t + 32400000) % 86400000 / 60000
    ensures ClockText(t) == time <==> minutes == 60 * ParseTime(time).hours + ParseTime(time).minutes
  {
    assert 0 <= minutes < 1440;
    var h, m := minutes / 60, minutes % 60;
    TimeText(time, h, m);
    hide TwoDigits, Digit, IsDigit;
  }

  lemma {:induction false} SlotMinutes(time: string, t: int)
    requires IsTimeOfDay(time)
    ensures
      var ms := (t + 32400000) % 86400000;
      IsDailySlot(time, t) <==>
        ms / 60000 == 60 * ParseTime(time).hours + ParseTime(time).minutes && ms % 60000 == 0
  {
    var p := ParseTime(time);
    MinutesOf((t + 32400000) % 86400000, p.hours, p.minutes);
    hide Digit, IsDigit;
  }

  lemma {:induction false} FullMinute(t: int)
    ensures (t + 32400000) % 86400000 % 60000 == t % 60000
  {
  }

  /** A daily slot is an instant at which a JST clock shows exactly the job's time, on the full minute. */
  lemma {:induction false} SlotShowsTime(time: string, t: int)
    requires IsTimeOfDay(time)
    ensures IsDailySlot(time, t) <==> ClockText(t) == time && t % 60000 == 0
  {
    hide IsTimeOfDay, ParseTime, ClockText, IsDailySlot;
    SlotMinutes(time, t);
    ClockReads(time, t, (t + 32400000) % 86400000 / 60000);
    FullMinute(t);
  }

  function DayAfter(w: Weekday): Weekday {
    match w
    case Mon => Tue case Tue => Wed case Wed => Thu case Thu => Fri case Fri => Sat case Sat => Sun case Sun => Mon
  }

  lemma {:induction false} WeekdaysDiffer()
    ensures forall a, b :: WeekdayIndex(a) == WeekdayIndex(b) ==> a == b
    ensures forall a {:trigger DayAfter(a)} :: WeekdayIndex(DayAfter(a)) == (WeekdayIndex(a) + 1) % 7
    ensures forall a :: 0 <= WeekdayIndex(a) < 7
  {
  }

  lemma {:induction false} NextDaySlot(time: string, t: int)
    requires IsTimeOfDay(time)
    ensures JstDay(t + 86400000) == JstDay(t) + 1
    ensures IsDailySlot(time, t + 86400000) <==> IsDailySlot(time, t)
  {
    hide IsTimeOfDay, ParseTime;
    assert TimeWithinDay(t + 86400000 + JST_OFFSET_MS) == TimeWithinDay(t + JST_OFFSET_MS);
  }

  lemma {:induction false} NextWeekDay(d: int)
    ensures WeekDay(d + 1) == (WeekDay(d) + 1) % 7 && 0 <= WeekDay(d) < 7
  {
  }

  lemma {:induction false} FirstThursday()
    ensures IsTimeOfDay("09:00") && IsWeeklySlot(Thu, "09:00", 0)
  {
    assert ParseTime("09:00") == Time(9, 0);
  }

  /** The weekday of a slot: the first of January 1970 was a Thursday, and a day later it is the day after. */
  lemma {:induction false} WeekdaysFollow(weekday: Weekday, time: string, t: int)
    requires IsTimeOfDay(time)
    ensures IsTimeOfDay("09:00") && IsWeeklySlot(Thu, "09:00", 0)
    ensures IsWeeklySlot(weekday, time, t) <==> IsWeeklySlot(DayAfter(weekday), time, t + 86400000)
    ensures IsWeeklySlot(weekday, time, t) ==> forall other :: other != weekday ==> !IsWeeklySlot(other, time, t)
  {
    hide IsTimeOfDay, IsDailySlot, JstDay, WeekDay, WeekdayIndex, DayAfter;
    FirstThursday();
    NextDaySlot(time, t);
    NextWeekDay(JstDay(t));
    WeekdaysDiffer();
  }
}
