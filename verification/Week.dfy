// The weekly reset window of an instant, and the ISO year and week that name it.
module Week {
  import opened Base

  // ----- the proleptic Gregorian calendar; day 1 is Monday, 1 January of year 1 -----

  function FirstDay(year: int): int {
    var y := year - 1;
    365 * y + y / 4 - y / 100 + y / 400 + 1
  }

  /** Monday is 0. */
  function Weekday(day: int): int {
    (day + 6) % 7
  }

  /** A year is at least 365 and at most 366 days long. */
  lemma YearLength(year: int)
    ensures FirstDay(year) + 365 <= FirstDay(year + 1) <= FirstDay(year) + 366
  {
    var y := year - 1;
    assert y / 4 <= (y + 1) / 4 <= y / 4 + 1;
    assert y / 100 <= (y + 1) / 100 <= y / 100 + 1;
    assert y / 400 <= (y + 1) / 400 <= y / 400 + 1;
    assert (y + 1) / 100 > y / 100 ==> (y + 1) % 4 == 0 && (y + 1) / 4 > y / 4 by { LeapSteps(y); }
    assert (y + 1) / 400 > y / 400 ==> (y + 1) / 100 > y / 100 by { LeapSteps(y); }
  }

  lemma LeapSteps(y: int)
    ensures (y + 1) / 100 > y / 100 ==> (y + 1) / 4 > y / 4 && (y + 1) % 4 == 0
    ensures (y + 1) / 400 > y / 400 ==> (y + 1) / 100 > y / 100
  {
    assert (y + 1) / 100 > y / 100 ==> (y + 1) % 100 == 0;
    assert (y + 1) % 100 == 0 ==> (y + 1) == 4 * (25 * ((y + 1) / 100));
    assert (y + 1) / 400 > y / 400 ==> (y + 1) % 400 == 0;
    assert (y + 1) % 400 == 0 ==> (y + 1) == 100 * (4 * ((y + 1) / 400));
  }

  /** The average year has 146097 / 400 days, so this estimate is off by at most one. */
  function YearEstimate(day: int): int {
    400 * (day - 1) / 146097 + 1
  }

  lemma EstimateIsClose(day: int)
    ensures FirstDay(YearEstimate(day) - 1) <= day < FirstDay(YearEstimate(day) + 2)
  {
    var e := YearEstimate(day);
    assert 146097 * (e - 1) <= 400 * (day - 1) < 146097 * e;
    FirstDayBounds(e - 1);
    FirstDayBounds(e + 2);
  }

  lemma FirstDayBounds(year: int)
    ensures 146097 * (year - 1) - 700 <= 400 * (FirstDay(year) - 1) <= 146097 * (year - 1) + 400
  {
  }

  function YearOf(day: int): (year: int)
    ensures FirstDay(year) <= day < FirstDay(year + 1)
  {
    EstimateIsClose(day);
    var e := YearEstimate(day);
    if day < FirstDay(e) then e - 1 else if FirstDay(e + 1) <= day then e + 1 else e
  }

  lemma {:induction false} YearsAreOrdered(a: int, b: int)
    requires a <= b
    ensures FirstDay(a) <= FirstDay(b)
    decreases b - a
  {
    if a < b {
      YearsAreOrdered(a, b - 1);
      YearLength(b - 1);
    }
  }

  lemma YearIsUnique(day: int, year: int)
    requires FirstDay(year) <= day < FirstDay(year + 1)
    ensures YearOf(day) == year
  {
    var y := YearOf(day);
    if y < year { YearsAreOrdered(y + 1, year); }
    if year < y { YearsAreOrdered(year + 1, y); }
  }

  // ----- ISO year and week -----

  datatype IsoWeek = IsoWeek(year: int, week: int)

  /** The Monday of ISO week 1. */
  function Week1Monday(year: int): int {
    MondayOfWeek1(FirstDay(year))
  }

  function MondayOfWeek1(first: int): int {
    var monday := first - Weekday(first);
    if Weekday(first) > 3 then monday + 7 else monday
  }

  /** The calendar library's computation, which starts from the calendar year and corrects at its ends. */
  function IsoCalendar(day: int): IsoWeek {
    var year := YearOf(day);
    CorrectedWeek(day, year, Week1Monday(year - 1), Week1Monday(year), Week1Monday(year + 1))
  }

  function CorrectedWeek(day: int, year: int, before: int, own: int, next: int): IsoWeek {
    var week := (day - own) / 7;
    if week < 0 then IsoWeek(year - 1, (day - before) / 7 + 1)
    else if week >= 52 && day >= next then IsoWeek(year + 1, 1)
    else IsoWeek(year, week + 1)
  }

  function Thursday(day: int): int {
    day - Weekday(day) + 3
  }

  /** Week 1 is the one whose Thursday is the first of the year. */
  lemma Week1HoldsFirstThursday(first: int)
    ensures Weekday(MondayOfWeek1(first)) == 0
    ensures first <= MondayOfWeek1(first) + 3 < first + 7
  {
    var w := Weekday(first);
    assert first + 6 == (first + 6) / 7 * 7 + w;
    assert first - w + 6 == (first + 6) / 7 * 7;
    assert Weekday(first - w) == 0 && Weekday(first - w + 7) == 0;
  }

  /** Counting weeks from the first Monday or Thursdays from the first of January gives the same number. */
  lemma WeeksSinceWeek1(day: int, year: int)
    ensures (day - Week1Monday(year)) / 7 == (Thursday(day) - FirstDay(year)) / 7
  {
    var monday, first := Week1Monday(year), FirstDay(year);
    Week1HoldsFirstThursday(first);
    SameBlock(day, monday, first);
  }

  lemma SameBlock(day: int, monday: int, first: int)
    requires Weekday(monday) == 0 && first <= monday + 3 < first + 7
    ensures (day - monday) / 7 == (Thursday(day) - first) / 7
  {
    var q, r := (day - monday) / 7, (day - monday) % 7;
    assert Weekday(day) == r;
    assert Thursday(day) - first == 7 * q + (monday + 3 - first);
  }

  /** The correction at the year ends, in terms of Thursdays. */
  lemma CorrectionFollowsThursday(day: int, year: int, before: int, own: int, next: int, f0: int, f1: int, f2: int)
    requires f1 <= f2
    requires (day - before) / 7 == (Thursday(day) - f0) / 7
    requires (day - own) / 7 == (Thursday(day) - f1) / 7
    requires (day - next) / 7 == (Thursday(day) - f2) / 7
    requires Thursday(day) >= f2 ==> (Thursday(day) - f1) / 7 >= 52 && (Thursday(day) - f2) / 7 == 0
    ensures var t := Thursday(day);
            CorrectedWeek(day, year, before, own, next) ==
            if t < f1 then IsoWeek(year - 1, (t - f0) / 7 + 1)
            else if t < f2 then IsoWeek(year, (t - f1) / 7 + 1)
            else IsoWeek(year + 1, (t - f2) / 7 + 1)
  {
    assert day >= next <==> (day - next) / 7 >= 0;
    assert Thursday(day) >= f2 <==> (Thursday(day) - f2) / 7 >= 0;
  }

  /** The three outcomes of the correction, for the calendar year of the day. */
  lemma CorrectedByThursday(day: int, y: int, f0: int, f1: int, f2: int)
    requires f0 == FirstDay(y - 1) && f1 == FirstDay(y) && f2 == FirstDay(y + 1) && f1 <= f2
    requires Thursday(day) >= f2 ==> (Thursday(day) - f1) / 7 >= 52 && (Thursday(day) - f2) / 7 == 0
    ensures var t := Thursday(day);
            CorrectedWeek(day, y, Week1Monday(y - 1), Week1Monday(y), Week1Monday(y + 1)) ==
            if t < f1 then IsoWeek(y - 1, (t - f0) / 7 + 1)
            else if t < f2 then IsoWeek(y, (t - f1) / 7 + 1)
            else IsoWeek(y + 1, (t - f2) / 7 + 1)
  {
    WeeksSinceWeek1(day, y - 1);
    WeeksSinceWeek1(day, y);
    WeeksSinceWeek1(day, y + 1);
    CorrectionFollowsThursday(day, y, Week1Monday(y - 1), Week1Monday(y), Week1Monday(y + 1), f0, f1, f2);
  }

  /** The rule of section 4.1.4 of ISO 8601:2004: a week belongs to the year of its Thursday and is counted from there. */
  lemma IsoCalendarFollowsThursday(day: int)
    ensures IsoCalendar(day) == IsoWeek(YearOf(Thursday(day)), (Thursday(day) - FirstDay(YearOf(Thursday(day)))) / 7 + 1)
  {
    var y := YearOf(day);
    IsoYear(day, y);
    CorrectedByThursday(day, y, FirstDay(y - 1), FirstDay(y), FirstDay(y + 1));
  }

  /** The Thursday of a day's week falls at most three days outside the day's own year. */
  lemma IsoYear(day: int, y: int)
    requires y == YearOf(day)
    ensures var t := Thursday(day);
            && YearOf(t) == (if t < FirstDay(y) then y - 1 else if t < FirstDay(y + 1) then y else y + 1)
            && FirstDay(y) <= FirstDay(y + 1)
            && (t >= FirstDay(y + 1) ==> (t - FirstDay(y)) / 7 >= 52 && (t - FirstDay(y + 1)) / 7 == 0)
  {
    var t := Thursday(day);
    assert day - 3 <= t <= day + 3;
    YearLength(y - 1);
    YearLength(y);
    YearLength(y + 1);
    YearIsUnique(t, if t < FirstDay(y) then y - 1 else if t < FirstDay(y + 1) then y else y + 1);
  }

  // ----- reset windows -----

  const RESET_WEEKDAY: int := 6
  const RESET_TIME: int := 23 * HOUR + 59 * MINUTE

  datatype Window = Window(startsAt: int, endsAt: int, name: IsoWeek)

  function WindowStart(now: int): int {
    var day := now / DAY;
    var sinceSunday := (Weekday(day) - RESET_WEEKDAY) % 7;
    var start := day * DAY + RESET_TIME - sinceSunday * DAY;
    if now < start then start - 7 * DAY else start
  }

  function CurrentWindow(now: int): Window {
    var start := WindowStart(now);
    Window(start, start + 7 * DAY, IsoCalendar(start / DAY))
  }

  /** A reset falls on a Sunday at 23:59. */
  predicate IsResetInstant(t: int) {
    t % DAY == RESET_TIME && Weekday(t / DAY) == RESET_WEEKDAY
  }

  lemma Timestamp(day: int, time: int)
    requires 0 <= time < DAY
    ensures (day * DAY + time) / DAY == day && (day * DAY + time) % DAY == time
  {
  }

  /** The Sunday on which the window of an instant opened. */
  function OpeningSunday(day: int, time: int): int {
    var sinceSunday := (Weekday(day) - RESET_WEEKDAY) % 7;
    if sinceSunday == 0 && time < RESET_TIME then day - 7 else day - sinceSunday
  }

  lemma OpensOnSunday(day: int, time: int)
    requires 0 <= time < DAY
    ensures var sunday := OpeningSunday(day, time);
            && Weekday(sunday) == RESET_WEEKDAY && sunday <= day <= sunday + 7
            && (day == sunday ==> time >= RESET_TIME) && (day == sunday + 7 ==> time < RESET_TIME)
            && WindowStart(day * DAY + time) == sunday * DAY + RESET_TIME
  {
    Timestamp(day, time);
    var since := (Weekday(day) - RESET_WEEKDAY) % 7;
    var start := day * DAY + RESET_TIME - since * DAY;
    if since > 0 {
      assert since * DAY >= DAY;
      assert start < day * DAY;
    }
  }

  /** Every instant lies in its own window, which runs from one reset to the next. */
  lemma WindowHoldsNow(now: int)
    ensures var w := CurrentWindow(now);
            && w.startsAt <= now < w.endsAt && w.endsAt == w.startsAt + 7 * DAY
            && IsResetInstant(w.startsAt)
  {
    var day, time := now / DAY, now % DAY;
    assert now == day * DAY + time;
    OpensOnSunday(day, time);
    Timestamp(OpeningSunday(day, time), RESET_TIME);
  }

  /** Reset instants are whole weeks apart. */
  lemma ResetsAreWeeksApart(s: int, t: int)
    requires IsResetInstant(s) && IsResetInstant(t) && -7 * DAY < t - s < 7 * DAY
    ensures s == t
  {
    var a, c := s / DAY, t / DAY;
    assert s == a * DAY + RESET_TIME && t == c * DAY + RESET_TIME;
    assert -7 < c - a < 7;
  }

  /** Windows tile time: an instant lies between two resets exactly when they bound its window. */
  lemma WindowsTile(now: int, other: int)
    ensures CurrentWindow(other).startsAt <= now < CurrentWindow(other).endsAt
       <==> CurrentWindow(now) == CurrentWindow(other)
  {
    WindowHoldsNow(now);
    WindowHoldsNow(other);
    var s, t := WindowStart(now), WindowStart(other);
    if t <= now < t + 7 * DAY {
      ResetsAreWeeksApart(s, t);
    }
  }

  /** Two instants share a window exactly when their windows carry the same ISO year and week, year ends included. */
  lemma NameIdentifiesWindow(now: int, other: int)
    ensures CurrentWindow(now).name == CurrentWindow(other).name <==> CurrentWindow(now) == CurrentWindow(other)
  {
    WindowHoldsNow(now);
    WindowHoldsNow(other);
    SameNameSameStart(WindowStart(now), WindowStart(other));
  }

  lemma SameNameSameStart(s: int, t: int)
    requires IsResetInstant(s) && IsResetInstant(t)
    ensures IsoCalendar(s / DAY) == IsoCalendar(t / DAY) ==> s == t
  {
    if IsoCalendar(s / DAY) == IsoCalendar(t / DAY) {
      SameNameSameSunday(s / DAY, t / DAY);
      SameDaySameInstant(s, t);
    }
  }

  lemma SameDaySameInstant(s: int, t: int)
    requires s / DAY == t / DAY && s % DAY == t % DAY
    ensures s == t
  {
    assert s == s / DAY * DAY + s % DAY && t == t / DAY * DAY + t % DAY;
  }

  lemma SameNameSameSunday(a: int, c: int)
    requires Weekday(a) == RESET_WEEKDAY && Weekday(c) == RESET_WEEKDAY && IsoCalendar(a) == IsoCalendar(c)
    ensures a == c
  {
    IsoCalendarFollowsThursday(a);
    IsoCalendarFollowsThursday(c);
    SameBlockSameThursday(a, c, FirstDay(YearOf(Thursday(a))));
  }

  lemma SameBlockSameThursday(a: int, c: int, first: int)
    requires Weekday(a) == RESET_WEEKDAY && Weekday(c) == RESET_WEEKDAY
    requires (Thursday(a) - first) / 7 == (Thursday(c) - first) / 7
    ensures a == c
  {
    assert -7 < a - c < 7;
    assert (a - c) % 7 == 0;
  }
}
