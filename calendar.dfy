/** The working calendar (`WorkCalendar`): a weekday mask plus a list of
    holidays, and the working-day arithmetic built on it. */
module Calendar {
  import opened Dates

  /** `[bool; 7]`, indexed by weekday, 0 = Monday. */
  type WeekMask = s: seq<bool> | |s| == 7 witness [false, false, false, false, false, false, false]

  const MondayToFriday: WeekMask := [true, true, true, true, true, false, false]
  const AllWeek: WeekMask := [true, true, true, true, true, true, true]

  /** The part of a calendar that decides which days are working days. */
  datatype Schedule = Schedule(workingDays: WeekMask, holidays: seq<Date>)

  /** A holiday is never a working day; any other day is one exactly when
      its weekday is marked in the mask. */
  predicate IsWorking(s: Schedule, d: Date) {
    d !in s.holidays && s.workingDays[Weekday(d)]
  }

  /** Some weekday is marked working; without one, stepping by working
      days never ends. */
  predicate HasWorkingWeekday(s: Schedule) {
    exists i :: 0 <= i < 7 && s.workingDays[i]
  }

  /** Every day is a working day (the 24/7 calendar without holidays). */
  predicate AllWorking(s: Schedule) {
    s.holidays == [] && forall i :: 0 <= i < 7 ==> s.workingDays[i]
  }

  /** Number of working days in the half-open range [a, b). */
  function CountIn(s: Schedule, a: Date, b: Date): nat
    decreases b - a
  {
    if b <= a then 0 else CountIn(s, a, b - 1) + (if IsWorking(s, b - 1) then 1 else 0)
  }

  lemma {:induction false} CountSplit(s: Schedule, a: Date, b: Date, c: Date)
    requires a <= b <= c
    ensures CountIn(s, a, c) == CountIn(s, a, b) + CountIn(s, b, c)
    decreases c - b
  {
    if b < c {
      CountSplit(s, a, b, c - 1);
    }
  }

  lemma CountPeel(s: Schedule, a: Date, b: Date)
    requires a < b
    ensures CountIn(s, a, b) == (if IsWorking(s, a) then 1 else 0) + CountIn(s, a + 1, b)
  {
    CountSplit(s, a, a + 1, b);
  }

  lemma CountHasWorkingDay(s: Schedule, a: Date, b: Date, x: Date)
    requires a <= x < b && IsWorking(s, x)
    ensures CountIn(s, a, b) >= 1
  {
    CountSplit(s, a, x, b);
    CountPeel(s, x, b);
  }

  /** `subtract_working_days` from `c`, knowing that at least `n` working
      days lie in [lo, c): step back one day at a time, counting the
      working days passed. */
  function Back(s: Schedule, c: Date, n: nat, lo: Date): (r: Date)
    requires lo <= c && n <= CountIn(s, lo, c)
    ensures lo <= r <= c
    ensures CountIn(s, r, c) == n
    ensures n > 0 ==> r < c && IsWorking(s, r)
    decreases c - lo
  {
    if n == 0 then c
    else if IsWorking(s, c - 1) then Back(s, c - 1, n - 1, lo)
    else Back(s, c - 1, n, lo)
  }

  /** `add_working_days` from `c`, knowing that at least `n` working days
      lie in (c, hi]. */
  function Forward(s: Schedule, c: Date, n: nat, hi: Date): (r: Date)
    requires c <= hi && n <= CountIn(s, c + 1, hi + 1)
    ensures c <= r <= hi
    ensures CountIn(s, c + 1, r + 1) == n
    ensures n > 0 ==> r > c && IsWorking(s, r)
    decreases hi - c
  {
    if n == 0 then c
    else
      CountPeel(s, c + 1, hi + 1);
      var r := if IsWorking(s, c + 1) then Forward(s, c + 1, n - 1, hi) else Forward(s, c + 1, n, hi);
      CountPeel(s, c + 1, r + 1);
      r
  }

  function MinDate(h: seq<Date>, d: Date): (m: Date)
    ensures m <= d && forall x :: x in h ==> m <= x
  {
    if h == [] then d
    else
      assert h == [h[0]] + h[1..];
      var t := MinDate(h[1..], d);
      if h[0] < t then h[0] else t
  }

  function MaxDate(h: seq<Date>, d: Date): (m: Date)
    ensures m >= d && forall x :: x in h ==> x <= m
  {
    if h == [] then d
    else
      assert h == [h[0]] + h[1..];
      var t := MaxDate(h[1..], d);
      if h[0] > t then h[0] else t
  }

  /** A week free of holidays holds a working day. */
  lemma WeekHasWorkingDay(s: Schedule, a: Date)
    requires HasWorkingWeekday(s)
    requires forall x :: x in s.holidays ==> x < a || a + 7 <= x
    ensures CountIn(s, a, a + 7) >= 1
  {
    var i :| 0 <= i < 7 && s.workingDays[i];
    var q := (i - a) / 7;
    var x := i - 7 * q;
    assert a <= x < a + 7;
    assert Weekday(x) == i;
    CountHasWorkingDay(s, a, a + 7, x);
  }

  lemma {:induction false} BackBound(s: Schedule, m: Date, k: nat)
    requires k == 0 || HasWorkingWeekday(s)
    requires forall x :: x in s.holidays ==> m <= x
    ensures CountIn(s, m - 7 * k, m) >= k
  {
    if k > 0 {
      BackBound(s, m, k - 1);
      WeekHasWorkingDay(s, m - 7 * k);
      CountSplit(s, m - 7 * k, m - 7 * (k - 1), m);
    }
  }

  lemma {:induction false} ForwardBound(s: Schedule, m: Date, k: nat)
    requires k == 0 || HasWorkingWeekday(s)
    requires forall x :: x in s.holidays ==> x <= m
    ensures CountIn(s, m + 1, m + 1 + 7 * k) >= k
  {
    if k > 0 {
      ForwardBound(s, m, k - 1);
      WeekHasWorkingDay(s, m + 1 + 7 * (k - 1));
      CountSplit(s, m + 1, m + 1 + 7 * (k - 1), m + 1 + 7 * k);
    }
  }

  /** A date early enough that [lo, d) holds n working days. */
  function LowerBound(s: Schedule, d: Date, n: nat): (lo: Date)
    requires n == 0 || HasWorkingWeekday(s)
    ensures lo <= d && CountIn(s, lo, d) >= n
  {
    var m := MinDate(s.holidays, d);
    BackBound(s, m, n);
    CountSplit(s, m - 7 * n, m, d);
    m - 7 * n
  }

  /** A date late enough that (d, hi] holds n working days. */
  function UpperBound(s: Schedule, d: Date, n: nat): (hi: Date)
    requires n == 0 || HasWorkingWeekday(s)
    ensures d <= hi && CountIn(s, d + 1, hi + 1) >= n
  {
    var m := MaxDate(s.holidays, d);
    ForwardBound(s, m, n);
    CountSplit(s, d + 1, m + 1, m + 1 + 7 * n);
    m + 7 * n
  }

  /** The date `subtract_working_days(d, n)` returns. */
  function ShiftBack(s: Schedule, d: Date, n: nat): (r: Date)
    requires n == 0 || HasWorkingWeekday(s)
    ensures n == 0 ==> r == d
    ensures n > 0 ==> r < d && IsWorking(s, r) && CountIn(s, r, d) == n
  {
    Back(s, d, n, LowerBound(s, d, n))
  }

  /** The date `add_working_days(d, n)` returns. */
  function ShiftForward(s: Schedule, d: Date, n: nat): (r: Date)
    requires n == 0 || HasWorkingWeekday(s)
    ensures n == 0 ==> r == d
    ensures n > 0 ==> r > d && IsWorking(s, r) && CountIn(s, d + 1, r + 1) == n
  {
    Forward(s, d, n, UpperBound(s, d, n))
  }

  /** The count `working_days_between(a, b)` returns: working days in
      (a, b], and 0 when a >= b. */
  function Between(s: Schedule, a: Date, b: Date): nat {
    if a >= b then 0 else CountIn(s, a + 1, b + 1)
  }

  /** Monday to the next Monday (days 0 and 7) on the Monday-to-Friday
      calendar: Tuesday to Friday and the second Monday, five working
      days. */
  lemma WorkingDaysBetweenExample()
    ensures Between(Schedule(MondayToFriday, []), 0, 7) == 5
  {
    assert CountIn(Schedule(MondayToFriday, []), 1, 8) == 5;
  }

  /** Only one working day r before d has exactly n working days in
      [r, d): the result of stepping back does not depend on how far back
      the search was allowed to go. */
  lemma BackUnique(s: Schedule, d: Date, n: nat, r1: Date, r2: Date)
    requires n > 0
    requires r1 <= d && IsWorking(s, r1) && CountIn(s, r1, d) == n
    requires r2 <= d && IsWorking(s, r2) && CountIn(s, r2, d) == n
    ensures r1 == r2
  {
    if r1 < r2 {
      CountSplit(s, r1, r2, d);
      CountHasWorkingDay(s, r1, r2, r1);
    } else if r2 < r1 {
      CountSplit(s, r2, r1, d);
      CountHasWorkingDay(s, r2, r1, r2);
    }
  }

  lemma ForwardUnique(s: Schedule, d: Date, n: nat, r1: Date, r2: Date)
    requires n > 0
    requires d <= r1 && IsWorking(s, r1) && CountIn(s, d + 1, r1 + 1) == n
    requires d <= r2 && IsWorking(s, r2) && CountIn(s, d + 1, r2 + 1) == n
    ensures r1 == r2
  {
    if r1 < r2 {
      CountSplit(s, d + 1, r1 + 1, r2 + 1);
      CountHasWorkingDay(s, r1 + 1, r2 + 1, r2);
    } else if r2 < r1 {
      CountSplit(s, d + 1, r2 + 1, r1 + 1);
      CountHasWorkingDay(s, r2 + 1, r1 + 1, r1);
    }
  }

  /** Stepping back n working days from a working day and then forward n
      working days returns to the start. */
  lemma BackThenForward(s: Schedule, d: Date, n: nat)
    requires n == 0 || HasWorkingWeekday(s)
    requires n == 0 || IsWorking(s, d)
    ensures ShiftForward(s, ShiftBack(s, d, n), n) == d
  {
    if n > 0 {
      var r := ShiftBack(s, d, n);
      var f := ShiftForward(s, r, n);
      CountPeel(s, r, d + 1);
      CountSplit(s, r, d, d + 1);
      ForwardUnique(s, r, n, f, d);
    }
  }

  /** Stepping forward n working days and then back n working days returns
      to the start when the start is a working day. */
  lemma ForwardThenBack(s: Schedule, d: Date, n: nat)
    requires n == 0 || HasWorkingWeekday(s)
    requires n == 0 || IsWorking(s, d)
    ensures ShiftBack(s, ShiftForward(s, d, n), n) == d
  {
    if n > 0 {
      var f := ShiftForward(s, d, n);
      var r := ShiftBack(s, f, n);
      CountPeel(s, d, f + 1);
      CountSplit(s, d, f, f + 1);
      BackUnique(s, f, n, r, d);
    }
  }

  /** Counting the working days between d and the date n working days
      after d gives n back. */
  lemma BetweenForward(s: Schedule, d: Date, n: nat)
    requires n == 0 || HasWorkingWeekday(s)
    ensures Between(s, d, ShiftForward(s, d, n)) == n
  {
  }

  lemma {:induction false} CountAllWorking(s: Schedule, a: Date, b: Date)
    requires AllWorking(s)
    ensures CountIn(s, a, b) == if b <= a then 0 else b - a
    decreases b - a
  {
    if a < b {
      CountAllWorking(s, a, b - 1);
      assert IsWorking(s, b - 1);
    }
  }

  /** On a calendar where every day works, working-day offsets are plain
      calendar-day offsets. */
  lemma AllWorkingShift(s: Schedule, d: Date, n: nat)
    requires AllWorking(s)
    ensures HasWorkingWeekday(s)
    ensures ShiftBack(s, d, n) == d - n
    ensures ShiftForward(s, d, n) == d + n
    ensures Between(s, d - n, d) == n
  {
    assert s.workingDays[0];
    CountAllWorking(s, d - n, d);
    CountAllWorking(s, d + 1, d + n + 1);
    CountAllWorking(s, d - n + 1, d + 1);
    if n > 0 {
      assert IsWorking(s, d - n) && IsWorking(s, d + n);
      BackUnique(s, d, n, ShiftBack(s, d, n), d - n);
      ForwardUnique(s, d, n, ShiftForward(s, d, n), d + n);
    }
  }

  /** `WorkCalendar`: the weekday mask, the holiday list and the id. */
  class WorkCalendar {
    var workingDays: WeekMask
    var holidays: seq<Date>
    var calendarId: string

    function Data(): Schedule
      reads this
    {
      Schedule(workingDays, holidays)
    }

    /** `new`: Monday to Friday working, no holidays. */
    constructor (calendarId: string)
      ensures workingDays == MondayToFriday && holidays == [] && this.calendarId == calendarId
    {
      workingDays := MondayToFriday;
      holidays := [];
      this.calendarId := calendarId;
    }

    /** `new_24_7`: every weekday working, no holidays. */
    constructor New247(calendarId: string)
      ensures workingDays == AllWeek && holidays == [] && this.calendarId == calendarId
      ensures AllWorking(Data())
    {
      workingDays := AllWeek;
      holidays := [];
      this.calendarId := calendarId;
    }

    /** `Default`: `new("DEFAULT")`. */
    constructor Default()
      ensures workingDays == MondayToFriday && holidays == [] && calendarId == "DEFAULT"
    {
      workingDays := MondayToFriday;
      holidays := [];
      calendarId := "DEFAULT";
    }

    /** `fallback_calendar`: the 24/7 calendar "FALLBACK-24/7". */
    constructor Fallback()
      ensures AllWorking(Data()) && calendarId == "FALLBACK-24/7"
    {
      workingDays := AllWeek;
      holidays := [];
      calendarId := "FALLBACK-24/7";
    }

    /** `from_shift_data`: the first seven flags of the list become the
        mask; weekdays the list does not reach stay non-working. */
    constructor FromShiftData(calendarId: string, workingDaysList: seq<bool>, holidays: seq<Date>)
      ensures forall i :: 0 <= i < 7 ==> workingDays[i] == (i < |workingDaysList| && workingDaysList[i])
      ensures this.holidays == holidays && this.calendarId == calendarId
    {
      var mask: WeekMask := [false, false, false, false, false, false, false];
      var i := 0;
      while i < |workingDaysList|
        invariant 0 <= i <= |workingDaysList|
        invariant forall k :: 0 <= k < 7 ==> mask[k] == (k < i && k < |workingDaysList| && workingDaysList[k])
      {
        if i < 7 {
          mask := mask[i := workingDaysList[i]];
        }
        i := i + 1;
      }
      workingDays := mask;
      this.holidays := holidays;
      this.calendarId := calendarId;
    }

    /** `with_working_days`: replaces the mask only. */
    method WithWorkingDays(mask: WeekMask)
      modifies this
      ensures workingDays == mask
      ensures holidays == old(holidays) && calendarId == old(calendarId)
    {
      workingDays := mask;
    }

    /** `with_holidays`: replaces the holiday list only. */
    method WithHolidays(h: seq<Date>)
      modifies this
      ensures holidays == h
      ensures workingDays == old(workingDays) && calendarId == old(calendarId)
    {
      holidays := h;
    }

    /** `add_holiday`: a date already listed changes nothing; otherwise it
        is appended and the whole list sorted. */
    method AddHoliday(d: Date)
      modifies this`holidays
      ensures old(d in holidays) ==> holidays == old(holidays)
      ensures old(d !in holidays) ==> holidays == Sort(old(holidays) + [d])
      ensures d in holidays
      ensures StrictlyAscending(old(holidays)) ==> StrictlyAscending(holidays)
      ensures forall x :: x in holidays <==> x in old(holidays) || x == d
    {
      if d !in holidays {
        var h := holidays + [d];
        assert forall x :: x in h <==> x in multiset(h);
        assert forall x :: x in Sort(h) <==> x in multiset(Sort(h));
        if StrictlyAscending(holidays) {
          InsertFresh(holidays, d);
        }
        holidays := Sort(h);
      }
    }

    /** `is_working_day`: a linear search of the holiday list, then the
        weekday mask. */
    method IsWorkingDay(d: Date) returns (b: bool)
      ensures b == IsWorking(Data(), d)
    {
      var i := 0;
      while i < |holidays|
        invariant 0 <= i <= |holidays|
        invariant d !in holidays[..i]
      {
        if holidays[i] == d {
          return false;
        }
        i := i + 1;
      }
      assert holidays[..i] == holidays;
      b := workingDays[Weekday(d)];
    }

    /** `add_working_days`: steps forward a day at a time until `days`
        working days have been passed. */
    method AddWorkingDays(start: Date, days: nat) returns (r: Date)
      requires days == 0 || HasWorkingWeekday(Data())
      ensures r == ShiftForward(Data(), start, days)
    {
      ghost var hi := UpperBound(Data(), start, days);
      var current := start;
      var remaining: nat := days;
      while remaining > 0
        invariant start <= current <= hi
        invariant remaining <= CountIn(Data(), current + 1, hi + 1)
        invariant Forward(Data(), current, remaining, hi) == Forward(Data(), start, days, hi)
        decreases hi - current
      {
        CountPeel(Data(), current + 1, hi + 1);
        current := current + 1;
        var working := IsWorkingDay(current);
        if working {
          remaining := remaining - 1;
        }
      }
      r := current;
    }

    /** `subtract_working_days`: steps back a day at a time until `days`
        working days have been passed. */
    method SubtractWorkingDays(start: Date, days: nat) returns (r: Date)
      requires days == 0 || HasWorkingWeekday(Data())
      ensures r == ShiftBack(Data(), start, days)
    {
      ghost var lo := LowerBound(Data(), start, days);
      var current := start;
      var remaining: nat := days;
      while remaining > 0
        invariant lo <= current <= start
        invariant remaining <= CountIn(Data(), lo, current)
        invariant Back(Data(), current, remaining, lo) == Back(Data(), start, days, lo)
        decreases current - lo
      {
        current := current - 1;
        var working := IsWorkingDay(current);
        if working {
          remaining := remaining - 1;
        }
      }
      r := current;
    }

    /** `working_days_between`: counts the working days in (start, end]. */
    method WorkingDaysBetween(start: Date, end: Date) returns (count: nat)
      ensures count == Between(Data(), start, end)
    {
      count := 0;
      var current := start;
      while current < end
        invariant start < end ==> start <= current <= end
        invariant start >= end ==> current == start
        invariant count == CountIn(Data(), start + 1, current + 1)
      {
        current := current + 1;
        var working := IsWorkingDay(current);
        if working {
          count := count + 1;
        }
      }
    }

    /** `next_working_day`: one working day forward. */
    method NextWorkingDay(d: Date) returns (r: Date)
      requires HasWorkingWeekday(Data())
      ensures r > d && IsWorking(Data(), r)
      ensures forall x :: d < x < r ==> !IsWorking(Data(), x)
    {
      r := AddWorkingDays(d, 1);
      forall x | d < x < r ensures !IsWorking(Data(), x) {
        if IsWorking(Data(), x) {
          CountSplit(Data(), d + 1, x + 1, r + 1);
          CountHasWorkingDay(Data(), d + 1, x + 1, x);
        }
      }
    }

    /** `previous_working_day`: one working day back. */
    method PreviousWorkingDay(d: Date) returns (r: Date)
      requires HasWorkingWeekday(Data())
      ensures r < d && IsWorking(Data(), r)
      ensures forall x :: r < x < d ==> !IsWorking(Data(), x)
    {
      r := SubtractWorkingDays(d, 1);
      forall x | r < x < d ensures !IsWorking(Data(), x) {
        if IsWorking(Data(), x) {
          CountSplit(Data(), r, x, d);
          CountHasWorkingDay(Data(), x, d, x);
          CountHasWorkingDay(Data(), r, x, r);
        }
      }
    }
  }
}
