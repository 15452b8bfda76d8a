/** Lead-time offsetting (`LeadTimeCalculator`): order and delivery dates
    are working-day offsets on a `WorkCalendar`. */
module LeadTime {
  import opened Dates
  import opened Calendar

  /** `calculate_order_date`: `lead_time_days` working days before the
      required date. When the required date is itself a working day, the
      delivery date of the order placed then is the required date again;
      on a calendar where every day works, the order date is plain
      subtraction. */
  method CalculateOrderDate(requiredDate: Date, leadTimeDays: nat, calendar: WorkCalendar) returns (orderDate: Date)
    requires leadTimeDays == 0 || HasWorkingWeekday(calendar.Data())
    ensures orderDate == ShiftBack(calendar.Data(), requiredDate, leadTimeDays)
    ensures leadTimeDays > 0 ==>
      orderDate < requiredDate && IsWorking(calendar.Data(), orderDate)
      && CountIn(calendar.Data(), orderDate, requiredDate) == leadTimeDays
    ensures leadTimeDays == 0 || IsWorking(calendar.Data(), requiredDate) ==>
      ShiftForward(calendar.Data(), orderDate, leadTimeDays) == requiredDate
    ensures AllWorking(calendar.Data()) ==> orderDate == requiredDate - leadTimeDays
  {
    orderDate := calendar.SubtractWorkingDays(requiredDate, leadTimeDays);
    if leadTimeDays == 0 || IsWorking(calendar.Data(), requiredDate) {
      BackThenForward(calendar.Data(), requiredDate, leadTimeDays);
    }
    if AllWorking(calendar.Data()) {
      AllWorkingShift(calendar.Data(), requiredDate, leadTimeDays);
    }
  }

  /** `calculate_delivery_date`: `lead_time_days` working days after the
      order date; stepping back again from it returns a working order
      date. */
  method CalculateDeliveryDate(orderDate: Date, leadTimeDays: nat, calendar: WorkCalendar) returns (deliveryDate: Date)
    requires leadTimeDays == 0 || HasWorkingWeekday(calendar.Data())
    ensures deliveryDate == ShiftForward(calendar.Data(), orderDate, leadTimeDays)
    ensures leadTimeDays > 0 ==>
      deliveryDate > orderDate && IsWorking(calendar.Data(), deliveryDate)
      && CountIn(calendar.Data(), orderDate + 1, deliveryDate + 1) == leadTimeDays
    ensures leadTimeDays == 0 || IsWorking(calendar.Data(), orderDate) ==>
      ShiftBack(calendar.Data(), deliveryDate, leadTimeDays) == orderDate
    ensures AllWorking(calendar.Data()) ==> deliveryDate == orderDate + leadTimeDays
  {
    deliveryDate := calendar.AddWorkingDays(orderDate, leadTimeDays);
    if leadTimeDays == 0 || IsWorking(calendar.Data(), orderDate) {
      ForwardThenBack(calendar.Data(), orderDate, leadTimeDays);
    }
    if AllWorking(calendar.Data()) {
      AllWorkingShift(calendar.Data(), orderDate, leadTimeDays);
    }
  }

  /** `working_days_between`: the calendar's count of working days in
      (start, end], never more than the number of days in that range. */
  method WorkingDaysBetween(start: Date, end: Date, calendar: WorkCalendar) returns (count: nat)
    ensures count == Between(calendar.Data(), start, end)
    ensures start >= end ==> count == 0
    ensures count <= (if start < end then end - start else 0)
  {
    count := calendar.WorkingDaysBetween(start, end);
    CountAtMostLength(calendar.Data(), start + 1, end + 1);
  }

  /** A range holds no more working days than days. */
  lemma {:induction false} CountAtMostLength(s: Schedule, a: Date, b: Date)
    ensures CountIn(s, a, b) <= (if a < b then b - a else 0)
    decreases b - a
  {
    if a < b {
      CountAtMostLength(s, a, b - 1);
    }
  }

  // ------------------------------------------------------------ test scenarios

  /** The Monday-to-Friday calendar and the Monday-to-Saturday one. */
  function Weekdays(): Schedule { Schedule(MondayToFriday, []) }
  function SixDays(): Schedule { Schedule([true, true, true, true, true, true, false], []) }

  /** 24/7 calendar: 2025-11-01 (day 5) minus five days is 2025-10-27
      (day 0), and five days later is 2025-11-01 again. */
  lemma LeadTime247Example()
    ensures HasWorkingWeekday(Schedule(AllWeek, []))
    ensures ShiftBack(Schedule(AllWeek, []), 5, 5) == 0
    ensures ShiftForward(Schedule(AllWeek, []), 0, 5) == 5
  {
    var s := Schedule(AllWeek, []);
    assert forall i :: 0 <= i < 7 ==> s.workingDays[i];
    AllWorkingShift(s, 5, 5);
    AllWorkingShift(s, 0, 5);
  }

  /** Weekday calendar: five working days before Monday 2025-11-03 (day 7)
      is the previous Monday, and the delivery date computed from it is
      day 7 again. */
  lemma LeadTimeWeekdayExample()
    ensures HasWorkingWeekday(Weekdays())
    ensures ShiftBack(Weekdays(), 7, 5) == 0
    ensures ShiftForward(Weekdays(), ShiftBack(Weekdays(), 7, 5), 5) == 7
  {
    var s := Weekdays();
    assert s.workingDays[0];
    assert IsWorking(s, 0) && IsWorking(s, 7);
    assert CountIn(s, 0, 7) == 5;
    BackUnique(s, 7, 5, ShiftBack(s, 7, 5), 0);
    BackThenForward(s, 7, 5);
  }

  /** Monday-to-Saturday calendar: six working days before Monday day 7,
      skipping the Sunday, is Monday day 0, and the round trip returns to
      day 7. */
  lemma LeadTimeSixDayExample()
    ensures HasWorkingWeekday(SixDays())
    ensures ShiftBack(SixDays(), 7, 6) == 0
    ensures ShiftForward(SixDays(), ShiftBack(SixDays(), 7, 6), 6) == 7
  {
    var s := SixDays();
    assert s.workingDays[0];
    assert IsWorking(s, 0) && IsWorking(s, 7);
    assert CountIn(s, 0, 7) == 6;
    BackUnique(s, 7, 6, ShiftBack(s, 7, 6), 0);
    BackThenForward(s, 7, 6);
  }
}
