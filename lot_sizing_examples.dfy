/** The lot-sizing scenarios of `lot_sizing.rs`'s unit tests, stated on
    the model. Dates are day numbers with day 0 a Monday: 2025-11-01 is a
    Saturday, and the test dates 11/1, 11/3, 11/5 and 11/10 become days 5,
    7, 9 and 14. The tests plan on the default Monday-to-Friday calendar;
    the quantities do not depend on the calendar, so each scenario is
    stated for every calendar with a working weekday. */
module LotSizingExamples {
  import opened Wrappers
  import opened Config
  import opened Calendar
  import opened Netting
  import opened LotSizing

  /** Lot for lot: one order per positive row, 100 then 50. */
  lemma LotForLotExample(s: Schedule)
    requires HasWorkingWeekday(s)
    ensures var cfg := NewConfig("TEST-001", 5, Make);
            var rows := [NetRequirement(5, 100, 0, 0, 100), NetRequirement(9, 50, 0, 0, 50)];
            Plannable(cfg, s) &&
            var res := PlanOrders("TEST-001", rows, cfg, s, 0, 1);
            res.Success? && |res.value| == 2 && res.value[0].quantity == 100 && res.value[1].quantity == 50
  {
  }

  /** Fixed order quantity: a shortage of 150 with lots of 100 orders two
      lots. */
  lemma FixedOrderQuantityExample(s: Schedule)
    requires HasWorkingWeekday(s)
    ensures var cfg := NewConfig("TEST-002", 3, Buy).WithLotSizingRule(FixedOrderQuantity).WithFixedLotSize(100);
            var rows := [NetRequirement(5, 150, 0, 0, 150)];
            LotSizeUsable(cfg) && Plannable(cfg, s) &&
            var res := PlanOrders("TEST-002", rows, cfg, s, 0, 1);
            res.Success? && |res.value| == 1 && res.value[0].quantity == 200
  {
    var cfg := NewConfig("TEST-002", 3, Buy).WithLotSizingRule(FixedOrderQuantity).WithFixedLotSize(100);
    assert Batches(150, 100) == 2 by {
      CeilDivBounds(150, 100);
    }
  }

  /** Period order quantity: 11/1 and 11/3 fall in one seven-day period
      (50 + 30), 11/10 starts the next (40). */
  lemma PeriodOrderQuantityExample(s: Schedule)
    requires HasWorkingWeekday(s)
    ensures var cfg := NewConfig("TEST-003", 7, Make).WithLotSizingRule(PeriodOrderQuantity);
            var rows := [NetRequirement(5, 0, 0, 0, 50), NetRequirement(7, 0, 0, 0, 30), NetRequirement(14, 0, 0, 0, 40)];
            Plannable(cfg, s) &&
            var res := PlanOrders("TEST-003", rows, cfg, s, 0, 1);
            res.Success? && |res.value| == 2 && res.value[0].quantity == 80 && res.value[1].quantity == 40
  {
    var rows := [NetRequirement(5, 0, 0, 0, 50), NetRequirement(7, 0, 0, 0, 30), NetRequirement(14, 0, 0, 0, 40)];
    assert PeriodEnd(rows, 0) == 2;
    assert PeriodEnd(rows, 2) == 3;
  }

  /** Min-max: the balance falls to -100, below the minimum 50, so the
      order asks for 300 and the maximum 200 caps it. */
  lemma MinMaxExample(s: Schedule)
    requires HasWorkingWeekday(s)
    ensures var cfg := NewConfig("TEST-004", 2, Buy).WithLotSizingRule(MinMax).WithMinimumOrderQty(50).WithMaximumOrderQty(200);
            var rows := [NetRequirement(5, 100, 0, 30, 0)];
            Plannable(cfg, s) &&
            var res := PlanOrders("TEST-004", rows, cfg, s, 0, 1);
            res.Success? && |res.value| == 1 && res.value[0].quantity == 200
  {
  }

  /** Quantity constraints: 123 stays above the minimum 50, rounds up to
      the multiple 125, and stays below the maximum 500. */
  lemma OrderQuantityConstraintsExample(s: Schedule)
    requires HasWorkingWeekday(s)
    ensures var cfg := NewConfig("TEST-005", 3, Make).WithMinimumOrderQty(50).WithMaximumOrderQty(500).WithOrderMultiple(25);
            var rows := [NetRequirement(5, 0, 0, 0, 123)];
            Plannable(cfg, s) &&
            var res := PlanOrders("TEST-005", rows, cfg, s, 0, 1);
            res.Success? && |res.value| == 1 && res.value[0].quantity == 125
  {
  }
}
