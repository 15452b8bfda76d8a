# MRP calculation engine in Dafny

This project models the sequential Material Requirements Planning (MRP)
engine of the `mrp-calc` crate, together with the `mrp-core` value types it
uses and the `DirtyTracker` of `mrp-cache`. Here is how one run proceeds:

- Independent demand is grouped by component.
- A worklist of components is processed, each at most once:
  - A component's demands and receipts are netted against its on-hand
    inventory over its own date buckets.
  - The net requirements are turned into planned orders by one of four
    lot-sizing rules. Order dates are offset by the lead time on a working
    calendar.
  - Every planned order is exploded through the bill of materials into
    dependent demand for its children, which are queued in turn.
- Finally each planned order is pegged to the demands it covers.

Modelling choices:

- **Dates** are day numbers. Day 0 is a Monday and the weekday is the day
  modulo 7.
- **Quantities** (`rust_decimal::Decimal`) are unbounded integers.
- **Identifiers** (`Uuid::new_v4`) are natural numbers drawn from a counter
  that the operations thread through (`firstId`, `nextId`).
- **The bill of materials** is a map from a component to its
  `(child, quantity per)` lines.
- **Pure code** becomes datatypes, functions and lemmas. This covers the
  configuration, demand, supply and planned-order values, `is_working_day`
  and lead-time offsetting.
- **Code that mutates state** keeps its form:
  - `WorkCalendar`, `Inventory`, `DirtyTracker`, `MrpResult` and
    `MrpCalculator` are classes.
  - Loops (netting, the four lot-sizing rules, calendar stepping, bucketing,
    pegging, grouping, BOM explosion and the worklist) are methods with loop
    invariants.
  - Most such methods are proved equal to a recursive specification
    function, and the properties the source promises are proved about that
    function.
  - The worklist of `calculate` is proved against a ghost trace of the
    components it planned (`Traced`). Each step of the trace is the
    component's plan for its independent demand plus the dependent demand
    that earlier steps exploded into it. A loop invariant (`Worklist`)
    relates the queue, the processed set and the dependent demand to that
    trace. A second invariant (`Fifo`) keeps the queue first-in
    first-out. Each step also records the children it appended to the
    queue, so the trace determines every component the run ever queued,
    in queue order (`Enqueued`): the sorted list, then each step's
    children. The queue is what is left of that sequence once the
    processed components are taken off its front. Each step queued exactly
    the children of its explosion that had never been queued
    (`QueuedFresh`), in any order among siblings, and the steps plan their
    components in the order those were first queued (`InQueueOrder`). In
    particular the sorted components are planned first and in their
    order (`SortedFirst`).

Modules, one file each:

| file | module | source |
|---|---|---|
| `wrappers.dfy` | `Wrappers` | `Option`/`Result` used by every module |
| `mrp_core.dfy` | `MrpCore` | shared types, `MrpError` |
| `dates.dfy` | `Dates` | weekday, sorting and de-duplication of date sequences |
| `demands.dfy` | `Demands` | `crates/mrp-core/src/demand.rs` |
| `supplies.dfy` | `Supplies` | `crates/mrp-core/src/supply.rs` |
| `plans.dfy` | `Plans` | `crates/mrp-core/src/plan.rs` |
| `config.dfy` | `Config` | `crates/mrp-core/src/config.rs` |
| `calendar.dfy` | `Calendar` | `crates/mrp-core/src/calendar.rs` |
| `inventories.dfy` | `Inventories` | `crates/mrp-core/src/inventory.rs` |
| `dirty_tracking.dfy` | `DirtyTracking` | `crates/mrp-cache/src/dirty_tracking.rs` |
| `mrp_results.dfy` | `MrpResults` | `crates/mrp-calc/src/lib.rs` |
| `bucketing.dfy` | `Bucketing` | `crates/mrp-calc/src/bucketing.rs` |
| `lead_time.dfy` | `LeadTime` | `crates/mrp-calc/src/lead_time.rs` |
| `netting.dfy` | `Netting` | `crates/mrp-calc/src/netting.rs` |
| `lot_sizing.dfy`, `lot_sizing_examples.dfy` | `LotSizing`, `LotSizingExamples` | `crates/mrp-calc/src/lot_sizing.rs` |
| `pegging.dfy` | `Pegging` | `crates/mrp-calc/src/pegging.rs` |
| `calculator.dfy`, `calculator_examples.dfy` | `Calculator`, `CalculatorExamples` | `crates/mrp-calc/src/calculator.rs` |

## Model

| member | source | states |
|---|---|---|
| MrpCore.NatToString | crates/mrp-calc/src/calculator.rs:367 | the decimal rendering of an order id used in a dependent demand's `source_ref` is a non-empty string of digits |
| Dates.Sort | crates/mrp-calc/src/bucketing.rs:44 | sorting yields an ascending permutation of the dates |
| Dates.Normalize | crates/mrp-calc/src/bucketing.rs:44-45 | sort followed by dedup yields a strictly ascending sequence holding exactly the input's dates |
| Dates.NormalizeIsSortDedup | crates/mrp-calc/src/bucketing.rs:44-45 | the normal form equals sorting followed by removing adjacent duplicates, as `sort` then `dedup` do |
| Dates.NormalizeIdempotent | crates/mrp-calc/src/bucketing.rs:84-87 | sorting and de-duplicating an already normalised sequence changes nothing |
| Dates.AscendingUnique | crates/mrp-calc/src/bucketing.rs:43-48 | two strictly ascending sequences with the same members are equal, so the buckets are determined by their set of dates |
| Dates.InsertFresh | crates/mrp-core/src/calendar.rs:52-57 | appending a new date to a strictly ascending holiday list and sorting keeps it strictly ascending and adds exactly that date |
| Dates.SortDistinct | crates/mrp-calc/src/calculator.rs:400-416 | sorting a duplicate-free sequence (the drained `HashSet`) gives a strictly ascending sequence of the same dates |
| Demands.NewDemand | crates/mrp-core/src/demand.rs:51-67 | a new demand stores its arguments, has priority 5 and no source reference or plant |
| Demands.Demand.WithSourceRef | crates/mrp-core/src/demand.rs:70-73 | sets the source reference and changes no other field |
| Demands.Demand.WithPriority | crates/mrp-core/src/demand.rs:76-79 | stores `min(p, 10)`, so the priority never exceeds 10, and changes no other field |
| Demands.Demand.WithPlantId | crates/mrp-core/src/demand.rs:82-85 | sets the plant and changes no other field |
| Demands.Demand.IsIndependent | crates/mrp-core/src/demand.rs:88-93 | holds exactly for sales-order, forecast and safety-stock demand, that is for every type except `Dependent` |
| Demands.Demand.IsDependent | crates/mrp-core/src/demand.rs:96-98 | holds exactly when the demand is not independent, so exactly one of the two predicates holds |
| Supplies.NewSupply | crates/mrp-core/src/supply.rs:50-65 | a new supply stores its arguments, is not firm, has no source reference, and is adjustable exactly when it is a planned order |
| Supplies.Supply.WithSourceRef | crates/mrp-core/src/supply.rs:68-71 | sets the source reference and changes no other field |
| Supplies.Supply.AsFirm | crates/mrp-core/src/supply.rs:74-77 | sets `is_firm`, changes no other field, and the result is never adjustable |
| Supplies.Supply.IsPlanned | crates/mrp-core/src/supply.rs:80-82 | holds exactly for a `PlannedOrder` supply |
| Supplies.Supply.IsAdjustable | crates/mrp-core/src/supply.rs:85-87 | holds exactly for a planned supply that is not firm |
| Plans.NewPlannedOrder | crates/mrp-core/src/plan.rs:49-66 | a new order stores its arguments, has no pegging and no source id, and its lead time is required minus order date |
| Plans.PlannedOrder.WithSourceId | crates/mrp-core/src/plan.rs:69-72 | sets the source id and changes no other field |
| Plans.PlannedOrder.WithPegging | crates/mrp-core/src/plan.rs:75-78 | replaces the pegging list and changes no other field |
| Plans.PlannedOrder.AddPegging | crates/mrp-core/src/plan.rs:81-83 | appends exactly one record at the end, keeping the earlier records and every other field |
| Plans.PlannedOrder.LeadTimeDays | crates/mrp-core/src/plan.rs:86-88 | the order date plus the lead time is the required date |
| Plans.PlannedOrder.IsPurchase | crates/mrp-core/src/plan.rs:91-93 | holds exactly for a purchase order, and then the order is not a production order |
| Plans.PlannedOrder.IsProduction | crates/mrp-core/src/plan.rs:96-98 | holds exactly for a production order |
| Plans.NewPeggingRecord | crates/mrp-core/src/plan.rs:116-122 | a new record stores demand id and quantity and has an empty path of depth 0 |
| Plans.PeggingRecord.WithPath | crates/mrp-core/src/plan.rs:125-128 | replaces the path, keeping the demand id and quantity; the depth becomes the path's length |
| Plans.PeggingRecord.AddPathNode | crates/mrp-core/src/plan.rs:131-133 | appends the node at the end of the path, so the depth grows by one and the rest is unchanged |
| Plans.PeggingRecord.Depth | crates/mrp-core/src/plan.rs:136-138 | the depth is 0 exactly when the path is empty |
| Config.NewConfig | crates/mrp-core/src/config.rs:54-69 | the defaults: lot-for-lot, no fixed lot size, minimum, maximum or multiple, safety stock 0, horizon 90 days, MRP enabled, negative inventory refused |
| Config.MrpConfig.WithLotSizingRule | crates/mrp-core/src/config.rs:72-75 | sets the rule and changes no other field |
| Config.MrpConfig.WithFixedLotSize | crates/mrp-core/src/config.rs:78-81 | sets the fixed lot size and changes no other field |
| Config.MrpConfig.WithMinimumOrderQty | crates/mrp-core/src/config.rs:84-87 | sets the minimum and changes no other field |
| Config.MrpConfig.WithMaximumOrderQty | crates/mrp-core/src/config.rs:90-93 | sets the maximum and changes no other field |
| Config.MrpConfig.WithOrderMultiple | crates/mrp-core/src/config.rs:96-99 | sets the multiple and changes no other field |
| Config.MrpConfig.WithSafetyStock | crates/mrp-core/src/config.rs:102-105 | sets the safety stock and changes no other field |
| Config.MrpConfig.WithPlanningHorizon | crates/mrp-core/src/config.rs:108-111 | sets the horizon and changes no other field |
| Config.MrpConfig.WithAllowNegativeInventory | crates/mrp-core/src/config.rs:124-127 | sets the negative-inventory flag and changes no other field |
| Config.MrpConfig.NeedsMrp | crates/mrp-core/src/config.rs:159-161 | holds exactly when MRP is enabled |
| Config.TruncRem | crates/mrp-core/src/config.rs:140 | the remainder of `Decimal` `%` agrees with Dafny's `%` on non-negative quantities and lies in `(-m, 0]` on negative ones |
| Config.MrpConfig.ApplyMinimum | crates/mrp-core/src/config.rs:132-136 | the quantity is raised to the minimum when below it and kept otherwise |
| Config.MrpConfig.ApplyMultiple | crates/mrp-core/src/config.rs:138-146 | with a positive multiple and a non-negative quantity, the result is the least multiple of it that is at least the quantity; otherwise the quantity is kept |
| Config.MrpConfig.ApplyMaximum | crates/mrp-core/src/config.rs:148-153 | the quantity is capped at the maximum when above it and kept otherwise |
| Config.MrpConfig.AdjustOrderQuantity | crates/mrp-core/src/config.rs:130-156 | without constraints the quantity is returned as is; the result never exceeds the maximum; it reaches the minimum unless capped; it is at least the input unless it equals the maximum |
| Config.NewConfigAdjustsNothing | crates/mrp-core/src/config.rs:54-69 | a freshly built configuration leaves every order quantity unchanged |
| Config.AdjustIsSmallestMultiple | crates/mrp-core/src/config.rs:138-146 | when not capped, the adjusted quantity is a multiple of the order multiple, at least the min-adjusted quantity, and less than one multiple above it |
| Config.AdjustIdempotent | crates/mrp-core/src/config.rs:130-156 | adjusting an adjusted quantity changes nothing |
| Config.AdjustExamples | crates/mrp-core/src/config.rs:231-265 | 30 becomes 50, 75 becomes 80 and 600 becomes 500 with minimum 50, maximum 500 and multiple 10; 123 becomes 200 and 200 stays 200 with multiple 100 |
| Calendar.Back | crates/mrp-core/src/calendar.rs:89-103 | stepping back from `c` lands on a date `r` at most `c` with exactly `n` working days in `[r, c)`, and `r` is a working day when `n > 0` |
| Calendar.Forward | crates/mrp-core/src/calendar.rs:72-86 | stepping forward from `c` lands on a date `r` at least `c` with exactly `n` working days in `(c, r]`, and `r` is a working day when `n > 0` |
| Calendar.ShiftBack | crates/mrp-core/src/calendar.rs:89-103 | 0 days back is the date itself; for `n > 0` the result is an earlier working day with exactly `n` working days in `[r, d)` |
| Calendar.ShiftForward | crates/mrp-core/src/calendar.rs:72-86 | 0 days forward is the date itself; for `n > 0` the result is a later working day with exactly `n` working days in `(d, r]` |
| Calendar.BackUnique | crates/mrp-core/src/calendar.rs:89-103 | at most one working day has exactly `n` working days between it and `d`, so the backward step is determined by its contract |
| Calendar.ForwardUnique | crates/mrp-core/src/calendar.rs:72-86 | likewise for the forward step |
| Calendar.BackThenForward | crates/mrp-core/src/calendar.rs:72-103 | from a working day, `n` working days back and then `n` forward returns to it |
| Calendar.ForwardThenBack | crates/mrp-core/src/calendar.rs:72-103 | from a working day, `n` working days forward and then `n` back returns to it |
| Calendar.BetweenForward | crates/mrp-core/src/calendar.rs:106-118 | the working days counted between a date and the date `n` working days later are exactly `n` |
| Calendar.CountAllWorking | crates/mrp-core/src/calendar.rs:31-37 | on a calendar where every day works, a range holds as many working days as days |
| Calendar.AllWorkingShift | crates/mrp-core/src/calendar.rs:31-37 | on a calendar where every day works, shifting by `n` working days is plain subtraction or addition of `n`, and `n` working days lie between `d - n` and `d` |
| Calendar.WorkCalendar.constructor | crates/mrp-core/src/calendar.rs:22-28 | a new calendar works Monday to Friday and has no holidays |
| Calendar.WorkCalendar.New247 | crates/mrp-core/src/calendar.rs:31-37 | the 24/7 calendar works every day and has no holidays |
| Calendar.WorkCalendar.Default | crates/mrp-core/src/calendar.rs:131-135 | the default calendar is the Monday-to-Friday calendar named `DEFAULT` |
| Calendar.WorkCalendar.Fallback | crates/mrp-core/src/calendar.rs:194-196 | the fallback calendar works every day and is named `FALLBACK-24/7` |
| Calendar.WorkCalendar.FromShiftData | crates/mrp-core/src/calendar.rs:172-189 | weekday `i` works exactly when the shift list has a true flag at position `i`, so missing flags mean a day off; the holidays and id are copied |
| Calendar.WorkCalendar.WithWorkingDays | crates/mrp-core/src/calendar.rs:40-43 | replaces the weekday mask, keeping the holidays and id |
| Calendar.WorkCalendar.WithHolidays | crates/mrp-core/src/calendar.rs:46-49 | replaces the holidays, keeping the weekday mask and id |
| Calendar.WorkCalendar.AddHoliday | crates/mrp-core/src/calendar.rs:52-57 | re-adding a holiday changes nothing; otherwise the date is inserted and the list sorted; the list stays strictly ascending and gains exactly that date |
| Calendar.WorkCalendar.IsWorkingDay | crates/mrp-core/src/calendar.rs:60-69 | a holiday never works; any other day works exactly when its weekday is set in the mask |
| Calendar.WorkCalendar.AddWorkingDays | crates/mrp-core/src/calendar.rs:72-86 | the day-by-day loop returns the forward shift by `days` working days |
| Calendar.WorkCalendar.SubtractWorkingDays | crates/mrp-core/src/calendar.rs:89-103 | the day-by-day loop returns the backward shift by `days` working days |
| Calendar.WorkCalendar.WorkingDaysBetween | crates/mrp-core/src/calendar.rs:106-118 | the loop counts the working days in `(start, end]`, and 0 when `start >= end` |
| Calendar.WorkingDaysBetweenExample | crates/mrp-core/src/calendar.rs:258-268 | on the Monday-to-Friday calendar, five working days lie between a Monday and the next Monday |
| Calendar.WorkCalendar.NextWorkingDay | crates/mrp-core/src/calendar.rs:121-123 | the next working day after `d`, with no working day strictly in between |
| Calendar.WorkCalendar.PreviousWorkingDay | crates/mrp-core/src/calendar.rs:126-128 | the last working day before `d`, with no working day strictly in between |
| Inventories.Inventory.constructor | crates/mrp-core/src/inventory.rs:30-40 | a new record has nothing allocated, everything on hand available and no warehouse |
| Inventories.Inventory.WithAllocatedQty | crates/mrp-core/src/inventory.rs:43-47 | sets the allocation and recomputes availability as on hand minus allocated |
| Inventories.Inventory.WithWarehouseId | crates/mrp-core/src/inventory.rs:50-53 | sets the warehouse and changes no quantity |
| Inventories.Inventory.CalculateAvailable | crates/mrp-core/src/inventory.rs:56-58 | restores `available = on hand - allocated` |
| Inventories.Inventory.ReplenishmentNeeded | crates/mrp-core/src/inventory.rs:60-72 | never negative; positive exactly when below safety stock, and then available plus it reaches the safety stock |
| Inventories.Inventory.Allocate | crates/mrp-core/src/inventory.rs:75-85 | more than available is refused with nothing changed; otherwise the allocation grows by the quantity, on hand is untouched and availability is recomputed |
| Inventories.Inventory.Deallocate | crates/mrp-core/src/inventory.rs:88-98 | more than allocated is refused with nothing changed; otherwise the allocation shrinks by the quantity and availability is recomputed |
| Inventories.AllocationScenario | crates/mrp-core/src/inventory.rs:121-140 | 100 on hand, allocate 50, a refused 60, release 30: 20 allocated, 80 available |
| DirtyTracking.DirtyTracker.constructor | crates/mrp-cache/src/dirty_tracking.rs:12-16 | a new tracker has no dirty component |
| DirtyTracking.DirtyTracker.MarkDirty | crates/mrp-cache/src/dirty_tracking.rs:19-21 | the component becomes dirty and every other component keeps its state |
| DirtyTracking.DirtyTracker.Clear | crates/mrp-cache/src/dirty_tracking.rs:29-31 | afterwards no component is dirty |
| DirtyTracking.DirtyTracker.GetDirtyComponents | crates/mrp-cache/src/dirty_tracking.rs:34-36 | lists exactly the dirty components, each once |
| DirtyTracking.MarkTwice | crates/mrp-cache/src/dirty_tracking.rs:19-21 | marking a component twice leaves the same state as marking it once |
| MrpResults.NewWarning | crates/mrp-calc/src/lib.rs:58-64 | stores component, message and severity as given |
| MrpResults.InfoWarning | crates/mrp-calc/src/lib.rs:66-68 | a warning of severity `Info` |
| MrpResults.WarningWarning | crates/mrp-calc/src/lib.rs:70-72 | a warning of severity `Warning` |
| MrpResults.ErrorWarning | crates/mrp-calc/src/lib.rs:74-76 | a warning of severity `Error` |
| MrpResults.MrpResult.constructor | crates/mrp-calc/src/lib.rs:18-30 | a result holds the orders, pegging, warnings and time it is given |
| MrpResults.MrpResult.Empty | crates/mrp-calc/src/lib.rs:34-41 | no orders, no pegging, no warnings and no time |
| MrpResults.MrpResult.AddWarning | crates/mrp-calc/src/lib.rs:44-46 | appends exactly one warning at the end, keeping the earlier ones |
| Bucketing.StepDays | crates/mrp-calc/src/bucketing.rs:63-76 | every strategy advances by a positive number of days: 1, 7 or 30 |
| Bucketing.RequiredDates | crates/mrp-calc/src/bucketing.rs:30-34 | the demands' required dates, in order, one per demand |
| Bucketing.AvailableDates | crates/mrp-calc/src/bucketing.rs:37-41 | the supplies' available dates, in order, one per supply |
| Bucketing.MergeBuckets | crates/mrp-calc/src/bucketing.rs:84-87 | merging yields a strictly ascending sequence with the same dates |
| Bucketing.MergeBucketsIdempotent | crates/mrp-calc/src/bucketing.rs:84-87 | merging twice equals merging once |
| Bucketing.CreateTimeBuckets | crates/mrp-calc/src/bucketing.rs:22-50 | strictly ascending, and a date is a bucket exactly when some demand is required or some supply is available on it; the horizon plays no part |
| Bucketing.CreateBucketsByStrategy | crates/mrp-calc/src/bucketing.rs:53-81 | empty exactly when start is after end; bucket `i` is `start + i * step` and never after `end`; one more step would pass `end` |
| Bucketing.DailyExample | crates/mrp-calc/src/bucketing.rs:95-107 | daily buckets from 10/01 to 10/05 are five, starting at the start and ending at the end |
| Bucketing.MergeExample | crates/mrp-calc/src/bucketing.rs:111-124 | 10/1, 10/3, 10/1, 10/2 merge to 10/1, 10/2, 10/3 |
| LeadTime.CalculateOrderDate | crates/mrp-calc/src/lead_time.rs:11-17 | the order date is the calendar's backward shift: an earlier working day with exactly `n` working days before the required date; from it the delivery date is the required date again when that is a working day; on a 24/7 calendar it is `required - n` |
| LeadTime.CalculateDeliveryDate | crates/mrp-calc/src/lead_time.rs:20-26 | the delivery date is the calendar's forward shift; stepping back from it returns the order date when that is a working day; on a 24/7 calendar it is `order + n` |
| LeadTime.WorkingDaysBetween | crates/mrp-calc/src/lead_time.rs:29-35 | the calendar's count of working days in `(start, end]`, 0 when `start >= end`, never more than the days in the range |
| LeadTime.CountAtMostLength | crates/mrp-core/src/calendar.rs:106-118 | a range holds no more working days than days |
| LeadTime.LeadTime247Example | crates/mrp-calc/src/lead_time.rs:43-67 | 24/7 calendar: 11/01 minus five days is 10/27, and five days later is 11/01 |
| LeadTime.LeadTimeWeekdayExample | crates/mrp-calc/src/lead_time.rs:70-91 | weekday calendar: five working days before Monday 11/03 is the previous Monday, and the round trip returns to 11/03 |
| LeadTime.LeadTimeSixDayExample | crates/mrp-calc/src/lead_time.rs:94-116 | Monday-to-Saturday calendar: six working days before a Monday skip the Sunday and land on the previous Monday; the round trip returns |
| Netting.NewNetRequirement | crates/mrp-calc/src/netting.rs:23-31 | a new row carries the date and zero quantities |
| Netting.NetFor | crates/mrp-calc/src/netting.rs:74-88 | never negative; when negative stock is refused it is zero exactly when projected reaches the safety stock and otherwise tops projected up to it; when negative stock is allowed it is zero exactly when projected is not negative and otherwise tops projected up to 0 |
| Netting.Calculate | crates/mrp-calc/src/netting.rs:44-108 | always succeeds, and the loop's rows are the specification rows |
| Netting.RowsAt | crates/mrp-calc/src/netting.rs:53-104 | one row per bucket in the same order; row `k` holds the bucket's date, the demand and receipt sums of that date, projected = initial + the receipts minus the demand of buckets `0..k` (the raw running balance), and the net requirement of that projection |
| Netting.RowsLength | crates/mrp-calc/src/netting.rs:55-96 | exactly one row per bucket |
| Netting.GrossSingle | crates/mrp-calc/src/netting.rs:57-61 | a single demand counts toward the gross requirement of its own date only |
| Netting.AllowNegativeExamples | crates/mrp-calc/src/netting.rs:251-348 | on hand 30, safety 10, demand 100: net 80 when negative stock is refused and 70 when allowed; on hand 100, safety 30, demand 50, allowed: net 0 |
| Netting.CumulativeExample | crates/mrp-calc/src/netting.rs:203-248 | 100 on hand against 30 on each of three days projects 70, 40 and 10 |
| LotSizing.DetermineOrderType | crates/mrp-calc/src/lot_sizing.rs:286-292 | buy maps to purchase, make to production and transfer to transfer, each exactly |
| LotSizing.Release | crates/mrp-calc/src/lot_sizing.rs:47-61 | the order every rule pushes: adjusted quantity, due on the row date, released the lead time in working days earlier |
| LotSizing.MadeOrderConforms | crates/mrp-calc/src/lot_sizing.rs:47-61 | an order built from an adjusted quantity conforms to the configuration: its component, id, type, dates and quantity |
| LotSizing.LotForLotMatchesRows | crates/mrp-calc/src/lot_sizing.rs:39-66 | lot-for-lot emits one order per row with a positive net requirement, in row order, for the adjusted net quantity on the row's date |
| LotSizing.LotForLotRule | crates/mrp-calc/src/lot_sizing.rs:39-66 | the loop returns the lot-for-lot specification orders |
| LotSizing.CeilDivBounds | crates/mrp-calc/src/lot_sizing.rs:92-95 | the ceiling quotient is the least number of lots covering the shortage |
| LotSizing.Batches | crates/mrp-calc/src/lot_sizing.rs:92-95 | the batch count is the ceiling quotient, or 1 when that does not fit a `u32` and the parse falls back |
| LotSizing.BatchesCover | crates/mrp-calc/src/lot_sizing.rs:92-97 | when the count fits, the batches cover the shortage and one batch fewer would not |
| LotSizing.FixedLotRestoresSafetyStock | crates/mrp-calc/src/lot_sizing.rs:86-111 | without a maximum, a fixed-lot order brings a balance below safety stock back to at least the safety stock |
| LotSizing.FixedLotLoop | crates/mrp-calc/src/lot_sizing.rs:79-115 | the running-balance loop returns the fixed-lot specification orders |
| LotSizing.FixedOrderQuantityRule | crates/mrp-calc/src/lot_sizing.rs:69-118 | no lot size fails with `MissingLotSize`; otherwise the fixed-lot specification orders for that lot size |
| LotSizing.EoqLotSize | crates/mrp-calc/src/lot_sizing.rs:128-146 | the lot is positive; a configured fixed lot size is used as is; with none and no positive requirement it is 100 |
| LotSizing.EconomicOrderQuantityRule | crates/mrp-calc/src/lot_sizing.rs:121-183 | the fixed-lot specification orders with the economic lot size |
| LotSizing.RunEnd | crates/mrp-calc/src/lot_sizing.rs:205-214 | the period scan stops at the end of the rows or at the first row seven or more days after the period's start |
| LotSizing.RunEndWithin | crates/mrp-calc/src/lot_sizing.rs:205-214 | every row the scan passes lies less than seven days after the period's start |
| LotSizing.PeriodsPartition | crates/mrp-calc/src/lot_sizing.rs:193-232 | the periods, concatenated, are exactly the rows, so every row falls in exactly one period |
| LotSizing.PeriodsWithinWindow | crates/mrp-calc/src/lot_sizing.rs:193-232 | each period is non-empty and its rows lie less than seven days after its first row |
| LotSizing.TotalRangeIsTotalNet | crates/mrp-calc/src/lot_sizing.rs:205-214 | the total the scan accumulates is the sum of the period's net requirements |
| LotSizing.PeriodOrdersFromPeriods | crates/mrp-calc/src/lot_sizing.rs:186-236 | period order quantity emits one order per period with a positive total, due at the period's first date |
| LotSizing.CollectPeriod | crates/mrp-calc/src/lot_sizing.rs:199-214 | the inner scan returns the period's last index and its total net requirement |
| LotSizing.PeriodOrderQuantityRule | crates/mrp-calc/src/lot_sizing.rs:186-236 | the `while` loop returns the period specification orders |
| LotSizing.MinMaxRefills | crates/mrp-calc/src/lot_sizing.rs:247-278 | without a maximum order quantity, a min-max order lifts a balance below the minimum level to at least the maximum level |
| LotSizing.MinMaxRule | crates/mrp-calc/src/lot_sizing.rs:239-283 | the running-balance loop returns the min-max specification orders |
| LotSizing.LotForLotWellFormed | crates/mrp-calc/src/lot_sizing.rs:39-66 | every lot-for-lot order conforms to the configuration, with consecutive ids |
| LotSizing.FixedLotWellFormed | crates/mrp-calc/src/lot_sizing.rs:69-118 | every fixed-lot order conforms to the configuration, with consecutive ids |
| LotSizing.PeriodOrdersWellFormed | crates/mrp-calc/src/lot_sizing.rs:186-236 | every period order conforms to the configuration, with consecutive ids |
| LotSizing.MinMaxWellFormed | crates/mrp-calc/src/lot_sizing.rs:239-283 | every min-max order conforms to the configuration, with consecutive ids |
| LotSizing.PeriodsCount | crates/mrp-calc/src/lot_sizing.rs:193-232 | there are no more periods than rows |
| LotSizing.PlanOrders | crates/mrp-calc/src/lot_sizing.rs:13-36 | fails exactly for fixed order quantity without a lot size, with `MissingLotSize`; otherwise every order conforms to the configuration and there are no more orders than rows |
| LotSizing.Apply | crates/mrp-calc/src/lot_sizing.rs:13-36 | the dispatch sends each rule to its own rule method and returns the specification's outcome |
| LotSizing.OrderIgnoresRule | crates/mrp-calc/src/lot_sizing.rs:86-111 | a fixed-lot order does not depend on which rule the configuration names |
| LotSizing.FixedLotIgnoresRule | crates/mrp-calc/src/lot_sizing.rs:79-115 | the fixed-lot orders do not depend on which rule the configuration names |
| LotSizing.EoqWithFixedLotIsFixed | crates/mrp-calc/src/lot_sizing.rs:128-130 | with a fixed lot size, the economic rule plans exactly what fixed order quantity plans |
| LotSizingExamples.LotForLotExample | crates/mrp-calc/src/lot_sizing.rs:303-334 | net 100 and 50 on two dates give two orders of 100 and 50 |
| LotSizingExamples.FixedOrderQuantityExample | crates/mrp-calc/src/lot_sizing.rs:337-363 | a shortage of 150 with lot size 100 gives one order of 200 |
| LotSizingExamples.PeriodOrderQuantityExample | crates/mrp-calc/src/lot_sizing.rs:366-408 | rows in two seven-day periods give orders of 80 and 40 |
| LotSizingExamples.MinMaxExample | crates/mrp-calc/src/lot_sizing.rs:411-439 | a demand of 100 drops the balance to -100, below the minimum 50; the refill of 300 is capped at the maximum order quantity 200, giving one order of 200 |
| LotSizingExamples.OrderQuantityConstraintsExample | crates/mrp-calc/src/lot_sizing.rs:442-470 | a net requirement of 123 with multiple 25 gives an order of 125 |
| Pegging.TraceParentDemand | crates/mrp-calc/src/pegging.rs:102-110 | always succeeds with the one-element path holding the parent id |
| Pegging.PathFor | crates/mrp-calc/src/pegging.rs:68-88 | multi-level pegging of a dependent demand with a source reference gives `[source_ref, component]`; every other case gives `[component]` |
| Pegging.MatchingDemands | crates/mrp-calc/src/pegging.rs:53-56 | exactly the demands for the order's component that are required on the order's date |
| Pegging.TraceDemandSource | crates/mrp-calc/src/pegging.rs:45-97 | the loop returns the greedy allocation specification |
| Pegging.PegFromRecords | crates/mrp-calc/src/pegging.rs:59-96 | record `k` pegs matching demand `k` for `min(demand, remaining)` with its path, in input order |
| Pegging.PegFromLength | crates/mrp-calc/src/pegging.rs:59-96 | no more records than matching demands |
| Pegging.PegFromAt | crates/mrp-calc/src/pegging.rs:59-96 | the `k`-th record pegs the `k`-th matching demand |
| Pegging.PegFromSum | crates/mrp-calc/src/pegging.rs:59-96 | the records together never exceed the quantity left to allocate |
| Pegging.PegFromCoversAll | crates/mrp-calc/src/pegging.rs:59-96 | when the order covers all matching demands, each is pegged for its full quantity |
| Pegging.AllocationSound | crates/mrp-calc/src/pegging.rs:45-97 | every record names a matching demand and covers at most its quantity, and the records sum to at most the order quantity |
| Pegging.Perform | crates/mrp-calc/src/pegging.rs:22-42 | the insertion loop builds the specification pegging map and always succeeds |
| Pegging.PeggingMapKeys | crates/mrp-calc/src/pegging.rs:29-39 | the map has exactly one entry per planned-order id |
| Pegging.PeggingMapEntry | crates/mrp-calc/src/pegging.rs:29-39 | an order's entry is its own allocation when no later order shares its id |
| Pegging.PartialPeggingExample | crates/mrp-calc/src/pegging.rs:193-222 | an order of 150 against a demand of 100 pegs 100 |
| Pegging.MultipleDemandsExample | crates/mrp-calc/src/pegging.rs:225-262 | an order of 300 against demands of 150 and 100 pegs 150 and 100 |
| Pegging.NoMatchingDemandExample | crates/mrp-calc/src/pegging.rs:265-293 | a demand on another date gives no records |
| Pegging.MultiLevelExample | crates/mrp-calc/src/pegging.rs:155-190 | a dependent demand sourced from `PARENT-001` is pegged with path `[PARENT-001, CHILD-001]` |
| Calculator.GroupedExactly | crates/mrp-calc/src/calculator.rs:239-260 | each demand or supply is in exactly its own component's group, and each group holds only that component's entries |
| Calculator.EoqEstimate | crates/mrp-calc/src/lot_sizing.rs:135-143 | the economic lot estimate is always positive |
| Calculator.EoqEstimateRoot | crates/mrp-calc/src/lot_sizing.rs:135-143 | the economic lot is 100 without a positive requirement, otherwise ten times the square root of the total, rounded down |
| Calculator.ISqrt | crates/mrp-calc/src/lot_sizing.rs:137 | the root of a positive number is positive |
| Calculator.ISqrtBounds | crates/mrp-calc/src/lot_sizing.rs:137 | the integer square root, rounded down: its square is at most `n` and the square of its successor exceeds `n` |
| Calculator.DependentDemand | crates/mrp-calc/src/calculator.rs:354-368 | a dependent demand for the child: quantity is the order quantity times the quantity per, due on the order's release date, source `parent:orderId`, priority 5 |
| Calculator.DependentDemandBuilt | crates/mrp-calc/src/calculator.rs:361-368 | the dependent demand is the demand the source's builder chain produces |
| Calculator.OrderDemands | crates/mrp-calc/src/calculator.rs:339-382 | one dependent demand per bill line, in line order, with consecutive ids |
| Calculator.ExplosionIds | crates/mrp-calc/src/calculator.rs:339-382 | the explosion's demands take consecutive ids from the first one |
| Calculator.ExplosionLength | crates/mrp-calc/src/calculator.rs:338-383 | one demand per order and bill line |
| Calculator.NoExplosion | crates/mrp-calc/src/calculator.rs:310-335 | no orders or no children explode to nothing |
| Calculator.ExplosionSources | crates/mrp-calc/src/calculator.rs:338-383 | every exploded demand is for a child of the parent and is built from one of the orders and one bill line |
| Calculator.ExplosionCovers | crates/mrp-calc/src/calculator.rs:338-383 | every pair of an order and a bill line yields a demand |
| Calculator.ExplodeOrder | crates/mrp-calc/src/calculator.rs:339-382 | the inner loop adds one order's demands to the child groups |
| Calculator.ExplodeOrders | crates/mrp-calc/src/calculator.rs:338-383 | the outer loop groups the whole explosion by child |
| Calculator.ExplodedKeys | crates/mrp-calc/src/calculator.rs:338-383 | only children of the parent receive demand |
| Calculator.ComponentPlanFails | crates/mrp-calc/src/calculator.rs:161-236 | one component's plan fails exactly when it has no configuration (`ConfigNotFound`) or is enabled with fixed order quantity and no lot size (`MissingLotSize`), with that error |
| Calculator.ComponentPlanOutcome | crates/mrp-calc/src/calculator.rs:161-236 | a plan that succeeds is for the component and its orders conform to its configuration with consecutive ids; a disabled component gets no orders |
| Calculator.MrpCalculator.constructor | crates/mrp-calc/src/calculator.rs:23-33 | stores the bill, the configurations and the calendar |
| Calculator.MrpCalculator.ChildrenInUniverse | crates/mrp-calc/src/calculator.rs:315-335 | the children of any component lie in the universe: the demanded components and every child in the bill of materials |
| Calculator.MrpCalculator.GroupDemandsByComponent | crates/mrp-calc/src/calculator.rs:239-248 | each group holds exactly its component's demands in input order |
| Calculator.MrpCalculator.GroupSuppliesByComponent | crates/mrp-calc/src/calculator.rs:251-260 | each group holds exactly its component's supplies in input order |
| Calculator.MrpCalculator.InventoryMapEntries | crates/mrp-calc/src/calculator.rs:263-268 | one entry per component with a record; a later record for the same component replaces an earlier one |
| Calculator.MrpCalculator.GetMaxPlanningHorizon | crates/mrp-calc/src/calculator.rs:271-277 | the largest configured horizon, 90 days when there is no configuration |
| Calculator.MrpCalculator.TopologicalSort | crates/mrp-calc/src/calculator.rs:281-297 | always succeeds with the components that have independent demand, each once |
| Calculator.MrpCalculator.CreateComponentTimeBuckets | crates/mrp-calc/src/calculator.rs:391-417 | strictly ascending, and exactly the union of the base buckets, the demand required dates and the supply available dates |
| Calculator.MrpCalculator.CalculateComponentMrp | crates/mrp-calc/src/calculator.rs:161-236 | the method's result is the component plan for its demands, its own supplies and its available quantity (0 without a record), whose failure and success lemmas state the promises |
| Calculator.MrpCalculator.ExplodeBom | crates/mrp-calc/src/calculator.rs:300-386 | always succeeds; it groups the explosion of the parent's orders by child, touches only the parent's children, and consumes one id per demand |
| Calculator.MrpCalculator.OrdersAppend | crates/mrp-calc/src/calculator.rs:111-120 | appending one component's orders keeps every order planned and the ids strictly ascending |
| Calculator.MrpCalculator.MergeChildDemands | crates/mrp-calc/src/calculator.rs:124-136 | dependent demand is appended per child; a child is queued only if it is neither processed nor already queued, so the queue stays duplicate-free and its existing order is kept |
| Calculator.MrpCalculator.TracedSnoc | crates/mrp-calc/src/calculator.rs:75-139 | a step that follows the run so far extends the trace |
| Calculator.MrpCalculator.TracedStep | crates/mrp-calc/src/calculator.rs:75-139 | every step of a trace plans its component for its independent demand plus the dependent demand of the steps before it, with ids where they left off, and records that plan's explosion |
| Calculator.MrpCalculator.StepPlanned | crates/mrp-calc/src/calculator.rs:111-120 | a step's orders are planned for its component with ids from where the previous steps left off, and the component does not block |
| Calculator.MrpCalculator.TracedPlanned | crates/mrp-calc/src/calculator.rs:75-139 | every step of a trace is planned |
| Calculator.MrpCalculator.PlannedOrders | crates/mrp-calc/src/calculator.rs:119-120 | the concatenated orders of planned steps are each planned for a planned component, with ids from the first id on, strictly ascending and below the next id |
| Calculator.MrpCalculator.OrdersSnoc | crates/mrp-calc/src/calculator.rs:119-120 | extending the run by one planned step keeps its orders planned, ascending and below the next id |
| Calculator.MrpCalculator.TracedNotBlocking | crates/mrp-calc/src/calculator.rs:111-117 | a component planned in the trace does not block |
| Calculator.MrpCalculator.PlanStep | crates/mrp-calc/src/calculator.rs:111-136 | fails exactly when the component blocks, with its error; on success the orders are the component plan for the demand handed in, the child demand is the plan's explosion grouped by child, only children get demand, and one id is used per order and per demand; the children that were neither processed nor queued are appended to the queue, each once, and the step records them |
| Calculator.MrpCalculator.StepTaken | crates/mrp-calc/src/calculator.rs:95-123 | a plan of the component's independent plus accumulated dependent demand, with the run's next id, is a step of the trace |
| Calculator.MrpCalculator.TraceStep | crates/mrp-calc/src/calculator.rs:111-138 | appending a traced step keeps the planned components distinct and processed, and the orders and the next id those of the trace |
| Calculator.PendingPop | crates/mrp-calc/src/calculator.rs:84-90 | skipping a processed component keeps the queue's bookkeeping |
| Calculator.PendingSkip | crates/mrp-calc/src/calculator.rs:105-108 | marking a component without demand processed keeps the queue's bookkeeping |
| Calculator.PendingStep | crates/mrp-calc/src/calculator.rs:119-138 | after planning the front component, the dependent demand of each component is still what the trace exploded into it, every component with demand is queued or processed, and every processed but unplanned component had no demand |
| Calculator.StepsSnoc | crates/mrp-calc/src/calculator.rs:119-136 | one more step appends its component, its orders and its share of dependent demand, and advances the next id by its orders and demands |
| Calculator.GroupsAreMembers | crates/mrp-calc/src/calculator.rs:239-260 | a grouping holds under each key exactly that key's members in order, and has a key exactly when those members are not empty |
| Calculator.GroupsOfUnique | crates/mrp-calc/src/calculator.rs:239-260 | two groupings of the same elements are equal |
| Calculator.RemainingShrinks | crates/mrp-calc/src/calculator.rs:105-138 | each component processed shrinks the set still to process, so the worklist terminates |
| Calculator.MrpCalculator.WorklistFront | crates/mrp-calc/src/calculator.rs:80-101 | the front of the queue is in the universe; if it is not processed it has not been planned, and its accumulated dependent demand is what the trace exploded into it |
| Calculator.MrpCalculator.WorklistPop | crates/mrp-calc/src/calculator.rs:84-90 | skipping an already processed component keeps the worklist invariant |
| Calculator.MrpCalculator.WorklistSkip | crates/mrp-calc/src/calculator.rs:105-108 | marking a component without demand processed keeps the worklist invariant |
| Calculator.MrpCalculator.WorklistStep | crates/mrp-calc/src/calculator.rs:111-138 | planning the front component, queueing its new children and adding its dependent demand keeps the worklist invariant with the step appended to the trace |
| Calculator.MrpCalculator.WorklistDone | crates/mrp-calc/src/calculator.rs:80-139 | with an empty queue, every component with independent or dependent demand was planned, no demanded component blocks, and the orders are planned for the planned components |
| Calculator.MrpCalculator.WorklistPass | crates/mrp-calc/src/calculator.rs:83-108 | taking the front off the queue because it was processed, or because it has no demand and is processed now, keeps the worklist invariant and the FIFO order, adds the front to the processed set, and either leaves the processed set as it was or shrinks what is left to process |
| Calculator.MrpCalculator.WorklistStart | crates/mrp-calc/src/calculator.rs:75-81 | the queue starting as the sorted list, with nothing processed, planned or dependent, meets the worklist invariant |
| Calculator.MrpCalculator.VisitComponent | crates/mrp-calc/src/calculator.rs:110-138 | fails exactly when the component blocks, with its error; otherwise the worklist invariant holds of the new queue, the processed set with the component, the new dependent demand and the trace with one more step, and the queue stays first-in first-out; the step plans the component, and the new queue is the rest of the queue followed by the children the step appended |
| Calculator.MrpCalculator.Round | crates/mrp-calc/src/calculator.rs:82-139 | one round takes the front off the queue: a failure carries the error of a blocking component with demand that was not planned; otherwise the worklist invariant and the FIFO order hold of the new state, the front joins the processed set, and the round either planned nothing and the queue is the old one without its front, or added one step for the front and the queue is the old one without its front followed by the children that step appended (`Advanced`); either fewer components are left to process or the processed set is unchanged and the queue is shorter |
| Calculator.MrpCalculator.ProcessComponents | crates/mrp-calc/src/calculator.rs:75-139 | the ghost trace follows the run: each step is the plan of a component for its independent demand plus the dependent demand earlier steps exploded into it, each component at most once; each step queued exactly the children of its explosion never queued before (`QueuedFresh`), and the steps plan their components in the order those were first queued (`InQueueOrder` over `Enqueued`); hence the sorted components are planned before any component reached only through an explosion, and in their sorted order (`SortedFirst`); failure carries the error of a blocking component with demand that was not planned, and a demanded blocking component always fails the run; on success the orders are the concatenation of the steps' orders, every component with independent or dependent demand was planned or had none, and the orders are planned with ascending ids |
| Calculator.FifoStart | crates/mrp-calc/src/calculator.rs:80-81 | the queue starting as the sorted list is in FIFO shape with nothing taken off it |
| Calculator.FifoPop | crates/mrp-calc/src/calculator.rs:83-108 | taking the front off and marking it processed without planning it keeps the FIFO shape: the front was the next component of `Enqueued` |
| Calculator.FifoQueued | crates/mrp-calc/src/calculator.rs:124-130 | the children appended behind the rest of the queue when the front is planned are each appended once, and are exactly the children of its explosion that were never queued, or the front itself |
| Calculator.FifoOrder | crates/mrp-calc/src/calculator.rs:84 | planning the front keeps the steps in the order their components were first queued, since the front is first queued after every component planned before it |
| Calculator.FifoShape | crates/mrp-calc/src/calculator.rs:84-138 | after the front is planned and its children appended, the queue is what is left of the new `Enqueued` past one more position, and those positions hold the processed components and the front |
| Calculator.FifoStep | crates/mrp-calc/src/calculator.rs:83-138 | planning the front and appending its new children at the back keeps the FIFO shape, and the new queue is the rest followed by those children |
| Calculator.EnqueuedPrefix | crates/mrp-calc/src/calculator.rs:80-81 | the queue order starts with the sorted list |
| Calculator.PlannedFront | crates/mrp-calc/src/calculator.rs:84-130 | planning the front as a step and appending that step's children advances the queue (`Advanced`) |
| Calculator.QueueOrderSortedFirst | crates/mrp-calc/src/calculator.rs:80-84 | planning in queue order puts the sorted components first and in their sorted order |
| Calculator.DiamondOrder | crates/mrp-calc/src/calculator.rs:84-130 | with A -> {C, D}, C -> E, D -> E and demand on A alone, the queue order is A, C, D, E, so planning E before D breaks queue order |
| Calculator.SortedFirstDemanded | crates/mrp-calc/src/calculator.rs:69-81 | when the sorted list holds exactly the demanded components, no component with independent demand is planned after one that has only dependent demand |
| Calculator.DemandedComponents | crates/mrp-calc/src/calculator.rs:63-69 | the keys of the demand grouping are exactly the components some demand asks for, each with a non-empty group |
| Calculator.AllDemandedPlanned | crates/mrp-calc/src/calculator.rs:75-139 | completeness restated over the demands: every component with independent or dependent demand was planned |
| Calculator.PegAndReport | crates/mrp-calc/src/calculator.rs:141-157 | the result holds the orders, pegged multi-level against the original demand, no warnings and the elapsed time |
| Calculator.MrpCalculator.Calculate | crates/mrp-calc/src/calculator.rs:36-158 | the ghost trace follows the run over the grouped demand and supply, the records' available quantities and the demand and supply dates; a demanded component that blocks fails the run, and a failure carries the error of a blocking component with independent or dependent demand; on success the orders are the concatenation of the traced plans, every component with demand was planned, the orders conform with ascending ids, each order's pegging entry is its own allocation against the original demand, there are no warnings and the elapsed time is recorded; no component with independent demand is planned after one that has only dependent demand (`DemandedFirst`); and for a queue that starts as the demanded components, each once, the trace is a first-in first-out run: each step queued exactly its explosion's never-queued children, and the components are planned in the order they were first queued (`FifoRun`) |
| CalculatorExamples.DynamicTimeBucketsExample | crates/mrp-calc/src/calculator.rs:441-518 | base buckets 11/01 and 11/05, demand on 11/03 and 11/08 and a receipt on 11/07 give the buckets 11/01, 11/03, 11/05, 11/07, 11/08 |
| CalculatorExamples.SingleLevelExplosionExample | tests/integration_test.rs:10-105 | an order for 100 of a product taking 2 of a part per unit yields one dependent demand for 200, due on the order's release date |
| CalculatorExamples.BikeExplosionExample | tests/integration_test.rs:108-248 | 50 bikes need 50 frames and 100 wheels |
| CalculatorExamples.FrameExplosionExample | tests/integration_test.rs:250-257 | 50 frames need 150 steel tubes, and the demand names the frame order it comes from |

## Left out

- Floating point: with no fixed lot size, `economic_order_quantity` takes `sqrt` of an `f64`. The model uses ten times the integer square root (`Calculator.EoqEstimate`).
- EoqEstimate: the source does not round the estimate. `Decimal::try_from(sqrt_value * 10.0)` (lot_sizing.rs:143) keeps a fractional lot, e.g. 122.47… for a total of 150, where the model gives 10·⌊√150⌋ = 120. Only a perfect-square total gives the same lot.
- EoqEstimateRoot: states ten times the integer square root, rounded down, not the source's fractional `f64` lot; see `EoqEstimate` above.
- `LotSizing.EconomicOrderQuantityRule` takes that estimate as a parameter and is proved for any positive estimate.
- Decimal precision and overflow: quantities are unbounded integers. The string round trip that `ceil` goes through becomes integer ceiling division (`LotSizing.CeilDiv`). The `u32` parse fallback is kept (`LotSizing.Batches`).
- Date arithmetic: dates are unbounded day numbers.
  - The date-overflow panics are not modelled.
  - The `days` and `lead_time_days` counts are `nat` rather than `u32`.
- Preconditions standing in for panics or non-termination:
  - Stepping the calendar by a positive number of days needs a working weekday (`HasWorkingWeekday`); otherwise the source loops forever.
  - Under the fixed-order-quantity and economic-order-quantity rules, the only ones that read it, a configured lot size must be positive (`LotSizeUsable`). A zero size makes the source divide by zero.
  - A negative lot size is excluded by choice, not because the source fails on it: its batch count goes through the `u32` parse fallback, and the fixed-lot proofs assume a positive lot.
  - `MrpCalculator.Ready` asks both of every enabled configuration.
- Identifiers: `Uuid::new_v4` becomes a counter threaded through the operations. Random ids are distinct only with high probability; here they are distinct by construction.
- The bill-of-materials crate is not part of this model.
  - `BomGraph` becomes a map from a component to its lines.
  - The explosion's error path (calculator.rs:344-348) cannot arise with a map.
  - The graph lookups at calculator.rs:315-335 become a plain lookup, with no children for an unknown parent.
- HashMap and HashSet iteration order is unspecified. The model picks elements with `:|`, so:
  - `MrpCalculator.TopologicalSort` promises only a duplicate-free order of the demanded components.
  - `MrpCalculator.CreateInventoryMap`'s replacement of earlier records holds for input order.
  - `MrpCalculator.MergeChildDemands` appends a step's new children in any order, since the source iterates the child map; `QueuedFresh` fixes which children a step appends, not their order among themselves.
- PegAndReport: the pegging-entry property is stated for orders with ascending ids. `Calculate` always supplies such orders; with repeated ids, the source's map keeps the last insertion.
- Logging, tracing and the `Instant` timer are left out. The elapsed milliseconds are a parameter of `Calculate`.
- The getters `MrpCalculator::calendar` and `MrpCalculator::bom_graph` (calculator.rs:420-427) only return fields, which the model reads directly.
- `test_create_calculator` (calculator.rs:437-439) has an empty body.
- `DirtyTracker::default` is the same as `new` and shares its constructor. `is_dirty` is the predicate `IsDirty`.
- Helper extractions: these members carry one loop or one block of the source's body so that each proof stays small.
  - `LotSizing.Release` is the order every rule pushes.
  - `LotSizing.CollectPeriod` is the inner scan of period order quantity.
  - `LotSizing.FixedLotLoop` is the loop of fixed order quantity.
  - `Calculator.ExplodeOrder` and `Calculator.ExplodeOrders` are the loops of `explode_bom`.
  - `Calculator.MrpCalculator.PlanStep` covers calculator.rs:111-136, so it calls `MergeChildDemands` itself.
  - `Calculator.MrpCalculator.MergeChildDemands`, `Calculator.MrpCalculator.PlanStep`, `Calculator.MrpCalculator.VisitComponent`, `Calculator.MrpCalculator.Round` and `Calculator.MrpCalculator.ProcessComponents` are parts of the worklist in `calculate`. `Round` is one pass of its loop body.
  - `Calculator.PegAndReport` is the pegging and result assembly at the end of `calculate`.
- In-place mutation that only appends to a vector is modelled on values:
  - `PlannedOrder::add_pegging` and `PeggingRecord::add_path_node` are functions returning the updated value.
  - `merge_buckets` is a function from the old vector to the new one.
- `create_time_buckets` takes a planning horizon and never uses it; the model keeps the parameter unused.
- The worklist and `MrpCalculator.CalculateComponentMrp` receive the available quantity of each record (`Stock`) as a map, by value. `calculate_component_mrp` reads only `available_qty` from the record it looks up (calculator.rs:189-192).
- `create_inventory_map` (calculator.rs:263-268) clones each record into its map. `MrpCalculator.CreateInventoryMap` stores the caller's `Inventory` objects instead. The run only reads them, so the two cannot be told apart.
- The Python bindings (`mrp-ffi`), the optimizer crate, the cache crate's other modules and the example programs are not part of this model.
