/** Lot-sizing rules (`LotSizingCalculator`): turn the net-requirement rows
    of one component into planned orders. Each order is due on its row's
    date, is released `lead_time_days` working days earlier, and has its
    quantity passed through `adjust_order_quantity`. */
module LotSizing {
  import opened Wrappers
  import opened MrpCore
  import opened Dates
  import opened Config
  import opened Calendar
  import opened Plans
  import opened Netting

  /** `determine_order_type`: buying makes a purchase, making a
      production order, and a transfer a transfer. */
  function DetermineOrderType(p: ProcurementType): (t: PlannedOrderType)
    ensures p == Buy <==> t == Purchase
    ensures p == Make <==> t == Production
    ensures p == ProcurementType.Transfer <==> t == PlannedOrderType.Transfer
  {
    match p
    case Buy => Purchase
    case Make => Production
    case Transfer => PlannedOrderType.Transfer
  }

  /** Stepping back by the lead time terminates: either there is no lead
      time or the calendar has a working weekday. */
  predicate Plannable(cfg: MrpConfig, s: Schedule) {
    cfg.leadTimeDays == 0 || HasWorkingWeekday(s)
  }

  /** The planned order every rule emits for a due date and a quantity. */
  function MakeOrder(componentId: ComponentId, cfg: MrpConfig, s: Schedule, id: Uuid, quantity: Quantity, date: Date): PlannedOrder
    requires Plannable(cfg, s)
  {
    NewPlannedOrder(id, componentId, quantity, date, ShiftBack(s, date, cfg.leadTimeDays), DetermineOrderType(cfg.procurementType))
  }

  /** Builds the order every rule emits: released `lead_time_days`
      working days before `date` on the calendar. */
  method Release(componentId: ComponentId, cfg: MrpConfig, cal: WorkCalendar, id: Uuid, quantity: Quantity, date: Date)
    returns (order: PlannedOrder)
    requires Plannable(cfg, cal.Data())
    ensures order == MakeOrder(componentId, cfg, cal.Data(), id, quantity, date)
  {
    var orderDate := cal.SubtractWorkingDays(date, cfg.leadTimeDays);
    order := NewPlannedOrder(id, componentId, quantity, date, orderDate, DetermineOrderType(cfg.procurementType));
  }

  /** What every rule promises of each order it emits: ids are drawn in
      order from `firstId`, the order is for the component, its type
      follows the procurement type, it is released `lead_time_days`
      working days before it is due, it carries no pegging yet, and its
      quantity respects the configured maximum. */
  predicate WellFormed(orders: seq<PlannedOrder>, componentId: ComponentId, cfg: MrpConfig, s: Schedule, firstId: nat)
    requires Plannable(cfg, s)
  {
    forall k :: 0 <= k < |orders| ==> OrderConforms(orders[k], componentId, cfg, s, firstId + k)
  }

  /** One order of `WellFormed`, with its expected id. */
  predicate OrderConforms(o: PlannedOrder, componentId: ComponentId, cfg: MrpConfig, s: Schedule, id: nat)
    requires Plannable(cfg, s)
  {
    o.id == id &&
    o.componentId == componentId &&
    o.orderType == DetermineOrderType(cfg.procurementType) &&
    o.orderDate == ShiftBack(s, o.requiredDate, cfg.leadTimeDays) &&
    o.sourceId.None? && o.pegging == [] &&
    (cfg.maximumOrderQty.Some? ==> o.quantity <= cfg.maximumOrderQty.value)
  }

  /** An order made for an adjusted quantity conforms. */
  lemma MadeOrderConforms(componentId: ComponentId, cfg: MrpConfig, s: Schedule, id: nat, q: Quantity, date: Date)
    requires Plannable(cfg, s)
    ensures OrderConforms(MakeOrder(componentId, cfg, s, id, cfg.AdjustOrderQuantity(q), date), componentId, cfg, s, id)
  {
  }

  lemma WellFormedCons(o: PlannedOrder, rest: seq<PlannedOrder>, componentId: ComponentId, cfg: MrpConfig, s: Schedule, firstId: nat)
    requires Plannable(cfg, s)
    requires OrderConforms(o, componentId, cfg, s, firstId)
    requires WellFormed(rest, componentId, cfg, s, firstId + 1)
    ensures WellFormed([o] + rest, componentId, cfg, s, firstId)
  {
    var all := [o] + rest;
    forall k | 1 <= k < |all| ensures all[k] == rest[k - 1] { }
  }

  lemma AppendOrder(before: seq<PlannedOrder>, order: PlannedOrder, after: seq<PlannedOrder>)
    ensures (before + [order]) + after == before + ([order] + after)
  {
  }

  // ---------------------------------------------------------------- lot for lot

  /** Lot for lot, from row `i`: one order per row with a positive net
      requirement, for the adjusted net requirement. */
  function LotForLotFrom(componentId: ComponentId, rows: seq<NetRequirement>, i: nat, cfg: MrpConfig, s: Schedule, firstId: nat): (orders: seq<PlannedOrder>)
    requires i <= |rows| && Plannable(cfg, s)
    ensures |orders| <= |rows| - i
    decreases |rows| - i
  {
    if i == |rows| then []
    else if rows[i].netRequirement > 0 then
      [MakeOrder(componentId, cfg, s, firstId, cfg.AdjustOrderQuantity(rows[i].netRequirement), rows[i].date)]
        + LotForLotFrom(componentId, rows, i + 1, cfg, s, firstId + 1)
    else
      LotForLotFrom(componentId, rows, i + 1, cfg, s, firstId)
  }

  function LotForLotOrders(componentId: ComponentId, rows: seq<NetRequirement>, cfg: MrpConfig, s: Schedule, firstId: nat): seq<PlannedOrder>
    requires Plannable(cfg, s)
  {
    LotForLotFrom(componentId, rows, 0, cfg, s, firstId)
  }

  /** The rows from row `i` on with a positive net requirement, in
      order. */
  function PositiveFrom(rows: seq<NetRequirement>, i: nat): seq<NetRequirement>
    requires i <= |rows|
    decreases |rows| - i
  {
    if i == |rows| then []
    else (if rows[i].netRequirement > 0 then [rows[i]] else []) + PositiveFrom(rows, i + 1)
  }

  /** Lot for lot emits exactly one order per row with a positive net
      requirement, in row order, due on that row's date and for that
      row's adjusted net requirement. */
  lemma {:induction false} LotForLotMatchesRows(componentId: ComponentId, rows: seq<NetRequirement>, i: nat, cfg: MrpConfig, s: Schedule, firstId: nat)
    requires i <= |rows| && Plannable(cfg, s)
    ensures var orders, pos := LotForLotFrom(componentId, rows, i, cfg, s, firstId), PositiveFrom(rows, i);
      |orders| == |pos| &&
      forall k :: 0 <= k < |orders| ==>
        orders[k].requiredDate == pos[k].date &&
        orders[k].quantity == cfg.AdjustOrderQuantity(pos[k].netRequirement)
    decreases |rows| - i
  {
    if i < |rows| {
      if rows[i].netRequirement > 0 {
        LotForLotMatchesRows(componentId, rows, i + 1, cfg, s, firstId + 1);
        var orders, pos := LotForLotFrom(componentId, rows, i, cfg, s, firstId), PositiveFrom(rows, i);
        var orders', pos' := LotForLotFrom(componentId, rows, i + 1, cfg, s, firstId + 1), PositiveFrom(rows, i + 1);
        assert orders[1..] == orders' && pos[1..] == pos';
        forall k | 1 <= k < |orders|
          ensures orders[k].requiredDate == pos[k].date
          ensures orders[k].quantity == cfg.AdjustOrderQuantity(pos[k].netRequirement)
        {
          assert orders[k] == orders'[k - 1] && pos[k] == pos'[k - 1];
        }
      } else {
        LotForLotMatchesRows(componentId, rows, i + 1, cfg, s, firstId);
      }
    }
  }

  /** `lot_for_lot` */
  method LotForLotRule(componentId: ComponentId, rows: seq<NetRequirement>, cfg: MrpConfig, cal: WorkCalendar, firstId: nat)
    returns (res: Result<seq<PlannedOrder>, MrpError>)
    requires Plannable(cfg, cal.Data())
    ensures res == Success(LotForLotOrders(componentId, rows, cfg, cal.Data(), firstId))
  {
    var orders: seq<PlannedOrder> := [];
    var nextId := firstId;
    var i := 0;
    while i < |rows|
      invariant 0 <= i <= |rows|
      invariant orders + LotForLotFrom(componentId, rows, i, cfg, cal.Data(), nextId)
                == LotForLotOrders(componentId, rows, cfg, cal.Data(), firstId)
    {
      var req := rows[i];
      if req.netRequirement > 0 {
        var quantity := cfg.AdjustOrderQuantity(req.netRequirement);
        var order := Release(componentId, cfg, cal, nextId, quantity, req.date);
        AppendOrder(orders, order, LotForLotFrom(componentId, rows, i + 1, cfg, cal.Data(), nextId + 1));
        orders := orders + [order];
        nextId := nextId + 1;
      }
      i := i + 1;
    }
    assert orders + [] == orders;
    return Success(orders);
  }

  // ------------------------------------------------------- fixed order quantity

  /** Ceiling of a / b, for positive a and b, by repeated subtraction. */
  function CeilDiv(a: int, b: int): (c: nat)
    requires a > 0 && b > 0
    ensures c >= 1
    decreases a
  {
    if a <= b then 1 else 1 + CeilDiv(a - b, b)
  }

  /** The ceiling is the least number of b-sized lots that cover a. */
  lemma {:induction false} CeilDivBounds(a: int, b: int)
    requires a > 0 && b > 0
    ensures b * CeilDiv(a, b) >= a && b * (CeilDiv(a, b) - 1) < a
    decreases a
  {
    if a > b {
      CeilDivBounds(a - b, b);
      var c := CeilDiv(a - b, b);
      assert b * (c + 1) == b * c + b;
    }
  }

  /** The number of lots: the ceiling of shortage / lot, read back as a
      32-bit unsigned integer, or 1 when it does not fit. */
  function Batches(shortage: Quantity, lot: Quantity): (b: nat)
    requires shortage > 0 && lot > 0
    ensures 1 <= b <= U32_MAX
    ensures b == CeilDiv(shortage, lot) || (b == 1 && CeilDiv(shortage, lot) > U32_MAX)
  {
    var c := CeilDiv(shortage, lot);
    if c <= U32_MAX then c else 1
  }

  /** While it fits in 32 bits, the number of lots makes the smallest
      multiple of the lot size that covers the shortage. */
  lemma BatchesCover(shortage: Quantity, lot: Quantity)
    requires shortage > 0 && lot > 0
    requires CeilDiv(shortage, lot) <= U32_MAX
    ensures var b := Batches(shortage, lot);
      lot * b >= shortage && lot * (b - 1) < shortage
  {
    CeilDivBounds(shortage, lot);
  }

  /** The quantity ordered when the running balance `b` is below the
      safety stock: whole lots covering the shortage, then adjusted. */
  function FixedLotQuantity(cfg: MrpConfig, lot: Quantity, b: Quantity): Quantity
    requires lot > 0 && b < cfg.safetyStock
  {
    cfg.AdjustOrderQuantity(lot * Batches(cfg.safetyStock - b, lot))
  }

  /** Fixed lot size, from row `i` with running balance `balance`: the
      balance moves by receipts minus requirements; when it falls below
      safety stock, enough whole lots to cover the shortage are ordered
      (after adjustment) and the balance grows by the adjusted quantity. */
  function FixedLotFrom(componentId: ComponentId, rows: seq<NetRequirement>, i: nat, cfg: MrpConfig, s: Schedule,
                        lot: Quantity, balance: Quantity, firstId: nat): (orders: seq<PlannedOrder>)
    requires i <= |rows| && lot > 0 && Plannable(cfg, s)
    ensures |orders| <= |rows| - i
    decreases |rows| - i
  {
    if i == |rows| then []
    else
      var b := balance - rows[i].grossRequirement + rows[i].scheduledReceipt;
      if b < cfg.safetyStock then
        var adjusted := FixedLotQuantity(cfg, lot, b);
        [MakeOrder(componentId, cfg, s, firstId, adjusted, rows[i].date)]
          + FixedLotFrom(componentId, rows, i + 1, cfg, s, lot, b + adjusted, firstId + 1)
      else
        FixedLotFrom(componentId, rows, i + 1, cfg, s, lot, b, firstId)
  }

  /** The fixed-lot orders for all rows, starting from a zero balance. */
  function FixedLotOrders(componentId: ComponentId, rows: seq<NetRequirement>, cfg: MrpConfig, s: Schedule,
                          lot: Quantity, firstId: nat): seq<PlannedOrder>
    requires lot > 0 && Plannable(cfg, s)
  {
    FixedLotFrom(componentId, rows, 0, cfg, s, lot, 0, firstId)
  }

  /** With no maximum to cap it, every fixed-lot order brings the running
      balance back to at least the safety stock. */
  lemma FixedLotRestoresSafetyStock(cfg: MrpConfig, lot: Quantity, b: Quantity)
    requires lot > 0 && b < cfg.safetyStock && cfg.maximumOrderQty.None?
    requires CeilDiv(cfg.safetyStock - b, lot) <= U32_MAX
    ensures b + FixedLotQuantity(cfg, lot, b) >= cfg.safetyStock
  {
    BatchesCover(cfg.safetyStock - b, lot);
  }

  /** The loop shared by the fixed-order-quantity and economic-order-
      quantity rules, for a given lot size. */
  method FixedLotLoop(componentId: ComponentId, rows: seq<NetRequirement>, cfg: MrpConfig, cal: WorkCalendar,
                      lot: Quantity, firstId: nat) returns (orders: seq<PlannedOrder>)
    requires lot > 0 && Plannable(cfg, cal.Data())
    ensures orders == FixedLotOrders(componentId, rows, cfg, cal.Data(), lot, firstId)
  {
    orders := [];
    var remainingInventory := 0;
    var nextId := firstId;
    var i := 0;
    while i < |rows|
      invariant 0 <= i <= |rows|
      invariant orders + FixedLotFrom(componentId, rows, i, cfg, cal.Data(), lot, remainingInventory, nextId)
                == FixedLotOrders(componentId, rows, cfg, cal.Data(), lot, firstId)
    {
      var req := rows[i];
      ghost var before := remainingInventory;
      remainingInventory := remainingInventory - req.grossRequirement;
      remainingInventory := remainingInventory + req.scheduledReceipt;
      if remainingInventory < cfg.safetyStock {
        var shortage := cfg.safetyStock - remainingInventory;
        var batchesNeeded := Batches(shortage, lot);
        var orderQuantity := lot * batchesNeeded;
        var adjustedQuantity := cfg.AdjustOrderQuantity(orderQuantity);
        var order := Release(componentId, cfg, cal, nextId, adjustedQuantity, req.date);
        FixedLotOrderStep(componentId, rows, i, cfg, cal.Data(), lot, before, remainingInventory, adjustedQuantity, nextId, order);
        AppendOrder(orders, order, FixedLotFrom(componentId, rows, i + 1, cfg, cal.Data(), lot, remainingInventory + adjustedQuantity, nextId + 1));
        orders := orders + [order];
        nextId := nextId + 1;
        remainingInventory := remainingInventory + adjustedQuantity;
      } else {
        FixedLotSkipStep(componentId, rows, i, cfg, cal.Data(), lot, before, remainingInventory, nextId);
      }
      i := i + 1;
    }
    assert orders + [] == orders;
  }

  /** One row of `FixedLotFrom` that orders. */
  lemma FixedLotOrderStep(componentId: ComponentId, rows: seq<NetRequirement>, i: nat, cfg: MrpConfig, s: Schedule,
                          lot: Quantity, balance: Quantity, b: Quantity, adjusted: Quantity, firstId: nat, order: PlannedOrder)
    requires i < |rows| && lot > 0 && Plannable(cfg, s)
    requires b == balance - rows[i].grossRequirement + rows[i].scheduledReceipt && b < cfg.safetyStock
    requires adjusted == FixedLotQuantity(cfg, lot, b)
    requires order == MakeOrder(componentId, cfg, s, firstId, adjusted, rows[i].date)
    ensures FixedLotFrom(componentId, rows, i, cfg, s, lot, balance, firstId)
         == [order] + FixedLotFrom(componentId, rows, i + 1, cfg, s, lot, b + adjusted, firstId + 1)
  {
  }

  /** One row of `FixedLotFrom` that does not order. */
  lemma FixedLotSkipStep(componentId: ComponentId, rows: seq<NetRequirement>, i: nat, cfg: MrpConfig, s: Schedule,
                         lot: Quantity, balance: Quantity, b: Quantity, firstId: nat)
    requires i < |rows| && lot > 0 && Plannable(cfg, s)
    requires b == balance - rows[i].grossRequirement + rows[i].scheduledReceipt && b >= cfg.safetyStock
    ensures FixedLotFrom(componentId, rows, i, cfg, s, lot, balance, firstId) == FixedLotFrom(componentId, rows, i + 1, cfg, s, lot, b, firstId)
  {
  }

  /** A configured lot size is positive: the fixed-lot rules divide by it. */
  predicate LotSizePositive(cfg: MrpConfig) {
    cfg.fixedLotSize.Some? ==> cfg.fixedLotSize.value > 0
  }

  /** Only the fixed-order-quantity and economic-order-quantity rules read
      the configured lot size, so only they need it positive. */
  predicate LotSizeUsable(cfg: MrpConfig) {
    (cfg.lotSizingRule == FixedOrderQuantity || cfg.lotSizingRule == EconomicOrderQuantity) ==> LotSizePositive(cfg)
  }

  /** `fixed_order_quantity`: fails with `MissingLotSize` when no lot size
      is configured. */
  method FixedOrderQuantityRule(componentId: ComponentId, rows: seq<NetRequirement>, cfg: MrpConfig, cal: WorkCalendar, firstId: nat)
    returns (res: Result<seq<PlannedOrder>, MrpError>)
    requires LotSizePositive(cfg) && Plannable(cfg, cal.Data())
    ensures cfg.fixedLotSize.None? ==> res == Failure(MissingLotSize)
    ensures cfg.fixedLotSize.Some? ==>
              res == Success(FixedLotOrders(componentId, rows, cfg, cal.Data(), cfg.fixedLotSize.value, firstId))
  {
    if cfg.fixedLotSize.None? {
      return Failure(MissingLotSize);
    }
    var orders := FixedLotLoop(componentId, rows, cfg, cal, cfg.fixedLotSize.value, firstId);
    return Success(orders);
  }

  // ---------------------------------------------------- economic order quantity

  /** Sum of the net requirements of the rows. */
  function TotalNet(rows: seq<NetRequirement>): Quantity {
    if rows == [] then 0 else rows[0].netRequirement + TotalNet(rows[1..])
  }

  /** The lot size of the economic-order-quantity rule: the configured
      fixed lot size; otherwise, when there is a positive total
      requirement, the square-root estimate (computed in floating point by
      the source and supplied here as `sqrtEstimate`); otherwise 100. */
  function EoqLotSize(rows: seq<NetRequirement>, cfg: MrpConfig, sqrtEstimate: Quantity): (lot: Quantity)
    requires LotSizePositive(cfg) && sqrtEstimate > 0
    ensures lot > 0
    ensures cfg.fixedLotSize.Some? ==> lot == cfg.fixedLotSize.value
    ensures cfg.fixedLotSize.None? && TotalNet(rows) <= 0 ==> lot == 100
  {
    match cfg.fixedLotSize
    case Some(size) => size
    case None => if TotalNet(rows) > 0 then sqrtEstimate else 100
  }

  /** `economic_order_quantity`: the fixed-lot loop with the lot size
      above. */
  method EconomicOrderQuantityRule(componentId: ComponentId, rows: seq<NetRequirement>, cfg: MrpConfig, cal: WorkCalendar,
                                   firstId: nat, sqrtEstimate: Quantity)
    returns (res: Result<seq<PlannedOrder>, MrpError>)
    requires LotSizePositive(cfg) && Plannable(cfg, cal.Data()) && sqrtEstimate > 0
    ensures res == Success(FixedLotOrders(componentId, rows, cfg, cal.Data(), EoqLotSize(rows, cfg, sqrtEstimate), firstId))
  {
    var eoqSize: Quantity;
    if cfg.fixedLotSize.Some? {
      eoqSize := cfg.fixedLotSize.value;
    } else {
      var totalRequirement := TotalNet(rows);
      if totalRequirement > 0 {
        eoqSize := sqrtEstimate;
      } else {
        eoqSize := 100;
      }
    }
    var orders := FixedLotLoop(componentId, rows, cfg, cal, eoqSize, firstId);
    return Success(orders);
  }

  // ----------------------------------------------------- period order quantity

  /** The period of the period-order-quantity rule, in days. */
  const PeriodDays: int := 7

  /** Scanning from `j`, the index of the first row dated `PeriodDays` or
      more days after the row at `start` (or the end of the rows). */
  function RunEnd(rows: seq<NetRequirement>, start: nat, j: nat): (e: nat)
    requires start < |rows| && j <= |rows|
    ensures j <= e <= |rows|
    ensures e < |rows| ==> rows[e].date - rows[start].date >= PeriodDays
    decreases |rows| - j
  {
    if j == |rows| || rows[j].date - rows[start].date >= PeriodDays then j
    else RunEnd(rows, start, j + 1)
  }

  /** The end (exclusive) of the period that starts at row `start`. */
  function PeriodEnd(rows: seq<NetRequirement>, start: nat): (e: nat)
    requires start < |rows|
    ensures start < e <= |rows|
  {
    RunEnd(rows, start, start)
  }

  /** Every row the scan passes over lies within the period. */
  lemma {:induction false} RunEndWithin(rows: seq<NetRequirement>, start: nat, j: nat, k: nat)
    requires start < |rows| && j <= |rows| && j <= k < RunEnd(rows, start, j)
    ensures rows[k].date - rows[start].date < PeriodDays
    decreases |rows| - j
  {
    if k > j {
      RunEndWithin(rows, start, j + 1, k);
    }
  }

  /** Sum of the net requirements of rows `i` (inclusive) to `j`
      (exclusive). */
  function TotalRange(rows: seq<NetRequirement>, i: nat, j: nat): Quantity
    requires i <= j <= |rows|
    decreases j - i
  {
    if i == j then 0 else TotalRange(rows, i, j - 1) + rows[j - 1].netRequirement
  }

  /** Orders of the period-order-quantity rule from row `i`: one order
      per period whose total net requirement is positive, due at the
      period's first date, for the adjusted total. */
  function PeriodOrdersFrom(componentId: ComponentId, rows: seq<NetRequirement>, i: nat, cfg: MrpConfig, s: Schedule, firstId: nat): (orders: seq<PlannedOrder>)
    requires i <= |rows| && Plannable(cfg, s)
    decreases |rows| - i
  {
    if i == |rows| then []
    else
      var e := PeriodEnd(rows, i);
      var total := TotalRange(rows, i, e);
      if total > 0 then
        [MakeOrder(componentId, cfg, s, firstId, cfg.AdjustOrderQuantity(total), rows[i].date)]
          + PeriodOrdersFrom(componentId, rows, e, cfg, s, firstId + 1)
      else
        PeriodOrdersFrom(componentId, rows, e, cfg, s, firstId)
  }

  function PeriodOrders(componentId: ComponentId, rows: seq<NetRequirement>, cfg: MrpConfig, s: Schedule, firstId: nat): (orders: seq<PlannedOrder>)
    requires Plannable(cfg, s)
  {
    PeriodOrdersFrom(componentId, rows, 0, cfg, s, firstId)
  }

  /** The periods from row `i`: each starts at the first row not yet
      covered and takes the rows that follow while they are dated within
      `PeriodDays` of its first row. */
  function PeriodsFrom(rows: seq<NetRequirement>, i: nat): (ps: seq<seq<NetRequirement>>)
    requires i <= |rows|
    decreases |rows| - i
  {
    if i == |rows| then []
    else
      var e := PeriodEnd(rows, i);
      [rows[i..e]] + PeriodsFrom(rows, e)
  }

  function Concat(ps: seq<seq<NetRequirement>>): seq<NetRequirement> {
    if ps == [] then [] else ps[0] + Concat(ps[1..])
  }

  /** The periods split the rows: every row falls in exactly one period,
      in order. */
  lemma {:induction false} PeriodsPartition(rows: seq<NetRequirement>, i: nat)
    requires i <= |rows|
    ensures Concat(PeriodsFrom(rows, i)) == rows[i..]
    decreases |rows| - i
  {
    if i < |rows| {
      var e := PeriodEnd(rows, i);
      PeriodsPartition(rows, e);
      assert rows[i..] == rows[i..e] + rows[e..];
    }
  }

  /** Every period is non-empty, spans less than `PeriodDays` days after
      its first row, and is followed by a row dated at least `PeriodDays`
      days after that first row. */
  lemma {:induction false} PeriodsWithinWindow(rows: seq<NetRequirement>, i: nat)
    requires i <= |rows|
    ensures forall p :: p in PeriodsFrom(rows, i) ==>
              p != [] && forall r :: r in p ==> r.date - p[0].date < PeriodDays
    decreases |rows| - i
  {
    if i < |rows| {
      var e := PeriodEnd(rows, i);
      PeriodsWithinWindow(rows, e);
      var head := rows[i..e];
      assert head[0] == rows[i];
      forall r | r in head ensures r.date - head[0].date < PeriodDays {
        var k :| 0 <= k < |head| && head[k] == r;
        RunEndWithin(rows, i, i, i + k);
      }
    }
  }

  /** One order per period with a positive total net requirement, due at
      the period's first date: the rule stated over the periods. */
  function PeriodOrdersOf(componentId: ComponentId, ps: seq<seq<NetRequirement>>, cfg: MrpConfig, s: Schedule, firstId: nat): (orders: seq<PlannedOrder>)
    requires Plannable(cfg, s)
    ensures |orders| <= |ps|
  {
    if ps == [] then []
    else
      var total := TotalNet(ps[0]);
      if total > 0 then
        [MakeOrder(componentId, cfg, s, firstId, cfg.AdjustOrderQuantity(total), ps[0][0].date)]
          + PeriodOrdersOf(componentId, ps[1..], cfg, s, firstId + 1)
      else
        PeriodOrdersOf(componentId, ps[1..], cfg, s, firstId)
  }

  lemma {:induction false} TotalRangeIsTotalNet(rows: seq<NetRequirement>, i: nat, j: nat)
    requires i <= j <= |rows|
    ensures TotalRange(rows, i, j) == TotalNet(rows[i..j])
    decreases j - i
  {
    if i < j {
      TotalRangeIsTotalNet(rows, i, j - 1);
      SumSnoc(rows[i..j]);
      assert rows[i..j][..j - i - 1] == rows[i..j - 1];
    }
  }

  /** The scanning definition agrees with the one stated over the
      periods. */
  lemma {:induction false} PeriodOrdersFromPeriods(componentId: ComponentId, rows: seq<NetRequirement>, i: nat, cfg: MrpConfig, s: Schedule, firstId: nat)
    requires i <= |rows| && Plannable(cfg, s)
    ensures PeriodOrdersFrom(componentId, rows, i, cfg, s, firstId) == PeriodOrdersOf(componentId, PeriodsFrom(rows, i), cfg, s, firstId)
    decreases |rows| - i
  {
    if i < |rows| {
      var e := PeriodEnd(rows, i);
      var ps := PeriodsFrom(rows, i);
      assert ps[0] == rows[i..e] && ps[1..] == PeriodsFrom(rows, e);
      assert ps[0][0] == rows[i];
      TotalRangeIsTotalNet(rows, i, e);
      PeriodOrdersFromPeriods(componentId, rows, e, cfg, s, firstId + 1);
      PeriodOrdersFromPeriods(componentId, rows, e, cfg, s, firstId);
    }
  }

  /** The inner loop of `period_order_quantity`: sums the net
      requirements of the rows from `start` while they are dated within
      `PeriodDays` of the row at `start`, and returns the index of the last
      row summed. */
  method CollectPeriod(rows: seq<NetRequirement>, start: nat) returns (total: Quantity, endIndex: nat)
    requires start < |rows|
    ensures endIndex + 1 == PeriodEnd(rows, start)
    ensures total == TotalRange(rows, start, endIndex + 1)
  {
    var periodStartDate := rows[start].date;
    total := 0;
    endIndex := start;
    var idx := start;
    while idx < |rows|
      invariant start <= idx <= |rows|
      invariant RunEnd(rows, start, idx) == PeriodEnd(rows, start)
      invariant idx > start ==> endIndex == idx - 1
      invariant total == TotalRange(rows, start, idx)
      decreases |rows| - idx
    {
      if rows[idx].date - periodStartDate < PeriodDays {
        total := total + rows[idx].netRequirement;
        endIndex := idx;
        idx := idx + 1;
      } else {
        break;
      }
    }
  }

  /** One period of `PeriodOrdersFrom`, ending before row `e`. */
  lemma PeriodStep(componentId: ComponentId, rows: seq<NetRequirement>, i: nat, e: nat, total: Quantity,
                   cfg: MrpConfig, s: Schedule, firstId: nat, order: PlannedOrder)
    requires i < |rows| && Plannable(cfg, s)
    requires e == PeriodEnd(rows, i) && total == TotalRange(rows, i, e)
    requires total > 0 ==> order == MakeOrder(componentId, cfg, s, firstId, cfg.AdjustOrderQuantity(total), rows[i].date)
    ensures total > 0 ==>
      PeriodOrdersFrom(componentId, rows, i, cfg, s, firstId) == [order] + PeriodOrdersFrom(componentId, rows, e, cfg, s, firstId + 1)
    ensures total <= 0 ==>
      PeriodOrdersFrom(componentId, rows, i, cfg, s, firstId) == PeriodOrdersFrom(componentId, rows, e, cfg, s, firstId)
  {
  }

  /** `period_order_quantity` */
  method PeriodOrderQuantityRule(componentId: ComponentId, rows: seq<NetRequirement>, cfg: MrpConfig, cal: WorkCalendar, firstId: nat)
    returns (res: Result<seq<PlannedOrder>, MrpError>)
    requires Plannable(cfg, cal.Data())
    ensures res == Success(PeriodOrders(componentId, rows, cfg, cal.Data(), firstId))
  {
    var orders: seq<PlannedOrder> := [];
    var nextId := firstId;
    var periodStartIndex := 0;
    while periodStartIndex < |rows|
      invariant 0 <= periodStartIndex <= |rows|
      invariant orders + PeriodOrdersFrom(componentId, rows, periodStartIndex, cfg, cal.Data(), nextId)
                == PeriodOrders(componentId, rows, cfg, cal.Data(), firstId)
      decreases |rows| - periodStartIndex
    {
      var periodStartDate := rows[periodStartIndex].date;
      var periodTotal, periodEndIndex := CollectPeriod(rows, periodStartIndex);
      if periodTotal > 0 {
        var adjustedQuantity := cfg.AdjustOrderQuantity(periodTotal);
        var order := Release(componentId, cfg, cal, nextId, adjustedQuantity, periodStartDate);
        PeriodStep(componentId, rows, periodStartIndex, periodEndIndex + 1, periodTotal, cfg, cal.Data(), nextId, order);
        AppendOrder(orders, order, PeriodOrdersFrom(componentId, rows, periodEndIndex + 1, cfg, cal.Data(), nextId + 1));
        orders := orders + [order];
        nextId := nextId + 1;
      } else {
        PeriodStep(componentId, rows, periodStartIndex, periodEndIndex + 1, periodTotal, cfg, cal.Data(), nextId,
                   MakeOrder(componentId, cfg, cal.Data(), nextId, 0, periodStartDate));
      }
      periodStartIndex := periodEndIndex + 1;
    }
    assert orders + [] == orders;
    return Success(orders);
  }

  lemma {:induction false} SumSnoc(rows: seq<NetRequirement>)
    requires rows != []
    ensures TotalNet(rows) == TotalNet(rows[..|rows| - 1]) + rows[|rows| - 1].netRequirement
    decreases |rows|
  {
    if |rows| > 1 {
      SumSnoc(rows[1..]);
      assert rows[1..][..|rows| - 2] == rows[..|rows| - 1][1..];
    }
  }

  // ------------------------------------------------------------------- min-max

  /** The reorder level: the minimum order quantity, or the safety stock. */
  function MinLevel(cfg: MrpConfig): Quantity {
    cfg.minimumOrderQty.GetOr(cfg.safetyStock)
  }

  /** The order-up-to level: the maximum order quantity, or twice the
      reorder level. */
  function MaxLevel(cfg: MrpConfig): Quantity {
    cfg.maximumOrderQty.GetOr(MinLevel(cfg) * 2)
  }

  /** Min-max, from row `i` with running balance `balance`: when the
      balance falls below the reorder level, order (after adjustment) what
      brings it up to the order-up-to level, and add the adjusted quantity
      to the balance. */
  function MinMaxFrom(componentId: ComponentId, rows: seq<NetRequirement>, i: nat, cfg: MrpConfig, s: Schedule,
                      balance: Quantity, firstId: nat): (orders: seq<PlannedOrder>)
    requires i <= |rows| && Plannable(cfg, s)
    ensures |orders| <= |rows| - i
    decreases |rows| - i
  {
    if i == |rows| then []
    else
      var b := balance - rows[i].grossRequirement + rows[i].scheduledReceipt;
      if b < MinLevel(cfg) then
        var adjusted := cfg.AdjustOrderQuantity(MaxLevel(cfg) - b);
        [MakeOrder(componentId, cfg, s, firstId, adjusted, rows[i].date)]
          + MinMaxFrom(componentId, rows, i + 1, cfg, s, b + adjusted, firstId + 1)
      else
        MinMaxFrom(componentId, rows, i + 1, cfg, s, b, firstId)
  }

  function MinMaxOrders(componentId: ComponentId, rows: seq<NetRequirement>, cfg: MrpConfig, s: Schedule, firstId: nat): seq<PlannedOrder>
    requires Plannable(cfg, s)
  {
    MinMaxFrom(componentId, rows, 0, cfg, s, 0, firstId)
  }

  /** With no maximum configured, a min-max order lifts the balance to at
      least the order-up-to level. */
  lemma MinMaxRefills(cfg: MrpConfig, b: Quantity)
    requires cfg.maximumOrderQty.None? && b < MinLevel(cfg)
    ensures b + cfg.AdjustOrderQuantity(MaxLevel(cfg) - b) >= MaxLevel(cfg)
  {
  }

  /** One row of `MinMaxFrom` that orders. */
  lemma MinMaxOrderStep(componentId: ComponentId, rows: seq<NetRequirement>, i: nat, cfg: MrpConfig, s: Schedule,
                        balance: Quantity, b: Quantity, adjusted: Quantity, firstId: nat, order: PlannedOrder)
    requires i < |rows| && Plannable(cfg, s)
    requires b == balance - rows[i].grossRequirement + rows[i].scheduledReceipt && b < MinLevel(cfg)
    requires adjusted == cfg.AdjustOrderQuantity(MaxLevel(cfg) - b)
    requires order == MakeOrder(componentId, cfg, s, firstId, adjusted, rows[i].date)
    ensures MinMaxFrom(componentId, rows, i, cfg, s, balance, firstId)
         == [order] + MinMaxFrom(componentId, rows, i + 1, cfg, s, b + adjusted, firstId + 1)
  {
  }

  /** One row of `MinMaxFrom` that does not order. */
  lemma MinMaxSkipStep(componentId: ComponentId, rows: seq<NetRequirement>, i: nat, cfg: MrpConfig, s: Schedule,
                       balance: Quantity, b: Quantity, firstId: nat)
    requires i < |rows| && Plannable(cfg, s)
    requires b == balance - rows[i].grossRequirement + rows[i].scheduledReceipt && b >= MinLevel(cfg)
    ensures MinMaxFrom(componentId, rows, i, cfg, s, balance, firstId) == MinMaxFrom(componentId, rows, i + 1, cfg, s, b, firstId)
  {
  }

  /** `min_max` */
  method MinMaxRule(componentId: ComponentId, rows: seq<NetRequirement>, cfg: MrpConfig, cal: WorkCalendar, firstId: nat)
    returns (res: Result<seq<PlannedOrder>, MrpError>)
    requires Plannable(cfg, cal.Data())
    ensures res == Success(MinMaxOrders(componentId, rows, cfg, cal.Data(), firstId))
  {
    var minLevel := cfg.minimumOrderQty.GetOr(cfg.safetyStock);
    var maxLevel := cfg.maximumOrderQty.GetOr(minLevel * 2);
    assert minLevel == MinLevel(cfg) && maxLevel == MaxLevel(cfg);
    var orders: seq<PlannedOrder> := [];
    var currentInventory := 0;
    var nextId := firstId;
    var i := 0;
    while i < |rows|
      invariant 0 <= i <= |rows|
      invariant orders + MinMaxFrom(componentId, rows, i, cfg, cal.Data(), currentInventory, nextId)
                == MinMaxOrders(componentId, rows, cfg, cal.Data(), firstId)
    {
      var req := rows[i];
      ghost var before := currentInventory;
      currentInventory := currentInventory - req.grossRequirement;
      currentInventory := currentInventory + req.scheduledReceipt;
      if currentInventory < minLevel {
        var orderQuantity := maxLevel - currentInventory;
        var adjustedQuantity := cfg.AdjustOrderQuantity(orderQuantity);
        var order := Release(componentId, cfg, cal, nextId, adjustedQuantity, req.date);
        MinMaxOrderStep(componentId, rows, i, cfg, cal.Data(), before, currentInventory, adjustedQuantity, nextId, order);
        AppendOrder(orders, order, MinMaxFrom(componentId, rows, i + 1, cfg, cal.Data(), currentInventory + adjustedQuantity, nextId + 1));
        assert orders + [order] + MinMaxFrom(componentId, rows, i + 1, cfg, cal.Data(), currentInventory + adjustedQuantity, nextId + 1)
               == MinMaxOrders(componentId, rows, cfg, cal.Data(), firstId);
        orders := orders + [order];
        nextId := nextId + 1;
        currentInventory := currentInventory + adjustedQuantity;
      } else {
        MinMaxSkipStep(componentId, rows, i, cfg, cal.Data(), before, currentInventory, nextId);
      }
      i := i + 1;
    }
    assert orders + [] == orders;
    return Success(orders);
  }

  // ------------------------------------------------------------ well-formedness

  lemma {:induction false} LotForLotWellFormed(componentId: ComponentId, rows: seq<NetRequirement>, i: nat, cfg: MrpConfig, s: Schedule, firstId: nat)
    requires i <= |rows| && Plannable(cfg, s)
    ensures WellFormed(LotForLotFrom(componentId, rows, i, cfg, s, firstId), componentId, cfg, s, firstId)
    decreases |rows| - i
  {
    if i < |rows| {
      if rows[i].netRequirement > 0 {
        LotForLotWellFormed(componentId, rows, i + 1, cfg, s, firstId + 1);
        MadeOrderConforms(componentId, cfg, s, firstId, rows[i].netRequirement, rows[i].date);
        WellFormedCons(MakeOrder(componentId, cfg, s, firstId, cfg.AdjustOrderQuantity(rows[i].netRequirement), rows[i].date),
                       LotForLotFrom(componentId, rows, i + 1, cfg, s, firstId + 1), componentId, cfg, s, firstId);
      } else {
        LotForLotWellFormed(componentId, rows, i + 1, cfg, s, firstId);
      }
    }
  }

  lemma {:induction false} FixedLotWellFormed(componentId: ComponentId, rows: seq<NetRequirement>, i: nat, cfg: MrpConfig, s: Schedule,
                                              lot: Quantity, balance: Quantity, firstId: nat)
    requires i <= |rows| && lot > 0 && Plannable(cfg, s)
    ensures WellFormed(FixedLotFrom(componentId, rows, i, cfg, s, lot, balance, firstId), componentId, cfg, s, firstId)
    decreases |rows| - i
  {
    if i < |rows| {
      var b := balance - rows[i].grossRequirement + rows[i].scheduledReceipt;
      if b < cfg.safetyStock {
        var adjusted := FixedLotQuantity(cfg, lot, b);
        var order := MakeOrder(componentId, cfg, s, firstId, adjusted, rows[i].date);
        FixedLotWellFormed(componentId, rows, i + 1, cfg, s, lot, b + adjusted, firstId + 1);
        MadeOrderConforms(componentId, cfg, s, firstId, lot * Batches(cfg.safetyStock - b, lot), rows[i].date);
        WellFormedCons(order, FixedLotFrom(componentId, rows, i + 1, cfg, s, lot, b + adjusted, firstId + 1), componentId, cfg, s, firstId);
        FixedLotOrderStep(componentId, rows, i, cfg, s, lot, balance, b, adjusted, firstId, order);
      } else {
        FixedLotWellFormed(componentId, rows, i + 1, cfg, s, lot, b, firstId);
        FixedLotSkipStep(componentId, rows, i, cfg, s, lot, balance, b, firstId);
      }
    }
  }

  lemma {:induction false} PeriodOrdersWellFormed(componentId: ComponentId, ps: seq<seq<NetRequirement>>, cfg: MrpConfig, s: Schedule, firstId: nat)
    requires Plannable(cfg, s)
    ensures WellFormed(PeriodOrdersOf(componentId, ps, cfg, s, firstId), componentId, cfg, s, firstId)
    decreases |ps|
  {
    if ps != [] {
      var total := TotalNet(ps[0]);
      if total > 0 {
        PeriodOrdersWellFormed(componentId, ps[1..], cfg, s, firstId + 1);
        MadeOrderConforms(componentId, cfg, s, firstId, total, ps[0][0].date);
        WellFormedCons(MakeOrder(componentId, cfg, s, firstId, cfg.AdjustOrderQuantity(total), ps[0][0].date),
                       PeriodOrdersOf(componentId, ps[1..], cfg, s, firstId + 1), componentId, cfg, s, firstId);
      } else {
        PeriodOrdersWellFormed(componentId, ps[1..], cfg, s, firstId);
      }
    }
  }

  lemma {:induction false} MinMaxWellFormed(componentId: ComponentId, rows: seq<NetRequirement>, i: nat, cfg: MrpConfig, s: Schedule,
                                            balance: Quantity, firstId: nat)
    requires i <= |rows| && Plannable(cfg, s)
    ensures WellFormed(MinMaxFrom(componentId, rows, i, cfg, s, balance, firstId), componentId, cfg, s, firstId)
    decreases |rows| - i
  {
    if i < |rows| {
      var b := balance - rows[i].grossRequirement + rows[i].scheduledReceipt;
      if b < MinLevel(cfg) {
        var adjusted := cfg.AdjustOrderQuantity(MaxLevel(cfg) - b);
        var order := MakeOrder(componentId, cfg, s, firstId, adjusted, rows[i].date);
        MinMaxWellFormed(componentId, rows, i + 1, cfg, s, b + adjusted, firstId + 1);
        MadeOrderConforms(componentId, cfg, s, firstId, MaxLevel(cfg) - b, rows[i].date);
        WellFormedCons(order, MinMaxFrom(componentId, rows, i + 1, cfg, s, b + adjusted, firstId + 1), componentId, cfg, s, firstId);
        MinMaxOrderStep(componentId, rows, i, cfg, s, balance, b, adjusted, firstId, order);
      } else {
        MinMaxWellFormed(componentId, rows, i + 1, cfg, s, b, firstId);
        MinMaxSkipStep(componentId, rows, i, cfg, s, balance, b, firstId);
      }
    }
  }

  lemma {:induction false} PeriodsCount(rows: seq<NetRequirement>, i: nat)
    requires i <= |rows|
    ensures |PeriodsFrom(rows, i)| <= |rows| - i
    decreases |rows| - i
  {
    if i < |rows| {
      PeriodsCount(rows, PeriodEnd(rows, i));
    }
  }

  // --------------------------------------------------------------------- apply

  /** What `apply` returns: the result of the rule the configuration
      names, and of no other. Only the fixed-order-quantity rule can fail,
      and only for want of a lot size. */
  function PlanOrders(componentId: ComponentId, rows: seq<NetRequirement>, cfg: MrpConfig, s: Schedule,
                      firstId: nat, sqrtEstimate: Quantity): (res: Result<seq<PlannedOrder>, MrpError>)
    requires LotSizeUsable(cfg) && Plannable(cfg, s) && sqrtEstimate > 0
    ensures res.Failure? <==> cfg.lotSizingRule == FixedOrderQuantity && cfg.fixedLotSize.None?
    ensures res.Failure? ==> res.error == MissingLotSize
    ensures res.Success? ==> WellFormed(res.value, componentId, cfg, s, firstId) && |res.value| <= |rows|
  {
    match cfg.lotSizingRule
    case LotForLot =>
      LotForLotWellFormed(componentId, rows, 0, cfg, s, firstId);
      Success(LotForLotOrders(componentId, rows, cfg, s, firstId))
    case FixedOrderQuantity =>
      if cfg.fixedLotSize.None? then Failure(MissingLotSize)
      else
        FixedLotWellFormed(componentId, rows, 0, cfg, s, cfg.fixedLotSize.value, 0, firstId);
        Success(FixedLotOrders(componentId, rows, cfg, s, cfg.fixedLotSize.value, firstId))
    case EconomicOrderQuantity =>
      FixedLotWellFormed(componentId, rows, 0, cfg, s, EoqLotSize(rows, cfg, sqrtEstimate), 0, firstId);
      Success(FixedLotOrders(componentId, rows, cfg, s, EoqLotSize(rows, cfg, sqrtEstimate), firstId))
    case PeriodOrderQuantity =>
      PeriodOrdersFromPeriods(componentId, rows, 0, cfg, s, firstId);
      PeriodOrdersWellFormed(componentId, PeriodsFrom(rows, 0), cfg, s, firstId);
      PeriodsCount(rows, 0);
      Success(PeriodOrders(componentId, rows, cfg, s, firstId))
    case MinMax =>
      MinMaxWellFormed(componentId, rows, 0, cfg, s, 0, firstId);
      Success(MinMaxOrders(componentId, rows, cfg, s, firstId))
  }

  /** `apply`: dispatches on the configured rule. */
  method Apply(componentId: ComponentId, rows: seq<NetRequirement>, cfg: MrpConfig, cal: WorkCalendar,
               firstId: nat, sqrtEstimate: Quantity)
    returns (res: Result<seq<PlannedOrder>, MrpError>)
    requires LotSizeUsable(cfg) && Plannable(cfg, cal.Data()) && sqrtEstimate > 0
    ensures res == PlanOrders(componentId, rows, cfg, cal.Data(), firstId, sqrtEstimate)
  {
    match cfg.lotSizingRule
    case LotForLot => res := LotForLotRule(componentId, rows, cfg, cal, firstId);
    case FixedOrderQuantity => res := FixedOrderQuantityRule(componentId, rows, cfg, cal, firstId);
    case EconomicOrderQuantity => res := EconomicOrderQuantityRule(componentId, rows, cfg, cal, firstId, sqrtEstimate);
    case PeriodOrderQuantity => res := PeriodOrderQuantityRule(componentId, rows, cfg, cal, firstId);
    case MinMax => res := MinMaxRule(componentId, rows, cfg, cal, firstId);
  }

  /** Neither the quantity adjustment nor the order itself depends on the
      configured rule. */
  lemma OrderIgnoresRule(componentId: ComponentId, cfg: MrpConfig, s: Schedule, rule: LotSizingRule, lot: Quantity,
                         b: Quantity, id: nat, date: Date)
    requires lot > 0 && b < cfg.safetyStock && Plannable(cfg, s)
    ensures FixedLotQuantity(cfg.WithLotSizingRule(rule), lot, b) == FixedLotQuantity(cfg, lot, b)
    ensures MakeOrder(componentId, cfg.WithLotSizingRule(rule), s, id, FixedLotQuantity(cfg, lot, b), date)
         == MakeOrder(componentId, cfg, s, id, FixedLotQuantity(cfg, lot, b), date)
  {
    var other := cfg.WithLotSizingRule(rule);
    assert other.minimumOrderQty == cfg.minimumOrderQty && other.orderMultiple == cfg.orderMultiple
        && other.maximumOrderQty == cfg.maximumOrderQty && other.safetyStock == cfg.safetyStock
        && other.leadTimeDays == cfg.leadTimeDays && other.procurementType == cfg.procurementType;
  }

  /** The fixed-lot recursion does not look at which rule is configured. */
  lemma {:induction false} FixedLotIgnoresRule(componentId: ComponentId, rows: seq<NetRequirement>, i: nat, cfg: MrpConfig, s: Schedule,
                                               rule: LotSizingRule, lot: Quantity, balance: Quantity, firstId: nat)
    requires i <= |rows| && lot > 0 && Plannable(cfg, s)
    ensures FixedLotFrom(componentId, rows, i, cfg.WithLotSizingRule(rule), s, lot, balance, firstId)
         == FixedLotFrom(componentId, rows, i, cfg, s, lot, balance, firstId)
    decreases |rows| - i
  {
    var other := cfg.WithLotSizingRule(rule);
    assert other.safetyStock == cfg.safetyStock && other.leadTimeDays == cfg.leadTimeDays;
    if i < |rows| {
      var b := balance - rows[i].grossRequirement + rows[i].scheduledReceipt;
      if b < cfg.safetyStock {
        var adjusted := FixedLotQuantity(cfg, lot, b);
        OrderIgnoresRule(componentId, cfg, s, rule, lot, b, firstId, rows[i].date);
        FixedLotIgnoresRule(componentId, rows, i + 1, cfg, s, rule, lot, b + adjusted, firstId + 1);
        FixedLotOrderStep(componentId, rows, i, other, s, lot, balance, b, adjusted, firstId,
                          MakeOrder(componentId, cfg, s, firstId, adjusted, rows[i].date));
        FixedLotOrderStep(componentId, rows, i, cfg, s, lot, balance, b, adjusted, firstId,
                          MakeOrder(componentId, cfg, s, firstId, adjusted, rows[i].date));
      } else {
        FixedLotIgnoresRule(componentId, rows, i + 1, cfg, s, rule, lot, b, firstId);
        FixedLotSkipStep(componentId, rows, i, other, s, lot, balance, b, firstId);
        FixedLotSkipStep(componentId, rows, i, cfg, s, lot, balance, b, firstId);
      }
    }
  }

  /** With a fixed lot size configured, the economic-order-quantity rule
      plans exactly what the fixed-order-quantity rule plans. */
  lemma EoqWithFixedLotIsFixed(componentId: ComponentId, rows: seq<NetRequirement>, cfg: MrpConfig, s: Schedule,
                               firstId: nat, sqrtEstimate: Quantity)
    requires LotSizePositive(cfg) && Plannable(cfg, s) && sqrtEstimate > 0
    requires cfg.fixedLotSize.Some?
    ensures PlanOrders(componentId, rows, cfg.WithLotSizingRule(EconomicOrderQuantity), s, firstId, sqrtEstimate)
         == PlanOrders(componentId, rows, cfg.WithLotSizingRule(FixedOrderQuantity), s, firstId, sqrtEstimate)
  {
    var lot := cfg.fixedLotSize.value;
    FixedLotIgnoresRule(componentId, rows, 0, cfg, s, EconomicOrderQuantity, lot, 0, firstId);
    FixedLotIgnoresRule(componentId, rows, 0, cfg, s, FixedOrderQuantity, lot, 0, firstId);
  }
}
