/** `MrpConfig`: the per-component planning parameters, and the rounding
    of an order quantity to the minimum, the order multiple and the
    maximum. */
module Config {
  import opened Wrappers
  import opened MrpCore

  datatype ProcurementType = Buy | Make | Transfer

  datatype LotSizingRule =
    | LotForLot
    | FixedOrderQuantity
    | EconomicOrderQuantity
    | PeriodOrderQuantity
    | MinMax

  /** The remainder of the source's decimal `%`: it truncates toward zero,
      so the remainder takes the sign of the dividend (unlike Dafny's
      Euclidean `%`). */
  function TruncRem(a: int, m: int): (r: int)
    requires m > 0
    ensures a >= 0 ==> r == a % m
    ensures a < 0 ==> -m < r <= 0
  {
    if a >= 0 then a % m else -((-a) % m)
  }

  datatype MrpConfig = MrpConfig(
    componentId: ComponentId,
    leadTimeDays: nat,
    lotSizingRule: LotSizingRule,
    fixedLotSize: Option<Quantity>,
    minimumOrderQty: Option<Quantity>,
    maximumOrderQty: Option<Quantity>,
    orderMultiple: Option<Quantity>,
    safetyStock: Quantity,
    planningHorizonDays: nat,
    procurementType: ProcurementType,
    mrpEnabled: bool,
    allowNegativeInventory: bool)
  {
    /** `with_lot_sizing_rule` */
    function WithLotSizingRule(rule: LotSizingRule): (c: MrpConfig)
      ensures c.lotSizingRule == rule && c.(lotSizingRule := lotSizingRule) == this
    {
      this.(lotSizingRule := rule)
    }

    /** `with_fixed_lot_size` */
    function WithFixedLotSize(size: Quantity): (c: MrpConfig)
      ensures c.fixedLotSize == Some(size) && c.(fixedLotSize := fixedLotSize) == this
    {
      this.(fixedLotSize := Some(size))
    }

    /** `with_minimum_order_qty` */
    function WithMinimumOrderQty(qty: Quantity): (c: MrpConfig)
      ensures c.minimumOrderQty == Some(qty) && c.(minimumOrderQty := minimumOrderQty) == this
    {
      this.(minimumOrderQty := Some(qty))
    }

    /** `with_maximum_order_qty` */
    function WithMaximumOrderQty(qty: Quantity): (c: MrpConfig)
      ensures c.maximumOrderQty == Some(qty) && c.(maximumOrderQty := maximumOrderQty) == this
    {
      this.(maximumOrderQty := Some(qty))
    }

    /** `with_order_multiple` */
    function WithOrderMultiple(multiple: Quantity): (c: MrpConfig)
      ensures c.orderMultiple == Some(multiple) && c.(orderMultiple := orderMultiple) == this
    {
      this.(orderMultiple := Some(multiple))
    }

    /** `with_safety_stock` */
    function WithSafetyStock(stock: Quantity): (c: MrpConfig)
      ensures c.safetyStock == stock && c.(safetyStock := safetyStock) == this
    {
      this.(safetyStock := stock)
    }

    /** `with_planning_horizon` */
    function WithPlanningHorizon(days: nat): (c: MrpConfig)
      ensures c.planningHorizonDays == days && c.(planningHorizonDays := planningHorizonDays) == this
    {
      this.(planningHorizonDays := days)
    }

    /** `with_allow_negative_inventory` */
    function WithAllowNegativeInventory(allow: bool): (c: MrpConfig)
      ensures c.allowNegativeInventory == allow && c.(allowNegativeInventory := allowNegativeInventory) == this
    {
      this.(allowNegativeInventory := allow)
    }

    /** `needs_mrp`: whether the component takes part in planning. */
    predicate NeedsMrp()
      ensures NeedsMrp() <==> mrpEnabled
    {
      mrpEnabled
    }

    /** First step of the rounding: raise to the minimum order quantity. */
    function ApplyMinimum(q: Quantity): (r: Quantity)
      ensures r >= q
      ensures minimumOrderQty.Some? ==> r >= minimumOrderQty.value
      ensures r == q || (minimumOrderQty.Some? && r == minimumOrderQty.value)
    {
      match minimumOrderQty
      case Some(minQty) => if q < minQty then minQty else q
      case None => q
    }

    /** Second step: round a non-negative quantity up to the order
        multiple. A negative quantity has a non-positive truncated
        remainder and is left alone, as is any quantity when the multiple
        is missing or not positive. */
    function ApplyMultiple(q: Quantity): (r: Quantity)
      ensures (orderMultiple.Some? && orderMultiple.value > 0 && q >= 0) ==>
                r % orderMultiple.value == 0 && q <= r < q + orderMultiple.value
      ensures !(orderMultiple.Some? && orderMultiple.value > 0 && q >= 0) ==> r == q
    {
      match orderMultiple
      case Some(multiple) =>
        if multiple > 0 then
          var remainder := TruncRem(q, multiple);
          if remainder > 0 then
            RoundUp(q, multiple);
            q - remainder + multiple
          else
            assert q >= 0 ==> q % multiple == 0;
            q
        else q
      case None => q
    }

    /** Last step: cap at the maximum order quantity. */
    function ApplyMaximum(q: Quantity): (r: Quantity)
      ensures r <= q
      ensures maximumOrderQty.Some? ==> r <= maximumOrderQty.value
      ensures r == q || (maximumOrderQty.Some? && r == maximumOrderQty.value)
    {
      match maximumOrderQty
      case Some(maxQty) => if q > maxQty then maxQty else q
      case None => q
    }

    /** `adjust_order_quantity`: minimum first, then the order multiple,
        then the maximum. */
    function AdjustOrderQuantity(q: Quantity): (r: Quantity)
      ensures minimumOrderQty.None? && orderMultiple.None? && maximumOrderQty.None? ==> r == q
      ensures maximumOrderQty.Some? ==> r <= maximumOrderQty.value
      ensures minimumOrderQty.Some? ==>
                r >= minimumOrderQty.value || (maximumOrderQty.Some? && r == maximumOrderQty.value)
      ensures r >= q || (maximumOrderQty.Some? && r == maximumOrderQty.value)
    {
      ApplyMaximum(ApplyMultiple(ApplyMinimum(q)))
    }
  }

  /** `MrpConfig::new`: lot-for-lot, no optional quantities, zero safety
      stock, a 90-day horizon, planning enabled, negative stock refused. */
  function NewConfig(componentId: ComponentId, leadTimeDays: nat, procurementType: ProcurementType): (c: MrpConfig)
    ensures c.componentId == componentId && c.leadTimeDays == leadTimeDays
    ensures c.procurementType == procurementType
    ensures c.lotSizingRule == LotForLot
    ensures c.fixedLotSize.None? && c.minimumOrderQty.None? && c.maximumOrderQty.None? && c.orderMultiple.None?
    ensures c.safetyStock == 0 && c.planningHorizonDays == 90
    ensures c.NeedsMrp() && !c.allowNegativeInventory
  {
    MrpConfig(componentId, leadTimeDays, LotForLot, None, None, None, None, 0, 90, procurementType, true, false)
  }

  /** A fresh configuration leaves every quantity as it is. */
  lemma NewConfigAdjustsNothing(componentId: ComponentId, leadTimeDays: nat, procurementType: ProcurementType, q: Quantity)
    ensures NewConfig(componentId, leadTimeDays, procurementType).AdjustOrderQuantity(q) == q
  {
  }

  /** Without a cap taking effect, the adjusted quantity is the smallest
      multiple of the order multiple that is at least the quantity raised
      to the minimum. */
  lemma AdjustIsSmallestMultiple(c: MrpConfig, q: Quantity)
    requires c.orderMultiple.Some? && c.orderMultiple.value > 0
    requires c.ApplyMinimum(q) >= 0
    requires c.maximumOrderQty.None? || c.AdjustOrderQuantity(q) < c.maximumOrderQty.value
    ensures var r, m := c.AdjustOrderQuantity(q), c.orderMultiple.value;
      r % m == 0 && r >= c.ApplyMinimum(q) &&
      forall k: int :: k % m == 0 && k >= c.ApplyMinimum(q) ==> r <= k
  {
    var p, m := c.ApplyMinimum(q), c.orderMultiple.value;
    var r := c.ApplyMultiple(p);
    assert c.AdjustOrderQuantity(q) == r;
    forall k: int | k % m == 0 && k >= p ensures r <= k {
      if k < r {
        MultiplesApart(k, r, m);
      }
    }
  }

  /** Rounding a non-negative q with a positive remainder up to the next
      multiple of m. */
  lemma RoundUp(q: int, m: int)
    requires m > 0 && q >= 0
    ensures (q - q % m + m) % m == 0
    ensures q < q - q % m + m < q + m || q % m == 0
  {
    var k := q / m;
    assert q == m * k + q % m;
    assert q - q % m + m == m * (k + 1);
    MulModZero(m, k + 1);
  }

  lemma MulModZero(m: int, j: int)
    requires m > 0
    ensures (m * j) % m == 0
  {
    var x := m * j;
    var t := j - x / m;
    assert x == m * (x / m) + x % m;
    assert m * t == x % m;
    if t >= 1 {
      MulMonotone(m, 1, t);
    } else if t <= -1 {
      MulMonotone(m, t, -1);
    }
  }

  /** Two distinct multiples of m are at least m apart. */
  lemma MultiplesApart(a: int, b: int, m: int)
    requires m > 0 && a % m == 0 && b % m == 0 && a < b
    ensures b - a >= m
  {
    var i, j := a / m, b / m;
    assert a == m * i && b == m * j;
    assert i < j by {
      if i >= j {
        MulMonotone(m, j, i);
      }
    }
    MulMonotone(m, i + 1, j);
  }

  lemma MulMonotone(m: int, i: int, j: int)
    requires m > 0 && i <= j
    ensures m * i <= m * j
  {
  }

  /** Adjusting an already adjusted quantity changes nothing. */
  lemma AdjustIdempotent(c: MrpConfig, q: Quantity)
    ensures c.AdjustOrderQuantity(c.AdjustOrderQuantity(q)) == c.AdjustOrderQuantity(q)
  {
    var a := c.ApplyMinimum(q);
    var b := c.ApplyMultiple(a);
    var r := c.ApplyMaximum(b);
    if r == b {
      // Nothing was capped: r already meets the minimum, is already a
      // multiple (or negative) and is under the maximum.
      assert c.ApplyMinimum(r) == r;
      assert c.ApplyMultiple(r) == r by {
        if c.orderMultiple.Some? && c.orderMultiple.value > 0 && r >= 0 {
          var m := c.orderMultiple.value;
          if a >= 0 {
            assert TruncRem(r, m) == 0;
          }
        }
      }
    } else {
      // r is the maximum; every step keeps it at least that high, and the
      // cap brings it back.
      var mx := c.maximumOrderQty.value;
      assert r == mx;
      assert c.ApplyMultiple(c.ApplyMinimum(r)) >= r;
    }
  }

  /** The quantities of the configuration tests. */
  lemma AdjustExamples(id: ComponentId)
    ensures var c := NewConfig(id, 3, Buy).WithMinimumOrderQty(50).WithMaximumOrderQty(500).WithOrderMultiple(10);
      c.AdjustOrderQuantity(30) == 50 && c.AdjustOrderQuantity(75) == 80 && c.AdjustOrderQuantity(600) == 500
    ensures var c := NewConfig(id, 1, Buy).WithOrderMultiple(100);
      c.AdjustOrderQuantity(123) == 200 && c.AdjustOrderQuantity(200) == 200
  {
  }
}
