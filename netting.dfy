/** Net-requirement calculation (`NettingCalculator`): walks the date
    buckets in order, carrying the projected on-hand balance from one
    bucket to the next. */
module Netting {
  import opened Wrappers
  import opened MrpCore
  import opened Dates
  import opened Demands
  import opened Supplies

  datatype NetRequirement = NetRequirement(
    date: Date,
    grossRequirement: Quantity,
    scheduledReceipt: Quantity,
    projectedOnHand: Quantity,
    netRequirement: Quantity)

  /** `NetRequirement::new`: a row for the date with every quantity 0. */
  function NewNetRequirement(date: Date): (r: NetRequirement)
    ensures r.date == date
    ensures r.grossRequirement == 0 && r.scheduledReceipt == 0
    ensures r.projectedOnHand == 0 && r.netRequirement == 0
  {
    NetRequirement(date, 0, 0, 0, 0)
  }

  /** Total quantity of the demands required on `date`. */
  function GrossOn(demands: seq<Demand>, date: Date): Quantity {
    if demands == [] then 0
    else (if demands[0].requiredDate == date then demands[0].quantity else 0) + GrossOn(demands[1..], date)
  }

  /** Total quantity of the supplies available on `date`. */
  function ReceiptOn(supplies: seq<Supply>, date: Date): Quantity {
    if supplies == [] then 0
    else (if supplies[0].availableDate == date then supplies[0].quantity else 0) + ReceiptOn(supplies[1..], date)
  }

  /** The net requirement of a bucket. Refusing negative stock, it is what
      brings the projected balance up to the safety stock; allowing it, it
      is what brings a negative balance up to zero, and safety stock plays
      no part. */
  function NetFor(projected: Quantity, safetyStock: Quantity, allowNegative: bool): (net: Quantity)
    ensures net >= 0
    ensures !allowNegative ==> (net == 0 <==> projected >= safetyStock)
    ensures !allowNegative && net > 0 ==> projected + net == safetyStock
    ensures allowNegative ==> (net == 0 <==> projected >= 0)
    ensures allowNegative && net > 0 ==> projected + net == 0
  {
    if allowNegative then
      if projected < 0 then -projected else 0
    else
      if projected < safetyStock then safetyStock - projected else 0
  }

  /** The row of one bucket, given the balance carried into it. */
  function RowFor(demands: seq<Demand>, supplies: seq<Supply>, carried: Quantity, safetyStock: Quantity,
                  date: Date, allowNegative: bool): NetRequirement
  {
    var gross := GrossOn(demands, date);
    var receipt := ReceiptOn(supplies, date);
    var projected := carried + receipt - gross;
    NetRequirement(date, gross, receipt, projected, NetFor(projected, safetyStock, allowNegative))
  }

  /** The rows for `buckets` when `carried` is on hand before the first;
      each bucket passes its raw projected balance on to the next. */
  function Rows(demands: seq<Demand>, supplies: seq<Supply>, carried: Quantity, safetyStock: Quantity,
                buckets: seq<Date>, allowNegative: bool): seq<NetRequirement>
    decreases |buckets|
  {
    if buckets == [] then []
    else
      var row := RowFor(demands, supplies, carried, safetyStock, buckets[0], allowNegative);
      [row] + Rows(demands, supplies, row.projectedOnHand, safetyStock, buckets[1..], allowNegative)
  }

  /** Sum of receipt minus gross requirement over the buckets. */
  function Flow(demands: seq<Demand>, supplies: seq<Supply>, buckets: seq<Date>): Quantity {
    if buckets == [] then 0
    else Flow(demands, supplies, buckets[..|buckets| - 1])
         + ReceiptOn(supplies, buckets[|buckets| - 1]) - GrossOn(demands, buckets[|buckets| - 1])
  }

  /** `NettingCalculator::calculate`. It never fails. */
  method Calculate(demands: seq<Demand>, supplies: seq<Supply>, initialInventory: Quantity,
                   safetyStock: Quantity, timeBuckets: seq<Date>, allowNegative: bool)
    returns (res: Result<seq<NetRequirement>, MrpError>)
    ensures res.Success?
    ensures res.value == Rows(demands, supplies, initialInventory, safetyStock, timeBuckets, allowNegative)
  {
    var results: seq<NetRequirement> := [];
    var currentInventory := initialInventory;
    var i := 0;
    while i < |timeBuckets|
      invariant 0 <= i <= |timeBuckets|
      invariant results + Rows(demands, supplies, currentInventory, safetyStock, timeBuckets[i..], allowNegative)
                == Rows(demands, supplies, initialInventory, safetyStock, timeBuckets, allowNegative)
    {
      var date := timeBuckets[i];
      var grossReq := GrossOn(demands, date);
      var scheduledReceipt := ReceiptOn(supplies, date);
      var projectedOnHand := currentInventory + scheduledReceipt - grossReq;
      var netReq := NetFor(projectedOnHand, safetyStock, allowNegative);
      var row := NetRequirement(date, grossReq, scheduledReceipt, projectedOnHand, netReq);
      RowsStep(demands, supplies, currentInventory, safetyStock, timeBuckets, i, allowNegative, results, row);
      results := results + [row];
      currentInventory := projectedOnHand;
      i := i + 1;
    }
    assert timeBuckets[i..] == [];
    return Success(results);
  }

  /** One bucket of the loop of `Calculate`. */
  lemma RowsStep(demands: seq<Demand>, supplies: seq<Supply>, carried: Quantity, safetyStock: Quantity,
                 buckets: seq<Date>, i: nat, allowNegative: bool, results: seq<NetRequirement>, row: NetRequirement)
    requires i < |buckets|
    requires row == RowFor(demands, supplies, carried, safetyStock, buckets[i], allowNegative)
    ensures results + Rows(demands, supplies, carried, safetyStock, buckets[i..], allowNegative)
         == (results + [row]) + Rows(demands, supplies, row.projectedOnHand, safetyStock, buckets[i + 1..], allowNegative)
  {
    assert buckets[i..][0] == buckets[i] && buckets[i..][1..] == buckets[i + 1..];
  }

  /** Row k of the result is about bucket k: its sums are those of the
      demands and supplies dated that day, its projected balance is the
      initial inventory plus all receipts minus all requirements up to and
      including that bucket, and its net requirement follows from that
      balance. */
  lemma {:induction false} RowsAt(demands: seq<Demand>, supplies: seq<Supply>, carried: Quantity, safetyStock: Quantity,
                                  buckets: seq<Date>, allowNegative: bool, k: nat)
    requires k < |buckets|
    decreases |buckets|
    ensures var rows := Rows(demands, supplies, carried, safetyStock, buckets, allowNegative);
      |rows| == |buckets| &&
      rows[k].date == buckets[k] &&
      rows[k].grossRequirement == GrossOn(demands, buckets[k]) &&
      rows[k].scheduledReceipt == ReceiptOn(supplies, buckets[k]) &&
      rows[k].projectedOnHand == carried + Flow(demands, supplies, buckets[..k + 1]) &&
      rows[k].netRequirement == NetFor(rows[k].projectedOnHand, safetyStock, allowNegative)
  {
    var row := RowFor(demands, supplies, carried, safetyStock, buckets[0], allowNegative);
    if k == 0 {
      RowsLength(demands, supplies, carried, safetyStock, buckets, allowNegative);
      assert buckets[..1][..0] == [];
    } else {
      RowsAt(demands, supplies, row.projectedOnHand, safetyStock, buckets[1..], allowNegative, k - 1);
      FlowFront(demands, supplies, buckets[..k + 1]);
      assert buckets[..k + 1][1..] == buckets[1..][..k];
    }
  }

  lemma {:induction false} RowsLength(demands: seq<Demand>, supplies: seq<Supply>, carried: Quantity, safetyStock: Quantity,
                                      buckets: seq<Date>, allowNegative: bool)
    ensures |Rows(demands, supplies, carried, safetyStock, buckets, allowNegative)| == |buckets|
    decreases |buckets|
  {
    if buckets != [] {
      var row := RowFor(demands, supplies, carried, safetyStock, buckets[0], allowNegative);
      RowsLength(demands, supplies, row.projectedOnHand, safetyStock, buckets[1..], allowNegative);
    }
  }

  /** Flow can be peeled off at the front as well as at the back. */
  lemma {:induction false} FlowFront(demands: seq<Demand>, supplies: seq<Supply>, buckets: seq<Date>)
    requires buckets != []
    ensures Flow(demands, supplies, buckets)
            == ReceiptOn(supplies, buckets[0]) - GrossOn(demands, buckets[0]) + Flow(demands, supplies, buckets[1..])
  {
    if |buckets| > 1 {
      var init := buckets[..|buckets| - 1];
      FlowFront(demands, supplies, init);
      assert init[1..] == buckets[1..][..|buckets[1..]| - 1];
    }
  }

  /** The three tests on one bucket with 100 required: on hand 30 and
      safety stock 10 give 80 when negative stock is refused and 70 when
      it is allowed; on hand 100 against 50 required with safety stock 30
      gives no requirement when negative stock is allowed. */
  lemma AllowNegativeExamples(item: Demand, richer: Demand)
    requires item.quantity == 100 && richer.quantity == 50
    requires item.requiredDate == 0 && richer.requiredDate == 0
    ensures var r := Rows([item], [], 30, 10, [0], false); r[0].projectedOnHand == -70 && r[0].netRequirement == 80
    ensures var r := Rows([item], [], 30, 10, [0], true); r[0].projectedOnHand == -70 && r[0].netRequirement == 70
    ensures var r := Rows([richer], [], 100, 30, [0], true); r[0].projectedOnHand == 50 && r[0].netRequirement == 0
  {
    assert [item][1..] == [] && [richer][1..] == [] && [0][1..] == [];
    GrossSingle(item, 0);
    GrossSingle(richer, 0);
    assert Rows([item], [], 30, 10, [0], false) == [RowFor([item], [], 30, 10, 0, false)];
  }

  lemma GrossSingle(d: Demand, date: Date)
    ensures GrossOn([d], date) == if d.requiredDate == date then d.quantity else 0
  {
    assert [d][1..] == [];
  }

  /** The cumulative test: 30 required on each of three days, 100 on hand,
      no safety stock: the balance goes 70, 40, 10. */
  lemma CumulativeExample(d1: Demand, d2: Demand, d3: Demand)
    requires d1.quantity == 30 && d2.quantity == 30 && d3.quantity == 30
    requires d1.requiredDate == 1 && d2.requiredDate == 2 && d3.requiredDate == 3
    ensures var r := Rows([d1, d2, d3], [], 100, 0, [1, 2, 3], false);
      |r| == 3 && r[0].projectedOnHand == 70 && r[1].projectedOnHand == 40 && r[2].projectedOnHand == 10
  {
    var ds := [d1, d2, d3];
    assert ds[1..] == [d2, d3] && [d2, d3][1..] == [d3] && [d3][1..] == [];
    GrossSingle(d3, 1);
    GrossSingle(d3, 2);
    GrossSingle(d3, 3);
    assert GrossOn([d2, d3], 1) == 0 && GrossOn([d2, d3], 2) == 30 && GrossOn([d2, d3], 3) == 30;
    assert GrossOn(ds, 1) == 30 && GrossOn(ds, 2) == 30 && GrossOn(ds, 3) == 30;
    var r0 := RowFor(ds, [], 100, 0, 1, false);
    var r1 := RowFor(ds, [], 70, 0, 2, false);
    var r2 := RowFor(ds, [], 40, 0, 3, false);
    assert [1, 2, 3][1..] == [2, 3] && [2, 3][1..] == [3] && [3][1..] == [];
    assert Rows(ds, [], 100, 0, [1, 2, 3], false) == [r0, r1, r2];
  }
}
