/** Pegging (`PeggingCalculator`): each planned order is traced back to the
    demands it covers, allocating its quantity greedily to the demands for
    the same component on the same date. */
module Pegging {
  import opened Wrappers
  import opened MrpCore
  import opened Dates
  import opened Demands
  import opened Plans

  datatype PeggingType = SingleLevel | MultiLevel

  function Min(a: Quantity, b: Quantity): Quantity {
    if a <= b then a else b
  }

  /** `trace_parent_demand`: the path to the parent is just the parent
      reference; the demands are not searched and the call never fails. */
  function TraceParentDemand(parentId: string, demands: seq<Demand>): (r: Result<seq<string>, MrpError>)
    ensures r.Success? && |r.value| == 1 && r.value[0] == parentId
  {
    Success([parentId])
  }

  /** The path recorded for a demand: the component alone, except on a
      multi-level trace of a dependent demand with a source reference,
      where the parent path comes first. */
  function PathFor(componentId: ComponentId, demand: Demand, demands: seq<Demand>, peggingType: PeggingType): (path: seq<string>)
    ensures |path| >= 1 && path[|path| - 1] == componentId
    ensures peggingType == MultiLevel && demand.demandType == Dependent && demand.sourceRef.Some?
            ==> path == [demand.sourceRef.value, componentId]
    ensures !(peggingType == MultiLevel && demand.demandType == Dependent && demand.sourceRef.Some?)
            ==> path == [componentId]
  {
    match peggingType
    case SingleLevel => [componentId]
    case MultiLevel =>
      if demand.demandType == Dependent && demand.sourceRef.Some? then
        TraceParentDemand(demand.sourceRef.value, demands).value + [componentId]
      else
        [componentId]
  }

  predicate Matches(d: Demand, componentId: ComponentId, date: Date) {
    d.componentId == componentId && d.requiredDate == date
  }

  /** The demands for `componentId` on `date`, in input order. */
  function MatchingDemands(demands: seq<Demand>, componentId: ComponentId, date: Date): (r: seq<Demand>)
    ensures |r| <= |demands|
    ensures forall d :: d in r <==> d in demands && Matches(d, componentId, date)
  {
    if demands == [] then []
    else if Matches(demands[0], componentId, date) then
      [demands[0]] + MatchingDemands(demands[1..], componentId, date)
    else
      MatchingDemands(demands[1..], componentId, date)
  }

  /** The greedy allocation from matching demand `i` on with `remaining`
      left to allocate: each demand receives the smaller of its quantity
      and what remains, until nothing remains. */
  function PegFrom(componentId: ComponentId, matching: seq<Demand>, i: nat, remaining: Quantity,
                   demands: seq<Demand>, peggingType: PeggingType): (records: seq<PeggingRecord>)
    requires i <= |matching|
    decreases |matching| - i
  {
    if i == |matching| || remaining <= 0 then []
    else
      var pegged := Min(matching[i].quantity, remaining);
      [PeggingRecord(matching[i].id, pegged, PathFor(componentId, matching[i], demands, peggingType))]
        + PegFrom(componentId, matching, i + 1, remaining - pegged, demands, peggingType)
  }

  /** The records `trace_demand_source` returns for an order. */
  function Allocation(componentId: ComponentId, quantity: Quantity, date: Date, demands: seq<Demand>,
                      peggingType: PeggingType): seq<PeggingRecord>
  {
    PegFrom(componentId, MatchingDemands(demands, componentId, date), 0, quantity, demands, peggingType)
  }

  function SumQuantities(records: seq<PeggingRecord>): Quantity {
    if records == [] then 0 else records[0].quantity + SumQuantities(records[1..])
  }

  /** `trace_demand_source` */
  method TraceDemandSource(componentId: ComponentId, quantity: Quantity, date: Date, demands: seq<Demand>,
                           peggingType: PeggingType) returns (res: Result<seq<PeggingRecord>, MrpError>)
    ensures res == Success(Allocation(componentId, quantity, date, demands, peggingType))
  {
    var matching := MatchingDemands(demands, componentId, date);
    var records: seq<PeggingRecord> := [];
    var remaining := quantity;
    var i := 0;
    while i < |matching|
      invariant i <= |matching|
      invariant records + PegFrom(componentId, matching, i, remaining, demands, peggingType)
                == PegFrom(componentId, matching, 0, quantity, demands, peggingType)
    {
      if remaining <= 0 {
        break;
      }
      var demand := matching[i];
      var pegged := Min(demand.quantity, remaining);
      var path := PathFor(componentId, demand, demands, peggingType);
      var record := NewPeggingRecord(demand.id, pegged).WithPath(path);
      PegStep(componentId, matching, i, remaining, demands, peggingType, records, record);
      records := records + [record];
      remaining := remaining - pegged;
      i := i + 1;
    }
    assert records + [] == records;
    return Success(records);
  }

  /** One allocation step, as the loop of `TraceDemandSource` takes it. */
  lemma PegStep(componentId: ComponentId, matching: seq<Demand>, i: nat, remaining: Quantity,
                demands: seq<Demand>, peggingType: PeggingType, records: seq<PeggingRecord>, record: PeggingRecord)
    requires i < |matching| && remaining > 0
    requires record == NewPeggingRecord(matching[i].id, Min(matching[i].quantity, remaining))
                         .WithPath(PathFor(componentId, matching[i], demands, peggingType))
    ensures records + PegFrom(componentId, matching, i, remaining, demands, peggingType)
         == (records + [record]) + PegFrom(componentId, matching, i + 1, remaining - Min(matching[i].quantity, remaining), demands, peggingType)
  {
  }

  /** `record` pegs part of `demand`: its id, no more than its quantity,
      along its path. */
  predicate Pegs(record: PeggingRecord, componentId: ComponentId, demand: Demand, demands: seq<Demand>,
                 peggingType: PeggingType) {
    record.demandId == demand.id && record.quantity <= demand.quantity &&
    record.path == PathFor(componentId, demand, demands, peggingType)
  }

  /** Each record pegs the matching demand at its position, never more than
      that demand's quantity, along that demand's path; there are at most
      as many records as matching demands left. */
  lemma PegFromRecords(componentId: ComponentId, matching: seq<Demand>, i: nat, remaining: Quantity,
                       demands: seq<Demand>, peggingType: PeggingType)
    requires i <= |matching|
    ensures var r := PegFrom(componentId, matching, i, remaining, demands, peggingType);
      |r| <= |matching| - i &&
      forall k :: 0 <= k < |r| ==> Pegs(r[k], componentId, matching[i + k], demands, peggingType)
  {
    PegFromLength(componentId, matching, i, remaining, demands, peggingType);
    var r := PegFrom(componentId, matching, i, remaining, demands, peggingType);
    forall k | 0 <= k < |r|
      ensures Pegs(r[k], componentId, matching[i + k], demands, peggingType)
    {
      PegFromAt(componentId, matching, i, remaining, demands, peggingType, k);
    }
  }

  lemma {:induction false} PegFromLength(componentId: ComponentId, matching: seq<Demand>, i: nat, remaining: Quantity,
                                         demands: seq<Demand>, peggingType: PeggingType)
    requires i <= |matching|
    ensures |PegFrom(componentId, matching, i, remaining, demands, peggingType)| <= |matching| - i
    decreases |matching| - i
  {
    if i < |matching| && remaining > 0 {
      PegFromLength(componentId, matching, i + 1, remaining - Min(matching[i].quantity, remaining), demands, peggingType);
    }
  }

  /** Record `k` pegs matching demand `i + k`. */
  lemma {:induction false} PegFromAt(componentId: ComponentId, matching: seq<Demand>, i: nat, remaining: Quantity,
                                     demands: seq<Demand>, peggingType: PeggingType, k: nat)
    requires i <= |matching|
    requires k < |PegFrom(componentId, matching, i, remaining, demands, peggingType)|
    ensures i + k < |matching|
    ensures Pegs(PegFrom(componentId, matching, i, remaining, demands, peggingType)[k], componentId, matching[i + k], demands, peggingType)
    decreases k
  {
    var pegged := Min(matching[i].quantity, remaining);
    var rest := PegFrom(componentId, matching, i + 1, remaining - pegged, demands, peggingType);
    if k > 0 {
      PegFromAt(componentId, matching, i + 1, remaining - pegged, demands, peggingType, k - 1);
      assert PegFrom(componentId, matching, i, remaining, demands, peggingType)[k] == rest[k - 1];
    }
  }

  /** The records never peg more than the quantity left to allocate. */
  lemma {:induction false} PegFromSum(componentId: ComponentId, matching: seq<Demand>, i: nat, remaining: Quantity,
                                      demands: seq<Demand>, peggingType: PeggingType)
    requires i <= |matching|
    ensures SumQuantities(PegFrom(componentId, matching, i, remaining, demands, peggingType))
      <= (if remaining > 0 then remaining else 0)
    decreases |matching| - i
  {
    if i < |matching| && remaining > 0 {
      var pegged := Min(matching[i].quantity, remaining);
      PegFromSum(componentId, matching, i + 1, remaining - pegged, demands, peggingType);
      var rest := PegFrom(componentId, matching, i + 1, remaining - pegged, demands, peggingType);
      var r := PegFrom(componentId, matching, i, remaining, demands, peggingType);
      assert r[1..] == rest;
    }
  }

  /** Given positive demand quantities, an order at least as large as their
      total covers every matching demand in full. */
  lemma {:induction false} PegFromCoversAll(componentId: ComponentId, matching: seq<Demand>, i: nat, remaining: Quantity,
                                            demands: seq<Demand>, peggingType: PeggingType)
    requires i <= |matching|
    requires forall k :: i <= k < |matching| ==> matching[k].quantity > 0
    requires TotalFrom(matching, i) <= remaining
    ensures var r := PegFrom(componentId, matching, i, remaining, demands, peggingType);
      |r| == |matching| - i && forall k :: 0 <= k < |r| ==> r[k].quantity == matching[i + k].quantity
    decreases |matching| - i
  {
    if i < |matching| {
      TotalFromPositive(matching, i + 1);
      var pegged := Min(matching[i].quantity, remaining);
      assert pegged == matching[i].quantity;
      PegFromCoversAll(componentId, matching, i + 1, remaining - pegged, demands, peggingType);
      var rest := PegFrom(componentId, matching, i + 1, remaining - pegged, demands, peggingType);
      var r := PegFrom(componentId, matching, i, remaining, demands, peggingType);
      forall k | 1 <= k < |r| ensures r[k] == rest[k - 1] { }
    }
  }

  /** Total quantity of the demands from `i` on. */
  function TotalFrom(matching: seq<Demand>, i: nat): Quantity
    requires i <= |matching|
    decreases |matching| - i
  {
    if i == |matching| then 0 else matching[i].quantity + TotalFrom(matching, i + 1)
  }

  lemma {:induction false} TotalFromPositive(matching: seq<Demand>, i: nat)
    requires i <= |matching|
    requires forall k :: i <= k < |matching| ==> matching[k].quantity > 0
    ensures TotalFrom(matching, i) >= 0
    decreases |matching| - i
  {
    if i < |matching| {
      TotalFromPositive(matching, i + 1);
    }
  }

  /** Every record of an order's allocation names a demand for the order's
      component and date, covers at most that demand's quantity, and the
      records together cover at most the order quantity. */
  lemma AllocationSound(componentId: ComponentId, quantity: Quantity, date: Date, demands: seq<Demand>, peggingType: PeggingType)
    ensures var r := Allocation(componentId, quantity, date, demands, peggingType);
      SumQuantities(r) <= (if quantity > 0 then quantity else 0) &&
      forall k :: 0 <= k < |r| ==>
        (exists d :: d in demands && Matches(d, componentId, date) && d.id == r[k].demandId && r[k].quantity <= d.quantity)
  {
    var matching := MatchingDemands(demands, componentId, date);
    PegFromRecords(componentId, matching, 0, quantity, demands, peggingType);
    PegFromSum(componentId, matching, 0, quantity, demands, peggingType);
    var r := Allocation(componentId, quantity, date, demands, peggingType);
    forall k | 0 <= k < |r|
      ensures exists d :: d in demands && Matches(d, componentId, date) && d.id == r[k].demandId && r[k].quantity <= d.quantity
    {
      assert matching[k] in matching;
    }
  }

  /** The pegging map after the first orders: each order's id maps to its
      allocation, a later order with the same id replacing an earlier one. */
  function PeggingMapOf(orders: seq<PlannedOrder>, demands: seq<Demand>, peggingType: PeggingType): map<Uuid, seq<PeggingRecord>>
  {
    if orders == [] then map[]
    else
      var last := orders[|orders| - 1];
      PeggingMapOf(orders[..|orders| - 1], demands, peggingType)[last.id :=
        Allocation(last.componentId, last.quantity, last.requiredDate, demands, peggingType)]
  }

  /** `perform`: one entry per planned-order id; an order whose id no later
      order repeats maps to its own allocation. */
  method Perform(plannedOrders: seq<PlannedOrder>, originalDemands: seq<Demand>, peggingType: PeggingType)
    returns (res: Result<map<Uuid, seq<PeggingRecord>>, MrpError>)
    ensures res == Success(PeggingMapOf(plannedOrders, originalDemands, peggingType))
  {
    var peggingMap: map<Uuid, seq<PeggingRecord>> := map[];
    for i := 0 to |plannedOrders|
      invariant peggingMap == PeggingMapOf(plannedOrders[..i], originalDemands, peggingType)
    {
      var order := plannedOrders[i];
      var pegging := TraceDemandSource(order.componentId, order.quantity, order.requiredDate, originalDemands, peggingType);
      assert plannedOrders[..i + 1][..i] == plannedOrders[..i];
      peggingMap := peggingMap[order.id := pegging.value];
    }
    assert plannedOrders[..|plannedOrders|] == plannedOrders;
    return Success(peggingMap);
  }

  /** The map has exactly the ids of the orders as keys. */
  lemma {:induction false} PeggingMapKeys(orders: seq<PlannedOrder>, demands: seq<Demand>, peggingType: PeggingType)
    ensures forall id :: id in PeggingMapOf(orders, demands, peggingType) <==> exists o :: o in orders && o.id == id
  {
    if orders != [] {
      var init := orders[..|orders| - 1];
      PeggingMapKeys(init, demands, peggingType);
      assert orders == init + [orders[|orders| - 1]];
    }
  }

  /** The entry of an order whose id no later order repeats is that order's
      allocation. */
  lemma {:induction false} PeggingMapEntry(orders: seq<PlannedOrder>, demands: seq<Demand>, peggingType: PeggingType, i: nat)
    requires i < |orders|
    requires forall j :: i < j < |orders| ==> orders[j].id != orders[i].id
    ensures orders[i].id in PeggingMapOf(orders, demands, peggingType)
    ensures PeggingMapOf(orders, demands, peggingType)[orders[i].id]
         == Allocation(orders[i].componentId, orders[i].quantity, orders[i].requiredDate, demands, peggingType)
  {
    if i < |orders| - 1 {
      var init := orders[..|orders| - 1];
      PeggingMapEntry(init, demands, peggingType, i);
    }
  }

  // ------------------------------------------------------------ test scenarios

  /** Partial pegging: an order of 150 against one matching demand of 100
      pegs 100, along the single-level path [component]. */
  lemma PartialPeggingExample(d: Demand)
    requires d.componentId == "COMP-002" && d.requiredDate == 14 && d.quantity == 100
    ensures var r := Allocation("COMP-002", 150, 14, [d], SingleLevel);
      |r| == 1 && r[0].demandId == d.id && r[0].quantity == 100 && r[0].path == ["COMP-002"]
  {
    OneMatch(d, [d], "COMP-002", 14);
    assert PegFrom("COMP-002", [d], 1, 50, [d], SingleLevel) == [];
  }

  /** Two demands of 150 and 100 against an order of 300: two records
      totalling 250. */
  lemma MultipleDemandsExample(d1: Demand, d2: Demand)
    requires d1.componentId == "COMP-003" && d1.requiredDate == 19 && d1.quantity == 150
    requires d2.componentId == "COMP-003" && d2.requiredDate == 19 && d2.quantity == 100
    ensures var r := Allocation("COMP-003", 300, 19, [d1, d2], SingleLevel);
      |r| == 2 && SumQuantities(r) == 250
  {
    var ds := [d1, d2];
    assert ds[1..] == [d2];
    OneMatch(d2, ds[1..], "COMP-003", 19);
    assert MatchingDemands(ds, "COMP-003", 19) == [d1, d2];
    var r := PegFrom("COMP-003", [d1, d2], 0, 300, ds, SingleLevel);
    var rest := PegFrom("COMP-003", [d1, d2], 1, 150, ds, SingleLevel);
    assert PegFrom("COMP-003", [d1, d2], 2, 50, ds, SingleLevel) == [];
    assert r[1..] == rest && |rest| == 1 && rest[0].quantity == 100;
    assert rest[1..] == [];
    assert r[0].quantity == 150;
    assert SumQuantities(rest) == 100;
  }

  /** A demand on another date pegs nothing. */
  lemma NoMatchingDemandExample(d: Demand)
    requires d.componentId == "COMP-004" && d.requiredDate == 24
    ensures Allocation("COMP-004", 100, 14, [d], SingleLevel) == []
  {
    assert [d][1..] == [];
  }

  /** Multi-level pegging of a dependent demand with source reference
      "PARENT-001": the path is [parent, component]. */
  lemma MultiLevelExample(d: Demand)
    requires d.componentId == "CHILD-001" && d.requiredDate == 9 && d.quantity == 200
    requires d.demandType == Dependent && d.sourceRef == Some("PARENT-001")
    ensures var r := Allocation("CHILD-001", 200, 9, [d], MultiLevel);
      |r| == 1 && r[0].quantity == 200 && r[0].path == ["PARENT-001", "CHILD-001"]
  {
    OneMatch(d, [d], "CHILD-001", 9);
    assert PegFrom("CHILD-001", [d], 1, 0, [d], MultiLevel) == [];
  }

  lemma OneMatch(d: Demand, ds: seq<Demand>, componentId: ComponentId, date: Date)
    requires ds == [d] && Matches(d, componentId, date)
    ensures MatchingDemands(ds, componentId, date) == [d]
  {
    assert ds[1..] == [];
  }
}
