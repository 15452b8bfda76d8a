/** `PlannedOrder` and `PeggingRecord`: the orders the engine proposes and
    the links from an order back to the demands it covers. */
module Plans {
  import opened Wrappers
  import opened MrpCore
  import opened Dates

  datatype PlannedOrderType = Purchase | Production | Transfer

  /** Which demand an order covers, by how much, and along which chain of
      components. */
  datatype PeggingRecord = PeggingRecord(demandId: Uuid, quantity: Quantity, path: seq<string>)
  {
    /** `with_path`: replaces the path. */
    function WithPath(p: seq<string>): (r: PeggingRecord)
      ensures r.path == p && r.Depth() == |p|
      ensures r.demandId == demandId && r.quantity == quantity
    {
      this.(path := p)
    }

    /** `add_path_node`: one more level at the end of the path. */
    function AddPathNode(node: string): (r: PeggingRecord)
      ensures r.Depth() == Depth() + 1
      ensures r.path[..|path|] == path && r.path[|path|] == node
      ensures r.demandId == demandId && r.quantity == quantity
    {
      this.(path := path + [node])
    }

    /** `depth`: the number of levels in the path. */
    function Depth(): (n: nat)
      ensures n == 0 <==> path == []
    {
      |path|
    }
  }

  /** `PeggingRecord::new`: an empty path. */
  function NewPeggingRecord(demandId: Uuid, quantity: Quantity): (r: PeggingRecord)
    ensures r.demandId == demandId && r.quantity == quantity
    ensures r.path == [] && r.Depth() == 0
  {
    PeggingRecord(demandId, quantity, [])
  }

  datatype PlannedOrder = PlannedOrder(
    id: Uuid,
    componentId: ComponentId,
    quantity: Quantity,
    requiredDate: Date,
    orderDate: Date,
    orderType: PlannedOrderType,
    sourceId: Option<string>,
    pegging: seq<PeggingRecord>)
  {
    /** `with_source_id` */
    function WithSourceId(source: string): (o: PlannedOrder)
      ensures o.sourceId == Some(source) && o.(sourceId := sourceId) == this
    {
      this.(sourceId := Some(source))
    }

    /** `with_pegging`: replaces the pegging list. */
    function WithPegging(records: seq<PeggingRecord>): (o: PlannedOrder)
      ensures o.pegging == records && o.(pegging := pegging) == this
    {
      this.(pegging := records)
    }

    /** `add_pegging`: one more record at the end; the earlier records and
        every other field stay as they were. */
    function AddPegging(record: PeggingRecord): (o: PlannedOrder)
      ensures |o.pegging| == |pegging| + 1
      ensures o.pegging[..|pegging|] == pegging && o.pegging[|pegging|] == record
      ensures o.(pegging := pegging) == this
    {
      this.(pegging := pegging + [record])
    }

    /** `lead_time_days`: calendar days from the order date to the
        required date. */
    function LeadTimeDays(): (days: int)
      ensures orderDate + days == requiredDate
    {
      requiredDate - orderDate
    }

    /** `is_purchase` */
    predicate IsPurchase()
      ensures IsPurchase() <==> orderType == Purchase
      ensures IsPurchase() ==> !IsProduction()
    {
      orderType == Purchase
    }

    /** `is_production` */
    predicate IsProduction()
      ensures IsProduction() <==> orderType == Production
    {
      orderType == Production
    }
  }

  /** `PlannedOrder::new`: no supplier or work centre and no pegging yet;
      the id is the caller's fresh identifier. */
  function NewPlannedOrder(id: Uuid, componentId: ComponentId, quantity: Quantity, requiredDate: Date,
                           orderDate: Date, orderType: PlannedOrderType): (o: PlannedOrder)
    ensures o.id == id && o.componentId == componentId && o.quantity == quantity
    ensures o.requiredDate == requiredDate && o.orderDate == orderDate && o.orderType == orderType
    ensures o.sourceId.None? && o.pegging == []
    ensures o.LeadTimeDays() == requiredDate - orderDate
  {
    PlannedOrder(id, componentId, quantity, requiredDate, orderDate, orderType, None, [])
  }
}
