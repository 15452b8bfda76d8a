/** `Supply`: a quantity of a component that becomes available on a date. */
module Supplies {
  import opened Wrappers
  import opened MrpCore
  import opened Dates

  datatype SupplyType = OnHand | PurchaseOrder | WorkOrder | Transfer | PlannedOrder

  datatype Supply = Supply(
    id: Uuid,
    componentId: ComponentId,
    quantity: Quantity,
    availableDate: Date,
    supplyType: SupplyType,
    sourceRef: Option<string>,
    isFirm: bool)
  {
    /** `with_source_ref` */
    function WithSourceRef(ref: string): (s: Supply)
      ensures s.sourceRef == Some(ref) && s.(sourceRef := sourceRef) == this
    {
      this.(sourceRef := Some(ref))
    }

    /** `as_firm`: marks the supply confirmed and changes nothing else. */
    function AsFirm(): (s: Supply)
      ensures s.isFirm && s.(isFirm := isFirm) == this
      ensures !s.IsAdjustable()
    {
      this.(isFirm := true)
    }

    /** `is_planned`: a supply the engine itself generated. */
    predicate IsPlanned()
      ensures IsPlanned() <==> supplyType == PlannedOrder
    {
      supplyType == PlannedOrder
    }

    /** `is_adjustable`: an unconfirmed planned supply. */
    predicate IsAdjustable()
      ensures IsAdjustable() ==> IsPlanned() && !isFirm
      ensures IsPlanned() && !isFirm ==> IsAdjustable()
    {
      !isFirm && IsPlanned()
    }
  }

  /** `Supply::new`: not firm, no source reference. */
  function NewSupply(id: Uuid, componentId: ComponentId, quantity: Quantity, availableDate: Date, supplyType: SupplyType): (s: Supply)
    ensures s.id == id && s.componentId == componentId && s.quantity == quantity
    ensures s.availableDate == availableDate && s.supplyType == supplyType
    ensures !s.isFirm && s.sourceRef.None?
    ensures s.IsAdjustable() <==> supplyType == PlannedOrder
  {
    Supply(id, componentId, quantity, availableDate, supplyType, None, false)
  }
}
