/** `Demand`: a requirement for a quantity of a component on a date. */
module Demands {
  import opened Wrappers
  import opened MrpCore
  import opened Dates

  datatype DemandType = SalesOrder | Forecast | SafetyStock | Dependent

  datatype Demand = Demand(
    id: Uuid,
    componentId: ComponentId,
    quantity: Quantity,
    requiredDate: Date,
    demandType: DemandType,
    sourceRef: Option<string>,
    priority: U8,
    plantId: Option<string>)
  {
    /** `with_source_ref` */
    function WithSourceRef(ref: string): (d: Demand)
      ensures d.sourceRef == Some(ref) && d.(sourceRef := sourceRef) == this
    {
      this.(sourceRef := Some(ref))
    }

    /** `with_priority`: priorities above 10 are clamped to 10. */
    function WithPriority(p: U8): (d: Demand)
      ensures d.priority <= 10
      ensures p <= 10 ==> d.priority == p
      ensures p > 10 ==> d.priority == 10
      ensures d.(priority := priority) == this
    {
      this.(priority := if p < 10 then p else 10)
    }

    /** `with_plant_id` */
    function WithPlantId(plant: string): (d: Demand)
      ensures d.plantId == Some(plant) && d.(plantId := plantId) == this
    {
      this.(plantId := Some(plant))
    }

    /** `is_independent`: sales orders, forecasts and safety-stock demand. */
    predicate IsIndependent()
      ensures IsIndependent() <==> demandType != Dependent
    {
      demandType.SalesOrder? || demandType.Forecast? || demandType.SafetyStock?
    }

    /** `is_dependent`: demand derived from a parent's planned order. */
    predicate IsDependent()
      ensures IsDependent() <==> !IsIndependent()
    {
      demandType == Dependent
    }
  }

  /** `Demand::new`: priority 5, no source reference, no plant; the id is
      the caller's fresh identifier. */
  function NewDemand(id: Uuid, componentId: ComponentId, quantity: Quantity, requiredDate: Date, demandType: DemandType): (d: Demand)
    ensures d.id == id && d.componentId == componentId && d.quantity == quantity
    ensures d.requiredDate == requiredDate && d.demandType == demandType
    ensures d.priority == 5 && d.sourceRef.None? && d.plantId.None?
  {
    Demand(id, componentId, quantity, requiredDate, demandType, None, 5, None)
  }
}
