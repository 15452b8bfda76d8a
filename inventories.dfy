/** `Inventory`: on-hand stock of one component, the part of it already
    allocated, and the rest that is available. */
module Inventories {
  import opened Wrappers
  import opened MrpCore

  /** The two refusals of `allocate` and `deallocate`, with the figures
      their messages report. */
  datatype InventoryError =
    | InsufficientAvailable(requested: Quantity, available: Quantity)
    | ExceedsAllocated(requested: Quantity, allocatedQty: Quantity)

  class Inventory {
    var componentId: ComponentId
    var onHandQty: Quantity
    var safetyStock: Quantity
    var allocatedQty: Quantity
    var availableQty: Quantity
    var warehouseId: Option<string>

    /** The relation every operation re-establishes: available is what is
        on hand and not allocated. */
    predicate Consistent()
      reads this
    {
      availableQty == onHandQty - allocatedQty
    }

    /** `Inventory::new`: nothing allocated, everything available. */
    constructor (componentId: ComponentId, onHandQty: Quantity, safetyStock: Quantity)
      ensures this.componentId == componentId && this.onHandQty == onHandQty && this.safetyStock == safetyStock
      ensures allocatedQty == 0 && availableQty == onHandQty && warehouseId.None?
      ensures Consistent()
    {
      this.componentId := componentId;
      this.onHandQty := onHandQty;
      this.safetyStock := safetyStock;
      allocatedQty := 0;
      availableQty := onHandQty;
      warehouseId := None;
    }

    /** `with_allocated_qty`: sets the allocation and recomputes what is
        available. */
    method WithAllocatedQty(q: Quantity)
      modifies this
      ensures allocatedQty == q && Consistent()
      ensures componentId == old(componentId) && onHandQty == old(onHandQty)
      ensures safetyStock == old(safetyStock) && warehouseId == old(warehouseId)
    {
      allocatedQty := q;
      availableQty := onHandQty - q;
    }

    /** `with_warehouse_id` */
    method WithWarehouseId(w: string)
      modifies this
      ensures warehouseId == Some(w)
      ensures componentId == old(componentId) && onHandQty == old(onHandQty) && safetyStock == old(safetyStock)
      ensures allocatedQty == old(allocatedQty) && availableQty == old(availableQty)
    {
      warehouseId := Some(w);
    }

    /** `calculate_available` */
    method CalculateAvailable()
      modifies this`availableQty
      ensures Consistent()
    {
      availableQty := onHandQty - allocatedQty;
    }

    /** `is_below_safety_stock` */
    predicate IsBelowSafetyStock()
      reads this
    {
      availableQty < safetyStock
    }

    /** `replenishment_needed`: how far available stock is below safety
        stock, or 0. */
    function ReplenishmentNeeded(): (r: Quantity)
      reads this
      ensures r >= 0
      ensures r > 0 <==> IsBelowSafetyStock()
      ensures IsBelowSafetyStock() ==> availableQty + r == safetyStock
    {
      if IsBelowSafetyStock() then safetyStock - availableQty else 0
    }

    /** `allocate`: refused, with nothing changed, when more is asked than
        is available; otherwise the allocation grows by the quantity. */
    method Allocate(q: Quantity) returns (res: Result<(), InventoryError>)
      modifies this`allocatedQty, this`availableQty
      ensures q > old(availableQty) ==>
                res == Failure(InsufficientAvailable(q, old(availableQty))) &&
                allocatedQty == old(allocatedQty) && availableQty == old(availableQty)
      ensures q <= old(availableQty) ==>
                res.Success? && allocatedQty == old(allocatedQty) + q && Consistent()
    {
      if q > availableQty {
        return Failure(InsufficientAvailable(q, availableQty));
      }
      allocatedQty := allocatedQty + q;
      CalculateAvailable();
      res := Success(());
    }

    /** `deallocate`: refused, with nothing changed, when more is released
        than is allocated; otherwise the allocation shrinks by the
        quantity. */
    method Deallocate(q: Quantity) returns (res: Result<(), InventoryError>)
      modifies this`allocatedQty, this`availableQty
      ensures q > old(allocatedQty) ==>
                res == Failure(ExceedsAllocated(q, old(allocatedQty))) &&
                allocatedQty == old(allocatedQty) && availableQty == old(availableQty)
      ensures q <= old(allocatedQty) ==>
                res.Success? && allocatedQty == old(allocatedQty) - q && Consistent()
    {
      if q > allocatedQty {
        return Failure(ExceedsAllocated(q, allocatedQty));
      }
      allocatedQty := allocatedQty - q;
      CalculateAvailable();
      res := Success(());
    }
  }

  /** The allocation test: 100 on hand, allocate 50, a refused 60, release
      30. */
  method AllocationScenario() returns (inv: Inventory)
    ensures inv.onHandQty == 100 && inv.allocatedQty == 20 && inv.availableQty == 80
  {
    inv := new Inventory("FRAME-001", 100, 10);
    var r1 := inv.Allocate(50);
    assert r1.Success? && inv.availableQty == 50;
    var r2 := inv.Allocate(60);
    assert r2.Failure?;
    var r3 := inv.Deallocate(30);
    assert r3.Success?;
  }
}
