/** Scenarios from the calculator's unit test and the integration tests,
    stated on the model. Dates are day numbers with day 0 a Monday, so
    2025-11-01, 11/3, 11/5, 11/7 and 11/8 are days 5, 7, 9, 11 and 12. */
module CalculatorExamples {
  import opened Wrappers
  import opened MrpCore
  import opened Dates
  import opened Demands
  import opened Supplies
  import opened Plans
  import opened Bucketing
  import opened Calculator

  /** `test_dynamic_time_buckets`: base buckets 11/1 and 11/5, dependent
      demands on 11/3 and 11/8 and a receipt on 11/7 give five buckets in
      date order, whatever `CreateComponentTimeBuckets` returns within its
      contract. */
  lemma DynamicTimeBucketsExample(d1: Demand, d2: Demand, s1: Supply, dates: seq<Date>)
    requires d1.requiredDate == 7 && d2.requiredDate == 12 && s1.availableDate == 11
    requires StrictlyAscending(dates)
    requires forall x :: x in dates <==> x in [5, 9] || x in RequiredDates([d1, d2]) || x in AvailableDates([s1])
    ensures dates == [5, 7, 9, 11, 12]
  {
    assert RequiredDates([d1, d2]) == [7, 12];
    assert AvailableDates([s1]) == [11];
    AscendingUnique(dates, [5, 7, 9, 11, 12]);
  }

  /** `test_single_level_bom_mrp`: an order for 100 of PRODUCT-A, whose bill
      takes 2 of PART-B, places a dependent demand for 200 of PART-B on the
      order's release date. */
  lemma SingleLevelExplosionExample(order: PlannedOrder, firstId: nat)
    requires order.quantity == 100
    ensures var r := Explosion("PRODUCT-A", [order], [BomLine("PART-B", 2)], firstId);
      |r| == 1 && r[0].componentId == "PART-B" && r[0].quantity == 200 &&
      r[0].requiredDate == order.orderDate && r[0].demandType == Dependent
  {
    assert [order][..0] == [];
  }

  /** `test_multi_level_bom_mrp`, first level: 50 bikes need 50 frames and
      100 wheels, in the order of the bill's lines. */
  lemma BikeExplosionExample(order: PlannedOrder, firstId: nat)
    requires order.quantity == 50
    ensures var r := Explosion("BIKE", [order], [BomLine("FRAME", 1), BomLine("WHEEL", 2)], firstId);
      |r| == 2 &&
      r[0].componentId == "FRAME" && r[0].quantity == 50 &&
      r[1].componentId == "WHEEL" && r[1].quantity == 100
  {
    assert [order][..0] == [];
  }

  /** `test_multi_level_bom_mrp`, second level: 50 frames need 150 steel
      tubes, and the demand names the frame order it comes from. */
  lemma FrameExplosionExample(order: PlannedOrder, firstId: nat)
    requires order.quantity == 50
    ensures var r := Explosion("FRAME", [order], [BomLine("STEEL-TUBE", 3)], firstId);
      |r| == 1 && r[0].componentId == "STEEL-TUBE" && r[0].quantity == 150 &&
      r[0].sourceRef == Some("FRAME:" + NatToString(order.id))
  {
    assert [order][..0] == [];
    assert "FRAME" + ":" == "FRAME:";
  }
}
