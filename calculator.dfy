/** The planning driver (`MrpCalculator`): groups the input by component,
    plans each component in turn, and explodes its planned orders into
    dependent demand for the children in the bill of materials, until no
    component is left to plan; then pegs the orders to the demands. */
module Calculator {
  import opened Wrappers
  import opened MrpCore
  import opened Dates
  import opened Calendar
  import opened Config
  import opened Demands
  import opened Supplies
  import opened Inventories
  import opened Plans
  import opened Netting
  import opened LotSizing
  import opened Bucketing
  import opened Pegging
  import opened MrpResults

  /** One edge of the bill of materials: a child and the quantity of it
      one unit of the parent uses. */
  datatype BomLine = BomLine(child: ComponentId, quantity: Quantity)

  /** The bill of materials: the lines under each parent in the graph; a
      component with no entry is not in the graph. */
  type Bom = map<ComponentId, seq<BomLine>>

  // ------------------------------------------------------------------ grouping

  /** The elements of `xs` whose key is `c`, in input order. */
  ghost function Members<T(!new)>(xs: seq<T>, key: T -> ComponentId, c: ComponentId): (r: seq<T>)
    ensures |r| <= |xs|
    ensures forall x :: x in r <==> x in xs && key(x) == c
  {
    if xs == [] then []
    else
      var init := xs[..|xs| - 1];
      assert xs == init + [xs[|xs| - 1]];
      Members(init, key, c) + (if key(xs[|xs| - 1]) == c then [xs[|xs| - 1]] else [])
  }

  /** `m` groups `xs` by key: one entry per key that occurs, holding the
      elements with that key in input order. */
  ghost predicate GroupsOf<T(!new)>(m: map<ComponentId, seq<T>>, xs: seq<T>, key: T -> ComponentId) {
    (forall c :: c in m <==> exists k :: 0 <= k < |xs| && key(xs[k]) == c) &&
    (forall c :: c in m ==> m[c] == Members(xs, key, c))
  }

  /** `entry(c).or_insert_with(Vec::new).push(x)` */
  function Push<T>(m: map<ComponentId, seq<T>>, c: ComponentId, x: T): map<ComponentId, seq<T>> {
    m[c := (if c in m then m[c] else []) + [x]]
  }

  lemma NoMembers<T(!new)>(xs: seq<T>, key: T -> ComponentId, c: ComponentId)
    requires forall k :: 0 <= k < |xs| ==> key(xs[k]) != c
    ensures Members(xs, key, c) == []
  {
  }

  /** Pushing the next element onto its key's group keeps the grouping. */
  lemma GroupsOfPush<T(!new)>(m: map<ComponentId, seq<T>>, xs: seq<T>, key: T -> ComponentId, x: T)
    requires GroupsOf(m, xs, key)
    ensures GroupsOf(Push(m, key(x), x), xs + [x], key)
  {
    var ys := xs + [x];
    var m' := Push(m, key(x), x);
    PushKeys(m, xs, key, x);
    forall c | c in m' ensures m'[c] == Members(ys, key, c) {
      MembersSnoc(xs, key, x, c);
      if c == key(x) && key(x) !in m {
        NoMembers(xs, key, key(x));
      }
    }
  }

  /** The keys after a push: the old ones and the new element's. */
  lemma PushKeys<T(!new)>(m: map<ComponentId, seq<T>>, xs: seq<T>, key: T -> ComponentId, x: T)
    requires GroupsOf(m, xs, key)
    ensures forall c :: c in Push(m, key(x), x) <==> exists k :: 0 <= k < |xs + [x]| && key((xs + [x])[k]) == c
  {
    var ys := xs + [x];
    forall c
      ensures c in Push(m, key(x), x) <==> exists k :: 0 <= k < |ys| && key(ys[k]) == c
    {
      if c in Push(m, key(x), x) {
        if c == key(x) {
          assert key(ys[|xs|]) == c;
        } else {
          var k :| 0 <= k < |xs| && key(xs[k]) == c;
          assert ys[k] == xs[k];
        }
      }
      if exists k :: 0 <= k < |ys| && key(ys[k]) == c {
        var k :| 0 <= k < |ys| && key(ys[k]) == c;
        if k < |xs| {
          assert ys[k] == xs[k];
        }
      }
    }
  }

  /** The group of `c` after one more element. */
  lemma MembersSnoc<T(!new)>(xs: seq<T>, key: T -> ComponentId, x: T, c: ComponentId)
    ensures Members(xs + [x], key, c) == Members(xs, key, c) + (if key(x) == c then [x] else [])
  {
    assert (xs + [x])[..|xs + [x]| - 1] == xs;
  }

  /** `GroupsOfPush` for a loop that walks `xs` from the front. */
  lemma GroupsOfPushPrefix<T(!new)>(m: map<ComponentId, seq<T>>, xs: seq<T>, i: nat, key: T -> ComponentId)
    requires i < |xs|
    requires GroupsOf(m, xs[..i], key)
    ensures GroupsOf(Push(m, key(xs[i]), xs[i]), xs[..i + 1], key)
  {
    GroupsOfPush(m, xs[..i], key, xs[i]);
    assert xs[..i] + [xs[i]] == xs[..i + 1];
  }

  /** Grouping puts each element into exactly its own key's group. */
  lemma GroupedExactly<T(!new)>(m: map<ComponentId, seq<T>>, xs: seq<T>, key: T -> ComponentId)
    requires GroupsOf(m, xs, key)
    ensures forall x :: x in xs ==> key(x) in m && x in m[key(x)]
    ensures forall c, x :: c in m && x in m[c] ==> x in xs && key(x) == c
  {
    forall x | x in xs
      ensures key(x) in m && x in m[key(x)]
    {
      var k :| 0 <= k < |xs| && xs[k] == x;
    }
  }

  function DemandKey(d: Demand): ComponentId { d.componentId }
  function SupplyKey(s: Supply): ComponentId { s.componentId }

  // ------------------------------------------------------------ EOQ lot size

  /** The integer square root, by halving: the root of `n` is twice the
      root of `n / 4`, or one more. */
  function ISqrt(n: nat): (r: nat)
    ensures n > 0 ==> r > 0
    decreases n
  {
    if n < 4 then (if n == 0 then 0 else 1)
    else
      var s := ISqrt(n / 4);
      if (2 * s + 1) * (2 * s + 1) <= n then 2 * s + 1 else 2 * s
  }

  /** `ISqrt` is the square root rounded down. */
  lemma {:induction false} ISqrtBounds(n: nat)
    ensures ISqrt(n) * ISqrt(n) <= n < (ISqrt(n) + 1) * (ISqrt(n) + 1)
    decreases n
  {
    if n >= 4 {
      ISqrtBounds(n / 4);
      DoubleRoot(n, ISqrt(n / 4));
    }
  }

  /** From the root of `n / 4`, twice it is a root of `n` rounded down, or
      one less than that. */
  lemma DoubleRoot(n: nat, s: nat)
    requires s * s <= n / 4 < (s + 1) * (s + 1)
    ensures (2 * s) * (2 * s) <= n < (2 * s + 2) * (2 * s + 2)
  {
    var q := n / 4;
    assert 4 * q <= n < 4 * q + 4;
    assert (2 * s) * (2 * s) == 4 * (s * s);
    assert (2 * s + 2) * (2 * s + 2) == 4 * ((s + 1) * (s + 1));
    assert (s + 1) * (s + 1) >= q + 1;
  }

  /** The lot of the economic-order-quantity rule when no fixed lot size is
      configured: ten times the square root of the total requirement (the
      root rounded down to a whole number), or 100 when the total is not
      positive. */
  function EoqEstimate(rows: seq<NetRequirement>): (e: Quantity)
    ensures e > 0
  {
    if TotalNet(rows) > 0 then 10 * ISqrt(TotalNet(rows)) else 100
  }

  /** The estimate is 100 without a positive requirement, and otherwise a
      multiple of ten whose tenth is the square root of the total rounded
      down. */
  lemma EoqEstimateRoot(rows: seq<NetRequirement>)
    ensures TotalNet(rows) <= 0 ==> EoqEstimate(rows) == 100
    ensures TotalNet(rows) > 0 ==>
      var e := EoqEstimate(rows);
      e % 10 == 0 && (e / 10) * (e / 10) <= TotalNet(rows) < (e / 10 + 1) * (e / 10 + 1)
  {
    if TotalNet(rows) > 0 {
      ISqrtBounds(TotalNet(rows));
    }
  }

  // -------------------------------------------------------------- explosion

  /** The dependent demand one planned order of the parent places on one
      child of it. */
  function DependentDemand(parentId: ComponentId, order: PlannedOrder, line: BomLine, id: Uuid): (d: Demand)
    ensures d.id == id && d.componentId == line.child && d.demandType == Dependent
    ensures d.quantity == order.quantity * line.quantity
    ensures d.requiredDate == order.orderDate
    ensures d.sourceRef == Some(parentId + ":" + NatToString(order.id))
    ensures d.priority == 5 && d.plantId.None?
  {
    Demand(id, line.child, order.quantity * line.quantity, order.orderDate, Dependent,
           Some(parentId + ":" + NatToString(order.id)), 5, None)
  }

  /** The dependent demand is the one `explode_bom` builds: a new demand for
      the child, given the parent reference and priority 5. */
  lemma DependentDemandBuilt(parentId: ComponentId, order: PlannedOrder, line: BomLine, id: Uuid)
    ensures DependentDemand(parentId, order, line, id)
         == NewDemand(id, line.child, order.quantity * line.quantity, order.orderDate, Dependent)
              .WithSourceRef(parentId + ":" + NatToString(order.id))
              .WithPriority(5)
  {
  }

  /** The dependent demands of one order, one per line, ids from `firstId`. */
  function OrderDemands(parentId: ComponentId, order: PlannedOrder, lines: seq<BomLine>, firstId: nat): (r: seq<Demand>)
    ensures |r| == |lines|
    ensures forall j :: 0 <= j < |r| ==> r[j] == DependentDemand(parentId, order, lines[j], firstId + j)
  {
    seq(|lines|, j requires 0 <= j < |lines| => DependentDemand(parentId, order, lines[j], firstId + j))
  }

  /** All dependent demands of the orders, order by order and line by
      line, with ids drawn in turn from `firstId`. */
  function Explosion(parentId: ComponentId, orders: seq<PlannedOrder>, lines: seq<BomLine>, firstId: nat): seq<Demand>
  {
    if orders == [] then []
    else
      var init := Explosion(parentId, orders[..|orders| - 1], lines, firstId);
      init + OrderDemands(parentId, orders[|orders| - 1], lines, firstId + |init|)
  }

  /** The explosion draws consecutive ids from `firstId`. */
  lemma {:induction false} ExplosionIds(parentId: ComponentId, orders: seq<PlannedOrder>, lines: seq<BomLine>, firstId: nat)
    ensures forall k :: 0 <= k < |Explosion(parentId, orders, lines, firstId)| ==>
      Explosion(parentId, orders, lines, firstId)[k].id == firstId + k
    decreases |orders|
  {
    if orders != [] {
      var init := Explosion(parentId, orders[..|orders| - 1], lines, firstId);
      ExplosionIds(parentId, orders[..|orders| - 1], lines, firstId);
      var tail := OrderDemands(parentId, orders[|orders| - 1], lines, firstId + |init|);
      var r := init + tail;
      assert r == Explosion(parentId, orders, lines, firstId);
      forall k | 0 <= k < |r| ensures r[k].id == firstId + k {
        if k < |init| {
          assert r[k] == init[k];
          assert init[k].id == firstId + k;
        } else {
          var j := k - |init|;
          assert r[k] == tail[j];
          assert tail[j] == DependentDemand(parentId, orders[|orders| - 1], lines[j], firstId + |init| + j);
          assert tail[j].id == firstId + |init| + j;
        }
      }
    }
  }

  /** One dependent demand per order and line. */
  lemma {:induction false} ExplosionLength(parentId: ComponentId, orders: seq<PlannedOrder>, lines: seq<BomLine>, firstId: nat)
    ensures |Explosion(parentId, orders, lines, firstId)| == |orders| * |lines|
  {
    if orders != [] {
      ExplosionLength(parentId, orders[..|orders| - 1], lines, firstId);
      assert (|orders| - 1) * |lines| + |lines| == |orders| * |lines|;
    }
  }

  /** No orders or no lines: nothing to explode. */
  lemma NoExplosion(parentId: ComponentId, orders: seq<PlannedOrder>, lines: seq<BomLine>, firstId: nat)
    requires orders == [] || lines == []
    ensures Explosion(parentId, orders, lines, firstId) == []
  {
    ExplosionLength(parentId, orders, lines, firstId);
  }

  function ChildIds(lines: seq<BomLine>): set<ComponentId> {
    set l | l in lines :: l.child
  }

  /** Every dependent demand comes from one of the orders and one of the
      lines, and is for that line's child. */
  lemma {:induction false} ExplosionSources(parentId: ComponentId, orders: seq<PlannedOrder>, lines: seq<BomLine>, firstId: nat)
    ensures forall d :: d in Explosion(parentId, orders, lines, firstId) ==>
      d.componentId in ChildIds(lines) &&
      exists o, l :: o in orders && l in lines && d == DependentDemand(parentId, o, l, d.id)
  {
    if orders != [] {
      var init := orders[..|orders| - 1];
      var last := orders[|orders| - 1];
      ExplosionSources(parentId, init, lines, firstId);
      var head := Explosion(parentId, init, lines, firstId);
      var tail := OrderDemands(parentId, last, lines, firstId + |head|);
      forall d | d in Explosion(parentId, orders, lines, firstId)
        ensures d.componentId in ChildIds(lines)
        ensures exists o, l :: o in orders && l in lines && d == DependentDemand(parentId, o, l, d.id)
      {
        if d in head {
          var o, l :| o in init && l in lines && d == DependentDemand(parentId, o, l, d.id);
          assert o in orders;
          assert l.child in ChildIds(lines);
        } else {
          var j :| 0 <= j < |tail| && tail[j] == d;
          assert lines[j] in lines;
          assert lines[j].child in ChildIds(lines);
          assert d == DependentDemand(parentId, last, lines[j], d.id);
        }
      }
    }
  }

  /** One more line of an order, as the explosion loop takes it. */
  lemma OrderDemandsSnoc(produced: seq<Demand>, before: seq<Demand>, parentId: ComponentId, order: PlannedOrder,
                         lines: seq<BomLine>, j: nat, firstId: nat, demand: Demand)
    requires j < |lines|
    requires produced == before + OrderDemands(parentId, order, lines[..j], firstId)
    requires demand == DependentDemand(parentId, order, lines[j], firstId + j)
    ensures produced + [demand] == before + OrderDemands(parentId, order, lines[..j + 1], firstId)
  {
    assert OrderDemands(parentId, order, lines[..j + 1], firstId)
        == OrderDemands(parentId, order, lines[..j], firstId) + [demand];
  }

  lemma ExplosionSnoc(parentId: ComponentId, orders: seq<PlannedOrder>, i: nat, lines: seq<BomLine>, firstId: nat)
    requires i < |orders|
    ensures Explosion(parentId, orders[..i + 1], lines, firstId)
         == Explosion(parentId, orders[..i], lines, firstId)
            + OrderDemands(parentId, orders[i], lines, firstId + |Explosion(parentId, orders[..i], lines, firstId)|)
  {
    assert orders[..i + 1][..i] == orders[..i];
  }

  /** The inner loop of `explode_bom`: one order's demand on every child,
      pushed onto the children's groups, with ids from `firstId`. */
  method ExplodeOrder(parentId: ComponentId, order: PlannedOrder, children: seq<BomLine>,
                      childDemands: map<ComponentId, seq<Demand>>, ghost produced: seq<Demand>, firstId: nat)
    returns (grouped: map<ComponentId, seq<Demand>>, nextId: nat)
    requires GroupsOf(childDemands, produced, DemandKey)
    ensures GroupsOf(grouped, produced + OrderDemands(parentId, order, children, firstId), DemandKey)
    ensures nextId == firstId + |children|
  {
    grouped := childDemands;
    nextId := firstId;
    ghost var pushed := produced;
    for j := 0 to |children|
      invariant pushed == produced + OrderDemands(parentId, order, children[..j], firstId)
      invariant nextId == firstId + j
      invariant GroupsOf(grouped, pushed, DemandKey)
    {
      var demand := DependentDemand(parentId, order, children[j], nextId);
      GroupsOfPush(grouped, pushed, DemandKey, demand);
      grouped := Push(grouped, demand.componentId, demand);
      OrderDemandsSnoc(pushed, produced, parentId, order, children, j, firstId, demand);
      pushed := pushed + [demand];
      nextId := nextId + 1;
    }
    assert children[..|children|] == children;
  }

  /** The outer loop of `explode_bom`: every order's demand on every
      child, grouped by child, with ids drawn in order from `firstId`. */
  method ExplodeOrders(parentId: ComponentId, orders: seq<PlannedOrder>, children: seq<BomLine>, firstId: nat)
    returns (grouped: map<ComponentId, seq<Demand>>, nextId: nat)
    ensures GroupsOf(grouped, Explosion(parentId, orders, children, firstId), DemandKey)
    ensures nextId == firstId + |Explosion(parentId, orders, children, firstId)|
  {
    grouped := map[];
    nextId := firstId;
    ghost var produced: seq<Demand> := [];
    for i := 0 to |orders|
      invariant produced == Explosion(parentId, orders[..i], children, firstId)
      invariant nextId == firstId + |produced|
      invariant GroupsOf(grouped, produced, DemandKey)
    {
      ExplosionStep(parentId, orders, i, children, firstId, produced, nextId);
      ghost var ofOrder := OrderDemands(parentId, orders[i], children, nextId);
      grouped, nextId := ExplodeOrder(parentId, orders[i], children, grouped, produced, nextId);
      produced := produced + ofOrder;
    }
    assert orders[..|orders|] == orders;
  }

  /** One order further into the explosion. */
  lemma ExplosionStep(parentId: ComponentId, orders: seq<PlannedOrder>, i: nat, lines: seq<BomLine>, firstId: nat,
                      produced: seq<Demand>, nextId: nat)
    requires i < |orders|
    requires produced == Explosion(parentId, orders[..i], lines, firstId)
    requires nextId == firstId + |produced|
    ensures produced + OrderDemands(parentId, orders[i], lines, nextId) == Explosion(parentId, orders[..i + 1], lines, firstId)
    ensures nextId + |lines| == firstId + |produced + OrderDemands(parentId, orders[i], lines, nextId)|
  {
    var ofOrder := OrderDemands(parentId, orders[i], lines, nextId);
    assert |ofOrder| == |lines|;
    assert |produced + ofOrder| == |produced| + |lines|;
    ExplosionSnoc(parentId, orders, i, lines, firstId);
  }

  /** A grouping of the explosion has only children of the lines as keys. */
  lemma ExplodedKeys(m: map<ComponentId, seq<Demand>>, parentId: ComponentId, orders: seq<PlannedOrder>,
                     lines: seq<BomLine>, firstId: nat)
    requires GroupsOf(m, Explosion(parentId, orders, lines, firstId), DemandKey)
    ensures forall c :: c in m ==> c in ChildIds(lines)
  {
    var xs := Explosion(parentId, orders, lines, firstId);
    ExplosionSources(parentId, orders, lines, firstId);
    forall c | c in m
      ensures c in ChildIds(lines)
    {
      var k :| 0 <= k < |xs| && DemandKey(xs[k]) == c;
      assert xs[k] in xs;
    }
  }

  /** Every order and every line yield a dependent demand. */
  lemma {:induction false} ExplosionCovers(parentId: ComponentId, orders: seq<PlannedOrder>, lines: seq<BomLine>, firstId: nat,
                                           i: nat, j: nat)
    requires i < |orders| && j < |lines|
    ensures exists id :: DependentDemand(parentId, orders[i], lines[j], id) in Explosion(parentId, orders, lines, firstId)
    decreases |orders|
  {
    var init := orders[..|orders| - 1];
    var head := Explosion(parentId, init, lines, firstId);
    if i < |orders| - 1 {
      ExplosionCovers(parentId, init, lines, firstId, i, j);
      var id :| DependentDemand(parentId, init[i], lines[j], id) in head;
      assert init[i] == orders[i];
    } else {
      var tail := OrderDemands(parentId, orders[i], lines, firstId + |head|);
      assert tail[j] in Explosion(parentId, orders, lines, firstId);
    }
  }

  // -------------------------------------------------------- component plan

  /** A component whose planning aborts the run: it has no configuration,
      or it is planned by fixed order quantity without a lot size. */
  predicate Blocks(c: ComponentId, configs: map<ComponentId, MrpConfig>) {
    c !in configs ||
    (configs[c].mrpEnabled && configs[c].lotSizingRule == FixedOrderQuantity && configs[c].fixedLotSize.None?)
  }

  function BlockError(c: ComponentId, configs: map<ComponentId, MrpConfig>): MrpError {
    if c !in configs then ConfigNotFound(c) else MissingLotSize
  }

  /** Every enabled configuration can be planned on the calendar: its lot
      size, when given, is positive, and it has no lead time or the
      calendar has a working weekday. */
  predicate ConfigsReady(configs: map<ComponentId, MrpConfig>, s: Schedule) {
    forall c :: c in configs && configs[c].mrpEnabled ==> LotSizeUsable(configs[c]) && Plannable(configs[c], s)
  }

  /** What `calculate_component_mrp` yields for one component, given its
      demands and supplies, its initial inventory and the base buckets. */
  function ComponentPlan(c: ComponentId, configs: map<ComponentId, MrpConfig>, componentDemands: seq<Demand>,
                         componentSupplies: seq<Supply>, initial: Quantity, base: seq<Date>, s: Schedule,
                         firstId: nat): Result<ComponentMrpResult, MrpError>
    requires ConfigsReady(configs, s)
  {
    if c !in configs then Failure(ConfigNotFound(c))
    else if !configs[c].NeedsMrp() then Success(ComponentMrpResult(c, []))
    else
      var cfg := configs[c];
      var buckets := MergeBuckets(base + RequiredDates(componentDemands) + AvailableDates(componentSupplies));
      var rows := Rows(componentDemands, componentSupplies, initial, cfg.safetyStock, buckets, cfg.allowNegativeInventory);
      match PlanOrders(c, rows, cfg, s, firstId, EoqEstimate(rows))
      case Failure(e) => Failure(e)
      case Success(orders) => Success(ComponentMrpResult(c, orders))
  }

  /** Orders planned for component `c`: none, or orders of an enabled
      configuration that conform to it with ids from `firstId`. */
  predicate PlannedFor(orders: seq<PlannedOrder>, c: ComponentId, configs: map<ComponentId, MrpConfig>, s: Schedule, firstId: nat) {
    orders == [] ||
    (c in configs && configs[c].mrpEnabled && Plannable(configs[c], s) && WellFormed(orders, c, configs[c], s, firstId))
  }

  /** The plan of one component fails exactly when the component blocks
      the run, with the matching error. */
  lemma ComponentPlanFails(c: ComponentId, configs: map<ComponentId, MrpConfig>, componentDemands: seq<Demand>,
                           componentSupplies: seq<Supply>, initial: Quantity, base: seq<Date>, s: Schedule, firstId: nat)
    requires ConfigsReady(configs, s)
    ensures var r := ComponentPlan(c, configs, componentDemands, componentSupplies, initial, base, s, firstId);
      (r.Failure? <==> Blocks(c, configs)) &&
      (r.Failure? ==> r.error == BlockError(c, configs))
  {
  }

  /** A plan that succeeds yields orders for the component that conform to
      its configuration, and none for a disabled component. */
  lemma ComponentPlanOutcome(c: ComponentId, configs: map<ComponentId, MrpConfig>, componentDemands: seq<Demand>,
                             componentSupplies: seq<Supply>, initial: Quantity, base: seq<Date>, s: Schedule, firstId: nat)
    requires ConfigsReady(configs, s)
    ensures var r := ComponentPlan(c, configs, componentDemands, componentSupplies, initial, base, s, firstId);
      (r.Success? ==> r.value.componentId == c && PlannedFor(r.value.plannedOrders, c, configs, s, firstId)) &&
      (c in configs && !configs[c].mrpEnabled ==> r == Success(ComponentMrpResult(c, [])))
  {
  }

  /** An order of the run: its component has an enabled configuration,
      and the order conforms to it. */
  predicate OrderPlanned(o: PlannedOrder, configs: map<ComponentId, MrpConfig>, s: Schedule) {
    o.componentId in configs && configs[o.componentId].mrpEnabled &&
    Plannable(configs[o.componentId], s) &&
    OrderConforms(o, o.componentId, configs[o.componentId], s, o.id)
  }

  /** The orders of a run: each planned, for a component that was
      computed, with ids from `firstId` on, strictly ascending. */
  ghost predicate OrdersPlanned(orders: seq<PlannedOrder>, computed: seq<ComponentId>, firstId: nat,
                                configs: map<ComponentId, MrpConfig>, s: Schedule) {
    (forall k :: 0 <= k < |orders| ==>
      OrderPlanned(orders[k], configs, s) && orders[k].componentId in computed && firstId <= orders[k].id) &&
    (forall i, j :: 0 <= i < j < |orders| ==> orders[i].id < orders[j].id)
  }

  lemma DistinctTail<T>(q: seq<T>)
    requires Distinct(q) && q != []
    ensures Distinct(q[1..]) && q[0] !in q[1..]
  {
  }

  lemma DistinctSnoc<T>(q: seq<T>, x: T)
    requires Distinct(q) && x !in q
    ensures Distinct(q + [x])
  {
  }

  /** The quantity available of each component with an inventory record. */
  function Stock(m: map<ComponentId, Inventory>): map<ComponentId, Quantity>
    reads m.Values
  {
    map c | c in m :: m[c].availableQty
  }

  /** The quantity available of `c`, or none when it has no record. */
  function StockOf(stock: map<ComponentId, Quantity>, c: ComponentId): Quantity {
    if c in stock then stock[c] else 0
  }

  /** Every component the run may plan: those with independent demand
      and every child in the bill of materials. */
  function Universe(demands: seq<Demand>, bom: Bom): set<ComponentId> {
    (set d | d in demands :: d.componentId) + (set p, l | p in bom && l in bom[p] :: l.child)
  }

  // ------------------------------------------------------------ the run

  /** `map.get(&c).cloned().unwrap_or_default()`: the group of `c`, or none. */
  function Group<T>(m: map<ComponentId, seq<T>>, c: ComponentId): seq<T> {
    if c in m then m[c] else []
  }

  /** The grouping of `xs` by key, as a value. */
  ghost function Grouped<T(!new)>(xs: seq<T>, key: T -> ComponentId): (m: map<ComponentId, seq<T>>)
    ensures GroupsOf(m, xs, key)
  {
    map c | c in (set k | 0 <= k < |xs| :: key(xs[k])) :: Members(xs, key, c)
  }

  /** A grouping holds, under each key, that key's members, and a key
      whose members are empty does not occur; so there is only one. */
  lemma GroupsAreMembers<T(!new)>(m: map<ComponentId, seq<T>>, xs: seq<T>, key: T -> ComponentId)
    requires GroupsOf(m, xs, key)
    ensures forall c :: Group(m, c) == Members(xs, key, c)
    ensures forall c :: c in m <==> Members(xs, key, c) != []
  {
    forall c
      ensures Group(m, c) == Members(xs, key, c)
      ensures c in m <==> Members(xs, key, c) != []
    {
      if c in m {
        var k :| 0 <= k < |xs| && key(xs[k]) == c;
        assert xs[k] in Members(xs, key, c);
      } else {
        NoMembers(xs, key, c);
      }
    }
  }

  /** Two groupings of the same elements are equal. */
  lemma GroupsOfUnique<T(!new)>(m: map<ComponentId, seq<T>>, m': map<ComponentId, seq<T>>, xs: seq<T>, key: T -> ComponentId)
    requires GroupsOf(m, xs, key) && GroupsOf(m', xs, key)
    ensures m == m'
  {
    assert m.Keys == m'.Keys;
  }

  /** One component the worklist planned: the first id it drew, its
      planned orders, and the dependent demand they exploded into. */
  datatype Step = Step(component: ComponentId, startId: nat, orders: seq<PlannedOrder>, explosion: seq<Demand>,
                       queued: seq<ComponentId>)

  /** The planned components, in planning order. */
  function Components(steps: seq<Step>): seq<ComponentId> {
    seq(|steps|, k requires 0 <= k < |steps| => steps[k].component)
  }

  /** The planned orders of the steps, in planning order. */
  function AllOrders(steps: seq<Step>): seq<PlannedOrder> {
    if steps == [] then [] else AllOrders(steps[..|steps| - 1]) + steps[|steps| - 1].orders
  }

  /** The first id the steps leave undrawn. */
  function NextId(steps: seq<Step>, firstId: nat): nat {
    if steps == [] then firstId
    else
      var last := steps[|steps| - 1];
      last.startId + |last.orders| + |last.explosion|
  }

  /** The dependent demand the steps' explosions put on `c`, in planning
      order. */
  ghost function Inflow(c: ComponentId, steps: seq<Step>): seq<Demand> {
    if steps == [] then []
    else Inflow(c, steps[..|steps| - 1]) + Members(steps[|steps| - 1].explosion, DemandKey, c)
  }

  /** One more step appends its component, its orders and its share of
      the dependent demand. */
  lemma StepsSnoc(steps: seq<Step>, st: Step, firstId: nat)
    ensures (steps + [st])[..|steps|] == steps
    ensures Components(steps + [st]) == Components(steps) + [st.component]
    ensures AllOrders(steps + [st]) == AllOrders(steps) + st.orders
    ensures NextId(steps + [st], firstId) == st.startId + |st.orders| + |st.explosion|
    ensures forall c :: Inflow(c, steps + [st]) == Inflow(c, steps) + Members(st.explosion, DemandKey, c)
  {
    assert (steps + [st])[..|steps|] == steps;
  }

  /** What the worklist of `calculate` keeps between rounds, after the
      steps `steps`: the dependent demand on each component is what those
      steps exploded into it; every component with independent or
      dependent demand is queued or processed; every queued component has
      one or the other; and a processed component that was not planned
      had no independent demand. */
  ghost predicate Pending(sorted: seq<ComponentId>, groupedDemands: map<ComponentId, seq<Demand>>, queue: seq<ComponentId>,
                          processed: set<ComponentId>, dependent: map<ComponentId, seq<Demand>>, steps: seq<Step>)
  {
    (forall c :: Group(dependent, c) == Inflow(c, steps)) &&
    (forall c :: c in sorted || Inflow(c, steps) != [] ==> c in queue || c in processed) &&
    (forall c :: c in queue ==> c in sorted || Inflow(c, steps) != []) &&
    (forall c :: c in processed && c !in Components(steps) ==> c in sorted && Group(groupedDemands, c) == [])
  }

  /** Dropping a processed component from the front of the queue. */
  lemma PendingPop(sorted: seq<ComponentId>, groupedDemands: map<ComponentId, seq<Demand>>, queue: seq<ComponentId>,
                   processed: set<ComponentId>, dependent: map<ComponentId, seq<Demand>>, steps: seq<Step>)
    requires Pending(sorted, groupedDemands, queue, processed, dependent, steps)
    requires queue != [] && queue[0] in processed
    ensures Pending(sorted, groupedDemands, queue[1..], processed, dependent, steps)
  {
    assert forall c :: c in queue ==> c == queue[0] || c in queue[1..];
  }

  /** Marking the front of the queue processed when it has no demand. */
  lemma PendingSkip(sorted: seq<ComponentId>, groupedDemands: map<ComponentId, seq<Demand>>, queue: seq<ComponentId>,
                    processed: set<ComponentId>, dependent: map<ComponentId, seq<Demand>>, steps: seq<Step>)
    requires Pending(sorted, groupedDemands, queue, processed, dependent, steps)
    requires queue != [] && queue[0] !in Components(steps)
    requires Group(groupedDemands, queue[0]) + Group(dependent, queue[0]) == []
    ensures Pending(sorted, groupedDemands, queue[1..], processed + {queue[0]}, dependent, steps)
  {
    assert forall c :: c in queue ==> c == queue[0] || c in queue[1..];
    assert queue[0] in queue;
  }

  /** Planning the front of the queue, then queueing the children its
      orders explode into and adding their dependent demand. */
  lemma PendingStep(sorted: seq<ComponentId>, groupedDemands: map<ComponentId, seq<Demand>>, queue: seq<ComponentId>,
                    processed: set<ComponentId>, dependent: map<ComponentId, seq<Demand>>, steps: seq<Step>, st: Step,
                    childDemands: map<ComponentId, seq<Demand>>, newQueue: seq<ComponentId>,
                    newDependent: map<ComponentId, seq<Demand>>)
    requires Pending(sorted, groupedDemands, queue, processed, dependent, steps)
    requires queue != [] && queue[0] == st.component && st.component !in processed
    requires GroupsOf(childDemands, st.explosion, DemandKey)
    requires forall c :: c in newQueue <==> c in queue[1..] || (c in childDemands && c !in processed)
    requires forall c :: Group(newDependent, c) == Group(dependent, c) + Group(childDemands, c)
    ensures Pending(sorted, groupedDemands, newQueue, processed + {st.component}, newDependent, steps + [st])
  {
    var steps' := steps + [st];
    StepsSnoc(steps, st, 0);
    GroupsAreMembers(childDemands, st.explosion, DemandKey);
    assert forall c :: c in queue ==> c == queue[0] || c in queue[1..];
    forall c | c in sorted || Inflow(c, steps') != []
      ensures c in newQueue || c in processed + {st.component}
    {
      if Inflow(c, steps) == [] && !(c in sorted) {
        assert Members(st.explosion, DemandKey, c) != [];
      }
    }
    forall c | c in newQueue
      ensures c in sorted || Inflow(c, steps') != []
    {
      if c !in queue[1..] {
        assert Members(st.explosion, DemandKey, c) != [];
      }
    }
  }

  // ------------------------------------------------------------- calculator

  class MrpCalculator {
    const bom: Bom
    const configs: map<ComponentId, MrpConfig>
    const calendar: WorkCalendar

    /** `MrpCalculator::new` */
    constructor (bom: Bom, configs: map<ComponentId, MrpConfig>, calendar: WorkCalendar)
      ensures this.bom == bom && this.configs == configs && this.calendar == calendar
    {
      this.bom := bom;
      this.configs := configs;
      this.calendar := calendar;
    }

    predicate Ready()
      reads calendar
    {
      ConfigsReady(configs, calendar.Data())
    }

    function ChildrenOf(parentId: ComponentId): seq<BomLine> {
      if parentId in bom then bom[parentId] else []
    }

    lemma ChildrenInUniverse(parentId: ComponentId, demands: seq<Demand>)
      ensures ChildIds(ChildrenOf(parentId)) <= Universe(demands, bom)
    {
      forall c | c in ChildIds(ChildrenOf(parentId))
        ensures c in Universe(demands, bom)
      {
        var l :| l in ChildrenOf(parentId) && l.child == c;
        assert parentId in bom && l in bom[parentId];
      }
    }

    /** `group_demands_by_component` */
    method GroupDemandsByComponent(demands: seq<Demand>) returns (grouped: map<ComponentId, seq<Demand>>)
      ensures GroupsOf(grouped, demands, DemandKey)
    {
      grouped := map[];
      for i := 0 to |demands|
        invariant GroupsOf(grouped, demands[..i], DemandKey)
      {
        GroupsOfPushPrefix(grouped, demands, i, DemandKey);
        grouped := Push(grouped, demands[i].componentId, demands[i]);
      }
      assert demands[..|demands|] == demands;
    }

    /** `group_supplies_by_component` */
    method GroupSuppliesByComponent(supplies: seq<Supply>) returns (grouped: map<ComponentId, seq<Supply>>)
      ensures GroupsOf(grouped, supplies, SupplyKey)
    {
      grouped := map[];
      for i := 0 to |supplies|
        invariant GroupsOf(grouped, supplies[..i], SupplyKey)
      {
        GroupsOfPushPrefix(grouped, supplies, i, SupplyKey);
        grouped := Push(grouped, supplies[i].componentId, supplies[i]);
      }
      assert supplies[..|supplies|] == supplies;
    }

    /** `create_inventory_map`: collects the records into a map keyed by
        component, so a later record replaces an earlier one. */
    function CreateInventoryMap(inventories: seq<Inventory>): map<ComponentId, Inventory>
      reads inventories
    {
      if inventories == [] then map[]
      else
        var last := inventories[|inventories| - 1];
        CreateInventoryMap(inventories[..|inventories| - 1])[last.componentId := last]
    }

    /** One entry per component with a record; when several records name a
        component, the last one wins. */
    lemma {:induction false} InventoryMapEntries(inventories: seq<Inventory>)
      ensures var m := CreateInventoryMap(inventories);
        forall c :: c in m <==> exists k :: 0 <= k < |inventories| && inventories[k].componentId == c
      ensures var m := CreateInventoryMap(inventories);
        forall k :: 0 <= k < |inventories| &&
          (forall j :: k < j < |inventories| ==> inventories[j].componentId != inventories[k].componentId)
          ==> inventories[k].componentId in m && m[inventories[k].componentId] == inventories[k]
      decreases |inventories|
    {
      if inventories != [] {
        var init := inventories[..|inventories| - 1];
        var last := inventories[|inventories| - 1];
        InventoryMapEntries(init);
        assert forall k :: 0 <= k < |init| ==> init[k] == inventories[k];
      }
    }

    /** `get_max_planning_horizon`: the largest planning horizon among the
        configurations, 90 days when there are none. */
    function GetMaxPlanningHorizon(): (h: nat)
      ensures configs.Keys == {} ==> h == 90
      ensures forall c :: c in configs ==> configs[c].planningHorizonDays <= h
      ensures configs.Keys != {} ==> exists c :: c in configs && configs[c].planningHorizonDays == h
    {
      if configs.Keys == {} then 90
      else
        var horizons := set c | c in configs :: configs[c].planningHorizonDays;
        assert horizons != {} by {
          var c :| c in configs.Keys;
          assert configs[c].planningHorizonDays in horizons;
        }
        HasMax(horizons);
        assert forall c :: c in configs ==> configs[c].planningHorizonDays in horizons;
        var h :| h in horizons && forall x :: x in horizons ==> x <= h;
        h
    }

    /** `topological_sort`: the components with independent demand, each
        once, in the (unspecified) order of the grouping's keys. */
    method TopologicalSort(groupedDemands: map<ComponentId, seq<Demand>>) returns (res: Result<seq<ComponentId>, MrpError>)
      ensures res.Success?
      ensures Distinct(res.value)
      ensures forall c :: c in res.value <==> c in groupedDemands
    {
      var components: seq<ComponentId> := [];
      var rest := groupedDemands.Keys;
      while rest != {}
        invariant rest <= groupedDemands.Keys
        invariant Distinct(components)
        invariant forall c :: c in components <==> c in groupedDemands && c !in rest
        decreases |rest|
      {
        var c :| c in rest;
        components := components + [c];
        rest := rest - {c};
      }
      return Success(components);
    }

    /** `create_component_time_buckets`: the base buckets together with the
        component's own demand and supply dates, each once, ascending. */
    method CreateComponentTimeBuckets(base: seq<Date>, componentDemands: seq<Demand>, componentSupplies: seq<Supply>)
      returns (dates: seq<Date>)
      ensures StrictlyAscending(dates)
      ensures forall x :: x in dates <==>
        x in base || x in RequiredDates(componentDemands) || x in AvailableDates(componentSupplies)
      ensures dates == MergeBuckets(base + RequiredDates(componentDemands) + AvailableDates(componentSupplies))
    {
      var collected: seq<Date> := [];
      for i := 0 to |base|
        invariant Distinct(collected)
        invariant forall x :: x in collected <==> x in base[..i]
      {
        if base[i] !in collected {
          collected := collected + [base[i]];
        }
      }
      assert base[..|base|] == base;
      for i := 0 to |componentDemands|
        invariant Distinct(collected)
        invariant forall x :: x in collected <==> x in base || x in RequiredDates(componentDemands)[..i]
      {
        if componentDemands[i].requiredDate !in collected {
          collected := collected + [componentDemands[i].requiredDate];
        }
      }
      assert RequiredDates(componentDemands)[..|componentDemands|] == RequiredDates(componentDemands);
      for i := 0 to |componentSupplies|
        invariant Distinct(collected)
        invariant forall x :: x in collected <==>
          x in base || x in RequiredDates(componentDemands) || x in AvailableDates(componentSupplies)[..i]
      {
        if componentSupplies[i].availableDate !in collected {
          collected := collected + [componentSupplies[i].availableDate];
        }
      }
      assert AvailableDates(componentSupplies)[..|componentSupplies|] == AvailableDates(componentSupplies);
      SortDistinct(collected);
      dates := Sort(collected);
      AscendingUnique(dates, MergeBuckets(base + RequiredDates(componentDemands) + AvailableDates(componentSupplies)));
    }

    /** `calculate_component_mrp` */
    method CalculateComponentMrp(componentId: ComponentId, componentDemands: seq<Demand>,
                                 groupedSupplies: map<ComponentId, seq<Supply>>, stock: map<ComponentId, Quantity>,
                                 timeBuckets: seq<Date>, firstId: nat)
      returns (res: Result<ComponentMrpResult, MrpError>)
      requires Ready()
      ensures res == ComponentPlan(componentId, configs, componentDemands, Group(groupedSupplies, componentId),
                                   StockOf(stock, componentId), timeBuckets, calendar.Data(), firstId)
    {
      if componentId !in configs {
        return Failure(ConfigNotFound(componentId));
      }
      var config := configs[componentId];
      if !config.NeedsMrp() {
        return Success(ComponentMrpResult(componentId, []));
      }
      var componentSupplies := Group(groupedSupplies, componentId);
      var initialInventory := if componentId in stock then stock[componentId] else 0;
      var componentTimeBuckets := CreateComponentTimeBuckets(timeBuckets, componentDemands, componentSupplies);
      var netRequirements := Netting.Calculate(componentDemands, componentSupplies, initialInventory, config.safetyStock,
                                               componentTimeBuckets, config.allowNegativeInventory);
      var plannedOrders := Apply(componentId, netRequirements.value, config, calendar, firstId, EoqEstimate(netRequirements.value));
      if plannedOrders.Failure? {
        return Failure(plannedOrders.error);
      }
      return Success(ComponentMrpResult(componentId, plannedOrders.value));
    }

    /** `explode_bom`: the dependent demand of the parent's orders on its
        children, grouped by child; `nextId` is the first id not drawn. */
    method ExplodeBom(parentId: ComponentId, plannedOrders: seq<PlannedOrder>, firstId: nat)
      returns (res: Result<map<ComponentId, seq<Demand>>, MrpError>, nextId: nat)
      ensures res.Success?
      ensures GroupsOf(res.value, Explosion(parentId, plannedOrders, ChildrenOf(parentId), firstId), DemandKey)
      ensures forall c :: c in res.value ==> c in ChildIds(ChildrenOf(parentId))
      ensures nextId == firstId + |Explosion(parentId, plannedOrders, ChildrenOf(parentId), firstId)|
    {
      var childDemands: map<ComponentId, seq<Demand>> := map[];
      nextId := firstId;
      if plannedOrders == [] {
        NoExplosion(parentId, plannedOrders, ChildrenOf(parentId), firstId);
        return Success(childDemands), nextId;
      }
      if parentId !in bom {
        NoExplosion(parentId, plannedOrders, ChildrenOf(parentId), firstId);
        return Success(childDemands), nextId;
      }
      var children := bom[parentId];
      if children == [] {
        NoExplosion(parentId, plannedOrders, ChildrenOf(parentId), firstId);
        return Success(childDemands), nextId;
      }
      childDemands, nextId := ExplodeOrders(parentId, plannedOrders, children, firstId);
      ExplodedKeys(childDemands, parentId, plannedOrders, children, firstId);
      return Success(childDemands), nextId;
    }

    /** Appending the orders of the next component keeps the run's orders
        planned and their ids ascending. */
    lemma OrdersAppend(orders: seq<PlannedOrder>, computed: seq<ComponentId>, firstId: nat, nextId: nat,
                       c: ComponentId, newOrders: seq<PlannedOrder>, s: Schedule)
      requires OrdersPlanned(orders, computed, firstId, configs, s)
      requires forall k :: 0 <= k < |orders| ==> orders[k].id < nextId
      requires firstId <= nextId
      requires PlannedFor(newOrders, c, configs, s, nextId)
      ensures OrdersPlanned(orders + newOrders, computed + [c], firstId, configs, s)
      ensures forall k :: 0 <= k < |orders + newOrders| ==> (orders + newOrders)[k].id < nextId + |newOrders|
    {
      var all := orders + newOrders;
      forall k | 0 <= k < |all|
        ensures OrderPlanned(all[k], configs, s) && all[k].componentId in computed + [c] && firstId <= all[k].id < nextId + |newOrders|
      {
        if k >= |orders| {
          assert all[k] == newOrders[k - |orders|];
          assert OrderConforms(newOrders[k - |orders|], c, configs[c], s, nextId + (k - |orders|));
        }
      }
      forall i, j | 0 <= i < j < |all|
        ensures all[i].id < all[j].id
      {
        if j >= |orders| && i >= |orders| {
          assert OrderConforms(newOrders[i - |orders|], c, configs[c], s, nextId + (i - |orders|));
          assert OrderConforms(newOrders[j - |orders|], c, configs[c], s, nextId + (j - |orders|));
        } else if j >= |orders| {
          assert OrderConforms(newOrders[j - |orders|], c, configs[c], s, nextId + (j - |orders|));
        }
      }
    }

    /** One more planned step keeps the orders of the run planned. */
    lemma OrdersSnoc(steps: seq<Step>, st: Step, firstId: nat, s: Schedule)
      requires OrdersPlanned(AllOrders(steps), Components(steps), firstId, configs, s)
      requires forall k :: 0 <= k < |AllOrders(steps)| ==> AllOrders(steps)[k].id < NextId(steps, firstId)
      requires firstId <= NextId(steps, firstId)
      requires st.startId == NextId(steps, firstId)
      requires PlannedFor(st.orders, st.component, configs, s, st.startId)
      ensures OrdersPlanned(AllOrders(steps + [st]), Components(steps + [st]), firstId, configs, s)
      ensures forall k :: 0 <= k < |AllOrders(steps + [st])| ==> AllOrders(steps + [st])[k].id < NextId(steps + [st], firstId)
      ensures firstId <= NextId(steps + [st], firstId)
    {
      StepsSnoc(steps, st, firstId);
      OrdersAppend(AllOrders(steps), Components(steps), firstId, NextId(steps, firstId), st.component, st.orders, s);
    }

    /** The loop of `calculate` over the exploded child demand (in the
        unspecified order of the map): each child neither processed nor
        queued joins the end of the queue, and its demand is appended to
        its dependent demand. */
    method MergeChildDemands(childDemands: map<ComponentId, seq<Demand>>, queue: seq<ComponentId>,
                             processed: set<ComponentId>, dependent: map<ComponentId, seq<Demand>>)
      returns (newQueue: seq<ComponentId>, newDependent: map<ComponentId, seq<Demand>>)
      requires Distinct(queue)
      ensures Distinct(newQueue) && |queue| <= |newQueue| && newQueue[..|queue|] == queue
      ensures forall c :: c in newQueue <==> c in queue || (c in childDemands && c !in processed)
      ensures forall c :: c in newDependent <==> c in dependent || c in childDemands
      ensures forall c :: Group(newDependent, c) == Group(dependent, c) + Group(childDemands, c)
    {
      newQueue := queue;
      newDependent := dependent;
      var childIds := childDemands.Keys;
      while childIds != {}
        invariant childIds <= childDemands.Keys
        invariant Distinct(newQueue) && |queue| <= |newQueue| && newQueue[..|queue|] == queue
        invariant forall c :: c in newQueue <==> c in queue || (c in childDemands && c !in childIds && c !in processed)
        invariant forall c :: c in newDependent <==> c in dependent || (c in childDemands && c !in childIds)
        invariant forall c :: c in newDependent ==>
          newDependent[c] == (if c in dependent then dependent[c] else [])
                             + (if c in childDemands && c !in childIds then childDemands[c] else [])
        decreases |childIds|
      {
        var childId :| childId in childIds;
        if childId !in processed && childId !in newQueue {
          newQueue := newQueue + [childId];
        }
        newDependent := newDependent[childId :=
          (if childId in newDependent then newDependent[childId] else []) + childDemands[childId]];
        childIds := childIds - {childId};
      }
      forall c
        ensures Group(newDependent, c) == Group(dependent, c) + Group(childDemands, c)
      {
        if c !in newDependent {
          assert Group(dependent, c) == [] && Group(childDemands, c) == [];
        }
      }
    }

    /** `st` is what the worklist does after the steps `before`: it plans
        the component's independent demand followed by the dependent demand
        those steps exploded into it (which together are not empty), with
        ids from where they left off, and explodes the orders through the
        component's bill-of-materials lines. */
    ghost predicate StepAfter(before: seq<Step>, st: Step, groupedDemands: map<ComponentId, seq<Demand>>,
                              groupedSupplies: map<ComponentId, seq<Supply>>, stock: map<ComponentId, Quantity>,
                              timeBuckets: seq<Date>, s: Schedule, firstId: nat)
      requires ConfigsReady(configs, s)
    {
      var c := st.component;
      var componentDemands := Group(groupedDemands, c) + Inflow(c, before);
      componentDemands != [] &&
      st.startId == NextId(before, firstId) &&
      ComponentPlan(c, configs, componentDemands, Group(groupedSupplies, c), StockOf(stock, c), timeBuckets, s, st.startId)
        == Success(ComponentMrpResult(c, st.orders)) &&
      st.explosion == Explosion(c, st.orders, ChildrenOf(c), st.startId + |st.orders|)
    }

    /** Every step of the run follows from the steps before it. */
    ghost predicate Traced(steps: seq<Step>, groupedDemands: map<ComponentId, seq<Demand>>,
                           groupedSupplies: map<ComponentId, seq<Supply>>, stock: map<ComponentId, Quantity>,
                           timeBuckets: seq<Date>, s: Schedule, firstId: nat)
      requires ConfigsReady(configs, s)
    {
      forall k {:trigger StepAfter(steps[..k], steps[k], groupedDemands, groupedSupplies, stock, timeBuckets, s, firstId)} ::
        0 <= k < |steps| ==> StepAfter(steps[..k], steps[k], groupedDemands, groupedSupplies, stock, timeBuckets, s, firstId)
    }

    /** A step that follows the run so far extends it. */
    lemma TracedSnoc(steps: seq<Step>, st: Step, groupedDemands: map<ComponentId, seq<Demand>>,
                     groupedSupplies: map<ComponentId, seq<Supply>>, stock: map<ComponentId, Quantity>,
                     timeBuckets: seq<Date>, s: Schedule, firstId: nat)
      requires ConfigsReady(configs, s)
      requires Traced(steps, groupedDemands, groupedSupplies, stock, timeBuckets, s, firstId)
      requires StepAfter(steps, st, groupedDemands, groupedSupplies, stock, timeBuckets, s, firstId)
      ensures Traced(steps + [st], groupedDemands, groupedSupplies, stock, timeBuckets, s, firstId)
    {
      var steps' := steps + [st];
      forall k | 0 <= k < |steps'|
        ensures StepAfter(steps'[..k], steps'[k], groupedDemands, groupedSupplies, stock, timeBuckets, s, firstId)
      {
        if k < |steps| {
          TracedStep(steps, groupedDemands, groupedSupplies, stock, timeBuckets, s, firstId, k);
          assert steps'[..k] == steps[..k] && steps'[k] == steps[k];
        } else {
          assert steps'[..k] == steps && steps'[k] == st;
        }
      }
    }

    /** Each step of a traced run follows from the steps before it. */
    lemma TracedStep(steps: seq<Step>, groupedDemands: map<ComponentId, seq<Demand>>,
                     groupedSupplies: map<ComponentId, seq<Supply>>, stock: map<ComponentId, Quantity>,
                     timeBuckets: seq<Date>, s: Schedule, firstId: nat, k: nat)
      requires ConfigsReady(configs, s) && k < |steps|
      requires Traced(steps, groupedDemands, groupedSupplies, stock, timeBuckets, s, firstId)
      ensures StepAfter(steps[..k], steps[k], groupedDemands, groupedSupplies, stock, timeBuckets, s, firstId)
    {
    }

    /** The orders of a step are planned for its component, with ids from
        where the steps before it left off. */
    lemma StepPlanned(before: seq<Step>, st: Step, groupedDemands: map<ComponentId, seq<Demand>>,
                      groupedSupplies: map<ComponentId, seq<Supply>>, stock: map<ComponentId, Quantity>,
                      timeBuckets: seq<Date>, s: Schedule, firstId: nat)
      requires ConfigsReady(configs, s)
      requires StepAfter(before, st, groupedDemands, groupedSupplies, stock, timeBuckets, s, firstId)
      ensures PlannedFor(st.orders, st.component, configs, s, NextId(before, firstId))
      ensures !Blocks(st.component, configs)
    {
      var c := st.component;
      ComponentPlanFails(c, configs, Group(groupedDemands, c) + Inflow(c, before), Group(groupedSupplies, c),
                         StockOf(stock, c), timeBuckets, s, st.startId);
      ComponentPlanOutcome(c, configs, Group(groupedDemands, c) + Inflow(c, before), Group(groupedSupplies, c),
                           StockOf(stock, c), timeBuckets, s, st.startId);
    }

    /** Each step plans its component with ids from where the steps
        before it left off. */
    ghost predicate StepsPlanned(steps: seq<Step>, s: Schedule, firstId: nat) {
      steps == [] ||
      (StepsPlanned(steps[..|steps| - 1], s, firstId) &&
       steps[|steps| - 1].startId == NextId(steps[..|steps| - 1], firstId) &&
       PlannedFor(steps[|steps| - 1].orders, steps[|steps| - 1].component, configs, s, steps[|steps| - 1].startId))
    }

    /** The steps of a traced run are planned. */
    lemma {:induction false} TracedPlanned(steps: seq<Step>, groupedDemands: map<ComponentId, seq<Demand>>,
                                           groupedSupplies: map<ComponentId, seq<Supply>>, stock: map<ComponentId, Quantity>,
                                           timeBuckets: seq<Date>, s: Schedule, firstId: nat)
      requires ConfigsReady(configs, s)
      requires Traced(steps, groupedDemands, groupedSupplies, stock, timeBuckets, s, firstId)
      ensures StepsPlanned(steps, s, firstId)
      decreases |steps|
    {
      if steps != [] {
        var init := steps[..|steps| - 1];
        forall k | 0 <= k < |init|
          ensures StepAfter(init[..k], init[k], groupedDemands, groupedSupplies, stock, timeBuckets, s, firstId)
        {
          TracedStep(steps, groupedDemands, groupedSupplies, stock, timeBuckets, s, firstId, k);
          assert init[..k] == steps[..k] && init[k] == steps[k];
        }
        TracedPlanned(init, groupedDemands, groupedSupplies, stock, timeBuckets, s, firstId);
        TracedStep(steps, groupedDemands, groupedSupplies, stock, timeBuckets, s, firstId, |init|);
        StepPlanned(init, steps[|steps| - 1], groupedDemands, groupedSupplies, stock, timeBuckets, s, firstId);
      }
    }

    /** The orders of planned steps are planned for their components, with
        ids from `firstId` on, strictly ascending and below the next id. */
    lemma {:induction false} PlannedOrders(steps: seq<Step>, s: Schedule, firstId: nat)
      requires StepsPlanned(steps, s, firstId)
      ensures OrdersPlanned(AllOrders(steps), Components(steps), firstId, configs, s)
      ensures forall k :: 0 <= k < |AllOrders(steps)| ==> AllOrders(steps)[k].id < NextId(steps, firstId)
      ensures firstId <= NextId(steps, firstId)
      decreases |steps|
    {
      if steps != [] {
        var init := steps[..|steps| - 1];
        var st := steps[|steps| - 1];
        assert steps == init + [st];
        PlannedOrders(init, s, firstId);
        OrdersSnoc(init, st, firstId, s);
      }
    }

    /** A planned component does not block the run: its plan succeeded. */
    lemma TracedNotBlocking(steps: seq<Step>, groupedDemands: map<ComponentId, seq<Demand>>,
                            groupedSupplies: map<ComponentId, seq<Supply>>, stock: map<ComponentId, Quantity>,
                            timeBuckets: seq<Date>, s: Schedule, firstId: nat, k: nat)
      requires ConfigsReady(configs, s) && k < |steps|
      requires Traced(steps, groupedDemands, groupedSupplies, stock, timeBuckets, s, firstId)
      ensures !Blocks(steps[k].component, configs)
    {
      TracedStep(steps, groupedDemands, groupedSupplies, stock, timeBuckets, s, firstId, k);
      StepPlanned(steps[..k], steps[k], groupedDemands, groupedSupplies, stock, timeBuckets, s, firstId);
    }

    /** The planning of one component in the worklist of `calculate`:
        plans its demand with ids from `nextId`, explodes the orders into
        the children's dependent demand, grouped by child, and queues the
        children behind `rest` with `MergeChildDemands`; `st` records the
        step the run takes. */
    method PlanStep(componentId: ComponentId, componentDemands: seq<Demand>, groupedSupplies: map<ComponentId, seq<Supply>>,
                    stock: map<ComponentId, Quantity>, timeBuckets: seq<Date>, nextId: nat, rest: seq<ComponentId>,
                    processed: set<ComponentId>, dependent: map<ComponentId, seq<Demand>>, ghost s: Schedule)
      returns (res: Result<seq<PlannedOrder>, MrpError>, childDemands: map<ComponentId, seq<Demand>>,
               newQueue: seq<ComponentId>, newDependent: map<ComponentId, seq<Demand>>, idAfter: nat, ghost st: Step)
      requires Ready()
      requires s == calendar.Data() && Distinct(rest)
      ensures res.Failure? <==> Blocks(componentId, configs)
      ensures res.Failure? ==> res.error == BlockError(componentId, configs)
      ensures res.Success? ==>
        st.component == componentId && st.startId == nextId && st.orders == res.value &&
        ComponentPlan(st.component, configs, componentDemands, Group(groupedSupplies, st.component),
                      StockOf(stock, st.component), timeBuckets, s, st.startId)
          == Success(ComponentMrpResult(st.component, st.orders)) &&
        st.explosion == Explosion(st.component, st.orders, ChildrenOf(st.component), st.startId + |st.orders|) &&
        idAfter == st.startId + |st.orders| + |st.explosion|
      ensures res.Success? ==> GroupsOf(childDemands, st.explosion, DemandKey)
      ensures res.Success? ==> forall c :: c in childDemands ==> c in ChildIds(ChildrenOf(componentId))
      ensures res.Success? ==> Distinct(newQueue) && |rest| <= |newQueue| && newQueue[..|rest|] == rest
      ensures res.Success? ==> forall c :: c in newQueue <==> c in rest || (c in childDemands && c !in processed)
      ensures res.Success? ==> forall c :: Group(newDependent, c) == Group(dependent, c) + Group(childDemands, c)
      ensures res.Success? ==> st.queued == newQueue[|rest|..]
    {
      var componentResult := CalculateComponentMrp(componentId, componentDemands, groupedSupplies, stock, timeBuckets, nextId);
      ComponentPlanFails(componentId, configs, componentDemands, Group(groupedSupplies, componentId),
                         StockOf(stock, componentId), timeBuckets, s, nextId);
      if componentResult.Failure? {
        return Failure(componentResult.error), map[], rest, dependent, nextId, Step(componentId, nextId, [], [], []);
      }
      ComponentPlanOutcome(componentId, configs, componentDemands, Group(groupedSupplies, componentId),
                           StockOf(stock, componentId), timeBuckets, s, nextId);
      var orders := componentResult.value.plannedOrders;
      var exploded;
      exploded, idAfter := ExplodeBom(componentId, orders, nextId + |orders|);
      childDemands := exploded.value;
      newQueue, newDependent := MergeChildDemands(childDemands, rest, processed, dependent);
      st := Step(componentId, nextId, orders, Explosion(componentId, orders, ChildrenOf(componentId), nextId + |orders|),
                 newQueue[|rest|..]);
      res := Success(orders);
    }

    /** What `PlanStep` promises of a step, together with the demand and
        the ids the worklist hands it, is a step of the run. */
    lemma StepTaken(steps: seq<Step>, st: Step, c: ComponentId, startId: nat, componentDemands: seq<Demand>,
                    groupedDemands: map<ComponentId, seq<Demand>>, groupedSupplies: map<ComponentId, seq<Supply>>,
                    stock: map<ComponentId, Quantity>, timeBuckets: seq<Date>, s: Schedule, firstId: nat)
      requires ConfigsReady(configs, s)
      requires st.component == c && st.startId == startId
      requires componentDemands == Group(groupedDemands, c) + Inflow(c, steps) && componentDemands != []
      requires startId == NextId(steps, firstId)
      requires ComponentPlan(st.component, configs, componentDemands, Group(groupedSupplies, st.component),
                             StockOf(stock, st.component), timeBuckets, s, st.startId)
                 == Success(ComponentMrpResult(st.component, st.orders))
      requires st.explosion == Explosion(st.component, st.orders, ChildrenOf(st.component), st.startId + |st.orders|)
      ensures StepAfter(steps, st, groupedDemands, groupedSupplies, stock, timeBuckets, s, firstId)
    {
      assert componentDemands == Group(groupedDemands, st.component) + Inflow(st.component, steps);
    }

    /** What the worklist loop of `calculate` keeps between rounds: the
        queue holds components of the universe, each once; the steps planned
        distinct, processed components and follow from one another; the
        orders and the next id are those of the steps; and `Pending`
        relates the queue and the dependent demand to them. */
    ghost predicate Worklist(sorted: seq<ComponentId>, groupedDemands: map<ComponentId, seq<Demand>>,
                             groupedSupplies: map<ComponentId, seq<Supply>>, stock: map<ComponentId, Quantity>,
                             timeBuckets: seq<Date>, s: Schedule, firstId: nat, universe: set<ComponentId>,
                             queue: seq<ComponentId>, processed: set<ComponentId>, dependent: map<ComponentId, seq<Demand>>,
                             steps: seq<Step>, orders: seq<PlannedOrder>, nextId: nat)
      requires ConfigsReady(configs, s)
    {
      Distinct(queue) && (forall c :: c in queue ==> c in universe) &&
      processed <= universe &&
      Distinct(Components(steps)) && (forall c :: c in Components(steps) ==> c in processed) &&
      Traced(steps, groupedDemands, groupedSupplies, stock, timeBuckets, s, firstId) &&
      orders == AllOrders(steps) && nextId == NextId(steps, firstId) &&
      Pending(sorted, groupedDemands, queue, processed, dependent, steps)
    }

    /** The front of the queue lies in the universe; when it is not processed, it
        has not been planned and its dependent demand is what the steps
        exploded into it. */
    lemma WorklistFront(sorted: seq<ComponentId>, groupedDemands: map<ComponentId, seq<Demand>>,
                        groupedSupplies: map<ComponentId, seq<Supply>>, stock: map<ComponentId, Quantity>,
                        timeBuckets: seq<Date>, s: Schedule, firstId: nat, universe: set<ComponentId>,
                        queue: seq<ComponentId>, processed: set<ComponentId>, dependent: map<ComponentId, seq<Demand>>,
                        steps: seq<Step>, orders: seq<PlannedOrder>, nextId: nat)
      requires ConfigsReady(configs, s) && queue != []
      requires Worklist(sorted, groupedDemands, groupedSupplies, stock, timeBuckets, s, firstId, universe,
                        queue, processed, dependent, steps, orders, nextId)
      ensures queue[0] in universe
      ensures queue[0] !in processed ==> queue[0] !in Components(steps)
      ensures Group(dependent, queue[0]) == Inflow(queue[0], steps)
    {
      assert queue[0] in queue;
    }

    /** Dropping a processed component from the front of the queue. */
    lemma WorklistPop(sorted: seq<ComponentId>, groupedDemands: map<ComponentId, seq<Demand>>,
                      groupedSupplies: map<ComponentId, seq<Supply>>, stock: map<ComponentId, Quantity>,
                      timeBuckets: seq<Date>, s: Schedule, firstId: nat, universe: set<ComponentId>,
                      queue: seq<ComponentId>, processed: set<ComponentId>, dependent: map<ComponentId, seq<Demand>>,
                      steps: seq<Step>, orders: seq<PlannedOrder>, nextId: nat)
      requires ConfigsReady(configs, s) && queue != [] && queue[0] in processed
      requires Worklist(sorted, groupedDemands, groupedSupplies, stock, timeBuckets, s, firstId, universe,
                        queue, processed, dependent, steps, orders, nextId)
      ensures Worklist(sorted, groupedDemands, groupedSupplies, stock, timeBuckets, s, firstId, universe,
                       queue[1..], processed, dependent, steps, orders, nextId)
    {
      DistinctTail(queue);
      PendingPop(sorted, groupedDemands, queue, processed, dependent, steps);
    }

    /** Marking the front of the queue processed when it has no demand. */
    lemma WorklistSkip(sorted: seq<ComponentId>, groupedDemands: map<ComponentId, seq<Demand>>,
                       groupedSupplies: map<ComponentId, seq<Supply>>, stock: map<ComponentId, Quantity>,
                       timeBuckets: seq<Date>, s: Schedule, firstId: nat, universe: set<ComponentId>,
                       queue: seq<ComponentId>, processed: set<ComponentId>, dependent: map<ComponentId, seq<Demand>>,
                       steps: seq<Step>, orders: seq<PlannedOrder>, nextId: nat)
      requires ConfigsReady(configs, s) && queue != [] && queue[0] !in processed
      requires Group(groupedDemands, queue[0]) + Group(dependent, queue[0]) == []
      requires Worklist(sorted, groupedDemands, groupedSupplies, stock, timeBuckets, s, firstId, universe,
                        queue, processed, dependent, steps, orders, nextId)
      ensures Worklist(sorted, groupedDemands, groupedSupplies, stock, timeBuckets, s, firstId, universe,
                       queue[1..], processed + {queue[0]}, dependent, steps, orders, nextId)
    {
      DistinctTail(queue);
      assert queue[0] in queue;
      PendingSkip(sorted, groupedDemands, queue, processed, dependent, steps);
    }

    /** Planning the front of the queue as `PlanStep` does, then queueing
        its children as `MergeChildDemands` does, is a round of the loop. */
    lemma WorklistStep(sorted: seq<ComponentId>, groupedDemands: map<ComponentId, seq<Demand>>,
                       groupedSupplies: map<ComponentId, seq<Supply>>, stock: map<ComponentId, Quantity>,
                       timeBuckets: seq<Date>, s: Schedule, firstId: nat, demands: seq<Demand>, universe: set<ComponentId>,
                       queue: seq<ComponentId>, processed: set<ComponentId>, dependent: map<ComponentId, seq<Demand>>,
                       steps: seq<Step>, orders: seq<PlannedOrder>, nextId: nat, c: ComponentId, rest: seq<ComponentId>,
                       componentDemands: seq<Demand>, st: Step, childDemands: map<ComponentId, seq<Demand>>, idAfter: nat,
                       newQueue: seq<ComponentId>, newDependent: map<ComponentId, seq<Demand>>)
      requires ConfigsReady(configs, s) && universe == Universe(demands, bom)
      requires queue != [] && c == queue[0] && rest == queue[1..] && c !in processed
      requires Worklist(sorted, groupedDemands, groupedSupplies, stock, timeBuckets, s, firstId, universe,
                        queue, processed, dependent, steps, orders, nextId)
      requires componentDemands == Group(groupedDemands, c) + Group(dependent, c) && componentDemands != []
      requires st.component == c && st.startId == nextId
      requires ComponentPlan(st.component, configs, componentDemands, Group(groupedSupplies, st.component),
                             StockOf(stock, st.component), timeBuckets, s, st.startId)
                 == Success(ComponentMrpResult(st.component, st.orders))
      requires st.explosion == Explosion(st.component, st.orders, ChildrenOf(st.component), st.startId + |st.orders|)
      requires idAfter == st.startId + |st.orders| + |st.explosion|
      requires GroupsOf(childDemands, st.explosion, DemandKey)
      requires forall x :: x in childDemands ==> x in ChildIds(ChildrenOf(c))
      requires Distinct(newQueue) && |rest| <= |newQueue| && newQueue[..|rest|] == rest
      requires forall x :: x in newQueue <==> x in rest || (x in childDemands && x !in processed)
      requires forall x :: Group(newDependent, x) == Group(dependent, x) + Group(childDemands, x)
      ensures Worklist(sorted, groupedDemands, groupedSupplies, stock, timeBuckets, s, firstId, universe,
                       newQueue, processed + {c}, newDependent, steps + [st], orders + st.orders, idAfter)
    {
      WorklistFront(sorted, groupedDemands, groupedSupplies, stock, timeBuckets, s, firstId, universe,
                    queue, processed, dependent, steps, orders, nextId);
      DistinctTail(queue);
      StepTaken(steps, st, c, nextId, componentDemands, groupedDemands, groupedSupplies, stock, timeBuckets, s, firstId);
      TraceStep(steps, st, groupedDemands, groupedSupplies, stock, timeBuckets, s, firstId, processed, orders, idAfter);
      ChildrenInUniverse(c, demands);
      PendingStep(sorted, groupedDemands, queue, processed, dependent, steps, st, childDemands, newQueue, newDependent);
    }

    /** The trace half of `WorklistStep`: appending a step that follows
        from the trace keeps it traced, its components distinct and its
        orders and next id in step with the run. */
    lemma TraceStep(steps: seq<Step>, st: Step, groupedDemands: map<ComponentId, seq<Demand>>,
                    groupedSupplies: map<ComponentId, seq<Supply>>, stock: map<ComponentId, Quantity>,
                    timeBuckets: seq<Date>, s: Schedule, firstId: nat, processed: set<ComponentId>,
                    orders: seq<PlannedOrder>, idAfter: nat)
      requires ConfigsReady(configs, s)
      requires Distinct(Components(steps)) && (forall c :: c in Components(steps) ==> c in processed)
      requires st.component !in processed
      requires Traced(steps, groupedDemands, groupedSupplies, stock, timeBuckets, s, firstId)
      requires StepAfter(steps, st, groupedDemands, groupedSupplies, stock, timeBuckets, s, firstId)
      requires orders == AllOrders(steps) && idAfter == st.startId + |st.orders| + |st.explosion|
      ensures Distinct(Components(steps + [st]))
      ensures forall c :: c in Components(steps + [st]) ==> c in processed + {st.component}
      ensures Traced(steps + [st], groupedDemands, groupedSupplies, stock, timeBuckets, s, firstId)
      ensures orders + st.orders == AllOrders(steps + [st]) && idAfter == NextId(steps + [st], firstId)
    {
      TracedSnoc(steps, st, groupedDemands, groupedSupplies, stock, timeBuckets, s, firstId);
      DistinctSnoc(Components(steps), st.component);
      StepsSnoc(steps, st, firstId);
    }

    /** When the queue is empty, every component with independent or
        dependent demand was planned or had no demand, every demanded
        component was planned (so none blocks), and the orders are planned
        for their components. */
    /** Taking the front off the queue without planning it, because it was
        processed or has no demand (then it is processed now), keeps the
        worklist invariant and the queue order. */
    lemma WorklistPass(sorted: seq<ComponentId>, groupedDemands: map<ComponentId, seq<Demand>>,
                       groupedSupplies: map<ComponentId, seq<Supply>>, stock: map<ComponentId, Quantity>,
                       timeBuckets: seq<Date>, s: Schedule, firstId: nat, universe: set<ComponentId>,
                       queue: seq<ComponentId>, processed: set<ComponentId>, processed': set<ComponentId>,
                       dependent: map<ComponentId, seq<Demand>>, steps: seq<Step>, orders: seq<PlannedOrder>,
                       nextId: nat, popped: nat)
      requires ConfigsReady(configs, s) && queue != []
      requires Worklist(sorted, groupedDemands, groupedSupplies, stock, timeBuckets, s, firstId, universe,
                        queue, processed, dependent, steps, orders, nextId)
      requires Fifo(sorted, popped, queue, processed, steps)
      requires (queue[0] in processed && processed' == processed) ||
               (queue[0] !in processed && Group(groupedDemands, queue[0]) + Group(dependent, queue[0]) == [] &&
                processed' == processed + {queue[0]})
      ensures Worklist(sorted, groupedDemands, groupedSupplies, stock, timeBuckets, s, firstId, universe,
                       queue[1..], processed', dependent, steps, orders, nextId)
      ensures Fifo(sorted, popped + 1, queue[1..], processed', steps)
      ensures processed' == processed + {queue[0]}
      ensures processed' == processed || |universe - processed'| < |universe - processed|
    {
      WorklistFront(sorted, groupedDemands, groupedSupplies, stock, timeBuckets, s, firstId, universe,
                    queue, processed, dependent, steps, orders, nextId);
      if queue[0] !in processed {
        RemainingShrinks(universe, processed, queue[0]);
      }
      if queue[0] in processed {
        WorklistPop(sorted, groupedDemands, groupedSupplies, stock, timeBuckets, s, firstId, universe,
                    queue, processed, dependent, steps, orders, nextId);
      } else {
        WorklistSkip(sorted, groupedDemands, groupedSupplies, stock, timeBuckets, s, firstId, universe,
                     queue, processed, dependent, steps, orders, nextId);
      }
      FifoPop(sorted, popped, queue, queue[1..], processed, processed', steps);
    }

    /** Before the first round the queue is `sorted` and nothing is
        processed, planned or dependent. */
    lemma WorklistStart(sorted: seq<ComponentId>, groupedDemands: map<ComponentId, seq<Demand>>,
                        groupedSupplies: map<ComponentId, seq<Supply>>, stock: map<ComponentId, Quantity>,
                        timeBuckets: seq<Date>, s: Schedule, firstId: nat, universe: set<ComponentId>)
      requires ConfigsReady(configs, s)
      requires Distinct(sorted) && forall c :: c in sorted ==> c in universe
      ensures Worklist(sorted, groupedDemands, groupedSupplies, stock, timeBuckets, s, firstId, universe,
                       sorted, {}, map[], [], [], firstId)
    {
    }

    lemma WorklistDone(sorted: seq<ComponentId>, groupedDemands: map<ComponentId, seq<Demand>>,
                       groupedSupplies: map<ComponentId, seq<Supply>>, stock: map<ComponentId, Quantity>,
                       timeBuckets: seq<Date>, s: Schedule, firstId: nat, universe: set<ComponentId>,
                       processed: set<ComponentId>, dependent: map<ComponentId, seq<Demand>>,
                       steps: seq<Step>, orders: seq<PlannedOrder>, nextId: nat)
      requires ConfigsReady(configs, s)
      requires Worklist(sorted, groupedDemands, groupedSupplies, stock, timeBuckets, s, firstId, universe,
                        [], processed, dependent, steps, orders, nextId)
      ensures forall c :: c in sorted || Inflow(c, steps) != [] ==>
        c in Components(steps) || (c in sorted && Group(groupedDemands, c) == [])
      ensures forall c :: c in sorted && Group(groupedDemands, c) != [] ==> !Blocks(c, configs)
      ensures OrdersPlanned(orders, Components(steps), firstId, configs, s)
    {
      forall c | c in sorted && Group(groupedDemands, c) != []
        ensures !Blocks(c, configs)
      {
        var k :| 0 <= k < |steps| && steps[k].component == c;
        TracedNotBlocking(steps, groupedDemands, groupedSupplies, stock, timeBuckets, s, firstId, k);
      }
      TracedPlanned(steps, groupedDemands, groupedSupplies, stock, timeBuckets, s, firstId);
      PlannedOrders(steps, s, firstId);
    }

    /** One round of the worklist of `calculate` for a component that has
        demand and was not processed yet: plans it and queues its children
        with `PlanStep`, and marks it processed. */
    method VisitComponent(componentId: ComponentId, componentDemands: seq<Demand>,
                          groupedSupplies: map<ComponentId, seq<Supply>>, stock: map<ComponentId, Quantity>,
                          timeBuckets: seq<Date>, nextId: nat, rest: seq<ComponentId>, processed: set<ComponentId>,
                          dependent: map<ComponentId, seq<Demand>>, ghost s: Schedule, ghost sorted: seq<ComponentId>,
                          ghost groupedDemands: map<ComponentId, seq<Demand>>, ghost firstId: nat, ghost demands: seq<Demand>,
                          ghost universe: set<ComponentId>, ghost queue: seq<ComponentId>, ghost steps: seq<Step>,
                          ghost orders: seq<PlannedOrder>, ghost popped: nat)
      returns (res: Result<seq<PlannedOrder>, MrpError>, newQueue: seq<ComponentId>,
               newDependent: map<ComponentId, seq<Demand>>, idAfter: nat, ghost st: Step)
      requires Ready() && s == calendar.Data() && universe == Universe(demands, bom)
      requires queue != [] && componentId == queue[0] && rest == queue[1..] && componentId !in processed
      requires Worklist(sorted, groupedDemands, groupedSupplies, stock, timeBuckets, s, firstId, universe,
                        queue, processed, dependent, steps, orders, nextId)
      requires Fifo(sorted, popped, queue, processed, steps)
      requires componentDemands == Group(groupedDemands, componentId) + Group(dependent, componentId) && componentDemands != []
      ensures res.Failure? <==> Blocks(componentId, configs)
      ensures res.Failure? ==> res.error == BlockError(componentId, configs)
      ensures res.Success? ==>
        Worklist(sorted, groupedDemands, groupedSupplies, stock, timeBuckets, s, firstId, universe,
                 newQueue, processed + {componentId}, newDependent, steps + [st], orders + res.value, idAfter)
      ensures res.Success? ==> Fifo(sorted, popped + 1, newQueue, processed + {componentId}, steps + [st])
      ensures res.Success? ==> st.component == componentId && newQueue == rest + st.queued
    {
      DistinctTail(queue);
      var childDemands;
      res, childDemands, newQueue, newDependent, idAfter, st :=
        PlanStep(componentId, componentDemands, groupedSupplies, stock, timeBuckets, nextId, rest, processed, dependent, s);
      if res.Failure? {
        return;
      }
      WorklistStep(sorted, groupedDemands, groupedSupplies, stock, timeBuckets, s, firstId, demands, universe,
                   queue, processed, dependent, steps, orders, nextId, componentId, rest, componentDemands,
                   st, childDemands, idAfter, newQueue, newDependent);
      GroupsAreMembers(childDemands, st.explosion, DemandKey);
      FifoStep(sorted, popped, queue, componentId, rest, processed, steps, st, newQueue, childDemands);
    }

    /** One round of the worklist loop of `calculate`: takes the front off
        the queue and skips it when it is processed or has no demand;
        otherwise plans it, queues its children at the back and marks it
        processed. A failed plan ends the run with its error. */
    method Round(sortedComponents: seq<ComponentId>, groupedDemands: map<ComponentId, seq<Demand>>,
                 groupedSupplies: map<ComponentId, seq<Supply>>, stock: map<ComponentId, Quantity>,
                 timeBuckets: seq<Date>, firstId: nat, ghost demands: seq<Demand>, ghost universe: set<ComponentId>,
                 ghost s: Schedule, queue: seq<ComponentId>, processed: set<ComponentId>,
                 dependent: map<ComponentId, seq<Demand>>, ghost steps: seq<Step>, orders: seq<PlannedOrder>,
                 nextId: nat, ghost popped: nat)
      returns (error: Option<MrpError>, queue': seq<ComponentId>, processed': set<ComponentId>,
               dependent': map<ComponentId, seq<Demand>>, ghost steps': seq<Step>, orders': seq<PlannedOrder>,
               nextId': nat, ghost popped': nat)
      requires Ready() && s == calendar.Data() && universe == Universe(demands, bom)
      requires Distinct(sortedComponents) && queue != []
      requires Worklist(sortedComponents, groupedDemands, groupedSupplies, stock, timeBuckets, s, firstId, universe,
                        queue, processed, dependent, steps, orders, nextId)
      requires Fifo(sortedComponents, popped, queue, processed, steps)
      ensures error.Some? ==> exists c ::
        c !in Components(steps) && Group(groupedDemands, c) + Inflow(c, steps) != [] &&
        Blocks(c, configs) && error.value == BlockError(c, configs)
      ensures error.None? ==>
        Worklist(sortedComponents, groupedDemands, groupedSupplies, stock, timeBuckets, s, firstId, universe,
                 queue', processed', dependent', steps', orders', nextId')
      ensures error.None? ==> Fifo(sortedComponents, popped', queue', processed', steps')
      ensures error.None? ==> processed' == processed + {queue[0]} && Advanced(queue, steps, queue', steps')
      ensures error.None? ==>
        |universe - processed'| < |universe - processed| || (processed' == processed && |queue'| < |queue|)
    {
      var componentId := queue[0];
      var rest := queue[1..];
      popped' := popped + 1;
      if componentId in processed {
        WorklistPass(sortedComponents, groupedDemands, groupedSupplies, stock, timeBuckets, s, firstId, universe,
                     queue, processed, processed, dependent, steps, orders, nextId, popped);
        return None, rest, processed, dependent, steps, orders, nextId, popped';
      }
      WorklistFront(sortedComponents, groupedDemands, groupedSupplies, stock, timeBuckets, s, firstId, universe,
                    queue, processed, dependent, steps, orders, nextId);
      RemainingShrinks(universe, processed, componentId);
      var componentDemands := Group(groupedDemands, componentId) + Group(dependent, componentId);
      if componentDemands == [] {
        WorklistPass(sortedComponents, groupedDemands, groupedSupplies, stock, timeBuckets, s, firstId, universe,
                     queue, processed, processed + {componentId}, dependent, steps, orders, nextId, popped);
        return None, rest, processed + {componentId}, dependent, steps, orders, nextId, popped';
      }
      var planned, newQueue, newDependent, idAfter, st :=
        VisitComponent(componentId, componentDemands, groupedSupplies, stock, timeBuckets, nextId, rest,
                       processed, dependent, s, sortedComponents, groupedDemands, firstId, demands,
                       universe, queue, steps, orders, popped);
      if planned.Failure? {
        return Some(planned.error), queue, processed, dependent, steps, orders, nextId, popped;
      }
      PlannedFront(queue, steps, st, newQueue);
      return None, newQueue, processed + {componentId}, newDependent, steps + [st], orders + planned.value, idAfter,
             popped';
    }

    /** The worklist loop of `calculate`: takes components from the front
        of the queue, skips those already processed or without demand,
        plans the others, and queues their children. The ghost `steps`
        record what it planned. */
    method ProcessComponents(sortedComponents: seq<ComponentId>, groupedDemands: map<ComponentId, seq<Demand>>,
                             groupedSupplies: map<ComponentId, seq<Supply>>, stock: map<ComponentId, Quantity>,
                             timeBuckets: seq<Date>, firstId: nat, ghost demands: seq<Demand>)
      returns (res: Result<seq<PlannedOrder>, MrpError>, ghost steps: seq<Step>)
      requires Ready()
      requires Distinct(sortedComponents)
      requires forall c :: c in sortedComponents ==> c in Universe(demands, bom)
      ensures Traced(steps, groupedDemands, groupedSupplies, stock, timeBuckets, calendar.Data(), firstId)
      ensures Distinct(Components(steps)) && forall c :: c in Components(steps) ==> c in Universe(demands, bom)
      ensures res.Failure? ==> exists c ::
        c !in Components(steps) && Group(groupedDemands, c) + Inflow(c, steps) != [] &&
        Blocks(c, configs) && res.error == BlockError(c, configs)
      ensures (exists c :: c in sortedComponents && Group(groupedDemands, c) != [] && Blocks(c, configs)) ==> res.Failure?
      ensures res.Success? ==> res.value == AllOrders(steps)
      ensures res.Success? ==> forall c :: c in sortedComponents || Inflow(c, steps) != [] ==>
        c in Components(steps) || (c in sortedComponents && Group(groupedDemands, c) == [])
      ensures res.Success? ==> OrdersPlanned(res.value, Components(steps), firstId, configs, calendar.Data())
      ensures QueuedFresh(sortedComponents, steps) && InQueueOrder(Enqueued(sortedComponents, steps), steps)
      ensures SortedFirst(sortedComponents, steps)
    {
      ghost var universe := Universe(demands, bom);
      ghost var s := calendar.Data();
      var allPlannedOrders: seq<PlannedOrder> := [];
      var dependentDemands: map<ComponentId, seq<Demand>> := map[];
      var processedComponents: set<ComponentId> := {};
      var componentsToProcess := sortedComponents;
      var nextId := firstId;
      steps := [];
      ghost var popped: nat := 0;
      WorklistStart(sortedComponents, groupedDemands, groupedSupplies, stock, timeBuckets, s, firstId, universe);
      FifoStart(sortedComponents);
      while componentsToProcess != []
        invariant s == calendar.Data()
        invariant Worklist(sortedComponents, groupedDemands, groupedSupplies, stock, timeBuckets, s, firstId, universe,
                           componentsToProcess, processedComponents, dependentDemands, steps, allPlannedOrders, nextId)
        invariant Fifo(sortedComponents, popped, componentsToProcess, processedComponents, steps)
        decreases |universe - processedComponents|, |componentsToProcess|
      {
        var error, queue, processed, dependent, steps', orders, idAfter, popped' :=
          Round(sortedComponents, groupedDemands, groupedSupplies, stock, timeBuckets, firstId, demands, universe, s,
                componentsToProcess, processedComponents, dependentDemands, steps, allPlannedOrders, nextId, popped);
        if error.Some? {
          QueueOrderSortedFirst(sortedComponents, steps);
          return Failure(error.value), steps;
        }
        componentsToProcess, processedComponents, dependentDemands := queue, processed, dependent;
        steps, allPlannedOrders, nextId, popped := steps', orders, idAfter, popped';
      }
      WorklistDone(sortedComponents, groupedDemands, groupedSupplies, stock, timeBuckets, s, firstId, universe,
                   processedComponents, dependentDemands, steps, allPlannedOrders, nextId);
      QueueOrderSortedFirst(sortedComponents, steps);
      return Success(allPlannedOrders), steps;
    }

    /** `calculate`: plans the demanded components and, in turn, the
        children their orders explode into, each at most once, and pegs
        the orders. The run fails with the error of the first component
        whose plan fails; a demanded component that blocks always fails
        it. */
    method Calculate(demands: seq<Demand>, supplies: seq<Supply>, inventories: seq<Inventory>, firstId: nat, elapsedMs: nat)
      returns (res: Result<MrpResult, MrpError>, ghost steps: seq<Step>)
      requires Ready()
      ensures Traced(steps, Grouped(demands, DemandKey), Grouped(supplies, SupplyKey), old(Stock(CreateInventoryMap(inventories))),
                     MergeBuckets(RequiredDates(demands) + AvailableDates(supplies)), calendar.Data(), firstId)
      ensures Distinct(Components(steps)) && forall c :: c in Components(steps) ==> c in Universe(demands, bom)
      ensures res.Failure? ==> exists c ::
        c !in Components(steps) && Members(demands, DemandKey, c) + Inflow(c, steps) != [] &&
        Blocks(c, configs) && res.error == BlockError(c, configs)
      ensures (exists d :: d in demands && Blocks(d.componentId, configs)) ==> res.Failure?
      ensures res.Success? ==> fresh(res.value)
      ensures res.Success? ==> res.value.plannedOrders == AllOrders(steps)
      ensures res.Success? ==> forall c :: (exists d :: d in demands && d.componentId == c) || Inflow(c, steps) != [] ==>
        c in Components(steps)
      ensures res.Success? ==> OrdersPlanned(res.value.plannedOrders, Components(steps), firstId, configs, calendar.Data())
      ensures res.Success? ==> res.value.pegging == PeggingMapOf(res.value.plannedOrders, demands, MultiLevel)
      ensures res.Success? ==> forall k :: 0 <= k < |res.value.plannedOrders| ==>
        var o := res.value.plannedOrders[k];
        o.id in res.value.pegging &&
        res.value.pegging[o.id] == Allocation(o.componentId, o.quantity, o.requiredDate, demands, MultiLevel)
      ensures res.Success? ==> res.value.warnings == [] && res.value.calculationTimeMs == Some(elapsedMs)
      ensures DemandedFirst(demands, steps)
      ensures exists sorted :: FifoRun(demands, sorted, steps)
    {
      var inventoryMap := CreateInventoryMap(inventories);
      var stock := Stock(inventoryMap);
      var planningHorizon := GetMaxPlanningHorizon();
      var timeBuckets := CreateTimeBuckets(demands, supplies, planningHorizon);
      var groupedDemands := GroupDemandsByComponent(demands);
      var groupedSupplies := GroupSuppliesByComponent(supplies);
      GroupsOfUnique(groupedDemands, Grouped(demands, DemandKey), demands, DemandKey);
      GroupsOfUnique(groupedSupplies, Grouped(supplies, SupplyKey), supplies, SupplyKey);
      GroupsAreMembers(groupedDemands, demands, DemandKey);
      var sorted := TopologicalSort(groupedDemands);
      DemandedComponents(groupedDemands, demands, sorted.value);
      forall c | c in sorted.value
        ensures c in Universe(demands, bom)
      {
        var d :| d in demands && d.componentId == c;
      }
      var planned;
      planned, steps := ProcessComponents(sorted.value, groupedDemands, groupedSupplies, stock, timeBuckets, firstId, demands);
      SortedFirstDemanded(sorted.value, demands, steps);
      assert FifoRun(demands, sorted.value, steps);
      if planned.Failure? {
        return Failure(planned.error), steps;
      }
      AllDemandedPlanned(groupedDemands, demands, sorted.value, steps);
      var allPlannedOrders := planned.value;
      var result := PegAndReport(allPlannedOrders, demands, elapsedMs);
      return Success(result), steps;
    }
  }

  /** The end of `calculate`: pegs every planned order to the demand it
      serves (multi-level) and packs orders, pegging and timing into a new
      result without warnings. */
  method PegAndReport(orders: seq<PlannedOrder>, demands: seq<Demand>, elapsedMs: nat) returns (result: MrpResult)
    ensures fresh(result)
    ensures result.plannedOrders == orders
    ensures result.pegging == PeggingMapOf(orders, demands, MultiLevel)
    ensures (forall i, j :: 0 <= i < j < |orders| ==> orders[i].id < orders[j].id) ==>
      forall k :: 0 <= k < |orders| ==>
      orders[k].id in result.pegging &&
      result.pegging[orders[k].id] == Allocation(orders[k].componentId, orders[k].quantity, orders[k].requiredDate, demands, MultiLevel)
    ensures result.warnings == [] && result.calculationTimeMs == Some(elapsedMs)
  {
    var pegging := Perform(orders, demands, MultiLevel);
    result := new MrpResult.Empty();
    result.plannedOrders := orders;
    result.pegging := pegging.value;
    result.calculationTimeMs := Some(elapsedMs);
    forall k | 0 <= k < |orders| && (forall i, j :: 0 <= i < j < |orders| ==> orders[i].id < orders[j].id)
      ensures orders[k].id in pegging.value
      ensures pegging.value[orders[k].id] == Allocation(orders[k].componentId, orders[k].quantity, orders[k].requiredDate, demands, MultiLevel)
    {
      PeggingMapEntry(orders, demands, MultiLevel, k);
    }
  }

  /** The order in which the run plans: no component of `sorted` is
      planned after a component the run reached only through an
      explosion, and the components of `sorted` are planned in the order
      `sorted` lists them. */
  ghost predicate SortedFirst(sorted: seq<ComponentId>, steps: seq<Step>) {
    (forall i, j :: 0 <= i < j < |steps| && steps[j].component in sorted ==> steps[i].component in sorted) &&
    (forall i, j, a, b ::
       (0 <= i < j < |steps| && 0 <= a < |sorted| && 0 <= b < |sorted| &&
        steps[i].component == sorted[a] && steps[j].component == sorted[b]) ==> a < b)
  }

  /** No component with independent demand is planned after one that
      only has dependent demand. */
  ghost predicate DemandedFirst(demands: seq<Demand>, steps: seq<Step>) {
    forall i, j :: 0 <= i < j < |steps| && (exists d :: d in demands && d.componentId == steps[j].component) ==>
      exists d :: d in demands && d.componentId == steps[i].component
  }

  /** When `sorted` holds exactly the components with independent demand,
      `SortedFirst` is `DemandedFirst`. */
  lemma SortedFirstDemanded(sorted: seq<ComponentId>, demands: seq<Demand>, steps: seq<Step>)
    requires SortedFirst(sorted, steps)
    requires forall c :: c in sorted ==> exists d :: d in demands && d.componentId == c
    requires forall d :: d in demands ==> d.componentId in sorted
    ensures DemandedFirst(demands, steps)
  {
  }

  /** The components keyed in the demand groups are exactly those some
      demand asks for, and each of them has a non-empty group. */
  lemma DemandedComponents(groupedDemands: map<ComponentId, seq<Demand>>, demands: seq<Demand>,
                           sorted: seq<ComponentId>)
    requires GroupsOf(groupedDemands, demands, DemandKey)
    requires forall c :: c in sorted <==> c in groupedDemands
    ensures forall c :: c in sorted ==> exists d :: d in demands && d.componentId == c
    ensures forall d :: d in demands ==> d.componentId in sorted && Group(groupedDemands, d.componentId) != []
  {
    GroupsAreMembers(groupedDemands, demands, DemandKey);
    GroupedExactly(groupedDemands, demands, DemandKey);
    forall c | c in sorted
      ensures exists d :: d in demands && d.componentId == c
    {
      var k :| 0 <= k < |demands| && DemandKey(demands[k]) == c;
      assert demands[k] in demands;
    }
  }

  /** Completeness of the worklist restated over the demands: when
      `sorted` holds the demanded components, each with a non-empty
      group, every component with independent or dependent demand was
      planned. */
  lemma AllDemandedPlanned(groupedDemands: map<ComponentId, seq<Demand>>, demands: seq<Demand>,
                           sorted: seq<ComponentId>, steps: seq<Step>)
    requires forall c :: c in sorted ==> exists d :: d in demands && d.componentId == c
    requires forall d :: d in demands ==> d.componentId in sorted && Group(groupedDemands, d.componentId) != []
    requires forall c :: c in sorted || Inflow(c, steps) != [] ==>
      c in Components(steps) || (c in sorted && Group(groupedDemands, c) == [])
    ensures forall c :: (exists d :: d in demands && d.componentId == c) || Inflow(c, steps) != [] ==>
      c in Components(steps)
  {
    forall c | (exists d :: d in demands && d.componentId == c) || Inflow(c, steps) != []
      ensures c in Components(steps)
    {
      if c in sorted {
        var d :| d in demands && d.componentId == c;
      }
    }
  }

  /** The position of the first `x` in `s`. */
  function FirstIndex(s: seq<ComponentId>, x: ComponentId): (i: nat)
    requires x in s
    ensures i < |s| && s[i] == x && x !in s[..i]
  {
    if s[0] == x then 0
    else
      var j := FirstIndex(s[1..], x);
      assert s[..j + 1] == [s[0]] + s[1..][..j];
      j + 1
  }

  /** An `x` that does not occur before position `p` occurs first there. */
  lemma FirstIndexAt(s: seq<ComponentId>, p: nat)
    requires p < |s| && s[p] !in s[..p]
    ensures FirstIndex(s, s[p]) == p
  {
    var i := FirstIndex(s, s[p]);
    assert s[..i + 1][i] == s[p];
  }

  /** An `x` that occurs before position `p` occurs first before it. */
  lemma FirstIndexBefore(s: seq<ComponentId>, p: nat, x: ComponentId)
    requires p <= |s| && x in s[..p]
    ensures FirstIndex(s, x) < p
  {
    var k :| 0 <= k < p && s[..p][k] == x;
    assert s[k] == x;
  }

  /** Appending to a sequence leaves the first positions of its elements. */
  lemma FirstIndexAppend(s: seq<ComponentId>, t: seq<ComponentId>, x: ComponentId)
    requires x in s
    ensures FirstIndex(s + t, x) == FirstIndex(s, x)
  {
    var i := FirstIndex(s, x);
    assert (s + t)[..i] == s[..i];
    FirstIndexAt(s + t, i);
  }

  /** Every component the run put on its queue, in the order it put them
      there: the sorted list, then the children each step appended. */
  ghost function Enqueued(sorted: seq<ComponentId>, steps: seq<Step>): seq<ComponentId> {
    if steps == [] then sorted
    else Enqueued(sorted, steps[..|steps| - 1]) + steps[|steps| - 1].queued
  }

  lemma EnqueuedSnoc(sorted: seq<ComponentId>, steps: seq<Step>, st: Step)
    ensures Enqueued(sorted, steps + [st]) == Enqueued(sorted, steps) + st.queued
  {
    assert (steps + [st])[..|steps|] == steps;
  }

  /** The queue order starts with the sorted list. */
  lemma {:induction false} EnqueuedPrefix(sorted: seq<ComponentId>, steps: seq<Step>)
    ensures |sorted| <= |Enqueued(sorted, steps)| && Enqueued(sorted, steps)[..|sorted|] == sorted
  {
    if steps != [] {
      EnqueuedPrefix(sorted, steps[..|steps| - 1]);
    }
  }

  /** The children a step appended to the queue (calculator.rs:124-130):
      each once, and exactly the children its orders exploded into that
      were neither processed nor queued, that is, never queued before, or
      the planned component itself, which is marked processed only after
      its children are queued. */
  ghost predicate QueuedAt(sorted: seq<ComponentId>, before: seq<Step>, st: Step) {
    Distinct(st.queued) &&
    forall c :: c in st.queued <==>
      Members(st.explosion, DemandKey, c) != [] && (c !in Enqueued(sorted, before) || c == st.component)
  }

  /** Every step of the trace appended the children `QueuedAt` says. */
  ghost predicate QueuedFresh(sorted: seq<ComponentId>, steps: seq<Step>) {
    forall k {:trigger QueuedAt(sorted, steps[..k], steps[k])} :: 0 <= k < |steps| ==> QueuedAt(sorted, steps[..k], steps[k])
  }

  lemma QueuedFreshSnoc(sorted: seq<ComponentId>, steps: seq<Step>, st: Step)
    requires QueuedFresh(sorted, steps) && QueuedAt(sorted, steps, st)
    ensures QueuedFresh(sorted, steps + [st])
  {
    var steps' := steps + [st];
    forall k | 0 <= k < |steps'|
      ensures QueuedAt(sorted, steps'[..k], steps'[k])
    {
      if k < |steps| {
        assert steps'[..k] == steps[..k];
      } else {
        assert steps'[..k] == steps;
      }
    }
  }

  /** First in, first out: the steps plan their components in the order
      the components were first put on the queue `e`. */
  ghost predicate InQueueOrder(e: seq<ComponentId>, steps: seq<Step>) {
    (forall k :: 0 <= k < |steps| ==> steps[k].component in e) &&
    forall i, j {:trigger FirstIndex(e, steps[i].component), FirstIndex(e, steps[j].component)} ::
      0 <= i < j < |steps| ==> FirstIndex(e, steps[i].component) < FirstIndex(e, steps[j].component)
  }

  /** The queue is first-in first-out: it is what is left of `Enqueued`
      after `popped` components were taken off its front; those are the
      processed components, every step planned one of them, and the steps
      are in queue order. */
  ghost predicate Fifo(sorted: seq<ComponentId>, popped: nat, queue: seq<ComponentId>,
                       processed: set<ComponentId>, steps: seq<Step>) {
    var e := Enqueued(sorted, steps);
    popped <= |e| && queue == e[popped..] &&
    (forall c :: c in processed <==> c in e[..popped]) &&
    (forall k :: 0 <= k < |steps| ==> steps[k].component in e[..popped]) &&
    QueuedFresh(sorted, steps) && InQueueOrder(e, steps)
  }

  /** The queue before the first round (calculator.rs:80-81). */
  lemma FifoStart(sorted: seq<ComponentId>)
    ensures Fifo(sorted, 0, sorted, {}, [])
  {
    assert sorted[..0] == [];
  }

  /** Taking the front off the queue and marking it processed, without
      planning it, keeps the queue order. */
  lemma FifoPop(sorted: seq<ComponentId>, popped: nat, queue: seq<ComponentId>, queue': seq<ComponentId>,
                processed: set<ComponentId>, processed': set<ComponentId>, steps: seq<Step>)
    requires Fifo(sorted, popped, queue, processed, steps)
    requires queue != [] && queue' == queue[1..] && processed' == processed + {queue[0]}
    ensures Fifo(sorted, popped + 1, queue', processed', steps)
  {
    var e := Enqueued(sorted, steps);
    assert queue[0] == e[popped];
    assert e[..popped + 1] == e[..popped] + [e[popped]];
  }

  /** The children appended when the front is planned are those
      `QueuedAt` names. */
  lemma FifoQueued(sorted: seq<ComponentId>, popped: nat, queue: seq<ComponentId>, c: ComponentId, rest: seq<ComponentId>,
                   processed: set<ComponentId>, steps: seq<Step>, st: Step, newQueue: seq<ComponentId>,
                   childDemands: map<ComponentId, seq<Demand>>)
    requires Fifo(sorted, popped, queue, processed, steps)
    requires queue != [] && c == queue[0] && rest == queue[1..] && c !in processed && Distinct(queue)
    requires st.component == c
    requires Distinct(newQueue) && |rest| <= |newQueue| && newQueue[..|rest|] == rest
    requires forall x :: x in newQueue <==> x in rest || (x in childDemands && x !in processed)
    requires forall x :: x in childDemands <==> Members(st.explosion, DemandKey, x) != []
    requires st.queued == newQueue[|rest|..]
    ensures QueuedAt(sorted, steps, st)
    ensures newQueue == rest + st.queued
  {
    var e := Enqueued(sorted, steps);
    assert newQueue == newQueue[..|rest|] + newQueue[|rest|..];
    assert rest == e[popped + 1..];
    assert queue[0] == e[popped];
    forall i, j | 0 <= i < j < |st.queued|
      ensures st.queued[i] != st.queued[j]
    {
      assert st.queued[i] == newQueue[|rest| + i] && st.queued[j] == newQueue[|rest| + j];
    }
    forall c
      ensures c in st.queued <==> Members(st.explosion, DemandKey, c) != [] && (c !in e || c == st.component)
    {
      if c in st.queued {
        var k :| 0 <= k < |st.queued| && st.queued[k] == c;
        assert newQueue[|rest| + k] == c;
      }
      if Members(st.explosion, DemandKey, c) != [] && (c !in e || c == st.component) {
        if c != st.component {
          assert c !in e[..popped] && c !in e[popped + 1..];
        }
        assert c in newQueue;
      }
    }
  }

  /** Planning the front keeps the steps in queue order: the front is
      first queued at position `popped`, every earlier step before it. */
  lemma FifoOrder(sorted: seq<ComponentId>, popped: nat, queue: seq<ComponentId>, processed: set<ComponentId>,
                  steps: seq<Step>, st: Step)
    requires Fifo(sorted, popped, queue, processed, steps)
    requires queue != [] && st.component == queue[0] && queue[0] !in processed
    ensures InQueueOrder(Enqueued(sorted, steps) + st.queued, steps + [st])
    ensures forall k :: 0 <= k < |steps + [st]| ==> (steps + [st])[k].component in Enqueued(sorted, steps)[..popped + 1]
  {
    var e := Enqueued(sorted, steps);
    var e' := e + st.queued;
    var steps' := steps + [st];
    var n := |steps|;
    assert st.component == e[popped];
    assert e[..popped + 1] == e[..popped] + [e[popped]];
    FirstIndexAt(e, popped);
    FirstIndexAppend(e, st.queued, st.component);
    forall k | 0 <= k < |steps'|
      ensures steps'[k].component in e[..popped + 1] && steps'[k].component in e'
    {
      if k < n {
        assert steps'[k] == steps[k];
      }
    }
    forall i, j | 0 <= i < j < |steps'|
      ensures FirstIndex(e', steps'[i].component) < FirstIndex(e', steps'[j].component)
    {
      assert steps'[i] == steps[i];
      FirstIndexAppend(e, st.queued, steps[i].component);
      if j == n {
        FirstIndexBefore(e, popped, steps[i].component);
      } else {
        assert steps'[j] == steps[j];
        FirstIndexAppend(e, st.queued, steps[j].component);
      }
    }
  }

  /** Planning the front and appending its new children at the back keeps
      the queue first-in first-out. */
  lemma FifoStep(sorted: seq<ComponentId>, popped: nat, queue: seq<ComponentId>, c: ComponentId, rest: seq<ComponentId>,
                 processed: set<ComponentId>, steps: seq<Step>, st: Step, newQueue: seq<ComponentId>,
                 childDemands: map<ComponentId, seq<Demand>>)
    requires Fifo(sorted, popped, queue, processed, steps)
    requires queue != [] && c == queue[0] && rest == queue[1..] && c !in processed && Distinct(queue)
    requires st.component == c
    requires Distinct(newQueue) && |rest| <= |newQueue| && newQueue[..|rest|] == rest
    requires forall x :: x in newQueue <==> x in rest || (x in childDemands && x !in processed)
    requires forall x :: x in childDemands <==> Members(st.explosion, DemandKey, x) != []
    requires st.queued == newQueue[|rest|..]
    ensures Fifo(sorted, popped + 1, newQueue, processed + {c}, steps + [st])
    ensures newQueue == rest + st.queued
  {
    FifoQueued(sorted, popped, queue, c, rest, processed, steps, st, newQueue, childDemands);
    FifoOrder(sorted, popped, queue, processed, steps, st);
    QueuedFreshSnoc(sorted, steps, st);
    FifoShape(sorted, popped, queue, c, rest, processed, steps, st, newQueue);
  }

  /** After the front `c` is planned and `st.queued` appended, the queue
      is what is left of the new `Enqueued` past `popped + 1`, and those
      first `popped + 1` are the processed components and `c`. */
  lemma FifoShape(sorted: seq<ComponentId>, popped: nat, queue: seq<ComponentId>, c: ComponentId, rest: seq<ComponentId>,
                  processed: set<ComponentId>, steps: seq<Step>, st: Step, newQueue: seq<ComponentId>)
    requires popped <= |Enqueued(sorted, steps)| && queue == Enqueued(sorted, steps)[popped..]
    requires forall x :: x in processed <==> x in Enqueued(sorted, steps)[..popped]
    requires queue != [] && c == queue[0] && rest == queue[1..] && newQueue == rest + st.queued
    ensures var e' := Enqueued(sorted, steps + [st]);
      popped + 1 <= |e'| && newQueue == e'[popped + 1..] && e'[..popped + 1] == Enqueued(sorted, steps)[..popped + 1] &&
      forall x :: x in processed + {c} <==> x in e'[..popped + 1]
  {
    var e := Enqueued(sorted, steps);
    EnqueuedSnoc(sorted, steps, st);
    var e' := e + st.queued;
    assert e'[..popped + 1] == e[..popped + 1] == e[..popped] + [e[popped]];
    assert e'[popped + 1..] == e[popped + 1..] + st.queued;
    assert rest == e[popped + 1..];
  }

  /** The queue order starts with the sorted list, so a sorted component
      is first queued at its own position there. */
  lemma FirstIndexSorted(sorted: seq<ComponentId>, e: seq<ComponentId>, a: nat)
    requires Distinct(sorted) && a < |sorted| <= |e| && e[..|sorted|] == sorted
    ensures FirstIndex(e, sorted[a]) == a
  {
    assert e[a] == sorted[a] && e[..a] == sorted[..a];
    FirstIndexAt(e, a);
  }

  /** A bill of materials A -> {C, D}, C -> E, D -> E with demand on A
      alone: A queues C and D, C queues E, and D queues nothing, since E is
      already queued. Planning E before D breaks queue order. */
  lemma DiamondOrder(a: ComponentId, c: ComponentId, d: ComponentId, x: ComponentId,
                     sa: Step, sc: Step, sx: Step, sd: Step)
    requires a != c && a != d && a != x && c != d && c != x && d != x
    requires sa.component == a && sa.queued == [c, d] && sc.component == c && sc.queued == [x]
    requires sx.component == x && sx.queued == [] && sd.component == d && sd.queued == []
    ensures !InQueueOrder(Enqueued([a], [sa, sc, sx, sd]), [sa, sc, sx, sd])
  {
    var steps := [sa, sc, sx, sd];
    assert [sa][..0] == [];
    assert Enqueued([a], [sa]) == [a, c, d];
    assert [sa, sc][..1] == [sa];
    assert Enqueued([a], [sa, sc]) == [a, c, d, x];
    assert [sa, sc, sx][..2] == [sa, sc];
    assert Enqueued([a], [sa, sc, sx]) == [a, c, d, x];
    assert steps[..3] == [sa, sc, sx];
    var e := Enqueued([a], steps);
    assert e == [a, c, d, x];
    FirstIndexAt(e, 2);
    FirstIndexAt(e, 3);
    assert FirstIndex(e, steps[2].component) > FirstIndex(e, steps[3].component);
  }

  /** A round took the front off the queue: it planned nothing, or it
      planned the front as one more step and appended that step's
      children to the queue. */
  ghost predicate Advanced(queue: seq<ComponentId>, steps: seq<Step>, queue': seq<ComponentId>, steps': seq<Step>)
    requires queue != []
  {
    (steps' == steps && queue' == queue[1..]) ||
    (|steps'| == |steps| + 1 && steps'[..|steps|] == steps && steps'[|steps|].component == queue[0] &&
     queue' == queue[1..] + steps'[|steps|].queued)
  }

  /** Planning the front as `st` and appending its children advances the
      queue. */
  lemma PlannedFront(queue: seq<ComponentId>, steps: seq<Step>, st: Step, newQueue: seq<ComponentId>)
    requires queue != [] && st.component == queue[0] && newQueue == queue[1..] + st.queued
    ensures Advanced(queue, steps, newQueue, steps + [st])
  {
    assert (steps + [st])[..|steps|] == steps;
  }

  /** A run of the worklist in queue order: the queue started as the
      demanded components, each once; each step appended the children
      `QueuedAt` names; and the steps planned their components in the
      order they were first queued. */
  ghost predicate FifoRun(demands: seq<Demand>, sorted: seq<ComponentId>, steps: seq<Step>) {
    Distinct(sorted) && (forall c :: c in sorted <==> exists d :: d in demands && d.componentId == c) &&
    QueuedFresh(sorted, steps) && InQueueOrder(Enqueued(sorted, steps), steps)
  }

  /** Queue order puts the sorted components first, in their order. */
  lemma QueueOrderSortedFirst(sorted: seq<ComponentId>, steps: seq<Step>)
    requires Distinct(sorted) && InQueueOrder(Enqueued(sorted, steps), steps)
    ensures SortedFirst(sorted, steps)
  {
    var e := Enqueued(sorted, steps);
    EnqueuedPrefix(sorted, steps);
    forall i, j | 0 <= i < j < |steps| && steps[j].component in sorted
      ensures steps[i].component in sorted
    {
      var b :| 0 <= b < |sorted| && sorted[b] == steps[j].component;
      FirstIndexSorted(sorted, e, b);
      var a := FirstIndex(e, steps[i].component);
      assert e[..|sorted|][a] == steps[i].component;
    }
    forall i, j, a, b | 0 <= i < j < |steps| && 0 <= a < |sorted| && 0 <= b < |sorted| &&
                        steps[i].component == sorted[a] && steps[j].component == sorted[b]
      ensures a < b
    {
      FirstIndexSorted(sorted, e, a);
      FirstIndexSorted(sorted, e, b);
    }
  }

  /** Marking one more component of the universe processed leaves fewer
      to process: the measure the worklist loop decreases. */
  lemma RemainingShrinks<T>(universe: set<T>, processed: set<T>, c: T)
    requires c in universe && c !in processed
    ensures |universe - (processed + {c})| < |universe - processed|
  {
    assert universe - (processed + {c}) == (universe - processed) - {c};
  }

  /** A finite, non-empty set of naturals has a largest element. */
  lemma {:induction false} HasMax(s: set<nat>)
    requires s != {}
    ensures exists m :: m in s && forall x :: x in s ==> x <= m
    decreases |s|
  {
    var y :| y in s;
    var rest := s - {y};
    if rest != {} {
      HasMax(rest);
      var m :| m in rest && forall x :: x in rest ==> x <= m;
      var top := if y > m then y else m;
      forall x | x in s
        ensures x <= top
      {
        if x != y {
          assert x in rest;
        }
      }
    } else {
      assert s == {y};
    }
  }
}
