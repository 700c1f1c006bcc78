/**
 * The single-period gross-to-net rules shared by finished-goods planning
 * (models/production_planner.py) and component planning
 * (production_planning_system/models/mrp_calculator.py): safety stock,
 * net demand, lot-size rounding with np.ceil, and coverage days.
 * Quantities are exact rationals (`real`), so np.ceil is exact here.
 */
module Netting {

  /** np.ceil on an exact rational. */
  function Ceil(x: real): (c: int)
    ensures c as real - 1.0 < x <= c as real
  {
    var f := x.Floor;
    if f as real == x then f else f + 1
  }

  /** q is a whole number of lots. */
  predicate IsLotMultiple(q: real, lot: real)
    requires lot != 0.0
  {
    (q / lot).Floor as real == q / lot
  }

  /** np.ceil(x / lot) * lot. */
  function RoundUp(x: real, lot: real): real
    requires lot != 0.0
  {
    Ceil(x / lot) as real * lot
  }

  /** For a positive lot, RoundUp gives the least whole number of lots that is at least x. */
  lemma RoundUpIsLeastMultiple(x: real, lot: real)
    requires lot != 0.0
    ensures lot > 0.0 ==> x <= RoundUp(x, lot) < x + lot
    ensures IsLotMultiple(RoundUp(x, lot), lot)
  {
    if lot > 0.0 {
      RoundUpBounds(x, lot);
    }
    RoundUpMultiple(x, lot);
  }

  lemma RoundUpBounds(x: real, lot: real)
    requires lot > 0.0
    ensures x <= RoundUp(x, lot) < x + lot
  {
    var y := x / lot;
    var cr := Ceil(y) as real;
    assert y * lot == x;
    assert y * lot <= cr * lot;
    assert (cr - 1.0) * lot < y * lot;
    assert (cr - 1.0) * lot == cr * lot - lot;
    assert RoundUp(x, lot) == cr * lot;
    assert cr * lot - lot < x;
  }

  lemma RoundUpMultiple(x: real, lot: real)
    requires lot != 0.0
    ensures IsLotMultiple(RoundUp(x, lot), lot)
  {
    var c := Ceil(x / lot);
    var r := c as real * lot;
    assert r == RoundUp(x, lot);
    assert r / lot == c as real;
    assert (c as real).Floor == c;
    assert (r / lot).Floor as real == r / lot;
  }

  function Max(a: real, b: real): real
  {
    if a >= b then a else b
  }

  /** safety_stock = demand * safety_stock_days / 30. */
  function SafetyStock(demand: real, safetyDays: real): real
  {
    demand * safetyDays / 30.0
  }

  /** net_demand = max(0, demand + safety_stock - inventory). */
  function NetDemand(demand: real, safety: real, inventory: real): (net: real)
    ensures net >= 0.0
    ensures net > 0.0 <==> inventory < demand + safety
    ensures net > 0.0 ==> net + inventory == demand + safety
  {
    Max(0.0, demand + safety - inventory)
  }

  /**
   * Finished-goods lot sizing (models/production_planner.py:243-249):
   * at least one batch, rounded up to a whole number of batches.
   */
  function BatchProduction(net: real, batch: real): (p: real)
    requires batch != 0.0
    ensures net <= 0.0 ==> p == 0.0
    ensures net > 0.0 && batch > 0.0 ==>
      && p >= net && p >= batch
      && IsLotMultiple(p, batch)
      && p < Max(net, batch) + batch
  {
    if net > 0.0 then
      var q := Max(net, batch);
      RoundUpIsLeastMultiple(q, batch);
      RoundUp(q, batch)
    else 0.0
  }

  /** The lot a purchase is rounded to, when it is rounded at all. */
  function PurchaseLot(minOrderQty: real, orderMultiple: int): real
  {
    if orderMultiple > 1 then minOrderQty * orderMultiple as real else minOrderQty
  }

  /** Whether a purchase is rounded: order_multiple > 1, or order_multiple == 1 and moq > 1. */
  predicate PurchaseRounded(minOrderQty: real, orderMultiple: int)
  {
    orderMultiple > 1 || (orderMultiple == 1 && minOrderQty > 1.0)
  }

  /**
   * Purchase lot sizing (production_planning_system/models/mrp_calculator.py:504-514):
   * at least the minimum order quantity, rounded up to a multiple of
   * moq * order_multiple (order_multiple > 1) or of moq (order_multiple == 1, moq > 1).
   */
  function PurchaseQuantity(net: real, minOrderQty: real, orderMultiple: int): (p: real)
    requires PurchaseRounded(minOrderQty, orderMultiple) ==> PurchaseLot(minOrderQty, orderMultiple) != 0.0
    ensures net <= 0.0 ==> p == 0.0
    ensures net > 0.0 && !PurchaseRounded(minOrderQty, orderMultiple) ==> p == Max(net, minOrderQty)
    ensures net > 0.0 && PurchaseRounded(minOrderQty, orderMultiple) && minOrderQty > 0.0 ==>
      var lot := PurchaseLot(minOrderQty, orderMultiple);
      && p >= net && p >= minOrderQty
      && IsLotMultiple(p, lot)
      && p < Max(net, minOrderQty) + lot
  {
    if net > 0.0 then
      var q := Max(net, minOrderQty);
      if PurchaseRounded(minOrderQty, orderMultiple) then
        var lot := PurchaseLot(minOrderQty, orderMultiple);
        assert minOrderQty > 0.0 ==> lot > 0.0;
        RoundUpIsLeastMultiple(q, lot);
        RoundUp(q, lot)
      else q
    else 0.0
  }

  /**
   * Semi-finished lot sizing (production_planning_system/models/mrp_calculator.py:624-627):
   * the net demand rounded up to a multiple of order_multiple, no minimum.
   */
  function SemiProduction(net: real, orderMultiple: int): (p: real)
    requires orderMultiple != 0
    ensures net <= 0.0 ==> p == 0.0
    ensures net > 0.0 && orderMultiple > 0 ==>
      && net <= p < net + orderMultiple as real
      && IsLotMultiple(p, orderMultiple as real)
  {
    if net > 0.0 then
      RoundUpIsLeastMultiple(net, orderMultiple as real);
      RoundUp(net, orderMultiple as real)
    else 0.0
  }

  /** Python's round(x): the nearest integer, a half going to the even neighbour. */
  function Round(x: real): (r: int)
    ensures x - 0.5 <= r as real <= x + 0.5
    ensures (r as real - x == 0.5 || x - r as real == 0.5) ==> r % 2 == 0
  {
    var f := x.Floor;
    var d := x - f as real;
    if d < 0.5 then f
    else if d > 0.5 then f + 1
    else if f % 2 == 0 then f
    else f + 1
  }

  /** Whole numbers are left as they are. */
  lemma RoundWhole(x: real)
    requires x.Floor as real == x
    ensures Round(x) as real == x
  {
  }

  /** round(x, 1): the nearest tenth, a half going to an even last digit. */
  function RoundTenth(x: real): (r: real)
    ensures x - 0.05 <= r <= x + 0.05
    ensures (r * 10.0).Floor as real == r * 10.0
  {
    var n := Round(x * 10.0);
    assert n as real / 10.0 * 10.0 == n as real;
    n as real / 10.0
  }

  /** Days of demand that an ending inventory covers, rounded to a tenth; +infinity without demand. */
  datatype Coverage = Days(days: real) | Infinite

  function CoverageOf(ending: real, demand: real): (c: Coverage)
    ensures c.Infinite? <==> demand <= 0.0
    ensures c.Days? ==> var exact := ending * 30.0 / demand;
      exact - 0.05 <= c.days <= exact + 0.05 && (c.days * 10.0).Floor as real == c.days * 10.0
  {
    if demand > 0.0 then
      assert ending / (demand / 30.0) == ending * 30.0 / demand;
      Days(RoundTenth(ending / (demand / 30.0)))
    else Infinite
  }

  /**
   * A worked month: demand 1000, inventory 200,
   * 15 safety days and batch 100 give safety 500, net 1300, production 1300
   * and ending inventory 500.
   */
  lemma WorkedNettingExample()
    ensures SafetyStock(1000.0, 15.0) == 500.0
    ensures NetDemand(1000.0, 500.0, 200.0) == 1300.0
    ensures BatchProduction(1300.0, 100.0) == 1300.0
    ensures 200.0 + BatchProduction(1300.0, 100.0) - 1000.0 == 500.0
  {
    assert Ceil(1300.0 / 100.0) == 13;
  }

  /** Without demand the coverage is +infinity and nothing is produced once stock is non-negative. */
  lemma ZeroDemandExample(inventory: real, safetyDays: real, batch: real)
    requires inventory >= 0.0 && batch != 0.0
    ensures CoverageOf(inventory + BatchProduction(NetDemand(0.0, SafetyStock(0.0, safetyDays), inventory), batch), 0.0) == Infinite
    ensures BatchProduction(NetDemand(0.0, SafetyStock(0.0, safetyDays), inventory), batch) == 0.0
  {
  }
}
