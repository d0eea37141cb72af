/** One business date of the Ops source: what the planners read from the database, what they plan,
    and in which order the applier takes it.

    The reads are also given as functions of the set of events the database reflects, so that the
    ledger of a date is a function of the ledger before it. */
module OpsDay {
  import opened Wrappers
  import opened Ordering
  import opened OpsEvents
  import opened OpsTables

  /** `coalesce(max(key), 0) + 1` over the keys of a table. */
  function NextId(keys: set<int>): (next: int)
    ensures forall k :: k in keys ==> k < next
    ensures if keys == {} then next == 1 else next - 1 in keys
  {
    if keys == {} then 1 else Greatest(keys) + 1
  }

  /* ---- Snapshot reads ---- */

  function Refs(crm: set<CrmEvent>): set<string> {
    set e | e in crm :: e.opportunity
  }

  function ReadConverted(db: OpsDb, refs: set<string>): set<string> {
    set o | o in db.orders && db.orders[o].opportunity in refs :: db.orders[o].opportunity
  }

  function ReadFulfillment(db: OpsDb, orderIds: set<int>): Fulfillment {
    Fulfillment(
      NextId(db.shipments.Keys),
      set k | k in db.shipments && db.shipments[k].orderId in orderIds :: db.shipments[k].orderId,
      db.invoices.Keys * orderIds,
      set k | k in db.shipments && db.shipments[k].orderId in orderIds && db.shipments[k].delivered.Some?)
  }

  /* ---- The same reads, of a database that reflects the events `applied` ---- */

  function Opportunities(s: set<Event>): set<string> {
    set e | e in s && e.OrderCreated? :: e.opportunity
  }

  function ConvertedBy(base: OpsDb, applied: set<Event>, refs: set<string>): set<string> {
    ReadConverted(base, refs) + Opportunities(applied) * refs
  }

  function FulfillmentBy(base: OpsDb, applied: set<Event>): Fulfillment {
    Fulfillment(
      NextId(base.shipments.Keys + ShipmentIds(applied)),
      ShippedOrders(applied), InvoicedOrders(applied), DeliveredShipments(applied))
  }

  lemma ReadsOrders(base: OpsDb, applied: set<Event>, db: OpsDb, refs: set<string>)
    requires OrdersReflect(base, applied, db)
    ensures ReadConverted(db, refs) == ConvertedBy(base, applied, refs)
    ensures NextId(db.orders.Keys) == NextId(base.orders.Keys + OrderIds(applied))
  {
    forall o | o in db.orders ensures o in base.orders || db.orders[o].opportunity in Opportunities(applied) {
      if o !in base.orders {
        var e :| e in applied && e.OrderCreated? && e.orderId == o;
        assert OrderRowIs(applied, db, e);
      }
    }
    forall r | r in ConvertedBy(base, applied, refs) ensures r in ReadConverted(db, refs) {
      if r in ReadConverted(base, refs) {
        var o :| o in base.orders && base.orders[o].opportunity in refs && base.orders[o].opportunity == r;
        assert o in db.orders && db.orders[o] == base.orders[o];
      } else {
        var e :| e in applied && e.OrderCreated? && e.opportunity == r;
        assert OrderRowIs(applied, db, e);
        assert db.orders[e.orderId].opportunity == r;
      }
    }
  }

  /** The fulfillment read sees exactly what the applied events shipped, invoiced and delivered,
      for any ledger that holds their orders. */
  lemma ReadsFulfillment(sim: Simulation, base: OpsDb, applied: set<Event>, db: OpsDb, orderIds: set<int>)
    requires SeedDb(sim, base) && Consistent(base, applied)
    requires ShipmentsReflect(base, applied, db) && InvoicesReflect(base, applied, db)
    requires OrderIds(applied) <= orderIds && orderIds !! base.orders.Keys
    ensures ReadFulfillment(db, orderIds) == FulfillmentBy(base, applied)
  {
    forall p | p in applied && p.ShipmentCreated?
      ensures p.shipmentId in db.shipments && db.shipments[p.shipmentId].orderId == p.orderId && p.orderId in orderIds
      ensures db.shipments[p.shipmentId].delivered.Some? <==> p.shipmentId in DeliveredShipments(applied)
    {
      assert ShipmentRowIs(applied, db, p) && HasParent(applied, p);
    }
    forall k | k in base.shipments ensures db.shipments[k].orderId in base.orders {
      assert base.shipments[k].orderId in ShippedOrderIds(base.shipments);
    }
    assert forall k :: k in db.shipments && db.shipments[k].orderId in orderIds ==> k in ShipmentIds(applied);
    DeliveriesHaveShipments(base, applied);
    ReadsInvoiced(sim, base, applied, db, orderIds);
    hide Consistent, SeedDb, ShipmentsReflect, InvoicesReflect, OrderIds, NextId;
    ReadsShipped(applied, db, orderIds);
    ReadsDelivered(applied, db, orderIds);
    assert db.shipments.Keys == base.shipments.Keys + ShipmentIds(applied) by { ShipmentKeys(base, applied, db); }
  }

  lemma ShipmentKeys(base: OpsDb, applied: set<Event>, db: OpsDb)
    requires ShipmentsReflect(base, applied, db)
    ensures db.shipments.Keys == base.shipments.Keys + ShipmentIds(applied)
  {
  }

  lemma DeliveriesHaveShipments(base: OpsDb, applied: set<Event>)
    requires Consistent(base, applied)
    ensures DeliveredShipments(applied) <= ShipmentIds(applied)
  {
    forall k | k in DeliveredShipments(applied) ensures k in ShipmentIds(applied) {
      var v :| v in applied && v.ShipmentDelivered? && v.shipmentId == k;
      assert HasParent(applied, v);
      var p :| p in applied && p.ShipmentCreated? && p.shipmentId == v.shipmentId && p.orderId == v.orderId
          && p.date == v.shipDate;
    }
  }

  lemma ReadsShipped(applied: set<Event>, db: OpsDb, orderIds: set<int>)
    requires forall p :: p in applied && p.ShipmentCreated? ==>
      p.shipmentId in db.shipments && db.shipments[p.shipmentId].orderId == p.orderId && p.orderId in orderIds
    requires forall k :: k in db.shipments && db.shipments[k].orderId in orderIds ==> k in ShipmentIds(applied)
    ensures ReadFulfillment(db, orderIds).shipped == ShippedOrders(applied)
  {
    var f := ReadFulfillment(db, orderIds);
    forall o | o in f.shipped ensures o in ShippedOrders(applied) {
      var k :| k in db.shipments && db.shipments[k].orderId in orderIds && db.shipments[k].orderId == o;
      var p :| p in applied && p.ShipmentCreated? && p.shipmentId == k;
    }
    forall o | o in ShippedOrders(applied) ensures o in f.shipped {
      var p :| p in applied && p.ShipmentCreated? && p.orderId == o;
      assert p.shipmentId in db.shipments;
    }
  }

  lemma ReadsDelivered(applied: set<Event>, db: OpsDb, orderIds: set<int>)
    requires forall p :: p in applied && p.ShipmentCreated? ==>
      && p.shipmentId in db.shipments && db.shipments[p.shipmentId].orderId == p.orderId && p.orderId in orderIds
      && (db.shipments[p.shipmentId].delivered.Some? <==> p.shipmentId in DeliveredShipments(applied))
    requires forall k :: k in db.shipments && db.shipments[k].orderId in orderIds ==> k in ShipmentIds(applied)
    requires DeliveredShipments(applied) <= ShipmentIds(applied)
    ensures ReadFulfillment(db, orderIds).delivered == DeliveredShipments(applied)
  {
    var f := ReadFulfillment(db, orderIds);
    forall k | k in f.delivered ensures k in DeliveredShipments(applied) {
      var p :| p in applied && p.ShipmentCreated? && p.shipmentId == k;
    }
    forall k | k in DeliveredShipments(applied) ensures k in f.delivered {
      assert k in ShipmentIds(applied);
      var p :| p in applied && p.ShipmentCreated? && p.shipmentId == k;
    }
  }

  lemma ReadsInvoiced(sim: Simulation, base: OpsDb, applied: set<Event>, db: OpsDb, orderIds: set<int>)
    requires SeedDb(sim, base) && Consistent(base, applied) && InvoicesReflect(base, applied, db)
    requires OrderIds(applied) <= orderIds && orderIds !! base.orders.Keys
    ensures ReadFulfillment(db, orderIds).invoiced == InvoicedOrders(applied)
  {
    var f := ReadFulfillment(db, orderIds);
    forall o | o in InvoicedOrders(applied) ensures o in orderIds {
      var i :| i in applied && i.InvoiceCreated? && i.orderId == o;
      assert HasParent(applied, i);
    }
    forall o | o in f.invoiced ensures o !in base.invoices {}
  }

  /* ---- The plans of a date ---- */

  ghost function OrdersOf(
    sim: Simulation, d: Date, crm: set<CrmEvent>, base: OpsDb, applied: set<Event>): seq<Event>
    requires DistinctKeys(crm, CrmId)
  {
    PlanOrders(sim, d, crm, ConvertedBy(base, applied, Refs(crm)), NextId(base.orders.Keys + OrderIds(applied)))
  }

  ghost function FulfillmentOf(
    sim: Simulation, d: Date, base: OpsDb, ledger: set<Event>, applied: set<Event>): set<Event>
    requires Injective(sim)
  {
    PlanFulfillment(sim, d, ledger, FulfillmentBy(base, applied))
  }

  ghost function SupportOf(
    sim: Simulation, d: Date, base: OpsDb, ledger: set<Event>, applied: set<Event>): set<Event>
    requires Injective(sim)
  {
    PlanSupport(sim, d, ledger, NextId(base.cases.Keys + CaseIds(applied)))
  }

  /* ---- The order of application ---- */

  function Priority(e: Event): (p: int)
    ensures 0 <= p < 100
  {
    match e
    case OrderCreated(_, _, _, _, _, _) => 0
    case ShipmentCreated(_, _, _, _, _) => 1
    case ShipmentDelivered(_, _, _, _, _) => 2
    case InvoiceCreated(_, _, _, _, _) => 3
    case CaseOpened(_, _, _, _) => 4
    case CaseResolved(_, _) => 5
    case CaseClosed(_, _) => 6
  }

  /** Orders pairs of a business date and a priority. */
  function Rank(e: Event): int { 100 * e.date + Priority(e) }

  function ApplySorted(sim: Simulation, db: OpsDb, events: seq<Event>): Result<OpsDb, Error> {
    ApplyAll(sim, db, Sort(events, Rank))
  }

  /** The events of a date the second transaction applies. */
  function Downstream(s: set<Event>, d: Date): set<Event> {
    set e | e in s && e.date == d && !e.OrderCreated?
  }

  function DayOrders(s: set<Event>, d: Date): set<Event> {
    set e | e in s && e.date == d && e.OrderCreated?
  }
}
