/** Applying one more event to a database that reflects a set of events succeeds and reflects the
    larger set.  Hence a database depends on which events were applied, not on their order, and no
    handler error or early return is ever taken for a consistent set of events. */
module OpsProjection {
  import opened Wrappers
  import opened OpsEvents
  import opened OpsTables

  /** `e` is a new event, consistent with the events `s` the database reflects. */
  ghost predicate Step(sim: Simulation, base: OpsDb, s: set<Event>, e: Event, db: OpsDb) {
    && Injective(sim) && SeedDb(sim, base)
    && Reflects(sim, base, s, db)
    && Consistent(base, s) && Consistent(base, s + {e}) && e !in s
  }

  lemma NewId(sim: Simulation, s: set<Event>, e: Event)
    requires Injective(sim) && e !in s
    ensures sim.eventId(e) !in EventIds(sim, s)
  {
  }

  lemma OtherKindsKeepIds(s: set<Event>, e: Event)
    ensures !e.OrderCreated? ==> OrderIds(s + {e}) == OrderIds(s) && CustomerIds(s + {e}) == CustomerIds(s)
    ensures !e.CaseOpened? ==> CaseIds(s + {e}) == CaseIds(s)
    ensures !e.CaseResolved? ==> ResolvedCases(s + {e}) == ResolvedCases(s)
    ensures !e.ShipmentCreated? ==> forall k, o, d :: HasShipment(s + {e}, k, o, d) ==> HasShipment(s, k, o, d)
  {
    if !e.ShipmentCreated? {
      forall k, o, d | HasShipment(s + {e}, k, o, d) ensures HasShipment(s, k, o, d) {
        var p :| p in s + {e} && p.ShipmentCreated? && p.shipmentId == k && p.orderId == o && p.date == d;
        assert p in s;
      }
    }
  }

  lemma ParentIsOlder(base: OpsDb, s: set<Event>, e: Event)
    requires Consistent(base, s + {e})
    ensures HasParent(s, e)
  {
    assert e in s + {e};
    OtherKindsKeepIds(s, e);
  }

  lemma NewClaim(base: OpsDb, s: set<Event>, e: Event)
    requires Unique(base, s + {e}) && e !in s
    ensures forall a :: a in s ==> !SameClaim(a, e)
  {
    forall a | a in s ensures !SameClaim(a, e) {
      assert a in s + {e} && e in s + {e};
    }
  }

  lemma HistoriesLackNewId(sim: Simulation, base: OpsDb, s: set<Event>, e: Event, db: OpsDb)
    requires Step(sim, base, s, e, db)
    ensures sim.eventId(e) !in db.orderHistory && sim.eventId(e) !in db.shipmentHistory
    ensures sim.eventId(e) !in db.invoiceHistory && sim.eventId(e) !in db.caseHistory
    ensures sim.eventId(e) !in db.markers
  {
    hide OrdersReflect, TotalsReflect, ShipmentsReflect, InvoicesReflect, CasesReflect;
    NewId(sim, s, e);
    assert EventIds(sim, OrderTouches(s)) <= EventIds(sim, s);
    assert EventIds(sim, ShipmentTouches(s)) <= EventIds(sim, s);
    assert EventIds(sim, Invoices(s)) <= EventIds(sim, s);
    assert EventIds(sim, CaseTouches(s)) <= EventIds(sim, s);
  }

  /* ---- No handler fails or returns early ---- */

  lemma OrderApplies(sim: Simulation, base: OpsDb, s: set<Event>, e: Event, db: OpsDb)
    requires Step(sim, base, s, e, db) && e.OrderCreated?
    ensures e.orderId !in db.orders && e.orderId !in db.totals && e.orderId !in OrderIds(s)
    ensures sim.eventId(e) !in db.orderHistory
    ensures ApplyEvent(sim, db, e).Ok?
  {
    hide ShipmentsReflect, InvoicesReflect, CasesReflect, OrderHistoryReflects, ShipmentHistoryReflects,
        InvoiceHistoryReflects, CaseHistoryReflects;
    NewClaim(base, s, e);
    HistoriesLackNewId(sim, base, s, e, db);
    assert e in s + {e};
    assert e.orderId !in OrderIds(s);
  }

  lemma OrderStatusIs(base: OpsDb, s: set<Event>, db: OpsDb, orderId: int)
    requires OrdersReflect(base, s, db) && orderId in OrderIds(s)
    ensures orderId in db.orders && db.orders[orderId].status == StatusOf(s, orderId)
  {
    var o :| o in s && o.OrderCreated? && o.orderId == orderId;
    assert OrderRowIs(s, db, o);
  }

  lemma ShipmentIsNew(sim: Simulation, base: OpsDb, s: set<Event>, e: Event, db: OpsDb)
    requires Step(sim, base, s, e, db) && e.ShipmentCreated?
    ensures e.orderId in OrderIds(s) && e.orderId !in ShippedOrders(s) && e.orderId !in base.orders
    ensures e.orderId !in InvoicedOrders(s) && StatusOf(s + {e}, e.orderId) == Shipped
    ensures e.shipmentId !in db.shipments && e.orderId in db.orders && db.orders[e.orderId].status == Pending
  {
    hide TotalsReflect, InvoicesReflect, CasesReflect, OrderHistoryReflects, ShipmentHistoryReflects,
        InvoiceHistoryReflects, CaseHistoryReflects;
    ParentIsOlder(base, s, e);
    NewClaim(base, s, e);
    assert e in s + {e};
    InvoicedWasShipped(base, s, e.orderId);
    OrderStatusIs(base, s, db, e.orderId);
    var o :| o in s && o.OrderCreated? && o.orderId == e.orderId;
    assert e.shipmentId !in ShipmentIds(s);
    assert e.orderId in ShippedOrders(s + {e});
    assert InvoicedOrders(s + {e}) == InvoicedOrders(s);
  }

  lemma ShipmentApplies(sim: Simulation, base: OpsDb, s: set<Event>, e: Event, db: OpsDb)
    requires Step(sim, base, s, e, db) && e.ShipmentCreated?
    ensures e.shipmentId !in db.shipments && e.orderId in db.orders && db.orders[e.orderId].status == Pending
    ensures sim.eventId(e) !in db.shipmentHistory && sim.eventId(e) !in db.orderHistory
    ensures ApplyEvent(sim, db, e).Ok?
  {
    hide OrdersReflect, TotalsReflect, InvoicesReflect, CasesReflect, OrderHistoryReflects, ShipmentHistoryReflects,
        InvoiceHistoryReflects, CaseHistoryReflects;
    ShipmentIsNew(sim, base, s, e, db);
    HistoriesLackNewId(sim, base, s, e, db);
    ShippedRowsAreShippedOrders(sim, base, s, db, e.orderId);
  }

  lemma InvoicedWasShipped(base: OpsDb, s: set<Event>, orderId: int)
    requires Consistent(base, s)
    ensures orderId in InvoicedOrders(s) ==> orderId in ShippedOrders(s)
  {
    if i :| i in s && i.InvoiceCreated? && i.orderId == orderId {
      assert HasParent(s, i);
      var p :| p in s && p.ShipmentCreated? && p.shipmentId == i.shipmentId && p.orderId == i.orderId
          && p.date == i.shipDate;
    }
  }

  lemma ShippedRowsAreShippedOrders(sim: Simulation, base: OpsDb, s: set<Event>, db: OpsDb, orderId: int)
    requires SeedDb(sim, base) && ShipmentsReflect(base, s, db)
    requires orderId !in base.orders && orderId !in ShippedOrders(s)
    ensures orderId !in ShippedOrderIds(db.shipments)
  {
    forall k | k in db.shipments ensures db.shipments[k].orderId != orderId {
      if k in base.shipments {
        assert base.shipments[k].orderId in ShippedOrderIds(base.shipments);
      } else {
        assert k in ShipmentIds(s);
        var p :| p in s && p.ShipmentCreated? && p.shipmentId == k;
        assert ShipmentRowIs(s, db, p);
      }
    }
  }

  lemma DeliveryApplies(sim: Simulation, base: OpsDb, s: set<Event>, e: Event, db: OpsDb)
    requires Step(sim, base, s, e, db) && e.ShipmentDelivered?
    ensures e.shipmentId in db.shipments && db.shipments[e.shipmentId].delivered.None?
    ensures db.shipments[e.shipmentId].promised == e.shipDate + 5
    ensures sim.eventId(e) !in db.shipmentHistory
    ensures ApplyEvent(sim, db, e).Ok?
  {
    hide OrdersReflect, TotalsReflect, InvoicesReflect, CasesReflect, OrderHistoryReflects, ShipmentHistoryReflects,
        InvoiceHistoryReflects, CaseHistoryReflects;
    ParentIsOlder(base, s, e);
    NewClaim(base, s, e);
    HistoriesLackNewId(sim, base, s, e, db);
    var p :| p in s && p.ShipmentCreated? && p.shipmentId == e.shipmentId && p.orderId == e.orderId
        && p.date == e.shipDate;
    assert ShipmentRowIs(s, db, p);
    assert e.shipmentId !in DeliveredShipments(s);
  }

  lemma InvoiceIsNew(sim: Simulation, base: OpsDb, s: set<Event>, e: Event, db: OpsDb)
    requires Step(sim, base, s, e, db) && e.InvoiceCreated?
    ensures e.orderId in OrderIds(s) && e.orderId in ShippedOrders(s) && e.orderId !in InvoicedOrders(s)
    ensures e.orderId !in base.orders
    ensures e.shipmentId in db.shipments && db.shipments[e.shipmentId].orderId == e.orderId
    ensures StatusOf(s + {e}, e.orderId) == Invoiced
  {
    hide OrdersReflect, TotalsReflect, InvoicesReflect, CasesReflect, OrderHistoryReflects, ShipmentHistoryReflects,
        InvoiceHistoryReflects, CaseHistoryReflects;
    ParentIsOlder(base, s, e);
    NewClaim(base, s, e);
    var p :| p in s && p.ShipmentCreated? && p.shipmentId == e.shipmentId && p.orderId == e.orderId
        && p.date == e.shipDate;
    assert ShipmentRowIs(s, db, p);
    var o :| o in s && o.OrderCreated? && o.orderId == e.orderId;
    assert e in s + {e} && e.orderId in InvoicedOrders(s + {e});
  }

  lemma InvoiceApplies(sim: Simulation, base: OpsDb, s: set<Event>, e: Event, db: OpsDb)
    requires Step(sim, base, s, e, db) && e.InvoiceCreated?
    ensures e.orderId !in db.invoices && e.orderId in db.orders && db.orders[e.orderId].status == Shipped
    ensures e.orderId in db.totals && Some(db.totals[e.orderId]) == base.master.price
    ensures sim.eventId(e) !in db.invoiceHistory && sim.eventId(e) !in db.orderHistory
    ensures ApplyEvent(sim, db, e).Ok?
  {
    hide ShipmentsReflect, CasesReflect, OrderHistoryReflects, ShipmentHistoryReflects, InvoiceHistoryReflects,
        CaseHistoryReflects;
    InvoiceIsNew(sim, base, s, e, db);
    HistoriesLackNewId(sim, base, s, e, db);
    OrderStatusIs(base, s, db, e.orderId);
  }

  lemma OpeningApplies(sim: Simulation, base: OpsDb, s: set<Event>, e: Event, db: OpsDb)
    requires Step(sim, base, s, e, db) && e.CaseOpened?
    ensures e.caseId !in db.cases && e.orderId in db.orders && sim.eventId(e) !in db.caseHistory
    ensures forall o :: o in s && o.OrderCreated? && o.orderId == e.orderId ==>
              db.orders[e.orderId].customerId == o.customerId
    ensures ApplyEvent(sim, db, e).Ok?
  {
    hide TotalsReflect, ShipmentsReflect, InvoicesReflect, OrderHistoryReflects, ShipmentHistoryReflects,
        InvoiceHistoryReflects, CaseHistoryReflects;
    ParentIsOlder(base, s, e);
    NewClaim(base, s, e);
    HistoriesLackNewId(sim, base, s, e, db);
    assert e in s + {e};
    assert e.caseId !in CaseIds(s);
    forall o | o in s && o.OrderCreated? && o.orderId == e.orderId
      ensures db.orders[e.orderId].customerId == o.customerId
    {
      assert OrderRowIs(s, db, o);
    }
  }

  lemma ClosedWasResolved(base: OpsDb, s: set<Event>, caseId: int)
    requires Consistent(base, s)
    ensures caseId in ClosedCases(s) ==> caseId in ResolvedCases(s)
    ensures caseId in ResolvedCases(s) ==> caseId in CaseIds(s)
  {
    if c :| c in s && c.CaseClosed? && c.caseId == caseId { assert HasParent(s, c); }
    if r :| r in s && r.CaseResolved? && r.caseId == caseId { assert HasParent(s, r); }
  }

  lemma ResolutionApplies(sim: Simulation, base: OpsDb, s: set<Event>, e: Event, db: OpsDb)
    requires Step(sim, base, s, e, db) && e.CaseResolved?
    ensures e.caseId in db.cases && db.cases[e.caseId].status == Open && sim.eventId(e) !in db.caseHistory
    ensures ApplyEvent(sim, db, e).Ok?
  {
    hide OrdersReflect, TotalsReflect, ShipmentsReflect, InvoicesReflect, OrderHistoryReflects,
        ShipmentHistoryReflects, InvoiceHistoryReflects, CaseHistoryReflects;
    ParentIsOlder(base, s, e);
    NewClaim(base, s, e);
    HistoriesLackNewId(sim, base, s, e, db);
    assert e.caseId !in ResolvedCases(s);
    ClosedWasResolved(base, s, e.caseId);
    var o :| o in s && o.CaseOpened? && o.caseId == e.caseId;
    assert CaseRowIs(s, db, o);
  }

  lemma ClosureApplies(sim: Simulation, base: OpsDb, s: set<Event>, e: Event, db: OpsDb)
    requires Step(sim, base, s, e, db) && e.CaseClosed?
    ensures e.caseId in db.cases && db.cases[e.caseId].status == Resolved && sim.eventId(e) !in db.caseHistory
    ensures ApplyEvent(sim, db, e).Ok?
  {
    hide OrdersReflect, TotalsReflect, ShipmentsReflect, InvoicesReflect, OrderHistoryReflects,
        ShipmentHistoryReflects, InvoiceHistoryReflects, CaseHistoryReflects;
    ParentIsOlder(base, s, e);
    NewClaim(base, s, e);
    HistoriesLackNewId(sim, base, s, e, db);
    assert e.caseId !in ClosedCases(s);
    ClosedWasResolved(base, s, e.caseId);
    var o :| o in s && o.CaseOpened? && o.caseId == e.caseId;
    assert CaseRowIs(s, db, o);
  }

  lemma DeliveryIsNew(sim: Simulation, base: OpsDb, s: set<Event>, e: Event, db: OpsDb)
    requires Step(sim, base, s, e, db) && e.ShipmentDelivered?
    ensures e.shipmentId in ShipmentIds(s) && e.shipmentId !in DeliveredShipments(s)
    ensures e.shipmentId !in base.shipments
  {
    ParentIsOlder(base, s, e);
    NewClaim(base, s, e);
    var p :| p in s && p.ShipmentCreated? && p.shipmentId == e.shipmentId && p.orderId == e.orderId
        && p.date == e.shipDate;
  }

  lemma CaseMoveIsNew(sim: Simulation, base: OpsDb, s: set<Event>, e: Event, db: OpsDb) returns (o: Event)
    requires Step(sim, base, s, e, db) && (e.CaseResolved? || e.CaseClosed?)
    ensures o in s && o.CaseOpened? && o.caseId == e.caseId && e.caseId in CaseIds(s)
    ensures e.CaseResolved? ==> e.caseId !in ResolvedCases(s) && e.caseId !in ClosedCases(s)
    ensures CaseStatusOf(s + {e}, e.caseId) == if e.CaseResolved? then Resolved else Closed
    ensures e.caseId in db.cases && db.cases[e.caseId].openedOn == o.date
  {
    o := OpeningOfMove(base, s, e);
    NextCaseStatus(base, s, e);
    CaseOpenedOn(base, s, db, o);
  }

  lemma OpeningOfMove(base: OpsDb, s: set<Event>, e: Event) returns (o: Event)
    requires Consistent(base, s) && Consistent(base, s + {e}) && (e.CaseResolved? || e.CaseClosed?)
    ensures o in s && o.CaseOpened? && o.caseId == e.caseId && e.caseId in CaseIds(s)
  {
    ParentIsOlder(base, s, e);
    ClosedWasResolved(base, s, e.caseId);
    o :| o in s && o.CaseOpened? && o.caseId == e.caseId;
  }

  lemma NextCaseStatus(base: OpsDb, s: set<Event>, e: Event)
    requires Consistent(base, s) && Consistent(base, s + {e}) && e !in s
    requires e.CaseResolved? || e.CaseClosed?
    ensures e.CaseResolved? ==> e.caseId !in ResolvedCases(s) && e.caseId !in ClosedCases(s)
    ensures CaseStatusOf(s + {e}, e.caseId) == if e.CaseResolved? then Resolved else Closed
  {
    NewClaim(base, s, e);
    ClosedWasResolved(base, s, e.caseId);
    hide Unique, HasParent;
    assert e in s + {e};
    if e.CaseResolved? {
      assert ClosedCases(s + {e}) == ClosedCases(s);
      assert e.caseId in ResolvedCases(s + {e});
      assert e.caseId !in ResolvedCases(s);
    } else {
      assert e.caseId in ClosedCases(s + {e});
    }
  }

  lemma CaseOpenedOn(base: OpsDb, s: set<Event>, db: OpsDb, o: Event)
    requires CasesReflect(base, s, db) && o in s && o.CaseOpened?
    ensures o.caseId in db.cases && db.cases[o.caseId].openedOn == o.date
  {
    assert CaseRowIs(s, db, o);
  }

  /* ---- Table by table, the result reflects one event more ---- */

  lemma OrdersAfterOther(base: OpsDb, s: set<Event>, e: Event, db: OpsDb, db': OpsDb)
    requires OrdersReflect(base, s, db) && !TouchesOrder(e)
    requires db'.orders == db.orders && db'.customers == db.customers
    ensures OrdersReflect(base, s + {e}, db')
  {
    OtherKindsKeepIds(s, e);
    assert InvoicedOrders(s + {e}) == InvoicedOrders(s) && ShippedOrders(s + {e}) == ShippedOrders(s);
    forall x | x in s + {e} && x.OrderCreated? ensures OrderRowIs(s + {e}, db', x) {
      assert OrderRowIs(s, db, x);
    }
  }

  lemma OrdersAfterOrder(base: OpsDb, s: set<Event>, e: Event, db: OpsDb, db': OpsDb)
    requires OrdersReflect(base, s, db) && e.OrderCreated? && e.orderId !in db.orders
    requires Consistent(base, s)
    requires db'.orders == db.orders[e.orderId := Order(e.customerId, e.opportunity, e.date, Pending)]
    requires db'.customers == db.customers + {e.customerId}
    ensures OrdersReflect(base, s + {e}, db')
  {
    assert OrderIds(s + {e}) == OrderIds(s) + {e.orderId};
    assert CustomerIds(s + {e}) == CustomerIds(s) + {e.customerId};
    assert InvoicedOrders(s + {e}) == InvoicedOrders(s) && ShippedOrders(s + {e}) == ShippedOrders(s);
    UnknownOrderUntouched(base, s, e.orderId);
    forall x | x in s + {e} && x.OrderCreated? ensures OrderRowIs(s + {e}, db', x) {
      if x != e { assert OrderRowIs(s, db, x); }
    }
  }

  lemma UnknownOrderUntouched(base: OpsDb, s: set<Event>, orderId: int)
    requires Consistent(base, s) && orderId !in OrderIds(s)
    ensures orderId !in ShippedOrders(s) && orderId !in InvoicedOrders(s)
  {
    InvoicedWasShipped(base, s, orderId);
    forall p | p in s && p.ShipmentCreated? ensures p.orderId in OrderIds(s) { assert HasParent(s, p); }
  }

  /** A shipment or an invoice moves its order, and no other, one status on. */
  lemma OrdersAfterMove(base: OpsDb, s: set<Event>, e: Event, db: OpsDb, db': OpsDb)
    requires OrdersReflect(base, s, db) && Unique(base, s)
    requires e.ShipmentCreated? || e.InvoiceCreated?
    requires e.orderId in OrderIds(s) && e.orderId !in InvoicedOrders(s)
    requires e.orderId in db.orders
    requires db'.orders == db.orders[e.orderId := db.orders[e.orderId].(status := StatusOf(s + {e}, e.orderId))]
    requires db'.customers == db.customers
    ensures OrdersReflect(base, s + {e}, db')
  {
    OtherKindsKeepIds(s, e);
    forall o | o != e.orderId ensures StatusOf(s + {e}, o) == StatusOf(s, o) {
      assert o in InvoicedOrders(s + {e}) <==> o in InvoicedOrders(s);
      assert o in ShippedOrders(s + {e}) <==> o in ShippedOrders(s);
    }
    forall x | x in s + {e} && x.OrderCreated? ensures OrderRowIs(s + {e}, db', x) {
      assert OrderRowIs(s, db, x);
    }
    forall o | o in base.orders ensures o != e.orderId {
      var c :| c in s && c.OrderCreated? && c.orderId == e.orderId;
    }
  }

  lemma TotalsAfter(base: OpsDb, s: set<Event>, e: Event, db: OpsDb, db': OpsDb)
    requires TotalsReflect(base, s, db)
    requires if e.OrderCreated? then
        e.orderId !in db.totals && base.master.price.Some?
        && db'.totals == db.totals[e.orderId := base.master.price.value]
      else db'.totals == db.totals
    ensures TotalsReflect(base, s + {e}, db')
  {
    OtherKindsKeepIds(s, e);
    if e.OrderCreated? { assert OrderIds(s + {e}) == OrderIds(s) + {e.orderId}; }
  }

  lemma ShipmentsAfterOther(base: OpsDb, s: set<Event>, e: Event, db: OpsDb, db': OpsDb)
    requires ShipmentsReflect(base, s, db) && !TouchesShipment(e) && db'.shipments == db.shipments
    ensures ShipmentsReflect(base, s + {e}, db')
  {
    assert ShipmentIds(s + {e}) == ShipmentIds(s) && DeliveredShipments(s + {e}) == DeliveredShipments(s);
    forall x | x in s + {e} && x.ShipmentCreated? ensures ShipmentRowIs(s + {e}, db', x) {
      assert ShipmentRowIs(s, db, x);
    }
    forall x | x in s + {e} && x.ShipmentDelivered? ensures DeliveryRowIs(db', x) {
      assert DeliveryRowIs(db, x);
    }
  }

  lemma ShipmentsAfterShipment(base: OpsDb, s: set<Event>, e: Event, db: OpsDb, db': OpsDb)
    requires ShipmentsReflect(base, s, db) && e.ShipmentCreated? && e.shipmentId !in db.shipments
    requires db'.shipments == db.shipments[e.shipmentId := Shipment(e.orderId, e.date, e.date + 5, None)]
    ensures ShipmentsReflect(base, s + {e}, db')
  {
    assert ShipmentIds(s + {e}) == ShipmentIds(s) + {e.shipmentId};
    assert DeliveredShipments(s + {e}) == DeliveredShipments(s);
    forall x | x in s && x.ShipmentDelivered? ensures x.shipmentId != e.shipmentId && DeliveryRowIs(db', x) {
      assert DeliveryRowIs(db, x);
    }
    forall x | x in s + {e} && x.ShipmentCreated? ensures ShipmentRowIs(s + {e}, db', x) {
      if x != e { assert ShipmentRowIs(s, db, x); }
    }
  }

  lemma ShipmentsAfterDelivery(base: OpsDb, s: set<Event>, e: Event, db: OpsDb, db': OpsDb)
    requires ShipmentsReflect(base, s, db) && e.ShipmentDelivered?
    requires e.shipmentId in ShipmentIds(s) && e.shipmentId !in DeliveredShipments(s)
    requires e.shipmentId in db.shipments && e.shipmentId !in base.shipments
    requires db'.shipments == db.shipments[e.shipmentId := db.shipments[e.shipmentId].(delivered := Some(e.date))]
    ensures ShipmentsReflect(base, s + {e}, db')
  {
    assert ShipmentIds(s + {e}) == ShipmentIds(s);
    assert DeliveredShipments(s + {e}) == DeliveredShipments(s) + {e.shipmentId};
    forall x | x in s + {e} && x.ShipmentDelivered? ensures DeliveryRowIs(db', x) {
      if x != e {
        assert DeliveryRowIs(db, x);
        assert x.shipmentId in DeliveredShipments(s);
      }
    }
    forall x | x in s + {e} && x.ShipmentCreated? ensures ShipmentRowIs(s + {e}, db', x) {
      assert ShipmentRowIs(s, db, x);
    }
  }

  lemma InvoicesAfter(base: OpsDb, s: set<Event>, e: Event, db: OpsDb, db': OpsDb)
    requires InvoicesReflect(base, s, db)
    requires if e.InvoiceCreated? then
        e.orderId !in db.invoices && base.master.price.Some?
        && db'.invoices == db.invoices[e.orderId := Invoice(e.date, base.master.price.value)]
      else db'.invoices == db.invoices
    ensures InvoicesReflect(base, s + {e}, db')
  {
    assert InvoicedOrders(s + {e}) == if e.InvoiceCreated? then InvoicedOrders(s) + {e.orderId} else InvoicedOrders(s);
    forall x | x in s + {e} && x.InvoiceCreated? ensures InvoiceRowIs(base, db', x) {
      if x != e { assert InvoiceRowIs(base, db, x); }
    }
  }

  lemma CasesAfterOther(base: OpsDb, s: set<Event>, e: Event, db: OpsDb, db': OpsDb)
    requires CasesReflect(base, s, db) && !TouchesCase(e) && db'.cases == db.cases
    requires Consistent(base, s) && (e.OrderCreated? ==> e.orderId !in OrderIds(s))
    ensures CasesReflect(base, s + {e}, db')
  {
    OtherKindsKeepIds(s, e);
    assert ClosedCases(s + {e}) == ClosedCases(s);
    forall x | x in s + {e} && x.CaseOpened? ensures CaseRowIs(s + {e}, db', x) {
      assert CaseRowIs(s, db, x);
    }
    forall x, o | x in s + {e} && o in s + {e} && x.CaseOpened? && o.OrderCreated? ensures CaseCustomerIs(db', x, o) {
      assert HasParent(s, x);
      if o in s { assert CaseCustomerIs(db, x, o); }
    }
    forall x | x in s + {e} && x.CaseResolved? ensures ResolutionRowIs(db', x) {
      assert ResolutionRowIs(db, x);
    }
  }

  lemma CasesAfterOpening(base: OpsDb, s: set<Event>, e: Event, db: OpsDb, db': OpsDb)
    requires CasesReflect(base, s, db) && Consistent(base, s)
    requires e.CaseOpened? && e.caseId !in db.cases && e.orderId in db.orders
    requires forall o :: o in s && o.OrderCreated? && o.orderId == e.orderId ==>
               db.orders[e.orderId].customerId == o.customerId
    requires db'.cases == db.cases[e.caseId := Case(db.orders[e.orderId].customerId, e.date, Open, None)]
    ensures CasesReflect(base, s + {e}, db')
  {
    hide Unique;
    OtherKindsKeepIds(s, e);
    assert CaseIds(s + {e}) == CaseIds(s) + {e.caseId};
    assert ClosedCases(s + {e}) == ClosedCases(s);
    ClosedWasResolved(base, s, e.caseId);
    forall x | x in s + {e} && x.CaseOpened? ensures CaseRowIs(s + {e}, db', x) {
      if x != e { assert CaseRowIs(s, db, x); }
    }
    forall x, o | x in s + {e} && o in s + {e} && x.CaseOpened? && o.OrderCreated? ensures CaseCustomerIs(db', x, o) {
      if x != e {
        assert CaseRowIs(s, db, x) && CaseCustomerIs(db, x, o);
      }
    }
    forall x | x in s + {e} && x.CaseResolved? ensures ResolutionRowIs(db', x) {
      assert ResolutionRowIs(db, x);
    }
  }

  /** A resolution or a closure moves its case, and no other, one status on. */
  lemma CasesAfterMove(base: OpsDb, s: set<Event>, e: Event, db: OpsDb, db': OpsDb)
    requires CasesReflect(base, s, db) && Unique(base, s)
    requires e.CaseResolved? || e.CaseClosed?
    requires e.caseId in CaseIds(s) && e.caseId in db.cases
    requires e.CaseResolved? ==> e.caseId !in ResolvedCases(s) && e.caseId !in ClosedCases(s)
    requires db'.cases == db.cases[e.caseId := db.cases[e.caseId].(
      status := CaseStatusOf(s + {e}, e.caseId),
      resolvedOn := if e.CaseResolved? then Some(e.date) else db.cases[e.caseId].resolvedOn)]
    ensures CasesReflect(base, s + {e}, db')
  {
    OtherKindsKeepIds(s, e);
    forall k | k != e.caseId
      ensures CaseStatusOf(s + {e}, k) == CaseStatusOf(s, k)
      ensures k in ResolvedCases(s + {e}) <==> k in ResolvedCases(s)
    {
      assert k in ClosedCases(s + {e}) <==> k in ClosedCases(s);
    }
    assert e.CaseClosed? ==> ResolvedCases(s + {e}) == ResolvedCases(s);
    assert e.CaseResolved? ==> e in s + {e} && e.caseId in ResolvedCases(s + {e});
    forall x | x in s + {e} && x.CaseOpened? ensures CaseRowIs(s + {e}, db', x) {
      assert CaseRowIs(s, db, x);
    }
    forall x, o | x in s + {e} && o in s + {e} && x.CaseOpened? && o.OrderCreated? ensures CaseCustomerIs(db', x, o) {
      assert CaseCustomerIs(db, x, o);
    }
    forall x | x in s + {e} && x.CaseResolved? ensures ResolutionRowIs(db', x) {
      if x != e {
        assert ResolutionRowIs(db, x);
        assert e.CaseResolved? ==> x.caseId in ResolvedCases(s);
      }
    }
    forall k | k in base.cases ensures k != e.caseId {
      var c :| c in s && c.CaseOpened? && c.caseId == e.caseId;
    }
  }

  lemma OrderHistoryAfter(sim: Simulation, base: OpsDb, s: set<Event>, e: Event, db: OpsDb, db': OpsDb)
    requires Injective(sim) && e !in s && OrderHistoryReflects(sim, base, s, db)
    requires if TouchesOrder(e) then
        sim.eventId(e) !in db.orderHistory && db'.orderHistory == db.orderHistory[sim.eventId(e) := OrderRow(e)]
      else db'.orderHistory == db.orderHistory
    ensures OrderHistoryReflects(sim, base, s + {e}, db')
  {
    assert OrderTouches(s + {e}) == if TouchesOrder(e) then OrderTouches(s) + {e} else OrderTouches(s);
    assert EventIds(sim, OrderTouches(s) + {e}) == EventIds(sim, OrderTouches(s)) + {sim.eventId(e)};
    forall x | x in s + {e} && TouchesOrder(x) ensures RowIs(db'.orderHistory, sim.eventId(x), OrderRow(x)) {
      if x != e { assert RowIs(db.orderHistory, sim.eventId(x), OrderRow(x)); }
    }
  }

  lemma ShipmentHistoryAfter(sim: Simulation, base: OpsDb, s: set<Event>, e: Event, db: OpsDb, db': OpsDb)
    requires Injective(sim) && e !in s && ShipmentHistoryReflects(sim, base, s, db)
    requires if TouchesShipment(e) then
        sim.eventId(e) !in db.shipmentHistory
            && db'.shipmentHistory == db.shipmentHistory[sim.eventId(e) := ShipmentRow(e)]
      else db'.shipmentHistory == db.shipmentHistory
    ensures ShipmentHistoryReflects(sim, base, s + {e}, db')
  {
    assert ShipmentTouches(s + {e}) == if TouchesShipment(e) then ShipmentTouches(s) + {e} else ShipmentTouches(s);
    assert EventIds(sim, ShipmentTouches(s) + {e}) == EventIds(sim, ShipmentTouches(s)) + {sim.eventId(e)};
    forall x | x in s + {e} && TouchesShipment(x) ensures RowIs(db'.shipmentHistory, sim.eventId(x), ShipmentRow(x)) {
      if x != e { assert RowIs(db.shipmentHistory, sim.eventId(x), ShipmentRow(x)); }
    }
  }

  lemma InvoiceHistoryAfter(sim: Simulation, base: OpsDb, s: set<Event>, e: Event, db: OpsDb, db': OpsDb)
    requires Injective(sim) && e !in s && InvoiceHistoryReflects(sim, base, s, db)
    requires if e.InvoiceCreated? then
        sim.eventId(e) !in db.invoiceHistory && db'.invoiceHistory == db.invoiceHistory[sim.eventId(e) := InvoiceRow(e)]
      else db'.invoiceHistory == db.invoiceHistory
    ensures InvoiceHistoryReflects(sim, base, s + {e}, db')
  {
    assert Invoices(s + {e}) == if e.InvoiceCreated? then Invoices(s) + {e} else Invoices(s);
    assert EventIds(sim, Invoices(s) + {e}) == EventIds(sim, Invoices(s)) + {sim.eventId(e)};
    forall x | x in s + {e} && x.InvoiceCreated? ensures RowIs(db'.invoiceHistory, sim.eventId(x), InvoiceRow(x)) {
      if x != e { assert RowIs(db.invoiceHistory, sim.eventId(x), InvoiceRow(x)); }
    }
  }

  lemma CaseHistoryAfter(sim: Simulation, base: OpsDb, s: set<Event>, e: Event, o: Event, db: OpsDb, db': OpsDb)
    requires Injective(sim) && e !in s && CaseHistoryReflects(sim, base, s, db)
    requires Consistent(base, s) && Unique(base, s + {e})
    requires TouchesCase(e) ==> o in s + {e} && o.CaseOpened? && o.caseId == e.caseId
    requires if TouchesCase(e) then
        sim.eventId(e) !in db.caseHistory && db'.caseHistory == db.caseHistory[sim.eventId(e) := CaseRow(e, o)]
      else db'.caseHistory == db.caseHistory
    ensures CaseHistoryReflects(sim, base, s + {e}, db')
  {
    assert CaseTouches(s + {e}) == if TouchesCase(e) then CaseTouches(s) + {e} else CaseTouches(s);
    assert EventIds(sim, CaseTouches(s) + {e}) == EventIds(sim, CaseTouches(s)) + {sim.eventId(e)};
    forall x, p | x in s + {e} && p in s + {e} && TouchesCase(x) && p.CaseOpened? && p.caseId == x.caseId
      ensures RowIs(db'.caseHistory, sim.eventId(x), CaseRow(x, p))
    {
      if x == e {
        OpeningIsOne(base, s + {e}, p, o);
      } else {
        var q := CaseOpening(base, s, x);
        OpeningIsOne(base, s + {e}, p, q);
        assert RowIs(db.caseHistory, sim.eventId(x), CaseRow(x, q));
      }
    }
  }

  lemma OpeningIsOne(base: OpsDb, s: set<Event>, p: Event, q: Event)
    requires Unique(base, s) && p in s && q in s && p.CaseOpened? && q.CaseOpened? && p.caseId == q.caseId
    ensures p == q
  {
    assert SameClaim(p, q);
  }

  lemma CaseOpening(base: OpsDb, s: set<Event>, x: Event) returns (o: Event)
    requires Consistent(base, s) && x in s && TouchesCase(x)
    ensures o in s && o.CaseOpened? && o.caseId == x.caseId
  {
    assert HasParent(s, x);
    ClosedWasResolved(base, s, x.caseId);
    o :| o in s && o.CaseOpened? && o.caseId == x.caseId;
  }

  /* ---- The projection law ---- */

  ghost function Applied(sim: Simulation, db: OpsDb, e: Event): OpsDb
    requires ApplyEvent(sim, db, e).Ok?
  {
    var db' := ApplyEvent(sim, db, e).value;
    db'.(markers := db'.markers + {sim.eventId(e)})
  }

  lemma MarkersAfter(sim: Simulation, base: OpsDb, s: set<Event>, e: Event, db: OpsDb)
    requires Step(sim, base, s, e, db) && ApplyEvent(sim, db, e).Ok?
    ensures Applied(sim, db, e).markers == base.markers + EventIds(sim, s + {e})
    ensures Applied(sim, db, e).master == base.master
    ensures ApplyOne(sim, db, e) == Ok(Applied(sim, db, e))
  {
    hide ApplyEvent, SeedDb, Consistent, EventIds, Injective, Unique, HasParent;
    hide OrdersReflect, TotalsReflect, ShipmentsReflect, InvoicesReflect, CasesReflect;
    hide OrderHistoryReflects, ShipmentHistoryReflects, InvoiceHistoryReflects, CaseHistoryReflects;
    HistoriesLackNewId(sim, base, s, e, db);
    EventIdsGrow(sim, s, e);
  }

  lemma EventIdsGrow(sim: Simulation, s: set<Event>, e: Event)
    ensures EventIds(sim, s + {e}) == EventIds(sim, s) + {sim.eventId(e)}
  {
  }

  lemma OrderStep(sim: Simulation, base: OpsDb, s: set<Event>, e: Event, db: OpsDb)
    requires Step(sim, base, s, e, db) && e.OrderCreated?
    ensures ApplyOne(sim, db, e).Ok? && Reflects(sim, base, s + {e}, ApplyOne(sim, db, e).value)
  {
    hide OrdersReflect, TotalsReflect, ShipmentsReflect, InvoicesReflect, CasesReflect;
    hide OrderHistoryReflects, ShipmentHistoryReflects, InvoiceHistoryReflects, CaseHistoryReflects;
    hide Injective, Unique, HasParent;
    OrderApplies(sim, base, s, e, db);
    MarkersAfter(sim, base, s, e, db);
    var db' := Applied(sim, db, e);
    OrdersAfterOrder(base, s, e, db, db');
    TotalsAfter(base, s, e, db, db');
    ShipmentsAfterOther(base, s, e, db, db');
    InvoicesAfter(base, s, e, db, db');
    CasesAfterOther(base, s, e, db, db');
    OrderHistoryAfter(sim, base, s, e, db, db');
    ShipmentHistoryAfter(sim, base, s, e, db, db');
    InvoiceHistoryAfter(sim, base, s, e, db, db');
    CaseHistoryAfter(sim, base, s, e, e, db, db');
  }

  lemma ShipmentStep(sim: Simulation, base: OpsDb, s: set<Event>, e: Event, db: OpsDb)
    requires Step(sim, base, s, e, db) && e.ShipmentCreated?
    ensures ApplyOne(sim, db, e).Ok? && Reflects(sim, base, s + {e}, ApplyOne(sim, db, e).value)
  {
    hide OrdersReflect, TotalsReflect, ShipmentsReflect, InvoicesReflect, CasesReflect;
    hide OrderHistoryReflects, ShipmentHistoryReflects, InvoiceHistoryReflects, CaseHistoryReflects;
    hide Injective, Unique, HasParent;
    ShipmentApplies(sim, base, s, e, db);
    ShipmentIsNew(sim, base, s, e, db);
    MarkersAfter(sim, base, s, e, db);
    hide StatusOf;
    var db' := Applied(sim, db, e);
    OrdersAfterMove(base, s, e, db, db');
    TotalsAfter(base, s, e, db, db');
    ShipmentsAfterShipment(base, s, e, db, db');
    InvoicesAfter(base, s, e, db, db');
    CasesAfterOther(base, s, e, db, db');
    OrderHistoryAfter(sim, base, s, e, db, db');
    ShipmentHistoryAfter(sim, base, s, e, db, db');
    InvoiceHistoryAfter(sim, base, s, e, db, db');
    CaseHistoryAfter(sim, base, s, e, e, db, db');
  }

  lemma DeliveryStep(sim: Simulation, base: OpsDb, s: set<Event>, e: Event, db: OpsDb)
    requires Step(sim, base, s, e, db) && e.ShipmentDelivered?
    ensures ApplyOne(sim, db, e).Ok? && Reflects(sim, base, s + {e}, ApplyOne(sim, db, e).value)
  {
    hide OrdersReflect, TotalsReflect, ShipmentsReflect, InvoicesReflect, CasesReflect;
    hide OrderHistoryReflects, ShipmentHistoryReflects, InvoiceHistoryReflects, CaseHistoryReflects;
    hide Injective, Unique, HasParent;
    DeliveryApplies(sim, base, s, e, db);
    MarkersAfter(sim, base, s, e, db);
    DeliveryIsNew(sim, base, s, e, db);
    var db' := Applied(sim, db, e);
    OrdersAfterOther(base, s, e, db, db');
    TotalsAfter(base, s, e, db, db');
    ShipmentsAfterDelivery(base, s, e, db, db');
    InvoicesAfter(base, s, e, db, db');
    CasesAfterOther(base, s, e, db, db');
    OrderHistoryAfter(sim, base, s, e, db, db');
    ShipmentHistoryAfter(sim, base, s, e, db, db');
    InvoiceHistoryAfter(sim, base, s, e, db, db');
    CaseHistoryAfter(sim, base, s, e, e, db, db');
  }

  lemma InvoiceStep(sim: Simulation, base: OpsDb, s: set<Event>, e: Event, db: OpsDb)
    requires Step(sim, base, s, e, db) && e.InvoiceCreated?
    ensures ApplyOne(sim, db, e).Ok? && Reflects(sim, base, s + {e}, ApplyOne(sim, db, e).value)
  {
    hide OrdersReflect, TotalsReflect, ShipmentsReflect, InvoicesReflect, CasesReflect;
    hide OrderHistoryReflects, ShipmentHistoryReflects, InvoiceHistoryReflects, CaseHistoryReflects;
    hide Injective, Unique, HasParent;
    InvoiceApplies(sim, base, s, e, db);
    InvoiceIsNew(sim, base, s, e, db);
    MarkersAfter(sim, base, s, e, db);
    hide StatusOf;
    var db' := Applied(sim, db, e);
    OrdersAfterMove(base, s, e, db, db');
    TotalsAfter(base, s, e, db, db');
    ShipmentsAfterOther(base, s, e, db, db');
    InvoicesAfter(base, s, e, db, db');
    CasesAfterOther(base, s, e, db, db');
    OrderHistoryAfter(sim, base, s, e, db, db');
    ShipmentHistoryAfter(sim, base, s, e, db, db');
    InvoiceHistoryAfter(sim, base, s, e, db, db');
    CaseHistoryAfter(sim, base, s, e, e, db, db');
  }

  lemma OpeningStep(sim: Simulation, base: OpsDb, s: set<Event>, e: Event, db: OpsDb)
    requires Step(sim, base, s, e, db) && e.CaseOpened?
    ensures ApplyOne(sim, db, e).Ok? && Reflects(sim, base, s + {e}, ApplyOne(sim, db, e).value)
  {
    hide OrdersReflect, TotalsReflect, ShipmentsReflect, InvoicesReflect, CasesReflect;
    hide OrderHistoryReflects, ShipmentHistoryReflects, InvoiceHistoryReflects, CaseHistoryReflects;
    hide Injective, Unique, HasParent;
    OpeningApplies(sim, base, s, e, db);
    MarkersAfter(sim, base, s, e, db);
    var db' := Applied(sim, db, e);
    OrdersAfterOther(base, s, e, db, db');
    TotalsAfter(base, s, e, db, db');
    ShipmentsAfterOther(base, s, e, db, db');
    InvoicesAfter(base, s, e, db, db');
    CasesAfterOpening(base, s, e, db, db');
    OrderHistoryAfter(sim, base, s, e, db, db');
    ShipmentHistoryAfter(sim, base, s, e, db, db');
    InvoiceHistoryAfter(sim, base, s, e, db, db');
    CaseHistoryAfter(sim, base, s, e, e, db, db');
  }

  lemma CaseMoveStep(sim: Simulation, base: OpsDb, s: set<Event>, e: Event, db: OpsDb)
    requires Step(sim, base, s, e, db) && (e.CaseResolved? || e.CaseClosed?)
    ensures ApplyOne(sim, db, e).Ok? && Reflects(sim, base, s + {e}, ApplyOne(sim, db, e).value)
  {
    hide OrdersReflect, TotalsReflect, ShipmentsReflect, InvoicesReflect, CasesReflect;
    hide OrderHistoryReflects, ShipmentHistoryReflects, InvoiceHistoryReflects, CaseHistoryReflects;
    hide Injective, Unique, HasParent;
    if e.CaseResolved? { ResolutionApplies(sim, base, s, e, db); } else { ClosureApplies(sim, base, s, e, db); }
    MarkersAfter(sim, base, s, e, db);
    var o := CaseMoveIsNew(sim, base, s, e, db);
    var db' := Applied(sim, db, e);
    OrdersAfterOther(base, s, e, db, db');
    TotalsAfter(base, s, e, db, db');
    ShipmentsAfterOther(base, s, e, db, db');
    InvoicesAfter(base, s, e, db, db');
    CasesAfterMove(base, s, e, db, db');
    OrderHistoryAfter(sim, base, s, e, db, db');
    ShipmentHistoryAfter(sim, base, s, e, db, db');
    InvoiceHistoryAfter(sim, base, s, e, db, db');
    CaseHistoryAfter(sim, base, s, e, o, db, db');
  }

  /** The projection law: a consistent new event applies without error, and the result is the
      projection of one event more. */
  lemma ProjectionStep(sim: Simulation, base: OpsDb, s: set<Event>, e: Event, db: OpsDb)
    requires Step(sim, base, s, e, db)
    ensures ApplyOne(sim, db, e).Ok?
    ensures Reflects(sim, base, s + {e}, ApplyOne(sim, db, e).value)
  {
    match e
    case OrderCreated(_, _, _, _, _, _) => OrderStep(sim, base, s, e, db);
    case ShipmentCreated(_, _, _, _, _) => ShipmentStep(sim, base, s, e, db);
    case ShipmentDelivered(_, _, _, _, _) => DeliveryStep(sim, base, s, e, db);
    case InvoiceCreated(_, _, _, _, _) => InvoiceStep(sim, base, s, e, db);
    case CaseOpened(_, _, _, _) => OpeningStep(sim, base, s, e, db);
    case CaseResolved(_, _) => CaseMoveStep(sim, base, s, e, db);
    case CaseClosed(_, _) => CaseMoveStep(sim, base, s, e, db);
  }
}
