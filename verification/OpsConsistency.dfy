/** The planners keep the ledger consistent: `max + 1 + offset` ids are fresh, each order is shipped
    and invoiced once, each shipment delivered once, each case resolved and closed once, and every
    planned event has the event it depends on. */
module OpsConsistency {
  import opened Ordering
  import opened OpsEvents
  import opened OpsTables
  import opened OpsDay

  lemma SameClaimIsSymmetric(a: Event, b: Event)
    ensures SameClaim(a, b) == SameClaim(b, a)
  {
  }

  lemma MoreEventsKeepParents(s: set<Event>, t: set<Event>, e: Event)
    requires HasParent(s, e) && s <= t
    ensures HasParent(t, e)
  {
    match e
    case OrderCreated(_, _, _, _, _, _) =>
    case ShipmentCreated(_, _, orderId, _, _) => assert OrderIds(s) <= OrderIds(t);
    case ShipmentDelivered(_, shipmentId, orderId, shipDate, _) =>
      MoreEventsKeepShipment(s, t, shipmentId, orderId, shipDate);
    case InvoiceCreated(_, orderId, shipmentId, shipDate, _) =>
      assert OrderIds(s) <= OrderIds(t);
      MoreEventsKeepShipment(s, t, shipmentId, orderId, shipDate);
    case CaseOpened(_, _, _, orderId) => assert OrderIds(s) <= OrderIds(t);
    case CaseResolved(_, caseId) => assert CaseIds(s) <= CaseIds(t);
    case CaseClosed(_, caseId) => assert ResolvedCases(s) <= ResolvedCases(t);
  }

  lemma MoreEventsKeepShipment(s: set<Event>, t: set<Event>, shipmentId: int, orderId: int, date: Date)
    requires HasShipment(s, shipmentId, orderId, date) && s <= t
    ensures HasShipment(t, shipmentId, orderId, date)
  {
    var p :| p in s && p.ShipmentCreated? && p.shipmentId == shipmentId && p.orderId == orderId && p.date == date;
    assert p in t;
  }

  ghost predicate ClaimsNothingSeeded(base: OpsDb, e: Event) {
    && (e.OrderCreated? ==> e.orderId !in base.orders)
    && (e.ShipmentCreated? ==> e.shipmentId !in base.shipments)
    && (e.CaseOpened? ==> e.caseId !in base.cases)
  }

  /** What a batch of new events must meet to be added to a consistent ledger. */
  lemma AddKeepsConsistent(base: OpsDb, s: set<Event>, x: set<Event>)
    requires Consistent(base, s)
    requires forall a, b :: a in x && b in x && SameClaim(a, b) ==> a == b
    requires forall a, b :: a in x && b in s ==> !SameClaim(a, b)
    requires forall a :: a in x ==> ClaimsNothingSeeded(base, a) && HasParent(s + x, a)
    ensures Consistent(base, s + x)
  {
    forall a, b | a in s + x && b in s + x && SameClaim(a, b) ensures a == b {
      SameClaimIsSymmetric(a, b);
    }
    assert Unique(base, s + x) by { hide HasParent; }
    forall e | e in s + x ensures HasParent(s + x, e) {
      if e in s { MoreEventsKeepParents(s, s + x, e); }
    }
  }

  lemma ConsistentIsUnique(base: OpsDb, s: set<Event>, a: Event, b: Event)
    requires Consistent(base, s) && a in s && b in s && SameClaim(a, b)
    ensures a == b
  {
  }

  /* ---- Orders ---- */

  lemma {:induction false} MakeOrdersAreFresh(sim: Simulation, d: Date, won: seq<CrmEvent>, next: int)
    ensures var r := MakeOrders(sim, d, won, next);
      && |r| <= |won|
      && (forall i :: 0 <= i < |r| ==> r[i].OrderCreated? && r[i].date == d && next <= r[i].orderId < next + |won|)
      && (forall i, j :: 0 <= i < j < |r| ==> r[i].orderId < r[j].orderId)
  {
    if |won| > 0 {
      MakeOrdersAreFresh(sim, d, won[1..], next + 1);
    }
  }

  lemma OrdersKeepConsistent(
    sim: Simulation, d: Date, crm: set<CrmEvent>, base: OpsDb, s: set<Event>)
    requires DistinctKeys(crm, CrmId) && Consistent(base, s)
    ensures forall e :: e in Elements(OrdersOf(sim, d, crm, base, s)) ==> e.OrderCreated? && e.date == d
    ensures Consistent(base, s + Elements(OrdersOf(sim, d, crm, base, s)))
    ensures OrderIds(s) !! OrderIds(Elements(OrdersOf(sim, d, crm, base, s)))
    ensures NoRepeats(OrdersOf(sim, d, crm, base, s))
  {
    var won := SortedSet((set e | e in crm && Convertible(sim, d, ConvertedBy(base, s, Refs(crm)), e)), CrmId);
    var taken := base.orders.Keys + OrderIds(s);
    MakeOrdersAreFresh(sim, d, won, NextId(taken));
    assert OrdersOf(sim, d, crm, base, s) == MakeOrders(sim, d, won, NextId(taken));
    hide Consistent, ConvertedBy, Convertible, MakeOrders, OrdersOf;
    FreshOrdersKeepConsistent(base, s, OrdersOf(sim, d, crm, base, s), NextId(taken));
  }

  lemma FreshOrdersKeepConsistent(base: OpsDb, s: set<Event>, r: seq<Event>, next: int)
    requires Consistent(base, s) && forall o :: o in base.orders.Keys + OrderIds(s) ==> o < next
    requires forall i :: 0 <= i < |r| ==> r[i].OrderCreated? && next <= r[i].orderId
    requires forall i, j :: 0 <= i < j < |r| ==> r[i].orderId < r[j].orderId
    ensures Consistent(base, s + Elements(r)) && OrderIds(s) !! OrderIds(Elements(r)) && NoRepeats(r)
  {
    var x := Elements(r);
    assert forall o :: o in OrderIds(s) || o in base.orders ==> o in base.orders.Keys + OrderIds(s);
    hide Consistent;
    forall a | a in x
      ensures a.OrderCreated? && next <= a.orderId && ClaimsNothingSeeded(base, a) && HasParent(s + x, a)
    {
      var i :| 0 <= i < |r| && r[i] == a;
    }
    forall a, b | a in x && b in s ensures !SameClaim(a, b) {
      if b.OrderCreated? { assert b.orderId in OrderIds(s); }
    }
    AddKeepsConsistent(base, s, x);
  }

  /* ---- Fulfillment ---- */

  lemma ShipmentsKeepConsistent(sim: Simulation, d: Date, base: OpsDb, s: set<Event>)
    requires Injective(sim) && Consistent(base, s)
    ensures var f := FulfillmentBy(base, s);
      var x := Elements(PlanShipments(sim, d, s, f.shipped, f.nextShipmentId));
      (forall e :: e in x ==> e.ShipmentCreated? && e.date == d) && Consistent(base, s + x)
  {
    var f := FulfillmentBy(base, s);
    var orders := ShippableListed(sim, d, s, f.shipped);
    var made := PlanShipments(sim, d, s, f.shipped, f.nextShipmentId);
    var x := Elements(made);
    ListedOnce(sim, d, s, f.shipped);
    hide Consistent, ShippableListed, FulfillmentBy, ShipmentDelay, Injective, SameClaim;
    forall a, b | a in x && b in x && SameClaim(a, b) ensures a == b {
      var i :| 0 <= i < |made| && a == made[i];
      var j :| 0 <= j < |made| && b == made[j];
      SameOrderMade(base, s, f.nextShipmentId, orders, made, i, j);
    }
    hide ClaimsNothingSeeded, HasParent, Shippable;
    forall a | a in x
      ensures ClaimsNothingSeeded(base, a) && HasParent(s + x, a) && forall b :: b in s ==> !SameClaim(a, b)
    {
      var i :| 0 <= i < |made| && a == made[i];
      ShipmentIsFresh(sim, d, base, s, orders[i], a);
      MoreEventsKeepParents(s, s + x, a);
    }
    hide PlanShipments;
    AddKeepsConsistent(base, s, x);
  }

  /** Shipments numbered on and made for different orders claim different things. */
  lemma SameOrderMade(base: OpsDb, s: set<Event>, next: int, orders: seq<Event>, made: seq<Event>, i: nat, j: nat)
    requires Consistent(base, s) && |made| == |orders| && i < |made| && j < |made| && SameClaim(made[i], made[j])
    requires NoRepeats(orders) && forall k :: 0 <= k < |orders| ==> orders[k] in s && orders[k].OrderCreated?
    requires forall k :: 0 <= k < |made| ==>
      made[k].ShipmentCreated? && made[k].shipmentId == next + k && made[k].orderId == orders[k].orderId
    ensures i == j
  {
    hide Consistent;
    if made[i].orderId == made[j].orderId { ConsistentIsUnique(base, s, orders[i], orders[j]); }
  }

  lemma ShipmentIsFresh(sim: Simulation, d: Date, base: OpsDb, s: set<Event>, order: Event, a: Event)
    requires order in s && Shippable(sim, d, FulfillmentBy(base, s).shipped, order)
    requires a.ShipmentCreated? && a.orderId == order.orderId && a.shipmentId >= FulfillmentBy(base, s).nextShipmentId
    ensures ClaimsNothingSeeded(base, a) && HasParent(s, a) && forall b :: b in s ==> !SameClaim(a, b)
  {
    var taken := base.shipments.Keys + ShipmentIds(s);
    forall b | b in s ensures !SameClaim(a, b) {
      if b.ShipmentCreated? {
        assert b.shipmentId in ShipmentIds(s) && b.orderId in ShippedOrders(s);
        assert b.shipmentId in taken;
      }
    }
    assert forall k :: k in base.shipments ==> k in taken;
  }

  lemma ListedOnce(sim: Simulation, d: Date, s: set<Event>, shipped: set<int>)
    requires Injective(sim)
    ensures NoRepeats(ShippableListed(sim, d, s, shipped))
    ensures Elements(ShippableListed(sim, d, s, shipped)) == set e | e in s && Shippable(sim, d, shipped, e)
  {
    var eligible := set e | e in s && Shippable(sim, d, shipped, e);
    SortedSetListsTheSet(eligible, sim.eventId);
    StrictlySortedHasNoRepeats(SortedSet(eligible, sim.eventId), sim.eventId);
  }

  lemma InvoicesKeepConsistent(sim: Simulation, d: Date, base: OpsDb, s: set<Event>)
    requires Consistent(base, s)
    ensures var x := PlanInvoices(sim, d, s, InvoicedOrders(s));
      (forall e :: e in x ==> e.InvoiceCreated? && e.date == d) && Consistent(base, s + x)
  {
    var x := PlanInvoices(sim, d, s, InvoicedOrders(s));
    forall a | a in x
      ensures ClaimsNothingSeeded(base, a) && HasParent(s + x, a) && a.InvoiceCreated?
      ensures a.orderId !in InvoicedOrders(s)
    {
      var p :| p in s && Billable(sim, d, InvoicedOrders(s), p) && a == InvoiceFor(sim, d, p);
      assert HasParent(s, p);
      assert OrderIds(s) <= OrderIds(s + x);
      assert HasShipment(s + x, p.shipmentId, p.orderId, p.date) by { assert p in s + x; }
    }
    forall a, b | a in x && b in x && SameClaim(a, b) ensures a == b {
      var p :| p in s && Billable(sim, d, InvoicedOrders(s), p) && a == InvoiceFor(sim, d, p);
      var q :| q in s && Billable(sim, d, InvoicedOrders(s), q) && b == InvoiceFor(sim, d, q);
      ConsistentIsUnique(base, s, p, q);
    }
    AddKeepsConsistent(base, s, x);
  }

  lemma DeliveriesKeepConsistent(sim: Simulation, d: Date, base: OpsDb, s: set<Event>)
    requires Consistent(base, s)
    ensures var x := PlanDeliveries(sim, d, s, DeliveredShipments(s));
      (forall e :: e in x ==> e.ShipmentDelivered? && e.date == d) && Consistent(base, s + x)
  {
    var x := PlanDeliveries(sim, d, s, DeliveredShipments(s));
    forall a | a in x
      ensures ClaimsNothingSeeded(base, a) && HasParent(s + x, a) && a.ShipmentDelivered?
      ensures a.shipmentId !in DeliveredShipments(s)
    {
      var p :| p in s && Deliverable(sim, d, DeliveredShipments(s), p) && a == DeliveryFor(sim, d, p);
      assert HasShipment(s + x, p.shipmentId, p.orderId, p.date) by { assert p in s + x; }
    }
    forall a, b | a in x && b in x && SameClaim(a, b) ensures a == b {
      var p :| p in s && Deliverable(sim, d, DeliveredShipments(s), p) && a == DeliveryFor(sim, d, p);
      var q :| q in s && Deliverable(sim, d, DeliveredShipments(s), q) && b == DeliveryFor(sim, d, q);
      ConsistentIsUnique(base, s, p, q);
    }
    AddKeepsConsistent(base, s, x);
  }

  /** Invoices and deliveries plan from shipments alone, and neither changes what the other reads. */
  lemma PlansDependOnShipments(sim: Simulation, d: Date, s: set<Event>, t: set<Event>)
    requires Shipments(s) == Shipments(t)
    ensures forall i :: PlanInvoices(sim, d, s, i) == PlanInvoices(sim, d, t, i)
    ensures forall v :: PlanDeliveries(sim, d, s, v) == PlanDeliveries(sim, d, t, v)
  {
    forall e: Event ensures e.ShipmentCreated? ==> (e in s <==> e in t) {
      assert e in Shipments(s) <==> e in Shipments(t);
    }
    forall i ensures PlanInvoices(sim, d, s, i) == PlanInvoices(sim, d, t, i) {
      assert (set e | e in s && Billable(sim, d, i, e)) == set e | e in t && Billable(sim, d, i, e);
    }
    forall v ensures PlanDeliveries(sim, d, s, v) == PlanDeliveries(sim, d, t, v) {
      assert (set e | e in s && Deliverable(sim, d, v, e)) == set e | e in t && Deliverable(sim, d, v, e);
    }
  }

  lemma FulfillmentKeepsConsistent(sim: Simulation, d: Date, base: OpsDb, s: set<Event>)
    requires Injective(sim) && Consistent(base, s)
    ensures Consistent(base, s + FulfillmentOf(sim, d, base, s, s))
    ensures forall e :: e in FulfillmentOf(sim, d, base, s, s) ==>
              e.date == d && (e.ShipmentCreated? || e.InvoiceCreated? || e.ShipmentDelivered?)
  {
    var f := FulfillmentBy(base, s);
    var shipments := Elements(PlanShipments(sim, d, s, f.shipped, f.nextShipmentId));
    var s1 := s + shipments;
    var invoices := PlanInvoices(sim, d, s1, f.invoiced);
    var s2 := s1 + invoices;
    var deliveries := PlanDeliveries(sim, d, s1, f.delivered);
    ShipmentsKeepConsistent(sim, d, base, s);
    assert InvoicedOrders(s1) == f.invoiced;
    InvoicesKeepConsistent(sim, d, base, s1);
    assert DeliveredShipments(s2) == DeliveredShipments(s) == f.delivered;
    assert Shipments(s2) == Shipments(s1);
    PlansDependOnShipments(sim, d, s1, s2);
    DeliveriesKeepConsistent(sim, d, base, s2);
    assert s + FulfillmentOf(sim, d, base, s, s) == s2 + deliveries;
  }

  /* ---- Support cases ---- */

  lemma OpeningsAreFresh(sim: Simulation, d: Date, base: OpsDb, s: set<Event>)
    requires Injective(sim)
    ensures var x := Elements(PlanOpenings(sim, d, s, NextId(base.cases.Keys + CaseIds(s))));
      && (forall e :: e in x ==> e.CaseOpened? && e.date == d && ClaimsNothingSeeded(base, e))
      && (forall a, b :: a in x && b in x && SameClaim(a, b) ==> a == b)
      && (forall a, b :: a in x && b in s ==> !SameClaim(a, b))
      && (forall a :: a in x ==> exists v :: v in s && v.ShipmentDelivered? && v.orderId == a.orderId)
  {
    hide Injective;
    var taken := base.cases.Keys + CaseIds(s);
    var deliveries := ComplainableListed(sim, d, s);
    var made := PlanOpenings(sim, d, s, NextId(taken));
    assert forall k :: k in base.cases ==> k in taken;
    forall b | b in s && b.CaseOpened? ensures b.caseId < NextId(taken) {
      assert b.caseId in CaseIds(s);
      assert b.caseId in taken;
    }
    forall a | a in Elements(made) ensures exists v :: v in s && v.ShipmentDelivered? && v.orderId == a.orderId {
      var i :| 0 <= i < |made| && a == made[i];
      assert deliveries[i].orderId == a.orderId;
    }
  }

  lemma OpeningsKeepConsistent(sim: Simulation, d: Date, base: OpsDb, s: set<Event>)
    requires Injective(sim) && Consistent(base, s)
    ensures var x := Elements(PlanOpenings(sim, d, s, NextId(base.cases.Keys + CaseIds(s))));
      (forall e :: e in x ==> e.CaseOpened? && e.date == d) && Consistent(base, s + x)
  {
    hide PlanOpenings, Injective;
    var x := Elements(PlanOpenings(sim, d, s, NextId(base.cases.Keys + CaseIds(s))));
    OpeningsAreFresh(sim, d, base, s);
    forall a | a in x ensures HasParent(s + x, a) {
      var v :| v in s && v.ShipmentDelivered? && v.orderId == a.orderId;
      DeliveredOrderExists(base, s, v);
      assert OrderIds(s) <= OrderIds(s + x);
    }
    AddKeepsConsistent(base, s, x);
  }

  lemma DeliveredOrderExists(base: OpsDb, s: set<Event>, delivery: Event)
    requires Consistent(base, s) && delivery in s && delivery.ShipmentDelivered?
    ensures delivery.orderId in OrderIds(s)
  {
    assert HasParent(s, delivery);
    var p :| p in s && p.ShipmentCreated? && p.shipmentId == delivery.shipmentId && p.orderId == delivery.orderId
        && p.date == delivery.shipDate;
    assert HasParent(s, p);
  }

  lemma ResolutionsKeepConsistent(sim: Simulation, d: Date, base: OpsDb, s: set<Event>)
    requires Consistent(base, s)
    ensures var x := PlanResolutions(sim, d, s, ResolvedCases(s));
      (forall e :: e in x ==> e.CaseResolved? && e.date == d) && Consistent(base, s + x)
  {
    var x := PlanResolutions(sim, d, s, ResolvedCases(s));
    forall a | a in x
      ensures ClaimsNothingSeeded(base, a) && HasParent(s + x, a) && a.CaseResolved?
      ensures a.caseId !in ResolvedCases(s)
    {
      var o :| o in s && Resolvable(sim, d, ResolvedCases(s), o) && a == CaseResolved(d, o.caseId);
      assert o in s + x;
    }
    AddKeepsConsistent(base, s, x);
  }

  lemma ClosuresKeepConsistent(sim: Simulation, d: Date, base: OpsDb, s: set<Event>)
    requires Consistent(base, s)
    ensures (forall e :: e in PlanClosures(sim, d, s) ==> e.CaseClosed? && e.date == d)
    ensures Consistent(base, s + PlanClosures(sim, d, s))
  {
    var x := PlanClosures(sim, d, s);
    forall a | a in x
      ensures ClaimsNothingSeeded(base, a) && HasParent(s + x, a) && a.CaseClosed?
      ensures a.caseId !in ClosedCases(s)
    {
      var r :| r in s && Closable(sim, d, ClosedCases(s), r) && a == CaseClosed(d, r.caseId);
      assert r in s + x;
    }
    AddKeepsConsistent(base, s, x);
  }

  /** No resolution of today is closed today, so planning closures before or after them agrees. */
  lemma ClosuresIgnoreToday(sim: Simulation, d: Date, s: set<Event>, x: set<Event>)
    requires forall e :: e in x ==> e.date == d && !e.CaseClosed?
    ensures PlanClosures(sim, d, s + x) == PlanClosures(sim, d, s)
  {
    assert ClosedCases(s + x) == ClosedCases(s);
    assert (set e | e in s + x && Closable(sim, d, ClosedCases(s), e))
        == set e | e in s && Closable(sim, d, ClosedCases(s), e);
  }

  lemma SupportKeepsConsistent(sim: Simulation, d: Date, base: OpsDb, s: set<Event>)
    requires Injective(sim) && Consistent(base, s)
    ensures Consistent(base, s + SupportOf(sim, d, base, s, s))
    ensures forall e :: e in SupportOf(sim, d, base, s, s) ==> e.date == d && TouchesCase(e)
  {
    var openings := Elements(PlanOpenings(sim, d, s, NextId(base.cases.Keys + CaseIds(s))));
    var s1 := s + openings;
    var resolutions := PlanResolutions(sim, d, s1, ResolvedCases(s));
    var s2 := s1 + resolutions;
    OpeningsKeepConsistent(sim, d, base, s);
    assert ResolvedCases(s1) == ResolvedCases(s);
    ResolutionsKeepConsistent(sim, d, base, s1);
    ClosuresIgnoreToday(sim, d, s, openings + resolutions);
    assert s2 == s + (openings + resolutions);
    ClosuresKeepConsistent(sim, d, base, s2);
    assert s + SupportOf(sim, d, base, s, s) == s2 + PlanClosures(sim, d, s);
  }
}
