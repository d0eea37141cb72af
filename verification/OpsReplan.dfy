/** The ledger of a date, and why planning it again after a crash changes nothing.

    `PlanDay` is the date planned once, without interruption.  A crash can leave any prefix of its
    three batches recorded and either transaction applied or not; from each such state every planner
    either plans its batch again, event for event, or plans nothing. */
module OpsReplan {
  import opened Ordering
  import opened OpsEvents
  import opened OpsTables
  import opened OpsDay
  import opened OpsConsistency

  datatype DayPlan = DayPlan(orders: seq<Event>, fulfillment: set<Event>, support: set<Event>)

  ghost function PlanDay(sim: Simulation, d: Date, crm: set<CrmEvent>, base: OpsDb, h: set<Event>): DayPlan
    requires Injective(sim) && DistinctKeys(crm, CrmId)
  {
    var orders := OrdersOf(sim, d, crm, base, h);
    var s1 := h + Elements(orders);
    var fulfillment := FulfillmentOf(sim, d, base, s1, s1);
    DayPlan(orders, fulfillment, SupportOf(sim, d, base, s1 + fulfillment, s1 + fulfillment))
  }

  /** The ledger once the first `recorded` batches of the plan are recorded. */
  function Recorded(h: set<Event>, p: DayPlan, recorded: nat): set<Event>
    requires recorded <= 3
  {
    h
    + (if recorded >= 1 then Elements(p.orders) else {})
    + (if recorded >= 2 then p.fulfillment else {})
    + (if recorded >= 3 then p.support else {})
  }

  ghost predicate DayStarts(sim: Simulation, d: Date, crm: set<CrmEvent>, base: OpsDb, h: set<Event>) {
    && Injective(sim) && DistinctKeys(crm, CrmId) && Consistent(base, h)
    && forall e :: e in h ==> e.date < d
  }

  predicate FulfillmentKind(e: Event) { e.ShipmentCreated? || e.InvoiceCreated? || e.ShipmentDelivered? }

  /** The kinds and the date of each batch. */
  ghost predicate Batches(d: Date, p: DayPlan) {
    && NoRepeats(p.orders)
    && (forall e :: e in Elements(p.orders) ==> e.date == d && e.OrderCreated?)
    && (forall e :: e in p.fulfillment ==> e.date == d && FulfillmentKind(e))
    && (forall e :: e in p.support ==> e.date == d && TouchesCase(e))
  }

  lemma RecordedStepwise(h: set<Event>, p: DayPlan)
    ensures Recorded(h, p, 0) == h
    ensures Recorded(h, p, 1) == h + Elements(p.orders)
    ensures Recorded(h, p, 2) == Recorded(h, p, 1) + p.fulfillment
    ensures Recorded(h, p, 3) == Recorded(h, p, 2) + p.support
  {
  }

  /** What of a date is in the ledger once `r` batches are recorded. */
  lemma BatchesOfTheDay(h: set<Event>, d: Date, p: DayPlan, r: nat)
    requires Batches(d, p) && r <= 3 && forall e :: e in h ==> e.date < d
    ensures DayOrders(Recorded(h, p, r), d) == if r == 0 then {} else Elements(p.orders)
    ensures Orders(Recorded(h, p, r)) == if r == 0 then Orders(h) else Orders(h) + Elements(p.orders)
  {
  }

  lemma RestOfTheDay(h: set<Event>, d: Date, p: DayPlan)
    requires Batches(d, p) && forall e :: e in h ==> e.date < d
    ensures CaseIds(Recorded(h, p, 2)) == CaseIds(Recorded(h, p, 1))
    ensures Downstream(Recorded(h, p, 3), d) == p.fulfillment + p.support
    ensures Recorded(h, p, 3) == Recorded(h, p, 1) + Downstream(Recorded(h, p, 3), d)
  {
    RecordedStepwise(h, p);
    assert Downstream(Recorded(h, p, 3), d) == p.fulfillment + p.support;
  }

  /** Every prefix of a date's plan leaves the ledger consistent. */
  lemma DayIsConsistent(sim: Simulation, d: Date, crm: set<CrmEvent>, base: OpsDb, h: set<Event>)
    requires DayStarts(sim, d, crm, base, h)
    ensures var p := PlanDay(sim, d, crm, base, h);
      && Batches(d, p) && NoRepeats(p.orders)
      && forall r :: 0 <= r <= 3 ==> Consistent(base, Recorded(h, p, r))
  {
    hide Consistent, Injective, OrdersOf, FulfillmentOf, SupportOf;
    var p := PlanDay(sim, d, crm, base, h);
    RecordedStepwise(h, p);
    OrdersKeepConsistent(sim, d, crm, base, h);
    FulfillmentKeepsConsistent(sim, d, base, Recorded(h, p, 1));
    SupportKeepsConsistent(sim, d, base, Recorded(h, p, 2));
    forall r | 0 <= r <= 3 ensures Consistent(base, Recorded(h, p, r)) {
      assert r == 0 || r == 1 || r == 2 || r == 3;
    }
  }

  /* ---- Planning again ---- */

  lemma OrdersDependOnOrders(sim: Simulation, d: Date, crm: set<CrmEvent>, base: OpsDb, s: set<Event>, t: set<Event>)
    requires DistinctKeys(crm, CrmId) && Orders(s) == Orders(t)
    ensures OrdersOf(sim, d, crm, base, s) == OrdersOf(sim, d, crm, base, t)
  {
    forall e: Event ensures e.OrderCreated? ==> (e in s <==> e in t) {
      assert e in Orders(s) <==> e in Orders(t);
    }
    assert OrderIds(s) == OrderIds(t);
    assert Opportunities(s) == Opportunities(t);
  }

  lemma ShipmentsDependOnOrders(sim: Simulation, d: Date, s: set<Event>, t: set<Event>, shipped: set<int>, next: int)
    requires Injective(sim) && Orders(s) == Orders(t)
    ensures PlanShipments(sim, d, s, shipped, next) == PlanShipments(sim, d, t, shipped, next)
  {
    forall e: Event ensures e.OrderCreated? ==> (e in s <==> e in t) {
      assert e in Orders(s) <==> e in Orders(t);
    }
    assert (set e | e in s && Shippable(sim, d, shipped, e)) == set e | e in t && Shippable(sim, d, shipped, e);
  }

  /** Before the date is applied, fulfillment is planned event for event as it was. */
  lemma FulfillmentAgain(sim: Simulation, d: Date, base: OpsDb, s1: set<Event>, ledger: set<Event>, support: set<Event>)
    requires Injective(sim)
    requires s1 <= ledger <= s1 + FulfillmentOf(sim, d, base, s1, s1) + support
    requires forall e :: e in support ==> TouchesCase(e)
    requires forall e :: e in FulfillmentOf(sim, d, base, s1, s1) ==> !e.OrderCreated?
    ensures FulfillmentOf(sim, d, base, ledger, s1) == FulfillmentOf(sim, d, base, s1, s1)
  {
    var f := FulfillmentBy(base, s1);
    var shipments := Elements(PlanShipments(sim, d, s1, f.shipped, f.nextShipmentId));
    assert Orders(ledger) == Orders(s1);
    ShipmentsDependOnOrders(sim, d, ledger, s1, f.shipped, f.nextShipmentId);
    assert Shipments(ledger + shipments) == Shipments(s1 + shipments) by {
      forall e | e in ledger && e.ShipmentCreated? ensures e in s1 + shipments {
        ShipmentsOfFulfillment(sim, d, base, s1, e);
      }
    }
    PlansDependOnShipments(sim, d, ledger + shipments, s1 + shipments);
  }

  lemma ShipmentsOfFulfillment(sim: Simulation, d: Date, base: OpsDb, s1: set<Event>, e: Event)
    requires Injective(sim) && e.ShipmentCreated?
    ensures var f := FulfillmentBy(base, s1);
      e in FulfillmentOf(sim, d, base, s1, s1) ==>
        e in Elements(PlanShipments(sim, d, s1, f.shipped, f.nextShipmentId))
  {
  }

  /** Once the date is applied, no shipment, invoice or delivery is due any more. */
  lemma FulfillmentIsDone(sim: Simulation, d: Date, base: OpsDb, s1: set<Event>, support: set<Event>)
    requires Injective(sim)
    requires forall e :: e in support ==> TouchesCase(e)
    requires forall e :: e in FulfillmentOf(sim, d, base, s1, s1) ==> !e.OrderCreated?
    ensures var all := s1 + FulfillmentOf(sim, d, base, s1, s1) + support;
      FulfillmentOf(sim, d, base, all, all) == {}
  {
    var f := FulfillmentBy(base, s1);
    var all := s1 + FulfillmentOf(sim, d, base, s1, s1) + support;
    var shipments := Elements(PlanShipments(sim, d, s1, f.shipped, f.nextShipmentId));
    NothingToShip(sim, d, base, s1, all);
    var g := FulfillmentBy(base, all);
    assert PlanShipments(sim, d, all, g.shipped, g.nextShipmentId) == [];
    assert all + Elements<Event>([]) == all;
    assert Shipments(all) == Shipments(s1 + shipments) by {
      forall e | e in all && e.ShipmentCreated? ensures e in s1 + shipments {
        ShipmentsOfFulfillment(sim, d, base, s1, e);
      }
    }
    PlansDependOnShipments(sim, d, all, s1 + shipments);
    NothingToInvoice(sim, d, s1 + shipments, f.invoiced, g.invoiced) by {
      assert PlanInvoices(sim, d, s1 + shipments, f.invoiced) <= all;
    }
    NothingToDeliver(sim, d, s1 + shipments, f.delivered, g.delivered) by {
      assert PlanDeliveries(sim, d, s1 + shipments, f.delivered) <= all;
    }
  }

  lemma NothingToShip(sim: Simulation, d: Date, base: OpsDb, s1: set<Event>, all: set<Event>)
    requires Injective(sim) && Orders(all) == Orders(s1) && s1 + FulfillmentOf(sim, d, base, s1, s1) <= all
    ensures ShippableListed(sim, d, all, ShippedOrders(all)) == []
  {
    var f := FulfillmentBy(base, s1);
    var made := PlanShipments(sim, d, s1, f.shipped, f.nextShipmentId);
    assert Elements(made) <= all;
    ListedOnce(sim, d, s1, f.shipped);
    assert ShippedOrders(s1) <= ShippedOrders(all);
    forall e | e in all ensures !Shippable(sim, d, ShippedOrders(all), e) {
      assert e.OrderCreated? ==> e in Orders(all);
      if Shippable(sim, d, f.shipped, e) {
        assert e in Elements(ShippableListed(sim, d, s1, f.shipped));
        var i :| 0 <= i < |made| && ShippableListed(sim, d, s1, f.shipped)[i] == e;
        assert made[i] in Elements(made);
        assert made[i].orderId == e.orderId;
      }
    }
    assert (set e | e in all && Shippable(sim, d, ShippedOrders(all), e)) == {};
  }

  lemma NothingToInvoice(sim: Simulation, d: Date, s: set<Event>, before: set<int>, after: set<int>)
    requires before <= after && InvoicedOrders(PlanInvoices(sim, d, s, before)) <= after
    ensures PlanInvoices(sim, d, s, after) == {}
  {
    forall e | e in s ensures !Billable(sim, d, after, e) {
      if Billable(sim, d, before, e) {
        assert InvoiceFor(sim, d, e) in PlanInvoices(sim, d, s, before);
      }
    }
  }

  lemma NothingToDeliver(sim: Simulation, d: Date, s: set<Event>, before: set<int>, after: set<int>)
    requires before <= after && DeliveredShipments(PlanDeliveries(sim, d, s, before)) <= after
    ensures PlanDeliveries(sim, d, s, after) == {}
  {
    forall e | e in s ensures !Deliverable(sim, d, after, e) {
      if Deliverable(sim, d, before, e) {
        assert DeliveryFor(sim, d, e) in PlanDeliveries(sim, d, s, before);
      }
    }
  }

  lemma SupportDependsOnCaseIds(
    sim: Simulation, d: Date, base: OpsDb, ledger: set<Event>, s: set<Event>, t: set<Event>)
    requires Injective(sim) && CaseIds(s) == CaseIds(t)
    ensures SupportOf(sim, d, base, ledger, s) == SupportOf(sim, d, base, ledger, t)
  {
  }

  /** Support cases plan from the ledger: once recorded, they plan nothing more. */
  lemma SupportIsDone(sim: Simulation, d: Date, base: OpsDb, s2: set<Event>, applied: set<Event>)
    requires Injective(sim) && Consistent(base, s2)
    ensures var support := SupportOf(sim, d, base, s2, s2);
      SupportOf(sim, d, base, s2 + support, applied) == {}
  {
    hide Injective, Consistent, Unique;
    var next := NextId(base.cases.Keys + CaseIds(s2));
    var openings := Elements(PlanOpenings(sim, d, s2, next));
    var resolutions := PlanResolutions(sim, d, s2 + openings, ResolvedCases(s2));
    var closures := PlanClosures(sim, d, s2);
    var support := SupportOf(sim, d, base, s2, s2);
    assert support == openings + resolutions + closures;
    SupportKeepsConsistent(sim, d, base, s2);
    var all := s2 + support;
    OpeningsAreDone(sim, d, s2, next, all);
    assert PlanOpenings(sim, d, all, NextId(base.cases.Keys + CaseIds(applied))) == [];
    assert all + Elements<Event>([]) == all;
    ResolutionsAreDone(sim, d, s2 + openings, ResolvedCases(s2), all);
    ClosuresAreDone(sim, d, s2, all);
  }

  lemma OpeningsAreDone(sim: Simulation, d: Date, s: set<Event>, next: int, all: set<Event>)
    requires Injective(sim) && s + Elements(PlanOpenings(sim, d, s, next)) <= all
    requires forall e :: e in all - s ==> e.date == d && TouchesCase(e)
    ensures ComplainableListed(sim, d, all) == []
  {
    var listed := ComplainableListed(sim, d, s);
    var made := PlanOpenings(sim, d, s, next);
    var eligible := set e | e in s && Complainable(sim, d, OpenedShipments(s), e);
    SortedSetListsTheSet(eligible, sim.eventId);
    assert Elements(listed) == eligible;
    assert OpenedShipments(s) <= OpenedShipments(all);
    forall e | e in all ensures !Complainable(sim, d, OpenedShipments(all), e) {
      if e in s && Complainable(sim, d, OpenedShipments(s), e) {
        assert e in Elements(listed);
        var i :| 0 <= i < |listed| && listed[i] == e;
        assert made[i] in Elements(made) && made[i].shipmentId == e.shipmentId;
        assert made[i] in all;
      }
    }
    assert (set e | e in all && Complainable(sim, d, OpenedShipments(all), e)) == {};
  }

  lemma ResolutionsAreDone(sim: Simulation, d: Date, s: set<Event>, resolved: set<int>, all: set<Event>)
    requires s <= all && PlanResolutions(sim, d, s, resolved) <= all && resolved <= ResolvedCases(all)
    requires forall e :: e in all - s ==> !e.CaseOpened?
    ensures PlanResolutions(sim, d, all, ResolvedCases(all)) == {}
  {
    forall e | e in all ensures !Resolvable(sim, d, ResolvedCases(all), e) {
      if e in s && Resolvable(sim, d, resolved, e) {
        assert CaseResolved(d, e.caseId) in PlanResolutions(sim, d, s, resolved);
        assert CaseResolved(d, e.caseId) in all;
      }
    }
  }

  lemma ClosuresAreDone(sim: Simulation, d: Date, s: set<Event>, all: set<Event>)
    requires s <= all && PlanClosures(sim, d, s) <= all
    requires forall e :: e in all - s ==> e.date == d
    ensures PlanClosures(sim, d, all) == {}
  {
    assert ClosedCases(s) <= ClosedCases(all);
    forall e | e in all ensures !Closable(sim, d, ClosedCases(all), e) {
      if e in s && Closable(sim, d, ClosedCases(s), e) {
        assert CaseClosed(d, e.caseId) in PlanClosures(sim, d, s);
        assert CaseClosed(d, e.caseId) in all;
      }
    }
  }
}
