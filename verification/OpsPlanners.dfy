/** The planners as they run: loops over the listed events that collect what is due and number it.
    Each is proved to plan exactly what its specification in `OpsEvents` says. */
module OpsPlanners {
  import opened Ordering
  import opened OpsEvents
  import opened OpsConsistency

  lemma ExtendList<T>(s: seq<T>, i: nat)
    requires i < |s|
    ensures s[..i + 1] == s[..i] + [s[i]]
    ensures Elements(s[..i + 1]) == Elements(s[..i]) + {s[i]}
  {
    assert s[..i + 1] == s[..i] + [s[i]];
  }

  /** Collecting the members of a repeat-free list that pass a test. */
  ghost predicate Collected<T(!new)>(all: seq<T>, i: nat, p: T -> bool, found: seq<T>)
    requires i <= |all|
  {
    && NoRepeats(found)
    && forall x :: x in Elements(found) <==> x in Elements(all[..i]) && p(x)
  }

  lemma CollectNext<T(!new)>(all: seq<T>, i: nat, p: T -> bool, found: seq<T>)
    requires i < |all| && NoRepeats(all) && Collected(all, i, p, found)
    ensures p(all[i]) ==> Collected(all, i + 1, p, found + [all[i]])
    ensures !p(all[i]) ==> Collected(all, i + 1, p, found)
  {
    ExtendList(all, i);
    forall x | x in Elements(all[..i]) ensures x != all[i] {
      var k :| 0 <= k < i && all[k] == x;
    }
    if p(all[i]) {
      var grown := found + [all[i]];
      assert forall x :: x in Elements(grown) <==> x in Elements(found) || x == all[i];
      forall a, b | 0 <= a < b < |grown| ensures grown[a] != grown[b] {
        assert grown[a] in Elements(found);
      }
    }
  }

  /** Sorted by id, what was collected is the set's one listing. */
  lemma SortedCollection<T(!new)>(all: seq<T>, p: T -> bool, found: seq<T>, s: set<T>, key: T -> int)
    requires Collected(all, |all|, p, found) && DistinctKeys(s, key)
    requires forall x :: x in s <==> x in Elements(all) && p(x)
    ensures Sort(found, key) == SortedSet(s, key)
  {
    assert all[..|all|] == all;
    assert Elements(found) == s;
    SortListsTheSet(found, s, key);
  }

  /* ---- Orders ---- */

  function OrderFor(sim: Simulation, d: Date, e: CrmEvent, orderId: int): seq<Event> {
    match e.account
    case None => []
    case Some(customer) => [OrderCreated(d, orderId, customer, e.opportunity, e.date, ConversionDelay(sim, e))]
  }

  lemma OneMoreOrder(sim: Simulation, d: Date, won: seq<CrmEvent>, next: int, offset: nat)
    requires offset < |won|
    ensures MakeOrders(sim, d, won[offset..], next + offset)
         == OrderFor(sim, d, won[offset], next + offset) + MakeOrders(sim, d, won[offset + 1..], next + (offset + 1))
  {
    assert won[offset..][1..] == won[offset + 1..];
  }

  method NumberOrders(sim: Simulation, d: Date, won: seq<CrmEvent>, next: int) returns (orders: seq<Event>)
    ensures orders == MakeOrders(sim, d, won, next)
  {
    orders := [];
    assert won[0..] == won;
    hide ConversionDelay;
    for offset := 0 to |won|
      invariant MakeOrders(sim, d, won, next) == orders + MakeOrders(sim, d, won[offset..], next + offset)
    {
      OneMoreOrder(sim, d, won, next, offset);
      var e := won[offset];
      match e.account {
        case None =>
        case Some(customer) =>
          orders := orders + [OrderCreated(d, next + offset, customer, e.opportunity, e.date, ConversionDelay(sim, e))];
      }
    }
  }

  method OrdersDue(sim: Simulation, d: Date, crm: seq<CrmEvent>, converted: set<string>, next: int)
    returns (orders: seq<Event>)
    requires NoRepeats(crm) && DistinctKeys(Elements(crm), CrmId)
    ensures orders == PlanOrders(sim, d, Elements(crm), converted, next)
  {
    ghost var due := (e: CrmEvent) => Convertible(sim, d, converted, e);
    var eligible: seq<CrmEvent> := [];
    for i := 0 to |crm|
      invariant Collected(crm, i, due, eligible)
    {
      CollectNext(crm, i, due, eligible);
      var e := crm[i];
      if !e.closedWon || e.opportunity in converted { continue; }
      if e.date + ConversionDelay(sim, e) <= d {
        eligible := eligible + [e];
      }
    }
    var won := Sort(eligible, CrmId);
    SortedCollection(crm, due, eligible, (set e | e in Elements(crm) && Convertible(sim, d, converted, e)), CrmId);
    orders := NumberOrders(sim, d, won, next);
  }

  /* ---- Fulfillment ---- */

  lemma IdsAreDistinct(sim: Simulation, s: set<Event>)
    requires Injective(sim)
    ensures DistinctKeys(s, sim.eventId)
  {
  }

  method NumberShipments(sim: Simulation, d: Date, orders: seq<Event>, next: int) returns (shipments: seq<Event>)
    requires forall i :: 0 <= i < |orders| ==> orders[i].OrderCreated?
    ensures shipments == MakeShipments(sim, d, orders, next)
  {
    shipments := [];
    for offset := 0 to |orders|
      invariant shipments == MakeShipments(sim, d, orders, next)[..offset]
    {
      var o := orders[offset];
      shipments := shipments + [ShipmentCreated(d, next + offset, o.orderId, o.date, ShipmentDelay(sim, o))];
    }
  }

  method ShipmentsDue(sim: Simulation, d: Date, events: seq<Event>, shipped: set<int>, next: int)
    returns (shipments: seq<Event>)
    requires Injective(sim) && NoRepeats(events)
    ensures shipments == PlanShipments(sim, d, Elements(events), shipped, next)
  {
    hide Injective;
    ghost var due := (e: Event) => Shippable(sim, d, shipped, e);
    var eligible: seq<Event> := [];
    for i := 0 to |events|
      invariant Collected(events, i, due, eligible)
    {
      CollectNext(events, i, due, eligible);
      var e := events[i];
      if !e.OrderCreated? || e.orderId in shipped { continue; }
      if e.date + ShipmentDelay(sim, e) <= d {
        eligible := eligible + [e];
      }
    }
    var orders := Sort(eligible, sim.eventId);
    ghost var all := set e | e in Elements(events) && Shippable(sim, d, shipped, e);
    IdsAreDistinct(sim, all);
    SortedCollection(events, due, eligible, all, sim.eventId);
    assert orders == ShippableListed(sim, d, Elements(events), shipped);
    shipments := NumberShipments(sim, d, orders, next);
  }

  /** The shipments among a list of events, in id order; an event listed twice stays so. */
  function ShipmentsById(sim: Simulation, events: seq<Event>): seq<Event> {
    Sort(Select(events, (e: Event) => e.ShipmentCreated?), sim.eventId)
  }

  lemma ShipmentsByIdElements(sim: Simulation, events: seq<Event>)
    ensures Elements(ShipmentsById(sim, events)) == Shipments(Elements(events))
    ensures forall i :: 0 <= i < |ShipmentsById(sim, events)| ==> ShipmentsById(sim, events)[i].ShipmentCreated?
  {
    var test := (e: Event) => e.ShipmentCreated?;
    SelectElements(events, test);
    SortIsSortedPermutation(Select(events, test), sim.eventId);
    var r := ShipmentsById(sim, events);
    assert forall i :: 0 <= i < |r| ==> r[i] in Elements(r);
  }

  lemma OneMoreInvoice(sim: Simulation, d: Date, s: set<Event>, e: Event, invoiced: set<int>)
    requires e.ShipmentCreated?
    ensures PlanInvoices(sim, d, s + {e}, invoiced)
         == PlanInvoices(sim, d, s, invoiced) + if Billable(sim, d, invoiced, e) then {InvoiceFor(sim, d, e)} else {}
  {
  }

  lemma OneMoreDelivery(sim: Simulation, d: Date, s: set<Event>, e: Event, delivered: set<int>)
    requires e.ShipmentCreated?
    ensures PlanDeliveries(sim, d, s + {e}, delivered)
         == PlanDeliveries(sim, d, s, delivered) + if Deliverable(sim, d, delivered, e) then
             {DeliveryFor(sim, d, e)} else {}
  {
  }

  method InvoicesDue(sim: Simulation, d: Date, existing: seq<Event>, planned: seq<Event>, invoiced: set<int>)
    returns (invoices: seq<Event>)
    ensures Elements(invoices) == PlanInvoices(sim, d, Elements(existing) + Elements(planned), invoiced)
  {
    var shipments := ShipmentsById(sim, existing + planned);
    ShipmentsByIdElements(sim, existing + planned);
    invoices := [];
    for i := 0 to |shipments|
      invariant Elements(invoices) == PlanInvoices(sim, d, Elements(shipments[..i]), invoiced)
    {
      var s := shipments[i];
      ExtendList(shipments, i);
      OneMoreInvoice(sim, d, Elements(shipments[..i]), s, invoiced);
      if s.orderId in invoiced { continue; }
      if s.date + InvoiceDelay(sim, s) > d { continue; }
      invoices := invoices + [InvoiceFor(sim, d, s)];
    }
    assert shipments[..|shipments|] == shipments;
    assert Elements(existing + planned) == Elements(existing) + Elements(planned);
    PlansDependOnShipments(sim, d, Elements(shipments), Elements(existing) + Elements(planned));
  }

  method DeliveriesDue(sim: Simulation, d: Date, events: seq<Event>, delivered: set<int>)
    returns (deliveries: seq<Event>)
    ensures Elements(deliveries) == PlanDeliveries(sim, d, Elements(events), delivered)
  {
    var shipments := ShipmentsById(sim, events);
    ShipmentsByIdElements(sim, events);
    deliveries := [];
    for i := 0 to |shipments|
      invariant Elements(deliveries) == PlanDeliveries(sim, d, Elements(shipments[..i]), delivered)
    {
      var s := shipments[i];
      ExtendList(shipments, i);
      OneMoreDelivery(sim, d, Elements(shipments[..i]), s, delivered);
      if s.shipmentId in delivered { continue; }
      if s.date + DeliveryDelay(sim, s) > d { continue; }
      deliveries := deliveries + [DeliveryFor(sim, d, s)];
    }
    assert shipments[..|shipments|] == shipments;
    PlansDependOnShipments(sim, d, Elements(shipments), Elements(events));
  }

  method FulfillmentDue(sim: Simulation, d: Date, events: seq<Event>, f: Fulfillment) returns (planned: seq<Event>)
    requires Injective(sim) && NoRepeats(events)
    ensures Elements(planned) == PlanFulfillment(sim, d, Elements(events), f)
  {
    var shipments := ShipmentsDue(sim, d, events, f.shipped, f.nextShipmentId);
    var invoices := InvoicesDue(sim, d, events, shipments, f.invoiced);
    var deliveries := DeliveriesDue(sim, d, events + shipments, f.delivered);
    assert Elements(events + shipments) == Elements(events) + Elements(shipments);
    planned := shipments + invoices + deliveries;
    assert Elements(planned) == Elements(shipments) + Elements(invoices) + Elements(deliveries);
  }

  /* ---- Support cases ---- */

  lemma OneMoreResolution(sim: Simulation, d: Date, s: set<Event>, e: Event, resolved: set<int>)
    ensures PlanResolutions(sim, d, s + {e}, resolved)
         == PlanResolutions(sim, d, s, resolved) + if Resolvable(sim, d, resolved, e) then
             {CaseResolved(d, e.caseId)} else {}
  {
  }

  method ResolutionsDue(sim: Simulation, d: Date, events: seq<Event>, resolved: set<int>)
    returns (resolutions: seq<Event>)
    ensures Elements(resolutions) == PlanResolutions(sim, d, Elements(events), resolved)
  {
    resolutions := [];
    for i := 0 to |events|
      invariant Elements(resolutions) == PlanResolutions(sim, d, Elements(events[..i]), resolved)
    {
      var e := events[i];
      ExtendList(events, i);
      OneMoreResolution(sim, d, Elements(events[..i]), e, resolved);
      if !e.CaseOpened? || e.caseId in resolved { continue; }
      if e.date + ResolutionDelay(sim, e) > d { continue; }
      resolutions := resolutions + [CaseResolved(d, e.caseId)];
    }
    assert events[..|events|] == events;
  }

  function ClosuresAmong(sim: Simulation, d: Date, s: set<Event>, closed: set<int>): set<Event> {
    set e | e in s && Closable(sim, d, closed, e) :: CaseClosed(d, e.caseId)
  }

  lemma OneMoreClosure(sim: Simulation, d: Date, s: set<Event>, e: Event, closed: set<int>)
    ensures ClosuresAmong(sim, d, s + {e}, closed)
         == ClosuresAmong(sim, d, s, closed) + if Closable(sim, d, closed, e) then {CaseClosed(d, e.caseId)} else {}
  {
  }

  method ClosuresDue(sim: Simulation, d: Date, events: seq<Event>) returns (closures: seq<Event>)
    ensures Elements(closures) == PlanClosures(sim, d, Elements(events))
  {
    var closed := ClosedCases(Elements(events));
    closures := [];
    for i := 0 to |events|
      invariant Elements(closures) == ClosuresAmong(sim, d, Elements(events[..i]), closed)
    {
      var e := events[i];
      ExtendList(events, i);
      OneMoreClosure(sim, d, Elements(events[..i]), e, closed);
      if !e.CaseResolved? || e.caseId in closed { continue; }
      if e.date + ClosureDelay(sim, e) > d { continue; }
      closures := closures + [CaseClosed(d, e.caseId)];
    }
    assert events[..|events|] == events;
  }

  method SupportDue(sim: Simulation, d: Date, events: seq<Event>, nextCaseId: int) returns (planned: seq<Event>)
    requires Injective(sim) && NoRepeats(events)
    ensures Elements(planned) == PlanSupport(sim, d, Elements(events), nextCaseId)
  {
    var complained := OpenedShipments(Elements(events));
    var due := (e: Event) => Complainable(sim, d, complained, e);
    var eligible := Select(events, due);
    var deliveries := Sort(eligible, sim.eventId);
    ComplaintsListed(sim, d, events);
    var openings := MakeOpenings(d, deliveries, nextCaseId);
    var resolutions := ResolutionsDue(sim, d, events + openings, ResolvedCases(Elements(events)));
    assert Elements(events + openings) == Elements(events) + Elements(openings);
    var closures := ClosuresDue(sim, d, events);
    planned := openings + resolutions + closures;
    assert Elements(planned) == Elements(openings) + Elements(resolutions) + Elements(closures);
  }

  lemma ComplaintsListed(sim: Simulation, d: Date, events: seq<Event>)
    requires Injective(sim) && NoRepeats(events)
    ensures Sort(Select(events, (e: Event) => Complainable(sim, d, OpenedShipments(Elements(events)), e)), sim.eventId)
         == ComplainableListed(sim, d, Elements(events))
  {
    var complained := OpenedShipments(Elements(events));
    var due := (e: Event) => Complainable(sim, d, complained, e);
    var all := set e | e in Elements(events) && Complainable(sim, d, complained, e);
    SelectElements(events, due);
    SelectKeepsNoRepeats(events, due);
    assert Elements(Select(events, due)) == all;
    SortListsTheSet(Select(events, due), all, sim.eventId);
  }
}
