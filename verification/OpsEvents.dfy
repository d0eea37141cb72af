/** Business events of the Ops source, the ledger that records them, and the planners that decide
    which events a business date brings.

    SHA-256 is an uninterpreted function: `eventId` gives an event's id and `digest` the first two
    bytes of the hash of a tagged id.  Distinct events are assumed to have distinct ids. */
module OpsEvents {
  import opened Wrappers
  import opened Ordering

  type Date = int
  type EventId = int
  type Byte = b: int | 0 <= b < 256

  datatype Event =
    | OrderCreated(date: Date, orderId: int, customerId: int, opportunity: string, closedWon: Date, delay: nat)
    | ShipmentCreated(date: Date, shipmentId: int, orderId: int, orderDate: Date, delay: nat)
    | ShipmentDelivered(date: Date, shipmentId: int, orderId: int, shipDate: Date, delay: nat)
    | InvoiceCreated(date: Date, orderId: int, shipmentId: int, shipDate: Date, delay: nat)
    | CaseOpened(date: Date, caseId: int, shipmentId: int, orderId: int)
    | CaseResolved(date: Date, caseId: int)
    | CaseClosed(date: Date, caseId: int)

  /** The CRM events Ops plans from; only stage changes to Closed Won matter to it.  `account` is the
      customer number behind a well-formed account id. */
  datatype CrmEvent = CrmEvent(
    eventId: EventId, date: Date, closedWon: bool, opportunity: string, account: Option<int>)

  datatype Window = Window(minimum: nat, maximum: nat)
  type DayWindow = w: Window | w.minimum <= w.maximum witness Window(0, 0)

  datatype Simulation = Simulation(
    eventId: Event -> EventId,
    digest: (string, EventId) -> (Byte, Byte),
    crmToOps: DayWindow,
    orderToShipment: DayWindow,
    shipmentToDelivery: DayWindow,
    shipmentToInvoice: DayWindow,
    delayedCrmToOps: real,
    stalledShipment: real)

  ghost predicate Injective(sim: Simulation) {
    forall a, b :: sim.eventId(a) == sim.eventId(b) ==> a == b
  }

  function Share(b: Byte): real { b as real / 255.0 }

  function InWindow(w: DayWindow, b: Byte): (days: nat)
    ensures w.minimum <= days <= w.maximum
  {
    w.minimum + b % (w.maximum - w.minimum + 1)
  }

  /** The day of the window a hash byte picks: the days take turns, byte 0 the first of them. */
  function Turn(w: DayWindow, b: nat): (days: nat)
    ensures w.minimum <= days <= w.maximum
  {
    if b == 0 then w.minimum
    else
      var before := Turn(w, b - 1);
      if before == w.maximum then w.minimum else before + 1
  }

  lemma {:induction false} InWindowTakesTurns(w: DayWindow, b: Byte)
    ensures InWindow(w, b) == Turn(w, b)
  {
    if b > 0 {
      InWindowTakesTurns(w, b - 1);
      NextRemainder(b - 1, w.maximum - w.minimum + 1);
    }
  }

  lemma NextRemainder(b: nat, n: nat)
    requires n > 0
    ensures (b + 1) % n == if b % n == n - 1 then 0 else b % n + 1
  {
    var q, r, q', r' := b / n, b % n, (b + 1) / n, (b + 1) % n;
    assert b == q * n + r && b + 1 == q' * n + r';
    if r == n - 1 {
      assert (q + 1) * n == q * n + n;
      SameMultiple(q + 1, 0, q', r', n);
    } else {
      SameMultiple(q, r + 1, q', r', n);
    }
  }

  lemma SameMultiple(q: nat, r: nat, p: nat, s: nat, n: nat)
    requires r < n && s < n && q * n + r == p * n + s
    ensures r == s
  {
    assert (q - p) * n == s - r;
    if q > p { Multiples(q - p, n); }
    if q < p { Multiples(p - q, n); }
    assert (p - q) * n == -((q - p) * n);
  }

  lemma Multiples(q: nat, n: nat)
    requires q > 0
    ensures q * n >= n
  {
  }

  function ConversionDelay(sim: Simulation, e: CrmEvent): nat {
    var bytes := sim.digest("ops", e.eventId);
    if Share(bytes.1) < sim.delayedCrmToOps then sim.crmToOps.maximum + 1
    else InWindow(sim.crmToOps, bytes.0)
  }

  function ShipmentDelay(sim: Simulation, order: Event): nat {
    var bytes := sim.digest("shipment", sim.eventId(order));
    if Share(bytes.1) < sim.stalledShipment then sim.orderToShipment.maximum + 3
    else InWindow(sim.orderToShipment, bytes.0)
  }

  function InvoiceDelay(sim: Simulation, shipment: Event): nat {
    InWindow(sim.shipmentToInvoice, sim.digest("invoice", sim.eventId(shipment)).0)
  }

  function DeliveryDelay(sim: Simulation, shipment: Event): nat {
    InWindow(sim.shipmentToDelivery, sim.digest("delivery", sim.eventId(shipment)).0)
  }

  predicate OpensCase(sim: Simulation, delivery: Event) {
    Share(sim.digest("support", sim.eventId(delivery)).0) < 0.02
  }

  function OpeningDelay(sim: Simulation, delivery: Event): nat {
    1 + sim.digest("support-delay", sim.eventId(delivery)).0 % 7
  }

  function ResolutionDelay(sim: Simulation, opening: Event): nat {
    1 + sim.digest("support-resolution", sim.eventId(opening)).0 % 3
  }

  function ClosureDelay(sim: Simulation, resolution: Event): (days: nat)
    ensures days >= 1
  {
    1 + sim.digest("support-close", sim.eventId(resolution)).0 % 2
  }

  /* ---- What each planner decides, as a function of the recorded events ---- */

  function Orders(s: set<Event>): set<Event> { set e | e in s && e.OrderCreated? }
  function Shipments(s: set<Event>): set<Event> { set e | e in s && e.ShipmentCreated? }
  function Invoices(s: set<Event>): set<Event> { set e | e in s && e.InvoiceCreated? }

  predicate Convertible(sim: Simulation, d: Date, converted: set<string>, e: CrmEvent) {
    e.closedWon && e.opportunity !in converted && e.date + ConversionDelay(sim, e) <= d
  }

  function CrmId(e: CrmEvent): int { e.eventId }

  /** One order per convertible event in id order; an event without a usable account still uses up
      its offset. */
  function MakeOrders(sim: Simulation, d: Date, won: seq<CrmEvent>, next: int): seq<Event> {
    if |won| == 0 then []
    else
      (match won[0].account
       case None => []
       case Some(customer) =>
         [OrderCreated(d, next, customer, won[0].opportunity, won[0].date, ConversionDelay(sim, won[0]))])
      + MakeOrders(sim, d, won[1..], next + 1)
  }

  ghost function PlanOrders(
    sim: Simulation, d: Date, crm: set<CrmEvent>, converted: set<string>, next: int): seq<Event>
    requires DistinctKeys(crm, CrmId)
  {
    MakeOrders(sim, d, SortedSet((set e | e in crm && Convertible(sim, d, converted, e)), CrmId), next)
  }

  predicate Shippable(sim: Simulation, d: Date, shipped: set<int>, e: Event) {
    e.OrderCreated? && e.orderId !in shipped && e.date + ShipmentDelay(sim, e) <= d
  }

  function MakeShipments(sim: Simulation, d: Date, orders: seq<Event>, next: int): (r: seq<Event>)
    requires forall i :: 0 <= i < |orders| ==> orders[i].OrderCreated?
    ensures |r| == |orders|
    ensures forall i :: 0 <= i < |r| ==>
      r[i] == ShipmentCreated(d, next + i, orders[i].orderId, orders[i].date, ShipmentDelay(sim, orders[i]))
  {
    seq(|orders|, i requires 0 <= i < |orders| =>
      ShipmentCreated(d, next + i, orders[i].orderId, orders[i].date, ShipmentDelay(sim, orders[i])))
  }

  ghost function ShippableListed(sim: Simulation, d: Date, events: set<Event>, shipped: set<int>): (r: seq<Event>)
    requires Injective(sim)
    ensures forall i :: 0 <= i < |r| ==> r[i] in events && Shippable(sim, d, shipped, r[i])
  {
    var eligible := set e | e in events && Shippable(sim, d, shipped, e);
    SortedSetListsTheSet(eligible, sim.eventId);
    var r := SortedSet(eligible, sim.eventId);
    assert forall i :: 0 <= i < |r| ==> r[i] in Elements(r);
    r
  }

  ghost function PlanShipments(
    sim: Simulation, d: Date, events: set<Event>, shipped: set<int>, next: int): seq<Event>
    requires Injective(sim)
  {
    MakeShipments(sim, d, ShippableListed(sim, d, events, shipped), next)
  }

  predicate Billable(sim: Simulation, d: Date, invoiced: set<int>, e: Event) {
    e.ShipmentCreated? && e.orderId !in invoiced && e.date + InvoiceDelay(sim, e) <= d
  }

  function InvoiceFor(sim: Simulation, d: Date, s: Event): Event
    requires s.ShipmentCreated?
  {
    InvoiceCreated(d, s.orderId, s.shipmentId, s.date, InvoiceDelay(sim, s))
  }

  function PlanInvoices(sim: Simulation, d: Date, events: set<Event>, invoiced: set<int>): set<Event> {
    set s | s in events && Billable(sim, d, invoiced, s) :: InvoiceFor(sim, d, s)
  }

  predicate Deliverable(sim: Simulation, d: Date, delivered: set<int>, e: Event) {
    e.ShipmentCreated? && e.shipmentId !in delivered && e.date + DeliveryDelay(sim, e) <= d
  }

  function DeliveryFor(sim: Simulation, d: Date, s: Event): Event
    requires s.ShipmentCreated?
  {
    ShipmentDelivered(d, s.shipmentId, s.orderId, s.date, DeliveryDelay(sim, s))
  }

  function PlanDeliveries(sim: Simulation, d: Date, events: set<Event>, delivered: set<int>): set<Event> {
    set s | s in events && Deliverable(sim, d, delivered, s) :: DeliveryFor(sim, d, s)
  }

  /** What the fulfillment planner reads from the database before it plans. */
  datatype Fulfillment = Fulfillment(nextShipmentId: int, shipped: set<int>, invoiced: set<int>, delivered: set<int>)

  ghost function PlanFulfillment(sim: Simulation, d: Date, events: set<Event>, f: Fulfillment): set<Event>
    requires Injective(sim)
  {
    var shipments := Elements(PlanShipments(sim, d, events, f.shipped, f.nextShipmentId));
    shipments
    + PlanInvoices(sim, d, events + shipments, f.invoiced)
    + PlanDeliveries(sim, d, events + shipments, f.delivered)
  }

  function OpenedShipments(events: set<Event>): set<int> {
    set e | e in events && e.CaseOpened? :: e.shipmentId
  }

  function ResolvedCases(events: set<Event>): set<int> {
    set e | e in events && e.CaseResolved? :: e.caseId
  }

  function ClosedCases(events: set<Event>): set<int> {
    set e | e in events && e.CaseClosed? :: e.caseId
  }

  predicate Complainable(sim: Simulation, d: Date, complained: set<int>, e: Event) {
    && e.ShipmentDelivered? && e.shipmentId !in complained && OpensCase(sim, e)
    && e.date + OpeningDelay(sim, e) <= d
  }

  function MakeOpenings(d: Date, deliveries: seq<Event>, next: int): (r: seq<Event>)
    requires forall i :: 0 <= i < |deliveries| ==> deliveries[i].ShipmentDelivered?
    ensures |r| == |deliveries|
    ensures forall i :: 0 <= i < |r| ==>
      r[i] == CaseOpened(d, next + i, deliveries[i].shipmentId, deliveries[i].orderId)
  {
    seq(|deliveries|, i requires 0 <= i < |deliveries| =>
      CaseOpened(d, next + i, deliveries[i].shipmentId, deliveries[i].orderId))
  }

  ghost function ComplainableListed(sim: Simulation, d: Date, events: set<Event>): (r: seq<Event>)
    requires Injective(sim)
    ensures forall i :: 0 <= i < |r| ==> r[i] in events && Complainable(sim, d, OpenedShipments(events), r[i])
  {
    var eligible := set e | e in events && Complainable(sim, d, OpenedShipments(events), e);
    SortedSetListsTheSet(eligible, sim.eventId);
    var r := SortedSet(eligible, sim.eventId);
    assert forall i :: 0 <= i < |r| ==> r[i] in Elements(r);
    r
  }

  ghost function PlanOpenings(sim: Simulation, d: Date, events: set<Event>, next: int): seq<Event>
    requires Injective(sim)
  {
    MakeOpenings(d, ComplainableListed(sim, d, events), next)
  }

  predicate Resolvable(sim: Simulation, d: Date, resolved: set<int>, e: Event) {
    e.CaseOpened? && e.caseId !in resolved && e.date + ResolutionDelay(sim, e) <= d
  }

  function PlanResolutions(sim: Simulation, d: Date, events: set<Event>, resolved: set<int>): set<Event> {
    set e | e in events && Resolvable(sim, d, resolved, e) :: CaseResolved(d, e.caseId)
  }

  predicate Closable(sim: Simulation, d: Date, closed: set<int>, e: Event) {
    e.CaseResolved? && e.caseId !in closed && e.date + ClosureDelay(sim, e) <= d
  }

  function PlanClosures(sim: Simulation, d: Date, events: set<Event>): set<Event> {
    set e | e in events && Closable(sim, d, ClosedCases(events), e) :: CaseClosed(d, e.caseId)
  }

  ghost function PlanSupport(sim: Simulation, d: Date, events: set<Event>, nextCaseId: int): set<Event>
    requires Injective(sim)
  {
    var openings := Elements(PlanOpenings(sim, d, events, nextCaseId));
    openings
    + PlanResolutions(sim, d, events + openings, ResolvedCases(events))
    + PlanClosures(sim, d, events)
  }
}
