/** The Ops database and the event applier.

    `ApplyOne` follows the applier handler by handler, with its early returns and its errors.  The
    law behind its idempotence is `Reflects`: the database is a projection of the set of events
    applied to it, whatever order respecting parents they came in. */
module OpsTables {
  import opened Wrappers
  import opened OpsEvents

  datatype OrderStatus = Pending | Shipped | Invoiced | Cancelled
  datatype ShipmentStatus = InTransit | Delivered
  datatype InvoiceStatus = Issued
  datatype CaseStatus = Open | Resolved | Closed

  datatype Order = Order(customerId: int, opportunity: string, orderDate: Date, status: OrderStatus)
  datatype Shipment = Shipment(orderId: int, shipDate: Date, promised: Date, delivered: Option<Date>)
  datatype Invoice = Invoice(invoiceDate: Date, amount: int)
  datatype Case = Case(customerId: int, openedOn: Date, status: CaseStatus, resolvedOn: Option<Date>)

  /** A row of a status history; invoice history rows name the order that was invoiced. */
  datatype Transition<+S> = Transition(entity: int, previous: Option<S>, next: S, occurredOn: Date, breached: bool)

  /** The master rows an applier picks: the price of the first product, a warehouse, a carrier. */
  datatype Master = Master(price: Option<int>, hasWarehouse: bool, hasCarrier: bool)

  /** Orders, shipments and cases by id; invoices, order totals and line ids by order.  History rows
      are keyed by source event, as their unique constraint has it. */
  datatype OpsDb = OpsDb(
    master: Master,
    customers: set<int>,
    orders: map<int, Order>,
    totals: map<int, int>,
    lineIds: map<int, int>,
    maxLineId: int,
    shipments: map<int, Shipment>,
    invoices: map<int, Invoice>,
    invoiceIds: map<int, int>,
    maxInvoiceId: int,
    cases: map<int, Case>,
    orderHistory: map<EventId, Transition<OrderStatus>>,
    shipmentHistory: map<EventId, Transition<ShipmentStatus>>,
    invoiceHistory: map<EventId, Transition<InvoiceStatus>>,
    caseHistory: map<EventId, Transition<CaseStatus>>,
    markers: set<EventId>)

  datatype Error =
    | OrderCollision | ShipmentCollision | MissingOrder | MissingShipment | MissingCase
    | NoProduct | NoWarehouseOrCarrier | NonPositiveAmount | UniqueViolation

  function ShippedOrderIds(shipments: map<int, Shipment>): set<int> {
    set k | k in shipments :: shipments[k].orderId
  }

  /** The surrogate ids allotted as `max + 1` are the same. */
  predicate SameAllotments(a: OpsDb, b: OpsDb) { SameLineIds(a, b) && SameInvoiceIds(a, b) }
  predicate SameLineIds(a: OpsDb, b: OpsDb) { a.maxLineId == b.maxLineId && a.lineIds == b.lineIds }
  predicate SameInvoiceIds(a: OpsDb, b: OpsDb) {
    a.maxInvoiceId == b.maxInvoiceId && a.invoiceIds == b.invoiceIds && a.invoices == b.invoices
  }

  predicate AllotsLine(db: OpsDb, after: OpsDb, orderId: int) {
    after.maxLineId == db.maxLineId + 1 && after.lineIds == db.lineIds[orderId := db.maxLineId + 1]
  }

  predicate AllotsInvoice(db: OpsDb, after: OpsDb, orderId: int) {
    && after.maxInvoiceId == db.maxInvoiceId + 1 && after.invoiceIds == db.invoiceIds[orderId := db.maxInvoiceId + 1]
    && after.invoices.Keys == db.invoices.Keys + {orderId}
  }

  /* ---- The handlers ---- */

  function ApplyOrder(sim: Simulation, db: OpsDb, e: Event): (r: Result<OpsDb, Error>)
    requires e.OrderCreated?
    ensures r.Ok? ==> r.value.markers == db.markers && r.value.master == db.master
    ensures r.Ok? ==> SameInvoiceIds(r.value, db)
    ensures r.Ok? ==> if e.orderId in db.orders then SameLineIds(r.value, db) else AllotsLine(db, r.value, e.orderId)
  {
    var id := sim.eventId(e);
    var customers := db.customers + {e.customerId};
    if e.orderId in db.orders then
      if db.orders[e.orderId].opportunity != e.opportunity then Err(OrderCollision)
      else Ok(db.(customers := customers))
    else if id in db.orderHistory then Err(UniqueViolation)
    else if db.master.price.None? then Err(NoProduct)
    else
      var before := if e.orderId in db.totals then db.totals[e.orderId] else 0;
      Ok(db.(
        customers := customers,
        orders := db.orders[e.orderId := Order(e.customerId, e.opportunity, e.date, Pending)],
        orderHistory := db.orderHistory[id := Transition(e.orderId, None, Pending, e.date, false)],
        totals := db.totals[e.orderId := before + db.master.price.value],
        lineIds := db.lineIds[e.orderId := db.maxLineId + 1],
        maxLineId := db.maxLineId + 1))
  }

  function ApplyShipment(sim: Simulation, db: OpsDb, e: Event): (r: Result<OpsDb, Error>)
    requires e.ShipmentCreated?
    ensures r.Ok? ==> r.value.markers == db.markers && r.value.master == db.master
    ensures r.Ok? ==> SameAllotments(r.value, db)
  {
    var id := sim.eventId(e);
    if e.shipmentId in db.shipments then
      if db.shipments[e.shipmentId].orderId != e.orderId then Err(ShipmentCollision) else Ok(db)
    else if e.orderId !in db.orders then Err(MissingOrder)
    else if !db.master.hasWarehouse || !db.master.hasCarrier then Err(NoWarehouseOrCarrier)
    else if e.orderId in ShippedOrderIds(db.shipments) || id in db.shipmentHistory then Err(UniqueViolation)
    else
      var shipped := db.(
        shipments := db.shipments[e.shipmentId := Shipment(e.orderId, e.date, e.date + 5, None)],
        shipmentHistory := db.shipmentHistory[id := Transition(e.shipmentId, None, InTransit, e.date, false)]);
      if db.orders[e.orderId].status != Pending then Ok(shipped)
      else if id in db.orderHistory then Err(UniqueViolation)
      else
        Ok(shipped.(
          orderHistory := db.orderHistory[id :=
            Transition(e.orderId, Some(Pending), Shipped, e.date, e.date > e.orderDate + 5)],
          orders := db.orders[e.orderId := db.orders[e.orderId].(status := Shipped)]))
  }

  function ApplyDelivery(sim: Simulation, db: OpsDb, e: Event): (r: Result<OpsDb, Error>)
    requires e.ShipmentDelivered?
    ensures r.Ok? ==> r.value.markers == db.markers && r.value.master == db.master
    ensures r.Ok? ==> SameAllotments(r.value, db)
  {
    var id := sim.eventId(e);
    if e.shipmentId !in db.shipments then Err(MissingShipment)
    else
      var shipment := db.shipments[e.shipmentId];
      if shipment.delivered.Some? then Ok(db)
      else if id in db.shipmentHistory then Err(UniqueViolation)
      else
        Ok(db.(
          shipments := db.shipments[e.shipmentId := shipment.(delivered := Some(e.date))],
          shipmentHistory := db.shipmentHistory[id :=
            Transition(e.shipmentId, Some(InTransit), Delivered, e.date, e.date > shipment.promised)]))
  }

  function ApplyInvoice(sim: Simulation, db: OpsDb, e: Event): (r: Result<OpsDb, Error>)
    requires e.InvoiceCreated?
    ensures r.Ok? ==> r.value.markers == db.markers && r.value.master == db.master
    ensures r.Ok? ==> SameLineIds(r.value, db)
    ensures r.Ok? ==>
      if e.orderId in db.invoices then SameInvoiceIds(r.value, db) else AllotsInvoice(db, r.value, e.orderId)
  {
    var id := sim.eventId(e);
    if e.orderId in db.invoices then Ok(db)
    else if e.orderId !in db.orders then Err(MissingOrder)
    else if e.shipmentId !in db.shipments || db.shipments[e.shipmentId].orderId != e.orderId then
      Err(MissingShipment)
    else
      var amount := if e.orderId in db.totals then db.totals[e.orderId] else 0;
      if amount <= 0 then Err(NonPositiveAmount)
      else if id in db.invoiceHistory then Err(UniqueViolation)
      else
        var breached := e.date > e.shipDate + 3;
        var invoiced := db.(
          invoices := db.invoices[e.orderId := Invoice(e.date, amount)],
          invoiceIds := db.invoiceIds[e.orderId := db.maxInvoiceId + 1],
          maxInvoiceId := db.maxInvoiceId + 1,
          invoiceHistory := db.invoiceHistory[id := Transition(e.orderId, None, Issued, e.date, breached)]);
        if db.orders[e.orderId].status != Shipped then Ok(invoiced)
        else if id in db.orderHistory then Err(UniqueViolation)
        else
          Ok(invoiced.(
            orderHistory := db.orderHistory[id :=
              Transition(e.orderId, Some(Shipped), Invoiced, e.date, breached)],
            orders := db.orders[e.orderId := db.orders[e.orderId].(status := Invoiced)]))
  }

  function ApplyOpening(sim: Simulation, db: OpsDb, e: Event): (r: Result<OpsDb, Error>)
    requires e.CaseOpened?
    ensures r.Ok? ==> r.value.markers == db.markers && r.value.master == db.master
    ensures r.Ok? ==> SameAllotments(r.value, db)
  {
    var id := sim.eventId(e);
    if e.caseId in db.cases then Ok(db)
    else if e.orderId !in db.orders then Err(MissingOrder)
    else if id in db.caseHistory then Err(UniqueViolation)
    else
      Ok(db.(
        cases := db.cases[e.caseId := Case(db.orders[e.orderId].customerId, e.date, Open, None)],
        caseHistory := db.caseHistory[id := Transition(e.caseId, None, Open, e.date, false)]))
  }

  /** Cases open at 09:00 and are resolved at 17:00; the target is three days, to the hour. */
  predicate ResolvedLate(openedOn: Date, resolvedOn: Date) {
    24 * resolvedOn + 17 > 24 * openedOn + 9 + 72
  }

  function ApplyResolution(sim: Simulation, db: OpsDb, e: Event): (r: Result<OpsDb, Error>)
    requires e.CaseResolved?
    ensures r.Ok? ==> r.value.markers == db.markers && r.value.master == db.master
    ensures r.Ok? ==> SameAllotments(r.value, db)
  {
    var id := sim.eventId(e);
    if e.caseId !in db.cases then Err(MissingCase)
    else
      var c := db.cases[e.caseId];
      if c.status != Open then Ok(db)
      else if id in db.caseHistory then Err(UniqueViolation)
      else
        Ok(db.(
          cases := db.cases[e.caseId := c.(status := Resolved, resolvedOn := Some(e.date))],
          caseHistory := db.caseHistory[id :=
            Transition(e.caseId, Some(Open), Resolved, e.date, ResolvedLate(c.openedOn, e.date))]))
  }

  function ApplyClosure(sim: Simulation, db: OpsDb, e: Event): (r: Result<OpsDb, Error>)
    requires e.CaseClosed?
    ensures r.Ok? ==> r.value.markers == db.markers && r.value.master == db.master
    ensures r.Ok? ==> SameAllotments(r.value, db)
  {
    var id := sim.eventId(e);
    if e.caseId !in db.cases then Err(MissingCase)
    else
      var c := db.cases[e.caseId];
      if c.status != Resolved then Ok(db)
      else if id in db.caseHistory then Err(UniqueViolation)
      else
        Ok(db.(
          cases := db.cases[e.caseId := c.(status := Closed)],
          caseHistory := db.caseHistory[id := Transition(e.caseId, Some(Resolved), Closed, e.date, false)]))
  }

  function ApplyEvent(sim: Simulation, db: OpsDb, e: Event): (r: Result<OpsDb, Error>)
    ensures r.Ok? ==> r.value.markers == db.markers && r.value.master == db.master
  {
    match e
    case OrderCreated(_, _, _, _, _, _) => ApplyOrder(sim, db, e)
    case ShipmentCreated(_, _, _, _, _) => ApplyShipment(sim, db, e)
    case ShipmentDelivered(_, _, _, _, _) => ApplyDelivery(sim, db, e)
    case InvoiceCreated(_, _, _, _, _) => ApplyInvoice(sim, db, e)
    case CaseOpened(_, _, _, _) => ApplyOpening(sim, db, e)
    case CaseResolved(_, _) => ApplyResolution(sim, db, e)
    case CaseClosed(_, _) => ApplyClosure(sim, db, e)
  }

  /** One event inside the caller's transaction: skipped when its marker is there, else applied
      together with its marker. */
  function ApplyOne(sim: Simulation, db: OpsDb, e: Event): Result<OpsDb, Error> {
    if sim.eventId(e) in db.markers then Ok(db)
    else
      match ApplyEvent(sim, db, e)
      case Err(error) => Err(error)
      case Ok(db') => Ok(db'.(markers := db'.markers + {sim.eventId(e)}))
  }

  function ApplyAll(sim: Simulation, db: OpsDb, events: seq<Event>): Result<OpsDb, Error>
    decreases |events|
  {
    if |events| == 0 then Ok(db)
    else
      match ApplyOne(sim, db, events[0])
      case Err(error) => Err(error)
      case Ok(db') => ApplyAll(sim, db', events[1..])
  }

  /* ---- The database as a projection of events ---- */

  function OrderIds(s: set<Event>): set<int> { set e | e in s && e.OrderCreated? :: e.orderId }
  function CustomerIds(s: set<Event>): set<int> { set e | e in s && e.OrderCreated? :: e.customerId }
  function ShippedOrders(s: set<Event>): set<int> { set e | e in s && e.ShipmentCreated? :: e.orderId }
  function ShipmentIds(s: set<Event>): set<int> { set e | e in s && e.ShipmentCreated? :: e.shipmentId }
  function DeliveredShipments(s: set<Event>): set<int> { set e | e in s && e.ShipmentDelivered? :: e.shipmentId }
  function InvoicedOrders(s: set<Event>): set<int> { set e | e in s && e.InvoiceCreated? :: e.orderId }
  function CaseIds(s: set<Event>): set<int> { set e | e in s && e.CaseOpened? :: e.caseId }
  function EventIds(sim: Simulation, s: set<Event>): set<EventId> { set e | e in s :: sim.eventId(e) }

  /** Two events make, deliver, invoice, resolve or close one and the same thing. */
  predicate SameClaim(a: Event, b: Event) {
    match (a, b)
    case (OrderCreated(_, o, _, _, _, _), OrderCreated(_, p, _, _, _, _)) => o == p
    case (ShipmentCreated(_, k, o, _, _), ShipmentCreated(_, l, p, _, _)) => k == l || o == p
    case (ShipmentDelivered(_, k, _, _, _), ShipmentDelivered(_, l, _, _, _)) => k == l
    case (InvoiceCreated(_, o, _, _, _), InvoiceCreated(_, p, _, _, _)) => o == p
    case (CaseOpened(_, k, _, _), CaseOpened(_, l, _, _)) => k == l
    case (CaseResolved(_, k), CaseResolved(_, l)) => k == l
    case (CaseClosed(_, k), CaseClosed(_, l)) => k == l
    case _ => false
  }

  /** No two events claim one entity, and none claims an entity of the seed database. */
  ghost predicate Unique(base: OpsDb, s: set<Event>) {
    && (forall a, b :: a in s && b in s && SameClaim(a, b) ==> a == b)
    && (forall e :: e in s && e.OrderCreated? ==> e.orderId !in base.orders)
    && (forall e :: e in s && e.ShipmentCreated? ==> e.shipmentId !in base.shipments)
    && (forall e :: e in s && e.CaseOpened? ==> e.caseId !in base.cases)
  }

  ghost predicate HasShipment(s: set<Event>, shipmentId: int, orderId: int, date: Date) {
    exists p :: p in s && p.ShipmentCreated? && p.shipmentId == shipmentId && p.orderId == orderId && p.date == date
  }

  /** The event `e` depends on is in `s`. */
  ghost predicate HasParent(s: set<Event>, e: Event) {
    match e
    case OrderCreated(_, _, _, _, _, _) => true
    case ShipmentCreated(_, _, orderId, _, _) => orderId in OrderIds(s)
    case ShipmentDelivered(_, shipmentId, orderId, shipDate, _) => HasShipment(s, shipmentId, orderId, shipDate)
    case InvoiceCreated(_, orderId, shipmentId, shipDate, _) =>
      orderId in OrderIds(s) && HasShipment(s, shipmentId, orderId, shipDate)
    case CaseOpened(_, _, _, orderId) => orderId in OrderIds(s)
    case CaseResolved(_, caseId) => caseId in CaseIds(s)
    case CaseClosed(_, caseId) => caseId in ResolvedCases(s)
  }

  ghost predicate Consistent(base: OpsDb, s: set<Event>) {
    Unique(base, s) && forall e :: e in s ==> HasParent(s, e)
  }

  function StatusOf(s: set<Event>, orderId: int): OrderStatus {
    if orderId in InvoicedOrders(s) then Invoiced
    else if orderId in ShippedOrders(s) then Shipped
    else Pending
  }

  function CaseStatusOf(s: set<Event>, caseId: int): CaseStatus {
    if caseId in ClosedCases(s) then Closed
    else if caseId in ResolvedCases(s) then Resolved
    else Open
  }

  ghost predicate OrdersReflect(base: OpsDb, s: set<Event>, db: OpsDb) {
    && db.customers == base.customers + CustomerIds(s)
    && db.orders.Keys == base.orders.Keys + OrderIds(s)
    && (forall o :: o in base.orders ==> o in db.orders && db.orders[o] == base.orders[o])
    && (forall e :: e in s && e.OrderCreated? ==> OrderRowIs(s, db, e))
  }

  ghost predicate OrderRowIs(s: set<Event>, db: OpsDb, e: Event)
    requires e.OrderCreated?
  {
    && e.orderId in db.orders
    && db.orders[e.orderId] == Order(e.customerId, e.opportunity, e.date, StatusOf(s, e.orderId))
  }

  ghost predicate TotalsReflect(base: OpsDb, s: set<Event>, db: OpsDb) {
    && db.totals.Keys == base.totals.Keys + OrderIds(s)
    && (forall o :: o in base.totals ==> o in db.totals && db.totals[o] == base.totals[o])
    && (forall o :: o in OrderIds(s) ==> o in db.totals && Some(db.totals[o]) == base.master.price)
  }

  ghost predicate ShipmentsReflect(base: OpsDb, s: set<Event>, db: OpsDb) {
    && db.shipments.Keys == base.shipments.Keys + ShipmentIds(s)
    && (forall k :: k in base.shipments ==> k in db.shipments && db.shipments[k] == base.shipments[k])
    && (forall e :: e in s && e.ShipmentCreated? ==> ShipmentRowIs(s, db, e))
    && (forall e :: e in s && e.ShipmentDelivered? ==> DeliveryRowIs(db, e))
  }

  ghost predicate ShipmentRowIs(s: set<Event>, db: OpsDb, e: Event)
    requires e.ShipmentCreated?
  {
    && e.shipmentId in db.shipments
    && var row := db.shipments[e.shipmentId];
    && row.orderId == e.orderId && row.shipDate == e.date && row.promised == e.date + 5
    && (row.delivered.Some? <==> e.shipmentId in DeliveredShipments(s))
  }

  ghost predicate DeliveryRowIs(db: OpsDb, e: Event)
    requires e.ShipmentDelivered?
  {
    e.shipmentId in db.shipments && db.shipments[e.shipmentId].delivered == Some(e.date)
  }

  ghost predicate InvoicesReflect(base: OpsDb, s: set<Event>, db: OpsDb) {
    && db.invoices.Keys == base.invoices.Keys + InvoicedOrders(s)
    && (forall o :: o in base.invoices ==> o in db.invoices && db.invoices[o] == base.invoices[o])
    && (forall e :: e in s && e.InvoiceCreated? ==> InvoiceRowIs(base, db, e))
  }

  ghost predicate InvoiceRowIs(base: OpsDb, db: OpsDb, e: Event)
    requires e.InvoiceCreated?
  {
    && e.orderId in db.invoices
    && db.invoices[e.orderId].invoiceDate == e.date
    && Some(db.invoices[e.orderId].amount) == base.master.price
  }

  ghost predicate CasesReflect(base: OpsDb, s: set<Event>, db: OpsDb) {
    && db.cases.Keys == base.cases.Keys + CaseIds(s)
    && (forall k :: k in base.cases ==> k in db.cases && db.cases[k] == base.cases[k])
    && (forall e :: e in s && e.CaseOpened? ==> CaseRowIs(s, db, e))
    && (forall e, o :: e in s && o in s && e.CaseOpened? && o.OrderCreated? ==> CaseCustomerIs(db, e, o))
    && (forall e :: e in s && e.CaseResolved? ==> ResolutionRowIs(db, e))
  }

  ghost predicate CaseRowIs(s: set<Event>, db: OpsDb, e: Event)
    requires e.CaseOpened?
  {
    && e.caseId in db.cases
    && var row := db.cases[e.caseId];
    && row.openedOn == e.date && row.status == CaseStatusOf(s, e.caseId)
    && (row.resolvedOn.Some? <==> e.caseId in ResolvedCases(s))
  }

  ghost predicate CaseCustomerIs(db: OpsDb, e: Event, o: Event)
    requires e.CaseOpened? && o.OrderCreated?
  {
    o.orderId == e.orderId ==> e.caseId in db.cases && db.cases[e.caseId].customerId == o.customerId
  }

  ghost predicate ResolutionRowIs(db: OpsDb, e: Event)
    requires e.CaseResolved?
  {
    e.caseId in db.cases && db.cases[e.caseId].resolvedOn == Some(e.date)
  }

  predicate TouchesOrder(e: Event) { e.OrderCreated? || e.ShipmentCreated? || e.InvoiceCreated? }
  predicate TouchesShipment(e: Event) { e.ShipmentCreated? || e.ShipmentDelivered? }
  predicate TouchesCase(e: Event) { e.CaseOpened? || e.CaseResolved? || e.CaseClosed? }

  /** The row of the order history each event leaves behind. */
  function OrderRow(e: Event): Transition<OrderStatus>
    requires TouchesOrder(e)
  {
    match e
    case OrderCreated(date, orderId, _, _, _, _) => Transition(orderId, None, Pending, date, false)
    case ShipmentCreated(date, _, orderId, orderDate, _) =>
      Transition(orderId, Some(Pending), Shipped, date, date > orderDate + 5)
    case InvoiceCreated(date, orderId, _, shipDate, _) =>
      Transition(orderId, Some(Shipped), Invoiced, date, date > shipDate + 3)
  }

  function ShipmentRow(e: Event): Transition<ShipmentStatus>
    requires TouchesShipment(e)
  {
    match e
    case ShipmentCreated(date, shipmentId, _, _, _) => Transition(shipmentId, None, InTransit, date, false)
    case ShipmentDelivered(date, shipmentId, _, shipDate, _) =>
      Transition(shipmentId, Some(InTransit), Delivered, date, date > shipDate + 5)
  }

  /** A history table holds the seed's rows and, for each source event in `sources`, one more. */
  ghost predicate Extends<S>(
    base: map<EventId, Transition<S>>, ids: set<EventId>, table: map<EventId, Transition<S>>)
  {
    table.Keys == base.Keys + ids && forall k :: k in base ==> k in table && table[k] == base[k]
  }

  ghost predicate RowIs<S>(table: map<EventId, Transition<S>>, id: EventId, row: Transition<S>) {
    id in table && table[id] == row
  }

  function OrderTouches(s: set<Event>): set<Event> { set e | e in s && TouchesOrder(e) }
  function ShipmentTouches(s: set<Event>): set<Event> { set e | e in s && TouchesShipment(e) }
  function CaseTouches(s: set<Event>): set<Event> { set e | e in s && TouchesCase(e) }

  ghost predicate OrderHistoryReflects(sim: Simulation, base: OpsDb, s: set<Event>, db: OpsDb) {
    && Extends(base.orderHistory, EventIds(sim, OrderTouches(s)), db.orderHistory)
    && (forall e :: e in s && TouchesOrder(e) ==> RowIs(db.orderHistory, sim.eventId(e), OrderRow(e)))
  }

  ghost predicate ShipmentHistoryReflects(sim: Simulation, base: OpsDb, s: set<Event>, db: OpsDb) {
    && Extends(base.shipmentHistory, EventIds(sim, ShipmentTouches(s)), db.shipmentHistory)
    && (forall e :: e in s && TouchesShipment(e) ==> RowIs(db.shipmentHistory, sim.eventId(e), ShipmentRow(e)))
  }

  function InvoiceRow(e: Event): Transition<InvoiceStatus>
    requires e.InvoiceCreated?
  {
    Transition(e.orderId, None, Issued, e.date, e.date > e.shipDate + 3)
  }

  ghost predicate InvoiceHistoryReflects(sim: Simulation, base: OpsDb, s: set<Event>, db: OpsDb) {
    && Extends(base.invoiceHistory, EventIds(sim, Invoices(s)), db.invoiceHistory)
    && (forall e :: e in s && e.InvoiceCreated? ==> RowIs(db.invoiceHistory, sim.eventId(e), InvoiceRow(e)))
  }

  /** `o` is the opening of the case `e` touches; only a resolution's row depends on it. */
  function CaseRow(e: Event, o: Event): Transition<CaseStatus>
    requires TouchesCase(e) && o.CaseOpened?
  {
    match e
    case CaseOpened(date, caseId, _, _) => Transition(caseId, None, Open, date, false)
    case CaseResolved(date, caseId) => Transition(caseId, Some(Open), Resolved, date, date >= o.date + 3)
    case CaseClosed(date, caseId) => Transition(caseId, Some(Resolved), Closed, date, false)
  }

  ghost predicate CaseHistoryReflects(sim: Simulation, base: OpsDb, s: set<Event>, db: OpsDb) {
    && Extends(base.caseHistory, EventIds(sim, CaseTouches(s)), db.caseHistory)
    && (forall e, o :: e in s && o in s && TouchesCase(e) && o.CaseOpened? && o.caseId == e.caseId
          ==> RowIs(db.caseHistory, sim.eventId(e), CaseRow(e, o)))
  }

  ghost predicate Reflects(sim: Simulation, base: OpsDb, s: set<Event>, db: OpsDb) {
    && db.master == base.master
    && db.markers == base.markers + EventIds(sim, s)
    && OrdersReflect(base, s, db)
    && TotalsReflect(base, s, db)
    && ShipmentsReflect(base, s, db)
    && InvoicesReflect(base, s, db)
    && CasesReflect(base, s, db)
    && OrderHistoryReflects(sim, base, s, db)
    && ShipmentHistoryReflects(sim, base, s, db)
    && InvoiceHistoryReflects(sim, base, s, db)
    && CaseHistoryReflects(sim, base, s, db)
  }

  /** The seed database: its foreign keys hold, the master rows are there, and no row of it was made
      by a simulator event. */
  ghost predicate SeedDb(sim: Simulation, base: OpsDb) {
    && base.master.price.Some? && base.master.price.value > 0
    && base.master.hasWarehouse && base.master.hasCarrier
    && base.totals.Keys <= base.orders.Keys
    && base.invoices.Keys <= base.orders.Keys
    && ShippedOrderIds(base.shipments) <= base.orders.Keys
    && forall e :: sim.eventId(e) !in base.markers && sim.eventId(e) !in base.orderHistory
         && sim.eventId(e) !in base.shipmentHistory && sim.eventId(e) !in base.invoiceHistory
         && sim.eventId(e) !in base.caseHistory
  }
}
