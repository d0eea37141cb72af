/** Replaying a date of the Ops source.

    Applying a consistent batch in rank order never fails, whatever part of it was applied before;
    a database is determined by the events it reflects, up to the surrogate ids that are allotted in
    order of application; and planning again after a crash adds nothing that was not planned
    already. */
module OpsReplay {
  import opened Ordering
  import opened OpsEvents
  import opened OpsTables
  import opened OpsProjection
  import opened OpsDay
  import opened OpsConsistency

  /* ---- Applying a batch ---- */

  /** A parent ranks below its child, so it is never among events that rank no lower. */
  lemma ParentRanksLower(s: set<Event>, x: set<Event>, e: Event)
    requires HasParent(s + x, e)
    requires forall y :: y in x ==> Priority(e) <= Priority(y)
    ensures HasParent(s, e)
  {
    if !e.OrderCreated? {
      forall y | y in x ensures !y.OrderCreated? {}
      assert OrderIds(s + x) == OrderIds(s);
    }
    if e.ShipmentDelivered? || e.InvoiceCreated? {
      var p :| p in s + x && p.ShipmentCreated? && p.shipmentId == e.shipmentId && p.orderId == e.orderId
          && p.date == e.shipDate;
      assert p in s;
    }
    if e.CaseResolved? { assert CaseIds(s + x) == CaseIds(s); }
    if e.CaseClosed? { assert ResolvedCases(s + x) == ResolvedCases(s); }
  }

  lemma PartIsConsistent(base: OpsDb, s: set<Event>, x: set<Event>, e: Event)
    requires Consistent(base, s) && Consistent(base, s + x) && e in x
    requires forall y :: y in x ==> Priority(e) <= Priority(y)
    ensures Consistent(base, s + {e})
  {
    ParentRanksLower(s, x, e);
    hide Priority;
    forall y | y in s + {e} ensures HasParent(s + {e}, y) {
      MoreEventsKeepParents(s, s + {e}, y);
    }
  }

  lemma MarkedWasApplied(sim: Simulation, base: OpsDb, s: set<Event>, e: Event, db: OpsDb)
    requires Injective(sim) && SeedDb(sim, base) && Reflects(sim, base, s, db)
    ensures sim.eventId(e) in db.markers <==> e in s
  {
  }

  lemma ApplyOneExtends(sim: Simulation, base: OpsDb, s: set<Event>, x: set<Event>, e: Event, db: OpsDb)
    requires Injective(sim) && SeedDb(sim, base) && Reflects(sim, base, s, db)
    requires Consistent(base, s) && Consistent(base, s + x) && e in x
    requires forall y :: y in x ==> Priority(e) <= Priority(y)
    ensures ApplyOne(sim, db, e).Ok?
    ensures Reflects(sim, base, s + {e}, ApplyOne(sim, db, e).value) && Consistent(base, s + {e})
  {
    hide Reflects, SeedDb, Injective, ApplyEvent, HasParent, Unique, Priority;
    MarkedWasApplied(sim, base, s, e, db);
    if e in s {
      assert s + {e} == s;
    } else {
      PartIsConsistent(base, s, x, e);
      hide Consistent, ApplyOne;
      ProjectionStep(sim, base, s, e, db);
    }
  }

  lemma FirstRanksLowest(batch: seq<Event>, d: Date)
    requires |batch| > 0 && SortedBy(batch, Rank) && forall e :: e in Elements(batch) ==> e.date == d
    ensures batch[0] in Elements(batch)
    ensures forall y :: y in Elements(batch) ==> Priority(batch[0]) <= Priority(y)
  {
    assert batch[0] in Elements(batch);
    forall y | y in Elements(batch) ensures Priority(batch[0]) <= Priority(y) {
      var i :| 0 <= i < |batch| && batch[i] == y;
      assert Rank(batch[0]) <= Rank(batch[i]);
    }
  }

  /** No handler fails on a consistent batch of one date in rank order, and the result reflects the
      batch, however much of it was applied before. */
  lemma {:induction false} ApplyAllReflects(
    sim: Simulation, base: OpsDb, s: set<Event>, batch: seq<Event>, d: Date, db: OpsDb)
    requires Injective(sim) && SeedDb(sim, base) && Reflects(sim, base, s, db)
    requires Consistent(base, s) && Consistent(base, s + Elements(batch))
    requires SortedBy(batch, Rank) && forall e :: e in Elements(batch) ==> e.date == d
    ensures ApplyAll(sim, db, batch).Ok?
    ensures Reflects(sim, base, s + Elements(batch), ApplyAll(sim, db, batch).value)
    decreases |batch|
  {
    hide Reflects, SeedDb, Injective, Consistent, ApplyOne;
    if |batch| == 0 {
      assert s + Elements(batch) == s;
    } else {
      var e, rest := batch[0], batch[1..];
      FirstRanksLowest(batch, d);
      ApplyOneExtends(sim, base, s, Elements(batch), e, db);
      assert (s + {e}) + Elements(rest) == s + Elements(batch);
      ApplyAllReflects(sim, base, s + {e}, rest, d, ApplyOne(sim, db, e).value);
    }
  }

  lemma ApplySortedReflects(
    sim: Simulation, base: OpsDb, s: set<Event>, batch: seq<Event>, d: Date, db: OpsDb)
    requires Injective(sim) && SeedDb(sim, base) && Reflects(sim, base, s, db)
    requires Consistent(base, s) && Consistent(base, s + Elements(batch))
    requires forall e :: e in Elements(batch) ==> e.date == d
    ensures ApplySorted(sim, db, batch).Ok?
    ensures Reflects(sim, base, s + Elements(batch), ApplySorted(sim, db, batch).value)
  {
    SortIsSortedPermutation(batch, Rank);
    ApplyAllReflects(sim, base, s, Sort(batch, Rank), d, db);
  }

  /* ---- The database is a function of the events it reflects ---- */

  /** The columns the events determine: all but the surrogate ids allotted as `max + 1`. */
  ghost predicate SameContents(a: OpsDb, b: OpsDb) {
    a == b.(lineIds := a.lineIds, maxLineId := a.maxLineId, invoiceIds := a.invoiceIds, maxInvoiceId := a.maxInvoiceId)
  }

  lemma OrdersAreDetermined(base: OpsDb, s: set<Event>, a: OpsDb, b: OpsDb)
    requires OrdersReflect(base, s, a) && OrdersReflect(base, s, b)
    ensures a.orders == b.orders && a.customers == b.customers
  {
    forall o | o in a.orders ensures o in b.orders && a.orders[o] == b.orders[o] {
      if o in OrderIds(s) {
        var e :| e in s && e.OrderCreated? && e.orderId == o;
        assert OrderRowIs(s, a, e) && OrderRowIs(s, b, e);
      }
    }
  }

  lemma ShipmentsAreDetermined(base: OpsDb, s: set<Event>, a: OpsDb, b: OpsDb)
    requires ShipmentsReflect(base, s, a) && ShipmentsReflect(base, s, b)
    ensures a.shipments == b.shipments
  {
    forall k | k in a.shipments ensures k in b.shipments && a.shipments[k] == b.shipments[k] {
      if k in ShipmentIds(s) {
        var e :| e in s && e.ShipmentCreated? && e.shipmentId == k;
        assert ShipmentRowIs(s, a, e) && ShipmentRowIs(s, b, e);
        if k in DeliveredShipments(s) {
          var v :| v in s && v.ShipmentDelivered? && v.shipmentId == k;
          assert DeliveryRowIs(a, v) && DeliveryRowIs(b, v);
        }
      }
    }
  }

  lemma InvoicesAreDetermined(base: OpsDb, s: set<Event>, a: OpsDb, b: OpsDb)
    requires InvoicesReflect(base, s, a) && InvoicesReflect(base, s, b)
    ensures a.invoices == b.invoices
  {
    forall o | o in a.invoices ensures o in b.invoices && a.invoices[o] == b.invoices[o] {
      if o in InvoicedOrders(s) {
        var e :| e in s && e.InvoiceCreated? && e.orderId == o;
        assert InvoiceRowIs(base, a, e) && InvoiceRowIs(base, b, e);
      }
    }
  }

  lemma CasesAreDetermined(base: OpsDb, s: set<Event>, a: OpsDb, b: OpsDb)
    requires CasesReflect(base, s, a) && CasesReflect(base, s, b) && Consistent(base, s)
    ensures a.cases == b.cases
  {
    forall k | k in a.cases ensures k in b.cases && a.cases[k] == b.cases[k] {
      if k in CaseIds(s) {
        var e :| e in s && e.CaseOpened? && e.caseId == k;
        assert HasParent(s, e);
        var o :| o in s && o.OrderCreated? && o.orderId == e.orderId;
        hide Consistent;
        assert CaseRowIs(s, a, e) && CaseRowIs(s, b, e);
        assert CaseCustomerIs(a, e, o) && CaseCustomerIs(b, e, o);
        if k in ResolvedCases(s) {
          var r :| r in s && r.CaseResolved? && r.caseId == k;
          assert ResolutionRowIs(a, r) && ResolutionRowIs(b, r);
        }
      }
    }
  }

  lemma OrderHistoryIsDetermined(sim: Simulation, base: OpsDb, s: set<Event>, a: OpsDb, b: OpsDb)
    requires OrderHistoryReflects(sim, base, s, a) && OrderHistoryReflects(sim, base, s, b)
    ensures a.orderHistory == b.orderHistory
  {
    forall k | k in a.orderHistory ensures k in b.orderHistory && a.orderHistory[k] == b.orderHistory[k] {
      if k !in base.orderHistory {
        var e :| e in s && TouchesOrder(e) && sim.eventId(e) == k;
        assert RowIs(a.orderHistory, k, OrderRow(e)) && RowIs(b.orderHistory, k, OrderRow(e));
      }
    }
  }

  lemma ShipmentHistoryIsDetermined(sim: Simulation, base: OpsDb, s: set<Event>, a: OpsDb, b: OpsDb)
    requires ShipmentHistoryReflects(sim, base, s, a) && ShipmentHistoryReflects(sim, base, s, b)
    ensures a.shipmentHistory == b.shipmentHistory
  {
    forall k | k in a.shipmentHistory ensures k in b.shipmentHistory && a.shipmentHistory[k] == b.shipmentHistory[k] {
      if k !in base.shipmentHistory {
        var e :| e in s && TouchesShipment(e) && sim.eventId(e) == k;
        assert RowIs(a.shipmentHistory, k, ShipmentRow(e)) && RowIs(b.shipmentHistory, k, ShipmentRow(e));
      }
    }
  }

  lemma InvoiceHistoryIsDetermined(sim: Simulation, base: OpsDb, s: set<Event>, a: OpsDb, b: OpsDb)
    requires InvoiceHistoryReflects(sim, base, s, a) && InvoiceHistoryReflects(sim, base, s, b)
    ensures a.invoiceHistory == b.invoiceHistory
  {
    forall k | k in a.invoiceHistory ensures k in b.invoiceHistory && a.invoiceHistory[k] == b.invoiceHistory[k] {
      if k !in base.invoiceHistory {
        var e :| e in s && e.InvoiceCreated? && sim.eventId(e) == k;
        assert RowIs(a.invoiceHistory, k, InvoiceRow(e)) && RowIs(b.invoiceHistory, k, InvoiceRow(e));
      }
    }
  }

  lemma CaseHistoryIsDetermined(sim: Simulation, base: OpsDb, s: set<Event>, a: OpsDb, b: OpsDb)
    requires Consistent(base, s)
    requires CaseHistoryReflects(sim, base, s, a) && CaseHistoryReflects(sim, base, s, b)
    ensures a.caseHistory == b.caseHistory
  {
    hide Consistent;
    forall k | k in a.caseHistory ensures k in b.caseHistory && a.caseHistory[k] == b.caseHistory[k] {
      if k !in base.caseHistory {
        var e :| e in s && TouchesCase(e) && sim.eventId(e) == k;
        var o := CaseWasOpened(base, s, e);
        assert RowIs(a.caseHistory, k, CaseRow(e, o)) && RowIs(b.caseHistory, k, CaseRow(e, o));
      }
    }
  }

  lemma CaseWasOpened(base: OpsDb, s: set<Event>, e: Event) returns (o: Event)
    requires Consistent(base, s) && e in s && TouchesCase(e)
    ensures o in s && o.CaseOpened? && o.caseId == e.caseId
  {
    assert HasParent(s, e);
    if e.CaseOpened? { return e; }
    ClosedWasResolved(base, s, e.caseId);
    o :| o in s && o.CaseOpened? && o.caseId == e.caseId;
  }

  lemma TotalsAreDetermined(base: OpsDb, s: set<Event>, a: OpsDb, b: OpsDb)
    requires TotalsReflect(base, s, a) && TotalsReflect(base, s, b)
    ensures a.totals == b.totals
  {
    forall o | o in a.totals ensures o in b.totals && a.totals[o] == b.totals[o] {
      if o !in base.totals { assert o in OrderIds(s); }
    }
  }

  /** Two databases that reflect the same events hold the same rows. */
  lemma ReflectionIsUnique(sim: Simulation, base: OpsDb, s: set<Event>, a: OpsDb, b: OpsDb)
    requires Consistent(base, s) && Reflects(sim, base, s, a) && Reflects(sim, base, s, b)
    ensures SameContents(a, b)
  {
    hide Consistent, OrdersReflect, TotalsReflect, ShipmentsReflect, InvoicesReflect, CasesReflect;
    hide OrderHistoryReflects, ShipmentHistoryReflects, InvoiceHistoryReflects, CaseHistoryReflects;
    OrdersAreDetermined(base, s, a, b);
    ShipmentsAreDetermined(base, s, a, b);
    InvoicesAreDetermined(base, s, a, b);
    CasesAreDetermined(base, s, a, b);
    OrderHistoryIsDetermined(sim, base, s, a, b);
    ShipmentHistoryIsDetermined(sim, base, s, a, b);
    InvoiceHistoryIsDetermined(sim, base, s, a, b);
    CaseHistoryIsDetermined(sim, base, s, a, b);
    TotalsAreDetermined(base, s, a, b);
  }

  /* ---- Surrogate ids ---- */

  ghost predicate SameIds(a: OpsDb, b: OpsDb) {
    a.maxLineId == b.maxLineId && a.invoiceIds == b.invoiceIds && a.maxInvoiceId == b.maxInvoiceId
  }

  /** What applying an event allots: a line id to a new order, an invoice id to a new invoice. */
  lemma IdsAfter(sim: Simulation, db: OpsDb, e: Event)
    requires ApplyOne(sim, db, e).Ok?
    ensures var after := ApplyOne(sim, db, e).value;
      var unmarked := sim.eventId(e) !in db.markers;
      && (if unmarked && e.OrderCreated? && e.orderId !in db.orders then AllotsLine(db, after, e.orderId)
          else SameLineIds(after, db))
      && (if unmarked && e.InvoiceCreated? && e.orderId !in db.invoices then AllotsInvoice(db, after, e.orderId)
          else SameInvoiceIds(after, db))
  {
    hide ApplyOrder, ApplyShipment, ApplyInvoice, ApplyDelivery, ApplyOpening, ApplyResolution, ApplyClosure;
    match e {
      case OrderCreated(_, _, _, _, _, _) =>
      case InvoiceCreated(_, _, _, _, _) =>
      case _ => assert ApplyEvent(sim, db, e).Ok? ==> SameAllotments(ApplyEvent(sim, db, e).value, db);
    }
  }

  lemma SameIdsAfter(sim: Simulation, a: OpsDb, b: OpsDb, e: Event)
    requires SameContents(a, b) && SameIds(a, b)
    requires ApplyOne(sim, a, e).Ok? && ApplyOne(sim, b, e).Ok?
    ensures SameIds(ApplyOne(sim, a, e).value, ApplyOne(sim, b, e).value)
  {
    hide ApplyOne;
    IdsAfter(sim, a, e);
    IdsAfter(sim, b, e);
    assert a.markers == b.markers && a.orders == b.orders && a.invoices == b.invoices;
  }

  /** Databases that reflect the same events and agree on the allotted ids agree on them after any
      batch too. */
  lemma {:induction false} IdsAreDetermined(
    sim: Simulation, base: OpsDb, s: set<Event>, batch: seq<Event>, d: Date, a: OpsDb, b: OpsDb)
    requires Injective(sim) && SeedDb(sim, base) && Reflects(sim, base, s, a) && Reflects(sim, base, s, b)
    requires Consistent(base, s) && Consistent(base, s + Elements(batch))
    requires SortedBy(batch, Rank) && forall e :: e in Elements(batch) ==> e.date == d
    requires SameIds(a, b)
    requires ApplyAll(sim, a, batch).Ok? && ApplyAll(sim, b, batch).Ok?
    ensures SameIds(ApplyAll(sim, a, batch).value, ApplyAll(sim, b, batch).value)
    decreases |batch|
  {
    hide Reflects, SeedDb, Injective, Consistent, ApplyOne, Rank, SameIds, SameContents;
    if |batch| > 0 {
      var e, rest := batch[0], batch[1..];
      FirstRanksLowest(batch, d);
      ApplyOneExtends(sim, base, s, Elements(batch), e, a);
      ApplyOneExtends(sim, base, s, Elements(batch), e, b);
      assert (s + {e}) + Elements(rest) == s + Elements(batch);
      ReflectionIsUnique(sim, base, s, a, b);
      SameIdsAfter(sim, a, b, e);
      IdsAreDetermined(sim, base, s + {e}, rest, d, ApplyOne(sim, a, e).value, ApplyOne(sim, b, e).value);
    }
  }

  /** All columns agree but the line ids of orders. */
  ghost predicate SameButLineIds(a: OpsDb, b: OpsDb) {
    SameContents(a, b) && SameIds(a, b)
  }

  /** A batch of orders none of which the database knows. */
  ghost predicate NewOrders(sim: Simulation, db: OpsDb, batch: seq<Event>) {
    && (forall i :: 0 <= i < |batch| ==>
          batch[i].OrderCreated? && batch[i].orderId !in db.orders && sim.eventId(batch[i]) !in db.markers)
    && (forall i, j :: 0 <= i < j < |batch| ==>
          batch[i].orderId != batch[j].orderId && sim.eventId(batch[i]) != sim.eventId(batch[j]))
  }

  lemma OneOrderLess(sim: Simulation, db: OpsDb, batch: seq<Event>)
    requires NewOrders(sim, db, batch) && |batch| > 0 && ApplyOne(sim, db, batch[0]).Ok?
    ensures NewOrders(sim, ApplyOne(sim, db, batch[0]).value, batch[1..])
  {
    var next := ApplyOne(sim, db, batch[0]).value;
    assert next.orders.Keys == db.orders.Keys + {batch[0].orderId};
    assert next.markers == db.markers + {sim.eventId(batch[0])};
    hide ApplyOne;
  }

  /** New orders take consecutive line ids in the order they are applied. */
  lemma {:induction false} LineIdsFollowTheBatch(sim: Simulation, db: OpsDb, batch: seq<Event>)
    requires NewOrders(sim, db, batch) && ApplyAll(sim, db, batch).Ok?
    ensures var after := ApplyAll(sim, db, batch).value;
      && after.maxLineId == db.maxLineId + |batch|
      && after.invoiceIds == db.invoiceIds && after.maxInvoiceId == db.maxInvoiceId
      && (forall i :: 0 <= i < |batch| ==>
            batch[i].orderId in after.lineIds && after.lineIds[batch[i].orderId] == db.maxLineId + 1 + i)
      && (forall o :: o in db.lineIds && (forall i :: 0 <= i < |batch| ==> batch[i].orderId != o) ==>
            o in after.lineIds && after.lineIds[o] == db.lineIds[o])
    decreases |batch|
  {
    hide ApplyOne;
    if |batch| > 0 {
      var next := ApplyOne(sim, db, batch[0]).value;
      var rest := batch[1..];
      IdsAfter(sim, db, batch[0]);
      OneOrderLess(sim, db, batch);
      LineIdsFollowTheBatch(sim, next, rest);
      var after := ApplyAll(sim, db, batch).value;
      assert forall i :: 0 <= i < |rest| ==> rest[i] == batch[i + 1];
      forall i | 0 <= i < |batch|
        ensures batch[i].orderId in after.lineIds && after.lineIds[batch[i].orderId] == db.maxLineId + 1 + i
      {
        if i > 0 { assert batch[i] == rest[i - 1]; }
      }
    }
  }
}
