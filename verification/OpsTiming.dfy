/** When what is due happens, over all dates: how long after its cause each event of the ledger is
    dated, and that nothing whose time has come is missing.

    `Wait` says how many days, from the simulation's policy and the hash bytes; neither the planners nor
    their delays appear in it. */
module OpsTiming {
  import opened Wrappers
  import opened Ordering
  import opened OpsEvents
  import opened OpsTables
  import opened OpsDay
  import opened OpsConsistency
  import opened OpsReplan
  import opened OpsTrack
  import opened OpsOneOrder
  import OpsRun
  import OpsFromCrm
  import CrmStages

  /** What can follow an event. */
  datatype Step = Shipping | Billing | Delivering | Opening | Resolving | Closing

  function StepOf(e: Event): Step
    requires !e.OrderCreated?
  {
    match e
    case ShipmentCreated(_, _, _, _, _) => Shipping
    case InvoiceCreated(_, _, _, _, _) => Billing
    case ShipmentDelivered(_, _, _, _, _) => Delivering
    case CaseOpened(_, _, _, _) => Opening
    case CaseResolved(_, _) => Resolving
    case CaseClosed(_, _) => Closing
  }

  /** `e` is what followed `c`. */
  predicate Follows(c: Event, e: Event)
    requires !e.OrderCreated?
  {
    match e
    case ShipmentCreated(_, _, orderId, orderDate, _) => c.OrderCreated? && c.orderId == orderId && c.date == orderDate
    case InvoiceCreated(_, orderId, shipmentId, shipDate, _) =>
      c.ShipmentCreated? && c.shipmentId == shipmentId && c.orderId == orderId && c.date == shipDate
    case ShipmentDelivered(_, shipmentId, orderId, shipDate, _) =>
      c.ShipmentCreated? && c.shipmentId == shipmentId && c.orderId == orderId && c.date == shipDate
    case CaseOpened(_, _, shipmentId, orderId) =>
      c.ShipmentDelivered? && c.shipmentId == shipmentId && c.orderId == orderId
    case CaseResolved(_, caseId) => c.CaseOpened? && c.caseId == caseId
    case CaseClosed(_, caseId) => c.CaseResolved? && c.caseId == caseId
  }

  /* ---- How long things take, from the policy ---- */

  predicate Stalls(sim: Simulation, order: Event) {
    sim.digest("shipment", sim.eventId(order)).1 as real < sim.stalledShipment * 255.0
  }

  /** One delivery in fifty: hash bytes 0 to 5. */
  predicate Complains(sim: Simulation, delivery: Event) {
    sim.digest("support", sim.eventId(delivery)).0 <= 5
  }

  predicate Awaits(sim: Simulation, c: Event, k: Step) {
    match k
    case Shipping => c.OrderCreated?
    case Billing => c.ShipmentCreated?
    case Delivering => c.ShipmentCreated?
    case Opening => c.ShipmentDelivered? && Complains(sim, c)
    case Resolving => c.CaseOpened?
    case Closing => c.CaseResolved?
  }

  /** The days until what should follow. */
  function Wait(sim: Simulation, c: Event, k: Step): nat {
    var id := sim.eventId(c);
    match k
    case Shipping =>
      if Stalls(sim, c) then sim.orderToShipment.maximum + 3
      else Turn(sim.orderToShipment, sim.digest("shipment", id).0)
    case Billing => Turn(sim.shipmentToInvoice, sim.digest("invoice", id).0)
    case Delivering => Turn(sim.shipmentToDelivery, sim.digest("delivery", id).0)
    case Opening => Turn(Window(1, 7), sim.digest("support-delay", id).0)
    case Resolving => Turn(Window(1, 3), sim.digest("support-resolution", id).0)
    case Closing => Turn(Window(1, 2), sim.digest("support-close", id).0)
  }

  /** The event records how many days it took. */
  predicate TellsDelay(e: Event, days: int) {
    e.ShipmentCreated? || e.InvoiceCreated? || e.ShipmentDelivered? ==> e.delay == days
  }

  ghost predicate InTime(sim: Simulation, s: set<Event>, e: Event)
    requires !e.OrderCreated?
  {
    exists c :: c in s && Follows(c, e) && Awaits(sim, c, StepOf(e))
      && e.date == c.date + Wait(sim, c, StepOf(e)) && TellsDelay(e, Wait(sim, c, StepOf(e)))
  }

  ghost predicate IsFollowed(s: set<Event>, c: Event, k: Step) {
    exists e :: e in s && !e.OrderCreated? && StepOf(e) == k && Follows(c, e)
  }

  /* ---- To the day ---- */

  function Delay(sim: Simulation, c: Event, k: Step): nat {
    match k
    case Shipping => ShipmentDelay(sim, c)
    case Billing => InvoiceDelay(sim, c)
    case Delivering => DeliveryDelay(sim, c)
    case Opening => OpeningDelay(sim, c)
    case Resolving => ResolutionDelay(sim, c)
    case Closing => ClosureDelay(sim, c)
  }

  lemma DelayIsWait(sim: Simulation, c: Event, k: Step)
    ensures Delay(sim, c, k) == Wait(sim, c, k)
  {
    var id := sim.eventId(c);
    var b := sim.digest("shipment", id).1;
    assert Share(b) < sim.stalledShipment <==> b as real < sim.stalledShipment * 255.0;
    match k
    case Shipping => InWindowTakesTurns(sim.orderToShipment, sim.digest("shipment", id).0);
    case Billing => InWindowTakesTurns(sim.shipmentToInvoice, sim.digest("invoice", id).0);
    case Delivering => InWindowTakesTurns(sim.shipmentToDelivery, sim.digest("delivery", id).0);
    case Opening => InWindowTakesTurns(Window(1, 7), sim.digest("support-delay", id).0);
    case Resolving => InWindowTakesTurns(Window(1, 3), sim.digest("support-resolution", id).0);
    case Closing => InWindowTakesTurns(Window(1, 2), sim.digest("support-close", id).0);
  }

  lemma ComplaintsOpenCases(sim: Simulation, c: Event)
    ensures OpensCase(sim, c) <==> Complains(sim, c)
  {
    var b := sim.digest("support", sim.eventId(c)).0;
    assert Share(b) < 0.02 <==> b as real < 0.02 * 255.0;
  }

  /** What of `c` its follower names. */
  predicate IsAmong(c: Event, k: Step, ids: set<int>) {
    match k
    case Shipping => c.OrderCreated? && c.orderId in ids
    case Billing => c.ShipmentCreated? && c.orderId in ids
    case Delivering => c.ShipmentCreated? && c.shipmentId in ids
    case Opening => c.ShipmentDelivered? && c.shipmentId in ids
    case Resolving => c.CaseOpened? && c.caseId in ids
    case Closing => c.CaseResolved? && c.caseId in ids
  }

  function DoneIds(s: set<Event>, k: Step): set<int> {
    match k
    case Shipping => ShippedOrders(s)
    case Billing => InvoicedOrders(s)
    case Delivering => DeliveredShipments(s)
    case Opening => OpenedShipments(s)
    case Resolving => ResolvedCases(s)
    case Closing => ClosedCases(s)
  }

  /** Whether `s` has the one event of step `k` that `c` may have. */
  predicate IsDone(s: set<Event>, c: Event, k: Step) { IsAmong(c, k, DoneIds(s, k)) }

  ghost predicate Due(sim: Simulation, d: Date, c: Event, k: Step) {
    Awaits(sim, c, k) && c.date + Delay(sim, c, k) <= d
  }

  ghost predicate FollowedOnTheDay(sim: Simulation, s: set<Event>, e: Event)
    requires !e.OrderCreated?
  {
    exists c :: c in s && Follows(c, e) && Awaits(sim, c, StepOf(e)) && TellsDelay(e, Delay(sim, c, StepOf(e)))
      && e.date == c.date + Delay(sim, c, StepOf(e))
  }

  ghost predicate OnTime(sim: Simulation, s: set<Event>, d: Date) {
    && (forall e :: e in s && !e.OrderCreated? ==> FollowedOnTheDay(sim, s, e))
    && (forall c, k :: c in s && Due(sim, d, c, k) ==> IsFollowed(s, c, k))
  }

  /** A date's plan adds what was due and not done, and all of it. */
  ghost predicate AddsWhatIsDue(sim: Simulation, d: Date, s: set<Event>, t: set<Event>) {
    && (forall e :: e in t && e !in s && !e.OrderCreated? ==> IsPlannedFor(sim, d, s, t, e))
    && (forall c, k :: c in t && Due(sim, d, c, k) && !IsDone(s, c, k) ==> IsFollowed(t, c, k))
  }

  ghost predicate IsPlannedFor(sim: Simulation, d: Date, s: set<Event>, t: set<Event>, e: Event)
    requires !e.OrderCreated?
  {
    exists c :: c in t && Follows(c, e) && Due(sim, d, c, StepOf(e)) && !IsDone(s, c, StepOf(e))
      && TellsDelay(e, Delay(sim, c, StepOf(e)))
  }

  lemma MoreEventsFollow(s: set<Event>, t: set<Event>, c: Event, k: Step)
    requires s <= t && IsFollowed(s, c, k)
    ensures IsFollowed(t, c, k)
  {
    var e :| e in s && !e.OrderCreated? && StepOf(e) == k && Follows(c, e);
    assert e in t;
  }

  lemma FollowedIsDone(s: set<Event>, c: Event, k: Step)
    requires IsFollowed(s, c, k)
    ensures IsDone(s, c, k)
  {
    var e :| e in s && !e.OrderCreated? && StepOf(e) == k && Follows(c, e);
  }

  lemma DoneHasEvent(s: set<Event>, c: Event, k: Step) returns (e: Event)
    requires IsDone(s, c, k)
    ensures e in s && !e.OrderCreated? && StepOf(e) == k
    ensures forall b :: Follows(b, e) ==> SameClaim(b, c)
  {
    match k
    case Shipping => e :| e in s && e.ShipmentCreated? && e.orderId == c.orderId;
    case Billing => e :| e in s && e.InvoiceCreated? && e.orderId == c.orderId;
    case Delivering => e :| e in s && e.ShipmentDelivered? && e.shipmentId == c.shipmentId;
    case Opening => e :| e in s && e.CaseOpened? && e.shipmentId == c.shipmentId;
    case Resolving => e :| e in s && e.CaseResolved? && e.caseId == c.caseId;
    case Closing => e :| e in s && e.CaseClosed? && e.caseId == c.caseId;
  }

  /** What is done was done for `c` itself, since no other event makes the same claim. */
  lemma DoneIsFollowed(sim: Simulation, base: OpsDb, s: set<Event>, t: set<Event>, d: Date, c: Event, k: Step)
    requires OnTime(sim, s, d) && s <= t && Consistent(base, t) && c in t && IsDone(s, c, k)
    ensures IsFollowed(t, c, k)
  {
    hide Consistent, IsDone, Follows, Delay, Awaits, SameClaim;
    var e := DoneHasEvent(s, c, k);
    assert FollowedOnTheDay(sim, s, e);
    var b :| b in s && Follows(b, e) && Awaits(sim, b, k) && e.date == b.date + Delay(sim, b, k);
    ConsistentIsUnique(base, t, b, c);
    assert e in t;
  }

  lemma DateKeepsTime(sim: Simulation, base: OpsDb, d: Date, s: set<Event>, t: set<Event>)
    requires OnTime(sim, s, d - 1) && s <= t && Consistent(base, t) && AddsWhatIsDue(sim, d, s, t)
    requires forall e :: e in t && e !in s ==> e.date == d
    ensures OnTime(sim, t, d)
  {
    hide Consistent, IsDone, Delay, Awaits, Follows, IsFollowed;
    forall c, k | c in t && Due(sim, d, c, k) ensures IsFollowed(t, c, k) {
      if IsDone(s, c, k) { DoneIsFollowed(sim, base, s, t, d - 1, c, k); }
    }
    forall e | e in t && !e.OrderCreated? ensures FollowedOnTheDay(sim, t, e) {
      if e in s {
        assert FollowedOnTheDay(sim, s, e);
        var c :| c in s && Follows(c, e) && Awaits(sim, c, StepOf(e)) && TellsDelay(e, Delay(sim, c, StepOf(e)))
            && e.date == c.date + Delay(sim, c, StepOf(e));
        assert c in t;
      } else {
        assert IsPlannedFor(sim, d, s, t, e);
        var c :| c in t && Follows(c, e) && Due(sim, d, c, StepOf(e)) && !IsDone(s, c, StepOf(e))
            && TellsDelay(e, Delay(sim, c, StepOf(e)));
        if c in s && Due(sim, d - 1, c, StepOf(e)) { FollowedIsDone(s, c, StepOf(e)); }
        assert e.date == c.date + Delay(sim, c, StepOf(e));
      }
    }
  }

  /* ---- What each planner adds ---- */

  ghost predicate HasCause(sim: Simulation, d: Date, s: set<Event>, k: Step, done: set<int>, e: Event)
    requires !e.OrderCreated?
  {
    exists c :: c in s && Follows(c, e) && Due(sim, d, c, k) && !IsAmong(c, k, done)
      && TellsDelay(e, Delay(sim, c, k))
  }

  /** The events `x` are for what is due among `s` and not done, and for all of that. */
  ghost predicate PlansDue(sim: Simulation, d: Date, s: set<Event>, k: Step, done: set<int>, x: set<Event>) {
    && (forall e :: e in x ==> !e.OrderCreated? && StepOf(e) == k && HasCause(sim, d, s, k, done, e))
    && (forall c :: c in s && Due(sim, d, c, k) && !IsAmong(c, k, done) ==> IsFollowed(x, c, k))
  }

  lemma ShipmentsAreDue(sim: Simulation, d: Date, s: set<Event>, shipped: set<int>, next: int)
    requires Injective(sim)
    ensures PlansDue(sim, d, s, Shipping, shipped, Elements(PlanShipments(sim, d, s, shipped, next)))
  {
    hide PlanShipments, Injective, ShippableListed, Shippable, HasCause, IsFollowed, Due, IsAmong, Follows, ShipmentFor;
    var listed, made := ShippableListed(sim, d, s, shipped), PlanShipments(sim, d, s, shipped, next);
    ShipmentsMade(sim, d, s, shipped, next);
    forall e | e in Elements(made) ensures e.ShipmentCreated? && HasCause(sim, d, s, Shipping, shipped, e) {
      var i :| 0 <= i < |made| && made[i] == e;
      ShippedForOrder(sim, d, s, shipped, listed[i], next + i);
    }
    forall c | c in s && Due(sim, d, c, Shipping) && !IsAmong(c, Shipping, shipped)
      ensures IsFollowed(Elements(made), c, Shipping)
    {
      OrderIsShippable(sim, d, shipped, c);
      assert c in Elements(listed);
      var i :| 0 <= i < |listed| && listed[i] == c;
      ShippedForOrder(sim, d, s, shipped, c, next + i);
      FollowerIsThere(Elements(made), c, made[i], Shipping);
    }
  }

  function ShipmentFor(sim: Simulation, d: Date, order: Event, id: int): (e: Event)
    requires order.OrderCreated?
    ensures e.ShipmentCreated?
  {
    ShipmentCreated(d, id, order.orderId, order.date, ShipmentDelay(sim, order))
  }

  lemma ShipmentsMade(sim: Simulation, d: Date, s: set<Event>, shipped: set<int>, next: int)
    requires Injective(sim)
    ensures var listed, made := ShippableListed(sim, d, s, shipped), PlanShipments(sim, d, s, shipped, next);
      && (forall c :: c in s && Shippable(sim, d, shipped, c) ==> c in Elements(listed))
      && |made| == |listed| && forall i :: 0 <= i < |listed| ==> made[i] == ShipmentFor(sim, d, listed[i], next + i)
  {
    var eligible := set e | e in s && Shippable(sim, d, shipped, e);
    SortedSetListsTheSet(eligible, sim.eventId);
    hide Shippable, Injective, SortedSet;
  }

  lemma OrderIsShippable(sim: Simulation, d: Date, shipped: set<int>, c: Event)
    ensures Shippable(sim, d, shipped, c) <==> Due(sim, d, c, Shipping) && !IsAmong(c, Shipping, shipped)
  {
  }

  lemma ShippedForOrder(sim: Simulation, d: Date, s: set<Event>, shipped: set<int>, c: Event, id: int)
    requires c in s && Shippable(sim, d, shipped, c)
    ensures Follows(c, ShipmentFor(sim, d, c, id))
    ensures HasCause(sim, d, s, Shipping, shipped, ShipmentFor(sim, d, c, id))
  {
    OrderIsShippable(sim, d, shipped, c);
    assert Follows(c, ShipmentFor(sim, d, c, id));
  }

  lemma CauseIsThere(sim: Simulation, d: Date, s: set<Event>, k: Step, done: set<int>, c: Event, e: Event)
    requires c in s && !e.OrderCreated? && Follows(c, e) && Due(sim, d, c, k) && !IsAmong(c, k, done)
    requires TellsDelay(e, Delay(sim, c, k))
    ensures HasCause(sim, d, s, k, done, e)
  {
  }

  lemma FollowerIsThere(s: set<Event>, c: Event, e: Event, k: Step)
    requires e in s && !e.OrderCreated? && StepOf(e) == k && Follows(c, e)
    ensures IsFollowed(s, c, k)
  {
  }

  lemma InvoicesAreDue(sim: Simulation, d: Date, s: set<Event>, invoiced: set<int>)
    ensures PlansDue(sim, d, s, Billing, invoiced, PlanInvoices(sim, d, s, invoiced))
  {
    hide InvoiceDelay, HasCause, IsFollowed;
    var x := PlanInvoices(sim, d, s, invoiced);
    forall e | e in x ensures e.InvoiceCreated? && HasCause(sim, d, s, Billing, invoiced, e) {
      var c :| c in s && Billable(sim, d, invoiced, c) && InvoiceFor(sim, d, c) == e;
      CauseIsThere(sim, d, s, Billing, invoiced, c, e);
    }
    forall c | c in s && Due(sim, d, c, Billing) && c.orderId !in invoiced ensures IsFollowed(x, c, Billing) {
      FollowerIsThere(x, c, InvoiceFor(sim, d, c), Billing);
    }
  }

  lemma DeliveriesAreDue(sim: Simulation, d: Date, s: set<Event>, delivered: set<int>)
    ensures PlansDue(sim, d, s, Delivering, delivered, PlanDeliveries(sim, d, s, delivered))
  {
    hide DeliveryDelay, HasCause, IsFollowed;
    var x := PlanDeliveries(sim, d, s, delivered);
    forall e | e in x ensures e.ShipmentDelivered? && HasCause(sim, d, s, Delivering, delivered, e) {
      var c :| c in s && Deliverable(sim, d, delivered, c) && DeliveryFor(sim, d, c) == e;
      CauseIsThere(sim, d, s, Delivering, delivered, c, e);
    }
    forall c | c in s && Due(sim, d, c, Delivering) && c.shipmentId !in delivered ensures IsFollowed(x, c, Delivering) {
      FollowerIsThere(x, c, DeliveryFor(sim, d, c), Delivering);
    }
  }

  lemma OpeningsAreDue(sim: Simulation, d: Date, s: set<Event>, next: int)
    requires Injective(sim)
    ensures PlansDue(sim, d, s, Opening, OpenedShipments(s), Elements(PlanOpenings(sim, d, s, next)))
  {
    hide PlanOpenings, Injective, ComplainableListed, Complainable, HasCause, IsFollowed, Due, IsAmong, Follows;
    hide OpeningFor, OpenedShipments;
    var already := OpenedShipments(s);
    var listed, made := ComplainableListed(sim, d, s), PlanOpenings(sim, d, s, next);
    OpeningsMade(sim, d, s, next);
    forall e | e in Elements(made) ensures e.CaseOpened? && HasCause(sim, d, s, Opening, already, e) {
      var i :| 0 <= i < |made| && made[i] == e;
      OpenedForDelivery(sim, d, s, already, listed[i], next + i);
    }
    forall c | c in s && Due(sim, d, c, Opening) && !IsAmong(c, Opening, already)
      ensures IsFollowed(Elements(made), c, Opening)
    {
      DeliveryIsComplainable(sim, d, already, c);
      assert c in Elements(listed);
      var i :| 0 <= i < |listed| && listed[i] == c;
      OpenedForDelivery(sim, d, s, already, c, next + i);
      FollowerIsThere(Elements(made), c, made[i], Opening);
    }
  }

  function OpeningFor(d: Date, delivery: Event, id: int): (e: Event)
    requires delivery.ShipmentDelivered?
    ensures e.CaseOpened?
  {
    CaseOpened(d, id, delivery.shipmentId, delivery.orderId)
  }

  lemma OpeningsMade(sim: Simulation, d: Date, s: set<Event>, next: int)
    requires Injective(sim)
    ensures var listed, made := ComplainableListed(sim, d, s), PlanOpenings(sim, d, s, next);
      && (forall c :: c in s && Complainable(sim, d, OpenedShipments(s), c) ==> c in Elements(listed))
      && |made| == |listed| && forall i :: 0 <= i < |listed| ==> made[i] == OpeningFor(d, listed[i], next + i)
  {
    var eligible := set e | e in s && Complainable(sim, d, OpenedShipments(s), e);
    SortedSetListsTheSet(eligible, sim.eventId);
    hide Complainable, Injective, SortedSet, OpenedShipments;
  }

  lemma DeliveryIsComplainable(sim: Simulation, d: Date, already: set<int>, c: Event)
    ensures Complainable(sim, d, already, c) <==> Due(sim, d, c, Opening) && !IsAmong(c, Opening, already)
  {
    ComplaintsOpenCases(sim, c);
    hide OpensCase, Complains;
  }

  lemma OpenedForDelivery(sim: Simulation, d: Date, s: set<Event>, already: set<int>, c: Event, id: int)
    requires c in s && Complainable(sim, d, already, c)
    ensures Follows(c, OpeningFor(d, c, id)) && HasCause(sim, d, s, Opening, already, OpeningFor(d, c, id))
  {
    DeliveryIsComplainable(sim, d, already, c);
    assert Follows(c, OpeningFor(d, c, id));
  }

  lemma ResolutionsAreDue(sim: Simulation, d: Date, s: set<Event>, resolved: set<int>)
    ensures PlansDue(sim, d, s, Resolving, resolved, PlanResolutions(sim, d, s, resolved))
  {
    hide ResolutionDelay, HasCause, IsFollowed;
    var x := PlanResolutions(sim, d, s, resolved);
    forall e | e in x ensures e.CaseResolved? && HasCause(sim, d, s, Resolving, resolved, e) {
      var c :| c in s && Resolvable(sim, d, resolved, c) && CaseResolved(d, c.caseId) == e;
      CauseIsThere(sim, d, s, Resolving, resolved, c, e);
    }
    forall c | c in s && Due(sim, d, c, Resolving) && c.caseId !in resolved ensures IsFollowed(x, c, Resolving) {
      FollowerIsThere(x, c, CaseResolved(d, c.caseId), Resolving);
    }
  }

  lemma ClosuresAreDue(sim: Simulation, d: Date, s: set<Event>)
    ensures PlansDue(sim, d, s, Closing, ClosedCases(s), PlanClosures(sim, d, s))
  {
    hide ClosureDelay, HasCause, IsFollowed;
    var x := PlanClosures(sim, d, s);
    forall e | e in x ensures e.CaseClosed? && HasCause(sim, d, s, Closing, ClosedCases(s), e) {
      var c :| c in s && Closable(sim, d, ClosedCases(s), c) && CaseClosed(d, c.caseId) == e;
      CauseIsThere(sim, d, s, Closing, ClosedCases(s), c, e);
    }
    forall c | c in s && Due(sim, d, c, Closing) && c.caseId !in ClosedCases(s) ensures IsFollowed(x, c, Closing) {
      FollowerIsThere(x, c, CaseClosed(d, c.caseId), Closing);
    }
  }

  /* ---- What a date adds ---- */

  /** One planner's part of a date: what it did not look at is not due yet. */
  lemma StepIsAdded(
    sim: Simulation, d: Date, s: set<Event>, t: set<Event>, k: Step, pool: set<Event>, x: set<Event>)
    requires PlansDue(sim, d, pool, k, DoneIds(s, k), x) && pool <= t && x <= t
    requires forall c :: c in t && c !in pool ==> !Due(sim, d, c, k)
    ensures forall e :: e in x ==> !e.OrderCreated? && StepOf(e) == k && IsPlannedFor(sim, d, s, t, e)
    ensures forall c :: c in t && Due(sim, d, c, k) && !IsDone(s, c, k) ==> IsFollowed(t, c, k)
  {
    hide Due, Follows, DoneIds, IsAmong, IsFollowed;
    forall e | e in x ensures IsPlannedFor(sim, d, s, t, e) {
      assert HasCause(sim, d, pool, k, DoneIds(s, k), e);
      var c :| c in pool && Follows(c, e) && Due(sim, d, c, k) && !IsAmong(c, k, DoneIds(s, k))
          && TellsDelay(e, Delay(sim, c, k));
      assert c in t;
    }
    forall c | c in t && Due(sim, d, c, k) && !IsDone(s, c, k) ensures IsFollowed(t, c, k) {
      MoreEventsFollow(x, t, c, k);
    }
  }

  lemma OrdersLeaveDone(s: set<Event>, x: set<Event>)
    requires forall e :: e in x ==> e.OrderCreated?
    ensures forall k :: DoneIds(s + x, k) == DoneIds(s, k)
  {
    forall k ensures DoneIds(s + x, k) == DoneIds(s, k) {
      match k
      case Shipping => assert ShippedOrders(s + x) == ShippedOrders(s);
      case Billing => assert InvoicedOrders(s + x) == InvoicedOrders(s);
      case Delivering => assert DeliveredShipments(s + x) == DeliveredShipments(s);
      case Opening => assert OpenedShipments(s + x) == OpenedShipments(s);
      case Resolving => assert ResolvedCases(s + x) == ResolvedCases(s);
      case Closing => assert ClosedCases(s + x) == ClosedCases(s);
    }
  }

  lemma FulfillmentLeavesCases(s: set<Event>, x: set<Event>)
    requires forall e :: e in x ==> FulfillmentKind(e)
    ensures OpenedShipments(s + x) == OpenedShipments(s) && ResolvedCases(s + x) == ResolvedCases(s)
    ensures ClosedCases(s + x) == ClosedCases(s)
  {
  }

  predicate OfFulfillment(k: Step) { k.Shipping? || k.Billing? || k.Delivering? }

  /** Shipments, invoices and deliveries, planned with the date's orders recorded. */
  lemma FulfillmentIsAdded(sim: Simulation, d: Date, base: OpsDb, s: set<Event>, s1: set<Event>, t: set<Event>)
    requires Injective(sim) && forall k :: DoneIds(s1, k) == DoneIds(s, k)
    requires s1 + FulfillmentOf(sim, d, base, s1, s1) <= t
    requires forall e :: e in t && e !in s1 + FulfillmentOf(sim, d, base, s1, s1) ==> TouchesCase(e)
    ensures forall e :: e in FulfillmentOf(sim, d, base, s1, s1) ==>
      !e.OrderCreated? && IsPlannedFor(sim, d, s, t, e)
    ensures forall c, k :: c in t && OfFulfillment(k) && Due(sim, d, c, k) && !IsDone(s, c, k) ==>
      IsFollowed(t, c, k)
  {
    var f := FulfillmentBy(base, s1);
    var made := Elements(PlanShipments(sim, d, s1, f.shipped, f.nextShipmentId));
    var invoices := PlanInvoices(sim, d, s1 + made, f.invoiced);
    var deliveries := PlanDeliveries(sim, d, s1 + made, f.delivered);
    assert f.shipped == DoneIds(s1, Shipping) && f.invoiced == DoneIds(s1, Billing)
        && f.delivered == DoneIds(s1, Delivering);
    assert FulfillmentOf(sim, d, base, s1, s1) == made + invoices + deliveries;
    ShipmentsAreDue(sim, d, s1, f.shipped, f.nextShipmentId);
    InvoicesAreDue(sim, d, s1 + made, f.invoiced);
    DeliveriesAreDue(sim, d, s1 + made, f.delivered);
    hide PlanShipments, PlanInvoices, PlanDeliveries, FulfillmentOf, FulfillmentBy, DoneIds, IsPlannedFor, HasCause;
    hide IsAmong, IsFollowed, Delay, Follows, Injective;
    forall c | c in t && c !in s1 + made ensures !Due(sim, d, c, Billing) && !Due(sim, d, c, Delivering) {}
    forall c | c in t && c !in s1 ensures !Due(sim, d, c, Shipping) {}
    hide PlansDue, Due;
    StepIsAdded(sim, d, s, t, Shipping, s1, made);
    StepIsAdded(sim, d, s, t, Billing, s1 + made, invoices);
    StepIsAdded(sim, d, s, t, Delivering, s1 + made, deliveries);
  }

  /** Openings, resolutions and closures, planned with all of these recorded. */
  lemma SupportIsAdded(sim: Simulation, d: Date, base: OpsDb, s: set<Event>, s2: set<Event>)
    requires Injective(sim)
    requires OpenedShipments(s2) == OpenedShipments(s) && ResolvedCases(s2) == ResolvedCases(s)
    requires ClosedCases(s2) == ClosedCases(s)
    ensures var t := s2 + SupportOf(sim, d, base, s2, s2);
      && (forall e :: e in SupportOf(sim, d, base, s2, s2) ==> !e.OrderCreated? && IsPlannedFor(sim, d, s, t, e))
      && (forall c, k :: c in t && !OfFulfillment(k) && Due(sim, d, c, k) && !IsDone(s, c, k) ==>
            IsFollowed(t, c, k))
  {
    hide PlanOpenings, PlanResolutions, PlanClosures, PlanSupport, SupportOf, DoneIds, IsPlannedFor, PlansDue, Due;
    hide IsAmong, IsFollowed, Injective, NextId, CaseIds, OpenedShipments, ResolvedCases, ClosedCases;
    var next := NextId(base.cases.Keys + CaseIds(s2));
    var made := Elements(PlanOpenings(sim, d, s2, next));
    var resolutions, closures := PlanResolutions(sim, d, s2 + made, ResolvedCases(s2)), PlanClosures(sim, d, s2);
    var t := s2 + SupportOf(sim, d, base, s2, s2);
    SupportParts(sim, d, base, s2);
    SupportIds(s);
    OpeningsAreDue(sim, d, s2, next);
    ResolutionsAreDue(sim, d, s2 + made, ResolvedCases(s2));
    ClosuresAreDue(sim, d, s2);
    forall c | c in t && c !in s2 ensures !Due(sim, d, c, Opening) && !Due(sim, d, c, Closing) {
      NotDueToday(sim, d, c);
    }
    forall c | c in t && c !in s2 + made ensures !Due(sim, d, c, Resolving) {
      NotDueToday(sim, d, c);
    }
    StepIsAdded(sim, d, s, t, Opening, s2, made);
    StepIsAdded(sim, d, s, t, Resolving, s2 + made, resolutions);
    StepIsAdded(sim, d, s, t, Closing, s2, closures);
  }

  lemma SupportIds(s: set<Event>)
    ensures OpenedShipments(s) == DoneIds(s, Opening) && ResolvedCases(s) == DoneIds(s, Resolving)
    ensures ClosedCases(s) == DoneIds(s, Closing)
  {
  }

  /** A case event of a date leads to nothing on that date, but for an opening. */
  lemma NotDueToday(sim: Simulation, d: Date, c: Event)
    requires c.date == d && TouchesCase(c)
    ensures !Due(sim, d, c, Opening) && !Due(sim, d, c, Closing) && (!c.CaseOpened? ==> !Due(sim, d, c, Resolving))
  {
  }

  lemma SupportParts(sim: Simulation, d: Date, base: OpsDb, s: set<Event>)
    requires Injective(sim)
    ensures var made := Elements(PlanOpenings(sim, d, s, NextId(base.cases.Keys + CaseIds(s))));
      var resolutions, closures := PlanResolutions(sim, d, s + made, ResolvedCases(s)), PlanClosures(sim, d, s);
      && SupportOf(sim, d, base, s, s) == made + resolutions + closures
      && (forall e :: e in made ==> e.CaseOpened? && e.date == d)
      && (forall e :: e in resolutions + closures ==> !e.CaseOpened? && TouchesCase(e) && e.date == d)
  {
    hide NextId, Injective, ComplainableListed, OpenedShipments, Resolvable, Closable, ResolvedCases, CaseIds;
  }

  lemma DateAddsWhatIsDue(c: Context)
    requires Ready(c)
    ensures AddsWhatIsDue(c.sim, c.d, c.start.ledger, Ledger(c, 3))
  {
    hide Reflects, Consistent, SeedDb, PlanDay, Recorded, FulfillmentOf, SupportOf, Batches, DayStarts;
    hide IsDone, Due, IsFollowed, IsPlannedFor, DoneIds, OpenedShipments, ResolvedCases, ClosedCases, Injective;
    var s, p := c.start.ledger, Plan(c);
    var s1, s2, t := Ledger(c, 1), Ledger(c, 2), Ledger(c, 3);
    LedgerIsConsistent(c, 3);
    KindsOfBatches(c.d, p);
    PartsOfTheDay(c);
    OrdersLeaveDone(s, Elements(p.orders));
    FulfillmentLeavesCases(s1, p.fulfillment);
    SupportIds(s1);
    SupportIds(s);
    FulfillmentIsAdded(c.sim, c.d, c.base, s, s1, t);
    SupportIsAdded(c.sim, c.d, c.base, s, s2);
  }

  lemma KindsOfBatches(d: Date, p: DayPlan)
    requires Batches(d, p)
    ensures forall e :: e in Elements(p.orders) ==> e.OrderCreated?
    ensures forall e :: e in p.fulfillment ==> FulfillmentKind(e)
    ensures forall e :: e in p.support ==> TouchesCase(e)
  {
  }

  lemma PartsOfTheDay(c: Context)
    requires Ready(c)
    ensures Injective(c.sim) && Plan(c).fulfillment == FulfillmentOf(c.sim, c.d, c.base, Ledger(c, 1), Ledger(c, 1))
    ensures Plan(c).support == SupportOf(c.sim, c.d, c.base, Ledger(c, 2), Ledger(c, 2))
  {
    hide Reflects, Consistent, SeedDb, FulfillmentOf, SupportOf, OrdersOf, Recorded;
    RecordedStepwise(c.start.ledger, Plan(c));
  }

  /* ---- All dates ---- */

  lemma {:induction false} ThroughIsOnTime(s: OpsRun.Setting, d: Date)
    requires OpsRun.Sound(s) && d >= s.baseline
    ensures OnTime(s.sim, OpsRun.Through(s, d).ledger, d)
    decreases d - s.baseline
  {
    hide Reflects, Consistent, SeedDb, PlanDay, Recorded, Injective, OnTime, AddsWhatIsDue, Reference;
    if d == s.baseline {
      NothingIsDue(s.sim, d);
    } else {
      ThroughIsOnTime(s, d - 1);
      var c := OpsRun.DateContext(s, d);
      LedgerIsConsistent(c, 3);
      DateAddsWhatIsDue(c);
      OpsRun.ThroughIsReference(s, d);
      DateKeepsTime(s.sim, s.base, d, c.start.ledger, Ledger(c, 3));
    }
  }

  lemma NothingIsDue(sim: Simulation, d: Date)
    ensures OnTime(sim, {}, d)
  {
  }

  /** Every event of the ledger follows its cause, to the day, and records the days it took. */
  lemma EveryEventIsInTime(s: OpsRun.Setting, d: Date, e: Event)
    requires OpsRun.Sound(s) && d >= s.baseline && e in OpsRun.Through(s, d).ledger && !e.OrderCreated?
    ensures InTime(s.sim, OpsRun.Through(s, d).ledger, e)
  {
    ThroughIsOnTime(s, d);
    hide *;
    EventIsInTime(s.sim, OpsRun.Through(s, d).ledger, d, e);
  }

  lemma EventIsInTime(sim: Simulation, s: set<Event>, d: Date, e: Event)
    requires OnTime(sim, s, d) && e in s && !e.OrderCreated?
    ensures InTime(sim, s, e)
  {
    hide Delay, Wait, Awaits, Follows;
    assert FollowedOnTheDay(sim, s, e);
    var c :| c in s && Follows(c, e) && Awaits(sim, c, StepOf(e)) && TellsDelay(e, Delay(sim, c, StepOf(e)))
        && e.date == c.date + Delay(sim, c, StepOf(e));
    DelayIsWait(sim, c, StepOf(e));
  }

  /** And what should follow an event has followed exactly when its day has come. */
  lemma NothingIsMissed(s: OpsRun.Setting, d: Date, c: Event, k: Step)
    requires OpsRun.Sound(s) && d >= s.baseline && c in OpsRun.Through(s, d).ledger && Awaits(s.sim, c, k)
    ensures IsFollowed(OpsRun.Through(s, d).ledger, c, k) <==> c.date + Wait(s.sim, c, k) <= d
  {
    var ledger := OpsRun.Through(s, d).ledger;
    ThroughIsOnTime(s, d);
    DelayIsWait(s.sim, c, k);
    assert Consistent(s.base, ledger) && forall e :: e in ledger ==> e.date <= d;
    hide *;
    FollowedExactly(s.sim, s.base, ledger, d, c, k);
  }

  lemma FollowedExactly(sim: Simulation, base: OpsDb, s: set<Event>, d: Date, c: Event, k: Step)
    requires OnTime(sim, s, d) && Consistent(base, s) && c in s && Awaits(sim, c, k)
    requires forall e :: e in s ==> e.date <= d
    ensures IsFollowed(s, c, k) <==> c.date + Delay(sim, c, k) <= d
  {
    hide Delay, Awaits, Consistent, Follows, SameClaim, TellsDelay;
    if c.date + Delay(sim, c, k) <= d { assert Due(sim, d, c, k); }
    if IsFollowed(s, c, k) {
      var e :| e in s && !e.OrderCreated? && StepOf(e) == k && Follows(c, e);
      assert FollowedOnTheDay(sim, s, e);
      var b :| b in s && Follows(b, e) && Awaits(sim, b, k) && e.date == b.date + Delay(sim, b, k);
      FollowersShareClaim(b, c, e);
      ConsistentIsUnique(base, s, b, c);
    }
  }

  lemma FollowersShareClaim(b: Event, c: Event, e: Event)
    requires !e.OrderCreated? && Follows(b, e) && Follows(c, e)
    ensures SameClaim(b, c)
  {
  }

  /* ---- Orders ---- */

  predicate ConvertsLate(sim: Simulation, w: CrmEvent) {
    sim.digest("ops", w.eventId).1 as real < sim.delayedCrmToOps * 255.0
  }

  /** The days until a win's order. */
  function WinWait(sim: Simulation, w: CrmEvent): nat {
    if ConvertsLate(sim, w) then sim.crmToOps.maximum + 1 else Turn(sim.crmToOps, sim.digest("ops", w.eventId).0)
  }

  /** The order is the one planned for that event. */
  predicate IsFor(o: Event, w: CrmEvent)
    requires o.OrderCreated?
  {
    w.account == Some(o.customerId) && w.opportunity == o.opportunity && w.date == o.closedWon
  }

  /** CRM's events come on their date, and stay. */
  ghost predicate ArriveInTime(s: OpsRun.Setting) {
    && (forall d, w :: w in s.crm(d) ==> s.baseline < w.date <= d)
    && (forall d, e, w :: w in s.crm(d) && w.date <= e <= d ==> w in s.crm(e))
  }

  predicate PlannedAfter(s: OpsRun.Setting, o: Event, w: CrmEvent)
    requires o.OrderCreated?
  {
    o.delay == ConversionDelay(s.sim, w) && w.date + o.delay <= o.date
  }

  /** The order came those days after its win, and has them on record. */
  ghost predicate OrderInTime(s: OpsRun.Setting, o: Event)
    requires o.OrderCreated?
  {
    exists w :: w in s.crm(o.date) && w.closedWon && IsFor(o, w) && o.delay == WinWait(s.sim, w)
      && w.date + o.delay <= o.date && (ArriveInTime(s) ==> w.date + o.delay == o.date)
  }

  lemma ConversionIsWait(sim: Simulation, w: CrmEvent)
    ensures ConversionDelay(sim, w) == WinWait(sim, w)
  {
    var b := sim.digest("ops", w.eventId).1;
    assert Share(b) < sim.delayedCrmToOps <==> b as real < sim.delayedCrmToOps * 255.0;
    InWindowTakesTurns(sim.crmToOps, sim.digest("ops", w.eventId).0);
  }

  lemma {:induction false} OrderHasWin(sim: Simulation, d: Date, won: seq<CrmEvent>, next: int, o: Event)
    returns (w: CrmEvent)
    requires o in MakeOrders(sim, d, won, next)
    ensures w in won && o.OrderCreated? && IsFor(o, w) && o.date == d && o.delay == ConversionDelay(sim, w)
  {
    hide ConversionDelay;
    if o in MakeOrders(sim, d, won[1..], next + 1) {
      w := OrderHasWin(sim, d, won[1..], next + 1, o);
    } else {
      w := won[0];
    }
  }

  lemma PlannedOrderHasWin(sim: Simulation, d: Date, crm: set<CrmEvent>, converted: set<string>, next: int, o: Event)
    returns (w: CrmEvent)
    requires DistinctKeys(crm, CrmId) && o in PlanOrders(sim, d, crm, converted, next)
    ensures w in crm && Convertible(sim, d, converted, w)
    ensures o.OrderCreated? && IsFor(o, w) && o.date == d && o.delay == ConversionDelay(sim, w)
  {
    hide MakeOrders, Convertible, IsFor, ConversionDelay;
    var due := set e | e in crm && Convertible(sim, d, converted, e);
    SortedSetListsTheSet(due, CrmId);
    w := OrderHasWin(sim, d, SortedSet(due, CrmId), next, o);
    assert w in Elements(SortedSet(due, CrmId));
  }

  /** The order a date plans is for a win of its own opportunity, not ordered before. */
  lemma NewOrderHasWin(s: OpsRun.Setting, d: Date, o: Event) returns (w: CrmEvent)
    requires OpsRun.Sound(s) && d > s.baseline
    requires o in OpsRun.Through(s, d).ledger && o !in OpsRun.Through(s, d - 1).ledger && o.OrderCreated?
    ensures w in s.crm(d) && w.closedWon && IsFor(o, w) && PlannedAfter(s, o, w) && o.date == d
    ensures w.opportunity !in ConvertedBy(s.base, OpsRun.Through(s, d - 1).ledger, Refs(s.crm(d)))
  {
    hide Reflects, Consistent, SeedDb, Injective, Reference, PlanOrders, ConvertedBy, FulfillmentOf, SupportOf, Batches;
    hide OpsRun.Through;
    var c := OpsRun.DateContext(s, d);
    LedgerIsConsistent(c, 3);
    KindsOfBatches(c.d, Plan(c));
    OpsRun.ThroughIsReference(s, d);
    assert o in Plan(c).orders;
    w := PlannedOrderHasWin(
      s.sim, d, s.crm(d), ConvertedBy(s.base, c.start.ledger, Refs(s.crm(d))),
      NextId(s.base.orders.Keys + OrderIds(c.start.ledger)), o);
  }

  /** Were the win due the day before, it would have been ordered then. */
  lemma NotDueBefore(s: OpsRun.Setting, d: Date, w: CrmEvent)
    requires OpsRun.Sound(s) && d > s.baseline && ArriveInTime(s) && w in s.crm(d) && w.closedWon && w.account.Some?
    requires w.opportunity !in ConvertedBy(s.base, OpsRun.Through(s, d - 1).ledger, Refs(s.crm(d)))
    ensures w.date + ConversionDelay(s.sim, w) >= d
  {
    hide OpsRun.Sound, OpsRun.Through, ConversionDelay, ConvertedBy, OpsFromCrm.IsOrdered;
    if w.date + ConversionDelay(s.sim, w) < d {
      assert w in s.crm(d - 1);
      OpsFromCrm.EveryDueWinIsOrdered(s, d - 1, w);
      OrderedIsConverted(s.base, OpsRun.Through(s, d - 1).ledger, s.crm(d), w);
    }
  }

  lemma OrderedIsConverted(base: OpsDb, s: set<Event>, crm: set<CrmEvent>, w: CrmEvent)
    requires OpsFromCrm.IsOrdered(base, s, w) && w in crm
    ensures w.opportunity in ConvertedBy(base, s, Refs(crm))
  {
    assert w.opportunity in Refs(crm);
  }

  /** Every order of the ledger is for a win, to the day after it. */
  lemma {:induction false} OrdersHaveWins(s: OpsRun.Setting, d: Date, o: Event)
    requires OpsRun.Sound(s) && d >= s.baseline && o in OpsRun.Through(s, d).ledger && o.OrderCreated?
    ensures OrderInTime(s, o)
    decreases d - s.baseline
  {
    hide OpsRun.Sound, Reflects, Consistent;
    if d > s.baseline {
      if o in OpsRun.Through(s, d - 1).ledger {
        OrdersHaveWins(s, d - 1, o);
      } else {
        hide OpsRun.Through, ConversionDelay, ConvertedBy, WinWait, ArriveInTime;
        var w := NewOrderHasWin(s, d, o);
        ConversionIsWait(s.sim, w);
        if ArriveInTime(s) { NotDueBefore(s, d, w); }
      }
    }
  }

  /** And once a win's day has come, its opportunity has its order. */
  lemma NoWinIsMissed(s: OpsRun.Setting, d: Date, w: CrmEvent)
    requires OpsRun.Sound(s) && d > s.baseline && w in s.crm(d) && w.closedWon && w.account.Some?
    requires w.date + WinWait(s.sim, w) <= d
    ensures OpsFromCrm.IsOrdered(s.base, OpsRun.Through(s, d).ledger, w)
  {
    hide OpsRun.Sound, OpsRun.Through, ConversionDelay, OpsFromCrm.IsOrdered;
    ConversionIsWait(s.sim, w);
    OpsFromCrm.EveryDueWinIsOrdered(s, d, w);
  }

  /** What CRM records on dates after the baseline arrives in time. */
  lemma CrmArrivesInTime(s: OpsRun.Setting, f: OpsFromCrm.Feed, recorded: map<Date, seq<CrmStages.StageEvent>>)
    requires forall d :: s.crm(d) == OpsFromCrm.CrmThrough(f, recorded, d)
    requires forall d :: d in recorded ==> d > s.baseline
    ensures ArriveInTime(s)
  {
  }

  /* ---- From the deals themselves ---- */

  /** A deal CRM recorded as won, of a customer Ops knows a number for, has its order when its day has
      come; its event names the day. */
  lemma WonDealIsOrdered(
    s: OpsRun.Setting, f: OpsFromCrm.Feed, recorded: map<Date, seq<CrmStages.StageEvent>>, d: Date, won: Date, id: int)
    requires OpsRun.Sound(s) && d > s.baseline && s.crm(d) == OpsFromCrm.CrmThrough(f, recorded, d)
    requires won in recorded && CrmStages.Changed(id, CrmStages.ClosedWon) in recorded[won] && f.account(id).Some?
    requires var w := CrmEvent(
      f.eventId(won, CrmStages.Changed(id, CrmStages.ClosedWon)), won, true, f.name(id), f.account(id));
      won + WinWait(s.sim, w) <= d
    ensures f.name(id) in Opportunities(OpsRun.Through(s, d).ledger) || SeedConverted(s.base, f.name(id))
  {
    var e := CrmStages.Changed(id, CrmStages.ClosedWon);
    var w := CrmEvent(f.eventId(won, e), won, true, f.name(id), f.account(id));
    assert w == OpsFromCrm.EventOf(f, won, e);
    hide OpsRun.Sound, OpsRun.Through, WinWait;
    NoWinIsMissed(s, d, w);
  }

  /** And every order is for a deal recorded as won, under its name and for its customer. */
  lemma OrderIsForWonDeal(
    s: OpsRun.Setting, f: OpsFromCrm.Feed, recorded: map<Date, seq<CrmStages.StageEvent>>, d: Date, o: Event)
    returns (id: int)
    requires OpsRun.Sound(s) && d >= s.baseline && o in OpsRun.Through(s, d).ledger && o.OrderCreated?
    requires forall x :: s.crm(x) == OpsFromCrm.CrmThrough(f, recorded, x)
    ensures o.closedWon in recorded && CrmStages.Changed(id, CrmStages.ClosedWon) in recorded[o.closedWon]
    ensures o.opportunity == f.name(id) && f.account(id) == Some(o.customerId)
  {
    hide OpsRun.Sound, OpsRun.Through, WinWait, ArriveInTime, OpsFromCrm.CrmThrough;
    OrdersHaveWins(s, d, o);
    var w :| w in s.crm(o.date) && w.closedWon && IsFor(o, w);
    assert w in OpsFromCrm.CrmThrough(f, recorded, o.date);
    id := WinIsRecorded(f, recorded, o.date, w);
  }

  lemma WinIsRecorded(
    f: OpsFromCrm.Feed, recorded: map<Date, seq<CrmStages.StageEvent>>, d: Date, w: CrmEvent) returns (id: int)
    requires w in OpsFromCrm.CrmThrough(f, recorded, d) && w.closedWon
    ensures w.date in recorded && CrmStages.Changed(id, CrmStages.ClosedWon) in recorded[w.date]
    ensures w.opportunity == f.name(id) && w.account == f.account(id)
  {
    var x, e :| x in recorded && x <= d && e in recorded[x] && w == OpsFromCrm.EventOf(f, x, e);
    assert e == CrmStages.Changed(e.opportunity, CrmStages.ClosedWon);
    id := e.opportunity;
  }
}
