/** The Ops date as a state machine over its durable state, the ledger and the database.

    `OnTrack` lists the states a date passes through when it is interrupted at any point and run
    again: how many of its three batches are recorded and how many of its two transactions are
    committed.  Each step of a run, fresh or repeated, leads from one such state to another, and the
    last one is the state an uninterrupted date ends in, line ids apart. */
module OpsTrack {
  import opened Wrappers
  import opened Ordering
  import opened OpsEvents
  import opened OpsTables
  import opened OpsDay
  import opened OpsConsistency
  import opened OpsReplay
  import opened OpsReplan

  datatype Durable = Durable(ledger: set<Event>, db: OpsDb)

  /** A date, the CRM events through it, and the durable state it starts from. */
  datatype Context = Context(sim: Simulation, base: OpsDb, d: Date, crm: set<CrmEvent>, start: Durable)

  ghost predicate Ready(c: Context) {
    && SeedDb(c.sim, c.base)
    && DayStarts(c.sim, c.d, c.crm, c.base, c.start.ledger)
    && Reflects(c.sim, c.base, c.start.ledger, c.start.db)
  }

  ghost function Plan(c: Context): DayPlan
    requires Ready(c)
  {
    PlanDay(c.sim, c.d, c.crm, c.base, c.start.ledger)
  }

  /** The ledger with the first `r` batches recorded. */
  ghost function Ledger(c: Context, r: nat): set<Event>
    requires Ready(c) && r <= 3
  {
    Recorded(c.start.ledger, Plan(c), r)
  }

  /** The events behind the database after `a` of the two transactions. */
  ghost function Behind(c: Context, a: nat): set<Event>
    requires Ready(c) && a <= 2
  {
    Ledger(c, if a == 0 then 0 else if a == 1 then 1 else 3)
  }

  ghost function Listed(sim: Simulation, s: set<Event>): (r: seq<Event>)
    requires Injective(sim)
    ensures Elements(r) == s && NoRepeats(r)
  {
    SortedSetListsTheSet(s, sim.eventId);
    StrictlySortedHasNoRepeats(SortedSet(s, sim.eventId), sim.eventId);
    SortedSet(s, sim.eventId)
  }

  ghost function Committed(sim: Simulation, db: OpsDb, batch: seq<Event>): OpsDb {
    match ApplySorted(sim, db, batch)
    case Ok(after) => after
    case Err(_) => db
  }

  /** The database an uninterrupted date has after `a` transactions: it applies the orders as
      planned, and the rest of the date's events as the ledger lists them. */
  ghost function Reference(c: Context, a: nat): OpsDb
    requires Ready(c) && a <= 2
  {
    if a == 0 then c.start.db
    else if a == 1 then Committed(c.sim, c.start.db, Plan(c).orders)
    else Committed(c.sim, Reference(c, 1), Listed(c.sim, Downstream(Ledger(c, 3), c.d)))
  }

  predicate Reachable(r: nat, a: nat) {
    r <= 3 && a <= 2 && (a == 0 ==> r <= 1) && (a == 1 ==> r >= 1) && (a == 2 ==> r == 3)
  }

  ghost predicate OnTrack(c: Context, now: Durable, r: nat, a: nat)
    requires Ready(c)
  {
    && Reachable(r, a)
    && now.ledger == Ledger(c, r)
    && Reflects(c.sim, c.base, Behind(c, a), now.db)
    && SameIds(now.db, Reference(c, a))
  }

  lemma LedgerIsConsistent(c: Context, r: nat)
    requires Ready(c) && r <= 3
    ensures Consistent(c.base, Ledger(c, r)) && Batches(c.d, Plan(c)) && NoRepeats(Plan(c).orders)
    ensures Ledger(c, 0) == c.start.ledger
    ensures Ledger(c, 1) == Ledger(c, 0) + Elements(Plan(c).orders)
    ensures Ledger(c, 2) == Ledger(c, 1) + Plan(c).fulfillment
    ensures Ledger(c, 3) == Ledger(c, 2) + Plan(c).support
  {
    hide Consistent, SeedDb, Reflects, Batches, PlanDay, Recorded, NoRepeats, DayStarts;
    DayIsConsistent(c.sim, c.d, c.crm, c.base, c.start.ledger);
    RecordedStepwise(c.start.ledger, Plan(c));
  }

  /** What of the date the recorded batches hold. */
  lemma DayEvents(c: Context, r: nat)
    requires Ready(c) && r <= 3
    ensures DayOrders(Ledger(c, r), c.d) == if r == 0 then {} else Elements(Plan(c).orders)
    ensures Orders(Ledger(c, r)) == Orders(c.start.ledger) + if r == 0 then {} else Elements(Plan(c).orders)
    ensures CaseIds(Ledger(c, 2)) == CaseIds(Ledger(c, 1))
    ensures Downstream(Ledger(c, 3), c.d) == Plan(c).fulfillment + Plan(c).support
    ensures Ledger(c, 3) == Ledger(c, 1) + Downstream(Ledger(c, 3), c.d)
  {
    hide Consistent, SeedDb, Reflects, Injective, PlanDay, Batches, Recorded, Downstream, DayOrders, Orders, CaseIds;
    LedgerIsConsistent(c, r);
    BatchesOfTheDay(c.start.ledger, c.d, Plan(c), r);
    RestOfTheDay(c.start.ledger, c.d, Plan(c));
  }

  lemma ReferenceReflects(c: Context, a: nat)
    requires Ready(c) && a <= 2
    ensures Reflects(c.sim, c.base, Behind(c, a), Reference(c, a))
  {
    hide Consistent, SeedDb, Reflects, PlanDay, ApplySorted, Recorded, DayOrders, NoRepeats;
    LedgerIsConsistent(c, 0);
    LedgerIsConsistent(c, 1);
    LedgerIsConsistent(c, 3);
    DayEvents(c, 3);
    hide Injective, Batches;
    if a >= 1 {
      ApplySortedReflects(c.sim, c.base, Ledger(c, 0), Plan(c).orders, c.d, c.start.db);
    }
    if a == 2 {
      ApplySortedReflects(c.sim, c.base, Ledger(c, 1), Listed(c.sim, Downstream(Ledger(c, 3), c.d)), c.d,
          Reference(c, 1));
    }
  }

  /** On track, the database differs from the uninterrupted one in line ids at most. */
  lemma OnTrackIsReference(c: Context, now: Durable, r: nat, a: nat)
    requires Ready(c) && OnTrack(c, now, r, a)
    ensures SameButLineIds(now.db, Reference(c, a))
  {
    ReferenceReflects(c, a);
    LedgerIsConsistent(c, if a == 0 then 0 else if a == 1 then 1 else 3);
    hide Consistent, Reflects, Ready, PlanDay, SameContents;
    ReflectionIsUnique(c.sim, c.base, Behind(c, a), now.db, Reference(c, a));
  }

  /* ---- The steps of a run ---- */

  lemma OrdersPlannedAgain(c: Context, r: nat, a: nat)
    requires Ready(c) && Reachable(r, a) && DayOrders(Ledger(c, r), c.d) == {}
    ensures OrdersOf(c.sim, c.d, c.crm, c.base, Behind(c, a)) == Plan(c).orders
    ensures Ledger(c, r) + Elements(Plan(c).orders) == Ledger(c, if r == 0 then 1 else r)
  {
    hide Consistent, SeedDb, Reflects, Injective, OrdersOf, Batches, Recorded, Orders, DayOrders, FulfillmentOf,
        SupportOf;
    assert Plan(c).orders == OrdersOf(c.sim, c.d, c.crm, c.base, c.start.ledger);
    hide PlanDay;
    LedgerIsConsistent(c, 0);
    if r > 0 {
      DayEvents(c, r);
      NoRepeatsLength(Plan(c).orders);
      DayEvents(c, if a == 0 then 0 else if a == 1 then 1 else 3);
      assert Orders(Behind(c, a)) == Orders(c.start.ledger);
      OrdersDependOnOrders(c.sim, c.d, c.crm, c.base, Behind(c, a), c.start.ledger);
    }
  }

  /** With no order of the date on record, planning plans the date's orders: for the first time, or
      again the empty list. */
  lemma OrdersAreRecorded(c: Context, now: Durable, r: nat, a: nat)
    requires Ready(c) && OnTrack(c, now, r, a) && DayOrders(now.ledger, c.d) == {}
    ensures var planned := PlanOrders(c.sim, c.d, c.crm, ReadConverted(now.db, Refs(c.crm)),
        NextId(now.db.orders.Keys));
      && planned == Plan(c).orders
      && OnTrack(c, Durable(now.ledger + Elements(planned), now.db), if r == 0 then 1 else r, a)
  {
    hide Consistent, SeedDb, Injective, PlanOrders, SameIds, Reference, Batches, PlanDay, OrdersReflect;
    hide TotalsReflect, ShipmentsReflect, InvoicesReflect, CasesReflect;
    hide OrderHistoryReflects, ShipmentHistoryReflects, InvoiceHistoryReflects, CaseHistoryReflects;
    ReadsOrders(c.base, Behind(c, a), now.db, Refs(c.crm));
    hide Reflects;
    OrdersPlannedAgain(c, r, a);
  }

  lemma {:induction false} AlreadyApplied(sim: Simulation, db: OpsDb, batch: seq<Event>)
    requires forall e :: e in Elements(batch) ==> sim.eventId(e) in db.markers
    ensures ApplyAll(sim, db, batch) == Ok(db)
    decreases |batch|
  {
    if |batch| > 0 {
      assert batch[0] in Elements(batch);
      assert Elements(batch[1..]) <= Elements(batch);
      AlreadyApplied(sim, db, batch[1..]);
    }
  }

  lemma SortedAlreadyApplied(c: Context, s: set<Event>, db: OpsDb, batch: seq<Event>)
    requires Ready(c) && Reflects(c.sim, c.base, s, db) && Elements(batch) <= s
    ensures ApplySorted(c.sim, db, batch) == Ok(db)
  {
    SortIsSortedPermutation(batch, Rank);
    forall e | e in Elements(batch) ensures c.sim.eventId(e) in db.markers {
      MarkedWasApplied(c.sim, c.base, s, e, db);
    }
    AlreadyApplied(c.sim, db, Sort(batch, Rank));
  }

  lemma OrderIsNew(base: OpsDb, h: set<Event>, s: set<Event>, db: OpsDb, e: Event)
    requires OrdersReflect(base, h, db) && Consistent(base, s) && h <= s && e in s && e !in h && e.OrderCreated?
    ensures e.orderId !in db.orders
  {
    if o :| o in h && o.OrderCreated? && o.orderId == e.orderId {
      ConsistentIsUnique(base, s, o, e);
    }
  }

  lemma OrderBatchIsNew(
    sim: Simulation, base: OpsDb, h: set<Event>, d: Date, db: OpsDb, batch: seq<Event>)
    requires Injective(sim) && SeedDb(sim, base) && Reflects(sim, base, h, db) && NoRepeats(batch)
    requires Consistent(base, h + Elements(batch)) && forall e :: e in h ==> e.date < d
    requires forall e :: e in Elements(batch) ==> e.date == d && e.OrderCreated?
    ensures NewOrders(sim, db, batch) && Sort(batch, Rank) == batch
  {
    var s := h + Elements(batch);
    assert forall i :: 0 <= i < |batch| ==> batch[i] in Elements(batch);
    hide Consistent, SeedDb, OrdersReflect, TotalsReflect, ShipmentsReflect, InvoicesReflect, CasesReflect;
    hide OrderHistoryReflects, ShipmentHistoryReflects, InvoiceHistoryReflects, CaseHistoryReflects;
    forall i | 0 <= i < |batch|
      ensures batch[i].OrderCreated? && batch[i].orderId !in db.orders && sim.eventId(batch[i]) !in db.markers
    {
      MarkedWasApplied(sim, base, h, batch[i], db);
      OrderIsNew(base, h, s, db, batch[i]);
    }
    forall i, j | 0 <= i < j < |batch|
      ensures batch[i].orderId != batch[j].orderId && sim.eventId(batch[i]) != sim.eventId(batch[j])
    {
      if batch[i].orderId == batch[j].orderId { ConsistentIsUnique(base, s, batch[i], batch[j]); }
    }
    SortOfEqualKeys(batch, Rank);
  }

  lemma OrdersAreNew(c: Context, db: OpsDb, batch: seq<Event>)
    requires Ready(c) && Reflects(c.sim, c.base, c.start.ledger, db)
    requires NoRepeats(batch) && Elements(batch) == Elements(Plan(c).orders)
    ensures NewOrders(c.sim, db, batch) && ApplySorted(c.sim, db, batch) == ApplyAll(c.sim, db, batch)
    ensures ApplySorted(c.sim, db, batch).Ok?
    ensures Reflects(c.sim, c.base, Ledger(c, 1), ApplySorted(c.sim, db, batch).value)
    ensures |batch| == |Plan(c).orders|
  {
    hide Consistent, Reflects, SeedDb, Injective, PlanDay, NewOrders, Recorded;
    LedgerIsConsistent(c, 0);
    LedgerIsConsistent(c, 1);
    ApplySortedReflects(c.sim, c.base, Ledger(c, 0), batch, c.d, db);
    OrderBatchIsNew(c.sim, c.base, c.start.ledger, c.d, db, batch);
    NoRepeatsLength(batch);
    NoRepeatsLength(Plan(c).orders);
  }

  /** Committing the orders succeeds; committed before, it changes nothing. */
  lemma OrdersAreCommitted(c: Context, now: Durable, r: nat, a: nat, batch: seq<Event>)
    requires Ready(c) && OnTrack(c, now, r, a) && r >= 1
    requires NoRepeats(batch) && Elements(batch) == Elements(Plan(c).orders)
    ensures var after := ApplySorted(c.sim, now.db, batch);
      && after.Ok?
      && (if a == 0 then OnTrack(c, Durable(now.ledger, after.value), r, 1) else after.value == now.db)
  {
    hide Consistent, Reflects, SeedDb, Injective, PlanDay, NewOrders, ApplyAll, Batches, Recorded;
    LedgerIsConsistent(c, 0);
    LedgerIsConsistent(c, 1);
    if a == 0 {
      OrdersAreNew(c, now.db, batch);
      OrdersAreNew(c, c.start.db, Plan(c).orders);
      LineIdsFollowTheBatch(c.sim, now.db, batch);
      LineIdsFollowTheBatch(c.sim, c.start.db, Plan(c).orders);
    } else {
      LedgerIsConsistent(c, 2);
      LedgerIsConsistent(c, 3);
      hide Ready, ApplySorted;
      SortedAlreadyApplied(c, Behind(c, a), now.db, batch);
    }
  }

  /** Fulfillment planned from the ledger and the database is the date's fulfillment, or nothing
      when all of it is applied. */
  lemma FulfillmentIsRecorded(c: Context, now: Durable, r: nat, a: nat)
    requires Ready(c) && OnTrack(c, now, r, a) && a >= 1
    ensures var planned := PlanFulfillment(c.sim, c.d, now.ledger, ReadFulfillment(now.db, OrderIds(now.ledger)));
      && planned == (if a == 1 then Plan(c).fulfillment else {})
      && OnTrack(c, Durable(now.ledger + planned, now.db), if r == 1 then 2 else r, a)
  {
    hide Consistent, SeedDb, Injective, PlanFulfillment, SameIds, Reference, ReadFulfillment, FulfillmentBy;
    hide Batches, PlanDay, Recorded, OrderIds;
    hide OrdersReflect, TotalsReflect, ShipmentsReflect, InvoicesReflect, CasesReflect;
    hide OrderHistoryReflects, ShipmentHistoryReflects, InvoiceHistoryReflects, CaseHistoryReflects;
    LedgerIsConsistent(c, if a == 1 then 1 else 3);
    OrderIdsKnown(c, r, a);
    ReadsFulfillment(c.sim, c.base, Behind(c, a), now.db, OrderIds(now.ledger));
    hide Reflects;
    FulfillmentPlannedAgain(c, r, a);
  }

  lemma BatchKinds(c: Context)
    requires Ready(c)
    ensures Plan(c).fulfillment == FulfillmentOf(c.sim, c.d, c.base, Ledger(c, 1), Ledger(c, 1))
    ensures forall e :: e in Plan(c).support ==> TouchesCase(e)
    ensures forall e :: e in Plan(c).fulfillment ==> !e.OrderCreated?
  {
    hide Consistent, SeedDb, Reflects, Injective, FulfillmentOf, SupportOf, OrdersOf, Recorded;
    LedgerIsConsistent(c, 1);
  }

  lemma FulfillmentPlannedAgain(c: Context, r: nat, a: nat)
    requires Ready(c) && Reachable(r, a) && a >= 1
    ensures var planned := FulfillmentOf(c.sim, c.d, c.base, Ledger(c, r), Behind(c, a));
      && planned == (if a == 1 then Plan(c).fulfillment else {})
      && Ledger(c, r) + planned == Ledger(c, if r == 1 then 2 else r)
  {
    hide Consistent, SeedDb, Reflects, Injective, FulfillmentOf, Recorded, PlanDay, Batches;
    LedgerIsConsistent(c, r);
    BatchKinds(c);
    if a == 1 {
      FulfillmentAgain(c.sim, c.d, c.base, Ledger(c, 1), Ledger(c, r), Plan(c).support);
    } else {
      FulfillmentIsDone(c.sim, c.d, c.base, Ledger(c, 1), Plan(c).support);
    }
  }

  lemma OrderIdsKnown(c: Context, r: nat, a: nat)
    requires Ready(c) && Reachable(r, a)
    ensures OrderIds(Behind(c, a)) <= OrderIds(Ledger(c, r)) && OrderIds(Ledger(c, r)) !! c.base.orders.Keys
  {
    hide SeedDb, Reflects, Injective, PlanDay, HasParent, Batches;
    LedgerIsConsistent(c, r);
    assert Orders(Behind(c, a)) <= Orders(Ledger(c, r)) by {
      hide Consistent;
      DayEvents(c, r);
      DayEvents(c, if a == 0 then 0 else if a == 1 then 1 else 3);
    }
    forall e | e in Behind(c, a) && e.OrderCreated? ensures e in Ledger(c, r) {
      assert e in Orders(Behind(c, a));
    }
  }

  /** Support cases planned from the ledger are the date's, or nothing when they are recorded. */
  lemma SupportIsRecorded(c: Context, now: Durable, r: nat, a: nat)
    requires Ready(c) && OnTrack(c, now, r, a) && r >= 2
    ensures var planned := PlanSupport(c.sim, c.d, now.ledger, NextId(now.db.cases.Keys));
      && planned == (if r == 2 then Plan(c).support else {})
      && OnTrack(c, Durable(now.ledger + planned, now.db), 3, a)
  {
    hide Consistent, SeedDb, Injective, PlanSupport, SameIds, Reference, NextId, Batches, PlanDay, Recorded;
    hide OrdersReflect, TotalsReflect, ShipmentsReflect, InvoicesReflect;
    hide OrderHistoryReflects, ShipmentHistoryReflects, InvoiceHistoryReflects, CaseHistoryReflects;
    assert now.db.cases.Keys == c.base.cases.Keys + CaseIds(Behind(c, a));
    hide Reflects, CasesReflect;
    SupportPlannedAgain(c, r, a);
  }

  lemma SupportPlannedAgain(c: Context, r: nat, a: nat)
    requires Ready(c) && Reachable(r, a) && r >= 2
    ensures var planned := SupportOf(c.sim, c.d, c.base, Ledger(c, r), Behind(c, a));
      && planned == (if r == 2 then Plan(c).support else {})
      && Ledger(c, r) + planned == Ledger(c, 3)
  {
    hide Consistent, SeedDb, Reflects, Injective, SupportOf, Recorded;
    LedgerIsConsistent(c, 2);
    DayEvents(c, 3);
    assert Plan(c).support == SupportOf(c.sim, c.d, c.base, Ledger(c, 2), Ledger(c, 2));
    hide PlanDay;
    if r == 2 {
      SupportDependsOnCaseIds(c.sim, c.d, c.base, Ledger(c, 2), Behind(c, a), Ledger(c, 2));
    } else {
      SupportIsDone(c.sim, c.d, c.base, Ledger(c, 2), Behind(c, a));
    }
  }

  /** Committing the rest of the date succeeds; committed before, it changes nothing. */
  lemma RestIsCommitted(c: Context, now: Durable, a: nat)
    requires Ready(c) && OnTrack(c, now, 3, a)
    ensures var batch := Listed(c.sim, Downstream(now.ledger, c.d));
      var after := ApplySorted(c.sim, now.db, batch);
      && after.Ok?
      && OnTrack(c, Durable(now.ledger, after.value), 3, 2)
      && (a == 2 ==> after.value == now.db)
  {
    hide Consistent, SeedDb, Reflects, Injective, PlanDay, Batches, Recorded, Downstream, SameIds, ApplyAll;
    var batch := Listed(c.sim, Downstream(now.ledger, c.d));
    LedgerIsConsistent(c, 1);
    LedgerIsConsistent(c, 3);
    DayEvents(c, 3);
    if a == 1 {
      ReferenceReflects(c, 1);
      RestIsOfTheDay(c);
      ApplySortedReflects(c.sim, c.base, Ledger(c, 1), batch, c.d, now.db);
      ApplySortedReflects(c.sim, c.base, Ledger(c, 1), batch, c.d, Reference(c, 1));
      SortIsSortedPermutation(batch, Rank);
      IdsAreDetermined(c.sim, c.base, Ledger(c, 1), Sort(batch, Rank), c.d, now.db, Reference(c, 1));
    } else {
      hide Ready, ApplySorted;
      SortedAlreadyApplied(c, Behind(c, a), now.db, batch);
    }
  }

  lemma RestIsOfTheDay(c: Context)
    requires Ready(c)
    ensures forall e :: e in Downstream(Ledger(c, 3), c.d) ==> e.date == c.d
  {
  }

  /* ---- Line ids ---- */

  /** Recovering from a crash between recording and committing the orders, a run commits them in
      the order the ledger lists them.  The line ids come out as in an uninterrupted date exactly
      when the planner's order is the ledger's. */
  lemma LineIdsSurviveReplayExactly(c: Context)
    requires Ready(c)
    ensures var replayed := Listed(c.sim, Elements(Plan(c).orders));
      Committed(c.sim, c.start.db, replayed).lineIds == Committed(c.sim, c.start.db, Plan(c).orders).lineIds
      <==> StrictlySortedBy(Plan(c).orders, c.sim.eventId)
  {
    hide Consistent, Reflects, SeedDb, PlanDay, Recorded, ApplySorted, ApplyAll;
    var planned := Plan(c).orders;
    var replayed := Listed(c.sim, Elements(planned));
    SortedSetListsTheSet(Elements(planned), c.sim.eventId);
    LedgerIsConsistent(c, 1);
    OrdersAreNew(c, c.start.db, planned);
    OrdersAreNew(c, c.start.db, replayed);
    hide Ready, NewOrders;
    LineIdsFollowTheBatch(c.sim, c.start.db, planned);
    LineIdsFollowTheBatch(c.sim, c.start.db, replayed);
    var ids := Committed(c.sim, c.start.db, planned).lineIds;
    if StrictlySortedBy(planned, c.sim.eventId) {
      StrictlySortedUnique(planned, replayed, c.sim.eventId);
    }
    if Committed(c.sim, c.start.db, replayed).lineIds == ids {
      SameLineIdsSameOrder(planned, replayed, ids, c.start.db.maxLineId + 1);
    }
  }

  lemma SameLineIdsSameOrder(planned: seq<Event>, replayed: seq<Event>, ids: map<int, int>, first: int)
    requires NoRepeats(planned) && NoRepeats(replayed) && Elements(planned) == Elements(replayed)
    requires forall i :: 0 <= i < |planned| ==>
      planned[i].OrderCreated? && planned[i].orderId in ids && ids[planned[i].orderId] == first + i
    requires forall i :: 0 <= i < |replayed| ==>
      replayed[i].OrderCreated? && replayed[i].orderId in ids && ids[replayed[i].orderId] == first + i
    ensures planned == replayed
  {
    NoRepeatsLength(planned);
    NoRepeatsLength(replayed);
    forall i | 0 <= i < |planned| ensures planned[i] == replayed[i] {
      assert planned[i] in Elements(replayed);
      var j :| 0 <= j < |replayed| && replayed[j] == planned[i];
    }
  }

  /** The orders of the date as a run applies them: as planned when none is on record, else as the
      ledger lists them. */
  ghost function OrdersApplied(c: Context, ledger: set<Event>): seq<Event>
    requires Ready(c)
  {
    if DayOrders(ledger, c.d) == {} then Plan(c).orders else Listed(c.sim, DayOrders(ledger, c.d))
  }

  /** Nothing but orders takes line ids. */
  lemma {:induction false} OthersTakeNoLineIds(sim: Simulation, db: OpsDb, batch: seq<Event>)
    requires ApplyAll(sim, db, batch).Ok? && forall e :: e in Elements(batch) ==> !e.OrderCreated?
    ensures ApplyAll(sim, db, batch).value.lineIds == db.lineIds
    decreases |batch|
  {
    hide ApplyOne;
    if |batch| > 0 {
      assert batch[0] in Elements(batch);
      assert forall e :: e in Elements(batch[1..]) ==> e in Elements(batch) by {
        forall e | e in Elements(batch[1..]) ensures e in Elements(batch) {
          var i :| 0 <= i < |batch[1..]| && batch[1..][i] == e;
          assert batch[i + 1] == e;
        }
      }
      IdsAfter(sim, db, batch[0]);
      OthersTakeNoLineIds(sim, ApplyOne(sim, db, batch[0]).value, batch[1..]);
    }
  }

  /* ---- A date whose line ids a crash swaps ---- */

  const STOCKED: OpsDb := OpsDb(
    Master(Some(100), true, true), {}, map[], map[], map[], 0, map[], map[], map[], 0, map[],
    map[], map[], map[], map[], {})

  const FIRST: Event := OrderCreated(1, 1, 7, "006-1", 0, 1)
  const SECOND: Event := OrderCreated(1, 2, 7, "006-2", 0, 1)

  const WINS: seq<CrmEvent> := [CrmEvent(1, 0, true, "006-1", Some(7)), CrmEvent(2, 0, true, "006-2", Some(7))]

  /** The first date, with two deals won the day before. */
  function TwoWins(sim: Simulation): Context {
    Context(sim, STOCKED, 1, Elements(WINS), Durable({}, STOCKED))
  }

  /** Hashes that delay both conversions by a day and order the two orders against their plan. */
  ghost predicate HashedBackwards(sim: Simulation) {
    && Injective(sim) && sim.eventId(SECOND) < sim.eventId(FIRST)
    && ConversionDelay(sim, WINS[0]) == 1 && ConversionDelay(sim, WINS[1]) == 1
  }

  lemma TwoWinsAreListed()
    ensures StrictlySortedBy(WINS, CrmId) && DistinctKeys(Elements(WINS), CrmId)
    ensures SortedSet(Elements(WINS), CrmId) == WINS
  {
    assert DistinctKeys(Elements(WINS), CrmId);
    StrictListingIsSortedSet(WINS, Elements(WINS), CrmId);
  }

  lemma TwoWinsAreReady(sim: Simulation)
    requires HashedBackwards(sim)
    ensures Ready(TwoWins(sim))
  {
    TwoWinsAreListed();
    NothingIsReflected(sim, STOCKED);
    hide Consistent, Reflects;
  }

  lemma NothingIsReflected(sim: Simulation, base: OpsDb)
    ensures Reflects(sim, base, {}, base) && Consistent(base, {})
  {
  }

  lemma TwoWinsAreDue(sim: Simulation)
    requires HashedBackwards(sim)
    ensures DistinctKeys(Elements(WINS), CrmId)
    ensures OrdersOf(sim, 1, Elements(WINS), STOCKED, {}) == MakeOrders(sim, 1, WINS, 1)
  {
    TwoWinsAreListed();
    var converted := ConvertedBy(STOCKED, {}, Refs(Elements(WINS)));
    assert converted == {};
    hide MakeOrders, ConvertedBy, ConversionDelay;
    var due := set e | e in Elements(WINS) && Convertible(sim, 1, converted, e);
    assert due == Elements(WINS) by {
      assert forall e :: e in Elements(WINS) ==> e == WINS[0] || e == WINS[1];
    }
    assert STOCKED.orders.Keys + OrderIds({}) == {};
  }

  lemma TwoWinsArePlanned(sim: Simulation)
    requires HashedBackwards(sim)
    ensures MakeOrders(sim, 1, WINS, 1) == [FIRST, SECOND]
  {
    hide ConversionDelay;
    assert WINS[1..][1..] == [];
    assert MakeOrders(sim, 1, WINS[1..][1..], 3) == [];
    assert MakeOrders(sim, 1, WINS[1..], 2) == [SECOND];
    assert MakeOrders(sim, 1, WINS, 1) == [FIRST] + [SECOND];
  }

  lemma TwoWinsPlan(sim: Simulation)
    requires HashedBackwards(sim)
    ensures Ready(TwoWins(sim)) && Plan(TwoWins(sim)).orders == [FIRST, SECOND]
  {
    TwoWinsAreReady(sim);
    TwoWinsAreDue(sim);
    TwoWinsArePlanned(sim);
    hide Ready, MakeOrders, OrdersOf, FulfillmentOf, SupportOf, Injective, ConversionDelay, DistinctKeys;
  }

  lemma NoneOnRecord(c: Context)
    requires Ready(c) && c.d == 1
    ensures OrdersApplied(c, {}) == Plan(c).orders
  {
    hide Ready, Plan, Injective, Listed;
  }

  lemma AllOnRecord(c: Context, l: set<Event>)
    requires Ready(c) && l != {} && DayOrders(l, c.d) == l
    ensures OrdersApplied(c, l) == Listed(c.sim, l)
  {
    hide Ready, Plan, Injective, Listed, DayOrders;
  }

  lemma TwoOrdersOfTheDate()
    ensures DayOrders({}, 1) == {} && DayOrders({FIRST, SECOND}, 1) == {FIRST, SECOND}
    ensures Elements([FIRST, SECOND]) == {FIRST, SECOND}
  {
    assert [FIRST, SECOND][0] == FIRST && [FIRST, SECOND][1] == SECOND;
  }

  /** The orders of that date as they are planned, and as the ledger lists them once on record. */
  lemma TwoOrdersApplied(sim: Simulation)
    requires HashedBackwards(sim)
    ensures Ready(TwoWins(sim))
    ensures OrdersApplied(TwoWins(sim), {}) == [FIRST, SECOND]
    ensures OrdersApplied(TwoWins(sim), {FIRST, SECOND}) == [SECOND, FIRST]
  {
    TwoWinsPlan(sim);
    OrdersAreListedBackwards(sim);
    hide Ready, Plan, Injective, ConversionDelay, Listed, DayOrders, OrdersApplied, HashedBackwards;
    TwoOrdersOfTheDate();
    NoneOnRecord(TwoWins(sim));
    AllOnRecord(TwoWins(sim), {FIRST, SECOND});
  }

  lemma OrdersAreListedBackwards(sim: Simulation)
    requires Injective(sim) && sim.eventId(SECOND) < sim.eventId(FIRST)
    ensures Listed(sim, {FIRST, SECOND}) == [SECOND, FIRST]
  {
    assert Elements([SECOND, FIRST]) == {FIRST, SECOND} by {
      assert [SECOND, FIRST][0] == SECOND && [SECOND, FIRST][1] == FIRST;
    }
    StrictListingIsSortedSet([SECOND, FIRST], {FIRST, SECOND}, sim.eventId);
  }

  /** Committed as planned and committed as the ledger lists them, the orders take each other's line
      ids. */
  lemma ReplaySwapsLineIds(sim: Simulation)
    requires HashedBackwards(sim)
    ensures var c := TwoWins(sim);
      && Ready(c) && Plan(c).orders == [FIRST, SECOND]
      && Committed(sim, STOCKED, OrdersApplied(c, {})).lineIds == map[1 := 1, 2 := 2]
      && Committed(sim, STOCKED, OrdersApplied(c, {FIRST, SECOND})).lineIds == map[1 := 2, 2 := 1]
  {
    TwoWinsPlan(sim);
    TwoOrdersApplied(sim);
    SwappedLineIds(sim, TwoWins(sim));
  }

  lemma SwappedLineIds(sim: Simulation, c: Context)
    requires sim.eventId(SECOND) != sim.eventId(FIRST) && Ready(c)
    requires OrdersApplied(c, {}) == [FIRST, SECOND] && OrdersApplied(c, {FIRST, SECOND}) == [SECOND, FIRST]
    ensures Committed(sim, STOCKED, OrdersApplied(c, {})).lineIds == map[1 := 1, 2 := 2]
    ensures Committed(sim, STOCKED, OrdersApplied(c, {FIRST, SECOND})).lineIds == map[1 := 2, 2 := 1]
  {
    hide Ready, Plan, Committed, OrdersApplied;
    TwoOrdersTakeTheirIds(sim, FIRST, SECOND);
    TwoOrdersTakeTheirIds(sim, SECOND, FIRST);
    assert map[2 := 1, 1 := 2] == map[1 := 2, 2 := 1];
  }

  lemma TwoOrdersTakeTheirIds(sim: Simulation, a: Event, b: Event)
    requires a.OrderCreated? && b.OrderCreated? && a.orderId != b.orderId && a.date == b.date
    requires sim.eventId(a) != sim.eventId(b)
    ensures Committed(sim, STOCKED, [a, b]).lineIds == map[a.orderId := 1, b.orderId := 2]
  {
    assert Sort([a, b], Rank) == [a, b] by { SortOfEqualKeys([a, b], Rank); }
    var one := ApplyOne(sim, STOCKED, a);
    assert one.Ok? && one.value.lineIds == map[a.orderId := 1] && one.value.maxLineId == 1;
    assert [a, b][1..] == [b] && [b][1..] == [];
    assert ApplyAll(sim, STOCKED, [a, b]) == ApplyAll(sim, one.value, [b]);
    assert ApplyAll(sim, one.value, [b]) == ApplyOne(sim, one.value, b);
  }
}
