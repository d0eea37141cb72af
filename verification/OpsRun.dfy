/** The Ops portion of a simulation date as it runs, over a ledger table and a database.

    `budget` is the number of durable writes the process survives; running out of it is a crash just
    before the next one.  Whatever the budgets, the durable state stays one of the states `OnTrack`
    lists, no applier ever fails, and once a run of the date finishes, ledger and database are those
    of an uninterrupted history, line ids apart. */
module OpsRun {
  import opened Wrappers
  import opened Ordering
  import opened OpsEvents
  import opened OpsTables
  import opened OpsDay
  import opened OpsReplay
  import opened OpsReplan
  import opened OpsTrack
  import opened OpsPlanners

  datatype Outcome = Finished(records: nat, applied: nat) | Crashed | CrmNotApplied | Failed(error: Error)

  /** A date interrupted anywhere, any number of times. */
  ghost predicate Recoverable(c: Context, now: Durable)
    requires Ready(c)
  {
    exists r, a :: OnTrack(c, now, r, a)
  }

  lemma StagesOf(c: Context, now: Durable) returns (r: nat, a: nat)
    requires Ready(c) && Recoverable(c, now)
    ensures OnTrack(c, now, r, a)
  {
    hide OnTrack;
    r, a :| OnTrack(c, now, r, a);
  }

  /* ---- A history of dates without interruption ---- */

  /** `crm(d)` are the CRM events through `d`. */
  datatype Setting = Setting(sim: Simulation, base: OpsDb, baseline: Date, crm: Date -> set<CrmEvent>)

  ghost predicate Sound(s: Setting) {
    Injective(s.sim) && SeedDb(s.sim, s.base) && forall d :: DistinctKeys(s.crm(d), CrmId)
  }

  ghost function DateContext(s: Setting, d: Date): (c: Context)
    requires Sound(s) && d > s.baseline
    ensures Ready(c) && c.sim == s.sim && c.base == s.base && c.d == d && c.crm == s.crm(d)
    ensures c.start == Through(s, d - 1)
    decreases d - s.baseline, 0
  {
    var c := Context(s.sim, s.base, d, s.crm(d), Through(s, d - 1));
    c
  }

  /** The durable state once every date through `d` has run, each once and uninterrupted. */
  ghost function Through(s: Setting, d: Date): (end: Durable)
    requires Sound(s) && d >= s.baseline
    ensures Reflects(s.sim, s.base, end.ledger, end.db) && Consistent(s.base, end.ledger)
    ensures forall e :: e in end.ledger ==> e.date <= d
    decreases d - s.baseline, 1
  {
    if d == s.baseline then
      NothingIsReflected(s.sim, s.base);
      Durable({}, s.base)
    else
      var c := DateContext(s, d);
      DateEnds(c);
      Durable(Ledger(c, 3), Reference(c, 2))
  }

  /** What the dates through `d` leave depends on what CRM brought through `d` only. */
  lemma {:induction false} ThroughIsLocal(s: Setting, t: Setting, d: Date)
    requires Sound(s) && Sound(t) && d >= s.baseline
    requires t == s.(crm := t.crm) && forall e :: e <= d ==> s.crm(e) == t.crm(e)
    ensures Through(s, d) == Through(t, d)
    decreases d - s.baseline
  {
    hide Reflects, Consistent, PlanDay, SeedDb, Injective, Reference, Ledger, Ready;
    if d > s.baseline {
      ThroughIsLocal(s, t, d - 1);
      assert DateContext(s, d) == DateContext(t, d);
    }
  }

  lemma DateEnds(c: Context)
    requires Ready(c)
    ensures Reflects(c.sim, c.base, Ledger(c, 3), Reference(c, 2)) && Consistent(c.base, Ledger(c, 3))
    ensures forall e :: e in Ledger(c, 3) ==> e.date <= c.d
  {
    hide Reflects, Consistent, PlanDay, SeedDb, Injective, Reference, Recorded, Downstream, DayOrders;
    ReferenceReflects(c, 2);
    LedgerIsConsistent(c, 3);
  }

  /** Where one date ends the next one starts. */
  lemma NextDateStarts(s: Setting, d: Date, now: Durable)
    requires Sound(s) && d > s.baseline && OnTrack(DateContext(s, d), now, 3, 2)
    ensures OnTrack(DateContext(s, d + 1), now, 0, 0)
  {
    hide Reflects, Consistent, PlanDay, SeedDb, Injective;
  }

  lemma FirstDateStarts(s: Setting)
    requires Sound(s)
    ensures OnTrack(DateContext(s, s.baseline + 1), Durable({}, s.base), 0, 0)
  {
    NothingIsReflected(s.sim, s.base);
    hide Reflects, Consistent, PlanDay, SeedDb, Injective;
  }

  class OpsRun {
    const sim: Simulation
    var ledger: seq<Event>
    var db: OpsDb

    /** The event table, keyed and listed by event id. */
    ghost predicate Valid()
      reads this
    {
      Injective(sim) && StrictlySortedBy(ledger, sim.eventId)
    }

    ghost function Now(): Durable
      reads this
    {
      Durable(Elements(ledger), db)
    }

    constructor (sim: Simulation, base: OpsDb)
      requires Injective(sim)
      ensures Valid() && this.sim == sim && Now() == Durable({}, base)
    {
      this.sim, ledger, db := sim, [], base;
    }

    /** Insert, ignoring events already on record. */
    method RecordEvents(events: seq<Event>)
      requires Valid()
      modifies this`ledger
      ensures Valid() && Elements(ledger) == old(Elements(ledger)) + Elements(events)
    {
      for i := 0 to |events|
        invariant Valid() && Elements(ledger) == old(Elements(ledger)) + Elements(events[..i])
      {
        var e := events[i];
        ExtendList(events, i);
        if e !in ledger {
          assert e !in Elements(ledger);
          InsertKeepsKeyOrder(e, ledger, sim.eventId);
          ledger := Insert(e, ledger, sim.eventId);
        } else {
          assert e in Elements(ledger);
        }
      }
      assert events[..|events|] == events;
    }

    /** One transaction: all events or, on an error, none. */
    method Apply(events: seq<Event>) returns (r: Result<nat, Error>)
      modifies this`db
      ensures r.Ok? ==> ApplySorted(sim, old(db), events) == Ok(db) && |db.markers| == |old(db).markers| + r.value
      ensures r.Err? ==> db == old(db) && ApplySorted(sim, db, events).Err?
    {
      var batch := Sort(events, Rank);
      var working, count := db, 0;
      hide ApplyEvent;
      for i := 0 to |batch|
        invariant ApplyAll(sim, db, batch) == ApplyAll(sim, working, batch[i..])
        invariant |working.markers| == |db.markers| + count
      {
        var e := batch[i];
        assert batch[i..][1..] == batch[i + 1..];
        if sim.eventId(e) in working.markers { continue; }
        match ApplyEvent(sim, working, e) {
          case Err(error) => return Err(error);
          case Ok(after) =>
            working := after.(markers := after.markers + {sim.eventId(e)});
            count := count + 1;
        }
      }
      db := working;
      r := Ok(count);
    }

    method RecordFulfillment(d: Date, ghost c: Context, ghost r: nat, ghost a: nat, budget: nat) returns (crashed: bool)
      requires Valid() && Ready(c) && c.sim == sim && c.d == d
      requires OnTrack(c, Now(), r, a) && r >= 1 && a >= 1
      modifies this`ledger
      ensures Valid() && OnTrack(c, Now(), if r == 1 && !crashed then 2 else r, a)
      ensures crashed <==> budget == 0
    {
      hide Reflects, Consistent, Injective, SeedDb, PlanDay, ApplySorted, Recorded, SameIds, Reference, Batches;
      hide PlanFulfillment;
      LedgerHasNoRepeats();
      var planned := FulfillmentDue(sim, d, ledger, ReadFulfillment(db, OrderIds(Elements(ledger))));
      FulfillmentIsRecorded(c, Now(), r, a);
      if budget == 0 { return true; }
      RecordEvents(planned);
      crashed := false;
    }

    method RecordSupport(d: Date, ghost c: Context, ghost r: nat, ghost a: nat, budget: nat) returns (crashed: bool)
      requires Valid() && Ready(c) && c.sim == sim && c.d == d
      requires OnTrack(c, Now(), r, a) && r >= 2
      modifies this`ledger
      ensures Valid() && OnTrack(c, Now(), if crashed then r else 3, a)
      ensures crashed <==> budget == 0
    {
      hide Reflects, Consistent, Injective, SeedDb, PlanDay, ApplySorted, Recorded, SameIds, Reference, Batches;
      hide PlanSupport;
      LedgerHasNoRepeats();
      var planned := SupportDue(sim, d, ledger, NextId(db.cases.Keys));
      SupportIsRecorded(c, Now(), r, a);
      if budget == 0 { return true; }
      RecordEvents(planned);
      crashed := false;
    }

    /** The date's part after its orders are committed. */
    method FinishRun(d: Date, budget: nat, committed: nat, ghost c: Context, ghost r: nat, ghost a: nat)
      returns (outcome: Outcome, left: nat)
      requires Valid() && Ready(c) && c.sim == sim && c.d == d
      requires OnTrack(c, Now(), r, a) && r >= 1 && a >= 1
      modifies this
      ensures Valid() && Recoverable(c, Now())
      ensures outcome.Crashed? || outcome.Finished?
      ensures outcome.Crashed? ==> budget < 3
      ensures left <= budget <= left + 3
      ensures r == 3 && a == 2 ==> OnTrack(c, Now(), 3, 2)
      ensures outcome.Finished? ==>
        && OnTrack(c, Now(), 3, 2) && db.lineIds == old(db).lineIds
        && outcome.records == |Select(ledger, (e: Event) => e.date == d)|
        && |db.markers| + committed == |old(db).markers| + outcome.applied
    {
      hide OnTrack, ApplySorted, Ready;
      var crashed := RecordFulfillment(d, c, r, a, budget);
      if crashed { return Crashed, 0; }
      ghost var r2 := if r == 1 then 2 else r;
      ReachableAfter(c, Now(), r2, a);
      crashed := RecordSupport(d, c, r2, a, budget - 1);
      if crashed { return Crashed, 0; }
      if budget == 2 { return Crashed, 0; }
      left := budget - 3;
      var rest := Select(ledger, (e: Event) => e.date == d && !e.OrderCreated?);
      RestIsListed(d, rest);
      RestIsCommitted(c, Now(), a);
      ghost var was := db;
      var second := Apply(rest);
      RestTakesNoLineIds(was, d, rest);
      var records := |Select(ledger, (e: Event) => e.date == d)|;
      outcome := Finished(records, committed + second.value);
    }

    lemma ReachableAfter(c: Context, now: Durable, r: nat, a: nat)
      requires Ready(c) && OnTrack(c, now, r, a)
      ensures Reachable(r, a)
    {
    }

    lemma LedgerHasNoRepeats()
      requires Valid()
      ensures NoRepeats(ledger)
    {
      StrictlySortedHasNoRepeats(ledger, sim.eventId);
    }

    lemma RestIsListed(d: Date, rest: seq<Event>)
      requires Valid() && rest == Select(ledger, (e: Event) => e.date == d && !e.OrderCreated?)
      ensures rest == Listed(sim, Downstream(Elements(ledger), d))
    {
      var test := (e: Event) => e.date == d && !e.OrderCreated?;
      SelectKeepsKeyOrder(ledger, test, sim.eventId);
      SelectElements(ledger, test);
      assert Elements(rest) == Downstream(Elements(ledger), d);
      StrictListingIsSortedSet(rest, Downstream(Elements(ledger), d), sim.eventId);
    }

    lemma RestTakesNoLineIds(was: OpsDb, d: Date, rest: seq<Event>)
      requires rest == Select(ledger, (e: Event) => e.date == d && !e.OrderCreated?)
      requires ApplySorted(sim, was, rest).Ok?
      ensures ApplySorted(sim, was, rest).value.lineIds == was.lineIds
    {
      SelectElements(ledger, (e: Event) => e.date == d && !e.OrderCreated?);
      SortIsSortedPermutation(rest, Rank);
      OthersTakeNoLineIds(sim, was, Sort(rest, Rank));
    }

    lemma OrdersOnRecord(c: Context, r: nat, a: nat, orders: seq<Event>)
      requires Valid() && Ready(c) && OnTrack(c, Now(), r, a)
      requires orders == Select(ledger, (e: Event) => e.date == c.d && e.OrderCreated?)
      ensures NoRepeats(orders) && Elements(orders) == DayOrders(Elements(ledger), c.d)
      ensures |orders| > 0 ==> r >= 1 && Elements(orders) == Elements(Plan(c).orders)
    {
      hide Reflects, Consistent, SeedDb, PlanDay, Recorded, SameIds, Reference, Batches, Injective;
      var test := (e: Event) => e.date == c.d && e.OrderCreated?;
      LedgerHasNoRepeats();
      SelectKeepsNoRepeats(ledger, test);
      SelectElements(ledger, test);
      DayEvents(c, r);
      NoRepeatsLength(orders);
    }

    lemma OrdersAreListed(c: Context, orders: seq<Event>)
      requires Valid() && Ready(c) && c.sim == sim
      requires orders == Select(ledger, (e: Event) => e.date == c.d && e.OrderCreated?)
      ensures |orders| > 0 <==> DayOrders(Elements(ledger), c.d) != {}
      ensures |orders| > 0 ==> orders == OrdersApplied(c, Elements(ledger))
    {
      hide Ready, Plan, Injective;
      var test := (e: Event) => e.date == c.d && e.OrderCreated?;
      SelectKeepsKeyOrder(ledger, test, sim.eventId);
      SelectElements(ledger, test);
      assert Elements(orders) == DayOrders(Elements(ledger), c.d);
      StrictListingIsSortedSet(orders, DayOrders(Elements(ledger), c.d), sim.eventId);
      if |orders| > 0 { assert orders[0] in Elements(orders); }
    }

    method Run(d: Date, crm: seq<CrmEvent>, crmApplied: bool, budget: nat, ghost c: Context)
      returns (outcome: Outcome, left: nat)
      requires Valid() && Ready(c) && c.sim == sim && c.d == d
      requires StrictlySortedBy(crm, CrmId) && Elements(crm) == c.crm
      requires Recoverable(c, Now())
      modifies this
      ensures Valid() && Recoverable(c, Now())
      ensures old(OnTrack(c, Now(), 3, 2)) ==> OnTrack(c, Now(), 3, 2)
      ensures !outcome.Failed? && (outcome.CrmNotApplied? <==> !crmApplied) && (outcome.Crashed? ==> budget < 5)
      ensures left <= budget <= left + 5
      ensures outcome.Finished? ==>
        && OnTrack(c, Now(), 3, 2)
        && outcome.records == |Select(ledger, (e: Event) => e.date == d)|
        && |db.markers| == |old(db).markers| + outcome.applied
        && db.lineIds == Committed(sim, old(db), OrdersApplied(c, old(Elements(ledger)))).lineIds
      ensures crmApplied && budget == 1 && DayOrders(old(Elements(ledger)), d) == {} ==>
        outcome.Crashed? && Elements(ledger) == old(Elements(ledger)) + Elements(Plan(c).orders) && db == old(db)
    {
      hide Reflects, Consistent, Injective, SeedDb, PlanDay, ApplySorted, Recorded, SameIds, Reference, Batches;
      hide Listed, DayOrders;
      ghost var r: nat, a: nat := 3, 2;
      if !OnTrack(c, Now(), 3, 2) { r, a := StagesOf(c, Now()); }
      left := budget;
      if !crmApplied { return CrmNotApplied, left; }

      var orders := Select(ledger, (e: Event) => e.date == d && e.OrderCreated?);
      OrdersOnRecord(c, r, a, orders);
      OrdersAreListed(c, orders);
      if |orders| == 0 {
        StrictlySortedHasNoRepeats(crm, CrmId);
        ghost var was := Now();
        orders := OrdersDue(sim, d, crm, ReadConverted(db, Refs(Elements(crm))), NextId(db.orders.Keys));
        OrdersAreRecorded(c, was, r, a);
        LedgerIsConsistent(c, 1);
        if left == 0 { return Crashed, 0; }
        left := left - 1;
        RecordEvents(orders);
        r := if r == 0 then 1 else r;
      }

      if left == 0 { return Crashed, 0; }
      left := left - 1;
      ghost var was := Now();
      var first := Apply(orders);
      OrdersAreCommitted(c, was, r, a, orders);
      a := if a == 0 then 1 else a;

      outcome, left := FinishRun(d, left, first.value, c, r, a);
    }

    /** A date interrupted after each of `crashes` and then left alone ends as if never interrupted. */
    method RunDate(d: Date, crm: seq<CrmEvent>, crashes: seq<nat>, ghost c: Context)
      requires Valid() && Ready(c) && c.sim == sim && c.d == d
      requires StrictlySortedBy(crm, CrmId) && Elements(crm) == c.crm
      requires Recoverable(c, Now())
      modifies this
      ensures Valid() && OnTrack(c, Now(), 3, 2)
      ensures Elements(ledger) == Ledger(c, 3) && SameButLineIds(db, Reference(c, 2))
    {
      hide Reflects, Consistent, Injective, SeedDb, PlanDay, SameIds, Reference, SameButLineIds;
      for i := 0 to |crashes|
        invariant Valid() && Recoverable(c, Now())
      {
        var _, _ := Run(d, crm, true, crashes[i], c);
      }
      var _, _ := Run(d, crm, true, 5, c);
      OnTrackIsReference(c, Now(), 3, 2);
    }
  }

  /** The failure as it runs: the same date, once left alone and once killed after its first
      recording, gives the two orders each other's line ids. */
  method CrashSwapsLineIds(sim: Simulation) returns (alone: OpsRun, killed: OpsRun)
    requires HashedBackwards(sim)
    ensures fresh(alone) && alone.db.lineIds == map[1 := 1, 2 := 2]
    ensures fresh(killed) && killed.db.lineIds == map[1 := 2, 2 := 1]
  {
    ghost var c := TwoWins(sim);
    SwapFacts(sim, c);
    assert Injective(sim);
    hide HashedBackwards, Injective, Ready, Plan, Committed, OrdersApplied, OnTrack, Recoverable, TwoWins;
    alone := RunAlone(c, 1, sim, STOCKED, WINS);
    killed := RunKilled(c, 1, sim, STOCKED, WINS, {FIRST, SECOND});
  }

  lemma SwapFacts(sim: Simulation, c: Context)
    requires HashedBackwards(sim) && c == TwoWins(sim)
    ensures Ready(c) && c.sim == sim && c.d == 1 && c.crm == Elements(WINS) && c.start == Durable({}, STOCKED)
    ensures StrictlySortedBy(WINS, CrmId) && Elements(Plan(c).orders) == {FIRST, SECOND}
    ensures Recoverable(c, Durable({}, STOCKED))
    ensures Committed(sim, STOCKED, OrdersApplied(c, {})).lineIds == map[1 := 1, 2 := 2]
    ensures Committed(sim, STOCKED, OrdersApplied(c, {FIRST, SECOND})).lineIds == map[1 := 2, 2 := 1]
  {
    ReplaySwapsLineIds(sim);
    TwoWinsAreListed();
    TwoOrdersOfTheDate();
    hide HashedBackwards, Ready, Plan, Committed, OrdersApplied, OnTrack, Recoverable;
    DateStarts(c);
  }

  /** The first date, uninterrupted. */
  method RunAlone(ghost c: Context, d: Date, sim: Simulation, base: OpsDb, crm: seq<CrmEvent>) returns (ops: OpsRun)
    requires Injective(sim) && Ready(c) && c.sim == sim && c.d == d && c.start == Durable({}, base)
    requires StrictlySortedBy(crm, CrmId) && Elements(crm) == c.crm && Recoverable(c, c.start)
    ensures fresh(ops) && ops.db.lineIds == Committed(sim, base, OrdersApplied(c, {})).lineIds
  {
    hide Ready, Plan, Committed, OrdersApplied, OnTrack, Recoverable, Injective;
    ops := new OpsRun(sim, base);
    var _, _ := ops.Run(d, crm, true, 5, c);
  }

  /** The first date, killed once its orders are on record, and run again. */
  method RunKilled(
    ghost c: Context, d: Date, sim: Simulation, base: OpsDb, crm: seq<CrmEvent>, ghost orders: set<Event>)
    returns (ops: OpsRun)
    requires Injective(sim) && Ready(c) && c.sim == sim && c.d == d && c.start == Durable({}, base)
    requires StrictlySortedBy(crm, CrmId) && Elements(crm) == c.crm && Recoverable(c, c.start)
    requires Elements(Plan(c).orders) == orders
    ensures fresh(ops) && ops.db.lineIds == Committed(sim, base, OrdersApplied(c, orders)).lineIds
  {
    hide Ready, Plan, Committed, OrdersApplied, OnTrack, Recoverable, Injective;
    ops := new OpsRun(sim, base);
    assert DayOrders({}, d) == {};
    var _, _ := ops.Run(d, crm, true, 1, c);
    assert {} + orders == orders;
    var _, _ := ops.Run(d, crm, true, 5, c);
  }

  lemma DateStarts(c: Context)
    requires Ready(c)
    ensures Recoverable(c, c.start)
  {
    StartIsOnTrack(c);
    hide OnTrack, Ready;
  }

  lemma StartIsOnTrack(c: Context)
    requires Ready(c)
    ensures OnTrack(c, c.start, 0, 0)
  {
    hide Consistent, Reflects, SeedDb, PlanDay, Injective;
  }

  /** Over all dates and all crashes: the ledger is the one of an uninterrupted history, and so is
      the database, line ids apart. */
  method RunThrough(
    ops: OpsRun, baseline: Date, through: Date, crm: Date -> seq<CrmEvent>, crashes: Date -> seq<nat>, ghost s: Setting)
    requires ops.Valid() && Sound(s) && ops.sim == s.sim && through >= baseline == s.baseline
    requires ops.Now() == Durable({}, s.base)
    requires forall d :: StrictlySortedBy(crm(d), CrmId) && Elements(crm(d)) == s.crm(d)
    modifies ops
    ensures ops.Valid()
    ensures Elements(ops.ledger) == Through(s, through).ledger
    ensures SameButLineIds(ops.db, Through(s, through).db)
  {
    hide Reflects, Consistent, Injective, SeedDb, PlanDay, SameIds, Reference, SameButLineIds, OnTrack, Through;
    FirstDateStarts(s);
    for d := baseline to through
      invariant ops.Valid() && OnTrack(DateContext(s, d + 1), ops.Now(), 0, 0)
    {
      ops.RunDate(d + 1, crm(d + 1), crashes(d + 1), DateContext(s, d + 1));
      NextDateStarts(s, d + 1, ops.Now());
    }
    NextIsThrough(s, through, ops.Now());
  }

  lemma ThroughIsReference(s: Setting, d: Date)
    requires Sound(s) && d > s.baseline
    ensures Through(s, d) == Durable(Ledger(DateContext(s, d), 3), Reference(DateContext(s, d), 2))
  {
    hide Reflects, Consistent, PlanDay, SeedDb, Injective, Reference, Ready, Sound;
  }

  lemma NextIsThrough(s: Setting, d: Date, now: Durable)
    requires Sound(s) && d >= s.baseline && OnTrack(DateContext(s, d + 1), now, 0, 0)
    ensures now.ledger == Through(s, d).ledger && SameButLineIds(now.db, Through(s, d).db)
  {
    OnTrackIsReference(DateContext(s, d + 1), now, 0, 0);
    LedgerIsConsistent(DateContext(s, d + 1), 0);
  }
}
