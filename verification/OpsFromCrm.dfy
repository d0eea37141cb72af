/** From the CRM history to Ops orders: a deal is won once, so it is ordered once, and no win that is
    due stays without its order. */
module OpsFromCrm {
  import opened Wrappers
  import opened Ordering
  import opened OpsEvents
  import opened OpsTables
  import opened OpsDay
  import opened OpsTrack
  import opened OpsOneOrder
  import opened CrmStages
  import OpsRun
  import CrmRun

  /** How Ops sees CRM's recorded events: their ids, opportunity ids and customers. */
  datatype Feed = Feed(eventId: (Date, StageEvent) -> EventId, name: int -> string, account: int -> Option<int>)

  ghost predicate Sound(f: Feed) {
    && (forall d, e, d', e' :: f.eventId(d, e) == f.eventId(d', e') ==> d == d' && e == e')
    && (forall i, j :: f.name(i) == f.name(j) ==> i == j)
  }

  predicate IsWin(e: StageEvent) { e.Changed? && e.stage.ClosedWon? }

  function EventOf(f: Feed, d: Date, e: StageEvent): CrmEvent {
    CrmEvent(f.eventId(d, e), d, IsWin(e), f.name(e.opportunity), f.account(e.opportunity))
  }

  /** The CRM events on record through a date. */
  function CrmThrough(f: Feed, recorded: map<Date, seq<StageEvent>>, through: Date): set<CrmEvent> {
    set d, e | d in recorded && d <= through && e in recorded[d] :: EventOf(f, d, e)
  }

  lemma CrmIdsDiffer(f: Feed, recorded: map<Date, seq<StageEvent>>, through: Date)
    requires Sound(f)
    ensures DistinctKeys(CrmThrough(f, recorded, through), CrmId)
  {
  }

  /** What is recorded for a later date changes nothing before it. */
  lemma CrmIsLocal(f: Feed, recorded: map<Date, seq<StageEvent>>, d: Date, events: seq<StageEvent>, through: Date)
    requires d !in recorded && through < d
    ensures CrmThrough(f, recorded[d := events], through) == CrmThrough(f, recorded, through)
  {
  }

  /* ---- Reading the CRM events on record ---- */

  function EventsOf(f: Feed, d: Date, events: seq<StageEvent>): set<CrmEvent> {
    set e | e in events :: EventOf(f, d, e)
  }

  function CrmOn(f: Feed, recorded: map<Date, seq<StageEvent>>, dates: set<Date>): set<CrmEvent> {
    set d, e | d in dates && d in recorded && e in recorded[d] :: EventOf(f, d, e)
  }

  /** One event more in a listing by event id. */
  method AddEvent(listed: seq<CrmEvent>, x: CrmEvent, ghost all: set<CrmEvent>) returns (more: seq<CrmEvent>)
    requires StrictlySortedBy(listed, CrmId) && Elements(listed) <= all && x in all && DistinctKeys(all, CrmId)
    ensures StrictlySortedBy(more, CrmId) && Elements(more) == Elements(listed) + {x}
  {
    if x in listed {
      assert x in Elements(listed);
      return listed;
    }
    forall y | y in Elements(listed) ensures CrmId(y) != CrmId(x) { assert y in all && y != x; }
    InsertKeepsKeyOrder(x, listed, CrmId);
    more := Insert(x, listed, CrmId);
  }

  method AddDate(f: Feed, e: Date, day: seq<StageEvent>, listed: seq<CrmEvent>, ghost all: set<CrmEvent>)
      returns (more: seq<CrmEvent>)
    requires StrictlySortedBy(listed, CrmId) && Elements(listed) <= all && DistinctKeys(all, CrmId)
    requires EventsOf(f, e, day) <= all
    ensures StrictlySortedBy(more, CrmId) && Elements(more) == Elements(listed) + EventsOf(f, e, day)
  {
    more := listed;
    assert EventsOf(f, e, day[..0]) == {};
    for i := 0 to |day|
      invariant StrictlySortedBy(more, CrmId) && Elements(more) == Elements(listed) + EventsOf(f, e, day[..i])
      invariant Elements(more) <= all
    {
      OneMoreEvent(f, e, day, i);
      more := AddEvent(more, EventOf(f, e, day[i]), all);
    }
    assert day[..|day|] == day;
  }

  /** The CRM events through a date as the ledger lists them, by event id. */
  method ReadCrm(f: Feed, recorded: map<Date, seq<StageEvent>>, d: Date) returns (events: seq<CrmEvent>)
    requires Sound(f)
    ensures StrictlySortedBy(events, CrmId) && Elements(events) == CrmThrough(f, recorded, d)
  {
    ghost var all := CrmThrough(f, recorded, d);
    CrmIdsDiffer(f, recorded, d);
    NoneOnRecord(f, recorded);
    hide CrmThrough, CrmOn, EventsOf, Sound, DistinctKeys;
    var dates := set e | e in recorded && e <= d;
    ghost var done: set<Date> := {};
    events := [];
    while dates != {}
      invariant done !! dates && done + dates == set e | e in recorded && e <= d
      invariant StrictlySortedBy(events, CrmId) && Elements(events) == CrmOn(f, recorded, done)
      decreases |dates|
    {
      var e :| e in dates;
      PartIsOnRecord(f, recorded, done, d);
      DayIsOnRecord(f, recorded, e, d);
      events := AddDate(f, e, recorded[e], events, all);
      OneMoreDate(f, recorded, done, e);
      dates, done := dates - {e}, done + {e};
    }
    AllOnRecord(f, recorded, d, done);
  }

  lemma NoneOnRecord(f: Feed, recorded: map<Date, seq<StageEvent>>)
    ensures CrmOn(f, recorded, {}) == {}
  {
  }

  lemma AllOnRecord(f: Feed, recorded: map<Date, seq<StageEvent>>, d: Date, dates: set<Date>)
    requires dates == set e | e in recorded && e <= d
    ensures CrmOn(f, recorded, dates) == CrmThrough(f, recorded, d)
  {
  }

  lemma OneMoreEvent(f: Feed, e: Date, day: seq<StageEvent>, i: nat)
    requires i < |day|
    ensures EventsOf(f, e, day[..i + 1]) == EventsOf(f, e, day[..i]) + {EventOf(f, e, day[i])}
    ensures EventOf(f, e, day[i]) in EventsOf(f, e, day)
  {
    assert day[..i + 1] == day[..i] + [day[i]];
  }

  lemma OneMoreDate(f: Feed, recorded: map<Date, seq<StageEvent>>, done: set<Date>, e: Date)
    requires e in recorded
    ensures CrmOn(f, recorded, done + {e}) == CrmOn(f, recorded, done) + EventsOf(f, e, recorded[e])
  {
  }

  lemma PartIsOnRecord(f: Feed, recorded: map<Date, seq<StageEvent>>, done: set<Date>, d: Date)
    requires forall e :: e in done ==> e in recorded && e <= d
    ensures CrmOn(f, recorded, done) <= CrmThrough(f, recorded, d)
  {
  }

  lemma DayIsOnRecord(f: Feed, recorded: map<Date, seq<StageEvent>>, e: Date, d: Date)
    requires e in recorded && e <= d
    ensures EventsOf(f, e, recorded[e]) <= CrmThrough(f, recorded, d)
  {
  }

  /* ---- A deal is won once ---- */

  lemma {:induction false} WinIsCounted(rows: seq<HistoryRow>, i: nat)
    requires i < |rows| && rows[i].stage.ClosedWon?
    ensures Wins(rows) >= 1
  {
    if i < |rows| - 1 { WinIsCounted(rows[..|rows| - 1], i); }
  }

  lemma {:induction false} TwoWinsAreTwo(rows: seq<HistoryRow>, i: nat, j: nat)
    requires i < j < |rows| && rows[i].stage.ClosedWon? && rows[j].stage.ClosedWon?
    ensures Wins(rows) >= 2
  {
    var before := rows[..|rows| - 1];
    if j < |before| { TwoWinsAreTwo(before, i, j); } else { WinIsCounted(before, i); }
  }

  lemma WinsOnTwoDates(rows: seq<HistoryRow>, d: Date, e: Date)
    requires d != e && CrmRun.HasRow(rows, d, ClosedWon) && CrmRun.HasRow(rows, e, ClosedWon)
    ensures Wins(rows) >= 2
  {
    var i :| 0 <= i < |rows| && rows[i].date == d && rows[i].stage == ClosedWon;
    var j :| 0 <= j < |rows| && rows[j].date == e && rows[j].stage == ClosedWon;
    if i < j { TwoWinsAreTwo(rows, i, j); } else { TwoWinsAreTwo(rows, j, i); }
  }

  /** Where every opportunity's history is a path and holds what was published, no deal is won by two
      of the published events. */
  lemma HistoryWinsOnce(
    f: Feed, seed: Stages, stages: Stages, history: seq<HistoryRow>, recorded: map<Date, seq<StageEvent>>,
    published: set<Date>, through: Date)
    requires Sound(f) && Tracked(seed, stages, history) && CrmRun.Trail(history, recorded, published)
    requires forall d :: d in recorded && d <= through ==> d in published
    ensures WonOnce(CrmThrough(f, recorded, through))
  {
    hide Path, RowsOf, Wins, CrmRun.HasRow;
    var crm := CrmThrough(f, recorded, through);
    forall a, b | a in crm && b in crm && a.closedWon && b.closedWon && a.opportunity == b.opportunity ensures a == b {
      var d, x :| d in recorded && d <= through && x in recorded[d] && a == EventOf(f, d, x);
      var e, y :| e in recorded && e <= through && y in recorded[e] && b == EventOf(f, e, y);
      var id := x.opportunity;
      assert CrmRun.OnTrail(history, d, x) && CrmRun.OnTrail(history, e, y);
      assert PathTo(seed, stages, history, id);
      WonAtMostOnce(Before(seed, id), RowsOf(history, id));
      if d != e { WinsOnTwoDates(RowsOf(history, id), d, e); }
      OneEventEach(recorded[d], x, y);
    }
  }

  lemma OneEventEach(events: seq<StageEvent>, x: StageEvent, y: StageEvent)
    requires CrmRun.OnePerOpportunity(events) && x in events && y in events && x.opportunity == y.opportunity
    ensures x == y
  {
    var i :| 0 <= i < |events| && events[i] == x;
    var j :| 0 <= j < |events| && events[j] == y;
  }

  /** Fed from what CRM published, Ops never orders an opportunity twice. */
  lemma OneOrderPerDeal(
    f: Feed, seed: Stages, stages: Stages, history: seq<HistoryRow>, recorded: map<Date, seq<StageEvent>>,
    published: set<Date>, s: OpsRun.Setting, d: Date)
    requires Sound(f) && Tracked(seed, stages, history) && CrmRun.Trail(history, recorded, published)
    requires recorded.Keys <= published && forall e :: s.crm(e) == CrmThrough(f, recorded, e)
    requires OpsRun.Sound(s) && d >= s.baseline
    ensures OneOrderEach(s.base, OpsRun.Through(s, d).ledger)
  {
    forall e ensures WonOnce(s.crm(e)) {
      HistoryWinsOnce(f, seed, stages, history, recorded, published, e);
    }
    OneOrderPerOpportunity(s, d);
  }

  /* ---- No due win is missed ---- */

  /** The deal `e` won has an order, made in the simulation or already in the seed. */
  ghost predicate IsOrdered(base: OpsDb, s: set<Event>, e: CrmEvent) {
    e.opportunity in Opportunities(s) || SeedConverted(base, e.opportunity)
  }

  predicate Due(sim: Simulation, d: Date, e: CrmEvent) {
    e.closedWon && e.account.Some? && e.date + ConversionDelay(sim, e) <= d
  }

  predicate Serves(o: Event, e: CrmEvent, orderId: int) {
    o.OrderCreated? && o.orderId == orderId && o.opportunity == e.opportunity && Some(o.customerId) == e.account
  }

  ghost predicate IsServed(orders: seq<Event>, e: CrmEvent, orderId: int) {
    exists i :: 0 <= i < |orders| && Serves(orders[i], e, orderId)
  }

  lemma ServedLater(first: seq<Event>, rest: seq<Event>, e: CrmEvent, orderId: int)
    requires IsServed(rest, e, orderId)
    ensures IsServed(first + rest, e, orderId)
  {
    var i :| 0 <= i < |rest| && Serves(rest[i], e, orderId);
    assert (first + rest)[|first| + i] == rest[i];
  }

  lemma {:induction false} WinIsServed(sim: Simulation, d: Date, won: seq<CrmEvent>, next: int, k: nat)
    requires k < |won| && won[k].account.Some?
    ensures IsServed(MakeOrders(sim, d, won, next), won[k], next + k)
  {
    var rest := MakeOrders(sim, d, won[1..], next + 1);
    var all := MakeOrders(sim, d, won, next);
    if k == 0 {
      assert Serves(all[0], won[0], next);
    } else {
      WinIsServed(sim, d, won[1..], next + 1, k - 1);
      var first := if won[0].account.None? then [] else [all[0]];
      assert all == first + rest;
      ServedLater(first, rest, won[k], next + k);
    }
  }

  lemma OrderedIsCounted(s: set<Event>, orders: seq<Event>, e: CrmEvent, orderId: int)
    requires IsServed(orders, e, orderId)
    ensures e.opportunity in Opportunities(s + Elements(orders))
  {
    var i :| 0 <= i < |orders| && Serves(orders[i], e, orderId);
    assert orders[i] in s + Elements(orders);
  }

  lemma ConvertedIsOrdered(base: OpsDb, h: set<Event>, x: set<Event>, refs: set<string>, e: CrmEvent)
    requires e.opportunity in ConvertedBy(base, h, refs)
    ensures IsOrdered(base, h + x, e)
  {
    if e.opportunity in Opportunities(h) {
      var o :| o in h && o.OrderCreated? && o.opportunity == e.opportunity;
      assert o in h + x;
    }
  }

  /** Planning a date orders every deal that is due. */
  lemma DueWinIsOrdered(sim: Simulation, d: Date, crm: set<CrmEvent>, base: OpsDb, h: set<Event>, e: CrmEvent)
    requires DistinctKeys(crm, CrmId) && e in crm && Due(sim, d, e)
    ensures IsOrdered(base, h + Elements(OrdersOf(sim, d, crm, base, h)), e)
  {
    var converted := ConvertedBy(base, h, Refs(crm));
    var orders := OrdersOf(sim, d, crm, base, h);
    hide ConvertedBy, Opportunities, SeedConverted, IsServed, MakeOrders, Refs, NextId;
    if e.opportunity in converted {
      ConvertedIsOrdered(base, h, Elements(orders), Refs(crm), e);
    } else {
      var due := set x | x in crm && Convertible(sim, d, converted, x);
      var won := SortedSet(due, CrmId);
      SortedSetListsTheSet(due, CrmId);
      assert e in Elements(won);
      var k :| 0 <= k < |won| && won[k] == e;
      var next := NextId(base.orders.Keys + OrderIds(h));
      assert orders == MakeOrders(sim, d, won, next);
      WinIsServed(sim, d, won, next, k);
      OrderedIsCounted(h, orders, e, next + k);
    }
  }

  /** Once a date has run, no deal is due and not ordered. */
  lemma EveryDueWinIsOrdered(s: OpsRun.Setting, d: Date, e: CrmEvent)
    requires OpsRun.Sound(s) && d > s.baseline && e in s.crm(d) && Due(s.sim, d, e)
    ensures IsOrdered(s.base, OpsRun.Through(s, d).ledger, e)
  {
    var c := OpsRun.DateContext(s, d);
    DueWinIsOrdered(s.sim, d, s.crm(d), s.base, c.start.ledger, e);
    assert Plan(c).orders == OrdersOf(s.sim, d, s.crm(d), s.base, c.start.ledger);
    hide Ready, OpsRun.Sound, Due, OrdersOf;
    LedgerIsConsistent(c, 3);
    OpsRun.ThroughIsReference(s, d);
  }
}
