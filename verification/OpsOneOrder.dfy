/** One order per opportunity, over all dates: what the CRM history's single win is good for. */
module OpsOneOrder {
  import opened Ordering
  import opened OpsEvents
  import opened OpsTables
  import opened OpsDay
  import opened OpsReplan
  import opened OpsTrack
  import OpsRun

  /** Each opportunity is won by one event at most. */
  ghost predicate WonOnce(crm: set<CrmEvent>) {
    forall a, b :: a in crm && b in crm && a.closedWon && b.closedWon && a.opportunity == b.opportunity ==> a == b
  }

  predicate SeedConverted(base: OpsDb, opportunity: string) {
    exists o :: o in base.orders && base.orders[o].opportunity == opportunity
  }

  /** No two orders share an opportunity, nor does one with an order of the seed. */
  ghost predicate OneOrderEach(base: OpsDb, s: set<Event>) {
    && (forall a, b :: a in s && b in s && a.OrderCreated? && b.OrderCreated? && a.opportunity == b.opportunity ==>
        a == b)
    && (forall a :: a in s && a.OrderCreated? ==> !SeedConverted(base, a.opportunity))
  }

  predicate Names(won: seq<CrmEvent>, opportunity: string) {
    exists k :: 0 <= k < |won| && won[k].opportunity == opportunity
  }

  predicate AllOrders(r: seq<Event>) {
    forall i :: 0 <= i < |r| ==> r[i].OrderCreated?
  }

  predicate AllNamed(won: seq<CrmEvent>, r: seq<Event>)
    requires AllOrders(r)
  {
    forall i :: 0 <= i < |r| ==> Names(won, r[i].opportunity)
  }

  predicate Apart(r: seq<Event>)
    requires AllOrders(r)
  {
    forall i, j :: 0 <= i < j < |r| ==> r[i].opportunity != r[j].opportunity
  }

  lemma {:induction false} OrdersTakeTheirOpportunities(sim: Simulation, d: Date, won: seq<CrmEvent>, next: int)
    requires forall i, j :: 0 <= i < j < |won| ==> won[i].opportunity != won[j].opportunity
    ensures var r := MakeOrders(sim, d, won, next); AllOrders(r) && AllNamed(won, r) && Apart(r)
  {
    if |won| > 0 {
      OrdersTakeTheirOpportunities(sim, d, won[1..], next + 1);
      var rest := MakeOrders(sim, d, won[1..], next + 1);
      forall i | 0 <= i < |rest| ensures rest[i].opportunity != won[0].opportunity && Names(won, rest[i].opportunity) {
        assert Names(won[1..], rest[i].opportunity);
        var k :| 0 <= k < |won[1..]| && won[1..][k].opportunity == rest[i].opportunity;
        assert won[k + 1].opportunity == rest[i].opportunity;
      }
      assert Names(won, won[0].opportunity);
    }
  }

  /** The orders of a date are for opportunities not converted before, each for one of its own. */
  lemma ConvertedOnce(sim: Simulation, d: Date, crm: set<CrmEvent>, base: OpsDb, h: set<Event>)
    requires DistinctKeys(crm, CrmId) && WonOnce(crm)
    ensures var r := OrdersOf(sim, d, crm, base, h);
      && AllOrders(r) && Apart(r)
      && forall i :: 0 <= i < |r| ==> r[i].opportunity !in Opportunities(h) && !SeedConverted(base, r[i].opportunity)
  {
    var converted := ConvertedBy(base, h, Refs(crm));
    var due := set e | e in crm && Convertible(sim, d, converted, e);
    var won := SortedSet(due, CrmId);
    SortedSetListsTheSet(due, CrmId);
    forall k | 0 <= k < |won| ensures won[k] in due { assert won[k] in Elements(won); }
    forall i, j | 0 <= i < j < |won| ensures won[i].opportunity != won[j].opportunity {
      assert CrmId(won[i]) < CrmId(won[j]);
    }
    OrdersTakeTheirOpportunities(sim, d, won, NextId(base.orders.Keys + OrderIds(h)));
    var r := OrdersOf(sim, d, crm, base, h);
    hide OrdersOf, ConvertedBy, WonOnce, Opportunities, SeedConverted;
    forall i | 0 <= i < |r| ensures r[i].opportunity !in Opportunities(h) && !SeedConverted(base, r[i].opportunity) {
      assert Names(won, r[i].opportunity);
      var k :| 0 <= k < |won| && won[k].opportunity == r[i].opportunity;
      NotConverted(base, h, Refs(crm), r[i].opportunity);
    }
  }

  lemma NotConverted(base: OpsDb, h: set<Event>, refs: set<string>, opportunity: string)
    requires opportunity in refs && opportunity !in ConvertedBy(base, h, refs)
    ensures opportunity !in Opportunities(h) && !SeedConverted(base, opportunity)
  {
    forall o | o in base.orders ensures base.orders[o].opportunity != opportunity {
      assert base.orders[o].opportunity in refs ==> base.orders[o].opportunity in ReadConverted(base, refs);
    }
  }

  lemma DateKeepsOneOrderEach(c: Context)
    requires Ready(c) && WonOnce(c.crm) && OneOrderEach(c.base, c.start.ledger)
    ensures OneOrderEach(c.base, Ledger(c, 3))
  {
    hide SeedDb, Reflects, Consistent, Injective, WonOnce, OrdersOf, FulfillmentOf, SupportOf, Recorded;
    LedgerIsConsistent(c, 3);
    DayEvents(c, 3);
    ConvertedOnce(c.sim, c.d, c.crm, c.base, c.start.ledger);
    var r := Plan(c).orders;
    assert r == OrdersOf(c.sim, c.d, c.crm, c.base, c.start.ledger);
    hide Ready, PlanDay, Batches;
    NewOrdersStayApart(c.base, c.start.ledger, Ledger(c, 3), r);
  }

  lemma NewOrdersStayApart(base: OpsDb, h: set<Event>, s: set<Event>, r: seq<Event>)
    requires OneOrderEach(base, h) && Orders(s) == Orders(h) + Elements(r)
    requires AllOrders(r) && Apart(r)
    requires forall i :: 0 <= i < |r| ==>
      r[i].opportunity !in Opportunities(h) && !SeedConverted(base, r[i].opportunity)
    ensures OneOrderEach(base, s)
  {
    forall a | a in s && a.OrderCreated?
      ensures a in h || a in Elements(r)
      ensures a in Elements(r) ==> a.opportunity !in Opportunities(h) && !SeedConverted(base, a.opportunity)
    {
      assert a in Orders(s);
      if a in Elements(r) { var i :| 0 <= i < |r| && r[i] == a; }
    }
    forall a, b | a in s && b in s && a.OrderCreated? && b.OrderCreated?
        && a.opportunity == b.opportunity ensures a == b {
      assert a in h ==> a.opportunity in Opportunities(h);
      assert b in h ==> b.opportunity in Opportunities(h);
      if a in Elements(r) && b in Elements(r) {
        var i :| 0 <= i < |r| && r[i] == a;
        var j :| 0 <= j < |r| && r[j] == b;
      }
    }
  }

  /** When every opportunity is won once, no opportunity is ever ordered twice. */
  lemma {:induction false} OneOrderPerOpportunity(s: OpsRun.Setting, d: Date)
    requires OpsRun.Sound(s) && d >= s.baseline && forall e :: WonOnce(s.crm(e))
    ensures OneOrderEach(s.base, OpsRun.Through(s, d).ledger)
    decreases d - s.baseline
  {
    hide OpsRun.Sound, WonOnce, Ready, Reference;
    if d > s.baseline {
      OneOrderPerOpportunity(s, d - 1);
      DateKeepsOneOrderEach(OpsRun.DateContext(s, d));
      OpsRun.ThroughIsReference(s, d);
    }
  }
}
