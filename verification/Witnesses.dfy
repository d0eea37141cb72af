/** The assumptions of the simulation can be met: event ids that tell all events apart, a venture with
    them, and a runner that catches up from it.

    An event is spelled as a list of integers and the list coded as one number. */
module Witnesses {
  import opened Wrappers
  import opened Ordering
  import opened OpsEvents
  import opened CrmStages
  import OpsDay
  import OpsTables
  import OpsHandoff
  import OpsFromCrm
  import OpsTrack
  import Erp
  import ErpLedger
  import Scheduler

  /* ---- Lists of integers as numbers ---- */

  function Zigzag(x: int): nat {
    if x >= 0 then 2 * x else -2 * x - 1
  }

  /** The first number is how often the pair can be halved. */
  function Pair(a: nat, b: nat): nat {
    if a == 0 then 2 * b + 1 else 2 * Pair(a - 1, b)
  }

  lemma {:induction false} PairsDiffer(a: nat, b: nat, c: nat, d: nat)
    requires Pair(a, b) == Pair(c, d)
    ensures a == c && b == d
  {
    if a > 0 && c > 0 { PairsDiffer(a - 1, b, c - 1, d); }
  }

  lemma PairIsPositive(a: nat, b: nat)
    ensures Pair(a, b) > 0
  {
  }

  function Code(s: seq<int>): nat {
    if |s| == 0 then 0 else Pair(Zigzag(s[0]), Code(s[1..]))
  }

  lemma {:induction false} CodesDiffer(s: seq<int>, t: seq<int>)
    requires Code(s) == Code(t)
    ensures s == t
  {
    if |s| > 0 { PairIsPositive(Zigzag(s[0]), Code(s[1..])); }
    if |t| > 0 { PairIsPositive(Zigzag(t[0]), Code(t[1..])); }
    if |s| > 0 && |t| > 0 {
      PairsDiffer(Zigzag(s[0]), Code(s[1..]), Zigzag(t[0]), Code(t[1..]));
      CodesDiffer(s[1..], t[1..]);
      assert s == [s[0]] + s[1..] && t == [t[0]] + t[1..];
    }
  }

  function Chars(s: string): (r: seq<int>)
    ensures |r| == |s| && forall i :: 0 <= i < |r| ==> r[i] == s[i] as int
  {
    seq(|s|, i requires 0 <= i < |s| => s[i] as int)
  }

  lemma CharsDiffer(s: string, t: string)
    requires Chars(s) == Chars(t)
    ensures s == t
  {
    assert |Chars(s)| == |Chars(t)|;
    forall i | 0 <= i < |s| ensures s[i] == t[i] { assert Chars(s)[i] == Chars(t)[i]; }
  }

  lemma TailsDiffer(head: seq<int>, other: seq<int>, s: seq<int>, t: seq<int>)
    requires |head| == |other| && head + s == other + t
    ensures head == other && s == t
  {
    assert (head + s)[..|head|] == head && (other + t)[..|head|] == other;
    assert (head + s)[|head|..] == s && (other + t)[|head|..] == t;
  }

  /* ---- Events spelled ---- */

  function Head(e: Event): (r: seq<int>)
    ensures |r| == 6
  {
    match e
    case OrderCreated(d, o, c, _, w, n) => [0, d, o, c, w, n]
    case ShipmentCreated(d, k, o, w, n) => [1, d, k, o, w, n]
    case ShipmentDelivered(d, k, o, w, n) => [2, d, k, o, w, n]
    case InvoiceCreated(d, o, k, w, n) => [3, d, o, k, w, n]
    case CaseOpened(d, c, k, o) => [4, d, c, k, o, 0]
    case CaseResolved(d, c) => [5, d, c, 0, 0, 0]
    case CaseClosed(d, c) => [6, d, c, 0, 0, 0]
  }

  function Spelled(e: Event): seq<int> {
    Head(e) + if e.OrderCreated? then Chars(e.opportunity) else []
  }

  lemma SpelledDiffer(a: Event, b: Event)
    requires Spelled(a) == Spelled(b)
    ensures a == b
  {
    var s := if a.OrderCreated? then Chars(a.opportunity) else [];
    var t := if b.OrderCreated? then Chars(b.opportunity) else [];
    TailsDiffer(Head(a), Head(b), s, t);
    assert Head(a)[0] == Head(b)[0] && Head(a)[1] == Head(b)[1] && Head(a)[2] == Head(b)[2];
    assert Head(a)[3] == Head(b)[3] && Head(a)[4] == Head(b)[4] && Head(a)[5] == Head(b)[5];
    if a.OrderCreated? { CharsDiffer(a.opportunity, b.opportunity); }
  }

  function OpsId(e: Event): EventId { Code(Spelled(e)) }

  lemma OpsIdsDiffer(a: Event, b: Event)
    requires OpsId(a) == OpsId(b)
    ensures a == b
  {
    CodesDiffer(Spelled(a), Spelled(b));
    SpelledDiffer(a, b);
  }

  function PostingHead(e: Erp.Posting): (r: seq<int>)
    ensures |r| == 9
  {
    var i := e.invoice;
    [e.date, e.postingId, e.delay, i.id, i.order, i.date, i.amount, |i.company|, |i.currency|]
  }

  function ErpId(e: Erp.Posting): EventId {
    Code(PostingHead(e)
         + (Chars(e.invoice.company) + (Chars(e.invoice.currency) + Chars(e.companyCurrency))))
  }

  lemma ErpIdsDiffer(a: Erp.Posting, b: Erp.Posting)
    requires ErpId(a) == ErpId(b)
    ensures a == b
  {
    var i, j := a.invoice, b.invoice;
    var s := Chars(i.currency) + Chars(a.companyCurrency);
    var t := Chars(j.currency) + Chars(b.companyCurrency);
    CodesDiffer(PostingHead(a) + (Chars(i.company) + s), PostingHead(b) + (Chars(j.company) + t));
    TailsDiffer(PostingHead(a), PostingHead(b), Chars(i.company) + s, Chars(j.company) + t);
    assert PostingHead(a)[0] == PostingHead(b)[0] && PostingHead(a)[1] == PostingHead(b)[1];
    assert PostingHead(a)[2] == PostingHead(b)[2] && PostingHead(a)[3] == PostingHead(b)[3];
    assert PostingHead(a)[4] == PostingHead(b)[4] && PostingHead(a)[5] == PostingHead(b)[5];
    assert PostingHead(a)[6] == PostingHead(b)[6] && PostingHead(a)[7] == PostingHead(b)[7];
    assert PostingHead(a)[8] == PostingHead(b)[8];
    TailsDiffer(Chars(i.company), Chars(j.company), s, t);
    TailsDiffer(Chars(i.currency), Chars(j.currency), Chars(a.companyCurrency), Chars(b.companyCurrency));
    CharsDiffer(i.company, j.company);
    CharsDiffer(i.currency, j.currency);
    CharsDiffer(a.companyCurrency, b.companyCurrency);
  }

  function StageNumber(s: Stage): int {
    match s
    case Prospecting => 0
    case Qualification => 1
    case Proposal => 2
    case Negotiation => 3
    case ClosedWon => 4
    case Other(_) => 5
  }

  function StageName(s: Stage): string { if s.Other? then s.name else "" }

  function EventStage(e: StageEvent): Stage { if e.Created? then Prospecting else e.stage }

  function StageHead(d: Date, e: StageEvent): (r: seq<int>)
    ensures |r| == 4
  {
    [d, if e.Created? then 0 else if e.Changed? then 1 else 2, e.opportunity, StageNumber(EventStage(e))]
  }

  function CrmEventId(d: Date, e: StageEvent): EventId {
    Code(StageHead(d, e) + Chars(StageName(EventStage(e))))
  }

  lemma CrmIdsDiffer(d: Date, e: StageEvent, d': Date, e': StageEvent)
    requires CrmEventId(d, e) == CrmEventId(d', e')
    ensures d == d' && e == e'
  {
    var s, t := Chars(StageName(EventStage(e))), Chars(StageName(EventStage(e')));
    CodesDiffer(StageHead(d, e) + s, StageHead(d', e') + t);
    TailsDiffer(StageHead(d, e), StageHead(d', e'), s, t);
    assert StageHead(d, e)[0] == StageHead(d', e')[0] && StageHead(d, e)[1] == StageHead(d', e')[1];
    assert StageHead(d, e)[2] == StageHead(d', e')[2] && StageHead(d, e)[3] == StageHead(d', e')[3];
    CharsDiffer(StageName(EventStage(e)), StageName(EventStage(e')));
    assert EventStage(e) == EventStage(e');
  }

  function Strokes(n: nat): string { seq(n, i => '1') }

  /** Opportunity numbers in strokes, after their sign. */
  function OpportunityName(id: int): (s: string)
    ensures |s| == if id >= 0 then 1 + id else 1 - id
  {
    if id >= 0 then ['+'] + Strokes(id) else ['-'] + Strokes(-id)
  }

  lemma NamesDiffer(i: int, j: int)
    requires OpportunityName(i) == OpportunityName(j)
    ensures i == j
  {
    assert OpportunityName(i)[0] == OpportunityName(j)[0];
  }

  /* ---- A venture ---- */

  const SIMULATION: Simulation := Simulation(
    (e: Event) => OpsId(e), (tag: string, id: EventId) => (0, 0),
    Window(1, 3), Window(1, 5), Window(1, 5), Window(0, 3), 0.004, 0.008)

  const POLICY: Erp.Policy := Erp.Policy(
    (e: Erp.Posting) => ErpId(e), (id: int) => (0, 0), Window(1, 2), 0.004, (week: int) => 0)

  const FEED: OpsFromCrm.Feed := OpsFromCrm.Feed(
    (d: Date, e: StageEvent) => CrmEventId(d, e), (id: int) => OpportunityName(id), (id: int) => Some(1))

  const BOOKS: Erp.ErpDb := Erp.ErpDb(
    Erp.Books(map["US01" := "USD"], true, (company: string, d: Date) => true, (currency: string, d: Date) => None),
    map[], {})

  /** One stocked product, no orders yet, and one company that books in dollars. */
  const VENTURE: Scheduler.Venture := Scheduler.Venture(
    FEED, SIMULATION, OpsTrack.STOCKED, 0, {}, (customer: int) => "US01", (o: int) => "USD", POLICY, BOOKS)

  lemma AllIdsDiffer()
    ensures Injective(SIMULATION)
    ensures forall a, b :: POLICY.eventId(a) == POLICY.eventId(b) ==> a == b
    ensures OpsFromCrm.Sound(FEED)
  {
    forall a, b | SIMULATION.eventId(a) == SIMULATION.eventId(b) ensures a == b { OpsIdsDiffer(a, b); }
    forall a, b | POLICY.eventId(a) == POLICY.eventId(b) ensures a == b { ErpIdsDiffer(a, b); }
    forall d, e, d', e' | FEED.eventId(d, e) == FEED.eventId(d', e') ensures d == d' && e == e' {
      CrmIdsDiffer(d, e, d', e');
    }
    forall i, j | FEED.name(i) == FEED.name(j) ensures i == j { NamesDiffer(i, j); }
  }

  lemma AllCanBeBooked(recorded: map<Date, seq<StageEvent>>)
    ensures Scheduler.CanBook(VENTURE, recorded)
  {
    var k := Scheduler.LinkOf(VENTURE, recorded);
    if OpsHandoff.Sound(k) {
      hide OpsHandoff.Sound, OpsHandoff.IssuedInvoices, OpsHandoff.Db, ErpLedger.Bookable;
      forall d, inv | inv in OpsHandoff.Visible(k, d) ensures ErpLedger.Bookable(BOOKS.books, inv) {
        IssuedHere(k, OpsHandoff.Db(k, d), inv);
        OpsHandoff.InvoicesArePositive(k, d, inv);
        DollarsCanBeBooked(inv);
      }
    }
  }

  lemma DollarsCanBeBooked(inv: Erp.Invoice)
    requires inv.company == "US01" && inv.currency == "USD" && inv.amount > 0
    ensures ErpLedger.Bookable(BOOKS.books, inv)
  {
  }

  lemma IssuedHere(k: OpsHandoff.Link, db: OpsTables.OpsDb, inv: Erp.Invoice)
    requires inv in OpsHandoff.IssuedInvoices(k, db)
    requires k.company == VENTURE.company && k.currency == VENTURE.currency
    ensures inv.company == "US01" && inv.currency == "USD"
  {
  }

  /** So there is a venture to which all that is proved of the runner applies. */
  lemma AVentureIsViable()
    ensures Scheduler.Viable(VENTURE)
  {
    AllIdsDiffer();
    forall recorded ensures Scheduler.CanBook(VENTURE, recorded) { AllCanBeBooked(recorded); }
    hide Injective, OpsFromCrm.Sound, Scheduler.CanBook;
  }

  /** And a planner: a new deal every date. */
  function NewDeal(d: Date, stages: Stages): seq<StageEvent> {
    [Created(OpsDay.NextId(stages.Keys))]
  }

  lemma NewDealsArePlans()
    ensures Scheduler.Plans((d: Date, stages: Stages) => NewDeal(d, stages))
  {
    forall stages: Stages ensures OpsDay.NextId(stages.Keys) !in stages {
      assert OpsDay.NextId(stages.Keys) in stages ==> OpsDay.NextId(stages.Keys) in stages.Keys;
    }
  }

  /** From any viable venture a runner catches up through any date, whatever attempts died before. */
  method RunFrom(v: Scheduler.Venture, through: Date, attempts: seq<Scheduler.Attempt>, draw: Scheduler.Draw)
    returns (runner: Scheduler.DailySimulationRunner)
    requires Scheduler.Viable(v) && Scheduler.Plans(draw) && through >= v.baseline
    requires forall i :: 0 <= i < |attempts| ==> Scheduler.Plans(attempts[i].draw)
    ensures runner.Wired() && runner.CaughtUp() && runner.state.watermark == Some(through)
  {
    hide Scheduler.Viable, Scheduler.Plans, Scheduler.DailySimulationRunner.Wired;
    hide Scheduler.DailySimulationRunner.Running;
    runner := new Scheduler.DailySimulationRunner(v, (e: StageEvent) => e.opportunity, map[]);
    runner.CatchUp(through, attempts, draw);
    runner.Initialized();
  }

  method RunVenture(through: Date) returns (runner: Scheduler.DailySimulationRunner)
    requires through >= VENTURE.baseline
    ensures runner.Wired() && runner.CaughtUp() && runner.state.watermark == Some(through)
  {
    AVentureIsViable();
    NewDealsArePlans();
    hide *;
    runner := RunFrom(VENTURE, through, [], (d: Date, stages: Stages) => NewDeal(d, stages));
  }

  /* ---- Hashes against a plan ---- */

  function Exchanged(e: Event): Event {
    if e == OpsTrack.FIRST then OpsTrack.SECOND else if e == OpsTrack.SECOND then OpsTrack.FIRST else e
  }

  /** A simulation with given event ids, whose conversions take a day. */
  function WithIds(id: Event -> EventId): Simulation {
    Simulation(id, (tag: string, id: EventId) => (0, 0),
      Window(1, 3), Window(1, 5), Window(1, 5), Window(0, 3), 0.0, 0.0)
  }

  lemma IdsAreBackwards(id: Event -> EventId)
    requires (forall a, b :: id(a) == id(b) ==> a == b) && id(OpsTrack.SECOND) < id(OpsTrack.FIRST)
    ensures OpsTrack.HashedBackwards(WithIds(id))
  {
  }

  /** Whichever way the coded ids order the two orders, these or the same with both exchanged order
      them against their plan. */
  lemma SomeHashesAreBackwards() returns (sim: Simulation)
    ensures OpsTrack.HashedBackwards(sim)
  {
    hide OpsId, OpsTrack.HashedBackwards, WithIds, Exchanged;
    var first, second := OpsTrack.FIRST, OpsTrack.SECOND;
    var ids := (e: Event) => OpsId(e);
    if OpsId(second) < OpsId(first) {
      forall a, b | ids(a) == ids(b) ensures a == b { OpsIdsDiffer(a, b); }
    } else {
      if OpsId(first) == OpsId(second) { OpsIdsDiffer(first, second); }
      ids := (e: Event) => OpsId(Exchanged(e));
      forall a, b | ids(a) == ids(b) ensures a == b {
        OpsIdsDiffer(Exchanged(a), Exchanged(b));
        ExchangedDiffer(a, b);
      }
      BothExchanged();
    }
    sim := WithIds(ids);
    IdsAreBackwards(ids);
  }

  lemma ExchangedDiffer(a: Event, b: Event)
    requires Exchanged(a) == Exchanged(b)
    ensures a == b
  {
  }

  lemma BothExchanged()
    ensures Exchanged(OpsTrack.FIRST) == OpsTrack.SECOND && Exchanged(OpsTrack.SECOND) == OpsTrack.FIRST
  {
  }
}
