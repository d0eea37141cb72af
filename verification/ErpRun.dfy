/** The ERP portion of a simulation date as it runs, interrupted and repeated at will.

    As for Ops, `budget` is the number of durable writes the process survives. */
module ErpRun {
  import opened Wrappers
  import opened Ordering
  import opened OpsEvents
  import opened OpsDay
  import opened OpsPlanners
  import opened Erp
  import opened ErpLedger

  datatype Outcome = Finished(records: nat, applied: nat) | Crashed | OpsNotApplied | Failed(error: Error)

  ghost function Planned(s: Setting, d: Date): set<Posting>
    requires Sound(s) && d > s.baseline
  {
    Elements(DayPostings(s, d, Through(s, d - 1)))
  }

  /** The date's postings are recorded, applied, both or neither; never applied unrecorded. */
  ghost predicate OnTrack(s: Setting, d: Date, ledger: set<Posting>, db: ErpDb, recorded: bool, committed: bool)
    requires Sound(s) && d > s.baseline
  {
    && (committed ==> recorded)
    && ledger == Through(s, d - 1) + (if recorded then Planned(s, d) else {})
    && Posted(s, Through(s, d - 1) + (if committed then Planned(s, d) else {}), db)
  }

  ghost predicate Recoverable(s: Setting, d: Date, ledger: set<Posting>, db: ErpDb)
    requires Sound(s) && d > s.baseline
  {
    exists recorded, committed :: OnTrack(s, d, ledger, db, recorded, committed)
  }

  lemma Tracked(s: Setting, d: Date, ledger: set<Posting>, db: ErpDb, recorded: bool, committed: bool)
    requires Sound(s) && d > s.baseline && OnTrack(s, d, ledger, db, recorded, committed)
    ensures Recoverable(s, d, ledger, db)
  {
    hide OnTrack;
  }

  lemma DayFacts(s: Setting, d: Date)
    requires Sound(s) && d > s.baseline
    ensures Handed(s, d)
    ensures Through(s, d) == Through(s, d - 1) + Planned(s, d) && Consistent(s, Through(s, d))
    ensures NoRepeats(DayPostings(s, d, Through(s, d - 1)))
    ensures forall e :: e in Through(s, d - 1) ==> e.date < d
    ensures forall e :: e in Planned(s, d) ==> e.date == d
  {
    DayKeepsConsistent(s, d, Through(s, d - 1));
    hide Consistent, FirstDay;
  }

  lemma SelectedByDate(p: Policy, ledger: seq<Posting>, d: Date)
    requires StrictlySortedBy(ledger, p.eventId)
    ensures var events := Select(ledger, (e: Posting) => e.date == d);
      && NoRepeats(events)
      && Elements(events) == (set e | e in Elements(ledger) && e.date == d)
      && |events| == |Elements(events)|
  {
    var test := (e: Posting) => e.date == d;
    SelectElements(ledger, test);
    StrictlySortedHasNoRepeats(ledger, p.eventId);
    SelectKeepsNoRepeats(ledger, test);
    NoRepeatsLength(Select(ledger, test));
  }

  /** Of the ledger, the postings of the date are the planned ones, if recorded. */
  lemma PostingsOfDate(s: Setting, d: Date, ledger: set<Posting>, recorded: bool)
    requires Sound(s) && d > s.baseline && ledger == Through(s, d - 1) + (if recorded then Planned(s, d) else {})
    ensures (set e | e in ledger && e.date == d) == if recorded then Planned(s, d) else {}
  {
    hide Sound, DayPostings, Through, Planned, Consistent;
    DayFacts(s, d);
  }

  /** Planning from the books sees what planning from the ledger they reflect would see. */
  lemma PlanFromBooks(s: Setting, d: Date, l: set<Posting>, db: ErpDb)
    requires Sound(s) && d > s.baseline && Posted(s, l, db)
    ensures Handed(s, d)
    ensures PlanPostings(s.p, db.books.companies, d, s.visible(d), ReadPosted(db, OrderRefs(s.visible(d))),
        NextId(db.postings.Keys))
         == DayPostings(s, d, l)
  {
    assert Handed(s, d);
    var read := ReadPosted(db, OrderRefs(s.visible(d)));
    var known := SeedOrders(s) + PostedOrders(l);
    forall inv | inv in s.visible(d) ensures inv.order in read <==> inv.order in known {
      ReadsOrder(s, l, db, inv.order);
      assert inv.order in OrderRefs(s.visible(d));
      ReadWhenPosted(db, OrderRefs(s.visible(d)), inv.order);
    }
    hide ReadPosted, Sound, Publishes;
    assert (set inv | inv in s.visible(d) && Eligible(s.p, d, read, inv))
        == set inv | inv in s.visible(d) && Eligible(s.p, d, known, inv);
  }

  ghost predicate IsPostedOrder(db: ErpDb, order: int) {
    exists k :: k in db.postings && db.postings[k].order == order
  }

  lemma ReadWhenPosted(db: ErpDb, orders: set<int>, order: int)
    requires order in orders
    ensures order in ReadPosted(db, orders) <==> IsPostedOrder(db, order)
  {
    if IsPostedOrder(db, order) {
      var k :| k in db.postings && db.postings[k].order == order;
      assert db.postings[k].order in ReadPosted(db, orders);
    }
  }

  lemma ReadsOrder(s: Setting, l: set<Posting>, db: ErpDb, order: int)
    requires Posted(s, l, db)
    ensures IsPostedOrder(db, order) <==> order in SeedOrders(s) + PostedOrders(l)
  {
    if IsPostedOrder(db, order) {
      var k :| k in db.postings && db.postings[k].order == order;
      if k !in s.base.postings {
        var e :| e in l && e.postingId == k;
        assert RowPosted(db, e);
      }
    }
    if order in SeedOrders(s) {
      var k :| k in s.base.postings && s.base.postings[k].order == order;
      assert k in db.postings;
    }
    if order in PostedOrders(l) {
      var e :| e in l && e.invoice.order == order;
      assert RowPosted(db, e);
    }
  }

  /** The planner as it runs: collect what is due, then number it by invoice id. */
  method PostingsDue(
    p: Policy, companies: map<string, string>, d: Date, invoices: seq<Invoice>, posted: set<int>, next: int)
    returns (postings: seq<Posting>)
    requires NoRepeats(invoices) && DistinctKeys(Elements(invoices), InvoiceId)
    requires forall inv :: inv in Elements(invoices) ==> inv.company in companies
    ensures postings == PlanPostings(p, companies, d, Elements(invoices), posted, next)
  {
    var breachToday := Breach(p, d);
    ghost var due := (inv: Invoice) => Eligible(p, d, posted, inv);
    var eligible: seq<Invoice> := [];
    for i := 0 to |invoices|
      invariant Collected(invoices, i, due, eligible)
    {
      CollectNext(invoices, i, due, eligible);
      var inv := invoices[i];
      if inv.order in posted { continue; }
      var dueDate := inv.date + PostingDelay(p, inv);
      if dueDate <= d && !(breachToday && dueDate == d) {
        eligible := eligible + [inv];
      }
    }
    ghost var all := set inv | inv in Elements(invoices) && Eligible(p, d, posted, inv);
    SortedCollection(invoices, due, eligible, all, InvoiceId);
    postings := NumberPostings(p, companies, d, Sort(eligible, InvoiceId), next, invoices, posted);
  }

  method NumberPostings(
    p: Policy, companies: map<string, string>, d: Date, listed: seq<Invoice>, next: int,
    ghost invoices: seq<Invoice>, ghost posted: set<int>)
    returns (postings: seq<Posting>)
    requires DistinctKeys(Elements(invoices), InvoiceId)
    requires forall inv :: inv in Elements(invoices) ==> inv.company in companies
    requires listed == EligibleListed(p, d, Elements(invoices), posted)
    ensures postings == PlanPostings(p, companies, d, Elements(invoices), posted, next)
  {
    postings := [];
    for offset := 0 to |listed|
      invariant postings == MakePostings(p, companies, d, listed, next)[..offset]
    {
      postings := postings + [PostingFor(p, companies, d, listed[offset], next + offset)];
    }
  }

  class ErpRun {
    const p: Policy
    var ledger: seq<Posting>
    var db: ErpDb

    ghost predicate Valid()
      reads this
    {
      StrictlySortedBy(ledger, p.eventId)
    }

    constructor (p: Policy, base: ErpDb)
      ensures Valid() && this.p == p && ledger == [] && db == base
    {
      this.p, ledger, db := p, [], base;
    }

    method RecordEvents(events: seq<Posting>)
      requires Valid() && forall a, b :: p.eventId(a) == p.eventId(b) ==> a == b
      modifies this`ledger
      ensures Valid() && Elements(ledger) == old(Elements(ledger)) + Elements(events)
    {
      for i := 0 to |events|
        invariant Valid() && Elements(ledger) == old(Elements(ledger)) + Elements(events[..i])
      {
        var e := events[i];
        ExtendList(events, i);
        if e !in ledger {
          assert e !in Elements(ledger);
          InsertKeepsKeyOrder(e, ledger, p.eventId);
          ledger := Insert(e, ledger, p.eventId);
        } else {
          assert e in Elements(ledger);
        }
      }
      assert events[..|events|] == events;
    }

    /** One transaction, in the order the events are given. */
    method Apply(events: seq<Posting>) returns (r: Result<nat, Error>)
      modifies this`db
      ensures r.Ok? ==> ApplyAll(p, old(db), events) == Ok(db) && |db.markers| == |old(db).markers| + r.value
      ensures r.Err? ==> db == old(db) && ApplyAll(p, db, events).Err?
    {
      var working, count := db, 0;
      hide ApplyPosting;
      for i := 0 to |events|
        invariant ApplyAll(p, db, events) == ApplyAll(p, working, events[i..])
        invariant |working.markers| == |db.markers| + count
      {
        var e := events[i];
        assert events[i..][1..] == events[i + 1..];
        if p.eventId(e) in working.markers { continue; }
        match ApplyPosting(working, e) {
          case Err(error) => return Err(error);
          case Ok(after) =>
            working := after.(markers := after.markers + {p.eventId(e)});
            count := count + 1;
        }
      }
      db := working;
      r := Ok(count);
    }

    lemma OnRecord(s: Setting, d: Date, recorded: bool, committed: bool, events: seq<Posting>)
      requires Sound(s) && d > s.baseline && s.p == p && Valid()
      requires OnTrack(s, d, Elements(ledger), db, recorded, committed)
      requires events == Select(ledger, (e: Posting) => e.date == d)
      ensures NoRepeats(events)
      ensures |events| == 0 ==> forall e :: e in Elements(ledger) ==> e.date != d
      ensures |events| > 0 ==> recorded && Elements(events) == Planned(s, d)
    {
      hide Sound, Posted, DayPostings, Through, Planned, Consistent, Select, NoRepeats;
      SelectedByDate(p, ledger, d);
      PostingsOfDate(s, d, Elements(ledger), recorded);
    }

    /** Plan and record the date's postings when none is on record. */
    method RecordPostings(d: Date, invoices: seq<Invoice>, budget: nat, ghost s: Setting, ghost recorded: bool,
        ghost committed: bool)
      returns (events: seq<Posting>, crashed: bool)
      requires Valid() && Sound(s) && s.p == p && d > s.baseline
      requires StrictlySortedBy(invoices, InvoiceId) && Elements(invoices) == s.visible(d)
      requires OnTrack(s, d, Elements(ledger), db, recorded, committed)
      requires forall e :: e in Elements(ledger) ==> e.date != d
      modifies this`ledger
      ensures Valid() && OnTrack(s, d, Elements(ledger), db, recorded || !crashed, committed)
      ensures NoRepeats(events) && Elements(events) == Planned(s, d) && (crashed <==> budget == 0)
    {
      assert forall a, b :: p.eventId(a) == p.eventId(b) ==> a == b;
      hide Sound, Posted, DayPostings, Through, Consistent, ApplyAll, PlanPostings, Handed;
      DayFacts(s, d);
      NothingPlanned(s, d, recorded, committed);
      CompaniesKnown(s, d, committed);
      PlanFromBooks(s, d, Through(s, d - 1), db);
      var posted := ReadPosted(db, OrderRefs(Elements(invoices)));
      StrictlySortedHasNoRepeats(invoices, InvoiceId);
      events := PostingsDue(p, db.books.companies, d, invoices, posted, NextId(db.postings.Keys));
      if budget == 0 { return events, true; }
      RecordEvents(events);
      crashed := false;
    }

    /** Without a posting of the date on record, what is applied is the ledger before the date. */
    lemma NothingPlanned(s: Setting, d: Date, recorded: bool, committed: bool)
      requires Sound(s) && d > s.baseline && OnTrack(s, d, Elements(ledger), db, recorded, committed)
      requires forall e :: e in Elements(ledger) ==> e.date != d
      ensures Posted(s, Through(s, d - 1), db) && DistinctKeys(s.visible(d), InvoiceId)
      ensures Elements(ledger) == Through(s, d - 1)
      ensures recorded ==> Planned(s, d) == {}
    {
      hide Sound, Posted, DayPostings, Through, Consistent, Planned;
      DayFacts(s, d);
      if recorded {
        assert Planned(s, d) <= Elements(ledger);
        assert Planned(s, d) == {};
      }
      assert Through(s, d - 1) + {} == Through(s, d - 1);
    }

    method CommitPostings(d: Date, events: seq<Posting>, ghost s: Setting, ghost committed: bool)
        returns (first: Result<nat, Error>)
      requires Valid() && Sound(s) && s.p == p && d > s.baseline
      requires OnTrack(s, d, Elements(ledger), db, true, committed) && Elements(events) == Planned(s, d)
      modifies this`db
      ensures OnTrack(s, d, Elements(ledger), db, true, true)
      ensures Elements(ledger) == Through(s, d) && Posted(s, Through(s, d), db)
      ensures first.Ok? && |db.markers| == |old(db).markers| + first.value
    {
      hide Sound, Posted, DayPostings, Through, Consistent, ApplyAll, Planned;
      DayFacts(s, d);
      ghost var before := Through(s, d - 1) + (if committed then Planned(s, d) else {});
      assert before + Elements(events) == Through(s, d);
      ApplyAllPosts(s, before, events, db);
      first := Apply(events);
    }

    method Run(d: Date, invoices: seq<Invoice>, opsApplied: bool, budget: nat, ghost s: Setting)
        returns (outcome: Outcome, left: nat)
      requires Valid() && Sound(s) && s.p == p && d > s.baseline
      requires StrictlySortedBy(invoices, InvoiceId) && Elements(invoices) == s.visible(d)
      requires Recoverable(s, d, Elements(ledger), db)
      modifies this
      ensures Valid() && Recoverable(s, d, Elements(ledger), db)
      ensures old(OnTrack(s, d, Elements(ledger), db, true, true)) ==> OnTrack(s, d, Elements(ledger), db, true, true)
      ensures !outcome.Failed? && (outcome.OpsNotApplied? <==> !opsApplied) && (outcome.Crashed? ==> budget < 2)
      ensures left <= budget <= left + 2
      ensures outcome.Finished? ==>
        && Elements(ledger) == Through(s, d) && Posted(s, Through(s, d), db)
        && outcome.records == |Planned(s, d)|
        && |db.markers| == |old(db).markers| + outcome.applied
    {
      hide Sound, Posted, Through, Consistent, Planned, OnTrack;
      ghost var recorded, committed := true, true;
      if !OnTrack(s, d, Elements(ledger), db, true, true) {
        recorded, committed :| OnTrack(s, d, Elements(ledger), db, recorded, committed);
      }
      hide Recoverable;
      left := budget;
      if !opsApplied { return OpsNotApplied, left; }
      var test := (e: Posting) => e.date == d;
      var events := Select(ledger, test);
      OnRecord(s, d, recorded, committed, events);
      if |events| == 0 {
        var crashed: bool;
        events, crashed := RecordPostings(d, invoices, left, s, recorded, committed);
        recorded := recorded || !crashed;
        Tracked(s, d, Elements(ledger), db, recorded, committed);
        if crashed { return Crashed, 0; }
        left := left - 1;
      }
      if left == 0 { return Crashed, 0; }
      outcome := FinishRun(d, events, s, committed);
      left := left - 1;
    }

    method FinishRun(d: Date, events: seq<Posting>, ghost s: Setting, ghost committed: bool) returns (outcome: Outcome)
      requires Valid() && Sound(s) && s.p == p && d > s.baseline
      requires OnTrack(s, d, Elements(ledger), db, true, committed)
      requires NoRepeats(events) && Elements(events) == Planned(s, d)
      modifies this`db
      ensures Recoverable(s, d, Elements(ledger), db) && outcome.Finished?
      ensures OnTrack(s, d, Elements(ledger), db, true, true)
      ensures Elements(ledger) == Through(s, d) && Posted(s, Through(s, d), db)
      ensures outcome.records == |Planned(s, d)|
      ensures |db.markers| == |old(db).markers| + outcome.applied
    {
      hide Sound, Posted, Through, Planned, OnTrack, Recoverable;
      var first := CommitPostings(d, events, s, committed);
      Tracked(s, d, Elements(ledger), db, true, true);
      NoRepeatsLength(events);
      outcome := Finished(|events|, first.value);
    }

    lemma CompaniesKnown(s: Setting, d: Date, committed: bool)
      requires Sound(s) && d > s.baseline
      requires Posted(s, Through(s, d - 1) + (if committed then Planned(s, d) else {}), db)
      ensures forall inv :: inv in s.visible(d) ==> inv.company in db.books.companies
    {
      assert Handed(s, d);
    }

    /** A date interrupted after each of `crashes` and then left alone ends as if never interrupted. */
    method RunDate(d: Date, invoices: seq<Invoice>, crashes: seq<nat>, ghost s: Setting)
      requires Valid() && Sound(s) && s.p == p && d > s.baseline
      requires StrictlySortedBy(invoices, InvoiceId) && Elements(invoices) == s.visible(d)
      requires Elements(ledger) == Through(s, d - 1) && Posted(s, Through(s, d - 1), db)
      modifies this
      ensures Valid() && Elements(ledger) == Through(s, d) && Posted(s, Through(s, d), db)
    {
      hide Sound, Posted, Through, Planned;
      assert Through(s, d - 1) + {} == Through(s, d - 1);
      assert OnTrack(s, d, Elements(ledger), db, false, false);
      for i := 0 to |crashes|
        invariant Valid() && Recoverable(s, d, Elements(ledger), db)
      {
        var _, _ := Run(d, invoices, true, crashes[i], s);
      }
      var _, _ := Run(d, invoices, true, 2, s);
    }
  }

  /** Over all dates and all crashes, the ledger is the posting schedule and the books reflect it. */
  method RunThrough(
    erp: ErpRun, baseline: Date, through: Date, invoices: Date -> seq<Invoice>, crashes: Date -> seq<nat>,
        ghost s: Setting)
    requires erp.Valid() && Sound(s) && s.p == erp.p && through >= baseline == s.baseline
    requires erp.ledger == [] && erp.db == s.base
    requires forall d :: StrictlySortedBy(invoices(d), InvoiceId) && Elements(invoices(d)) == s.visible(d)
    modifies erp
    ensures Elements(erp.ledger) == Through(s, through) && Scheduled(s, through, Elements(erp.ledger))
    ensures Posted(s, Elements(erp.ledger), erp.db)
  {
    hide *;
    NothingPosted(s, erp.ledger);
    for d := baseline to through
      invariant erp.Valid() && Elements(erp.ledger) == Through(s, d) && Posted(s, Through(s, d), erp.db)
    {
      erp.RunDate(d + 1, invoices(d + 1), crashes(d + 1), s);
    }
    ThroughIsScheduled(s, through);
  }

  lemma NothingPosted(s: Setting, ledger: seq<Posting>)
    requires Sound(s) && ledger == []
    ensures Elements(ledger) == Through(s, s.baseline) && Posted(s, Through(s, s.baseline), s.base)
  {
    assert EventIds(s.p, {}) == {} && PostingIds({}) == {};
    hide Sound, Scheduled, Consistent;
  }

  lemma ThroughIsScheduled(s: Setting, d: Date)
    requires Sound(s) && d >= s.baseline
    ensures Scheduled(s, d, Through(s, d))
  {
    hide Sound, Scheduled, Consistent;
  }
}
