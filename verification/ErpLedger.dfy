/** The ERP ledger over all dates.

    `Scheduled` is the ledger in closed form: an invoice is on it from its first publishing day on,
    posted once, on that day.  Every date keeps it so, whichever weeks' breach dates meet, and the
    books are a projection of the ledger. */
module ErpLedger {
  import opened Wrappers
  import opened Ordering
  import opened OpsEvents
  import opened OpsDay
  import opened Erp

  /** `visible(d)` are the issued invoices Ops shows once date `d` of Ops is applied. */
  datatype Setting = Setting(p: Policy, base: ErpDb, baseline: Date, visible: Date -> set<Invoice>)

  ghost predicate Bookable(books: Books, inv: Invoice) {
    && inv.company in books.companies && books.hasAccount && books.hasCostCenter(inv.company, inv.date)
    && var amount := CompanyAmount(books, inv, books.companies[inv.company]);
    && amount.Some? && amount.value > 0.0
  }

  ghost predicate DistinctOrders(invoices: set<Invoice>) {
    forall a, b :: a in invoices && b in invoices && a.order == b.order ==> a == b
  }

  /** What Ops hands over by a date: one invoice per order, each with its own id and positive; invoices stay, and
      a later date adds invoices of that date only. */
  ghost predicate Handed(s: Setting, d: Date) {
    && DistinctKeys(s.visible(d), InvoiceId) && DistinctOrders(s.visible(d))
    && (forall inv :: inv in s.visible(d) ==> Bookable(s.base.books, inv) && inv.amount > 0)
    && (d > s.baseline + 1 ==> s.visible(d - 1) <= s.visible(d))
    && (forall inv :: inv in s.visible(d) && (d > s.baseline + 1 ==> inv !in s.visible(d - 1)) ==>
          if d > s.baseline + 1 then inv.date == d else inv.date <= d)
  }

  ghost predicate Sound(s: Setting) {
    && (forall a, b :: s.p.eventId(a) == s.p.eventId(b) ==> a == b)
    && (forall e :: s.p.eventId(e) !in s.base.markers)
    && (forall k :: k in s.base.postings ==> s.base.postings[k].document.None?)
    && (forall d :: d > s.baseline ==> Handed(s, d))
  }

  function PostingIds(l: set<Posting>): set<int> { set e | e in l :: e.postingId }
  function PostedOrders(l: set<Posting>): set<int> { set e | e in l :: e.invoice.order }
  function EventIds(p: Policy, l: set<Posting>): set<EventId> { set e | e in l :: p.eventId(e) }
  function SeedOrders(s: Setting): set<int> { set k | k in s.base.postings :: s.base.postings[k].order }

  ghost predicate Rival(e: Posting, f: Posting) {
    e.postingId == f.postingId || e.invoice.order == f.invoice.order || e.invoice.id == f.invoice.id
  }

  ghost predicate Consistent(s: Setting, l: set<Posting>) {
    && (forall e, f :: e in l && f in l && Rival(e, f) ==> e == f)
    && (forall e :: e in l ==> WellMade(s, e))
  }

  ghost predicate WellMade(s: Setting, e: Posting) {
    && e.postingId !in s.base.postings && Bookable(s.base.books, e.invoice)
    && e.companyCurrency == s.base.books.companies[e.invoice.company]
    && e.invoice.amount > 0 && e.date >= e.invoice.date && e.delay == PostingDelay(s.p, e.invoice)
  }

  /* ---- The books as a projection of the ledger ---- */

  ghost predicate RowPosted(db: ErpDb, e: Posting) {
    && e.postingId in db.postings
    && var amount := CompanyAmount(db.books, e.invoice, e.companyCurrency);
    && amount.Some? && db.postings[e.postingId] == RowOf(e, amount.value)
  }

  ghost predicate Posted(s: Setting, l: set<Posting>, db: ErpDb) {
    && db.books == s.base.books
    && db.markers == s.base.markers + EventIds(s.p, l)
    && db.postings.Keys == s.base.postings.Keys + PostingIds(l)
    && (forall k :: k in s.base.postings ==> k in db.postings && db.postings[k] == s.base.postings[k])
    && (forall e :: e in l ==> RowPosted(db, e))
  }

  lemma DocumentIsNew(s: Setting, l: set<Posting>, e: Posting, db: ErpDb)
    requires Sound(s) && Posted(s, l, db) && Consistent(s, l + {e}) && e !in l
    ensures !HasDocument(db.postings, e.invoice.company, e.invoice.id)
  {
    forall k | k in db.postings ensures db.postings[k].document != Some(e.invoice.id) {
      if k !in s.base.postings {
        var f :| f in l && f.postingId == k;
        assert RowPosted(db, f) && f in l + {e} && e in l + {e};
        assert !Rival(e, f);
      }
    }
  }

  /** A new posting applies without error; a posting applied before changes nothing. */
  lemma ApplyOnePosts(s: Setting, l: set<Posting>, e: Posting, db: ErpDb)
    requires Sound(s) && Posted(s, l, db) && Consistent(s, l + {e})
    ensures ApplyOne(s.p, db, e).Ok? && Posted(s, l + {e}, ApplyOne(s.p, db, e).value)
    ensures e in l ==> ApplyOne(s.p, db, e) == Ok(db)
  {
    if e in l {
      assert l + {e} == l;
      hide Sound, Consistent;
      assert s.p.eventId(e) in EventIds(s.p, l);
    } else {
      DocumentIsNew(s, l, e, db);
      PostingIsNew(s, l, e);
      NewPostingApplies(s, l, e, db);
      hide ApplyOne, Sound, Consistent;
      OneMoreIsPosted(s, l, e, db);
    }
  }

  lemma PostingIsNew(s: Setting, l: set<Posting>, e: Posting)
    requires Sound(s) && Consistent(s, l + {e}) && e !in l
    ensures WellMade(s, e) && e.postingId !in PostingIds(l) && s.p.eventId(e) !in EventIds(s.p, l)
    ensures s.p.eventId(e) !in s.base.markers
  {
    hide Handed, WellMade;
    assert e in l + {e};
    forall f | f in l ensures f.postingId != e.postingId { assert f in l + {e} && !Rival(e, f); }
  }

  ghost function OneMore(p: Policy, db: ErpDb, e: Posting, amount: real): ErpDb {
    db.(postings := db.postings[e.postingId := RowOf(e, amount)], markers := db.markers + {p.eventId(e)})
  }

  lemma NewPostingApplies(s: Setting, l: set<Posting>, e: Posting, db: ErpDb)
    requires Posted(s, l, db) && WellMade(s, e) && e.postingId !in PostingIds(l)
    requires s.p.eventId(e) !in EventIds(s.p, l) && s.p.eventId(e) !in s.base.markers
    requires !HasDocument(db.postings, e.invoice.company, e.invoice.id)
    ensures var amount := CompanyAmount(db.books, e.invoice, e.companyCurrency);
      amount.Some? && ApplyOne(s.p, db, e) == Ok(OneMore(s.p, db, e, amount.value))
  {
    hide RowPosted, CompanyAmount, HasDocument;
    assert e.postingId !in db.postings.Keys;
  }

  lemma OneMoreIsPosted(s: Setting, l: set<Posting>, e: Posting, db: ErpDb)
    requires Posted(s, l, db) && e.postingId !in PostingIds(l) && e.postingId !in s.base.postings
    requires CompanyAmount(db.books, e.invoice, e.companyCurrency).Some?
    ensures Posted(s, l + {e}, OneMore(s.p, db, e, CompanyAmount(db.books, e.invoice, e.companyCurrency).value))
  {
    hide CompanyAmount, RowOf, RowPosted, EventIds, PostingIds;
    IdsGrow(s.p, l, e);
    RowsArePosted(s.p, l, e, db);
  }

  lemma RowsArePosted(p: Policy, l: set<Posting>, e: Posting, db: ErpDb)
    requires e.postingId !in PostingIds(l) && forall f :: f in l ==> RowPosted(db, f)
    requires CompanyAmount(db.books, e.invoice, e.companyCurrency).Some?
    ensures forall f :: f in l + {e} ==>
      RowPosted(OneMore(p, db, e, CompanyAmount(db.books, e.invoice, e.companyCurrency).value), f)
  {
    hide CompanyAmount, RowOf;
    forall f | f in l ensures f.postingId != e.postingId { assert f.postingId in PostingIds(l); }
  }

  lemma IdsGrow(p: Policy, l: set<Posting>, e: Posting)
    ensures PostingIds(l + {e}) == PostingIds(l) + {e.postingId}
    ensures EventIds(p, l + {e}) == EventIds(p, l) + {p.eventId(e)}
  {
  }

  lemma PartIsConsistent(s: Setting, l: set<Posting>, part: set<Posting>)
    requires Consistent(s, l) && part <= l
    ensures Consistent(s, part)
  {
  }

  lemma {:induction false} ApplyAllPosts(s: Setting, l: set<Posting>, batch: seq<Posting>, db: ErpDb)
    requires Sound(s) && Posted(s, l, db) && Consistent(s, l + Elements(batch))
    ensures ApplyAll(s.p, db, batch).Ok? && Posted(s, l + Elements(batch), ApplyAll(s.p, db, batch).value)
    ensures Elements(batch) <= l ==> ApplyAll(s.p, db, batch) == Ok(db)
    decreases |batch|
  {
    hide Sound, Posted, Consistent, ApplyOne;
    if |batch| == 0 {
      assert l + Elements(batch) == l;
    } else {
      var e, rest := batch[0], batch[1..];
      assert Elements(batch) == {e} + Elements(rest);
      PartIsConsistent(s, l + Elements(batch), l + {e});
      ApplyOnePosts(s, l, e, db);
      assert (l + {e}) + Elements(rest) == l + Elements(batch);
      ApplyAllPosts(s, l + {e}, rest, ApplyOne(s.p, db, e).value);
    }
  }

  /** The books are determined by the ledger. */
  lemma PostedIsUnique(s: Setting, l: set<Posting>, a: ErpDb, b: ErpDb)
    requires Posted(s, l, a) && Posted(s, l, b)
    ensures a == b
  {
    forall k | k in a.postings ensures k in b.postings && a.postings[k] == b.postings[k] {
      if k !in s.base.postings {
        var e :| e in l && e.postingId == k;
        assert RowPosted(a, e) && RowPosted(b, e);
      }
    }
    assert a.postings == b.postings;
  }

  /* ---- The posting schedule ---- */

  /** The first date after the baseline on which `inv` is not held back. */
  function FirstDay(s: Setting, inv: Invoice): (d: Date)
    ensures d > s.baseline
  {
    var due := Due(s.p, inv);
    if due <= s.baseline then s.baseline + 1
    else if Breach(s.p, due) then due + 1
    else due
  }

  lemma FirstDayIsFirst(s: Setting, inv: Invoice, d: Date)
    requires d > s.baseline
    ensures Publishes(s.p, d, inv) <==> FirstDay(s, inv) <= d
  {
  }

  /** An invoice issued on a simulated date posts on its due date, or the day after when the due
      date is a breach date. */
  lemma PostingLag(s: Setting, inv: Invoice)
    requires inv.date > s.baseline
    ensures FirstDay(s, inv) == Due(s.p, inv) + if Breach(s.p, Due(s.p, inv)) then 1 else 0
    ensures inv.date + s.p.invoiceToErp.minimum <= FirstDay(s, inv) <= inv.date + s.p.invoiceToErp.maximum + 2
  {
  }

  predicate PostsLate(p: Policy, inv: Invoice) { p.digest(inv.id).1 as real < p.delayedPosting * 255.0 }

  /** A posting is dated after the days it records, one later when that is a breach date; the days are
      one more than the window's when the invoice is delayed, else those its hash byte picks. */
  lemma PostingIsInTime(s: Setting, d: Date, l: set<Posting>, e: Posting)
    requires Scheduled(s, d, l) && Consistent(s, l) && e in l && e.invoice.date > s.baseline
    ensures var due := e.invoice.date + e.delay; e.date == due + if Breach(s.p, due) then 1 else 0
    ensures e.delay == if PostsLate(s.p, e.invoice) then s.p.invoiceToErp.maximum + 1
                       else Turn(s.p.invoiceToErp, s.p.digest(e.invoice.id).0)
  {
    hide Breach;
    assert WellMade(s, e);
    PostingLag(s, e.invoice);
    var b := s.p.digest(e.invoice.id).1;
    assert Share(b) < s.p.delayedPosting <==> b as real < s.p.delayedPosting * 255.0;
    InWindowTakesTurns(s.p.invoiceToErp, s.p.digest(e.invoice.id).0);
  }

  /** The ledger after date `d`: each visible invoice the seed had not posted, on its first day. */
  ghost predicate Scheduled(s: Setting, d: Date, l: set<Posting>) {
    && (forall e :: e in l ==>
          e.invoice in s.visible(d) && e.date == FirstDay(s, e.invoice) <= d && e.invoice.order !in SeedOrders(s))
    && (forall inv :: inv in s.visible(d) && inv.order !in SeedOrders(s) && FirstDay(s, inv) <= d ==>
          exists e :: e in l && e.invoice == inv)
  }

  ghost function DayPostings(s: Setting, d: Date, l: set<Posting>): seq<Posting>
    requires Sound(s) && d > s.baseline
  {
    assert Handed(s, d);
    PlanPostings(s.p, s.base.books.companies, d, s.visible(d),
      SeedOrders(s) + PostedOrders(l), NextId(s.base.postings.Keys + PostingIds(l)))
  }

  /** On a date, exactly the invoices whose first day it is are still unposted and publishable. */
  lemma EligibleOnFirstDay(s: Setting, d: Date, l: set<Posting>, inv: Invoice)
    requires Sound(s) && d > s.baseline && inv in s.visible(d)
    requires Scheduled(s, d - 1, l) && (d == s.baseline + 1 ==> l == {})
    ensures Eligible(s.p, d, SeedOrders(s) + PostedOrders(l), inv)
       <==> inv.order !in SeedOrders(s) && FirstDay(s, inv) == d
  {
    FirstDayIsFirst(s, inv, d);
    assert Handed(s, d);
    if FirstDay(s, inv) < d && inv.order !in SeedOrders(s) {
      assert inv in s.visible(d - 1);
      var e :| e in l && e.invoice == inv;
      assert inv.order in PostedOrders(l);
    }
    forall e | e in l && e.invoice.order == inv.order ensures FirstDay(s, inv) < d {
      assert e.invoice in s.visible(d - 1) && s.visible(d - 1) <= s.visible(d);
      assert e.invoice == inv;
    }
  }

  ghost function DueOn(s: Setting, d: Date): set<Invoice> {
    set inv | inv in s.visible(d) && inv.order !in SeedOrders(s) && FirstDay(s, inv) == d
  }

  /** One posting for each invoice in `due`, numbered from `next`. */
  ghost predicate PostsDue(
    p: Policy, companies: map<string, string>, due: set<Invoice>, d: Date, next: int, x: seq<Posting>)
  {
    && (forall i :: 0 <= i < |x| ==>
          && x[i].invoice in due && x[i].date == d && x[i].postingId == next + i
          && x[i].delay == PostingDelay(p, x[i].invoice)
          && x[i].invoice.company in companies && x[i].companyCurrency == companies[x[i].invoice.company])
    && (forall i, j :: 0 <= i < j < |x| ==> x[i].invoice != x[j].invoice)
    && (forall inv :: inv in due ==> IsPosted(x, inv))
  }

  ghost predicate IsPosted(x: seq<Posting>, inv: Invoice) {
    exists i :: 0 <= i < |x| && x[i].invoice == inv
  }

  lemma EligibleAreDue(s: Setting, d: Date, l: set<Posting>)
    requires Sound(s) && d > s.baseline
    requires Scheduled(s, d - 1, l) && (d == s.baseline + 1 ==> l == {})
    ensures (set inv | inv in s.visible(d) && Eligible(s.p, d, SeedOrders(s) + PostedOrders(l), inv)) == DueOn(s, d)
  {
    forall inv | inv in s.visible(d)
      ensures Eligible(s.p, d, SeedOrders(s) + PostedOrders(l), inv) <==> inv in DueOn(s, d)
    {
      EligibleOnFirstDay(s, d, l, inv);
    }
  }

  lemma PlanPostsEligible(
    p: Policy, companies: map<string, string>, d: Date, visible: set<Invoice>, posted: set<int>, next: int)
    requires DistinctKeys(visible, InvoiceId) && forall inv :: inv in visible ==> inv.company in companies
    ensures PostsDue(p, companies, (set inv | inv in visible && Eligible(p, d, posted, inv)), d, next,
              PlanPostings(p, companies, d, visible, posted, next))
  {
    var listed := EligibleListed(p, d, visible, posted);
    hide Eligible, EligibleListed, PostingDelay, DistinctKeys, PostsDue;
    ListedIsPosted(p, companies, d, listed, next);
    assert PlanPostings(p, companies, d, visible, posted, next) == MakePostings(p, companies, d, listed, next);
  }

  lemma ListedIsPosted(
    p: Policy, companies: map<string, string>, d: Date, listed: seq<Invoice>, next: int)
    requires StrictlySortedBy(listed, InvoiceId)
    requires forall i :: 0 <= i < |listed| ==> listed[i].company in companies
    ensures PostsDue(p, companies, Elements(listed), d, next, MakePostings(p, companies, d, listed, next))
  {
    hide PostingDelay;
    var x := MakePostings(p, companies, d, listed, next);
    forall i | 0 <= i < |x| ensures x[i] == PostingFor(p, companies, d, listed[i], next + i) {}
    forall i, j | 0 <= i < j < |x| ensures x[i].invoice != x[j].invoice {
      assert InvoiceId(listed[i]) < InvoiceId(listed[j]);
    }
    forall inv | inv in Elements(listed) ensures IsPosted(x, inv) {
      var i :| 0 <= i < |listed| && listed[i] == inv;
      assert x[i].invoice == inv;
    }
  }

  lemma PlannedPostings(s: Setting, d: Date, l: set<Posting>)
    requires Sound(s) && d > s.baseline
    requires Scheduled(s, d - 1, l) && (d == s.baseline + 1 ==> l == {})
    ensures PostsDue(s.p, s.base.books.companies, DueOn(s, d), d, NextId(s.base.postings.Keys + PostingIds(l)),
        DayPostings(s, d, l))
  {
    EligibleAreDue(s, d, l);
    assert Handed(s, d);
    hide Scheduled, FirstDay, DueOn, Eligible, NextId, PostsDue, PlanPostings;
    PlanPostsEligible(s.p, s.base.books.companies, d, s.visible(d),
      SeedOrders(s) + PostedOrders(l), NextId(s.base.postings.Keys + PostingIds(l)));
  }

  lemma VisibleBefore(s: Setting, d: Date, inv: Invoice)
    requires Sound(s) && d > s.baseline && inv in s.visible(d) && FirstDay(s, inv) < d
    ensures inv in s.visible(d - 1)
  {
    assert Handed(s, d);
  }

  lemma DayKeepsSchedule(s: Setting, d: Date, l: set<Posting>)
    requires Sound(s) && d > s.baseline
    requires Scheduled(s, d - 1, l) && (d == s.baseline + 1 ==> l == {})
    ensures Scheduled(s, d, l + Elements(DayPostings(s, d, l)))
  {
    hide Sound, NextId, FirstDay, DayPostings;
    PlannedPostings(s, d, l);
    LedgerIsOlder(s, d, l);
    var x := DayPostings(s, d, l);
    forall e | e in Elements(x) ensures e.invoice in DueOn(s, d) && e.date == d {
      var i :| 0 <= i < |x| && x[i] == e;
    }
    forall inv | inv in s.visible(d) && inv.order !in SeedOrders(s) && FirstDay(s, inv) <= d
      ensures exists e :: e in l + Elements(x) && e.invoice == inv
    {
      if FirstDay(s, inv) == d {
        assert IsPosted(x, inv);
        var i :| 0 <= i < |x| && x[i].invoice == inv;
        assert x[i] in l + Elements(x);
      } else {
        VisibleBefore(s, d, inv);
        var e :| e in l && e.invoice == inv;
        assert e in l + Elements(x);
      }
    }
  }

  lemma LedgerIsOlder(s: Setting, d: Date, l: set<Posting>)
    requires Sound(s) && d > s.baseline
    requires Scheduled(s, d - 1, l) && (d == s.baseline + 1 ==> l == {})
    ensures forall e :: e in l ==>
      && e.invoice in s.visible(d) && e.date == FirstDay(s, e.invoice) < d
      && e.postingId < NextId(s.base.postings.Keys + PostingIds(l))
  {
    assert Handed(s, d);
    forall e | e in l ensures e.postingId < NextId(s.base.postings.Keys + PostingIds(l)) {
      assert e.postingId in PostingIds(l);
      assert e.postingId in s.base.postings.Keys + PostingIds(l);
    }
  }

  lemma DayKeepsConsistent(s: Setting, d: Date, l: set<Posting>)
    requires Sound(s) && d > s.baseline && Consistent(s, l)
    requires Scheduled(s, d - 1, l) && (d == s.baseline + 1 ==> l == {})
    ensures Consistent(s, l + Elements(DayPostings(s, d, l)))
    ensures forall e :: e in Elements(DayPostings(s, d, l)) ==> e !in l && e.date == d
    ensures NoRepeats(DayPostings(s, d, l))
  {
    hide FirstDay, DayPostings, NextId, WellMade, PostsDue, Scheduled;
    var x, next := DayPostings(s, d, l), NextId(s.base.postings.Keys + PostingIds(l));
    assert Handed(s, d);
    PlannedPostings(s, d, l);
    LedgerIsOlder(s, d, l);
    hide Sound;
    forall e | e in Elements(x) ensures WellMade(s, e) && e.date == d {
      PlannedIsWellMade(s, d, x, next, e);
    }
    forall e, f | e in l + Elements(x) && f in l + Elements(x) && Rival(e, f) ensures e == f {
      RivalsAreEqual(s, d, l, x, next, e, f);
    }
    PlannedOnce(s, d, x, next);
  }

  lemma PlannedOnce(s: Setting, d: Date, x: seq<Posting>, next: int)
    requires PostsDue(s.p, s.base.books.companies, DueOn(s, d), d, next, x)
    ensures NoRepeats(x)
  {
  }

  lemma PlannedIsWellMade(s: Setting, d: Date, x: seq<Posting>, next: int, e: Posting)
    requires Handed(s, d) && PostsDue(s.p, s.base.books.companies, DueOn(s, d), d, next, x) && e in Elements(x)
    requires forall k :: k in s.base.postings.Keys ==> k < next
    ensures WellMade(s, e) && e.date == d
  {
    hide Bookable;
    var i :| 0 <= i < |x| && x[i] == e;
    assert e.invoice in s.visible(d);
    assert e.postingId in s.base.postings ==> e.postingId in s.base.postings.Keys;
    hide Handed;
  }

  lemma RivalsAreEqual(s: Setting, d: Date, l: set<Posting>, x: seq<Posting>, next: int, e: Posting, f: Posting)
    requires Consistent(s, l) && DistinctKeys(s.visible(d), InvoiceId) && DistinctOrders(s.visible(d))
    requires PostsDue(s.p, s.base.books.companies, DueOn(s, d), d, next, x)
    requires forall g :: g in l ==>
      g.invoice in s.visible(d) && g.date == FirstDay(s, g.invoice) < d && g.postingId < next
    requires e in l + Elements(x) && f in l + Elements(x) && Rival(e, f)
    ensures e == f
  {
    hide FirstDay, WellMade;
    forall g | g in Elements(x) ensures g.invoice in DueOn(s, d) && g.postingId >= next {
      var i :| 0 <= i < |x| && x[i] == g;
    }
    assert e.invoice in s.visible(d) && f.invoice in s.visible(d);
    assert e.invoice.order == f.invoice.order || InvoiceId(e.invoice) == InvoiceId(f.invoice) ==>
        e.invoice == f.invoice;
    if e !in l && f !in l {
      var i :| 0 <= i < |x| && x[i] == e;
      var j :| 0 <= j < |x| && x[j] == f;
    }
  }

  /** The ledger once every date through `d` has run. */
  ghost function Through(s: Setting, d: Date): (l: set<Posting>)
    requires Sound(s) && d >= s.baseline
    ensures Scheduled(s, d, l) && Consistent(s, l) && (d == s.baseline ==> l == {})
    decreases d - s.baseline
  {
    if d == s.baseline then {}
    else
      var l := Through(s, d - 1);
      DayKeepsSchedule(s, d, l);
      DayKeepsConsistent(s, d, l);
      l + Elements(DayPostings(s, d, l))
  }

  /** The ledger through `d` depends on the invoices shown through `d` only. */
  lemma {:induction false} ThroughIsLocal(s: Setting, t: Setting, d: Date)
    requires Sound(s) && Sound(t) && d >= s.baseline
    requires t == s.(visible := t.visible) && forall e :: s.baseline < e <= d ==> s.visible(e) == t.visible(e)
    ensures Through(s, d) == Through(t, d)
    decreases d - s.baseline
  {
    hide Sound, Scheduled, Consistent;
    if d > s.baseline {
      ThroughIsLocal(s, t, d - 1);
      SameDayPostings(s, t, d, Through(s, d - 1));
    }
  }

  lemma SameDayPostings(s: Setting, t: Setting, d: Date, l: set<Posting>)
    requires Sound(s) && Sound(t) && d > s.baseline
    requires t == s.(visible := t.visible) && s.visible(d) == t.visible(d)
    ensures DayPostings(s, d, l) == DayPostings(t, d, l)
  {
    hide PlanPostings;
    assert Handed(s, d) && Handed(t, d);
  }
}
