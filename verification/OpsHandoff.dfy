/** What Ops hands over to ERP: the issued invoices, date by date.

    `visible` below meets everything the ERP schedule assumes of it, because the Ops history is what
    `OpsRun` proves it to be. */
module OpsHandoff {
  import opened Wrappers
  import opened Ordering
  import opened OpsEvents
  import opened OpsTables
  import opened OpsDay
  import opened OpsReplay
  import opened OpsReplan
  import opened OpsTrack
  import OpsRun
  import Erp
  import ErpLedger

  /** An Ops history, the seed invoices that are void, the company of each customer and the currency
      of each order's invoice. */
  datatype Link = Link(ops: OpsRun.Setting, voided: set<int>, company: int -> string, currency: int -> string)

  predicate Shown(k: Link, db: OpsDb, o: int) {
    o in db.invoices && o in db.orders && o in db.invoiceIds && o !in k.voided
  }

  function InvoiceOf(k: Link, db: OpsDb, o: int): Erp.Invoice
    requires Shown(k, db, o)
  {
    Erp.Invoice(db.invoiceIds[o], o, db.invoices[o].invoiceDate,
      k.company(db.orders[o].customerId), k.currency(o), db.invoices[o].amount)
  }

  /** The issued invoices joined with their orders and customers. */
  function IssuedInvoices(k: Link, db: OpsDb): set<Erp.Invoice> {
    set o | o in db.invoices && Shown(k, db, o) :: InvoiceOf(k, db, o)
  }

  ghost predicate IdsSound(db: OpsDb) {
    && db.invoiceIds.Keys == db.invoices.Keys
    && (forall o :: o in db.invoiceIds ==> db.invoiceIds[o] <= db.maxInvoiceId)
    && (forall o, p :: o in db.invoiceIds && p in db.invoiceIds && db.invoiceIds[o] == db.invoiceIds[p] ==> o == p)
  }

  ghost predicate IdsKept(a: OpsDb, b: OpsDb) {
    forall o :: o in a.invoiceIds ==> o in b.invoiceIds && b.invoiceIds[o] == a.invoiceIds[o]
  }

  /** Seed invoices are positive and no younger than the baseline. */
  ghost predicate SeedInvoices(base: OpsDb, baseline: Date) {
    forall o :: o in base.invoices ==> base.invoices[o].invoiceDate <= baseline && base.invoices[o].amount > 0
  }

  ghost predicate Sound(k: Link) {
    && OpsRun.Sound(k.ops) && IdsSound(k.ops.base)
    && k.voided <= k.ops.base.invoices.Keys && SeedInvoices(k.ops.base, k.ops.baseline)
  }

  lemma IdsStaySound(sim: Simulation, db: OpsDb, e: Event)
    requires ApplyOne(sim, db, e).Ok? && IdsSound(db)
    ensures IdsSound(ApplyOne(sim, db, e).value) && IdsKept(db, ApplyOne(sim, db, e).value)
  {
    hide ApplyOne;
    IdsAfter(sim, db, e);
  }

  lemma {:induction false} BatchKeepsIdsSound(sim: Simulation, db: OpsDb, batch: seq<Event>)
    requires ApplyAll(sim, db, batch).Ok? && IdsSound(db)
    ensures IdsSound(ApplyAll(sim, db, batch).value) && IdsKept(db, ApplyAll(sim, db, batch).value)
    decreases |batch|
  {
    hide ApplyOne, IdsSound;
    if |batch| > 0 {
      IdsStaySound(sim, db, batch[0]);
      BatchKeepsIdsSound(sim, ApplyOne(sim, db, batch[0]).value, batch[1..]);
    }
  }

  lemma CommitKeepsIdsSound(sim: Simulation, db: OpsDb, batch: seq<Event>)
    requires IdsSound(db)
    ensures IdsSound(Committed(sim, db, batch)) && IdsKept(db, Committed(sim, db, batch))
  {
    hide IdsSound;
    if ApplySorted(sim, db, batch).Ok? { BatchKeepsIdsSound(sim, db, Sort(batch, Rank)); }
  }

  ghost function Db(k: Link, d: Date): OpsDb
    requires Sound(k) && d >= k.ops.baseline
  {
    OpsRun.Through(k.ops, d).db
  }

  ghost function Events(k: Link, d: Date): set<Event>
    requires Sound(k) && d >= k.ops.baseline
  {
    OpsRun.Through(k.ops, d).ledger
  }

  lemma {:induction false} IdsSoundThrough(k: Link, d: Date)
    requires Sound(k) && d >= k.ops.baseline
    ensures IdsSound(Db(k, d)) && (d > k.ops.baseline ==> IdsKept(Db(k, d - 1), Db(k, d)))
    decreases d - k.ops.baseline
  {
    hide IdsSound, Committed, Reflects, Consistent, SeedDb, PlanDay, Ledger;
    if d > k.ops.baseline {
      IdsSoundThrough(k, d - 1);
      var c := OpsRun.DateContext(k.ops, d);
      CommitKeepsIdsSound(c.sim, c.start.db, Plan(c).orders);
      CommitKeepsIdsSound(c.sim, Reference(c, 1), Listed(c.sim, Downstream(Ledger(c, 3), c.d)));
    }
  }

  ghost predicate EventsGrow(k: Link, d: Date)
    requires Sound(k) && d > k.ops.baseline
  {
    && Events(k, d - 1) <= Events(k, d)
    && forall e :: e in Events(k, d) && e !in Events(k, d - 1) ==> e.date == d
  }

  lemma DateAddsEventsOfTheDate(k: Link, d: Date)
    requires Sound(k) && d > k.ops.baseline
    ensures EventsGrow(k, d)
  {
    hide IdsSound, Committed, Reflects, Consistent, SeedDb, PlanDay, Recorded, Injective, Reference;
    var c := OpsRun.DateContext(k.ops, d);
    LedgerIsConsistent(c, 3);
  }

  lemma ReflectedAt(k: Link, d: Date)
    requires Sound(k) && d >= k.ops.baseline
    ensures OrdersReflect(k.ops.base, Events(k, d), Db(k, d)) && InvoicesReflect(k.ops.base, Events(k, d), Db(k, d))
    ensures Consistent(k.ops.base, Events(k, d))
  {
    hide IdsSound, SeedDb, OrdersReflect, InvoicesReflect, OpsRun.Through;
  }

  /** Rows of invoices and customers of orders, once there, stay as they are. */
  lemma RowsStay(k: Link, d: Date, o: int)
    requires Sound(k) && d > k.ops.baseline
    ensures o in Db(k, d - 1).invoices ==>
      o in Db(k, d).invoices && Db(k, d).invoices[o] == Db(k, d - 1).invoices[o]
    ensures o in Db(k, d - 1).orders ==>
      o in Db(k, d).orders && Db(k, d).orders[o].customerId == Db(k, d - 1).orders[o].customerId
    ensures o in Db(k, d).invoices && o !in Db(k, d - 1).invoices ==> Db(k, d).invoices[o].invoiceDate == d
  {
    hide IdsSound, Consistent, SeedDb, Db, Events, OrdersReflect, InvoicesReflect;
    DateAddsEventsOfTheDate(k, d);
    ReflectedAt(k, d - 1);
    ReflectedAt(k, d);
    InvoiceRowStays(k.ops.base, Events(k, d - 1), Events(k, d), Db(k, d - 1), Db(k, d), d, o);
    CustomerStays(k.ops.base, Events(k, d - 1), Events(k, d), Db(k, d - 1), Db(k, d), o);
  }

  lemma InvoiceRowStays(base: OpsDb, s: set<Event>, t: set<Event>, was: OpsDb, now: OpsDb, d: Date, o: int)
    requires InvoicesReflect(base, s, was) && InvoicesReflect(base, t, now) && s <= t
    requires forall e :: e in t && e !in s ==> e.date == d
    ensures o in was.invoices ==> o in now.invoices && now.invoices[o] == was.invoices[o]
    ensures o in now.invoices && o !in was.invoices ==> now.invoices[o].invoiceDate == d
  {
    if o in InvoicedOrders(s) {
      var e :| e in s && e.InvoiceCreated? && e.orderId == o;
      assert InvoiceRowIs(base, was, e) && InvoiceRowIs(base, now, e);
    } else if o in InvoicedOrders(t) {
      var e :| e in t && e.InvoiceCreated? && e.orderId == o;
      assert InvoiceRowIs(base, now, e);
    }
  }

  lemma CustomerStays(base: OpsDb, s: set<Event>, t: set<Event>, was: OpsDb, now: OpsDb, o: int)
    requires OrdersReflect(base, s, was) && OrdersReflect(base, t, now) && s <= t
    ensures o in was.orders ==> o in now.orders && now.orders[o].customerId == was.orders[o].customerId
  {
    if o in OrderIds(s) {
      var e :| e in s && e.OrderCreated? && e.orderId == o;
      assert OrderRowIs(s, was, e) && OrderRowIs(t, now, e);
    }
  }

  ghost function Visible(k: Link, d: Date): set<Erp.Invoice>
    requires Sound(k)
  {
    if d >= k.ops.baseline then IssuedInvoices(k, Db(k, d)) else {}
  }

  lemma NewInvoicesAreOfTheDate(k: Link, d: Date, inv: Erp.Invoice)
    requires Sound(k) && d > k.ops.baseline && inv in Visible(k, d)
    ensures inv in Visible(k, d - 1) || inv.date == d
  {
    hide Db, Consistent, SeedDb, IdsSound;
    var o :| o in Db(k, d).invoices && Shown(k, Db(k, d), o) && inv == InvoiceOf(k, Db(k, d), o);
    RowsStay(k, d, o);
    IdsSoundThrough(k, d);
    if o in Db(k, d - 1).invoices {
      IdsSoundThrough(k, d - 1);
      InvoicedOrdersExist(k, d - 1, o);
      KnownIds(Db(k, d - 1), o);
      assert Shown(k, Db(k, d - 1), o) && InvoiceOf(k, Db(k, d - 1), o) == inv;
    }
  }

  lemma KnownIds(db: OpsDb, o: int)
    requires IdsSound(db)
    ensures o in db.invoices <==> o in db.invoiceIds
  {
    assert o in db.invoices.Keys <==> o in db.invoiceIds.Keys;
  }

  lemma InvoicedOrdersExist(k: Link, d: Date, o: int)
    requires Sound(k) && d >= k.ops.baseline && o in Db(k, d).invoices
    ensures o in Db(k, d).orders
  {
    ReflectedAt(k, d);
    hide IdsSound, Db, Events;
    if o in InvoicedOrders(Events(k, d)) {
      var e :| e in Events(k, d) && e.InvoiceCreated? && e.orderId == o;
      assert HasParent(Events(k, d), e);
    } else {
      assert o in k.ops.base.invoices.Keys;
    }
  }

  lemma InvoicesStayVisible(k: Link, d: Date, inv: Erp.Invoice)
    requires Sound(k) && d > k.ops.baseline && inv in Visible(k, d - 1)
    ensures inv in Visible(k, d)
  {
    hide Db, Consistent, SeedDb, IdsSound;
    var o :| o in Db(k, d - 1).invoices && Shown(k, Db(k, d - 1), o) && inv == InvoiceOf(k, Db(k, d - 1), o);
    RowsStay(k, d, o);
    IdsSoundThrough(k, d);
    assert Shown(k, Db(k, d), o) && InvoiceOf(k, Db(k, d), o) == inv;
  }

  lemma IssuedAreDistinct(k: Link, db: OpsDb)
    requires IdsSound(db)
    ensures DistinctKeys(IssuedInvoices(k, db), Erp.InvoiceId) && ErpLedger.DistinctOrders(IssuedInvoices(k, db))
  {
    forall a, b | a in IssuedInvoices(k, db) && b in IssuedInvoices(k, db) && Erp.InvoiceId(a) == Erp.InvoiceId(b)
      ensures a == b
    {
      var o :| o in db.invoices && Shown(k, db, o) && a == InvoiceOf(k, db, o);
      var p :| p in db.invoices && Shown(k, db, p) && b == InvoiceOf(k, db, p);
      assert db.invoiceIds[o] == db.invoiceIds[p];
    }
  }

  lemma InvoicesAreDistinct(k: Link, d: Date)
    requires Sound(k) && d >= k.ops.baseline
    ensures DistinctKeys(Visible(k, d), Erp.InvoiceId) && ErpLedger.DistinctOrders(Visible(k, d))
  {
    hide Db, Sound, IdsSound, IssuedInvoices, ErpLedger.DistinctOrders, DistinctKeys;
    IdsSoundThrough(k, d);
    IssuedAreDistinct(k, Db(k, d));
  }

  lemma InvoicesArePositive(k: Link, d: Date, inv: Erp.Invoice)
    requires Sound(k) && d >= k.ops.baseline && inv in Visible(k, d)
    ensures inv.amount > 0
  {
    ReflectedAt(k, d);
    assert k.ops.base.master.price.Some? && k.ops.base.master.price.value > 0;
    hide IdsSound, OpsRun.Sound, OrdersReflect, Consistent, Db, Events;
    var db := Db(k, d);
    var o :| o in db.invoices && Shown(k, db, o) && inv == InvoiceOf(k, db, o);
    if o in InvoicedOrders(Events(k, d)) {
      var e :| e in Events(k, d) && e.InvoiceCreated? && e.orderId == o;
      assert InvoiceRowIs(k.ops.base, db, e);
    } else {
      assert o in k.ops.base.invoices.Keys;
    }
  }

  /** What an invoice says, by the events of its order. */
  predicate IsBilled(k: Link, o: Event, e: Event, inv: Erp.Invoice)
    requires o.OrderCreated? && e.InvoiceCreated?
  {
    && inv.order == e.orderId && inv.date == e.date && inv.company == k.company(o.customerId)
    && inv.currency == k.currency(o.orderId) && k.ops.base.master.price == Some(inv.amount)
  }

  lemma SimulatedIsNotSeeded(k: Link, d: Date, e: Event)
    requires Sound(k) && d >= k.ops.baseline && e in Events(k, d) && e.InvoiceCreated?
    ensures e.orderId !in k.ops.base.invoices
  {
    ReflectedAt(k, d);
    assert k.ops.base.invoices.Keys <= k.ops.base.orders.Keys;
    hide Sound, IdsSound, Events;
    assert HasParent(Events(k, d), e);
    var o :| o in Events(k, d) && o.OrderCreated? && o.orderId == e.orderId;
    assert o.orderId !in k.ops.base.orders.Keys;
  }

  /** ERP sees an invoice for every invoice event, with its order's customer's company. */
  lemma EveryInvoiceIsVisible(k: Link, d: Date, o: Event, e: Event)
    requires Sound(k) && d >= k.ops.baseline && o in Events(k, d) && e in Events(k, d)
    requires o.OrderCreated? && e.InvoiceCreated? && o.orderId == e.orderId
    ensures exists inv :: inv in Visible(k, d) && IsBilled(k, o, e, inv)
  {
    SimulatedIsNotSeeded(k, d, e);
    NotVoided(k, e.orderId);
    ReflectedAt(k, d);
    IdsSoundThrough(k, d);
    hide *;
    var db := Db(k, d);
    RowIsBilled(k, Events(k, d), db, o, e);
    IssuedIsVisible(k, d, e.orderId);
  }

  lemma NotVoided(k: Link, n: int)
    requires Sound(k) && n !in k.ops.base.invoices
    ensures n !in k.voided
  {
  }

  lemma IssuedIsVisible(k: Link, d: Date, n: int)
    requires Sound(k) && d >= k.ops.baseline && Shown(k, Db(k, d), n)
    ensures InvoiceOf(k, Db(k, d), n) in Visible(k, d)
  {
    hide Sound, Db, InvoiceOf;
  }

  lemma RowIsBilled(k: Link, s: set<Event>, db: OpsDb, o: Event, e: Event)
    requires OrdersReflect(k.ops.base, s, db) && InvoicesReflect(k.ops.base, s, db) && IdsSound(db)
    requires o in s && e in s && o.OrderCreated? && e.InvoiceCreated? && o.orderId == e.orderId
    requires e.orderId !in k.voided
    ensures Shown(k, db, e.orderId) && IsBilled(k, o, e, InvoiceOf(k, db, e.orderId))
  {
    assert OrderRowIs(s, db, o) && InvoiceRowIs(k.ops.base, db, e);
    KnownInvoice(db, e.orderId);
    hide IdsSound, OrdersReflect, InvoicesReflect;
  }

  lemma KnownInvoice(db: OpsDb, o: int)
    requires IdsSound(db) && o in db.invoices
    ensures o in db.invoiceIds
  {
    KnownIds(db, o);
  }

  /** And no other: an invoice it sees is of the seed or of an invoice event. */
  lemma VisibleIsBilled(k: Link, d: Date, inv: Erp.Invoice) returns (o: Event, e: Event)
    requires Sound(k) && d >= k.ops.baseline && inv in Visible(k, d) && inv.order !in k.ops.base.invoices
    ensures o in Events(k, d) && e in Events(k, d) && o.OrderCreated? && e.InvoiceCreated? && o.orderId == e.orderId
    ensures IsBilled(k, o, e, inv)
  {
    ReflectedAt(k, d);
    IdsSoundThrough(k, d);
    var n := NumberOf(k, Db(k, d), inv);
    assert n in InvoicedOrders(Events(k, d));
    e :| e in Events(k, d) && e.InvoiceCreated? && e.orderId == n;
    assert HasParent(Events(k, d), e);
    o :| o in Events(k, d) && o.OrderCreated? && o.orderId == n;
    hide Sound, IdsSound, Consistent, Db, Events, OrdersReflect, InvoicesReflect, IsBilled, InvoiceOf;
    RowIsBilled(k, Events(k, d), Db(k, d), o, e);
  }

  lemma NumberOf(k: Link, db: OpsDb, inv: Erp.Invoice) returns (n: int)
    requires inv in IssuedInvoices(k, db)
    ensures n == inv.order && n in db.invoices && Shown(k, db, n) && inv == InvoiceOf(k, db, n)
  {
    n :| n in db.invoices && Shown(k, db, n) && inv == InvoiceOf(k, db, n);
  }

  /** The master data ERP needs to post what Ops shows. */
  ghost predicate Bookable(k: Link, books: Erp.Books)
    requires Sound(k)
  {
    forall d, inv :: inv in Visible(k, d) ==> ErpLedger.Bookable(books, inv)
  }

  /** The ERP setting an Ops history gives rise to. */
  ghost function ErpSetting(k: Link, p: Erp.Policy, base: Erp.ErpDb): ErpLedger.Setting
    requires Sound(k)
  {
    ErpLedger.Setting(p, base, k.ops.baseline, (d: Date) => Visible(k, d))
  }

  /** What Ops hands over meets what the posting schedule assumes: one invoice per order, each with
      an id of its own, positive, never withdrawn, and new ones only of the date itself. */
  lemma OpsHandsOver(k: Link, p: Erp.Policy, base: Erp.ErpDb, d: Date)
    requires Sound(k) && Bookable(k, base.books) && d > k.ops.baseline
    ensures ErpLedger.Handed(ErpSetting(k, p, base), d)
  {
    hide Sound, Visible, ErpLedger.Bookable;
    var s := ErpSetting(k, p, base);
    InvoicesAreDistinct(k, d);
    forall inv | inv in Visible(k, d) ensures inv.amount > 0 { InvoicesArePositive(k, d, inv); }
    forall inv | inv in Visible(k, d) ensures inv in Visible(k, d - 1) || inv.date == d {
      NewInvoicesAreOfTheDate(k, d, inv);
    }
    forall inv | inv in Visible(k, d - 1) ensures inv in Visible(k, d) {
      InvoicesStayVisible(k, d, inv);
    }
    if d == k.ops.baseline + 1 {
      forall inv | inv in Visible(k, d - 1) ensures inv.date < d { SeedInvoicesAreOld(k, inv); }
    }
  }

  /** What Ops shows by a date depends on what CRM brought by then only. */
  lemma VisibleIsLocal(k: Link, l: Link, d: Date)
    requires Sound(k) && Sound(l) && l == k.(ops := k.ops.(crm := l.ops.crm))
    requires forall e :: e <= d ==> k.ops.crm(e) == l.ops.crm(e)
    ensures Visible(k, d) == Visible(l, d)
  {
    if d >= k.ops.baseline {
      DbIsLocal(k, l, d);
      hide Sound, IssuedInvoices, Db;
      SameIssued(k, l, Db(k, d));
    }
  }

  lemma DbIsLocal(k: Link, l: Link, d: Date)
    requires Sound(k) && Sound(l) && l == k.(ops := k.ops.(crm := l.ops.crm)) && d >= k.ops.baseline
    requires forall e :: e <= d ==> k.ops.crm(e) == l.ops.crm(e)
    ensures Db(k, d) == Db(l, d)
  {
    hide IdsSound, OpsRun.Sound, OpsRun.Through;
    OpsRun.ThroughIsLocal(k.ops, l.ops, d);
  }

  lemma SameIssued(k: Link, l: Link, db: OpsDb)
    requires l == k.(ops := l.ops)
    ensures IssuedInvoices(k, db) == IssuedInvoices(l, db)
  {
    forall o ensures Shown(k, db, o) <==> Shown(l, db, o) {}
    forall o | Shown(k, db, o) ensures InvoiceOf(k, db, o) == InvoiceOf(l, db, o) {}
  }

  lemma SeedInvoicesAreOld(k: Link, inv: Erp.Invoice)
    requires Sound(k) && inv in Visible(k, k.ops.baseline)
    ensures inv.date <= k.ops.baseline
  {
    assert Db(k, k.ops.baseline) == k.ops.base;
    hide IdsSound, Db, OpsRun.Sound;
  }
}
